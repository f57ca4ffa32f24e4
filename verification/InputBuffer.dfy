/**
 The two input buffers, of the keyboard driver and of a terminal: rings with a head, a tail
 and a count, against queues of bounded length.
 */
module InputBuffer {
  const TTY_IN_BYTES := 256

  // ---------------------------------------------------------------- bounded queues

  /** A put on a full queue is dropped. */
  function Queued(q: seq<int>, capacity: nat, x: int): seq<int> {
    if |q| < capacity then q + [x] else q
  }

  /** A put by the interrupt side, or a get by the reader; a get waits until there is something to take. */
  datatype Event = Arrives(x: int) | Reads

  /** The queue, what has been let in and what has been read so far, and how many puts were dropped. */
  datatype History = History(q: seq<int>, accepted: seq<int>, taken: seq<int>, dropped: nat)

  function Happen(h: History, capacity: nat, e: Event): History {
    match e
    case Arrives(x) =>
      if |h.q| < capacity then h.(q := Queued(h.q, capacity, x), accepted := h.accepted + [x])
      else h.(q := Queued(h.q, capacity, x), dropped := h.dropped + 1)
    case Reads => if h.q == [] then h else h.(q := h.q[1..], taken := h.taken + [h.q[0]])
  }

  function HappenAll(h: History, capacity: nat, es: seq<Event>): History
    decreases |es|
  {
    if es == [] then h else HappenAll(Happen(h, capacity, es[0]), capacity, es[1..])
  }

  predicate Faithful(h: History, capacity: nat) {
    |h.q| <= capacity && h.accepted == h.taken + h.q
  }

  /** Under any interleaving the reader sees just what was let in, in order, and the queue holds the rest. */
  lemma {:induction false} ReadInOrder(h: History, capacity: nat, es: seq<Event>)
    requires Faithful(h, capacity)
    ensures Faithful(HappenAll(h, capacity, es), capacity)
    decreases |es|
  {
    if es != [] {
      var g := Happen(h, capacity, es[0]);
      assert es[0].Reads? && h.q != [] ==> h.accepted == h.taken + ([h.q[0]] + h.q[1..]);
      assert Faithful(g, capacity);
      ReadInOrder(g, capacity, es[1..]);
    }
  }

  /** Every arrival is either let in or counted as dropped. */
  lemma {:induction false} NothingElseIsLost(h: History, capacity: nat, es: seq<Event>)
    ensures var r := HappenAll(h, capacity, es);
            |r.accepted| + r.dropped == |h.accepted| + h.dropped + |Arrivals(es)|
    decreases |es|
  {
    if es != [] {
      NothingElseIsLost(Happen(h, capacity, es[0]), capacity, es[1..]);
    }
  }

  function Arrivals(es: seq<Event>): seq<int> {
    if es == [] then [] else (if es[0].Arrives? then [es[0].x] else []) + Arrivals(es[1..])
  }

  /** At every arrival what is queued is below the capacity. */
  predicate InTime(h: History, capacity: nat, es: seq<Event>)
    decreases |es|
  {
    es == [] || ((es[0].Arrives? ==> |h.q| < capacity) && InTime(Happen(h, capacity, es[0]), capacity, es[1..]))
  }

  lemma {:induction false} DropsOnlyAdd(h: History, capacity: nat, es: seq<Event>)
    ensures HappenAll(h, capacity, es).dropped >= h.dropped
    decreases |es|
  {
    if es != [] {
      DropsOnlyAdd(Happen(h, capacity, es[0]), capacity, es[1..]);
    }
  }

  /** Nothing is dropped exactly if every arrival finds room, and then everything that arrives is let in. */
  lemma {:induction false} NothingDroppedInTime(h: History, capacity: nat, es: seq<Event>)
    ensures HappenAll(h, capacity, es).dropped == h.dropped <==> InTime(h, capacity, es)
    ensures InTime(h, capacity, es) ==> HappenAll(h, capacity, es).accepted == h.accepted + Arrivals(es)
    decreases |es|
  {
    if es != [] {
      var g := Happen(h, capacity, es[0]);
      NothingDroppedInTime(g, capacity, es[1..]);
      DropsOnlyAdd(g, capacity, es[1..]);
      assert es[0].Arrives? ==> Arrivals(es) == [es[0].x] + Arrivals(es[1..]);
    }
  }

  // ---------------------------------------------------------------- the ring

  /** The index k places behind tail, going round at the end of the buffer. */
  function Place(tail: nat, k: nat, size: nat): int {
    if tail + k < size then tail + k else tail + k - size
  }

  lemma PlaceIsModular(tail: nat, k: nat, size: nat)
    requires tail < size && k <= size
    ensures Place(tail, k, size) == (tail + k) % size
  {
    var q, r := (tail + k) / size, (tail + k) % size;
    assert tail + k == q * size + r && q * size < 2 * size;
    assert q < 2;
  }

  function Items(buf: seq<int>, tail: nat, count: nat): (q: seq<int>)
    requires tail < |buf| && count <= |buf|
    ensures |q| == count
  {
    seq(count, k requires 0 <= k < count => buf[Place(tail, k, |buf|)])
  }

  lemma ItemsAfterPut(buf: seq<int>, tail: nat, count: nat, x: int)
    requires tail < |buf| && count < |buf|
    ensures var head := Place(tail, count, |buf|);
            Items(buf[head := x], tail, count + 1) == Items(buf, tail, count) + [x]
  {
  }

  lemma ItemsAfterGet(buf: seq<int>, tail: nat, count: nat)
    requires tail < |buf| && 0 < count <= |buf|
    ensures buf[tail] == Items(buf, tail, count)[0]
    ensures Items(buf, Place(tail, 1, |buf|), count - 1) == Items(buf, tail, count)[1..]
  {
    var size, next := |buf|, Place(tail, 1, |buf|);
    forall k | 0 <= k < count - 1 ensures Items(buf, next, count - 1)[k] == Items(buf, tail, count)[1..][k] {
      assert Place(next, k, size) == Place(tail, k + 1, size);
    }
  }

  class Ring {
    const buf: array<int>
    var head: nat
    var tail: nat
    var count: nat

    ghost var contents: seq<int>

    /** head stands behind the last item, all modulo the size. */
    ghost predicate Valid()
      reads this, buf
    {
      && tail < buf.Length && count <= buf.Length && head == Place(tail, count, buf.Length)
      && contents == Items(buf[..], tail, count)
    }

    constructor (size: nat)
      requires size > 0
      ensures Valid() && contents == [] && buf.Length == size && fresh(buf)
    {
      buf := new int[size](i => 0);
      head := 0;
      tail := 0;
      count := 0;
      contents := [];
    }

    /** put_key, and the body of keyboard_handler. */
    method Put(x: int)
      requires Valid()
      modifies this`head, this`count, this`contents, buf
      ensures Valid() && contents == Queued(old(contents), buf.Length, x)
    {
      if count < buf.Length {
        ItemsAfterPut(buf[..], tail, count, x);
        contents := contents + [x];
        buf[head] := x;
        head := head + 1;
        if head == buf.Length {
          head := 0;
        }
        count := count + 1;
      }
    }

    /** get_char_form_tty and get_byte_from_kbuf, once there is something to take. */
    method Get() returns (x: int)
      requires Valid() && count > 0
      modifies this`tail, this`count, this`contents
      ensures Valid() && x == old(contents)[0] && contents == old(contents)[1..]
    {
      ItemsAfterGet(buf[..], tail, count);
      contents := contents[1..];
      x := buf[tail];
      tail := tail + 1;
      if tail == buf.Length {
        tail := 0;
      }
      count := count - 1;
    }
  }
}
