/**
 The log of messages posted and taken, and what it says about delivery: every
 message is taken at most once, from the process that sent it, in the order sent.
 */
module IpcLog {
  import opened ProcTable
  import opened IpcSpec

  datatype Mail = Mail(from: int, m: Message)

  function Letter(s: State, i: int): Message {
    if 0 <= i < |s.procs| && i < |s.mem| then Load(s.mem[i], s.procs[i].msg) else ZERO_MESSAGE
  }

  /** The mail that the processes queued at d are holding, in queue order. */
  function Pending(s: State, d: int): seq<Mail>
    requires 0 <= d < |s.queues|
  {
    seq(|s.queues[d]|, k requires 0 <= k < |s.queues[d]| => Mail(s.queues[d][k], Letter(s, s.queues[d][k])))
  }

  function DropFirst(mail: seq<Mail>, from: int): seq<Mail> {
    if mail == [] then []
    else if mail[0].from == from then mail[1..]
    else [mail[0]] + DropFirst(mail[1..], from)
  }

  function FirstFrom(mail: seq<Mail>, from: int): seq<Mail> {
    if mail == [] then []
    else if mail[0].from == from then [mail[0]]
    else FirstFrom(mail[1..], from)
  }

  /** What the log says is still on its way to d, oldest first. */
  function Outstanding(t: seq<Entry>, d: int): seq<Mail> {
    if t == [] then []
    else
      var earlier := Outstanding(t[..|t| - 1], d);
      match t[|t| - 1]
      case Posted(from, to, m) => if to == d then earlier + [Mail(from, m)] else earlier
      case Taken(receiver, from, m) => if receiver == d then DropFirst(earlier, from) else earlier
      case Interrupted(_) => earlier
  }

  /** Every message names its real sender, and what is taken from a sender is the oldest it has on its way. */
  predicate WellLogged(t: seq<Entry>) {
    t == [] ||
    (&& WellLogged(t[..|t| - 1])
     && match t[|t| - 1]
        case Posted(from, _, m) => m.source == from
        case Taken(receiver, from, m) => FirstFrom(Outstanding(t[..|t| - 1], receiver), from) == [Mail(from, m)]
        case Interrupted(_) => true)
  }

  ghost predicate LogOk(s: State) {
    && WellLogged(s.trace)
    && forall d :: 0 <= d < |s.queues| ==> Outstanding(s.trace, d) == Pending(s, d)
  }

  lemma Appended(t: seq<Entry>, e: Entry)
    ensures (t + [e])[..|t + [e]| - 1] == t
  {
  }

  /** The queues are the same, and so is what the processes in them are sending. */
  ghost predicate SameMail(s: State, t: State) {
    && t.queues == s.queues
    && forall d, x {:trigger x in s.queues[d]} :: 0 <= d < |s.queues| && x in s.queues[d] ==>
       Letter(t, x) == Letter(s, x)
  }

  lemma SamePending(s: State, t: State, d: int)
    requires SameMail(s, t) && 0 <= d < |s.queues|
    ensures Pending(t, d) == Pending(s, d)
  {
    forall k | 0 <= k < |s.queues[d]| ensures Pending(t, d)[k] == Pending(s, d)[k] {
      assert s.queues[d][k] in s.queues[d];
    }
  }

  lemma SameMailSameLog(s: State, t: State)
    requires LogOk(s) && t.trace == s.trace && SameMail(s, t)
    ensures LogOk(t)
  {
    forall d | 0 <= d < |t.queues| ensures Outstanding(t.trace, d) == Pending(t, d) {
      SamePending(s, t, d);
    }
  }

  lemma InterruptKeepsLog(s: State, t: State, p: int)
    requires LogOk(s) && t.trace == s.trace + [Interrupted(p)] && SameMail(s, t)
    ensures LogOk(t)
  {
    Appended(s.trace, Interrupted(p));
    forall d | 0 <= d < |t.queues| ensures Outstanding(t.trace, d) == Pending(t, d) {
      SamePending(s, t, d);
    }
  }

  /** Dropping the first mail from f, when it stands at position k. */
  lemma {:induction false} DropAt(mail: seq<Mail>, f: int, k: nat)
    requires k < |mail| && mail[k].from == f && forall j :: 0 <= j < k ==> mail[j].from != f
    ensures DropFirst(mail, f) == mail[..k] + mail[k + 1..]
    ensures FirstFrom(mail, f) == [mail[k]]
  {
    if k > 0 {
      DropAt(mail[1..], f, k - 1);
      assert mail[..k] == [mail[0]] + mail[1..][..k - 1];
      assert mail[1..][k - 1 + 1..] == mail[k + 1..];
    } else {
      assert mail[..0] + mail[1..] == mail[1..];
    }
  }

  /** Pending(t, d) is Pending(s, d) if neither the queue nor the letters of its members have changed. */
  lemma SameQueueSamePending(s: State, t: State, d: int)
    requires 0 <= d < |s.queues| == |t.queues| && t.queues[d] == s.queues[d]
    requires forall x :: x in s.queues[d] ==> Letter(t, x) == Letter(s, x)
    ensures Pending(t, d) == Pending(s, d)
  {
    forall k | 0 <= k < |s.queues[d]| ensures Pending(t, d)[k] == Pending(s, d)[k] {
      assert s.queues[d][k] in s.queues[d];
    }
  }

  lemma EnqueueKeepsLog(s: State, c: int, dest: int, a: int)
    requires Shaped(s) && LogOk(s) && IsPid(c) && IsPid(dest)
    requires Load(s.mem[c], a).source == c
    requires forall d :: 0 <= d < N ==> c !in s.queues[d]
    ensures LogOk(Enqueue(s, c, dest, a))
  {
    var t := Enqueue(s, c, dest, a);
    var e := Posted(c, dest, Load(s.mem[c], a));
    Appended(s.trace, e);
    forall d | 0 <= d < N ensures Outstanding(t.trace, d) == Pending(t, d) {
      if d == dest {
        QueuedLast(s, c, dest, a);
      } else {
        SameQueueSamePending(s, t, d);
      }
    }
  }

  lemma QueuedLast(s: State, c: int, dest: int, a: int)
    requires Shaped(s) && IsPid(c) && IsPid(dest) && c !in s.queues[dest]
    ensures Pending(Enqueue(s, c, dest, a), dest) == Pending(s, dest) + [Mail(c, Load(s.mem[c], a))]
  {
    var t := Enqueue(s, c, dest, a);
    var n := |s.queues[dest]|;
    forall k | 0 <= k < n ensures Pending(t, dest)[k] == Pending(s, dest)[k] {
      assert s.queues[dest][k] in s.queues[dest];
    }
    assert t.queues[dest][n] == c && Letter(t, c) == Load(s.mem[c], a);
  }

  lemma TakeKeepsLog(s: State, f: int, a: int)
    requires Shaped(s) && LogOk(s) && IsPid(f) && f in s.queues[s.ready]
    requires forall d :: 0 <= d < N ==> s.ready !in s.queues[d]
    requires forall d :: 0 <= d < N && f in s.queues[d] ==> d == s.ready
    requires NoDup(s.queues[s.ready])
    ensures LogOk(Take(s, f, a))
  {
    var c := s.ready;
    var t := Take(s, f, a);
    Appended(s.trace, Taken(c, f, Letter(s, f)));
    var k := IndexOf(s.queues[c], f);
    assert Pending(s, c)[k] == Mail(f, Letter(s, f));
    DropAt(Pending(s, c), f, k);
    forall d | 0 <= d < N ensures Outstanding(t.trace, d) == Pending(t, d) {
      if d == c {
        TakenOut(s, f, a);
      } else {
        SameQueueSamePending(s, t, d);
      }
    }
  }

  lemma TakenOut(s: State, f: int, a: int)
    requires Shaped(s) && IsPid(f) && f in s.queues[s.ready] && s.ready !in s.queues[s.ready]
    requires NoDup(s.queues[s.ready])
    ensures var c := s.ready; var k := IndexOf(s.queues[c], f);
            Pending(Take(s, f, a), c) == Pending(s, c)[..k] + Pending(s, c)[k + 1..]
  {
    var c := s.ready;
    var q := s.queues[c];
    var k := IndexOf(q, f);
    var t := Take(s, f, a);
    forall j | 0 <= j < |q| && j != k ensures Letter(t, q[j]) == Letter(s, q[j]) {
      assert q[j] in q;
    }
  }

  lemma RendezvousKeepsLog(s: State, c: int, dest: int, a: int)
    requires Shaped(s) && LogOk(s) && IsPid(c) && IsPid(dest)
    requires Load(s.mem[c], a).source == c
    requires c !in s.queues[dest]
    requires forall d :: 0 <= d < N ==> dest !in s.queues[d]
    ensures LogOk(Rendezvous(s, c, dest, a))
  {
    var t := Rendezvous(s, c, dest, a);
    var m := Load(s.mem[c], a);
    var posted := s.trace + [Posted(c, dest, m)];
    Appended(s.trace, Posted(c, dest, m));
    Appended(posted, Taken(dest, c, m));
    assert t.trace == posted + [Taken(dest, c, m)];
    var mail := Pending(s, dest) + [Mail(c, m)];
    assert Outstanding(posted, dest) == mail;
    forall j | 0 <= j < |mail| - 1 ensures mail[j].from != c {
      assert s.queues[dest][j] in s.queues[dest];
    }
    DropAt(mail, c, |mail| - 1);
    assert mail[..|mail| - 1] + mail[|mail|..] == Pending(s, dest);
    forall d | 0 <= d < N ensures Outstanding(t.trace, d) == Pending(t, d) {
      SameQueueSamePending(s, t, d);
    }
  }
}
