/**
 do_read: a line is read from the terminal's input buffer character by character, with
 backspace, while the keyboard side goes on filling the buffer.
 */
module Terminal {
  import opened InputBuffer
  import opened Wrappers

  const NEWLINE := 10
  const BACKSPACE := 8

  // ---------------------------------------------------------------- the line editor

  /** One character: a backspace takes the last one back, but on an empty line it is stored. */
  function Edit(line: seq<int>, ch: int): seq<int> {
    if ch == BACKSPACE && line != [] then line[..|line| - 1] else line + [ch]
  }

  /** The line that do_read leaves for the given characters. */
  function Edited(keys: seq<int>): seq<int> {
    if keys == [] then [] else Edit(Edited(keys[..|keys| - 1]), keys[|keys| - 1])
  }

  /** The line as one would expect it: a backspace on an empty line does nothing. */
  function Expected(keys: seq<int>): seq<int> {
    if keys == [] then []
    else
      var line, ch := Expected(keys[..|keys| - 1]), keys[|keys| - 1];
      if ch != BACKSPACE then line + [ch] else if line == [] then [] else line[..|line| - 1]
  }

  /** How many backspaces find that line empty. */
  function Strays(keys: seq<int>): nat {
    if keys == [] then 0
    else
      var before := keys[..|keys| - 1];
      Strays(before) + if keys[|keys| - 1] == BACKSPACE && Expected(before) == [] then 1 else 0
  }

  lemma {:induction false} ExpectedHoldsNoBackspace(keys: seq<int>)
    ensures BACKSPACE !in Expected(keys)
  {
    if keys != [] {
      ExpectedHoldsNoBackspace(keys[..|keys| - 1]);
    }
  }

  /** Stray backspaces pair off: an odd one out stays at the front of the line. */
  lemma {:induction false} EditedIsExpectedUpToAStray(keys: seq<int>)
    ensures Edited(keys) == (if Strays(keys) % 2 == 1 then [BACKSPACE] else []) + Expected(keys)
  {
    if keys != [] {
      var before, ch := keys[..|keys| - 1], keys[|keys| - 1];
      EditedIsExpectedUpToAStray(before);
      var front := if Strays(before) % 2 == 1 then [BACKSPACE] else [];
      if ch == BACKSPACE && Expected(before) != [] {
        assert Edit(front + Expected(before), ch) == front + Expected(before)[..|Expected(before)| - 1];
      }
    }
  }

  /** The line is the expected one exactly if the number of stray backspaces is even. */
  lemma WhenTheLineIsAsExpected(keys: seq<int>)
    ensures Edited(keys) == Expected(keys) <==> Strays(keys) % 2 == 0
    ensures Strays(keys) % 2 == 0 <==> BACKSPACE !in Edited(keys)
  {
    EditedIsExpectedUpToAStray(keys);
    ExpectedHoldsNoBackspace(keys);
  }

  /** A single backspace is enough for a line that holds it. */
  lemma BackspaceIsStored()
    ensures Edited([BACKSPACE]) == [BACKSPACE] && Expected([BACKSPACE]) == []
  {
    assert [BACKSPACE][..0] == [];
  }

  // ---------------------------------------------------------------- reading a line

  /** A key is stored whole and read as a char. */
  function Char(key: int): int {
    key % 256
  }

  function Chars(keys: seq<int>): (cs: seq<int>)
    ensures |cs| == |keys|
  {
    seq(|keys|, i requires 0 <= i < |keys| => Char(keys[i]))
  }

  /** The number of keys in the first n batches. */
  function Total(batches: seq<seq<int>>, n: nat): nat
    requires n <= |batches|
  {
    if n == 0 then 0 else Total(batches, n - 1) + |batches[n - 1]|
  }

  /** What has gone into the queue has come out of it or is still there, also after the next step. */
  lemma QueueGoesOn(start: seq<int>, accepted: seq<int>, more: seq<int>, got: seq<int>, rest: seq<int>,
                    taken: seq<int>, left: seq<int>)
    requires start + accepted == got + rest && rest + more == taken + left
    ensures start + (accepted + more) == got + taken + left
  {
    assert start + (accepted + more) == (start + accepted) + more;
    assert (got + rest) + more == got + (rest + more);
  }

  lemma OneMoreKey(got: seq<int>, key: int)
    ensures Chars(got + [key]) == Chars(got) + [Char(key)]
    ensures Edited(Chars(got + [key])) == Edit(Edited(Chars(got)), Char(key))
  {
    var cs := Chars(got) + [Char(key)];
    assert Chars(got + [key]) == cs && cs[..|cs| - 1] == Chars(got);
  }

  lemma {:induction false} TotalGrows(batches: seq<seq<int>>, m: nat, n: nat)
    requires m <= n <= |batches|
    ensures Total(batches, m) <= Total(batches, n)
  {
    if m < n {
      TotalGrows(batches, m, n - 1);
    }
  }

  class Tty {
    const inBuf: Ring

    ghost predicate Valid()
      reads this, inBuf, inBuf.buf
    {
      inBuf.Valid() && inBuf.buf.Length == TTY_IN_BYTES
    }

    constructor ()
      ensures Valid() && inBuf.contents == [] && fresh(inBuf) && fresh(inBuf.buf)
    {
      inBuf := new Ring(TTY_IN_BYTES);
    }

    /** The keyboard side puts a batch of keys; those that find the buffer full are dropped. */
    method PutKeys(keys: seq<int>) returns (ghost accepted: seq<int>)
      requires Valid()
      modifies inBuf, inBuf.buf
      ensures Valid() && inBuf.contents == old(inBuf.contents) + accepted
      ensures var room := TTY_IN_BYTES - |old(inBuf.contents)|;
              accepted == keys[..if |keys| < room then |keys| else room]
    {
      ghost var room := TTY_IN_BYTES - |inBuf.contents|;
      var i := 0;
      while i < |keys|
        invariant 0 <= i <= |keys| && Valid()
        invariant inBuf.contents == old(inBuf.contents) + keys[..if i < room then i else room]
      {
        inBuf.Put(keys[i]);
        i := i + 1;
      }
      accepted := keys[..if |keys| < room then |keys| else room];
    }

    /** The loop of get_char_form_tty: before each test of the buffer's count one batch of keys may arrive. */
    method WaitForKey(batches: seq<seq<int>>, k: nat) returns (next: nat, ghost accepted: seq<int>)
      requires Valid() && k <= |batches|
      modifies inBuf, inBuf.buf
      ensures Valid() && inBuf.contents == old(inBuf.contents) + accepted
      ensures k <= next <= |batches| && (k < |batches| ==> k < next) && (inBuf.contents != [] || next == |batches|)
      ensures |accepted| <= Total(batches, next) - Total(batches, k)
    {
      next, accepted := k, [];
      while next < |batches| && (next == k || inBuf.count <= 0)
        invariant Valid() && k <= next <= |batches| && inBuf.contents == old(inBuf.contents) + accepted
        invariant |accepted| <= Total(batches, next) - Total(batches, k)
        decreases |batches| - next
      {
        ghost var more := PutKeys(batches[next]);
        assert inBuf.contents == old(inBuf.contents) + (accepted + more);
        accepted := accepted + more;
        next := next + 1;
      }
    }

    /** get_char_form_tty: waits until there is a key, or for ever if no batch brings one. */
    method GetChar(batches: seq<seq<int>>, k: nat)
      returns (ch: Option<int>, next: nat, ghost key: int, ghost accepted: seq<int>)
      requires Valid() && k <= |batches|
      modifies inBuf, inBuf.buf
      ensures Valid() && k <= next <= |batches| && (k < |batches| ==> k < next)
      ensures |accepted| <= Total(batches, next) - Total(batches, k)
      ensures ch.Some? ==> old(inBuf.contents) + accepted == [key] + inBuf.contents && ch.value == Char(key)
      ensures ch.None? ==> next == |batches| && old(inBuf.contents) + accepted == [] == inBuf.contents
    {
      next, accepted := WaitForKey(batches, k);
      ch, key := None, 0;
      if inBuf.count > 0 {
        ghost var q := inBuf.contents;
        var x := inBuf.Get();
        key := x;
        assert q == [q[0]] + q[1..];
        ch := Some(Char(x));
      }
    }

    /** The body of do_read's loop, but for the next character. */
    method EditIn(buf: array<int>, cnt: nat, ch: int) returns (n: nat)
      requires cnt < buf.Length
      modifies buf
      ensures n <= cnt + 1 && buf[..n] == Edit(old(buf[..cnt]), ch)
    {
      if ch == BACKSPACE && cnt > 0 {
        return cnt - 1;
      }
      buf[cnt] := ch;
      n := cnt + 1;
    }

    /** One turn of do_read's loop: the character ch, read from key, is edited in, and the next one fetched. */
    method Advance(batches: seq<seq<int>>, k: nat, buf: array<int>, cnt: nat, ch: int, ghost start: seq<int>,
                   ghost accepted: seq<int>, ghost got: seq<int>, ghost key: int)
      returns (cnt': nat, ch': Option<int>, k': nat, ghost accepted': seq<int>, ghost key': int)
      requires Valid() && buf != inBuf.buf && k <= |batches| && cnt < buf.Length && ch == Char(key)
      requires buf[..cnt] == Edited(Chars(got)) && start + accepted == got + [key] + inBuf.contents
      modifies inBuf, inBuf.buf, buf
      ensures Valid() && k <= k' <= |batches| && (k < |batches| ==> k < k')
      ensures |accepted'| <= |accepted| + Total(batches, k') - Total(batches, k)
      ensures cnt' <= cnt + 1 && buf[..cnt'] == Edited(Chars(got + [key]))
      ensures start + accepted' == got + [key] + (if ch'.Some? then [key'] else []) + inBuf.contents
      ensures ch'.Some? ==> ch'.value == Char(key')
      ensures ch'.None? ==> inBuf.contents == []
      ensures k' == |batches| == k && ch'.Some? ==> |inBuf.contents| < |old(inBuf.contents)|
    {
      OneMoreKey(got, key);
      cnt' := EditIn(buf, cnt, ch);
      ghost var rest := inBuf.contents;
      ghost var more;
      ch', k', key', more := GetChar(batches, k);
      accepted' := accepted + more;
      QueueGoesOn(start, accepted, more, got + [key], rest, if ch'.Some? then [key'] else [], inBuf.contents);
    }

    /**
     do_read. got is what it took from the buffer and accepted what was put there meanwhile: it takes the
     keys in order, stops at the first line feed, and leaves the edited line behind it, ended by a 0.
     */
    method DoRead(batches: seq<seq<int>>, buf: array<int>)
      returns (r: Option<nat>, ghost got: seq<int>, ghost accepted: seq<int>)
      requires Valid() && buf != inBuf.buf && buf.Length > |inBuf.contents| + Total(batches, |batches|)
      modifies inBuf, inBuf.buf, buf
      ensures Valid() && old(inBuf.contents) + accepted == got + inBuf.contents
      ensures r.Some? ==>
                && got != [] && Char(got[|got| - 1]) == NEWLINE && NEWLINE !in Chars(got)[..|got| - 1]
                && r.value < buf.Length && buf[..r.value] == Edited(Chars(got)[..|got| - 1]) && buf[r.value] == 0
      ensures r.None? ==> inBuf.contents == [] && NEWLINE !in Chars(got)
    {
      got := [];
      var cnt := 0;
      var ch, k;
      ghost var key;
      ch, k, key, accepted := GetChar(batches, 0);
      while ch.Some? && ch.value != NEWLINE
        invariant Valid() && 0 <= k <= |batches| && |accepted| <= Total(batches, k)
        invariant old(inBuf.contents) + accepted == got + (if ch.Some? then [key] else []) + inBuf.contents
        invariant ch.Some? ==> ch.value == Char(key)
        invariant ch.None? ==> inBuf.contents == []
        invariant 0 <= cnt <= |got| && cnt <= buf.Length && buf[..cnt] == Edited(Chars(got)) && NEWLINE !in Chars(got)
        decreases |batches| - k, |inBuf.contents|, if ch.Some? then 1 else 0
      {
        TotalGrows(batches, k, |batches|);
        OneMoreKey(got, key);
        ghost var last := key;
        cnt, ch, k, accepted, key := Advance(batches, k, buf, cnt, ch.value, old(inBuf.contents), accepted, got, key);
        got := got + [last];
      }
      if ch.None? {
        return None, got, accepted;
      }
      TotalGrows(batches, k, |batches|);
      OneMoreKey(got, key);
      buf[cnt] := 0;
      got := got + [key];
      r := Some(cnt);
    }
  }
}
