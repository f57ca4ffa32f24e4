/**
 The IPC kernel and the scheduler as the source has them: a process table that is
 updated in place, with the sending queues threaded through its entries.
 */
module Kernel {
  import opened ProcTable
  import opened SchedSpec
  import opened IpcSpec
  import opened IpcInv
  import opened WaitGraph
  import opened IpcRuns

  const SEND := 1
  const RECEIVE := 2

  /** How a kernel entry ends: normally, in panic(), or at a failed assert(). */
  datatype Result = Ok | Panicked | AssertionFailed

  function Nth(q: seq<int>, k: nat): int {
    if k < |q| then q[k] else NIL
  }

  /** The link of the k-th entry of q leads to the next one. */
  predicate LeadsOn(nexts: seq<int>, q: seq<int>, k: nat)
    requires k < |q|
  {
    0 <= q[k] < |nexts| ==> nexts[q[k]] == Nth(q, k + 1)
  }

  /** The links thread exactly the given queues, each ended by a null link. */
  ghost predicate Linked(heads: seq<int>, nexts: seq<int>, qs: seq<seq<int>>) {
    && |heads| == |nexts| == |qs| == N
    && (forall d {:trigger heads[d]} :: 0 <= d < N ==> heads[d] == Nth(qs[d], 0))
    && (forall d, k {:trigger LeadsOn(nexts, qs[d], k)} :: 0 <= d < N && 0 <= k < |qs[d]| ==> LeadsOn(nexts, qs[d], k))
  }

  /** Each process stands in at most one queue, and there once. */
  ghost predicate Separate(qs: seq<seq<int>>) {
    && |qs| == N
    && (forall d, x {:trigger x in qs[d]} :: 0 <= d < N && x in qs[d] ==> IsPid(x))
    && (forall d {:trigger NoDup(qs[d])} :: 0 <= d < N ==> NoDup(qs[d]))
    && (forall d, e, x {:trigger x in qs[d], x in qs[e]} :: 0 <= d < N && 0 <= e < N && x in qs[d] && x in qs[e] ==>
        d == e)
  }

  lemma QueuesAreSeparate(ps: seq<Proc>, qs: seq<seq<int>>)
    requires QueuesOk(ps, qs)
    ensures Separate(qs)
    ensures forall i, d :: 0 <= i < N && 0 <= d < N && !ps[i].flags.sending ==> i !in qs[d]
  {
    forall d, e, x | 0 <= d < N && 0 <= e < N && x in qs[d] && x in qs[e] ensures d == e {
      assert SendsTo(ps, x, d) && SendsTo(ps, x, e);
    }
  }

  /** What the head and the k-th link of d's queue lead to. */
  lemma FollowLink(heads: seq<int>, nexts: seq<int>, qs: seq<seq<int>>, d: int, k: nat)
    requires Linked(heads, nexts, qs) && Separate(qs) && IsPid(d)
    ensures heads[d] == Nth(qs[d], 0)
    ensures k < |qs[d]| ==> IsPid(qs[d][k]) && nexts[qs[d][k]] == Nth(qs[d], k + 1)
  {
    if k < |qs[d]| {
      assert qs[d][k] in qs[d] && LeadsOn(nexts, qs[d], k);
    }
  }

  /** c hooked behind the last entry of dest's queue. */
  lemma HookedIsLinked(heads: seq<int>, nexts: seq<int>, heads': seq<int>, nexts': seq<int>,
                       qs: seq<seq<int>>, c: int, dest: int)
    requires Linked(heads, nexts, qs) && Separate(qs) && IsPid(c) && IsPid(dest)
    requires forall d :: 0 <= d < N ==> c !in qs[d]
    requires qs[dest] != [] ==> IsPid(qs[dest][|qs[dest]| - 1])
    requires heads' == if qs[dest] == [] then heads[dest := c] else heads
    requires nexts' == (if qs[dest] == [] then nexts else nexts[qs[dest][|qs[dest]| - 1] := c])[c := NIL]
    ensures Linked(heads', nexts', qs[dest := qs[dest] + [c]])
  {
    var q := qs[dest];
    var qs' := qs[dest := q + [c]];
    assert NoDup(q) && (q != [] ==> q[|q| - 1] in q);
    assert heads[dest] == Nth(q, 0);
    forall d, k | 0 <= d < N && 0 <= k < |qs'[d]| ensures LeadsOn(nexts', qs'[d], k) {
      if !(d == dest && k == |q|) {
        assert qs[d][k] in qs[d];
        assert LeadsOn(nexts, qs[d], k);
      }
    }
    forall d | 0 <= d < N ensures heads'[d] == Nth(qs'[d], 0) {
      assert heads[d] == Nth(qs[d], 0);
    }
  }

  lemma UnhookedNext(nexts: seq<int>, q: seq<int>, k: nat, j: nat)
    requires |nexts| == N && k < |q| && j < |q| - 1 && NoDup(q) && forall x :: x in q ==> IsPid(x)
    requires LeadsOn(nexts, q, k) && LeadsOn(nexts, q, if j < k then j else j + 1)
    ensures IsPid(q[k]) && (k > 0 ==> IsPid(q[k - 1]))
    ensures var nexts' := (if k == 0 then nexts else nexts[q[k - 1] := nexts[q[k]]])[q[k] := NIL];
            LeadsOn(nexts', q[..k] + q[k + 1..], j)
  {
    var was := if j < k then j else j + 1;
    assert q[was] in q && q[k] in q && (k > 0 ==> q[k - 1] in q);
    assert q[was] != q[k];
    assert k > 0 && was != k - 1 ==> q[was] != q[k - 1];
  }

  /** The entry at position k of c's queue unhooked. */
  lemma UnhookedIsLinked(heads: seq<int>, nexts: seq<int>, heads': seq<int>, nexts': seq<int>,
                         qs: seq<seq<int>>, k: nat, c: int)
    requires Linked(heads, nexts, qs) && Separate(qs) && IsPid(c) && k < |qs[c]|
    requires IsPid(qs[c][k]) && (k > 0 ==> IsPid(qs[c][k - 1]))
    requires heads' == if k == 0 then heads[c := nexts[qs[c][0]]] else heads
    requires nexts' == (if k == 0 then nexts else nexts[qs[c][k - 1] := nexts[qs[c][k]]])[qs[c][k] := NIL]
    ensures Linked(heads', nexts', qs[c := qs[c][..k] + qs[c][k + 1..]])
  {
    var q := qs[c];
    var qs' := qs[c := q[..k] + q[k + 1..]];
    assert NoDup(q) && q[k] in q && (k > 0 ==> q[k - 1] in q);
    assert LeadsOn(nexts, qs[c], k);
    forall d, j | 0 <= d < N && 0 <= j < |qs'[d]| ensures LeadsOn(nexts', qs'[d], j) {
      if d == c {
        assert LeadsOn(nexts, qs[c], if j < k then j else j + 1);
        UnhookedNext(nexts, q, k, j);
      } else {
        assert qs[d][j] in qs[d];
        assert LeadsOn(nexts, qs[d], j);
      }
    }
    forall d | 0 <= d < N ensures heads'[d] == Nth(qs'[d], 0) {
      assert heads[d] == Nth(qs[d], 0);
    }
  }

  lemma FrontOfQueue(heads: seq<int>, nexts: seq<int>, qs: seq<seq<int>>, c: int, x: int)
    requires Linked(heads, nexts, qs) && Separate(qs) && IsPid(c) && x in qs[c]
    ensures var k := IndexOf(qs[c], x);
            && (heads[c] == x <==> k == 0) && IsPid(qs[c][k]) && (k > 0 ==> IsPid(qs[c][k - 1]))
  {
    var k := IndexOf(qs[c], x);
    assert NoDup(qs[c]) && heads[c] == Nth(qs[c], 0);
    assert qs[c][0] in qs[c] && (k > 0 ==> qs[c][k - 1] in qs[c]);
  }

  lemma AwakeStayAwake(woken: seq<Proc>, before: seq<Proc>, now: int)
    requires woken == WakeAll(before, now)
    ensures WakeAll(RefillAll(woken), now) == RefillAll(woken)
  {
  }

  class Kernel {
    const proc: array<Proc>
    const qSending: array<int>
    const nextSending: array<int>
    const mem: array<Memory>
    var ready: int
    var now: int
    ghost var queues: seq<seq<int>>
    ghost var trace: seq<Entry>

    ghost function View(): State
      reads this, proc, mem
    {
      State(proc[..], queues, mem[..], ready, now, trace)
    }

    ghost predicate LinksOk()
      reads this, qSending, nextSending
    {
      qSending != nextSending && Linked(qSending[..], nextSending[..], queues)
    }

    ghost predicate Valid()
      reads this, proc, qSending, nextSending, mem
    {
      LinksOk() && Inv(View())
    }

    /** The tables as cstart, init_sched and main leave them; memory holds whatever it holds. */
    constructor (memory: seq<Memory>)
      requires |memory| == N
      ensures Valid() && View() == BootState(memory)
      ensures fresh(proc) && fresh(qSending) && fresh(nextSending) && fresh(mem)
    {
      proc := new Proc[N](i => BootProc(i));
      qSending := new int[N](_ => NIL);
      nextSending := new int[N](_ => NIL);
      mem := new Memory[N](i requires 0 <= i < |memory| => memory[i]);
      ready := TASK_TTY;
      now := 0;
      queues := seq(N, _ => []);
      trace := [];
      new;
      BootInv(memory);
      assert View().procs == BootState(memory).procs && View().mem == memory;
    }

    /** One pass of schedule() over the table: wakes expired sleepers and notes the best process. */
    method WakeAndPick() returns (maxTicks: int)
      requires proc.Length == N
      modifies proc, this`ready
      ensures proc[..] == WakeAll(old(proc[..]), now)
      ensures maxTicks == 0 ==> !SomeTicksLeft(proc[..])
      ensures maxTicks != 0 ==> IsPick(proc[..], ready)
    {
      ghost var start := proc[..];
      maxTicks := 0;
      var i := 0;
      while i < proc.Length
        invariant 0 <= i <= proc.Length
        invariant forall j :: 0 <= j < i ==> proc[j] == Wake(start[j], now)
        invariant forall j :: i <= j < proc.Length ==> proc[j] == start[j]
        invariant maxTicks >= 0
        invariant maxTicks > 0 ==> 0 <= ready < i && Runnable(proc[ready]) && proc[ready].ticks == maxTicks
        invariant forall j :: 0 <= j < i && Runnable(proc[j]) ==>
                                proc[j].ticks <= maxTicks && (maxTicks > 0 && j < ready ==> proc[j].ticks < maxTicks)
      {
        if proc[i].flags.sleeping {
          if proc[i].wakeUp <= now {
            proc[i] := proc[i].(flags := proc[i].flags.(sleeping := false), wakeUp := 0);
          }
        }
        if proc[i].flags == READY {
          if proc[i].ticks > maxTicks {
            maxTicks := proc[i].ticks;
            ready := i;
          }
        }
        i := i + 1;
      }
    }

    /** The refill loop of schedule(). */
    method RefillReady()
      requires proc.Length == N
      modifies proc
      ensures proc[..] == RefillAll(old(proc[..]))
    {
      ghost var start := proc[..];
      var i := 0;
      while i < proc.Length
        invariant 0 <= i <= proc.Length
        invariant forall j :: 0 <= j < i ==> proc[j] == Refill(start[j])
        invariant forall j :: i <= j < proc.Length ==> proc[j] == start[j]
      {
        if proc[i].flags == READY {
          proc[i] := proc[i].(ticks := proc[i].priority);
        }
        i := i + 1;
      }
    }

    /** Picks the next process, starting a new epoch when no runnable process has ticks left. */
    method Schedule() returns (ghost passes: nat)
      requires TtyRuns(proc[..])
      modifies proc, this`ready
      ensures proc[..] == Scheduled(old(proc[..]), now)
      ensures ready == Pick(proc[..]) && IsPick(proc[..], ready)
      ensures passes <= 2
    {
      ghost var before := proc[..];
      ghost var woken := WakeAll(before, now);
      ScheduleFindsAProcess(before, now);
      AwakeStayAwake(woken, before, now);
      var maxTicks := 0;
      passes := 0;
      while maxTicks == 0
        invariant proc.Length == N
        invariant passes == 0 ==> proc[..] == before
        invariant passes == 1 && maxTicks == 0 ==> !SomeTicksLeft(woken) && proc[..] == RefillAll(woken)
        invariant maxTicks != 0 ==> 1 <= passes <= 2 && proc[..] == Scheduled(before, now) && IsPick(proc[..], ready)
        invariant maxTicks == 0 ==> passes <= 1
        decreases if maxTicks == 0 then 2 - passes else 0
      {
        maxTicks := WakeAndPick();
        passes := passes + 1;
        if maxTicks == 0 {
          RefillReady();
        } else {
          assert SomeTicksLeft(proc[..]);
        }
      }
      PickIsUnique(proc[..], ready);
    }

    /**
     Walks the chain of blocked senders from dest, then, if it meets src, once more to print it.
     Both loops end because the graph has no cycle yet.
     */
    method Deadlock(src: int, dest: int) returns (found: bool)
      requires proc.Length == N && IsPid(src) && IsPid(dest) && src != dest
      requires Acyclic(proc[..]) && AllLegal(proc[..])
      ensures found <==> Reaches(proc[..], dest, src)
    {
      ghost var ps := proc[..];
      ghost var rank :| RankOk(ps, rank);
      var p := dest;
      ghost var n: nat := 0;
      while true
        invariant IsPid(p) && Hop(ps, dest, n) == p
        invariant forall j: nat :: j <= n ==> IsPid(Hop(ps, dest, j)) && Hop(ps, dest, j) != src
        decreases rank[p]
      {
        HopSnoc(ps, dest, n);
        assert Legal(ps[p]) && Descends(ps, rank, p);
        if proc[p].flags.sending {
          if proc[p].sendTo == src {
            assert Hop(ps, dest, n + 1) == src;
            PrintChain(src, dest, n);
            return true;
          }
          p := proc[p].sendTo;
          n := n + 1;
        } else {
          break;
        }
      }
      forall m: nat ensures Hop(ps, dest, m) != src {
        if m > n {
          NothingPastEnd(ps, dest, n, m);
        }
      }
      return false;
    }

    /**
     The do-while loop of deadlock(): n + 1 steps lead from dest to src, and every process on the way has a message.
     */
    method PrintChain(src: int, dest: int, ghost n: nat)
      requires proc.Length == N && IsPid(src) && IsPid(dest)
      requires AllLegal(proc[..])
      requires Hop(proc[..], dest, n + 1) == src
      requires forall j: nat :: j <= n ==> IsPid(Hop(proc[..], dest, j)) && Hop(proc[..], dest, j) != src
    {
      ghost var ps := proc[..];
      assert Hop(ps, dest, 0) == dest;
      HopSnoc(ps, dest, 0);
      assert Legal(ps[dest]);
      assert proc[dest].msg != 0;
      var p := proc[dest].sendTo;
      ghost var k: nat := 1;
      while p != src
        invariant IsPid(p) && Hop(ps, dest, k) == p && k <= n + 1
        decreases n + 1 - k
      {
        HopSnoc(ps, dest, k);
        assert Legal(ps[p]);
        assert proc[p].msg != 0;
        p := proc[p].sendTo;
        k := k + 1;
      }
    }

    /** Follows the next_sending links from dest's queue head to its last entry. */
    method QueueTail(dest: int) returns (p: int)
      requires LinksOk() && Separate(queues) && IsPid(dest) && queues[dest] != []
      ensures p == queues[dest][|queues[dest]| - 1] && IsPid(p)
    {
      ghost var q := queues[dest];
      FollowLink(qSending[..], nextSending[..], queues, dest, 0);
      p := qSending[dest];
      ghost var k := 0;
      while nextSending[p] != NIL
        invariant 0 <= k < |q| && p == q[k] && IsPid(p) && nextSending[p] == Nth(q, k + 1)
        decreases |q| - k
      {
        p := nextSending[p];
        k := k + 1;
        FollowLink(qSending[..], nextSending[..], queues, dest, k);
      }
      FollowLink(qSending[..], nextSending[..], queues, dest, k + 1);
    }

    /** Puts process c at the end of dest's queue. */
    method AppendSender(c: int, dest: int)
      requires LinksOk() && Separate(queues) && IsPid(c) && IsPid(dest)
      requires forall d :: 0 <= d < N ==> c !in queues[d]
      modifies qSending, nextSending, this`queues
      ensures queues == old(queues)[dest := old(queues)[dest] + [c]]
      ensures LinksOk()
    {
      FollowLink(qSending[..], nextSending[..], queues, dest, 0);
      if qSending[dest] != NIL {
        var p := QueueTail(dest);
        nextSending[p] := c;
      } else {
        qSending[dest] := c;
      }
      nextSending[c] := NIL;
      HookedIsLinked(old(qSending[..]), old(nextSending[..]), qSending[..], nextSending[..], queues, c, dest);
      queues := queues[dest := queues[dest] + [c]];
    }

    /** Gives the processor away on behalf of process c, which has just set a blocking flag. */
    method Block(c: int)
      requires IsPid(c) && TtyRuns(proc[..]) && proc[c].flags != READY
      modifies this`ready, proc
      ensures View() == Reschedule(old(View()))
      ensures proc.Length == N && SameButSchedule(old(proc[c]), proc[c])
    {
      ScheduledIsSame(proc[..], now);
      ghost var passes := Schedule();
    }

    /** The part of msg_send that completes a receive: copies the message and unblocks dest. */
    method Complete(c: int, dest: int, m: int) returns (r: Result)
      requires proc.Length == N && mem.Length == N && IsPid(c) && IsPid(dest) && c != dest
      requires Legal(proc[dest]) && Legal(proc[c]) && Awaits(proc[dest], c) && Runnable(proc[c])
      modifies this`trace, proc, mem
      ensures old(proc[dest].flags) != RECEIVING ==> r == AssertionFailed
      ensures old(proc[dest].flags) == RECEIVING ==> r == Ok && View() == Rendezvous(old(View()), c, dest, m)
    {
      assert proc[dest].msg != 0;
      trace := trace + [Posted(c, dest, Load(mem[c], m)), Taken(dest, c, Load(mem[c], m))];
      mem[dest] := mem[dest][proc[dest].msg := Load(mem[c], m)];
      proc[dest] := proc[dest].(msg := 0);
      proc[dest] := proc[dest].(flags := proc[dest].flags.(receiving := false));
      proc[dest] := proc[dest].(recvFrom := NO_TASK);
      if proc[dest].flags != READY {
        return AssertionFailed;
      }
      assert proc[dest].msg == 0 && proc[dest].recvFrom == NO_TASK && proc[dest].sendTo == NO_TASK;
      assert proc[c].flags == READY && proc[c].msg == 0 && proc[c].recvFrom == NO_TASK && proc[c].sendTo == NO_TASK;
      return Ok;
    }

    /** The part of msg_send that marks the sender, queues it at dest and blocks it. */
    method Wait(c: int, dest: int, m: int)
      requires proc.Length == N && mem.Length == N && IsPid(c) && IsPid(dest) && c != dest && c != TASK_TTY && m != 0
      requires LinksOk() && QueuesOk(proc[..], queues) && TtyRuns(proc[..])
      requires Runnable(proc[c]) && Legal(proc[c])
      modifies this`ready, this`queues, this`trace, proc, qSending, nextSending
      ensures LinksOk()
      ensures View() == Reschedule(Enqueue(old(View()), c, dest, m))
    {
      QueuesAreSeparate(proc[..], queues);
      trace := trace + [Posted(c, dest, Load(mem[c], m))];
      proc[c] := proc[c].(flags := proc[c].flags.(sending := true));
      assert proc[c].flags == SENDING;
      proc[c] := proc[c].(sendTo := dest);
      proc[c] := proc[c].(msg := m);
      AppendSender(c, dest);
      assert View() == Enqueue(old(View()), c, dest, m);
      Block(c);
      assert proc[c].flags == SENDING && proc[c].msg != 0 && proc[c].recvFrom == NO_TASK && proc[c].sendTo == dest;
    }

    /** msg_send, called by the running process. */
    method MsgSend(dest: int, m: int) returns (r: Result)
      requires Valid() && ready != TASK_TTY && IsPid(dest) && m != 0
      requires Load(mem[ready], m).source == ready
      modifies this`ready, this`queues, this`trace, proc, mem, qSending, nextSending
      ensures match Send(old(View()), dest, m)
              case Done(s) => r == Ok && Valid() && View() == s
              case Panic => r == Panicked
              case AssertFail => r == AssertionFailed
    {
      var c := ready;
      if c == dest {
        return AssertionFailed;
      }
      SendKeepsInv(View(), dest, m);
      var stuck := Deadlock(c, dest);
      if stuck {
        return Panicked;
      }
      if proc[dest].flags.receiving && (proc[dest].recvFrom == c || proc[dest].recvFrom == ANY) {
        r := Complete(c, dest, m);
      } else {
        Wait(c, dest, m);
        return Ok;
      }
    }

    /** The search loop of msg_recevie: finds src in c's queue and the entry before it, if any. */
    method FindSender(c: int, src: int) returns (prev: int)
      requires LinksOk() && Separate(queues) && IsPid(c) && src in queues[c]
      ensures var k := IndexOf(queues[c], src); prev == if k == 0 then NIL else queues[c][k - 1]
    {
      ghost var q := queues[c];
      ghost var i := 0;
      FollowLink(qSending[..], nextSending[..], queues, c, 0);
      prev := NIL;
      var p := qSending[c];
      assert p != NIL;
      while p != NIL
        invariant 0 <= i <= IndexOf(q, src) && p == q[i] && IsPid(p)
        invariant prev == if i == 0 then NIL else q[i - 1]
        decreases |q| - i
      {
        if p == src {
          break;
        }
        FollowLink(qSending[..], nextSending[..], queues, c, i);
        prev := p;
        p := nextSending[p];
        i := i + 1;
        FollowLink(qSending[..], nextSending[..], queues, c, i);
      }
    }

    /** Takes the entry from, which stands behind prev, out of c's queue. */
    method Unlink(c: int, from: int, prev: int)
      requires LinksOk() && Separate(queues) && IsPid(c) && from in queues[c]
      requires var k := IndexOf(queues[c], from); prev == if k == 0 then NIL else queues[c][k - 1]
      modifies qSending, nextSending, this`queues
      ensures LinksOk()
      ensures queues == old(queues)[c := Without(old(queues)[c], from)]
    {
      ghost var k := IndexOf(queues[c], from);
      FrontOfQueue(qSending[..], nextSending[..], queues, c, from);
      if from == qSending[c] {
        qSending[c] := nextSending[from];
        nextSending[from] := NIL;
      } else {
        nextSending[prev] := nextSending[from];
        nextSending[from] := NIL;
      }
      UnhookedIsLinked(old(qSending[..]), old(nextSending[..]), qSending[..], nextSending[..], queues, k, c);
      queues := queues[c := Without(queues[c], from)];
    }

    /** The part of msg_recevie that serves a waiting interrupt. */
    method ReceiveInterrupt(c: int, m: int)
      requires Shaped(View()) && c == ready && Legal(proc[c]) && Runnable(proc[c])
      modifies this`trace, proc, mem
      ensures View() == TakeInterrupt(old(View()), m)
    {
      mem[c] := mem[c][m := Message(INTERRUPT, HARD_INT, 0, 0)];
      proc[c] := proc[c].(hasInt := false);
      trace := trace + [Interrupted(c)];
      assert proc[c].flags == READY && proc[c].msg == 0 && proc[c].sendTo == NO_TASK;
    }

    /** The part of msg_recevie that copies the message of a queued sender and unblocks it. */
    method TakeMessage(c: int, from: int, prev: int, m: int)
      requires Shaped(View()) && c == ready && IsPid(from) && from in queues[c]
      requires LinksOk() && Separate(queues)
      requires Legal(proc[c]) && Runnable(proc[c]) && Legal(proc[from]) && proc[from].flags.sending
      requires proc[from].sendTo == c
      requires var k := IndexOf(queues[c], from); prev == if k == 0 then NIL else queues[c][k - 1]
      modifies this`queues, this`trace, proc, mem, qSending, nextSending
      ensures LinksOk()
      ensures View() == Take(old(View()), from, m)
    {
      assert proc[c].flags == READY && proc[c].msg == 0 && proc[c].sendTo == NO_TASK && proc[c].recvFrom == NO_TASK;
      assert proc[from].flags == SENDING && proc[from].msg != 0 && proc[from].recvFrom == NO_TASK
             && proc[from].sendTo == c;
      Unlink(c, from, prev);
      trace := trace + [Taken(c, from, Load(mem[from], proc[from].msg))];
      mem[c] := mem[c][m := Load(mem[from], proc[from].msg)];
      proc[from] := proc[from].(msg := 0);
      proc[from] := proc[from].(sendTo := NO_TASK);
      proc[from] := proc[from].(flags := proc[from].flags.(sending := false));
    }

    /** The part of msg_recevie that blocks the receiver. */
    method BlockReceiver(c: int, src: int, m: int) returns (r: Result)
      requires Shaped(View()) && c == ready && c != TASK_TTY && Legal(proc[c]) && Runnable(proc[c])
      requires TtyRuns(proc[..]) && ValidSource(src) && m != 0
      modifies this`ready, proc
      ensures View() == Reschedule(Await(old(View()), src, m))
      ensures r == if old(proc[c].hasInt) then AssertionFailed else Ok
    {
      proc[c] := proc[c].(flags := proc[c].flags.(receiving := true));
      proc[c] := proc[c].(msg := m);
      proc[c] := proc[c].(recvFrom := src);
      assert View() == Await(old(View()), src, m);
      Block(c);
      assert proc[c].flags == RECEIVING && proc[c].msg != 0 && proc[c].sendTo == NO_TASK && proc[c].recvFrom != NO_TASK;
      if proc[c].hasInt {
        return AssertionFailed;
      }
      return Ok;
    }

    /** msg_recevie, called by the running process. */
    method MsgReceive(src: int, m: int) returns (r: Result)
      requires Valid() && ready != TASK_TTY && ValidSource(src) && m != 0
      modifies this`ready, this`queues, this`trace, proc, mem, qSending, nextSending
      ensures match Receive(old(View()), src, m)
              case Done(s) => r == Ok && Valid() && View() == s
              case Panic => r == Panicked
              case AssertFail => r == AssertionFailed
    {
      var c := ready;
      if c == src {
        return AssertionFailed;
      }
      ReceiveKeepsInv(View(), src, m);
      if proc[c].hasInt && (src == ANY || src == INTERRUPT) {
        ReceiveInterrupt(c, m);
        return Ok;
      }
      r := ServeOrBlock(c, src, m);
    }

    /** The rest of msg_recevie: serves a blocked sender, or blocks the receiver. */
    method ServeOrBlock(c: int, src: int, m: int) returns (r: Result)
      requires Valid() && c == ready && c != TASK_TTY && ValidSource(src) && c != src && m != 0
      requires !(proc[c].hasInt && !IsPid(src))
      modifies this`ready, this`queues, this`trace, proc, mem, qSending, nextSending
      ensures match Receive(old(View()), src, m)
              case Done(s) => r == Ok && LinksOk() && View() == s
              case Panic => r == Panicked
              case AssertFail => r == AssertionFailed
    {
      assert Legal(proc[c]);
      var from, prev, copyok := ChooseSender(c, src);
      if copyok {
        SourceIsQueued(View(), src);
        QueuesAreSeparate(proc[..], queues);
        TakeMessage(c, from, prev, m);
        return Ok;
      } else {
        r := BlockReceiver(c, src, m);
      }
    }

    /** The part of msg_recevie that looks for a blocked sender to serve. */
    method ChooseSender(c: int, src: int) returns (from: int, prev: int, copyok: bool)
      requires Valid() && c == ready && ValidSource(src)
      ensures copyok == IsPid(Source(View(), src))
      ensures copyok ==>
                && from == Source(View(), src) && from in queues[c]
                && var k := IndexOf(queues[c], from); prev == if k == 0 then NIL else queues[c][k - 1]
    {
      QueuesAreSeparate(proc[..], queues);
      from, prev, copyok := NIL, NIL, false;
      if src == ANY {
        FollowLink(qSending[..], nextSending[..], queues, c, 0);
        if qSending[c] != NIL {
          from, copyok := qSending[c], true;
          SourceIsQueued(View(), src);
        }
      } else if src != INTERRUPT {
        from := src;
        if proc[from].flags.sending && proc[from].sendTo == c {
          copyok := true;
          SourceIsQueued(View(), src);
          prev := FindSender(c, src);
        }
      }
    }

    /** sys_sendrec: checks the arguments, stamps the message with the caller's number and dispatches. */
    method SysSendRec(op: int, srcDest: int, m: int) returns (r: Result)
      requires Valid() && ready != TASK_TTY && m != 0
      requires op == SEND ==> srcDest != ANY && srcDest != INTERRUPT
      modifies this`ready, this`queues, this`trace, proc, mem, qSending, nextSending
      ensures !ValidSource(srcDest) || srcDest == old(ready) ==> r == AssertionFailed
      ensures ValidSource(srcDest) && srcDest != old(ready) && op == SEND ==>
                match SysSend(old(View()), srcDest, m)
                case Done(s) => r == Ok && Valid() && View() == s
                case Panic => r == Panicked
                case AssertFail => r == AssertionFailed
      ensures ValidSource(srcDest) && srcDest != old(ready) && op == RECEIVE ==>
                match SysReceive(old(View()), srcDest, m)
                case Done(s) => r == Ok && Valid() && View() == s
                case Panic => r == Panicked
                case AssertFail => r == AssertionFailed
      ensures ValidSource(srcDest) && srcDest != old(ready) && op != SEND && op != RECEIVE ==> r == Panicked
    {
      if !((0 <= srcDest < NR_TASKS + NR_PROCS) || srcDest == ANY || srcDest == INTERRUPT) {
        return AssertionFailed;
      }
      var caller := ready;
      StoreKeepsInv(View(), m, Load(mem[caller], m).(source := caller));
      mem[caller] := mem[caller][m := Load(mem[caller], m).(source := caller)];
      if Load(mem[caller], m).source == srcDest {
        return AssertionFailed;
      }
      assert View() == Stamp(old(View()), m);
      if op == SEND {
        r := MsgSend(srcDest, m);
      } else if op == RECEIVE {
        r := MsgReceive(srcDest, m);
      } else {
        return Panicked;
      }
    }

    /** inform_int: tells a task that an interrupt has occurred. */
    method InformInt(task: int) returns (r: Result)
      requires Valid() && IsPid(task)
      modifies this`trace, proc, mem
      ensures r == Ok && Valid()
      ensures View() == Interrupt(old(View()), task).s
    {
      InterruptKeepsInv(View(), task);
      assert Legal(proc[task]);
      if proc[task].flags.receiving && (proc[task].recvFrom == INTERRUPT || proc[task].recvFrom == ANY) {
        r := DeliverInterrupt(task);
      } else {
        proc[task] := proc[task].(hasInt := true);
        assert View() == Interrupt(old(View()), task).s;
        return Ok;
      }
    }

    /** The part of inform_int that completes the task's receive. */
    method DeliverInterrupt(task: int) returns (r: Result)
      requires Shaped(View()) && IsPid(task) && Legal(proc[task]) && AwaitsInterrupt(proc[task])
      modifies this`trace, proc, mem
      ensures r == Ok && Interrupt(old(View()), task) == Done(View())
    {
      trace := trace + [Interrupted(task)];
      mem[task] := mem[task][proc[task].msg := Load(mem[task], proc[task].msg).(source := INTERRUPT, kind := HARD_INT)];
      proc[task] := proc[task].(msg := 0);
      proc[task] := proc[task].(hasInt := false);
      proc[task] := proc[task].(flags := proc[task].flags.(receiving := false));
      proc[task] := proc[task].(recvFrom := NO_TASK);
      if proc[task].flags != READY {
        return AssertionFailed;
      }
      assert proc[task].msg == 0 && proc[task].recvFrom == NO_TASK && proc[task].sendTo == NO_TASK;
      return Ok;
    }

    /** clock_handler; reentered tells whether the interrupt came in ring 0. */
    method ClockHandler(reentered: bool)
      requires Valid()
      modifies this`ready, this`now, proc
      ensures Valid() && View() == Tick(old(View()), reentered)
    {
      TickKeepsInv(View(), reentered);
      now := now + 1;
      proc[ready] := proc[ready].(ticks := proc[ready].ticks - 1);
      assert View() == CountTick(old(View()));
      if reentered {
        return;
      }
      if proc[ready].ticks > 0 {
        return;
      }
      assert TtyRuns(proc[..]);
      ghost var passes := Schedule();
    }

    /** sys_sleep. */
    method SysSleep(ms: int)
      requires Valid() && ready != TASK_TTY
      modifies this`ready, proc
      ensures Valid() && View() == Sleep(old(View()), ms)
    {
      SleepKeepsInv(View(), ms);
      var tick := TruncDiv(Wrap32(ms * HZ), 1000);
      var c := ready;
      proc[c] := proc[c].(flags := proc[c].flags.(sleeping := true));
      proc[c] := proc[c].(wakeUp := now + tick);
      assert View() == FallAsleep(old(View()), ms);
      Block(c);
    }
  }
}
