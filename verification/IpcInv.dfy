/**
 The invariant that the assertions of the IPC code are fragments of, and the
 proof that every system call, interrupt and clock tick keeps it.
 */
module IpcInv {
  import opened ProcTable
  import opened SchedSpec
  import opened IpcSpec
  import opened IpcLog
  import opened WaitGraph

  /** The combinations of p_flags, p_msg, p_recvfrom and p_sendto that an entry may hold. */
  predicate Legal(p: Proc) {
    var f := p.flags;
    && !f.doingFork
    && (f.sleeping ==> f == PROC_SLEEP)
    && (f.freeSlot ==> f == FREE_SLOT)
    && (f.sending ==> f == SENDING && p.msg != 0 && p.recvFrom == NO_TASK && IsPid(p.sendTo))
    && (f.receiving ==>
          && p.msg != 0 && p.sendTo == NO_TASK && ValidSource(p.recvFrom)
          && (f != RECEIVING ==> IsPid(p.recvFrom)))
    && (!f.sending && !f.receiving && !f.freeSlot ==>
          p.msg == 0 && p.recvFrom == NO_TASK && p.sendTo == NO_TASK)
  }

  ghost predicate AllLegal(ps: seq<Proc>) {
    forall i :: 0 <= i < |ps| ==> Legal(ps[i])
  }

  /** x is blocked sending to d. */
  predicate SendsTo(ps: seq<Proc>, x: int, d: int) {
    0 <= x < |ps| && ps[x].flags.sending && ps[x].sendTo == d
  }

  /** If x is blocked in a send, it stands in the queue of the process that it sends to. */
  predicate IsQueued(ps: seq<Proc>, qs: seq<seq<int>>, x: int)
    requires |ps| == |qs| && 0 <= x < |ps|
  {
    ps[x].flags.sending ==> 0 <= ps[x].sendTo < |qs| && x in qs[ps[x].sendTo]
  }

  /** queues[d] holds, once each, exactly the processes that are SENDING to d. */
  ghost predicate QueuesOk(ps: seq<Proc>, qs: seq<seq<int>>) {
    && |ps| == |qs| == N
    && (forall d, x {:trigger x in qs[d]} :: 0 <= d < N && x in qs[d] ==> SendsTo(ps, x, d))
    && (forall x {:trigger IsQueued(ps, qs, x)} :: 0 <= x < N ==> IsQueued(ps, qs, x))
    && (forall d {:trigger NoDup(qs[d])} :: 0 <= d < N ==> NoDup(qs[d]))
  }

  /** x is not blocked sending to a process that is blocked waiting for just that message. */
  predicate Unmet(ps: seq<Proc>, x: int)
    requires 0 <= x < |ps|
  {
    ps[x].flags.sending && 0 <= ps[x].sendTo < |ps| ==> !Awaits(ps[ps[x].sendTo], x)
  }

  ghost predicate NoMissedRendezvous(ps: seq<Proc>) {
    forall x {:trigger Unmet(ps, x)} :: 0 <= x < |ps| ==> Unmet(ps, x)
  }

  /** No interrupt is held back from a process that is blocked waiting for one. */
  ghost predicate NoLostInterrupt(ps: seq<Proc>) {
    forall i :: 0 <= i < |ps| && ps[i].hasInt ==> !AwaitsInterrupt(ps[i])
  }

  /** What holds at every point inside a system call at which the processor may be given away. */
  ghost predicate CoreInv(s: State) {
    && Shaped(s)
    && TtyRuns(s.procs)
    && AllLegal(s.procs)
    && QueuesOk(s.procs, s.queues)
    && NoMissedRendezvous(s.procs)
    && NoLostInterrupt(s.procs)
    && Acyclic(s.procs)
    && LogOk(s)
  }

  ghost predicate Inv(s: State) {
    CoreInv(s) && Runnable(s.procs[s.ready])
  }

  // ---------------------------------------------------------------- frames

  /** Queues and rendezvous depend only on who is sending to whom, and on who could receive from whom. */
  lemma SameSendersSameQueues(ps: seq<Proc>, ps': seq<Proc>, qs: seq<seq<int>>)
    requires QueuesOk(ps, qs) && SameEdges(ps, ps')
    ensures QueuesOk(ps', qs)
  {
    forall x | 0 <= x < N ensures IsQueued(ps', qs, x) {
      assert IsQueued(ps, qs, x);
    }
  }

  /** No process receives from anybody from whom it did not receive before, except perhaps c. */
  ghost predicate FewerReceivers(ps: seq<Proc>, ps': seq<Proc>, c: int) {
    |ps| == |ps'| && forall d, x {:trigger Awaits(ps'[d], x)} :: 0 <= d < |ps| && d != c && Awaits(ps'[d], x) ==>
      Awaits(ps[d], x)
  }

  lemma FewerReceiversMissNothing(ps: seq<Proc>, ps': seq<Proc>)
    requires NoMissedRendezvous(ps) && FewerEdges(ps, ps') && FewerReceivers(ps, ps', -1)
    ensures NoMissedRendezvous(ps')
  {
    forall x | 0 <= x < |ps'| ensures Unmet(ps', x) {
      assert Unmet(ps, x);
    }
  }

  lemma NotSendingNotQueued(ps: seq<Proc>, qs: seq<seq<int>>, x: int)
    requires QueuesOk(ps, qs) && 0 <= x < N && !ps[x].flags.sending
    ensures forall d :: 0 <= d < N ==> x !in qs[d]
  {
    forall d | 0 <= d < N ensures x !in qs[d] {
      assert x in qs[d] ==> SendsTo(ps, x, d);
    }
  }

  // ---------------------------------------------------------------- steps

  lemma ScheduledFrame(ps: seq<Proc>, now: int)
    requires AllLegal(ps) && NoLostInterrupt(ps)
    ensures var qs := Scheduled(ps, now);
            && AllLegal(qs) && NoLostInterrupt(qs) && SameEdges(ps, qs) && FewerReceivers(ps, qs, -1)
            && forall i :: 0 <= i < |ps| ==> qs[i].msg == ps[i].msg
  {
    ScheduledIsSame(ps, now);
  }

  lemma RescheduleKeepsCore(s: State)
    requires CoreInv(s)
    ensures Inv(Reschedule(s))
  {
    var qs := Scheduled(s.procs, s.now);
    ScheduledFrame(s.procs, s.now);
    ScheduleFindsAProcess(s.procs, s.now);
    SameEdgesSameRank(s.procs, qs);
    SameSendersSameQueues(s.procs, qs, s.queues);
    FewerReceiversMissNothing(s.procs, qs);
    SameMailSameLog(s, Reschedule(s));
  }

  lemma StoreKeepsInv(s: State, a: int, m: Message)
    requires Inv(s)
    ensures Inv(Store(s, s.ready, a, m))
  {
    NotSendingNotQueued(s.procs, s.queues, s.ready);
    SameMailSameLog(s, Store(s, s.ready, a, m));
  }

  lemma RendezvousKeepsInv(s: State, dest: int, a: int)
    requires Inv(s) && IsPid(dest) && dest != s.ready
    requires Awaits(s.procs[dest], s.ready) && s.procs[dest].flags == RECEIVING
    requires Load(s.mem[s.ready], a).source == s.ready
    ensures Inv(Rendezvous(s, s.ready, dest, a))
  {
    var c := s.ready;
    var t := Rendezvous(s, c, dest, a);
    SameEdgesSameRank(s.procs, t.procs);
    SameSendersSameQueues(s.procs, t.procs, s.queues);
    FewerReceiversMissNothing(s.procs, t.procs);
    NotSendingNotQueued(s.procs, s.queues, c);
    NotSendingNotQueued(s.procs, s.queues, dest);
    RendezvousKeepsLog(s, c, dest, a);
  }

  lemma EnqueueKeepsQueues(s: State, dest: int, a: int)
    requires Inv(s) && IsPid(dest) && a != 0
    ensures QueuesOk(Enqueue(s, s.ready, dest, a).procs, Enqueue(s, s.ready, dest, a).queues)
  {
    var c := s.ready;
    var t := Enqueue(s, c, dest, a);
    NotSendingNotQueued(s.procs, s.queues, c);
    forall x | 0 <= x < N ensures IsQueued(t.procs, t.queues, x) {
      assert IsQueued(s.procs, s.queues, x);
      assert t.queues[dest][|s.queues[dest]|] == c;
    }
    forall d, x | 0 <= d < N && x in t.queues[d] ensures SendsTo(t.procs, x, d) {
      assert x in s.queues[d] || x == c;
    }
    assert NoDup(s.queues[dest]);
    forall d | 0 <= d < N ensures NoDup(t.queues[d]) {
      assert NoDup(s.queues[d]);
    }
  }

  lemma EnqueueMissesNothing(ps: seq<Proc>, c: int, dest: int, p: Proc)
    requires NoMissedRendezvous(ps) && 0 <= c < |ps| && Runnable(ps[c]) && 0 <= dest < |ps| && !Awaits(ps[dest], c)
    requires p.flags == SENDING && p.sendTo == dest
    ensures NoMissedRendezvous(ps[c := p])
  {
    var qs := ps[c := p];
    forall x | 0 <= x < |qs| ensures Unmet(qs, x) {
      assert Unmet(ps, x);
    }
  }

  lemma EnqueueKeepsCore(s: State, dest: int, a: int)
    requires Inv(s) && s.ready != TASK_TTY && IsPid(dest) && dest != s.ready && a != 0
    requires !Awaits(s.procs[dest], s.ready) && !Reaches(s.procs, dest, s.ready)
    requires Load(s.mem[s.ready], a).source == s.ready
    ensures CoreInv(Enqueue(s, s.ready, dest, a))
  {
    var c := s.ready;
    var t := Enqueue(s, c, dest, a);
    assert Legal(s.procs[c]);
    EnqueueKeepsQueues(s, dest, a);
    EnqueueMissesNothing(s.procs, c, dest, t.procs[c]);
    NewEdgeKeepsAcyclic(s.procs, c, dest, t.procs);
    NotSendingNotQueued(s.procs, s.queues, c);
    EnqueueKeepsLog(s, c, dest, a);
  }

  lemma TakeInterruptKeepsInv(s: State, a: int)
    requires Inv(s)
    ensures Inv(TakeInterrupt(s, a))
  {
    var t := TakeInterrupt(s, a);
    SameEdgesSameRank(s.procs, t.procs);
    SameSendersSameQueues(s.procs, t.procs, s.queues);
    FewerReceiversMissNothing(s.procs, t.procs);
    NotSendingNotQueued(s.procs, s.queues, s.ready);
    InterruptKeepsLog(s, t, s.ready);
  }

  lemma WithoutKeepsOrder(q: seq<int>, x: int)
    requires x in q && NoDup(q)
    ensures NoDup(Without(q, x)) && x !in Without(q, x)
    ensures forall y :: y in Without(q, x) <==> y in q && y != x
  {
    var k := IndexOf(q, x);
    var r := Without(q, x);
    forall y ensures y in r <==> y in q && y != x {
      if y in q && y != x {
        var j := IndexOf(q, y);
        assert r[if j < k then j else j - 1] == y;
      }
    }
  }

  lemma TakeKeepsQueues(s: State, f: int, a: int)
    requires Inv(s) && IsPid(f) && f in s.queues[s.ready]
    ensures QueuesOk(Take(s, f, a).procs, Take(s, f, a).queues)
  {
    var c := s.ready;
    var t := Take(s, f, a);
    assert SendsTo(s.procs, f, c) && NoDup(s.queues[c]);
    WithoutKeepsOrder(s.queues[c], f);
    forall x | 0 <= x < N ensures IsQueued(t.procs, t.queues, x) {
      assert IsQueued(s.procs, s.queues, x);
    }
    forall d, x | 0 <= d < N && x in t.queues[d] ensures SendsTo(t.procs, x, d) {
      assert x in s.queues[d];
    }
    forall d | 0 <= d < N ensures NoDup(t.queues[d]) {
      assert NoDup(s.queues[d]);
    }
  }

  lemma TakeKeepsInv(s: State, f: int, a: int)
    requires Inv(s) && IsPid(f) && f in s.queues[s.ready]
    ensures Inv(Take(s, f, a))
  {
    var c := s.ready;
    var t := Take(s, f, a);
    assert SendsTo(s.procs, f, c) && Legal(s.procs[f]) && NoDup(s.queues[c]);
    TakeKeepsQueues(s, f, a);
    FewerEdgesSameRank(s.procs, t.procs);
    FewerReceiversMissNothing(s.procs, t.procs);
    NotSendingNotQueued(s.procs, s.queues, c);
    forall d | 0 <= d < N && f in s.queues[d] ensures d == c {
      assert SendsTo(s.procs, f, d);
    }
    TakeKeepsLog(s, f, a);
  }

  /** The sender that a receive serves is blocked in a send to the receiver, and stands in its queue. */
  lemma SourceIsQueued(s: State, src: int)
    requires CoreInv(s) && IsPid(Source(s, src))
    ensures var f := Source(s, src);
            && f in s.queues[s.ready] && s.procs[f].flags == SENDING && s.procs[f].sendTo == s.ready
            && Legal(s.procs[f])
            && (src == ANY ==> f == s.queues[s.ready][0] && IndexOf(s.queues[s.ready], f) == 0)
  {
    var f := Source(s, src);
    var q := s.queues[s.ready];
    if src == ANY {
      assert q[0] in q && SendsTo(s.procs, f, s.ready);
    } else {
      assert IsQueued(s.procs, s.queues, f);
    }
    assert Legal(s.procs[f]);
  }

  lemma ReceiveIsTake(s: State, src: int, a: int)
    requires Inv(s) && ValidSource(src) && src != s.ready
    requires !(s.procs[s.ready].hasInt && !IsPid(src)) && IsPid(Source(s, src))
    ensures var f := Source(s, src);
            f in s.queues[s.ready] && SysReceive(s, src, a) == Done(Take(Stamp(s, a), f, a))
  {
    SourceIsQueued(s, src);
  }

  lemma ReceiveTakesInterrupt(s: State, src: int, a: int)
    requires Shaped(s) && ValidSource(src) && src != s.ready && s.procs[s.ready].hasInt && !IsPid(src)
    ensures SysReceive(s, src, a) == Done(TakeInterrupt(Stamp(s, a), a))
  {
  }

  lemma AwaitMissesNothing(s: State, src: int, p: Proc)
    requires Inv(s) && ValidSource(src) && !(IsPid(Source(s, src)) && Source(s, src) in s.queues[s.ready])
    requires p.flags == RECEIVING && p.recvFrom == src
    ensures NoMissedRendezvous(s.procs[s.ready := p])
  {
    var c := s.ready;
    var qs := s.procs[c := p];
    assert s.queues[c] != [] ==> s.queues[c][0] in s.queues[c];
    forall x | 0 <= x < N ensures Unmet(qs, x) {
      assert Unmet(s.procs, x) && IsQueued(s.procs, s.queues, x);
    }
  }

  lemma AwaitKeepsCore(s: State, src: int, a: int)
    requires Inv(s) && s.ready != TASK_TTY && ValidSource(src) && src != s.ready && a != 0
    requires !s.procs[s.ready].hasInt
    requires !(IsPid(Source(s, src)) && Source(s, src) in s.queues[s.ready])
    ensures CoreInv(Await(s, src, a))
  {
    var c := s.ready;
    var t := Await(s, src, a);
    assert Legal(s.procs[c]);
    AwaitMissesNothing(s, src, t.procs[c]);
    SameEdgesSameRank(s.procs, t.procs);
    SameSendersSameQueues(s.procs, t.procs, s.queues);
    NotSendingNotQueued(s.procs, s.queues, c);
    SameMailSameLog(s, t);
  }

  /** The task's entry after an interrupt, and what has not changed with it. */
  lemma InterruptFrame(s: State, p: int)
    requires Inv(s) && IsPid(p)
    ensures Interrupt(s, p).Done?
    ensures var t := Interrupt(s, p).s;
            && Shaped(t) && t.ready == s.ready && t.queues == s.queues && TtyRuns(t.procs) && Runnable(t.procs[s.ready])
            && AllLegal(t.procs) && NoLostInterrupt(t.procs)
            && SameEdges(s.procs, t.procs) && FewerReceivers(s.procs, t.procs, -1)
            && (forall i :: 0 <= i < N && i != p ==> t.procs[i] == s.procs[i] && t.mem[i] == s.mem[i])
            && (s.procs[p].flags.sending ==> t.mem[p] == s.mem[p] && t.procs[p].msg == s.procs[p].msg)
  {
    assert Legal(s.procs[p]);
  }

  lemma InterruptKeepsInv(s: State, p: int)
    requires Inv(s) && IsPid(p)
    ensures Interrupt(s, p).Done? && Inv(Interrupt(s, p).s)
  {
    InterruptFrame(s, p);
    var t := Interrupt(s, p).s;
    SameEdgesSameRank(s.procs, t.procs);
    SameSendersSameQueues(s.procs, t.procs, s.queues);
    FewerReceiversMissNothing(s.procs, t.procs);
    forall d, x | 0 <= d < N && x in s.queues[d] ensures Letter(t, x) == Letter(s, x) {
      assert SendsTo(s.procs, x, d);
    }
    if AwaitsInterrupt(s.procs[p]) {
      InterruptKeepsLog(s, t, p);
    } else {
      SameMailSameLog(s, t);
    }
  }

  /** Changing the running process's scheduling fields, or putting it to sleep, disturbs no IPC state. */
  lemma SchedulingChangeKeepsCore(s: State, p: Proc, now: int)
    requires Inv(s) && Legal(p) && !p.flags.sending && !p.flags.receiving
    requires p.hasInt == s.procs[s.ready].hasInt
    requires s.ready == TASK_TTY ==> Runnable(p) && p.priority > 0
    ensures CoreInv(s.(now := now, procs := s.procs[s.ready := p]))
  {
    var t := s.(now := now, procs := s.procs[s.ready := p]);
    SameEdgesSameRank(s.procs, t.procs);
    SameSendersSameQueues(s.procs, t.procs, s.queues);
    FewerReceiversMissNothing(s.procs, t.procs);
    NotSendingNotQueued(s.procs, s.queues, s.ready);
    SameMailSameLog(s, t);
  }

  lemma TickKeepsInv(s: State, nested: bool)
    requires Inv(s)
    ensures Inv(Tick(s, nested))
  {
    var p := s.procs[s.ready];
    assert Legal(p);
    SchedulingChangeKeepsCore(s, p.(ticks := p.ticks - 1), s.now + 1);
    RescheduleKeepsCore(CountTick(s));
  }

  lemma SleepKeepsInv(s: State, ms: int)
    requires Inv(s) && s.ready != TASK_TTY
    ensures Inv(Sleep(s, ms))
  {
    assert Legal(s.procs[s.ready]);
    SchedulingChangeKeepsCore(s, FallAsleep(s, ms).procs[s.ready], s.now);
    RescheduleKeepsCore(FallAsleep(s, ms));
  }

  lemma SendKeepsInv(s: State, dest: int, a: int)
    requires Inv(s) && s.ready != TASK_TTY && IsPid(dest) && a != 0
    requires Load(s.mem[s.ready], a).source == s.ready
    ensures Send(s, dest, a).Done? ==> Inv(Send(s, dest, a).s)
  {
    if Send(s, dest, a).Done? {
      if Awaits(s.procs[dest], s.ready) {
        RendezvousKeepsInv(s, dest, a);
      } else {
        EnqueueKeepsCore(s, dest, a);
        RescheduleKeepsCore(Enqueue(s, s.ready, dest, a));
      }
    }
  }

  lemma ReceiveKeepsInv(s: State, src: int, a: int)
    requires Inv(s) && s.ready != TASK_TTY && ValidSource(src) && a != 0
    ensures Receive(s, src, a).Done? ==> Inv(Receive(s, src, a).s)
  {
    var f := Source(s, src);
    if Receive(s, src, a).Done? {
      if s.procs[s.ready].hasInt && !IsPid(src) {
        TakeInterruptKeepsInv(s, a);
      } else if IsPid(f) && f in s.queues[s.ready] {
        TakeKeepsInv(s, f, a);
      } else {
        AwaitKeepsCore(s, src, a);
        RescheduleKeepsCore(Await(s, src, a));
      }
    }
  }

  lemma SysSendKeepsInv(s: State, dest: int, a: int)
    requires Inv(s) && s.ready != TASK_TTY && IsPid(dest) && a != 0
    ensures SysSend(s, dest, a).Done? ==> Inv(SysSend(s, dest, a).s)
  {
    StoreKeepsInv(s, a, Load(s.mem[s.ready], a).(source := s.ready));
    SendKeepsInv(Stamp(s, a), dest, a);
  }

  lemma SysReceiveKeepsInv(s: State, src: int, a: int)
    requires Inv(s) && s.ready != TASK_TTY && ValidSource(src) && a != 0
    ensures SysReceive(s, src, a).Done? ==> Inv(SysReceive(s, src, a).s)
  {
    StoreKeepsInv(s, a, Load(s.mem[s.ready], a).(source := s.ready));
    ReceiveKeepsInv(Stamp(s, a), src, a);
  }
}
