/**
 What one step of the IPC kernel does, told by the tables alone: the cells of memory that it writes and what
 they then hold, the entries and queues that it changes, and that everything else stays as it is.
 */
module IpcFrame {
  import opened ProcTable
  import opened SchedSpec
  import opened IpcSpec
  import opened IpcInv
  import opened IpcRuns

  // ---------------------------------------------------------------- memory

  /** p is blocked waiting for src, with room for its message at address x. */
  predicate IsBuffer(p: Proc, src: int, x: int) {
    p.flags.receiving && (p.recvFrom == src || p.recvFrom == ANY) && x == p.msg
  }

  /** The event writes at address x of process i's memory. */
  predicate Writes(s: State, e: Event, i: int, x: int)
    requires Shaped(s) && Possible(s, e) && IsPid(i)
  {
    match e
    case StoreMessage(a, _) => i == s.ready && x == a
    case SendMessage(dest, a) => (i == s.ready && x == a) || (i == dest && IsBuffer(s.procs[dest], s.ready, x))
    case ReceiveMessage(_, a) => i == s.ready && x == a
    case Irq(task) => i == task && IsBuffer(s.procs[task], INTERRUPT, x)
    case Clock(_) => false
    case Nap(_) => false
  }

  /**
   A step writes the caller's message and, if it completes somebody's receive, that process's buffer. Every other
   message of every process stays as it is.
   */
  lemma OnlyMessagesAreWritten(s: State, e: Event, t: State, i: int, x: int)
    requires Inv(s) && IsStep(s, e, t) && IsPid(i) && !Writes(s, e, i, x)
    ensures |t.mem| == N && Load(t.mem[i], x) == Load(s.mem[i], x)
  {
    match e
    case ReceiveMessage(src, a) => OnlyOwnMessageIsWritten(s, src, a, t, i, x);
    case Irq(task) => assert Legal(s.procs[task]);
    case _ =>
  }

  lemma OnlyOwnMessageIsWritten(s: State, src: int, a: int, t: State, i: int, x: int)
    requires Inv(s) && IsStep(s, ReceiveMessage(src, a), t) && IsPid(i) && !(i == s.ready && x == a)
    ensures |t.mem| == N && Load(t.mem[i], x) == Load(s.mem[i], x)
  {
    if s.procs[s.ready].hasInt && !IsPid(src) {
      ReceiveTakesInterrupt(s, src, a);
    } else if IsPid(Source(s, src)) {
      ReceiveIsTake(s, src, a);
    }
  }

  /** Cell x of process i's memory, in any run, changes only by an event that writes it. */
  lemma {:induction false} MemoryLasts(run: seq<State>, es: seq<Event>, i: int, x: int, k: nat)
    requires IsRun(run, es) && Inv(run[0]) && IsPid(i) && k < |run|
    requires forall j :: 0 <= j < |es| ==> Shaped(run[j]) && Possible(run[j], es[j]) && !Writes(run[j], es[j], i, x)
    ensures |run[k].mem| == N && Load(run[k].mem[i], x) == Load(run[0].mem[i], x)
  {
    if k > 0 {
      MemoryLasts(run, es, i, x, k - 1);
      RunKeepsInv(run, es, k - 1);
      assert IsStep(run[k - 1], es[k - 1], run[k]);
      OnlyMessagesAreWritten(run[k - 1], es[k - 1], run[k], i, x);
    }
  }

  /** After a send, the sender's message names it, and a receiver that was waiting for it has the same message. */
  lemma SendWrites(s: State, dest: int, a: int, t: State)
    requires Inv(s) && IsStep(s, SendMessage(dest, a), t)
    ensures |t.mem| == N
    ensures var m := Load(s.mem[s.ready], a).(source := s.ready);
            && Load(t.mem[s.ready], a) == m
            && (IsBuffer(s.procs[dest], s.ready, s.procs[dest].msg) ==> Load(t.mem[dest], s.procs[dest].msg) == m)
  {
  }

  /** The running process's receive from src takes the interrupt that is held back for it. */
  predicate MeetsInterrupt(s: State, src: int)
    requires Shaped(s)
  {
    s.procs[s.ready].hasInt && (src == ANY || src == INTERRUPT)
  }

  /** It finds a sender that is blocked in a send to it: anybody in its queue, or the one it asks for. */
  predicate MeetsSender(s: State, src: int)
    requires Shaped(s)
  {
    var c := s.ready;
    if src == ANY then s.queues[c] != []
    else IsPid(src) && s.procs[src].flags.sending && s.procs[src].sendTo == c
  }

  /** The sender that it then serves: of several, the one queued first. */
  function Met(s: State, src: int): int
    requires Shaped(s) && MeetsSender(s, src)
  {
    if src == ANY then s.queues[s.ready][0] else src
  }

  lemma MetIsQueued(s: State, src: int)
    requires CoreInv(s) && ValidSource(src) && MeetsSender(s, src)
    ensures var f := Met(s, src);
            && Source(s, src) == f && IsPid(f) && f in s.queues[s.ready]
            && s.procs[f].flags == SENDING && s.procs[f].sendTo == s.ready && s.procs[f].recvFrom == NO_TASK
  {
    var q := s.queues[s.ready];
    if src == ANY {
      assert q[0] in q && SendsTo(s.procs, q[0], s.ready);
    }
    SourceIsQueued(s, src);
  }

  /**
   After a receive the running process finds the interrupt, or the message of the sender that it has met, or its own
   number in a message that has yet to come.
   */
  lemma ReceiveWrites(s: State, src: int, a: int, t: State)
    requires Inv(s) && IsStep(s, ReceiveMessage(src, a), t)
    ensures |t.mem| == N
    ensures MeetsInterrupt(s, src) ==> Load(t.mem[s.ready], a) == Message(INTERRUPT, HARD_INT, 0, 0)
    ensures !MeetsInterrupt(s, src) && MeetsSender(s, src) ==>
              var f := Met(s, src); IsPid(f) && Load(t.mem[s.ready], a) == Load(s.mem[f], s.procs[f].msg)
    ensures !MeetsInterrupt(s, src) && !MeetsSender(s, src) ==>
              Load(t.mem[s.ready], a) == Load(s.mem[s.ready], a).(source := s.ready)
  {
    if MeetsInterrupt(s, src) {
      ReceiveTakesInterrupt(s, src, a);
    } else if MeetsSender(s, src) {
      MetIsQueued(s, src);
      ReceiveIsTake(s, src, a);
    }
  }

  /** An interrupt changes the source and the type of what the waiting task has in its buffer, and no more of it. */
  lemma InterruptWrites(s: State, task: int, t: State)
    requires Inv(s) && IsStep(s, Irq(task), t) && IsBuffer(s.procs[task], INTERRUPT, s.procs[task].msg)
    ensures |t.mem| == N
    ensures var x := s.procs[task].msg;
            Load(t.mem[task], x) == Load(s.mem[task], x).(source := INTERRUPT, kind := HARD_INT)
  {
    assert Legal(s.procs[task]);
  }

  // ---------------------------------------------------------------- the table and the queues

  /**
   A send to a process that is waiting for it unblocks just that process, and nobody else's entry, queue or turn
   changes. Any other send blocks the sender, last in the queue.
   */
  lemma SendSettles(s: State, dest: int, a: int, t: State)
    requires Inv(s) && IsStep(s, SendMessage(dest, a), t)
    ensures t.now == s.now && |t.procs| == N
    ensures var c, p := s.ready, s.procs[dest];
            if IsBuffer(p, c, p.msg) then
              && t.procs == s.procs[dest := p.(flags := READY, msg := 0, recvFrom := NO_TASK)]
              && t.queues == s.queues && t.ready == c
            else
              && t.procs[c] == s.procs[c].(flags := SENDING, msg := a, sendTo := dest)
              && t.queues == s.queues[dest := s.queues[dest] + [c]] && t.ready != c
              && forall i :: 0 <= i < N && i != c ==> SameButSchedule(s.procs[i], t.procs[i])
  {
    var c, p := s.ready, s.procs[dest];
    if !IsBuffer(p, c, p.msg) {
      var u := Enqueue(Stamp(s, a), c, dest, a);
      BlockedByItself(u, c);
      assert TtyRuns(u.procs);
      SelectedHasMostTicks(u.procs, u.now, c);
      ScheduledIsSame(u.procs, u.now);
    }
  }

  /** A process that is blocked otherwise than in a sleep passes through a call of schedule() unchanged. */
  lemma BlockedByItself(s: State, c: int)
    requires 0 <= c < |s.procs| && !s.procs[c].flags.sleeping && s.procs[c].flags != READY
    ensures |Reschedule(s).procs| == |s.procs| && Reschedule(s).procs[c] == s.procs[c]
  {
    ScheduleMeetsItsDescription(s.procs, s.now, c);
  }

  /**
   A receive takes a held-back interrupt, or unblocks the sender that it meets and closes the gap in the queue, or
   blocks the receiver.
   */
  lemma ReceiveSettles(s: State, src: int, a: int, t: State)
    requires Inv(s) && IsStep(s, ReceiveMessage(src, a), t)
    ensures t.now == s.now && |t.procs| == N
    ensures var c := s.ready;
            if MeetsInterrupt(s, src) then
              t.procs == s.procs[c := s.procs[c].(hasInt := false)] && t.queues == s.queues && t.ready == c
            else if MeetsSender(s, src) then
              var f := Met(s, src);
              && IsPid(f) && t.procs == s.procs[f := s.procs[f].(flags := READY, msg := 0, sendTo := NO_TASK)]
              && t.ready == c
              && exists k: nat :: k < |s.queues[c]| && s.queues[c][k] == f
                                  && t.queues == s.queues[c := s.queues[c][..k] + s.queues[c][k + 1..]]
            else
              && t.procs[c] == s.procs[c].(flags := RECEIVING, msg := a, recvFrom := src)
              && t.queues == s.queues && t.ready != c
              && forall i :: 0 <= i < N && i != c ==> SameButSchedule(s.procs[i], t.procs[i])
  {
    var c := s.ready;
    if MeetsInterrupt(s, src) {
      ReceiveTakesInterrupt(s, src, a);
    } else if MeetsSender(s, src) {
      MetIsQueued(s, src);
      ReceiveIsTake(s, src, a);
      assert s.queues[c][IndexOf(s.queues[c], Met(s, src))] == Met(s, src);
    } else {
      var u := Await(Stamp(s, a), src, a);
      BlockedByItself(u, c);
      assert TtyRuns(u.procs);
      SelectedHasMostTicks(u.procs, u.now, c);
      ScheduledIsSame(u.procs, u.now);
    }
  }

  /** An interrupt unblocks the task that waits for one, and is noted in the entry of any other. */
  lemma InterruptSettles(s: State, task: int, t: State)
    requires Inv(s) && IsStep(s, Irq(task), t)
    ensures t.now == s.now && t.queues == s.queues && t.ready == s.ready
    ensures var p := s.procs[task];
            t.procs == s.procs[task := if IsBuffer(p, INTERRUPT, p.msg)
                                       then p.(flags := READY, msg := 0, recvFrom := NO_TASK, hasInt := false)
                                       else p.(hasInt := true)]
  {
    assert Legal(s.procs[task]);
  }

  predicate SameFamilyFields(p: Proc, q: Proc) {
    && q.parent == p.parent && q.exitStatus == p.exitStatus && q.priority == p.priority
    && q.ldtC == p.ldtC && q.ldtRW == p.ldtRW
    && q.flags.waiting == p.flags.waiting && q.flags.hanging == p.flags.hanging
    && q.flags.freeSlot == p.flags.freeSlot && q.flags.doingFork == p.flags.doingFork
  }

  /** What no step of the kernel changes in any entry: the family, the exit status, the priority and the segments. */
  lemma FamilyFieldsStay(s: State, e: Event, t: State, i: int)
    requires Inv(s) && IsStep(s, e, t) && IsPid(i)
    ensures |t.procs| == N && SameFamilyFields(s.procs[i], t.procs[i])
  {
    match e
    case StoreMessage(a, m) =>
    case SendMessage(dest, a) => SendKeepsFamilyFields(s, dest, a, t, i);
    case ReceiveMessage(src, a) => ReceiveKeepsFamilyFields(s, src, a, t, i);
    case Irq(task) => InterruptKeepsFamilyFields(s, task, t, i);
    case _ => TimeKeepsFamilyFields(s, e, t, i);
  }

  lemma InterruptKeepsFamilyFields(s: State, task: int, t: State, i: int)
    requires Inv(s) && IsStep(s, Irq(task), t) && IsPid(i)
    ensures |t.procs| == N && SameFamilyFields(s.procs[i], t.procs[i])
  {
    InterruptSettles(s, task, t);
    assert Legal(s.procs[task]);
  }

  lemma TimeKeepsFamilyFields(s: State, e: Event, t: State, i: int)
    requires Inv(s) && IsStep(s, e, t) && (e.Clock? || e.Nap?) && IsPid(i)
    ensures |t.procs| == N && SameFamilyFields(s.procs[i], t.procs[i])
  {
    var u := if e.Clock? then CountTick(s) else FallAsleep(s, e.ms);
    assert SameFamilyFields(s.procs[i], u.procs[i]);
    SchedulingKeepsFamilyFields(u.procs, u.now, i);
  }

  lemma SchedulingKeepsFamilyFields(ps: seq<Proc>, now: int, i: int)
    requires 0 <= i < |ps|
    ensures |Scheduled(ps, now)| == |ps| && SameFamilyFields(ps[i], Scheduled(ps, now)[i])
  {
    ScheduledIsSame(ps, now);
  }

  lemma SendKeepsFamilyFields(s: State, dest: int, a: int, t: State, i: int)
    requires Inv(s) && IsStep(s, SendMessage(dest, a), t) && IsPid(i)
    ensures |t.procs| == N && SameFamilyFields(s.procs[i], t.procs[i])
  {
    SendSettles(s, dest, a, t);
    assert Legal(s.procs[dest]) && Legal(s.procs[s.ready]);
  }

  lemma ReceiveKeepsFamilyFields(s: State, src: int, a: int, t: State, i: int)
    requires Inv(s) && IsStep(s, ReceiveMessage(src, a), t) && IsPid(i)
    ensures |t.procs| == N && SameFamilyFields(s.procs[i], t.procs[i])
  {
    ReceiveSettles(s, src, a, t);
    if !MeetsInterrupt(s, src) && MeetsSender(s, src) {
      MetIsQueued(s, src);
    }
  }

  /** Falling asleep sets the deadline and gives the processor away; a deadline that is not ahead is none. */
  lemma NapSettles(s: State, ms: int, t: State)
    requires Inv(s) && IsStep(s, Nap(ms), t)
    ensures t.now == s.now && t.queues == s.queues && t.mem == s.mem && |t.procs| == N
    ensures SleepTicks(ms) > 0 ==>
              t.procs[s.ready] == s.procs[s.ready].(flags := PROC_SLEEP, wakeUp := s.now + SleepTicks(ms))
              && t.ready != s.ready
    ensures SleepTicks(ms) <= 0 ==> t.procs[s.ready].flags == READY && t.procs[s.ready].wakeUp == 0
    ensures forall i :: 0 <= i < N && i != s.ready ==> SameButSchedule(s.procs[i], t.procs[i])
  {
    var u := FallAsleep(s, ms);
    ScheduleMeetsItsDescription(u.procs, u.now, s.ready);
    assert TtyRuns(u.procs);
    SelectedHasMostTicks(u.procs, u.now, s.ready);
    ScheduledIsSame(u.procs, u.now);
  }
}
