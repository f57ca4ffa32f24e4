/**
 Fairness of the scheduler over whole runs: a runnable process is selected within
 two epochs' worth of clock ticks, and a sleeper neither wakes early nor oversleeps.
 */
module SchedRuns {
  import opened ProcTable
  import opened Segments
  import opened SchedSpec
  import opened IpcSpec
  import opened IpcInv
  import opened IpcRuns

  // ---------------------------------------------------------------- one step, seen by the scheduler

  /** The scheduling fields of q are p's; ran tells whether a clock tick was charged to it. */
  predicate SameTime(p: Proc, q: Proc, ran: bool) {
    q.priority == p.priority && q.ticks == p.ticks - if ran then 1 else 0
  }

  /** q is as runnable, and as deeply asleep, as p. */
  predicate StillThere(p: Proc, q: Proc) {
    && (Runnable(p) ==> Runnable(q))
    && (p.flags.sleeping ==> q.flags == p.flags && q.wakeUp == p.wakeUp)
  }

  /** Between s and t only the running process's ticks change, and only by a clock tick. */
  ghost predicate Charged(s: State, clock: bool, t: State) {
    && |t.procs| == |s.procs| && t.ready == s.ready && t.now == s.now + (if clock then 1 else 0)
    && (forall i :: 0 <= i < |s.procs| ==> SameTime(s.procs[i], t.procs[i], clock && i == s.ready))
  }

  /** t comes from s without scheduling. */
  ghost predicate Unscheduled(s: State, clock: bool, t: State) {
    Charged(s, clock, t) && forall i :: 0 <= i < |s.procs| && i != s.ready ==> StillThere(s.procs[i], t.procs[i])
  }

  lemma SendIsUnscheduled(s: State, dest: int, a: int, t: State) returns (u: State, gives: bool)
    requires Inv(s) && IsPid(dest) && SysSend(s, dest, a) == Done(t)
    ensures Unscheduled(s, false, u) && t == if gives then Reschedule(u) else u
  {
    gives := !Awaits(s.procs[dest], s.ready);
    if gives {
      u := Enqueue(Stamp(s, a), s.ready, dest, a);
    } else {
      u := t;
      assert u.procs == s.procs[dest := Received(s.procs[dest])];
    }
  }

  lemma TakeIsUnscheduled(s: State, f: int, a: int)
    requires Inv(s) && IsPid(f) && s.procs[f].flags == SENDING && f in s.queues[s.ready]
    ensures Unscheduled(s, false, Take(Stamp(s, a), f, a))
  {
    assert Take(Stamp(s, a), f, a).procs == s.procs[f := Sent(s.procs[f])];
  }

  lemma ReceiveIsUnscheduled(s: State, src: int, a: int, t: State) returns (u: State, gives: bool)
    requires Inv(s) && ValidSource(src) && src != s.ready && SysReceive(s, src, a) == Done(t)
    ensures Unscheduled(s, false, u) && t == if gives then Reschedule(u) else u
  {
    gives := false;
    u := t;
    if s.procs[s.ready].hasInt && !IsPid(src) {
      ReceiveTakesInterrupt(s, src, a);
    } else if IsPid(Source(s, src)) {
      SourceIsQueued(s, src);
      ReceiveIsTake(s, src, a);
      TakeIsUnscheduled(s, Source(s, src), a);
    } else {
      gives := true;
      u := Await(Stamp(s, a), src, a);
    }
  }

  lemma InterruptIsUnscheduled(s: State, task: int)
    requires Inv(s) && IsPid(task)
    ensures Interrupt(s, task).Done? && Unscheduled(s, false, Interrupt(s, task).s)
  {
    assert Legal(s.procs[task]);
  }

  /** Every event is an unscheduled change, followed by a call of schedule() or not. */
  lemma StepIsUnscheduled(s: State, e: Event, t: State) returns (u: State, gives: bool)
    requires Inv(s) && IsStep(s, e, t)
    ensures Unscheduled(s, e.Clock?, u) && t == if gives then Reschedule(u) else u
    ensures e == Clock(false) ==> (gives <==> u.procs[s.ready].ticks <= 0)
  {
    u, gives := t, false;
    match e
    case StoreMessage(a, m) =>
    case SendMessage(dest, a) => u, gives := SendIsUnscheduled(s, dest, a, t);
    case ReceiveMessage(src, a) => u, gives := ReceiveIsUnscheduled(s, src, a, t);
    case Irq(task) => InterruptIsUnscheduled(s, task);
    case Clock(nested) =>
      u := CountTick(s);
      gives := !nested && u.procs[s.ready].ticks <= 0;
    case Nap(ms) =>
      u, gives := FallAsleep(s, ms), true;
  }

  // ---------------------------------------------------------------- the potential

  function Max0(x: int): nat {
    if x > 0 then x else 0
  }

  /** The ticks left in the current epoch. */
  function TicksLeft(ps: seq<Proc>): nat {
    if ps == [] then 0 else TicksLeft(ps[..|ps| - 1]) + Max0(ps[|ps| - 1].ticks)
  }

  function SumPriority(ps: seq<Proc>): nat {
    if ps == [] then 0 else SumPriority(ps[..|ps| - 1]) + Max0(ps[|ps| - 1].priority)
  }

  ghost predicate Budgeted(ps: seq<Proc>) {
    forall i :: 0 <= i < |ps| ==> ps[i].ticks <= ps[i].priority
  }

  /** Nobody has more ticks than priority, and the running process has some. */
  ghost predicate Timed(s: State) {
    Budgeted(s.procs) && 0 <= s.ready < |s.procs| && s.procs[s.ready].ticks > 0
  }

  lemma {:induction false} TicksBounded(ps: seq<Proc>)
    requires Budgeted(ps)
    ensures TicksLeft(ps) <= SumPriority(ps)
  {
    if ps != [] {
      assert forall i :: 0 <= i < |ps| - 1 ==> ps[..|ps| - 1][i] == ps[i];
      TicksBounded(ps[..|ps| - 1]);
    }
  }

  lemma {:induction false} SamePrioritiesSameSum(ps: seq<Proc>, qs: seq<Proc>)
    requires |ps| == |qs| && forall i :: 0 <= i < |ps| ==> ps[i].priority == qs[i].priority
    ensures SumPriority(ps) == SumPriority(qs)
  {
    if ps != [] {
      SamePrioritiesSameSum(ps[..|ps| - 1], qs[..|qs| - 1]);
    }
  }

  lemma {:induction false} TicksFall(ps: seq<Proc>, qs: seq<Proc>, k: int)
    requires |ps| == |qs| && forall i :: 0 <= i < |ps| && i != k ==> ps[i].ticks == qs[i].ticks
    requires 0 <= k < |ps| ==> qs[k].ticks == ps[k].ticks - 1 && ps[k].ticks > 0
    ensures TicksLeft(ps) == TicksLeft(qs) + if 0 <= k < |ps| then 1 else 0
  {
    if ps != [] {
      var n := |ps| - 1;
      assert 0 <= k < n ==> ps[..n][k] == ps[k] && qs[..n][k] == qs[k];
      TicksFall(ps[..n], qs[..n], k);
    }
  }

  lemma {:induction false} OneHasTicks(ps: seq<Proc>, k: int)
    requires 0 <= k < |ps|
    ensures TicksLeft(ps) >= ps[k].ticks
  {
    var n := |ps| - 1;
    if k < n {
      OneHasTicks(ps[..n], k);
    }
  }

  /** An upper bound on the clock ticks that can pass before process i must be selected. */
  function Patience(s: State, i: int): nat
    requires 0 <= i < |s.procs|
  {
    TicksLeft(s.procs) + if s.procs[i].ticks > 0 then 0 else SumPriority(s.procs)
  }

  lemma TickChargesOne(s: State, clock: bool, u: State)
    requires Timed(s) && Charged(s, clock, u)
    ensures Budgeted(u.procs)
    ensures TicksLeft(s.procs) == TicksLeft(u.procs) + if clock then 1 else 0
    ensures SumPriority(s.procs) == SumPriority(u.procs)
  {
    forall i | 0 <= i < |s.procs| ensures u.procs[i].ticks <= u.procs[i].priority {
      assert SameTime(s.procs[i], u.procs[i], clock && i == s.ready);
    }
    TicksFall(s.procs, u.procs, if clock then s.ready else -1);
    SamePrioritiesSameSum(s.procs, u.procs);
  }

  /** Scheduling while i is runnable: either nobody's ticks change, or i had none and now has its priority. */
  lemma ScheduleSparesTheEpoch(ps: seq<Proc>, now: int, i: int)
    requires Budgeted(ps) && 0 <= i < |ps| && Runnable(ps[i])
    ensures var qs := Scheduled(ps, now);
            && Budgeted(qs) && SumPriority(qs) == SumPriority(ps)
            && ((TicksLeft(qs) == TicksLeft(ps) && qs[i].ticks == ps[i].ticks)
                || (ps[i].ticks <= 0 && qs[i].ticks == ps[i].priority))
  {
    var qs := Scheduled(ps, now);
    ScheduledIsSame(ps, now);
    SamePrioritiesSameSum(ps, qs);
    var woken := WakeAll(ps, now);
    assert woken[i] == ps[i];
    if SomeTicksLeft(woken) {
      TicksFall(ps, qs, -1);
    }
  }

  /** A process that stays runnable and is not running loses patience with every tick that is charged. */
  lemma ChargingTriesPatience(s: State, clock: bool, u: State, gives: bool, t: State, i: int)
    requires Timed(s) && Charged(s, clock, u) && t == if gives then Reschedule(u) else u
    requires 0 <= i < |s.procs| && i != s.ready && Runnable(u.procs[i]) && s.procs[i].priority > 0
    ensures |t.procs| == |s.procs| && Patience(t, i) + (if clock then 1 else 0) <= Patience(s, i)
    ensures SumPriority(t.procs) == SumPriority(s.procs) && t.procs[i].priority == s.procs[i].priority
  {
    TickChargesOne(s, clock, u);
    assert SameTime(s.procs[i], u.procs[i], false);
    if gives {
      ScheduleSparesTheEpoch(u.procs, u.now, i);
      ScheduledIsSame(u.procs, u.now);
      TicksBounded(t.procs);
      OneHasTicks(s.procs, s.ready);
    }
  }

  /** A process that stays runnable and is not running loses patience with every clock tick. */
  lemma PatienceFalls(s: State, e: Event, t: State, i: int)
    requires Inv(s) && Timed(s) && IsStep(s, e, t) && e != Clock(true)
    requires IsPid(i) && i != s.ready
    requires Runnable(s.procs[i]) && s.procs[i].priority > 0
    ensures |t.procs| == N && Patience(t, i) + (if e.Clock? then 1 else 0) <= Patience(s, i)
    ensures SumPriority(t.procs) == SumPriority(s.procs) && t.procs[i].priority == s.procs[i].priority
  {
    var u, gives := StepIsUnscheduled(s, e, t);
    assert StillThere(s.procs[i], u.procs[i]);
    ChargingTriesPatience(s, e.Clock?, u, gives, t, i);
  }

  /** Afterwards the running process has ticks: it had some left, or has been selected. */
  lemma ChargingKeepsTimed(s: State, clock: bool, u: State, gives: bool, t: State)
    requires Timed(s) && Charged(s, clock, u) && t == if gives then Reschedule(u) else u
    requires gives ==> |u.procs| == N && TtyRuns(t.procs)
    requires !gives && clock ==> u.procs[s.ready].ticks > 0
    ensures Timed(t)
  {
    TickChargesOne(s, clock, u);
    if gives {
      ScheduleFindsFor(u.procs, u.now, t);
      RescheduleBudget(u.procs, u.now);
    } else {
      assert SameTime(s.procs[s.ready], u.procs[s.ready], clock);
    }
  }

  lemma StepKeepsTimed(s: State, e: Event, t: State)
    requires Inv(s) && Timed(s) && IsStep(s, e, t) && e != Clock(true)
    ensures Timed(t)
  {
    var u, gives := StepIsUnscheduled(s, e, t);
    StepKeepsInv(s, e);
    ChargingKeepsTimed(s, e.Clock?, u, gives, t);
  }

  lemma RescheduleBudget(ps: seq<Proc>, now: int)
    requires Budgeted(ps)
    ensures Budgeted(Scheduled(ps, now))
  {
  }

  lemma ScheduleFindsFor(ps: seq<Proc>, now: int, t: State)
    requires |ps| == N && t.procs == Scheduled(ps, now) && t.ready == Pick(t.procs) && TtyRuns(t.procs)
    ensures IsPick(t.procs, t.ready)
  {
    var woken := WakeAll(ps, now);
    if !SomeTicksLeft(woken) {
      assert t.procs == RefillAll(woken);
      assert t.procs[TASK_TTY].ticks > 0;
    }
    PickExists(t.procs);
  }

  // ---------------------------------------------------------------- bounded waiting

  function Clocks(es: seq<Event>): nat {
    if es == [] then 0 else Clocks(es[..|es| - 1]) + if es[|es| - 1].Clock? then 1 else 0
  }

  /** A run without clock interrupts that arrive in ring 0. */
  ghost predicate IsTimedRun(run: seq<State>, es: seq<Event>) {
    IsRun(run, es) && Inv(run[0]) && Timed(run[0]) && forall k :: 0 <= k < |es| ==> es[k] != Clock(true)
  }

  lemma {:induction false} RunKeepsTimed(run: seq<State>, es: seq<Event>, k: nat)
    requires IsTimedRun(run, es) && k < |run|
    ensures Inv(run[k]) && Timed(run[k])
  {
    RunKeepsInv(run, es, k);
    if k > 0 {
      RunKeepsTimed(run, es, k - 1);
      assert IsStep(run[k - 1], es[k - 1], run[k]);
      StepKeepsTimed(run[k - 1], es[k - 1], run[k]);
    }
  }

  lemma {:induction false} PatienceAlongRun(run: seq<State>, es: seq<Event>, i: int, k: nat)
    requires IsTimedRun(run, es) && IsPid(i) && k < |run| && run[0].procs[i].priority > 0
    requires forall j :: 0 <= j < |run| ==> |run[j].procs| == N && Runnable(run[j].procs[i]) && run[j].ready != i
    ensures Patience(run[k], i) + Clocks(es[..k]) <= Patience(run[0], i)
    ensures run[k].procs[i].priority == run[0].procs[i].priority
  {
    if k > 0 {
      PatienceAlongRun(run, es, i, k - 1);
      RunKeepsTimed(run, es, k - 1);
      assert IsStep(run[k - 1], es[k - 1], run[k]);
      PatienceFalls(run[k - 1], es[k - 1], run[k], i);
      assert es[..k][..k - 1] == es[..k - 1];
    }
  }

  /**
   Bounded waiting: in any run, however the other processes send, receive and sleep,
   a process that stays runnable is selected before twice the sum of all priorities
   has passed in clock ticks.
   */
  lemma BoundedWaiting(run: seq<State>, es: seq<Event>, i: int)
    requires IsTimedRun(run, es) && IsPid(i) && run[0].procs[i].priority > 0
    requires forall j :: 0 <= j < |run| ==> |run[j].procs| == N && Runnable(run[j].procs[i])
    requires Clocks(es) >= 2 * SumPriority(run[0].procs)
    ensures exists j :: 0 <= j < |run| && run[j].ready == i
  {
    if forall j :: 0 <= j < |run| ==> run[j].ready != i {
      PatienceAlongRun(run, es, i, |es|);
      assert es[..|es|] == es;
      TicksBounded(run[0].procs);
      RunKeepsTimed(run, es, |es|);
      OneHasTicks(run[|es|].procs, run[|es|].ready);
    }
  }

  lemma BootIsTimed(mem: seq<Memory>)
    requires |mem| == N
    ensures Timed(BootState(mem))
  {
  }

  // ---------------------------------------------------------------- who loses and gets ticks

  /** Everybody who is runnable has just been given its priority in ticks. */
  ghost predicate NewEpoch(ps: seq<Proc>) {
    forall j :: 0 <= j < |ps| && ps[j].flags == READY ==> ps[j].ticks == ps[j].priority
  }

  /**
   A process's ticks change in two ways only: the clock takes one from the running process, and a new epoch,
   which begins for all the runnable processes at once and for no other, gives it its priority.
   */
  lemma HowTicksChange(s: State, e: Event, t: State, i: int)
    requires Inv(s) && IsStep(s, e, t) && IsPid(i)
    ensures |t.procs| == N && t.procs[i].priority == s.procs[i].priority
    ensures t.procs[i].ticks == s.procs[i].ticks - (if e.Clock? && i == s.ready then 1 else 0)
         || (t.procs[i].flags == READY && NewEpoch(t.procs))
  {
    var u, gives := StepIsUnscheduled(s, e, t);
    assert SameTime(s.procs[i], u.procs[i], e.Clock? && i == s.ready);
    if gives {
      ScheduleGivesTicks(u.procs, u.now, i);
    }
  }

  lemma ScheduleGivesTicks(ps: seq<Proc>, now: int, i: int)
    requires 0 <= i < |ps|
    ensures var qs := Scheduled(ps, now);
            && |qs| == |ps| && qs[i].priority == ps[i].priority
            && (qs[i].ticks == ps[i].ticks || (qs[i].flags == READY && NewEpoch(qs)))
  {
    var qs := Scheduled(ps, now);
    ScheduleMeetsItsDescription(ps, now, i);
    if qs[i].ticks != ps[i].ticks {
      forall j | 0 <= j < |ps| && qs[j].flags == READY ensures qs[j].ticks == qs[j].priority {
        ScheduleMeetsItsDescription(ps, now, j);
      }
    }
  }

  /** As long as a process is blocked it keeps its ticks, whatever epochs begin meanwhile. */
  lemma {:induction false} BlockedKeepTheirTicks(run: seq<State>, es: seq<Event>, i: int, k: nat)
    requires IsRun(run, es) && Inv(run[0]) && IsPid(i) && k < |run|
    requires forall j :: 0 <= j < |run| ==> |run[j].procs| == N && run[j].procs[i].flags != READY
    ensures run[k].procs[i].ticks == run[0].procs[i].ticks
  {
    if k > 0 {
      BlockedKeepTheirTicks(run, es, i, k - 1);
      RunKeepsInv(run, es, k - 1);
      assert IsStep(run[k - 1], es[k - 1], run[k]);
      HowTicksChange(run[k - 1], es[k - 1], run[k], i);
    }
  }

  // ---------------------------------------------------------------- the clock

  /** An interrupt that arrives in ring 0 only counts. */
  lemma NestedTickOnlyCounts(s: State, t: State, i: int)
    requires Inv(s) && IsStep(s, Clock(true), t) && IsPid(i)
    ensures t.now == s.now + 1 && t.ready == s.ready && t.queues == s.queues && t.mem == s.mem && t.trace == s.trace
    ensures |t.procs| == N
    ensures t.procs[i] == if i == s.ready then s.procs[i].(ticks := s.procs[i].ticks - 1) else s.procs[i]
  {
  }

  /** Any other one counts likewise, and takes the processor away exactly if it has taken the last tick. */
  lemma ClockTakesTheProcessor(s: State, t: State, i: int)
    requires Inv(s) && IsStep(s, Clock(false), t) && IsPid(i)
    ensures t.now == s.now + 1 && t.queues == s.queues && t.mem == s.mem && t.trace == s.trace && |t.procs| == N
    ensures s.procs[s.ready].ticks > 1 ==>
              && t.ready == s.ready
              && t.procs[i] == if i == s.ready then s.procs[i].(ticks := s.procs[i].ticks - 1) else s.procs[i]
    ensures s.procs[s.ready].ticks <= 1 ==>
              && IsPid(t.ready) && t.procs[t.ready].flags == READY && t.procs[t.ready].ticks > 0
              && (t.procs[i].flags == READY ==> t.procs[i].ticks <= t.procs[t.ready].ticks)
  {
    TickKeepsInv(s, false);
    var u := CountTick(s);
    if s.procs[s.ready].ticks <= 1 {
      assert TtyRuns(u.procs);
      SelectedHasMostTicks(u.procs, u.now, i);
    }
  }

  // ---------------------------------------------------------------- the bound at boot

  function BootSum(n: int): int {
    if n <= NR_TASKS then 15 * n
    else if n <= FIRST_FORKED then 15 * NR_TASKS + 5 * (n - NR_TASKS)
    else 15 * NR_TASKS + 5 * NR_NATIVE_PROCS
  }

  lemma {:induction false} BootPriorities(ps: seq<Proc>)
    requires |ps| <= N && forall i :: 0 <= i < |ps| ==> ps[i] == BootProc(i)
    ensures SumPriority(ps) == BootSum(|ps|)
  {
    if ps != [] {
      BootPriorities(ps[..|ps| - 1]);
    }
  }

  /** In any run from boot, a process that stays runnable is selected within 190 ticks, 1.9 seconds. */
  lemma WaitingFromBoot(run: seq<State>, es: seq<Event>, mem: seq<Memory>, i: int)
    requires |mem| == N && IsTimedRun(run, es) && run[0] == BootState(mem) && 0 <= i < FIRST_FORKED
    requires forall j :: 0 <= j < |run| ==> |run[j].procs| == N && Runnable(run[j].procs[i])
    requires Clocks(es) >= 190
    ensures exists j :: 0 <= j < |run| && run[j].ready == i
  {
    BootPriorities(run[0].procs);
    BoundedWaiting(run, es, i);
  }

  // ---------------------------------------------------------------- sleeping

  /** schedule() wakes exactly the sleepers whose deadline has come. */
  lemma ScheduleWakes(ps: seq<Proc>, now: int, i: int)
    requires 0 <= i < |ps| && ps[i].flags == PROC_SLEEP
    ensures ps[i].wakeUp <= now ==> Runnable(Scheduled(ps, now)[i])
    ensures ps[i].wakeUp > now ==> Scheduled(ps, now)[i] == ps[i]
  {
    assert WakeAll(ps, now)[i] == Wake(ps[i], now);
  }

  /** The longest sleep, in milliseconds, whose product with HZ fits an int. */
  const LONGEST_NAP := 0x7FFF_FFFF / HZ

  /**
   A call of sleep lasts as many whole ticks as fit into the time asked for, exactly if the product
   with HZ does not wrap.
   */
  lemma SleepLength(ms: int)
    requires 0 <= ms < 0x8000_0000
    ensures SleepTicks(ms) * 1000 <= ms * HZ < (SleepTicks(ms) + 1) * 1000 <==> ms <= LONGEST_NAP
    ensures ms <= LONGEST_NAP ==> SleepTicks(ms) == ms / 10
  {
    var product := ms * HZ;
    assert Wrap32(product) == product <==> ms <= LONGEST_NAP;
  }

  /**
   For any argument, the product is what is left of it in 32 bits, and its thousandth part is rounded towards zero: the
   deadline of a negative product is not ahead.
   */
  lemma SleepWrapsAndTruncates(ms: int) returns (product: int)
    ensures -0x8000_0000 <= product < 0x8000_0000 && (ms * 100 - product) % 0x1_0000_0000 == 0
    ensures product >= 0 ==> SleepTicks(ms) * 1000 <= product < (SleepTicks(ms) + 1) * 1000
    ensures product < 0 ==> (SleepTicks(ms) - 1) * 1000 < product <= SleepTicks(ms) * 1000
  {
    product := Wrap32(ms * HZ);
    var shifted := ms * HZ + 0x8000_0000;
    assert ms * 100 - product == shifted / 0x1_0000_0000 * 0x1_0000_0000;
    MultipleOfWord(shifted / 0x1_0000_0000);
  }

  lemma MultipleOfWord(n: int)
    ensures n * 0x1_0000_0000 % 0x1_0000_0000 == 0
  {
  }

  lemma SleeperStep(s: State, e: Event, t: State, i: int)
    requires Inv(s) && IsStep(s, e, t) && IsPid(i) && s.procs[i].flags.sleeping
    ensures |t.procs| == N && t.now == s.now + if e.Clock? then 1 else 0
    ensures t.procs[i].flags.sleeping ==> t.procs[i].flags == PROC_SLEEP && t.procs[i].wakeUp == s.procs[i].wakeUp
    ensures !t.procs[i].flags.sleeping ==> s.procs[i].wakeUp <= t.now && Runnable(t.procs[i])
    ensures s.procs[i].wakeUp <= s.now && t.procs[i].flags.sleeping ==>
              && t.ready == s.ready && t.procs[t.ready].ticks == s.procs[s.ready].ticks - if e.Clock? then 1 else 0
  {
    var u, gives := StepIsUnscheduled(s, e, t);
    assert Legal(s.procs[i]) && i != s.ready;
    assert StillThere(s.procs[i], u.procs[i]);
    assert SameTime(s.procs[s.ready], u.procs[s.ready], e.Clock?);
    if gives {
      ScheduledIsSame(u.procs, u.now);
      ScheduleWakes(u.procs, u.now, i);
    }
  }

  /** No process is woken before its deadline, whatever happens meanwhile. */
  lemma {:induction false} NobodyWakesEarly(run: seq<State>, es: seq<Event>, i: int, k: nat)
    requires IsRun(run, es) && Inv(run[0]) && IsPid(i) && k < |run| && |run[k].procs| == N
    requires run[0].procs[i].flags.sleeping && run[k].now < run[0].procs[i].wakeUp
    ensures run[k].procs[i].flags == PROC_SLEEP && run[k].procs[i].wakeUp == run[0].procs[i].wakeUp
  {
    if k > 0 {
      RunKeepsInv(run, es, k - 1);
      assert IsStep(run[k - 1], es[k - 1], run[k]);
      NobodyWakesEarlyStep(run[k - 1], es[k - 1], run[k]);
      NobodyWakesEarly(run, es, i, k - 1);
      SleeperStep(run[k - 1], es[k - 1], run[k], i);
    } else {
      assert Legal(run[0].procs[i]);
    }
  }

  lemma NobodyWakesEarlyStep(s: State, e: Event, t: State)
    requires Inv(s) && IsStep(s, e, t)
    ensures s.now <= t.now
  {
    var u, gives := StepIsUnscheduled(s, e, t);
  }

  predicate SleepsAt(run: seq<State>, i: int, j: int)
    requires 0 <= j < |run|
  {
    0 <= i < |run[j].procs| && run[j].procs[i].flags.sleeping
  }

  lemma {:induction false} OversleepingCountsDown(run: seq<State>, es: seq<Event>, i: int, k: nat)
    requires IsTimedRun(run, es) && IsPid(i) && k < |run|
    requires forall j :: 0 <= j < |run| ==> |run[j].procs| == N
    requires forall j {:trigger SleepsAt(run, i, j)} :: 0 <= j < |run| ==> SleepsAt(run, i, j)
    requires run[0].procs[i].wakeUp <= run[0].now
    ensures run[k].ready == run[0].ready && IsPid(run[k].ready)
    ensures run[k].procs[run[k].ready].ticks + Clocks(es[..k]) == run[0].procs[run[0].ready].ticks
    ensures run[k].procs[i].wakeUp <= run[k].now
  {
    if k > 0 {
      assert SleepsAt(run, i, k - 1) && SleepsAt(run, i, k);
      OversleepingCountsDown(run, es, i, k - 1);
      RunKeepsInv(run, es, k - 1);
      assert IsStep(run[k - 1], es[k - 1], run[k]);
      SleeperStep(run[k - 1], es[k - 1], run[k], i);
      assert es[..k][..k - 1] == es[..k - 1];
    }
  }

  lemma RunsAreShaped(run: seq<State>, es: seq<Event>)
    requires IsRun(run, es) && Inv(run[0])
    ensures forall j :: 0 <= j < |run| ==> |run[j].procs| == N
  {
    forall j | 0 <= j < |run| ensures |run[j].procs| == N {
      RunKeepsInv(run, es, j);
    }
  }

  /** The first state in which the sleeper is no longer asleep finds it runnable. */
  lemma {:induction false} FirstAwake(run: seq<State>, es: seq<Event>, i: int, k: nat) returns (j: nat)
    requires IsRun(run, es) && Inv(run[0]) && IsPid(i) && k < |run|
    requires SleepsAt(run, i, 0) && !SleepsAt(run, i, k)
    ensures j < |run| && |run[j].procs| == N && Runnable(run[j].procs[i])
  {
    RunKeepsInv(run, es, k - 1);
    if SleepsAt(run, i, k - 1) {
      j := k;
      assert IsStep(run[k - 1], es[k - 1], run[k]);
      SleeperStep(run[k - 1], es[k - 1], run[k], i);
    } else {
      j := FirstAwake(run, es, i, k - 1);
    }
  }

  /**
   Once its deadline has come, a sleeper is awake before the running process's remaining ticks, at most its priority,
   have passed.
   */
  lemma NobodyOversleeps(run: seq<State>, es: seq<Event>, i: int)
    requires IsTimedRun(run, es) && IsPid(i)
    requires run[0].procs[i].flags.sleeping && run[0].procs[i].wakeUp <= run[0].now
    requires Clocks(es) >= run[0].procs[run[0].ready].priority
    ensures exists j :: 0 <= j < |run| && |run[j].procs| == N && Runnable(run[j].procs[i])
  {
    RunsAreShaped(run, es);
    if k :| 0 <= k < |run| && !SleepsAt(run, i, k) {
      var j := FirstAwake(run, es, i, k);
    } else {
      assert forall j :: 0 <= j < |run| ==> SleepsAt(run, i, j);
      OversleepingCountsDown(run, es, i, |es|);
      assert es[..|es|] == es;
      RunKeepsTimed(run, es, |es|);
    }
  }
}
