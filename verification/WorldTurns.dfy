/**
 Bounded waiting with everything that the processes do, their calls, forks, exits and waits included: only a fork
 gives out ticks before their time, namely to the child as many as its parent has left.
 */
module WorldTurns {
  import opened ProcTable
  import opened SchedSpec
  import opened IpcSpec
  import opened IpcInv
  import opened IpcRuns
  import opened SchedRuns
  import opened Family
  import opened World
  import opened WorldInv
  import opened WorldManager
  import opened WorldRuns

  // ---------------------------------------------------------------- one move, seen by the scheduler

  predicate Talks(e: Move) {
    !e.Handle? && !e.Perform?
  }

  /** Whatever is not the memory manager's own work is one event for the kernel. */
  function EventOf(w: World, e: Move): Event
    requires ShapedWorld(w) && Talks(e) && (e.AwaitAnswer? ==> !w.phase[w.s.ready].Idle?)
  {
    match e
    case Call(v, a) => SendMessage(v, a)
    case Reply(d, a) => SendMessage(d, a)
    case AwaitAnswer(a) => ReceiveMessage(w.phase[w.s.ready].server, a)
    case Accept(src, a) => ReceiveMessage(src, a)
    case UserStore(a, m) => StoreMessage(a, m)
    case DiskIrq => Irq(TASK_HD)
    case ClockTick(nested) => Clock(nested)
    case Doze(ms) => Nap(ms)
  }

  lemma TalkingIsAStep(w: World, e: Move, t: World)
    requires WorldOk(w) && IsMove(w, e, t) && Talks(e)
    ensures IsStep(w.s, EventOf(w, e), t.s)
  {
    if e.Call? || e.Reply? {
      SendingIsAStep(w, e, t);
    } else if e.AwaitAnswer? || e.Accept? {
      ReceivingIsAStep(w, e, t);
    } else {
      PassingIsAStep(w, e, t);
    }
  }

  lemma SendingIsAStep(w: World, e: Move, t: World)
    requires IsMove(w, e, t) && (e.Call? || e.Reply?)
    ensures IsStep(w.s, EventOf(w, e), t.s)
  {
  }

  lemma ReceivingIsAStep(w: World, e: Move, t: World)
    requires IsMove(w, e, t) && (e.AwaitAnswer? || e.Accept?)
    ensures IsStep(w.s, EventOf(w, e), t.s)
  {
  }

  lemma PassingIsAStep(w: World, e: Move, t: World)
    requires IsMove(w, e, t) && (e.UserStore? || e.DiskIrq? || e.ClockTick? || e.Doze?)
    ensures IsStep(w.s, EventOf(w, e), t.s)
  {
  }

  /** The manager's message is a send, too, out of the memory that it has just written. */
  lemma TellingIsAStep(w: World, a: int, t: World)
    requires WorldOk(w) && IsMove(w, Perform(a), t) && !w.actions[0].Release?
    ensures var s := AboutToSend(w, a).s;
            && Inv(s) && s.procs == w.s.procs && s.ready == w.s.ready && s.now == w.s.now
            && IsStep(s, SendMessage(w.actions[0].to, a), t.s)
  {
    DueIsAnswerable(w, a);
    assert PerformStep(w, a) == AnswerStep(AboutToSend(w, a), w.actions[0].to, a);
  }

  ghost predicate Births(w: World, e: Move)
    requires ShapedWorld(w)
  {
    e.Handle? && w.hand.Request? && w.hand.m.kind == FORK && IsUser(w.hand.from) && NativesStay(w.s.procs)
    && Fork(w.s.procs, w.s.mem, w.hand.from, w.memorySize).Forked?
  }

  /** The manager's changes of the table leave the scheduler's fields alone, but for a birth. */
  lemma ManagingIsCharged(w: World, e: Move, t: World)
    requires WorldOk(w) && IsMove(w, e, t) && (e.Handle? || (e.Perform? && w.actions[0].Release?)) && !Births(w, e)
    ensures Charged(w.s, false, t.s)
  {
    if e.Perform? {
      ReleaseIsCharged(w, e.a, t);
    } else if w.hand.m.kind == EXIT {
      DeathIsCharged(w, t);
    } else {
      HandlingFacts(w);
    }
  }

  lemma ReleaseIsCharged(w: World, a: int, t: World)
    requires WorldOk(w) && IsMove(w, Perform(a), t) && w.actions[0].Release?
    ensures Charged(w.s, false, t.s)
  {
    assert ActionOk(w.s.procs, w.phase, w.actions[0]);
  }

  lemma DeathIsCharged(w: World, t: World)
    requires Handling(w, EXIT) && IsMove(w, Handle, t)
    ensures Charged(w.s, false, t.s)
  {
    ExitGuards(w);
    ExitTable(w.s.procs, w.hand.from, w.hand.m.i1);
    forall i | 0 <= i < N ensures SameTime(w.s.procs[i], t.s.procs[i], false) {
      assert IsLeft(w.s.procs, w.hand.from, w.hand.m.i1, t.s.procs, i);
    }
  }

  lemma TalkingIsCharged(w: World, e: Move, t: World) returns (u: State, gives: bool)
    requires WorldOk(w) && IsMove(w, e, t) && Talks(e)
    ensures Unscheduled(w.s, e.ClockTick?, u) && t.s == if gives then Reschedule(u) else u
    ensures e == ClockTick(false) && !gives ==> u.procs[w.s.ready].ticks > 0
  {
    TalkingIsAStep(w, e, t);
    u, gives := StepIsUnscheduled(w.s, EventOf(w, e), t.s);
  }

  lemma TellingIsCharged(w: World, a: int, t: World) returns (u: State, gives: bool)
    requires WorldOk(w) && IsMove(w, Perform(a), t) && !w.actions[0].Release?
    ensures Unscheduled(w.s, false, u) && t.s == if gives then Reschedule(u) else u
  {
    TellingIsAStep(w, a, t);
    u, gives := StepIsUnscheduled(AboutToSend(w, a).s, SendMessage(w.actions[0].to, a), t.s);
  }

  /** Every move but a birth charges the running process with its clock tick, if any, and may then schedule. */
  lemma MoveIsCharged(w: World, e: Move, t: World) returns (u: State, gives: bool)
    requires WorldOk(w) && IsMove(w, e, t) && !Births(w, e)
    ensures Charged(w.s, e.ClockTick?, u) && t.s == if gives then Reschedule(u) else u
    ensures gives ==> forall i :: 0 <= i < N && i != w.s.ready ==> StillThere(w.s.procs[i], u.procs[i])
    ensures e == ClockTick(false) && !gives ==> u.procs[w.s.ready].ticks > 0
  {
    if Talks(e) {
      u, gives := TalkingIsCharged(w, e, t);
    } else if e.Perform? && !w.actions[0].Release? {
      u, gives := TellingIsCharged(w, e.a, t);
    } else {
      ManagingIsCharged(w, e, t);
      u, gives := t.s, false;
    }
  }

  // ---------------------------------------------------------------- births

  lemma {:induction false} OneEntryChanged(ps: seq<Proc>, k: int, p: Proc)
    requires 0 <= k < |ps|
    ensures TicksLeft(ps[k := p]) <= TicksLeft(ps) + Max0(p.ticks)
    ensures SumPriority(ps[k := p]) <= SumPriority(ps) + Max0(p.priority)
  {
    var n := |ps| - 1;
    if k < n {
      OneEntryChanged(ps[..n], k, p);
      assert ps[k := p][..n] == ps[..n][k := p];
    } else {
      assert ps[k := p][..n] == ps[..n];
    }
  }

  /** What a birth may cost those who wait: its parent's priority, once in this epoch and once in the next. */
  ghost function Allowance(w: World, e: Move): nat
    requires ShapedWorld(w)
  {
    if Births(w, e) then 2 * Max0(w.s.procs[w.hand.from].priority) else 0
  }

  lemma BirthStep(w: World, t: World)
    requires WorldOk(w) && IsMove(w, Handle, t) && Births(w, Handle)
    ensures var pid, child := w.hand.from, FirstFree(w.s.procs, 0);
            && IsForked(child) && w.s.procs[child].flags == FREE_SLOT && pid != child
            && w.s.ready != child && t.s.ready == w.s.ready && |t.s.procs| == N
            && t.s.procs == w.s.procs[child := t.s.procs[child]]
            && t.s.procs[child].ticks == w.s.procs[pid].ticks && t.s.procs[child].priority == w.s.procs[pid].priority
  {
    ForkOutcomeFacts(w);
    NewbornFacts(w);
  }

  lemma BirthTriesPatience(ps: seq<Proc>, child: int, p: Proc, i: int)
    requires Budgeted(ps) && 0 <= child < |ps| && 0 <= i < |ps| && i != child && p.ticks <= p.priority
    ensures var qs := ps[child := p];
            && Budgeted(qs) && qs[i] == ps[i]
            && TicksLeft(qs) + (if qs[i].ticks > 0 then 0 else SumPriority(qs))
               <= TicksLeft(ps) + (if ps[i].ticks > 0 then 0 else SumPriority(ps)) + 2 * Max0(p.priority)
  {
    OneEntryChanged(ps, child, p);
  }

  // ---------------------------------------------------------------- runs

  predicate InTime(e: Move) {
    e != ClockTick(true)
  }

  lemma BirthKeepsTimed(w: World, t: World)
    requires WorldOk(w) && Timed(w.s) && IsMove(w, Handle, t) && Births(w, Handle)
    ensures Timed(t.s)
  {
    BirthStep(w, t);
  }

  lemma MoveKeepsTimed(w: World, e: Move, t: World)
    requires WorldOk(w) && Timed(w.s) && IsMove(w, e, t) && InTime(e)
    ensures Timed(t.s)
  {
    if Births(w, e) {
      BirthKeepsTimed(w, t);
    } else {
      MoveStaysOk(w, e, t);
      var u, gives := MoveIsCharged(w, e, t);
      ChargingKeepsTimed(w.s, e.ClockTick?, u, gives, t.s);
    }
  }

  lemma ABirthTriesPatience(w: World, t: World, i: int)
    requires WorldOk(w) && Timed(w.s) && IsMove(w, Handle, t) && Births(w, Handle) && |t.s.procs| == N && IsPid(i)
    requires i != w.s.ready && Runnable(w.s.procs[i])
    ensures Patience(t.s, i) <= Patience(w.s, i) + Allowance(w, Handle)
    ensures t.s.procs[i].priority == w.s.procs[i].priority
  {
    BirthStep(w, t);
    BirthTriesPatience(w.s.procs, FirstFree(w.s.procs, 0), t.s.procs[FirstFree(w.s.procs, 0)], i);
  }

  /** A process that stays runnable and is not running loses patience with every tick, but for the births. */
  lemma MoveTriesPatience(w: World, e: Move, t: World, i: int)
    requires WorldOk(w) && Timed(w.s) && IsMove(w, e, t) && |t.s.procs| == N && IsPid(i) && i != w.s.ready
    requires Runnable(w.s.procs[i]) && Runnable(t.s.procs[i]) && w.s.procs[i].priority > 0
    ensures Patience(t.s, i) + (if e.ClockTick? then 1 else 0) <= Patience(w.s, i) + Allowance(w, e)
    ensures t.s.procs[i].priority == w.s.procs[i].priority
  {
    if Births(w, e) {
      ABirthTriesPatience(w, t, i);
    } else {
      var u, gives := MoveIsCharged(w, e, t);
      assert gives ==> StillThere(w.s.procs[i], u.procs[i]);
      ChargingTriesPatience(w.s, e.ClockTick?, u, gives, t.s, i);
    }
  }

  function ClockTicks(es: seq<Move>): nat {
    if es == [] then 0 else ClockTicks(es[..|es| - 1]) + if es[|es| - 1].ClockTick? then 1 else 0
  }

  /** The allowances for all births of a run. */
  ghost function Allowances(run: seq<World>, es: seq<Move>): nat
    requires |run| == |es| + 1 && forall k :: 0 <= k < |run| ==> ShapedWorld(run[k])
  {
    if es == [] then 0
    else Allowances(run[..|es|], es[..|es| - 1]) + Allowance(run[|es| - 1], es[|es| - 1])
  }

  /** A run without clock interrupts that arrive in ring 0. */
  ghost predicate IsTimedWorldRun(run: seq<World>, es: seq<Move>) {
    && IsWorldRun(run, es) && WorldOk(run[0]) && Timed(run[0].s)
    && (forall k :: 0 <= k < |run| ==> ShapedWorld(run[k]))
    && forall k :: 0 <= k < |es| ==> InTime(es[k])
  }

  lemma Shorter(run: seq<World>, es: seq<Move>)
    requires IsTimedWorldRun(run, es) && es != []
    ensures IsTimedWorldRun(run[..|es|], es[..|es| - 1])
  {
    var n := |es| - 1;
    forall k | 0 <= k < n ensures IsMove(run[..n + 1][k], es[..n][k], run[..n + 1][k + 1]) {
      assert IsMove(run[k], es[k], run[k + 1]);
    }
  }

  lemma {:induction false} RunStaysTimed(run: seq<World>, es: seq<Move>)
    requires IsTimedWorldRun(run, es)
    ensures WorldOk(run[|es|]) && Timed(run[|es|].s)
  {
    var n := |es| - 1;
    RunStaysOk(run, es, |es|);
    if es != [] {
      Shorter(run, es);
      RunStaysTimed(run[..|es|], es[..n]);
      MoveBefore(run, es, |es|);
      MoveKeepsTimed(run[n], es[n], run[|es|]);
    }
  }

  lemma {:induction false} PatienceRunsOut(run: seq<World>, es: seq<Move>, i: int)
    requires IsTimedWorldRun(run, es) && IsPid(i) && run[0].s.procs[i].priority > 0
    requires forall k :: 0 <= k < |run| ==> Runnable(run[k].s.procs[i]) && run[k].s.ready != i
    ensures Patience(run[|es|].s, i) + ClockTicks(es) <= Patience(run[0].s, i) + Allowances(run, es)
    ensures run[|es|].s.procs[i].priority == run[0].s.procs[i].priority
  {
    var n := |es| - 1;
    if es != [] {
      Shorter(run, es);
      PatienceRunsOut(run[..|es|], es[..n], i);
      RunStaysTimed(run[..|es|], es[..n]);
      MoveBefore(run, es, |es|);
      MoveTriesPatience(run[n], es[n], run[|es|], i);
    }
  }

  /**
   Bounded waiting: in any run of calls, forks, exits, waits, sleeps and interrupts, a process that stays runnable
   is selected before twice the sum of all priorities has passed in clock ticks, and, for each child that is born
   meanwhile, twice its parent's priority.
   */
  lemma EveryoneGetsATurn(run: seq<World>, es: seq<Move>, i: int)
    requires IsTimedWorldRun(run, es) && IsPid(i) && run[0].s.procs[i].priority > 0
    requires forall k :: 0 <= k < |run| ==> Runnable(run[k].s.procs[i])
    requires ClockTicks(es) >= 2 * SumPriority(run[0].s.procs) + Allowances(run, es)
    ensures exists k :: 0 <= k < |run| && run[k].s.ready == i
  {
    if forall k :: 0 <= k < |run| ==> run[k].s.ready != i {
      PatienceRunsOut(run, es, i);
      TicksBounded(run[0].s.procs);
      RunStaysTimed(run, es);
      OneHasTicks(run[|es|].s.procs, run[|es|].s.ready);
    }
  }

  /** Without a birth, the bound is the one of the kernel alone. */
  lemma {:induction false} NoBirthsNoAllowances(run: seq<World>, es: seq<Move>)
    requires |run| == |es| + 1 && forall k :: 0 <= k < |run| ==> ShapedWorld(run[k])
    requires forall k :: 0 <= k < |es| ==> !Births(run[k], es[k])
    ensures Allowances(run, es) == 0
  {
    if es != [] {
      NoBirthsNoAllowances(run[..|es|], es[..|es| - 1]);
    }
  }

  // ---------------------------------------------------------------- who loses and gets ticks

  /** Process i is in use and blocked. */
  predicate IsBlocked(w: World, i: int) {
    ShapedWorld(w) && IsPid(i) && w.s.procs[i].flags != READY && w.s.procs[i].flags != FREE_SLOT
  }

  lemma MoveSparesTheBlocked(w: World, e: Move, t: World, i: int)
    requires WorldOk(w) && IsMove(w, e, t) && IsBlocked(w, i) && IsBlocked(t, i)
    ensures t.s.procs[i].ticks == w.s.procs[i].ticks
  {
    if Births(w, e) {
      BirthStep(w, t);
    } else {
      var u, gives := MoveIsCharged(w, e, t);
      assert SameTime(w.s.procs[i], u.procs[i], e.ClockTick? && i == w.s.ready);
      if gives {
        ScheduleGivesTicks(u.procs, u.now, i);
      }
    }
  }

  lemma BlockedOneMoveOn(run: seq<World>, es: seq<Move>, i: int, k: nat)
    requires IsWorldRun(run, es) && WorldOk(run[0]) && 0 < k < |run| && IsBlocked(run[k - 1], i) && IsBlocked(run[k], i)
    ensures run[k].s.procs[i].ticks == run[k - 1].s.procs[i].ticks
  {
    MoveInRun(run, es, k);
    MoveSparesTheBlocked(run[k - 1], es[k - 1], run[k], i);
  }

  /** In any run, a process in use keeps its ticks for as long as it is blocked: no epoch gives it any. */
  lemma {:induction false} BlockedKeepTicksInRuns(run: seq<World>, es: seq<Move>, i: int, k: nat)
    requires IsWorldRun(run, es) && WorldOk(run[0]) && k < |run|
    requires forall j {:trigger IsBlocked(run[j], i)} :: 0 <= j < |run| ==> IsBlocked(run[j], i)
    ensures IsBlocked(run[0], i) && IsBlocked(run[k], i)
    ensures run[k].s.procs[i].ticks == run[0].s.procs[i].ticks
  {
    assert IsBlocked(run[0], i) && IsBlocked(run[k], i);
    if k > 0 {
      BlockedKeepTicksInRuns(run, es, i, k - 1);
      BlockedOneMoveOn(run, es, i, k);
    }
  }
}
