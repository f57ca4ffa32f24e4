/**
 What can stop the combined machine, as fork, exit and wait are described and as the code
 has them, in any state of any run; and that live processes never share memory.
 */
module WorldRuns {
  import opened ProcTable
  import opened Segments
  import opened SchedSpec
  import opened IpcSpec
  import opened IpcInv
  import opened IpcRuns
  import opened Family
  import opened FamilyFacts
  import opened World
  import opened WorldInv
  import opened WorldSteps
  import opened WorldManager

  // ---------------------------------------------------------------- the machine

  /** What the clients' program and the boot table ensure without further proof. */
  ghost predicate Callable(w: World, e: Move)
    requires ShapedWorld(w)
  {
    NativesStay(w.s.procs) && (e.AwaitAnswer? && !w.phase[w.s.ready].Idle? ==> IsServer(w.phase[w.s.ready].server))
  }

  ghost function Next(w: World, e: Move): WorldOutcome
    requires ShapedWorld(w) && Allowed(w, e) && Callable(w, e)
  {
    match e
    case UserStore(a, m) => Goes(w.(s := Store(w.s, w.s.ready, a, m)))
    case Call(v, a) => CallStep(w, v, a)
    case AwaitAnswer(a) => AwaitStep(w, a)
    case Accept(src, a) => AcceptStep(w, src, a)
    case Reply(d, a) => AnswerStep(w, d, a)
    case Handle => HandleStep(w)
    case Perform(a) => PerformStep(w, a)
    case DiskIrq => Lift(w, Interrupt(w.s, TASK_HD))
    case ClockTick(nested) => Goes(w.(s := Tick(w.s, nested)))
    case Doze(ms) => Goes(w.(s := Sleep(w.s, ms)))
  }

  lemma EveryMoveIsCallable(w: World, e: Move)
    requires WorldOk(w) && Allowed(w, e)
    ensures Callable(w, e)
  {
    var c := w.s.ready;
    assert c >= NR_TASKS ==> PhaseOk(w.s.procs[c], w.phase[c]);
    assert c < NR_TASKS ==> TaskOk(w.s.procs[c], c, w.phase);
    NativesHaveSlots(w.s.procs);
  }

  /** The disk's interrupt changes the disk task's entry, and its memory if it was waiting. */
  lemma IrqShape(w: World)
    requires WorldOk(w)
    ensures Interrupt(w.s, TASK_HD).Done?
    ensures var t := Interrupt(w.s, TASK_HD).s;
            && Inv(t) && t.procs == w.s.procs[TASK_HD := t.procs[TASK_HD]]
            && (forall i :: 0 <= i < N && i != TASK_HD ==> t.mem[i] == w.s.mem[i])
            && Protocol(t.procs, w.phase)
            && SameWards(w.s.procs, w.phase, t.procs, w.phase, -1)
  {
    InterruptKeepsInv(w.s, TASK_HD);
    var p := Interrupt(w.s, TASK_HD).s.procs[TASK_HD];
    assert TaskOk(w.s.procs[TASK_HD], TASK_HD, w.phase);
    TaskListens(w.s.procs, w.phase, TASK_HD, p);
    SameKinSameWards(w.s.procs, w.phase, TASK_HD, p);
  }

  lemma IrqKeepsWorld(w: World)
    requires WorldOk(w)
    ensures Interrupt(w.s, TASK_HD).Done? && WorldOk(w.(s := Interrupt(w.s, TASK_HD).s))
  {
    IrqShape(w);
    var t := w.(s := Interrupt(w.s, TASK_HD).s);
    SameLettersSameRequests(w.s, w.phase, t.s, w.phase);
    QuietMove(w, t);
  }

  /** A change in the running process's scheduling fields, or its falling asleep outside a call. */
  predicate SchedulingChange(p: Proc, q: Proc) {
    q == p.(ticks := q.ticks, wakeUp := q.wakeUp, flags := p.flags.(sleeping := q.flags.sleeping))
  }

  lemma SchedulingChangeKeepsProtocol(ps: seq<Proc>, phase: seq<Phase>, c: int, p: Proc)
    requires Protocol(ps, phase) && IsPid(c) && Runnable(ps[c]) && SchedulingChange(ps[c], p)
    requires p.flags.sleeping ==> IsUser(c) && phase[c] == Idle
    ensures Protocol(ps[c := p], phase)
  {
    var qs := ps[c := p];
    forall i | NR_TASKS <= i < N ensures PhaseOk(qs[i], phase[i]) {
      assert PhaseOk(ps[i], phase[i]);
    }
    forall v | 0 <= v < NR_TASKS ensures TaskOk(qs[v], v, phase) {
      assert TaskOk(ps[v], v, phase);
    }
    forall d | 0 <= d < N && IsCaller(d) ensures AnswerWaits(qs, phase, d) {
      assert AnswerWaits(ps, phase, d);
    }
  }

  lemma SchedulingChangeKeepsWorld(w: World, p: Proc, now: int, t: World)
    requires WorldOk(w) && Legal(p) && (w.s.ready == TASK_TTY ==> Runnable(p) && p.priority > 0)
    requires SchedulingChange(w.s.procs[w.s.ready], p)
    requires p.flags.sleeping ==> IsUser(w.s.ready) && w.phase[w.s.ready] == Idle
    requires t == w.(s := w.s.(now := now, procs := w.s.procs[w.s.ready := p]))
    ensures WorldCore(t)
  {
    var c := w.s.ready;
    SchedulingChangeKeepsCore(w.s, p, now);
    SchedulingChangeKeepsProtocol(w.s.procs, w.phase, c, p);
    SameKinSameWards(w.s.procs, w.phase, c, p);
    SameLettersSameRequests(w.s, w.phase, t.s, w.phase);
    QuietMove(w, t);
  }

  lemma CountedCore(w: World, t: World)
    requires WorldOk(w) && t == w.(s := CountTick(w.s))
    ensures WorldCore(t)
  {
    var p := w.s.procs[w.s.ready];
    assert Legal(p);
    SchedulingChangeKeepsWorld(w, p.(ticks := p.ticks - 1), w.s.now + 1, t);
  }

  lemma TickKeepsWorld(w: World, nested: bool)
    requires WorldOk(w)
    ensures WorldOk(w.(s := Tick(w.s, nested)))
  {
    CountedCore(w, w.(s := CountTick(w.s)));
    TickKeepsInv(w.s, nested);
    if Tick(w.s, nested) != CountTick(w.s) {
      RescheduleKeepsWorld(w.(s := CountTick(w.s)));
    }
  }

  lemma SleepKeepsWorld(w: World, ms: int)
    requires WorldOk(w) && IsUser(w.s.ready) && w.phase[w.s.ready] == Idle
    ensures WorldOk(w.(s := Sleep(w.s, ms)))
  {
    var u := w.(s := FallAsleep(w.s, ms));
    assert Legal(w.s.procs[w.s.ready]);
    SchedulingChangeKeepsWorld(w, u.s.procs[w.s.ready], w.s.now, u);
    RescheduleKeepsWorld(u);
  }

  /**
   The discipline is safe for the machine whose exit goes on after an inherited clean-up, as it is
   described: no allowed move panics or trips an assertion, except a fork for which memory is
   short, and every other one leaves the invariant intact.
   */
  lemma NothingStopsTheMachine(w: World, e: Move)
    requires WorldOk(w) && Allowed(w, e)
    ensures Callable(w, e)
    ensures Next(w, e).Halts? <==> e.Handle? && MemoryShort(w)
    ensures Next(w, e).Goes? ==> WorldOk(Next(w, e).w)
  {
    EveryMoveIsCallable(w, e);
    if e.Handle? {
      HandleKeepsWorld(w);
    } else if e.Call? || e.AwaitAnswer? || e.UserStore? || e.Doze? {
      CallerMoves(w, e);
    } else if e.DiskIrq? || e.ClockTick? {
      InterruptMoves(w, e);
    } else {
      ServerMoves(w, e);
    }
  }

  lemma CallerMoves(w: World, e: Move)
    requires WorldOk(w) && Allowed(w, e) && Callable(w, e) && (e.Call? || e.AwaitAnswer? || e.UserStore? || e.Doze?)
    ensures Next(w, e).Goes? && WorldOk(Next(w, e).w)
  {
    match e
    case UserStore(a, m) => StoreKeepsWorld(w, a, m);
    case Call(v, a) => CallKeepsWorld(w, v, a);
    case AwaitAnswer(a) => AwaitKeepsWorld(w, a);
    case Doze(ms) => SleepKeepsWorld(w, ms);
  }

  lemma ServerMoves(w: World, e: Move)
    requires WorldOk(w) && Allowed(w, e) && Callable(w, e) && (e.Accept? || e.Reply? || e.Perform?)
    ensures Next(w, e).Goes? && WorldOk(Next(w, e).w)
  {
    match e
    case Accept(src, a) => AcceptKeepsWorld(w, src, a);
    case Reply(d, a) => ReplyKeepsWorld(w, d, a);
    case Perform(a) => PerformKeepsWorld(w, a);
  }

  lemma InterruptMoves(w: World, e: Move)
    requires WorldOk(w) && (e.DiskIrq? || e.ClockTick?) && Callable(w, e)
    ensures Next(w, e).Goes? && WorldOk(Next(w, e).w)
  {
    match e
    case DiskIrq => IrqKeepsWorld(w);
    case ClockTick(nested) => TickKeepsWorld(w, nested);
  }

  lemma PerformKeepsWorld(w: World, a: int)
    requires WorldOk(w) && Allowed(w, Perform(a))
    ensures PerformStep(w, a).Goes? && WorldOk(PerformStep(w, a).w)
  {
    if w.actions[0].Release? {
      PerformReleaseKeepsWorld(w, a);
    } else {
      PerformAnswerKeepsWorld(w, a);
    }
  }

  lemma HandleKeepsWorld(w: World)
    requires WorldOk(w) && Allowed(w, Handle) && NativesStay(w.s.procs)
    ensures HandleStep(w).Halts? <==> MemoryShort(w)
    ensures HandleStep(w).Goes? ==> WorldOk(HandleStep(w).w)
  {
    if w.hand.m.kind == FORK {
      ForkKeepsWorld(w);
    } else if w.hand.m.kind == EXIT {
      ExitKeepsWorld(w);
    } else if FirstHanging(w.s.procs, w.hand.from, 0) < N {
      WaitReapsKeepsWorld(w);
    } else if SomeSlotNames(w.s.procs, w.hand.from) {
      WaitSuspendsKeepsWorld(w);
    } else {
      WaitRefusedKeepsWorld(w);
    }
  }

  // ---------------------------------------------------------------- the code as written

  /** The handled exit runs into the assert(0) behind the clean-up of an inherited child. */
  predicate Trapped(w: World)
    requires ShapedWorld(w)
  {
    && w.hand.Request? && w.hand.m.kind == EXIT && IsPid(w.hand.from) && IsPid(w.s.procs[w.hand.from].parent)
    && ExitIsTrapped(w.s.procs, w.hand.from, w.hand.m.i1)
  }

  /** What the code does: it stops at that assertion. */
  ghost function CodeNext(w: World, e: Move): WorldOutcome
    requires ShapedWorld(w) && Allowed(w, e) && Callable(w, e)
  {
    if e.Handle? && Trapped(w) then Halts else Next(w, e)
  }

  lemma TrapIsGuarded(w: World)
    requires Handling(w, EXIT)
    ensures Trapped(w) <==> LeavesCorpseToInit(w.s.procs, w.hand.from)
  {
    HandlingFacts(w);
    ExitGuards(w);
    OrphanedFacts(w.s.procs, w.hand.from, w.hand.m.i1);
    TrapCondition(w.s.procs, w.hand.from, w.hand.m.i1);
  }

  /**
   What stops the code: an allowed move panics or trips an assertion exactly if it handles a fork for which
   memory is short, or an exit that leaves a HANGING child to a waiting INIT. Otherwise the code does what is described.
   */
  lemma WhatStopsTheCode(w: World, e: Move)
    requires WorldOk(w) && Allowed(w, e)
    ensures Callable(w, e)
    ensures CodeNext(w, e).Halts? <==>
            e.Handle? && (MemoryShort(w) || (w.hand.m.kind == EXIT && LeavesCorpseToInit(w.s.procs, w.hand.from)))
    ensures CodeNext(w, e).Goes? ==> CodeNext(w, e) == Next(w, e) && WorldOk(Next(w, e).w)
  {
    NothingStopsTheMachine(w, e);
    if e.Handle? && w.hand.m.kind == EXIT {
      TrapIsGuarded(w);
    }
  }

  // ---------------------------------------------------------------- runs

  function BootWorld(mem: seq<Memory>, memorySize: int): World {
    World(BootState(mem), seq(N, _ => Idle), Empty, [], memorySize, [])
  }

  lemma Attr1DoesNotMatter(d: Descriptor, e: Descriptor)
    requires d == e.(attr1 := d.attr1)
    ensures BaseOf(d) == BaseOf(e) && LimitOf(d) == LimitOf(e) && (PageGranular(d) <==> PageGranular(e))
  {
  }

  /** The descriptor of a segment at address 0 whose limit counts pages. */
  lemma PagedSegment(limit: int, attribute: int, d: Descriptor)
    requires 0 <= limit < 0x10_0000 && 0 <= attribute < U16 && attribute / DA_LIMIT_4K % 2 == 1
    requires d == InitDescriptor(0, limit, attribute).(attr1 := d.attr1)
    ensures BaseOf(d) == 0 && LimitOf(d) == limit && SegmentSize(d) == (limit + 1) * 4096
  {
    EncodeDecode(0, limit, attribute);
    Attr1DoesNotMatter(d, InitDescriptor(0, limit, attribute));
  }

  lemma NativeSegments(i: int)
    requires 0 <= i < FIRST_FORKED
    ensures OneSegment(BootProc(i)) && SizeOf(BootProc(i).ldtC) <= PROC_IMAGE_SIZE_DEFAULT
  {
    if i == INIT {
      PagedSegment(INIT_LIMIT, DA_32 + DA_LIMIT_4K, BootProc(i).ldtC);
      PagedSegment(INIT_LIMIT, DA_32 + DA_LIMIT_4K, BootProc(i).ldtRW);
    } else {
      PagedSegment(0xF_FFFF, DA_32 + DA_CR + DA_LIMIT_4K, BootProc(i).ldtC);
      PagedSegment(0xF_FFFF, DA_32 + DA_DRW + DA_LIMIT_4K, BootProc(i).ldtRW);
    }
  }

  lemma BootFamily(ps: seq<Proc>)
    requires |ps| == N && forall i :: 0 <= i < N ==> ps[i] == BootProc(i)
    ensures FamilyOk(ps, [])
  {
    forall i | 0 <= i < FIRST_FORKED ensures OneSegment(ps[i]) && SizeOf(ps[i].ldtC) <= PROC_IMAGE_SIZE_DEFAULT {
      NativeSegments(i);
    }
  }

  lemma BootIsOk(mem: seq<Memory>, memorySize: int)
    requires |mem| == N
    ensures WorldOk(BootWorld(mem, memorySize))
  {
    var w := BootWorld(mem, memorySize);
    BootInv(mem);
    BootFamily(w.s.procs);
  }

  ghost predicate IsMove(w: World, e: Move, v: World) {
    ShapedWorld(w) && Allowed(w, e) && Callable(w, e) && Next(w, e) == Goes(v)
  }

  /** run[i] is the world before move es[i]. */
  ghost predicate IsWorldRun(run: seq<World>, es: seq<Move>) {
    && |run| == |es| + 1
    && forall i {:trigger IsMove(run[i], es[i], run[i + 1])} :: 0 <= i < |es| ==> IsMove(run[i], es[i], run[i + 1])
  }

  lemma MoveBefore(run: seq<World>, es: seq<Move>, i: nat)
    requires IsWorldRun(run, es) && 0 < i < |run|
    ensures IsMove(run[i - 1], es[i - 1], run[i])
  {
    var k := i - 1;
    assert IsMove(run[k], es[k], run[k + 1]);
  }

  lemma MoveStaysOk(w: World, e: Move, v: World)
    requires WorldOk(w) && IsMove(w, e, v)
    ensures WorldOk(v)
  {
    NothingStopsTheMachine(w, e);
  }

  lemma OkOneMoveOn(run: seq<World>, es: seq<Move>, i: nat)
    requires IsWorldRun(run, es) && 0 < i < |run| && WorldOk(run[i - 1])
    ensures WorldOk(run[i])
  {
    MoveBefore(run, es, i);
    MoveStaysOk(run[i - 1], es[i - 1], run[i]);
  }

  lemma {:induction false} RunStaysOk(run: seq<World>, es: seq<Move>, i: nat)
    requires IsWorldRun(run, es) && WorldOk(run[0]) && i < |run|
    ensures WorldOk(run[i])
  {
    if i > 0 {
      RunStaysOk(run, es, i - 1);
      OkOneMoveOn(run, es, i);
    }
  }

  lemma RunIsShaped(run: seq<World>, es: seq<Move>, i: nat)
    requires IsWorldRun(run, es) && WorldOk(run[0]) && i < |run|
    ensures ShapedWorld(run[i])
  {
    RunStaysOk(run, es, i);
  }

  lemma MoveInRun(run: seq<World>, es: seq<Move>, i: nat)
    requires IsWorldRun(run, es) && WorldOk(run[0]) && 0 < i < |run|
    ensures WorldOk(run[i - 1]) && ShapedWorld(run[i]) && IsMove(run[i - 1], es[i - 1], run[i])
  {
    RunStaysOk(run, es, i - 1);
    MoveBefore(run, es, i);
    RunIsShaped(run, es, i);
  }

  ghost predicate IsCodeMove(w: World, e: Move, v: World) {
    ShapedWorld(w) && Allowed(w, e) && Callable(w, e) && CodeNext(w, e) == Goes(v)
  }

  /** A run of the code. */
  ghost predicate IsCodeRun(run: seq<World>, es: seq<Move>) {
    && |run| == |es| + 1
    && forall i {:trigger IsCodeMove(run[i], es[i], run[i + 1])} :: 0 <= i < |es| ==>
       IsCodeMove(run[i], es[i], run[i + 1])
  }

  /** A run of the code is a run of the machine, so that whatever holds in all of these holds in those. */
  lemma CodeRunsAreRuns(run: seq<World>, es: seq<Move>)
    requires IsCodeRun(run, es)
    ensures IsWorldRun(run, es)
  {
    forall i | 0 <= i < |es| ensures IsMove(run[i], es[i], run[i + 1]) {
      assert IsCodeMove(run[i], es[i], run[i + 1]);
    }
  }

  /** In every state of every run of the code, these two requests are all that can stop it. */
  lemma WhatStopsARun(run: seq<World>, es: seq<Move>, i: nat)
    requires IsCodeRun(run, es) && WorldOk(run[0]) && i < |run|
    ensures ShapedWorld(run[i])
    ensures forall e :: Allowed(run[i], e) ==>
                          && Callable(run[i], e)
                          && (CodeNext(run[i], e).Halts? <==>
                              e.Handle? && (MemoryShort(run[i])
                                            || (run[i].hand.m.kind == EXIT
                                                && LeavesCorpseToInit(run[i].s.procs, run[i].hand.from))))
  {
    CodeRunsAreRuns(run, es);
    RunStaysOk(run, es, i);
    var w := run[i];
    forall e | Allowed(w, e)
      ensures Callable(w, e)
      ensures CodeNext(w, e).Halts? <==>
              e.Handle? && (MemoryShort(w) || (w.hand.m.kind == EXIT && LeavesCorpseToInit(w.s.procs, w.hand.from)))
    {
      WhatStopsTheCode(w, e);
    }
  }

  lemma SlotInUse(w: World, p: int)
    requires WorldOk(w) && IsForked(p) && !w.s.procs[p].flags.freeSlot
    ensures HasSlot(w.s.procs[p], p)
  {
  }

  /** In no run do two live forked processes share memory. */
  lemma LiveProcessesAreIsolated(run: seq<World>, es: seq<Move>, i: nat, p: int, q: int, va: int, vb: int)
    requires IsWorldRun(run, es) && WorldOk(run[0]) && i < |run| && |run[i].s.procs| == N
    requires IsForked(p) && IsForked(q) && p != q
    requires !run[i].s.procs[p].flags.freeSlot && !run[i].s.procs[q].flags.freeSlot
    requires 0 <= va < SizeOf(run[i].s.procs[p].ldtRW) && 0 <= vb < SizeOf(run[i].s.procs[q].ldtRW)
    ensures LinearAddress(run[i].s.procs[p], va) != LinearAddress(run[i].s.procs[q], vb)
  {
    RunStaysOk(run, es, i);
    SlotInUse(run[i], p);
    SlotInUse(run[i], q);
    SlotsAreIsolated(run[i].s.procs[p], p, run[i].s.procs[q], q, va, vb);
  }

  /**
   In every run the segments of a forked process that lives in slot p start at 10 MB and p - 9 times 2 MB, and take
   every address below 2 MB to the same distance from there.
   */
  lemma WhereProcessesLive(run: seq<World>, es: seq<Move>, i: nat, p: int, va: int)
    requires IsWorldRun(run, es) && WorldOk(run[0]) && i < |run| && |run[i].s.procs| == N
    requires IsForked(p) && !run[i].s.procs[p].flags.freeSlot && 0 <= va < 0x20_0000
    ensures var q, place := run[i].s.procs[p], 0xA0_0000 + (p - 9) * 0x20_0000;
            && BaseOf(q.ldtC) == BaseOf(q.ldtRW) == place
            && SegmentSize(q.ldtC) == SegmentSize(q.ldtRW) == 0x20_0000
            && LinearAddress(q, va) == place + va
  {
    RunStaysOk(run, es, i);
    SlotInUse(run[i], p);
    SlotIsInPlace(run[i].s.procs[p], p, va);
  }
}
