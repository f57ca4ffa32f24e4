/**
 Three runs of the code from boot: one ends in front of a wait() that suspends a process without a child,
 one in front of the assert(0) of exit, and one in front of a fork that copies nothing of its caller's memory.
 */
module Scenarios {
  import opened ProcTable
  import opened Segments
  import opened IpcSpec
  import opened IpcRuns
  import opened Family
  import opened FamilyFacts
  import opened World
  import opened WorldSteps
  import opened WorldManager
  import opened WorldRuns
  import opened WorldForks
  import opened Scenes

  // ---------------------------------------------------------------- from boot until INIT runs

  const LISTENING := Actor(RECEIVING, 15, 0, NO_TASK, Idle)
  const BUSY := LISTENING.(flags := READY)
  const TEST_A := INIT + 1
  const VACANT := Actor(FREE_SLOT, 0, 0, 0, Idle)

  function Running(parent: int): Role {
    Actor(READY, 5, 0, parent, Idle)
  }

  function Dozing(parent: int, until: int): Role {
    Actor(PROC_SLEEP, 5, until, parent, Idle)
  }

  /** The table while the native processes with numbers below k have run for the first time, and given way. */
  function Opening(k: int, ttyTicks: int): seq<Role> {
    seq(N, i => OpeningRole(i, k, ttyTicks))
  }

  function OpeningRole(i: int, k: int, ttyTicks: int): Role {
    if i == TASK_TTY then Actor(READY, ttyTicks, 0, NO_TASK, Idle)
    else if i < NR_TASKS then (if i < k then LISTENING else LISTENING.(flags := READY))
    else if i < FIRST_FORKED
      then (if i >= k then Running(NO_TASK) else if i == INIT then Dozing(NO_TASK, 16) else Extra)
    else if i < 12 then VACANT
    else Extra
  }

  lemma BootRole(i: int)
    requires 0 <= i < N
    ensures Plays(BootProc(i), Idle, OpeningRole(i, 1, 15))
  {
  }

  lemma Boots(boot: World)
    requires IsBoot(boot)
    ensures Scene(boot, boot, Opening(1, 15)) && boot.s.ready == TASK_TTY && boot.s.now == 0
  {
    StartIsReached(boot);
    assert boot.s == BootState(boot.s.mem);
    forall i | 0 <= i < N ensures Plays(boot.s.procs[i], boot.phase[i], Opening(1, 15)[i]) {
      assert boot.s.procs[i] == BootProc(i) && boot.phase[i] == Idle;
      BootRole(i);
    }
  }

  /** The terminal task uses up its ticks but one. */
  lemma {:induction false} Burns(boot: World, w: World, ticks: nat) returns (t: World)
    requires Scene(boot, w, Opening(1, ticks)) && w.s.ready == TASK_TTY && ticks > 0
    requires w.s.now + ticks < HORIZON && w.hand == Empty && w.actions == []
    ensures Scene(boot, t, Opening(1, 1)) && t.s.ready == TASK_TTY && t.s.now == w.s.now + ticks - 1
    ensures t.hand == Empty && t.actions == []
    decreases ticks
  {
    t := w;
    if ticks > 1 {
      var roles := Opening(1, ticks);
      t := TimePasses(boot, w, roles, TASK_TTY);
      assert roles[TASK_TTY := roles[TASK_TTY].(ticks := ticks - 1)] == Opening(1, ticks - 1);
      t := Burns(boot, t, ticks - 1);
    }
  }

  lemma OpeningIsRested(k: int, ttyTicks: int, now: int)
    requires now < 16
    ensures Rested(Opening(k, ttyTicks), now)
  {
    forall i | 0 <= i < N ensures WakeRole(Opening(k, ttyTicks)[i], now) == Opening(k, ttyTicks)[i] {
    }
  }

  lemma TtyCounts(s: State, phase: seq<Phase>)
    requires Shaped(s) && s.ready == TASK_TTY && AllPlay(s.procs, phase, Opening(1, 1))
    ensures AllPlay(CountTick(s).procs, phase, Opening(1, 0))
  {
    forall i | 0 <= i < N ensures Plays(CountTick(s).procs[i], phase[i], Opening(1, 0)[i]) {
      assert Plays(s.procs[i], phase[i], Opening(1, 1)[i]);
    }
  }

  /** With its last tick the terminal task gives way to the first of the other tasks. */
  lemma GivesWay(boot: World, w: World) returns (t: World)
    requires Scene(boot, w, Opening(1, 1)) && w.s.ready == TASK_TTY && w.s.now == 14
    requires w.hand == Empty && w.actions == []
    ensures Scene(boot, t, Opening(1, 0)) && t.s.ready == 1 && t.s.now == 15 && t.hand == Empty && t.actions == []
  {
    var e := ClockTick(false);
    assert Plays(w.s.procs[TASK_TTY], w.phase[TASK_TTY], Opening(1, 1)[TASK_TTY]);
    Movable(boot, w, e);
    t := w.(s := Tick(w.s, false));
    TtyCounts(w.s, w.phase);
    OpeningIsRested(1, 0, 15);
    NextInLine(1);
    TheElectedRuns(CountTick(w.s), w.phase, Opening(1, 0), 1);
    NextScene(boot, w, e, t, Opening(1, 0));
  }

  /** The next in line has the most ticks, or as many as those behind it. */
  lemma NextInLine(k: int)
    requires 1 <= k < FIRST_FORKED
    ensures Elected(Opening(k, 0), k)
  {
  }

  /** Task v comes to its receive, and the next one runs. */
  lemma TaskListens(boot: World, w: World, v: int) returns (t: World)
    requires IsServer(v) && Scene(boot, w, Opening(v, 0)) && w.s.ready == v && w.s.now == 15 && w.hand == Empty
    requires w.actions == []
    ensures Scene(boot, t, Opening(v + 1, 0)) && t.s.ready == v + 1 && t.s.now == 15 && t.hand == Empty
    ensures t.actions == []
  {
    var roles := Opening(v, 0);
    assert roles[v := roles[v].(flags := RECEIVING)] == Opening(v + 1, 0);
    OpeningIsRested(v + 1, 0, 15);
    NextInLine(v + 1);
    t := Rests(boot, w, roles, v, v + 1);
  }

  /** The table while the file system waits for the disk task, and the disk task runs. */
  function Opened(): seq<Role> {
    seq(N, i => if i == TASK_HD then BUSY else if i == TASK_FS then LISTENING.(phase := Blocked(TASK_HD))
        else OpeningRole(i, TASK_FS, 0))
  }

  lemma OpenedIsRested()
    ensures Rested(Opened(), 15) && Elected(Opened(), TASK_HD)
  {
    forall i | 0 <= i < N ensures WakeRole(Opened()[i], 15) == Opened()[i] {
    }
  }

  /** The first thing that the file system does is to call the disk task. */
  lemma OpensDisk(boot: World, w: World) returns (t: World)
    requires Scene(boot, w, Opening(TASK_FS, 0)) && w.s.ready == TASK_FS && w.s.now == 15 && w.hand == Empty
    requires w.actions == []
    ensures Scene(boot, t, Opened()) && t.s.ready == TASK_HD && t.s.now == 15 && t.hand == Empty && t.actions == []
  {
    var roles := Opening(TASK_FS, 0);
    t := Calls(boot, w, roles, TASK_FS, TASK_HD);
    assert Bound(roles, TASK_FS, TASK_HD) == Opened();
    OpenedIsRested();
    t := AwaitsAnswer(boot, t, roles, TASK_FS, TASK_HD);
  }

  lemma ReplyingStep(boot: World, w: World, d: int)
    requires Reached(boot, w) && ShapedWorld(w) && Allowed(w, Reply(d, 1)) && IsPid(d)
    requires w.phase[d] == Blocked(w.s.ready)
    ensures AnswerStep(w, d, 1).Goes?
    ensures var t := AnswerStep(w, d, 1).w;
            && t.s.procs == w.s.procs[d := Received(w.s.procs[d])] && t.phase == w.phase[d := Idle]
            && t.s.ready == w.s.ready && t.s.now == w.s.now && t.memorySize == w.memorySize
            && t.hand == w.hand && t.actions == w.actions
  {
    ReachedIsOk(boot, w);
    ReplyIsAnswerable(w, d, 1);
    AnswersAtOnce(w, d);
  }

  lemma DiskAnswers(boot: World, w: World) returns (t: World)
    requires Scene(boot, w, Opened()) && w.s.ready == TASK_HD && w.s.now == 15 && w.hand == Empty && w.actions == []
    ensures Scene(boot, t, Opening(TASK_HD, 0)) && t.s.ready == TASK_HD && t.s.now == 15 && t.hand == Empty
    ensures t.actions == []
  {
    var e := Reply(TASK_FS, 1);
    assert Plays(w.s.procs[TASK_FS], w.phase[TASK_FS], Opened()[TASK_FS]);
    assert Plays(w.s.procs[TASK_HD], w.phase[TASK_HD], Opened()[TASK_HD]);
    Movable(boot, w, e);
    ReplyingStep(boot, w, TASK_FS);
    t := AnswerStep(w, TASK_FS, 1).w;
    NextScene(boot, w, e, t, Opening(TASK_HD, 0));
  }

  /** The tasks come to their receive, one after the other; then INIT runs. */
  lemma TasksListen(boot: World, w: World) returns (t: World)
    requires Scene(boot, w, Opening(TASK_SYS, 0)) && w.s.ready == TASK_SYS && w.s.now == 15 && w.hand == Empty
    requires w.actions == []
    ensures Scene(boot, t, Opening(INIT, 0)) && t.s.ready == INIT && t.s.now == 15
  {
    t := TaskListens(boot, w, TASK_SYS);
    t := TaskListens(boot, t, TASK_HD);
    t := OpensDisk(boot, t);
    t := DiskAnswers(boot, t);
    t := TaskListens(boot, t, TASK_HD);
    t := TaskListens(boot, t, TASK_FS);
    t := TaskListens(boot, t, TASK_MM);
  }

  /** INIT goes to sleep until tick 16. */
  lemma InitDozes(boot: World, w: World) returns (t: World)
    requires Scene(boot, w, Opening(INIT, 0)) && w.s.ready == INIT && w.s.now == 15
    ensures Scene(boot, t, Opening(INIT + 1, 0)) && t.s.ready == INIT + 1 && t.s.now == 15
  {
    OpeningIsRested(INIT + 1, 0, 15);
    NextInLine(INIT + 1);
    t := Sleeps(boot, w, Opening(INIT, 0), Opening(INIT + 1, 0), INIT, 10, INIT + 1);
  }

  /** The other native user processes go to sleep for a thousand seconds. */
  lemma NativeDozes(boot: World, w: World, i: int) returns (t: World)
    requires INIT < i < FIRST_FORKED - 1 && Scene(boot, w, Opening(i, 0)) && w.s.ready == i && w.s.now == 15
    ensures Scene(boot, t, Opening(i + 1, 0)) && t.s.ready == i + 1 && t.s.now == 15
  {
    OpeningIsRested(i + 1, 0, 15);
    NextInLine(i + 1);
    t := Sleeps(boot, w, Opening(i, 0), Opening(i + 1, 0), i, 1000000, i + 1);
  }

  // ---------------------------------------------------------------- INIT and three generations

  function CastRole(i: int, mm: Role, init: Role, a: Role, b: Role, c: Role): Role {
    if i == TASK_TTY then Actor(READY, 0, 0, NO_TASK, Idle)
    else if i == TASK_MM then mm
    else if i == INIT then init
    else if i == 9 then a
    else if i == 10 then b
    else if i == 11 then c
    else if i < NR_TASKS then LISTENING
    else Extra
  }

  /** The memory manager, INIT and the first three forked processes play; the terminal task has no ticks left. */
  function Cast(mm: Role, init: Role, a: Role, b: Role, c: Role): seq<Role> {
    seq(N, i => CastRole(i, mm, init, a, b, c))
  }

  /** The last native process lets the time come at which INIT wakes, and goes to sleep. */
  lemma LastDozes(boot: World, w: World) returns (t: World)
    requires Scene(boot, w, Opening(8, 0)) && w.s.ready == 8 && w.s.now == 15
    ensures Scene(boot, t, Cast(LISTENING, Running(NO_TASK), VACANT, VACANT, VACANT)) && t.s.ready == INIT
    ensures t.s.now == 16
  {
    var roles := Opening(8, 0);
    var late := roles[8 := roles[8].(ticks := 4)];
    t := TimePasses(boot, w, roles, 8);
    var asleep := Cast(LISTENING, Dozing(NO_TASK, 16), VACANT, VACANT, VACANT);
    InitWakes(VACANT, VACANT, VACANT);
    t := Sleeps(boot, t, late, asleep, 8, 1000000, INIT);
  }

  lemma InitWakes(a: Role, b: Role, c: Role)
    requires a == b == c == VACANT
    ensures Woken(Cast(LISTENING, Dozing(NO_TASK, 16), a, b, c), 16) == Cast(LISTENING, Running(NO_TASK), a, b, c)
    ensures Elected(Cast(LISTENING, Running(NO_TASK), a, b, c), INIT)
  {
    var roles, roles' := Cast(LISTENING, Dozing(NO_TASK, 16), a, b, c), Cast(LISTENING, Running(NO_TASK), a, b, c);
    forall i | 0 <= i < N ensures WakeRole(roles[i], 16) == roles'[i] {
    }
  }

  /** From boot until testA, the next native user process after INIT, runs. */
  lemma BootsToTestA(boot: World) returns (t: World)
    requires IsBoot(boot)
    ensures Scene(boot, t, Opening(TEST_A, 0)) && t.s.ready == TEST_A && t.s.now == 15
  {
    Boots(boot);
    t := Burns(boot, boot, 15);
    t := GivesWay(boot, t);
    t := TasksListen(boot, t);
    t := InitDozes(boot, t);
  }

  /** From boot until INIT alone competes, with the memory manager listening. */
  lemma BootsToInit(boot: World) returns (t: World)
    requires IsBoot(boot)
    ensures Scene(boot, t, Cast(LISTENING, Running(NO_TASK), VACANT, VACANT, VACANT)) && t.s.ready == INIT
    ensures t.s.now == 16
  {
    t := BootsToTestA(boot);
    t := NativeDozes(boot, t, 6);
    t := NativeDozes(boot, t, 7);
    t := LastDozes(boot, t);
  }

  // ---------------------------------------------------------------- who runs next

  function Blocking(parent: int): Role {
    Actor(RECEIVING, 5, 0, parent, Blocked(TASK_MM))
  }

  function Suspended(parent: int): Role {
    Actor(RECEIVING.(waiting := true), 5, 0, parent, Blocked(TASK_MM))
  }

  function Dead(parent: int): Role {
    Actor(RECEIVING.(hanging := true), 5, 0, parent, Blocked(TASK_MM))
  }

  predicate NotDue(r: Role, now: int) {
    r.Actor? && r.flags.sleeping ==> r.wakeUp > now
  }

  lemma CastIsRested(mm: Role, init: Role, a: Role, b: Role, c: Role, now: int)
    requires NotDue(mm, now) && NotDue(init, now) && NotDue(a, now) && NotDue(b, now) && NotDue(c, now)
    ensures Rested(Cast(mm, init, a, b, c), now)
  {
    var roles := Cast(mm, init, a, b, c);
    forall i | 0 <= i < N ensures WakeRole(roles[i], now) == roles[i] {
    }
  }

  /** The manager's ticks are the most. */
  lemma ManagerIsElected(ticks: int, init: Role, a: Role, b: Role, c: Role)
    requires ticks > 5
    requires forall r <- [init, a, b, c] :: r.Actor? ==> r.ticks <= 5
    ensures Elected(Cast(BUSY.(ticks := ticks), init, a, b, c), TASK_MM)
  {
    var roles := Cast(BUSY.(ticks := ticks), init, a, b, c);
    assert [init, a, b, c][0] == init && [init, a, b, c][1] == a && [init, a, b, c][2] == b && [init, a, b, c][3] == c;
    forall i | 0 <= i < N && Competes(roles[i]) && i != TASK_MM ensures roles[i].ticks <= 5 {
    }
  }

  // ---------------------------------------------------------------- the first generation

  lemma InitForks(boot: World, w: World) returns (t: World)
    requires Scene(boot, w, Cast(LISTENING, Running(NO_TASK), VACANT, VACANT, VACANT)) && w.s.ready == INIT
    requires w.s.now == 16
    requires SlotBase(10) < boot.memorySize
    ensures Scene(boot, t, Cast(LISTENING, Running(NO_TASK), Running(INIT), VACANT, VACANT)) && t.s.ready == INIT
    ensures t.s.now == 16
  {
    var roles := Cast(LISTENING, Running(NO_TASK), VACANT, VACANT, VACANT);
    assert Asked(roles, INIT) == Cast(BUSY, Blocking(NO_TASK), VACANT, VACANT, VACANT);
    CastIsRested(BUSY, Blocking(NO_TASK), VACANT, VACANT, VACANT, 16);
    ManagerIsElected(15, Blocking(NO_TASK), VACANT, VACANT, VACANT);
    assert Grown(roles, INIT, 9) == Cast(LISTENING, Running(NO_TASK), Running(INIT), VACANT, VACANT);
    CastIsRested(LISTENING, Running(NO_TASK), Running(INIT), VACANT, VACANT, 16);
    t := ForkIsServed(boot, w, roles, INIT, 9, INIT);
  }

  lemma InitExpects()
    ensures Expects(Cast(LISTENING, Running(NO_TASK), Running(INIT), VACANT, VACANT), INIT)
  {
    assert IsChild(Cast(LISTENING, Running(NO_TASK), Running(INIT), VACANT, VACANT)[9], INIT);
  }

  lemma InitWaits(boot: World, w: World) returns (t: World)
    requires Scene(boot, w, Cast(LISTENING, Running(NO_TASK), Running(INIT), VACANT, VACANT)) && w.s.ready == INIT
    requires w.s.now == 16
    ensures Scene(boot, t, Cast(LISTENING, Suspended(NO_TASK), Running(INIT), VACANT, VACANT)) && t.s.ready == 9
    ensures t.s.now == 16
  {
    var roles := Cast(LISTENING, Running(NO_TASK), Running(INIT), VACANT, VACANT);
    assert Asked(roles, INIT) == Cast(BUSY, Blocking(NO_TASK), Running(INIT), VACANT, VACANT);
    CastIsRested(BUSY, Blocking(NO_TASK), Running(INIT), VACANT, VACANT, 16);
    ManagerIsElected(15, Blocking(NO_TASK), Running(INIT), VACANT, VACANT);
    assert Waiting(roles, INIT) == Cast(LISTENING, Suspended(NO_TASK), Running(INIT), VACANT, VACANT);
    CastIsRested(LISTENING, Suspended(NO_TASK), Running(INIT), VACANT, VACANT, 16);
    InitExpects();
    t := WaitIsServed(boot, w, roles, INIT, 9);
  }

  /** From boot until INIT's first child runs, with INIT waiting for it. */
  lemma FirstGeneration(boot: World) returns (t: World)
    requires IsBoot(boot) && SlotBase(10) < boot.memorySize
    ensures Scene(boot, t, Cast(LISTENING, Suspended(NO_TASK), Running(INIT), VACANT, VACANT)) && t.s.ready == 9
    ensures t.s.now == 16
  {
    t := BootsToInit(boot);
    t := InitForks(boot, t);
    t := InitWaits(boot, t);
  }

  // ---------------------------------------------------------------- the first run: a wait without a child

  lemma ChildAsksToExit(boot: World, w: World) returns (t: World)
    requires Scene(boot, w, Cast(LISTENING, Suspended(NO_TASK), Running(INIT), VACANT, VACANT)) && w.s.ready == 9
    requires w.s.now == 16
    ensures Scene(boot, t, Cast(BUSY, Suspended(NO_TASK), Blocking(INIT), VACANT, VACANT)) && t.s.ready == TASK_MM
    ensures t.s.now == 16
    ensures t.hand.Request? && t.hand.from == 9 && t.hand.m.kind == EXIT && t.actions == []
  {
    var roles := Cast(LISTENING, Suspended(NO_TASK), Running(INIT), VACANT, VACANT);
    assert Asked(roles, 9) == Cast(BUSY, Suspended(NO_TASK), Blocking(INIT), VACANT, VACANT);
    CastIsRested(BUSY, Suspended(NO_TASK), Blocking(INIT), VACANT, VACANT, 16);
    ManagerIsElected(15, Suspended(NO_TASK), Blocking(INIT), VACANT, VACANT);
    t := Asks(boot, w, roles, 9, Message(0, EXIT, 0, 0));
  }

  lemma InitReaps(boot: World, w: World) returns (t: World)
    requires Scene(boot, w, Cast(BUSY, Suspended(NO_TASK), Blocking(INIT), VACANT, VACANT)) && w.s.ready == TASK_MM
    requires w.s.now == 16
    requires w.hand.Request? && w.hand.from == 9 && w.hand.m.kind == EXIT && w.actions == []
    ensures Scene(boot, t, Cast(BUSY, Running(NO_TASK), VACANT.(ticks := 5, parent := INIT), VACANT, VACANT))
    ensures t.s.ready == TASK_MM && t.s.now == 16 && t.hand == Empty && t.actions == []
  {
    var roles := Cast(BUSY, Suspended(NO_TASK), Blocking(INIT), VACANT, VACANT);
    var dead := Cast(BUSY, Blocking(NO_TASK), Blocking(INIT), VACANT, VACANT);
    var told := Cast(BUSY, Running(NO_TASK), Blocking(INIT), VACANT, VACANT);
    t := ReportsDeath(boot, w, roles, 9);
    assert roles[INIT := roles[INIT].(flags := RECEIVING)] == dead;
    t := Tells(boot, t, dead, INIT);
    assert dead[INIT := dead[INIT].(flags := READY, phase := Idle)] == told;
    t := Releases(boot, t, told, 9);
    assert told[9 := told[9].(flags := FREE_SLOT, phase := Idle)]
        == Cast(BUSY, Running(NO_TASK), VACANT.(ticks := 5, parent := INIT), VACANT, VACANT);
  }

  lemma InitWaitsAgain(boot: World, w: World) returns (t: World)
    requires Scene(boot, w, Cast(BUSY, Running(NO_TASK), VACANT.(ticks := 5, parent := INIT), VACANT, VACANT))
    requires w.s.ready == TASK_MM && w.s.now == 16 && w.hand == Empty && w.actions == []
    ensures Scene(boot, t, Cast(BUSY, Blocking(NO_TASK), VACANT.(ticks := 5, parent := INIT), VACANT, VACANT))
    ensures t.s.ready == TASK_MM && t.hand.Request? && t.hand.from == INIT && t.hand.m.kind == WAIT && t.actions == []
  {
    var gone := VACANT.(ticks := 5, parent := INIT);
    var roles := Cast(LISTENING, Running(NO_TASK), gone, VACANT, VACANT);
    assert roles[TASK_MM := roles[TASK_MM].(flags := READY)] == Cast(BUSY, Running(NO_TASK), gone, VACANT, VACANT);
    CastIsRested(LISTENING, Running(NO_TASK), gone, VACANT, VACANT, 16);
    assert Elected(roles, INIT);
    t := ManagerRests(boot, w, roles, INIT);
    assert Asked(roles, INIT) == Cast(BUSY, Blocking(NO_TASK), gone, VACANT, VACANT);
    CastIsRested(BUSY, Blocking(NO_TASK), gone, VACANT, VACANT, 16);
    ManagerIsElected(15, Blocking(NO_TASK), gone, VACANT, VACANT);
    t := Asks(boot, t, roles, INIT, Message(0, WAIT, 0, 0));
  }

  lemma NobodyIsInitsChild(w: World)
    requires |w.phase| == N
    requires AllPlay(w.s.procs, w.phase,
                     Cast(BUSY, Blocking(NO_TASK), VACANT.(ticks := 5, parent := INIT), VACANT, VACANT))
    ensures !HasChild(w.s.procs, INIT) && WaitSuspends(w.s.procs, INIT)
  {
    var roles := Cast(BUSY, Blocking(NO_TASK), VACANT.(ticks := 5, parent := INIT), VACANT, VACANT);
    forall i | 0 <= i < N
      ensures w.s.procs[i].parent == INIT <==> i == 9
      ensures i == 9 ==> w.s.procs[i].flags.freeSlot && !w.s.procs[i].flags.hanging
    {
      assert Plays(w.s.procs[i], w.phase[i], roles[i]);
    }
    assert w.s.procs[9].parent == INIT;
  }

  /** INIT, without a child, has asked to wait, and is about to be suspended. */
  ghost predicate AtTheVainWait(w: World) {
    && ShapedWorld(w) && Allowed(w, Handle) && w.hand.from == INIT && w.hand.m.kind == WAIT
    && !HasChild(w.s.procs, INIT) && WaitSuspends(w.s.procs, INIT)
  }

  lemma VainWaitIsReached(boot: World) returns (t: World)
    requires IsBoot(boot) && SlotBase(10) < boot.memorySize
    ensures Reached(boot, t) && AtTheVainWait(t)
  {
    t := FirstGeneration(boot);
    t := ChildAsksToExit(boot, t);
    t := InitReaps(boot, t);
    t := InitWaitsAgain(boot, t);
    NobodyIsInitsChild(t);
  }

  /**
   The failing input of wait(): a run of the code from boot, with more than 12 MB, in which INIT
   forks, its child exits and is reaped, and INIT, with no child left, waits again: it is suspended.
   */
  lemma WaitSuspendsTheChildless(mem: seq<Memory>, memorySize: int)
    requires |mem| == N && 0xC0_0000 < memorySize
    ensures exists run: seq<World>, es: seq<Move> ::
              IsCodeRun(run, es) && run[0] == BootWorld(mem, memorySize) && AtTheVainWait(run[|es|])
  {
    var boot := BootWorld(mem, memorySize);
    var w := VainWaitIsReached(boot);
    var run: seq<World>, es: seq<Move> :| IsCodeRun(run, es) && run[0] == boot && run[|es|] == w;
  }

  // ---------------------------------------------------------------- the second run: the trap in exit

  const FAR := 16 + 100000

  lemma ChildForks(boot: World, w: World) returns (t: World)
    requires Scene(boot, w, Cast(LISTENING, Suspended(NO_TASK), Running(INIT), VACANT, VACANT)) && w.s.ready == 9
    requires w.s.now == 16
    requires N > 11 && SlotBase(11) < boot.memorySize
    ensures Scene(boot, t, Cast(LISTENING, Suspended(NO_TASK), Running(INIT), Running(9), VACANT)) && t.s.ready == 9
    ensures t.s.now == 16
  {
    var init := Suspended(NO_TASK);
    var roles := Cast(LISTENING, init, Running(INIT), VACANT, VACANT);
    assert Asked(roles, 9) == Cast(BUSY, init, Blocking(INIT), VACANT, VACANT);
    CastIsRested(BUSY, init, Blocking(INIT), VACANT, VACANT, 16);
    ManagerIsElected(15, init, Blocking(INIT), VACANT, VACANT);
    assert Grown(roles, 9, 10) == Cast(LISTENING, init, Running(INIT), Running(9), VACANT);
    CastIsRested(LISTENING, init, Running(INIT), Running(9), VACANT, 16);
    t := ForkIsServed(boot, w, roles, 9, 10, 9);
  }

  lemma ChildDozes(boot: World, w: World) returns (t: World)
    requires Scene(boot, w, Cast(LISTENING, Suspended(NO_TASK), Running(INIT), Running(9), VACANT)) && w.s.ready == 9
    requires w.s.now == 16
    requires N > 11
    ensures Scene(boot, t, Cast(LISTENING, Suspended(NO_TASK), Dozing(INIT, FAR), Running(9), VACANT))
    ensures t.s.ready == 10 && t.s.now == 16
  {
    var asleep := Cast(LISTENING, Suspended(NO_TASK), Dozing(INIT, FAR), Running(9), VACANT);
    CastIsRested(LISTENING, Suspended(NO_TASK), Dozing(INIT, FAR), Running(9), VACANT, 16);
    assert Elected(asleep, 10);
    t := Sleeps(boot, w, Cast(LISTENING, Suspended(NO_TASK), Running(INIT), Running(9), VACANT), asleep, 9, 1000000,
                10);
  }

  lemma GrandchildForks(boot: World, w: World) returns (t: World)
    requires Scene(boot, w, Cast(LISTENING, Suspended(NO_TASK), Dozing(INIT, FAR), Running(9), VACANT))
    requires w.s.ready == 10 && w.s.now == 16
    requires N > 11 && SlotBase(12) < boot.memorySize
    ensures Scene(boot, t, Cast(LISTENING, Suspended(NO_TASK), Dozing(INIT, FAR), Running(9), Running(10)))
    ensures t.s.ready == 10 && t.s.now == 16
  {
    var init, a := Suspended(NO_TASK), Dozing(INIT, FAR);
    var roles := Cast(LISTENING, init, a, Running(9), VACANT);
    assert Asked(roles, 10) == Cast(BUSY, init, a, Blocking(9), VACANT);
    CastIsRested(BUSY, init, a, Blocking(9), VACANT, 16);
    ManagerIsElected(15, init, a, Blocking(9), VACANT);
    assert Grown(roles, 10, 11) == Cast(LISTENING, init, a, Running(9), Running(10));
    CastIsRested(LISTENING, init, a, Running(9), Running(10), 16);
    t := ForkIsServed(boot, w, roles, 10, 11, 10);
  }

  lemma GrandchildDozes(boot: World, w: World) returns (t: World)
    requires Scene(boot, w, Cast(LISTENING, Suspended(NO_TASK), Dozing(INIT, FAR), Running(9), Running(10)))
    requires w.s.ready == 10 && w.s.now == 16
    requires N > 11
    ensures Scene(boot, t, Cast(LISTENING, Suspended(NO_TASK), Dozing(INIT, FAR), Dozing(9, 17), Running(10)))
    ensures t.s.ready == 11 && t.s.now == 16
  {
    var asleep := Cast(LISTENING, Suspended(NO_TASK), Dozing(INIT, FAR), Dozing(9, 17), Running(10));
    CastIsRested(LISTENING, Suspended(NO_TASK), Dozing(INIT, FAR), Dozing(9, 17), Running(10), 16);
    assert Elected(asleep, 11);
    t := Sleeps(boot, w, Cast(LISTENING, Suspended(NO_TASK), Dozing(INIT, FAR), Running(9), Running(10)), asleep, 10,
                10, 11);
  }

  lemma YoungestAsksToExit(boot: World, w: World) returns (t: World)
    requires Scene(boot, w, Cast(LISTENING, Suspended(NO_TASK), Dozing(INIT, FAR), Dozing(9, 17), Running(10)))
    requires w.s.ready == 11 && w.s.now == 16
    requires N > 11
    ensures Scene(boot, t, Cast(BUSY, Suspended(NO_TASK), Dozing(INIT, FAR), Dozing(9, 17), Blocking(10)))
    ensures t.s.ready == TASK_MM && t.s.now == 16 && t.hand.Request? && t.hand.from == 11 && t.hand.m.kind == EXIT
    ensures t.actions == []
  {
    var init, a, b := Suspended(NO_TASK), Dozing(INIT, FAR), Dozing(9, 17);
    var roles := Cast(LISTENING, init, a, b, Running(10));
    assert Asked(roles, 11) == Cast(BUSY, init, a, b, Blocking(10));
    CastIsRested(BUSY, init, a, b, Blocking(10), 16);
    ManagerIsElected(15, init, a, b, Blocking(10));
    t := Asks(boot, w, roles, 11, Message(0, EXIT, 0, 0));
  }

  /** The youngest exits, and is left HANGING, for its parent sleeps. */
  lemma YoungestExits(boot: World, w: World) returns (t: World)
    requires Scene(boot, w, Cast(BUSY, Suspended(NO_TASK), Dozing(INIT, FAR), Dozing(9, 17), Blocking(10)))
    requires w.s.ready == TASK_MM && w.s.now == 16 && w.hand.Request? && w.hand.from == 11 && w.hand.m.kind == EXIT
    requires w.actions == []
    requires N > 11
    ensures Scene(boot, t, Cast(BUSY, Suspended(NO_TASK), Dozing(INIT, FAR), Dozing(9, 17), Dead(10)))
    ensures t.s.ready == TASK_MM && t.s.now == 16 && t.hand == Empty && t.actions == []
  {
    var init, a, b := Suspended(NO_TASK), Dozing(INIT, FAR), Dozing(9, 17);
    var roles := Cast(BUSY, init, a, b, Blocking(10));
    t := Hangs(boot, w, roles, 11);
    assert roles[11 := roles[11].(flags := RECEIVING.(hanging := true))] == Cast(BUSY, init, a, b, Dead(10));
  }

  /** Meanwhile the clock ticks, and the youngest's parent wakes when the manager rests. */
  lemma GrandchildWakes(boot: World, w: World) returns (t: World)
    requires Scene(boot, w, Cast(BUSY, Suspended(NO_TASK), Dozing(INIT, FAR), Dozing(9, 17), Dead(10)))
    requires w.s.ready == TASK_MM && w.s.now == 16 && w.hand == Empty && w.actions == [] && N > 11
    ensures Scene(boot, t, Cast(LISTENING.(ticks := 14), Suspended(NO_TASK), Dozing(INIT, FAR), Running(9), Dead(10)))
    ensures t.s.ready == 10 && t.s.now == 17
  {
    var init, a, b := Suspended(NO_TASK), Dozing(INIT, FAR), Dozing(9, 17);
    var busy := Cast(BUSY, init, a, b, Dead(10));
    t := TimePasses(boot, w, busy, TASK_MM);
    var roles := Cast(LISTENING.(ticks := 14), init, a, b, Dead(10));
    assert busy[TASK_MM := busy[TASK_MM].(ticks := 14)] == roles[TASK_MM := roles[TASK_MM].(flags := READY)];
    SleeperWakes();
    t := ManagerRests(boot, t, roles, 10);
  }

  lemma SleeperWakes()
    requires N > 11
    ensures Woken(Cast(LISTENING.(ticks := 14), Suspended(NO_TASK), Dozing(INIT, FAR), Dozing(9, 17), Dead(10)), 17)
         == Cast(LISTENING.(ticks := 14), Suspended(NO_TASK), Dozing(INIT, FAR), Running(9), Dead(10))
    ensures Elected(Cast(LISTENING.(ticks := 14), Suspended(NO_TASK), Dozing(INIT, FAR), Running(9), Dead(10)), 10)
  {
    var roles := Cast(LISTENING.(ticks := 14), Suspended(NO_TASK), Dozing(INIT, FAR), Dozing(9, 17), Dead(10));
    var roles' := Cast(LISTENING.(ticks := 14), Suspended(NO_TASK), Dozing(INIT, FAR), Running(9), Dead(10));
    forall i | 0 <= i < N ensures WakeRole(roles[i], 17) == roles'[i] {
    }
  }

  lemma GrandchildAsksToExit(boot: World, w: World) returns (t: World)
    requires Scene(boot, w, Cast(LISTENING.(ticks := 14), Suspended(NO_TASK), Dozing(INIT, FAR), Running(9), Dead(10)))
    requires w.s.ready == 10 && w.s.now == 17 && N > 11
    ensures Scene(boot, t, Cast(BUSY.(ticks := 14), Suspended(NO_TASK), Dozing(INIT, FAR), Blocking(9), Dead(10)))
    ensures t.s.ready == TASK_MM && t.hand.Request? && t.hand.from == 10 && t.hand.m.kind == EXIT && t.actions == []
  {
    var init, a := Suspended(NO_TASK), Dozing(INIT, FAR);
    var roles := Cast(LISTENING.(ticks := 14), init, a, Running(9), Dead(10));
    assert Asked(roles, 10) == Cast(BUSY.(ticks := 14), init, a, Blocking(9), Dead(10));
    CastIsRested(BUSY.(ticks := 14), init, a, Blocking(9), Dead(10), 17);
    ManagerIsElected(14, init, a, Blocking(9), Dead(10));
    t := Asks(boot, w, roles, 10, Message(0, EXIT, 0, 0));
  }

  lemma GrandchildLeavesACorpse(w: World)
    requires |w.phase| == N && N > 11
    requires AllPlay(w.s.procs, w.phase,
                     Cast(BUSY.(ticks := 14), Suspended(NO_TASK), Dozing(INIT, FAR), Blocking(9), Dead(10)))
    ensures LeavesCorpseToInit(w.s.procs, 10)
  {
    var roles := Cast(BUSY.(ticks := 14), Suspended(NO_TASK), Dozing(INIT, FAR), Blocking(9), Dead(10));
    assert forall i :: 0 <= i < N ==> Plays(w.s.procs[i], w.phase[i], roles[i]);
    assert roles[INIT] == Suspended(NO_TASK) && roles[10] == Blocking(9) && roles[11] == Dead(10);
  }

  /** From boot until the youngest of three generations runs, the others asleep or waiting. */
  lemma ThirdGeneration(boot: World) returns (t: World)
    requires IsBoot(boot) && N > 11 && SlotBase(12) < boot.memorySize
    ensures Scene(boot, t, Cast(LISTENING, Suspended(NO_TASK), Dozing(INIT, FAR), Dozing(9, 17), Running(10)))
    ensures t.s.ready == 11 && t.s.now == 16
  {
    t := FirstGeneration(boot);
    t := ChildForks(boot, t);
    t := ChildDozes(boot, t);
    t := GrandchildForks(boot, t);
    t := GrandchildDozes(boot, t);
  }

  ghost predicate AtTheTrap(w: World) {
    && ShapedWorld(w) && Allowed(w, Handle) && Callable(w, Handle)
    && w.hand.m.kind == EXIT && CodeNext(w, Handle).Halts?
  }

  lemma StepsIntoTheTrap(boot: World, w: World)
    requires Scene(boot, w, Cast(BUSY.(ticks := 14), Suspended(NO_TASK), Dozing(INIT, FAR), Blocking(9), Dead(10)))
    requires w.s.ready == TASK_MM && w.hand.Request? && w.hand.from == 10 && w.hand.m.kind == EXIT && w.actions == []
    requires N > 11
    ensures AtTheTrap(w)
  {
    GrandchildLeavesACorpse(w);
    ReachedIsOk(boot, w);
    WhatStopsTheCode(w, Handle);
  }

  lemma TrapIsReached(boot: World) returns (t: World)
    requires IsBoot(boot) && N > 11 && SlotBase(12) < boot.memorySize
    ensures Reached(boot, t) && AtTheTrap(t)
  {
    t := ThirdGeneration(boot);
    t := YoungestAsksToExit(boot, t);
    t := YoungestExits(boot, t);
    t := GrandchildWakes(boot, t);
    t := GrandchildAsksToExit(boot, t);
    StepsIntoTheTrap(boot, t);
  }

  /**
   The assertion in exit is reached: a run of the code from boot, with more than 16 MB, in which
   INIT forks, its child forks, its grandchild forks, INIT waits, the youngest exits and then its parent does.
   */
  lemma TheTrapIsSprung(mem: seq<Memory>, memorySize: int)
    requires |mem| == N && NR_NATIVE_PROCS + 3 <= NR_PROCS && 0x100_0000 < memorySize
    ensures exists run: seq<World>, es: seq<Move> ::
              IsCodeRun(run, es) && run[0] == BootWorld(mem, memorySize) && AtTheTrap(run[|es|])
  {
    var boot := BootWorld(mem, memorySize);
    var w := TrapIsReached(boot);
    var run: seq<World>, es: seq<Move> :| IsCodeRun(run, es) && run[0] == boot && run[|es|] == w;
  }

  // ---------------------------------------------------------------- the third run: a fork that copies nothing

  /** testA's fork goes through, and its child has nothing of its memory. */
  ghost predicate AtTheEmptyFork(w: World) {
    && ForksNow(w) && w.hand.from == TEST_A
    && Fork(w.s.procs, w.s.mem, TEST_A, w.memorySize).mem == w.s.mem
    && !WholeCopy(w.s.procs, w.s.mem, TEST_A, w.memorySize)
  }

  lemma TestAAsks(boot: World, w: World) returns (t: World)
    requires Scene(boot, w, Opening(TEST_A, 0)) && w.s.ready == TEST_A && w.s.now == 15
    ensures Scene(boot, t, Asked(Opening(TEST_A, 0), TEST_A)) && t.s.ready == TASK_MM && t.actions == []
    ensures t.hand.Request? && t.hand.from == TEST_A && t.hand.m.kind == FORK
    ensures Load(t.s.mem[TEST_A], 1) != Load(t.s.mem[FIRST_FORKED], 1)
  {
    var roles := Opening(TEST_A, 0);
    var m := Message(0, FORK, Load(w.s.mem[FIRST_FORKED], 1).i1 + 1, 0);
    var asked := Asked(roles, TEST_A);
    forall i | 0 <= i < N ensures WakeRole(asked[i], 15) == asked[i] {
    }
    assert Rested(asked, 15);
    assert Elected(asked, TASK_MM);
    t := Asks(boot, w, roles, TEST_A, m);
  }

  lemma TestASegment(boot: World, w: World)
    requires Reached(boot, w) && ShapedWorld(w)
    ensures var p := w.s.procs[TEST_A]; OneSegment(p) && SegmentSize(p.ldtC) == U32 && SizeOf(p.ldtC) == 0
  {
    var run: seq<World>, es: seq<Move> :| IsCodeRun(run, es) && run[0] == boot && run[|es|] == w;
    ReachedIsOk(boot, w);
    CodeRunsAreRuns(run, es);
    NativesStayAsBooted(run, es, boot.s.mem, boot.memorySize, |es|);
    FlatSegment(TEST_A);
    ParentHasOneSegment(w, TEST_A);
  }

  lemma NothingIsCopied(boot: World, w: World)
    requires Scene(boot, w, Asked(Opening(TEST_A, 0), TEST_A)) && w.s.ready == TASK_MM && w.actions == []
    requires w.hand.Request? && w.hand.from == TEST_A && w.hand.m.kind == FORK
    requires SlotBase(FIRST_FORKED) < boot.memorySize
    requires Load(w.s.mem[TEST_A], 1) != Load(w.s.mem[FIRST_FORKED], 1)
    ensures AtTheEmptyFork(w)
  {
    var roles := Asked(Opening(TEST_A, 0), TEST_A);
    assert Plays(w.s.procs[TEST_A], w.phase[TEST_A], roles[TEST_A]);
    Movable(boot, w, Handle);
    VacancyIsFound(w, roles, FIRST_FORKED);
    TestASegment(boot, w);
    ForkSucceeds(w.s.procs, w.s.mem, TEST_A, w.memorySize);
    ForkCopiesNothing(w.s.procs, w.s.mem, TEST_A, w.memorySize);
  }

  /**
   The failing input of fork: a run of the code from boot, with more than 10 MB, in which testA forks: the fork
   goes through, no memory is copied, and the child does not find what testA has stored.
   */
  lemma TestAForksInVain(mem: seq<Memory>, memorySize: int)
    requires |mem| == N && 0xA0_0000 < memorySize
    ensures exists run: seq<World>, es: seq<Move> ::
              IsCodeRun(run, es) && run[0] == BootWorld(mem, memorySize) && AtTheEmptyFork(run[|es|])
  {
    var boot := BootWorld(mem, memorySize);
    var w := BootsToTestA(boot);
    w := TestAAsks(boot, w);
    NothingIsCopied(boot, w);
    var run: seq<World>, es: seq<Move> :| IsCodeRun(run, es) && run[0] == boot && run[|es|] == w;
  }
}
