/**
 Building runs of the code from boot move by move, the scheduler's choices included. A scene is a state that
 has been reached, described by what each process is doing; each lemma leads from one scene to the next.
 */
module Scenes {
  import opened ProcTable
  import opened Segments
  import opened SchedSpec
  import opened IpcSpec
  import opened IpcInv
  import opened Family
  import opened FamilyFacts
  import opened World
  import opened WorldInv
  import opened WorldSteps
  import opened WorldManager
  import opened WorldRuns

  // ---------------------------------------------------------------- reaching a state

  predicate IsBoot(boot: World) {
    |boot.s.mem| == N && boot == BootWorld(boot.s.mem, boot.memorySize)
  }

  /** A run of the code leads from boot to w. */
  ghost predicate Reached(boot: World, w: World) {
    IsBoot(boot) && exists run: seq<World>, es: seq<Move> :: IsCodeRun(run, es) && run[0] == boot && run[|es|] == w
  }

  lemma ReachedIsOk(boot: World, w: World)
    requires Reached(boot, w)
    ensures WorldOk(w)
  {
    var run: seq<World>, es: seq<Move> :| IsCodeRun(run, es) && run[0] == boot && run[|es|] == w;
    BootIsOk(boot.s.mem, boot.memorySize);
    CodeRunsAreRuns(run, es);
    RunStaysOk(run, es, |es|);
  }

  lemma StartIsReached(boot: World)
    requires IsBoot(boot)
    ensures Reached(boot, boot)
  {
    var run: seq<World>, es: seq<Move> := [boot], [];
    assert IsCodeRun(run, es);
  }

  lemma OneMoveOn(boot: World, w: World, e: Move, t: World)
    requires Reached(boot, w) && IsCodeMove(w, e, t)
    ensures Reached(boot, t)
  {
    var run: seq<World>, es: seq<Move> :| IsCodeRun(run, es) && run[0] == boot && run[|es|] == w;
    var run', es' := run + [t], es + [e];
    forall i | 0 <= i < |es'| ensures IsCodeMove(run'[i], es'[i], run'[i + 1]) {
      if i < |es| {
        assert IsCodeMove(run[i], es[i], run[i + 1]);
      }
    }
    assert IsCodeRun(run', es');
  }

  // ---------------------------------------------------------------- the cast

  /**
   An extra is out of the way: it cannot run, sends nothing, and is no user process's child. Of an actor all is
   known.
   */
  datatype Role = Extra | Actor(flags: Flags, ticks: int, wakeUp: int, parent: int, phase: Phase)

  const HORIZON := 100

  predicate Plays(p: Proc, ph: Phase, r: Role) {
    && !p.flags.sending && !p.hasInt && (p.flags.receiving && ph == Idle ==> p.recvFrom == ANY)
    && match r
       case Extra => p.flags != READY && (p.flags.sleeping ==> p.wakeUp > HORIZON) && !IsUser(p.parent)
       case Actor(flags, ticks, wakeUp, parent, phase) =>
         p.flags == flags && p.ticks == ticks && p.wakeUp == wakeUp && p.parent == parent && ph == phase
  }

  ghost predicate AllPlay(ps: seq<Proc>, phase: seq<Phase>, roles: seq<Role>) {
    && |ps| == |phase| == |roles| == N
    && forall i {:trigger roles[i]} {:trigger ps[i]} :: 0 <= i < N ==> Plays(ps[i], phase[i], roles[i])
  }

  /** w has been reached, and the processes are as roles says. */
  ghost predicate Scene(boot: World, w: World, roles: seq<Role>) {
    && Reached(boot, w) && ShapedWorld(w) && w.memorySize == boot.memorySize
    && w.s.now <= HORIZON && AllPlay(w.s.procs, w.phase, roles)
  }

  lemma Movable(boot: World, w: World, e: Move)
    requires Reached(boot, w) && ShapedWorld(w) && Allowed(w, e)
    ensures Callable(w, e)
  {
    ReachedIsOk(boot, w);
    EveryMoveIsCallable(w, e);
  }

  lemma NextScene(boot: World, w: World, e: Move, t: World, roles: seq<Role>)
    requires Reached(boot, w) && w.memorySize == boot.memorySize && ShapedWorld(w) && Allowed(w, e) && Callable(w, e)
    requires Next(w, e) == Goes(t)
    requires e.Handle? ==> w.hand.m.kind != EXIT || !LeavesCorpseToInit(w.s.procs, w.hand.from)
    requires t.memorySize == w.memorySize && t.s.now <= HORIZON && AllPlay(t.s.procs, t.phase, roles)
    ensures Scene(boot, t, roles)
  {
    ReachedIsOk(boot, w);
    WhatStopsTheCode(w, e);
    OneMoveOn(boot, w, e, t);
  }

  // ---------------------------------------------------------------- the scheduler's choice

  predicate Competes(r: Role) {
    r.Actor? && r.flags == READY
  }

  function WakeRole(r: Role, now: int): Role {
    if r.Actor? && r.flags.sleeping && r.wakeUp <= now then r.(flags := r.flags.(sleeping := false), wakeUp := 0) else r
  }

  function Woken(roles: seq<Role>, now: int): seq<Role> {
    seq(|roles|, i requires 0 <= i < |roles| => WakeRole(roles[i], now))
  }

  /** k has more ticks than the actors before it, and no fewer than those after it. */
  ghost predicate Elected(roles: seq<Role>, k: int) {
    && 0 <= k < |roles| && Competes(roles[k]) && roles[k].ticks > 0
    && forall i :: 0 <= i < |roles| && Competes(roles[i]) ==>
                     roles[i].ticks <= roles[k].ticks && (i < k ==> roles[i].ticks < roles[k].ticks)
  }

  lemma TheElectedRuns(s: State, phase: seq<Phase>, roles: seq<Role>, k: int)
    requires AllPlay(s.procs, phase, roles) && s.now <= HORIZON && Elected(Woken(roles, s.now), k)
    ensures Reschedule(s) == s.(procs := WakeAll(s.procs, s.now), ready := k)
    ensures AllPlay(Reschedule(s).procs, phase, Woken(roles, s.now))
  {
    var ps := WakeAll(s.procs, s.now);
    forall i | 0 <= i < N
      ensures Plays(ps[i], phase[i], Woken(roles, s.now)[i])
      ensures Runnable(ps[i]) <==> Competes(Woken(roles, s.now)[i])
    {
      assert Plays(s.procs[i], phase[i], roles[i]);
    }
    assert SomeTicksLeft(ps);
    assert IsPick(ps, k);
    PickIsUnique(ps, k);
  }

  // ---------------------------------------------------------------- calling a server

  /** Server v is blocked in its receive from ANY. */
  predicate Attends(roles: seq<Role>, v: int) {
    |roles| == N && IsServer(v) && roles[v].Actor? && roles[v].flags == RECEIVING && roles[v].phase == Idle
  }

  /** Process c can run, and is in no call. */
  predicate Acts(roles: seq<Role>, c: int) {
    |roles| == N && IsPid(c) && Competes(roles[c]) && roles[c].phase == Idle
  }

  /**
   What has happened to the memories of the user processes: the message at address 1 of c's is m, the others' are as
   before.
   */
  ghost predicate OnlyAsked(s: State, c: int, m: Message, t: State) {
    && |s.mem| == |t.mem| == N && 0 <= c < N && Load(t.mem[c], 1) == m
    && forall i :: NR_TASKS <= i < N && i != c ==> t.mem[i] == s.mem[i]
  }

  lemma Stores(boot: World, w: World, roles: seq<Role>, m: Message) returns (t: World)
    requires Scene(boot, w, roles)
    ensures Scene(boot, t, roles) && t == w.(s := t.s) && t.s.ready == w.s.ready && t.s.now == w.s.now
    ensures OnlyAsked(w.s, w.s.ready, m, t.s)
  {
    Movable(boot, w, UserStore(1, m));
    t := w.(s := Store(w.s, w.s.ready, 1, m));
    NextScene(boot, w, UserStore(1, m), t, roles);
  }

  /** Once v has taken c's request. */
  function Taken(roles: seq<Role>, c: int, v: int): seq<Role>
    requires Attends(roles, v) && Acts(roles, c)
  {
    roles[c := roles[c].(phase := Accepted(v))][v := roles[v].(flags := READY)]
  }

  lemma CallsInMemory(s: State, v: int)
    requires Shaped(s) && 0 <= v < NR_TASKS && v != s.ready
    ensures OnlyAsked(s, s.ready, Outgoing(s, 1), Rendezvous(Stamp(s, 1), s.ready, v, 1))
  {
  }

  lemma CallingStep(boot: World, w: World, v: int)
    requires Reached(boot, w) && ShapedWorld(w) && Allowed(w, Call(v, 1)) && Awaits(w.s.procs[v], w.s.ready)
    ensures CallStep(w, v, 1).Goes?
    ensures var t := CallStep(w, v, 1).w;
            && t.s.procs == w.s.procs[v := Received(w.s.procs[v])] && t.phase == w.phase[w.s.ready := Accepted(v)]
            && t.s.ready == w.s.ready && t.s.now == w.s.now && t.memorySize == w.memorySize && t.actions == w.actions
            && t.hand == (if v == TASK_MM then Request(w.s.ready, Outgoing(w.s, 1)) else w.hand)
            && (v == TASK_MM ==> t.actions == [])
            && (w.s.ready != v ==> OnlyAsked(w.s, w.s.ready, Outgoing(w.s, 1), t.s))
  {
    ReachedIsOk(boot, w);
    CallIsTaken(w, v, 1);
    if w.s.ready != v {
      CallsInMemory(w.s, v);
    }
  }

  lemma Calls(boot: World, w: World, roles: seq<Role>, c: int, v: int) returns (t: World)
    requires Scene(boot, w, roles) && Acts(roles, c) && Attends(roles, v) && w.s.ready == c && MayCall(c, v)
    requires v == TASK_MM ==> Serviceable(Load(w.s.mem[c], 1), c)
    ensures Scene(boot, t, Taken(roles, c, v)) && t.s.ready == c && t.s.now == w.s.now && t.actions == w.actions
    ensures t.hand == if v == TASK_MM then Request(c, Load(w.s.mem[c], 1).(source := c)) else w.hand
    ensures v == TASK_MM ==> t.actions == []
    ensures OnlyAsked(w.s, c, Load(w.s.mem[c], 1).(source := c), t.s)
  {
    var e := Call(v, 1);
    assert Plays(w.s.procs[c], w.phase[c], roles[c]) && Plays(w.s.procs[v], w.phase[v], roles[v]);
    Movable(boot, w, e);
    CallingStep(boot, w, v);
    t := CallStep(w, v, 1).w;
    NextScene(boot, w, e, t, Taken(roles, c, v));
  }

  /** Once c is blocked for the answer as well. */
  function Bound(roles: seq<Role>, c: int, v: int): seq<Role>
    requires Attends(roles, v) && Acts(roles, c)
  {
    roles[c := roles[c].(flags := RECEIVING, phase := Blocked(v))][v := roles[v].(flags := READY)]
  }

  lemma BoundPlay(s: State, phase: seq<Phase>, roles: seq<Role>, c: int, v: int)
    requires Attends(roles, v) && Acts(roles, c) && Shaped(s) && s.ready == c && v != c
    requires AllPlay(s.procs, phase, Taken(roles, c, v))
    ensures AllPlay(IpcSpec.Await(Stamp(s, 1), v, 1).procs, phase[c := Blocked(v)], Bound(roles, c, v))
  {
    var ps, phase', roles' := IpcSpec.Await(Stamp(s, 1), v, 1).procs, phase[c := Blocked(v)], Bound(roles, c, v);
    forall i | 0 <= i < N ensures Plays(ps[i], phase'[i], roles'[i]) {
      assert Plays(s.procs[i], phase[i], Taken(roles, c, v)[i]);
    }
  }

  lemma AwaitingStep(boot: World, w: World, v: int)
    requires Reached(boot, w) && ShapedWorld(w) && Allowed(w, AwaitAnswer(1)) && w.phase[w.s.ready] == Accepted(v)
    ensures IsServer(v)
    ensures AwaitStep(w, 1)
            == Goes(w.(s := Reschedule(IpcSpec.Await(Stamp(w.s, 1), v, 1)), phase := w.phase[w.s.ready := Blocked(v)]))
  {
    ReachedIsOk(boot, w);
    AwaitIsBlocking(w, 1);
  }

  lemma AwaitsInMemory(s: State, v: int)
    requires Shaped(s)
    ensures OnlyAsked(s, s.ready, Outgoing(s, 1), Reschedule(IpcSpec.Await(Stamp(s, 1), v, 1)))
  {
  }

  lemma AwaitsAnswer(boot: World, w: World, roles: seq<Role>, c: int, v: int) returns (t: World)
    requires Attends(roles, v) && Acts(roles, c) && MayCall(c, v) && Scene(boot, w, Taken(roles, c, v))
    requires w.s.ready == c
    requires Elected(Woken(Bound(roles, c, v), w.s.now), v)
    ensures Scene(boot, t, Woken(Bound(roles, c, v), w.s.now)) && t.s.ready == v && t.s.now == w.s.now
    ensures t.hand == w.hand && t.actions == w.actions
    ensures OnlyAsked(w.s, c, Load(w.s.mem[c], 1).(source := c), t.s)
  {
    var e := AwaitAnswer(1);
    assert Plays(w.s.procs[c], w.phase[c], Taken(roles, c, v)[c]);
    Movable(boot, w, e);
    AwaitingStep(boot, w, v);
    AwaitsInMemory(w.s, v);
    t := AwaitStep(w, 1).w;
    BoundPlay(w.s, w.phase, roles, c, v);
    TheElectedRuns(IpcSpec.Await(Stamp(w.s, 1), v, 1), t.phase, Bound(roles, c, v), v);
    NextScene(boot, w, e, t, Woken(Bound(roles, c, v), w.s.now));
  }

  // ---------------------------------------------------------------- asking the memory manager

  predicate Listens(roles: seq<Role>) {
    Attends(roles, TASK_MM)
  }

  function Asked(roles: seq<Role>, c: int): seq<Role>
    requires Listens(roles) && Acts(roles, c)
  {
    Bound(roles, c, TASK_MM)
  }

  /** Process c makes its request and is blocked; the manager has it in hand and runs. */
  lemma Asks(boot: World, w: World, roles: seq<Role>, c: int, m: Message) returns (t: World)
    requires Scene(boot, w, roles) && IsUser(c) && Acts(roles, c) && Listens(roles) && w.s.ready == c
    requires Serviceable(m, c)
    requires Elected(Woken(Asked(roles, c), w.s.now), TASK_MM)
    ensures Scene(boot, t, Woken(Asked(roles, c), w.s.now)) && t.s.ready == TASK_MM && t.s.now == w.s.now
    ensures t.hand == Request(c, m.(source := c)) && t.actions == []
    ensures OnlyAsked(w.s, c, m.(source := c), t.s)
  {
    t := Stores(boot, w, roles, m);
    t := Calls(boot, t, roles, c, TASK_MM);
    t := AwaitsAnswer(boot, t, roles, c, TASK_MM);
  }

  // ---------------------------------------------------------------- the manager at work

  predicate Works(roles: seq<Role>) {
    |roles| == N && Competes(roles[TASK_MM]) && roles[TASK_MM].phase == Idle
  }

  lemma RestingStep(boot: World, w: World, roles: seq<Role>)
    requires Scene(boot, w, roles) && Allowed(w, Accept(ANY, 1)) && !w.s.procs[w.s.ready].hasInt
    ensures AcceptStep(w, ANY, 1) == Goes(w.(s := Reschedule(IpcSpec.Await(Stamp(w.s, 1), ANY, 1))))
  {
    ReachedIsOk(boot, w);
    NobodyAsks(w.s, w.phase, roles);
    NothingToServe(w, ANY, 1);
  }

  /** Server v, with nothing left to do, listens. */
  lemma Rests(boot: World, w: World, roles: seq<Role>, v: int, k: int) returns (t: World)
    requires Scene(boot, w, roles) && w.s.ready == v && IsServer(v) && Competes(roles[v]) && roles[v].phase == Idle
    requires v == TASK_MM ==> w.hand == Empty && w.actions == []
    requires Elected(Woken(roles[v := roles[v].(flags := RECEIVING)], w.s.now), k)
    ensures Scene(boot, t, Woken(roles[v := roles[v].(flags := RECEIVING)], w.s.now))
    ensures t == w.(s := t.s) && t.s.ready == k && t.s.now == w.s.now
  {
    var e := Accept(ANY, 1);
    var roles' := roles[v := roles[v].(flags := RECEIVING)];
    assert Plays(w.s.procs[v], w.phase[v], roles[v]);
    Movable(boot, w, e);
    RestingStep(boot, w, roles);
    t := AcceptStep(w, ANY, 1).w;
    TheElectedRuns(IpcSpec.Await(Stamp(w.s, 1), ANY, 1), w.phase, roles', k);
    NextScene(boot, w, e, t, Woken(roles', w.s.now));
  }

  lemma SomebodyQueued(ps: seq<Proc>, qs: seq<seq<int>>, d: int)
    requires QueuesOk(ps, qs) && 0 <= d < N && qs[d] != []
    ensures exists x :: 0 <= x < N && ps[x].flags.sending
  {
    var x := qs[d][0];
    assert x in qs[d] && SendsTo(ps, x, d);
  }

  /** As nobody is blocked in a send, nobody is queued. */
  lemma NobodyAsks(s: State, phase: seq<Phase>, roles: seq<Role>)
    requires QueuesOk(s.procs, s.queues) && AllPlay(s.procs, phase, roles)
    ensures forall d :: 0 <= d < N ==> s.queues[d] == []
  {
    assert forall x :: 0 <= x < N ==> Plays(s.procs[x], phase[x], roles[x]);
    forall d | 0 <= d < N ensures s.queues[d] == [] {
      if s.queues[d] != [] {
        SomebodyQueued(s.procs, s.queues, d);
      }
    }
  }

  /** What an answer does that is taken at once. */
  lemma AnswersAtOnce(w: World, d: int)
    requires Answerable(w, d) && w.phase[d].Blocked?
    ensures AnswerStep(w, d, 1).Goes?
    ensures var t := AnswerStep(w, d, 1).w;
            && t.s.procs == w.s.procs[d := Received(w.s.procs[d])] && t.phase == w.phase[d := Idle]
            && t.s.ready == w.s.ready && t.s.now == w.s.now && t.memorySize == w.memorySize
            && t.hand == w.hand && t.actions == w.actions
  {
    AnswerIsTaken(w, d, 1);
  }

  lemma TellingStep(boot: World, w: World, d: int)
    requires Reached(boot, w) && ShapedWorld(w) && Allowed(w, Perform(1)) && !w.actions[0].Release?
    requires w.actions[0].to == d
    requires IsPid(d) && w.phase[d] == Blocked(TASK_MM)
    ensures PerformStep(w, 1).Goes?
    ensures var t := PerformStep(w, 1).w;
            && t.s.procs == w.s.procs[d := Received(w.s.procs[d])] && t.phase == w.phase[d := Idle]
            && t.s.ready == w.s.ready && t.s.now == w.s.now && t.memorySize == w.memorySize
            && t.hand == w.hand && t.actions == w.actions[1..]
  {
    ReachedIsOk(boot, w);
    DueIsAnswerable(w, 1);
    AnswersAtOnce(AboutToSend(w, 1), d);
    assert PerformStep(w, 1) == AnswerStep(AboutToSend(w, 1), d, 1);
  }

  /** The first message on the manager's list reaches a process that is blocked for it. */
  lemma Tells(boot: World, w: World, roles: seq<Role>, d: int) returns (t: World)
    requires Scene(boot, w, roles) && Works(roles) && w.s.ready == TASK_MM && IsUser(d)
    requires w.actions != [] && !w.actions[0].Release? && w.actions[0].to == d
    requires roles[d].Actor? && roles[d].phase == Blocked(TASK_MM)
    requires roles[d].flags == RECEIVING
    ensures Scene(boot, t, roles[d := roles[d].(flags := READY, phase := Idle)])
    ensures t.s.ready == TASK_MM && t.s.now == w.s.now && t.hand == w.hand && t.actions == w.actions[1..]
  {
    assert Plays(w.s.procs[d], w.phase[d], roles[d]);
    TellingStep(boot, w, d);
    Movable(boot, w, Perform(1));
    t := PerformStep(w, 1).w;
    NextScene(boot, w, Perform(1), t, roles[d := roles[d].(flags := READY, phase := Idle)]);
  }

  lemma Releases(boot: World, w: World, roles: seq<Role>, child: int) returns (t: World)
    requires Scene(boot, w, roles) && Works(roles) && w.s.ready == TASK_MM
    requires w.actions != [] && w.actions[0] == Release(child) && IsForked(child) && roles[child].Actor?
    ensures Scene(boot, t, roles[child := roles[child].(flags := FREE_SLOT, phase := Idle)])
    ensures t.s.ready == TASK_MM && t.s.now == w.s.now && t.hand == w.hand && t.actions == w.actions[1..]
  {
    var e := Perform(1);
    assert Plays(w.s.procs[child], w.phase[child], roles[child]);
    Movable(boot, w, e);
    t := PerformStep(w, 1).w;
    NextScene(boot, w, e, t, roles[child := roles[child].(flags := FREE_SLOT, phase := Idle)]);
  }

  // ---------------------------------------------------------------- handling requests

  /** The child in the lowest free slot plays what its parent plays: it, too, is blocked for the answer. */
  function Newborn(roles: seq<Role>, c: int, child: int): seq<Role>
    requires |roles| == N && IsUser(c) && IsForked(child) && roles[c].Actor?
  {
    roles[child := roles[c].(parent := c)]
  }

  predicate FirstVacancy(roles: seq<Role>, child: int) {
    && |roles| == N && IsForked(child) && roles[child].Actor? && roles[child].flags == FREE_SLOT
    && forall i :: FIRST_FORKED <= i < child ==> roles[i].Actor? && roles[i].flags != FREE_SLOT
  }

  lemma VacancyIsFound(w: World, roles: seq<Role>, child: int)
    requires NativesStay(w.s.procs) && AllPlay(w.s.procs, w.phase, roles) && FirstVacancy(roles, child)
    ensures FirstFree(w.s.procs, 0) == child
  {
    assert Plays(w.s.procs[child], w.phase[child], roles[child]);
    forall i | 0 <= i < child ensures w.s.procs[i].flags != FREE_SLOT {
      assert Plays(w.s.procs[i], w.phase[i], roles[i]);
    }
  }

  lemma ForkingStep(boot: World, w: World, child: int)
    requires Reached(boot, w) && ShapedWorld(w) && Allowed(w, Handle) && Callable(w, Handle) && w.hand.m.kind == FORK
    requires FirstFree(w.s.procs, 0) == child && IsForked(child)
    requires SlotBase(child) + PROC_IMAGE_SIZE_DEFAULT < w.memorySize
    ensures HandleStep(w).Goes?
    ensures var t := HandleStep(w).w; var c := w.hand.from;
            && t.s.procs == w.s.procs[child := Child(w.s.procs[c], c, SlotBase(child))]
            && t.phase == w.phase[child := Blocked(TASK_MM)]
            && Shaped(t.s) && t.s.ready == w.s.ready && t.s.now == w.s.now && t.memorySize == w.memorySize
            && t.hand == Empty
            && |t.actions| == 2 && t.actions[0].Answer? && t.actions[0].to == child && t.actions[1].Answer?
            && t.actions[1].to == c
  {
    ReachedIsOk(boot, w);
    ForkOutcomeFacts(w);
    HandlingFacts(w);
    ParentHasOneSegment(w, w.hand.from);
  }

  lemma Forks(boot: World, w: World, roles: seq<Role>, c: int, child: int) returns (t: World)
    requires Scene(boot, w, roles) && Works(roles) && w.s.ready == TASK_MM && w.hand.Request? && w.hand.from == c
    requires w.hand.m.kind == FORK
    requires w.actions == [] && IsUser(c) && roles[c].Actor? && roles[c].flags == RECEIVING
    requires roles[c].phase == Blocked(TASK_MM)
    requires FirstVacancy(roles, child) && SlotBase(child) + PROC_IMAGE_SIZE_DEFAULT < boot.memorySize
    ensures Scene(boot, t, Newborn(roles, c, child)) && t.s.ready == TASK_MM && t.s.now == w.s.now && t.hand == Empty
    ensures |t.actions| == 2 && t.actions[0].Answer? && t.actions[0].to == child && t.actions[1].Answer?
    ensures t.actions[1].to == c
  {
    assert Plays(w.s.procs[c], w.phase[c], roles[c]);
    Movable(boot, w, Handle);
    VacancyIsFound(w, roles, child);
    ForkingStep(boot, w, child);
    t := HandleStep(w).w;
    NextScene(boot, w, Handle, t, Newborn(roles, c, child));
  }

  /** A birth without the bookkeeping: the child runs beside its parent. */
  function Grown(roles: seq<Role>, c: int, child: int): seq<Role>
    requires |roles| == N && IsUser(c) && IsForked(child) && roles[c].Actor?
  {
    roles[child := roles[c].(parent := c)]
  }

  lemma BothAreTold(roles: seq<Role>, c: int, child: int)
    requires IsUser(c) && Acts(roles, c) && Listens(roles) && IsForked(child) && c != child
    ensures var born := Newborn(Asked(roles, c), c, child);
            born[child := born[child].(flags := READY, phase := Idle)][c := born[c].(flags := READY, phase := Idle)]
            == Grown(roles, c, child)[TASK_MM := roles[TASK_MM].(flags := READY)]
  {
  }

  lemma TellsBoth(boot: World, w: World, roles: seq<Role>, c: int, child: int) returns (t: World)
    requires IsUser(c) && Acts(roles, c) && Listens(roles) && IsForked(child) && c != child
    requires Scene(boot, w, Newborn(Asked(roles, c), c, child)) && w.s.ready == TASK_MM
    requires |w.actions| == 2 && w.actions[0].Answer? && w.actions[0].to == child && w.actions[1].Answer?
    requires w.actions[1].to == c
    ensures Scene(boot, t, Grown(roles, c, child)[TASK_MM := roles[TASK_MM].(flags := READY)])
    ensures t.s.ready == TASK_MM && t.s.now == w.s.now && t.hand == w.hand && t.actions == []
  {
    var born := Newborn(Asked(roles, c), c, child);
    t := Tells(boot, w, born, child);
    t := Tells(boot, t, born[child := born[child].(flags := READY, phase := Idle)], c);
    BothAreTold(roles, c, child);
  }

  predicate Rested(roles: seq<Role>, now: int) {
    Woken(roles, now) == roles
  }

  lemma ForkIsHandled(boot: World, w: World, roles: seq<Role>, c: int, child: int) returns (t: World)
    requires Scene(boot, w, roles) && IsUser(c) && Acts(roles, c) && Listens(roles) && w.s.ready == c
    requires FirstVacancy(roles, child) && SlotBase(child) + PROC_IMAGE_SIZE_DEFAULT < boot.memorySize && c != child
    requires Rested(Asked(roles, c), w.s.now) && Elected(Asked(roles, c), TASK_MM)
    ensures Scene(boot, t, Newborn(Asked(roles, c), c, child)) && t.s.ready == TASK_MM && t.s.now == w.s.now
    ensures t.hand == Empty
    ensures |t.actions| == 2 && t.actions[0].Answer? && t.actions[0].to == child && t.actions[1].Answer?
    ensures t.actions[1].to == c
  {
    t := Asks(boot, w, roles, c, Message(0, FORK, 0, 0));
    t := Forks(boot, t, Asked(roles, c), c, child);
  }

  lemma ManagerRests(boot: World, w: World, roles: seq<Role>, k: int) returns (t: World)
    requires Listens(roles) && Scene(boot, w, roles[TASK_MM := roles[TASK_MM].(flags := READY)])
    requires w.s.ready == TASK_MM && w.hand == Empty && w.actions == [] && Elected(Woken(roles, w.s.now), k)
    ensures Scene(boot, t, Woken(roles, w.s.now)) && t.s.ready == k && t.s.now == w.s.now
  {
    var busy := roles[TASK_MM := roles[TASK_MM].(flags := READY)];
    assert busy[TASK_MM := busy[TASK_MM].(flags := RECEIVING)] == roles;
    t := Rests(boot, w, busy, TASK_MM, k);
  }

  /** Fork as a whole: the parent's request, the birth, the two answers. */
  lemma ForkIsServed(boot: World, w: World, roles: seq<Role>, c: int, child: int, k: int) returns (t: World)
    requires Scene(boot, w, roles) && IsUser(c) && Acts(roles, c) && Listens(roles) && w.s.ready == c
    requires FirstVacancy(roles, child) && SlotBase(child) + PROC_IMAGE_SIZE_DEFAULT < boot.memorySize && c != child
    requires Rested(Asked(roles, c), w.s.now) && Elected(Asked(roles, c), TASK_MM)
    requires Rested(Grown(roles, c, child), w.s.now) && Elected(Grown(roles, c, child), k)
    ensures Scene(boot, t, Grown(roles, c, child)) && t.s.ready == k && t.s.now == w.s.now
  {
    t := ForkIsHandled(boot, w, roles, c, child);
    t := TellsBoth(boot, t, roles, c, child);
    t := ManagerRests(boot, t, Grown(roles, c, child), k);
  }

  predicate IsChild(r: Role, c: int) {
    r.Actor? && r.parent == c
  }

  /** c has children, and none of them has exited. */
  ghost predicate Expects(roles: seq<Role>, c: int) {
    && |roles| == N && (exists i :: 0 <= i < N && IsChild(roles[i], c))
    && forall i :: 0 <= i < N && IsChild(roles[i], c) ==> !roles[i].flags.hanging
  }

  /** wait() with children, none of them dead: the caller is suspended. */
  lemma Suspends(boot: World, w: World, roles: seq<Role>, c: int) returns (t: World)
    requires Scene(boot, w, roles) && Works(roles) && w.s.ready == TASK_MM && w.hand.Request? && w.hand.from == c
    requires w.hand.m.kind == WAIT
    requires w.actions == [] && IsUser(c) && roles[c].Actor?
    requires Expects(roles, c)
    ensures Scene(boot, t, roles[c := roles[c].(flags := roles[c].flags.(waiting := true))])
    ensures t.s.ready == TASK_MM && t.s.now == w.s.now && t.hand == Empty && t.actions == []
  {
    WaitSuspendsHere(w, roles, c);
    Movable(boot, w, Handle);
    t := HandleStep(w).w;
    assert Plays(w.s.procs[c], w.phase[c], roles[c]);
    NextScene(boot, w, Handle, t, roles[c := roles[c].(flags := roles[c].flags.(waiting := true))]);
  }

  lemma WaitSuspendsHere(w: World, roles: seq<Role>, c: int)
    requires AllPlay(w.s.procs, w.phase, roles) && IsUser(c)
    requires Expects(roles, c)
    ensures FirstHanging(w.s.procs, c, 0) == N && SomeSlotNames(w.s.procs, c)
  {
    forall i | 0 <= i < N ensures !HangingChild(w.s.procs, i, c) {
      assert Plays(w.s.procs[i], w.phase[i], roles[i]);
    }
    var i :| 0 <= i < N && IsChild(roles[i], c);
    assert Plays(w.s.procs[i], w.phase[i], roles[i]);
  }

  lemma StillExpects(roles: seq<Role>, c: int)
    requires Acts(roles, c) && Listens(roles) && Expects(roles, c)
    ensures Expects(Asked(roles, c), c)
  {
    var i :| 0 <= i < N && IsChild(roles[i], c);
    assert IsChild(Asked(roles, c)[i], c);
  }

  /** wait() as a whole, without a dead child. */
  lemma WaitIsServed(boot: World, w: World, roles: seq<Role>, c: int, k: int) returns (t: World)
    requires Scene(boot, w, roles) && IsUser(c) && Acts(roles, c) && Listens(roles) && w.s.ready == c
    requires Expects(roles, c)
    requires Rested(Asked(roles, c), w.s.now) && Elected(Asked(roles, c), TASK_MM)
    requires Rested(Waiting(roles, c), w.s.now) && Elected(Waiting(roles, c), k)
    ensures Scene(boot, t, Waiting(roles, c)) && t.s.ready == k && t.s.now == w.s.now
  {
    t := Asks(boot, w, roles, c, Message(0, WAIT, 0, 0));
    StillExpects(roles, c);
    t := Suspends(boot, t, Asked(roles, c), c);
    var roles' := Waiting(roles, c);
    assert roles'[TASK_MM := roles'[TASK_MM].(flags := READY)]
        == Asked(roles, c)[c := Asked(roles, c)[c].(flags := RECEIVING.(waiting := true))];
    t := ManagerRests(boot, t, roles', k);
  }

  function Waiting(roles: seq<Role>, c: int): seq<Role>
    requires Acts(roles, c)
  {
    roles[c := roles[c].(flags := RECEIVING.(waiting := true), phase := Blocked(TASK_MM))]
  }

  /** The exit of a process without children only tells its parent, or leaves it HANGING. */
  lemma ChildlessExit(ps: seq<Proc>, pid: int, status: int)
    requires MayExit(ps, pid) && forall i :: 0 <= i < N ==> ps[i].parent != pid
    ensures IsUser(ps[pid].parent)
    ensures var left := Orphaned(ps, pid, status);
            Exit(ps, pid, status) == Handled(left, if ps[ps[pid].parent].flags.waiting then Cleanup(left, pid) else [])
  {
    OrphanedFacts(ps, pid, status);
    var left := Orphaned(ps, pid, status);
    assert AdoptAll(left, pid) == left;
  }

  ghost predicate Childless(roles: seq<Role>, c: int) {
    |roles| == N && forall i :: 0 <= i < N ==> !IsChild(roles[i], c)
  }

  ghost predicate Exits(w: World, roles: seq<Role>, c: int) {
    && Works(roles) && w.s.ready == TASK_MM && w.hand.Request? && w.hand.from == c && w.hand.m.kind == EXIT
    && w.actions == []
    && IsForked(c) && Childless(roles, c) && roles[c].Actor? && roles[c].flags == RECEIVING
    && roles[c].phase == Blocked(TASK_MM)
    && IsUser(roles[c].parent) && roles[roles[c].parent].Actor?
  }

  lemma ExitingStep(boot: World, w: World, roles: seq<Role>, c: int)
    requires Scene(boot, w, roles) && Exits(w, roles, c)
    ensures Allowed(w, Handle) && Callable(w, Handle) && !LeavesCorpseToInit(w.s.procs, c)
    ensures IsUser(w.s.procs[c].parent) && w.s.procs[c].parent == roles[c].parent != c
    ensures var left := Orphaned(w.s.procs, c, w.hand.m.i1);
            HandleStep(w) == Goes(w.(hand := Empty, s := w.s.(procs := left), notes := w.notes + [Died(c, w.hand.m.i1)],
                                     actions := if roles[roles[c].parent].flags.waiting then Cleanup(left, c) else []))
    ensures forall i :: 0 <= i < N ==> Plays(w.s.procs[i], w.phase[i], roles[i])
  {
    ReachedIsOk(boot, w);
    assert forall i :: 0 <= i < N ==> Plays(w.s.procs[i], w.phase[i], roles[i]);
    EveryMoveIsCallable(w, Handle);
    ExitGuards(w);
    forall i | 0 <= i < N ensures w.s.procs[i].parent != c {
      assert !IsChild(roles[i], c) && Plays(w.s.procs[i], w.phase[i], roles[i]);
    }
    ChildlessExit(w.s.procs, c, w.hand.m.i1);
    assert !IsChild(roles[c], c);
  }

  /** A process without children exits while its parent does not wait. */
  lemma Hangs(boot: World, w: World, roles: seq<Role>, c: int) returns (t: World)
    requires Scene(boot, w, roles) && Exits(w, roles, c) && !roles[roles[c].parent].flags.waiting
    ensures Scene(boot, t, roles[c := roles[c].(flags := RECEIVING.(hanging := true))])
    ensures t.s.ready == TASK_MM && t.s.now == w.s.now && t.hand == Empty && t.actions == []
  {
    ExitingStep(boot, w, roles, c);
    t := HandleStep(w).w;
    NextScene(boot, w, Handle, t, roles[c := roles[c].(flags := RECEIVING.(hanging := true))]);
  }

  /** A process without children exits while its parent waits. */
  lemma ReportsDeath(boot: World, w: World, roles: seq<Role>, c: int) returns (t: World)
    requires Scene(boot, w, roles) && Exits(w, roles, c) && roles[roles[c].parent].flags == RECEIVING.(waiting := true)
    ensures Scene(boot, t, roles[roles[c].parent := roles[roles[c].parent].(flags := RECEIVING)])
    ensures t.s.ready == TASK_MM && t.s.now == w.s.now && t.hand == Empty
    ensures |t.actions| == 2 && t.actions[0].Reap? && t.actions[0].to == roles[c].parent && t.actions[1] == Release(c)
  {
    ExitingStep(boot, w, roles, c);
    t := HandleStep(w).w;
    NextScene(boot, w, Handle, t, roles[roles[c].parent := roles[roles[c].parent].(flags := RECEIVING)]);
  }

  // ---------------------------------------------------------------- time

  /** A clock tick that leaves the running process more than none. */
  lemma TimePasses(boot: World, w: World, roles: seq<Role>, c: int) returns (t: World)
    requires Scene(boot, w, roles) && w.s.ready == c && IsPid(c) && roles[c].Actor? && roles[c].ticks > 1
    requires w.s.now < HORIZON
    ensures Scene(boot, t, roles[c := roles[c].(ticks := roles[c].ticks - 1)])
    ensures t == w.(s := t.s) && t.s.ready == c && t.s.now == w.s.now + 1
  {
    assert Plays(w.s.procs[c], w.phase[c], roles[c]);
    var e := ClockTick(false);
    Movable(boot, w, e);
    t := w.(s := Tick(w.s, false));
    NextScene(boot, w, e, t, roles[c := roles[c].(ticks := roles[c].ticks - 1)]);
  }

  /** Process c goes to sleep for ms milliseconds, and k runs. */
  lemma Sleeps(boot: World, w: World, roles: seq<Role>, asleep: seq<Role>, c: int, ms: int, k: int) returns (t: World)
    requires Scene(boot, w, roles) && IsUser(c) && Acts(roles, c) && w.s.ready == c && |asleep| == N
    requires asleep[c] == roles[c].(flags := PROC_SLEEP, wakeUp := w.s.now + SleepTicks(ms))
             || (asleep[c] == Extra && w.s.now + SleepTicks(ms) > HORIZON && !IsUser(roles[c].parent))
    requires forall i :: 0 <= i < N && i != c ==> asleep[i] == roles[i]
    requires Elected(Woken(asleep, w.s.now), k)
    ensures Scene(boot, t, Woken(asleep, w.s.now)) && t == w.(s := t.s) && t.s.ready == k && t.s.now == w.s.now
  {
    assert Plays(w.s.procs[c], w.phase[c], roles[c]);
    var e := Doze(ms);
    Movable(boot, w, e);
    var u := FallAsleep(w.s, ms);
    t := w.(s := Sleep(w.s, ms));
    TheElectedRuns(u, w.phase, asleep, k);
    NextScene(boot, w, e, t, Woken(asleep, w.s.now));
  }
}
