/**
 The history of calls, deaths and slots: every call is answered at most once and by
 the process called; every exit status is reported exactly once, before the slot is
 freed, and a slot is reused only after that.
 */
module WorldNotes {
  import opened ProcTable
  import opened SchedSpec
  import opened IpcSpec
  import opened Family
  import opened World
  import opened WorldInv
  import opened WorldSteps
  import opened WorldManager
  import opened WorldRuns

  // ---------------------------------------------------------------- the life of a slot

  datatype Stage = Vacant | Alive | Dying(status: int) | Reported | Broken

  function StageAfter(g: Stage, x: Note, p: int): Stage {
    match x
    case Born(child, _) => if child != p then g else if g == Vacant then Alive else Broken
    case Died(pid, status) => if pid != p then g else if g == Alive then Dying(status) else Broken
    case Reaped(child, _, status) => if child != p then g else if g == Dying(status) then Reported else Broken
    case Freed(pid) => if pid != p then g else if g == Reported then Vacant else Broken
    case _ => g
  }

  /** The stage of slot p according to the history; Broken once anything has happened out of turn. */
  function StageOf(notes: seq<Note>, p: int): Stage {
    if notes == [] then Vacant else StageAfter(StageOf(notes[..|notes| - 1], p), notes[|notes| - 1], p)
  }

  predicate ToReap(actions: seq<Action>, p: int) {
    exists k :: 0 <= k < |actions| && actions[k].Reap? && actions[k].child == p
  }

  /** The stage of slot p according to the table and to what the memory manager has still to do. */
  function StageIn(ps: seq<Proc>, actions: seq<Action>, p: int): Stage
    requires 0 <= p < |ps|
  {
    if ps[p].flags.freeSlot then Vacant
    else if ToReap(actions, p) then Dying(ps[p].exitStatus)
    else if Buried(actions, p) then Reported
    else if ps[p].flags.hanging then Dying(ps[p].exitStatus)
    else Alive
  }

  // ---------------------------------------------------------------- the talk of a client

  datatype Talk = Quiet | Asking(server: int) | Garbled

  function TalkAfter(g: Talk, x: Note, c: int): Talk {
    match x
    case Called(client, server, _) => if client != c then g else if g == Quiet then Asking(server) else Garbled
    case Answered(server, client, _) => if client != c then g else if g == Asking(server) then Quiet else Garbled
    case Born(child, _) => if child != c then g else if g == Quiet then Asking(TASK_MM) else Garbled
    case Freed(pid) => if pid != c then g else if g == Asking(TASK_MM) then Quiet else Garbled
    case _ => g
  }

  /** What c is owed according to the history; Garbled once it has been answered twice, or by the wrong server. */
  function TalkOf(notes: seq<Note>, c: int): Talk {
    if notes == [] then Quiet else TalkAfter(TalkOf(notes[..|notes| - 1], c), notes[|notes| - 1], c)
  }

  function TalkIn(ph: Phase): Talk {
    if ph.Idle? || ph.Answering? then Quiet else Asking(ph.server)
  }

  lemma Noted(notes: seq<Note>, x: Note, p: int)
    ensures StageOf(notes + [x], p) == StageAfter(StageOf(notes, p), x, p)
    ensures TalkOf(notes + [x], p) == TalkAfter(TalkOf(notes, p), x, p)
  {
    assert (notes + [x])[..|notes|] == notes;
  }

  /** The history agrees with the world. */
  ghost predicate Faithful(w: World) {
    && ShapedWorld(w)
    && (forall p {:trigger StageOf(w.notes, p)} :: IsForked(p) ==>
        StageOf(w.notes, p) == StageIn(w.s.procs, w.actions, p))
    && (forall c {:trigger TalkOf(w.notes, c)} :: IsCaller(c) ==> TalkOf(w.notes, c) == TalkIn(w.phase[c]))
  }

  // ---------------------------------------------------------------- moves that note nothing about lives

  lemma SameKinSameStages(ps: seq<Proc>, qs: seq<Proc>, actions: seq<Action>)
    requires SameKin(ps, qs)
    ensures forall p :: 0 <= p < |ps| ==> StageIn(qs, actions, p) == StageIn(ps, actions, p)
  {
    assert forall p :: 0 <= p < |ps| ==> Kin(ps[p], qs[p]);
  }

  lemma RescheduleIsKin(s: State)
    ensures SameKin(s.procs, Reschedule(s).procs)
  {
    ScheduledIsSame(s.procs, s.now);
  }

  /** IPC never touches what the family is about. */
  lemma SendIsKin(s: State, d: int, a: int)
    requires Shaped(s) && IsPid(d) && SysSend(s, d, a).Done?
    ensures SameKin(s.procs, SysSend(s, d, a).s.procs)
  {
    RescheduleIsKin(Enqueue(Stamp(s, a), s.ready, d, a));
  }

  lemma ReceiveIsKin(s: State, src: int, a: int)
    requires Shaped(s) && ValidSource(src) && SysReceive(s, src, a).Done?
    ensures SameKin(s.procs, SysReceive(s, src, a).s.procs)
  {
    RescheduleIsKin(Await(Stamp(s, a), src, a));
  }

  lemma CallIsFaithful(w: World, v: int, a: int, t: World)
    requires Faithful(w) && Allowed(w, Call(v, a)) && CallStep(w, v, a) == Goes(t) && ShapedWorld(t)
    ensures Faithful(t)
  {
    SendIsKin(w.s, v, a);
    SameKinSameStages(w.s.procs, t.s.procs, w.actions);
    forall p ensures StageOf(t.notes, p) == StageOf(w.notes, p)
      ensures TalkOf(t.notes, p) == TalkAfter(TalkOf(w.notes, p), Called(w.s.ready, v, Outgoing(w.s, a)), p)
    {
      Noted(w.notes, Called(w.s.ready, v, Outgoing(w.s, a)), p);
    }
  }

  lemma AnswerIsFaithful(w: World, d: int, a: int, t: World)
    requires Faithful(w) && IsPid(d) && IsCaller(d) && Owed(w.phase[d], w.s.ready) && AnswerStep(w, d, a) == Goes(t)
    requires ShapedWorld(t)
    ensures Faithful(t)
  {
    SendIsKin(w.s, d, a);
    SameKinSameStages(w.s.procs, t.s.procs, w.actions);
    forall p ensures StageOf(t.notes, p) == StageOf(w.notes, p)
      ensures TalkOf(t.notes, p) == TalkAfter(TalkOf(w.notes, p), Answered(w.s.ready, d, Outgoing(w.s, a)), p)
    {
      Noted(w.notes, Answered(w.s.ready, d, Outgoing(w.s, a)), p);
    }
  }

  /** A move without notes that leaves the family and the manager's list alone. */
  lemma SilentMoveIsFaithful(w: World, t: World)
    requires Faithful(w) && ShapedWorld(t) && t.notes == w.notes && t.actions == w.actions
    requires SameKin(w.s.procs, t.s.procs)
    requires forall c :: IsCaller(c) ==> TalkIn(t.phase[c]) == TalkIn(w.phase[c])
    ensures Faithful(t)
  {
    SameKinSameStages(w.s.procs, t.s.procs, w.actions);
  }

  lemma AwaitIsFaithful(w: World, a: int, t: World)
    requires Faithful(w) && Allowed(w, AwaitAnswer(a)) && IsServer(w.phase[w.s.ready].server)
    requires AwaitStep(w, a) == Goes(t) && ShapedWorld(t)
    ensures Faithful(t)
  {
    ReceiveIsKin(w.s, w.phase[w.s.ready].server, a);
    SilentMoveIsFaithful(w, t);
  }

  lemma AcceptIsFaithful(w: World, src: int, a: int, t: World)
    requires WorldOk(w) && Faithful(w) && Allowed(w, Accept(src, a)) && AcceptStep(w, src, a) == Goes(t)
    requires ShapedWorld(t)
    ensures Faithful(t)
  {
    ReceiveIsKin(w.s, src, a);
    if IsPid(Served(w.s, src)) {
      QueueHeadIsCaller(w.s, w.phase, w.s.ready);
    }
    SilentMoveIsFaithful(w, t);
  }

  lemma TickIsKin(s: State, nested: bool)
    requires Shaped(s)
    ensures SameKin(s.procs, Tick(s, nested).procs)
  {
    RescheduleIsKin(CountTick(s));
  }

  lemma SleepIsKin(s: State, ms: int)
    requires Shaped(s)
    ensures SameKin(s.procs, Sleep(s, ms).procs)
  {
    RescheduleIsKin(FallAsleep(s, ms));
  }

  /** Stores, interrupts, ticks and sleeps change only the IPC state, and no kinship. */
  lemma PassingIsKin(w: World, e: Move, t: World)
    requires WorldOk(w) && IsMove(w, e, t) && (e.UserStore? || e.DiskIrq? || e.ClockTick? || e.Doze?)
    ensures t == w.(s := t.s) && SameKin(w.s.procs, t.s.procs)
  {
    match e
    case UserStore(a, m) =>
    case DiskIrq => IrqShape(w);
    case ClockTick(nested) => TickIsKin(w.s, nested);
    case Doze(ms) => SleepIsKin(w.s, ms);
  }

  // ---------------------------------------------------------------- handling a request

  /** Reaping a HANGING child at once: it is on the list, and was dying already. */
  lemma WaitStage(ps: seq<Proc>, h: int, q: int)
    requires |ps| == N && IsForked(h) && ps[h].flags.hanging && IsForked(q)
    ensures StageIn(ps, Cleanup(ps, h), q) == StageIn(ps, [], q)
  {
    var actions := Cleanup(ps, h);
    assert actions[0].child == h;
    assert ToReap(actions, h);
    assert !ToReap([], q) && !Buried([], q);
    assert q != h ==> !ToReap(actions, q) && !Buried(actions, q);
  }

  lemma WaitIsFaithful(w: World, t: World)
    requires Handling(w, WAIT) && Faithful(w) && NativesStay(w.s.procs) && HandleStep(w) == Goes(t)
    ensures Faithful(t)
  {
    var ps := w.s.procs;
    var h := FirstHanging(ps, w.hand.from, 0);
    if h < N {
      CorpseFacts(w, h);
      forall q | IsForked(q) ensures StageIn(ps, t.actions, q) == StageIn(ps, w.actions, q) {
        WaitStage(ps, h, q);
      }
    } else if SomeSlotNames(ps, w.hand.from) {
      SuspensionIsFaithful(w, t);
    } else {
      RefusedStages(w, t);
    }
  }

  lemma SuspensionIsFaithful(w: World, t: World)
    requires Faithful(w) && w.hand.Request? && IsUser(w.hand.from) && t.notes == w.notes && t.phase == w.phase
    requires t.actions == w.actions
    requires t.s.procs == w.s.procs[w.hand.from := SetWaiting(w.s.procs[w.hand.from], true)] && ShapedWorld(t)
    ensures Faithful(t)
  {
    assert forall q :: IsForked(q) ==> StageIn(t.s.procs, t.actions, q) == StageIn(w.s.procs, w.actions, q);
  }

  /** A list of answers buries and reports nobody. */
  lemma AnswersOnly(actions: seq<Action>, q: int)
    requires forall k :: 0 <= k < |actions| ==> actions[k].Answer?
    ensures !ToReap(actions, q) && !Buried(actions, q)
  {
  }

  lemma ForkedStage(ps: seq<Proc>, child: int, p: Proc, actions: seq<Action>, q: int)
    requires |ps| == N && IsForked(child) && ps[child].flags == FREE_SLOT && p.flags == RECEIVING && IsForked(q)
    requires forall k :: 0 <= k < |actions| ==> actions[k].Answer?
    ensures StageIn(ps[child := p], actions, q) == if q == child then Alive else StageIn(ps, [], q)
  {
    AnswersOnly(actions, q);
    AnswersOnly([], q);
  }

  lemma BirthIsFaithful(w: World, t: World, child: int, pid: int)
    requires Faithful(w) && ShapedWorld(t) && IsForked(child) && w.s.procs[child].flags == FREE_SLOT
    requires w.phase[child] == Idle
    requires t.notes == w.notes + [Born(child, pid)] && t.phase == w.phase[child := Blocked(TASK_MM)]
    requires forall q :: IsForked(q) ==>
               StageIn(t.s.procs, t.actions, q) == if q == child then Alive else StageIn(w.s.procs, w.actions, q)
    ensures Faithful(t)
  {
    forall p ensures StageOf(t.notes, p) == StageAfter(StageOf(w.notes, p), Born(child, pid), p)
      ensures TalkOf(t.notes, p) == TalkAfter(TalkOf(w.notes, p), Born(child, pid), p)
    {
      Noted(w.notes, Born(child, pid), p);
    }
  }

  lemma ForkIsFaithful(w: World, t: World)
    requires Handling(w, FORK) && Faithful(w) && NativesStay(w.s.procs) && HandleStep(w) == Goes(t)
    ensures Faithful(t)
  {
    ForkOutcomeFacts(w);
    var o := Fork(w.s.procs, w.s.mem, w.hand.from, w.memorySize);
    if o.Forked? {
      FreeSlotFacts(w, o.child);
      NewbornFacts(w);
      NewbornIsFaithful(w, t, o.child, o.procs[o.child], w.hand.from);
    } else {
      assert t.s == w.s;
      RefusedStages(w, t);
    }
  }

  lemma RefusedStages(w: World, t: World)
    requires Faithful(w) && w.actions == [] && t.s == w.s && t.notes == w.notes && t.phase == w.phase
    requires forall k :: 0 <= k < |t.actions| ==> t.actions[k].Answer?
    ensures Faithful(t)
  {
    forall q | IsForked(q) ensures StageIn(t.s.procs, t.actions, q) == StageIn(w.s.procs, w.actions, q) {
      AnswersOnly(t.actions, q);
      AnswersOnly(w.actions, q);
    }
  }

  lemma NewbornIsFaithful(w: World, t: World, child: int, p: Proc, pid: int)
    requires Faithful(w) && w.actions == [] && IsForked(child) && w.s.procs[child].flags == FREE_SLOT
    requires w.phase[child] == Idle
    requires p.flags == RECEIVING && t.s.procs == w.s.procs[child := p]
    requires t.notes == w.notes + [Born(child, pid)] && t.phase == w.phase[child := Blocked(TASK_MM)]
    requires forall k :: 0 <= k < |t.actions| ==> t.actions[k].Answer?
    ensures ShapedWorld(t) ==> Faithful(t)
  {
    forall q | IsForked(q)
      ensures StageIn(t.s.procs, t.actions, q) == if q == child then Alive else StageIn(w.s.procs, w.actions, q)
    {
      ForkedStage(w.s.procs, child, p, t.actions, q);
    }
    if ShapedWorld(t) {
      BirthIsFaithful(w, t, child, pid);
    }
  }

  lemma CleanupReports(ps: seq<Proc>, h: int, p: int)
    requires 0 <= h < |ps|
    ensures ToReap(Cleanup(ps, h), p) <==> p == h
  {
    assert Cleanup(ps, h)[0].child == h;
  }

  lemma ReportedInEither(xs: seq<Action>, ys: seq<Action>, p: int)
    ensures ToReap(xs + ys, p) <==> ToReap(xs, p) || ToReap(ys, p)
  {
    var zs := xs + ys;
    if k :| 0 <= k < |xs| && xs[k].Reap? && xs[k].child == p {
      assert zs[k] == xs[k];
    }
    if k :| 0 <= k < |ys| && ys[k].Reap? && ys[k].child == p {
      assert zs[|xs| + k] == ys[k];
    }
  }

  lemma ExitToReap(ps: seq<Proc>, pid: int, status: int, p: int)
    requires MayExit(ps, pid)
    ensures IsUser(ps[pid].parent)
    ensures ToReap(Exit(ps, pid, status).actions, p) <==>
            (p == pid && ps[ps[pid].parent].flags.waiting)
              || (p < N && p == InheritedCorpse(Orphaned(ps, pid, status), pid))
  {
    ExitList(ps, pid, status);
    OrphanedFacts(ps, pid, status);
    InheritedFacts(ps, pid, status);
    var left := Orphaned(ps, pid, status);
    var h := InheritedCorpse(left, pid);
    var told := if ps[ps[pid].parent].flags.waiting then Cleanup(left, pid) else [];
    var inherited := if h < N then Cleanup(AdoptAll(left, pid), h) else [];
    ReportedInEither(told, inherited, p);
    CleanupReports(left, pid, p);
    if h < N {
      CleanupReports(AdoptAll(left, pid), h, p);
    }
  }

  lemma DeathIsFaithful(w: World, t: World, pid: int, status: int)
    requires Faithful(w) && ShapedWorld(t) && IsForked(pid) && StageIn(w.s.procs, w.actions, pid) == Alive
    requires t.notes == w.notes + [Died(pid, status)] && t.phase == w.phase
    requires forall q :: IsForked(q) ==>
               StageIn(t.s.procs, t.actions, q) == if q == pid then Dying(status) else StageIn(w.s.procs, w.actions, q)
    ensures Faithful(t)
  {
    forall p ensures StageOf(t.notes, p) == StageAfter(StageOf(w.notes, p), Died(pid, status), p)
      ensures TalkOf(t.notes, p) == TalkOf(w.notes, p)
    {
      Noted(w.notes, Died(pid, status), p);
    }
  }

  lemma ExitedStage(ps: seq<Proc>, pid: int, status: int, p: int)
    requires MayExit(ps, pid) && IsForked(p)
    ensures IsUser(ps[pid].parent)
    ensures var x := Exit(ps, pid, status);
            |x.procs| == N && StageIn(x.procs, x.actions, p) == if p == pid then Dying(status) else StageIn(ps, [], p)
  {
    ExitTable(ps, pid, status);
    assert IsLeft(ps, pid, status, Exit(ps, pid, status).procs, p);
    InheritedFacts(ps, pid, status);
    ExitToReap(ps, pid, status, p);
    ExitBuries(ps, pid, status, p);
    AnswersOnly([], p);
  }

  lemma ExitIsFaithful(w: World, t: World)
    requires Handling(w, EXIT) && Faithful(w) && NativesStay(w.s.procs) && HandleStep(w) == Goes(t)
    ensures Faithful(t)
  {
    var pid := w.hand.from;
    HandlingFacts(w);
    ExitGuards(w);
    forall p | IsForked(p)
      ensures |t.s.procs| == N
      ensures StageIn(t.s.procs, t.actions, p) == if p == pid then Dying(w.hand.m.i1)
              else StageIn(w.s.procs, w.actions, p)
    {
      ExitedStage(w.s.procs, pid, w.hand.m.i1, p);
    }
    AnswersOnly([], pid);
    DeathIsFaithful(w, t, pid, w.hand.m.i1);
  }

  lemma HandleIsFaithful(w: World, t: World)
    requires WorldOk(w) && Faithful(w) && Allowed(w, Handle) && NativesStay(w.s.procs) && HandleStep(w) == Goes(t)
    ensures Faithful(t)
  {
    if w.hand.m.kind == FORK {
      ForkIsFaithful(w, t);
    } else if w.hand.m.kind == EXIT {
      ExitIsFaithful(w, t);
    } else {
      WaitIsFaithful(w, t);
    }
  }

  // ---------------------------------------------------------------- performing

  /** The report of a death names the child, its status and its parent. */
  lemma ReapTellsTheParent(w: World)
    requires WorldOk(w) && w.actions != [] && w.actions[0].Reap?
    ensures var x := w.actions[0];
            && IsForked(x.child) && IsUser(x.to) && Expectant(w.s.procs[x.to], w.phase[x.to])
            && x.to == w.s.procs[x.child].parent && x.m.i1 == w.s.procs[x.child].exitStatus && x.m.i2 == x.child
  {
    assert ActionOk(w.s.procs, w.phase, w.actions[0]);
  }

  lemma ListedInRest(actions: seq<Action>, p: int)
    requires actions != []
    ensures Buried(actions, p) <==> Buried(actions[1..], p) || actions[0] == Release(p)
    ensures ToReap(actions, p) <==> ToReap(actions[1..], p) || (actions[0].Reap? && actions[0].child == p)
  {
    var rest := actions[1..];
    assert actions == [actions[0]] + rest;
    if k :| 0 <= k < |rest| && rest[k].Reap? && rest[k].child == p {
      assert actions[k + 1] == rest[k];
    }
    if k :| 0 <= k < |actions| && actions[k].Reap? && actions[k].child == p {
      assert k > 0 ==> rest[k - 1] == actions[k];
    }
  }

  /** Whoever is to be reported dead is then to lose the slot. */
  lemma RestOfDoom(ps: seq<Proc>, phase: seq<Phase>, actions: seq<Action>, p: int)
    requires ActionsOk(ps, phase, actions) && ToReap(actions, p)
    ensures Buried(actions, p)
  {
    var k :| 0 <= k < |actions| && actions[k].Reap? && actions[k].child == p;
    assert ThenReleased(actions, k);
  }

  /** Nobody is to be released twice. */
  lemma ReleasedOnce(ps: seq<Proc>, phase: seq<Phase>, actions: seq<Action>, p: int)
    requires ActionsOk(ps, phase, actions) && actions != [] && actions[0] == Release(p)
    ensures !Buried(actions[1..], p)
  {
    RestOfActions(ps, phase, actions);
    assert forall k :: 0 <= k < |actions[1..]| ==> Subject(actions[1..][k]) != p;
  }

  /** After its first action, a list still has the same slots to free, and one death less to report. */
  lemma RestToReap(w: World, p: int)
    requires WorldOk(w) && w.actions != []
    ensures var x := w.actions[0]; var rest := w.actions[1..];
            && (Buried(rest, p) <==> Buried(w.actions, p) && x != Release(p))
            && (ToReap(rest, p) <==> ToReap(w.actions, p) && !(x.Reap? && x.child == p))
            && (x.Reap? && x.child == p ==> Buried(rest, p))
            && (x == Release(p) ==> !ToReap(w.actions, p))
  {
    var x := w.actions[0];
    var rest := w.actions[1..];
    ListedInRest(w.actions, p);
    RestOfActions(w.s.procs, w.phase, w.actions);
    if x == Release(p) {
      ReleasedOnce(w.s.procs, w.phase, w.actions, p);
    }
    if ToReap(w.actions, p) {
      RestOfDoom(w.s.procs, w.phase, w.actions, p);
    }
    if ToReap(rest, p) {
      RestOfDoom(w.s.procs, w.phase, rest, p);
      if x.Reap? && x.child == p {
        ReportedOnce(w.s.procs, w.phase, w.actions, p);
      }
    }
  }

  /** Nobody is to be reported twice: the slot that follows the first report would be released twice. */
  lemma ReportedOnce(ps: seq<Proc>, phase: seq<Phase>, actions: seq<Action>, p: int)
    requires ActionsOk(ps, phase, actions) && actions != [] && actions[0].Reap? && actions[0].child == p
    ensures !ToReap(actions[1..], p)
  {
    assert ThenReleased(actions, 0);
    forall k | 1 <= k < |actions| ensures !(actions[k].Reap? && actions[k].child == p) {
      assert ThenReleased(actions, k);
      assert k + 1 < |actions| ==> Subject(actions[1]) != Subject(actions[k + 1]);
    }
  }

  lemma DoomedIsInUse(w: World, p: int)
    requires WorldOk(w) && Buried(w.actions, p)
    ensures IsForked(p) && !w.s.procs[p].flags.freeSlot && Owed(w.phase[p], TASK_MM)
  {
    var k :| 0 <= k < |w.actions| && w.actions[k] == Release(p);
    assert ActionOk(w.s.procs, w.phase, w.actions[k]);
    assert PhaseOk(w.s.procs[p], w.phase[p]);
  }

  /** Reporting a death moves the slot on from Dying to Reported. */
  lemma ReportIsFaithful(w: World, p: int)
    requires WorldOk(w) && Faithful(w) && w.actions != [] && w.actions[0].Reap? && IsPid(p)
    ensures var x := w.actions[0]; var notes := w.notes + [Reaped(x.child, x.to, x.m.i1)];
            && (IsForked(p) ==> StageOf(notes, p) == StageIn(w.s.procs, w.actions[1..], p))
            && TalkOf(notes, p) == TalkOf(w.notes, p)
  {
    var x := w.actions[0];
    RestToReap(w, p);
    Noted(w.notes, Reaped(x.child, x.to, x.m.i1), p);
    if x.child == p {
      RestOfDoom(w.s.procs, w.phase, w.actions, p);
      DoomedIsInUse(w, p);
      ReapTellsTheParent(w);
    }
  }

  lemma PerformSendIsFaithful(w: World, a: int, t: World)
    requires WorldOk(w) && Faithful(w) && Allowed(w, Perform(a)) && !w.actions[0].Release?
    requires PerformStep(w, a) == Goes(t) && ShapedWorld(t)
    ensures Faithful(t)
  {
    var x := w.actions[0];
    DueIsAnswerable(w, a);
    SendingIsFaithful(w, a);
    AnswerIsFaithful(AboutToSend(w, a), x.to, a, t);
  }

  lemma SendingIsFaithful(w: World, a: int)
    requires WorldOk(w) && Faithful(w) && w.actions != [] && !w.actions[0].Release?
    ensures Faithful(AboutToSend(w, a))
  {
    var x := w.actions[0];
    var mid := AboutToSend(w, a);
    forall p | IsPid(p)
      ensures IsForked(p) ==> StageOf(mid.notes, p) == StageIn(w.s.procs, mid.actions, p)
      ensures TalkOf(mid.notes, p) == TalkOf(w.notes, p)
    {
      if x.Reap? {
        ReportIsFaithful(w, p);
      } else {
        RestToReap(w, p);
      }
    }
  }

  lemma ReleaseStage(w: World, child: int, p: int)
    requires WorldOk(w) && Faithful(w) && w.actions != [] && w.actions[0] == Release(child) && IsPid(p)
    ensures IsForked(child)
    ensures IsForked(p) ==>
              StageOf(w.notes + [Freed(child)], p)
                == StageIn(w.s.procs[child := Vacated(w.s.procs[child])], w.actions[1..], p)
    ensures TalkOf(w.notes + [Freed(child)], p) == TalkAfter(TalkOf(w.notes, p), Freed(child), p)
  {
    assert Buried(w.actions, child);
    DoomedIsInUse(w, child);
    Noted(w.notes, Freed(child), p);
    RestToReap(w, p);
  }

  lemma ReleasedStages(w: World, child: int)
    requires WorldOk(w) && Faithful(w) && w.actions != [] && w.actions[0] == Release(child)
    ensures IsForked(child)
    ensures forall p {:trigger StageOf(w.notes + [Freed(child)], p)} :: IsForked(p) ==>
              StageOf(w.notes + [Freed(child)], p)
                == StageIn(w.s.procs[child := Vacated(w.s.procs[child])], w.actions[1..], p)
    ensures forall p {:trigger TalkOf(w.notes + [Freed(child)], p)} :: IsPid(p) ==>
              TalkOf(w.notes + [Freed(child)], p) == TalkAfter(TalkOf(w.notes, p), Freed(child), p)
  {
    ReleaseStage(w, child, 0);
    forall p | IsPid(p)
      ensures IsForked(p) ==>
                StageOf(w.notes + [Freed(child)], p)
                  == StageIn(w.s.procs[child := Vacated(w.s.procs[child])], w.actions[1..], p)
      ensures TalkOf(w.notes + [Freed(child)], p) == TalkAfter(TalkOf(w.notes, p), Freed(child), p)
    {
      ReleaseStage(w, child, p);
    }
  }

  lemma PerformReleaseIsFaithful(w: World, a: int, t: World)
    requires WorldOk(w) && Faithful(w) && Allowed(w, Perform(a)) && w.actions[0].Release?
    requires PerformStep(w, a) == Goes(t)
    ensures Faithful(t)
  {
    ReleasedStages(w, w.actions[0].child);
    assert ActionOk(w.s.procs, w.phase, w.actions[0]);
  }

  // ---------------------------------------------------------------- the theorem

  lemma MoveIsFaithful(w: World, e: Move, t: World)
    requires WorldOk(w) && Faithful(w) && IsMove(w, e, t) && ShapedWorld(t)
    ensures Faithful(t)
  {
    if e.Handle? || e.Perform? {
      ManagingIsFaithful(w, e, t);
    } else if e.Call? || e.Reply? {
      SendingMoveIsFaithful(w, e, t);
    } else if e.AwaitAnswer? || e.Accept? {
      ReceivingIsFaithful(w, e, t);
    } else {
      PassingIsFaithful(w, e, t);
    }
  }

  lemma ManagingIsFaithful(w: World, e: Move, t: World)
    requires WorldOk(w) && Faithful(w) && IsMove(w, e, t) && ShapedWorld(t) && (e.Handle? || e.Perform?)
    ensures Faithful(t)
  {
    match e
    case Handle => HandleIsFaithful(w, t);
    case Perform(a) => PerformIsFaithful(w, a, t);
  }

  lemma SendingMoveIsFaithful(w: World, e: Move, t: World)
    requires Faithful(w) && IsMove(w, e, t) && ShapedWorld(t) && (e.Call? || e.Reply?)
    ensures Faithful(t)
  {
    match e
    case Call(v, a) => CallIsFaithful(w, v, a, t);
    case Reply(d, a) => AnswerIsFaithful(w, d, a, t);
  }

  lemma PerformIsFaithful(w: World, a: int, t: World)
    requires WorldOk(w) && Faithful(w) && Allowed(w, Perform(a)) && PerformStep(w, a) == Goes(t) && ShapedWorld(t)
    ensures Faithful(t)
  {
    if w.actions[0].Release? {
      PerformReleaseIsFaithful(w, a, t);
    } else {
      PerformSendIsFaithful(w, a, t);
    }
  }

  lemma ReceivingIsFaithful(w: World, e: Move, t: World)
    requires WorldOk(w) && Faithful(w) && IsMove(w, e, t) && ShapedWorld(t) && (e.AwaitAnswer? || e.Accept?)
    ensures Faithful(t)
  {
    match e
    case AwaitAnswer(a) => AwaitIsFaithful(w, a, t);
    case Accept(src, a) => AcceptIsFaithful(w, src, a, t);
  }

  lemma PassingIsFaithful(w: World, e: Move, t: World)
    requires WorldOk(w) && Faithful(w) && IsMove(w, e, t) && ShapedWorld(t)
    requires e.UserStore? || e.DiskIrq? || e.ClockTick? || e.Doze?
    ensures Faithful(t)
  {
    PassingIsKin(w, e, t);
    SilentMoveIsFaithful(w, t);
  }

  lemma FaithfulOneMoveOn(run: seq<World>, es: seq<Move>, i: nat)
    requires IsWorldRun(run, es) && WorldOk(run[0]) && 0 < i < |run| && Faithful(run[i - 1])
    ensures Faithful(run[i])
  {
    MoveInRun(run, es, i);
    MoveIsFaithful(run[i - 1], es[i - 1], run[i]);
  }

  lemma {:induction false} HistoryIsFaithful(run: seq<World>, es: seq<Move>, i: nat)
    requires IsWorldRun(run, es) && WorldOk(run[0]) && Faithful(run[0]) && i < |run|
    ensures Faithful(run[i])
  {
    if i > 0 {
      HistoryIsFaithful(run, es, i - 1);
      FaithfulOneMoveOn(run, es, i);
    }
  }

  lemma BootIsFaithful(mem: seq<Memory>, memorySize: int)
    requires |mem| == N
    ensures Faithful(BootWorld(mem, memorySize))
  {
  }

  lemma HistoryFromBoot(run: seq<World>, es: seq<Move>, mem: seq<Memory>, memorySize: int, i: nat)
    requires |mem| == N && IsWorldRun(run, es) && run[0] == BootWorld(mem, memorySize) && i < |run|
    ensures Faithful(run[i])
  {
    BootIsOk(mem, memorySize);
    BootIsFaithful(mem, memorySize);
    HistoryIsFaithful(run, es, i);
  }

  /**
   In every run from boot, each slot goes round birth, death, report of that death's
   status to the parent, and release, in this order and never out of turn; and no
   caller is ever answered twice, unasked, or by a server it did not call.
   */
  lemma ReapedOnceAnsweredOnce(run: seq<World>, es: seq<Move>, mem: seq<Memory>, memorySize: int, i: nat)
    requires |mem| == N && IsWorldRun(run, es) && run[0] == BootWorld(mem, memorySize) && i < |run|
    ensures forall p :: IsForked(p) ==> StageOf(run[i].notes, p) != Broken
    ensures forall c :: IsCaller(c) ==> TalkOf(run[i].notes, c) != Garbled
  {
    HistoryFromBoot(run, es, mem, memorySize, i);
    NothingOutOfTurn(run[i]);
  }

  lemma NothingOutOfTurn(w: World)
    requires Faithful(w)
    ensures forall p :: IsForked(p) ==> StageOf(w.notes, p) != Broken
    ensures forall c :: IsCaller(c) ==> TalkOf(w.notes, c) != Garbled
  {
    assert forall p :: IsForked(p) ==> StageOf(w.notes, p) == StageIn(w.s.procs, w.actions, p);
    assert forall c :: IsCaller(c) ==> TalkOf(w.notes, c) == TalkIn(w.phase[c]);
  }
}
