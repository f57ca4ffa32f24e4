/**
 Nobody is forgotten: whomever the memory manager owes an answer has its request in hand, or is on
 the list of what is still to do, or has been suspended for a child, or has exited.
 */
module WorldDebts {
  import opened ProcTable
  import opened Family
  import opened World
  import opened WorldInv
  import opened WorldManager
  import opened WorldRuns
  import opened WorldNotes

  predicate Listed(actions: seq<Action>, c: int) {
    exists k :: 0 <= k < |actions| && Subject(actions[k]) == c
  }

  predicate Provided(p: Proc, hand: Hand, actions: seq<Action>, c: int) {
    (hand.Request? && hand.from == c) || Listed(actions, c) || p.flags.waiting || p.flags.hanging
  }

  ghost predicate NobodyForgotten(w: World) {
    ShapedWorld(w) &&
    forall c {:trigger Provided(w.s.procs[c], w.hand, w.actions, c)} ::
      NR_TASKS <= c < N && Owed(w.phase[c], TASK_MM) ==> Provided(w.s.procs[c], w.hand, w.actions, c)
  }

  /** A move that adds no debt but for a request that the manager has just taken in hand. */
  lemma NoNewDebt(w: World, t: World)
    requires NobodyForgotten(w) && ShapedWorld(t) && SameKin(w.s.procs, t.s.procs) && t.actions == w.actions
    requires t.hand == w.hand || w.hand == Empty
    requires forall c :: NR_TASKS <= c < N && Owed(t.phase[c], TASK_MM) ==>
                           Owed(w.phase[c], TASK_MM) || (t.hand.Request? && t.hand.from == c)
    ensures NobodyForgotten(t)
  {
    forall c | NR_TASKS <= c < N && Owed(t.phase[c], TASK_MM) ensures Provided(t.s.procs[c], t.hand, t.actions, c) {
      assert Kin(w.s.procs[c], t.s.procs[c]);
      assert Provided(w.s.procs[c], w.hand, w.actions, c) || (t.hand.Request? && t.hand.from == c);
    }
  }

  lemma CallRemembers(w: World, v: int, a: int, t: World)
    requires WorldOk(w) && NobodyForgotten(w) && Allowed(w, Call(v, a)) && CallStep(w, v, a) == Goes(t)
    requires ShapedWorld(t)
    ensures NobodyForgotten(t)
  {
    SendIsKin(w.s, v, a);
    NoNewDebt(w, t);
  }

  lemma AwaitRemembers(w: World, a: int, t: World)
    requires WorldOk(w) && NobodyForgotten(w) && Allowed(w, AwaitAnswer(a)) && IsServer(w.phase[w.s.ready].server)
    requires AwaitStep(w, a) == Goes(t) && ShapedWorld(t)
    ensures NobodyForgotten(t)
  {
    ReceiveIsKin(w.s, w.phase[w.s.ready].server, a);
    NoNewDebt(w, t);
  }

  lemma AcceptRemembers(w: World, src: int, a: int, t: World)
    requires WorldOk(w) && NobodyForgotten(w) && Allowed(w, Accept(src, a)) && AcceptStep(w, src, a) == Goes(t)
    requires ShapedWorld(t)
    ensures NobodyForgotten(t)
  {
    ReceiveIsKin(w.s, src, a);
    NoNewDebt(w, t);
  }

  lemma AnswerRemembers(w: World, d: int, a: int, t: World)
    requires NobodyForgotten(w) && IsPid(d) && IsCaller(d) && AnswerStep(w, d, a) == Goes(t) && ShapedWorld(t)
    ensures NobodyForgotten(t)
  {
    SendIsKin(w.s, d, a);
    NoNewDebt(w, t);
  }

  // ---------------------------------------------------------------- handling a request

  lemma WaitRemembers(w: World, t: World)
    requires Handling(w, WAIT) && NobodyForgotten(w) && NativesStay(w.s.procs) && HandleStep(w) == Goes(t)
    ensures NobodyForgotten(t)
  {
    var ps := w.s.procs;
    var pid := w.hand.from;
    var h := FirstHanging(ps, pid, 0);
    if h < N {
      assert t.actions[0] == Reap(h, pid, t.actions[0].m) && Subject(t.actions[0]) == pid;
    } else if !SomeSlotNames(ps, pid) {
      assert Subject(t.actions[0]) == pid;
    }
    forall c | NR_TASKS <= c < N && Owed(t.phase[c], TASK_MM) ensures Provided(t.s.procs[c], t.hand, t.actions, c) {
      assert Provided(ps[c], w.hand, w.actions, c);
      assert c == pid ==> Listed(t.actions, c) || t.s.procs[c].flags.waiting;
    }
  }

  lemma ForkRemembers(w: World, t: World)
    requires Handling(w, FORK) && NobodyForgotten(w) && NativesStay(w.s.procs) && HandleStep(w) == Goes(t)
    ensures NobodyForgotten(t)
  {
    ForkOutcomeFacts(w);
    var pid := w.hand.from;
    var last := |t.actions| - 1;
    assert Subject(t.actions[last]) == pid;
    assert last == 1 ==> t.s.procs == w.s.procs[Subject(t.actions[0]) := t.s.procs[Subject(t.actions[0])]];
    forall c | NR_TASKS <= c < N && Owed(t.phase[c], TASK_MM) ensures Provided(t.s.procs[c], t.hand, t.actions, c) {
      if c != pid && !(last == 1 && c == Subject(t.actions[0])) {
        assert Provided(w.s.procs[c], w.hand, w.actions, c);
      }
    }
  }

  lemma ListedInEither(xs: seq<Action>, ys: seq<Action>, c: int)
    ensures Listed(xs + ys, c) <==> Listed(xs, c) || Listed(ys, c)
  {
    var zs := xs + ys;
    if k :| 0 <= k < |xs| && Subject(xs[k]) == c {
      assert zs[k] == xs[k];
    }
    if k :| 0 <= k < |ys| && Subject(ys[k]) == c {
      assert zs[|xs| + k] == ys[k];
    }
  }

  lemma CleanupLists(ps: seq<Proc>, h: int)
    requires 0 <= h < |ps|
    ensures Listed(Cleanup(ps, h), h) && Listed(Cleanup(ps, h), ps[h].parent)
  {
    var xs := Cleanup(ps, h);
    assert Subject(xs[0]) == ps[h].parent && Subject(xs[1]) == h;
  }

  /** Exit puts on its list everybody whose WAITING it clears, and the dead process unless that is left HANGING. */
  lemma ExitLists(ps: seq<Proc>, pid: int, status: int)
    requires MayExit(ps, pid)
    ensures IsUser(ps[pid].parent)
    ensures var x := Exit(ps, pid, status); var parent := ps[pid].parent;
            && (ps[parent].flags.waiting ==> Listed(x.actions, parent) && Listed(x.actions, pid))
            && (InheritedCorpse(Orphaned(ps, pid, status), pid) < N ==> Listed(x.actions, INIT))
  {
    ExitList(ps, pid, status);
    OrphanedFacts(ps, pid, status);
    InheritedFacts(ps, pid, status);
    var left := Orphaned(ps, pid, status);
    var h := InheritedCorpse(left, pid);
    var told := if ps[ps[pid].parent].flags.waiting then Cleanup(left, pid) else [];
    var inherited := if h < N then Cleanup(AdoptAll(left, pid), h) else [];
    forall c ensures Listed(told + inherited, c) <==> Listed(told, c) || Listed(inherited, c) {
      ListedInEither(told, inherited, c);
    }
    CleanupLists(left, pid);
    if h < N {
      CleanupLists(AdoptAll(left, pid), h);
    }
  }

  lemma ExitProvides(ps: seq<Proc>, pid: int, status: int, c: int)
    requires MayExit(ps, pid) && IsPid(ps[pid].parent) && IsUser(c)
    requires (c == pid || ps[c].flags.waiting || ps[c].flags.hanging)
    ensures var x := Exit(ps, pid, status); |x.procs| == N && Provided(x.procs[c], Empty, x.actions, c)
  {
    ExitTable(ps, pid, status);
    ExitLists(ps, pid, status);
    assert IsLeft(ps, pid, status, Exit(ps, pid, status).procs, c);
  }

  lemma ExitRemembers(w: World, t: World)
    requires Handling(w, EXIT) && NobodyForgotten(w) && NativesStay(w.s.procs) && HandleStep(w) == Goes(t)
    ensures NobodyForgotten(t)
  {
    HandlingFacts(w);
    ExitGuards(w);
    forall c | NR_TASKS <= c < N && Owed(t.phase[c], TASK_MM)
      ensures |t.s.procs| == N && Provided(t.s.procs[c], t.hand, t.actions, c)
    {
      assert Provided(w.s.procs[c], w.hand, w.actions, c);
      ExitProvides(w.s.procs, w.hand.from, w.hand.m.i1, c);
    }
    ExitTable(w.s.procs, w.hand.from, w.hand.m.i1);
  }

  // ---------------------------------------------------------------- performing

  lemma ListedInRest(actions: seq<Action>, c: int)
    requires actions != []
    ensures Listed(actions, c) <==> Subject(actions[0]) == c || Listed(actions[1..], c)
  {
    ListedInEither([actions[0]], actions[1..], c);
    assert actions == [actions[0]] + actions[1..];
    assert [actions[0]][0] == actions[0];
  }

  /** The subject of the first action is served, and the others stay provided for. */
  lemma FirstServed(w: World, t: World)
    requires NobodyForgotten(w) && ShapedWorld(t) && w.actions != [] && t.actions == w.actions[1..] && t.hand == w.hand
    requires var d := Subject(w.actions[0]);
             forall c :: NR_TASKS <= c < N && Owed(t.phase[c], TASK_MM) ==>
                           c != d && Owed(w.phase[c], TASK_MM) && Kin(w.s.procs[c], t.s.procs[c])
    ensures NobodyForgotten(t)
  {
    forall c | NR_TASKS <= c < N && Owed(t.phase[c], TASK_MM) ensures Provided(t.s.procs[c], t.hand, t.actions, c) {
      assert Provided(w.s.procs[c], w.hand, w.actions, c);
      ListedInRest(w.actions, c);
    }
  }

  lemma SendRemembers(w: World, a: int, t: World)
    requires WorldOk(w) && NobodyForgotten(w) && Allowed(w, Perform(a)) && !w.actions[0].Release?
    requires PerformStep(w, a) == Goes(t) && ShapedWorld(t)
    ensures NobodyForgotten(t)
  {
    SentToFirst(w, a, t);
    FirstServed(w, t);
  }

  /** The message on top of the list goes to its subject, and leaves the others in their phases. */
  lemma SentToFirst(w: World, a: int, t: World)
    requires WorldOk(w) && Allowed(w, Perform(a)) && !w.actions[0].Release? && PerformStep(w, a) == Goes(t)
    ensures SameKin(w.s.procs, t.s.procs) && t.actions == w.actions[1..] && t.hand == w.hand && |t.phase| == N
    ensures var d := Subject(w.actions[0]);
            IsUser(d) && !Owed(t.phase[d], TASK_MM) && forall c :: 0 <= c < N && c != d ==> t.phase[c] == w.phase[c]
  {
    assert ActionOk(w.s.procs, w.phase, w.actions[0]);
    SendIsKin(AboutToSend(w, a).s, w.actions[0].to, a);
  }

  lemma ReleaseRemembers(w: World, a: int, t: World)
    requires WorldOk(w) && NobodyForgotten(w) && Allowed(w, Perform(a)) && w.actions[0].Release?
    requires PerformStep(w, a) == Goes(t)
    ensures NobodyForgotten(t)
  {
    assert ActionOk(w.s.procs, w.phase, w.actions[0]);
    FirstServed(w, t);
  }

  lemma PerformRemembers(w: World, a: int, t: World)
    requires WorldOk(w) && NobodyForgotten(w) && Allowed(w, Perform(a)) && PerformStep(w, a) == Goes(t)
    requires ShapedWorld(t)
    ensures NobodyForgotten(t)
  {
    if w.actions[0].Release? {
      ReleaseRemembers(w, a, t);
    } else {
      SendRemembers(w, a, t);
    }
  }

  // ---------------------------------------------------------------- runs

  lemma MoveRemembers(w: World, e: Move, t: World)
    requires WorldOk(w) && NobodyForgotten(w) && IsMove(w, e, t) && ShapedWorld(t)
    ensures NobodyForgotten(t)
  {
    if e.Handle? || e.Perform? {
      ManagingRemembers(w, e, t);
    } else if e.Call? || e.Reply? {
      SendingRemembers(w, e, t);
    } else if e.AwaitAnswer? || e.Accept? {
      ReceivingRemembers(w, e, t);
    } else {
      PassingIsKin(w, e, t);
      NoNewDebt(w, t);
    }
  }

  lemma ManagingRemembers(w: World, e: Move, t: World)
    requires WorldOk(w) && NobodyForgotten(w) && IsMove(w, e, t) && ShapedWorld(t) && (e.Handle? || e.Perform?)
    ensures NobodyForgotten(t)
  {
    match e
    case Handle => HandleRemembers(w, t);
    case Perform(a) => PerformRemembers(w, a, t);
  }

  lemma SendingRemembers(w: World, e: Move, t: World)
    requires WorldOk(w) && NobodyForgotten(w) && IsMove(w, e, t) && ShapedWorld(t) && (e.Call? || e.Reply?)
    ensures NobodyForgotten(t)
  {
    match e
    case Call(v, a) => CallRemembers(w, v, a, t);
    case Reply(d, a) => AnswerRemembers(w, d, a, t);
  }

  lemma ReceivingRemembers(w: World, e: Move, t: World)
    requires WorldOk(w) && NobodyForgotten(w) && IsMove(w, e, t) && ShapedWorld(t) && (e.AwaitAnswer? || e.Accept?)
    ensures NobodyForgotten(t)
  {
    match e
    case AwaitAnswer(a) => AwaitRemembers(w, a, t);
    case Accept(src, a) => AcceptRemembers(w, src, a, t);
  }

  lemma HandleRemembers(w: World, t: World)
    requires WorldOk(w) && NobodyForgotten(w) && Allowed(w, Handle) && NativesStay(w.s.procs)
    requires HandleStep(w) == Goes(t)
    ensures NobodyForgotten(t)
  {
    if w.hand.m.kind == FORK {
      ForkRemembers(w, t);
    } else if w.hand.m.kind == EXIT {
      ExitRemembers(w, t);
    } else {
      WaitRemembers(w, t);
    }
  }

  lemma {:induction false} RunRemembers(run: seq<World>, es: seq<Move>, i: nat)
    requires IsWorldRun(run, es) && WorldOk(run[0]) && NobodyForgotten(run[0]) && i < |run|
    ensures NobodyForgotten(run[i])
  {
    if i > 0 {
      RunRemembers(run, es, i - 1);
      MoveInRun(run, es, i);
      MoveRemembers(run[i - 1], es[i - 1], run[i]);
    }
  }

  lemma OnlySuspendedAreOwed(w: World, c: int)
    requires WorldOk(w) && NobodyForgotten(w) && IsUser(c) && w.s.procs[TASK_MM].flags.receiving
    requires Owed(w.phase[c], TASK_MM)
    ensures w.s.procs[c].flags.waiting || w.s.procs[c].flags.hanging
  {
    assert Provided(w.s.procs[c], w.hand, w.actions, c);
  }

  /**
   Every request is answered: in every run from boot, whenever the memory manager is blocked in
   the receive of its main loop, the only clients it still owes an answer are those that wait for a
   child and those that have exited.
   */
  lemma EveryRequestIsAnswered(run: seq<World>, es: seq<Move>, mem: seq<Memory>, memorySize: int, i: nat, c: int)
    requires |mem| == N && IsWorldRun(run, es) && run[0] == BootWorld(mem, memorySize) && i < |run| && IsUser(c)
    ensures ShapedWorld(run[i])
    ensures run[i].s.procs[TASK_MM].flags.receiving && Owed(run[i].phase[c], TASK_MM) ==>
              run[i].s.procs[c].flags.waiting || run[i].s.procs[c].flags.hanging
  {
    BootIsOk(mem, memorySize);
    BootOwesNothing(mem, memorySize);
    RunIsShaped(run, es, i);
    RunStaysOk(run, es, i);
    RunRemembers(run, es, i);
    if run[i].s.procs[TASK_MM].flags.receiving && Owed(run[i].phase[c], TASK_MM) {
      OnlySuspendedAreOwed(run[i], c);
    }
  }

  lemma BootOwesNothing(mem: seq<Memory>, memorySize: int)
    requires |mem| == N
    ensures NobodyForgotten(BootWorld(mem, memorySize))
  {
  }
}
