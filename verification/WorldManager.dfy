/**
 The memory manager's own moves: handling a request, and performing what it calls for.
 */
module WorldManager {
  import opened ProcTable
  import opened Segments
  import opened SchedSpec
  import opened IpcSpec
  import opened IpcInv
  import opened IpcLog
  import opened WaitGraph
  import opened Family
  import opened World
  import opened WorldInv
  import opened WorldSteps

  // ---------------------------------------------------------------- writing the table behind IPC's back

  /**
   What the memory manager may change in an entry: p_parent, exit_status, and the two flags of a process it keeps
   waiting.
   */
  predicate Altered(p: Proc, q: Proc) {
    && q == p.(parent := q.parent, exitStatus := q.exitStatus,
               flags := p.flags.(waiting := q.flags.waiting, hanging := q.flags.hanging))
    && (q.flags != p.flags ==>
          !p.flags.sending && !p.flags.sleeping && !p.flags.freeSlot && (p.flags.receiving ==> IsPid(p.recvFrom)))
  }

  ghost predicate TableAltered(ps: seq<Proc>, qs: seq<Proc>) {
    && |ps| == |qs| == N
    && (forall i {:trigger Altered(ps[i], qs[i])} :: 0 <= i < N ==> Altered(ps[i], qs[i]))
    && qs[TASK_TTY].flags == ps[TASK_TTY].flags
  }

  lemma AlteredIsLegal(p: Proc, q: Proc)
    requires Legal(p) && Altered(p, q)
    ensures Legal(q)
  {
  }

  lemma AlteringFrame(ps: seq<Proc>, qs: seq<Proc>)
    requires AllLegal(ps) && NoLostInterrupt(ps) && TableAltered(ps, qs)
    ensures AllLegal(qs) && NoLostInterrupt(qs) && SameEdges(ps, qs) && FewerReceivers(ps, qs, -1)
    ensures forall i :: 0 <= i < N ==> qs[i].msg == ps[i].msg
  {
    forall i | 0 <= i < N
      ensures Legal(qs[i]) && qs[i].msg == ps[i].msg && qs[i].hasInt == ps[i].hasInt
      ensures qs[i].flags.sending == ps[i].flags.sending && qs[i].sendTo == ps[i].sendTo
      ensures qs[i].flags.receiving == ps[i].flags.receiving && qs[i].recvFrom == ps[i].recvFrom
    {
      assert Altered(ps[i], qs[i]);
      AlteredIsLegal(ps[i], qs[i]);
    }
  }

  lemma AlteringKeepsCore(s: State, qs: seq<Proc>)
    requires CoreInv(s) && TableAltered(s.procs, qs)
    ensures CoreInv(s.(procs := qs))
  {
    AlteringFrame(s.procs, qs);
    assert Altered(s.procs[TASK_TTY], qs[TASK_TTY]);
    SameEdgesSameRank(s.procs, qs);
    SameSendersSameQueues(s.procs, qs, s.queues);
    FewerReceiversMissNothing(s.procs, qs);
    SameMailSameLog(s, s.(procs := qs));
  }

  /** What the altered flags must respect for the protocol's sake. */
  predicate WaitingOk(p: Proc, q: Proc, ph: Phase) {
    && (q.flags.waiting || q.flags.hanging ==> Owed(ph, TASK_MM))
    && !(q.flags.waiting && q.flags.hanging)
  }

  lemma AlteringKeepsProtocol(ps: seq<Proc>, phase: seq<Phase>, qs: seq<Proc>)
    requires Protocol(ps, phase) && TableAltered(ps, qs)
    requires forall i :: 0 <= i < NR_TASKS ==> qs[i].flags == ps[i].flags
    requires forall i {:trigger WaitingOk(ps[i], qs[i], phase[i])} :: NR_TASKS <= i < N ==>
             WaitingOk(ps[i], qs[i], phase[i])
    ensures Protocol(qs, phase)
  {
    forall v | 0 <= v < NR_TASKS ensures TaskOk(qs[v], v, phase) {
      assert Altered(ps[v], qs[v]) && TaskOk(ps[v], v, phase);
    }
    forall i | NR_TASKS <= i < N ensures PhaseOk(qs[i], phase[i]) {
      assert Altered(ps[i], qs[i]) && PhaseOk(ps[i], phase[i]) && WaitingOk(ps[i], qs[i], phase[i]);
    }
    forall c | 0 <= c < N && IsCaller(c) ensures AnswerWaits(qs, phase, c) {
      assert AnswerWaits(ps, phase, c);
      assert phase[c].Answering? ==> Altered(ps[phase[c].server], qs[phase[c].server]);
    }
  }

  lemma NothingAltered(ps: seq<Proc>)
    requires |ps| == N
    ensures TableAltered(ps, ps)
  {
  }

  /** The world after a request has been handled by altering the table, from its parts. */
  lemma HandledCore(w: World, t: World)
    requires WorldOk(w) && w.s.ready == TASK_MM && t.phase == w.phase && t.hand == Empty
    requires t.s == w.s.(procs := t.s.procs) && TableAltered(w.s.procs, t.s.procs) && Protocol(t.s.procs, w.phase)
    requires ActionsOk(t.s.procs, w.phase, t.actions) && FamilyOk(t.s.procs, t.actions)
    requires Runnable(t.s.procs[TASK_MM])
    ensures WorldOk(t)
  {
    AlteringKeepsCore(w.s, t.s.procs);
    forall i | 0 <= i < N ensures Letter(t.s, i) == Letter(w.s, i) {
      assert Altered(w.s.procs[i], t.s.procs[i]);
    }
  }

  // ---------------------------------------------------------------- wait

  /** The state in which the memory manager handles a request. */
  ghost predicate Handling(w: World, kind: int) {
    && WorldOk(w) && Allowed(w, Handle) && w.hand.m.kind == kind
  }

  lemma NativesHaveSlots(ps: seq<Proc>)
    requires OnlyForkedDie(ps)
    ensures NativesStay(ps)
  {
  }

  lemma HandlingFacts(w: World)
    requires WorldOk(w) && Allowed(w, Handle)
    ensures NativesStay(w.s.procs)
    ensures var pid := w.hand.from; var p := w.s.procs[pid];
            && IsUser(pid) && Owed(w.phase[pid], TASK_MM) && !p.flags.waiting && !p.flags.hanging
            && !p.flags.sending && !p.flags.sleeping && !p.flags.freeSlot && !p.hasInt
            && (p.flags.receiving ==> p.recvFrom == TASK_MM)
            && Runnable(w.s.procs[TASK_MM])
            && Serviceable(w.hand.m, pid)
  {
    var pid := w.hand.from;
    assert PhaseOk(w.s.procs[pid], w.phase[pid]);
    NativesHaveSlots(w.s.procs);
  }

  lemma CorpseFacts(w: World, h: int)
    requires WorldOk(w) && IsPid(h) && w.s.procs[h].flags.hanging
    ensures var p := w.s.procs[h];
            && IsForked(h) && Owed(w.phase[h], TASK_MM) && !p.flags.waiting
            && !p.flags.sending && !p.flags.sleeping && !p.flags.freeSlot
            && (p.flags.receiving ==> p.recvFrom == TASK_MM)
  {
    assert IsForked(h);
    assert PhaseOk(w.s.procs[h], w.phase[h]) && Legal(w.s.procs[h]);
  }

  lemma CleanupBuries(ps: seq<Proc>, h: int, i: int)
    requires 0 <= h < |ps|
    ensures Buried(Cleanup(ps, h), i) <==> i == h
  {
    assert Cleanup(ps, h)[1] == Release(h);
  }

  /** The corpse's slot goes, and nobody's live parent with it. */
  lemma ReapingKeepsFamily(ps: seq<Proc>, h: int)
    requires FamilyOk(ps, []) && 0 <= h < N && ps[h].flags.hanging
    ensures FamilyOk(ps, Cleanup(ps, h))
  {
    var actions := Cleanup(ps, h);
    forall i | FIRST_FORKED <= i < N ensures ParentLives(ps, actions, i) {
      assert ParentLives(ps, [], i);
      CleanupBuries(ps, h, i);
      CleanupBuries(ps, h, ps[i].parent);
    }
  }

  lemma ReapingActions(w: World, pid: int, h: int)
    requires WorldOk(w) && IsUser(pid) && Expectant(w.s.procs[pid], w.phase[pid])
    requires IsPid(h) && HangingChild(w.s.procs, h, pid)
    ensures ActionsOk(w.s.procs, w.phase, Cleanup(w.s.procs, h))
  {
    var actions := Cleanup(w.s.procs, h);
    CorpseFacts(w, h);
    assert ActionOk(w.s.procs, w.phase, actions[0]) && ActionOk(w.s.procs, w.phase, actions[1]);
    assert h != pid;
  }

  lemma WaitReapsKeepsWorld(w: World)
    requires Handling(w, WAIT) && FirstHanging(w.s.procs, w.hand.from, 0) < N
    ensures HandleStep(w).Goes? && WorldOk(HandleStep(w).w)
  {
    var ps := w.s.procs;
    var pid := w.hand.from;
    var h := FirstHanging(ps, pid, 0);
    HandlingFacts(w);
    ReapingActions(w, pid, h);
    ReapingKeepsFamily(ps, h);
    NothingAltered(ps);
    var t := w.(hand := Empty, actions := Cleanup(ps, h));
    assert HandleStep(w) == Goes(t);
    HandledCore(w, t);
  }

  lemma SuspendedTable(w: World, qs: seq<Proc>)
    requires Handling(w, WAIT) && qs == w.s.procs[w.hand.from := SetWaiting(w.s.procs[w.hand.from], true)]
    ensures TableAltered(w.s.procs, qs) && Protocol(qs, w.phase)
  {
    var ps := w.s.procs;
    HandlingFacts(w);
    forall i | NR_TASKS <= i < N ensures WaitingOk(ps[i], qs[i], w.phase[i]) {
      assert PhaseOk(ps[i], w.phase[i]);
    }
    AlteringKeepsProtocol(ps, w.phase, qs);
  }

  /** A process that has a child slot, but none that has exited, is suspended. */
  lemma WaitSuspendsKeepsWorld(w: World)
    requires Handling(w, WAIT) && FirstHanging(w.s.procs, w.hand.from, 0) == N && SomeSlotNames(w.s.procs, w.hand.from)
    ensures HandleStep(w).Goes? && WorldOk(HandleStep(w).w)
  {
    var pid := w.hand.from;
    HandlingFacts(w);
    var qs := w.s.procs[pid := SetWaiting(w.s.procs[pid], true)];
    var t := w.(s := w.s.(procs := qs), hand := Empty, actions := []);
    SuspendedTable(w, qs);
    SuspendedFamily(w.s.procs, pid);
    HandledCore(w, t);
    assert HandleStep(w) == Goes(t);
  }

  lemma SuspendedFamily(ps: seq<Proc>, pid: int)
    requires FamilyOk(ps, []) && IsUser(pid) && FirstHanging(ps, pid, 0) == N
    ensures FamilyOk(ps[pid := SetWaiting(ps[pid], true)], [])
  {
    var qs := ps[pid := SetWaiting(ps[pid], true)];
    forall i | FIRST_FORKED <= i < N ensures ParentLives(qs, [], i) {
      assert ParentLives(ps, [], i);
    }
    forall j | 0 <= j < N ensures NotAwaited(qs, j) {
      assert NotAwaited(ps, j) && !HangingChild(ps, j, pid);
    }
  }

  lemma WaitRefusedKeepsWorld(w: World)
    requires Handling(w, WAIT) && FirstHanging(w.s.procs, w.hand.from, 0) == N && !SomeSlotNames(w.s.procs, w.hand.from)
    ensures HandleStep(w).Goes? && WorldOk(HandleStep(w).w)
  {
    var pid := w.hand.from;
    HandlingFacts(w);
    var t := w.(hand := Empty, actions := [Answer(pid, Message(0, SYSCALL_RET, 0, NO_TASK))]);
    NothingAltered(w.s.procs);
    AnswersBuryNobody(w.s.procs, w.actions, t.actions);
    HandledCore(w, t);
    assert HandleStep(w) == Goes(t);
  }

  lemma AnswersBuryNobody(ps: seq<Proc>, actions: seq<Action>, actions': seq<Action>)
    requires FamilyOk(ps, actions) && forall i :: Buried(actions', i) <==> Buried(actions, i)
    ensures FamilyOk(ps, actions')
  {
    forall i | FIRST_FORKED <= i < N ensures ParentLives(ps, actions', i) {
      assert ParentLives(ps, actions, i);
    }
  }

  // ---------------------------------------------------------------- exit

  /** What exit finds: a forked process in use, neither waiting nor dead. */
  ghost predicate MayExit(ps: seq<Proc>, pid: int) {
    FamilyOk(ps, []) && IsForked(pid) && !ps[pid].flags.freeSlot && !ps[pid].flags.waiting && !ps[pid].flags.hanging
  }

  lemma ParentFacts(ps: seq<Proc>, pid: int)
    requires MayExit(ps, pid)
    ensures var parent := ps[pid].parent;
            IsUser(parent) && parent != pid && !ps[parent].flags.freeSlot && !ps[parent].flags.hanging
  {
    assert ParentLives(ps, [], pid);
  }

  /** The first half of exit: the parent has been told, or the process has been left HANGING. */
  lemma OrphanedFacts(ps: seq<Proc>, pid: int, status: int)
    requires MayExit(ps, pid)
    ensures IsUser(ps[pid].parent) && ps[pid].parent != pid && !ps[ps[pid].parent].flags.freeSlot
    ensures !ps[ps[pid].parent].flags.hanging
    ensures var left := Orphaned(ps, pid, status); var parent := ps[pid].parent;
            && |left| == N
            && (forall i :: 0 <= i < N && i != pid && i != parent ==> left[i] == ps[i])
            && left[pid] == ps[pid].(exitStatus := status,
                                     flags := ps[pid].flags.(hanging := !ps[parent].flags.waiting))
            && left[parent] == SetWaiting(ps[parent], false)
  {
    ParentFacts(ps, pid);
  }

  /** What exit makes of an entry; reaps tells whether INIT inherits a child to reap at once. */
  function Left(p: Proc, i: int, pid: int, parent: int, status: int, parentWaits: bool, reaps: bool): Proc {
    p.(parent := if p.parent == pid then INIT else p.parent,
       exitStatus := if i == pid then status else p.exitStatus,
       flags := p.flags.(hanging := p.flags.hanging || (i == pid && !parentWaits),
                         waiting := p.flags.waiting && i != parent && !(i == INIT && reaps)))
  }

  ghost predicate IsLeft(ps: seq<Proc>, pid: int, status: int, qs: seq<Proc>, i: int)
    requires |ps| == |qs| == N && IsPid(i) && IsPid(pid) && IsPid(ps[pid].parent)
  {
    var parent := ps[pid].parent;
    qs[i] == Left(ps[i], i, pid, parent, status, ps[parent].flags.waiting,
                  InheritedCorpse(Orphaned(ps, pid, status), pid) < N)
  }

  /** The table after exit, entry by entry. */
  lemma ExitTable(ps: seq<Proc>, pid: int, status: int)
    requires MayExit(ps, pid)
    ensures IsUser(ps[pid].parent)
    ensures var qs := Exit(ps, pid, status).procs;
            |qs| == N && forall i {:trigger IsLeft(ps, pid, status, qs, i)} :: 0 <= i < N ==>
              IsLeft(ps, pid, status, qs, i)
  {
    OrphanedFacts(ps, pid, status);
    var left := Orphaned(ps, pid, status);
    var qs := Exit(ps, pid, status).procs;
    forall i | 0 <= i < N ensures IsLeft(ps, pid, status, qs, i) {
      ExitEntry(ps, pid, status, i);
    }
  }

  lemma OrphanedEntry(ps: seq<Proc>, pid: int, status: int, i: int)
    requires |ps| == N && IsPid(pid) && IsPid(ps[pid].parent) && ps[pid].parent != pid && !ps[pid].flags.hanging
    requires IsPid(i)
    ensures var left, waits := Orphaned(ps, pid, status), ps[ps[pid].parent].flags.waiting;
            |left| == N && left[i] ==
              ps[i].(exitStatus := if i == pid then status else ps[i].exitStatus,
                     flags := ps[i].flags.(hanging := ps[i].flags.hanging || (i == pid && !waits),
                                           waiting := ps[i].flags.waiting && i != ps[pid].parent))
  {
  }

  lemma ExitedEntry(ps: seq<Proc>, pid: int, status: int, i: int)
    requires |ps| == N && IsPid(pid) && IsPid(ps[pid].parent) && IsPid(i)
    ensures var left, qs := Orphaned(ps, pid, status), Exit(ps, pid, status).procs;
            && |left| == |qs| == N
            && var p := Adopted(left[i], pid);
               qs[i] == if i == INIT && InheritedCorpse(left, pid) < N then SetWaiting(p, false) else p
  {
    var left := Orphaned(ps, pid, status);
    assert AdoptAll(left, pid)[i] == Adopted(left[i], pid);
  }

  lemma ExitEntry(ps: seq<Proc>, pid: int, status: int, i: int)
    requires |ps| == N && IsPid(pid) && IsPid(ps[pid].parent) && ps[pid].parent != pid && !ps[pid].flags.hanging
    requires IsPid(i)
    ensures |Exit(ps, pid, status).procs| == N && IsLeft(ps, pid, status, Exit(ps, pid, status).procs, i)
  {
    OrphanedEntry(ps, pid, status, i);
    ExitedEntry(ps, pid, status, i);
  }

  /**
   The child that INIT inherits and reaps at once was HANGING before, and is neither the dead process nor its parent.
   */
  lemma InheritedFacts(ps: seq<Proc>, pid: int, status: int)
    requires MayExit(ps, pid)
    ensures IsUser(ps[pid].parent)
    ensures var left := Orphaned(ps, pid, status); var h := InheritedCorpse(left, pid);
            && 0 <= h <= N
            && (h < N ==> IsForked(h) && h != pid && ps[h].flags.hanging && ps[h].parent == pid && h != ps[pid].parent
                          && ps[INIT].flags.waiting && ps[pid].parent != INIT)
  {
    OrphanedFacts(ps, pid, status);
  }

  /** If INIT waits and inherits nobody to reap, the dead process has left no HANGING child. */
  lemma NothingInherited(ps: seq<Proc>, pid: int, status: int, j: int)
    requires MayExit(ps, pid) && IsPid(j) && ps[j].flags.hanging && ps[j].parent == pid
    requires IsPid(ps[pid].parent) && InheritedCorpse(Orphaned(ps, pid, status), pid) == N
    ensures !ps[INIT].flags.waiting || ps[pid].parent == INIT
  {
    OrphanedFacts(ps, pid, status);
    var left := Orphaned(ps, pid, status);
    assert HangingChild(left, j, pid);
  }

  /** The list after exit: the dead process's clean-up, if its parent waits, and the inherited child's, if INIT does. */
  lemma ExitList(ps: seq<Proc>, pid: int, status: int)
    requires MayExit(ps, pid)
    ensures IsUser(ps[pid].parent)
    ensures var left := Orphaned(ps, pid, status); var h := InheritedCorpse(left, pid);
            Exit(ps, pid, status).actions ==
            (if ps[ps[pid].parent].flags.waiting then Cleanup(left, pid) else [])
            + (if h < N then Cleanup(AdoptAll(left, pid), h) else [])
  {
    OrphanedFacts(ps, pid, status);
    InheritedFacts(ps, pid, status);
  }

  lemma BuriedInEither(xs: seq<Action>, ys: seq<Action>, i: int)
    ensures Buried(xs + ys, i) <==> Buried(xs, i) || Buried(ys, i)
  {
  }

  lemma ExitBuries(ps: seq<Proc>, pid: int, status: int, i: int)
    requires MayExit(ps, pid)
    ensures IsUser(ps[pid].parent)
    ensures Buried(Exit(ps, pid, status).actions, i) <==>
            (i == pid && ps[ps[pid].parent].flags.waiting)
              || (i < N && i == InheritedCorpse(Orphaned(ps, pid, status), pid))
  {
    ExitList(ps, pid, status);
    OrphanedFacts(ps, pid, status);
    InheritedFacts(ps, pid, status);
    var left := Orphaned(ps, pid, status);
    var h := InheritedCorpse(left, pid);
    var told := if ps[ps[pid].parent].flags.waiting then Cleanup(left, pid) else [];
    var inherited := if h < N then Cleanup(AdoptAll(left, pid), h) else [];
    BuriedInEither(told, inherited, i);
    CleanupBuries(left, pid, i);
    if h < N {
      CleanupBuries(AdoptAll(left, pid), h, i);
    }
  }

  /** The children of the dead process pass to INIT; nobody is left waiting for a process that has exited. */
  lemma ExitKeepsFamily(ps: seq<Proc>, pid: int, status: int)
    requires MayExit(ps, pid)
    ensures IsUser(ps[pid].parent)
    ensures FamilyOk(Exit(ps, pid, status).procs, Exit(ps, pid, status).actions)
  {
    ParentFacts(ps, pid);
    ExitLeavesParents(ps, pid, status);
    ExitLeavesNoVainWait(ps, pid, status);
    ExitLeavesSlots(ps, pid, status);
  }

  lemma ExitLeavesParents(ps: seq<Proc>, pid: int, status: int)
    requires MayExit(ps, pid) && IsUser(ps[pid].parent)
    ensures ParentsLive(Exit(ps, pid, status).procs, Exit(ps, pid, status).actions)
  {
    var qs, actions := Exit(ps, pid, status).procs, Exit(ps, pid, status).actions;
    ExitTable(ps, pid, status);
    forall i | FIRST_FORKED <= i < N ensures ParentLives(qs, actions, i) {
      assert IsLeft(ps, pid, status, qs, i) && ParentLives(ps, [], i);
      ExitBuries(ps, pid, status, i);
      if !qs[i].flags.freeSlot && !Buried(actions, i) {
        ExitLeavesAParent(ps, pid, status, i);
      }
    }
  }

  lemma ExitLeavesAParent(ps: seq<Proc>, pid: int, status: int, i: int)
    requires MayExit(ps, pid) && IsUser(ps[pid].parent) && IsForked(i) && ParentLives(ps, [], i)
    requires !ps[i].flags.freeSlot
    ensures var qs, actions := Exit(ps, pid, status).procs, Exit(ps, pid, status).actions;
            |qs| == N && qs[i].parent != i && IsUser(qs[i].parent) && Lives(qs, actions, qs[i].parent)
  {
    var qs := Exit(ps, pid, status).procs;
    ExitTable(ps, pid, status);
    assert IsLeft(ps, pid, status, qs, i);
    var q := qs[i].parent;
    assert IsLeft(ps, pid, status, qs, q);
    ExitBuries(ps, pid, status, q);
    InheritedFacts(ps, pid, status);
  }

  lemma ExitLeavesNoVainWait(ps: seq<Proc>, pid: int, status: int)
    requires MayExit(ps, pid) && IsUser(ps[pid].parent)
    ensures NoVainWait(Exit(ps, pid, status).procs)
  {
    var qs := Exit(ps, pid, status).procs;
    ExitTable(ps, pid, status);
    forall j | 0 <= j < N ensures NotAwaited(qs, j) {
      assert IsLeft(ps, pid, status, qs, j);
      if qs[j].flags.hanging && 0 <= qs[j].parent < N {
        assert IsLeft(ps, pid, status, qs, qs[j].parent);
        if j == pid {
          ParentFacts(ps, pid);
        } else if ps[j].parent == pid {
          AdoptedIsNotAwaited(ps, pid, status, j);
        } else {
          assert NotAwaited(ps, j);
        }
      }
    }
  }

  /** INIT does not wait any more once it has adopted a HANGING child. */
  lemma AdoptedIsNotAwaited(ps: seq<Proc>, pid: int, status: int, j: int)
    requires MayExit(ps, pid) && IsUser(ps[pid].parent) && IsPid(j) && ps[j].flags.hanging && ps[j].parent == pid
    ensures var qs := Exit(ps, pid, status).procs; |qs| == N && !qs[INIT].flags.waiting
  {
    ExitTable(ps, pid, status);
    assert IsLeft(ps, pid, status, Exit(ps, pid, status).procs, INIT);
    InheritedFacts(ps, pid, status);
    if InheritedCorpse(Orphaned(ps, pid, status), pid) == N {
      NothingInherited(ps, pid, status, j);
    }
  }

  lemma ExitLeavesSlots(ps: seq<Proc>, pid: int, status: int)
    requires MayExit(ps, pid) && IsUser(ps[pid].parent)
    ensures OnlyForkedDie(Exit(ps, pid, status).procs) && SegmentsOk(Exit(ps, pid, status).procs)
  {
    var qs := Exit(ps, pid, status).procs;
    ExitTable(ps, pid, status);
    forall i | 0 <= i < N
      ensures qs[i].ldtC == ps[i].ldtC && qs[i].ldtRW == ps[i].ldtRW && qs[i].flags.freeSlot == ps[i].flags.freeSlot
      ensures qs[i].flags.hanging ==> ps[i].flags.hanging || i == pid
    {
      assert IsLeft(ps, pid, status, qs, i);
    }
  }

  /** xs is nothing, or the cleanup of one process: a message to its parent, then its slot. */
  predicate IsCleanup(ps: seq<Proc>, phase: seq<Phase>, xs: seq<Action>)
    requires |ps| == |phase| == N
  {
    xs == [] ||
    (|xs| == 2 && xs[0].Reap? && xs[1] == Release(xs[0].child) && xs[0].to != xs[0].child
     && ActionOk(ps, phase, xs[0]) && ActionOk(ps, phase, xs[1]))
  }

  lemma TwoCleanups(ps: seq<Proc>, phase: seq<Phase>, xs: seq<Action>, ys: seq<Action>)
    requires |ps| == |phase| == N && IsCleanup(ps, phase, xs) && IsCleanup(ps, phase, ys)
    requires xs != [] && ys != [] ==>
               && xs[0].to != ys[0].to && xs[0].to != ys[0].child
               && xs[0].child != ys[0].to && xs[0].child != ys[0].child
    ensures ActionsOk(ps, phase, xs + ys)
  {
    var zs := xs + ys;
    forall k | 0 <= k < |zs| ensures ActionOk(ps, phase, zs[k]) && ThenReleased(zs, k) {
      assert k < |xs| ==> zs[k] == xs[k];
      assert k >= |xs| ==> zs[k] == ys[k - |xs|];
    }
  }

  lemma ExitGuards(w: World)
    requires Handling(w, EXIT)
    ensures MayExit(w.s.procs, w.hand.from) && IsUser(w.s.procs[w.hand.from].parent)
  {
    HandlingFacts(w);
    ParentFacts(w.s.procs, w.hand.from);
  }

  lemma ToldIsCleanup(w: World)
    requires Handling(w, EXIT) && IsPid(w.s.procs[w.hand.from].parent)
    ensures var ps := w.s.procs; var pid := w.hand.from; var left := Orphaned(ps, pid, w.hand.m.i1);
            ps[ps[pid].parent].flags.waiting ==>
              IsCleanup(Exit(ps, pid, w.hand.m.i1).procs, w.phase, Cleanup(left, pid))
  {
    var ps := w.s.procs;
    var pid := w.hand.from;
    var parent := ps[pid].parent;
    var qs := Exit(ps, pid, w.hand.m.i1).procs;
    HandlingFacts(w);
    ExitGuards(w);
    OrphanedFacts(ps, pid, w.hand.m.i1);
    ExitTable(ps, pid, w.hand.m.i1);
    assert IsLeft(ps, pid, w.hand.m.i1, qs, pid) && IsLeft(ps, pid, w.hand.m.i1, qs, parent);
    assert PhaseOk(ps[parent], w.phase[parent]);
  }

  lemma InheritedIsCleanup(w: World)
    requires Handling(w, EXIT) && IsPid(w.s.procs[w.hand.from].parent)
    ensures var ps := w.s.procs; var pid := w.hand.from; var left := Orphaned(ps, pid, w.hand.m.i1);
            var h := InheritedCorpse(left, pid);
            h < N ==> IsCleanup(Exit(ps, pid, w.hand.m.i1).procs, w.phase, Cleanup(AdoptAll(left, pid), h))
  {
    var ps := w.s.procs;
    var pid := w.hand.from;
    ExitGuards(w);
    InheritedFacts(ps, pid, w.hand.m.i1);
    var h := InheritedCorpse(Orphaned(ps, pid, w.hand.m.i1), pid);
    if h < N {
      CorpseFacts(w, h);
      assert PhaseOk(ps[INIT], w.phase[INIT]);
      InheritedCleanup(ps, w.phase, pid, w.hand.m.i1, h);
    }
  }

  lemma InheritedCleanup(ps: seq<Proc>, phase: seq<Phase>, pid: int, status: int, h: int)
    requires MayExit(ps, pid) && |phase| == N && IsPid(ps[pid].parent)
    requires h == InheritedCorpse(Orphaned(ps, pid, status), pid) < N
    requires IsForked(h) && h != pid && ps[h].flags.hanging && !ps[h].flags.waiting && ps[h].parent == pid
    requires Owed(phase[h], TASK_MM)
    requires Owed(phase[INIT], TASK_MM) && !ps[INIT].flags.hanging
    ensures IsCleanup(Exit(ps, pid, status).procs, phase, Cleanup(AdoptAll(Orphaned(ps, pid, status), pid), h))
  {
    var qs := Exit(ps, pid, status).procs;
    OrphanedFacts(ps, pid, status);
    InheritedFacts(ps, pid, status);
    ExitTable(ps, pid, status);
    assert IsLeft(ps, pid, status, qs, h) && IsLeft(ps, pid, status, qs, INIT);
  }

  lemma ExitActionsOk(w: World)
    requires Handling(w, EXIT)
    ensures IsPid(w.s.procs[w.hand.from].parent)
    ensures ActionsOk(Exit(w.s.procs, w.hand.from, w.hand.m.i1).procs, w.phase,
                      Exit(w.s.procs, w.hand.from, w.hand.m.i1).actions)
  {
    ExitGuards(w);
    ExitTable(w.s.procs, w.hand.from, w.hand.m.i1);
    CleanupsAreOk(w);
    ExitListOk(w.s.procs, w.phase, w.hand.from, w.hand.m.i1);
  }

  lemma CleanupsAreOk(w: World)
    requires Handling(w, EXIT) && IsPid(w.s.procs[w.hand.from].parent)
    ensures ExitCleansUp(w.s.procs, w.phase, w.hand.from, w.hand.m.i1)
  {
    ExitGuards(w);
    ExitTable(w.s.procs, w.hand.from, w.hand.m.i1);
    ToldIsCleanup(w);
    InheritedIsCleanup(w);
  }

  /** Both of the clean-ups that an exit may list are in order. */
  predicate ExitCleansUp(ps: seq<Proc>, phase: seq<Phase>, pid: int, status: int)
    requires |ps| == |phase| == N && IsPid(pid) && IsPid(ps[pid].parent)
  {
    var left, qs := Orphaned(ps, pid, status), Exit(ps, pid, status).procs;
    && |qs| == N
    && (ps[ps[pid].parent].flags.waiting ==> IsCleanup(qs, phase, Cleanup(left, pid)))
    && (InheritedCorpse(left, pid) < N ==>
        IsCleanup(qs, phase, Cleanup(AdoptAll(left, pid), InheritedCorpse(left, pid))))
  }

  lemma ExitListOk(ps: seq<Proc>, phase: seq<Phase>, pid: int, status: int)
    requires MayExit(ps, pid) && |phase| == N && IsPid(ps[pid].parent) && ExitCleansUp(ps, phase, pid, status)
    ensures ActionsOk(Exit(ps, pid, status).procs, phase, Exit(ps, pid, status).actions)
  {
    ExitList(ps, pid, status);
    OrphanedFacts(ps, pid, status);
    InheritedFacts(ps, pid, status);
    var left := Orphaned(ps, pid, status);
    var h := InheritedCorpse(left, pid);
    TwoCleanups(Exit(ps, pid, status).procs, phase,
                if ps[ps[pid].parent].flags.waiting then Cleanup(left, pid) else [],
                if h < N then Cleanup(AdoptAll(left, pid), h) else []);
  }

  lemma ExitTableAltered(w: World)
    requires Handling(w, EXIT) && IsPid(w.s.procs[w.hand.from].parent)
    ensures TableAltered(w.s.procs, Exit(w.s.procs, w.hand.from, w.hand.m.i1).procs)
  {
    var ps := w.s.procs;
    var pid := w.hand.from;
    var qs := Exit(ps, pid, w.hand.m.i1).procs;
    HandlingFacts(w);
    ExitGuards(w);
    ExitTable(ps, pid, w.hand.m.i1);
    assert TaskOk(ps[TASK_TTY], TASK_TTY, w.phase) && IsLeft(ps, pid, w.hand.m.i1, qs, TASK_TTY);
    forall i | 0 <= i < N ensures Altered(ps[i], qs[i]) {
      assert IsLeft(ps, pid, w.hand.m.i1, qs, i);
      assert i < NR_TASKS ==> TaskOk(ps[i], i, w.phase);
      assert i >= NR_TASKS ==> PhaseOk(ps[i], w.phase[i]);
    }
  }

  lemma ExitKeepsProtocol(w: World)
    requires Handling(w, EXIT) && IsPid(w.s.procs[w.hand.from].parent)
    ensures var qs := Exit(w.s.procs, w.hand.from, w.hand.m.i1).procs;
            Protocol(qs, w.phase) && Runnable(qs[TASK_MM])
  {
    var ps := w.s.procs;
    var pid := w.hand.from;
    var qs := Exit(ps, pid, w.hand.m.i1).procs;
    HandlingFacts(w);
    ExitGuards(w);
    ExitTableAltered(w);
    ExitTable(ps, pid, w.hand.m.i1);
    forall i | 0 <= i < NR_TASKS ensures qs[i].flags == ps[i].flags {
      assert TaskOk(ps[i], i, w.phase) && IsLeft(ps, pid, w.hand.m.i1, qs, i);
    }
    forall i | NR_TASKS <= i < N ensures WaitingOk(ps[i], qs[i], w.phase[i]) {
      assert PhaseOk(ps[i], w.phase[i]) && IsLeft(ps, pid, w.hand.m.i1, qs, i);
    }
    AlteringKeepsProtocol(ps, w.phase, qs);
  }

  lemma ExitKeepsWorld(w: World)
    requires Handling(w, EXIT)
    ensures HandleStep(w).Goes? && WorldOk(HandleStep(w).w)
  {
    var pid := w.hand.from;
    ExitGuards(w);
    HandlingFacts(w);
    var x := Exit(w.s.procs, pid, w.hand.m.i1);
    ExitActionsOk(w);
    ExitKeepsFamily(w.s.procs, pid, w.hand.m.i1);
    ExitTableAltered(w);
    ExitKeepsProtocol(w);
    var t := w.(hand := Empty, s := w.s.(procs := x.procs), actions := x.actions,
                notes := w.notes + [Died(pid, w.hand.m.i1)]);
    HandledCore(w, t);
    assert HandleStep(w) == Goes(t);
  }

  // ---------------------------------------------------------------- fork

  /** A slot that is free is a user slot to which nobody is sending. */
  lemma FreeSlotFacts(w: World, child: int)
    requires WorldOk(w) && IsPid(child) && w.s.procs[child].flags == FREE_SLOT
    ensures IsForked(child) && w.phase[child] == Idle && w.s.queues[child] == []
  {
    assert IsForked(child);
    assert PhaseOk(w.s.procs[child], w.phase[child]);
    NobodyQueuedAt(w.s, w.phase, child);
  }

  /** Filling a slot to which nobody is sending with an entry that is blocked receiving. */
  lemma BirthMissesNothing(ps: seq<Proc>, qs: seq<seq<int>>, child: int, p: Proc)
    requires QueuesOk(ps, qs) && NoMissedRendezvous(ps) && IsPid(child) && qs[child] == []
    requires !ps[child].flags.sending && !p.flags.sending
    ensures NoMissedRendezvous(ps[child := p])
  {
    var ps' := ps[child := p];
    forall x | 0 <= x < N ensures Unmet(ps', x) {
      assert Unmet(ps, x) && IsQueued(ps, qs, x);
    }
  }

  /** Copying an entry that is blocked receiving from the memory manager into a free slot. */
  lemma BirthKeepsCore(s: State, child: int, p: Proc, m: Memory)
    requires CoreInv(s) && IsPid(child) && child != TASK_TTY && s.procs[child].flags == FREE_SLOT
    requires s.queues[child] == []
    requires Legal(p) && p.flags == RECEIVING && p.recvFrom == TASK_MM && !p.hasInt
    ensures CoreInv(s.(procs := s.procs[child := p], mem := s.mem[child := m]))
  {
    var t := s.(procs := s.procs[child := p], mem := s.mem[child := m]);
    SameEdgesSameRank(s.procs, t.procs);
    SameSendersSameQueues(s.procs, t.procs, s.queues);
    BirthMissesNothing(s.procs, s.queues, child, p);
    NotSendingNotQueued(s.procs, s.queues, child);
    SameMailSameLog(s, t);
  }

  lemma BirthKeepsProtocol(ps: seq<Proc>, phase: seq<Phase>, child: int, p: Proc)
    requires Protocol(ps, phase) && IsForked(child) && phase[child] == Idle
    requires p.flags == RECEIVING && p.recvFrom == TASK_MM && !p.hasInt
    ensures Protocol(ps[child := p], phase[child := Blocked(TASK_MM)])
  {
    assert PhaseOk(ps[child], phase[child]);
    NobodyAwaitsAnswerOf(ps, phase, child);
    NobodyAnswers(ps, phase, child);
    ChangedProtocol(ps, phase, child, p, child, Blocked(TASK_MM));
  }

  lemma BirthKeepsFamily(ps: seq<Proc>, child: int, pid: int, p: Proc, actions: seq<Action>)
    requires FamilyOk(ps, []) && IsForked(child) && ps[child].flags == FREE_SLOT && pid != child
    requires IsUser(pid) && Lives(ps, [], pid)
    requires p.flags == RECEIVING && p.parent == pid && HasSlot(p, child)
    requires forall i :: !Buried(actions, i)
    ensures FamilyOk(ps[child := p], actions)
  {
    var qs := ps[child := p];
    forall i | FIRST_FORKED <= i < N ensures ParentLives(qs, actions, i) {
      assert ParentLives(ps, [], i);
    }
    forall j | 0 <= j < N ensures NotAwaited(qs, j) {
      assert NotAwaited(ps, j);
    }
  }

  lemma BirthActions(ps: seq<Proc>, phase: seq<Phase>, child: int, pid: int, p: Proc, actions: seq<Action>)
    requires |ps| == |phase| == N && IsForked(child) && IsUser(pid) && pid != child && Expectant(ps[pid], phase[pid])
    requires p.flags == RECEIVING && |actions| == 2
    requires actions[0].Answer? && actions[0].to == child && actions[1].Answer? && actions[1].to == pid
    ensures ActionsOk(ps[child := p], phase[child := Blocked(TASK_MM)], actions) && forall i :: !Buried(actions, i)
  {
    var qs, phase' := ps[child := p], phase[child := Blocked(TASK_MM)];
    assert ActionOk(qs, phase', actions[0]) && ActionOk(qs, phase', actions[1]);
  }

  /** Forking can only fail for want of memory. */
  predicate MemoryShort(w: World)
    requires ShapedWorld(w)
  {
    w.hand.Request? && w.hand.m.kind == FORK && IsPid(w.hand.from) &&
    var child := FirstFree(w.s.procs, 0);
    FIRST_FORKED <= child < N
    && 0xA0_0000 + (child - 9) * 0x20_0000 + SizeOf(w.s.procs[w.hand.from].ldtC) >= w.memorySize
  }

  lemma ParentHasOneSegment(w: World, pid: int)
    requires WorldOk(w) && IsUser(pid) && !w.s.procs[pid].flags.freeSlot
    ensures OneSegment(w.s.procs[pid]) && SizeOf(w.s.procs[pid].ldtC) <= PROC_IMAGE_SIZE_DEFAULT
  {
    if pid >= FIRST_FORKED {
      SlotDecodes(w.s.procs[pid], pid);
    }
  }

  lemma ForkOutcomeFacts(w: World)
    requires Handling(w, FORK)
    ensures NativesStay(w.s.procs)
    ensures var o := Fork(w.s.procs, w.s.mem, w.hand.from, w.memorySize);
            && !o.BadSegments?
            && (o.NoMemory? <==> MemoryShort(w))
            && (o.Forked? ==>
                  && IsForked(o.child) && w.s.procs[o.child].flags == FREE_SLOT
                  && o.procs == w.s.procs[o.child := Child(w.s.procs[w.hand.from], w.hand.from, SlotBase(o.child))]
                  && HasSlot(o.procs[o.child], o.child)
                  && |o.mem| == N && o.mem == w.s.mem[o.child := o.mem[o.child]])
  {
    HandlingFacts(w);
    ParentHasOneSegment(w, w.hand.from);
    var child := FirstFree(w.s.procs, 0);
    if child < N {
      FreeSlotFacts(w, child);
    }
  }

  /** The child's entry, as the parent's copy: blocked in its receive from the memory manager. */
  lemma NewbornFacts(w: World)
    requires Handling(w, FORK) && FirstFree(w.s.procs, 0) < N && w.s.procs[w.hand.from].flags.receiving
    ensures var p := w.s.procs[w.hand.from];
            Legal(p) && p.flags == RECEIVING && p.recvFrom == TASK_MM && !p.hasInt
              && w.hand.from != FirstFree(w.s.procs, 0)
    ensures Expectant(w.s.procs[w.hand.from], w.phase[w.hand.from])
  {
    var pid := w.hand.from;
    HandlingFacts(w);
    assert Legal(w.s.procs[pid]);
  }

  lemma ForkedCore(w: World, child: int, p: Proc, m: Memory, actions: seq<Action>, t: World)
    requires Handling(w, FORK) && IsForked(child) && w.s.procs[child].flags == FREE_SLOT
    requires child == FirstFree(w.s.procs, 0)
    requires Legal(p) && p.flags == RECEIVING && p.recvFrom == TASK_MM && !p.hasInt && p.parent == w.hand.from
    requires HasSlot(p, child)
    requires w.hand.from != child && Expectant(w.s.procs[w.hand.from], w.phase[w.hand.from])
    requires |actions| == 2 && actions[0].Answer? && actions[0].to == child && actions[1].Answer?
    requires actions[1].to == w.hand.from
    requires t == w.(s := w.s.(procs := w.s.procs[child := p], mem := w.s.mem[child := m]),
                     phase := w.phase[child := Blocked(TASK_MM)],
                     hand := Empty, actions := actions, notes := t.notes)
    ensures WorldOk(t)
  {
    var pid := w.hand.from;
    FreeSlotFacts(w, child);
    HandlingFacts(w);
    BirthKeepsCore(w.s, child, p, m);
    BirthKeepsProtocol(w.s.procs, w.phase, child, p);
    BirthActions(w.s.procs, w.phase, child, pid, p, actions);
    BirthKeepsFamily(w.s.procs, child, pid, p, actions);
    SameLettersSameRequests(w.s, w.phase, t.s, t.phase);
  }

  lemma ForkRefusedKeepsWorld(w: World, answer: Message)
    requires Handling(w, FORK)
    ensures WorldOk(w.(hand := Empty, actions := [Answer(w.hand.from, answer)]))
  {
    HandlingFacts(w);
    var t := w.(hand := Empty, actions := [Answer(w.hand.from, answer)]);
    NothingAltered(w.s.procs);
    AnswersBuryNobody(w.s.procs, w.actions, t.actions);
    HandledCore(w, t);
  }

  lemma ForkKeepsWorld(w: World)
    requires Handling(w, FORK)
    ensures NativesStay(w.s.procs)
    ensures HandleStep(w).Halts? <==> MemoryShort(w)
    ensures HandleStep(w).Goes? ==> WorldOk(HandleStep(w).w)
  {
    ForkOutcomeFacts(w);
    var pid := w.hand.from;
    var o := Fork(w.s.procs, w.s.mem, pid, w.memorySize);
    var actions := ForkActions(o, pid, w.hand.m);
    if o.Forked? {
      NewbornFacts(w);
      var t := w.(s := w.s.(procs := o.procs, mem := o.mem), phase := w.phase[o.child := Blocked(TASK_MM)],
                  hand := Empty, actions := actions, notes := w.notes + [Born(o.child, pid)]);
      ForkedCore(w, o.child, o.procs[o.child], o.mem[o.child], actions, t);
      assert HandleStep(w) == Goes(t);
    } else if o.NoSlot? {
      ForkRefusedKeepsWorld(w, w.hand.m.(kind := SYSCALL_RET, i1 := -1));
      assert HandleStep(w) == Goes(w.(hand := Empty, actions := actions));
    }
  }

  // ---------------------------------------------------------------- performing

  lemma RestOfActions(ps: seq<Proc>, phase: seq<Phase>, actions: seq<Action>)
    requires ActionsOk(ps, phase, actions) && actions != []
    ensures ActionsOk(ps, phase, actions[1..])
    ensures forall k :: 0 <= k < |actions[1..]| ==> Subject(actions[1..][k]) != Subject(actions[0])
  {
    var rest := actions[1..];
    forall k | 0 <= k < |rest|
      ensures ActionOk(ps, phase, rest[k]) && ThenReleased(rest, k) && Subject(rest[k]) != Subject(actions[0])
    {
      assert ActionOk(ps, phase, actions[k + 1]) && ThenReleased(actions, k + 1) && rest[k] == actions[k + 1];
      assert Subject(actions[0]) != Subject(actions[k + 1]);
    }
    forall j, k | 0 <= j < k < |rest| ensures Subject(rest[j]) != Subject(rest[k]) {
      assert Subject(actions[j + 1]) != Subject(actions[k + 1]);
    }
  }

  lemma RestBuries(actions: seq<Action>, i: int)
    requires actions != [] && !actions[0].Release?
    ensures Buried(actions[1..], i) <==> Buried(actions, i)
  {
    assert actions == [actions[0]] + actions[1..];
  }

  lemma PerformKeepsRest(w: World)
    requires WorldOk(w) && w.actions != [] && !w.actions[0].Release?
    ensures WorldOk(w.(actions := w.actions[1..]))
  {
    RestOfActions(w.s.procs, w.phase, w.actions);
    forall i ensures Buried(w.actions[1..], i) <==> Buried(w.actions, i) {
      RestBuries(w.actions, i);
    }
    AnswersBuryNobody(w.s.procs, w.actions, w.actions[1..]);
  }

  lemma StoreKeepsWorld(w: World, a: int, m: Message)
    requires WorldOk(w)
    ensures WorldOk(w.(s := Store(w.s, w.s.ready, a, m)))
  {
    StoreKeepsInv(w.s, a, m);
    var t := w.(s := Store(w.s, w.s.ready, a, m));
    ReadyIsNotSending(w);
    SameLettersSameRequests(w.s, w.phase, t.s, w.phase);
  }

  lemma ReadyIsNotSending(w: World)
    requires WorldOk(w)
    ensures IsUser(w.s.ready) ==> !w.phase[w.s.ready].Sending?
  {
    assert IsUser(w.s.ready) ==> PhaseOk(w.s.procs[w.s.ready], w.phase[w.s.ready]);
  }

  lemma NotesDoNotMatter(w: World, notes: seq<Note>)
    requires WorldOk(w)
    ensures WorldOk(w.(notes := notes))
  {
  }

  /** The world in which the manager sends the message x, with it in its memory and off its list. */
  ghost function AboutToSend(w: World, a: int): World
    requires ShapedWorld(w) && w.actions != [] && !w.actions[0].Release?
  {
    var x := w.actions[0];
    w.(actions := w.actions[1..], s := Store(w.s, w.s.ready, a, x.m),
       notes := if x.Reap? then w.notes + [Reaped(x.child, x.to, x.m.i1)] else w.notes)
  }

  lemma DueIsAnswerable(w: World, a: int)
    requires WorldOk(w) && Allowed(w, Perform(a)) && !w.actions[0].Release?
    ensures Answerable(AboutToSend(w, a), w.actions[0].to) && IsUser(w.actions[0].to)
  {
    var x := w.actions[0];
    assert ActionOk(w.s.procs, w.phase, x);
    PerformKeepsRest(w);
    RestOfActions(w.s.procs, w.phase, w.actions);
    var rest := w.(actions := w.actions[1..]);
    StoreKeepsWorld(rest, a, x.m);
    NotesDoNotMatter(rest.(s := Store(w.s, w.s.ready, a, x.m)), AboutToSend(w, a).notes);
    ManagerIsIdle(w);
  }

  lemma ManagerIsIdle(w: World)
    requires WorldOk(w)
    ensures w.phase[TASK_MM] == Idle
  {
    assert TaskOk(w.s.procs[TASK_MM], TASK_MM, w.phase);
  }

  lemma PerformAnswerKeepsWorld(w: World, a: int)
    requires WorldOk(w) && Allowed(w, Perform(a)) && !w.actions[0].Release?
    ensures PerformStep(w, a).Goes? && WorldOk(PerformStep(w, a).w)
  {
    DueIsAnswerable(w, a);
    AnswerKeepsWorld(AboutToSend(w, a), w.actions[0].to, a);
    assert PerformStep(w, a) == AnswerStep(AboutToSend(w, a), w.actions[0].to, a);
  }

  lemma VacatedMissesNothing(ps: seq<Proc>, child: int)
    requires NoMissedRendezvous(ps) && 0 <= child < |ps| && !ps[child].flags.sending
    ensures NoMissedRendezvous(ps[child := Vacated(ps[child])])
  {
    var qs := ps[child := Vacated(ps[child])];
    forall x | 0 <= x < |qs| ensures Unmet(qs, x) {
      assert Unmet(ps, x);
    }
  }

  lemma ReleaseKeepsCore(s: State, child: int)
    requires CoreInv(s) && IsPid(child) && child != TASK_TTY && !s.procs[child].flags.sending
    ensures CoreInv(s.(procs := s.procs[child := Vacated(s.procs[child])]))
  {
    var t := s.(procs := s.procs[child := Vacated(s.procs[child])]);
    SameEdgesSameRank(s.procs, t.procs);
    SameSendersSameQueues(s.procs, t.procs, s.queues);
    VacatedMissesNothing(s.procs, child);
    SameMailSameLog(s, t);
  }

  lemma ReleaseKeepsProtocol(ps: seq<Proc>, phase: seq<Phase>, child: int)
    requires Protocol(ps, phase) && IsForked(child) && Owed(phase[child], TASK_MM)
    ensures Protocol(ps[child := Vacated(ps[child])], phase[child := Idle])
  {
    assert PhaseOk(ps[child], phase[child]);
    NobodyAwaitsAnswerOf(ps, phase, child);
    NobodyAnswers(ps, phase, child);
    ChangedProtocol(ps, phase, child, Vacated(ps[child]), child, Idle);
  }

  lemma ReleaseKeepsDuties(ps: seq<Proc>, phase: seq<Phase>, actions: seq<Action>, child: int)
    requires ActionsOk(ps, phase, actions) && actions != [] && actions[0] == Release(child)
    ensures IsForked(child) && Owed(phase[child], TASK_MM)
    ensures ActionsOk(ps[child := Vacated(ps[child])], phase[child := Idle], actions[1..])
  {
    var rest := actions[1..];
    assert ActionOk(ps, phase, actions[0]);
    var qs, phase' := ps[child := Vacated(ps[child])], phase[child := Idle];
    RestOfActions(ps, phase, actions);
    forall k | 0 <= k < |rest| ensures ActionOk(qs, phase', rest[k]) {
      assert ActionOk(ps, phase, rest[k]) && Subject(rest[k]) != child;
      if rest[k].Reap? {
        assert ThenReleased(rest, k) && Subject(rest[k + 1]) == rest[k].child;
      }
    }
  }

  /** The slot of a buried process can be freed: no live process has it for a parent. */
  lemma ReleaseKeepsFamily(ps: seq<Proc>, actions: seq<Action>, child: int)
    requires FamilyOk(ps, actions) && actions != [] && actions[0] == Release(child) && IsForked(child)
    ensures FamilyOk(ps[child := Vacated(ps[child])], actions[1..])
  {
    var qs := ps[child := Vacated(ps[child])];
    assert actions == [actions[0]] + actions[1..];
    forall i | FIRST_FORKED <= i < N ensures ParentLives(qs, actions[1..], i) {
      assert ParentLives(ps, actions, i);
    }
    forall j | 0 <= j < N ensures NotAwaited(qs, j) {
      assert NotAwaited(ps, j);
    }
  }

  lemma ReleasedCore(w: World, child: int, t: World)
    requires WorldOk(w) && Allowed(w, Perform(1)) && w.actions[0] == Release(child) && IsForked(child)
    requires t == w.(actions := w.actions[1..], s := w.s.(procs := w.s.procs[child := Vacated(w.s.procs[child])]),
                     phase := w.phase[child := Idle], notes := t.notes)
    ensures WorldOk(t)
  {
    ReleaseKeepsDuties(w.s.procs, w.phase, w.actions, child);
    assert PhaseOk(w.s.procs[child], w.phase[child]);
    ReleaseKeepsCore(w.s, child);
    ReleaseKeepsProtocol(w.s.procs, w.phase, child);
    ReleaseKeepsFamily(w.s.procs, w.actions, child);
    SameLettersSameRequests(w.s, w.phase, t.s, t.phase);
  }

  lemma PerformReleaseKeepsWorld(w: World, a: int)
    requires WorldOk(w) && Allowed(w, Perform(a)) && w.actions[0].Release?
    ensures PerformStep(w, a).Goes? && WorldOk(PerformStep(w, a).w)
  {
    var child := w.actions[0].child;
    assert ActionOk(w.s.procs, w.phase, w.actions[0]);
    var t := w.(actions := w.actions[1..], s := w.s.(procs := w.s.procs[child := Vacated(w.s.procs[child])]),
                phase := w.phase[child := Idle], notes := w.notes + [Freed(child)]);
    ReleasedCore(w, child, t);
    assert PerformStep(w, a) == Goes(t);
  }
}
