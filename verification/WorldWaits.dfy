/**
 What wait() counts as a child: p_parent is the parent that the history records last, and outlives
 the child. So whoever has had a child and has none left is suspended, and, but for INIT, for ever.
 */
module WorldWaits {
  import opened ProcTable
  import opened IpcInv
  import opened Family
  import opened FamilyFacts
  import opened World
  import opened WorldInv
  import opened WorldManager
  import opened WorldRuns
  import opened WorldNotes

  // ---------------------------------------------------------------- the parent in the history

  function ParentAfter(g: int, x: Note, p: int): int {
    match x
    case Born(child, parent) => if child == p then parent else g
    case Died(pid, _) => if g == pid then INIT else g
    case _ => g
  }

  /**
   The parent of slot p's last occupant: the one it was born to, or INIT once that one has died. At boot there is
   none.
   */
  function ParentOf(notes: seq<Note>, p: int): int {
    if notes == [] then 0 else ParentAfter(ParentOf(notes[..|notes| - 1], p), notes[|notes| - 1], p)
  }

  lemma ParentNoted(notes: seq<Note>, x: Note, p: int)
    ensures ParentOf(notes + [x], p) == ParentAfter(ParentOf(notes, p), x, p)
  {
    assert (notes + [x])[..|notes|] == notes;
  }

  /** p_parent is what the history says, whether the slot is in use or not; the native processes have none. */
  ghost predicate ParentsNoted(w: World) {
    && ShapedWorld(w)
    && (forall p {:trigger ParentOf(w.notes, p)} :: IsForked(p) ==> w.s.procs[p].parent == ParentOf(w.notes, p))
    && (forall i :: 0 <= i < N && !IsForked(i) ==> w.s.procs[i].parent == NO_TASK)
  }

  predicate SameParents(ps: seq<Proc>, qs: seq<Proc>) {
    |ps| == |qs| && forall i :: 0 <= i < |ps| ==> qs[i].parent == ps[i].parent
  }

  lemma NothingFamilial(w: World, t: World)
    requires ParentsNoted(w) && ShapedWorld(t) && SameParents(w.s.procs, t.s.procs) && t.notes == w.notes
    ensures ParentsNoted(t)
  {
  }

  /** A note that says for each entry what has become of its p_parent. */
  lemma ParentsAfter(w: World, x: Note, t: World)
    requires ParentsNoted(w) && ShapedWorld(t) && t.notes == w.notes + [x]
    requires forall i :: 0 <= i < N ==> t.s.procs[i].parent == ParentAfter(w.s.procs[i].parent, x, i)
    requires forall i :: 0 <= i < N && !IsForked(i) ==> t.s.procs[i].parent == w.s.procs[i].parent
    ensures ParentsNoted(t)
  {
    forall p ensures ParentOf(t.notes, p) == ParentAfter(ParentOf(w.notes, p), x, p) {
      ParentNoted(w.notes, x, p);
    }
  }

  lemma NotedInPassing(w: World, x: Note, t: World)
    requires ParentsNoted(w) && ShapedWorld(t) && SameParents(w.s.procs, t.s.procs) && t.notes == w.notes + [x]
    requires !x.Born? && !x.Died?
    ensures ParentsNoted(t)
  {
    ParentsAfter(w, x, t);
  }

  // ---------------------------------------------------------------- moves that leave the family alone

  predicate Familial(w: World, e: Move) {
    e.Handle? || (e.Perform? && w.actions != [] && w.actions[0].Release?)
  }

  lemma AnsweringIsKin(w: World, a: int, t: World)
    requires WorldOk(w) && Allowed(w, Perform(a)) && !w.actions[0].Release? && PerformStep(w, a) == Goes(t)
    ensures SameKin(w.s.procs, t.s.procs)
    ensures t.notes == AboutToSend(w, a).notes + [Answered(TASK_MM, w.actions[0].to, Outgoing(AboutToSend(w, a).s, a))]
  {
    DueIsAnswerable(w, a);
    SendIsKin(AboutToSend(w, a).s, w.actions[0].to, a);
  }

  /** Only the memory manager's handling of a request and its release of a slot touch the family. */
  lemma MostMovesAreKin(w: World, e: Move, t: World)
    requires WorldOk(w) && IsMove(w, e, t) && !Familial(w, e)
    ensures SameKin(w.s.procs, t.s.procs)
  {
    if e.Call? || e.Reply? || e.AwaitAnswer? || e.Accept? {
      TalkingIsKin(w, e, t);
    } else if e.Perform? {
      AnsweringIsKin(w, e.a, t);
    } else {
      PassingIsKin(w, e, t);
    }
  }

  lemma TalkingIsKin(w: World, e: Move, t: World)
    requires ShapedWorld(w) && IsMove(w, e, t) && (e.Call? || e.Reply? || e.AwaitAnswer? || e.Accept?)
    ensures SameKin(w.s.procs, t.s.procs)
  {
    match e
    case Call(v, a) => SendIsKin(w.s, v, a);
    case Reply(d, a) => SendIsKin(w.s, d, a);
    case AwaitAnswer(a) => ReceiveIsKin(w.s, w.phase[w.s.ready].server, a);
    case Accept(src, a) => ReceiveIsKin(w.s, src, a);
  }

  lemma KinHaveTheSameParents(ps: seq<Proc>, qs: seq<Proc>)
    requires SameKin(ps, qs)
    ensures SameParents(ps, qs)
  {
    assert forall i :: 0 <= i < |ps| ==> Kin(ps[i], qs[i]);
  }

  /**
   Of the freed slot's entry only the flags change, so that it goes on naming its parent, and so do all the others.
   */
  lemma ReleaseKeepsParent(w: World, a: int, t: World)
    requires WorldOk(w) && Allowed(w, Perform(a)) && w.actions[0].Release? && PerformStep(w, a) == Goes(t)
    ensures var child := w.actions[0].child;
            && IsForked(child) && t.notes == w.notes + [Freed(child)]
            && t.s == w.s.(procs := w.s.procs[child := w.s.procs[child].(flags := FREE_SLOT)])
            && |t.s.procs| == N && t.s.procs[child].flags.freeSlot && SameParents(w.s.procs, t.s.procs)
  {
    assert ActionOk(w.s.procs, w.phase, w.actions[0]);
  }

  // ---------------------------------------------------------------- births and deaths

  lemma BirthIsNoted(w: World, t: World)
    requires Handling(w, FORK) && ParentsNoted(w) && Callable(w, Handle) && HandleStep(w) == Goes(t) && ShapedWorld(t)
    ensures ParentsNoted(t)
  {
    ForkOutcomeFacts(w);
    var o := Fork(w.s.procs, w.s.mem, w.hand.from, w.memorySize);
    if o.Forked? {
      ParentsAfter(w, Born(o.child, w.hand.from), t);
    } else {
      NothingFamilial(w, t);
    }
  }

  /** The children of the dead process are INIT's, and nobody else's parent changes. */
  lemma ExitedParents(ps: seq<Proc>, pid: int, status: int)
    requires MayExit(ps, pid)
    ensures IsUser(ps[pid].parent)
    ensures var qs := Exit(ps, pid, status).procs;
            |qs| == N && forall i :: 0 <= i < N ==> qs[i].parent == if ps[i].parent == pid then INIT else ps[i].parent
  {
    ExitTable(ps, pid, status);
    forall i | 0 <= i < N
      ensures Exit(ps, pid, status).procs[i].parent == if ps[i].parent == pid then INIT else ps[i].parent
    {
      assert IsLeft(ps, pid, status, Exit(ps, pid, status).procs, i);
    }
  }

  lemma DeathStep(w: World, t: World)
    requires Handling(w, EXIT) && Callable(w, Handle) && HandleStep(w) == Goes(t)
    ensures t.notes == w.notes + [Died(w.hand.from, w.hand.m.i1)] && IsForked(w.hand.from) && |t.s.procs| == N
    ensures forall i :: 0 <= i < N ==>
              t.s.procs[i].parent == if w.s.procs[i].parent == w.hand.from then INIT else w.s.procs[i].parent
  {
    ExitGuards(w);
    ExitedParents(w.s.procs, w.hand.from, w.hand.m.i1);
  }

  lemma DeathIsNoted(w: World, t: World)
    requires Handling(w, EXIT) && ParentsNoted(w) && Callable(w, Handle) && HandleStep(w) == Goes(t) && ShapedWorld(t)
    ensures ParentsNoted(t)
  {
    DeathStep(w, t);
    ParentsAfter(w, Died(w.hand.from, w.hand.m.i1), t);
  }

  lemma HandlingIsNoted(w: World, t: World)
    requires WorldOk(w) && ParentsNoted(w) && IsMove(w, Handle, t) && ShapedWorld(t)
    ensures ParentsNoted(t)
  {
    HandlingFacts(w);
    if w.hand.m.kind == FORK {
      BirthIsNoted(w, t);
    } else if w.hand.m.kind == EXIT {
      DeathIsNoted(w, t);
    } else {
      NothingFamilial(w, t);
    }
  }

  lemma PassingIsNoted(w: World, e: Move, t: World)
    requires WorldOk(w) && ParentsNoted(w) && IsMove(w, e, t) && ShapedWorld(t) && !Familial(w, e)
    ensures ParentsNoted(t)
  {
    MostMovesAreKin(w, e, t);
    KinHaveTheSameParents(w.s.procs, t.s.procs);
    if e.Perform? {
      AnsweringIsNoted(w, e.a, t);
    } else {
      TalkingIsNoted(w, e, t);
    }
  }

  lemma TalkingIsNoted(w: World, e: Move, t: World)
    requires ParentsNoted(w) && IsMove(w, e, t) && ShapedWorld(t) && !e.Handle? && !e.Perform?
    requires SameParents(w.s.procs, t.s.procs)
    ensures ParentsNoted(t)
  {
    match e
    case Call(v, a) => NotedInPassing(w, Called(w.s.ready, v, Outgoing(w.s, a)), t);
    case Reply(d, a) => NotedInPassing(w, Answered(w.s.ready, d, Outgoing(w.s, a)), t);
    case _ => NothingFamilial(w, t);
  }

  lemma AnsweringIsNoted(w: World, a: int, t: World)
    requires WorldOk(w) && ParentsNoted(w) && IsMove(w, Perform(a), t) && ShapedWorld(t) && !w.actions[0].Release?
    requires SameParents(w.s.procs, t.s.procs)
    ensures ParentsNoted(t)
  {
    AnsweringIsKin(w, a, t);
    var x := w.actions[0];
    var mid := AboutToSend(w, a);
    if x.Reap? {
      NotedInPassing(w, Reaped(x.child, x.to, x.m.i1), mid);
    }
    NotedInPassing(mid, Answered(TASK_MM, x.to, Outgoing(mid.s, a)), t);
  }

  lemma MoveIsNoted(w: World, e: Move, t: World)
    requires WorldOk(w) && ParentsNoted(w) && IsMove(w, e, t) && ShapedWorld(t)
    ensures ParentsNoted(t)
  {
    if e.Handle? {
      HandlingIsNoted(w, t);
    } else if Familial(w, e) {
      ReleaseKeepsParent(w, e.a, t);
      NotedInPassing(w, Freed(w.actions[0].child), t);
    } else {
      PassingIsNoted(w, e, t);
    }
  }

  lemma BootParents(mem: seq<Memory>, memorySize: int)
    requires |mem| == N
    ensures ParentsNoted(BootWorld(mem, memorySize))
  {
  }

  lemma ParentsNotedOneMoveOn(run: seq<World>, es: seq<Move>, i: nat)
    requires IsWorldRun(run, es) && WorldOk(run[0]) && 0 < i < |run| && ParentsNoted(run[i - 1])
    ensures ParentsNoted(run[i])
  {
    MoveInRun(run, es, i);
    MoveIsNoted(run[i - 1], es[i - 1], run[i]);
  }

  /** In every run from boot, p_parent is the parent that the history records last, free slots included. */
  lemma {:induction false} ParentsAreTheHistorys(run: seq<World>, es: seq<Move>, mem: seq<Memory>, memorySize: int,
                                                 i: nat)
    requires |mem| == N && IsWorldRun(run, es) && run[0] == BootWorld(mem, memorySize) && i < |run|
    ensures ParentsNoted(run[i])
  {
    BootIsOk(mem, memorySize);
    if i == 0 {
      BootParents(mem, memorySize);
    } else {
      ParentsAreTheHistorys(run, es, mem, memorySize, i - 1);
      ParentsNotedOneMoveOn(run, es, i);
    }
  }

  // ---------------------------------------------------------------- a parent without children

  /** The latest birth in slot child was to pid, and pid has not died since. */
  ghost predicate LatestBirth(notes: seq<Note>, k: int, child: int, pid: int) {
    && 0 <= k < |notes| && notes[k] == Born(child, pid)
    && forall j :: k < j < |notes| ==>
         !(notes[j].Born? && notes[j].child == child) && !(notes[j].Died? && notes[j].pid == pid)
  }

  lemma {:induction false} LatestBirthNamesTheParent(notes: seq<Note>, k: int, child: int, pid: int)
    requires LatestBirth(notes, k, child, pid)
    ensures ParentOf(notes, child) == pid
  {
    var n := |notes| - 1;
    if k < n {
      LatestBirthNamesTheParent(notes[..n], k, child, pid);
    }
  }

  ghost predicate HasHadChild(notes: seq<Note>, pid: int) {
    exists p :: IsForked(p) && ParentOf(notes, p) == pid
  }

  lemma NamedInHistory(w: World, pid: int)
    requires ParentsNoted(w) && IsUser(pid)
    ensures SomeSlotNames(w.s.procs, pid) <==> HasHadChild(w.notes, pid)
  {
    if HasHadChild(w.notes, pid) {
      var p :| IsForked(p) && ParentOf(w.notes, p) == pid;
      assert w.s.procs[p].parent == pid;
    }
    if i :| 0 <= i < N && w.s.procs[i].parent == pid {
      assert IsForked(i) && ParentOf(w.notes, i) == pid;
    }
  }

  lemma NoChildNoCorpse(w: World, pid: int)
    requires WorldOk(w) && IsUser(pid) && !HasChild(w.s.procs, pid)
    ensures FirstHanging(w.s.procs, pid, 0) == N
  {
    var h := FirstHanging(w.s.procs, pid, 0);
    if h < N {
      CorpseFacts(w, h);
    }
  }

  /**
   In every state of every run from boot, a process without a child is refused by wait() only if no slot's
   last occupant was its child; otherwise, as when its children have all been reaped, it is suspended.
   */
  lemma WaitWithoutChildren(run: seq<World>, es: seq<Move>, mem: seq<Memory>, memorySize: int, i: nat, pid: int)
    requires |mem| == N && IsWorldRun(run, es) && run[0] == BootWorld(mem, memorySize) && i < |run|
    requires IsUser(pid) && !HasChild(run[i].s.procs, pid)
    ensures |run[i].s.procs| == N
    ensures WaitSuspends(run[i].s.procs, pid) <==> HasHadChild(run[i].notes, pid)
    ensures WaitRefuses(run[i].s.procs, pid) <==> !HasHadChild(run[i].notes, pid)
  {
    BootIsOk(mem, memorySize);
    RunStaysOk(run, es, i);
    ParentsAreTheHistorys(run, es, mem, memorySize, i);
    NamedInHistory(run[i], pid);
    NoChildNoCorpse(run[i], pid);
  }

  /** In particular, whoever has given birth, and has no child left, is suspended. */
  lemma WaitAfterTheLastReaping(run: seq<World>, es: seq<Move>, mem: seq<Memory>, memorySize: int, i: nat, pid: int,
                                k: int, child: int)
    requires |mem| == N && IsWorldRun(run, es) && run[0] == BootWorld(mem, memorySize) && i < |run|
    requires IsUser(pid) && !HasChild(run[i].s.procs, pid) && IsForked(child)
    requires LatestBirth(run[i].notes, k, child, pid)
    ensures |run[i].s.procs| == N && WaitSuspends(run[i].s.procs, pid)
  {
    LatestBirthNamesTheParent(run[i].notes, k, child, pid);
    WaitWithoutChildren(run, es, mem, memorySize, i, pid);
  }

  // ---------------------------------------------------------------- waiting for ever

  /** pid waits, and has nobody to wait for. */
  ghost predicate Stranded(ps: seq<Proc>, pid: int) {
    IsUser(pid) && |ps| == N && ps[pid].flags.waiting && !HasChild(ps, pid)
  }

  lemma BirthStrands(w: World, t: World, pid: int)
    requires Handling(w, FORK) && IsMove(w, Handle, t) && Stranded(w.s.procs, pid)
    ensures Stranded(t.s.procs, pid)
  {
    HandlingFacts(w);
    ForkOutcomeFacts(w);
    assert Legal(w.s.procs[pid]);
  }

  lemma HandlingStrands(w: World, t: World, pid: int)
    requires WorldOk(w) && IsMove(w, Handle, t) && Stranded(w.s.procs, pid) && pid != INIT
    ensures Stranded(t.s.procs, pid)
  {
    if w.hand.m.kind == FORK {
      BirthStrands(w, t, pid);
    } else if w.hand.m.kind == EXIT {
      DeathStrands(w, t, pid);
    } else {
      HandlingFacts(w);
      WaitStrands(w.s.procs, w.hand.from, pid);
    }
  }

  lemma WaitStrands(ps: seq<Proc>, x: int, pid: int)
    requires |ps| == N && IsPid(x) && Stranded(ps, pid)
    ensures Stranded(Wait(ps, x).procs, pid)
  {
  }

  lemma ReleaseStrands(w: World, a: int, t: World, pid: int)
    requires WorldOk(w) && Allowed(w, Perform(a)) && w.actions[0].Release? && PerformStep(w, a) == Goes(t)
    requires Stranded(w.s.procs, pid)
    ensures Stranded(t.s.procs, pid)
  {
    assert ActionOk(w.s.procs, w.phase, w.actions[0]);
  }

  lemma KinStrand(ps: seq<Proc>, qs: seq<Proc>, pid: int)
    requires SameKin(ps, qs) && Stranded(ps, pid)
    ensures Stranded(qs, pid)
  {
    assert forall i :: 0 <= i < N ==> Kin(ps[i], qs[i]);
  }

  lemma DeathStrands(w: World, t: World, pid: int)
    requires Handling(w, EXIT) && IsMove(w, Handle, t) && Stranded(w.s.procs, pid) && pid != INIT
    ensures Stranded(t.s.procs, pid)
  {
    var x, status := w.hand.from, w.hand.m.i1;
    HandlingFacts(w);
    ExitGuards(w);
    ExitTable(w.s.procs, x, status);
    assert w.s.procs[x].parent != pid;
    assert IsLeft(w.s.procs, x, status, t.s.procs, pid);
    forall i | 0 <= i < N && !t.s.procs[i].flags.freeSlot ensures t.s.procs[i].parent != pid {
      assert IsLeft(w.s.procs, x, status, t.s.procs, i);
    }
  }

  lemma MoveStrands(w: World, e: Move, t: World, pid: int)
    requires WorldOk(w) && IsMove(w, e, t) && Stranded(w.s.procs, pid) && pid != INIT
    ensures Stranded(t.s.procs, pid)
  {
    if e.Handle? {
      HandlingStrands(w, t, pid);
    } else if Familial(w, e) {
      ReleaseStrands(w, e.a, t, pid);
    } else {
      MostMovesAreKin(w, e, t);
      KinStrand(w.s.procs, t.s.procs, pid);
    }
  }

  lemma StrandedOneMoveOn(run: seq<World>, es: seq<Move>, j: nat, pid: int)
    requires IsWorldRun(run, es) && WorldOk(run[0]) && 0 < j < |run|
    requires Stranded(run[j - 1].s.procs, pid) && pid != INIT
    ensures Stranded(run[j].s.procs, pid)
  {
    MoveInRun(run, es, j);
    MoveStrands(run[j - 1], es[j - 1], run[j], pid);
  }

  /** A process other than INIT that waits without a child waits in all that follows. */
  lemma {:induction false} StrandedForEver(run: seq<World>, es: seq<Move>, i: nat, j: nat, pid: int)
    requires IsWorldRun(run, es) && WorldOk(run[0]) && i <= j < |run|
    requires Stranded(run[i].s.procs, pid) && pid != INIT
    ensures Stranded(run[j].s.procs, pid)
  {
    if i < j {
      StrandedForEver(run, es, i, j - 1, pid);
      StrandedOneMoveOn(run, es, j, pid);
    }
  }
}
