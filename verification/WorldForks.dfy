/**
 What fork copies, in every run: the whole of its caller's segment, if the caller is INIT or was forked
 itself, and not a byte of it for the other native processes, whose segment is as large as the address space.
 */
module WorldForks {
  import opened ProcTable
  import opened Segments
  import opened IpcRuns
  import opened Family
  import opened FamilyFacts
  import opened World
  import opened WorldInv
  import opened WorldManager
  import opened WorldRuns
  import opened WorldWaits

  // ---------------------------------------------------------------- the segments of the native processes

  /** The native processes have the segments that they had at boot. */
  ghost predicate NativesAsBooted(w: World) {
    ShapedWorld(w) && forall i :: 0 <= i < FIRST_FORKED ==> w.s.procs[i].ldtC == BootProc(i).ldtC
  }

  lemma HandlingLeavesNatives(w: World, t: World)
    requires WorldOk(w) && NativesAsBooted(w) && IsMove(w, Handle, t)
    ensures NativesAsBooted(t)
  {
    HandlingFacts(w);
    if w.hand.m.kind == FORK {
      BirthLeavesNatives(w, t);
    } else if w.hand.m.kind == EXIT {
      DeathLeavesNatives(w, t);
    }
  }

  lemma BirthLeavesNatives(w: World, t: World)
    requires Handling(w, FORK) && NativesAsBooted(w) && IsMove(w, Handle, t)
    ensures NativesAsBooted(t)
  {
    ForkOutcomeFacts(w);
  }

  lemma DeathLeavesNatives(w: World, t: World)
    requires Handling(w, EXIT) && NativesAsBooted(w) && IsMove(w, Handle, t)
    ensures NativesAsBooted(t)
  {
    ExitGuards(w);
    ExitTable(w.s.procs, w.hand.from, w.hand.m.i1);
    forall i | 0 <= i < FIRST_FORKED ensures t.s.procs[i].ldtC == BootProc(i).ldtC {
      assert IsLeft(w.s.procs, w.hand.from, w.hand.m.i1, t.s.procs, i);
    }
  }

  lemma MoveLeavesNatives(w: World, e: Move, t: World)
    requires WorldOk(w) && NativesAsBooted(w) && IsMove(w, e, t) && ShapedWorld(t)
    ensures NativesAsBooted(t)
  {
    if e.Handle? {
      HandlingLeavesNatives(w, t);
    } else if Familial(w, e) {
      ReleaseLeavesNatives(w, e.a, t);
    } else {
      MostMovesAreKin(w, e, t);
      KinKeepSegments(w.s.procs, t.s.procs);
    }
  }

  lemma ReleaseLeavesNatives(w: World, a: int, t: World)
    requires WorldOk(w) && NativesAsBooted(w) && IsMove(w, Perform(a), t) && w.actions[0].Release?
    ensures NativesAsBooted(t)
  {
    assert ActionOk(w.s.procs, w.phase, w.actions[0]);
  }

  lemma KinKeepSegments(ps: seq<Proc>, qs: seq<Proc>)
    requires SameKin(ps, qs)
    ensures forall i :: 0 <= i < |ps| ==> qs[i].ldtC == ps[i].ldtC
  {
    assert forall i :: 0 <= i < |ps| ==> Kin(ps[i], qs[i]);
  }

  lemma {:induction false} NativesStayAsBooted(run: seq<World>, es: seq<Move>, mem: seq<Memory>, memorySize: int,
                                               i: nat)
    requires |mem| == N && IsWorldRun(run, es) && run[0] == BootWorld(mem, memorySize) && i < |run|
    ensures NativesAsBooted(run[i])
  {
    BootIsOk(mem, memorySize);
    if i > 0 {
      NativesStayAsBooted(run, es, mem, memorySize, i - 1);
      NativesOneMoveOn(run, es, i);
    }
  }

  lemma NativesOneMoveOn(run: seq<World>, es: seq<Move>, i: nat)
    requires IsWorldRun(run, es) && WorldOk(run[0]) && 0 < i < |run| && NativesAsBooted(run[i - 1])
    ensures NativesAsBooted(run[i])
  {
    MoveInRun(run, es, i);
    MoveLeavesNatives(run[i - 1], es[i - 1], run[i]);
  }

  // ---------------------------------------------------------------- their sizes

  /** INIT's segment is a small one, of 704 KB. */
  lemma InitSegment()
    ensures var d := BootProc(INIT).ldtC; LimitOf(d) >= 0 && SegmentSize(d) == 0xB_0000
  {
    PagedSegment(INIT_LIMIT, DA_32 + DA_LIMIT_4K, BootProc(INIT).ldtC);
  }

  /** The other native processes' segments have 4 GB, a size that an int has no room for: it comes out as 0. */
  lemma FlatSegment(i: int)
    requires 0 <= i < FIRST_FORKED && i != INIT
    ensures var d := BootProc(i).ldtC; LimitOf(d) >= 0 && SegmentSize(d) == U32 && SizeOf(d) == 0
  {
    PagedSegment(0xF_FFFF, DA_32 + DA_CR + DA_LIMIT_4K, BootProc(i).ldtC);
  }

  lemma SlotSegment(p: Proc, pid: int)
    requires HasSlot(p, pid)
    ensures LimitOf(p.ldtC) >= 0 && SegmentSize(p.ldtC) == PROC_IMAGE_SIZE_DEFAULT
  {
    EncodeDecode(SlotBase(pid), (PROC_IMAGE_SIZE_DEFAULT - 1) / 4096,
                 DA_LIMIT_4K + DA_32 + DA_C + PRIVILEGE_USER * 0x20);
  }

  lemma CallersSegment(w: World, pid: int)
    requires WorldOk(w) && NativesAsBooted(w) && IsUser(pid) && !w.s.procs[pid].flags.freeSlot
    ensures var d := w.s.procs[pid].ldtC;
            && LimitOf(d) >= 0
            && (SegmentSize(d) < 0x8000_0000 <==> pid == INIT || IsForked(pid))
            && (SegmentSize(d) >= 0x8000_0000 ==> SizeOf(d) == 0)
  {
    if IsForked(pid) {
      SlotSegment(w.s.procs[pid], pid);
    } else if pid == INIT {
      InitSegment();
    } else {
      FlatSegment(pid);
    }
  }

  // ---------------------------------------------------------------- what fork copies

  /** A fork that goes through. */
  ghost predicate ForksNow(w: World) {
    && ShapedWorld(w) && Allowed(w, Handle) && w.hand.m.kind == FORK && NativesStay(w.s.procs)
    && Fork(w.s.procs, w.s.mem, w.hand.from, w.memorySize).Forked?
  }

  lemma ForkingFacts(w: World)
    requires WorldOk(w) && ForksNow(w)
    ensures IsUser(w.hand.from) && w.s.procs[w.hand.from].flags != FREE_SLOT
    ensures CanFork(w.s.procs, w.hand.from, w.memorySize)
  {
    HandlingFacts(w);
    ForkSucceeds(w.s.procs, w.s.mem, w.hand.from, w.memorySize);
  }

  lemma WhatAForkCopies(w: World)
    requires WorldOk(w) && NativesAsBooted(w) && ForksNow(w)
    ensures var pid := w.hand.from;
            (forall mem: seq<Memory> :: |mem| == N ==> WholeCopy(w.s.procs, mem, pid, w.memorySize)) <==>
            pid == INIT || IsForked(pid)
    ensures var pid := w.hand.from; var o := Fork(w.s.procs, w.s.mem, pid, w.memorySize);
            if pid == INIT || IsForked(pid) then WholeCopy(w.s.procs, w.s.mem, pid, w.memorySize) else o.mem == w.s.mem
  {
    var pid := w.hand.from;
    HandlingFacts(w);
    ForkingFacts(w);
    CallersSegment(w, pid);
    ForkCopiesTheSegment(w.s.procs, pid, w.memorySize);
    if pid != INIT && !IsForked(pid) {
      ForkCopiesNothing(w.s.procs, w.s.mem, pid, w.memorySize);
    }
  }

  /**
   In every run from boot, a fork that goes through gives the child all of its caller's segment, whatever the
   memories hold, exactly if the caller is INIT or was forked; otherwise it leaves all memory as it was.
   */
  lemma WhatForkCopies(run: seq<World>, es: seq<Move>, mem: seq<Memory>, memorySize: int, i: nat)
    requires |mem| == N && IsWorldRun(run, es) && run[0] == BootWorld(mem, memorySize) && i < |run| && ForksNow(run[i])
    ensures var w := run[i]; var pid := w.hand.from;
            (forall mem: seq<Memory> :: |mem| == N ==> WholeCopy(w.s.procs, mem, pid, w.memorySize)) <==>
            pid == INIT || IsForked(pid)
    ensures var w := run[i]; var pid := w.hand.from; var o := Fork(w.s.procs, w.s.mem, pid, w.memorySize);
            if pid == INIT || IsForked(pid) then WholeCopy(w.s.procs, w.s.mem, pid, w.memorySize) else o.mem == w.s.mem
  {
    BootIsOk(mem, memorySize);
    RunStaysOk(run, es, i);
    NativesStayAsBooted(run, es, mem, memorySize, i);
    WhatAForkCopies(run[i]);
  }
}
