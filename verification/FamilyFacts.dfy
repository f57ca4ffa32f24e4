/**
 Where fork, exit and wait do not do what their description says, and exactly when they do.
 */
module FamilyFacts {
  import opened ProcTable
  import opened Segments
  import opened Family

  // ---------------------------------------------------------------- wait

  /** pid has a child in the sense of the description: a slot that is in use names it as parent. */
  ghost predicate HasChild(ps: seq<Proc>, pid: int) {
    exists i :: 0 <= i < |ps| && !ps[i].flags.freeSlot && ps[i].parent == pid
  }

  /** wait() reports at once that there is no child. */
  ghost predicate WaitRefuses(ps: seq<Proc>, pid: int)
    requires |ps| == N && IsPid(pid)
  {
    var h := Wait(ps, pid);
    |h.actions| == 1 && h.actions[0].Answer? && h.actions[0].m.i2 == NO_TASK
  }

  /** wait() suspends the caller. */
  ghost predicate WaitSuspends(ps: seq<Proc>, pid: int)
    requires |ps| == N && IsPid(pid)
  {
    Wait(ps, pid).procs[pid].flags.waiting && Wait(ps, pid).actions == []
  }

  /**
   A slot that was freed keeps its p_parent, and wait() counts it. The description (an
   error exactly when there is no child) is met exactly when the caller has a child, or
   no free slot still names it.
   */
  lemma WaitMeetsItsDescription(ps: seq<Proc>, pid: int)
    requires |ps| == N && IsPid(pid) && !ps[pid].flags.waiting
    requires forall i :: 0 <= i < N && ps[i].flags.freeSlot ==> !ps[i].flags.hanging
    ensures (WaitRefuses(ps, pid) <==> !HasChild(ps, pid)) <==>
            (HasChild(ps, pid) || forall i :: 0 <= i < N && ps[i].flags.freeSlot ==> ps[i].parent != pid)
    ensures WaitSuspends(ps, pid) <==>
            SomeSlotNames(ps, pid) && forall i :: 0 <= i < N && ps[i].parent == pid ==> !ps[i].flags.hanging
  {
    var h := FirstHanging(ps, pid, 0);
    if h < N {
      assert HangingChild(ps, h, pid);
      assert HasChild(ps, pid);
    } else {
      forall i | 0 <= i < N && ps[i].parent == pid ensures !ps[i].flags.hanging {
        assert !HangingChild(ps, i, pid);
      }
    }
  }

  /** j is the lowest-numbered child of pid that is HANGING. */
  ghost predicate IsFirstCorpse(ps: seq<Proc>, pid: int, j: int) {
    && 0 <= j < |ps| && ps[j].parent == pid && ps[j].flags.hanging
    && forall k :: 0 <= k < j ==> !(ps[k].parent == pid && ps[k].flags.hanging)
  }

  /**
   wait() reaps the first HANGING child: its status and number go to the caller, then the slot is released. Without
   one it suspends the caller, or refuses if no slot names it. The table does not change otherwise.
   */
  lemma WhatWaitDoes(ps: seq<Proc>, pid: int, j: int)
    requires |ps| == N && IsPid(pid)
    ensures IsFirstCorpse(ps, pid, j) ==>
              Wait(ps, pid) == Handled(ps, [Reap(j, pid, Message(0, SYSCALL_RET, ps[j].exitStatus, j)), Release(j)])
    ensures (forall k :: 0 <= k < N && ps[k].parent == pid ==> !ps[k].flags.hanging) ==>
              Wait(ps, pid) ==
              if exists k :: 0 <= k < N && ps[k].parent == pid
              then Handled(ps[pid := ps[pid].(flags := ps[pid].flags.(waiting := true))], [])
              else Handled(ps, [Answer(pid, Message(0, SYSCALL_RET, 0, NO_TASK))])
  {
    var h := FirstHanging(ps, pid, 0);
    if IsFirstCorpse(ps, pid, j) {
      assert HangingChild(ps, j, pid);
    }
  }

  // ---------------------------------------------------------------- exit

  /** do_exit reaches the assert(0) behind the clean-up of an inherited child. */
  predicate ExitIsTrapped(ps: seq<Proc>, pid: int, status: int)
    requires |ps| == N && IsPid(pid) && IsPid(ps[pid].parent)
  {
    InheritedCorpse(Orphaned(ps, pid, status), pid) < N
  }

  /** The guard of the trap: INIT waits, is not the parent, and the exiting process leaves a HANGING child. */
  predicate LeavesCorpseToInit(ps: seq<Proc>, pid: int)
    requires |ps| == N && IsPid(pid)
  {
    && ps[INIT].flags.waiting && ps[pid].parent != INIT
    && exists i :: 0 <= i < N && ps[i].flags.hanging && ps[i].parent == pid
  }

  /** That happens exactly on this guard, and then it is the first such child that is cleaned up. */
  lemma TrapCondition(ps: seq<Proc>, pid: int, status: int)
    requires |ps| == N && FIRST_FORKED <= pid < N && IsPid(ps[pid].parent) && ps[pid].parent != pid
    requires !ps[pid].flags.hanging
    ensures ExitIsTrapped(ps, pid, status) <==> LeavesCorpseToInit(ps, pid)
    ensures ExitIsTrapped(ps, pid, status) ==>
              var h := InheritedCorpse(Orphaned(ps, pid, status), pid); IsFirstCorpse(ps, pid, h) && h != pid
  {
    var left := Orphaned(ps, pid, status);
    var h := InheritedCorpse(left, pid);
    forall i | 0 <= i < N ensures HangingChild(left, i, pid) <==> ps[i].parent == pid && ps[i].flags.hanging {
    }
    if h < N {
      assert HangingChild(left, h, pid);
      forall k | 0 <= k < h ensures !(ps[k].parent == pid && ps[k].flags.hanging) {
        assert !HangingChild(left, k, pid);
      }
      assert IsFirstCorpse(ps, pid, h);
    } else if left[INIT].flags.waiting {
      forall i | 0 <= i < N ensures !(ps[i].parent == pid && ps[i].flags.hanging) {
        assert !HangingChild(left, i, pid);
      }
    }
  }

  /**
   The table after exit: the status is kept, the children are INIT's, a waiting parent waits no longer, or else the
   process is HANGING, and INIT waits no longer if it inherits a HANGING child. Nothing else changes.
   */
  lemma WhatExitLeaves(ps: seq<Proc>, pid: int, status: int, i: int)
    requires |ps| == N && FIRST_FORKED <= pid < N && IsPid(ps[pid].parent) && ps[pid].parent != pid
    requires !ps[pid].flags.hanging && IsPid(i)
    ensures var qs, parent := Exit(ps, pid, status).procs, ps[pid].parent;
            && |qs| == N
            && qs[i] == ps[i].(
                 parent := if ps[i].parent == pid then INIT else ps[i].parent,
                 exitStatus := if i == pid then status else ps[i].exitStatus,
                 flags := ps[i].flags.(
                   hanging := ps[i].flags.hanging || (i == pid && !ps[parent].flags.waiting),
                   waiting := ps[i].flags.waiting && i != parent && !(i == INIT && LeavesCorpseToInit(ps, pid))))
  {
    TrapCondition(ps, pid, status);
    assert AdoptAll(Orphaned(ps, pid, status), pid)[i] == Adopted(Orphaned(ps, pid, status)[i], pid);
  }

  /**
   What exit has the manager do: report to a parent that waits, then to INIT on the first HANGING child left to it.
   */
  lemma WhatExitReports(ps: seq<Proc>, pid: int, status: int, j: int)
    requires |ps| == N && FIRST_FORKED <= pid < N && IsPid(ps[pid].parent) && ps[pid].parent != pid
    requires !ps[pid].flags.hanging
    requires LeavesCorpseToInit(ps, pid) ==> IsFirstCorpse(ps, pid, j)
    ensures var parent := ps[pid].parent;
            Exit(ps, pid, status).actions ==
            (if ps[parent].flags.waiting
             then [Reap(pid, parent, Message(0, SYSCALL_RET, status, pid)), Release(pid)] else []) +
            (if LeavesCorpseToInit(ps, pid)
             then [Reap(j, INIT, Message(0, SYSCALL_RET, ps[j].exitStatus, j)), Release(j)] else [])
  {
    TrapCondition(ps, pid, status);
    var left := Orphaned(ps, pid, status);
    var h := InheritedCorpse(left, pid);
    if h < N {
      assert h == j;
      assert AdoptAll(left, pid)[h] == Adopted(left[h], pid);
    }
  }

  // ---------------------------------------------------------------- fork

  /**
   Every handled fork request puts exactly one message to the caller on the list, and it is the last: the request
   with 0 and the child's number, or with -1. The child's own answer goes before it and says 0.
   */
  lemma ForkRepliesOnce(o: ForkOutcome, pid: int, request: Message)
    requires o.Forked? ==> o.child != pid
    ensures var actions := ForkActions(o, pid, request); var n := |actions| - 1;
            && n >= 0 && actions[n].Answer? && actions[n].to == pid && actions[n].m.kind == SYSCALL_RET
            && (forall k :: 0 <= k < n ==> actions[k].Answer? && actions[k].to != pid)
            && actions[n].m == request.(kind := SYSCALL_RET, i1 := if o.Forked? then 0 else -1,
                                        i2 := if o.Forked? then o.child else request.i2)
            && (o.Forked? ==> n == 1 && actions[0] == Answer(o.child, Message(0, SYSCALL_RET, 0, 0)))
  {
  }

  predicate FieldsFit(d: Descriptor) {
    0 <= d.limitLow < U16 && 0 <= d.limitHighAttr2 < 0x100
  }

  /** Segments of the same limit have the same computed size exactly if they have the same granularity. */
  lemma SameSize(c: Descriptor, d: Descriptor)
    requires FieldsFit(c) && FieldsFit(d) && LimitOf(c) == LimitOf(d)
    ensures SizeOf(c) == SizeOf(d) <==> (PageGranular(c) <==> PageGranular(d))
  {
    assert 0 <= LimitOf(c) < 0x10_0000;
  }

  /**
   fork fails, in this order, without a free slot, if the caller's segments differ in base, limit or granularity, and
   if the computed size is over 2 MB or reaches the end of memory from the slot's place on.
   */
  lemma WhenForkFails(ps: seq<Proc>, mem: seq<Memory>, pid: int, memorySize: int)
    requires |mem| == N && IsPid(pid) && NativesStay(ps)
    requires FieldsFit(ps[pid].ldtC) && FieldsFit(ps[pid].ldtRW)
    ensures var o, c, d, child := Fork(ps, mem, pid, memorySize), ps[pid].ldtC, ps[pid].ldtRW, FirstFree(ps, 0);
            && (o.NoSlot? <==> forall i :: 0 <= i < N ==> ps[i].flags != FREE_SLOT)
            && (o.BadSegments? <==>
                && !o.NoSlot?
                && !(BaseOf(c) == BaseOf(d) && LimitOf(c) == LimitOf(d) && (PageGranular(c) <==> PageGranular(d))))
            && (o.NoMemory? <==>
                && !o.NoSlot? && !o.BadSegments?
                && (SizeOf(c) > 0x20_0000 || 0xA0_0000 + (child - 9) * 0x20_0000 + SizeOf(c) >= memorySize))
  {
    if FirstFree(ps, 0) < N {
      if LimitOf(ps[pid].ldtC) == LimitOf(ps[pid].ldtRW) {
        SameSize(ps[pid].ldtC, ps[pid].ldtRW);
      }
      AllocationIsPlaced(FirstFree(ps, 0), SizeOf(ps[pid].ldtC), memorySize);
    }
  }

  /** A 32-bit user segment over the 2 MB of slot pid, of the type in the access byte (Intel SDM Vol. 3A, 3.4.5). */
  predicate IsSlotSegment(d: Descriptor, pid: int, access: int) {
    && BaseOf(d) == 0xA0_0000 + (pid - 9) * 0x20_0000 && SegmentSize(d) == 0x20_0000
    && d.attr1 == access && d.limitHighAttr2 / 0x10 == 0xC
  }

  lemma SlotSegmentFields(p: Proc, pid: int)
    requires HasSlot(p, pid)
    ensures IsSlotSegment(p.ldtC, pid, 0xF8) && IsSlotSegment(p.ldtRW, pid, 0xF2)
  {
    var limit := (PROC_IMAGE_SIZE_DEFAULT - 1) / 4096;
    SlotIsInPlace(p, pid, 0);
    FieldsOfDescriptor(SlotBase(pid), limit, DA_LIMIT_4K + DA_32 + DA_C + PRIVILEGE_USER * 0x20);
    FieldsOfDescriptor(SlotBase(pid), limit, DA_LIMIT_4K + DA_32 + DA_DRW + PRIVILEGE_USER * 0x20);
  }

  /**
   The child's entry is the parent's in a slot of its own, the lowest-numbered free one, but for the parent and the
   segments, which are the slot's, for user code and data. Its memory is the parent's as far as the computed size
   goes, and otherwise what the slot held; nobody else changes.
   */
  lemma ForkMakesACopy(ps: seq<Proc>, mem: seq<Memory>, pid: int, memorySize: int)
    requires |mem| == N && IsPid(pid) && NativesStay(ps) && ps[pid].flags != FREE_SLOT
    requires Fork(ps, mem, pid, memorySize).Forked?
    ensures var o := Fork(ps, mem, pid, memorySize); var child := o.child;
            && FIRST_FORKED <= child < N && |o.procs| == |o.mem| == N
            && ps[child].flags == FREE_SLOT && (forall j :: 0 <= j < child ==> ps[j].flags != FREE_SLOT)
            && o.procs[child] == ps[pid].(parent := pid, ldtC := o.procs[child].ldtC, ldtRW := o.procs[child].ldtRW)
            && IsSlotSegment(o.procs[child].ldtC, child, 0xF8) && IsSlotSegment(o.procs[child].ldtRW, child, 0xF2)
            && 0x20_0000 >= SizeOf(ps[pid].ldtC)
            && (forall a :: 0 <= a < SizeOf(ps[pid].ldtC) ==> Load(o.mem[child], a) == Load(mem[pid], a))
            && (forall a :: !(0 <= a < SizeOf(ps[pid].ldtC)) ==> Load(o.mem[child], a) == Load(mem[child], a))
            && (forall i :: 0 <= i < N && i != child ==> o.procs[i] == ps[i] && o.mem[i] == mem[i])
  {
    var o := Fork(ps, mem, pid, memorySize);
    SlotSegmentFields(o.procs[o.child], o.child);
  }

  /** The child's memory is the parent's, over the whole of the parent's segment. */
  ghost predicate WholeCopy(ps: seq<Proc>, mem: seq<Memory>, pid: int, memorySize: int)
    requires |mem| == N && IsPid(pid) && NativesStay(ps)
  {
    var o := Fork(ps, mem, pid, memorySize);
    o.Forked? ==>
      IsPid(o.child) && |o.mem| == N && forall a :: 0 <= a < SegmentSize(ps[pid].ldtC) ==>
        Load(o.mem[o.child], a) == Load(mem[pid], a)
  }

  /** A fork that can succeed on this table. */
  predicate CanFork(ps: seq<Proc>, pid: int, memorySize: int)
    requires IsPid(pid) && NativesStay(ps)
  {
    && ps[pid].flags != FREE_SLOT && FirstFree(ps, 0) < N && OneSegment(ps[pid])
    && AllocMem(FirstFree(ps, 0), SizeOf(ps[pid].ldtC), memorySize).Allocated?
  }

  lemma ForkSucceeds(ps: seq<Proc>, mem: seq<Memory>, pid: int, memorySize: int)
    requires |mem| == N && IsPid(pid) && NativesStay(ps) && ps[pid].flags != FREE_SLOT
    ensures Fork(ps, mem, pid, memorySize).Forked? <==> CanFork(ps, pid, memorySize)
    ensures CanFork(ps, pid, memorySize) ==>
              Fork(ps, mem, pid, memorySize).mem ==
              mem[FirstFree(ps, 0) := CopyMemory(mem[pid], mem[FirstFree(ps, 0)], SizeOf(ps[pid].ldtC))]
  {
  }

  /** A memory with one message, at address a. */
  function Marked(a: int): Memory {
    map[a := Message(1, 1, 1, 1)]
  }

  /** If the segment has 2 GB or more, the computed size leaves some of it out. */
  lemma SomeOfItIsLeftOut(ps: seq<Proc>, pid: int, memorySize: int) returns (mem: seq<Memory>)
    requires IsPid(pid) && NativesStay(ps) && CanFork(ps, pid, memorySize) && LimitOf(ps[pid].ldtC) >= 0
    requires SegmentSize(ps[pid].ldtC) >= 0x8000_0000
    ensures |mem| == N && !WholeCopy(ps, mem, pid, memorySize)
  {
    var d, child := ps[pid].ldtC, FirstFree(ps, 0);
    SizeIsExact(d);
    var a := if SizeOf(d) > 0 then SizeOf(d) else 0;
    mem := seq(N, i => if i == pid then Marked(a) else map[]);
    ForkSucceeds(ps, mem, pid, memorySize);
    var o := Fork(ps, mem, pid, memorySize);
    assert Load(o.mem[child], a) == ZERO_MESSAGE && Load(mem[pid], a) == Message(1, 1, 1, 1);
  }

  /**
   Whatever the memories hold, the child gets all of the parent's segment, exactly if the segment has less than 2 GB.
   */
  lemma ForkCopiesTheSegment(ps: seq<Proc>, pid: int, memorySize: int)
    requires IsPid(pid) && NativesStay(ps) && CanFork(ps, pid, memorySize) && LimitOf(ps[pid].ldtC) >= 0
    ensures (forall mem: seq<Memory> :: |mem| == N ==> WholeCopy(ps, mem, pid, memorySize)) <==>
            SegmentSize(ps[pid].ldtC) < 0x8000_0000
  {
    SizeIsExact(ps[pid].ldtC);
    if SegmentSize(ps[pid].ldtC) < 0x8000_0000 {
      forall mem: seq<Memory> | |mem| == N ensures WholeCopy(ps, mem, pid, memorySize) {
        ForkMakesACopyOf(ps, mem, pid, memorySize);
      }
    } else {
      var mem := SomeOfItIsLeftOut(ps, pid, memorySize);
    }
  }

  lemma ForkMakesACopyOf(ps: seq<Proc>, mem: seq<Memory>, pid: int, memorySize: int)
    requires |mem| == N && IsPid(pid) && NativesStay(ps) && CanFork(ps, pid, memorySize)
    requires SizeOf(ps[pid].ldtC) == SegmentSize(ps[pid].ldtC)
    ensures WholeCopy(ps, mem, pid, memorySize)
  {
    ForkSucceeds(ps, mem, pid, memorySize);
    ForkMakesACopy(ps, mem, pid, memorySize);
  }

  /** A computed size of 0 has nothing copied at all. */
  lemma ForkCopiesNothing(ps: seq<Proc>, mem: seq<Memory>, pid: int, memorySize: int)
    requires |mem| == N && IsPid(pid) && NativesStay(ps) && ps[pid].flags != FREE_SLOT
    requires Fork(ps, mem, pid, memorySize).Forked? && SizeOf(ps[pid].ldtC) <= 0
    ensures Fork(ps, mem, pid, memorySize).mem == mem
  {
    var child := FirstFree(ps, 0);
    ForkSucceeds(ps, mem, pid, memorySize);
    assert CopyMemory(mem[pid], mem[child], SizeOf(ps[pid].ldtC)) == mem[child];
  }
}
