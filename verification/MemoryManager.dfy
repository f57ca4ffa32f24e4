/**
 fork, exit and wait as the source has them, working in place on the kernel's tables.
 Messages to be sent and slots to be freed are appended to a list, in the order in
 which they are sent and freed. What a request changes in the table apart from that is
 changed at once; in the source some of it comes after a send.
 */
module MemoryManager {
  import opened ProcTable
  import opened Segments
  import opened IpcInv
  import opened Kernel
  import opened Family
  import opened FamilyFacts
  import opened World
  import opened WorldInv
  import opened WorldManager

  /**
   fork copies the parent's queue links with the rest of its entry. That is harmless
   because a process blocked in its call has nobody queued at it, and neither has a free slot.
   */
  lemma ForkKeepsLinks(w: World, heads: seq<int>, nexts: seq<int>, child: int)
    requires Handling(w, FORK) && FirstFree(w.s.procs, 0) == child < N && Linked(heads, nexts, w.s.queues)
    ensures w.s.queues[w.hand.from] == [] && w.s.queues[child] == []
    ensures Linked(heads[child := heads[w.hand.from]], nexts[child := nexts[w.hand.from]], w.s.queues)
  {
    HandlingFacts(w);
    FreeSlotFacts(w, child);
    NobodyQueuedAt(w.s, w.phase, w.hand.from);
    var qs := w.s.queues;
    var nexts' := nexts[child := nexts[w.hand.from]];
    NotSendingNotQueued(w.s.procs, qs, child);
    forall d, j | 0 <= d < N && 0 <= j < |qs[d]| ensures LeadsOn(nexts', qs[d], j) {
      assert LeadsOn(nexts, qs[d], j) && qs[d][j] in qs[d];
    }
    assert heads[w.hand.from] == Nth(qs[w.hand.from], 0);
  }

  class MemoryManager {
    const k: Kernel
    var mmMsg: Message
    var memorySize: int
    var actions: seq<Action>

    constructor (k: Kernel, memorySize: int)
      ensures this.k == k && this.memorySize == memorySize && actions == []
    {
      this.k := k;
      this.mmMsg := ZERO_MESSAGE;
      this.memorySize := memorySize;
      this.actions := [];
    }

    ghost predicate Tables()
      reads this, k
    {
      k.proc.Length == N && k.mem.Length == N && k.qSending.Length == N && k.nextSending.Length == N
      && k.qSending != k.nextSending
    }

    /** cleanup: tells the parent, then gives up the slot. */
    method CleanUp(child: int)
      requires Tables() && IsPid(child)
      modifies this`actions
      ensures actions == old(actions) + Cleanup(k.proc[..], child)
    {
      actions := actions + [Reap(child, k.proc[child].parent,
                                 Message(0, SYSCALL_RET, k.proc[child].exitStatus, child))];
      actions := actions + [Release(child)];
    }

    /** do_wait. */
    method DoWait()
      requires Tables() && IsPid(mmMsg.source)
      modifies this`actions, k.proc
      ensures Tables()
      ensures var h := Wait(old(k.proc[..]), mmMsg.source);
              k.proc[..] == h.procs && actions == old(actions) + h.actions
    {
      var pid := mmMsg.source;
      ghost var ps := k.proc[..];
      var children := 0;
      var i := 0;
      while i < NR_TASKS + NR_PROCS
        invariant 0 <= i <= N
        invariant k.proc[..] == ps && actions == old(actions)
        invariant forall j :: 0 <= j < i ==> !HangingChild(ps, j, pid)
        invariant children > 0 <==> exists j :: 0 <= j < i && ps[j].parent == pid
        invariant children >= 0
      {
        if k.proc[i].parent == pid {
          children := children + 1;
          if k.proc[i].flags.hanging {
            assert HangingChild(ps, i, pid);
            CleanUp(i);
            return;
          }
        }
        i := i + 1;
      }
      if children > 0 {
        k.proc[pid] := k.proc[pid].(flags := k.proc[pid].flags.(waiting := true));
      } else {
        actions := actions + [Answer(pid, Message(0, SYSCALL_RET, 0, NO_TASK))];
      }
    }

    /** The first part of do_exit: the parent is told, or the process is left HANGING. */
    method LeaveParent(pid: int, status: int)
      requires Tables() && IsPid(pid) && IsPid(k.proc[pid].parent)
      modifies this`actions, k.proc
      ensures Tables() && k.proc[..] == Orphaned(old(k.proc[..]), pid, status)
      ensures actions == old(actions) +
                         if old(k.proc[k.proc[pid].parent].flags.waiting) then Cleanup(k.proc[..], pid) else []
    {
      var parent := k.proc[pid].parent;
      k.proc[pid] := k.proc[pid].(exitStatus := status);
      if k.proc[parent].flags.waiting {
        k.proc[parent] := k.proc[parent].(flags := k.proc[parent].flags.(waiting := false));
        CleanUp(pid);
      } else {
        k.proc[pid] := k.proc[pid].(flags := k.proc[pid].flags.(hanging := true));
      }
    }

    /** The second part of do_exit: INIT adopts the children and, if it waits, reaps the first HANGING one. */
    method GiveAwayChildren(pid: int) returns (trapped: bool)
      requires Tables() && IsPid(pid)
      modifies this`actions, k.proc
      ensures Tables()
      ensures var left := old(k.proc[..]); var h := InheritedCorpse(left, pid); var adopted := AdoptAll(left, pid);
              && trapped == (h < N)
              && k.proc[..] == (if h < N then adopted[INIT := SetWaiting(adopted[INIT], false)] else adopted)
              && actions == old(actions) + if h < N then Cleanup(adopted, h) else []
    {
      ghost var left := k.proc[..];
      ghost var h := InheritedCorpse(left, pid);
      trapped := false;
      var i := 0;
      while i < NR_TASKS + NR_PROCS
        invariant 0 <= i <= N && Tables()
        invariant trapped == (h < i)
        invariant actions == old(actions) + if h < i then Cleanup(AdoptAll(left, pid), h) else []
        invariant forall j :: 0 <= j < N ==>
                    k.proc[j] == var p := if j < i then Adopted(left[j], pid) else left[j];
                                 if j == INIT && h < i then SetWaiting(p, false) else p
      {
        assert HangingChild(left, i, pid) <==> k.proc[i].parent == pid && k.proc[i].flags.hanging;
        var reaps := GiveAway(i, pid);
        trapped := trapped || reaps;
        i := i + 1;
      }
    }

    /** The body of that loop. */
    method GiveAway(i: int, pid: int) returns (reaps: bool)
      requires Tables() && IsPid(i)
      modifies this`actions, k.proc
      ensures Tables()
      ensures reaps == (HangingChild(old(k.proc[..]), i, pid) && old(k.proc[INIT].flags.waiting))
      ensures var qs := old(k.proc[..])[i := Adopted(old(k.proc[i]), pid)];
              && k.proc[..] == (if reaps then qs[INIT := SetWaiting(qs[INIT], false)] else qs)
              && actions == old(actions) + if reaps then Cleanup(k.proc[..], i) else []
    {
      reaps := false;
      if k.proc[i].parent == pid {
        k.proc[i] := k.proc[i].(parent := INIT);
        if k.proc[INIT].flags.waiting && k.proc[i].flags.hanging {
          k.proc[INIT] := k.proc[INIT].(flags := k.proc[INIT].flags.(waiting := false));
          CleanUp(i);
          reaps := true;
        }
      }
    }

    /** do_exit. trapped tells whether the assert(0) behind an inherited clean-up is reached. */
    method DoExit(status: int) returns (trapped: bool)
      requires Tables() && IsPid(mmMsg.source) && IsPid(k.proc[mmMsg.source].parent)
      modifies this`actions, k.proc
      ensures Tables()
      ensures var h := Exit(old(k.proc[..]), mmMsg.source, status);
              k.proc[..] == h.procs && actions == old(actions) + h.actions
      ensures trapped <==> ExitIsTrapped(old(k.proc[..]), mmMsg.source, status)
    {
      var pid := mmMsg.source;
      LeaveParent(pid, status);
      trapped := GiveAwayChildren(pid);
    }

    /** do_fork; ret is its return value. The caller has been seen blocked in its receive. */
    method DoFork() returns (ret: int, r: Result)
      requires Tables() && IsPid(mmMsg.source) && NativesStay(k.proc[..])
      modifies this`actions, this`mmMsg, k.proc, k.mem, k.qSending, k.nextSending
      ensures Tables()
      ensures match Fork(old(k.proc[..]), old(k.mem[..]), old(mmMsg.source), memorySize)
              case NoSlot =>
                ret == -1 && r == Ok && mmMsg == old(mmMsg) && actions == old(actions)
                && k.proc[..] == old(k.proc[..]) && k.mem[..] == old(k.mem[..])
                && k.qSending[..] == old(k.qSending[..]) && k.nextSending[..] == old(k.nextSending[..])
              case NoMemory => r == Panicked
              case BadSegments => r == AssertionFailed
              case Forked(child, procs, mem) =>
                ret == 0 && r == Ok && mmMsg == old(mmMsg).(i2 := child)
                && actions == old(actions) + [Answer(child, Message(0, SYSCALL_RET, 0, 0))]
                && k.proc[..] == procs && k.mem[..] == mem
                && k.qSending[..] == old(k.qSending[..])[child := old(k.qSending[mmMsg.source])]
                && k.nextSending[..] == old(k.nextSending[..])[child := old(k.nextSending[mmMsg.source])]
    {
      var p := FindSlot();
      if p == NR_TASKS + NR_PROCS {
        return -1, Ok;
      }
      var pid := mmMsg.source;
      var parent := k.proc[pid];
      var size := SizeOf(parent.ldtC);
      if !(BaseOf(parent.ldtC) == BaseOf(parent.ldtRW) && LimitOf(parent.ldtC) == LimitOf(parent.ldtRW)
           && size == SizeOf(parent.ldtRW)) {
        return 0, AssertionFailed;
      }
      var memory := AllocMem(p, size, memorySize);
      if memory.OutOfMemory? {
        return 0, Panicked;
      }
      FillSlot(p, pid, size, memory.base);
      mmMsg := mmMsg.(i2 := p);
      actions := actions + [Answer(p, Message(0, SYSCALL_RET, 0, 0))];
      return 0, Ok;
    }

    /** The search loop of do_fork. */
    method FindSlot() returns (p: int)
      requires Tables()
      ensures p == FirstFree(k.proc[..], 0)
    {
      p := 0;
      while p < NR_TASKS + NR_PROCS && k.proc[p].flags != FREE_SLOT
        invariant 0 <= p <= N
        invariant forall j :: 0 <= j < p ==> k.proc[..][j].flags != FREE_SLOT
      {
        p := p + 1;
      }
    }

    /** The part of do_fork that copies the parent's entry and memory, and gives the child its own segments. */
    method FillSlot(p: int, pid: int, size: int, base: int)
      requires Tables() && IsPid(p) && IsPid(pid) && 0 <= base < U32
      modifies k.proc, k.mem, k.qSending, k.nextSending
      ensures k.proc[..] == old(k.proc[..])[p := Child(old(k.proc[pid]), pid, base)]
      ensures k.mem[..] == old(k.mem[..])[p := CopyMemory(old(k.mem[pid]), old(k.mem[p]), size)]
      ensures k.qSending[..] == old(k.qSending[..])[p := old(k.qSending[pid])]
      ensures k.nextSending[..] == old(k.nextSending[..])[p := old(k.nextSending[pid])]
    {
      var flags := k.proc[pid].flags;
      k.proc[p], k.qSending[p], k.nextSending[p] := k.proc[pid], k.qSending[pid], k.nextSending[pid];
      k.proc[p] := k.proc[p].(flags := DOING_FORK);
      k.proc[p] := k.proc[p].(parent := pid);
      k.mem[p] := CopyMemory(k.mem[pid], k.mem[p], size);
      k.proc[p] := k.proc[p].(ldtC := CodeSegment(base));
      k.proc[p] := k.proc[p].(ldtRW := DataSegment(base));
      k.proc[p] := k.proc[p].(flags := flags);
    }

    /** One pass of task_mm's loop, for the request in mmMsg. An exit that runs into assert(0) stops it. */
    method HandleRequest() returns (r: Result)
      requires Tables() && IsPid(mmMsg.source) && NativesStay(k.proc[..]) && actions == []
      requires mmMsg.kind == EXIT ==> IsPid(k.proc[mmMsg.source].parent)
      modifies this`actions, this`mmMsg, k.proc, k.mem, k.qSending, k.nextSending
      ensures Tables()
      ensures old(mmMsg.kind) == FORK ==>
                var o := Fork(old(k.proc[..]), old(k.mem[..]), old(mmMsg.source), memorySize);
                && (o.NoMemory? ==> r == Panicked) && (o.BadSegments? ==> r == AssertionFailed)
                && (o.NoSlot? || o.Forked? ==> r == Ok && actions == ForkActions(o, old(mmMsg.source), old(mmMsg)))
                && (o.Forked? ==> k.proc[..] == o.procs && k.mem[..] == o.mem)
                && (o.NoSlot? ==> k.proc[..] == old(k.proc[..]) && k.mem[..] == old(k.mem[..]))
      ensures old(mmMsg.kind) == EXIT ==>
                var h := Exit(old(k.proc[..]), old(mmMsg.source), old(mmMsg.i1));
                && r == (if ExitIsTrapped(old(k.proc[..]), old(mmMsg.source), old(mmMsg.i1)) then AssertionFailed
                         else Ok)
                && k.proc[..] == h.procs && actions == h.actions && k.mem[..] == old(k.mem[..])
      ensures old(mmMsg.kind) == WAIT ==>
                var h := Wait(old(k.proc[..]), old(mmMsg.source));
                r == Ok && k.proc[..] == h.procs && actions == h.actions && k.mem[..] == old(k.mem[..])
      ensures old(mmMsg.kind) != FORK && old(mmMsg.kind) != EXIT && old(mmMsg.kind) != WAIT ==> r == AssertionFailed
    {
      var src := mmMsg.source;
      var reply := true;
      if mmMsg.kind == FORK {
        var ret;
        ret, r := DoFork();
        if r != Ok {
          return;
        }
        mmMsg := mmMsg.(i1 := ret);
      } else if mmMsg.kind == EXIT {
        var trapped := DoExit(mmMsg.i1);
        if trapped {
          return AssertionFailed;
        }
        reply := false;
      } else if mmMsg.kind == WAIT {
        DoWait();
        reply := false;
      } else {
        return AssertionFailed;
      }
      if reply {
        mmMsg := mmMsg.(kind := SYSCALL_RET);
        actions := actions + [Answer(src, mmMsg)];
      }
      return Ok;
    }
  }
}
