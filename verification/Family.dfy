/**
 What fork, exit and wait do to the process table, and the messages and slot
 releases that the memory manager then performs one after the other.
 */
module Family {
  import opened ProcTable
  import opened Segments

  const WAIT := 17
  const FORK := 18
  const EXIT := 19
  const SYSCALL_RET := 20

  /**
   What the memory manager has still to do for a request: answer a caller, tell a
   parent about its dead child, or free the dead child's slot.
   */
  datatype Action =
    | Answer(to: int, m: Message)
    | Reap(child: int, to: int, m: Message)
    | Release(child: int)

  datatype Handled = Handled(procs: seq<Proc>, actions: seq<Action>)

  // ---------------------------------------------------------------- cleanup

  /** cleanup(): a message for the parent, then the slot. */
  function Cleanup(ps: seq<Proc>, child: int): seq<Action>
    requires 0 <= child < |ps|
  {
    [Reap(child, ps[child].parent, Message(0, SYSCALL_RET, ps[child].exitStatus, child)), Release(child)]
  }

  /** The end of cleanup(): of the whole entry only p_flags is reset. */
  function Vacated(p: Proc): Proc {
    p.(flags := FREE_SLOT)
  }

  // ---------------------------------------------------------------- exit

  predicate HangingChild(ps: seq<Proc>, i: int, pid: int)
    requires 0 <= i < |ps|
  {
    ps[i].parent == pid && ps[i].flags.hanging
  }

  /** The lowest-numbered HANGING child of pid at or after i, or |ps|. */
  function FirstHanging(ps: seq<Proc>, pid: int, i: int): (h: int)
    requires 0 <= i <= |ps|
    ensures i <= h <= |ps|
    ensures h < |ps| ==> HangingChild(ps, h, pid)
    ensures forall j :: i <= j < h ==> !HangingChild(ps, j, pid)
    decreases |ps| - i
  {
    if i == |ps| then i
    else if HangingChild(ps, i, pid) then i
    else FirstHanging(ps, pid, i + 1)
  }

  function SetWaiting(p: Proc, w: bool): Proc {
    p.(flags := p.flags.(waiting := w))
  }

  /** The table once pid's parent has been told, or pid has been left HANGING. */
  function Orphaned(ps: seq<Proc>, pid: int, status: int): seq<Proc>
    requires 0 <= pid < |ps| && 0 <= ps[pid].parent < |ps|
  {
    var parent := ps[pid].parent;
    var dead := ps[pid := ps[pid].(exitStatus := status)];
    if dead[parent].flags.waiting
    then dead[parent := SetWaiting(dead[parent], false)]
    else dead[pid := dead[pid].(flags := dead[pid].flags.(hanging := true))]
  }

  /** INIT adopts p if p was pid's child. */
  function Adopted(p: Proc, pid: int): Proc {
    if p.parent == pid then p.(parent := INIT) else p
  }

  function AdoptAll(ps: seq<Proc>, pid: int): seq<Proc> {
    seq(|ps|, i requires 0 <= i < |ps| => Adopted(ps[i], pid))
  }

  /** The HANGING child of pid that INIT, if it is waiting, gets to reap at once; |ps| if none. */
  function InheritedCorpse(ps: seq<Proc>, pid: int): int
    requires INIT < |ps|
  {
    if ps[INIT].flags.waiting then FirstHanging(ps, pid, 0) else |ps|
  }

  /** do_exit. */
  function Exit(ps: seq<Proc>, pid: int, status: int): Handled
    requires |ps| == N && IsPid(pid) && IsPid(ps[pid].parent)
  {
    var left := Orphaned(ps, pid, status);
    var told := if ps[ps[pid].parent].flags.waiting then Cleanup(left, pid) else [];
    var adopted := AdoptAll(left, pid);
    var h := InheritedCorpse(left, pid);
    if h < N
    then Handled(adopted[INIT := SetWaiting(adopted[INIT], false)], told + Cleanup(adopted, h))
    else Handled(adopted, told)
  }

  // ---------------------------------------------------------------- wait

  ghost predicate SomeSlotNames(ps: seq<Proc>, pid: int) {
    exists i :: 0 <= i < |ps| && ps[i].parent == pid
  }

  /** do_wait. Slots count as children by p_parent alone. */
  ghost function Wait(ps: seq<Proc>, pid: int): Handled
    requires |ps| == N && IsPid(pid)
  {
    var h := FirstHanging(ps, pid, 0);
    if h < N then Handled(ps, Cleanup(ps, h))
    else if SomeSlotNames(ps, pid) then Handled(ps[pid := SetWaiting(ps[pid], true)], [])
    else Handled(ps, [Answer(pid, Message(0, SYSCALL_RET, 0, NO_TASK))])
  }

  // ---------------------------------------------------------------- fork

  function FirstFree(ps: seq<Proc>, i: int): (f: int)
    requires 0 <= i <= |ps|
    ensures i <= f <= |ps|
    ensures f < |ps| ==> ps[f].flags == FREE_SLOT
    ensures forall j :: i <= j < f ==> ps[j].flags != FREE_SLOT
    decreases |ps| - i
  {
    if i == |ps| then i
    else if ps[i].flags == FREE_SLOT then i
    else FirstFree(ps, i + 1)
  }

  /** The child's entry: the parent's, with a new parent field and segments of its own. */
  function Child(parent: Proc, pid: int, base: int): Proc
    requires 0 <= base < U32
  {
    parent.(parent := pid, ldtC := CodeSegment(base), ldtRW := DataSegment(base))
  }

  /** phys_copy of the first size bytes of a segment. */
  function CopyMemory(from: Memory, to: Memory, size: int): Memory {
    (map a | a in to && !(0 <= a < size) :: to[a]) + (map a | a in from && 0 <= a < size :: from[a])
  }

  /** The two panics of alloc_mem are NoMemory; BadSegments is the failed assertion on the parent's segments. */
  datatype ForkOutcome =
    | NoSlot
    | NoMemory
    | BadSegments
    | Forked(child: int, procs: seq<Proc>, mem: seq<Memory>)

  predicate OneSegment(p: Proc) {
    && BaseOf(p.ldtC) == BaseOf(p.ldtRW)
    && LimitOf(p.ldtC) == LimitOf(p.ldtRW)
    && SizeOf(p.ldtC) == SizeOf(p.ldtRW)
  }

  predicate NativesStay(ps: seq<Proc>) {
    |ps| == N && forall i :: 0 <= i < FIRST_FORKED ==> ps[i].flags != FREE_SLOT
  }

  /** do_fork up to the birth of the child. */
  function Fork(ps: seq<Proc>, mem: seq<Memory>, pid: int, memorySize: int): ForkOutcome
    requires |mem| == N && IsPid(pid) && NativesStay(ps)
  {
    var child := FirstFree(ps, 0);
    if child == N then NoSlot
    else if !OneSegment(ps[pid]) then BadSegments
    else
      var size := SizeOf(ps[pid].ldtC);
      match AllocMem(child, size, memorySize)
      case OutOfMemory => NoMemory
      case Allocated(base) =>
        Forked(child, ps[child := Child(ps[pid], pid, base)], mem[child := CopyMemory(mem[pid], mem[child], size)])
  }

  /** The two messages of a successful fork, and the one of a refused one. */
  function ForkActions(o: ForkOutcome, pid: int, request: Message): seq<Action> {
    match o
    case Forked(child, _, _) =>
      [Answer(child, Message(0, SYSCALL_RET, 0, 0)), Answer(pid, request.(kind := SYSCALL_RET, i1 := 0, i2 := child))]
    case _ => [Answer(pid, request.(kind := SYSCALL_RET, i1 := -1))]
  }
}
