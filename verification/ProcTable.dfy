/**
 The process table: the constants, the flag word and the per-process record
 that the scheduler, the IPC kernel and the memory manager all work on.
 */
module ProcTable {

  // The process slots: any number that the slots' memory leaves room for below 4 GB. The source has 32.
  type SlotCount = n: int | NR_NATIVE_PROCS < n <= 1024 witness 32

  const NR_TASKS := 5
  const NR_PROCS: SlotCount
  const NR_NATIVE_PROCS := 4
  const N := NR_TASKS + NR_PROCS

  const TASK_TTY := 0
  const TASK_SYS := 1
  const TASK_HD := 2
  const TASK_FS := 3
  const TASK_MM := 4
  const INIT := 5

  const INTERRUPT := -10
  const ANY := N + 10
  const NO_TASK := N + 20

  const HZ := 100

  const HARD_INT := 1

  // The null pointer in a link between process-table entries.
  const NIL := -1

  /** The bits of p_flags. A process is runnable iff none is set. */
  datatype Flags = Flags(
    sending: bool,
    receiving: bool,
    waiting: bool,
    hanging: bool,
    freeSlot: bool,
    doingFork: bool,
    sleeping: bool)

  const READY := Flags(false, false, false, false, false, false, false)
  const SENDING := READY.(sending := true)
  const RECEIVING := READY.(receiving := true)
  const FREE_SLOT := READY.(freeSlot := true)
  const DOING_FORK := READY.(doingFork := true)
  const PROC_SLEEP := READY.(sleeping := true)

  /** A segment descriptor, byte field by byte field. */
  datatype Descriptor = Descriptor(
    limitLow: int,
    baseLow: int,
    baseMid: int,
    attr1: int,
    limitHighAttr2: int,
    baseHigh: int)

  /** An IPC message: the sender, the type and the two integers that the memory manager uses. */
  datatype Message = Message(source: int, kind: int, i1: int, i2: int)

  // The messages in one process's memory, by address.
  type Memory = map<int, Message>

  const ZERO_MESSAGE := Message(0, 0, 0, 0)

  function Load(memory: Memory, address: int): Message {
    if address in memory then memory[address] else ZERO_MESSAGE
  }

  /** One entry of proc_table, without its two queue links. msg is the address p_msg (0 for null). */
  datatype Proc = Proc(
    flags: Flags,
    msg: int,
    recvFrom: int,
    sendTo: int,
    hasInt: bool,
    parent: int,
    exitStatus: int,
    ticks: int,
    wakeUp: int,
    priority: int,
    ldtC: Descriptor,
    ldtRW: Descriptor)

  predicate IsPid(p: int) {
    0 <= p < N
  }

  /** What is left of x in an int of 32 bits. */
  function Wrap32(x: int): int {
    (x + 0x8000_0000) % 0x1_0000_0000 - 0x8000_0000
  }
}
