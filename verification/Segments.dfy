/**
 Segment descriptors and the memory slots of forked processes: encoding and
 decoding, address translation, and the isolation of the slots from each other.
 All quantities are unsigned machine words, so shifts and masks are divisions.
 */
module Segments {
  import opened ProcTable

  const U16 := 0x1_0000
  const U32 := 0x1_0000_0000

  const DA_32 := 0x4000
  const DA_LIMIT_4K := 0x8000
  const DA_DRW := 0x92
  const DA_C := 0x98
  const DA_CR := 0x9A
  const PRIVILEGE_TASK := 1
  const PRIVILEGE_USER := 3

  const PROCS_BASE := 0xA0_0000
  const PROC_IMAGE_SIZE_DEFAULT := 0x20_0000
  const FIRST_FORKED := NR_TASKS + NR_NATIVE_PROCS

  /** init_descriptor: scatters base, limit and attribute over the descriptor's fields. */
  function InitDescriptor(base: int, limit: int, attribute: int): Descriptor
    requires 0 <= base < U32 && 0 <= limit < U32 && 0 <= attribute < U16
  {
    Descriptor(
      limit % 0x1_0000,
      base % 0x1_0000,
      base / 0x1_0000 % 0x100,
      attribute % 0x100,
      limit / 0x1_0000 % 0x10 + attribute / 0x100 % 0x100 / 0x10 * 0x10,
      base / 0x100_0000 % 0x100)
  }

  /** ldt_seg_linear and seg2phy. */
  function BaseOf(d: Descriptor): int {
    (d.baseHigh * 0x100_0000 + d.baseMid * 0x1_0000 + d.baseLow) % U32
  }

  function LimitOf(d: Descriptor): int {
    d.limitHighAttr2 % 0x10 * 0x1_0000 + d.limitLow
  }

  predicate PageGranular(d: Descriptor) {
    d.limitHighAttr2 / 0x80 % 2 == 1
  }

  /** The size of the segment in bytes. */
  function SegmentSize(d: Descriptor): int {
    (LimitOf(d) + 1) * if PageGranular(d) then 4096 else 1
  }

  /** The size do_fork computes, in the int arithmetic it uses. */
  function SizeOf(d: Descriptor): int {
    Wrap32(SegmentSize(d))
  }

  /** That is the segment's size exactly if it is less than 2 GB. */
  lemma SizeIsExact(d: Descriptor)
    requires LimitOf(d) >= 0
    ensures SizeOf(d) == SegmentSize(d) <==> SegmentSize(d) < 0x8000_0000
    ensures SizeOf(d) < 0x8000_0000 && SegmentSize(d) > 0
  {
  }

  /** Decoding undoes encoding, for every base and every limit that fits the format. */
  lemma EncodeDecode(base: int, limit: int, attribute: int)
    requires 0 <= base < U32 && 0 <= limit < 0x10_0000 && 0 <= attribute < U16
    ensures var d := InitDescriptor(base, limit, attribute);
            && BaseOf(d) == base && LimitOf(d) == limit
            && (PageGranular(d) <==> attribute / DA_LIMIT_4K % 2 == 1)
  {
    BaseBytes(base);
    LimitParts(limit, attribute / 0x100 % 0x100 / 0x10);
    AttributeBits(attribute, limit / 0x1_0000);
  }

  /**
   Where the processor finds the parts of base and limit, and the attributes' bits 0 to 7 and 12 to 15
   (Intel SDM Vol. 3A, section 3.4.5); bits 8 to 11 are dropped. The fields fit.
   */
  lemma FieldsOfDescriptor(base: int, limit: int, attribute: int)
    requires 0 <= base < U32 && 0 <= limit < 0x10_0000 && 0 <= attribute < U16
    ensures var d := InitDescriptor(base, limit, attribute);
            && d.baseLow + d.baseMid * 0x1_0000 + d.baseHigh * 0x100_0000 == base
            && d.limitLow + d.limitHighAttr2 % 0x10 * 0x1_0000 == limit
            && d.attr1 == attribute % 0x100 && d.limitHighAttr2 / 0x10 == attribute / 0x1000
            && 0 <= d.limitLow < U16 && 0 <= d.baseLow < U16
            && 0 <= d.baseMid < 0x100 && 0 <= d.limitHighAttr2 < 0x100 && 0 <= d.baseHigh < 0x100
  {
    BaseBytes(base);
    LimitParts(limit, attribute / 0x100 % 0x100 / 0x10);
    HighNibble(limit / 0x1_0000, attribute);
  }

  lemma HighNibble(top: int, attribute: int)
    requires 0 <= attribute < U16 && 0 <= top < 0x10
    ensures (top % 0x10 + attribute / 0x100 % 0x100 / 0x10 * 0x10) / 0x10 == attribute / 0x1000
  {
    var high := attribute / 0x100 % 0x100 / 0x10;
    assert attribute / 0x100 < 0x100 && attribute / 0x1000 == high;
    assert (top + high * 0x10) / 0x10 == high;
  }

  lemma BaseBytes(base: int)
    requires 0 <= base < U32
    ensures base / 0x100_0000 % 0x100 * 0x100_0000 + base / 0x1_0000 % 0x100 * 0x1_0000 + base % 0x1_0000 == base
  {
    assert base / 0x100_0000 == base / 0x1_0000 / 0x100;
    assert base / 0x100_0000 < 0x100;
  }

  /** The low nibble of the byte that limit and attribute share is the limit's top. */
  lemma LimitParts(limit: int, high: int)
    requires 0 <= limit < 0x10_0000 && 0 <= high < 0x10
    ensures var byte := limit / 0x1_0000 % 0x10 + high * 0x10;
            0 <= byte < 0x100 && byte % 0x10 == limit / 0x1_0000 && byte % 0x10 * 0x1_0000 + limit % 0x1_0000 == limit
  {
    var top := limit / 0x1_0000;
    assert 0 <= top < 0x10 && top % 0x10 == top;
    assert (top + high * 0x10) % 0x10 == top;
  }

  /** The top bit of that byte is the granularity. */
  lemma AttributeBits(attribute: int, top: int)
    requires 0 <= attribute < U16 && 0 <= top < 0x10
    ensures (top % 0x10 + attribute / 0x100 % 0x100 / 0x10 * 0x10) / 0x80 % 2 == 1 <==> attribute / DA_LIMIT_4K % 2 == 1
  {
    var high := attribute / 0x100 % 0x100 / 0x10;
    assert attribute / 0x100 < 0x100 && attribute / 0x8000 == high / 8;
    assert (top + high * 0x10) / 0x80 == high / 8;
  }

  /** va2la, without the assertion for native processes. */
  function LinearAddress(p: Proc, va: int): int {
    (BaseOf(p.ldtRW) + va) % U32
  }

  function SlotBase(pid: int): int {
    PROCS_BASE + (pid - FIRST_FORKED) * PROC_IMAGE_SIZE_DEFAULT
  }

  /** The first slot starts at 10 MB, each has 2 MB, and each starts where the one before it ends. */
  lemma SlotsFollowEachOther(pid: int)
    ensures SlotBase(9) == 0xA0_0000 && SlotBase(pid + 1) == SlotBase(pid) + 0x20_0000
    ensures SlotBase(pid) == 0xA0_0000 + (pid - 9) * 0x20_0000
  {
  }

  datatype Allocation = Allocated(base: int) | OutOfMemory

  /** alloc_mem; both refusals are panics. */
  function AllocMem(pid: int, memSize: int, memorySize: int): (r: Allocation)
    requires FIRST_FORKED <= pid < N
    ensures r.Allocated? ==> PROCS_BASE <= r.base < U32
  {
    if memSize > PROC_IMAGE_SIZE_DEFAULT then OutOfMemory
    else if SlotBase(pid) + memSize >= memorySize then OutOfMemory
    else Allocated(SlotBase(pid))
  }

  function CodeSegment(base: int): Descriptor
    requires 0 <= base < U32
  {
    InitDescriptor(base, (PROC_IMAGE_SIZE_DEFAULT - 1) / 4096, DA_LIMIT_4K + DA_32 + DA_C + PRIVILEGE_USER * 0x20)
  }

  function DataSegment(base: int): Descriptor
    requires 0 <= base < U32
  {
    InitDescriptor(base, (PROC_IMAGE_SIZE_DEFAULT - 1) / 4096, DA_LIMIT_4K + DA_32 + DA_DRW + PRIVILEGE_USER * 0x20)
  }

  /** The segments of process p are those do_fork gives to slot pid. */
  predicate HasSlot(p: Proc, pid: int) {
    FIRST_FORKED <= pid < N && p.ldtC == CodeSegment(SlotBase(pid)) && p.ldtRW == DataSegment(SlotBase(pid))
  }

  lemma SlotDecodes(p: Proc, pid: int)
    requires HasSlot(p, pid)
    ensures BaseOf(p.ldtC) == BaseOf(p.ldtRW) == SlotBase(pid) == 0xA0_0000 + (pid - 9) * 0x20_0000
    ensures LimitOf(p.ldtC) == LimitOf(p.ldtRW)
    ensures SizeOf(p.ldtC) == SizeOf(p.ldtRW) == PROC_IMAGE_SIZE_DEFAULT
  {
    var limit := (PROC_IMAGE_SIZE_DEFAULT - 1) / 4096;
    EncodeDecode(SlotBase(pid), limit, DA_LIMIT_4K + DA_32 + DA_C + PRIVILEGE_USER * 0x20);
    EncodeDecode(SlotBase(pid), limit, DA_LIMIT_4K + DA_32 + DA_DRW + PRIVILEGE_USER * 0x20);
  }

  lemma SlotFits(pid: int)
    requires FIRST_FORKED <= pid < N
    ensures PROCS_BASE <= SlotBase(pid) && SlotBase(pid) + PROC_IMAGE_SIZE_DEFAULT < U32
  {
  }

  lemma SlotTranslation(p: Proc, pid: int, va: int)
    requires HasSlot(p, pid) && 0 <= va < SizeOf(p.ldtRW)
    ensures LinearAddress(p, va) == SlotBase(pid) + va == 0xA0_0000 + (pid - 9) * 0x20_0000 + va
    ensures PROCS_BASE <= SlotBase(pid) <= LinearAddress(p, va) < SlotBase(pid) + PROC_IMAGE_SIZE_DEFAULT
  {
    SlotDecodes(p, pid);
    SlotFits(pid);
    InRange(SlotBase(pid) + va);
  }

  /**
   The segments start at 10 MB and pid - 9 times 2 MB, have 2 MB, and take each address to its distance from there.
   */
  lemma SlotIsInPlace(p: Proc, pid: int, va: int)
    requires HasSlot(p, pid) && 0 <= va < 0x20_0000
    ensures var place := 0xA0_0000 + (pid - 9) * 0x20_0000;
            && BaseOf(p.ldtC) == BaseOf(p.ldtRW) == place
            && SegmentSize(p.ldtC) == SegmentSize(p.ldtRW) == 0x20_0000
            && LinearAddress(p, va) == place + va
  {
    SlotDecodes(p, pid);
    SizeIsExact(p.ldtC);
    SizeIsExact(p.ldtRW);
    SlotTranslation(p, pid, va);
  }

  lemma InRange(address: int)
    requires 0 <= address < U32
    ensures address % U32 == address
  {
  }

  lemma SlotsApart(i: int, j: int)
    requires i < j
    ensures SlotBase(i) + PROC_IMAGE_SIZE_DEFAULT <= SlotBase(j)
  {
    assert (j - i) * PROC_IMAGE_SIZE_DEFAULT >= PROC_IMAGE_SIZE_DEFAULT;
  }

  /**
   Two forked processes never share memory: an address that is within the segment of
   one translates to its own 2MB slot above PROCS_BASE, and to no other process's.
   */
  lemma SlotsAreIsolated(p: Proc, i: int, q: Proc, j: int, va: int, vb: int)
    requires HasSlot(p, i) && HasSlot(q, j) && i != j
    requires 0 <= va < SizeOf(p.ldtRW) && 0 <= vb < SizeOf(q.ldtRW)
    ensures LinearAddress(p, va) != LinearAddress(q, vb)
  {
    SlotTranslation(p, i, va);
    SlotTranslation(q, j, vb);
    if i < j {
      SlotsApart(i, j);
    } else {
      SlotsApart(j, i);
    }
  }

  /**
   What alloc_mem grants: the place that belongs to the slot, if the request fits into 2 MB and below memory's end.
   */
  lemma AllocationIsPlaced(pid: int, memSize: int, memorySize: int)
    requires FIRST_FORKED <= pid < N
    ensures var place := 0xA0_0000 + (pid - 9) * 0x20_0000;
            AllocMem(pid, memSize, memorySize) ==
            if memSize <= 0x20_0000 && place + memSize < memorySize then Allocated(place) else OutOfMemory
  {
    SlotsFollowEachOther(pid);
  }

  /** What alloc_mem grants to two processes is apart, from 10 MB on and below the end of memory. */
  lemma AllocationsAreApart(i: int, m: nat, j: int, n: nat, memorySize: int)
    requires FIRST_FORKED <= i < j < N
    ensures var a, b := AllocMem(i, m, memorySize), AllocMem(j, n, memorySize);
            a.Allocated? && b.Allocated? ==>
              && a.base == 0xA0_0000 + (i - 9) * 0x20_0000 && b.base == a.base + (j - i) * 0x20_0000
              && a.base + m <= b.base && b.base + n < memorySize
  {
    SlotsApart(i, j);
  }
}
