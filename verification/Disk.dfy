/**
 The ATA disk as the driver sees it: a sequence of bytes that a read command delivers sector
 by sector, with one interrupt for each, and the driver's hd_read_bytes on top of it.
 */
module Disk {
  const SECTOR_SIZE := 512
  const MAX_LBA := 0x1000_0000
  const ATA_READ_MAX := 256

  type Byte = x: int | 0 <= x < 256

  /** The task-file registers of a read command. */
  datatype Command = Command(count: Byte, lbaLow: Byte, lbaMid: Byte, lbaHigh: Byte, device: Byte)

  /** How a driver call ends: with the data, at a failed assert(), or waiting for an interrupt that never comes. */
  datatype Outcome = Completed | AssertionFailed | Stuck

  /** The number of sectors that hold n bytes. */
  function Sectors(n: nat): nat {
    (n + SECTOR_SIZE - 1) / SECTOR_SIZE
  }

  /** The bytes on a disk from the start of a sector. */
  function BytesAt(disk: seq<Byte>, lba: nat, n: nat): seq<Byte>
    requires lba * SECTOR_SIZE + n <= |disk|
  {
    disk[lba * SECTOR_SIZE..lba * SECTOR_SIZE + n]
  }

  /**
   What the driver writes into the registers: the device register is MAKE_DEVICE_REG(1, driver, lba bits 24 to 27).
   */
  function ReadCommand(driver: int, lba: nat, sectors: nat): Command
    requires driver == 0 || driver == 1
  {
    Command(sectors % 256, lba % 256, lba / 0x100 % 256, lba / 0x1_0000 % 256,
            0xE0 + 16 * driver + lba / 0x100_0000 % 16)
  }

  // What the drive makes of the registers (ATA: LBA28 addressing, a count of 0 asks for 256 sectors).

  function Selected(c: Command): int {
    c.device / 16 % 2
  }

  function FirstSector(c: Command): nat {
    c.lbaLow + 0x100 * c.lbaMid + 0x1_0000 * c.lbaHigh + 0x100_0000 * (c.device % 16)
  }

  function SectorCount(c: Command): nat {
    if c.count == 0 then ATA_READ_MAX else c.count
  }

  lemma DeviceRegister(driver: int, top: int)
    requires (driver == 0 || driver == 1) && 0 <= top < 16
    ensures var device := 0xE0 + 16 * driver + top; device % 16 == top && device / 16 % 2 == driver
  {
  }

  /** The four address fields hold the low 28 bits. */
  lemma AddressBytes(lba: nat)
    ensures lba % 256 + 0x100 * (lba / 0x100 % 256) + 0x1_0000 * (lba / 0x1_0000 % 256)
            + 0x100_0000 * (lba / 0x100_0000 % 16) == lba % MAX_LBA
  {
    assert lba / 0x1_0000 == lba / 0x100 / 256;
    assert lba / 0x100_0000 == lba / 0x100 / 256 / 256;
    assert lba / MAX_LBA == lba / 0x100 / 256 / 256 / 16;
  }

  /** Driver and drive agree on every sector that LBA28 can address, and on every count from 1 to 256. */
  lemma CommandIsUnderstood(driver: int, lba: nat, sectors: nat)
    requires driver == 0 || driver == 1
    ensures Selected(ReadCommand(driver, lba, sectors)) == driver
    ensures FirstSector(ReadCommand(driver, lba, sectors)) == lba <==> lba < MAX_LBA
    ensures SectorCount(ReadCommand(driver, lba, sectors)) == sectors <==> 1 <= sectors <= ATA_READ_MAX
  {
    DeviceRegister(driver, lba / 0x100_0000 % 16);
    AddressBytes(lba);
  }

  /**
   The registers as the ATA standard numbers their bits: the low 24 bits of the address in three bytes, bits 24 to 27
   in the low half of the device register, the drive in its bit 4, and LBA mode in bit 6.
   */
  lemma RegistersNameTheSector(driver: int, lba: nat, sectors: nat)
    requires (driver == 0 || driver == 1) && lba < 0x1000_0000
    ensures var c := ReadCommand(driver, lba, sectors);
            && c.lbaLow + 0x100 * c.lbaMid + 0x1_0000 * c.lbaHigh == lba % 0x100_0000
            && c.device % 0x10 == lba / 0x100_0000 && c.device / 0x10 == 14 + driver
            && c.count == sectors % 0x100
  {
    DeviceRegister(driver, lba / 0x100_0000 % 16);
    AddressBytes(lba);
    assert lba % 0x100_0000 == lba - lba / 0x100_0000 * 0x100_0000;
  }

  /**
   Exactly the requests of up to 128 KB are answered with enough sectors, and then with none to spare, except
   that a request for no bytes has the drive read 256 sectors.
   */
  lemma EnoughSectors(driver: int, lba: nat, n: nat)
    requires driver == 0 || driver == 1
    ensures var given := SectorCount(ReadCommand(driver, lba, Sectors(n)));
            && (Sectors(n) <= given <==> n <= ATA_READ_MAX * SECTOR_SIZE)
            && (Sectors(n) <= given ==> given - Sectors(n) == if n > 0 then 0 else ATA_READ_MAX)
  {
    assert Sectors(n) <= ATA_READ_MAX <==> n <= ATA_READ_MAX * SECTOR_SIZE;
    assert n > 0 <==> Sectors(n) > 0;
    CommandIsUnderstood(driver, lba, Sectors(n));
  }

  /** The driver's rounding up. */
  lemma RoundedUp(n: nat)
    ensures n / SECTOR_SIZE + (if n % SECTOR_SIZE != 0 then 1 else 0) == Sectors(n)
  {
  }

  /** The part used of sector lba + k continues what was read before it. */
  lemma SectorJoins(disk: seq<Byte>, lba: nat, k: nat, size: nat)
    requires (lba + k + 1) * SECTOR_SIZE <= |disk| && size <= SECTOR_SIZE
    ensures BytesAt(disk, lba, k * SECTOR_SIZE) + BytesAt(disk, lba + k, SECTOR_SIZE)[..size] ==
            BytesAt(disk, lba, k * SECTOR_SIZE + size)
  {
  }

  /** data stands at position at, and nothing else has changed. */
  ghost predicate Wrote(before: seq<Byte>, after: seq<Byte>, at: nat, data: seq<Byte>) {
    && at + |data| <= |before| == |after|
    && forall k {:trigger after[k]} :: 0 <= k < |before| ==>
       after[k] == if at <= k < at + |data| then data[k - at] else before[k]
  }

  lemma WroteMore(before: seq<Byte>, middle: seq<Byte>, after: seq<Byte>, at: nat, data: seq<Byte>, more: seq<Byte>)
    requires Wrote(before, middle, at, data) && Wrote(middle, after, at + |data|, more)
    ensures Wrote(before, after, at, data + more)
  {
    forall k | 0 <= k < |before|
      ensures after[k] == if at <= k < at + |data + more| then (data + more)[k - at] else before[k]
    {
      assert middle[k] == if at <= k < at + |data| then data[k - at] else before[k];
    }
  }

  lemma WroteNothing(before: seq<Byte>, after: seq<Byte>, at: nat)
    requires Wrote(before, after, at, [])
    ensures after == before
  {
  }

  lemma WroteEmpty(s: seq<Byte>)
    ensures Wrote(s, s, 0, [])
  {
  }

  /** What is left of n bytes after k sectors. */
  function RestAfter(n: nat, k: nat): nat {
    if k * SECTOR_SIZE < n then n - k * SECTOR_SIZE else 0
  }

  lemma RestShrinks(n: nat, k: nat)
    requires RestAfter(n, k) > 0
    ensures k < Sectors(n) && n - RestAfter(n, k) == k * SECTOR_SIZE
    ensures RestAfter(n, k + 1) == if RestAfter(n, k) > SECTOR_SIZE then RestAfter(n, k) - SECTOR_SIZE else 0
    ensures RestAfter(n, k + 1) == 0 ==> k + 1 == Sectors(n)
  {
  }

  class Drive {
    const disks: seq<seq<Byte>>
    // The running command: which disk, the next sector to hand over, and how many are left.
    var disk: int
    var sector: nat
    var left: nat
    // The driver's own sector buffer, and the interrupts it has taken.
    const hdbuf: array<Byte>
    ghost var interrupts: nat

    ghost predicate Valid()
      reads this
    {
      && |disks| == 2 && (disk == 0 || disk == 1)
      && hdbuf.Length == 2 * SECTOR_SIZE
      && (left > 0 ==> (sector + 1) * SECTOR_SIZE <= |disks[disk]|)
    }

    constructor (disks: seq<seq<Byte>>)
      requires |disks| == 2
      ensures Valid() && this.disks == disks && interrupts == 0 && fresh(hdbuf)
    {
      this.disks := disks;
      disk := 0;
      sector := 0;
      left := 0;
      hdbuf := new Byte[2 * SECTOR_SIZE](i => 0);
      interrupts := 0;
    }

    /** The drive starts a read. */
    method Start(c: Command)
      requires |disks| == 2
      modifies this`disk, this`sector, this`left
      ensures disk == Selected(c) && sector == FirstSector(c) && left == SectorCount(c)
    {
      disk := Selected(c);
      sector := FirstSector(c);
      left := SectorCount(c);
    }

    /** interrupt_wait and port_read: one interrupt, then one sector; without a sector to come it waits for ever. */
    method NextSector() returns (came: bool)
      requires |disks| == 2 && (disk == 0 || disk == 1) && hdbuf.Length == 2 * SECTOR_SIZE
      requires left > 0 ==> (sector + 1) * SECTOR_SIZE <= |disks[disk]|
      modifies this`sector, this`left, this`interrupts, hdbuf
      ensures came == (old(left) > 0)
      ensures came ==> left == old(left) - 1 && sector == old(sector) + 1 && interrupts == old(interrupts) + 1
      ensures came ==> hdbuf[..SECTOR_SIZE] == BytesAt(disks[disk], old(sector), SECTOR_SIZE)
      ensures !came ==> left == old(left) && sector == old(sector) && interrupts == old(interrupts)
    {
      came := left > 0;
      if came {
        interrupts := interrupts + 1;
        forall i | 0 <= i < SECTOR_SIZE {
          hdbuf[i] := disks[disk][sector * SECTOR_SIZE + i];
        }
        sector := sector + 1;
        left := left - 1;
      }
    }

    /** Reads n bytes from the start of sector lba into data, from index at on. */
    method HdReadBytes(driver: int, lba: nat, n: nat, data: array<Byte>, at: nat) returns (r: Outcome)
      requires Valid() && data != hdbuf && at + n <= data.Length
      requires driver == 0 || driver == 1 ==>
                 var end := lba + SectorCount(ReadCommand(driver, lba, Sectors(n)));
                 end * SECTOR_SIZE <= |disks[driver]| && end <= MAX_LBA
      modifies this`disk, this`sector, this`left, this`interrupts, hdbuf, data
      ensures Valid()
      ensures r == if driver != 0 && driver != 1 then AssertionFailed
                   else if n <= ATA_READ_MAX * SECTOR_SIZE then Completed else Stuck
      ensures r == Completed ==>
                && Wrote(old(data[..]), data[..], at, BytesAt(disks[driver], lba, n))
                && interrupts == old(interrupts) + Sectors(n)
                && left == (if n > 0 then 0 else ATA_READ_MAX)
      ensures r == AssertionFailed ==> data[..] == old(data[..]) && interrupts == old(interrupts)
    {
      if driver != 0 && driver != 1 {
        return AssertionFailed;
      }
      var sectors := n / SECTOR_SIZE;
      if n % SECTOR_SIZE != 0 {
        sectors := sectors + 1;
      }
      RoundedUp(n);
      Start(ReadCommand(driver, lba, sectors));
      CommandIsUnderstood(driver, lba, sectors);
      EnoughSectors(driver, lba, n);
      var done := Transfer(lba, n, data, at);
      if !done {
        return Stuck;
      }
      r := Completed;
    }

    /** The loop of hd_read_bytes: one interrupt and one sector at a time, the last one perhaps in part. */
    method Transfer(ghost lba: nat, n: nat, data: array<Byte>, at: nat) returns (done: bool)
      requires Valid() && data != hdbuf && at + n <= data.Length
      requires sector == lba && (lba + left) * SECTOR_SIZE <= |disks[disk]|
      modifies this`sector, this`left, this`interrupts, hdbuf, data
      ensures Valid()
      ensures done == (Sectors(n) <= old(left))
      ensures done ==>
                && lba * SECTOR_SIZE + n <= |disks[disk]|
                && Wrote(old(data[..]), data[..], at, BytesAt(disks[disk], lba, n))
                && interrupts == old(interrupts) + Sectors(n) && left == old(left) - Sectors(n)
    {
      var p := at;
      var toRead := n;
      ghost var k, got := 0, 0;
      while toRead > 0
        invariant 0 <= k && 0 <= toRead && got + toRead == n && p == at + got && toRead == RestAfter(n, k)
        invariant Valid() && k <= old(left) && sector == lba + k && left == old(left) - k
        invariant toRead > 0 || k == Sectors(n)
        invariant interrupts == old(interrupts) + k
        invariant lba * SECTOR_SIZE + got <= |disks[disk]|
        invariant Wrote(old(data[..]), data[..], at, BytesAt(disks[disk], lba, got))
      {
        var size := if toRead > SECTOR_SIZE then SECTOR_SIZE else toRead;
        RestShrinks(n, k);
        var came := SectorInto(old(data[..]), data, at, p, size, lba, k, got);
        if !came {
          return false;
        }
        p := p + size;
        toRead := toRead - size;
        k, got := k + 1, got + size;
      }
      done := true;
    }

    /** One turn of that loop. */
    method SectorInto(ghost before: seq<Byte>, data: array<Byte>, ghost at: nat, p: nat, size: nat,
                      ghost lba: nat, ghost k: nat, ghost got: nat) returns (came: bool)
      requires Valid() && data != hdbuf && size <= SECTOR_SIZE
      requires p == at + got && got == k * SECTOR_SIZE && p + size <= data.Length
      requires sector == lba + k && (sector + left) * SECTOR_SIZE <= |disks[disk]|
      requires lba * SECTOR_SIZE + got <= |disks[disk]|
      requires Wrote(before, data[..], at, BytesAt(disks[disk], lba, got))
      modifies this`sector, this`left, this`interrupts, hdbuf, data
      ensures Valid() && came == (old(left) > 0)
      ensures came ==>
                && left == old(left) - 1 && sector == old(sector) + 1 && interrupts == old(interrupts) + 1
                && lba * SECTOR_SIZE + got + size <= |disks[disk]|
                && Wrote(before, data[..], at, BytesAt(disks[disk], lba, got + size))
    {
      came := NextSector();
      if came {
        CopyIn(data, p, size);
        SectorJoins(disks[disk], lba, k, size);
        assert hdbuf[..size] == hdbuf[..SECTOR_SIZE][..size];
        WroteMore(before, old(data[..]), data[..], at, BytesAt(disks[disk], lba, got), hdbuf[..size]);
      }
    }

    /** memcpy out of the sector buffer. */
    method CopyIn(data: array<Byte>, p: nat, size: nat)
      requires data != hdbuf && p + size <= data.Length && size <= hdbuf.Length
      modifies data
      ensures Wrote(old(data[..]), data[..], p, hdbuf[..size])
    {
      forall i | 0 <= i < size {
        data[p + i] := hdbuf[i];
      }
    }
  }
}
