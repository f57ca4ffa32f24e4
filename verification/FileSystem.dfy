/**
 The file system driver as the source has it: a volume record that read_vbr_16 fills in, and
 the reading of a file in two phases, the rest of its first cluster and then a chain of clusters.
 */
module FileSystem {
  import opened Disk
  import opened Fat
  import opened Wrappers

  class FileSystem {
    const drive: Drive
    const fat: array<Byte>
    var vbr: Vbr
    var layout: Layout

    ghost predicate Valid()
      reads this, drive
    {
      drive.Valid() && fat.Length == 2 * FAT_ENTRY_NUM && fat != drive.hdbuf
    }

    constructor (drive: Drive)
      requires drive.Valid()
      ensures Valid() && this.drive == drive && fresh(fat)
    {
      this.drive := drive;
      fat := new Byte[2 * FAT_ENTRY_NUM](i => 0);
      vbr := Vbr(0, 0, 0, 0, 0, 0);
      layout := Layout(0, 0, 0, 0);
    }

    /** read_fat: loads the table sector by sector. */
    method ReadFat()
      requires Valid() && vbr.fatSectors * SECTOR_SIZE <= fat.Length
      requires var end := ASSUMED_PARTITION_START + vbr.reserved + vbr.fatSectors;
               end * SECTOR_SIZE <= |drive.disks[0]| && end <= MAX_LBA
      modifies drive, drive.hdbuf, fat
      ensures Valid()
      ensures Wrote(old(fat[..]), fat[..], 0, LoadedTable(drive.disks[0], vbr))
      ensures drive.interrupts == old(drive.interrupts) + vbr.fatSectors
    {
      var first := ASSUMED_PARTITION_START + vbr.reserved;
      var i := 0;
      while i < vbr.fatSectors
        invariant 0 <= i <= vbr.fatSectors && Valid()
        invariant Wrote(old(fat[..]), fat[..], 0, BytesAt(drive.disks[0], first, i * SECTOR_SIZE))
        invariant drive.interrupts == old(drive.interrupts) + i
      {
        LoadSector(old(fat[..]), first, i);
        i := i + 1;
      }
    }

    /** The body of that loop. */
    method LoadSector(ghost before: seq<Byte>, first: nat, i: nat)
      requires Valid() && (i + 1) * SECTOR_SIZE <= fat.Length
      requires (first + i + 1) * SECTOR_SIZE <= |drive.disks[0]| && first + i + 1 <= MAX_LBA
      requires Wrote(before, fat[..], 0, BytesAt(drive.disks[0], first, i * SECTOR_SIZE))
      modifies drive, drive.hdbuf, fat
      ensures Valid()
      ensures Wrote(before, fat[..], 0, BytesAt(drive.disks[0], first, (i + 1) * SECTOR_SIZE))
      ensures drive.interrupts == old(drive.interrupts) + 1
    {
      var _ := drive.HdReadBytes(0, first + i, SECTOR_SIZE, fat, i * SECTOR_SIZE);
      SectorJoins(drive.disks[0], first, i, SECTOR_SIZE);
      WroteMore(before, old(fat[..]), fat[..], 0, BytesAt(drive.disks[0], first, i * SECTOR_SIZE),
                BytesAt(drive.disks[0], first + i, SECTOR_SIZE));
    }

    /** The part of read_vbr_16 that lays the volume out and loads its table. */
    method Mount(partStart: nat, record: Vbr)
      requires Valid() && record.fatSectors * SECTOR_SIZE <= fat.Length
      requires var end := ASSUMED_PARTITION_START + record.reserved + record.fatSectors;
               end * SECTOR_SIZE <= |drive.disks[0]| && end <= MAX_LBA
      modifies this`vbr, this`layout, drive, drive.hdbuf, fat
      ensures Valid() && vbr == record && layout == LayOut(partStart, record)
      ensures Wrote(old(fat[..]), fat[..], 0, LoadedTable(drive.disks[0], record))
    {
      vbr := record;
      var fatStart := partStart + vbr.reserved;
      var rootStart := fatStart + vbr.fatSectors * vbr.nfat;
      var rootSectors := (vbr.maxRootDir * DIR_ENTRY_BYTES + (SECTOR_SIZE - 1)) / SECTOR_SIZE;
      layout := Layout(fatStart, rootStart, rootSectors, rootStart + rootSectors);
      ReadFat();
    }

    /** The data of the chain lies on the disk. */
    ghost predicate Readable(cs: seq<int>)
      reads this, drive, fat
    {
      Valid() && IsChain(fat[..], cs) && AllOnDisk(drive.disks[0], layout.dataStart, cs)
    }

    /** get_offest_cluster: follows the chain to the cluster that holds the byte at offset, or past its end. */
    method GetOffsetCluster(start: int, offset: nat, ghost path: seq<int>) returns (c: int)
      requires IsPath(fat[..], path) && start == path[0] && offset / ONE_CLUSTER_BYTES < |path|
      ensures c == path[offset / ONE_CLUSTER_BYTES]
    {
      var n := offset / ONE_CLUSTER_BYTES;
      c := start;
      while n > 0
        invariant 0 <= n <= offset / ONE_CLUSTER_BYTES < |path|
        invariant c == path[offset / ONE_CLUSTER_BYTES - n]
      {
        c := NextCluster(fat[..], c);
        n := n - 1;
      }
    }

    /** read_one_cluster: reads a whole cluster and copies size bytes of it, or its rest if size is 0. */
    method ReadOneCluster(buf: array<Byte>, cluster: int, start: nat, size: nat) returns (r: Outcome)
      requires Valid() && buf != drive.hdbuf && HasSectors(drive.disks[0], layout.dataStart, cluster)
      requires start + size <= ONE_CLUSTER_BYTES ==> Copied(start, size) <= buf.Length
      modifies drive, drive.hdbuf, buf
      ensures Valid()
      ensures r == if start + size <= ONE_CLUSTER_BYTES then Completed else AssertionFailed
      ensures r == Completed ==>
                var n := Copied(start, size);
                && Wrote(old(buf[..]), buf[..], 0,
                         ClusterBytes(drive.disks[0], layout.dataStart, cluster)[start..start + n])
                && drive.interrupts == old(drive.interrupts) + CLUSTER_SIZE
      ensures r == AssertionFailed ==> buf[..] == old(buf[..]) && drive.interrupts == old(drive.interrupts)
    {
      if start + size > ONE_CLUSTER_BYTES {
        return AssertionFailed;
      }
      var n := size;
      if n == 0 {
        n := ONE_CLUSTER_BYTES - start;
      }
      var hdBuf := new Byte[ONE_CLUSTER_BYTES](i => 0);
      var lba := layout.dataStart + (cluster - 2) * CLUSTER_SIZE;
      r := drive.HdReadBytes(0, lba, ONE_CLUSTER_BYTES, hdBuf, 0);
      assert hdBuf[..] == BytesAt(drive.disks[0], lba, ONE_CLUSTER_BYTES);
      CopyOut(buf, hdBuf, start, n);
    }

    /** memcpy out of the cluster buffer. */
    static method CopyOut(buf: array<Byte>, from: array<Byte>, start: nat, n: nat)
      requires buf != from && start + n <= from.Length && n <= buf.Length
      modifies buf
      ensures Wrote(old(buf[..]), buf[..], 0, from[..][start..start + n])
    {
      forall i | 0 <= i < n {
        buf[i] := from[start + i];
      }
    }

    /** The constants that the driver is compiled for are the ones of the volume. */
    predicate SameGeometry()
      reads this
    {
      vbr.clusterSize == CLUSTER_SIZE && vbr.sectorSize == SECTOR_SIZE
    }

    /** Reads the first m bytes of the k-th cluster behind the bytes got of the clusters before it. */
    method Append(ghost before: seq<Byte>, buf: array<Byte>, ghost at: nat, p: nat, m: nat, lba: nat,
                  ghost cs: seq<int>, ghost k: nat, ghost got: nat)
      requires Readable(cs) && buf != drive.hdbuf && buf != fat && k < |cs|
      requires lba == ClusterStart(layout.dataStart, cs[k])
      requires 0 < m <= ONE_CLUSTER_BYTES && got == k * ONE_CLUSTER_BYTES && p == at + got && p + m <= buf.Length
      requires Wrote(before, buf[..], at, Contents(drive.disks[0], layout.dataStart, cs)[..got])
      modifies drive, drive.hdbuf, buf
      ensures Readable(cs) && got + m <= |cs| * ONE_CLUSTER_BYTES
      ensures Wrote(before, buf[..], at, Contents(drive.disks[0], layout.dataStart, cs)[..got + m])
      ensures drive.interrupts - Sectors(got + m) == old(drive.interrupts) - Sectors(got)
    {
      assert OnDisk(drive.disks[0], layout.dataStart, cs[k]);
      var _ := drive.HdReadBytes(0, lba, m, buf, p);
      ClusterJoins(drive.disks[0], layout.dataStart, cs, k, m);
      SectorsOfClusters(k, m);
      SectorsOfClusters(k, 0);
      WroteMore(before, old(buf[..]), buf[..], at, Contents(drive.disks[0], layout.dataStart, cs)[..got],
                BytesAt(drive.disks[0], lba, m));
    }

    /**
     read_cluster_chain: reads size bytes, or as many as the chain has, from its first cluster on; a size of 0
     has it read nothing.
     */
    method ReadClusterChain(buf: array<Byte>, at: nat, size: nat, start: int, ghost cs: seq<int>)
      returns (r: Outcome, n: nat)
      requires Valid() && buf != drive.hdbuf && buf != fat && at + size <= buf.Length
      requires size > 0 ==> Readable(cs) && cs[0] == start
      modifies drive, drive.hdbuf, buf
      ensures Valid()
      ensures r == if SameGeometry() then Completed else AssertionFailed
      ensures SameGeometry() <==> vbr.clusterSize == 4 && vbr.sectorSize == 512
      ensures r == Completed && size > 0 ==>
                && n == Min(size, |cs| * ONE_CLUSTER_BYTES)
                && Wrote(old(buf[..]), buf[..], at, Contents(drive.disks[0], layout.dataStart, cs)[..n])
                && drive.interrupts == old(drive.interrupts) + Sectors(n)
      ensures r == AssertionFailed || size == 0 ==>
                n == 0 && buf[..] == old(buf[..]) && drive.interrupts == old(drive.interrupts)
    {
      if !SameGeometry() {
        return AssertionFailed, 0;
      }
      n := FollowChain(buf, at, size, start, cs);
      r := Completed;
    }

    /** The loop of read_cluster_chain. */
    method FollowChain(buf: array<Byte>, at: nat, size: nat, start: int, ghost cs: seq<int>) returns (n: nat)
      requires Valid() && buf != drive.hdbuf && buf != fat && at + size <= buf.Length
      requires size > 0 ==> Readable(cs) && cs[0] == start
      modifies drive, drive.hdbuf, buf
      ensures Valid()
      ensures size > 0 ==>
                && (n == size <= |cs| * ONE_CLUSTER_BYTES || n == |cs| * ONE_CLUSTER_BYTES < size)
                && Wrote(old(buf[..]), buf[..], at, Contents(drive.disks[0], layout.dataStart, cs)[..n])
                && drive.interrupts == old(drive.interrupts) + Sectors(n)
      ensures size == 0 ==> n == 0 && buf[..] == old(buf[..]) && drive.interrupts == old(drive.interrupts)
    {
      n := 0;
      ghost var k := 0;
      var left := size;
      var cur := start;
      WroteEmpty(buf[..]);
      assert size > 0 ==> Contents(drive.disks[0], layout.dataStart, cs)[..0] == [];
      while left > 0
        invariant n + left == size && 0 <= left
        invariant size == 0 ==> buf[..] == old(buf[..]) && drive.interrupts == old(drive.interrupts) && Valid()
        invariant size > 0 ==> Readable(cs) && 0 <= k < |cs| && n <= |cs| * ONE_CLUSTER_BYTES
        invariant left > 0 ==> n == k * ONE_CLUSTER_BYTES && cur == cs[k]
        invariant size > 0 ==> Wrote(old(buf[..]), buf[..], at, Contents(drive.disks[0], layout.dataStart, cs)[..n])
        invariant size > 0 ==> drive.interrupts - Sectors(n) == old(drive.interrupts)
        decreases left
      {
        var readSize;
        readSize, cur := ReadNext(old(buf[..]), buf, at, at + n, left, cur, cs, k, n);
        n := n + readSize;
        left := left - readSize;
        if cur == 0 {
          break;
        }
        k := k + 1;
      }
    }

    /** The body of that loop: one cluster, or what is left of the request, and the step to the next cluster. */
    method ReadNext(ghost before: seq<Byte>, buf: array<Byte>, ghost at: nat, p: nat, left: nat, cur: int,
                    ghost cs: seq<int>, ghost k: nat, ghost got: nat) returns (readSize: nat, next: int)
      requires Readable(cs) && buf != drive.hdbuf && buf != fat && k < |cs| && cur == cs[k] && left > 0
      requires got == k * ONE_CLUSTER_BYTES && p == at + got && p + left <= buf.Length
      requires Wrote(before, buf[..], at, Contents(drive.disks[0], layout.dataStart, cs)[..got])
      modifies drive, drive.hdbuf, buf
      ensures Readable(cs) && readSize == Min(left, ONE_CLUSTER_BYTES) && got + readSize <= |cs| * ONE_CLUSTER_BYTES
      ensures next == (if k + 1 < |cs| then cs[k + 1] else 0) && (k + 1 < |cs| ==> next != 0)
      ensures Wrote(before, buf[..], at, Contents(drive.disks[0], layout.dataStart, cs)[..got + readSize])
      ensures drive.interrupts - Sectors(got + readSize) == old(drive.interrupts) - Sectors(got)
    {
      readSize := if left > ONE_CLUSTER_BYTES then ONE_CLUSTER_BYTES else left;
      assert IsCluster(cs[k]);
      NextInChain(fat[..], cs, k);
      Append(before, buf, at, p, readSize, layout.dataStart + (cur - 2) * CLUSTER_SIZE, cs, k, got);
      next := NextCluster(fat[..], cur);
    }

    /**
     The precondition of a read: the file's chain, of which the bytes lie on the disk, and room for what is copied.
     Past the end of the chain the code reads what it takes for cluster 0, eight sectors before the data.
     */
    ghost predicate Serves(start: int, buf: array<Byte>, offset: nat, wanted: nat, cs: seq<int>)
      reads this, drive, fat
    {
      var k := offset / ONE_CLUSTER_BYTES;
      && Valid() && buf != drive.hdbuf && buf != fat
      && ChainOf(fat[..], start, cs) && LeadsTo(fat[..], cs, k) && AllOnDisk(drive.disks[0], layout.dataStart, cs)
      && wanted <= buf.Length && Copied(offset % ONE_CLUSTER_BYTES, FirstPiece(offset, wanted)) <= buf.Length
      && (k >= |cs| ==>
            && HasSectors(drive.disks[0], layout.dataStart, 0)
            && (FirstPiece(offset, wanted) < wanted ==> NextCluster(fat[..], 0) == 0))
    }

    /** What becomes of a read. */
    ghost predicate Reads(before: seq<Byte>, after: seq<Byte>, taken: int, offset: nat, wanted: nat,
                          cs: seq<int>, r: Outcome, n: nat)
      requires Valid() && AllOnDisk(drive.disks[0], layout.dataStart, cs)
      requires offset >= |cs| * ONE_CLUSTER_BYTES ==> HasSectors(drive.disks[0], layout.dataStart, 0)
      reads this, drive, fat
    {
      if offset < |cs| * ONE_CLUSTER_BYTES
      then ReadsChain(drive.disks[0], layout.dataStart, cs, SameGeometry(), before, after, taken, offset, wanted, r, n)
      else ReadsClusterZero(drive.disks[0], layout.dataStart, fat[..], SameGeometry(), before, after, taken, offset,
                            wanted, r, n)
    }

    /**
     read_file, for the entry that the path lookup has found: copies the wanted part of the chain's
     contents into buf, cut short only if the chain ends before. If nothing is wanted it returns 0, but
     copies the rest of a cluster all the same: the last one of the chain, or, if the file is empty or fills its
     last cluster, eight sectors before the data on.
     */
    method ReadFile(entry: Option<Entry>, buf: array<Byte>, offset: nat, count: nat, ghost cs: seq<int>)
      returns (r: Outcome, n: nat)
      requires Valid() && buf != drive.hdbuf && buf != fat
      requires entry.Some? ==> entry.value.fileSize < 0x1_0000_0000 && Plain(entry.value.fileSize, offset, count)
      requires entry.Some? && Passes(entry.value.fileSize, offset, count) ==>
                 Serves(entry.value.startCluster, buf, offset, Wanted(entry.value.fileSize, offset, count), cs)
      modifies drive, drive.hdbuf, buf
      ensures Valid()
      ensures entry.None? ==> r == Completed && n == 0 && buf[..] == old(buf[..])
      ensures entry.Some? && !Passes(entry.value.fileSize, offset, count) ==>
                r == AssertionFailed && buf[..] == old(buf[..])
      ensures entry.Some? && Passes(entry.value.fileSize, offset, count) ==>
                Reads(old(buf[..]), buf[..], drive.interrupts - old(drive.interrupts),
                      offset, Wanted(entry.value.fileSize, offset, count), cs, r, n)
      ensures entry.Some? && Passes(entry.value.fileSize, offset, count) && r == Completed ==>
                entry.value.fileSize <= |cs| * ONE_CLUSTER_BYTES ==> n == Wanted(entry.value.fileSize, offset, count)
    {
      if entry.None? {
        return Completed, 0;
      }
      var e := entry.value;
      PlainRequestsAreChecked(e.fileSize, offset, count);
      var wanted, ok := CheckRequest(e.fileSize, offset, count);
      if !ok {
        return AssertionFailed, 0;
      }
      r, n := ReadRange(buf, e.startCluster, offset, wanted, cs);
      if e.fileSize <= |cs| * ONE_CLUSTER_BYTES <= offset {
        OnlyNothingIsWantedThere(e.fileSize, offset, count, |cs|);
      }
    }

    /** The checks of read_file. */
    method CheckRequest(fileSize: nat, offset: nat, count: nat) returns (wanted: nat, ok: bool)
      ensures wanted == Wanted(fileSize, offset, count) && ok == Passes(fileSize, offset, count)
    {
      wanted := count;
      if wanted == 0 {
        wanted := (fileSize - offset) % 0x1_0000_0000;
      }
      ok := fileSize >= (offset + wanted) % 0x1_0000_0000;
    }

    /** The two phases of read_file. */
    method ReadRange(buf: array<Byte>, start: int, offset: nat, wanted: nat, ghost cs: seq<int>)
      returns (r: Outcome, n: nat)
      requires Serves(start, buf, offset, wanted, cs)
      modifies drive, drive.hdbuf, buf
      ensures Valid()
      ensures Reads(old(buf[..]), buf[..], drive.interrupts - old(drive.interrupts), offset, wanted, cs, r, n)
    {
      var size := FirstPiece(offset, wanted);
      ghost var k := offset / ONE_CLUSTER_BYTES;
      if k < |cs| {
        FirstPhaseInChain(drive.disks[0], layout.dataStart, fat[..], cs, offset, wanted);
      }
      var cluster := ReadPiece(buf, start, offset, size, cs);
      ghost var middle := buf[..];
      r, n := ReadRest(buf, cluster, wanted, size, if k + 1 < |cs| then cs[k + 1..] else []);
      if k < |cs| {
        ChainIsRead(drive.disks[0], layout.dataStart, cs, SameGeometry(), old(buf[..]), middle, buf[..],
                    drive.interrupts - old(drive.interrupts), offset, wanted, r, n);
      }
    }

    /** The first phase of read_file; a size of 0 has it copy the rest of the cluster. */
    method ReadPiece(buf: array<Byte>, start: int, offset: nat, size: nat, ghost cs: seq<int>) returns (cluster: int)
      requires Valid() && buf != drive.hdbuf && buf != fat && ChainOf(fat[..], start, cs)
      requires LeadsTo(fat[..], cs, offset / ONE_CLUSTER_BYTES) && AllOnDisk(drive.disks[0], layout.dataStart, cs)
      requires offset / ONE_CLUSTER_BYTES >= |cs| ==> HasSectors(drive.disks[0], layout.dataStart, 0)
      requires offset % ONE_CLUSTER_BYTES + size <= ONE_CLUSTER_BYTES
      requires Copied(offset % ONE_CLUSTER_BYTES, size) <= buf.Length
      modifies drive, drive.hdbuf, buf
      ensures Valid() && fat[..] == old(fat[..]) && drive.interrupts == old(drive.interrupts) + CLUSTER_SIZE
      ensures var k := offset / ONE_CLUSTER_BYTES; cluster == if k < |cs| then cs[k] else 0
      ensures HasSectors(drive.disks[0], layout.dataStart, cluster)
      ensures var within := offset % ONE_CLUSTER_BYTES;
              Wrote(old(buf[..]), buf[..], 0,
                    ClusterBytes(drive.disks[0], layout.dataStart, cluster)[within..within + Copied(within, size)])
    {
      ChainLeadsTo(fat[..], start, cs, offset / ONE_CLUSTER_BYTES);
      cluster := GetOffsetCluster(start, offset, Path(cs, offset / ONE_CLUSTER_BYTES));
      var _ := ReadOneCluster(buf, cluster, offset % ONE_CLUSTER_BYTES, size);
    }

    /** The second phase, and the count of both; rest is the chain from the next cluster on. */
    method ReadRest(buf: array<Byte>, cluster: int, wanted: nat, size: nat, ghost rest: seq<int>)
      returns (r: Outcome, n: nat)
      requires Valid() && buf != drive.hdbuf && buf != fat && size <= wanted <= buf.Length
      requires 0 <= cluster < FAT_ENTRY_NUM
      requires NextCluster(fat[..], cluster) != 0 && size < wanted ==>
                 Readable(rest) && rest[0] == NextCluster(fat[..], cluster)
      modifies drive, drive.hdbuf, buf
      ensures Valid()
      ensures r == if NextCluster(fat[..], cluster) == 0 || SameGeometry() then Completed else AssertionFailed
      ensures r == Completed && NextCluster(fat[..], cluster) != 0 && size < wanted ==>
                && n - size == Min(wanted - size, |rest| * ONE_CLUSTER_BYTES) >= 0
                && Wrote(old(buf[..]), buf[..], size, Contents(drive.disks[0], layout.dataStart, rest)[..n - size])
                && drive.interrupts == old(drive.interrupts) + Sectors(n - size)
      ensures r == AssertionFailed || NextCluster(fat[..], cluster) == 0 || size == wanted ==>
                n == size && buf[..] == old(buf[..]) && drive.interrupts == old(drive.interrupts)
    {
      r, n := Completed, size;
      var next := NextCluster(fat[..], cluster);
      if next != 0 {
        var more;
        r, more := ReadClusterChain(buf, size, wanted - size, next, rest);
        n := n + more;
      }
    }
  }
}
