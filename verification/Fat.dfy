/**
 FAT16: the layout of a volume, cluster chains, and reading a file through them.
 */
module Fat {
  import opened Disk

  const CLUSTER_SIZE := 4
  const ONE_CLUSTER_BYTES := 2048
  const FAT_ENTRY_NUM := 191 * 512 / 2
  const DIR_ENTRY_BYTES := 32
  const END_OF_CHAIN := 0xFFF8

  /** The fields of the volume boot record that lay the volume out. */
  datatype Vbr = Vbr(sectorSize: nat, clusterSize: nat, reserved: nat, nfat: nat, maxRootDir: nat, fatSectors: nat)

  /** What a directory entry says about a file. */
  datatype Entry = Entry(startCluster: nat, fileSize: nat)

  // ---------------------------------------------------------------- chains

  /** The 16-bit little-endian entry of the table for cluster c. */
  function Mark(fat: seq<Byte>, c: int): int
    requires 0 <= c && 2 * c + 1 < |fat|
  {
    fat[2 * c] as int + 0x100 * (fat[2 * c + 1] as int)
  }

  /** get_next_cluster: 0 stands for the end of the chain. */
  function NextCluster(fat: seq<Byte>, c: int): int
    requires 0 <= c && 2 * c + 1 < |fat|
  {
    if Mark(fat, c) >= END_OF_CHAIN then 0 else Mark(fat, c)
  }

  predicate IsCluster(c: int) {
    2 <= c < FAT_ENTRY_NUM
  }

  /** A cluster chain, from its first cluster to the one marked as the last. */
  ghost predicate IsChain(fat: seq<Byte>, cs: seq<int>) {
    && |fat| == 2 * FAT_ENTRY_NUM && |cs| > 0
    && (forall i :: 0 <= i < |cs| ==> IsCluster(cs[i]))
    && (forall i :: 0 <= i < |cs| - 1 ==> NextCluster(fat, cs[i]) == cs[i + 1])
    && NextCluster(fat, cs[|cs| - 1]) == 0
  }

  // ---------------------------------------------------------------- chains on the bytes of the table

  /** The bytes of a table with these entries: two for each, the low one first. */
  function TableOf(entries: seq<int>): (fat: seq<Byte>)
    requires forall c :: 0 <= c < |entries| ==> 0 <= entries[c] < 0x1_0000
    ensures |fat| == 2 * |entries|
  {
    seq(2 * |entries|, i requires 0 <= i < 2 * |entries| =>
      if i % 2 == 0 then entries[i / 2] % 0x100 else entries[i / 2] / 0x100)
  }

  /** What has been written into the table is read back, but for the end marks, which read as 0. */
  lemma TableRoundTrip(entries: seq<int>, c: nat)
    requires c < |entries| && forall k :: 0 <= k < |entries| ==> 0 <= entries[k] < 0x1_0000
    ensures NextCluster(TableOf(entries), c) == if entries[c] >= 0xFFF8 then 0 else entries[c]
  {
    assert (2 * c) / 2 == c == (2 * c + 1) / 2;
  }

  /** The two bytes at c's place hold d, the low one first. */
  predicate LinksTo(fat: seq<Byte>, c: int, d: int)
    requires 0 <= c && 2 * c + 1 < |fat|
  {
    fat[2 * c] == d % 0x100 && fat[2 * c + 1] == d / 0x100
  }

  /** They hold an end mark, 0xFFF8 to 0xFFFF, or 0. */
  predicate EndsAt(fat: seq<Byte>, c: int)
    requires 0 <= c && 2 * c + 1 < |fat|
  {
    (fat[2 * c] >= 0xF8 && fat[2 * c + 1] == 0xFF) || (fat[2 * c] == 0 && fat[2 * c + 1] == 0)
  }

  lemma EntryOnBytes(fat: seq<Byte>, c: int, d: int)
    requires 0 <= c && 2 * c + 1 < |fat|
    ensures 0 < d < 0xFFF8 ==> (NextCluster(fat, c) == d <==> LinksTo(fat, c, d))
    ensures NextCluster(fat, c) == 0 <==> EndsAt(fat, c)
  {
  }

  /** A chain is one exactly if it is one on the bytes of the table: 48896 entries, of which the first two are none. */
  lemma ChainOnBytes(fat: seq<Byte>, cs: seq<int>)
    ensures IsChain(fat, cs) <==>
            && |fat| == 2 * 48896 && |cs| > 0
            && (forall i :: 0 <= i < |cs| ==> 2 <= cs[i] < 48896)
            && (forall i :: 0 <= i < |cs| - 1 ==> LinksTo(fat, cs[i], cs[i + 1]))
            && EndsAt(fat, cs[|cs| - 1])
  {
    if |fat| == 2 * 48896 && |cs| > 0 && forall i :: 0 <= i < |cs| ==> IsCluster(cs[i]) {
      forall i | 0 <= i < |cs| - 1 ensures NextCluster(fat, cs[i]) == cs[i + 1] <==> LinksTo(fat, cs[i], cs[i + 1]) {
        assert IsCluster(cs[i]) && IsCluster(cs[i + 1]);
        EntryOnBytes(fat, cs[i], cs[i + 1]);
      }
      assert IsCluster(cs[|cs| - 1]);
      EntryOnBytes(fat, cs[|cs| - 1], 0);
    }
  }

  // ---------------------------------------------------------------- what a chain is like

  /** A chain that ends visits no cluster twice. */
  lemma {:induction false} ChainIsAcyclic(fat: seq<Byte>, cs: seq<int>, i: nat, j: nat)
    requires IsChain(fat, cs) && i < j < |cs|
    ensures cs[i] != cs[j]
    decreases |cs| - j
  {
    assert IsCluster(cs[i + 1]) && NextCluster(fat, cs[i]) == cs[i + 1];
    if j + 1 < |cs| {
      ChainIsAcyclic(fat, cs, i + 1, j + 1);
    }
  }

  /** The table and the first cluster determine the chain. */
  lemma {:induction false} ChainIsUnique(fat: seq<Byte>, cs: seq<int>, ds: seq<int>)
    requires IsChain(fat, cs) && IsChain(fat, ds) && cs[0] == ds[0]
    ensures cs == ds
  {
    assert |cs| > 1 ==> IsCluster(cs[1]) && NextCluster(fat, cs[0]) == cs[1];
    assert |ds| > 1 ==> IsCluster(ds[1]) && NextCluster(fat, ds[0]) == ds[1];
    if |cs| > 1 {
      ChainIsUnique(fat, cs[1..], ds[1..]);
      assert cs == [cs[0]] + cs[1..] && ds == [ds[0]] + ds[1..];
    }
  }

  lemma NextInChain(fat: seq<Byte>, cs: seq<int>, i: nat)
    requires IsChain(fat, cs) && i < |cs|
    ensures NextCluster(fat, cs[i]) == if i + 1 < |cs| then cs[i + 1] else 0
    ensures i + 1 < |cs| ==> cs[i + 1] != 0 && IsChain(fat, cs[i + 1..])
  {
    assert i + 1 < |cs| ==> IsCluster(cs[i + 1]);
  }

  /** Where get_next_cluster leads from the first number on. Behind the end of a chain it goes on from cluster 0. */
  ghost predicate IsPath(fat: seq<Byte>, path: seq<int>) {
    && |path| > 0
    && (forall i :: 0 <= i < |path| ==> 0 <= path[i] && 2 * path[i] + 1 < |fat|)
    && forall i :: 0 <= i < |path| - 1 ==> NextCluster(fat, path[i]) == path[i + 1]
  }

  /** The chain of a file that starts at start; a file without a cluster starts at 0. */
  ghost predicate ChainOf(fat: seq<Byte>, start: int, cs: seq<int>) {
    |fat| == 2 * FAT_ENTRY_NUM && if cs == [] then start == 0 else IsChain(fat, cs) && cs[0] == start
  }

  /** Cluster k of the path from start is known: it is in the chain, or just behind it, or all that follows is 0. */
  ghost predicate LeadsTo(fat: seq<Byte>, cs: seq<int>, k: nat) {
    |fat| == 2 * FAT_ENTRY_NUM && (k > |cs| ==> NextCluster(fat, 0) == 0)
  }

  ghost function Path(cs: seq<int>, k: nat): seq<int> {
    seq(k + 1, i => if 0 <= i < |cs| then cs[i] else 0)
  }

  /** Following a chain leads through its clusters, and then to cluster 0. */
  lemma ChainLeadsTo(fat: seq<Byte>, start: int, cs: seq<int>, k: nat)
    requires ChainOf(fat, start, cs) && LeadsTo(fat, cs, k)
    ensures IsPath(fat, Path(cs, k)) && Path(cs, k)[0] == start
    ensures Path(cs, k)[k] == if k < |cs| then cs[k] else 0
  {
    var path := Path(cs, k);
    forall i | 0 <= i < k + 1 ensures 0 <= path[i] && 2 * path[i] + 1 < |fat| {
      assert i < |cs| ==> IsCluster(cs[i]);
    }
    forall i | 0 <= i < k ensures NextCluster(fat, path[i]) == path[i + 1] {
      if i < |cs| {
        NextInChain(fat, cs, i);
      }
    }
  }

  // ---------------------------------------------------------------- layout

  /** Where the parts of the volume start, in sectors of the disk. */
  datatype Layout = Layout(fatStart: nat, rootStart: nat, rootSectors: nat, dataStart: nat)

  function LayOut(partStart: nat, vbr: Vbr): Layout {
    var fatStart := partStart + vbr.reserved;
    var rootStart := fatStart + vbr.fatSectors * vbr.nfat;
    var rootSectors := (vbr.maxRootDir * DIR_ENTRY_BYTES + (SECTOR_SIZE - 1)) / SECTOR_SIZE;
    Layout(fatStart, rootStart, rootSectors, rootStart + rootSectors)
  }

  /** The sector at which the code takes cluster c to start. */
  function ClusterStart(dataStart: nat, c: int): int {
    dataStart + (c - 2) * CLUSTER_SIZE
  }

  /**
   The reserved sectors, the tables, the root directory and the clusters, of four sectors each from cluster 2 on,
   follow each other without a gap; the root directory has room for all its entries, of 32 bytes each, and not a
   sector more than they need.
   */
  lemma LayoutTiles(partStart: nat, vbr: Vbr, c: int)
    ensures var l := LayOut(partStart, vbr);
            && l.fatStart == partStart + vbr.reserved
            && l.rootStart == l.fatStart + vbr.nfat * vbr.fatSectors
            && vbr.maxRootDir * 32 <= l.rootSectors * 512 < vbr.maxRootDir * 32 + 512
            && ClusterStart(l.dataStart, 2) == l.rootStart + l.rootSectors
            && ClusterStart(l.dataStart, c + 1) == ClusterStart(l.dataStart, c) + 4
  {
  }

  // read_fat takes the partition to begin at this sector, whatever the partition table says.
  const ASSUMED_PARTITION_START := 1

  /** The disk reaches behind the table that read_fat loads, and behind the volume's own. */
  predicate HoldsTables(disk: seq<Byte>, partStart: nat, vbr: Vbr) {
    && (ASSUMED_PARTITION_START + vbr.reserved + vbr.fatSectors) * SECTOR_SIZE <= |disk|
    && (LayOut(partStart, vbr).fatStart + vbr.fatSectors) * SECTOR_SIZE <= |disk|
  }

  /** The bytes that read_fat loads. */
  function LoadedTable(disk: seq<Byte>, vbr: Vbr): seq<Byte>
    requires (ASSUMED_PARTITION_START + vbr.reserved + vbr.fatSectors) * SECTOR_SIZE <= |disk|
  {
    BytesAt(disk, ASSUMED_PARTITION_START + vbr.reserved, vbr.fatSectors * SECTOR_SIZE)
  }

  /** The bytes of the volume's first table. */
  function VolumeTable(disk: seq<Byte>, partStart: nat, vbr: Vbr): seq<Byte>
    requires HoldsTables(disk, partStart, vbr)
  {
    BytesAt(disk, LayOut(partStart, vbr).fatStart, vbr.fatSectors * SECTOR_SIZE)
  }

  /** A disk on which the two tables differ: all 0, but for the first byte of the volume's table. */
  function MarkedDisk(partStart: nat, vbr: Vbr): (disk: seq<Byte>)
    ensures HoldsTables(disk, partStart, vbr)
  {
    seq((partStart + ASSUMED_PARTITION_START + vbr.reserved + vbr.fatSectors) * SECTOR_SIZE,
        i => if i == LayOut(partStart, vbr).fatStart * SECTOR_SIZE then 1 else 0)
  }

  /** Whatever is on the disk, the loaded table is the volume's own, exactly if the partition begins at sector 1. */
  lemma LoadedTableIsTheVolumes(partStart: nat, vbr: Vbr)
    requires vbr.fatSectors > 0
    ensures (forall disk :: HoldsTables(disk, partStart, vbr) ==>
             LoadedTable(disk, vbr) == VolumeTable(disk, partStart, vbr)) <==>
            partStart == 1
  {
    if partStart != ASSUMED_PARTITION_START {
      var disk := MarkedDisk(partStart, vbr);
      assert VolumeTable(disk, partStart, vbr)[0] == 1 && LoadedTable(disk, vbr)[0] == 0;
    }
  }

  // ---------------------------------------------------------------- contents

  /** The four sectors that the code takes for cluster c are sectors of the disk. */
  predicate HasSectors(disk: seq<Byte>, dataStart: nat, c: int) {
    var start := ClusterStart(dataStart, c);
    0 <= start && (start + CLUSTER_SIZE) * SECTOR_SIZE <= |disk| && start + CLUSTER_SIZE <= MAX_LBA
  }

  /** What the code takes for cluster c. */
  function ClusterBytes(disk: seq<Byte>, dataStart: nat, c: int): (s: seq<Byte>)
    requires HasSectors(disk, dataStart, c)
    ensures |s| == ONE_CLUSTER_BYTES
  {
    BytesAt(disk, ClusterStart(dataStart, c), ONE_CLUSTER_BYTES)
  }

  predicate OnDisk(disk: seq<Byte>, dataStart: nat, c: int) {
    IsCluster(c) && HasSectors(disk, dataStart, c)
  }

  ghost predicate AllOnDisk(disk: seq<Byte>, dataStart: nat, cs: seq<int>) {
    forall i :: 0 <= i < |cs| ==> OnDisk(disk, dataStart, cs[i])
  }

  /** What a chain holds: its clusters one after the other. */
  ghost function Contents(disk: seq<Byte>, dataStart: nat, cs: seq<int>): (s: seq<Byte>)
    requires AllOnDisk(disk, dataStart, cs)
    ensures |s| == |cs| * ONE_CLUSTER_BYTES
  {
    if cs == [] then []
    else
      Contents(disk, dataStart, cs[..|cs| - 1]) +
      BytesAt(disk, ClusterStart(dataStart, cs[|cs| - 1]), ONE_CLUSTER_BYTES)
  }

  lemma ContentsSnoc(disk: seq<Byte>, dataStart: nat, cs: seq<int>, c: int)
    requires AllOnDisk(disk, dataStart, cs) && OnDisk(disk, dataStart, c)
    ensures Contents(disk, dataStart, cs + [c]) ==
            Contents(disk, dataStart, cs) + BytesAt(disk, ClusterStart(dataStart, c), ONE_CLUSTER_BYTES)
  {
    assert (cs + [c])[..|cs|] == cs;
  }

  lemma {:induction false} ContentsJoin(disk: seq<Byte>, dataStart: nat, cs: seq<int>, ds: seq<int>)
    requires AllOnDisk(disk, dataStart, cs) && AllOnDisk(disk, dataStart, ds)
    ensures Contents(disk, dataStart, cs + ds) == Contents(disk, dataStart, cs) + Contents(disk, dataStart, ds)
  {
    if ds == [] {
      assert cs + ds == cs;
    } else {
      var n := |ds| - 1;
      var front, last := ds[..n], ds[n];
      ContentsJoin(disk, dataStart, cs, front);
      ContentsSnoc(disk, dataStart, cs + front, last);
      ContentsSnoc(disk, dataStart, front, last);
      assert cs + ds == cs + front + [last] && ds == front + [last];
      JoinedOnce(Contents(disk, dataStart, cs), Contents(disk, dataStart, front),
                 BytesAt(disk, ClusterStart(dataStart, last), ONE_CLUSTER_BYTES));
    }
  }

  lemma JoinedOnce(a: seq<Byte>, b: seq<Byte>, c: seq<Byte>)
    ensures a + b + c == a + (b + c)
  {
  }

  lemma ContentsSplit(disk: seq<Byte>, dataStart: nat, cs: seq<int>, k: nat)
    requires AllOnDisk(disk, dataStart, cs) && k <= |cs|
    ensures Contents(disk, dataStart, cs) == Contents(disk, dataStart, cs[..k]) + Contents(disk, dataStart, cs[k..])
  {
    ContentsJoin(disk, dataStart, cs[..k], cs[k..]);
    assert cs[..k] + cs[k..] == cs;
  }

  lemma MiddleOf(a: seq<Byte>, b: seq<Byte>, c: seq<Byte>)
    ensures (a + b + c)[|a|..|a| + |b|] == b
  {
  }

  lemma ClusterOfContents(disk: seq<Byte>, dataStart: nat, cs: seq<int>, k: nat)
    requires AllOnDisk(disk, dataStart, cs) && k < |cs|
    ensures Contents(disk, dataStart, cs)[k * ONE_CLUSTER_BYTES..(k + 1) * ONE_CLUSTER_BYTES] ==
            BytesAt(disk, ClusterStart(dataStart, cs[k]), ONE_CLUSTER_BYTES)
  {
    ContentsSplit(disk, dataStart, cs, k + 1);
    assert cs[..k + 1] == cs[..k] + [cs[k]];
    ContentsSnoc(disk, dataStart, cs[..k], cs[k]);
    MiddleOf(Contents(disk, dataStart, cs[..k]), BytesAt(disk, ClusterStart(dataStart, cs[k]), ONE_CLUSTER_BYTES),
             Contents(disk, dataStart, cs[k + 1..]));
  }

  /** Byte r of the k-th cluster, which has four sectors of 512 bytes, is byte 2048 k + r of the chain. */
  lemma ByteOfContents(disk: seq<Byte>, dataStart: nat, cs: seq<int>, k: nat, r: nat)
    requires AllOnDisk(disk, dataStart, cs) && k < |cs| && r < 2048
    ensures |Contents(disk, dataStart, cs)| == |cs| * 2048
    ensures Contents(disk, dataStart, cs)[k * 2048 + r] == disk[(dataStart + (cs[k] - 2) * 4) * 512 + r]
  {
    ClusterOfContents(disk, dataStart, cs, k);
    var whole := Contents(disk, dataStart, cs);
    assert whole[k * ONE_CLUSTER_BYTES..(k + 1) * ONE_CLUSTER_BYTES][r] == whole[k * ONE_CLUSTER_BYTES + r];
  }

  /** The first phase reads its part of the chain's contents out of one cluster. */
  lemma FirstPhase(disk: seq<Byte>, dataStart: nat, cs: seq<int>, k: nat, start: nat, size: nat)
    requires AllOnDisk(disk, dataStart, cs) && k < |cs| && start + size <= ONE_CLUSTER_BYTES
    ensures BytesAt(disk, ClusterStart(dataStart, cs[k]), ONE_CLUSTER_BYTES)[start..start + size] ==
            Contents(disk, dataStart, cs)[k * ONE_CLUSTER_BYTES + start..k * ONE_CLUSTER_BYTES + start + size]
  {
    ClusterOfContents(disk, dataStart, cs, k);
    SliceOfSlice(Contents(disk, dataStart, cs), k * ONE_CLUSTER_BYTES, ONE_CLUSTER_BYTES, start, size);
  }

  lemma SliceOfSlice(s: seq<Byte>, from: nat, length: nat, start: nat, size: nat)
    requires from + length <= |s| && start + size <= length
    ensures s[from..from + length][start..start + size] == s[from + start..from + start + size]
  {
    var t := s[from..from + length];
    var u, v := t[start..start + size], s[from + start..from + start + size];
    forall i | 0 <= i < size ensures u[i] == v[i] {
      assert t[start + i] == s[from + start + i];
    }
  }

  /** What is read of cluster k continues what was read of the clusters before it. */
  lemma ClusterJoins(disk: seq<Byte>, dataStart: nat, cs: seq<int>, k: nat, m: nat)
    requires AllOnDisk(disk, dataStart, cs) && k < |cs| && m <= ONE_CLUSTER_BYTES
    ensures Contents(disk, dataStart, cs)[..k * ONE_CLUSTER_BYTES] + BytesAt(disk, ClusterStart(dataStart, cs[k]), m) ==
            Contents(disk, dataStart, cs)[..k * ONE_CLUSTER_BYTES + m]
  {
    FirstPhase(disk, dataStart, cs, k, 0, m);
    SliceOfSlice(disk, ClusterStart(dataStart, cs[k]) * SECTOR_SIZE, ONE_CLUSTER_BYTES, 0, m);
    Prefix(Contents(disk, dataStart, cs), k * ONE_CLUSTER_BYTES, m);
  }

  lemma Prefix(s: seq<Byte>, n: nat, m: nat)
    requires n + m <= |s|
    ensures s[..n] + s[n..n + m] == s[..n + m]
  {
  }

  lemma SectorsOfClusters(k: nat, m: nat)
    ensures Sectors(k * ONE_CLUSTER_BYTES + m) == k * CLUSTER_SIZE + Sectors(m)
  {
  }

  // ---------------------------------------------------------------- requests

  /** The number of bytes wanted: a count of 0 asks for the rest of the file, in 32-bit arithmetic. */
  function Wanted(fileSize: nat, offset: nat, count: nat): nat {
    if count == 0 then (fileSize - offset) % 0x1_0000_0000 else count
  }

  /** The assertion with which read_file checks a request. */
  predicate Passes(fileSize: nat, offset: nat, count: nat) {
    (offset + Wanted(fileSize, offset, count)) % 0x1_0000_0000 <= fileSize
  }

  /** The requests on which the arithmetic does not wrap. */
  predicate Plain(fileSize: nat, offset: nat, count: nat) {
    offset + count < 0x1_0000_0000 && (count == 0 ==> offset <= fileSize)
  }

  lemma PlainRequestsAreChecked(fileSize: nat, offset: nat, count: nat)
    requires fileSize < 0x1_0000_0000 && Plain(fileSize, offset, count)
    ensures Passes(fileSize, offset, count) <==> offset + count <= fileSize
    ensures Wanted(fileSize, offset, count) == if count == 0 then fileSize - offset else count
  {
  }

  /** Exactly the wrapping requests get past the assertion although they reach past the end of the file. */
  lemma WhatSlipsThrough(fileSize: nat, offset: nat, count: nat)
    requires fileSize < 0x1_0000_0000 && offset < 0x1_0000_0000 && count < 0x1_0000_0000
    ensures var wanted := Wanted(fileSize, offset, count);
            (Passes(fileSize, offset, count) && offset + wanted > fileSize) <==>
            if count == 0 then offset > fileSize
            else 0x1_0000_0000 <= offset + count <= fileSize + 0x1_0000_0000
  {
    if count == 0 {
      assert offset <= fileSize ==> Wanted(fileSize, offset, count) == fileSize - offset;
      assert offset > fileSize ==> Wanted(fileSize, offset, count) == fileSize - offset + 0x1_0000_0000;
    }
  }

  /** The bytes that read_one_cluster copies when asked for size: 0 asks for the rest of the cluster. */
  function Copied(start: nat, size: nat): nat
    requires start <= ONE_CLUSTER_BYTES
  {
    if size == 0 then ONE_CLUSTER_BYTES - start else size
  }

  /** The part of a request that its first cluster serves. */
  function FirstPiece(offset: nat, wanted: nat): (size: nat)
    ensures size <= wanted && offset % ONE_CLUSTER_BYTES + size <= ONE_CLUSTER_BYTES
    ensures size < wanted ==> (offset + size) % ONE_CLUSTER_BYTES == 0
  {
    var within := offset % ONE_CLUSTER_BYTES;
    if wanted + within > ONE_CLUSTER_BYTES then ONE_CLUSTER_BYTES - within else wanted
  }

  /** The bytes that read_file leaves in the buffer when it returns n: if nothing is wanted, the cluster's rest. */
  function Delivered(offset: nat, wanted: nat, n: nat): nat {
    if wanted == 0 then ONE_CLUSTER_BYTES - offset % ONE_CLUSTER_BYTES else n
  }

  /** read_file counts what it copies, unless nothing is wanted: then it copies a cluster's rest and returns 0. */
  lemma CountsWhatItCopies(offset: nat, wanted: nat)
    ensures Copied(offset % ONE_CLUSTER_BYTES, FirstPiece(offset, wanted)) == FirstPiece(offset, wanted) <==> wanted > 0
  {
  }

  /** From the end of a chain that holds the file, only a request for nothing passes. */
  lemma OnlyNothingIsWantedThere(fileSize: nat, offset: nat, count: nat, clusters: nat)
    requires fileSize < 0x1_0000_0000 && Plain(fileSize, offset, count) && Passes(fileSize, offset, count)
    requires fileSize <= clusters * ONE_CLUSTER_BYTES <= offset
    ensures offset == fileSize == clusters * ONE_CLUSTER_BYTES && Wanted(fileSize, offset, count) == 0
    ensures offset / ONE_CLUSTER_BYTES == clusters && offset % ONE_CLUSTER_BYTES == 0
  {
    PlainRequestsAreChecked(fileSize, offset, count);
  }

  /** Asking for the rest of a file from its very end passes the assertion and copies without counting. */
  lemma RestOfNothingIsCopied(fileSize: nat)
    requires fileSize < 0x1_0000_0000
    ensures Passes(fileSize, fileSize, 0) && Wanted(fileSize, fileSize, 0) == 0
    ensures Copied(fileSize % 2048, FirstPiece(fileSize, 0)) == 2048 - fileSize % 2048 > 0
  {
    CountsWhatItCopies(fileSize, 0);
  }

  function Min(x: int, y: int): int {
    if x < y then x else y
  }

  // ---------------------------------------------------------------- the two phases of a read

  /** The second phase starts where the first one stopped. */
  lemma SecondPhase(disk: seq<Byte>, dataStart: nat, cs: seq<int>, k: nat, offset: nat, size: nat, m: nat)
    requires AllOnDisk(disk, dataStart, cs) && k < |cs| && offset + size == k * ONE_CLUSTER_BYTES
    requires m <= (|cs| - k) * ONE_CLUSTER_BYTES
    ensures Contents(disk, dataStart, cs)[offset..offset + size] + Contents(disk, dataStart, cs[k..])[..m] ==
            Contents(disk, dataStart, cs)[offset..offset + size + m]
  {
    ContentsSplit(disk, dataStart, cs, k);
    AcrossTheJoin(Contents(disk, dataStart, cs[..k]), Contents(disk, dataStart, cs[k..]), offset, m);
  }

  lemma AcrossTheJoin(a: seq<Byte>, b: seq<Byte>, from: nat, m: nat)
    requires from <= |a| && m <= |b|
    ensures (a + b)[from..|a|] + b[..m] == (a + b)[from..|a| + m]
  {
  }

  /** The first phase ends with the request or with the cluster. */
  lemma FirstPieceEnds(offset: nat, wanted: nat)
    ensures var k := offset / ONE_CLUSTER_BYTES;
            && k * ONE_CLUSTER_BYTES <= offset < (k + 1) * ONE_CLUSTER_BYTES
            && offset % ONE_CLUSTER_BYTES == offset - k * ONE_CLUSTER_BYTES
            && FirstPiece(offset, wanted) == Min(wanted, (k + 1) * ONE_CLUSTER_BYTES - offset)
  {
  }

  /** The two phases together get what is wanted, as far as the chain goes. */
  lemma PhasesAdd(offset: nat, wanted: nat, clusters: nat, k: nat, size: nat)
    requires k < clusters && k * ONE_CLUSTER_BYTES <= offset < (k + 1) * ONE_CLUSTER_BYTES
    requires size == Min(wanted, (k + 1) * ONE_CLUSTER_BYTES - offset)
    ensures size + Min(wanted - size, (clusters - (k + 1)) * ONE_CLUSTER_BYTES)
            == Min(wanted, clusters * ONE_CLUSTER_BYTES - offset)
    ensures size < wanted ==> offset + size == (k + 1) * ONE_CLUSTER_BYTES
    ensures offset + size <= clusters * ONE_CLUSTER_BYTES
  {
  }

  /** Together the two phases read the wanted part of the chain, as far as it goes. */
  lemma PhasesJoin(before: seq<Byte>, middle: seq<Byte>, after: seq<Byte>,
                   disk: seq<Byte>, dataStart: nat, cs: seq<int>, k: nat, offset: nat, wanted: nat, size: nat,
                     more: nat)
    requires AllOnDisk(disk, dataStart, cs) && k + 1 < |cs|
    requires k * ONE_CLUSTER_BYTES <= offset < (k + 1) * ONE_CLUSTER_BYTES
    requires size == Min(wanted, (k + 1) * ONE_CLUSTER_BYTES - offset)
    requires more == Min(wanted - size, (|cs| - (k + 1)) * ONE_CLUSTER_BYTES)
    requires offset + size <= |cs| * ONE_CLUSTER_BYTES
    requires Wrote(before, middle, 0, Contents(disk, dataStart, cs)[offset..offset + size])
    requires Wrote(middle, after, size, Contents(disk, dataStart, cs[k + 1..])[..more])
    ensures var n := size + more;
            && n == Min(wanted, |cs| * ONE_CLUSTER_BYTES - offset)
            && Wrote(before, after, 0, Contents(disk, dataStart, cs)[offset..offset + n])
  {
    PhasesAdd(offset, wanted, |cs|, k, size);
    if size < wanted {
      SecondPhase(disk, dataStart, cs, k + 1, offset, size, more);
      WroteMore(before, middle, after, 0, Contents(disk, dataStart, cs)[offset..offset + size],
                Contents(disk, dataStart, cs[k + 1..])[..more]);
    } else {
      WroteNothing(middle, after, size);
    }
  }

  /** The first piece and what the rest of the chain has to give make what is wanted, as far as the chain goes. */
  predicate PiecesAdd(offset: nat, wanted: nat, clusters: nat) {
    var k, size := offset / ONE_CLUSTER_BYTES, FirstPiece(offset, wanted);
    size + Min(wanted - size, (clusters - (k + 1)) * ONE_CLUSTER_BYTES)
      == Min(wanted, clusters * ONE_CLUSTER_BYTES - offset)
  }

  /** What the first phase has read of a cluster of the chain is a part of the chain's contents. */
  lemma FirstPhaseInChain(disk: seq<Byte>, dataStart: nat, fat: seq<Byte>, cs: seq<int>, offset: nat, wanted: nat)
    requires AllOnDisk(disk, dataStart, cs) && IsChain(fat, cs) && offset / ONE_CLUSTER_BYTES < |cs|
    ensures var k, within, size := offset / ONE_CLUSTER_BYTES, offset % ONE_CLUSTER_BYTES, FirstPiece(offset, wanted);
            && OnDisk(disk, dataStart, cs[k]) && offset + Copied(within, size) <= |cs| * ONE_CLUSTER_BYTES
            && ClusterBytes(disk, dataStart, cs[k])[within..within + Copied(within, size)] ==
               Contents(disk, dataStart, cs)[offset..offset + Copied(within, size)]
            && NextCluster(fat, cs[k]) == (if k + 1 < |cs| then cs[k + 1] else 0)
            && (k + 1 < |cs| ==> cs[k + 1] != 0 && IsChain(fat, cs[k + 1..]) && AllOnDisk(disk, dataStart, cs[k + 1..]))
            && PiecesAdd(offset, wanted, |cs|)
  {
    var k, within, size := offset / ONE_CLUSTER_BYTES, offset % ONE_CLUSTER_BYTES, FirstPiece(offset, wanted);
    FirstPieceEnds(offset, wanted);
    FirstPhase(disk, dataStart, cs, k, within, Copied(within, size));
    NextInChain(fat, cs, k);
    PhasesAdd(offset, wanted, |cs|, k, size);
  }

  /** What becomes of a read whose first byte is in the chain; taken counts the interrupts. */
  ghost predicate ReadsChain(disk: seq<Byte>, dataStart: nat, cs: seq<int>, sameGeometry: bool, before: seq<Byte>,
                             after: seq<Byte>, taken: int, offset: nat, wanted: nat, r: Outcome, n: nat)
    requires AllOnDisk(disk, dataStart, cs)
  {
    && r == (if sameGeometry || offset / ONE_CLUSTER_BYTES + 1 == |cs| then Completed else AssertionFailed)
    && (r == Completed ==>
          && n == Min(wanted, |cs| * ONE_CLUSTER_BYTES - offset) >= FirstPiece(offset, wanted)
          && offset + Delivered(offset, wanted, n) <= |cs| * ONE_CLUSTER_BYTES
          && Wrote(before, after, 0, Contents(disk, dataStart, cs)[offset..offset + Delivered(offset, wanted, n)])
          && taken == CLUSTER_SIZE + Sectors(n - FirstPiece(offset, wanted)))
  }

  /** What becomes of a read whose first byte lies past the chain: it gets bytes that are not the file's. */
  ghost predicate ReadsClusterZero(disk: seq<Byte>, dataStart: nat, fat: seq<Byte>, sameGeometry: bool,
                                   before: seq<Byte>,
                                   after: seq<Byte>, taken: int, offset: nat, wanted: nat, r: Outcome, n: nat)
    requires |fat| == 2 * FAT_ENTRY_NUM && HasSectors(disk, dataStart, 0)
  {
    var within := offset % ONE_CLUSTER_BYTES;
    && r == (if sameGeometry || NextCluster(fat, 0) == 0 then Completed else AssertionFailed)
    && (r == Completed ==>
          && n == FirstPiece(offset, wanted)
          && Wrote(before, after, 0, ClusterBytes(disk, dataStart, 0)[within..within + Copied(within, n)])
          && taken == CLUSTER_SIZE)
  }

  /** What the second phase has read continues it. */
  lemma PhasesInChain(before: seq<Byte>, middle: seq<Byte>, after: seq<Byte>, disk: seq<Byte>, dataStart: nat,
                      cs: seq<int>, offset: nat, wanted: nat, n: nat)
    requires AllOnDisk(disk, dataStart, cs) && offset / ONE_CLUSTER_BYTES + 1 < |cs|
    requires var size := FirstPiece(offset, wanted);
             && size < wanted && offset + size <= |cs| * ONE_CLUSTER_BYTES
             && Wrote(before, middle, 0, Contents(disk, dataStart, cs)[offset..offset + size])
    requires var k, size := offset / ONE_CLUSTER_BYTES, FirstPiece(offset, wanted);
             && n - size == Min(wanted - size, (|cs| - (k + 1)) * ONE_CLUSTER_BYTES) >= 0
             && Wrote(middle, after, size, Contents(disk, dataStart, cs[k + 1..])[..n - size])
    ensures n == Min(wanted, |cs| * ONE_CLUSTER_BYTES - offset) && offset + n <= |cs| * ONE_CLUSTER_BYTES
    ensures Wrote(before, after, 0, Contents(disk, dataStart, cs)[offset..offset + n])
  {
    var k, size := offset / ONE_CLUSTER_BYTES, FirstPiece(offset, wanted);
    FirstPieceEnds(offset, wanted);
    PhasesJoin(before, middle, after, disk, dataStart, cs, k, offset, wanted, size, n - size);
  }

  /** What is copied in the first phase, and delivered in all. */
  lemma PieceOf(offset: nat, wanted: nat, n: nat)
    ensures var size, copied := FirstPiece(offset, wanted),
            Copied(offset % ONE_CLUSTER_BYTES, FirstPiece(offset, wanted));
            if wanted == 0 then size == 0 && Delivered(offset, wanted, n) == copied
            else 0 < size == copied && Delivered(offset, wanted, n) == n
  {
  }

  /** If there is no second phase, the first one has got it all. */
  lemma OnePhase(offset: nat, wanted: nat, clusters: nat, n: nat)
    requires var k, size := offset / ONE_CLUSTER_BYTES, FirstPiece(offset, wanted);
             && k < clusters && (k + 1 == clusters || size == wanted) && n == size
             && PiecesAdd(offset, wanted, clusters)
    ensures n == Min(wanted, clusters * ONE_CLUSTER_BYTES - offset) == FirstPiece(offset, wanted)
  {
  }

  /** A read that its first phase completes. */
  lemma ReadInOnePhase(disk: seq<Byte>, dataStart: nat, cs: seq<int>, sameGeometry: bool, before: seq<Byte>,
                       after: seq<Byte>, offset: nat, wanted: nat)
    requires AllOnDisk(disk, dataStart, cs) && offset / ONE_CLUSTER_BYTES < |cs|
    requires sameGeometry || offset / ONE_CLUSTER_BYTES + 1 == |cs|
    requires offset / ONE_CLUSTER_BYTES + 1 == |cs| || FirstPiece(offset, wanted) == wanted
    requires PiecesAdd(offset, wanted, |cs|)
    requires var copied := Copied(offset % ONE_CLUSTER_BYTES, FirstPiece(offset, wanted));
             && offset + copied <= |cs| * ONE_CLUSTER_BYTES
             && Wrote(before, after, 0, Contents(disk, dataStart, cs)[offset..offset + copied])
    ensures ReadsChain(disk, dataStart, cs, sameGeometry, before, after, CLUSTER_SIZE, offset, wanted,
                       Completed, FirstPiece(offset, wanted))
  {
    PieceOf(offset, wanted, FirstPiece(offset, wanted));
    OnePhase(offset, wanted, |cs|, FirstPiece(offset, wanted));
  }

  /** A read that takes two phases. */
  lemma ReadInTwoPhases(disk: seq<Byte>, dataStart: nat, cs: seq<int>, before: seq<Byte>, middle: seq<Byte>,
                        after: seq<Byte>, taken: int, offset: nat, wanted: nat, n: nat)
    requires AllOnDisk(disk, dataStart, cs) && offset / ONE_CLUSTER_BYTES + 1 < |cs|
    requires FirstPiece(offset, wanted) < wanted
    requires var copied := Copied(offset % ONE_CLUSTER_BYTES, FirstPiece(offset, wanted));
             && offset + copied <= |cs| * ONE_CLUSTER_BYTES
             && Wrote(before, middle, 0, Contents(disk, dataStart, cs)[offset..offset + copied])
    requires var k, size := offset / ONE_CLUSTER_BYTES, FirstPiece(offset, wanted);
             && n - size == Min(wanted - size, (|cs| - (k + 1)) * ONE_CLUSTER_BYTES) >= 0
             && Wrote(middle, after, size, Contents(disk, dataStart, cs[k + 1..])[..n - size])
             && taken == CLUSTER_SIZE + Sectors(n - size)
    ensures ReadsChain(disk, dataStart, cs, true, before, after, taken, offset, wanted, Completed, n)
  {
    PieceOf(offset, wanted, n);
    PhasesInChain(before, middle, after, disk, dataStart, cs, offset, wanted, n);
  }

  /** The two phases, put together. */
  lemma ChainIsRead(disk: seq<Byte>, dataStart: nat, cs: seq<int>, sameGeometry: bool, before: seq<Byte>,
                    middle: seq<Byte>, after: seq<Byte>, taken: int, offset: nat, wanted: nat, r: Outcome, n: nat)
    requires AllOnDisk(disk, dataStart, cs) && offset / ONE_CLUSTER_BYTES < |cs|
    requires r == if offset / ONE_CLUSTER_BYTES + 1 == |cs| || sameGeometry then Completed else AssertionFailed
    requires var copied := Copied(offset % ONE_CLUSTER_BYTES, FirstPiece(offset, wanted));
             && offset + copied <= |cs| * ONE_CLUSTER_BYTES
             && Wrote(before, middle, 0, Contents(disk, dataStart, cs)[offset..offset + copied])
    requires PiecesAdd(offset, wanted, |cs|)
    requires var k, size := offset / ONE_CLUSTER_BYTES, FirstPiece(offset, wanted);
             r == Completed ==>
               if k + 1 < |cs| && size < wanted
               then n - size == Min(wanted - size, (|cs| - (k + 1)) * ONE_CLUSTER_BYTES) >= 0
                    && Wrote(middle, after, size, Contents(disk, dataStart, cs[k + 1..])[..n - size])
                    && taken == CLUSTER_SIZE + Sectors(n - size)
               else n == size && after == middle && taken == CLUSTER_SIZE
    ensures ReadsChain(disk, dataStart, cs, sameGeometry, before, after, taken, offset, wanted, r, n)
  {
    if r == Completed {
      if offset / ONE_CLUSTER_BYTES + 1 < |cs| && FirstPiece(offset, wanted) < wanted {
        ReadInTwoPhases(disk, dataStart, cs, before, middle, after, taken, offset, wanted, n);
      } else {
        ReadInOnePhase(disk, dataStart, cs, sameGeometry, before, after, offset, wanted);
      }
    }
  }
}
