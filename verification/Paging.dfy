/**
 The page directory and page tables that the boot code builds in physical memory, and the
 two-level walk by which the processor reads them (Intel SDM Vol. 3A, section 4.3).
 */
module Paging {
  const PAGE := 4096
  const ENTRIES := 1024
  const TABLE_SPAN := 0x40_0000
  const BASES := 0x10_0000
  const PAGE_DIR_BASE := 0x10_0000
  const MM_BUFFER := 0x70_0000

  /** The bit fields of a directory or table entry that the boot code sets: the others are 0. */
  datatype PageEntry = PageEntry(base: int, present: bool, writable: bool, user: bool)

  /** Where a walk leads. */
  datatype Mapping = NotPresent | Mapped(address: int, writable: bool, user: bool)

  function Bit(b: bool, weight: int): int {
    if b then weight else 0
  }

  /** The entry as a 32-bit word; base is a field of 20 bits. */
  function Encode(e: PageEntry): int {
    e.base % BASES * PAGE + Bit(e.user, 4) + Bit(e.writable, 2) + Bit(e.present, 1)
  }

  function Decode(word: int): PageEntry {
    PageEntry(word / PAGE, word % 2 == 1, word / 2 % 2 == 1, word / 4 % 2 == 1)
  }

  lemma Halved(q: int, r: int)
    requires 0 <= r < 2
    ensures (2 * q + r) / 2 == q && (2 * q + r) % 2 == r
  {
  }

  lemma FieldsApart(base: int, low: int)
    requires 0 <= low < 8
    ensures var word := base * PAGE + low;
            word / PAGE == base && word % 2 == low % 2 && word / 2 % 2 == low / 2 % 2 && word / 4 % 2 == low / 4 % 2
  {
    var word := base * PAGE + low;
    Halved(base * 2048 + low / 2, low % 2);
    Halved(base * 1024 + low / 4, low / 2 % 2);
    Halved(base * 512, low / 4);
    assert word / 4 == word / 2 / 2;
  }

  /** The fields of an entry stand where the processor looks for them, and decoding undoes encoding. */
  lemma EntryRoundTrip(e: PageEntry)
    ensures 0 <= Encode(e) < 0x1_0000_0000 && Encode(e) / 4096 == e.base % 0x10_0000
    ensures (Encode(e) % 2 == 1 <==> e.present) && (Encode(e) / 2 % 2 == 1 <==> e.writable)
    ensures (Encode(e) / 4 % 2 == 1 <==> e.user) && Encode(e) % 4096 < 8
    ensures Decode(Encode(e)) == e.(base := e.base % BASES)
  {
    FieldsApart(e.base % BASES, Bit(e.user, 4) + Bit(e.writable, 2) + Bit(e.present, 1));
  }

  /**
   The processor's translation of a linear address, with the directory at dir; memory is a sequence of 32-bit words.
   */
  function Walk(words: seq<int>, dir: int, address: int): Mapping {
    var pdeAt := dir / 4 + address / TABLE_SPAN;
    if !(0 <= pdeAt < |words|) then NotPresent
    else
      var pde := Decode(words[pdeAt]);
      var pteAt := pde.base * ENTRIES + address / PAGE % ENTRIES;
      if !pde.present || !(0 <= pteAt < |words|) then NotPresent
      else
        var pte := Decode(words[pteAt]);
        if !pte.present then NotPresent
        else Mapped(pte.base * PAGE + address % PAGE, pde.writable && pte.writable, pde.user && pte.user)
  }

  function TableCount(memSize: nat): nat {
    memSize / TABLE_SPAN + if memSize % TABLE_SPAN != 0 then 1 else 0
  }

  /** The tables cover all of memory, and no table is for addresses past its end. */
  lemma TablesCoverMemory(memSize: nat)
    requires memSize < 0x1_0000_0000
    ensures memSize <= TableCount(memSize) * TABLE_SPAN < memSize + TABLE_SPAN
    ensures TableCount(memSize) <= ENTRIES
  {
  }

  /** With the directory where the boot code puts it, the last table ends below the memory manager's buffer. */
  lemma TablesEndBelowBuffer(memSize: nat)
    requires memSize < 0x1_0000_0000
    ensures PAGE_DIR_BASE + PAGE + TableCount(memSize) * PAGE <= MM_BUFFER
  {
    TablesCoverMemory(memSize);
  }

  function OpenEntry(base: int): int {
    Encode(PageEntry(base, true, true, true))
  }

  /**
   The directory is page number frame, the tables are the pages behind it. Entry i of the directory
   leads to table i; entry j of the tables, all in a row, leads to page j; page 0 is closed.
   */
  ghost predicate Built(words: seq<int>, frame: nat, tables: nat) {
    var dir, table := frame * ENTRIES, (frame + 1) * ENTRIES;
    && tables <= ENTRIES && table + tables * ENTRIES <= |words| <= BASES * ENTRIES
    && (forall k :: dir <= k < dir + tables ==> words[k] == OpenEntry(frame + 1 + k - dir))
    && (forall k :: table < k < table + tables * ENTRIES ==> words[k] == OpenEntry(k - table))
    && (tables > 0 ==> words[table] == Encode(PageEntry(0, false, true, true)))
  }

  lemma SplitAddress(address: nat, tables: nat)
    requires address < tables * TABLE_SPAN && tables <= ENTRIES
    ensures var i, j := address / TABLE_SPAN, address / PAGE;
            && i < tables && j < tables * ENTRIES && i * ENTRIES + j % ENTRIES == j
            && j * PAGE + address % PAGE == address
  {
  }

  lemma WalkFinds(words: seq<int>, frame: nat, address: nat, table: nat, pte: PageEntry)
    requires |words| <= BASES * ENTRIES && frame * ENTRIES + address / TABLE_SPAN < |words|
    requires table * ENTRIES + address / PAGE % ENTRIES < |words|
    requires words[frame * ENTRIES + address / TABLE_SPAN] == OpenEntry(table)
    requires words[table * ENTRIES + address / PAGE % ENTRIES] == Encode(pte) && 0 <= pte.base < BASES
    ensures Walk(words, frame * PAGE, address) ==
            if pte.present then Mapped(pte.base * PAGE + address % PAGE, pte.writable, pte.user) else NotPresent
  {
    EntryRoundTrip(PageEntry(table, true, true, true));
    EntryRoundTrip(pte);
    assert table < BASES && table % BASES == table;
    assert frame * PAGE / 4 == frame * ENTRIES;
  }

  /** The words of the tables, with the page's address in the upper 20 bits and its attributes below. */
  lemma WordsOfTheTables(words: seq<int>, frame: nat, tables: nat, k: nat)
    requires Built(words, frame, tables)
    ensures k < tables ==> words[frame * 1024 + k] == (frame + 1 + k) * 4096 + 7
    ensures k < tables * 1024 ==> words[(frame + 1) * 1024 + k] == if k == 0 then 6 else k * 4096 + 7
  {
    if k < tables {
      assert words[frame * ENTRIES + k] == OpenEntry(frame + 1 + k);
    }
    if 0 < k < tables * 1024 {
      assert words[(frame + 1) * ENTRIES + k] == OpenEntry(k);
    }
  }

  /** The walk translates every address of the tables' span to itself, except that page 0 is not present. */
  lemma WalkIsIdentity(words: seq<int>, frame: nat, tables: nat, address: nat)
    requires Built(words, frame, tables) && address < tables * TABLE_SPAN
    ensures Walk(words, frame * PAGE, address) == if address < PAGE then NotPresent else Mapped(address, true, true)
  {
    var i, j := address / TABLE_SPAN, address / PAGE;
    SplitAddress(address, tables);
    assert (frame + 1 + i) * ENTRIES + j % ENTRIES == (frame + 1) * ENTRIES + j;
    WalkFinds(words, frame, address, frame + 1 + i, PageEntry(j, j > 0, true, true));
  }

  /**
   setup_paging, with physical memory as an array of words and the directory at the start of page
   number frame. Memory outside the directory entries in use and the tables stays as it is.
   */
  method SetupPaging(mem: array<int>, frame: nat, memSize: nat)
    requires memSize < 0x1_0000_0000 && (frame + 1 + TableCount(memSize)) * ENTRIES < mem.Length <= BASES * ENTRIES
    modifies mem
    ensures Built(mem[..], frame, TableCount(memSize))
    ensures forall address: nat :: address < TableCount(memSize) * TABLE_SPAN ==>
              Walk(mem[..], frame * PAGE, address) == if address < PAGE then NotPresent else Mapped(address, true, true)
    ensures forall k :: 0 <= k < mem.Length ==>
              || mem[k] == old(mem[k])
              || frame * ENTRIES <= k < frame * ENTRIES + TableCount(memSize)
              || (frame + 1) * ENTRIES <= k <= (frame + 1 + TableCount(memSize)) * ENTRIES
  {
    var tables := memSize / TABLE_SPAN;
    if memSize % TABLE_SPAN != 0 {
      tables := tables + 1;
    }
    TablesCoverMemory(memSize);
    FillDirectory(mem, frame, tables);
    FillTables(mem, (frame + 1) * ENTRIES, tables);
    mem[(frame + 1) * ENTRIES] := Encode(PageEntry(0, false, true, true));
    forall address: nat | address < tables * TABLE_SPAN
      ensures Walk(mem[..], frame * PAGE, address) == if address < PAGE then NotPresent else Mapped(address, true, true)
    {
      WalkIsIdentity(mem[..], frame, tables, address);
    }
  }

  /** The loop over the directory entries. */
  method FillDirectory(mem: array<int>, frame: nat, tables: nat)
    requires tables <= ENTRIES && (frame + 1) * ENTRIES <= mem.Length <= BASES * ENTRIES
    modifies mem
    ensures var dir := frame * ENTRIES; forall k :: dir <= k < dir + tables ==> mem[k] == OpenEntry(frame + 1 + k - dir)
    ensures var dir := frame * ENTRIES; forall k :: 0 <= k < mem.Length && !(dir <= k < dir + tables) ==>
            mem[k] == old(mem[k])
  {
    var dir := frame * ENTRIES;
    var pde := PageEntry((frame + 1) % BASES, true, true, true);
    var i := 0;
    while i < tables
      invariant 0 <= i <= tables && pde == PageEntry((frame + 1 + i) % BASES, true, true, true)
      invariant forall k :: dir <= k < dir + i ==> mem[k] == OpenEntry(frame + 1 + k - dir)
      invariant forall k :: 0 <= k < mem.Length && !(dir <= k < dir + i) ==> mem[k] == old(mem[k])
    {
      mem[dir + i] := Encode(pde);
      pde := pde.(base := (pde.base + 1) % BASES);
      i := i + 1;
    }
  }

  /** The loop over the table entries. */
  method FillTables(mem: array<int>, table: nat, tables: nat)
    requires tables <= ENTRIES && table + tables * ENTRIES <= mem.Length
    modifies mem
    ensures forall k :: table <= k < table + tables * ENTRIES ==> mem[k] == OpenEntry(k - table)
    ensures forall k :: 0 <= k < mem.Length && !(table <= k < table + tables * ENTRIES) ==> mem[k] == old(mem[k])
  {
    var pte := PageEntry(0, true, true, true);
    var i := 0;
    while i < tables * ENTRIES
      invariant 0 <= i <= tables * ENTRIES && pte == PageEntry(i % BASES, true, true, true)
      invariant forall k :: table <= k < table + i ==> mem[k] == OpenEntry(k - table)
      invariant forall k :: 0 <= k < mem.Length && !(table <= k < table + i) ==> mem[k] == old(mem[k])
    {
      mem[table + i] := Encode(pte);
      pte := pte.(base := (pte.base + 1) % BASES);
      i := i + 1;
    }
  }
}
