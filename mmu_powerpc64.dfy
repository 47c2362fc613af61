/**
 * PowerPC64 radix-style page tables with 4 KiB pages: entry encoding,
 * index extraction, `map_page`, the 16 MiB identity map of `init_mmu`, and
 * the SDR1 and MSR values written by `enable_paging`.
 *
 * As written, `map_page` resolves only the first level: it stores the page
 * entry into the second-level table at the fourth-level index. Read as a
 * two-level tree (`WalkAsWritten`, leaf slot `[l1i, l4i]`), that is what
 * `MapPageAsWritten` does; `AsWrittenIdentityMapImpossible` shows that the
 * boot loop then cannot identity-map 16 MiB. `MapPage` is the four-level
 * walk the comments in the code describe, and the boot loop uses it.
 */
module MmuPowerpc64 {
  import opened Prelude
  import opened PageTable

  const VALID: bv64 := 1
  const TABLE: bv64 := 2
  const LARGE_PAGE: bv64 := 4
  const USER_RW: bv64 := 8
  const KERNEL_RW: bv64 := 0x10
  const EXEC: bv64 := 0x20
  const ACCESSED: bv64 := 0x40
  const DIRTY: bv64 := 0x80
  const WIMGE_MASK: bv64 := 0x1F00

  /** Bits 12..63 of an entry: the next table or page address. */
  const ADDR_MASK: bv64 := 0xFFFF_FFFF_FFFF_F000

  const MAPPING_SIZE: nat := 0x100_0000

  const KERNEL_FLAGS: bv64 := KERNEL_RW | EXEC | ACCESSED | WIMGE_MASK

  function IsValid(e: Entry): bool
  {
    e & VALID != 0
  }

  function NextTable(e: Entry): Addr
  {
    Addr(e & ADDR_MASK)
  }

  function NewTable(a: Addr): Entry
  {
    a.bits | VALID | TABLE
  }

  /** A last-level entry: the address, the flags, and VALID. */
  function NewPage(pa: U64, flags: bv64): Entry
  {
    (pa as bv64) | flags | VALID
  }

  /** The four-level walk the hardware performs. */
  const Walk: Walker := Walker(4, IsValid, NextTable)

  /** The table structure `map_page` as written builds: the root, then one table holding the page entries. */
  const WalkAsWritten: Walker := Walker(2, IsValid, NextTable)

  /** Round trip: a 4 KiB-aligned table pointer is valid, tagged TABLE, and gives the address back. */
  lemma TableRoundTrip(a: bv64)
    requires a & 0xFFF == 0
    ensures IsValid(NewTable(Addr(a))) && NewTable(Addr(a)) & TABLE != 0
    ensures NextTable(NewTable(Addr(a))) == Addr(a)
  {
    assert (a | 1 | 2) & 1 == 1 && (a | 1 | 2) & 2 == 2;
    assert (a | 1 | 2) & 0xFFFF_FFFF_FFFF_F000 == a;
  }

  /** Page entries are always valid. */
  lemma PagesAreValid(pa: U64, flags: bv64)
    ensures IsValid(NewPage(pa, flags))
  {
  }

  lemma TablesDecode()
    ensures WalkerOk(Walk) && Decodes(Walk, NewTable)
  {
    forall a: Addr | Allocatable(a)
      ensures IsValid(NewTable(a)) && NextTable(NewTable(a)) == a
    {
      assert a.bits & 0xFFF == 0;
      TableRoundTrip(a.bits);
    }
  }

  /** The two-level walk of `map_page` as written reads entries the same way. */
  lemma TablesDecodeAsWritten()
    ensures WalkerOk(WalkAsWritten) && Decodes(WalkAsWritten, NewTable)
  {
    TablesDecode();
  }

  /** Bits 39..47, 30..38, 21..29 and 12..20 of the virtual address. */
  function GetIndices(va: U64): (idx: seq<nat>)
    ensures |idx| == 4 && ValidIndices(idx)
  {
    [(va / 0x80_0000_0000) % 512, (va / 0x4000_0000) % 512, (va / 0x20_0000) % 512, (va / 0x1000) % 512]
  }

  /** The slot `map_page` as written stores into: the first-level index, then the fourth-level index. */
  function SlotAsWritten(va: U64): (idx: seq<nat>)
    ensures |idx| == 2 && ValidIndices(idx)
    ensures idx == [GetIndices(va)[0], GetIndices(va)[3]]
  {
    [(va / 0x80_0000_0000) % 512, (va / 0x1000) % 512]
  }

  /**
   * `map_page` as written: the first-level entry is reused when valid and
   * otherwise pointed at a fresh table; the second-level entry is looked up
   * and never used; the page entry goes into the second-level table at the
   * fourth-level index.
   */
  method MapPageAsWritten(mem: PhysicalMemory, l1: Addr, va: U64, pa: U64, flags: bv64)
    requires mem.Valid() && mem.TreeOf(WalkAsWritten, l1) && |mem.free| >= 1
    modifies mem
    ensures mem.Valid() && mem.TreeOf(WalkAsWritten, l1) && |mem.free| >= |old(mem.free)| - 1
    ensures Leaf(WalkAsWritten, mem.tables, l1, SlotAsWritten(va)) == NewPage(pa, flags)
    ensures forall idx :: |idx| == 2 && idx != SlotAsWritten(va) ==>
              Leaf(WalkAsWritten, mem.tables, l1, idx) == old(Leaf(WalkAsWritten, mem.tables, l1, idx))
  {
    TablesDecodeAsWritten();
    var slot := SlotAsWritten(va);
    var l2 := mem.LeafTable2(WalkAsWritten, NewTable, l1, slot);
    mem.SetLeaf(WalkAsWritten, l1, slot, l2, NewPage(pa, flags));
  }

  /** As written, the pages at 0 and at 2 MiB share a slot. */
  lemma AsWrittenSlotsCollide()
    ensures SlotAsWritten(0) == SlotAsWritten(0x20_0000)
  {
  }

  /**
   * As written, no table state maps both page 0 and the page at 2 MiB to
   * themselves, since they share a slot and their entries differ in bit 21;
   * the boot loop stores both.
   */
  lemma AsWrittenIdentityMapImpossible(tables: Tables, l1: Addr)
    ensures Leaf(WalkAsWritten, tables, l1, SlotAsWritten(0)) != NewPage(0, KERNEL_FLAGS)
         || Leaf(WalkAsWritten, tables, l1, SlotAsWritten(0x20_0000)) != NewPage(0x20_0000, KERNEL_FLAGS)
  {
    AsWrittenSlotsCollide();
    assert NewPage(0, KERNEL_FLAGS) & 0x20_0000 == 0;
    assert NewPage(0x20_0000, KERNEL_FLAGS) & 0x20_0000 == 0x20_0000;
  }

  /** `map_page` with all four levels resolved, each missing table created on the way. */
  method MapPage(mem: PhysicalMemory, l1: Addr, va: U64, pa: U64, flags: bv64)
    requires mem.Valid() && mem.TreeOf(Walk, l1) && |mem.free| >= 3
    modifies mem
    ensures mem.Valid() && mem.TreeOf(Walk, l1) && |mem.free| >= |old(mem.free)| - 3
    ensures Leaf(Walk, mem.tables, l1, GetIndices(va)) == NewPage(pa, flags)
    ensures forall idx :: |idx| == 4 && idx != GetIndices(va) ==>
              Leaf(Walk, mem.tables, l1, idx) == old(Leaf(Walk, mem.tables, l1, idx))
  {
    TablesDecode();
    var idx := GetIndices(va);
    var l4 := mem.LeafTable4(Walk, NewTable, l1, idx);
    mem.SetLeaf(Walk, l1, idx, l4, NewPage(pa, flags));
  }

  lemma LowPageIndices(a: nat)
    requires a % 4096 == 0 && a < MAPPING_SIZE
    ensures GetIndices(a)[2] == (a / 4096) / 512 && GetIndices(a)[3] == (a / 4096) % 512
  {
  }

  /** Distinct pages of the first 16 MiB select distinct four-level slots. */
  lemma IndicesInjective(a: nat, b: nat)
    requires a % 4096 == 0 && a < MAPPING_SIZE
    requires b % 4096 == 0 && b < MAPPING_SIZE
    requires GetIndices(a) == GetIndices(b)
    ensures a == b
  {
    LowPageIndices(a);
    LowPageIndices(b);
    assert GetIndices(a)[2] == GetIndices(b)[2] && GetIndices(a)[3] == GetIndices(b)[3];
  }

  lemma PageStep(a: nat, addr: nat)
    requires a % 4096 == 0 && addr % 4096 == 0 && addr < MAPPING_SIZE && a < addr + 4096
    ensures a == addr || (a < addr && GetIndices(a) != GetIndices(addr))
  {
    if a != addr && GetIndices(a) == GetIndices(addr) {
      IndicesInjective(a, addr);
    }
  }

  ghost predicate IdentityMapped(tables: Tables, l1: Addr, bound: nat)
  {
    forall a: nat :: a % 4096 == 0 && a < bound && a < MAPPING_SIZE ==>
      Leaf(Walk, tables, l1, GetIndices(a)) == NewPage(a, KERNEL_FLAGS)
  }

  /** Mapping the page at `addr` and changing no other leaf extends the mapped prefix by one page. */
  lemma IdentityMappedStep(tables0: Tables, tables: Tables, l1: Addr, addr: nat)
    requires addr % 4096 == 0 && addr < MAPPING_SIZE && IdentityMapped(tables0, l1, addr)
    requires Leaf(Walk, tables, l1, GetIndices(addr)) == NewPage(addr, KERNEL_FLAGS)
    requires forall idx :: |idx| == 4 && idx != GetIndices(addr) ==>
               Leaf(Walk, tables, l1, idx) == Leaf(Walk, tables0, l1, idx)
    ensures IdentityMapped(tables, l1, addr + 4096)
  {
    forall a: nat | a % 4096 == 0 && a < addr + 4096 && a < MAPPING_SIZE
      ensures Leaf(Walk, tables, l1, GetIndices(a)) == NewPage(a, KERNEL_FLAGS)
    {
      PageStep(a, addr);
    }
  }

  /**
   * The state of the boot loop before page `k`, the page at `k * 4096`, over
   * plain values: the page lies within the region, the allocator and the
   * tree are valid, 3 free frames remain for every page still to map, and
   * every earlier page is mapped.
   */
  ghost predicate BootProgress(tables: Tables, free: seq<Addr>, paths: Paths, l1: Addr, k: nat)
  {
    && k * 4096 <= MAPPING_SIZE
    && Pool(tables, free) && TreeShaped(Walk, tables, paths, l1)
    && |free| * 4096 >= 3 * (MAPPING_SIZE - k * 4096)
    && IdentityMapped(tables, l1, k * 4096)
  }

  /** The loop invariant: the boot loop state of the memory's tables, free frames and paths. */
  ghost predicate LoopAt(mem: PhysicalMemory, l1: Addr, k: nat)
    reads mem
  {
    BootProgress(mem.tables, mem.free, mem.paths, l1, k)
  }

  /** The address of a page of the region is page-aligned, and the next page is still within the region or just past it. */
  lemma PageAddress(k: nat)
    requires k * 4096 < MAPPING_SIZE
    ensures (k * 4096) % 4096 == 0 && (k + 1) * 4096 <= MAPPING_SIZE
  {
  }

  /** Before a page of the region, the 3 tables a mapping may need are free. */
  lemma FreeForPage(tables: Tables, free: seq<Addr>, paths: Paths, l1: Addr, k: nat)
    requires k * 4096 < MAPPING_SIZE && BootProgress(tables, free, paths, l1, k)
    ensures |free| >= 3
  {
  }

  /**
   * A mapping of page `k` that keeps the allocator and the tree valid, uses
   * at most 3 frames and changes no other leaf advances the state by one page.
   */
  lemma BootProgressStep(tables0: Tables, free0: seq<Addr>, paths0: Paths,
                 tables: Tables, free: seq<Addr>, paths: Paths, l1: Addr, k: nat)
    requires k * 4096 < MAPPING_SIZE && BootProgress(tables0, free0, paths0, l1, k)
    requires Pool(tables, free) && TreeShaped(Walk, tables, paths, l1) && |free| >= |free0| - 3
    requires Leaf(Walk, tables, l1, GetIndices(k * 4096)) == NewPage(k * 4096, KERNEL_FLAGS)
    requires forall idx :: |idx| == 4 && idx != GetIndices(k * 4096) ==>
               Leaf(Walk, tables, l1, idx) == Leaf(Walk, tables0, l1, idx)
    ensures BootProgress(tables, free, paths, l1, k + 1)
  {
    PageAddress(k);
    IdentityMappedStep(tables0, tables, l1, k * 4096);
  }

  /** One iteration of the boot loop: maps the page at `addr` to itself. */
  method MapIdentityPage(mem: PhysicalMemory, l1: Addr, addr: nat, ghost k: nat) returns (next: nat)
    requires addr == k * 4096 && addr < MAPPING_SIZE && LoopAt(mem, l1, k)
    modifies mem
    ensures next == addr + 4096 && LoopAt(mem, l1, k + 1)
  {
    ghost var tables0, free0, paths0 := mem.tables, mem.free, mem.paths;
    FreeForPage(tables0, free0, paths0, l1, k);
    MapPage(mem, l1, addr, addr, KERNEL_FLAGS);
    BootProgressStep(tables0, free0, paths0, mem.tables, mem.free, mem.paths, l1, k);
    next := addr + 4096;
  }

  /** The loop of `init_mmu`: the 4096 pages 0, 4096, ..., 16 MiB - 4096, each mapped to itself. */
  method MapIdentityRegion(mem: PhysicalMemory, l1: Addr)
    requires LoopAt(mem, l1, 0)
    modifies mem
    ensures LoopAt(mem, l1, MAPPING_SIZE / 4096)
  {
    var addr: nat := 0;
    ghost var k: nat := 0;
    while addr < MAPPING_SIZE
      invariant addr == k * 4096 && LoopAt(mem, l1, k)
    {
      addr := MapIdentityPage(mem, l1, addr, k);
      k := k + 1;
    }
  }

  /** Bit 4 of the MSR, which `enable_paging` sets to turn translation on. */
  const MSR_ME: bv64 := 0x10

  /** SDR1 holds the root's address with the low 12 bits cleared. */
  function Sdr1Value(l1: Addr): (v: bv64)
    ensures v & 0xFFF == 0
    ensures l1.bits & 0xFFF == 0 ==> v == l1.bits
  {
    l1.bits & ADDR_MASK
  }

  /** `msr` is the value read from the MSR; only bit 4 is set. */
  function EnableMsr(msr: bv64): (r: bv64)
    ensures r & MSR_ME == MSR_ME && r & !MSR_ME == msr & !MSR_ME
  {
    msr | MSR_ME
  }

  datatype MmuWrites = MmuWrites(sdr1: bv64, msr: bv64)

  /**
   * `init_mmu`: the statically zeroed root table receives the identity map
   * of the first 16 MiB, then `enable_paging` writes SDR1 and the MSR.
   * `msr` is the value read from the MSR.
   */
  method InitMmu(mem: PhysicalMemory, l1: Addr, msr: bv64) returns (writes: MmuWrites)
    requires mem.Valid() && l1 in mem.tables && mem.tables[l1] == ZeroTable() && |mem.free| >= 3 * 4096
    modifies mem
    ensures mem.Valid() && mem.TreeOf(Walk, l1)
    ensures forall a: nat :: a % 4096 == 0 && a < MAPPING_SIZE ==>
              Leaf(Walk, mem.tables, l1, GetIndices(a)) == NewPage(a, KERNEL_FLAGS)
    ensures writes == MmuWrites(Sdr1Value(l1), EnableMsr(msr))
  {
    mem.StartTree(Walk, l1);
    MapIdentityRegion(mem, l1);
    writes := MmuWrites(Sdr1Value(l1), EnableMsr(msr));
  }
}
