/**
 * SPARC V9 three-level page tables with 8 KiB pages: type-tagged entries
 * (the low two bits say invalid, table or 8 KiB page), index extraction,
 * the walk that creates missing intermediate tables, the 16 MiB identity
 * map of `init_mmu`, and the TSB base and MMU control values written by
 * `enable_paging`.
 *
 * The index extraction as written takes bits 39, 30 and 21 as the level
 * boundaries, which puts every 8 KiB page of a 2 MiB block in the same
 * leaf slot; `GetIndicesAsWritten` models that and `AsWrittenIdentityMapImpossible`
 * shows its consequence. The rest of the module uses `GetIndices`, the
 * 13/22/31-bit split that an 8 KiB page offset calls for.
 */
module MmuSparcv9 {
  import opened Prelude
  import opened PageTable

  const PAGE_SIZE: nat := 8192

  const TYPE_MASK: bv64 := 0x3
  const INVALID: bv64 := 0
  const TABLE: bv64 := 1
  const PAGE_8K: bv64 := 2
  const ACCESSED: bv64 := 0x20
  const MODIFIED: bv64 := 0x40
  const CACHEABLE: bv64 := 0x80
  const PRIVILEGED: bv64 := 0x100
  const WRITE_ENA: bv64 := 0x400
  const EXEC_ENA: bv64 := 0x800

  /** Bits 13..63 of an entry: the physical frame number. */
  const PFN_MASK: bv64 := 0xFFFF_FFFF_FFFF_E000

  const MAPPING_SIZE: nat := 0x100_0000

  const KERNEL_FLAGS: bv64 := PRIVILEGED | WRITE_ENA | EXEC_ENA | CACHEABLE | ACCESSED | MODIFIED

  /** An entry points to a next-level table exactly when its type field is TABLE. */
  function IsTable(e: Entry): bool
  {
    e & TYPE_MASK == TABLE
  }

  function NextTable(e: Entry): Addr
  {
    Addr(e & PFN_MASK)
  }

  function NewTable(a: Addr): Entry
  {
    a.bits | TABLE
  }

  /** A last-level entry: the frame number of `pa`, the flags, and the 8 KiB page type. */
  function NewPage(pa: U64, flags: bv64): Entry
  {
    ((pa as bv64) & PFN_MASK) | flags | PAGE_8K
  }

  const Walk: Walker := Walker(3, IsTable, NextTable)

  /** Round trip: an 8 KiB-aligned table address is tagged TABLE and recovered by the PFN mask. */
  lemma TableRoundTrip(a: bv64)
    requires a & 0x1FFF == 0
    ensures IsTable(NewTable(Addr(a))) && NextTable(NewTable(Addr(a))) == Addr(a)
  {
    assert (a | 1) & 3 == 1;
    assert (a | 1) & 0xFFFF_FFFF_FFFF_E000 == a;
  }

  /** A page entry is never taken for a table pointer, whatever the flags' bit 0. */
  lemma PagesAreNotTables(pa: U64, flags: bv64)
    ensures !IsTable(NewPage(pa, flags))
  {
    assert NewPage(pa, flags) & PAGE_8K == PAGE_8K;
  }

  lemma TablesDecode()
    ensures WalkerOk(Walk) && Decodes(Walk, NewTable)
  {
    forall a: Addr | Allocatable(a)
      ensures Walk.present(NewTable(a)) && Walk.next(NewTable(a)) == a
    {
      assert a.bits & 0x1FFF == 0;
      TableRoundTrip(a.bits);
    }
  }

  /** The indices as the code computes them: bits 39..47, 30..38 and 21..29 (the first computation is overwritten). */
  function GetIndicesAsWritten(va: U64): (idx: seq<nat>)
    ensures |idx| == 3 && ValidIndices(idx)
  {
    [(va / 0x80_0000_0000) % 512, (va / 0x4000_0000) % 512, (va / 0x20_0000) % 512]
  }

  /** The indices for an 8 KiB page offset: bits 31..39, 22..30 and 13..21. */
  function GetIndices(va: U64): (idx: seq<nat>)
    ensures |idx| == 3 && ValidIndices(idx)
  {
    [(va / 0x8000_0000) % 512, (va / 0x40_0000) % 512, (va / 0x2000) % 512]
  }

  /** As written, the first two pages of memory select the same leaf slot. */
  lemma AsWrittenIndicesCollide()
    ensures GetIndicesAsWritten(0) == GetIndicesAsWritten(8192)
  {
  }

  /**
   * As written, no page-table state maps both page 0 and page 8192 to
   * themselves: they share one leaf slot, and the two entries the loop
   * stores there differ in bit 13.
   */
  lemma AsWrittenIdentityMapImpossible(tables: Tables, l1: Addr)
    ensures Leaf(Walk, tables, l1, GetIndicesAsWritten(0)) != NewPage(0, KERNEL_FLAGS)
         || Leaf(Walk, tables, l1, GetIndicesAsWritten(8192)) != NewPage(8192, KERNEL_FLAGS)
  {
    AsWrittenIndicesCollide();
    assert NewPage(0, KERNEL_FLAGS) & 0x2000 == 0;
    assert NewPage(8192, KERNEL_FLAGS) & 0x2000 == 0x2000;
  }

  /**
   * `map_page` as written: the indices of `GetIndicesAsWritten`, each
   * intermediate entry reused when it is a table and otherwise replaced by
   * a pointer to a fresh table, then the page entry stored.
   */
  method MapPageAsWritten(mem: PhysicalMemory, l1: Addr, va: U64, pa: U64, flags: bv64)
    requires mem.Valid() && mem.TreeOf(Walk, l1) && |mem.free| >= 2
    modifies mem
    ensures mem.Valid() && mem.TreeOf(Walk, l1) && |mem.free| >= |old(mem.free)| - 2
    ensures Leaf(Walk, mem.tables, l1, GetIndicesAsWritten(va)) == NewPage(pa, flags)
    ensures forall idx :: |idx| == 3 && idx != GetIndicesAsWritten(va) ==>
              Leaf(Walk, mem.tables, l1, idx) == old(Leaf(Walk, mem.tables, l1, idx))
  {
    TablesDecode();
    var idx := GetIndicesAsWritten(va);
    var l3 := mem.LeafTable3(Walk, NewTable, l1, idx);
    mem.SetLeaf(Walk, l1, idx, l3, NewPage(pa, flags));
  }

  /** `map_page` with the 8 KiB index split. */
  method MapPage(mem: PhysicalMemory, l1: Addr, va: U64, pa: U64, flags: bv64)
    requires mem.Valid() && mem.TreeOf(Walk, l1) && |mem.free| >= 2
    modifies mem
    ensures mem.Valid() && mem.TreeOf(Walk, l1) && |mem.free| >= |old(mem.free)| - 2
    ensures Leaf(Walk, mem.tables, l1, GetIndices(va)) == NewPage(pa, flags)
    ensures forall idx :: |idx| == 3 && idx != GetIndices(va) ==>
              Leaf(Walk, mem.tables, l1, idx) == old(Leaf(Walk, mem.tables, l1, idx))
  {
    TablesDecode();
    var idx := GetIndices(va);
    var l3 := mem.LeafTable3(Walk, NewTable, l1, idx);
    mem.SetLeaf(Walk, l1, idx, l3, NewPage(pa, flags));
  }

  lemma LowPageIndices(a: nat)
    requires a % 8192 == 0 && a < MAPPING_SIZE
    ensures GetIndices(a)[1] == (a / 8192) / 512 && GetIndices(a)[2] == (a / 8192) % 512
  {
  }

  /** With the 8 KiB split, distinct pages of the first 16 MiB select distinct leaf slots. */
  lemma IndicesInjective(a: nat, b: nat)
    requires a % 8192 == 0 && a < MAPPING_SIZE
    requires b % 8192 == 0 && b < MAPPING_SIZE
    requires GetIndices(a) == GetIndices(b)
    ensures a == b
  {
    LowPageIndices(a);
    LowPageIndices(b);
    assert GetIndices(a)[1] == GetIndices(b)[1] && GetIndices(a)[2] == GetIndices(b)[2];
  }

  lemma PageStep(a: nat, addr: nat)
    requires a % 8192 == 0 && addr % 8192 == 0 && addr < MAPPING_SIZE && a < addr + 8192
    ensures a == addr || (a < addr && GetIndices(a) != GetIndices(addr))
  {
    if a != addr && GetIndices(a) == GetIndices(addr) {
      IndicesInjective(a, addr);
    }
  }

  /** Every 8 KiB page below `bound` is identity-mapped with the kernel flags. */
  ghost predicate IdentityMapped(tables: Tables, l1: Addr, bound: nat)
  {
    forall a: nat :: a % 8192 == 0 && a < bound && a < MAPPING_SIZE ==>
      Leaf(Walk, tables, l1, GetIndices(a)) == NewPage(a, KERNEL_FLAGS)
  }

  /** Mapping the page at `addr` and changing no other leaf extends the mapped prefix by one page. */
  lemma IdentityMappedStep(tables0: Tables, tables: Tables, l1: Addr, addr: nat)
    requires addr % 8192 == 0 && addr < MAPPING_SIZE && IdentityMapped(tables0, l1, addr)
    requires Leaf(Walk, tables, l1, GetIndices(addr)) == NewPage(addr, KERNEL_FLAGS)
    requires forall idx :: |idx| == 3 && idx != GetIndices(addr) ==>
               Leaf(Walk, tables, l1, idx) == Leaf(Walk, tables0, l1, idx)
    ensures IdentityMapped(tables, l1, addr + 8192)
  {
    forall a: nat | a % 8192 == 0 && a < addr + 8192 && a < MAPPING_SIZE
      ensures Leaf(Walk, tables, l1, GetIndices(a)) == NewPage(a, KERNEL_FLAGS)
    {
      PageStep(a, addr);
    }
  }

  /**
   * The state of the mapping loop before page `k`, the page at `k * 8192`, over
   * plain values: the page lies within the region, the allocator and the
   * tree are valid, 2 free frames remain for every page still to map, and
   * every earlier page is mapped.
   */
  ghost predicate BootProgress(tables: Tables, free: seq<Addr>, paths: Paths, l1: Addr, k: nat)
  {
    && k * 8192 <= MAPPING_SIZE
    && Pool(tables, free) && TreeShaped(Walk, tables, paths, l1)
    && |free| * 8192 >= 2 * (MAPPING_SIZE - k * 8192)
    && IdentityMapped(tables, l1, k * 8192)
  }

  /** The loop invariant: the mapping loop state of the memory's tables, free frames and paths. */
  ghost predicate LoopAt(mem: PhysicalMemory, l1: Addr, k: nat)
    reads mem
  {
    BootProgress(mem.tables, mem.free, mem.paths, l1, k)
  }

  /** The address of a page of the region is page-aligned, and the next page is still within the region or just past it. */
  lemma PageAddress(k: nat)
    requires k * 8192 < MAPPING_SIZE
    ensures (k * 8192) % 8192 == 0 && (k + 1) * 8192 <= MAPPING_SIZE
  {
  }

  /** Before a page of the region, the 2 tables a mapping may need are free. */
  lemma FreeForPage(tables: Tables, free: seq<Addr>, paths: Paths, l1: Addr, k: nat)
    requires k * 8192 < MAPPING_SIZE && BootProgress(tables, free, paths, l1, k)
    ensures |free| >= 2
  {
  }

  /**
   * A mapping of page `k` that keeps the allocator and the tree valid, uses
   * at most 2 frames and changes no other leaf advances the state by one page.
   */
  lemma BootProgressStep(tables0: Tables, free0: seq<Addr>, paths0: Paths,
                 tables: Tables, free: seq<Addr>, paths: Paths, l1: Addr, k: nat)
    requires k * 8192 < MAPPING_SIZE && BootProgress(tables0, free0, paths0, l1, k)
    requires Pool(tables, free) && TreeShaped(Walk, tables, paths, l1) && |free| >= |free0| - 2
    requires Leaf(Walk, tables, l1, GetIndices(k * 8192)) == NewPage(k * 8192, KERNEL_FLAGS)
    requires forall idx :: |idx| == 3 && idx != GetIndices(k * 8192) ==>
               Leaf(Walk, tables, l1, idx) == Leaf(Walk, tables0, l1, idx)
    ensures BootProgress(tables, free, paths, l1, k + 1)
  {
    PageAddress(k);
    IdentityMappedStep(tables0, tables, l1, k * 8192);
  }

  /** One iteration of the mapping loop: maps the page at `addr` to itself. */
  method MapIdentityPage(mem: PhysicalMemory, l1: Addr, addr: nat, ghost k: nat) returns (next: nat)
    requires addr == k * 8192 && addr < MAPPING_SIZE && LoopAt(mem, l1, k)
    modifies mem
    ensures next == addr + 8192 && LoopAt(mem, l1, k + 1)
  {
    ghost var tables0, free0, paths0 := mem.tables, mem.free, mem.paths;
    FreeForPage(tables0, free0, paths0, l1, k);
    MapPage(mem, l1, addr, addr, KERNEL_FLAGS);
    BootProgressStep(tables0, free0, paths0, mem.tables, mem.free, mem.paths, l1, k);
    next := addr + 8192;
  }

  /** The loop of `init_mmu`: the 2048 pages 0, 8192, ..., 16 MiB - 8192, in that order. */
  method MapIdentityRegion(mem: PhysicalMemory, l1: Addr)
    requires LoopAt(mem, l1, 0)
    modifies mem
    ensures LoopAt(mem, l1, MAPPING_SIZE / 8192)
  {
    var addr: nat := 0;
    ghost var k: nat := 0;
    while addr < MAPPING_SIZE
      invariant addr == k * 8192 && LoopAt(mem, l1, k)
    {
      addr := MapIdentityPage(mem, l1, addr, k);
      k := k + 1;
    }
  }

  /** The size field of the TSB base register: 256 KiB. */
  const TSB_SIZE_256K: bv64 := 2

  /** Bit 0 of the MMU control register enables translation. */
  const MMU_E: bv64 := 1

  /** The root table's address is used as the TSB base, tagged with the size field. */
  function TsbBase(l1: Addr): (v: bv64)
    ensures v & TSB_SIZE_256K == TSB_SIZE_256K
    ensures l1.bits & 0x1FFF == 0 ==> v & !0x1FFF == l1.bits && v & 0x1FFF == TSB_SIZE_256K
  {
    l1.bits | TSB_SIZE_256K
  }

  /** `cr` is the value read from the control register; only the enable bit is set. */
  function EnableMmuControl(cr: bv64): (r: bv64)
    ensures r & MMU_E == MMU_E && r & !MMU_E == cr & !MMU_E
  {
    cr | MMU_E
  }

  datatype MmuWrites = MmuWrites(tsbBase: bv64, control: bv64)

  /**
   * `init_mmu`: the statically zeroed root table receives the identity map
   * of the 2048 pages of 8 KiB in the first 16 MiB, then `enable_paging`
   * writes the TSB base and the control register. `cr` is the value read
   * from the control register.
   */
  method InitMmu(mem: PhysicalMemory, l1: Addr, cr: bv64) returns (writes: MmuWrites)
    requires mem.Valid() && l1 in mem.tables && mem.tables[l1] == ZeroTable() && |mem.free| >= 2 * 2048
    modifies mem
    ensures mem.Valid() && mem.TreeOf(Walk, l1)
    ensures forall a: nat :: a % 8192 == 0 && a < MAPPING_SIZE ==>
              Leaf(Walk, mem.tables, l1, GetIndices(a)) == NewPage(a, KERNEL_FLAGS)
    ensures writes == MmuWrites(TsbBase(l1), EnableMmuControl(cr))
  {
    mem.StartTree(Walk, l1);
    MapIdentityRegion(mem, l1);
    writes := MmuWrites(TsbBase(l1), EnableMmuControl(cr));
  }
}
