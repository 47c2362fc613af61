/**
 * AArch64 four-level translation tables with a 4 KiB granule: descriptor
 * encoding, index extraction, the table walk that creates missing
 * intermediate tables, and `enable_mmu`, which maps the first 16 MiB of
 * physical memory at the kernel's high virtual base and then computes the
 * MAIR, TCR and SCTLR values it writes.
 *
 * Addresses are `usize` values, modelled as integers below 2^64; descriptors
 * are 64-bit words. System registers are parameters and results.
 */
module MmuArmv9 {
  import opened Prelude
  import opened PageTable

  const PRESENT: bv64 := 1
  /** Bit 1: a table descriptor at levels 0-2, a page descriptor at level 3. */
  const TABLE_OR_BLOCK: bv64 := 2
  const ATTR_IDX_NORM_RW: bv64 := 0
  const ATTR_IDX_DEVICE_NGNRE: bv64 := 4
  const AP_RW_KERN_ONLY: bv64 := 0
  const SH_INNER: bv64 := 0x300
  const AF_ACCESSED: bv64 := 0x400
  const UXN_XN: bv64 := 0x40_0000_0000_0000

  /** Bits 12..47 of a table descriptor: the next-level table address. */
  const NEXT_MASK: bv64 := 0x0000_FFFF_FFFF_F000

  /** Base of the kernel half of the address space (translated through TTBR1). */
  const KERNEL_START_VADDR: nat := 0xFFFF_8000_0000_0000

  const MAPPING_SIZE: nat := 0x100_0000

  const KERNEL_FLAGS: bv64 := PRESENT | AP_RW_KERN_ONLY | SH_INNER | AF_ACCESSED | ATTR_IDX_NORM_RW

  /** A descriptor is in use when either of its two low bits is set. */
  function IsPresent(e: Entry): bool
  {
    e & 3 != 0
  }

  function NextTable(e: Entry): Addr
  {
    Addr(e & NEXT_MASK)
  }

  function NewTable(a: Addr): Entry
  {
    a.bits | PRESENT | TABLE_OR_BLOCK
  }

  function NewPage(pa: U64, flags: bv64): Entry
  {
    (pa as bv64) | flags | PRESENT | TABLE_OR_BLOCK
  }

  const Walk: Walker := Walker(4, IsPresent, NextTable)

  /**
   * Round trip: a table descriptor built from a 4 KiB-aligned address below
   * 2^48 is present and leads back to that address.
   */
  lemma TableRoundTrip(a: bv64)
    requires a & 0xFFFF_0000_0000_0FFF == 0
    ensures IsPresent(NewTable(Addr(a))) && NextTable(NewTable(Addr(a))) == Addr(a)
  {
  }

  /** Every page descriptor is present, whatever the flags. */
  lemma PagesArePresent(pa: U64, flags: bv64)
    ensures IsPresent(NewPage(pa, flags))
  {
  }

  lemma TablesDecode()
    ensures WalkerOk(Walk) && Decodes(Walk, NewTable)
  {
    forall a: Addr | Allocatable(a)
      ensures Walk.present(NewTable(a)) && Walk.next(NewTable(a)) == a
    {
      TableRoundTrip(a.bits);
    }
  }

  /** Bits 39..47, 30..38, 21..29 and 12..20 of the virtual address index levels 0 to 3. */
  function GetIndices(va: U64): (idx: seq<nat>)
    ensures |idx| == 4 && ValidIndices(idx)
  {
    [(va / 0x80_0000_0000) % 512, (va / 0x4000_0000) % 512, (va / 0x20_0000) % 512, (va / 0x1000) % 512]
  }

  /**
   * Every kernel address of the mapped window goes through slot 256 of the
   * level-0 table and slot 0 of the level-1 table; the last two indices are
   * the page number split in two.
   */
  lemma KernelIndices(a: nat)
    requires a % 4096 == 0 && a < MAPPING_SIZE
    ensures GetIndices(KERNEL_START_VADDR + a) == [256, 0, (a / 4096) / 512, (a / 4096) % 512]
  {
    var va := KERNEL_START_VADDR + a;
    assert va == 0x1FF_FF00 * 0x80_0000_0000 + a;
    assert va / 0x80_0000_0000 == 0x1FF_FF00;
    assert va == 0x3_FFFE_0000 * 0x4000_0000 + a;
    assert va / 0x4000_0000 == 0x3_FFFE_0000;
    assert va == 0x7FF_FC00_0000 * 0x20_0000 + a;
    assert va / 0x20_0000 == 0x7FF_FC00_0000 + a / 0x20_0000;
    assert va == 0xF_FFF8_0000_0000 * 0x1000 + a;
    assert va / 0x1000 == 0xF_FFF8_0000_0000 + a / 0x1000;
  }

  /** Distinct pages of the window select distinct leaf slots. */
  lemma KernelIndicesInjective(a: nat, b: nat)
    requires a % 4096 == 0 && a < MAPPING_SIZE
    requires b % 4096 == 0 && b < MAPPING_SIZE
    requires GetIndices(KERNEL_START_VADDR + a) == GetIndices(KERNEL_START_VADDR + b)
    ensures a == b
  {
    KernelIndices(a);
    KernelIndices(b);
    assert GetIndices(KERNEL_START_VADDR + a)[2] == GetIndices(KERNEL_START_VADDR + b)[2];
    assert GetIndices(KERNEL_START_VADDR + a)[3] == GetIndices(KERNEL_START_VADDR + b)[3];
  }

  /** A page below the next loop address is the current page, or an earlier page with another leaf slot. */
  lemma PageStep(a: nat, addr: nat)
    requires a % 4096 == 0 && addr % 4096 == 0 && addr < MAPPING_SIZE && a < addr + 4096
    ensures a == addr || (a < addr && GetIndices(KERNEL_START_VADDR + a) != GetIndices(KERNEL_START_VADDR + addr))
  {
    if a != addr && GetIndices(KERNEL_START_VADDR + a) == GetIndices(KERNEL_START_VADDR + addr) {
      KernelIndicesInjective(a, addr);
    }
  }

  /**
   * Maps the 4 KiB page at `va` to `pa`: each of the three table descriptors
   * on the way is reused when present and otherwise pointed at a fresh
   * table; the level-3 descriptor becomes `new_page(pa, flags)`.
   */
  method MapPage(mem: PhysicalMemory, l1: Addr, va: U64, pa: U64, flags: bv64)
    requires mem.Valid() && mem.TreeOf(Walk, l1) && |mem.free| >= 3
    modifies mem
    ensures mem.Valid() && mem.TreeOf(Walk, l1) && |mem.free| >= |old(mem.free)| - 3
    ensures Leaf(Walk, mem.tables, l1, GetIndices(va)) == NewPage(pa, flags)
    ensures forall idx :: |idx| == 4 && idx != GetIndices(va) ==>
              Leaf(Walk, mem.tables, l1, idx) == old(Leaf(Walk, mem.tables, l1, idx))
  {
    TablesDecode();
    var idx := GetIndices(va);
    var l4 := mem.LeafTable4(Walk, NewTable, l1, idx);
    mem.SetLeaf(Walk, l1, idx, l4, NewPage(pa, flags));
  }

  /** Every page of the window below `bound` is mapped at the kernel base with the kernel flags. */
  ghost predicate WindowMapped(tables: Tables, l1: Addr, bound: nat)
  {
    forall a: nat :: a % 4096 == 0 && a < bound && a < MAPPING_SIZE ==>
      Leaf(Walk, tables, l1, GetIndices(KERNEL_START_VADDR + a)) == NewPage(a, KERNEL_FLAGS)
  }

  /** Mapping the page at `addr` and changing no other leaf extends the mapped prefix by one page. */
  lemma WindowMappedStep(tables0: Tables, tables: Tables, l1: Addr, addr: nat)
    requires addr % 4096 == 0 && addr < MAPPING_SIZE && WindowMapped(tables0, l1, addr)
    requires Leaf(Walk, tables, l1, GetIndices(KERNEL_START_VADDR + addr)) == NewPage(addr, KERNEL_FLAGS)
    requires forall idx :: |idx| == 4 && idx != GetIndices(KERNEL_START_VADDR + addr) ==>
               Leaf(Walk, tables, l1, idx) == Leaf(Walk, tables0, l1, idx)
    ensures WindowMapped(tables, l1, addr + 4096)
  {
    forall a: nat | a % 4096 == 0 && a < addr + 4096 && a < MAPPING_SIZE
      ensures Leaf(Walk, tables, l1, GetIndices(KERNEL_START_VADDR + a)) == NewPage(a, KERNEL_FLAGS)
    {
      PageStep(a, addr);
    }
  }

  /**
   * The state of the mapping loop before page `k`, the page at `k * 4096`, over
   * plain values: the page lies within the region, the allocator and the
   * tree are valid, 3 free frames remain for every page still to map, and
   * every earlier page is mapped.
   */
  ghost predicate MapProgress(tables: Tables, free: seq<Addr>, paths: Paths, l1: Addr, k: nat)
  {
    && k * 4096 <= MAPPING_SIZE
    && Pool(tables, free) && TreeShaped(Walk, tables, paths, l1)
    && |free| * 4096 >= 3 * (MAPPING_SIZE - k * 4096)
    && WindowMapped(tables, l1, k * 4096)
  }

  /** The loop invariant: the mapping loop state of the memory's tables, free frames and paths. */
  ghost predicate LoopAt(mem: PhysicalMemory, l1: Addr, k: nat)
    reads mem
  {
    MapProgress(mem.tables, mem.free, mem.paths, l1, k)
  }

  /** The address of a page of the region is page-aligned, and the next page is still within the region or just past it. */
  lemma PageAddress(k: nat)
    requires k * 4096 < MAPPING_SIZE
    ensures (k * 4096) % 4096 == 0 && (k + 1) * 4096 <= MAPPING_SIZE
  {
  }

  /** Before a page of the region, the 3 tables a mapping may need are free. */
  lemma FreeForPage(tables: Tables, free: seq<Addr>, paths: Paths, l1: Addr, k: nat)
    requires k * 4096 < MAPPING_SIZE && MapProgress(tables, free, paths, l1, k)
    ensures |free| >= 3
  {
  }

  /**
   * A mapping of page `k` that keeps the allocator and the tree valid, uses
   * at most 3 frames and changes no other leaf advances the state by one page.
   */
  lemma MapProgressStep(tables0: Tables, free0: seq<Addr>, paths0: Paths,
                 tables: Tables, free: seq<Addr>, paths: Paths, l1: Addr, k: nat, va: nat)
    requires k * 4096 < MAPPING_SIZE && MapProgress(tables0, free0, paths0, l1, k)
    requires va == KERNEL_START_VADDR + k * 4096
    requires Pool(tables, free) && TreeShaped(Walk, tables, paths, l1) && |free| >= |free0| - 3
    requires Leaf(Walk, tables, l1, GetIndices(va)) == NewPage(k * 4096, KERNEL_FLAGS)
    requires forall idx :: |idx| == 4 && idx != GetIndices(va) ==>
               Leaf(Walk, tables, l1, idx) == Leaf(Walk, tables0, l1, idx)
    ensures MapProgress(tables, free, paths, l1, k + 1)
  {
    PageAddress(k);
    WindowMappedStep(tables0, tables, l1, k * 4096);
  }

  /** One iteration of the mapping loop: maps `KERNEL_START_VADDR + addr` to `addr`. */
  method MapWindowPage(mem: PhysicalMemory, l1: Addr, addr: nat, ghost k: nat) returns (next: nat)
    requires addr == k * 4096 && addr < MAPPING_SIZE && LoopAt(mem, l1, k)
    modifies mem
    ensures next == addr + 4096 && LoopAt(mem, l1, k + 1)
  {
    ghost var tables0, free0, paths0 := mem.tables, mem.free, mem.paths;
    FreeForPage(tables0, free0, paths0, l1, k);
    var va: U64 := KERNEL_START_VADDR + addr;
    MapPage(mem, l1, va, addr, KERNEL_FLAGS);
    assert LoopAt(mem, l1, k + 1) by {
      MapProgressStep(tables0, free0, paths0, mem.tables, mem.free, mem.paths, l1, k, va);
    }
    next := addr + 4096;
  }

  /** The mapping loop: the pages 0, 4096, ..., 16 MiB - 4096, in that order. */
  method MapWindow(mem: PhysicalMemory, l1: Addr)
    requires LoopAt(mem, l1, 0)
    modifies mem
    ensures LoopAt(mem, l1, MAPPING_SIZE / 4096)
  {
    var addr: nat := 0;
    ghost var k: nat := 0;
    while addr < MAPPING_SIZE
      invariant addr == k * 4096 && LoopAt(mem, l1, k)
    {
      addr := MapWindowPage(mem, l1, addr, k);
      k := k + 1;
    }
  }

  /** The values `enable_mmu` writes to the translation system registers. */
  datatype MmuRegisters = MmuRegisters(ttbr1: Addr, mair: bv64, tcr: bv64, sctlr: bv64)

  /** Attribute 0 is normal write-back memory (0xFF), attribute 1 device nGnRnE (0x04). */
  const MAIR_VALUE: bv64 := 0xFF | (0x04 << 8)

  const TCR_VALUE: bv64 := 0x10 | (0x10 << 16) | (0 << 14) | (2 << 30) | (2 << 12) | (1 << 10) | (1 << 26) | (1 << 22)

  /** T0SZ = T1SZ = 16 (48-bit address spaces), TG1 = 2 (4 KiB granule), A1 = 1; MAIR attributes 0 and 1. */
  lemma ControlValues()
    ensures TCR_VALUE & 0x3F == 16 && (TCR_VALUE >> 16) & 0x3F == 16
    ensures (TCR_VALUE >> 30) & 3 == 2 && (TCR_VALUE >> 14) & 3 == 0 && (TCR_VALUE >> 22) & 1 == 1
    ensures MAIR_VALUE & 0xFF == 0xFF && (MAIR_VALUE >> 8) & 0xFF == 0x04 && MAIR_VALUE >> 16 == 0
  {
  }

  /** The M bit (bit 0) of SCTLR_EL1 enables stage-1 translation. */
  function EnableTranslation(sctlr: bv64): (r: bv64)
    ensures r & 1 == 1 && r & !1 == sctlr & !1
  {
    sctlr | 1
  }

  /**
   * The mapping loop and register set-up of `enable_mmu`: the statically
   * zeroed level-0 table receives, for every page of the first 16 MiB, the
   * mapping of `KERNEL_START_VADDR + addr` to `addr`; TTBR1 then holds the
   * table's address and SCTLR gains the M bit. `sctlr` is the value read
   * from SCTLR_EL1.
   */
  method EnableMmu(mem: PhysicalMemory, l1: Addr, sctlr: bv64) returns (regs: MmuRegisters)
    requires mem.Valid() && l1 in mem.tables && mem.tables[l1] == ZeroTable() && |mem.free| >= 3 * 4096
    modifies mem
    ensures mem.Valid() && mem.TreeOf(Walk, l1)
    ensures forall a: nat :: a % 4096 == 0 && a < MAPPING_SIZE ==>
              Leaf(Walk, mem.tables, l1, GetIndices(KERNEL_START_VADDR + a)) == NewPage(a, KERNEL_FLAGS)
    ensures regs == MmuRegisters(l1, MAIR_VALUE, TCR_VALUE, EnableTranslation(sctlr))
  {
    mem.StartTree(Walk, l1);
    MapWindow(mem, l1);
    regs := MmuRegisters(l1, MAIR_VALUE, TCR_VALUE, EnableTranslation(sctlr));
  }
}
