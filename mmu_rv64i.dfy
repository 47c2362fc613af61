/**
 * RISC-V Sv39 paging (section 4.4 of the RISC-V Privileged Architecture):
 * page-table entries that carry a physical page number in bits 10..53,
 * three 9-bit indices, the walk that creates missing intermediate tables,
 * the identity map of the first 16 MiB, and the `satp` value that turns
 * translation on.
 *
 * Addresses are `usize` values, modelled as integers below 2^64; entries
 * are 64-bit words. The `satp` CSR is a result.
 */
module MmuRv64i {
  import opened Prelude
  import opened PageTable

  const VALID: bv64 := 1
  const READ: bv64 := 2
  const WRITE: bv64 := 4
  const EXEC: bv64 := 8
  const USER: bv64 := 16
  const GLOBAL: bv64 := 32
  const ACCESSED: bv64 := 64
  const DIRTY: bv64 := 128

  /** Bits 10..53 of an entry: the physical page number. */
  const PPN_MASK: bv64 := 0x003F_FFFF_FFFF_FC00

  const IDENTITY_MAP_SIZE: nat := 0x100_0000

  const KERNEL_FLAGS: bv64 := READ | WRITE | EXEC | GLOBAL | ACCESSED | DIRTY

  function IsValid(e: Entry): bool
  {
    e & VALID != 0
  }

  /** The address of the table an entry points to: its page number shifted back to a byte address. */
  function NextTable(e: Entry): Addr
  {
    Addr((e & PPN_MASK) << 2)
  }

  /** A pointer to a next-level table: the page number at bit 10, only V set (R, W and X clear). */
  function NewTable(a: Addr): Entry
  {
    ((a.bits >> 12) << 10) | VALID
  }

  function NewPage(pa: U64, flags: bv64): Entry
  {
    (((pa / 4096) as bv64) << 10) | flags | VALID
  }

  const Walk: Walker := Walker(3, IsValid, NextTable)

  /** A table pointer has R, W and X clear, so the hardware walker treats it as a pointer, not a leaf. */
  lemma TableIsPointer(a: Addr)
    ensures IsValid(NewTable(a)) && NewTable(a) & (READ | WRITE | EXEC) == 0
  {
  }

  /** Round trip: for a 4 KiB-aligned address below 2^56, decoding the table pointer gives the address back. */
  lemma TableRoundTrip(a: bv64)
    requires a & 0xFF00_0000_0000_0FFF == 0
    ensures NextTable(NewTable(Addr(a))) == Addr(a)
  {
  }

  lemma TablesDecode()
    ensures WalkerOk(Walk) && Decodes(Walk, NewTable)
  {
    forall a: Addr | Allocatable(a)
      ensures Walk.present(NewTable(a)) && Walk.next(NewTable(a)) == a
    {
      TableIsPointer(a);
      TableRoundTrip(a.bits);
    }
  }

  /** Bits 30..38, 21..29 and 12..20 of the virtual address: VPN[2], VPN[1] and VPN[0]. */
  function GetIndices(va: U64): (idx: seq<nat>)
    ensures |idx| == 3 && ValidIndices(idx)
  {
    [(va / 0x4000_0000) % 512, (va / 0x20_0000) % 512, (va / 0x1000) % 512]
  }

  lemma LowPageIndices(a: nat)
    requires a % 4096 == 0 && a < IDENTITY_MAP_SIZE
    ensures GetIndices(a)[1] == (a / 4096) / 512 && GetIndices(a)[2] == (a / 4096) % 512
  {
  }

  /** Distinct pages of the first 16 MiB select distinct leaf slots. */
  lemma IndicesInjective(a: nat, b: nat)
    requires a % 4096 == 0 && a < IDENTITY_MAP_SIZE
    requires b % 4096 == 0 && b < IDENTITY_MAP_SIZE
    requires GetIndices(a) == GetIndices(b)
    ensures a == b
  {
    LowPageIndices(a);
    LowPageIndices(b);
    assert GetIndices(a)[1] == GetIndices(b)[1] && GetIndices(a)[2] == GetIndices(b)[2];
  }

  /** A page below the next loop address is the current page, or an earlier page with another leaf slot. */
  lemma PageStep(a: nat, addr: nat)
    requires a % 4096 == 0 && addr % 4096 == 0 && addr < IDENTITY_MAP_SIZE && a < addr + 4096
    ensures a == addr || (a < addr && GetIndices(a) != GetIndices(addr))
  {
    if a != addr && GetIndices(a) == GetIndices(addr) {
      IndicesInjective(a, addr);
    }
  }

  /**
   * Maps the 4 KiB page at `va` to `pa`: the two intermediate entries on
   * the way are reused when valid and otherwise pointed at a fresh table;
   * the last-level entry becomes `new_page(pa, flags)`.
   */
  method MapPage(mem: PhysicalMemory, l1: Addr, va: U64, pa: U64, flags: bv64)
    requires mem.Valid() && mem.TreeOf(Walk, l1) && |mem.free| >= 2
    modifies mem
    ensures mem.Valid() && mem.TreeOf(Walk, l1) && |mem.free| >= |old(mem.free)| - 2
    ensures Leaf(Walk, mem.tables, l1, GetIndices(va)) == NewPage(pa, flags)
    ensures forall idx :: |idx| == 3 && idx != GetIndices(va) ==>
              Leaf(Walk, mem.tables, l1, idx) == old(Leaf(Walk, mem.tables, l1, idx))
  {
    TablesDecode();
    var idx := GetIndices(va);
    var l3 := mem.LeafTable3(Walk, NewTable, l1, idx);
    mem.SetLeaf(Walk, l1, idx, l3, NewPage(pa, flags));
  }

  /** Every page of the region below `bound` is identity-mapped with the kernel flags. */
  ghost predicate IdentityMapped(tables: Tables, l1: Addr, bound: nat)
  {
    forall a: nat :: a % 4096 == 0 && a < bound && a < IDENTITY_MAP_SIZE ==>
      Leaf(Walk, tables, l1, GetIndices(a)) == NewPage(a, KERNEL_FLAGS)
  }

  /** Mapping the page at `addr` and changing no other leaf extends the mapped prefix by one page. */
  lemma IdentityMappedStep(tables0: Tables, tables: Tables, l1: Addr, addr: nat)
    requires addr % 4096 == 0 && addr < IDENTITY_MAP_SIZE && IdentityMapped(tables0, l1, addr)
    requires Leaf(Walk, tables, l1, GetIndices(addr)) == NewPage(addr, KERNEL_FLAGS)
    requires forall idx :: |idx| == 3 && idx != GetIndices(addr) ==>
               Leaf(Walk, tables, l1, idx) == Leaf(Walk, tables0, l1, idx)
    ensures IdentityMapped(tables, l1, addr + 4096)
  {
    forall a: nat | a % 4096 == 0 && a < addr + 4096 && a < IDENTITY_MAP_SIZE
      ensures Leaf(Walk, tables, l1, GetIndices(a)) == NewPage(a, KERNEL_FLAGS)
    {
      PageStep(a, addr);
    }
  }

  /**
   * The state of the boot loop before page `k`, the page at `k * 4096`, over
   * plain values: the page lies within the region, the allocator and the
   * tree are valid, 2 free frames remain for every page still to map, and
   * every earlier page is mapped.
   */
  ghost predicate BootProgress(tables: Tables, free: seq<Addr>, paths: Paths, l1: Addr, k: nat)
  {
    && k * 4096 <= IDENTITY_MAP_SIZE
    && Pool(tables, free) && TreeShaped(Walk, tables, paths, l1)
    && |free| * 4096 >= 2 * (IDENTITY_MAP_SIZE - k * 4096)
    && IdentityMapped(tables, l1, k * 4096)
  }

  /** The loop invariant: the boot loop state of the memory's tables, free frames and paths. */
  ghost predicate LoopAt(mem: PhysicalMemory, l1: Addr, k: nat)
    reads mem
  {
    BootProgress(mem.tables, mem.free, mem.paths, l1, k)
  }

  /** The address of a page of the region is page-aligned, and the next page is still within the region or just past it. */
  lemma PageAddress(k: nat)
    requires k * 4096 < IDENTITY_MAP_SIZE
    ensures (k * 4096) % 4096 == 0 && (k + 1) * 4096 <= IDENTITY_MAP_SIZE
  {
  }

  /** Before a page of the region, the 2 tables a mapping may need are free. */
  lemma FreeForPage(tables: Tables, free: seq<Addr>, paths: Paths, l1: Addr, k: nat)
    requires k * 4096 < IDENTITY_MAP_SIZE && BootProgress(tables, free, paths, l1, k)
    ensures |free| >= 2
  {
  }

  /**
   * A mapping of page `k` that keeps the allocator and the tree valid, uses
   * at most 2 frames and changes no other leaf advances the state by one page.
   */
  lemma BootProgressStep(tables0: Tables, free0: seq<Addr>, paths0: Paths,
                 tables: Tables, free: seq<Addr>, paths: Paths, l1: Addr, k: nat)
    requires k * 4096 < IDENTITY_MAP_SIZE && BootProgress(tables0, free0, paths0, l1, k)
    requires Pool(tables, free) && TreeShaped(Walk, tables, paths, l1) && |free| >= |free0| - 2
    requires Leaf(Walk, tables, l1, GetIndices(k * 4096)) == NewPage(k * 4096, KERNEL_FLAGS)
    requires forall idx :: |idx| == 3 && idx != GetIndices(k * 4096) ==>
               Leaf(Walk, tables, l1, idx) == Leaf(Walk, tables0, l1, idx)
    ensures BootProgress(tables, free, paths, l1, k + 1)
  {
    PageAddress(k);
    IdentityMappedStep(tables0, tables, l1, k * 4096);
  }

  /** One iteration of the boot loop: maps the page at `addr` to itself. */
  method MapIdentityPage(mem: PhysicalMemory, l1: Addr, addr: nat, ghost k: nat) returns (next: nat)
    requires addr == k * 4096 && addr < IDENTITY_MAP_SIZE && LoopAt(mem, l1, k)
    modifies mem
    ensures next == addr + 4096 && LoopAt(mem, l1, k + 1)
  {
    ghost var tables0, free0, paths0 := mem.tables, mem.free, mem.paths;
    FreeForPage(tables0, free0, paths0, l1, k);
    MapPage(mem, l1, addr, addr, KERNEL_FLAGS);
    BootProgressStep(tables0, free0, paths0, mem.tables, mem.free, mem.paths, l1, k);
    next := addr + 4096;
  }

  /** The boot loop: the pages 0, 4096, ..., 16 MiB - 4096, in that order. */
  method MapIdentityRegion(mem: PhysicalMemory, l1: Addr)
    requires LoopAt(mem, l1, 0)
    modifies mem
    ensures LoopAt(mem, l1, IDENTITY_MAP_SIZE / 4096)
  {
    var addr: nat := 0;
    ghost var k: nat := 0;
    while addr < IDENTITY_MAP_SIZE
      invariant addr == k * 4096 && LoopAt(mem, l1, k)
    {
      addr := MapIdentityPage(mem, l1, addr, k);
      k := k + 1;
    }
  }

  /**
   * Clears the statically allocated root table, then identity-maps the 4096
   * pages of the first 16 MiB readable, writable, executable, global,
   * accessed and dirty. Returns the root table's address.
   */
  method SetupInitialPaging(mem: PhysicalMemory, l1: Addr) returns (root: Addr)
    requires mem.Valid() && l1 in mem.tables && |mem.free| >= 2 * 4096
    modifies mem
    ensures root == l1 && mem.Valid() && mem.TreeOf(Walk, l1)
    ensures forall a: nat :: a % 4096 == 0 && a < IDENTITY_MAP_SIZE ==>
              Leaf(Walk, mem.tables, l1, GetIndices(a)) == NewPage(a, KERNEL_FLAGS)
  {
    mem.ZeroTableAt(l1);
    mem.StartTree(Walk, l1);
    MapIdentityRegion(mem, l1);
    root := l1;
  }

  const SATP_MODE_SV39: bv64 := 8

  /**
   * The `satp` value written by `enable_paging`: MODE = 8 (Sv39) in bits
   * 60..63, ASID 0, and the root's physical page number in bits 0..43,
   * from which the root's address is recovered.
   */
  function SatpValue(l1: Addr): (satp: bv64)
    ensures satp >> 60 == SATP_MODE_SV39
    ensures l1.bits & 0xFF00_0000_0000_0FFF == 0 ==>
              (satp >> 44) & 0xFFFF == 0 && (satp & 0xFFF_FFFF_FFFF) << 12 == l1.bits
  {
    (SATP_MODE_SV39 << 60) | (l1.bits >> 12)
  }
}
