/**
 * x86-64 four-level paging (PML4, PDPT, PD, PT) with 4 KiB pages: entry
 * encoding, index extraction, the table walk that creates missing
 * intermediate tables, and the identity map of the first 16 MiB.
 *
 * Virtual and physical addresses are `usize` values, modelled as integers
 * below 2^64 (a right shift and a mask are then a division and a remainder);
 * entries are 64-bit words.
 */
module MmuAmd64 {
  import opened Prelude
  import opened PageTable

  const PAGE_SIZE: nat := 4096

  const PRESENT: bv64 := 1
  const WRITABLE: bv64 := 2
  const USER_ACC: bv64 := 4
  const WRITE_THR: bv64 := 8
  const NO_CACHE: bv64 := 16
  const ACCESSED: bv64 := 32
  const DIRTY: bv64 := 64
  const HUGE_PAGE: bv64 := 128
  const GLOBAL: bv64 := 256
  const NO_EXEC: bv64 := 0x8000_0000_0000_0000

  /** Bits 12..51 of an entry: the physical frame address. */
  const ADDR_MASK: bv64 := 0x000F_FFFF_FFFF_F000

  /** Size of the identity-mapped region set up at boot. */
  const IDENTITY_MAP_SIZE: nat := 0x100_0000

  const KERNEL_FLAGS: bv64 := PRESENT | WRITABLE | NO_EXEC

  const ZERO_ENTRY: Entry := 0

  function IsPresent(e: Entry): bool
  {
    e & PRESENT != 0
  }

  /** The frame address an entry points to: the flag bits at both ends are stripped. */
  function EntryAddr(e: Entry): Addr
  {
    Addr(e & ADDR_MASK)
  }

  function NewEntry(addr: U64, flags: bv64): Entry
  {
    (addr as bv64) | flags
  }

  /** The entry stored for a freshly created intermediate table. */
  function TableEntry(a: Addr): Entry
  {
    a.bits | PRESENT | WRITABLE
  }

  const Walk: Walker := Walker(4, IsPresent, EntryAddr)

  /** The cleared entry maps nothing. */
  lemma ZeroEntryIsAbsent()
    ensures !IsPresent(ZERO_ENTRY) && EntryAddr(ZERO_ENTRY) == Addr(0)
  {
  }

  /**
   * Round trip: for a page-aligned address below 2^52 and flags in bits
   * 0..11 and 63, `addr` recovers the address (NO_EXEC is stripped), and
   * the entry is present exactly when the flags say so.
   */
  lemma EntryRoundTrip(a: bv64, flags: bv64)
    requires a & 0xFFF0_0000_0000_0FFF == 0
    requires flags & 0x7FFF_FFFF_FFFF_F000 == 0
    ensures EntryAddr(a | flags) == Addr(a)
    ensures IsPresent(a | flags) <==> flags & PRESENT != 0
  {
  }

  lemma TableEntriesDecode()
    ensures WalkerOk(Walk) && Decodes(Walk, TableEntry)
  {
    forall a: Addr | Allocatable(a)
      ensures Walk.present(TableEntry(a)) && Walk.next(TableEntry(a)) == a
    {
      EntryRoundTrip(a.bits, PRESENT | WRITABLE);
    }
  }

  /** Bits 39..47, 30..38, 21..29 and 12..20 of the virtual address index the four levels. */
  function GetIndices(va: U64): (idx: seq<nat>)
    ensures |idx| == 4 && ValidIndices(idx)
  {
    [(va / 0x80_0000_0000) % 512, (va / 0x4000_0000) % 512, (va / 0x20_0000) % 512, (va / 0x1000) % 512]
  }

  /** Inside the identity-mapped region, the PD and PT indices are the page number split in two. */
  lemma LowPageIndices(a: nat)
    requires a % 4096 == 0 && a < IDENTITY_MAP_SIZE
    ensures GetIndices(a)[2] == (a / 4096) / 512 && GetIndices(a)[3] == (a / 4096) % 512
  {
  }

  /** Distinct pages of the first 16 MiB select distinct leaf slots. */
  lemma IndicesInjective(a: nat, b: nat)
    requires a % 4096 == 0 && a < IDENTITY_MAP_SIZE
    requires b % 4096 == 0 && b < IDENTITY_MAP_SIZE
    requires GetIndices(a) == GetIndices(b)
    ensures a == b
  {
    LowPageIndices(a);
    LowPageIndices(b);
    assert GetIndices(a)[2] == GetIndices(b)[2] && GetIndices(a)[3] == GetIndices(b)[3];
  }

  /** A page below the next loop address is the current page, or an earlier page with another leaf slot. */
  lemma PageStep(a: nat, addr: nat)
    requires a % 4096 == 0 && addr % 4096 == 0 && addr < IDENTITY_MAP_SIZE && a < addr + 4096
    ensures a == addr || (a < addr && GetIndices(a) != GetIndices(addr))
  {
    if a != addr && GetIndices(a) == GetIndices(addr) {
      IndicesInjective(a, addr);
    }
  }

  /**
   * Maps the 4 KiB page at `va` to `pa`: each of the three intermediate
   * entries on the way is reused when present and otherwise pointed at a
   * fresh table, and the last-level entry becomes `new(pa, flags)`.
   */
  method MapPage(mem: PhysicalMemory, pml4: Addr, va: U64, pa: U64, flags: bv64)
    requires mem.Valid() && mem.TreeOf(Walk, pml4) && |mem.free| >= 3
    modifies mem
    ensures mem.Valid() && mem.TreeOf(Walk, pml4) && |mem.free| >= |old(mem.free)| - 3
    ensures Leaf(Walk, mem.tables, pml4, GetIndices(va)) == NewEntry(pa, flags)
    ensures forall idx :: |idx| == 4 && idx != GetIndices(va) ==>
              Leaf(Walk, mem.tables, pml4, idx) == old(Leaf(Walk, mem.tables, pml4, idx))
  {
    TableEntriesDecode();
    var idx := GetIndices(va);
    var pt := mem.LeafTable4(Walk, TableEntry, pml4, idx);
    mem.SetLeaf(Walk, pml4, idx, pt, NewEntry(pa, flags));
  }

  /** Every page of the region below `bound` is identity-mapped with the kernel flags. */
  ghost predicate IdentityMapped(tables: Tables, pml4: Addr, bound: nat)
  {
    forall a: nat :: a % 4096 == 0 && a < bound && a < IDENTITY_MAP_SIZE ==>
      Leaf(Walk, tables, pml4, GetIndices(a)) == NewEntry(a, KERNEL_FLAGS)
  }

  /** Mapping the page at `addr` and changing no other leaf extends the mapped prefix by one page. */
  lemma IdentityMappedStep(tables0: Tables, tables: Tables, pml4: Addr, addr: nat)
    requires addr % 4096 == 0 && addr < IDENTITY_MAP_SIZE && IdentityMapped(tables0, pml4, addr)
    requires Leaf(Walk, tables, pml4, GetIndices(addr)) == NewEntry(addr, KERNEL_FLAGS)
    requires forall idx :: |idx| == 4 && idx != GetIndices(addr) ==>
               Leaf(Walk, tables, pml4, idx) == Leaf(Walk, tables0, pml4, idx)
    ensures IdentityMapped(tables, pml4, addr + 4096)
  {
    forall a: nat | a % 4096 == 0 && a < addr + 4096 && a < IDENTITY_MAP_SIZE
      ensures Leaf(Walk, tables, pml4, GetIndices(a)) == NewEntry(a, KERNEL_FLAGS)
    {
      PageStep(a, addr);
    }
  }

  /**
   * The state of the boot loop before page `k`, the page at `k * 4096`, over
   * plain values: the page lies within the region, the allocator and the
   * tree are valid, 3 free frames remain for every page still to map, and
   * every earlier page is mapped.
   */
  ghost predicate BootProgress(tables: Tables, free: seq<Addr>, paths: Paths, pml4: Addr, k: nat)
  {
    && k * 4096 <= IDENTITY_MAP_SIZE
    && Pool(tables, free) && TreeShaped(Walk, tables, paths, pml4)
    && |free| * 4096 >= 3 * (IDENTITY_MAP_SIZE - k * 4096)
    && IdentityMapped(tables, pml4, k * 4096)
  }

  /** The loop invariant: the boot loop state of the memory's tables, free frames and paths. */
  ghost predicate LoopAt(mem: PhysicalMemory, pml4: Addr, k: nat)
    reads mem
  {
    BootProgress(mem.tables, mem.free, mem.paths, pml4, k)
  }

  /** The address of a page of the region is page-aligned, and the next page is still within the region or just past it. */
  lemma PageAddress(k: nat)
    requires k * 4096 < IDENTITY_MAP_SIZE
    ensures (k * 4096) % 4096 == 0 && (k + 1) * 4096 <= IDENTITY_MAP_SIZE
  {
  }

  /** Before a page of the region, the 3 tables a mapping may need are free. */
  lemma FreeForPage(tables: Tables, free: seq<Addr>, paths: Paths, pml4: Addr, k: nat)
    requires k * 4096 < IDENTITY_MAP_SIZE && BootProgress(tables, free, paths, pml4, k)
    ensures |free| >= 3
  {
  }

  /**
   * A mapping of page `k` that keeps the allocator and the tree valid, uses
   * at most 3 frames and changes no other leaf advances the state by one page.
   */
  lemma BootProgressStep(tables0: Tables, free0: seq<Addr>, paths0: Paths,
                 tables: Tables, free: seq<Addr>, paths: Paths, pml4: Addr, k: nat)
    requires k * 4096 < IDENTITY_MAP_SIZE && BootProgress(tables0, free0, paths0, pml4, k)
    requires Pool(tables, free) && TreeShaped(Walk, tables, paths, pml4) && |free| >= |free0| - 3
    requires Leaf(Walk, tables, pml4, GetIndices(k * 4096)) == NewEntry(k * 4096, KERNEL_FLAGS)
    requires forall idx :: |idx| == 4 && idx != GetIndices(k * 4096) ==>
               Leaf(Walk, tables, pml4, idx) == Leaf(Walk, tables0, pml4, idx)
    ensures BootProgress(tables, free, paths, pml4, k + 1)
  {
    PageAddress(k);
    IdentityMappedStep(tables0, tables, pml4, k * 4096);
  }

  /** One iteration of the boot loop: maps the page at `addr` to itself. */
  method MapIdentityPage(mem: PhysicalMemory, pml4: Addr, addr: nat, ghost k: nat) returns (next: nat)
    requires addr == k * 4096 && addr < IDENTITY_MAP_SIZE && LoopAt(mem, pml4, k)
    modifies mem
    ensures next == addr + 4096 && LoopAt(mem, pml4, k + 1)
  {
    ghost var tables0, free0, paths0 := mem.tables, mem.free, mem.paths;
    FreeForPage(tables0, free0, paths0, pml4, k);
    MapPage(mem, pml4, addr, addr, KERNEL_FLAGS);
    BootProgressStep(tables0, free0, paths0, mem.tables, mem.free, mem.paths, pml4, k);
    next := addr + 4096;
  }

  /** The boot loop: maps the pages 0, 4096, ..., 16 MiB - 4096 to themselves, in that order. */
  method MapIdentityRegion(mem: PhysicalMemory, pml4: Addr)
    requires LoopAt(mem, pml4, 0)
    modifies mem
    ensures LoopAt(mem, pml4, IDENTITY_MAP_SIZE / 4096)
  {
    var addr: nat := 0;
    ghost var k: nat := 0;
    while addr < IDENTITY_MAP_SIZE
      invariant addr == k * 4096 && LoopAt(mem, pml4, k)
    {
      addr := MapIdentityPage(mem, pml4, addr, k);
      k := k + 1;
    }
  }

  /**
   * Clears the statically allocated PML4, then identity-maps the 4096 pages
   * of the first 16 MiB as present, writable and non-executable. Returns the
   * PML4 address, the value for CR3.
   */
  method SetupInitialPaging(mem: PhysicalMemory, pml4: Addr) returns (cr3: Addr)
    requires mem.Valid() && pml4 in mem.tables && |mem.free| >= 3 * 4096
    modifies mem
    ensures cr3 == pml4 && mem.Valid() && mem.TreeOf(Walk, pml4)
    ensures forall a: nat :: a % 4096 == 0 && a < IDENTITY_MAP_SIZE ==>
              Leaf(Walk, mem.tables, pml4, GetIndices(a)) == NewEntry(a, KERNEL_FLAGS)
  {
    mem.ZeroTableAt(pml4);
    mem.StartTree(Walk, pml4);
    MapIdentityRegion(mem, pml4);
    cr3 := pml4;
  }
}
