/**
 * LoongArch64 four-level page tables with 4 KiB pages: entry encoding, index
 * extraction, the walk that creates missing intermediate tables, the
 * identity map of the first 16 MiB, and the CSR values `enable_paging`
 * writes (CRMD with the paging bit, and the table base).
 *
 * Addresses are `usize` values, modelled as integers below 2^64; entries
 * are 64-bit words. CSRs are parameters and results.
 */
module MmuLoongarch64 {
  import opened Prelude
  import opened PageTable

  const VALID: bv64 := 1
  const DIRTY: bv64 := 2
  const READ: bv64 := 4
  const WRITE: bv64 := 8
  const EXEC: bv64 := 16
  const GLOBAL: bv64 := 32
  const CACHE_K0: bv64 := 0
  const CACHE_NC: bv64 := 64
  const USER: bv64 := 256

  /** Bits 12..63 of an entry: the frame address. */
  const ADDR_MASK: bv64 := 0xFFFF_FFFF_FFFF_F000

  const IDENTITY_MAP_SIZE: nat := 0x100_0000

  const KERNEL_FLAGS: bv64 := READ | WRITE | EXEC | DIRTY | GLOBAL | CACHE_K0

  function IsValid(e: Entry): bool
  {
    e & VALID != 0
  }

  function EntryAddr(e: Entry): Addr
  {
    Addr(e & ADDR_MASK)
  }

  function NewEntry(addr: U64, flags: bv64): Entry
  {
    (addr as bv64) | flags
  }

  /** A pointer to a next-level table carries only the VALID flag. */
  function TableEntry(a: Addr): Entry
  {
    a.bits | VALID
  }

  const Walk: Walker := Walker(4, IsValid, EntryAddr)

  /**
   * Round trip: for a page-aligned address and flags within bits 0..11, `addr`
   * recovers the address, and the entry is valid exactly when the flags
   * say so.
   */
  lemma EntryRoundTrip(a: bv64, flags: bv64)
    requires a & 0xFFF == 0 && flags & ADDR_MASK == 0
    ensures EntryAddr(a | flags) == Addr(a)
    ensures IsValid(a | flags) <==> flags & VALID != 0
  {
    assert (a | flags) & ADDR_MASK == a;
    assert (a | flags) & VALID == flags & VALID;
  }

  lemma TablesDecode()
    ensures WalkerOk(Walk) && Decodes(Walk, TableEntry)
  {
    forall a: Addr | Allocatable(a)
      ensures Walk.present(TableEntry(a)) && Walk.next(TableEntry(a)) == a
    {
      EntryRoundTrip(a.bits, VALID);
    }
  }

  /** Bits 39..47, 30..38, 21..29 and 12..20 of the virtual address index the four levels. */
  function GetIndices(va: U64): (idx: seq<nat>)
    ensures |idx| == 4 && ValidIndices(idx)
  {
    [(va / 0x80_0000_0000) % 512, (va / 0x4000_0000) % 512, (va / 0x20_0000) % 512, (va / 0x1000) % 512]
  }

  lemma LowPageIndices(a: nat)
    requires a % 4096 == 0 && a < IDENTITY_MAP_SIZE
    ensures GetIndices(a)[2] == (a / 4096) / 512 && GetIndices(a)[3] == (a / 4096) % 512
  {
  }

  /** Distinct pages of the first 16 MiB select distinct leaf slots. */
  lemma IndicesInjective(a: nat, b: nat)
    requires a % 4096 == 0 && a < IDENTITY_MAP_SIZE
    requires b % 4096 == 0 && b < IDENTITY_MAP_SIZE
    requires GetIndices(a) == GetIndices(b)
    ensures a == b
  {
    LowPageIndices(a);
    LowPageIndices(b);
    assert GetIndices(a)[2] == GetIndices(b)[2] && GetIndices(a)[3] == GetIndices(b)[3];
  }

  /** A page below the next loop address is the current page, or an earlier page with another leaf slot. */
  lemma PageStep(a: nat, addr: nat)
    requires a % 4096 == 0 && addr % 4096 == 0 && addr < IDENTITY_MAP_SIZE && a < addr + 4096
    ensures a == addr || (a < addr && GetIndices(a) != GetIndices(addr))
  {
    if a != addr && GetIndices(a) == GetIndices(addr) {
      IndicesInjective(a, addr);
    }
  }

  /**
   * Maps the 4 KiB page at `va` to `pa`: each of the three intermediate
   * entries on the way is reused when valid and otherwise pointed at a
   * fresh table; the last-level entry becomes `new(pa, flags | VALID)`.
   */
  method MapPage(mem: PhysicalMemory, l1: Addr, va: U64, pa: U64, flags: bv64)
    requires mem.Valid() && mem.TreeOf(Walk, l1) && |mem.free| >= 3
    modifies mem
    ensures mem.Valid() && mem.TreeOf(Walk, l1) && |mem.free| >= |old(mem.free)| - 3
    ensures Leaf(Walk, mem.tables, l1, GetIndices(va)) == NewEntry(pa, flags | VALID)
    ensures forall idx :: |idx| == 4 && idx != GetIndices(va) ==>
              Leaf(Walk, mem.tables, l1, idx) == old(Leaf(Walk, mem.tables, l1, idx))
  {
    TablesDecode();
    var idx := GetIndices(va);
    var l4 := mem.LeafTable4(Walk, TableEntry, l1, idx);
    mem.SetLeaf(Walk, l1, idx, l4, NewEntry(pa, flags | VALID));
  }

  /** Every page of the region below `bound` is identity-mapped, valid, with the kernel flags. */
  ghost predicate IdentityMapped(tables: Tables, l1: Addr, bound: nat)
  {
    forall a: nat :: a % 4096 == 0 && a < bound && a < IDENTITY_MAP_SIZE ==>
      Leaf(Walk, tables, l1, GetIndices(a)) == NewEntry(a, KERNEL_FLAGS | VALID)
  }

  /** Mapping the page at `addr` and changing no other leaf extends the mapped prefix by one page. */
  lemma IdentityMappedStep(tables0: Tables, tables: Tables, l1: Addr, addr: nat)
    requires addr % 4096 == 0 && addr < IDENTITY_MAP_SIZE && IdentityMapped(tables0, l1, addr)
    requires Leaf(Walk, tables, l1, GetIndices(addr)) == NewEntry(addr, KERNEL_FLAGS | VALID)
    requires forall idx :: |idx| == 4 && idx != GetIndices(addr) ==>
               Leaf(Walk, tables, l1, idx) == Leaf(Walk, tables0, l1, idx)
    ensures IdentityMapped(tables, l1, addr + 4096)
  {
    forall a: nat | a % 4096 == 0 && a < addr + 4096 && a < IDENTITY_MAP_SIZE
      ensures Leaf(Walk, tables, l1, GetIndices(a)) == NewEntry(a, KERNEL_FLAGS | VALID)
    {
      PageStep(a, addr);
    }
  }

  /**
   * The state of the boot loop before page `k`, the page at `k * 4096`, over
   * plain values: the page lies within the region, the allocator and the
   * tree are valid, 3 free frames remain for every page still to map, and
   * every earlier page is mapped.
   */
  ghost predicate BootProgress(tables: Tables, free: seq<Addr>, paths: Paths, l1: Addr, k: nat)
  {
    && k * 4096 <= IDENTITY_MAP_SIZE
    && Pool(tables, free) && TreeShaped(Walk, tables, paths, l1)
    && |free| * 4096 >= 3 * (IDENTITY_MAP_SIZE - k * 4096)
    && IdentityMapped(tables, l1, k * 4096)
  }

  /** The loop invariant: the boot loop state of the memory's tables, free frames and paths. */
  ghost predicate LoopAt(mem: PhysicalMemory, l1: Addr, k: nat)
    reads mem
  {
    BootProgress(mem.tables, mem.free, mem.paths, l1, k)
  }

  /** The address of a page of the region is page-aligned, and the next page is still within the region or just past it. */
  lemma PageAddress(k: nat)
    requires k * 4096 < IDENTITY_MAP_SIZE
    ensures (k * 4096) % 4096 == 0 && (k + 1) * 4096 <= IDENTITY_MAP_SIZE
  {
  }

  /** Before a page of the region, the 3 tables a mapping may need are free. */
  lemma FreeForPage(tables: Tables, free: seq<Addr>, paths: Paths, l1: Addr, k: nat)
    requires k * 4096 < IDENTITY_MAP_SIZE && BootProgress(tables, free, paths, l1, k)
    ensures |free| >= 3
  {
  }

  /**
   * A mapping of page `k` that keeps the allocator and the tree valid, uses
   * at most 3 frames and changes no other leaf advances the state by one page.
   */
  lemma BootProgressStep(tables0: Tables, free0: seq<Addr>, paths0: Paths,
                 tables: Tables, free: seq<Addr>, paths: Paths, l1: Addr, k: nat)
    requires k * 4096 < IDENTITY_MAP_SIZE && BootProgress(tables0, free0, paths0, l1, k)
    requires Pool(tables, free) && TreeShaped(Walk, tables, paths, l1) && |free| >= |free0| - 3
    requires Leaf(Walk, tables, l1, GetIndices(k * 4096)) == NewEntry(k * 4096, KERNEL_FLAGS | VALID)
    requires forall idx :: |idx| == 4 && idx != GetIndices(k * 4096) ==>
               Leaf(Walk, tables, l1, idx) == Leaf(Walk, tables0, l1, idx)
    ensures BootProgress(tables, free, paths, l1, k + 1)
  {
    PageAddress(k);
    IdentityMappedStep(tables0, tables, l1, k * 4096);
  }

  /** One iteration of the boot loop: maps the page at `addr` to itself. */
  method MapIdentityPage(mem: PhysicalMemory, l1: Addr, addr: nat, ghost k: nat) returns (next: nat)
    requires addr == k * 4096 && addr < IDENTITY_MAP_SIZE && LoopAt(mem, l1, k)
    modifies mem
    ensures next == addr + 4096 && LoopAt(mem, l1, k + 1)
  {
    ghost var tables0, free0, paths0 := mem.tables, mem.free, mem.paths;
    FreeForPage(tables0, free0, paths0, l1, k);
    MapPage(mem, l1, addr, addr, KERNEL_FLAGS);
    BootProgressStep(tables0, free0, paths0, mem.tables, mem.free, mem.paths, l1, k);
    next := addr + 4096;
  }

  /** The boot loop: the pages 0, 4096, ..., 16 MiB - 4096, in that order. */
  method MapIdentityRegion(mem: PhysicalMemory, l1: Addr)
    requires LoopAt(mem, l1, 0)
    modifies mem
    ensures LoopAt(mem, l1, IDENTITY_MAP_SIZE / 4096)
  {
    var addr: nat := 0;
    ghost var k: nat := 0;
    while addr < IDENTITY_MAP_SIZE
      invariant addr == k * 4096 && LoopAt(mem, l1, k)
    {
      addr := MapIdentityPage(mem, l1, addr, k);
      k := k + 1;
    }
  }

  /**
   * Clears the statically allocated root table, then identity-maps the 4096
   * pages of the first 16 MiB readable, writable, executable, dirty and
   * global. Returns the root table's address.
   */
  method SetupInitialPaging(mem: PhysicalMemory, l1: Addr) returns (root: Addr)
    requires mem.Valid() && l1 in mem.tables && |mem.free| >= 3 * 4096
    modifies mem
    ensures root == l1 && mem.Valid() && mem.TreeOf(Walk, l1)
    ensures forall a: nat :: a % 4096 == 0 && a < IDENTITY_MAP_SIZE ==>
              Leaf(Walk, mem.tables, l1, GetIndices(a)) == NewEntry(a, KERNEL_FLAGS | VALID)
  {
    mem.ZeroTableAt(l1);
    mem.StartTree(Walk, l1);
    MapIdentityRegion(mem, l1);
    root := l1;
  }

  /** The two CSR writes of `enable_paging`: CRMD (CSR 0x0) and the page-table base (CSR 0x18). */
  datatype PagingCsrs = PagingCsrs(crmd: bv64, pteBase: bv64)

  /** Bit 2 of CRMD, the paging-enable bit. */
  const CRMD_PG: bv64 := 4

  /** `crmd` is the value read from CRMD: the paging bit is set in it and every other bit is kept. */
  function EnablePaging(crmd: bv64, l1: Addr): (csrs: PagingCsrs)
    ensures csrs.crmd & CRMD_PG != 0 && csrs.crmd & !CRMD_PG == crmd & !CRMD_PG
    ensures csrs.pteBase == l1.bits
  {
    PagingCsrs(crmd | CRMD_PG, l1.bits)
  }
}
