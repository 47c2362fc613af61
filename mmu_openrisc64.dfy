/**
 * OpenRISC 64 TLB set-up: the special-purpose register (SPR) writes of
 * `map_tlb_entry` and `enable_paging`. A TLB entry is described by a match
 * value (the virtual page) and a translate value (the physical page and its
 * flags); writing an index to a look-up base register (DTLBLB for the data
 * TLB, ITLBLB for the instruction TLB) loads the entry at that index from
 * the match and translate registers of the same TLB.
 *
 * The SPRs are a class with one field per register the code touches; the
 * model records each TLB load, in order, with the values it consumed.
 * Everything here computes on 64-bit words.
 */
module MmuOpenrisc64 {

  /** The SPRs the code uses, with their SPR numbers. */
  datatype Spr = Dtlblb | Itlblb | Dtlbmr | Itlbmr | Dtlbtr | Itlbtr | Sr
  {
    function Number(): nat
    {
      match this
      case Dtlblb => 0x900
      case Itlblb => 0x908
      case Dtlbmr => 0x904
      case Itlbmr => 0x90C
      case Dtlbtr => 0x910
      case Itlbtr => 0x918
      case Sr => 0x11
    }
  }

  const VALID: bv64 := 1
  const WRITE: bv64 := 2
  const EXEC: bv64 := 4
  const D_ACCESSED: bv64 := 8
  const D_DIRTY: bv64 := 16
  const GLOBAL: bv64 := 32
  const CACHE_ENABLE: bv64 := 64

  /** Bits 12..63: the page address. */
  const ADDR_MASK: bv64 := 0xFFFF_FFFF_FFFF_F000

  /** The page size, or-ed into the match value; it is bit 12, the lowest bit of the page address. */
  const PAGE_SIZE: bv64 := 4096

  const KERNEL_FLAGS: bv64 := VALID | WRITE | EXEC | D_DIRTY | CACHE_ENABLE

  /** Number of TLB entries filled at boot. */
  const TLB_ENTRY_COUNT: nat := 64

  /** SR bits 0 and 1: data and instruction MMU enable. */
  const SR_DME: bv64 := 1
  const SR_IME: bv64 := 2

  datatype Tlb = Data | Instruction

  /** One TLB load and the match and translate values it consumed. */
  datatype TlbLoad = TlbLoad(tlb: Tlb, index: bv64, matchValue: bv64, translateValue: bv64)

  /** The match value of a page: its virtual address or-ed with the page size. */
  function MatchValue(va: bv64): bv64
  {
    va | PAGE_SIZE
  }

  /** The translate value of a page: its physical address or-ed with the flags. */
  function TranslateValue(pa: bv64, flags: bv64): bv64
  {
    pa | flags
  }

  /**
   * For a 4 KiB-aligned virtual address the match value keeps the address
   * in bits 12..63 and has bit 12 set, so the page-size bit is lost only
   * for pages whose address already has it.
   */
  lemma MatchRoundTrip(va: bv64)
    ensures MatchValue(va) & 0xFFF == va & 0xFFF
    ensures MatchValue(va) & ADDR_MASK == (va & ADDR_MASK) | PAGE_SIZE
  {
  }

  /**
   * Round trip: for a 4 KiB-aligned frame and flags in bits 0..11, the
   * translate value gives back the frame in bits 12..63 and the flags in
   * bits 0..11.
   */
  lemma TranslateRoundTrip(pa: bv64, flags: bv64)
    requires pa & 0xFFF == 0 && flags & 0xFFFF_FFFF_FFFF_F000 == 0
    ensures TranslateValue(pa, flags) & ADDR_MASK == pa
    ensures TranslateValue(pa, flags) & 0xFFF == flags
  {
  }

  /** The two loads of `map_tlb_entry`: first the data TLB, then the instruction TLB, with the same values. */
  function MapLoads(tlbIndex: bv64, va: bv64, pa: bv64, flags: bv64): seq<TlbLoad>
  {
    [TlbLoad(Data, tlbIndex, MatchValue(va), TranslateValue(pa, flags)),
     TlbLoad(Instruction, tlbIndex, MatchValue(va), TranslateValue(pa, flags))]
  }

  /** Both TLBs receive the same entry at the same index. */
  lemma MapLoadsAgree(tlbIndex: bv64, va: bv64, pa: bv64, flags: bv64)
    ensures |MapLoads(tlbIndex, va, pa, flags)| == 2
    ensures MapLoads(tlbIndex, va, pa, flags)[0].tlb == Data
    ensures MapLoads(tlbIndex, va, pa, flags)[1].tlb == Instruction
    ensures MapLoads(tlbIndex, va, pa, flags)[0].index == MapLoads(tlbIndex, va, pa, flags)[1].index == tlbIndex
    ensures MapLoads(tlbIndex, va, pa, flags)[0].matchValue == MapLoads(tlbIndex, va, pa, flags)[1].matchValue
    ensures MapLoads(tlbIndex, va, pa, flags)[0].translateValue == MapLoads(tlbIndex, va, pa, flags)[1].translateValue
  {
  }

  /** The loads of iteration `i` of the fill loop. */
  function FillLoad(i: nat): seq<TlbLoad>
    requires i < 64
  {
    FillEntry(i as bv64)
  }

  /**
   * The loads for TLB slot `b`: the loop asks for the page at `b * 4096`
   * mapped to itself with the kernel flags. The match value it loads has
   * bit 12 forced on, so the virtual page it selects is not always that
   * page (see `FillEntryPages`).
   */
  function FillEntry(b: bv64): seq<TlbLoad>
    requires b < 64
  {
    MapLoads(b, b * 4096, b * 4096, KERNEL_FLAGS)
  }

  /** The loads of the first `n` iterations of the fill loop, two per entry. */
  function FillLoads(n: nat): (ls: seq<TlbLoad>)
    requires n <= 64
    ensures |ls| == 2 * n
  {
    if n == 0 then [] else FillLoads(n - 1) + FillLoad(n - 1)
  }

  /** Entry `i` is loaded by loads `2 * i` (data TLB) and `2 * i + 1` (instruction TLB). */
  lemma {:induction false} FillLoadsAt(n: nat, i: nat)
    requires i < n <= 64
    ensures FillLoads(n)[2 * i] == FillLoad(i)[0]
    ensures FillLoads(n)[2 * i + 1] == FillLoad(i)[1]
  {
    if i < n - 1 {
      FillLoadsAt(n - 1, i);
    }
  }

  /**
   * The values loaded for slot `b`, the same in both TLBs: the match value
   * is the page at `b * 4096` with the page-size bit forced on, the
   * translate value is that page with the kernel flags.
   */
  lemma FillEntryValues(b: bv64)
    requires b < 64
    ensures FillEntry(b)[0].index == b && FillEntry(b)[1].index == b
    ensures FillEntry(b)[0].matchValue & ADDR_MASK == (b * 4096) | PAGE_SIZE
    ensures FillEntry(b)[0].translateValue & ADDR_MASK == b * 4096
    ensures FillEntry(b)[0].translateValue & 0xFFF == KERNEL_FLAGS
    ensures FillEntry(b)[1] == FillEntry(b)[0].(tlb := Instruction)
  {
    MatchRoundTrip(b * 4096);
    TranslateRoundTrip(b * 4096, KERNEL_FLAGS);
  }

  /**
   * A frame is the translate target of some fill entry exactly when it is
   * page-aligned and below 256 KiB: the loop stops at the TLB size long
   * before the 16 MiB it iterates over.
   */
  lemma FillCoverage(pa: bv64)
    ensures (exists b: bv64 :: b < 64 && FillEntry(b)[0].translateValue & ADDR_MASK == pa) <==>
            (pa < 0x4_0000 && pa & 0xFFF == 0)
  {
    if pa < 0x4_0000 && pa & 0xFFF == 0 {
      var b := pa >> 12;
      FillEntryValues(b);
      assert FillEntry(b)[0].translateValue & ADDR_MASK == pa;
    }
    forall b: bv64 | b < 64 && FillEntry(b)[0].translateValue & ADDR_MASK == pa
      ensures pa < 0x4_0000 && pa & 0xFFF == 0
    {
      FillEntryValues(b);
    }
  }

  /**
   * The virtual page slot `b` matches and the frame it translates to: an
   * odd slot matches its own page, but an even slot matches the next page
   * up while translating to its own frame.
   */
  lemma FillEntryPages(b: bv64)
    requires b < 64
    ensures b % 2 == 1 ==> FillEntry(b)[0].matchValue & ADDR_MASK == b * 4096
    ensures b % 2 == 0 ==> FillEntry(b)[0].matchValue & ADDR_MASK == (b + 1) * 4096
    ensures FillEntry(b)[0].translateValue & ADDR_MASK == b * 4096
  {
    FillEntryValues(b);
  }

  /** Slots 0 and 1 match the same virtual page, 0x1000, but translate it to different frames. */
  lemma AsWrittenSlotsShareMatch()
    ensures FillEntry(0)[0].matchValue == FillEntry(1)[0].matchValue
    ensures FillEntry(0)[0].translateValue != FillEntry(1)[0].translateValue
  {
  }

  /**
   * A virtual page is matched by some fill entry exactly when it is
   * page-aligned, below 256 KiB and has bit 12 set: only the odd pages are
   * reachable, page 0 included among those that are not.
   */
  lemma FillVirtualCoverage(va: bv64)
    ensures (exists b: bv64 :: b < 64 && FillEntry(b)[0].matchValue & ADDR_MASK == va) <==>
            (va < 0x4_0000 && va & 0xFFF == 0 && va & PAGE_SIZE != 0)
  {
    if va < 0x4_0000 && va & 0xFFF == 0 && va & PAGE_SIZE != 0 {
      var b := va >> 12;
      FillEntryValues(b);
      assert FillEntry(b)[0].matchValue & ADDR_MASK == va;
    }
    forall b: bv64 | b < 64 && FillEntry(b)[0].matchValue & ADDR_MASK == va
      ensures va < 0x4_0000 && va & 0xFFF == 0 && va & PAGE_SIZE != 0
    {
      FillEntryValues(b);
    }
  }

  /** No fill entry matches virtual page 0. */
  lemma NoSlotMatchesPageZero(b: bv64)
    requires b < 64
    ensures FillEntry(b)[0].matchValue & ADDR_MASK != 0
  {
    FillEntryValues(b);
  }

  /** The match value the identity map needs: the virtual page address alone, bits 12..63. */
  function IntendedMatchValue(va: bv64): (m: bv64)
    ensures m & ADDR_MASK == va & ADDR_MASK && m & 0xFFF == 0
  {
    va & ADDR_MASK
  }

  /** The loads for slot `b` with the intended match value. */
  function IntendedFillEntry(b: bv64): seq<TlbLoad>
    requires b < 64
  {
    var m := IntendedMatchValue(b * 4096);
    var t := TranslateValue(b * 4096, KERNEL_FLAGS);
    [TlbLoad(Data, b, m, t), TlbLoad(Instruction, b, m, t)]
  }

  /** With the intended match value every slot maps its page to itself, in both TLBs. */
  lemma IntendedFillIsIdentity(b: bv64)
    requires b < 64
    ensures IntendedFillEntry(b)[0].matchValue & ADDR_MASK == b * 4096
    ensures IntendedFillEntry(b)[0].translateValue & ADDR_MASK == b * 4096
    ensures IntendedFillEntry(b)[1] == IntendedFillEntry(b)[0].(tlb := Instruction)
  {
    TranslateRoundTrip(b * 4096, KERNEL_FLAGS);
  }

  /**
   * With the intended match value a virtual page is matched by some fill
   * entry exactly when it is page-aligned and below 256 KiB, and the entry
   * translates it to the same address.
   */
  lemma IntendedFillCoverage(va: bv64)
    ensures (exists b: bv64 :: b < 64 && IntendedFillEntry(b)[0].matchValue & ADDR_MASK == va) <==>
            (va < 0x4_0000 && va & 0xFFF == 0)
    ensures forall b: bv64 :: b < 64 && IntendedFillEntry(b)[0].matchValue & ADDR_MASK == va ==>
            IntendedFillEntry(b)[0].translateValue & ADDR_MASK == va
  {
    if va < 0x4_0000 && va & 0xFFF == 0 {
      var b := va >> 12;
      IntendedFillIsIdentity(b);
      assert IntendedFillEntry(b)[0].matchValue & ADDR_MASK == va;
    }
    forall b: bv64 | b < 64 && IntendedFillEntry(b)[0].matchValue & ADDR_MASK == va
      ensures va < 0x4_0000 && va & 0xFFF == 0
      ensures IntendedFillEntry(b)[0].translateValue & ADDR_MASK == va
    {
      IntendedFillIsIdentity(b);
    }
  }

  /** SR with the data and instruction MMU enabled: bits 0 and 1 set, every other bit kept. */
  function SrValue(sr: bv64): (r: bv64)
    ensures r & (SR_DME | SR_IME) == SR_DME | SR_IME
    ensures r & 0xFFFF_FFFF_FFFF_FFFC == sr & 0xFFFF_FFFF_FFFF_FFFC
  {
    sr | SR_DME | SR_IME
  }

  /** The special-purpose registers as the boot code sees them. */
  class SprFile {
    var dtlblb: bv64
    var itlblb: bv64
    var dtlbmr: bv64
    var itlbmr: bv64
    var dtlbtr: bv64
    var itlbtr: bv64
    var sr: bv64
    /** The TLB loads performed so far, oldest first. */
    var tlbLoads: seq<TlbLoad>

    constructor (sr0: bv64)
      ensures sr == sr0 && tlbLoads == []
      ensures dtlblb == 0 && itlblb == 0 && dtlbmr == 0 && itlbmr == 0 && dtlbtr == 0 && itlbtr == 0
    {
      dtlblb, itlblb, dtlbmr, itlbmr, dtlbtr, itlbtr := 0, 0, 0, 0, 0, 0;
      sr := sr0;
      tlbLoads := [];
    }

    /**
     * `l.mtspr`: register `r` takes `value`. Writing a look-up base
     * register also loads entry `value` of its TLB from that TLB's match
     * and translate registers.
     */
    method WriteSpr(r: Spr, value: bv64)
      modifies this
      ensures dtlblb == (if r == Dtlblb then value else old(dtlblb))
      ensures itlblb == (if r == Itlblb then value else old(itlblb))
      ensures dtlbmr == (if r == Dtlbmr then value else old(dtlbmr))
      ensures itlbmr == (if r == Itlbmr then value else old(itlbmr))
      ensures dtlbtr == (if r == Dtlbtr then value else old(dtlbtr))
      ensures itlbtr == (if r == Itlbtr then value else old(itlbtr))
      ensures sr == (if r == Sr then value else old(sr))
      ensures tlbLoads == old(tlbLoads) + (
        if r == Dtlblb then [TlbLoad(Data, value, old(dtlbmr), old(dtlbtr))]
        else if r == Itlblb then [TlbLoad(Instruction, value, old(itlbmr), old(itlbtr))]
        else [])
    {
      match r
      case Dtlblb =>
        dtlblb := value;
        tlbLoads := tlbLoads + [TlbLoad(Data, value, dtlbmr, dtlbtr)];
      case Itlblb =>
        itlblb := value;
        tlbLoads := tlbLoads + [TlbLoad(Instruction, value, itlbmr, itlbtr)];
      case Dtlbmr => dtlbmr := value;
      case Itlbmr => itlbmr := value;
      case Dtlbtr => dtlbtr := value;
      case Itlbtr => itlbtr := value;
      case Sr => sr := value;
    }

    /**
     * `map_tlb_entry`: both match registers, then both translate
     * registers, then both look-up base registers; SR is untouched.
     */
    method MapTlbEntry(tlbIndex: bv64, va: bv64, pa: bv64, flags: bv64)
      modifies this
      ensures tlbLoads == old(tlbLoads) + MapLoads(tlbIndex, va, pa, flags)
      ensures sr == old(sr)
    {
      var matchValue := MatchValue(va);
      WriteSpr(Dtlbmr, matchValue);
      WriteSpr(Itlbmr, matchValue);
      var translateValue := TranslateValue(pa, flags);
      WriteSpr(Dtlbtr, translateValue);
      WriteSpr(Itlbtr, translateValue);
      WriteSpr(Dtlblb, tlbIndex);
      WriteSpr(Itlblb, tlbIndex);
    }

    /** One iteration of the fill loop: the loads `map_tlb_entry` makes for slot `tlbIdx` and the page at `tlbIdx * 4096`. */
    method FillStep(tlbIdx: nat)
      requires tlbIdx < 64
      modifies this
      ensures tlbLoads == old(tlbLoads) + FillLoad(tlbIdx) && sr == old(sr)
    {
      var b := tlbIdx as bv64;
      MapTlbEntry(b, b * 4096, b * 4096, KERNEL_FLAGS);
    }

    /**
     * The fill loop of `enable_paging`: it steps through the 16 MiB region
     * in 4 KiB strides and leaves as soon as 64 entries are loaded.
     */
    method FillTlb() returns (count: nat)
      modifies this
      ensures count == TLB_ENTRY_COUNT
      ensures tlbLoads == old(tlbLoads) + FillLoads(TLB_ENTRY_COUNT) && sr == old(sr)
    {
      var tlbIdx: nat := 0;
      var addr: nat := 0;
      while addr < 0x100_0000
        invariant tlbIdx <= 64 && addr == tlbIdx * 4096
        invariant tlbLoads == old(tlbLoads) + FillLoads(tlbIdx) && sr == old(sr)
      {
        if tlbIdx >= 64 {
          break;
        }
        FillStep(tlbIdx);
        tlbIdx := tlbIdx + 1;
        addr := addr + 4096;
      }
      count := tlbIdx;
    }

    /** `enable_paging`: load 64 entries into both TLBs, then set the MMU enable bits in SR. */
    method EnablePaging() returns (count: nat)
      modifies this
      ensures count == TLB_ENTRY_COUNT
      ensures tlbLoads == old(tlbLoads) + FillLoads(TLB_ENTRY_COUNT)
      ensures sr == SrValue(old(sr))
    {
      count := FillTlb();
      var s := sr;
      WriteSpr(Sr, SrValue(s));
    }
  }
}
