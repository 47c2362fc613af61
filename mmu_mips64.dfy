/**
 * MIPS64 software-managed TLB set-up: the coprocessor 0 (CP0) register
 * writes and TLB write instructions of `tlb_clear_all`, `map_tlb_entry`
 * and `enable_paging`. Each TLB entry maps an even/odd pair of 4 KiB pages:
 * EntryHi holds the virtual page-pair address, EntryLo0 and EntryLo1 the
 * two physical frames with their flags.
 *
 * CP0 is a class with one field per register the code touches. A TLB write
 * instruction copies the staging registers into the TLB; the model records
 * each such write, in order, with the register values it consumed: `tlbwi`
 * writes the slot named by Index, `tlbwr` the slot the Random register
 * selects, which the model does not track.
 *
 * Addresses and loop counters are the 64-bit and 32-bit words the code
 * hands to the registers, so this module computes on bit-vectors only.
 */
module MmuMips64 {

  /** The CP0 registers the code uses, with their register numbers (select 0). */
  datatype Cp0Reg = Index | EntryLo0 | EntryLo1 | PageMask | EntryHi | Status
  {
    function Number(): nat
    {
      match this
      case Index => 0
      case EntryLo0 => 2
      case EntryLo1 => 3
      case PageMask => 5
      case EntryHi => 10
      case Status => 12
    }
  }

  const GLOBAL: bv64 := 1
  const VALID: bv64 := 2
  const DIRTY: bv64 := 4
  const CACHE_NC: bv64 := 0x08
  const CACHE_WB: bv64 := 0x18

  const KERNEL_FLAGS: bv64 := VALID | DIRTY | GLOBAL | CACHE_WB

  /** Number of TLB entries cleared and filled at boot. */
  const TLB_ENTRIES: nat := 64

  /** One TLB write instruction and the staging-register values it consumed. */
  datatype TlbWrite = TlbWrite(random: bool, index: bv64, pageMask: bv64, entryHi: bv64, entryLo0: bv64, entryLo1: bv64)

  /** EntryHi for a page pair: the virtual address with bits 0..12 cleared (ASID 0). */
  function EntryHiValue(va: bv64): (hi: bv64)
    ensures hi & 0x1FFF == 0
    ensures va & 0x1FFF == 0 ==> hi == va
  {
    va & 0xFFFF_FFFF_FFFF_E000
  }

  /** EntryLo for one page: the physical address shifted right by 6, or-ed with the flags. */
  function EntryLoValue(pa: bv64, flags: bv64): bv64
  {
    (pa >> 6) | flags
  }

  /**
   * Round trip: for a 4 KiB-aligned frame and flags in bits 0..5, the PFN
   * field (bit 6 upwards) holds the frame number, so shifting it back gives
   * the frame, and the low six bits give the flags.
   */
  lemma EntryLoRoundTrip(pa: bv64, flags: bv64)
    requires pa & 0xFFF == 0 && flags & 0xFFFF_FFFF_FFFF_FFC0 == 0
    ensures (EntryLoValue(pa, flags) >> 6) << 12 == pa
    ensures EntryLoValue(pa, flags) & 0x3F == flags
  {
  }

  /** The TLB write of `map_tlb_entry`: PageMask 0 (4 KiB pages), the pair's EntryHi and EntryLo values, by `tlbwr`. */
  function MapWrite(tlbIndex: bv32, va: bv64, paLow: bv64, paHigh: bv64, flags: bv64): TlbWrite
  {
    TlbWrite(true, tlbIndex as bv64, 0, EntryHiValue(va), EntryLoValue(paLow, flags), EntryLoValue(paHigh, flags))
  }

  /** The TLB writes of `tlb_clear_all` for slots 0 .. n-1; PageMask and EntryHi keep the values they had. */
  function ClearWrites(n: nat, pageMask: bv64, entryHi: bv64): (ws: seq<TlbWrite>)
    requires n <= 64
    ensures |ws| == n
  {
    if n == 0 then [] else ClearWrites(n - 1, pageMask, entryHi) + [ClearWrite(n - 1, pageMask, entryHi)]
  }

  function ClearWrite(slot: nat, pageMask: bv64, entryHi: bv64): TlbWrite
    requires slot < 64
  {
    TlbWrite(false, slot as bv64, pageMask, entryHi, 0, 0)
  }

  /** Slot `i` is cleared by the `i`-th write: an indexed write of zero EntryLo values. */
  lemma {:induction false} ClearWritesAt(n: nat, pageMask: bv64, entryHi: bv64, i: nat)
    requires i < n <= 64
    ensures ClearWrites(n, pageMask, entryHi)[i] == ClearWrite(i, pageMask, entryHi)
  {
    if i < n - 1 {
      ClearWritesAt(n - 1, pageMask, entryHi, i);
    }
  }

  /** Iteration `i` of the fill loop. */
  function FillWrite(i: nat): TlbWrite
    requires i < 64
  {
    FillEntry(i as bv64)
  }

  /** The entry for TLB slot `b`: the page pair at `b * 8192` mapped to itself. */
  function FillEntry(b: bv64): TlbWrite
    requires b < 64
  {
    MapWrite(b as bv32, b * 8192, b * 8192, b * 8192 + 4096, KERNEL_FLAGS)
  }

  function FillWrites(n: nat): (ws: seq<TlbWrite>)
    requires n <= 64
    ensures |ws| == n
  {
    if n == 0 then [] else FillWrites(n - 1) + [FillWrite(n - 1)]
  }

  lemma {:induction false} FillWritesAt(n: nat, i: nat)
    requires i < n <= 64
    ensures FillWrites(n)[i] == FillWrite(i)
  {
    if i < n - 1 {
      FillWritesAt(n - 1, i);
    }
  }

  /**
   * Entry `i` of the fill loop maps the page pair at `i * 8192` to itself:
   * EntryHi is that address, and the PFN fields of EntryLo0 and EntryLo1
   * give back the even and the odd page, each valid, dirty, global and
   * cached write-back; PageMask selects 4 KiB pages.
   */
  lemma FillWriteIsIdentity(b: bv64)
    requires b < 64
    ensures FillEntry(b).random && FillEntry(b).index == b && FillEntry(b).pageMask == 0
    ensures FillEntry(b).entryHi == b * 8192
    ensures FillEntry(b).entryLo0 >> 6 << 12 == b * 8192
    ensures FillEntry(b).entryLo1 >> 6 << 12 == b * 8192 + 4096
    ensures FillEntry(b).entryLo0 & 0x3F == KERNEL_FLAGS && FillEntry(b).entryLo1 & 0x3F == KERNEL_FLAGS
  {
    var va := b * 8192;
    assert va & 0x1FFF == 0;
    EntryLoRoundTrip(va, KERNEL_FLAGS);
    EntryLoRoundTrip(va + 4096, KERNEL_FLAGS);
  }

  /**
   * A virtual address falls in the page pair of some fill entry exactly
   * when it lies below 512 KiB: the loop stops at the TLB size long before
   * the 16 MiB it iterates over.
   */
  lemma FillCoverage(va: bv64)
    ensures (exists b: bv64 :: b < 64 && FillEntry(b).entryHi == EntryHiValue(va)) <==> va < 0x8_0000
  {
    if va < 0x8_0000 {
      var b := va >> 13;
      FillWriteIsIdentity(b);
      assert FillEntry(b).entryHi == EntryHiValue(va);
    }
    forall b: bv64 | b < 64 && FillEntry(b).entryHi == EntryHiValue(va)
      ensures va < 0x8_0000
    {
      FillWriteIsIdentity(b);
    }
  }

  /** Status with ERL (bit 2) and EXL (bit 1) cleared and IE (bit 0) set; the other bits are kept. */
  function StatusValue(status: bv64): (r: bv64)
    ensures r & 1 == 1 && r & 6 == 0
    ensures r & 0xFFFF_FFFF_FFFF_FFF8 == status & 0xFFFF_FFFF_FFFF_FFF8
  {
    (status & !(2 | 4)) | 1
  }

  /** Coprocessor 0 as the boot code sees it. */
  class Cp0 {
    var index: bv64
    var entryLo0: bv64
    var entryLo1: bv64
    var pageMask: bv64
    var entryHi: bv64
    var status: bv64
    /** The TLB write instructions executed so far, oldest first. */
    var tlbWrites: seq<TlbWrite>

    constructor (index0: bv64, lo0: bv64, lo1: bv64, pageMask0: bv64, hi0: bv64, status0: bv64)
      ensures index == index0 && entryLo0 == lo0 && entryLo1 == lo1
      ensures pageMask == pageMask0 && entryHi == hi0 && status == status0 && tlbWrites == []
    {
      index, entryLo0, entryLo1 := index0, lo0, lo1;
      pageMask, entryHi, status := pageMask0, hi0, status0;
      tlbWrites := [];
    }

    /** `mtc0`: register `r` takes `value`; the other registers and the TLB are unchanged. */
    method WriteCp0(r: Cp0Reg, value: bv64)
      modifies this
      ensures index == (if r == Index then value else old(index))
      ensures entryLo0 == (if r == EntryLo0 then value else old(entryLo0))
      ensures entryLo1 == (if r == EntryLo1 then value else old(entryLo1))
      ensures pageMask == (if r == PageMask then value else old(pageMask))
      ensures entryHi == (if r == EntryHi then value else old(entryHi))
      ensures status == (if r == Status then value else old(status))
      ensures tlbWrites == old(tlbWrites)
    {
      match r
      case Index => index := value;
      case EntryLo0 => entryLo0 := value;
      case EntryLo1 => entryLo1 := value;
      case PageMask => pageMask := value;
      case EntryHi => entryHi := value;
      case Status => status := value;
    }

    function Staged(random: bool): TlbWrite
      reads this
    {
      TlbWrite(random, index, pageMask, entryHi, entryLo0, entryLo1)
    }

    /** `tlbwi` (`random` false) or `tlbwr` (`random` true): the staging registers are written to the TLB. */
    method TlbWriteInstr(random: bool)
      modifies this
      ensures tlbWrites == old(tlbWrites) + [old(Staged(random))]
      ensures index == old(index) && entryLo0 == old(entryLo0) && entryLo1 == old(entryLo1)
      ensures pageMask == old(pageMask) && entryHi == old(entryHi) && status == old(status)
    {
      tlbWrites := tlbWrites + [Staged(random)];
    }

    /** One iteration of `tlb_clear_all`: Index, zero EntryLo0 and EntryLo1, then `tlbwi`. */
    method ClearTlbSlot(slot: nat)
      requires slot < 64
      modifies this
      ensures tlbWrites == old(tlbWrites) + [ClearWrite(slot, old(pageMask), old(entryHi))]
      ensures pageMask == old(pageMask) && entryHi == old(entryHi) && status == old(status)
    {
      WriteCp0(Index, slot as bv64);
      WriteCp0(EntryLo0, 0);
      WriteCp0(EntryLo1, 0);
      TlbWriteInstr(false);
    }

    /** `tlb_clear_all`: slots 0 to 63 in order, each given zero EntryLo values. */
    method TlbClearAll()
      modifies this
      ensures tlbWrites == old(tlbWrites) + ClearWrites(TLB_ENTRIES, old(pageMask), old(entryHi))
      ensures pageMask == old(pageMask) && entryHi == old(entryHi) && status == old(status)
    {
      ghost var log, pm, hi, st := tlbWrites, pageMask, entryHi, status;
      var slot: nat := 0;
      while slot < 64
        invariant slot <= 64
        invariant tlbWrites == log + ClearWrites(slot, pm, hi)
        invariant pageMask == pm && entryHi == hi && status == st
      {
        ClearTlbSlot(slot);
        slot := slot + 1;
      }
    }

    /** `map_tlb_entry`: PageMask, EntryHi, EntryLo0, EntryLo1 and Index are set, then `tlbwr`. */
    method MapTlbEntry(tlbIndex: bv32, va: bv64, paLow: bv64, paHigh: bv64, flags: bv64)
      modifies this
      ensures tlbWrites == old(tlbWrites) + [MapWrite(tlbIndex, va, paLow, paHigh, flags)]
      ensures status == old(status)
    {
      WriteCp0(PageMask, 0);
      WriteCp0(EntryHi, EntryHiValue(va));
      WriteCp0(EntryLo0, EntryLoValue(paLow, flags));
      WriteCp0(EntryLo1, EntryLoValue(paHigh, flags));
      WriteCp0(Index, tlbIndex as bv64);
      TlbWriteInstr(true);
    }

    /** One iteration of the fill loop: entry `tlbIdx` maps the page pair at `tlbIdx * 8192` to itself. */
    method FillStep(tlbIdx: nat)
      requires tlbIdx < 64
      modifies this
      ensures tlbWrites == old(tlbWrites) + [FillWrite(tlbIdx)] && status == old(status)
    {
      var b := tlbIdx as bv64;
      MapTlbEntry(b as bv32, b * 8192, b * 8192, b * 8192 + 4096, KERNEL_FLAGS);
    }

    /**
     * The fill loop of `enable_paging`: it steps through the 16 MiB region
     * in 8 KiB strides and leaves as soon as 64 entries are written.
     */
    method FillTlb() returns (count: nat)
      modifies this
      ensures count == TLB_ENTRIES
      ensures tlbWrites == old(tlbWrites) + FillWrites(TLB_ENTRIES) && status == old(status)
    {
      var tlbIdx: nat := 0;
      var addr: nat := 0;
      while addr < 0x100_0000
        invariant tlbIdx <= 64 && addr == tlbIdx * 8192
        invariant tlbWrites == old(tlbWrites) + FillWrites(tlbIdx) && status == old(status)
      {
        if tlbIdx >= 64 {
          break;
        }
        FillStep(tlbIdx);
        tlbIdx := tlbIdx + 1;
        addr := addr + 8192;
      }
      count := tlbIdx;
    }

    /** `enable_paging`: clear the TLB, fill 64 entries, then write the updated Status. */
    method EnablePaging() returns (count: nat)
      modifies this
      ensures count == TLB_ENTRIES
      ensures tlbWrites == old(tlbWrites) + ClearWrites(TLB_ENTRIES, old(pageMask), old(entryHi)) + FillWrites(TLB_ENTRIES)
      ensures status == StatusValue(old(status))
    {
      TlbClearAll();
      count := FillTlb();
      var s := status;
      WriteCp0(Status, StatusValue(s));
    }
  }
}
