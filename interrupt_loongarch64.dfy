/**
 * The LoongArch HT-PIC external interrupt controller as the kernel drives
 * it: a 32-bit enable register in which a set bit MASKS a line, an
 * interrupt status register read to find the pending line, and an EOI
 * register that takes the line number.
 *
 * The enable register and the EOI writes are the state; the status
 * register value is what the hardware returns, so it is a parameter.
 * `1 << irq_line` on a `u32` is taken with the shift amount modulo 32, as
 * an optimised build computes it.
 */
module InterruptLoongarch64 {
  import opened Bits

  /** A `u32` register value or line number as an integer. */
  type U32 = n: nat | n < 0x1_0000_0000

  /** The enable-register bit of line `line`. */
  function LineBit(line: U32): (bit: bv32)
    ensures SingleBit32(bit)
  {
    Bit32(line % 32)
  }

  /**
   * `get_irq` for status register value `status`: 0 when nothing is
   * pending, otherwise `31 - leading_zeros`, the highest pending line.
   */
  function GetIrq(status: U32): (irq: nat)
    ensures irq < 32
    ensures status == 0 ==> irq == 0
    ensures status != 0 ==> Pow2(irq) <= status < Pow2(irq + 1)
  {
    if status == 0 then 0 else 31 - LeadingZeros32(status)
  }

  /** The line found is the highest pending one: every pending line is at most it. */
  lemma GetIrqIsHighest(status: U32, line: nat)
    requires status != 0 && Pow2(line) <= status
    ensures line <= GetIrq(status)
  {
    var r := GetIrq(status);
    if line > r {
      Pow2Monotone(r, line);
    }
  }

  /**
   * `get_irq` as its comments intend: the lowest pending line, found by
   * counting trailing zeros; 0 when nothing is pending.
   */
  function GetIrqLowest(status: U32): (irq: nat)
    ensures irq < 32
    ensures status == 0 ==> irq == 0
    ensures status != 0 ==> BitSet(status, irq) && status % Pow2(irq) == 0
  {
    if status == 0 then 0
    else
      Pow2Of32();
      var r := TrailingZeros(status);
      assert r < 32 by {
        if r >= 32 {
          Pow2Monotone(31, r);
        }
      }
      r
  }

  /** With lines 1 and 2 pending, `get_irq` as written reports line 2; the intended one reports line 1. */
  lemma AsWrittenPicksHighest()
    ensures GetIrq(6) == 2 && GetIrqLowest(6) == 1
  {
  }

  /** The line found by the intended `get_irq` is the lowest pending one: no line below it is pending. */
  lemma GetIrqLowestIsLowest(status: U32, line: nat)
    requires status != 0 && line < GetIrqLowest(status)
    ensures !BitSet(status, line)
  {
    BelowTrailingZerosClear(status, line);
  }

  /** Line 0 pending alone reads the same as nothing pending, so the handler writes no EOI for it. */
  lemma LineZeroLooksIdle()
    ensures GetIrq(1) == GetIrq(0) == 0
  {
  }

  class HtPic {
    /** HT_PIC_ENABLE: a set bit masks the line. */
    var enable: bv32
    /** Every line number written to HT_PIC_EOI, oldest first. */
    var eois: seq<U32>

    constructor (enable0: bv32)
      ensures enable == enable0 && eois == []
    {
      enable, eois := enable0, [];
    }

    /** `init_pic`: every line masked. */
    method InitPic()
      modifies this
      ensures enable == 0xFFFF_FFFF && eois == old(eois)
    {
      enable := 0xFFFF_FFFF;
    }

    /** `send_eoi`: the line number goes to the EOI register. */
    method SendEoi(line: U32)
      modifies this
      ensures eois == old(eois) + [line] && enable == old(enable)
    {
      eois := eois + [line];
    }

    /** `mask_irq`: the line's bit is set; every other bit is unchanged. */
    method MaskIrq(line: U32)
      modifies this
      ensures enable == SetBits32(old(enable), LineBit(line))
      ensures enable & LineBit(line) != 0 && enable & !LineBit(line) == old(enable) & !LineBit(line)
      ensures eois == old(eois)
    {
      var enableReg := enable;
      var newEnable := SetBits32(enableReg, LineBit(line));
      enable := newEnable;
    }

    /** `unmask_irq`: the line's bit is cleared; every other bit is unchanged. */
    method UnmaskIrq(line: U32)
      modifies this
      ensures enable == ClearBits32(old(enable), LineBit(line))
      ensures enable & LineBit(line) == 0 && enable & !LineBit(line) == old(enable) & !LineBit(line)
      ensures eois == old(eois)
    {
      var enableReg := enable;
      var newEnable := ClearBits32(enableReg, LineBit(line));
      enable := newEnable;
    }

    /**
     * `handle_external_interrupts`, given the status register value: when
     * the line found is above 0 the driver runs and an EOI carries that
     * same line; otherwise nothing is written.
     */
    method HandleExternalInterrupts(status: U32)
      modifies this
      ensures GetIrq(status) > 0 ==> eois == old(eois) + [GetIrq(status)]
      ensures GetIrq(status) == 0 ==> eois == old(eois)
      ensures enable == old(enable)
    {
      var irqLine := GetIrq(status);
      if irqLine > 0 {
        SendEoi(irqLine);
      }
    }
  }
}
