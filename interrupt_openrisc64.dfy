/**
 * The OpenRISC external interrupt controller as the kernel drives it: a
 * 32-bit enable register in which a set bit ENABLES a line (0 masks it),
 * a pending register read to find the pending line, and an EOI register
 * that takes the line number; and the two CPU interrupt-enable helpers.
 *
 * The enable register and the EOI writes are the state; the pending
 * register value is what the hardware returns, so it is a parameter.
 * `1 << irq_line` on a `u32` is taken with the shift amount modulo 32, as
 * an optimised build computes it.
 */
module InterruptOpenrisc64 {
  import opened Bits

  /** A `u32` register value or line number as an integer. */
  type U32 = n: nat | n < 0x1_0000_0000

  /** The enable-register bit of line `line`. */
  function LineBit(line: U32): (bit: bv32)
    ensures SingleBit32(bit)
  {
    Bit32(line % 32)
  }

  /**
   * `get_irq` for pending register value `pending`: 0 when nothing is
   * pending, otherwise `31 - leading_zeros`, the highest pending line.
   */
  function GetIrq(pending: U32): (irq: nat)
    ensures irq < 32
    ensures pending == 0 ==> irq == 0
    ensures pending != 0 ==> Pow2(irq) <= pending < Pow2(irq + 1)
  {
    if pending == 0 then 0 else 31 - LeadingZeros32(pending)
  }

  /** The line found is the highest pending one: every pending line is at most it. */
  lemma GetIrqIsHighest(pending: U32, line: nat)
    requires pending != 0 && Pow2(line) <= pending
    ensures line <= GetIrq(pending)
  {
    var r := GetIrq(pending);
    if line > r {
      Pow2Monotone(r, line);
    }
  }

  /**
   * `get_irq` as its comments intend: the lowest pending line, found by
   * counting trailing zeros; 0 when nothing is pending.
   */
  function GetIrqLowest(pending: U32): (irq: nat)
    ensures irq < 32
    ensures pending == 0 ==> irq == 0
    ensures pending != 0 ==> BitSet(pending, irq) && pending % Pow2(irq) == 0
  {
    if pending == 0 then 0
    else
      Pow2Of32();
      var r := TrailingZeros(pending);
      assert r < 32 by {
        if r >= 32 {
          Pow2Monotone(31, r);
        }
      }
      r
  }

  /** With lines 1 and 2 pending, `get_irq` as written reports line 2; the intended one reports line 1. */
  lemma AsWrittenPicksHighest()
    ensures GetIrq(6) == 2 && GetIrqLowest(6) == 1
  {
  }

  /** The line found by the intended `get_irq` is the lowest pending one: no line below it is pending. */
  lemma GetIrqLowestIsLowest(pending: U32, line: nat)
    requires pending != 0 && line < GetIrqLowest(pending)
    ensures !BitSet(pending, line)
  {
    BelowTrailingZerosClear(pending, line);
  }

  class Pic {
    /** PIC_ENABLE: a set bit enables the line. */
    var enable: bv32
    /** Every line number written to PIC_EOI, oldest first. */
    var eois: seq<U32>

    constructor (enable0: bv32)
      ensures enable == enable0 && eois == []
    {
      enable, eois := enable0, [];
    }

    /** `init_pic`: every line masked. */
    method InitPic()
      modifies this
      ensures enable == 0 && eois == old(eois)
    {
      enable := 0x0000_0000;
    }

    /** `send_eoi`: the line number goes to the EOI register. */
    method SendEoi(line: U32)
      modifies this
      ensures eois == old(eois) + [line] && enable == old(enable)
    {
      eois := eois + [line];
    }

    /** `mask_irq`: the line's bit is cleared; every other bit is unchanged. */
    method MaskIrq(line: U32)
      modifies this
      ensures enable == ClearBits32(old(enable), LineBit(line))
      ensures enable & LineBit(line) == 0 && enable & !LineBit(line) == old(enable) & !LineBit(line)
      ensures eois == old(eois)
    {
      var enableReg := enable;
      var newEnable := ClearBits32(enableReg, LineBit(line));
      enable := newEnable;
    }

    /** `unmask_irq`: the line's bit is set; every other bit is unchanged. */
    method UnmaskIrq(line: U32)
      modifies this
      ensures enable == SetBits32(old(enable), LineBit(line))
      ensures enable & LineBit(line) != 0 && enable & !LineBit(line) == old(enable) & !LineBit(line)
      ensures eois == old(eois)
    {
      var enableReg := enable;
      var newEnable := SetBits32(enableReg, LineBit(line));
      enable := newEnable;
    }

    /**
     * `handle_external_interrupts`, given the pending register value: when
     * the line found is above 0 the driver runs and an EOI carries that
     * same line; otherwise nothing is written.
     */
    method HandleExternalInterrupts(pending: U32)
      modifies this
      ensures GetIrq(pending) > 0 ==> eois == old(eois) + [GetIrq(pending)]
      ensures GetIrq(pending) == 0 ==> eois == old(eois)
      ensures enable == old(enable)
    {
      var irqLine := GetIrq(pending);
      if irqLine > 0 {
        SendEoi(irqLine);
      }
    }
  }

  /** The CPU's supervision register, which the interrupt-enable helpers are meant to update. */
  class Cpu {
    var sr: bv64

    constructor (sr0: bv64)
      ensures sr == sr0
    {
      sr := sr0;
    }

    /** `enable_interrupts`: sets bit 0 of a local that is never read from or written to the register, so SR is unchanged. */
    method EnableInterrupts()
      ensures sr == old(sr)
    {
      var srr: bv64 := sr;
      srr := srr | 1;
    }

    /** `disable_interrupts`: clears bit 0 of such a local; SR is unchanged. */
    method DisableInterrupts()
      ensures sr == old(sr)
    {
      var srr: bv64 := sr;
      srr := srr & !1;
    }
  }
}
