/**
 * The SPARC V9 external interrupt controller as the kernel drives it: a
 * 64-bit enable register in which a set bit ENABLES a line (0 masks it),
 * a pending register read to find the pending line, and a clear register
 * that takes the line's bit as the EOI; and the TSTATE interrupt-enable
 * bit.
 *
 * The enable register and the clear-register writes are the state; the
 * pending register value is what the hardware returns, so it is a
 * parameter. `1 << irq_line` on a `u64` is taken with the shift amount
 * modulo 64, as an optimised build computes it.
 */
module InterruptSparcv9 {
  import opened Bits

  /** A `u32` line number as an integer. */
  type U32 = n: nat | n < 0x1_0000_0000

  /** A `u64` register value as an integer. */
  type U64Value = n: nat | n < 0x1_0000_0000_0000_0000

  /** The TSTATE bit `enable_interrupts` sets: bit 17. */
  const TSTATE_IE: bv64 := 1 << 17

  /** The register bit of line `line`. */
  function LineBit(line: U32): (bit: bv64)
    ensures SingleBit64(bit)
  {
    Bit64(line % 64)
  }

  /**
   * `get_irq` for pending register value `pending`: 0 when nothing is
   * pending, otherwise `63 - leading_zeros`, the highest pending line,
   * which lies in 0..63.
   */
  function GetIrq(pending: U64Value): (irq: nat)
    ensures irq < 64
    ensures pending == 0 ==> irq == 0
    ensures pending != 0 ==> Pow2(irq) <= pending < Pow2(irq + 1)
  {
    if pending == 0 then 0 else 63 - LeadingZeros64(pending)
  }

  /** The line found is the highest pending one: every pending line is at most it. */
  lemma GetIrqIsHighest(pending: U64Value, line: nat)
    requires pending != 0 && Pow2(line) <= pending
    ensures line <= GetIrq(pending)
  {
    var r := GetIrq(pending);
    if line > r {
      Pow2Monotone(r, line);
    }
  }

  /**
   * `get_irq` as its comments intend: the lowest pending line, found by
   * counting trailing zeros; 0 when nothing is pending.
   */
  function GetIrqLowest(pending: U64Value): (irq: nat)
    ensures irq < 64
    ensures pending == 0 ==> irq == 0
    ensures pending != 0 ==> BitSet(pending, irq) && pending % Pow2(irq) == 0
  {
    if pending == 0 then 0
    else
      Pow2Of64();
      var r := TrailingZeros(pending);
      assert r < 64 by {
        if r >= 64 {
          Pow2Monotone(63, r);
        }
      }
      r
  }

  /** With lines 1 and 2 pending, `get_irq` as written reports line 2; the intended one reports line 1. */
  lemma AsWrittenPicksHighest()
    ensures GetIrq(6) == 2 && GetIrqLowest(6) == 1
  {
  }

  /** The line found by the intended `get_irq` is the lowest pending one: no line below it is pending. */
  lemma GetIrqLowestIsLowest(pending: U64Value, line: nat)
    requires pending != 0 && line < GetIrqLowest(pending)
    ensures !BitSet(pending, line)
  {
    BelowTrailingZerosClear(pending, line);
  }

  class Controller {
    /** INTR_ENABLE: a set bit enables the line. */
    var enable: bv64
    /** Every value written to INTR_CLEAR, oldest first. */
    var clears: seq<bv64>

    constructor (enable0: bv64)
      ensures enable == enable0 && clears == []
    {
      enable, clears := enable0, [];
    }

    /** `init_controller`: every line masked. */
    method InitController()
      modifies this
      ensures enable == 0 && clears == old(clears)
    {
      enable := 0x0000_0000_0000_0000;
    }

    /** `send_eoi`: the line's bit goes to the clear register. */
    method SendEoi(line: U32)
      modifies this
      ensures clears == old(clears) + [LineBit(line)] && enable == old(enable)
    {
      clears := clears + [LineBit(line)];
    }

    /** `mask_irq`: the line's bit is cleared; every other bit is unchanged. */
    method MaskIrq(line: U32)
      modifies this
      ensures enable == ClearBits64(old(enable), LineBit(line))
      ensures enable & LineBit(line) == 0 && enable & !LineBit(line) == old(enable) & !LineBit(line)
      ensures clears == old(clears)
    {
      var enableReg := enable;
      var newEnable := ClearBits64(enableReg, LineBit(line));
      enable := newEnable;
    }

    /** `unmask_irq`: the line's bit is set; every other bit is unchanged. */
    method UnmaskIrq(line: U32)
      modifies this
      ensures enable == SetBits64(old(enable), LineBit(line))
      ensures enable & LineBit(line) != 0 && enable & !LineBit(line) == old(enable) & !LineBit(line)
      ensures clears == old(clears)
    {
      var enableReg := enable;
      var newEnable := SetBits64(enableReg, LineBit(line));
      enable := newEnable;
    }

    /**
     * `handle_external_interrupts`, given the pending register value: when
     * the line found is above 0 the driver runs and the EOI clears that
     * same line's bit; otherwise nothing is written.
     */
    method HandleExternalInterrupts(pending: U64Value)
      modifies this
      ensures GetIrq(pending) > 0 ==> clears == old(clears) + [LineBit(GetIrq(pending))]
      ensures GetIrq(pending) == 0 ==> clears == old(clears)
      ensures enable == old(enable)
    {
      var irqLine := GetIrq(pending);
      if irqLine > 0 {
        SendEoi(irqLine);
      }
    }
  }

  /** The trap state register holding the interrupt-enable bit. */
  class Cpu {
    var tstate: bv64

    constructor (tstate0: bv64)
      ensures tstate == tstate0
    {
      tstate := tstate0;
    }

    /** `enable_interrupts`: bit 17 set, the rest of TSTATE unchanged. */
    method EnableInterrupts()
      modifies this
      ensures tstate == SetBits64(old(tstate), TSTATE_IE)
    {
      tstate := tstate | (1 << 17);
    }

    /** `disable_interrupts`: bit 17 cleared, the rest of TSTATE unchanged. */
    method DisableInterrupts()
      modifies this
      ensures tstate == ClearBits64(old(tstate), TSTATE_IE)
    {
      tstate := tstate & !(1 << 17);
    }
  }
}
