/**
 * MIPS64 interrupt control through the coprocessor-0 Status and Cause
 * registers: the global enable bit IE (Status bit 0), the eight interrupt
 * mask bits IM0..IM7 (Status bits 8..15), the eight pending bits
 * IP0..IP7 (Cause bits 8..15), and the handler that clears the two
 * software lines IP0 and IP1 by writing Cause.
 *
 * The two registers are the fields of a class; a write to Cause replaces
 * its value, and no line becomes pending while the handler runs. Lines
 * 2..7 are cleared at their own devices, which the kernel leaves to the
 * platform, so the handler writes nothing for them.
 */
module InterruptMips64 {
  import opened Bits

  const STATUS_IE: bv64 := 0x0000_0001
  const STATUS_IM_BASE: bv64 := 0x0000_FF00
  const CAUSE_IP_BASE: bv64 := 0x0000_FF00

  /** The mask bits of the two software lines, IM0 and IM1 (and IP0, IP1 in Cause). */
  const SOFTWARE_LINES: bv64 := 0x0000_0300

  /** Every bit but IP0 (bit 8), and every bit but IP1 (bit 9). */
  const KEEP_ALL_BUT_IP0: bv64 := 0xFFFF_FFFF_FFFF_FEFF
  const KEEP_ALL_BUT_IP1: bv64 := 0xFFFF_FFFF_FFFF_FDFF

  /** A `u8` line number. */
  type U8 = n: nat | n < 0x100

  /** The Status mask bit (and Cause pending bit) of line `line`: `1 << (line + 8)`. */
  function LineBit(line: nat): bv64
    requires line < 8
  {
    (1 as bv64) << (line + 8)
  }

  /** Each line's bit is a single bit within the mask field IM0..IM7 (and the pending field IP0..IP7). */
  lemma LineBitInField(line: nat)
    requires line < 8
    ensures SingleBit64(LineBit(line)) && LineBit(line) & STATUS_IM_BASE == LineBit(line)
  {
  }

  /** The lines both pending in Cause and unmasked in Status, as bits 8..15. */
  function Pending(cause: bv64, status: bv64): bv64
  {
    (cause & CAUSE_IP_BASE) & (status & STATUS_IM_BASE)
  }

  /** Only the pending field, bits 8..15, can be set in the pending lines. */
  lemma PendingWithinField(cause: bv64, status: bv64)
    ensures Pending(cause, status) & !STATUS_IM_BASE == 0
  {
  }

  /** Line `line`'s bit is set in register value `bits`. */
  predicate LineSet(bits: bv64, line: nat)
    requires line < 8
  {
    bits & LineBit(line) != 0
  }

  /** `bits` with line `line`'s bit cleared. */
  function ClearLine(bits: bv64, line: nat): bv64
    requires line < 8
  {
    bits & !LineBit(line)
  }

  /** A line is pending for the handler exactly when Cause has it pending and Status has it unmasked. */
  lemma PendingIsCommonLines(cause: bv64, status: bv64)
    ensures Pending(cause, status) == (cause & status) & STATUS_IM_BASE
  {
  }

  /** Clearing a line clears its bit and keeps every other bit. */
  lemma ClearLineBits(bits: bv64, line: nat)
    requires line < 8
    ensures !LineSet(ClearLine(bits, line), line)
    ensures ClearLine(bits, line) & !LineBit(line) == bits & !LineBit(line)
  {
  }

  /** Line 0, software line IP0, is bit 8. */
  lemma LineZeroBits(bits: bv64)
    ensures LineSet(bits, 0) <==> bits & 0x100 != 0
    ensures ClearLine(bits, 0) == bits & KEEP_ALL_BUT_IP0
  {
  }

  /** Line 1, software line IP1, is bit 9. */
  lemma LineOneBits(bits: bv64)
    ensures LineSet(bits, 1) <==> bits & 0x200 != 0
    ensures ClearLine(bits, 1) == bits & KEEP_ALL_BUT_IP1
  {
  }

  /** The Status value `init_interrupts` writes: IE clear, only the two software lines unmasked, every other bit as it was. */
  function InitStatus(status: bv64): (s: bv64)
    ensures s & STATUS_IE == 0
    ensures s & STATUS_IM_BASE == SOFTWARE_LINES
    ensures s & !(STATUS_IM_BASE | STATUS_IE) == status & !(STATUS_IM_BASE | STATUS_IE)
  {
    ((status & !STATUS_IE) & !STATUS_IM_BASE) | (1 << 8) | (1 << 9)
  }

  /** After `init_interrupts` no hardware line (2..7) can be pending, whatever Cause holds. */
  lemma InitMasksHardwareLines(cause: bv64, status: bv64)
    ensures Pending(cause, InitStatus(status)) & !SOFTWARE_LINES == 0
  {
    var s := InitStatus(status);
    assert s & STATUS_IM_BASE == SOFTWARE_LINES;
    assert (cause & CAUSE_IP_BASE) & (s & STATUS_IM_BASE) & !SOFTWARE_LINES == 0;
  }

  /**
   * Cause after `handle_interrupts` as written, from the value `cause`
   * read at entry and the pending lines `pending`. Every write is made from
   * the value read at entry, so the last one wins: with IP1 pending that is
   * the line-1 write, which clears IP1 only; otherwise the line-0 write
   * when IP0 is pending; otherwise no write at all.
   */
  predicate HandledAsWritten(cause: bv64, pending: bv64, after: bv64)
  {
    && (LineSet(pending, 1) ==> after == ClearLine(cause, 1))
    && (!LineSet(pending, 1) && LineSet(pending, 0) ==> after == ClearLine(cause, 0))
    && (!LineSet(pending, 1) && !LineSet(pending, 0) ==> after == cause)
  }

  /** Cause after line 0's pass when a clearing write starts from the value Cause holds at that point. */
  predicate LineZeroCleared(cause: bv64, pending: bv64, after: bv64)
  {
    && (LineSet(pending, 0) ==> after == ClearLine(cause, 0))
    && (!LineSet(pending, 0) ==> after == cause)
  }

  /**
   * Cause after `handle_interrupts` as intended: each pending software
   * line's bit is cleared in turn, line 0 first, in the value Cause holds
   * at that point.
   */
  predicate HandledAsIntended(cause: bv64, pending: bv64, after: bv64)
  {
    && (LineSet(pending, 0) && LineSet(pending, 1) ==> after == ClearLine(ClearLine(cause, 0), 1))
    && (LineSet(pending, 0) && !LineSet(pending, 1) ==> after == ClearLine(cause, 0))
    && (!LineSet(pending, 0) && LineSet(pending, 1) ==> after == ClearLine(cause, 1))
    && (!LineSet(pending, 0) && !LineSet(pending, 1) ==> after == cause)
  }

  /** The Cause value with exactly the pending software lines clear. */
  function ClearedCause(cause: bv64, pending: bv64): bv64
  {
    cause & !(pending & SOFTWARE_LINES)
  }

  /** That value has no pending software line left and every other bit as read. */
  lemma ClearedCauseBits(cause: bv64, pending: bv64)
    ensures ClearedCause(cause, pending) & (pending & SOFTWARE_LINES) == 0
    ensures ClearedCause(cause, pending) & !(pending & SOFTWARE_LINES) == cause & !(pending & SOFTWARE_LINES)
  {
  }

  /** With IP0 and IP1 pending, the intended value clears bits 8 and 9. */
  lemma ClearedBothBits(cause: bv64, pending: bv64)
    requires pending & 0x100 != 0 && pending & 0x200 != 0
    ensures ClearedCause(cause, pending) == (cause & KEEP_ALL_BUT_IP0) & KEEP_ALL_BUT_IP1
  {
  }

  /** With IP0 pending alone, the intended value clears bit 8. */
  lemma ClearedZeroBit(cause: bv64, pending: bv64)
    requires pending & 0x100 != 0 && pending & 0x200 == 0
    ensures ClearedCause(cause, pending) == cause & KEEP_ALL_BUT_IP0
  {
  }

  /** With IP1 pending alone, the intended value clears bit 9. */
  lemma ClearedOneBit(cause: bv64, pending: bv64)
    requires pending & 0x100 == 0 && pending & 0x200 != 0
    ensures ClearedCause(cause, pending) == cause & KEEP_ALL_BUT_IP1
  {
  }

  /** With neither software line pending, the intended value is Cause as read. */
  lemma ClearedNoBit(cause: bv64, pending: bv64)
    requires pending & 0x100 == 0 && pending & 0x200 == 0
    ensures ClearedCause(cause, pending) == cause
  {
  }

  /** The intended handler leaves exactly the Cause value with the pending software lines clear. */
  lemma IntendedClearsPendingLines(cause: bv64, pending: bv64, after: bv64)
    requires HandledAsIntended(cause, pending, after)
    ensures after == ClearedCause(cause, pending)
  {
    LineZeroBits(pending);
    LineOneBits(pending);
    if LineSet(pending, 0) && LineSet(pending, 1) {
      LineZeroBits(cause);
      LineOneBits(ClearLine(cause, 0));
      ClearedBothBits(cause, pending);
    } else if LineSet(pending, 0) {
      LineZeroBits(cause);
      ClearedZeroBit(cause, pending);
    } else if LineSet(pending, 1) {
      LineOneBits(cause);
      ClearedOneBit(cause, pending);
    } else {
      ClearedNoBit(cause, pending);
    }
  }

  /** When IP1 is not pending the handler as written does what is intended. */
  lemma AsWrittenAgreesWithoutLineOne(cause: bv64, pending: bv64, after: bv64)
    requires !LineSet(pending, 1)
    requires HandledAsWritten(cause, pending, after)
    ensures HandledAsIntended(cause, pending, after)
  {
  }

  /**
   * With both software lines pending, the handler as written ends with
   * Cause still holding IP0: the line-1 write restores the bit the line-0
   * write cleared, so line 0 interrupts again at once. The intended value
   * has it clear.
   */
  lemma StaleClearKeepsLineZero(cause: bv64, status: bv64, after: bv64, intended: bv64)
    requires cause & SOFTWARE_LINES == SOFTWARE_LINES && status & SOFTWARE_LINES == SOFTWARE_LINES
    requires HandledAsWritten(cause, Pending(cause, status), after)
    requires HandledAsIntended(cause, Pending(cause, status), intended)
    ensures LineSet(Pending(cause, status), 0) && LineSet(Pending(cause, status), 1)
    ensures LineSet(after, 0)
    ensures !LineSet(intended, 0)
  {
    var p := Pending(cause, status);
    assert p & SOFTWARE_LINES == SOFTWARE_LINES;
    LineZeroBits(p);
    LineOneBits(p);
    assert after == ClearLine(cause, 1);
    LineOneBits(cause);
    LineZeroBits(after);
    assert intended == ClearLine(ClearLine(cause, 0), 1);
    LineZeroBits(cause);
    LineOneBits(ClearLine(cause, 0));
    LineZeroBits(intended);
  }

  class Cp0 {
    var status: bv64
    var cause: bv64

    constructor (status0: bv64, cause0: bv64)
      ensures status == status0 && cause == cause0
    {
      status, cause := status0, cause0;
    }

    /** `enable_interrupts`: IE set, every other Status bit unchanged. */
    method EnableInterrupts()
      modifies this
      ensures status == SetBits64(old(status), STATUS_IE)
      ensures cause == old(cause)
    {
      var s := status;
      status := SetBits64(s, STATUS_IE);
    }

    /** `disable_interrupts`: IE clear, every other Status bit unchanged. */
    method DisableInterrupts()
      modifies this
      ensures status == ClearBits64(old(status), STATUS_IE)
      ensures cause == old(cause)
    {
      var s := status;
      status := ClearBits64(s, STATUS_IE);
    }

    /** `unmask_irq`: lines 0..7 get their mask bit set, every other bit unchanged; a larger line number changes nothing. */
    method UnmaskIrq(irqLine: U8)
      modifies this
      ensures irqLine > 7 ==> status == old(status)
      ensures irqLine <= 7 ==> status == SetBits64(old(status), LineBit(irqLine))
      ensures cause == old(cause)
    {
      if irqLine > 7 {
        return;
      }
      var s := status;
      status := SetBits64(s, LineBit(irqLine));
    }

    /** `mask_irq`: lines 0..7 get their mask bit cleared, every other bit unchanged; a larger line number changes nothing. */
    method MaskIrq(irqLine: U8)
      modifies this
      ensures irqLine > 7 ==> status == old(status)
      ensures irqLine <= 7 ==> status == ClearBits64(old(status), LineBit(irqLine))
      ensures cause == old(cause)
    {
      if irqLine > 7 {
        return;
      }
      var s := status;
      status := ClearBits64(s, LineBit(irqLine));
    }

    /**
     * One pass of `handle_interrupts`' loop as written: when line
     * `irqLine` is pending and is a software line, Cause becomes the value
     * read at entry with that line's bit clear.
     */
    method ServiceLineAsWritten(causeRead: bv64, pending: bv64, irqLine: nat)
      requires irqLine < 8
      modifies this
      ensures irqLine < 2 && LineSet(pending, irqLine) ==> cause == ClearLine(causeRead, irqLine)
      ensures irqLine >= 2 || !LineSet(pending, irqLine) ==> cause == old(cause)
      ensures status == old(status)
    {
      if LineSet(pending, irqLine) {
        if irqLine == 0 || irqLine == 1 {
          cause := ClearLine(causeRead, irqLine);
        }
      }
    }

    /** The loop of `handle_interrupts` as written, over lines 0..7, entered with Cause as read. */
    method ServiceLinesAsWritten(causeRead: bv64, pending: bv64)
      requires cause == causeRead
      modifies this
      ensures HandledAsWritten(causeRead, pending, cause)
      ensures status == old(status)
    {
      var irqLine: nat := 0;
      while irqLine < 8
        invariant irqLine <= 8
        invariant status == old(status)
        invariant irqLine == 0 ==> cause == causeRead
        invariant irqLine == 1 ==> LineZeroCleared(causeRead, pending, cause)
        invariant irqLine >= 2 ==> HandledAsWritten(causeRead, pending, cause)
      {
        ServiceLineAsWritten(causeRead, pending, irqLine);
        irqLine := irqLine + 1;
      }
    }

    /**
     * `handle_interrupts` as written: Cause and Status are read once, and
     * each pending software line is cleared by writing the Cause value read
     * at entry with that line's bit clear.
     */
    method HandleInterruptsAsWritten()
      modifies this
      ensures HandledAsWritten(old(cause), Pending(old(cause), old(status)), cause)
      ensures status == old(status)
    {
      var causeRead := cause;
      var statusRead := status;
      var pendingInterrupts := Pending(causeRead, statusRead);
      if pendingInterrupts == 0 {
        return;
      }
      ServiceLinesAsWritten(causeRead, pendingInterrupts);
    }

    /**
     * One pass of `handle_interrupts`' loop as intended: when line
     * `irqLine` is pending and is a software line, its bit is cleared in
     * the value Cause holds now.
     */
    method ServiceLine(pending: bv64, irqLine: nat)
      requires irqLine < 8
      modifies this
      ensures irqLine < 2 && LineSet(pending, irqLine) ==> cause == ClearLine(old(cause), irqLine)
      ensures irqLine >= 2 || !LineSet(pending, irqLine) ==> cause == old(cause)
      ensures status == old(status)
    {
      if LineSet(pending, irqLine) {
        if irqLine == 0 || irqLine == 1 {
          cause := ClearLine(cause, irqLine);
        }
      }
    }

    /** The loop of `handle_interrupts` as intended, over lines 0..7. */
    method ServiceLines(pending: bv64)
      modifies this
      ensures HandledAsIntended(old(cause), pending, cause)
      ensures status == old(status)
    {
      var irqLine: nat := 0;
      while irqLine < 8
        invariant irqLine <= 8
        invariant status == old(status)
        invariant irqLine == 0 ==> cause == old(cause)
        invariant irqLine == 1 ==> LineZeroCleared(old(cause), pending, cause)
        invariant irqLine >= 2 ==> HandledAsIntended(old(cause), pending, cause)
      {
        ServiceLine(pending, irqLine);
        irqLine := irqLine + 1;
      }
    }

    /**
     * `handle_interrupts` as intended: each pending software line is
     * cleared in the value Cause holds at that point, so on return Cause
     * holds every other bit as read and neither software line that was
     * pending.
     */
    method HandleInterrupts()
      modifies this
      ensures HandledAsIntended(old(cause), Pending(old(cause), old(status)), cause)
      ensures cause == ClearedCause(old(cause), Pending(old(cause), old(status)))
      ensures status == old(status)
    {
      var causeRead := cause;
      var statusRead := status;
      var pendingInterrupts := Pending(causeRead, statusRead);
      if pendingInterrupts == 0 {
        LineZeroBits(pendingInterrupts);
        LineOneBits(pendingInterrupts);
        IntendedClearsPendingLines(causeRead, pendingInterrupts, cause);
        return;
      }
      ServiceLines(pendingInterrupts);
      IntendedClearsPendingLines(causeRead, pendingInterrupts, cause);
    }

    /** `init_interrupts`: IE clear and only the software lines unmasked. */
    method InitInterrupts()
      modifies this
      ensures status == InitStatus(old(status))
      ensures cause == old(cause)
    {
      var s := status;
      s := s & !STATUS_IE;
      s := s & !STATUS_IM_BASE;
      s := s | (1 << 8) | (1 << 9);
      status := s;
    }
  }
}
