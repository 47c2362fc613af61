/**
 * The pair of cascaded 8259A programmable interrupt controllers on x86-64:
 * the initialisation sequence that remaps IRQ 0..15 to vectors 32..47, the
 * end-of-interrupt command, and masking of single lines.
 *
 * The PICs are reached through I/O ports. The model keeps the interrupt
 * mask register of each PIC, which a read of its data port returns, and
 * records every byte written to a port, in order. A write to a data port
 * is taken to load that PIC's mask; during initialisation the hardware
 * routes those writes to the ICW2..ICW4 registers instead, and the final
 * two writes of the sequence load the masks either way.
 */
module InterruptAmd64 {

  const PIC1_COMMAND: bv16 := 0x20
  const PIC1_DATA: bv16 := 0x21
  const PIC2_COMMAND: bv16 := 0xA0
  const PIC2_DATA: bv16 := 0xA1

  /** The port `io_wait` writes to, for a short delay. */
  const DELAY_PORT: bv16 := 0x80

  const ICW1_ICW4: bv8 := 0x01
  const ICW1_INIT: bv8 := 0x10
  const ICW4_8086: bv8 := 0x01
  const PIC_OFFSET: bv8 := 32
  const EOI: bv8 := 0x20

  /** One `out` instruction. */
  datatype PortWrite = PortWrite(port: bv16, value: bv8)

  const DELAY: PortWrite := PortWrite(DELAY_PORT, 0)

  /** The mask bit of line `irq` within its PIC (line mod 8, as an 8-bit shift wraps its amount). */
  function LineBit(irq: bv8): (bit: bv8)
    ensures bit != 0 && bit & (bit - 1) == 0
  {
    if irq < 8 then 1 << irq else 1 << ((irq - 8) & 7)
  }

  /** Setting a mask bit: the line is masked, every other line keeps its state. */
  function SetBit(mask: bv8, bit: bv8): (m: bv8)
    ensures m & bit == bit && m & !bit == mask & !bit
  {
    mask | bit
  }

  /** Clearing a mask bit: the line is unmasked, every other line keeps its state. */
  function ClearBit(mask: bv8, bit: bv8): (m: bv8)
    ensures m & bit == 0 && m & !bit == mask & !bit
  {
    mask & !bit
  }

  /** Masking twice is masking once; unmasking after masking leaves the line unmasked and the others as before the mask. */
  lemma MaskLaws(mask: bv8, bit: bv8)
    ensures SetBit(SetBit(mask, bit), bit) == SetBit(mask, bit)
    ensures ClearBit(SetBit(mask, bit), bit) == ClearBit(mask, bit)
    ensures ClearBit(SetBit(mask, bit), bit) & bit == 0
  {
  }

  /** A register write followed by `io_wait`. */
  function WriteAndWait(port: bv16, value: bv8): seq<PortWrite>
  {
    [PortWrite(port, value), DELAY]
  }

  /** ICW1 (start initialisation, ICW4 follows) to both PICs, then ICW2, their vector offsets; each followed by a delay. */
  function RemapWrites(): seq<PortWrite>
  {
    WriteAndWait(PIC1_COMMAND, ICW1_INIT | ICW1_ICW4) + WriteAndWait(PIC2_COMMAND, ICW1_INIT | ICW1_ICW4)
    + WriteAndWait(PIC1_DATA, PIC_OFFSET) + WriteAndWait(PIC2_DATA, PIC_OFFSET + 8)
  }

  /** ICW3, the cascade wiring (slave on IRQ2, slave identity 2), then ICW4, 8086 mode; each followed by a delay. */
  function ModeWrites(): seq<PortWrite>
  {
    WriteAndWait(PIC1_DATA, 0x04) + WriteAndWait(PIC2_DATA, 0x02)
    + WriteAndWait(PIC1_DATA, ICW4_8086) + WriteAndWait(PIC2_DATA, ICW4_8086)
  }

  /** The port writes of `init_pic`: the four initialisation words, then the two masks. */
  function InitWrites(): seq<PortWrite>
  {
    RemapWrites() + ModeWrites() + [PortWrite(PIC1_DATA, 0xFB), PortWrite(PIC2_DATA, 0xFF)]
  }

  /** The writes that are not `io_wait` delays, in order. */
  function Commands(ws: seq<PortWrite>): (cs: seq<PortWrite>)
    ensures |cs| <= |ws|
  {
    if ws == [] then []
    else if ws[0].port == DELAY_PORT then Commands(ws[1..])
    else [ws[0]] + Commands(ws[1..])
  }

  /** Dropping the delays distributes over concatenation. */
  lemma {:induction false} CommandsAppend(a: seq<PortWrite>, b: seq<PortWrite>)
    ensures Commands(a + b) == Commands(a) + Commands(b)
  {
    if a != [] {
      assert (a + b)[1..] == a[1..] + b;
      CommandsAppend(a[1..], b);
    } else {
      assert a + b == b;
    }
  }

  /** A register write and its delay leave the register write alone. */
  lemma CommandsOfWriteAndWait(port: bv16, value: bv8)
    requires port != DELAY_PORT
    ensures Commands(WriteAndWait(port, value)) == [PortWrite(port, value)]
  {
    assert WriteAndWait(port, value)[1..] == [DELAY];
    assert [DELAY][1..] == [];
  }

  /** Four register writes, each with its delay, leave the four register writes. */
  lemma CommandsOfFour(w1: PortWrite, w2: PortWrite, w3: PortWrite, w4: PortWrite)
    requires w1.port != DELAY_PORT && w2.port != DELAY_PORT && w3.port != DELAY_PORT && w4.port != DELAY_PORT
    ensures Commands(WriteAndWait(w1.port, w1.value) + WriteAndWait(w2.port, w2.value)
                     + WriteAndWait(w3.port, w3.value) + WriteAndWait(w4.port, w4.value)) == [w1, w2, w3, w4]
  {
    var a, b, c, d := WriteAndWait(w1.port, w1.value), WriteAndWait(w2.port, w2.value),
                      WriteAndWait(w3.port, w3.value), WriteAndWait(w4.port, w4.value);
    CommandsOfWriteAndWait(w1.port, w1.value);
    CommandsOfWriteAndWait(w2.port, w2.value);
    CommandsOfWriteAndWait(w3.port, w3.value);
    CommandsOfWriteAndWait(w4.port, w4.value);
    CommandsAppend(a + b + c, d);
    CommandsAppend(a + b, c);
    CommandsAppend(a, b);
  }

  /**
   * Without the delays, `init_pic` sends ICW1 0x11 to both PICs, then
   * vector offsets 32 and 40, cascade words 0x04 and 0x02, mode 0x01 to
   * each, and ends with the masks 0xFB (only the cascade line IRQ2 open)
   * and 0xFF; each register goes master first.
   */
  lemma InitCommandOrder()
    ensures Commands(InitWrites())
         == [PortWrite(0x20, 0x11), PortWrite(0xA0, 0x11), PortWrite(0x21, 32), PortWrite(0xA1, 40)]
          + [PortWrite(0x21, 0x04), PortWrite(0xA1, 0x02), PortWrite(0x21, 0x01), PortWrite(0xA1, 0x01)]
          + [PortWrite(0x21, 0xFB), PortWrite(0xA1, 0xFF)]
  {
    var masks := [PortWrite(PIC1_DATA, 0xFB), PortWrite(PIC2_DATA, 0xFF)];
    RemapCommands();
    ModeCommands();
    CommandsAppend(RemapWrites() + ModeWrites(), masks);
    CommandsAppend(RemapWrites(), ModeWrites());
    assert masks[1..][1..] == [];
    assert Commands(masks) == masks;
  }

  lemma RemapCommands()
    ensures Commands(RemapWrites()) == [PortWrite(0x20, 0x11), PortWrite(0xA0, 0x11), PortWrite(0x21, 32), PortWrite(0xA1, 40)]
  {
    CommandsOfFour(PortWrite(0x20, 0x11), PortWrite(0xA0, 0x11), PortWrite(0x21, 32), PortWrite(0xA1, 40));
  }

  lemma ModeCommands()
    ensures Commands(ModeWrites()) == [PortWrite(0x21, 0x04), PortWrite(0xA1, 0x02), PortWrite(0x21, 0x01), PortWrite(0xA1, 0x01)]
  {
    CommandsOfFour(PortWrite(0x21, 0x04), PortWrite(0xA1, 0x02), PortWrite(0x21, 0x01), PortWrite(0xA1, 0x01));
  }

  /** The end-of-interrupt writes for IDT vector `vector`: the slave first for vectors 40 and up, then the master. */
  function EoiWrites(vector: bv8): (ws: seq<PortWrite>)
    ensures |ws| >= 1 && ws[|ws| - 1] == PortWrite(PIC1_COMMAND, EOI)
    ensures |ws| == 2 <==> vector >= PIC_OFFSET + 8
    ensures |ws| == 2 ==> ws[0] == PortWrite(PIC2_COMMAND, EOI)
  {
    (if vector >= PIC_OFFSET + 8 then [PortWrite(PIC2_COMMAND, EOI)] else []) + [PortWrite(PIC1_COMMAND, EOI)]
  }

  /** The two PICs as the kernel sees them through their ports. */
  class Pics {
    /** Interrupt mask register of the master PIC (IRQ 0..7): a set bit masks the line. */
    var masterMask: bv8
    /** Interrupt mask register of the slave PIC (IRQ 8..15). */
    var slaveMask: bv8
    /** Every port write so far, oldest first. */
    var writes: seq<PortWrite>

    constructor (master0: bv8, slave0: bv8)
      ensures masterMask == master0 && slaveMask == slave0 && writes == []
    {
      masterMask, slaveMask, writes := master0, slave0, [];
    }

    /** `port_out`: recorded; a data port write loads that PIC's mask. */
    method PortOut(port: bv16, value: bv8)
      modifies this
      ensures writes == old(writes) + [PortWrite(port, value)]
      ensures masterMask == (if port == PIC1_DATA then value else old(masterMask))
      ensures slaveMask == (if port == PIC2_DATA then value else old(slaveMask))
    {
      writes := writes + [PortWrite(port, value)];
      if port == PIC1_DATA {
        masterMask := value;
      } else if port == PIC2_DATA {
        slaveMask := value;
      }
    }

    /** `port_in` on a data port: that PIC's mask. */
    method ReadMask(port: bv16) returns (value: bv8)
      requires port == PIC1_DATA || port == PIC2_DATA
      ensures value == (if port == PIC1_DATA then masterMask else slaveMask)
    {
      value := if port == PIC1_DATA then masterMask else slaveMask;
    }

    /** A register write followed by `io_wait`. */
    method OutAndWait(port: bv16, value: bv8)
      modifies this
      ensures writes == old(writes) + WriteAndWait(port, value)
      ensures masterMask == (if port == PIC1_DATA then value else old(masterMask))
      ensures slaveMask == (if port == PIC2_DATA then value else old(slaveMask))
    {
      PortOut(port, value);
      PortOut(DELAY_PORT, 0);
    }

    /**
     * `init_pic`: reads both masks, sends the initialisation sequence, and
     * leaves the master with only IRQ2 unmasked and the slave fully masked;
     * the masks read at the start are not restored.
     */
    method InitPic()
      modifies this
      ensures writes == old(writes) + InitWrites()
      ensures masterMask == 0xFB && slaveMask == 0xFF
    {
      var mask1 := ReadMask(PIC1_DATA);
      var mask2 := ReadMask(PIC2_DATA);
      OutAndWait(PIC1_COMMAND, ICW1_INIT | ICW1_ICW4);
      OutAndWait(PIC2_COMMAND, ICW1_INIT | ICW1_ICW4);
      OutAndWait(PIC1_DATA, PIC_OFFSET);
      OutAndWait(PIC2_DATA, PIC_OFFSET + 8);
      assert writes == old(writes) + RemapWrites();
      OutAndWait(PIC1_DATA, 0x04);
      OutAndWait(PIC2_DATA, 0x02);
      OutAndWait(PIC1_DATA, ICW4_8086);
      OutAndWait(PIC2_DATA, ICW4_8086);
      assert writes == old(writes) + RemapWrites() + ModeWrites();
      PortOut(PIC1_DATA, 0xFB);
      PortOut(PIC2_DATA, 0xFF);
    }

    /** `send_eoi`: the EOI command to the slave for vectors 40 and up, then always to the master; the masks are untouched. */
    method SendEoi(vector: bv8)
      modifies this
      ensures writes == old(writes) + EoiWrites(vector)
      ensures masterMask == old(masterMask) && slaveMask == old(slaveMask)
    {
      if vector >= PIC_OFFSET + 8 {
        PortOut(PIC2_COMMAND, EOI);
      }
      PortOut(PIC1_COMMAND, EOI);
    }

    /** `mask_irq`: lines 0..7 set their bit in the master mask, higher lines a bit of the slave mask; the other PIC is untouched. */
    method MaskIrq(irq: bv8)
      modifies this
      ensures irq < 8 ==> masterMask == SetBit(old(masterMask), LineBit(irq)) && slaveMask == old(slaveMask)
      ensures irq >= 8 ==> slaveMask == SetBit(old(slaveMask), LineBit(irq)) && masterMask == old(masterMask)
      ensures writes == old(writes) + [if irq < 8 then PortWrite(PIC1_DATA, masterMask) else PortWrite(PIC2_DATA, slaveMask)]
    {
      var port: bv16;
      var mask: bv8;
      if irq < 8 {
        port := PIC1_DATA;
        var current := ReadMask(port);
        mask := current | (1 << irq);
      } else {
        port := PIC2_DATA;
        var current := ReadMask(port);
        mask := current | (1 << ((irq - 8) & 7));
      }
      PortOut(port, mask);
    }

    /** `unmask_irq`: clears the same bit in the same mask; the other PIC is untouched. */
    method UnmaskIrq(irq: bv8)
      modifies this
      ensures irq < 8 ==> masterMask == ClearBit(old(masterMask), LineBit(irq)) && slaveMask == old(slaveMask)
      ensures irq >= 8 ==> slaveMask == ClearBit(old(slaveMask), LineBit(irq)) && masterMask == old(masterMask)
      ensures writes == old(writes) + [if irq < 8 then PortWrite(PIC1_DATA, masterMask) else PortWrite(PIC2_DATA, slaveMask)]
    {
      var port: bv16;
      var mask: bv8;
      if irq < 8 {
        port := PIC1_DATA;
        var current := ReadMask(port);
        mask := current & !(1 << irq);
      } else {
        port := PIC2_DATA;
        var current := ReadMask(port);
        mask := current & !(1 << ((irq - 8) & 7));
      }
      PortOut(port, mask);
    }
  }
}
