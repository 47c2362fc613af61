/**
 * The distributor of the ARM generic interrupt controller (GICv3/v4) as
 * the kernel drives it: initialisation, and enabling or disabling one
 * interrupt through the set-enable (ISENABLER) and clear-enable
 * (ICENABLER) register banks.
 *
 * The distributor is reached through 32-bit MMIO registers at byte
 * offsets from its base. The model records every register write, in
 * order, and keeps the state the writes act on: the control register and
 * the per-interrupt enable bits, one 32-bit word per 32 interrupts. A
 * write to ISENABLERn sets the enable bits that are 1 in the value and a
 * write to ICENABLERn clears them; 0 bits leave the state alone, which is
 * why the kernel never reads before writing.
 */
module InterruptArmv9 {
  import opened Bits

  const CTLR: nat := 0x000
  const ISENABLER: nat := 0x100
  const ICENABLER: nat := 0x180
  /** The end of the clear-enable bank: 32 words. */
  const ICENABLER_END: nat := 0x200

  /** One 32-bit MMIO write at a byte offset from the distributor base. */
  datatype RegWrite = RegWrite(offset: nat, value: bv32)

  /** An interrupt id, a `u32`. */
  type IrqId = n: nat | n < 0x1_0000_0000

  /** The word of a bank that holds interrupt `irq`'s enable bit. */
  function WordIndex(irq: IrqId): nat
  {
    irq / 32
  }

  /** The bit of interrupt `irq` within its word. */
  function IrqBit(irq: IrqId): (bit: bv32)
    ensures SingleBit32(bit)
  {
    Bit32(irq % 32)
  }

  /** `enable_irq`'s register: ISENABLER plus four bytes per word. */
  function EnableOffset(irq: IrqId): (offset: nat)
    ensures offset % 4 == 0 && (offset - ISENABLER) / 4 == WordIndex(irq)
  {
    ISENABLER + WordIndex(irq) * 4
  }

  /** `disable_irq`'s register: ICENABLER plus four bytes per word. */
  function DisableOffset(irq: IrqId): (offset: nat)
    ensures offset % 4 == 0 && (offset - ICENABLER) / 4 == WordIndex(irq)
    ensures offset == EnableOffset(irq) + 0x80
  {
    ICENABLER + WordIndex(irq) * 4
  }

  /** Interrupts below 1024 have their set-enable word in the set-enable bank and their clear-enable word in the clear-enable bank; from 1024 up the set-enable offset runs into the clear-enable bank. */
  lemma BankBounds(irq: IrqId)
    ensures irq < 1024 <==> EnableOffset(irq) < ICENABLER
    ensures irq < 1024 <==> DisableOffset(irq) < ICENABLER_END
  {
  }

  /** The distributor registers the kernel writes, by offset. */
  datatype Reg = Ctlr | SetEnable(word: nat) | ClearEnable(word: nat) | Other

  /** Which register a byte offset selects: the control word, a set-enable or clear-enable word, or one the model does not keep. */
  function Decode(offset: nat): (r: Reg)
    ensures r.SetEnable? ==> offset == ISENABLER + 4 * r.word && r.word < 32
    ensures r.ClearEnable? ==> offset == ICENABLER + 4 * r.word && r.word < 32
    ensures r == Ctlr <==> offset == CTLR
  {
    if offset == CTLR then Ctlr
    else if ISENABLER <= offset < ICENABLER && offset % 4 == 0 then SetEnable((offset - ISENABLER) / 4)
    else if ICENABLER <= offset < ICENABLER_END && offset % 4 == 0 then ClearEnable((offset - ICENABLER) / 4)
    else Other
  }

  /** Word `w` of either bank decodes back to that word. */
  lemma DecodeWord(w: nat)
    requires w < 32
    ensures Decode(ISENABLER + 4 * w) == SetEnable(w)
    ensures Decode(ICENABLER + 4 * w) == ClearEnable(w)
  {
  }

  /** The enable word `w` of a state, 0 when never written. */
  function Word(words: map<nat, bv32>, w: nat): bv32
  {
    if w in words then words[w] else 0
  }

  /** Interrupt `irq` is enabled in a state. */
  predicate Enabled(words: map<nat, bv32>, irq: IrqId)
  {
    Word(words, WordIndex(irq)) & IrqBit(irq) != 0
  }

  /** `init`'s disable write for loop value `i` (32, 64, ..., 224): all ones at ICENABLER + i / 8. */
  function InitDisableWrite(i: nat): RegWrite
  {
    RegWrite(ICENABLER + i / 8, 0xFFFF_FFFF)
  }

  /** The disable writes for loop values 32, 64, ... below `i`. */
  function InitDisableWrites(i: nat): (ws: seq<RegWrite>)
    requires i % 32 == 0
    ensures |ws| == (if i == 0 then 0 else i / 32 - 1)
  {
    if i <= 32 then [] else InitDisableWrites(i - 32) + [InitDisableWrite(i - 32)]
  }

  /** Write k of the loop goes to ICENABLER(k + 1): the seven writes cover 0x184 .. 0x19C, interrupts 32..255, and never ICENABLER0 (interrupts 0..31). */
  lemma {:induction false} InitDisableTargets(i: nat)
    requires i % 32 == 0
    ensures forall k :: 0 <= k < |InitDisableWrites(i)| ==> InitDisableWrites(i)[k] == RegWrite(0x184 + 4 * k, 0xFFFF_FFFF)
  {
    if i > 32 {
      InitDisableTargets(i - 32);
    }
  }

  /** The writes of `init`: CTLR 0, the seven disable words, CTLR 1. */
  function InitWrites(): (ws: seq<RegWrite>)
    ensures |ws| == 9
  {
    [RegWrite(CTLR, 0)] + InitDisableWrites(256) + [RegWrite(CTLR, 1)]
  }

  class GicDistributor {
    /** GICD_CTLR. */
    var ctlr: bv32
    /** The enable bits, by word index. */
    var enableWords: map<nat, bv32>
    /** Every register write so far, oldest first. */
    var writes: seq<RegWrite>

    constructor (ctlr0: bv32, words0: map<nat, bv32>)
      ensures ctlr == ctlr0 && enableWords == words0 && writes == []
    {
      ctlr, enableWords, writes := ctlr0, words0, [];
    }

    /** `write_reg`: recorded, and applied to the control register or an enable bank. */
    method WriteReg(offset: nat, value: bv32)
      modifies this
      ensures writes == old(writes) + [RegWrite(offset, value)]
      ensures ctlr == (if Decode(offset) == Ctlr then value else old(ctlr))
      ensures enableWords == match Decode(offset)
        case SetEnable(w) => old(enableWords)[w := SetBits32(Word(old(enableWords), w), value)]
        case ClearEnable(w) => old(enableWords)[w := ClearBits32(Word(old(enableWords), w), value)]
        case _ => old(enableWords)
    {
      writes := writes + [RegWrite(offset, value)];
      match Decode(offset)
      case Ctlr =>
        ctlr := value;
      case SetEnable(w) =>
        enableWords := enableWords[w := Word(enableWords, w) | value];
      case ClearEnable(w) =>
        enableWords := enableWords[w := Word(enableWords, w) & !value];
      case Other =>
    }

    /** One pass of `init`'s loop: all ones to the clear-enable word of interrupts i .. i + 31. */
    method DisableWord(i: nat)
      requires 32 <= i < 256 && i % 32 == 0
      modifies this
      ensures writes == old(writes) + [InitDisableWrite(i)]
      ensures ctlr == old(ctlr)
      ensures enableWords == old(enableWords)[i / 32 := 0]
      ensures forall w: nat :: Word(enableWords, w) == if 32 * w == i then 0 else Word(old(enableWords), w)
    {
      DecodeWord(i / 32);
      WriteReg(ICENABLER + i / 8, 0xFFFF_FFFF);
    }

    /** `init`'s loop: all ones to the clear-enable words of interrupts 32..255, one word per pass. */
    method DisableWords()
      modifies this
      ensures writes == old(writes) + InitDisableWrites(256)
      ensures ctlr == old(ctlr)
      ensures forall w: nat :: 1 <= w < 8 ==> Word(enableWords, w) == 0
      ensures forall w: nat :: !(1 <= w < 8) ==> Word(enableWords, w) == Word(old(enableWords), w)
    {
      var i: nat := 32;
      ghost var k: nat := 1;
      while i < 256
        invariant 1 <= k <= 8 && i == 32 * k
        invariant writes == old(writes) + InitDisableWrites(i)
        invariant ctlr == old(ctlr)
        invariant forall w: nat :: 1 <= w < k ==> Word(enableWords, w) == 0
        invariant forall w: nat :: !(1 <= w < k) ==> Word(enableWords, w) == Word(old(enableWords), w)
      {
        DisableWord(i);
        i, k := i + 32, k + 1;
      }
    }

    /**
     * `init`: disables the distributor, disables interrupts 32..255 one
     * word at a time, and enables the distributor again; the banked
     * interrupts 0..31 keep their enable bits.
     */
    method Init()
      modifies this
      ensures writes == old(writes) + InitWrites()
      ensures ctlr == 1
      ensures forall w: nat :: 1 <= w < 8 ==> Word(enableWords, w) == 0
      ensures forall w: nat :: !(1 <= w < 8) ==> Word(enableWords, w) == Word(old(enableWords), w)
    {
      WriteReg(CTLR, 0);
      DisableWords();
      WriteReg(CTLR, 1);
    }

    /** `enable_irq`: one write of the interrupt's bit, without a read, to its set-enable word; below 1024 that enables it and leaves every other enable bit as it was. */
    method EnableIrq(irq: IrqId)
      modifies this
      ensures writes == old(writes) + [RegWrite(EnableOffset(irq), IrqBit(irq))]
      ensures ctlr == old(ctlr)
      ensures irq < 1024 ==> enableWords == old(enableWords)[WordIndex(irq) := SetBits32(Word(old(enableWords), WordIndex(irq)), IrqBit(irq))]
      ensures irq < 1024 ==> Enabled(enableWords, irq)
    {
      BankBounds(irq);
      if irq < 1024 {
        DecodeWord(irq / 32);
      }
      WriteReg(ISENABLER + (irq / 32) * 4, 1 << (irq % 32));
    }

    /** `disable_irq`: one write of the interrupt's bit, without a read, to its clear-enable word; below 1024 that disables it and leaves every other enable bit as it was. */
    method DisableIrq(irq: IrqId)
      modifies this
      ensures writes == old(writes) + [RegWrite(DisableOffset(irq), IrqBit(irq))]
      ensures ctlr == old(ctlr)
      ensures irq < 1024 ==> enableWords == old(enableWords)[WordIndex(irq) := ClearBits32(Word(old(enableWords), WordIndex(irq)), IrqBit(irq))]
      ensures irq < 1024 ==> !Enabled(enableWords, irq)
    {
      BankBounds(irq);
      if irq < 1024 {
        DecodeWord(irq / 32);
      }
      WriteReg(ICENABLER + (irq / 32) * 4, 1 << (irq % 32));
    }
  }
}
