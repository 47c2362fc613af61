/**
 * The RISC-V platform-level interrupt controller (PLIC) and core-local
 * interruptor (CLINT) as the kernel drives them: PLIC initialisation,
 * enabling and disabling one source, claiming and completing, and the
 * CLINT software-interrupt and timer-compare registers.
 *
 * Each device is a class whose fields are the registers the kernel
 * touches. A PLIC source's priority register sits at byte offset 4 * n
 * from the PLIC base (source 0 does not exist); the enable bits of
 * sources 32 * w .. 32 * w + 31 are the word at 0x2000 + 4 * w. Values
 * the kernel reads from the hardware (the claimed id, MTIME) are
 * parameters.
 */
module InterruptRv64i {
  import opened Prelude
  import opened Bits

  const PLIC_PRIORITY_BASE: nat := 0x000004
  const PLIC_ENABLE_BASE: nat := 0x002000
  const PLIC_THRESHOLD: nat := 0x200000
  const PLIC_CLAIM: nat := 0x200004

  /** The timer interval `handle_timer_interrupt` and `init_interrupts` program: 10 000 000 ticks. */
  const TIMER_INTERVAL: U64 := 10_000_000

  /** An interrupt id, a `u32`. */
  type IrqId = n: nat | n < 0x1_0000_0000

  /** A register value of a map of registers, 0 when never written. */
  function Reg(regs: map<nat, bv32>, k: nat): bv32
  {
    if k in regs then regs[k] else 0
  }

  /** The bit of source `irq` within its enable word. */
  function SourceBit(irq: IrqId): (bit: bv32)
    ensures SingleBit32(bit)
  {
    Bit32(irq % 32)
  }

  /** The id `handle_external_interrupts` completes after claiming `claimed`: ids 1..1023, and nothing for 0 (no interrupt) or larger values. */
  function Completion(claimed: bv32): (c: Option<bv32>)
    ensures c.Some? <==> 0 < claimed < 1024
    ensures c.Some? ==> c.value == claimed
  {
    if claimed > 0 && claimed < 1024 then Some(claimed) else None
  }

  class Plic {
    /** Priority registers, by source number (byte offset / 4). */
    var priorities: map<nat, bv32>
    /** Supervisor enable words, by word index. */
    var enableWords: map<nat, bv32>
    var threshold: bv32
    /** Every id written to the claim/complete register, oldest first. */
    var completions: seq<bv32>

    constructor (priorities0: map<nat, bv32>, enable0: map<nat, bv32>, threshold0: bv32)
      ensures priorities == priorities0 && enableWords == enable0 && threshold == threshold0 && completions == []
    {
      priorities, enableWords, threshold, completions := priorities0, enable0, threshold0, [];
    }

    /** A write to the priority register at byte offset `offset`, that of source `offset / 4`. */
    method WritePriority(offset: nat, value: bv32)
      requires offset % 4 == 0
      modifies this
      ensures forall s: nat :: Reg(priorities, s) == if 4 * s == offset then value else Reg(old(priorities), s)
      ensures enableWords == old(enableWords) && threshold == old(threshold) && completions == old(completions)
    {
      priorities := priorities[offset / 4 := value];
    }

    /**
     * `Plic::init` as written: enable word 0 and the threshold become 0,
     * and the loop over irq 1..255 writes priority 1 at 4 + 4 * irq, the
     * register of source irq + 1. Sources 2..256 get priority 1; source 1
     * keeps its old priority.
     */
    method InitAsWritten()
      modifies this
      ensures Reg(enableWords, 0) == 0 && threshold == 0
      ensures forall w: nat :: w != 0 ==> Reg(enableWords, w) == Reg(old(enableWords), w)
      ensures forall s: nat :: Reg(priorities, s) == if 2 <= s <= 256 then 1 else Reg(old(priorities), s)
      ensures completions == old(completions)
    {
      enableWords := enableWords[0 := 0];
      threshold := 0;
      var irq: nat := 1;
      while irq < 256
        invariant 1 <= irq <= 256
        invariant Reg(enableWords, 0) == 0 && threshold == 0
        invariant forall w: nat :: w != 0 ==> Reg(enableWords, w) == Reg(old(enableWords), w)
        invariant forall s: nat :: Reg(priorities, s) == if 2 <= s <= irq then 1 else Reg(old(priorities), s)
        invariant completions == old(completions)
      {
        WritePriority(PLIC_PRIORITY_BASE + irq * 4, 1);
        irq := irq + 1;
      }
    }

    /**
     * `Plic::init` as intended: enable word 0 and the threshold become 0,
     * and sources 1..255 get priority 1 (priority register of source irq at
     * 4 * irq); every other source keeps its priority.
     */
    method Init()
      modifies this
      ensures Reg(enableWords, 0) == 0 && threshold == 0
      ensures forall w: nat :: w != 0 ==> Reg(enableWords, w) == Reg(old(enableWords), w)
      ensures forall s: nat :: Reg(priorities, s) == if 1 <= s <= 255 then 1 else Reg(old(priorities), s)
      ensures completions == old(completions)
    {
      enableWords := enableWords[0 := 0];
      threshold := 0;
      var irq: nat := 1;
      while irq < 256
        invariant 1 <= irq <= 256
        invariant Reg(enableWords, 0) == 0 && threshold == 0
        invariant forall w: nat :: w != 0 ==> Reg(enableWords, w) == Reg(old(enableWords), w)
        invariant forall s: nat :: Reg(priorities, s) == if 1 <= s < irq then 1 else Reg(old(priorities), s)
        invariant completions == old(completions)
      {
        WritePriority(irq * 4, 1);
        irq := irq + 1;
      }
    }

    /** `enable_irq`: reads the source's enable word and writes it back with the source's bit set; every other bit and word is unchanged. */
    method EnableIrq(irq: IrqId)
      modifies this
      ensures enableWords == old(enableWords)[irq / 32 := SetBits32(Reg(old(enableWords), irq / 32), SourceBit(irq))]
      ensures Reg(enableWords, irq / 32) & SourceBit(irq) != 0
      ensures priorities == old(priorities) && threshold == old(threshold) && completions == old(completions)
    {
      var index := irq / 32;
      var enable := Reg(enableWords, index);
      enable := SetBits32(enable, SourceBit(irq));
      enableWords := enableWords[index := enable];
    }

    /** `disable_irq`: the same word written back with the source's bit clear; every other bit and word is unchanged. */
    method DisableIrq(irq: IrqId)
      modifies this
      ensures enableWords == old(enableWords)[irq / 32 := ClearBits32(Reg(old(enableWords), irq / 32), SourceBit(irq))]
      ensures Reg(enableWords, irq / 32) & SourceBit(irq) == 0
      ensures priorities == old(priorities) && threshold == old(threshold) && completions == old(completions)
    {
      var index := irq / 32;
      var enable := Reg(enableWords, index);
      enable := ClearBits32(enable, SourceBit(irq));
      enableWords := enableWords[index := enable];
    }

    /** `complete_irq`: the id is written to the claim/complete register. */
    method CompleteIrq(irq: bv32)
      modifies this
      ensures completions == old(completions) + [irq]
      ensures priorities == old(priorities) && enableWords == old(enableWords) && threshold == old(threshold)
    {
      completions := completions + [irq];
    }

    /** `handle_external_interrupts`, given the id the claim read returned: that same id is completed exactly when it lies in 1..1023. */
    method HandleExternalInterrupts(claimed: bv32)
      modifies this
      ensures completions == old(completions) + (if Completion(claimed).Some? then [claimed] else [])
      ensures priorities == old(priorities) && enableWords == old(enableWords) && threshold == old(threshold)
    {
      var irqId := claimed;
      if irqId > 0 && irqId < 1024 {
        CompleteIrq(irqId);
      }
    }
  }

  class Clint {
    /** The software-interrupt pending register of hart 0. */
    var msip: bv32
    /** The timer compare register. */
    var mtimecmp: U64

    constructor (msip0: bv32, mtimecmp0: U64)
      ensures msip == msip0 && mtimecmp == mtimecmp0
    {
      msip, mtimecmp := msip0, mtimecmp0;
    }

    /** `trigger_software_interrupt`: MSIP becomes 1. */
    method TriggerSoftwareInterrupt()
      modifies this
      ensures msip == 1 && mtimecmp == old(mtimecmp)
    {
      msip := 1;
    }

    /** `clear_software_interrupt`: MSIP becomes 0. */
    method ClearSoftwareInterrupt()
      modifies this
      ensures msip == 0 && mtimecmp == old(mtimecmp)
    {
      msip := 0;
    }

    /** `set_next_timer_interrupt`, given the MTIME value read: the compare register lies `interval` ticks ahead, modulo 2^64. */
    method SetNextTimerInterrupt(interval: U64, mtime: U64)
      modifies this
      ensures mtimecmp == WrappingAdd(mtime, interval)
      ensures (mtimecmp - mtime) % U64_LIMIT == interval
      ensures mtime + interval < U64_LIMIT ==> mtimecmp == mtime + interval
      ensures msip == old(msip)
    {
      var currentTime := mtime;
      mtimecmp := WrappingAdd(currentTime, interval);
    }

    /** `handle_timer_interrupt`: the next timer interrupt 10 000 000 ticks after MTIME. */
    method HandleTimerInterrupt(mtime: U64)
      modifies this
      ensures mtimecmp == WrappingAdd(mtime, TIMER_INTERVAL) && msip == old(msip)
    {
      SetNextTimerInterrupt(TIMER_INTERVAL, mtime);
    }
  }

  /** `init_interrupts`: PLIC initialisation, the first timer interrupt 10 000 000 ticks after MTIME, and MSIP cleared. */
  method InitInterrupts(plic: Plic, clint: Clint, mtime: U64)
    modifies plic, clint
    ensures Reg(plic.enableWords, 0) == 0 && plic.threshold == 0
    ensures forall s: nat :: Reg(plic.priorities, s) == if 1 <= s <= 255 then 1 else Reg(old(plic.priorities), s)
    ensures clint.mtimecmp == WrappingAdd(mtime, TIMER_INTERVAL) && clint.msip == 0
  {
    plic.Init();
    clint.SetNextTimerInterrupt(TIMER_INTERVAL, mtime);
    clint.ClearSoftwareInterrupt();
  }

  /** The initialisation as written never gives source 1 a priority and gives one to source 256, outside the sources 1..255 it means to cover. */
  lemma InitAsWrittenMissesSourceOne(before: map<nat, bv32>, after: map<nat, bv32>)
    requires Reg(before, 1) == 0
    requires forall s: nat :: Reg(after, s) == if 2 <= s <= 256 then 1 else Reg(before, s)
    ensures Reg(after, 1) == 0 && Reg(after, 256) == 1
  {
  }

  /** After the intended initialisation every source 1..255 has priority 1, above the threshold 0, so each can interrupt once enabled. */
  lemma InitCoversSources(before: map<nat, bv32>, after: map<nat, bv32>, s: nat)
    requires forall t: nat :: Reg(after, t) == if 1 <= t <= 255 then 1 else Reg(before, t)
    requires 1 <= s <= 255
    ensures Reg(after, s) > 0
  {
  }
}
