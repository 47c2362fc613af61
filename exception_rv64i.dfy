/**
 * RISC-V 64 supervisor trap handling: decoding of `scause` (bit 63 tells
 * an interrupt from a synchronous exception, the remaining bits give the
 * code) and the Rust trap handler that the common assembly entry calls
 * with the saved context.
 *
 * A handler that returns hands back the updated context; one that panics
 * never returns. `SEPC += 4` wraps modulo 2^64 here.
 */
module ExceptionRv64i {
  import opened Prelude

  datatype ExceptionCause =
    | InstructionPageFault
    | LoadPageFault
    | StorePageFault
    | EnvironmentCallFromUMode
    | EnvironmentCallFromSMode
    | InstructionAccessFault
    | SupervisorTimerInterrupt
    | SupervisorSoftwareInterrupt
    | SupervisorExternalInterrupt
    | Unknown(scause: bv64)
  {
    predicate IsInterrupt()
    {
      this == SupervisorTimerInterrupt || this == SupervisorSoftwareInterrupt || this == SupervisorExternalInterrupt
    }

    predicate IsPageFault()
    {
      this == InstructionPageFault || this == LoadPageFault || this == StorePageFault
    }

    predicate IsEnvironmentCall()
    {
      this == EnvironmentCallFromUMode || this == EnvironmentCallFromSMode
    }
  }

  const INTERRUPT_BIT: bv64 := 0x8000_0000_0000_0000

  /**
   * `from_scause`: with bit 63 set, the low 63 bits 1, 5 and 9 are the
   * software, timer and external interrupts; with it clear, 12, 13, 15, 8,
   * 9 and 1 are the named exceptions. Anything else is `Unknown` with the
   * raw value.
   */
  function FromScause(scause: bv64): (c: ExceptionCause)
    ensures c.IsInterrupt() ==> scause & INTERRUPT_BIT != 0
    ensures c.Unknown? ==> c.scause == scause
    ensures !c.Unknown? ==> ScauseOf(c) == scause
  {
    if scause & INTERRUPT_BIT != 0 then
      match scause & 0x7FFF_FFFF_FFFF_FFFF
      case 1 => SupervisorSoftwareInterrupt
      case 5 => SupervisorTimerInterrupt
      case 9 => SupervisorExternalInterrupt
      case _ => Unknown(scause)
    else
      match scause
      case 12 => InstructionPageFault
      case 13 => LoadPageFault
      case 15 => StorePageFault
      case 8 => EnvironmentCallFromUMode
      case 9 => EnvironmentCallFromSMode
      case 1 => InstructionAccessFault
      case _ => Unknown(scause)
  }

  /** The `scause` value the hardware reports for a named cause. */
  function ScauseOf(c: ExceptionCause): (scause: bv64)
    requires !c.Unknown?
  {
    match c
    case InstructionPageFault => 12
    case LoadPageFault => 13
    case StorePageFault => 15
    case EnvironmentCallFromUMode => 8
    case EnvironmentCallFromSMode => 9
    case InstructionAccessFault => 1
    case SupervisorSoftwareInterrupt => INTERRUPT_BIT | 1
    case SupervisorTimerInterrupt => INTERRUPT_BIT | 5
    case SupervisorExternalInterrupt => INTERRUPT_BIT | 9
  }

  /** Decoding inverts the hardware encoding of every named cause. */
  lemma DecodeEncode(c: ExceptionCause)
    requires !c.Unknown?
    ensures FromScause(ScauseOf(c)) == c
  {
  }

  /** The low codes 1 and 9 mean different causes depending on bit 63. */
  lemma InterruptBitMatters()
    ensures FromScause(1) == InstructionAccessFault && FromScause(INTERRUPT_BIT | 1) == SupervisorSoftwareInterrupt
    ensures FromScause(9) == EnvironmentCallFromSMode && FromScause(INTERRUPT_BIT | 9) == SupervisorExternalInterrupt
  {
  }

  /** The saved state: x1..x31 and the supervisor CSRs. */
  datatype ExceptionContext = ExceptionContext(gpr: seq<bv64>, scause: bv64, sepc: bv64, stval: bv64, sstatus: bv64)

  /** `handle_interrupt`: acknowledges nothing in this model and leaves the context as it was. */
  function HandleInterrupt(context: ExceptionContext, cause: ExceptionCause): (ctx: ExceptionContext)
    ensures ctx == context
  {
    match cause
    case SupervisorTimerInterrupt => context
    case SupervisorExternalInterrupt => context
    case _ => context
  }

  /**
   * `generic_trap_handler`: interrupts return with the context unchanged,
   * environment calls return with SEPC moved past the 4-byte `ecall` and
   * nothing else changed, and every other cause panics.
   */
  function TrapHandler(context: ExceptionContext): (o: Outcome<ExceptionContext>)
    ensures var c := FromScause(context.scause);
            o.Resume? <==> c.IsInterrupt() || c.IsEnvironmentCall()
    ensures FromScause(context.scause).IsInterrupt() ==> o == Resume(context)
    ensures FromScause(context.scause).IsEnvironmentCall() ==>
              o == Resume(context.(sepc := context.sepc + 4))
  {
    var cause := FromScause(context.scause);
    if cause.IsInterrupt() then Resume(HandleInterrupt(context, cause))
    else if cause.IsPageFault() then Panic
    else if cause.IsEnvironmentCall() then Resume(context.(sepc := context.sepc + 4))
    else Panic
  }

  /** Returning from an environment call resumes exactly one instruction later. */
  lemma EnvironmentCallAdvancesOnce(context: ExceptionContext)
    requires FromScause(context.scause).IsEnvironmentCall()
    ensures TrapHandler(context).Resume?
    ensures TrapHandler(context).ctx.sepc - context.sepc == 4
    ensures TrapHandler(context).ctx.(sepc := context.sepc) == context
  {
  }
}
