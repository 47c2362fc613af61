/**
 * SPARC V9 trap handling: the trap vector offset computed from the trap
 * identifier the assembly stub passes in, its classification, and the
 * Rust handler that updates the saved context.
 *
 * `trap_id * 0x40` is a 64-bit multiplication; modulo 2^64 it is a left
 * shift by 6, which is how it is written here. A handler that returns
 * hands back the updated context; one that panics never returns.
 */
module ExceptionSparcv9 {
  import opened Prelude

  datatype TrapType = Reset | InstructionAccessException | Syscall | DataAccessException | Interrupt | Unknown

  /** The vector offset of trap `trapId`: 0x40 bytes per vector. */
  function TrapOffset(trapId: bv64): (offset: bv64)
    ensures offset & 0x3F == 0
  {
    trapId << 6
  }

  /** The offset classification of `generic_trap_handler`: 0x00, 0x40, 0x80, 0x100 and 0x60 are named. */
  function ClassifyOffset(offset: bv64): (t: TrapType)
    ensures t.Unknown? <==> offset !in {0x00, 0x40, 0x80, 0x100, 0x60}
    ensures t == Syscall <==> offset == 0x60
  {
    match offset
    case 0x00 => Reset
    case 0x40 => InstructionAccessException
    case 0x80 => DataAccessException
    case 0x100 => Interrupt
    case 0x60 => Syscall
    case _ => Unknown
  }

  /** The cause `generic_trap_handler` acts on. */
  function Classify(trapId: bv64): TrapType
  {
    ClassifyOffset(TrapOffset(trapId))
  }

  /** Trap ids 0, 1, 2 and 4 select Reset, the instruction and data access exceptions, and Interrupt. */
  lemma ClassifyNamedIds()
    ensures Classify(0) == Reset && Classify(1) == InstructionAccessException
    ensures Classify(2) == DataAccessException && Classify(4) == Interrupt
  {
  }

  /** No trap id selects Syscall: every offset is a multiple of 0x40 and 0x60 is not. */
  lemma SyscallUnreachable(trapId: bv64)
    ensures Classify(trapId) != Syscall
  {
    assert TrapOffset(trapId) & 0x3F == 0;
  }

  /** The saved state: the global and out registers and the trap registers. */
  datatype ExceptionContext = ExceptionContext(
    gprG: seq<bv64>, gprO: seq<bv64>, tstate: bv64, tba: bv64, tpc: bv64, tnpc: bv64, canRestore: bv64)

  /** The system call branch: resume at the instruction after the trapping one. */
  function CompleteSyscall(context: ExceptionContext): (ctx: ExceptionContext)
    ensures ctx.tpc == context.tnpc
    ensures ctx.(tpc := context.tpc) == context
  {
    context.(tpc := context.tnpc)
  }

  /** `handle_interrupt`: changes nothing. */
  function HandleInterrupt(context: ExceptionContext): (ctx: ExceptionContext)
    ensures ctx == context
  {
    context
  }

  /**
   * `generic_trap_handler`: an interrupt returns with the context
   * unchanged; access exceptions, Reset and unknown traps panic. Since no
   * trap id reaches the system call branch, the handler returns for
   * interrupts only.
   */
  function TrapHandler(trapId: bv64, context: ExceptionContext): (o: Outcome<ExceptionContext>)
    ensures o.Resume? <==> Classify(trapId) == Interrupt
    ensures o.Resume? ==> o.ctx == context
  {
    SyscallUnreachable(trapId);
    match Classify(trapId)
    case Interrupt => Resume(HandleInterrupt(context))
    case InstructionAccessException => Panic
    case DataAccessException => Panic
    case Syscall => Resume(CompleteSyscall(context))
    case _ => Panic
  }
}
