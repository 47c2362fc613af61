/**
 * PowerPC 64 exception handling: classification of the vector offset the
 * assembly stub passes in, and the Rust handler that updates the saved
 * context.
 *
 * A handler that returns hands back the updated context; one that panics
 * never returns. `srr0 += 4` wraps modulo 2^64 here.
 */
module ExceptionPowerpc64 {
  import opened Prelude

  datatype ExceptionType =
    | Mcp | SysSoftTrap | ExternalInt | DataStorage | InstructionStorage | Syscall | ProgramInt
    | Unknown
  {
    /** The vector offset each named type is declared with. */
    function Offset(): bv64
      requires !Unknown?
    {
      match this
      case Mcp => 0x100
      case SysSoftTrap => 0x200
      case ExternalInt => 0x300
      case DataStorage => 0x500
      case InstructionStorage => 0x600
      case Syscall => 0xC00
      case ProgramInt => 0xD00
    }
  }

  /** The classification at the top of `generic_exception_handler`; 0x200 is not among the offsets it names. */
  function Classify(vectorOffset: bv64): (t: ExceptionType)
    ensures t.Unknown? <==> vectorOffset !in {0x100, 0x300, 0x500, 0x600, 0xC00, 0xD00}
    ensures t != SysSoftTrap
  {
    match vectorOffset
    case 0x100 => Mcp
    case 0x300 => ExternalInt
    case 0x500 => DataStorage
    case 0x600 => InstructionStorage
    case 0xC00 => Syscall
    case 0xD00 => ProgramInt
    case _ => Unknown
  }

  /** Every type but the system software trap is recognised at its own offset; that one is classified unknown. */
  lemma ClassifyOffset(t: ExceptionType)
    requires !t.Unknown?
    ensures t != SysSoftTrap ==> Classify(t.Offset()) == t
    ensures t == SysSoftTrap ==> Classify(t.Offset()) == Unknown
  {
  }

  /** The saved state. */
  datatype ExceptionContext = ExceptionContext(
    gpr: seq<bv64>, srr0: bv64, srr1: bv64, xer: bv64, ctr: bv64, lr: bv64, dar: bv64, dsisr: bv64, sp: bv64)

  /** `handle_interrupt`: changes nothing. */
  function HandleInterrupt(context: ExceptionContext): (ctx: ExceptionContext)
    ensures ctx == context
  {
    context
  }

  /**
   * `generic_exception_handler`: an external interrupt returns unchanged, a
   * system call returns with SRR0 past the 4-byte `sc` and nothing else
   * changed, storage faults and every other type panic.
   */
  function ExceptionHandler(vectorOffset: bv64, context: ExceptionContext): (o: Outcome<ExceptionContext>)
    ensures o.Resume? <==> vectorOffset == 0x300 || vectorOffset == 0xC00
    ensures vectorOffset == 0x300 ==> o == Resume(context)
    ensures vectorOffset == 0xC00 ==> o == Resume(context.(srr0 := context.srr0 + 4))
  {
    var cause := Classify(vectorOffset);
    match cause
    case ExternalInt => Resume(HandleInterrupt(context))
    case DataStorage => Panic
    case InstructionStorage => Panic
    case Syscall => Resume(context.(srr0 := context.srr0 + 4))
    case _ => Panic
  }

  /** A system call resumes at the next instruction, and only SRR0 changes. */
  lemma SyscallAdvances(context: ExceptionContext)
    ensures ExceptionHandler(0xC00, context).Resume?
    ensures ExceptionHandler(0xC00, context).ctx.srr0 - context.srr0 == 4
    ensures ExceptionHandler(0xC00, context).ctx.(srr0 := context.srr0) == context
  {
  }
}
