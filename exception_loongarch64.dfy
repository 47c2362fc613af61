/**
 * LoongArch 64 exception handling: the 5-bit exception code of CSR.ESTAT
 * (called `csr_cause` in the saved context, bits 2..6 as the code reads
 * it), its decoding, and the Rust handler the common assembly entry calls.
 *
 * A handler that returns hands back the updated context; one that panics
 * never returns.
 */
module ExceptionLoongarch64 {
  import opened Prelude

  datatype ExceptionCause =
    | Int | TlbRefill | TlbInvalid | TlbModified
    | LoadPageFault | StorePageFault | InstPageFault | AddrInvalid
    | Syscall | Breakpoint | InstrInvalid | FpDisabled
    | Unknown
  {
    /** The discriminant of each named cause. */
    function Code(): bv64
      requires !Unknown?
    {
      match this
      case Int => 0
      case TlbRefill => 1
      case TlbInvalid => 2
      case TlbModified => 3
      case LoadPageFault => 4
      case StorePageFault => 5
      case InstPageFault => 6
      case AddrInvalid => 7
      case Syscall => 11
      case Breakpoint => 12
      case InstrInvalid => 14
      case FpDisabled => 18
    }
  }

  /** `From<u64>`: the low five bits select the cause; codes without a name are `Unknown`. */
  function FromCode(val: bv64): (c: ExceptionCause)
    ensures c == FromCode(val & 0x1F)
    ensures c.Unknown? <==> val & 0x1F !in {0, 1, 2, 3, 4, 5, 6, 7, 11, 12, 14, 18}
  {
    match val & 0x1F
    case 0 => Int
    case 1 => TlbRefill
    case 2 => TlbInvalid
    case 3 => TlbModified
    case 4 => LoadPageFault
    case 5 => StorePageFault
    case 6 => InstPageFault
    case 7 => AddrInvalid
    case 11 => Syscall
    case 12 => Breakpoint
    case 14 => InstrInvalid
    case 18 => FpDisabled
    case _ => Unknown
  }

  /** Decoding inverts the discriminants. */
  lemma DecodeCode(c: ExceptionCause)
    requires !c.Unknown?
    ensures FromCode(c.Code()) == c
  {
  }

  /** The saved state: r1..r31 and the exception CSRs. */
  datatype ExceptionContext = ExceptionContext(
    gpr: seq<bv64>, csrEra: bv64, csrBadv: bv64, csrCause: bv64, csrPrid: bv64, csrStatus: bv64)

  /** The code the handler extracts: bits 2..6 of the cause CSR. */
  function CauseCode(context: ExceptionContext): (code: bv64)
    ensures code < 32
    ensures code << 2 == context.csrCause & 0x7C
  {
    (context.csrCause >> 2) & 0x1F
  }

  /** The interrupt lines `handle_interrupt` considers pending: those set both in the status word and in cause bits 10 and up. */
  function PendingInterrupts(context: ExceptionContext): (pending: bv64)
    ensures pending & !context.csrStatus == 0
    ensures pending & !(context.csrCause >> 10) == 0
    ensures (context.csrStatus & (context.csrCause >> 10)) & !pending == 0
  {
    context.csrStatus & (context.csrCause >> 10)
  }

  /** `handle_interrupt`: looks at the pending set (logging when it is empty) and changes nothing. */
  function HandleInterrupt(context: ExceptionContext): (ctx: ExceptionContext)
    ensures ctx == context
  {
    if PendingInterrupts(context) != 0 then context else context
  }

  /**
   * `generic_exception_handler` as written: interrupts and system calls
   * return, page faults and every other cause (the TLB causes included)
   * panic. The system call path returns with ERA unchanged, because the
   * line advancing it is commented out.
   */
  function ExceptionHandlerAsWritten(context: ExceptionContext): (o: Outcome<ExceptionContext>)
    ensures o.Resume? <==> FromCode(CauseCode(context)) in {Int, Syscall}
    ensures o.Resume? ==> o.ctx == context
  {
    var cause := FromCode(CauseCode(context));
    match cause
    case Int => Resume(HandleInterrupt(context))
    case InstPageFault => Panic
    case LoadPageFault => Panic
    case StorePageFault => Panic
    case Syscall => Resume(context)
    case _ => Panic
  }

  /**
   * As written, returning from a system call resumes at the `syscall`
   * instruction itself with the same cause, so the handler runs again on
   * the same state: the call never completes.
   */
  lemma AsWrittenSyscallRepeats(context: ExceptionContext)
    requires FromCode(CauseCode(context)) == Syscall
    ensures ExceptionHandlerAsWritten(context) == Resume(context)
    ensures ExceptionHandlerAsWritten(ExceptionHandlerAsWritten(context).ctx) == Resume(context)
  {
  }

  /** `generic_exception_handler` with the intended ERA advance past the 4-byte `syscall`. */
  function ExceptionHandler(context: ExceptionContext): (o: Outcome<ExceptionContext>)
    ensures o.Resume? <==> FromCode(CauseCode(context)) in {Int, Syscall}
    ensures FromCode(CauseCode(context)) == Int ==> o == Resume(context)
    ensures FromCode(CauseCode(context)) == Syscall ==> o == Resume(context.(csrEra := context.csrEra + 4))
  {
    var cause := FromCode(CauseCode(context));
    match cause
    case Int => Resume(HandleInterrupt(context))
    case InstPageFault => Panic
    case LoadPageFault => Panic
    case StorePageFault => Panic
    case Syscall => Resume(context.(csrEra := context.csrEra + 4))
    case _ => Panic
  }

  /** With the advance, a system call resumes at the next instruction and nothing else changes. */
  lemma SyscallAdvances(context: ExceptionContext)
    requires FromCode(CauseCode(context)) == Syscall
    ensures ExceptionHandler(context).Resume?
    ensures ExceptionHandler(context).ctx.csrEra != context.csrEra
    ensures ExceptionHandler(context).ctx.csrEra - context.csrEra == 4
    ensures ExceptionHandler(context).ctx.(csrEra := context.csrEra) == context
  {
  }
}
