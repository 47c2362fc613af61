/**
 * MIPS64 exception handling: decoding of the ExcCode field (bits 2..6) of
 * the CP0 Cause register, and the Rust handler the common assembly entry
 * calls with the saved context.
 *
 * A handler that returns hands back the updated context; one that panics
 * never returns. `cp0_epc += 4` wraps modulo 2^64 here.
 */
module ExceptionMips64 {
  import opened Prelude

  datatype ExceptionCause =
    | Int | TlbMod | TlbLoad | TlbStore | AddrLoad | AddrStore
    | BusInstr | BusData | Syscall | Breakpoint
    | Unknown
  {
    /** The ExcCode of each named cause. */
    function Code(): bv64
      requires !Unknown?
    {
      match this
      case Int => 0
      case TlbMod => 1
      case TlbLoad => 2
      case TlbStore => 3
      case AddrLoad => 4
      case AddrStore => 5
      case BusInstr => 6
      case BusData => 7
      case Syscall => 8
      case Breakpoint => 9
    }
  }

  /** `From<u64>`: the raw Cause value is shifted right by 2 and masked to five bits; codes 0..9 are named. */
  function FromCause(val: bv64): (c: ExceptionCause)
    ensures c.Unknown? <==> (val >> 2) & 0x1F > 9
  {
    match (val >> 2) & 0x1F
    case 0 => Int
    case 1 => TlbMod
    case 2 => TlbLoad
    case 3 => TlbStore
    case 4 => AddrLoad
    case 5 => AddrStore
    case 6 => BusInstr
    case 7 => BusData
    case 8 => Syscall
    case 9 => Breakpoint
    case _ => Unknown
  }

  /** A Cause register holding the code of a named cause in bits 2..6 decodes to that cause, whatever the other bits. */
  lemma DecodeCause(c: ExceptionCause, other: bv64)
    requires !c.Unknown?
    ensures FromCause((c.Code() << 2) | (other & !0x7C)) == c
  {
  }

  /** The saved state: the general registers and the CP0 registers. */
  datatype ExceptionContext = ExceptionContext(
    gpr: seq<bv64>, cp0Epc: bv64, cp0BadVAddr: bv64, cp0Cause: bv64, cp0Status: bv64)

  /** The interrupts `handle_interrupt` sees as active: Cause.IP (bits 8..15) masked by Status.IM (bits 8..15). */
  function ActiveInterrupts(context: ExceptionContext): (active: bv64)
    ensures active < 0x100
    ensures active << 8 == context.cp0Cause & context.cp0Status & 0xFF00
  {
    ((context.cp0Cause >> 8) & 0xFF) & ((context.cp0Status >> 8) & 0xFF)
  }

  /** `handle_interrupt`: looks at the active set and changes nothing. */
  function HandleInterrupt(context: ExceptionContext): (ctx: ExceptionContext)
    ensures ctx == context
  {
    if ActiveInterrupts(context) != 0 then context else context
  }

  /**
   * `generic_exception_handler`: the raw Cause register is decoded once;
   * interrupts return unchanged, a system call returns with EPC past the
   * 4-byte `syscall` and nothing else changed, the TLB causes and every
   * other cause panic.
   */
  function ExceptionHandler(context: ExceptionContext): (o: Outcome<ExceptionContext>)
    ensures o.Resume? <==> FromCause(context.cp0Cause) in {Int, Syscall}
    ensures FromCause(context.cp0Cause) == Int ==> o == Resume(context)
    ensures FromCause(context.cp0Cause) == Syscall ==> o == Resume(context.(cp0Epc := context.cp0Epc + 4))
  {
    var cause := FromCause(context.cp0Cause);
    match cause
    case Int => Resume(HandleInterrupt(context))
    case TlbLoad => Panic
    case TlbStore => Panic
    case TlbMod => Panic
    case Syscall => Resume(context.(cp0Epc := context.cp0Epc + 4))
    case _ => Panic
  }

  /** A system call resumes at the next instruction, and only EPC changes. */
  lemma SyscallAdvances(context: ExceptionContext)
    requires FromCause(context.cp0Cause) == Syscall
    ensures ExceptionHandler(context).Resume?
    ensures ExceptionHandler(context).ctx.cp0Epc - context.cp0Epc == 4
    ensures ExceptionHandler(context).ctx.(cp0Epc := context.cp0Epc) == context
  {
  }
}
