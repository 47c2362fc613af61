/**
 * OpenRISC 64 exception handling: the 3-bit trap type read out of the
 * saved trap register (TSR, bits 1..3), its decoding, and the Rust handler
 * the common assembly entry calls with the saved context.
 *
 * A handler that returns hands back the updated context; one that panics
 * never returns. `epcr += 4` wraps modulo 2^64 here.
 */
module ExceptionOpenrisc64 {
  import opened Prelude

  datatype ExceptionCause =
    | Int | Trap | TlbMissLoad | TlbMissStore | TlbProtection
    | AddrInvalid | InstFault | DataFault
    | Unknown
  {
    function Code(): bv64
      requires !Unknown?
    {
      match this
      case Int => 0
      case Trap => 1
      case TlbMissLoad => 2
      case TlbMissStore => 3
      case TlbProtection => 4
      case AddrInvalid => 5
      case InstFault => 6
      case DataFault => 7
    }
  }

  /** `From<u64>`: the low three bits select one of the eight causes. */
  function FromCode(val: bv64): (c: ExceptionCause)
    ensures !c.Unknown?
    ensures c.Code() == val & 0x7
  {
    match val & 0x07
    case 0 => Int
    case 1 => Trap
    case 2 => TlbMissLoad
    case 3 => TlbMissStore
    case 4 => TlbProtection
    case 5 => AddrInvalid
    case 6 => InstFault
    case 7 => DataFault
    case _ => Unknown
  }

  /** Decoding inverts the discriminants. */
  lemma DecodeCode(c: ExceptionCause)
    requires !c.Unknown?
    ensures FromCode(c.Code()) == c
  {
  }

  /** The saved state: r1..r31 and the exception registers. */
  datatype ExceptionContext = ExceptionContext(gpr: seq<bv64>, epcr: bv64, eear: bv64, esr: bv64, tsr: bv64, srr: bv64)

  /** The trap type the handler extracts: TSR bits 1..3. */
  function TrapType(context: ExceptionContext): (code: bv64)
    ensures code < 8
    ensures code << 1 == context.tsr & 0xE
  {
    (context.tsr >> 1) & 0x7
  }

  /** `handle_interrupt`: changes nothing. */
  function HandleInterrupt(context: ExceptionContext): (ctx: ExceptionContext)
    ensures ctx == context
  {
    context
  }

  /**
   * `generic_exception_handler`: an interrupt returns unchanged, a trap
   * returns with EPCR past the 4-byte instruction and nothing else changed;
   * the TLB causes and the other faults panic.
   */
  function ExceptionHandler(context: ExceptionContext): (o: Outcome<ExceptionContext>)
    ensures o.Resume? <==> FromCode(TrapType(context)) in {Int, Trap}
    ensures FromCode(TrapType(context)) == Int ==> o == Resume(context)
    ensures FromCode(TrapType(context)) == Trap ==> o == Resume(context.(epcr := context.epcr + 4))
  {
    var cause := FromCode(TrapType(context));
    match cause
    case Int => Resume(HandleInterrupt(context))
    case TlbMissLoad => Panic
    case TlbMissStore => Panic
    case TlbProtection => Panic
    case Trap => Resume(context.(epcr := context.epcr + 4))
    case _ => Panic
  }

  /** A trap resumes at the next instruction, and only EPCR changes. */
  lemma TrapAdvances(context: ExceptionContext)
    requires FromCode(TrapType(context)) == Trap
    ensures ExceptionHandler(context).Resume?
    ensures ExceptionHandler(context).ctx.epcr - context.epcr == 4
    ensures ExceptionHandler(context).ctx.(epcr := context.epcr) == context
  {
  }
}
