/**
 * ARMv9 exception vectors and handlers: the table VBAR_EL1 points at (four
 * groups of four slots: synchronous, IRQ, FIQ, SError), the decoding of the
 * exception class out of ESR_EL1, and the Rust-level handlers.
 *
 * The addresses of the assembly vector stubs are link-time values, so they
 * are parameters here.
 */
module ExceptionArmv9 {
  import opened Prelude

  /** Slot order inside a group. */
  const SYNC: nat := 0
  const IRQ: nat := 1
  const FIQ: nat := 2
  const SERROR: nat := 3

  /** The addresses of the six assembly stubs `init` installs. */
  datatype Stubs = Stubs(
    syncSp0: bv64, irqSp0: bv64,
    syncSpx: bv64, irqSpx: bv64,
    syncLowerAarch64: bv64, irqLowerAarch64: bv64)

  /** The static vector table: four groups of four handler addresses, zero in the static initializer. */
  class VectorTable {
    var currentElSp0: array<bv64>
    var currentElSpx: array<bv64>
    var lowerElAarch64: array<bv64>
    var lowerElAarch32: array<bv64>

    /** The four groups are distinct arrays of four slots. */
    predicate Valid()
      reads this
    {
      && currentElSp0.Length == 4 && currentElSpx.Length == 4
      && lowerElAarch64.Length == 4 && lowerElAarch32.Length == 4
      && currentElSp0 != currentElSpx && currentElSp0 != lowerElAarch64 && currentElSp0 != lowerElAarch32
      && currentElSpx != lowerElAarch64 && currentElSpx != lowerElAarch32
      && lowerElAarch64 != lowerElAarch32
    }

    /** The static initializer: every slot of every group is zero. */
    constructor ()
      ensures Valid() && fresh(currentElSp0) && fresh(currentElSpx) && fresh(lowerElAarch64) && fresh(lowerElAarch32)
      ensures currentElSp0[..] == [0, 0, 0, 0] && currentElSpx[..] == [0, 0, 0, 0]
      ensures lowerElAarch64[..] == [0, 0, 0, 0] && lowerElAarch32[..] == [0, 0, 0, 0]
    {
      currentElSp0 := new bv64[4](_ => 0);
      currentElSpx := new bv64[4](_ => 0);
      lowerElAarch64 := new bv64[4](_ => 0);
      lowerElAarch32 := new bv64[4](_ => 0);
    }

    /**
     * `VectorTable::init`: in each of the first three groups the synchronous
     * and IRQ slots get their stub and the FIQ and SError slots are zeroed;
     * the AArch32 group is not touched.
     */
    method Init(stubs: Stubs)
      requires Valid()
      modifies currentElSp0, currentElSpx, lowerElAarch64
      ensures Valid()
      ensures currentElSp0[..] == [stubs.syncSp0, stubs.irqSp0, 0, 0]
      ensures currentElSpx[..] == [stubs.syncSpx, stubs.irqSpx, 0, 0]
      ensures lowerElAarch64[..] == [stubs.syncLowerAarch64, stubs.irqLowerAarch64, 0, 0]
      ensures lowerElAarch32[..] == old(lowerElAarch32[..])
    {
      SetGroup(currentElSp0, stubs.syncSp0, stubs.irqSp0);
      SetGroup(currentElSpx, stubs.syncSpx, stubs.irqSpx);
      SetGroup(lowerElAarch64, stubs.syncLowerAarch64, stubs.irqLowerAarch64);
    }
  }

  /** The four assignments `init` makes to one group: the two stubs, then zero for FIQ and SError. */
  method SetGroup(group: array<bv64>, sync: bv64, irq: bv64)
    requires group.Length == 4
    modifies group
    ensures group[..] == [sync, irq, 0, 0]
  {
    group[SYNC] := sync;
    group[IRQ] := irq;
    group[FIQ] := 0;
    group[SERROR] := 0;
  }

  /** The registers saved on exception entry that the handlers look at. */
  datatype ExceptionContext = ExceptionContext(elrEl1: bv64, spsrEl1: bv64)

  /** ESR_EL1 bits 26..31: the exception class, always one of 64 values. */
  function ExceptionClass(esr: bv64): (ec: bv64)
    ensures ec < 64
    ensures ec << 26 == esr & 0xFC00_0000
  {
    (esr >> 26) & 0x3F
  }

  datatype SyncKind = DataAbort | InstructionAbort | Svc | UnknownClass(ec: bv64)

  /** Class 0x21 is a data abort, 0x20 an instruction abort, 0x15 an SVC; every other class is unknown. */
  function ClassifySync(ec: bv64): (k: SyncKind)
    ensures k == DataAbort <==> ec == 0x21
    ensures k == InstructionAbort <==> ec == 0x20
    ensures k == Svc <==> ec == 0x15
    ensures k.UnknownClass? ==> k.ec == ec
  {
    match ec
    case 0x21 => DataAbort
    case 0x20 => InstructionAbort
    case 0x15 => Svc
    case _ => UnknownClass(ec)
  }

  /** `generic_sync_handler`: reports the class and panics, whatever the syndrome. */
  function SyncHandler(esr: bv64, context: ExceptionContext): (o: Outcome<ExceptionContext>)
    ensures o.Panic?
  {
    match ClassifySync(ExceptionClass(esr))
    case DataAbort => Panic
    case InstructionAbort => Panic
    case Svc => Panic
    case UnknownClass(_) => Panic
  }

  /** `generic_irq_handler`: returns and changes nothing. */
  function IrqHandler(context: ExceptionContext): (o: Outcome<ExceptionContext>)
    ensures o == Resume(context)
  {
    Resume(context)
  }
}
