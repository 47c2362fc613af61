/**
 * x86-64 interrupt descriptor table (IDT): 16-byte gate descriptors that
 * split a handler address over three fields, the 256-entry table the
 * kernel fills at boot, the `lidt` operand, and the Rust-level handlers
 * the assembly stubs call.
 *
 * The addresses of the assembly stubs are link-time values, so they are
 * parameters here.
 */
module ExceptionAmd64 {
  import opened Prelude

  /** One gate descriptor, field by field as laid out in memory. */
  datatype IdtEntry = IdtEntry(
    offsetLow: bv16,
    segmentSelector: bv16,
    ist: bv8,
    attributes: bv8,
    offsetMiddle: bv16,
    offsetHigh: bv32,
    reserved: bv32)

  const IDT_ENTRIES: nat := 256
  const IDT_ENTRY_SIZE: nat := 16

  const KERNEL_CODE_SEGMENT: bv16 := 0x8
  const INTERRUPT_GATE_ATTR: bv8 := 0x8E

  /** `IdtEntry::new`: every field zero. */
  function EmptyEntry(): IdtEntry
  {
    IdtEntry(0, 0, 0, 0, 0, 0, 0)
  }

  /** The handler address a descriptor encodes: the three offset fields put back together. */
  function HandlerAddress(e: IdtEntry): bv64
  {
    ((e.offsetHigh as bv64) << 32) | ((e.offsetMiddle as bv64) << 16) | (e.offsetLow as bv64)
  }

  /**
   * `set_handler`: the descriptor for `handler` with the given selector and
   * attributes. Bits 0..15, 16..31 and 32..63 of the address go to the
   * three offset fields, so the address is recovered exactly; the IST
   * index and the reserved word are zero.
   */
  function GateEntry(handler: bv64, selector: bv16, attributes: bv8): (e: IdtEntry)
    ensures HandlerAddress(e) == handler
    ensures e.segmentSelector == selector && e.attributes == attributes
    ensures e.ist == 0 && e.reserved == 0
  {
    IdtEntry(
      (handler & 0xFFFF) as bv16,
      selector,
      0,
      attributes,
      ((handler >> 16) & 0xFFFF) as bv16,
      (handler >> 32) as bv32,
      0)
  }

  /** The addresses of the assembly entry stubs the kernel installs. */
  datatype Stubs = Stubs(
    divideByZero: bv64,
    invalidOpcode: bv64,
    doubleFault: bv64,
    generalProtection: bv64,
    pageFault: bv64,
    timer: bv64,
    keyboard: bv64)

  /** The stub `init` installs at vector `v`, if any: vectors 0, 6, 8, 13, 14, 32 and 33. */
  function InstalledStub(stubs: Stubs, v: nat): (stub: Option<bv64>)
    ensures stub.Some? <==> v in {0, 6, 8, 13, 14, 32, 33}
  {
    if v == 0 then Some(stubs.divideByZero)
    else if v == 6 then Some(stubs.invalidOpcode)
    else if v == 8 then Some(stubs.doubleFault)
    else if v == 13 then Some(stubs.generalProtection)
    else if v == 14 then Some(stubs.pageFault)
    else if v == 32 then Some(stubs.timer)
    else if v == 33 then Some(stubs.keyboard)
    else None
  }

  /** The descriptor `init` leaves at vector `v` when it started from `before`. */
  function InitEntry(stubs: Stubs, v: nat, before: IdtEntry): IdtEntry
  {
    match InstalledStub(stubs, v)
    case Some(stub) => GateEntry(stub, KERNEL_CODE_SEGMENT, INTERRUPT_GATE_ATTR)
    case None => before
  }

  /**
   * Starting from `Idt::new`, `init` gives exactly the seven installed
   * vectors a present 64-bit interrupt gate (attributes 0x8E) in the kernel
   * code segment that leads to its stub; every other descriptor stays zero.
   */
  lemma InitFromEmpty(stubs: Stubs, v: nat)
    ensures InstalledStub(stubs, v).Some? ==>
              var e := InitEntry(stubs, v, EmptyEntry());
              HandlerAddress(e) == InstalledStub(stubs, v).value && e.segmentSelector == 0x8 &&
              e.attributes == 0x8E && e.ist == 0 && e.reserved == 0
    ensures InstalledStub(stubs, v).None? ==> InitEntry(stubs, v, EmptyEntry()) == EmptyEntry()
  {
  }

  /** The static IDT. */
  class Idt {
    var entries: array<IdtEntry>

    /** `Idt::new`: 256 empty descriptors. */
    constructor ()
      ensures fresh(entries) && entries.Length == IDT_ENTRIES
      ensures forall v :: 0 <= v < entries.Length ==> entries[v] == EmptyEntry()
    {
      entries := new IdtEntry[256](_ => EmptyEntry());
    }

    /** `entries[v].set_handler(handler, selector, attributes)`: only descriptor `v` changes. */
    method SetHandler(v: nat, handler: bv64, selector: bv16, attributes: bv8)
      requires v < entries.Length
      modifies entries
      ensures entries[v] == GateEntry(handler, selector, attributes)
      ensures forall u :: 0 <= u < entries.Length && u != v ==> entries[u] == old(entries[u])
    {
      entries[v] := GateEntry(handler, selector, attributes);
    }

    /** `Idt::init`: installs the seven stubs; every other descriptor is left as it was. */
    method Init(stubs: Stubs)
      requires entries.Length == IDT_ENTRIES
      modifies entries
      ensures forall v :: 0 <= v < entries.Length ==> entries[v] == InitEntry(stubs, v, old(entries[v]))
    {
      SetHandler(0, stubs.divideByZero, KERNEL_CODE_SEGMENT, INTERRUPT_GATE_ATTR);
      SetHandler(6, stubs.invalidOpcode, KERNEL_CODE_SEGMENT, INTERRUPT_GATE_ATTR);
      SetHandler(8, stubs.doubleFault, KERNEL_CODE_SEGMENT, 0x8E);
      SetHandler(13, stubs.generalProtection, KERNEL_CODE_SEGMENT, INTERRUPT_GATE_ATTR);
      SetHandler(14, stubs.pageFault, KERNEL_CODE_SEGMENT, INTERRUPT_GATE_ATTR);
      SetHandler(32, stubs.timer, KERNEL_CODE_SEGMENT, INTERRUPT_GATE_ATTR);
      SetHandler(33, stubs.keyboard, KERNEL_CODE_SEGMENT, INTERRUPT_GATE_ATTR);
    }
  }

  /** The `lidt` operand. */
  datatype IdtPointer = IdtPointer(limit: bv16, base: bv64)

  /**
   * `load_idt`: the limit is the size of the table in bytes minus one, so
   * it names the last byte of the 256th descriptor; the base is the table's
   * address.
   */
  function LoadIdtPointer(base: bv64): (p: IdtPointer)
    ensures p.limit as int + 1 == IDT_ENTRIES * IDT_ENTRY_SIZE
    ensures p.base == base
  {
    IdtPointer(256 * 16 - 1, base)
  }

  /** The frame the CPU pushes on an exception. */
  datatype ExceptionContext = ExceptionContext(
    instructionPointer: bv64,
    codeSegment: bv64,
    cpuFlags: bv64,
    stackPointer: bv64,
    stackSegment: bv64)

  /** `generic_exception_handler`: reports the vector, then panics for every vector. */
  function ExceptionHandler(vector: bv64, context: ExceptionContext): (o: Outcome<ExceptionContext>)
    ensures o.Panic?
  {
    Panic
  }

  /** `generic_exception_handler_with_error`: panics for every vector and error code. */
  function ExceptionHandlerWithError(vector: bv64, errorCode: bv64, context: ExceptionContext): (o: Outcome<ExceptionContext>)
    ensures o.Panic?
  {
    Panic
  }

  datatype IrqKind = Timer | Keyboard | UnknownIrq

  /** Vector 32 is the timer, 33 the keyboard. */
  function ClassifyIrq(vector: bv64): (k: IrqKind)
    ensures k == Timer <==> vector == 32
    ensures k == Keyboard <==> vector == 33
  {
    match vector
    case 32 => Timer
    case 33 => Keyboard
    case _ => UnknownIrq
  }

  /** `generic_interrupt_handler`: returns for every vector and leaves the context alone. */
  function InterruptHandler(vector: bv64, context: ExceptionContext): (o: Outcome<ExceptionContext>)
    ensures o == Resume(context)
  {
    match ClassifyIrq(vector)
    case Timer => Resume(context)
    case Keyboard => Resume(context)
    case UnknownIrq => Resume(context)
  }
}
