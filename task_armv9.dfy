/**
 * The ARMv9 task context and the store/load halves of `switch_context`.
 *
 * `TaskContext` is a `repr(C)` struct of fourteen `u64` fields, so field k
 * (in declaration order) occupies the 8-byte slot at byte offset 8 k. A
 * context in memory is an array of those slots. The save half stores the
 * running task's callee-saved registers into the old context at the
 * offsets written in the assembly; the load half reads the new context at
 * its offsets and branches to the value of its `pc` slot. The contracts
 * check those offsets against the field layout.
 */
module TaskArmv9 {
  import opened Prelude

  /** Number of 8-byte slots in a `TaskContext`. */
  const CONTEXT_SLOTS: nat := 14

  /** The `TaskContext` fields, in declaration order. */
  datatype TaskContext = TaskContext(
    x19: U64, x20: U64, x21: U64, x22: U64, x23: U64, x24: U64, x25: U64,
    x26: U64, x27: U64, x28: U64, x29: U64, x30: U64, sp: U64, pc: U64)

  /** The registers `switch_context` saves and restores: x19–x28, the frame pointer x29, the link register x30 and sp. */
  datatype Regs = Regs(
    x19: U64, x20: U64, x21: U64, x22: U64, x23: U64, x24: U64, x25: U64,
    x26: U64, x27: U64, x28: U64, x29: U64, x30: U64, sp: U64)

  /** The slot index of a byte offset. */
  function Slot(offset: nat): nat
  {
    offset / 8
  }

  /** The `repr(C)` image of a context: field k in slot k. */
  function Layout(c: TaskContext): (s: seq<U64>)
    ensures |s| == CONTEXT_SLOTS
    ensures FromLayout(s) == c
  {
    [c.x19, c.x20, c.x21, c.x22, c.x23, c.x24, c.x25, c.x26, c.x27, c.x28, c.x29, c.x30, c.sp, c.pc]
  }

  /** The context a slot image holds: slot k read as field k. */
  function FromLayout(s: seq<U64>): TaskContext
    requires |s| == CONTEXT_SLOTS
  {
    TaskContext(s[0], s[1], s[2], s[3], s[4], s[5], s[6], s[7], s[8], s[9], s[10], s[11], s[12], s[13])
  }

  /** Every slot image is the image of the context it holds. */
  lemma LayoutOfFromLayout(s: seq<U64>)
    requires |s| == CONTEXT_SLOTS
    ensures Layout(FromLayout(s)) == s
  {
    assert Layout(FromLayout(s))[..] == s[..];
  }

  /** `TaskContext::new`: sp is the stack top, pc and x30 the entry point, every other field 0. */
  function New(stackTop: U64, entryPoint: U64): (c: TaskContext)
    ensures Restored(c) == Regs(0, 0, 0, 0, 0, 0, 0, 0, 0, 0, 0, entryPoint, stackTop)
    ensures c.pc == entryPoint
  {
    TaskContext(0, 0, 0, 0, 0, 0, 0, 0, 0, 0, 0, entryPoint, stackTop, entryPoint)
  }

  /** The context the save half leaves: each register in its own field, and pc taken from x30. */
  function Saved(r: Regs): (c: TaskContext)
    ensures Restored(c) == r
    ensures c.pc == r.x30
  {
    TaskContext(r.x19, r.x20, r.x21, r.x22, r.x23, r.x24, r.x25, r.x26, r.x27, r.x28, r.x29, r.x30, r.sp, r.x30)
  }

  /** The registers the load half takes from a context. */
  function Restored(c: TaskContext): Regs
  {
    Regs(c.x19, c.x20, c.x21, c.x22, c.x23, c.x24, c.x25, c.x26, c.x27, c.x28, c.x29, c.x30, c.sp)
  }

  /** The save half: `stp` pairs at 0..80, sp at 96, x30 again at 104 (pc). */
  method Save(ctx: array<U64>, r: Regs)
    requires ctx.Length == CONTEXT_SLOTS
    modifies ctx
    ensures FromLayout(ctx[..]) == Saved(r)
  {
    ctx[Slot(0)], ctx[Slot(8)] := r.x19, r.x20;
    ctx[Slot(16)], ctx[Slot(24)] := r.x21, r.x22;
    ctx[Slot(32)], ctx[Slot(40)] := r.x23, r.x24;
    ctx[Slot(48)], ctx[Slot(56)] := r.x25, r.x26;
    ctx[Slot(64)], ctx[Slot(72)] := r.x27, r.x28;
    ctx[Slot(80)], ctx[Slot(88)] := r.x29, r.x30;
    ctx[Slot(96)] := r.sp;
    ctx[Slot(104)] := r.x30;
  }

  /** The load half: sp from 96, the `ldp` pairs from 0..80, and the branch target from 104 (pc). */
  method Load(ctx: array<U64>) returns (r: Regs, target: U64)
    requires ctx.Length == CONTEXT_SLOTS
    ensures r == Restored(FromLayout(ctx[..]))
    ensures target == FromLayout(ctx[..]).pc
  {
    var sp := ctx[Slot(96)];
    var x19, x20 := ctx[Slot(0)], ctx[Slot(8)];
    var x21, x22 := ctx[Slot(16)], ctx[Slot(24)];
    var x23, x24 := ctx[Slot(32)], ctx[Slot(40)];
    var x25, x26 := ctx[Slot(48)], ctx[Slot(56)];
    var x27, x28 := ctx[Slot(64)], ctx[Slot(72)];
    var x29, x30 := ctx[Slot(80)], ctx[Slot(88)];
    r := Regs(x19, x20, x21, x22, x23, x24, x25, x26, x27, x28, x29, x30, sp);
    target := ctx[Slot(104)];
  }

  /**
   * `switch_context`: save into `oldCtx`, then load from `newCtx` (which
   * may be the same context) and branch. Switching a context to itself
   * restores every saved register and resumes at x30.
   */
  method SwitchContext(r: Regs, oldCtx: array<U64>, newCtx: array<U64>) returns (r': Regs, target: U64)
    requires oldCtx.Length == CONTEXT_SLOTS && newCtx.Length == CONTEXT_SLOTS
    modifies oldCtx
    ensures FromLayout(oldCtx[..]) == Saved(r)
    ensures r' == Restored(FromLayout(newCtx[..])) && target == FromLayout(newCtx[..]).pc
    ensures oldCtx == newCtx ==> r' == r && target == r.x30
  {
    Save(oldCtx, r);
    r', target := Load(newCtx);
  }
}
