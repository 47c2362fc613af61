/**
 * The OpenRISC task context and the store/load halves of `switch_context`.
 *
 * `TaskContext` is a `repr(C)` struct of 14 `u64` fields, one per register
 * the switch saves: r9–r20, r1, the register the assembly uses as its
 * link register, and r2, the register it uses as sp. (The OpenRISC
 * calling convention has these the other way round: r1 is the stack
 * pointer and r9 the link register; the model follows the code.) Field k (in
 * declaration order) occupies the 8-byte slot at byte offset 8 k, and a
 * context in memory is an array of those slots. The save half stores
 * every register at the offset the assembly names; the load half reads
 * them back from the new context and jumps to the loaded r1. The
 * contracts check those offsets against the field layout.
 */
module TaskOpenrisc64 {
  import opened Prelude

  /** Number of 8-byte slots in a `TaskContext`. */
  const CONTEXT_SLOTS: nat := 14

  /** The `TaskContext` fields, in declaration order; they are also the registers the switch saves and restores. */
  datatype TaskContext = TaskContext(r9: U64, r10: U64, r11: U64, r12: U64, r13: U64, r14: U64, r15: U64, r16: U64, r17: U64, r18: U64, r19: U64, r20: U64, r1: U64, r2: U64)

  /** The slot index of a byte offset. */
  function Slot(offset: nat): nat
  {
    offset / 8
  }

  /** The `repr(C)` image of a context: field k in slot k. */
  function Layout(c: TaskContext): (s: seq<U64>)
    ensures |s| == CONTEXT_SLOTS
    ensures FromLayout(s) == c
  {
    [c.r9, c.r10, c.r11, c.r12, c.r13, c.r14, c.r15, c.r16, c.r17, c.r18, c.r19, c.r20, c.r1, c.r2]
  }

  /** The context a slot image holds: slot k read as field k. */
  function FromLayout(s: seq<U64>): TaskContext
    requires |s| == CONTEXT_SLOTS
  {
    TaskContext(s[0], s[1], s[2], s[3], s[4], s[5], s[6], s[7], s[8], s[9], s[10], s[11], s[12], s[13])
  }

  /** Every slot image is the image of the context it holds. */
  lemma LayoutOfFromLayout(s: seq<U64>)
    requires |s| == CONTEXT_SLOTS
    ensures Layout(FromLayout(s)) == s
  {
    assert Layout(FromLayout(s))[..] == s[..];
  }

  /** `TaskContext::new`: r2 is the stack top, r1 the entry point, every other field 0. */
  function New(stackTop: U64, entryPoint: U64): (c: TaskContext)
    ensures c.r1 == entryPoint && c.r2 == stackTop
    ensures forall k :: 0 <= k < CONTEXT_SLOTS - 2 ==> Layout(c)[k] == 0
  {
    TaskContext(0, 0, 0, 0, 0, 0, 0, 0, 0, 0, 0, 0, entryPoint, stackTop)
  }

  /** The save half: `l.sd` of every register at its offset. */
  method Save(ctx: array<U64>, r: TaskContext)
    requires ctx.Length == CONTEXT_SLOTS
    modifies ctx
    ensures FromLayout(ctx[..]) == r
  {
    ctx[Slot(0)] := r.r9;
    ctx[Slot(8)] := r.r10;
    ctx[Slot(16)] := r.r11;
    ctx[Slot(24)] := r.r12;
    ctx[Slot(32)] := r.r13;
    ctx[Slot(40)] := r.r14;
    ctx[Slot(48)] := r.r15;
    ctx[Slot(56)] := r.r16;
    ctx[Slot(64)] := r.r17;
    ctx[Slot(72)] := r.r18;
    ctx[Slot(80)] := r.r19;
    ctx[Slot(88)] := r.r20;
    ctx[Slot(96)] := r.r1;
    ctx[Slot(104)] := r.r2;
  }

  /** The load half: `l.ld` of r2 first, then every other register; the jump target is the loaded r1. */
  method Load(ctx: array<U64>) returns (r: TaskContext, target: U64)
    requires ctx.Length == CONTEXT_SLOTS
    ensures r == FromLayout(ctx[..])
    ensures target == r.r1
  {
    var r2 := ctx[Slot(104)];
    var r9 := ctx[Slot(0)];
    var r10 := ctx[Slot(8)];
    var r11 := ctx[Slot(16)];
    var r12 := ctx[Slot(24)];
    var r13 := ctx[Slot(32)];
    var r14 := ctx[Slot(40)];
    var r15 := ctx[Slot(48)];
    var r16 := ctx[Slot(56)];
    var r17 := ctx[Slot(64)];
    var r18 := ctx[Slot(72)];
    var r19 := ctx[Slot(80)];
    var r20 := ctx[Slot(88)];
    var r1 := ctx[Slot(96)];
    r := TaskContext(r9, r10, r11, r12, r13, r14, r15, r16, r17, r18, r19, r20, r1, r2);
    target := r1;
  }

  /**
   * `switch_context`: save into `oldCtx`, then load from `newCtx` (which
   * may be the same context) and jump (`l.jr r1`). Switching a context to
   * itself restores every register and resumes at r1.
   */
  method SwitchContext(r: TaskContext, oldCtx: array<U64>, newCtx: array<U64>) returns (r': TaskContext, target: U64)
    requires oldCtx.Length == CONTEXT_SLOTS && newCtx.Length == CONTEXT_SLOTS
    modifies oldCtx
    ensures FromLayout(oldCtx[..]) == r
    ensures r' == FromLayout(newCtx[..]) && target == r'.r1
    ensures oldCtx == newCtx ==> r' == r && target == r.r1
  {
    Save(oldCtx, r);
    r', target := Load(newCtx);
  }
}
