/**
 * The MIPS64 task context and the store/load halves of `switch_context`.
 *
 * `TaskContext` is a `repr(C)` struct of 11 `u64` fields, one per register
 * the switch saves: s0–s7 (r16–r23), the frame pointer r30, the return address r31 and sp (r29). Field k (in
 * declaration order) occupies the 8-byte slot at byte offset 8 k, and a
 * context in memory is an array of those slots. The save half stores
 * every register at the offset the assembly names; the load half reads
 * them back from the new context and jumps to the loaded r31. The
 * contracts check those offsets against the field layout.
 */
module TaskMips64 {
  import opened Prelude

  /** Number of 8-byte slots in a `TaskContext`. */
  const CONTEXT_SLOTS: nat := 11

  /** The `TaskContext` fields, in declaration order; they are also the registers the switch saves and restores. */
  datatype TaskContext = TaskContext(r16: U64, r17: U64, r18: U64, r19: U64, r20: U64, r21: U64, r22: U64, r23: U64, r30: U64, r31: U64, r29: U64)

  /** The slot index of a byte offset. */
  function Slot(offset: nat): nat
  {
    offset / 8
  }

  /** The `repr(C)` image of a context: field k in slot k. */
  function Layout(c: TaskContext): (s: seq<U64>)
    ensures |s| == CONTEXT_SLOTS
    ensures FromLayout(s) == c
  {
    [c.r16, c.r17, c.r18, c.r19, c.r20, c.r21, c.r22, c.r23, c.r30, c.r31, c.r29]
  }

  /** The context a slot image holds: slot k read as field k. */
  function FromLayout(s: seq<U64>): TaskContext
    requires |s| == CONTEXT_SLOTS
  {
    TaskContext(s[0], s[1], s[2], s[3], s[4], s[5], s[6], s[7], s[8], s[9], s[10])
  }

  /** Every slot image is the image of the context it holds. */
  lemma LayoutOfFromLayout(s: seq<U64>)
    requires |s| == CONTEXT_SLOTS
    ensures Layout(FromLayout(s)) == s
  {
    assert Layout(FromLayout(s))[..] == s[..];
  }

  /** `TaskContext::new`: r29 is the stack top, r31 the entry point, every other field 0. */
  function New(stackTop: U64, entryPoint: U64): (c: TaskContext)
    ensures c.r31 == entryPoint && c.r29 == stackTop
    ensures forall k :: 0 <= k < CONTEXT_SLOTS - 2 ==> Layout(c)[k] == 0
  {
    TaskContext(0, 0, 0, 0, 0, 0, 0, 0, 0, entryPoint, stackTop)
  }

  /** The save half: `sd` of every register at its offset. */
  method Save(ctx: array<U64>, r: TaskContext)
    requires ctx.Length == CONTEXT_SLOTS
    modifies ctx
    ensures FromLayout(ctx[..]) == r
  {
    ctx[Slot(0)] := r.r16;
    ctx[Slot(8)] := r.r17;
    ctx[Slot(16)] := r.r18;
    ctx[Slot(24)] := r.r19;
    ctx[Slot(32)] := r.r20;
    ctx[Slot(40)] := r.r21;
    ctx[Slot(48)] := r.r22;
    ctx[Slot(56)] := r.r23;
    ctx[Slot(64)] := r.r30;
    ctx[Slot(72)] := r.r31;
    ctx[Slot(80)] := r.r29;
  }

  /** The load half: `ld` of r29 first, then every other register; the jump target is the loaded r31. */
  method Load(ctx: array<U64>) returns (r: TaskContext, target: U64)
    requires ctx.Length == CONTEXT_SLOTS
    ensures r == FromLayout(ctx[..])
    ensures target == r.r31
  {
    var r29 := ctx[Slot(80)];
    var r16 := ctx[Slot(0)];
    var r17 := ctx[Slot(8)];
    var r18 := ctx[Slot(16)];
    var r19 := ctx[Slot(24)];
    var r20 := ctx[Slot(32)];
    var r21 := ctx[Slot(40)];
    var r22 := ctx[Slot(48)];
    var r23 := ctx[Slot(56)];
    var r30 := ctx[Slot(64)];
    var r31 := ctx[Slot(72)];
    r := TaskContext(r16, r17, r18, r19, r20, r21, r22, r23, r30, r31, r29);
    target := r31;
  }

  /**
   * `switch_context`: save into `oldCtx`, then load from `newCtx` (which
   * may be the same context) and jump (`jr r31`). Switching a context to
   * itself restores every register and resumes at r31.
   */
  method SwitchContext(r: TaskContext, oldCtx: array<U64>, newCtx: array<U64>) returns (r': TaskContext, target: U64)
    requires oldCtx.Length == CONTEXT_SLOTS && newCtx.Length == CONTEXT_SLOTS
    modifies oldCtx
    ensures FromLayout(oldCtx[..]) == r
    ensures r' == FromLayout(newCtx[..]) && target == r'.r31
    ensures oldCtx == newCtx ==> r' == r && target == r.r31
  {
    Save(oldCtx, r);
    r', target := Load(newCtx);
  }
}
