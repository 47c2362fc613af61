/**
 * The LoongArch task context and the store/load halves of `switch_context`.
 *
 * `TaskContext` is a `repr(C)` struct of 12 `u64` fields, one per register
 * the switch saves: r22–r31, the register the assembly uses as return
 * address, r4, in the field `ra`, and sp (r3). Field k (in
 * declaration order) occupies the 8-byte slot at byte offset 8 k, and a
 * context in memory is an array of those slots. The save half stores
 * every register at the offset the assembly names; the load half reads
 * them back from the new context and jumps to the loaded ra. The
 * contracts check those offsets against the field layout.
 */
module TaskLoongarch64 {
  import opened Prelude

  /** Number of 8-byte slots in a `TaskContext`. */
  const CONTEXT_SLOTS: nat := 12

  /** The `TaskContext` fields, in declaration order; they are also the registers the switch saves and restores. */
  datatype TaskContext = TaskContext(r22: U64, r23: U64, r24: U64, r25: U64, r26: U64, r27: U64, r28: U64, r29: U64, r30: U64, r31: U64, ra: U64, sp: U64)

  /** The slot index of a byte offset. */
  function Slot(offset: nat): nat
  {
    offset / 8
  }

  /** The `repr(C)` image of a context: field k in slot k. */
  function Layout(c: TaskContext): (s: seq<U64>)
    ensures |s| == CONTEXT_SLOTS
    ensures FromLayout(s) == c
  {
    [c.r22, c.r23, c.r24, c.r25, c.r26, c.r27, c.r28, c.r29, c.r30, c.r31, c.ra, c.sp]
  }

  /** The context a slot image holds: slot k read as field k. */
  function FromLayout(s: seq<U64>): TaskContext
    requires |s| == CONTEXT_SLOTS
  {
    TaskContext(s[0], s[1], s[2], s[3], s[4], s[5], s[6], s[7], s[8], s[9], s[10], s[11])
  }

  /** Every slot image is the image of the context it holds. */
  lemma LayoutOfFromLayout(s: seq<U64>)
    requires |s| == CONTEXT_SLOTS
    ensures Layout(FromLayout(s)) == s
  {
    assert Layout(FromLayout(s))[..] == s[..];
  }

  /** `TaskContext::new`: sp is the stack top, ra the entry point, every other field 0. */
  function New(stackTop: U64, entryPoint: U64): (c: TaskContext)
    ensures c.ra == entryPoint && c.sp == stackTop
    ensures forall k :: 0 <= k < CONTEXT_SLOTS - 2 ==> Layout(c)[k] == 0
  {
    TaskContext(0, 0, 0, 0, 0, 0, 0, 0, 0, 0, entryPoint, stackTop)
  }

  /** The save half: `st.d` of every register at its offset. */
  method Save(ctx: array<U64>, r: TaskContext)
    requires ctx.Length == CONTEXT_SLOTS
    modifies ctx
    ensures FromLayout(ctx[..]) == r
  {
    ctx[Slot(0)] := r.r22;
    ctx[Slot(8)] := r.r23;
    ctx[Slot(16)] := r.r24;
    ctx[Slot(24)] := r.r25;
    ctx[Slot(32)] := r.r26;
    ctx[Slot(40)] := r.r27;
    ctx[Slot(48)] := r.r28;
    ctx[Slot(56)] := r.r29;
    ctx[Slot(64)] := r.r30;
    ctx[Slot(72)] := r.r31;
    ctx[Slot(80)] := r.ra;
    ctx[Slot(88)] := r.sp;
  }

  /** The load half: `ld.d` of sp first, then every other register; the jump target is the loaded ra. */
  method Load(ctx: array<U64>) returns (r: TaskContext, target: U64)
    requires ctx.Length == CONTEXT_SLOTS
    ensures r == FromLayout(ctx[..])
    ensures target == r.ra
  {
    var sp := ctx[Slot(88)];
    var r22 := ctx[Slot(0)];
    var r23 := ctx[Slot(8)];
    var r24 := ctx[Slot(16)];
    var r25 := ctx[Slot(24)];
    var r26 := ctx[Slot(32)];
    var r27 := ctx[Slot(40)];
    var r28 := ctx[Slot(48)];
    var r29 := ctx[Slot(56)];
    var r30 := ctx[Slot(64)];
    var r31 := ctx[Slot(72)];
    var ra := ctx[Slot(80)];
    r := TaskContext(r22, r23, r24, r25, r26, r27, r28, r29, r30, r31, ra, sp);
    target := ra;
  }

  /**
   * `switch_context`: save into `oldCtx`, then load from `newCtx` (which
   * may be the same context) and jump (`jr`). Switching a context to
   * itself restores every register and resumes at ra.
   */
  method SwitchContext(r: TaskContext, oldCtx: array<U64>, newCtx: array<U64>) returns (r': TaskContext, target: U64)
    requires oldCtx.Length == CONTEXT_SLOTS && newCtx.Length == CONTEXT_SLOTS
    modifies oldCtx
    ensures FromLayout(oldCtx[..]) == r
    ensures r' == FromLayout(newCtx[..]) && target == r'.ra
    ensures oldCtx == newCtx ==> r' == r && target == r.ra
  {
    Save(oldCtx, r);
    r', target := Load(newCtx);
  }
}
