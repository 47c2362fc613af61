/**
 * The RISC-V task context and the store/load halves of `switch_context`.
 *
 * `TaskContext` is a `repr(C)` struct of 14 `u64` fields, one per register
 * the switch saves: s0–s11 (x8, x9, x18–x27), the return address ra (x1) and sp (x2). Field k (in
 * declaration order) occupies the 8-byte slot at byte offset 8 k, and a
 * context in memory is an array of those slots. The save half stores
 * every register at the offset the assembly names; the load half reads
 * them back from the new context and jumps to the loaded ra. The
 * contracts check those offsets against the field layout.
 */
module TaskRv64i {
  import opened Prelude

  /** Number of 8-byte slots in a `TaskContext`. */
  const CONTEXT_SLOTS: nat := 14

  /** The `TaskContext` fields, in declaration order; they are also the registers the switch saves and restores. */
  datatype TaskContext = TaskContext(s0: U64, s1: U64, s2: U64, s3: U64, s4: U64, s5: U64, s6: U64, s7: U64, s8: U64, s9: U64, s10: U64, s11: U64, ra: U64, sp: U64)

  /** The slot index of a byte offset. */
  function Slot(offset: nat): nat
  {
    offset / 8
  }

  /** The `repr(C)` image of a context: field k in slot k. */
  function Layout(c: TaskContext): (s: seq<U64>)
    ensures |s| == CONTEXT_SLOTS
    ensures FromLayout(s) == c
  {
    [c.s0, c.s1, c.s2, c.s3, c.s4, c.s5, c.s6, c.s7, c.s8, c.s9, c.s10, c.s11, c.ra, c.sp]
  }

  /** The context a slot image holds: slot k read as field k. */
  function FromLayout(s: seq<U64>): TaskContext
    requires |s| == CONTEXT_SLOTS
  {
    TaskContext(s[0], s[1], s[2], s[3], s[4], s[5], s[6], s[7], s[8], s[9], s[10], s[11], s[12], s[13])
  }

  /** Every slot image is the image of the context it holds. */
  lemma LayoutOfFromLayout(s: seq<U64>)
    requires |s| == CONTEXT_SLOTS
    ensures Layout(FromLayout(s)) == s
  {
    assert Layout(FromLayout(s))[..] == s[..];
  }

  /** `TaskContext::new`: sp is the stack top, ra the entry point, every other field 0. */
  function New(stackTop: U64, entryPoint: U64): (c: TaskContext)
    ensures c.ra == entryPoint && c.sp == stackTop
    ensures forall k :: 0 <= k < CONTEXT_SLOTS - 2 ==> Layout(c)[k] == 0
  {
    TaskContext(0, 0, 0, 0, 0, 0, 0, 0, 0, 0, 0, 0, entryPoint, stackTop)
  }

  /** The save half: `sd` of every register at its offset. */
  method Save(ctx: array<U64>, r: TaskContext)
    requires ctx.Length == CONTEXT_SLOTS
    modifies ctx
    ensures FromLayout(ctx[..]) == r
  {
    ctx[Slot(0)] := r.s0;
    ctx[Slot(8)] := r.s1;
    ctx[Slot(16)] := r.s2;
    ctx[Slot(24)] := r.s3;
    ctx[Slot(32)] := r.s4;
    ctx[Slot(40)] := r.s5;
    ctx[Slot(48)] := r.s6;
    ctx[Slot(56)] := r.s7;
    ctx[Slot(64)] := r.s8;
    ctx[Slot(72)] := r.s9;
    ctx[Slot(80)] := r.s10;
    ctx[Slot(88)] := r.s11;
    ctx[Slot(96)] := r.ra;
    ctx[Slot(104)] := r.sp;
  }

  /** The load half: `ld` of sp first, then every other register; the jump target is the loaded ra. */
  method Load(ctx: array<U64>) returns (r: TaskContext, target: U64)
    requires ctx.Length == CONTEXT_SLOTS
    ensures r == FromLayout(ctx[..])
    ensures target == r.ra
  {
    var sp := ctx[Slot(104)];
    var s0 := ctx[Slot(0)];
    var s1 := ctx[Slot(8)];
    var s2 := ctx[Slot(16)];
    var s3 := ctx[Slot(24)];
    var s4 := ctx[Slot(32)];
    var s5 := ctx[Slot(40)];
    var s6 := ctx[Slot(48)];
    var s7 := ctx[Slot(56)];
    var s8 := ctx[Slot(64)];
    var s9 := ctx[Slot(72)];
    var s10 := ctx[Slot(80)];
    var s11 := ctx[Slot(88)];
    var ra := ctx[Slot(96)];
    r := TaskContext(s0, s1, s2, s3, s4, s5, s6, s7, s8, s9, s10, s11, ra, sp);
    target := ra;
  }

  /**
   * `switch_context`: save into `oldCtx`, then load from `newCtx` (which
   * may be the same context) and jump (`jr x1`). Switching a context to
   * itself restores every register and resumes at ra.
   */
  method SwitchContext(r: TaskContext, oldCtx: array<U64>, newCtx: array<U64>) returns (r': TaskContext, target: U64)
    requires oldCtx.Length == CONTEXT_SLOTS && newCtx.Length == CONTEXT_SLOTS
    modifies oldCtx
    ensures FromLayout(oldCtx[..]) == r
    ensures r' == FromLayout(newCtx[..]) && target == r'.ra
    ensures oldCtx == newCtx ==> r' == r && target == r.ra
  {
    Save(oldCtx, r);
    r', target := Load(newCtx);
  }
}
