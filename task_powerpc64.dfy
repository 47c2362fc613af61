/**
 * The PowerPC 64 task context and the store/load halves of
 * `switch_context`, as written and as evidently intended.
 *
 * `TaskContext` is a `repr(C)` struct of 24 `u64` fields: r14..r31 at
 * bytes 0..136, r2 (TOC) at 144, r13 (thread pointer) at 152, cr at 160,
 * lr at 168, r1 (sp) at 176 and pc at 184. A context in memory is an array
 * of 8-byte slots; field k occupies slot k.
 *
 * As written, the save half stores only r14, r15 and r31 of r14..r31, and
 * stores LR at byte 160 and CR at byte 168: the two values go to each
 * other's fields. The pc slot at 184 is written from the scratch register
 * r5, which by then holds CR. The load half reads LR from 160 and CR from
 * 168, so LR and CR survive a save and load, but the branch target, read
 * from the pc slot, is the saved CR value. The intended switch keeps
 * every register in the field named after it and sets pc from LR.
 */
module TaskPowerpc64 {
  import opened Prelude

  /** Number of 8-byte slots in a `TaskContext`. */
  const CONTEXT_SLOTS: nat := 24

  /** The `TaskContext` fields, in declaration order. */
  datatype TaskContext = TaskContext(
    r14: U64, r15: U64, r16: U64, r17: U64, r18: U64, r19: U64, r20: U64, r21: U64, r22: U64,
    r23: U64, r24: U64, r25: U64, r26: U64, r27: U64, r28: U64, r29: U64, r30: U64, r31: U64,
    r2_toc: U64, r13_tp: U64, cr: U64, lr: U64, r1_sp: U64, pc: U64)

  /** The registers a switch touches: r14..r31, r2, r13, CR, LR and r1 (sp). */
  datatype Regs = Regs(
    r14: U64, r15: U64, r16: U64, r17: U64, r18: U64, r19: U64, r20: U64, r21: U64, r22: U64,
    r23: U64, r24: U64, r25: U64, r26: U64, r27: U64, r28: U64, r29: U64, r30: U64, r31: U64,
    r2: U64, r13: U64, cr: U64, lr: U64, r1: U64)

  /** The slot index of a byte offset. */
  function Slot(offset: nat): nat
  {
    offset / 8
  }

  /** The `repr(C)` image of a context: field k in slot k. */
  function Layout(c: TaskContext): (s: seq<U64>)
    ensures |s| == CONTEXT_SLOTS
    ensures FromLayout(s) == c
  {
    [
      c.r14, c.r15, c.r16, c.r17, c.r18, c.r19, c.r20, c.r21,
      c.r22, c.r23, c.r24, c.r25, c.r26, c.r27, c.r28, c.r29,
      c.r30, c.r31, c.r2_toc, c.r13_tp, c.cr, c.lr, c.r1_sp, c.pc
    ]
  }

  /** The context a slot image holds: slot k read as field k. */
  function FromLayout(s: seq<U64>): TaskContext
    requires |s| == CONTEXT_SLOTS
  {
    TaskContext(
      s[0], s[1], s[2], s[3], s[4], s[5], s[6], s[7],
      s[8], s[9], s[10], s[11], s[12], s[13], s[14], s[15],
      s[16], s[17], s[18], s[19], s[20], s[21], s[22], s[23])
  }

  /** `TaskContext::new`: r1 is the stack top, lr and pc the entry point, r2 and r13 the given TOC and thread pointer; every other field, CR included, is 0. */
  function New(stackTop: U64, entryPoint: U64, rtoc: U64, threadPtr: U64): (c: TaskContext)
    ensures c.r1_sp == stackTop && c.lr == entryPoint && c.pc == entryPoint
    ensures c.r2_toc == rtoc && c.r13_tp == threadPtr && c.cr == 0
    ensures forall k :: 0 <= k < 18 ==> Layout(c)[k] == 0
  {
    TaskContext(
      0, 0, 0, 0, 0, 0, 0, 0,
      0, 0, 0, 0, 0, 0, 0, 0,
      0, 0, rtoc, threadPtr, 0, entryPoint, stackTop, entryPoint)
  }

  // ---------------------------------------------------------------------------
  // The switch as written
  // ---------------------------------------------------------------------------

  /** The old context after the save half as written: r14, r15, r31, r2, r13 and r1 in their fields, LR in the cr field, CR in the lr field and in pc; r16..r30 keep their old contents. */
  function SavedAsWritten(c: TaskContext, r: Regs): TaskContext
  {
    c.(r14 := r.r14, r15 := r.r15, r31 := r.r31, r2_toc := r.r2, r13_tp := r.r13,
       cr := r.lr, lr := r.cr, r1_sp := r.r1, pc := r.cr)
  }

  /** The registers after the load half as written: r1, r14, r15, r31, r2 and r13 from their fields, LR from the cr field, CR from the lr field; r16..r30 keep their running values. */
  function RestoredAsWritten(r: Regs, c: TaskContext): Regs
  {
    r.(r1 := c.r1_sp, r14 := c.r14, r15 := c.r15, r31 := c.r31, r2 := c.r2_toc, r13 := c.r13_tp,
       lr := c.cr, cr := c.lr)
  }

  /** The save half as written (`std` at 0, 8, 136, 144, 152; `mflr`/`mfcr` through r5 into 160 and 168; r1 at 176; r5 again at 184). */
  method SaveAsWritten(ctx: array<U64>, r: Regs)
    requires ctx.Length == CONTEXT_SLOTS
    modifies ctx
    ensures FromLayout(ctx[..]) == SavedAsWritten(FromLayout(old(ctx[..])), r)
  {
    ctx[Slot(0)] := r.r14;
    ctx[Slot(8)] := r.r15;
    ctx[Slot(136)] := r.r31;
    ctx[Slot(144)] := r.r2;
    ctx[Slot(152)] := r.r13;
    var r5 := r.lr;
    ctx[Slot(160)] := r5;
    r5 := r.cr;
    ctx[Slot(168)] := r5;
    ctx[Slot(176)] := r.r1;
    ctx[Slot(184)] := r5;
  }

  /** The load half as written; the branch target (`mtctr`/`bctr`) is the pc slot. */
  method LoadAsWritten(ctx: array<U64>, r: Regs) returns (r': Regs, target: U64)
    requires ctx.Length == CONTEXT_SLOTS
    ensures r' == RestoredAsWritten(r, FromLayout(ctx[..]))
    ensures target == FromLayout(ctx[..]).pc
  {
    var r1 := ctx[Slot(176)];
    var r14 := ctx[Slot(0)];
    var r15 := ctx[Slot(8)];
    var r31 := ctx[Slot(136)];
    var r2 := ctx[Slot(144)];
    var r13 := ctx[Slot(152)];
    var lr := ctx[Slot(160)];
    var cr := ctx[Slot(168)];
    r' := r.(r1 := r1, r14 := r14, r15 := r15, r31 := r31, r2 := r2, r13 := r13, lr := lr, cr := cr);
    target := ctx[Slot(184)];
  }

  /**
   * `switch_context` as written. Switching a context to itself gives every
   * register back and resumes at the saved CR value, not at LR.
   */
  method SwitchContextAsWritten(r: Regs, oldCtx: array<U64>, newCtx: array<U64>) returns (r': Regs, target: U64)
    requires oldCtx.Length == CONTEXT_SLOTS && newCtx.Length == CONTEXT_SLOTS
    modifies oldCtx
    ensures FromLayout(oldCtx[..]) == SavedAsWritten(FromLayout(old(oldCtx[..])), r)
    ensures r' == RestoredAsWritten(r, FromLayout(newCtx[..])) && target == FromLayout(newCtx[..]).pc
    ensures oldCtx == newCtx ==> r' == r && target == r.cr
  {
    SaveAsWritten(oldCtx, r);
    r', target := LoadAsWritten(newCtx, r);
  }

  /** As written, a saved context keeps LR in the cr field and CR in both the lr and pc fields, so a task whose CR differs from its LR resumes somewhere other than its return address. */
  lemma AsWrittenResumesAtCr(c: TaskContext, r: Regs)
    requires r.cr != r.lr
    ensures SavedAsWritten(c, r).cr == r.lr && SavedAsWritten(c, r).lr == r.cr
    ensures SavedAsWritten(c, r).pc != r.lr
  {
  }

  /** As written, a fresh task starts at its entry point, but with LR 0 (read from the cr field) and CR equal to the entry point. */
  lemma FreshAsWritten(r: Regs, stackTop: U64, entryPoint: U64, rtoc: U64, threadPtr: U64)
    ensures RestoredAsWritten(r, New(stackTop, entryPoint, rtoc, threadPtr)).lr == 0
    ensures RestoredAsWritten(r, New(stackTop, entryPoint, rtoc, threadPtr)).cr == entryPoint
  {
  }

  /** A concrete switch as written: LR 0x1000 and CR 0x2 resume at 0x2. */
  lemma AsWrittenExample(c: TaskContext)
    ensures SavedAsWritten(c, Regs(
      0, 0, 0, 0, 0, 0, 0, 0,
      0, 0, 0, 0, 0, 0, 0, 0,
      0, 0, 0, 0, 2, 0x1000, 0x8000)).pc == 2
  {
  }

  // ---------------------------------------------------------------------------
  // The switch as intended
  // ---------------------------------------------------------------------------

  /** The context the intended save leaves: every register in its own field, and pc set from LR. */
  function Saved(r: Regs): (c: TaskContext)
    ensures Restored(c) == r
    ensures c.pc == r.lr
  {
    TaskContext(
      r.r14, r.r15, r.r16, r.r17, r.r18, r.r19, r.r20, r.r21,
      r.r22, r.r23, r.r24, r.r25, r.r26, r.r27, r.r28, r.r29,
      r.r30, r.r31, r.r2, r.r13, r.cr, r.lr, r.r1, r.lr)
  }

  /** The registers the intended load takes from a context. */
  function Restored(c: TaskContext): Regs
  {
    Regs(
      c.r14, c.r15, c.r16, c.r17, c.r18, c.r19, c.r20, c.r21,
      c.r22, c.r23, c.r24, c.r25, c.r26, c.r27, c.r28, c.r29,
      c.r30, c.r31, c.r2_toc, c.r13_tp, c.cr, c.lr, c.r1_sp)
  }

  /** Part of the intended save: r14..r19 at 0..40; every other slot is untouched. */
  method SaveR14ToR19(ctx: array<U64>, r: Regs)
    requires ctx.Length == CONTEXT_SLOTS
    modifies ctx
    ensures FromLayout(ctx[..]) == FromLayout(old(ctx[..])).(
      r14 := r.r14, r15 := r.r15, r16 := r.r16, r17 := r.r17, r18 := r.r18, r19 := r.r19)
  {
    ctx[Slot(0)] := r.r14;
    ctx[Slot(8)] := r.r15;
    ctx[Slot(16)] := r.r16;
    ctx[Slot(24)] := r.r17;
    ctx[Slot(32)] := r.r18;
    ctx[Slot(40)] := r.r19;
  }

  /** Part of the intended save: r20..r25 at 48..88; every other slot is untouched. */
  method SaveR20ToR25(ctx: array<U64>, r: Regs)
    requires ctx.Length == CONTEXT_SLOTS
    modifies ctx
    ensures FromLayout(ctx[..]) == FromLayout(old(ctx[..])).(
      r20 := r.r20, r21 := r.r21, r22 := r.r22, r23 := r.r23, r24 := r.r24, r25 := r.r25)
  {
    ctx[Slot(48)] := r.r20;
    ctx[Slot(56)] := r.r21;
    ctx[Slot(64)] := r.r22;
    ctx[Slot(72)] := r.r23;
    ctx[Slot(80)] := r.r24;
    ctx[Slot(88)] := r.r25;
  }

  /** Part of the intended save: r26..r31 at 96..136; every other slot is untouched. */
  method SaveR26ToR31(ctx: array<U64>, r: Regs)
    requires ctx.Length == CONTEXT_SLOTS
    modifies ctx
    ensures FromLayout(ctx[..]) == FromLayout(old(ctx[..])).(
      r26 := r.r26, r27 := r.r27, r28 := r.r28, r29 := r.r29, r30 := r.r30, r31 := r.r31)
  {
    ctx[Slot(96)] := r.r26;
    ctx[Slot(104)] := r.r27;
    ctx[Slot(112)] := r.r28;
    ctx[Slot(120)] := r.r29;
    ctx[Slot(128)] := r.r30;
    ctx[Slot(136)] := r.r31;
  }

  /** The intended save: r14..r31 at 0..136, r2, r13, CR at 160 (cr), LR at 168 (lr), r1 at 176, and LR again at 184 (pc). */
  method Save(ctx: array<U64>, r: Regs)
    requires ctx.Length == CONTEXT_SLOTS
    modifies ctx
    ensures FromLayout(ctx[..]) == Saved(r)
  {
    SaveR14ToR19(ctx, r);
    SaveR20ToR25(ctx, r);
    SaveR26ToR31(ctx, r);
    ctx[Slot(144)] := r.r2;
    ctx[Slot(152)] := r.r13;
    ctx[Slot(160)] := r.cr;
    ctx[Slot(168)] := r.lr;
    ctx[Slot(176)] := r.r1;
    ctx[Slot(184)] := r.lr;
  }

  /** The intended load: every register from its own field; the branch target is the pc slot. */
  method Load(ctx: array<U64>) returns (r: Regs, target: U64)
    requires ctx.Length == CONTEXT_SLOTS
    ensures r == Restored(FromLayout(ctx[..]))
    ensures target == FromLayout(ctx[..]).pc
  {
    var r1 := ctx[Slot(176)];
    var r14 := ctx[Slot(0)];
    var r15 := ctx[Slot(8)];
    var r16 := ctx[Slot(16)];
    var r17 := ctx[Slot(24)];
    var r18 := ctx[Slot(32)];
    var r19 := ctx[Slot(40)];
    var r20 := ctx[Slot(48)];
    var r21 := ctx[Slot(56)];
    var r22 := ctx[Slot(64)];
    var r23 := ctx[Slot(72)];
    var r24 := ctx[Slot(80)];
    var r25 := ctx[Slot(88)];
    var r26 := ctx[Slot(96)];
    var r27 := ctx[Slot(104)];
    var r28 := ctx[Slot(112)];
    var r29 := ctx[Slot(120)];
    var r30 := ctx[Slot(128)];
    var r31 := ctx[Slot(136)];
    var r2 := ctx[Slot(144)];
    var r13 := ctx[Slot(152)];
    var cr := ctx[Slot(160)];
    var lr := ctx[Slot(168)];
    r := Regs(
      r14, r15, r16, r17, r18, r19, r20, r21,
      r22, r23, r24, r25, r26, r27, r28, r29,
      r30, r31, r2, r13, cr, lr, r1);
    target := ctx[Slot(184)];
  }

  /** The intended `switch_context`: switching a context to itself restores every register and resumes at LR. */
  method SwitchContext(r: Regs, oldCtx: array<U64>, newCtx: array<U64>) returns (r': Regs, target: U64)
    requires oldCtx.Length == CONTEXT_SLOTS && newCtx.Length == CONTEXT_SLOTS
    modifies oldCtx
    ensures FromLayout(oldCtx[..]) == Saved(r)
    ensures r' == Restored(FromLayout(newCtx[..])) && target == FromLayout(newCtx[..]).pc
    ensures oldCtx == newCtx ==> r' == r && target == r.lr
  {
    Save(oldCtx, r);
    r', target := Load(newCtx);
  }

  /** With the intended switch a fresh task starts at its entry point with LR the entry point, CR 0, sp the stack top and the given TOC and thread pointer. */
  lemma Fresh(stackTop: U64, entryPoint: U64, rtoc: U64, threadPtr: U64)
    ensures Restored(New(stackTop, entryPoint, rtoc, threadPtr)).lr == entryPoint
    ensures Restored(New(stackTop, entryPoint, rtoc, threadPtr)).cr == 0
    ensures Restored(New(stackTop, entryPoint, rtoc, threadPtr)).r1 == stackTop
  {
  }
}
