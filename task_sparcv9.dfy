/**
 * The SPARC V9 task context and the store/load halves of `switch_context`.
 *
 * `TaskContext` is a `repr(C)` struct of thirteen `u64` fields: g1..g7 at
 * bytes 0..48, sp (o6) at 56, lr (o7) at 64, pc at 72, npc at 80, y at 88
 * and ccr at 96. A context in memory is an array of 8-byte slots; field k
 * occupies slot k.
 *
 * The switch saves and loads only g1, g2 and g7 of the globals. It stores
 * the program counter and next program counter it reads at the save, the
 * Y register, and the value it reads back from ASR24 after writing
 * `Y xor 0x1000` there (a `wr` writes the exclusive or of its operands).
 * The load writes Y and ASR24 from their slots and jumps to the pc slot.
 * Words are `bv64`, so `wrapping_add` and `xor` are the machine's.
 */
module TaskSparcv9 {
  import opened Prelude

  /** Number of 8-byte slots in a `TaskContext`. */
  const CONTEXT_SLOTS: nat := 13

  /** The immediate the save half exclusive-ors into ASR24. */
  const ASR24_TOGGLE: DWord := 0x1000

  /** The `TaskContext` fields, in declaration order. */
  datatype TaskContext = TaskContext(
    g1: DWord, g2: DWord, g3: DWord, g4: DWord, g5: DWord, g6: DWord, g7: DWord,
    sp: DWord, lr: DWord, pc: DWord, npc: DWord, y: DWord, ccr: DWord)

  /** The registers a switch touches: g1..g7, o6 (sp), o7 (return address), Y and ASR24. */
  datatype Regs = Regs(
    g1: DWord, g2: DWord, g3: DWord, g4: DWord, g5: DWord, g6: DWord, g7: DWord,
    o6: DWord, o7: DWord, y: DWord, asr24: DWord)

  /** The slot index of a byte offset. */
  function Slot(offset: nat): nat
  {
    offset / 8
  }

  /** The `repr(C)` image of a context: field k in slot k. */
  function Layout(c: TaskContext): (s: seq<DWord>)
    ensures |s| == CONTEXT_SLOTS
    ensures FromLayout(s) == c
  {
    [c.g1, c.g2, c.g3, c.g4, c.g5, c.g6, c.g7, c.sp, c.lr, c.pc, c.npc, c.y, c.ccr]
  }

  /** The context a slot image holds: slot k read as field k. */
  function FromLayout(s: seq<DWord>): TaskContext
    requires |s| == CONTEXT_SLOTS
  {
    TaskContext(s[0], s[1], s[2], s[3], s[4], s[5], s[6], s[7], s[8], s[9], s[10], s[11], s[12])
  }

  /** `wr rs1, imm, asr`: the register receives the exclusive or of the operands. */
  function WriteAsr(rs1: DWord, imm: DWord): DWord
  {
    rs1 ^ imm
  }

  /** An `asr` write with immediate 0 transfers the operand unchanged. */
  lemma WriteAsrZero(v: DWord)
    ensures WriteAsr(v, 0) == v
  {
  }

  /** The program counter one instruction after `pc`, modulo 2^64. */
  function NextPc(pc: DWord): DWord
  {
    pc + 4
  }

  /** `TaskContext::new`: sp the stack top, lr and pc the entry point, npc the next instruction (wrapping), every other field 0. */
  function New(stackTop: DWord, entryPoint: DWord): (c: TaskContext)
    ensures c.sp == stackTop && c.lr == entryPoint && c.pc == entryPoint
    ensures c.npc - c.pc == 4
    ensures c.g1 == c.g2 == c.g3 == c.g4 == c.g5 == c.g6 == c.g7 == c.y == c.ccr == 0
  {
    TaskContext(0, 0, 0, 0, 0, 0, 0, stackTop, entryPoint, entryPoint, NextPc(entryPoint), 0, 0)
  }

  /** The old context after the save half: g1, g2, g7, sp, lr, the pc and npc read, Y, and the toggled ASR24 value; g3..g6 keep their old contents. */
  function Saved(c: TaskContext, r: Regs, pc: DWord, npc: DWord): TaskContext
  {
    c.(g1 := r.g1, g2 := r.g2, g7 := r.g7, sp := r.o6, lr := r.o7, pc := pc, npc := npc,
       y := r.y, ccr := WriteAsr(r.y, ASR24_TOGGLE))
  }

  /** The registers after the load half: Y, ASR24, g1, g2, g7, o6 and o7 from their fields; g3..g6 keep their running values. */
  function Restored(r: Regs, c: TaskContext): Regs
  {
    r.(y := c.y, asr24 := c.ccr, g1 := c.g1, g2 := c.g2, g7 := c.g7, o6 := c.sp, o7 := c.lr)
  }

  /** The first stores of the save half: g1, g2, g7, o6 and o7 at 0, 8, 48, 56 and 64. */
  method SaveWindow(ctx: array<DWord>, r: Regs)
    requires ctx.Length == CONTEXT_SLOTS
    modifies ctx
    ensures FromLayout(ctx[..]) == FromLayout(old(ctx[..])).(g1 := r.g1, g2 := r.g2, g7 := r.g7, sp := r.o6, lr := r.o7)
  {
    ctx[Slot(0)] := r.g1;
    ctx[Slot(8)] := r.g2;
    ctx[Slot(48)] := r.g7;
    ctx[Slot(56)] := r.o6;
    ctx[Slot(64)] := r.o7;
  }

  /** The program-counter and Y stores of the save half: the pc and npc it reads at 72 and 80, Y at 88. */
  method SaveCounters(ctx: array<DWord>, pc: DWord, npc: DWord, y: DWord)
    requires ctx.Length == CONTEXT_SLOTS
    modifies ctx
    ensures FromLayout(ctx[..]) == FromLayout(old(ctx[..])).(pc := pc, npc := npc, y := y)
  {
    var l0, l1 := pc, npc;
    ctx[Slot(72)] := l0;
    ctx[Slot(80)] := l1;
    l0 := y;
    ctx[Slot(88)] := l0;
  }

  /** The last store of the save half: the value read back from ASR24, at 96. */
  method SaveAsr24(ctx: array<DWord>, asr24: DWord)
    requires ctx.Length == CONTEXT_SLOTS
    modifies ctx
    ensures FromLayout(ctx[..]) == FromLayout(old(ctx[..])).(ccr := asr24)
  {
    ctx[Slot(96)] := asr24;
  }

  /**
   * The save half, given the program counter and next program counter it
   * reads. After Y is stored, `wr` leaves `Y xor 0x1000` in ASR24, and that
   * is the value read back and stored as ccr.
   */
  method Save(ctx: array<DWord>, r: Regs, pc: DWord, npc: DWord) returns (r': Regs)
    requires ctx.Length == CONTEXT_SLOTS
    modifies ctx
    ensures FromLayout(ctx[..]) == Saved(FromLayout(old(ctx[..])), r, pc, npc)
    ensures r' == r.(asr24 := WriteAsr(r.y, ASR24_TOGGLE))
  {
    SaveWindow(ctx, r);
    SaveCounters(ctx, pc, npc, r.y);
    r' := r.(asr24 := WriteAsr(r.y, ASR24_TOGGLE));
    SaveAsr24(ctx, r'.asr24);
  }

  /** The load half: Y and ASR24 first, then g1, g2, g7, o6 and o7; the jump target is the pc slot. */
  method Load(ctx: array<DWord>, r: Regs) returns (r': Regs, target: DWord)
    requires ctx.Length == CONTEXT_SLOTS
    ensures r' == Restored(r, FromLayout(ctx[..]))
    ensures target == FromLayout(ctx[..]).pc
  {
    var l0 := ctx[Slot(88)];
    r' := r.(y := l0);
    l0 := ctx[Slot(96)];
    WriteAsrZero(l0);
    r' := r'.(asr24 := WriteAsr(l0, 0));
    var g1 := ctx[Slot(0)];
    var g2 := ctx[Slot(8)];
    var g7 := ctx[Slot(48)];
    var o6 := ctx[Slot(56)];
    var o7 := ctx[Slot(64)];
    r' := r'.(g1 := g1, g2 := g2, g7 := g7, o6 := o6, o7 := o7);
    target := ctx[Slot(72)];
  }

  /**
   * `switch_context`, given the pc and npc the save half reads. Switching
   * a context to itself restores g1, g2, g7, o6, o7 and Y and resumes at
   * the pc that was read; ASR24 ends as `Y xor 0x1000` whatever it held.
   */
  method SwitchContext(r: Regs, pc: DWord, npc: DWord, oldCtx: array<DWord>, newCtx: array<DWord>)
    returns (r': Regs, target: DWord)
    requires oldCtx.Length == CONTEXT_SLOTS && newCtx.Length == CONTEXT_SLOTS
    modifies oldCtx
    ensures FromLayout(oldCtx[..]) == Saved(FromLayout(old(oldCtx[..])), r, pc, npc)
    ensures r' == Restored(r.(asr24 := WriteAsr(r.y, ASR24_TOGGLE)), FromLayout(newCtx[..]))
    ensures target == FromLayout(newCtx[..]).pc
    ensures oldCtx == newCtx ==> r' == r.(asr24 := WriteAsr(r.y, ASR24_TOGGLE)) && target == pc
  {
    var saved := Save(oldCtx, r, pc, npc);
    r', target := Load(newCtx, saved);
  }

  /** A fresh task starts at its entry point with sp the stack top, the return address the entry point, and Y and ASR24 zero. */
  lemma Fresh(r: Regs, stackTop: DWord, entryPoint: DWord)
    ensures Restored(r, New(stackTop, entryPoint)).o6 == stackTop
    ensures Restored(r, New(stackTop, entryPoint)).o7 == entryPoint
    ensures Restored(r, New(stackTop, entryPoint)).y == 0 && Restored(r, New(stackTop, entryPoint)).asr24 == 0
  {
  }

  /** The ASR24 slot never holds the running ASR24: it holds Y with bit 12 flipped, so a self-switch loses ASR24 whenever it differed from that. */
  lemma Asr24NotPreserved(c: TaskContext, r: Regs, pc: DWord, npc: DWord)
    requires r.asr24 != WriteAsr(r.y, ASR24_TOGGLE)
    ensures Restored(r, Saved(c, r, pc, npc)).asr24 != r.asr24
  {
  }
}
