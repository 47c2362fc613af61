/**
 * The AMD64 task context and `switch_context`.
 *
 * `TaskContext` is a `repr(C)` struct of eight `u64` fields: r15, r14,
 * r13, r12, rbp, rbx, rsp and rip, so rsp sits at byte 48 and rip at byte
 * 56. The switch does not store the callee-saved registers in the struct:
 * it pushes them on the running task's stack, records the resulting stack
 * pointer in the old context's rsp field, then takes the new context's
 * rsp, pops the six registers from that stack in reverse order and jumps
 * to the new context's rip.
 *
 * Stack memory is a map from 8-byte-aligned addresses to words; addresses
 * and registers are `bv64`, so `push` and `pop` move rsp by 8 modulo 2^64
 * as the hardware does.
 */
module TaskAmd64 {
  import opened Prelude

  /** Number of 8-byte slots in a `TaskContext`. */
  const CONTEXT_SLOTS: nat := 8

  /** Bytes the six pushes occupy. */
  const FRAME_BYTES: DWord := 48

  /** The `TaskContext` fields, in declaration order. */
  datatype TaskContext = TaskContext(
    r15: DWord, r14: DWord, r13: DWord, r12: DWord, rbp: DWord, rbx: DWord, rsp: DWord, rip: DWord)

  /** The registers the switch saves and restores. */
  datatype Regs = Regs(
    r15: DWord, r14: DWord, r13: DWord, r12: DWord, rbp: DWord, rbx: DWord, rsp: DWord)

  /** The slot index of a byte offset. */
  function Slot(offset: nat): nat
  {
    offset / 8
  }

  /** The `repr(C)` image of a context: field k in slot k, so rsp in the slot at byte 48 and rip in the slot at byte 56. */
  function Layout(c: TaskContext): (s: seq<DWord>)
    ensures |s| == CONTEXT_SLOTS
    ensures FromLayout(s) == c
    ensures s[Slot(48)] == c.rsp && s[Slot(56)] == c.rip
  {
    [c.r15, c.r14, c.r13, c.r12, c.rbp, c.rbx, c.rsp, c.rip]
  }

  /** The context a slot image holds: slot k read as field k. */
  function FromLayout(s: seq<DWord>): TaskContext
    requires |s| == CONTEXT_SLOTS
  {
    TaskContext(s[0], s[1], s[2], s[3], s[4], s[5], s[6], s[7])
  }

  /** `TaskContext::new`: rsp is the stack top, rip the entry point, the six general registers 0. */
  function New(stackTop: DWord, entryPoint: DWord): (c: TaskContext)
    ensures c.rsp == stackTop && c.rip == entryPoint
    ensures forall k :: 0 <= k < 6 ==> Layout(c)[k] == 0
  {
    TaskContext(0, 0, 0, 0, 0, 0, stackTop, entryPoint)
  }

  /** A byte address, as a map key. */
  datatype Addr = Addr(bits: DWord)

  /** Stack memory: words by address. */
  type Stack = map<Addr, DWord>

  /** The address one word above `a` (what a `pop` moves rsp to). */
  function Above(a: DWord): DWord
  {
    a + 8
  }

  /** The address one word below `a` (what a `push` moves rsp to). */
  function Below(a: DWord): DWord
  {
    a - 8
  }

  /** Where the pushes leave rsp: 48 bytes below `rsp`. */
  function FrameBase(rsp: DWord): DWord
  {
    rsp - FRAME_BYTES
  }

  /** Where the pops leave rsp: 48 bytes above `sp`. */
  function FrameEnd(sp: DWord): DWord
  {
    sp + FRAME_BYTES
  }

  lemma FrameEndOfBase(rsp: DWord)
    ensures FrameEnd(FrameBase(rsp)) == rsp
  {
  }

  lemma AboveBelow(a: DWord)
    ensures Above(Below(a)) == a
  {
  }

  /** Six pops raise rsp by 48 bytes. */
  lemma SixAbove(a: DWord)
    ensures Above(Above(Above(Above(Above(Above(a)))))) == FrameEnd(a)
  {
  }

  /** Six pushes lower rsp by 48 bytes. */
  lemma SixBelow(a: DWord)
    ensures Below(Below(Below(Below(Below(Below(a)))))) == FrameBase(a)
  {
  }

  /** The addresses of the six frame words from `sp` upward. */
  function FrameAddrs(sp: DWord): (addrs: seq<Addr>)
    ensures |addrs| == 6
  {
    var a1 := Above(sp);
    var a2 := Above(a1);
    var a3 := Above(a2);
    var a4 := Above(a3);
    var a5 := Above(a4);
    [Addr(sp), Addr(a1), Addr(a2), Addr(a3), Addr(a4), Addr(a5)]
  }

  /** The six frame addresses are pairwise distinct. */
  lemma FrameApart(sp: DWord)
    ensures forall i, j :: 0 <= i < j < 6 ==> FrameAddrs(sp)[i] != FrameAddrs(sp)[j]
  {
  }

  /** The six frame words are present. */
  predicate FrameIn(m: Stack, sp: DWord)
  {
    var addrs := FrameAddrs(sp);
    addrs[0] in m && addrs[1] in m && addrs[2] in m && addrs[3] in m && addrs[4] in m && addrs[5] in m
  }

  /** A frame at `sp` is present in `m'` when it is the frame just pushed, or was present in `m` and memory only grew. */
  lemma FrameInEither(m: Stack, m': Stack, sp: DWord, pushed: DWord)
    requires sp == pushed || FrameIn(m, sp)
    requires FrameIn(m', pushed) && m.Keys <= m'.Keys
    ensures FrameIn(m', sp)
  {
  }

  /** The six words at sp upward, lowest address first. */
  function Frame(m: Stack, sp: DWord): seq<DWord>
    requires FrameIn(m, sp)
  {
    var addrs := FrameAddrs(sp);
    [m[addrs[0]], m[addrs[1]], m[addrs[2]], m[addrs[3]], m[addrs[4]], m[addrs[5]]]
  }

  /** Every word of `m` outside the frame at `sp` is in `m'` with the same value. */
  predicate SameOutside(m: Stack, m': Stack, sp: DWord)
  {
    forall a :: a in m && a !in FrameAddrs(sp) ==> a in m' && m'[a] == m[a]
  }

  /** The frame the pushes leave, lowest address first: the last register pushed (rbx) on top. */
  function PushedFrame(r: Regs): seq<DWord>
  {
    [r.rbx, r.rbp, r.r12, r.r13, r.r14, r.r15]
  }

  /** What the pops take from a frame at sp: rbx first, r15 last, and rsp 48 bytes higher. */
  function Popped(m: Stack, sp: DWord): (r: Regs)
    requires FrameIn(m, sp)
    ensures PushedFrame(r) == Frame(m, sp)
  {
    var f := Frame(m, sp);
    Regs(f[5], f[4], f[3], f[2], f[1], f[0], FrameEnd(sp))
  }

  /** The stack after the six pushes from `r.rsp`: r15 in the highest frame word down to rbx in the lowest. */
  function Pushed(m: Stack, r: Regs): Stack
  {
    var addrs := FrameAddrs(FrameBase(r.rsp));
    m[addrs[5] := r.r15][addrs[4] := r.r14][addrs[3] := r.r13][addrs[2] := r.r12][addrs[1] := r.rbp][addrs[0] := r.rbx]
  }

  /** After the pushes the frame at the new rsp holds the registers, last pushed lowest. */
  lemma PushedFrameHolds(m: Stack, r: Regs)
    ensures FrameIn(Pushed(m, r), FrameBase(r.rsp))
    ensures Frame(Pushed(m, r), FrameBase(r.rsp)) == PushedFrame(r)
  {
    FrameApart(FrameBase(r.rsp));
  }

  /** The pushes write no word outside their frame and remove none. */
  lemma PushedKeepsOutside(m: Stack, r: Regs)
    ensures SameOutside(m, Pushed(m, r), FrameBase(r.rsp))
    ensures m.Keys <= Pushed(m, r).Keys
  {
  }

  /** `push r15` ... `push rbx`: each push lowers rsp by 8 and stores the register there. */
  method PushAll(r: Regs, m: Stack) returns (m': Stack, sp: DWord)
    ensures sp == FrameBase(r.rsp)
    ensures m' == Pushed(m, r)
  {
    var sp1 := Below(r.rsp);
    var sp2 := Below(sp1);
    var sp3 := Below(sp2);
    var sp4 := Below(sp3);
    var sp5 := Below(sp4);
    var sp6 := Below(sp5);
    m' := m[Addr(sp1) := r.r15][Addr(sp2) := r.r14][Addr(sp3) := r.r13][Addr(sp4) := r.r12][Addr(sp5) := r.rbp][Addr(sp6) := r.rbx];
    sp := sp6;
    SixBelow(r.rsp);
    AboveBelow(sp1);
    AboveBelow(sp2);
    AboveBelow(sp3);
    AboveBelow(sp4);
    AboveBelow(sp5);
  }

  /** `pop rbx` ... `pop r15`: each pop loads the word at rsp and raises rsp by 8. */
  method PopAll(m: Stack, sp0: DWord) returns (r: Regs)
    requires FrameIn(m, sp0)
    ensures r == Popped(m, sp0)
  {
    var sp := sp0;
    var rbx := m[Addr(sp)]; sp := Above(sp);
    var rbp := m[Addr(sp)]; sp := Above(sp);
    var r12 := m[Addr(sp)]; sp := Above(sp);
    var r13 := m[Addr(sp)]; sp := Above(sp);
    var r14 := m[Addr(sp)]; sp := Above(sp);
    var r15 := m[Addr(sp)]; sp := Above(sp);
    SixAbove(sp0);
    r := Regs(r15, r14, r13, r12, rbp, rbx, sp);
  }

  /** Popping what was just pushed gives back every register and the original rsp: push and pop are LIFO-consistent. */
  lemma PopAfterPush(r: Regs, m: Stack)
    requires FrameIn(m, FrameBase(r.rsp)) && Frame(m, FrameBase(r.rsp)) == PushedFrame(r)
    ensures Popped(m, FrameBase(r.rsp)) == r
  {
    var p := Popped(m, FrameBase(r.rsp));
    assert PushedFrame(p) == PushedFrame(r);
    FrameEndOfBase(r.rsp);
  }

  /** The save half: the six pushes, then `mov [rdi + 48], rsp`; no other field of the old context is written. */
  method Save(r: Regs, stack: Stack, ctx: array<DWord>) returns (stack': Stack)
    requires ctx.Length == CONTEXT_SLOTS
    modifies ctx
    ensures FromLayout(ctx[..]) == FromLayout(old(ctx[..])).(rsp := FrameBase(r.rsp))
    ensures FrameIn(stack', FrameBase(r.rsp)) && Frame(stack', FrameBase(r.rsp)) == PushedFrame(r)
    ensures SameOutside(stack, stack', FrameBase(r.rsp))
    ensures stack.Keys <= stack'.Keys
  {
    var sp;
    stack', sp := PushAll(r, stack);
    ctx[Slot(48)] := sp;
    PushedFrameHolds(stack, r);
    PushedKeepsOutside(stack, r);
  }

  /** The load half: `mov rsp, [rsi + 48]`, the six pops, and the jump target from byte 56; no other field is read. */
  method Load(stack: Stack, ctx: array<DWord>) returns (r: Regs, target: DWord)
    requires ctx.Length == CONTEXT_SLOTS
    requires FrameIn(stack, ctx[Slot(48)])
    ensures r == Popped(stack, FromLayout(ctx[..]).rsp)
    ensures target == FromLayout(ctx[..]).rip
  {
    var newSp := ctx[Slot(48)];
    r := PopAll(stack, newSp);
    target := ctx[Slot(56)];
  }

  /**
   * `switch_context`: save into `oldCtx`, then load from `newCtx` and jump;
   * the block is `noreturn`, so the jump is its only exit. The new
   * context's stack must hold its six saved words, as the pushes of its
   * own earlier switch left them (or the pushes just made, when it is the
   * old context). Switching a context to itself restores every register
   * and rsp, and resumes at its rip.
   */
  method SwitchContext(r: Regs, stack: Stack, oldCtx: array<DWord>, newCtx: array<DWord>)
    returns (r': Regs, stack': Stack, target: DWord)
    requires oldCtx.Length == CONTEXT_SLOTS && newCtx.Length == CONTEXT_SLOTS
    requires oldCtx == newCtx || FrameIn(stack, newCtx[Slot(48)])
    modifies oldCtx
    ensures FromLayout(oldCtx[..]) == FromLayout(old(oldCtx[..])).(rsp := FrameBase(r.rsp))
    ensures FrameIn(stack', FrameBase(r.rsp)) && Frame(stack', FrameBase(r.rsp)) == PushedFrame(r)
    ensures FrameIn(stack', FromLayout(newCtx[..]).rsp)
    ensures r' == Popped(stack', FromLayout(newCtx[..]).rsp)
    ensures target == FromLayout(newCtx[..]).rip
    ensures oldCtx == newCtx ==> r' == r && target == old(newCtx[Slot(56)])
  {
    stack' := Save(r, stack, oldCtx);
    FrameInEither(stack, stack', newCtx[Slot(48)], FrameBase(r.rsp));
    r', target := Load(stack', newCtx);
    PopAfterPush(r, stack');
  }
}
