/**
 * Bit masks and leading-zero counts on 32- and 64-bit registers, shared
 * by the interrupt controllers: a controller masks or unmasks a line by
 * OR-ing or AND-NOT-ing `1 << line` into a register, and finds the
 * highest pending line as `width - 1 - leading_zeros(pending)`.
 *
 * Register values that are only counted or compared (never masked) are
 * kept as integers below 2^32 or 2^64, where "the highest set bit is bit
 * r" reads `2^r <= x < 2^(r + 1)`.
 */
module Bits {

  /** Exactly one bit of `b` is set. */
  predicate SingleBit32(b: bv32)
  {
    b != 0 && b & (b - 1) == 0
  }

  predicate SingleBit64(b: bv64)
  {
    b != 0 && b & (b - 1) == 0
  }

  /** `1 << s` on a `u32`. */
  function Bit32(s: nat): (b: bv32)
    requires s < 32
    ensures SingleBit32(b)
  {
    (1 as bv32) << s
  }

  /** `1 << s` on a `u64`. */
  function Bit64(s: nat): (b: bv64)
    requires s < 64
    ensures SingleBit64(b)
  {
    (1 as bv64) << s
  }

  /** `x | bit`: the bits of `bit` become set, every other bit keeps its value. */
  function SetBits32(x: bv32, bit: bv32): (r: bv32)
    ensures r & bit == bit && r & !bit == x & !bit
  {
    x | bit
  }

  /** `x & !bit`: the bits of `bit` become clear, every other bit keeps its value. */
  function ClearBits32(x: bv32, bit: bv32): (r: bv32)
    ensures r & bit == 0 && r & !bit == x & !bit
  {
    x & !bit
  }

  function SetBits64(x: bv64, bit: bv64): (r: bv64)
    ensures r & bit == bit && r & !bit == x & !bit
  {
    x | bit
  }

  function ClearBits64(x: bv64, bit: bv64): (r: bv64)
    ensures r & bit == 0 && r & !bit == x & !bit
  {
    x & !bit
  }

  /** Setting is idempotent, and clearing after setting is clearing alone: a mask followed by an unmask restores the line and only the line. */
  lemma SetClearLaws32(x: bv32, bit: bv32)
    ensures SetBits32(SetBits32(x, bit), bit) == SetBits32(x, bit)
    ensures ClearBits32(ClearBits32(x, bit), bit) == ClearBits32(x, bit)
    ensures ClearBits32(SetBits32(x, bit), bit) == ClearBits32(x, bit)
    ensures SetBits32(ClearBits32(x, bit), bit) == SetBits32(x, bit)
  {
    // The bit-vector solver runs out of resource on the absorption law unless it is stated on the expanded bodies.
    assert (x | bit) & !bit == x & !bit;
  }

  lemma SetClearLaws64(x: bv64, bit: bv64)
    ensures SetBits64(SetBits64(x, bit), bit) == SetBits64(x, bit)
    ensures ClearBits64(ClearBits64(x, bit), bit) == ClearBits64(x, bit)
    ensures ClearBits64(SetBits64(x, bit), bit) == ClearBits64(x, bit)
    ensures SetBits64(ClearBits64(x, bit), bit) == SetBits64(x, bit)
  {
    // The bit-vector solver runs out of resource on the absorption law unless it is stated on the expanded bodies.
    assert (x | bit) & !bit == x & !bit;
  }

  /** 2^n. */
  function Pow2(n: nat): (p: nat)
    ensures p >= 1
  {
    if n == 0 then 1 else 2 * Pow2(n - 1)
  }

  lemma {:induction false} Pow2Monotone(a: nat, b: nat)
    requires a < b
    ensures Pow2(a + 1) <= Pow2(b)
  {
    if a + 1 < b {
      Pow2Monotone(a, b - 1);
    }
  }

  lemma Pow2Of32()
    ensures Pow2(32) == 0x1_0000_0000
  {
    assert Pow2(8) == 0x100;
    assert Pow2(16) == 0x1_0000;
    assert Pow2(24) == 0x100_0000;
  }

  lemma Pow2Of64()
    ensures Pow2(64) == 0x1_0000_0000_0000_0000
  {
    Pow2Of32();
    assert Pow2(40) == 0x100_0000_0000;
    assert Pow2(48) == 0x1_0000_0000_0000;
    assert Pow2(56) == 0x100_0000_0000_0000;
  }

  /** The index of the highest set bit of a positive `n`. */
  function {:induction false} HighestBit(n: nat): (r: nat)
    requires n >= 1
    ensures Pow2(r) <= n < Pow2(r + 1)
  {
    if n == 1 then 0 else HighestBit(n / 2) + 1
  }

  /** At most one index is the highest set bit. */
  lemma HighestBitUnique(n: nat, r: nat)
    requires Pow2(r) <= n < Pow2(r + 1)
    ensures HighestBit(n) == r
  {
    var h := HighestBit(n);
    if h < r {
      Pow2Monotone(h, r);
    } else if r < h {
      Pow2Monotone(r, h);
    }
  }

  /** `u32::leading_zeros`: 32 for zero, otherwise 31 minus the index of the highest set bit. */
  function LeadingZeros32(x: nat): (n: nat)
    requires x < 0x1_0000_0000
    ensures n <= 32
    ensures n == 32 <==> x == 0
    ensures n < 32 ==> Pow2(31 - n) <= x < Pow2(32 - n)
  {
    if x == 0 then 32
    else
      Pow2Of32();
      var r := HighestBit(x);
      assert r < 32 by {
        if r >= 32 {
          Pow2Monotone(31, r);
        }
      }
      31 - r
  }

  /** `u64::leading_zeros`: 64 for zero, otherwise 63 minus the index of the highest set bit. */
  function LeadingZeros64(x: nat): (n: nat)
    requires x < 0x1_0000_0000_0000_0000
    ensures n <= 64
    ensures n == 64 <==> x == 0
    ensures n < 64 ==> Pow2(63 - n) <= x < Pow2(64 - n)
  {
    if x == 0 then 64
    else
      Pow2Of64();
      var r := HighestBit(x);
      assert r < 64 by {
        if r >= 64 {
          Pow2Monotone(63, r);
        }
      }
      63 - r
  }

  /** Bit `i` of `n` is set. */
  predicate BitSet(n: nat, i: nat)
  {
    (n / Pow2(i)) % 2 == 1
  }

  /** A multiple of a positive `d` divides back exactly. */
  lemma MulDivExact(q: nat, d: nat)
    requires d >= 1
    ensures (q * d) / d == q && (q * d) % d == 0
  {
    var k: int, m: int := (q * d) / d, (q * d) % d;
    var diff: int := q - k;
    assert diff * d == m;
    MultipleOutsideStrip(diff, d);
  }

  /** A nonzero multiple of a positive `d` lies at least `d` away from 0. */
  lemma MultipleOutsideStrip(a: int, d: nat)
    requires d >= 1
    ensures a >= 1 ==> a * d >= d
    ensures a <= -1 ==> a * d + d <= 0
  {
  }

  lemma {:induction false} Pow2Add(a: nat, b: nat)
    ensures Pow2(a + b) == Pow2(a) * Pow2(b)
  {
    if b > 0 {
      Pow2Add(a, b - 1);
    }
  }

  /** `trailing_zeros` of a positive `n`: the index of its lowest set bit, every bit below it clear. */
  function {:induction false} TrailingZeros(n: nat): (r: nat)
    requires n >= 1
    ensures n % Pow2(r) == 0 && BitSet(n, r)
    ensures Pow2(r) <= n
  {
    if n % 2 == 1 then 0
    else
      var r' := TrailingZeros(n / 2);
      var q := (n / 2) / Pow2(r');
      assert n == q * Pow2(r' + 1);
      MulDivExact(q, Pow2(r' + 1));
      r' + 1
  }

  /** No bit below the lowest set bit is set. */
  lemma {:induction false} BelowTrailingZerosClear(n: nat, i: nat)
    requires n >= 1 && i < TrailingZeros(n)
    ensures !BitSet(n, i)
  {
    var r := TrailingZeros(n);
    var q := n / Pow2(r);
    var p, h := Pow2(i), Pow2(r - i - 1);
    assert Pow2(r) == p * (2 * h) by {
      Pow2Add(i, r - i);
    }
    var k := 2 * (q * h);
    assert n == k * p by {
      assert n == q * Pow2(r);
      Regroup(q, p, h);
    }
    MulDivExact(k, p);
  }

  lemma Regroup(q: nat, p: nat, h: nat)
    ensures q * (p * (2 * h)) == (2 * (q * h)) * p
  {
  }
}
