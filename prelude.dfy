/**
 * Shared vocabulary of the kernel model: the Option/Result wrappers the Rust
 * code returns, and the fixed-width machine words it computes with.
 * Registers, entries and addresses are bit-vectors so that shifts and masks
 * mean exactly what they mean on the machine; byte counts and indices that
 * the source treats as `usize` arithmetic are bounded integers.
 */
module Prelude {

  datatype Option<T> = None | Some(value: T)

  datatype Result<T, E> = Ok(value: T) | Err(error: E)

  /**
   * How a trap handler ends: it returns to the interrupted code with the
   * (possibly updated) saved context, or it panics and never returns.
   */
  datatype Outcome<C> = Resume(ctx: C) | Panic

  type Byte = bv8
  type Half = bv16
  type Word = bv32
  type DWord = bv64

  /** All targets are 64-bit, so `usize` and `u64` have the same range. */
  const U64_LIMIT: int := 0x1_0000_0000_0000_0000

  type U64 = x: int | 0 <= x < U64_LIMIT

  /** Addition modulo 2^64, the result of a `wrapping_add` or of a release-mode `+`. */
  function WrappingAdd(a: U64, b: U64): (r: U64)
    ensures r == a + b || r == a + b - U64_LIMIT
  {
    (a + b) % U64_LIMIT
  }
}
