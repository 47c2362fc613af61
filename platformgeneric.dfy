/**
 * Platform-independent kernel definitions: the kernel-wide error type, the
 * system constants, and the two arithmetic helpers (checked addition and
 * timer-tick conversion). The spinlock of the same source file is a
 * concurrency primitive and is not part of this model.
 */
module PlatformGeneric {
  import opened Prelude

  datatype KernelError =
    | Success
    | ResourceBusy
    | InvalidArgument
    | NotFound
    | OutOfMemoryStatic
    | PlatformSpecificError(code: Word)
    | GenericFailure

  const MAX_TASKS: nat := 32
  const TIMER_TICK_HZ: nat := 1000
  const DEFAULT_IPC_QUEUE_DEPTH: nat := 8
  const KERNEL_LOG_LEVEL: nat := 3

  /** `checked_add` on `usize`: the sum when it fits in 64 bits, `None` otherwise. */
  function SafeAddUsize(a: U64, b: U64): (r: Option<U64>)
    ensures r.Some? <==> a + b < U64_LIMIT
    ensures r.Some? ==> r.value == a + b
  {
    if a + b < U64_LIMIT then Some(a + b) else None
  }

  /** Checked addition reports overflow exactly when the wrapped sum falls below an operand. */
  lemma SafeAddUsizeDetectsWrap(a: U64, b: U64)
    ensures SafeAddUsize(a, b).None? <==> WrappingAdd(a, b) < a
  {
  }

  lemma SafeAddUsizeCommutes(a: U64, b: U64)
    ensures SafeAddUsize(a, b) == SafeAddUsize(b, a)
  {
  }

  /** Converts timer ticks to milliseconds; the divisor is `TIMER_TICK_HZ / 1000`. */
  function TicksToMs(ticks: U64): (ms: U64)
    ensures ms <= ticks
  {
    ticks / (TIMER_TICK_HZ / 1000)
  }

  /** With a 1000 Hz tick one tick is one millisecond, so the conversion is the identity. */
  lemma TicksToMsIsIdentity(ticks: U64)
    ensures TicksToMs(ticks) == ticks
  {
  }

  lemma TicksToMsMonotone(t1: U64, t2: U64)
    requires t1 <= t2
    ensures TicksToMs(t1) <= TicksToMs(t2)
  {
  }
}
