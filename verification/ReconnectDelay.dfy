/** Exponential backoff with jitter (src/stream.rs:89-136). Durations are in nanoseconds. */
module ReconnectDelay {
  import opened Numbers

  const SECOND: nat := 1_000_000_000
  /** The longest representable duration. */
  const DURATION_MAX: nat := (U64 - 1) * SECOND + (SECOND - 1)

  function Pow2(k: nat): nat {
    if k == 0 then 1 else 2 * Pow2(k - 1)
  }

  /** The raw delay of the call after `k` calls since the last reset. */
  function Base(k: nat, max: nat): nat {
    Min(Pow2(k) * SECOND, max)
  }

  lemma {:induction false} Pow2Positive(k: nat)
    ensures Pow2(k) >= 1
  {
    if k > 0 { Pow2Positive(k - 1); }
  }

  lemma {:induction false} Pow2Mono(j: nat, k: nat)
    requires j <= k
    ensures Pow2(j) <= Pow2(k)
  {
    if j < k { Pow2Mono(j, k - 1); }
  }

  /** Doubling the capped delay and capping it again is the next capped power of two. */
  lemma {:induction false} DoubledBase(k: nat, max: nat)
    ensures Min(2 * Base(k, max), max) == Base(k + 1, max)
  {
    Pow2Positive(k);
    assert Pow2(k + 1) * SECOND == 2 * (Pow2(k) * SECOND);
  }

  /** Delays never shrink between resets. */
  lemma {:induction false} BaseMonotone(j: nat, k: nat, max: nat)
    requires j <= k
    ensures Base(j, max) <= Base(k, max)
  {
    Pow2Mono(j, k);
    assert Pow2(j) * SECOND <= Pow2(k) * SECOND;
  }

  class Backoff {
    const max: nat
    var current: nat
    var jitterSeed: nat
    /** Calls of `NextDelay` since the last reset. */
    ghost var calls: nat

    ghost predicate Valid()
      reads this
    {
      && jitterSeed < U64
      && max * 249 <= DURATION_MAX
      && Min(current, max) == Base(calls, max)
      && (current <= max || current == SECOND)
    }

    constructor (max: nat, seed: nat)
      requires max * 249 <= DURATION_MAX && seed < U64
      ensures Valid() && this.max == max && calls == 0
    {
      this.max, current, jitterSeed, calls := max, SECOND, seed, 0;
    }

    method Reset()
      requires Valid()
      modifies this
      ensures Valid() && calls == 0 && jitterSeed == old(jitterSeed)
    {
      current, calls := SECOND, 0;
    }

    /** The next delay: the capped power of two, and up to 249/1000 of it on top. */
    method NextDelay() returns (delay: nat)
      requires Valid()
      modifies this
      ensures Valid() && calls == old(calls) + 1
      ensures Base(old(calls), max) <= delay
      ensures delay * 1000 <= Base(old(calls), max) * 1249
      ensures jitterSeed == (old(jitterSeed) * 6364136223846793005 + 1) % U64
    {
      var base := Min(current, max);
      DoubledBase(calls, max);
      assert Min(current * 2, max) == Min(2 * base, max);
      current := Min(current * 2, max);
      calls := calls + 1;
      jitterSeed := (jitterSeed * 6364136223846793005 + 1) % U64;
      var frac := (jitterSeed / 0x2_0000_0000) % 250;
      JitterBound(base, frac);
      delay := base + base * frac / 1000;
    }
  }

  lemma {:induction false} JitterBound(base: nat, frac: nat)
    requires frac <= 249
    ensures 0 <= base * frac / 1000 && (base * frac / 1000) * 1000 <= base * 249
  {
    assert base * frac <= base * 249;
  }

  const BACKOFF_RESET_AFTER: nat := 30 * SECOND

  /** Whether a finished connection counts as healthy. */
  predicate ResetsBackoff(deliveredAny: bool, uptime: nat) {
    deliveredAny || uptime >= BACKOFF_RESET_AFTER
  }
}
