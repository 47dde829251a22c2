/** Retry delays of the outbox publisher. Durations are whole nanoseconds. */
module Backoff {

  const SECOND := 1_000_000_000
  const DUPLICATE_WINDOW := 120 * SECOND

  function Pow2(n: nat): (p: nat)
    ensures p >= 1
  {
    if n == 0 then 1 else 2 * Pow2(n - 1)
  }

  function Min(a: int, b: int): int { if a < b then a else b }

  function Max(a: int, b: int): int { if a < b then b else a }

  /** The documented delay before the n-th retry: base * 2^(n-1), capped. */
  function Delay(base: int, n: int, cap: int): int {
    if base <= 0 then 0 else Min(base * Pow2(Max(n - 1, 0)), cap)
  }

  lemma {:induction false} Pow2Monotone(m: nat, n: nat)
    requires m <= n
    ensures Pow2(m) <= Pow2(n)
    decreases n
  {
    if m < n {
      Pow2Monotone(m, n - 1);
    }
  }

  lemma ScaleMonotone(base: int, a: int, b: int)
    requires base >= 0 && a <= b
    ensures base * a <= base * b
  {
  }

  lemma DoubleStep(base: int, i: nat)
    requires i >= 1
    ensures base * Pow2(i - 1) * 2 == base * Pow2(i)
  {
    assert Pow2(i) == 2 * Pow2(i - 1);
  }

  /** The first retry waits the base, each later one twice as long as the one before, up to the cap. */
  lemma DelayDoubles(base: int, n: int, cap: int)
    requires base > 0 && cap >= 0
    ensures Delay(base, 1, cap) == (if base < cap then base else cap)
    ensures Delay(base, 1, DUPLICATE_WINDOW) == (if base < 2 * 60 * 1_000_000_000 then base else 2 * 60 * 1_000_000_000)
    ensures n >= 1 ==> Delay(base, n + 1, cap) == (if 2 * Delay(base, n, cap) < cap then 2 * Delay(base, n, cap) else cap)
    ensures Delay(0, n, cap) == 0 && Delay(-base, n, cap) == 0
  {
    assert Pow2(0) == 1;
    if n >= 1 {
      DoubleStep(base, n);
    }
  }

  /** Later retries never wait less, and no wait exceeds the cap. */
  lemma DelayMonotone(base: int, m: int, n: int, cap: int)
    requires m <= n
    ensures Delay(base, m, cap) <= Delay(base, n, cap)
    ensures base > 0 ==> Delay(base, n, cap) <= cap
    ensures base > 0 && Delay(base, m, cap) == cap ==> Delay(base, n, cap) == cap
  {
    if base > 0 {
      Pow2Monotone(Max(m - 1, 0), Max(n - 1, 0));
      ScaleMonotone(base, Pow2(Max(m - 1, 0)), Pow2(Max(n - 1, 0)));
    }
  }

  /** Once base * 2^k has reached the cap, every later delay is the cap. */
  lemma CapReached(base: int, k: nat, n: int, cap: int)
    requires base > 0 && base * Pow2(k) >= cap && k <= Max(n - 1, 0)
    ensures Delay(base, n, cap) == cap
  {
    DelayMonotone(base, k + 1, Max(n, 1), cap);
  }

  /** The counted-failure delay. `peak` is the largest value the loop variable ever held: it
      bounds the arithmetic, so 64-bit durations cannot overflow while base and cap stay within
      2^62. It stays below twice the larger of base and cap, except when the base is not
      below the cap and the loop doubles it once; it is then exactly twice the base. */
  method CountedBackoff(base: int, maxBackoff: int, attempts: int) returns (d: int, ghost peak: int)
    ensures d == Delay(base, attempts, maxBackoff)
    ensures base > 0 ==> d <= peak <= 2 * Max(base, maxBackoff)
    ensures base > 0 ==> (peak < 2 * Max(base, maxBackoff) <==> base < maxBackoff || attempts <= 1)
    ensures base > 0 && base >= maxBackoff && attempts > 1 ==> peak == 2 * base
  {
    peak := 0;
    if base <= 0 {
      return 0, 0;
    }
    d := base;
    peak := d;
    var i := 1;
    while i < attempts
      invariant 1 <= i <= Max(attempts, 1)
      invariant d == base * Pow2(i - 1)
      invariant i > 1 ==> d < maxBackoff
      invariant d <= peak <= 2 * Max(base, maxBackoff)
      invariant base < maxBackoff ==> peak < 2 * maxBackoff
      invariant i == 1 ==> peak == base
      invariant i > 1 ==> base < maxBackoff
    {
      DoubleStep(base, i);
      d := d * 2;
      peak := Max(peak, d);
      if d >= maxBackoff {
        CapReached(base, i, attempts, maxBackoff);
        return maxBackoff, peak;
      }
      i := i + 1;
    }
    if d > maxBackoff {
      d := maxBackoff;
    }
  }

  /** The transient-failure delay: additionally capped by the duplicate window, so a retry of
      a publish that timed out still falls inside the broker's deduplication. */
  method TransientBackoff(base: int, maxBackoff: int, failures: int) returns (d: int, ghost peak: int)
    ensures d == Delay(base, failures, Min(maxBackoff, DUPLICATE_WINDOW))
    ensures base > 0 ==> d <= maxBackoff && d <= 2 * 60 * 1_000_000_000
    ensures base > 0 ==> d <= peak < 2 * Max(base, Min(maxBackoff, DUPLICATE_WINDOW))
  {
    peak := 0;
    if base <= 0 {
      return 0, 0;
    }
    var limit := maxBackoff;
    if limit > DUPLICATE_WINDOW {
      limit := DUPLICATE_WINDOW;
    }
    d := base;
    peak := d;
    var i := 1;
    while i < failures && d < limit
      invariant 1 <= i <= Max(failures, 1)
      invariant d == base * Pow2(i - 1) && d <= peak
      invariant peak < 2 * Max(base, limit)
    {
      DoubleStep(base, i);
      d := d * 2;
      peak := Max(peak, d);
      i := i + 1;
    }
    if d >= limit {
      CapReached(base, i - 1, failures, limit);
    }
    if d > limit {
      d := limit;
    }
  }
}
