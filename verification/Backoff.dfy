/** The library's default retry policy: how often it grants a retry, and after what delay. */
module Backoff {

  function Power(factor: real, n: nat): real {
    if n == 0 then 1.0 else Power(factor, n - 1) * factor
  }

  /** A factor of zero or less means two. */
  function Effective(factor: real): real {
    if factor > 0.0 then factor else 2.0
  }

  /** The k-th delay is drawn below this many milliseconds. */
  function Ceiling(factor: real, k: nat): (c: nat) {
    PowerPositive(Effective(factor), k);
    (Power(Effective(factor), k) * 100.0).Floor
  }

  lemma {:induction false} PowerPositive(factor: real, n: nat)
    requires factor > 0.0
    ensures Power(factor, n) > 0.0
  {
    if n == 0 {
    } else {
      PowerPositive(factor, n - 1);
    }
  }

  /** `n` to the power of `k`. */
  function IntPower(n: nat, k: nat): nat {
    if k == 0 then 1 else n * IntPower(n, k - 1)
  }

  lemma {:induction false} PowerOfInt(n: nat, k: nat)
    ensures Power(n as real, k) == IntPower(n, k) as real
  {
    if k == 0 {
    } else {
      PowerOfInt(n, k - 1);
      assert (n * IntPower(n, k - 1)) as real == n as real * IntPower(n, k - 1) as real;
    }
  }

  /**
   What the ceiling is in milliseconds: a tenth of a second times the factor for the first delay, times
   its k-th power for the k-th if it is a whole number, and a factor of zero or less counts as two.
  */
  lemma CeilingMillis(factor: real, n: nat, k: nat)
    ensures factor > 0.0 ==> Ceiling(factor, 1) == (100.0 * factor).Floor
    ensures n >= 1 ==> Ceiling(n as real, k) == 100 * IntPower(n, k)
    ensures factor <= 0.0 ==> Ceiling(factor, k) == 100 * IntPower(2, k)
  {
    PowerOfInt(n, k);
    PowerOfInt(2, k);
    assert Power(factor, 1) == Power(factor, 0) * factor == factor;
  }

  /** With a factor of at least one, later delays are drawn below higher ceilings. */
  lemma {:induction false} CeilingGrows(factor: real, j: nat, k: nat)
    requires factor >= 1.0 && j <= k
    ensures Ceiling(factor, j) <= Ceiling(factor, k)
    decreases k
  {
    if j == k {
    } else {
      CeilingGrows(factor, j, k - 1);
      PowerPositive(factor, k - 1);
      assert Power(factor, k) >= Power(factor, k - 1) by {
        assert Power(factor, k - 1) * (factor - 1.0) >= 0.0;
      }
    }
  }

  /** The draw before floor and cap: anything up to the ceiling, or anything in its upper half. */
  predicate Drawn(ceiling: nat, full: bool, d: nat) {
    if full then d <= ceiling else ceiling / 2 <= d <= 2 * (ceiling / 2)
  }

  function Bounded(d: nat, minMs: nat, maxMs: nat): nat {
    var floored := if minMs > 0 && d < minMs then minMs else d;
    if maxMs > 0 && floored > maxMs then maxMs else floored
  }

  /** The draw made of a random number. */
  function Draw(ceiling: nat, full: bool, random: nat): nat {
    if full then random % (ceiling + 1) else ceiling / 2 + random % (ceiling / 2 + 1)
  }

  /** compute_backoff_ms; `random` is the next number of the generator. */
  method ComputeBackoff(attempt: int, factor: real, minMs: nat, maxMs: nat, full: bool, random: nat)
    returns (delay: nat)
    ensures var d := Draw(Ceiling(factor, if attempt < 1 then 1 else attempt), full, random);
      delay == Bounded(d, minMs, maxMs)
  {
    var tries: nat := if attempt < 1 then 1 else attempt;
    var base := 1.0;
    var i := 0;
    while i < tries
      invariant 0 <= i <= tries && base == Power(Effective(factor), i)
    {
      base := base * if factor > 0.0 then factor else 2.0;
      i := i + 1;
    }
    PowerPositive(Effective(factor), tries);
    var ceiling: nat := (base * 100.0).Floor;
    var jitter := random % (if full then ceiling + 1 else ceiling / 2 + 1);
    delay := if full then jitter else ceiling / 2 + jitter;
    assert delay == Draw(Ceiling(factor, tries), full, random);
    if minMs > 0 && delay < minMs {
      delay := minMs;
    }
    if maxMs > 0 && delay > maxMs {
      delay := maxMs;
    }
  }

  lemma Remainder(x: nat, n: nat)
    requires n > 0
    ensures 0 <= x % n < n && (x < n ==> x % n == x)
  {}

  /** A delay can be drawn exactly when it is in the range: all of it, or with half jitter its upper half. */
  lemma DrawnIff(ceiling: nat, full: bool, d: nat)
    ensures (exists random: nat :: Draw(ceiling, full, random) == d) <==> Drawn(ceiling, full, d)
  {
    forall random: nat ensures Drawn(ceiling, full, Draw(ceiling, full, random)) {
      Remainder(random, if full then ceiling + 1 else ceiling / 2 + 1);
    }
    if Drawn(ceiling, full, d) {
      var random: nat := if full then d else d - ceiling / 2;
      Remainder(random, if full then ceiling + 1 else ceiling / 2 + 1);
      assert Draw(ceiling, full, random) == d;
    }
  }

  /** The cap always holds; the floor holds unless it is above the cap, and then every delay is the cap. */
  lemma CapWins(d: nat, minMs: nat, maxMs: nat)
    ensures maxMs > 0 ==> Bounded(d, minMs, maxMs) <= maxMs
    ensures (forall e: nat :: Bounded(e, minMs, maxMs) >= minMs) <==> minMs <= maxMs || maxMs == 0
    ensures minMs > maxMs > 0 ==> Bounded(d, minMs, maxMs) == maxMs
    ensures minMs <= d && (d <= maxMs || maxMs == 0) ==> Bounded(d, minMs, maxMs) == d
    ensures d < minMs && (minMs <= maxMs || maxMs == 0) ==> Bounded(d, minMs, maxMs) == minMs
    ensures d > maxMs > 0 ==> Bounded(d, minMs, maxMs) == maxMs
  {
    if minMs > maxMs > 0 {
      assert Bounded(0, minMs, maxMs) < minMs;
    }
  }

  /** The first retry of a request with the default factor and half jitter, and the least random number: 100 ms. */
  lemma FirstRetryDelay()
    ensures Bounded(Draw(Ceiling(2.0, 1), false, 0), 0, 0) == 100
  {
    CeilingMillis(2.0, 2, 1);
    assert IntPower(2, 1) == 2;
    Remainder(0, 101);
  }

  /** The fields of a request that its retries go by. */
  class Retries {
    const maxRetries: int
    const factor: real
    const minMs: nat
    const maxMs: nat
    const full: bool
    var current: int
    var nextRetryAt: int

    constructor (maxRetries: int, factor: real, minMs: nat, maxMs: nat, full: bool)
      ensures this.maxRetries == maxRetries && this.factor == factor && this.minMs == minMs
      ensures this.maxMs == maxMs && this.full == full && current == 0
    {
      this.maxRetries, this.factor, this.minMs, this.maxMs, this.full := maxRetries, factor, minMs, maxMs, full;
      current, nextRetryAt := 0, 0;
    }

    /** default_calculate_retry_enhanced. */
    method Retry(now: int, random: nat) returns (again: bool)
      requires current >= 0
      modifies this
      ensures again <==> maxRetries == -1 || old(current) < maxRetries
      ensures !again ==> current == old(current) && nextRetryAt == old(nextRetryAt)
      ensures again ==> current == old(current) + 1
      ensures again ==>
        nextRetryAt == now + Bounded(Draw(Ceiling(factor, current), full, random), minMs, maxMs) * 1_000_000
    {
      if maxRetries == -1 || current < maxRetries {
        current := current + 1;
        var delay := ComputeBackoff(current, factor, minMs, maxMs, full, random);
        nextRetryAt := now + delay * 1_000_000;
        return true;
      }
      return false;
    }
  }
}
