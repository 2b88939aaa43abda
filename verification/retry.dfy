/**
 * Webhook retry policy: exponential backoff with a cap and ±10% jitter, and
 * the set of HTTP statuses worth another attempt. Delays are nanoseconds
 * (Go's time.Duration); the float64 arithmetic is done on reals.
 */
module Retry {
  import opened Foreign

  /** Retry settings; delays in nanoseconds. */
  datatype RetryConfig = RetryConfig(maxRetries: int, initialDelay: int, maxDelay: int, multiplier: real)

  /** Three retries, 1s initial delay, 30s cap, doubling. */
  const DefaultRetryConfig: RetryConfig := RetryConfig(3, 1 * Second, 30 * Second, 2.0)

  function Pow(b: real, n: nat): real {
    if n == 0 then 1.0 else b * Pow(b, n - 1)
  }

  lemma {:induction false} PowNonNegative(b: real, n: nat)
    requires b >= 0.0
    ensures Pow(b, n) >= 0.0
  {
    if n > 0 {
      PowNonNegative(b, n - 1);
    }
  }

  lemma {:induction false} PowMonotone(b: real, n: nat)
    requires b >= 1.0
    ensures Pow(b, n + 1) >= Pow(b, n) >= 1.0
  {
    if n > 0 {
      PowMonotone(b, n - 1);
    }
  }

  /** The exponential delay before jitter: InitialDelay · Multiplier^(attempt−1). */
  function Exponential(attempt: int, cfg: RetryConfig): real
    requires attempt > 0
  {
    cfg.initialDelay as real * Pow(cfg.multiplier, attempt - 1)
  }

  /** The exponential delay capped at MaxDelay. */
  function Capped(attempt: int, cfg: RetryConfig): (d: real)
    requires attempt > 0
    ensures d <= cfg.maxDelay as real && d <= Exponential(attempt, cfg)
    ensures d == cfg.maxDelay as real || d == Exponential(attempt, cfg)
  {
    var e := Exponential(attempt, cfg);
    if e > cfg.maxDelay as real then cfg.maxDelay as real else e
  }

  /** Conversion of a float to time.Duration: the fraction is dropped, toward zero. */
  function Truncate(x: real): (n: int)
    ensures x >= 0.0 ==> n >= 0 && n as real <= x < n as real + 1.0
    ensures x < 0.0 ==> n <= 0 && n as real - 1.0 < x <= n as real
  {
    if x >= 0.0 then x.Floor else -((-x).Floor)
  }

  /**
   * calculateBackoff for a jitter draw `r` (rand.Float64()*2−1): zero for
   * attempt ≤ 0, otherwise the capped delay moved by r·10%, truncated.
   */
  function CalculateBackoff(attempt: int, cfg: RetryConfig, r: real): (d: int)
    ensures attempt <= 0 ==> d == 0
    ensures attempt > 0 && -1.0 <= r <= 1.0 && Capped(attempt, cfg) >= 0.0
            ==> (0.9 * Capped(attempt, cfg)).Floor <= d <= (1.1 * Capped(attempt, cfg)).Floor
  {
    if attempt <= 0 then 0
    else
      var delay := Capped(attempt, cfg);
      var jitter := delay * 0.1;
      var moved := delay + r * jitter;
      var d := Truncate(moved);
      JitterWithin(delay, r);
      assert -1.0 <= r <= 1.0 && delay >= 0.0 ==> (0.9 * delay).Floor <= d <= (1.1 * delay).Floor;
      d
  }

  /** A jitter of r·10% with |r| ≤ 1 keeps a non-negative delay within ±10%, after truncation too. */
  lemma JitterWithin(delay: real, r: real)
    ensures -1.0 <= r <= 1.0 && delay >= 0.0
            ==> (0.9 * delay).Floor <= Truncate(delay + r * (delay * 0.1)) <= (1.1 * delay).Floor
  {
    if -1.0 <= r <= 1.0 && delay >= 0.0 {
      var j := delay * 0.1;
      assert -j <= r * j <= j by {
        if r >= 0.0 {
          assert r * j <= 1.0 * j;
        } else {
          assert (-r) * j <= 1.0 * j;
        }
      }
      FloorMonotone(0.9 * delay, delay + r * j);
      FloorMonotone(delay + r * j, 1.1 * delay);
    }
  }

  lemma FloorMonotone(a: real, b: real)
    requires a <= b
    ensures a.Floor <= b.Floor
  {
    assert (a.Floor as real) <= a <= b;
  }

  /** With non-negative settings no wait is negative and none exceeds 110% of MaxDelay. */
  lemma BackoffBounded(attempt: int, cfg: RetryConfig, r: real)
    requires cfg.initialDelay >= 0 && cfg.maxDelay >= 0 && cfg.multiplier >= 0.0
    requires -1.0 <= r <= 1.0
    ensures 0 <= CalculateBackoff(attempt, cfg, r) <= (1.1 * cfg.maxDelay as real).Floor
  {
    if attempt > 0 {
      PowNonNegative(cfg.multiplier, attempt - 1);
      var c := Capped(attempt, cfg);
      assert 0.0 <= c <= cfg.maxDelay as real;
      assert 1.1 * c <= 1.1 * cfg.maxDelay as real;
    }
  }

  /** While under the cap, each retry waits Multiplier times as long (before jitter) as the one before. */
  lemma CappedGrowth(attempt: int, cfg: RetryConfig)
    requires attempt > 0
    requires Exponential(attempt, cfg) <= cfg.maxDelay as real
    requires Exponential(attempt + 1, cfg) <= cfg.maxDelay as real
    ensures Capped(attempt + 1, cfg) == cfg.multiplier * Capped(attempt, cfg)
  {
    assert Pow(cfg.multiplier, attempt) == cfg.multiplier * Pow(cfg.multiplier, attempt - 1);
  }

  /** With Multiplier ≥ 1 the pre-jitter delay never shrinks from one retry to the next. */
  lemma {:induction false} CappedMonotone(attempt: int, cfg: RetryConfig)
    requires attempt > 0 && cfg.initialDelay >= 0 && cfg.multiplier >= 1.0
    ensures Capped(attempt, cfg) <= Capped(attempt + 1, cfg)
  {
    PowMonotone(cfg.multiplier, attempt - 1);
    assert Pow(cfg.multiplier, attempt) == cfg.multiplier * Pow(cfg.multiplier, attempt - 1);
    assert Exponential(attempt, cfg) <= Exponential(attempt + 1, cfg) by {
      var p := Pow(cfg.multiplier, attempt - 1);
      assert cfg.initialDelay as real * p <= cfg.initialDelay as real * (cfg.multiplier * p);
    }
  }

  /** With 100ms initial delay, ×2 and a 5s cap: 100ms, 200ms, 400ms, then attempt 10 capped at 5s, each ±10%. */
  lemma {:induction false} BackoffSchedule(r: real)
    requires -1.0 <= r <= 1.0
    ensures var cfg := RetryConfig(3, 100 * Millisecond, 5 * Second, 2.0);
            && CalculateBackoff(0, cfg, r) == 0
            && 90 * Millisecond <= CalculateBackoff(1, cfg, r) <= 110 * Millisecond
            && 180 * Millisecond <= CalculateBackoff(2, cfg, r) <= 220 * Millisecond
            && 360 * Millisecond <= CalculateBackoff(3, cfg, r) <= 440 * Millisecond
            && 4500 * Millisecond <= CalculateBackoff(10, cfg, r) <= 5500 * Millisecond
  {
    var cfg := RetryConfig(3, 100 * Millisecond, 5 * Second, 2.0);
    assert Pow(2.0, 2) == 4.0;
    assert Pow(2.0, 9) == 512.0 by {
      assert Pow(2.0, 4) == 16.0;
      assert Pow(2.0, 8) == 256.0;
    }
    assert Capped(1, cfg) == 100_000_000.0;
    assert Capped(2, cfg) == 200_000_000.0;
    assert Capped(3, cfg) == 400_000_000.0;
    assert Capped(10, cfg) == 5_000_000_000.0;
  }

  /** isRetryableStatus: request timeout, too many requests, and the 500/502/503/504 server errors. */
  predicate IsRetryableStatus(code: int) {
    code in {408, 429, 500, 502, 503, 504}
  }

  /**
   * No success status is retried; among client errors only 408 and 429 are;
   * 425 (Too Early) and 501 (Not Implemented) are not; every retryable
   * status is a 4xx or 5xx error.
   */
  lemma RetryableClassification(code: int)
    ensures 200 <= code < 300 ==> !IsRetryableStatus(code)
    ensures 400 <= code < 500 ==> (IsRetryableStatus(code) <==> code == 408 || code == 429)
    ensures 500 <= code < 600 ==> (IsRetryableStatus(code) <==> code == 500 || 502 <= code <= 504)
    ensures IsRetryableStatus(code) ==> 400 <= code < 600
    ensures !IsRetryableStatus(425) && !IsRetryableStatus(501)
  {
  }
}
