/**
 * The backoff rule of `YouTubeScraper._handle_rate_limit`
 * (youtube_scraper/scraper.py) and the record of a requested sleep.
 */
module Backoff {

  import opened Wrappers

  /** A requested sleep whose length is drawn uniformly from `[lo, hi]`
      (`random.uniform`); the draw itself is not modelled. */
  datatype Wait = Wait(lo: real, hi: real)

  /** The cap on the base delay, in seconds ("Cap at 5 minutes"). */
  const DelayCap: nat := 300

  function Pow2(n: nat): (r: nat)
    ensures r >= 1
  {
    if n == 0 then 1 else 2 * Pow2(n - 1)
  }

  /** `min(300, 2 ** retry_count)`. */
  function BaseDelay(retryCount: nat): (d: nat)
    ensures 1 <= d <= DelayCap
  {
    if Pow2(retryCount) < DelayCap then Pow2(retryCount) else DelayCap
  }

  /** `_handle_rate_limit(retry_count)`: None when it raises
      `Exception("Max retries exceeded")`, otherwise the sleep of
      `base_delay + uniform(0, 0.1 * base_delay)` it performs. */
  function RateLimitWait(maxRetries: int, retryCount: nat): (r: Option<Wait>)
    ensures r.None? <==> retryCount >= maxRetries
    ensures r.Some? ==> 1.0 <= r.value.lo <= r.value.hi <= 330.0
    ensures r.Some? ==> r.value.hi - r.value.lo == r.value.lo / 10.0
  {
    if retryCount >= maxRetries then None
    else
      var base := BaseDelay(retryCount) as real;
      Some(Wait(base, base + 0.1 * base))
  }

  lemma {:induction false} Pow2Monotone(m: nat, n: nat)
    requires m <= n
    ensures Pow2(m) <= Pow2(n)
  {
    if m < n { Pow2Monotone(m, n - 1); }
  }

  /** The base delay never decreases as the retry count grows. */
  lemma BaseDelayMonotone(m: nat, n: nat)
    requires m <= n
    ensures BaseDelay(m) <= BaseDelay(n)
  {
    Pow2Monotone(m, n);
  }

  /** The base delay doubles up to 256 s (retry 8) and is 300 s from retry 9 on. */
  lemma {:induction false} BaseDelayValues(n: nat)
    ensures n <= 8 ==> BaseDelay(n) == Pow2(n) && Pow2(n) <= 256
    ensures n >= 9 ==> BaseDelay(n) == DelayCap
  {
    if n > 0 { BaseDelayValues(n - 1); }
    if n >= 9 {
      Pow2Monotone(9, n);
      assert Pow2(9) == 512;
    }
  }
}
