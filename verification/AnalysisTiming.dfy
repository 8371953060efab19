/** Retry and polling delays of post-call analysis.
    Seconds are reals; the random jitter is any value in [0, 1]. */
module AnalysisTiming {
  import opened Basics

  function Pow2(n: nat): (r: int)
    ensures r >= 1
  {
    if n == 0 then 1 else 2 * Pow2(n - 1)
  }

  /** The undithered exponential delay. */
  function FullBackoff(attempt: int, base: real, cap: real): real
  {
    Min(cap, base * Pow2(if attempt - 1 > 0 then attempt - 1 else 0) as real)
  }

  /** Jitter in [0, 1] spreads a delay over its upper half. */
  function Dithered(full: real, jitter: real): real { full * (0.5 + 0.5 * jitter) }

  function BackoffDelay(attempt: int, base: real, cap: real, retryAfter: Option<int>, jitter: real): real
  {
    var delay := Dithered(FullBackoff(attempt, base, cap), jitter);
    if retryAfter.Some? && retryAfter.value > 0
    then Max(delay, Min(retryAfter.value as real, cap))
    else delay
  }

  function PollDelay(elapsed: real, base: real, cap: real, jitter: real): real
  {
    Min(cap, Max(base, elapsed * 0.5)) * (0.75 + 0.25 * jitter)
  }

  lemma NonNegativeProduct(x: real, y: real)
    requires 0.0 <= x && 0.0 <= y
    ensures 0.0 <= x * y
  {
  }

  lemma ScaleBetween(x: real, lo: real, hi: real, f: real)
    requires 0.0 <= x && lo <= f <= hi
    ensures x * lo <= x * f <= x * hi
  {
    assert x * (f - lo) >= 0.0;
    assert x * (hi - f) >= 0.0;
  }

  /** A poll never waits less than three quarters of the base nor more than the cap, and for a
      fixed jitter it never gets shorter as the wait so far grows. */
  lemma PollDelayBounds(elapsed: real, later: real, base: real, cap: real, jitter: real)
    requires 0.0 < base <= cap && 0.0 <= jitter <= 1.0 && elapsed <= later
    ensures 3.0 * base <= 4.0 * PollDelay(elapsed, base, cap, jitter)
    ensures PollDelay(elapsed, base, cap, jitter) <= cap
    ensures PollDelay(elapsed, base, cap, jitter) <= PollDelay(later, base, cap, jitter)
  {
    var x := Min(cap, Max(base, elapsed * 0.5));
    var y := Min(cap, Max(base, later * 0.5));
    ScaleBetween(x, 0.75, 1.0, 0.75 + 0.25 * jitter);
    ScaleBetween(0.75 + 0.25 * jitter, x, y, y);
  }

  lemma FullBackoffBounds(attempt: int, base: real, cap: real)
    requires 0.0 < base <= cap
    ensures base <= FullBackoff(attempt, base, cap) <= cap
  {
    var p := Pow2(if attempt - 1 > 0 then attempt - 1 else 0) as real;
    ScaleBetween(base, 1.0, p, p);
  }

  lemma DitheredBounds(full: real, jitter: real)
    requires 0.0 <= full && 0.0 <= jitter <= 1.0
    ensures full <= 2.0 * Dithered(full, jitter) && Dithered(full, jitter) <= full
  {
    NonNegativeProduct(full, jitter);
    NonNegativeProduct(full, 1.0 - jitter);
    assert Dithered(full, jitter) == 0.5 * full + 0.5 * (full * jitter);
  }

  /** A backoff stays between half the base and the cap, and a positive Retry-After is honoured
      up to the cap. */
  lemma BackoffDelayBounds(attempt: int, base: real, cap: real, retryAfter: Option<int>, jitter: real)
    requires 0.0 < base <= cap && 0.0 <= jitter <= 1.0
    ensures base <= 2.0 * BackoffDelay(attempt, base, cap, retryAfter, jitter)
    ensures BackoffDelay(attempt, base, cap, retryAfter, jitter) <= cap
    ensures retryAfter.Some? && retryAfter.value > 0 ==>
      BackoffDelay(attempt, base, cap, retryAfter, jitter) >= Min(retryAfter.value as real, cap)
  {
    FullBackoffBounds(attempt, base, cap);
    DitheredBounds(FullBackoff(attempt, base, cap), jitter);
  }

  /** The undithered delay starts at the base and doubles with every further attempt, up to the cap. */
  lemma BackoffDoubles(attempt: int, base: real, cap: real)
    requires 0.0 < base <= cap && attempt >= 1
    ensures FullBackoff(1, base, cap) == base
    ensures FullBackoff(attempt + 1, base, cap) ==
      if 2.0 * FullBackoff(attempt, base, cap) <= cap then 2.0 * FullBackoff(attempt, base, cap) else cap
    ensures forall early: int :: early < 1 ==> FullBackoff(early, base, cap) == base
  {
    var p := Pow2(attempt - 1) as real;
    assert Pow2(attempt) as real == 2.0 * p;
    assert base * (2.0 * p) == 2.0 * (base * p);
    assert Pow2(0) == 1;
  }

  /** Jitter spreads a backoff evenly over its upper half; a Retry-After raises it, at most to the cap. */
  lemma BackoffSpread(attempt: int, base: real, cap: real, retryAfter: Option<int>, jitter: real)
    ensures 2.0 * BackoffDelay(attempt, base, cap, None, jitter) ==
      FullBackoff(attempt, base, cap) + FullBackoff(attempt, base, cap) * jitter
    ensures var own := BackoffDelay(attempt, base, cap, None, jitter);
      var asked := if retryAfter.Some? && retryAfter.value > 0 then Min(retryAfter.value as real, cap) else own;
      BackoffDelay(attempt, base, cap, retryAfter, jitter) == if asked > own then asked else own
  {
    var full := FullBackoff(attempt, base, cap);
    assert full * (0.5 + 0.5 * jitter) == 0.5 * full + 0.5 * (full * jitter);
  }

  /** At full jitter a poll waits half the age so far, between base and cap; without jitter three quarters of
      that. */
  lemma PollFollowsAge(elapsed: real, base: real, cap: real)
    requires 0.0 < base <= cap
    ensures PollDelay(elapsed, base, cap, 1.0) ==
      if elapsed <= 2.0 * base then base else if elapsed >= 2.0 * cap then cap else elapsed / 2.0
    ensures 4.0 * PollDelay(elapsed, base, cap, 0.0) == 3.0 * PollDelay(elapsed, base, cap, 1.0)
  {
  }
}
