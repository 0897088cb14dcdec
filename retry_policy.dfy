/** The query client's default retry settings (`main.tsx`): how often
    failed queries and mutations are retried and how long a retry waits. */
module RetryPolicy {
  /** Failed queries are retried up to three times, failed mutations once. */
  const QueryRetries: nat := 3
  const MutationRetries: nat := 1

  const BaseDelayMs: nat := 1000
  const MaxDelayMs: nat := 30000

  function Pow2(n: nat): (p: nat)
    ensures p >= 1
  {
    if n == 0 then 1 else 2 * Pow2(n - 1)
  }

  /** `retryDelay`: `min(1000 * 2 ** attemptIndex, 30000)` milliseconds. */
  function RetryDelay(attemptIndex: nat): (ms: nat)
    ensures ms <= MaxDelayMs
    ensures ms == MaxDelayMs || ms == BaseDelayMs * Pow2(attemptIndex)
    ensures ms <= BaseDelayMs * Pow2(attemptIndex)
  {
    var uncapped := BaseDelayMs * Pow2(attemptIndex);
    if uncapped < MaxDelayMs then uncapped else MaxDelayMs
  }

  lemma {:induction false} Pow2Monotone(a: nat, b: nat)
    requires a <= b
    ensures Pow2(a) <= Pow2(b)
    decreases b
  {
    if a < b {
      Pow2Monotone(a, b - 1);
    }
  }

  /** The first five attempts double the delay: 1, 2, 4, 8 and 16 seconds. */
  lemma DelayDoubles(attemptIndex: nat)
    requires attemptIndex <= 4
    ensures RetryDelay(attemptIndex) == BaseDelayMs * Pow2(attemptIndex)
  {
    Pow2Monotone(attemptIndex, 4);
  }

  /** From the sixth attempt on, the delay is the 30-second cap. */
  lemma DelayCapped(attemptIndex: nat)
    requires attemptIndex >= 5
    ensures RetryDelay(attemptIndex) == MaxDelayMs
  {
    Pow2Monotone(5, attemptIndex);
  }

  /** A later attempt never waits less than an earlier one. */
  lemma DelayMonotone(a: nat, b: nat)
    requires a <= b
    ensures RetryDelay(a) <= RetryDelay(b)
  {
    Pow2Monotone(a, b);
  }

  /** The total wait before the retry after attempt index `n - 1`: the
      delays of attempt indices `0` to `n - 1` added up. */
  function BackoffTotal(n: nat): (total: nat)
    ensures total <= n * MaxDelayMs
  {
    if n == 0 then 0 else BackoffTotal(n - 1) + RetryDelay(n - 1)
  }

  /** While the cap is not reached, the delays form a geometric series:
      `n` retries wait `1000 * (2 ** n - 1)` milliseconds in all. */
  lemma {:induction false} BackoffTotalGeometric(n: nat)
    requires n <= 5
    ensures BackoffTotal(n) + BaseDelayMs == BaseDelayMs * Pow2(n)
  {
    if n > 0 {
      BackoffTotalGeometric(n - 1);
      DelayDoubles(n - 1);
    }
  }

  /** The delays for attempt indices 0, 1 and 2, one per query retry, add
      up to seven seconds. */
  lemma QueryBackoffTotal()
    ensures RetryDelay(0) + RetryDelay(1) + RetryDelay(2) == 7000
    ensures QueryRetries == 3
    ensures BackoffTotal(QueryRetries) == 7000
  {
    DelayDoubles(0);
    DelayDoubles(1);
    DelayDoubles(2);
    BackoffTotalGeometric(QueryRetries);
  }
}
