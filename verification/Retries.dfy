// The retry budget and its delays: what a caller of schedule_retry can count on.
module Retries {
  import opened Attempts
  import opened DagGraph
  import opened Powers
  import opened Engine

  /** Without a Retry-After the delay doubles from one retry to the next until it reaches the cap. */
  lemma DelayDoubles(count: int)
    requires 0 <= count
    ensures var now, next := RetryDelay(count, None).0, RetryDelay(count + 1, None).0;
      && 10_000_000 <= now <= next <= 300_000_000
      && (next < 300_000_000 ==> next == 2 * now)
      && (5 <= count ==> now == 300_000_000)
    ensures RetryDelay(0, None).0 == 10_000_000
  {
    PowerMonotone(2, 0, count);
    PowerMonotone(2, count, count + 1);
    if 5 <= count {
      PowerMonotone(2, 5, count);
      assert Power(2, 5) == 32;
    }
  }

  /** A Retry-After is honoured up to a day, whatever the backoff cap, and uses up no retry. */
  lemma RetryAfterIsHonoured(count: int, seconds: int)
    requires 0 <= seconds
    ensures var (delay, left) := RetryDelay(count, Some(seconds));
      && left == count
      && (seconds <= 86_400 ==> delay == seconds * 1_000_000)
      && (86_400 <= seconds ==> delay == 86_400 * 1_000_000)
  {
  }

  /** The counter of a node after k transient failures in a row without a Retry-After. */
  function CounterAfter(k: int): int {
    if k <= 0 then 0 else RetryDelay(CounterAfter(k - 1), None).1
  }

  lemma {:induction false} CounterClimbs(k: int)
    requires 0 <= k
    ensures CounterAfter(k) == Min(k, MAX_RETRIES)
  {
    if k > 0 {
      CounterClimbs(k - 1);
    }
  }

  /**
   * A failure is retried if and only if its counter stays below the limit: the
   * counter is raised before it is compared, so without a Retry-After the last
   * of the retries is never made.
   */
  lemma RetriedIff(g: Graph, s: State, n: Id, retryAfter: Option<int>)
    requires WellFormed(g, s) && Derived(g, n)
    ensures var (t, retrying) := ScheduleRetry(g, s, n, retryAfter);
      && (retrying <==> Count(s.retries, n) < if retryAfter.Some? then MAX_RETRIES else MAX_RETRIES - 1)
      && (retrying ==> n in t.q.scheduled && t.book.meta[n].retryAt.Some?)
      && (!retrying ==> t.q == s.q && t.book == s.book)
  {
  }

  /** Of the failures in a row without a Retry-After exactly the first two are retried. */
  lemma TwoRetries(g: Graph, s: State, n: Id, k: int)
    requires WellFormed(g, s) && Derived(g, n) && 0 <= k && Count(s.retries, n) == CounterAfter(k)
    ensures ScheduleRetry(g, s, n, None).1 <==> k < 2
    ensures Count(ScheduleRetry(g, s, n, None).0.retries, n) == CounterAfter(k + 1)
  {
    CounterClimbs(k);
    RetriedIff(g, s, n, None);
  }
}
