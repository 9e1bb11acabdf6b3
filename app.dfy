/** The retry back-off of the application's query client: a failed query is retried
    after `min(1000 * 2^attemptIndex, 30000)` milliseconds. */
module App {

  /** 2^n. */
  function Pow2(n: nat): (p: nat)
    ensures p >= 1
  {
    if n == 0 then 1 else 2 * Pow2(n - 1)
  }

  const BaseRetryDelay: nat := 1000
  const MaxRetryDelay: nat := 30000
  /** The number of retries the query client allows. */
  const RetryCount: nat := 3

  /** The delay in milliseconds before retry number `attemptIndex` (0-based). */
  function RetryDelay(attemptIndex: nat): (ms: nat)
    ensures ms <= MaxRetryDelay
    ensures ms <= BaseRetryDelay * Pow2(attemptIndex)
    ensures ms == MaxRetryDelay || ms == BaseRetryDelay * Pow2(attemptIndex)
  {
    var exponential := BaseRetryDelay * Pow2(attemptIndex);
    if exponential <= MaxRetryDelay then exponential else MaxRetryDelay
  }

  lemma {:induction false} Pow2Monotone(i: nat, j: nat)
    requires i <= j
    ensures Pow2(i) <= Pow2(j)
    decreases j
  {
    if i < j { Pow2Monotone(i, j - 1); }
  }

  /** The first five retries double the delay: 1, 2, 4, 8 and 16 seconds. */
  lemma RetryDelaySchedule()
    ensures RetryDelay(0) == 1000
    ensures RetryDelay(1) == 2000
    ensures RetryDelay(2) == 4000
    ensures RetryDelay(3) == 8000
    ensures RetryDelay(4) == 16000
  {
    assert Pow2(4) == 16;
  }

  /** From the sixth attempt on, the delay is the 30-second cap. */
  lemma RetryDelayCapped(attemptIndex: nat)
    requires attemptIndex >= 5
    ensures RetryDelay(attemptIndex) == MaxRetryDelay
  {
    Pow2Monotone(5, attemptIndex);
    assert Pow2(5) == 32;
  }

  /** The three retries the client allows all wait less than the cap, seven seconds in all. */
  lemma RetriesStayBelowCap()
    ensures forall i :: 0 <= i < RetryCount ==> RetryDelay(i) < MaxRetryDelay
    ensures RetryDelay(0) + RetryDelay(1) + RetryDelay(2) == 7000
  {
    RetryDelaySchedule();
  }

  /** A later attempt never waits less than an earlier one. */
  lemma RetryDelayMonotone(i: nat, j: nat)
    requires i <= j
    ensures RetryDelay(i) <= RetryDelay(j)
  {
    Pow2Monotone(i, j);
  }
}
