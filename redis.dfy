/** The reconnect policy handed to the Redis client: after the `times`-th
    failed attempt to reach the server, wait `min(times * 50, 2000)`
    milliseconds before the next one. */
module RedisConfig {
  import opened Common

  /** Milliseconds added per failed attempt. */
  const RetryStepMs := 50

  /** The longest wait between two attempts, in milliseconds. */
  const RetryCeilingMs := 2000

  /** `retryStrategy(times)`. Its result is always a number, which the client
      reads as "retry after this many milliseconds"; it never gives up. */
  function RetryStrategy(times: int): (delay: int)
    ensures delay <= RetryCeilingMs
    ensures delay <= times * RetryStepMs
    ensures delay == times * RetryStepMs || delay == RetryCeilingMs
    ensures times >= 0 ==> delay >= 0
  {
    Min(times * RetryStepMs, RetryCeilingMs)
  }

  /** A later attempt never waits less than an earlier one. */
  lemma RetryStrategyMonotone(earlier: int, later: int)
    requires earlier <= later
    ensures RetryStrategy(earlier) <= RetryStrategy(later)
  {
  }

  /** Up to the 40th attempt the wait grows by 50 ms per attempt. */
  lemma RetryStrategyLinear(times: int)
    requires 0 <= times <= 40
    ensures RetryStrategy(times) == 50 * times
  {
  }

  /** From the 40th attempt on the wait stays at the 2000 ms ceiling. */
  lemma RetryStrategyCapped(times: int)
    requires times >= 40
    ensures RetryStrategy(times) == 2000
  {
  }
}
