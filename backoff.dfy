/** The reconnection policy shared by the four venue clients: a close
    whose code is not 1000 schedules a reconnect while fewer than five
    attempts have been made, and the n-th attempt waits 1000 * 2^(n-1) ms. */
module Backoff {
  /** `maxReconnectAttempts` of every client. */
  const MaxReconnectAttempts: nat := 5
  /** `reconnectDelay`, the base delay in milliseconds. */
  const ReconnectDelay: nat := 1000
  /** The cap Binance's client puts on the delay. */
  const MaxDelay: nat := 30000
  /** The close code of a normal, requested closure. */
  const NormalClosure: int := 1000

  function Pow2(n: nat): (r: nat)
    ensures r >= 1
  {
    if n == 0 then 1 else 2 * Pow2(n - 1)
  }

  lemma {:induction false} Pow2Monotone(m: nat, n: nat)
    requires m <= n
    ensures Pow2(m) <= Pow2(n)
    decreases n
  {
    if m < n {
      Pow2Monotone(m, n - 1);
    }
  }

  /** The close handler's test: reconnect unless the closure was normal or
      the attempts are used up. */
  predicate ShouldReconnect(code: int, attempts: nat) {
    code != NormalClosure && attempts < MaxReconnectAttempts
  }

  /** The timer callback's test before it calls `connect` again. */
  predicate TimerReconnects(attempts: nat) {
    attempts <= MaxReconnectAttempts
  }

  /** The delay before attempt number `attempt` (counted from 1) for the
      Deribit, OKX and Bybit clients. */
  function UncappedDelay(attempt: nat): (d: nat)
    requires attempt >= 1
    ensures d >= ReconnectDelay
  {
    ReconnectDelay * Pow2(attempt - 1)
  }

  /** Each further attempt waits twice as long as the one before. */
  lemma DelayDoubles(attempt: nat)
    requires attempt >= 2
    ensures UncappedDelay(attempt) == 2 * UncappedDelay(attempt - 1)
  {
  }

  /** The delay before attempt number `attempt` for the Binance client. */
  function CappedDelay(attempt: nat): (d: nat)
    requires attempt >= 1
    ensures d <= MaxDelay && d <= UncappedDelay(attempt)
    ensures d == UncappedDelay(attempt) || d == MaxDelay
  {
    if UncappedDelay(attempt) < MaxDelay then UncappedDelay(attempt) else MaxDelay
  }

  /** A scheduled reconnect always passes the timer's test: the close
      handler only schedules while attempts < 5, so the incremented count
      is at most 5. */
  lemma ScheduledAttemptReconnects(code: int, attempts: nat)
    requires ShouldReconnect(code, attempts)
    ensures TimerReconnects(attempts + 1)
  {
  }

  /** Within the five attempts the policy allows, Binance's 30 s cap never
      takes effect: every delay is at most 16000 ms. */
  lemma {:induction false} CapNeverBinds(attempt: nat)
    requires 1 <= attempt <= MaxReconnectAttempts
    ensures UncappedDelay(attempt) <= 16000
    ensures CappedDelay(attempt) == UncappedDelay(attempt)
  {
    Pow2Monotone(attempt - 1, 4);
    assert Pow2(4) == 16;
  }

  /** The delays of the attempts 1 .. n, in order. */
  function Schedule(n: nat): (r: seq<nat>)
    ensures |r| == n
    ensures forall i :: 0 <= i < n ==> r[i] == UncappedDelay(i + 1)
  {
    if n == 0 then [] else Schedule(n - 1) + [UncappedDelay(n)]
  }

  /** Consecutive failed connections wait 1, 2, 4, 8 and 16 seconds. */
  lemma FullSchedule()
    ensures Schedule(MaxReconnectAttempts) == [1000, 2000, 4000, 8000, 16000]
  {
    assert Pow2(4) == 16;
  }
}
