/**
 * The reconnect delays of bot.js: an ordinary disconnect waits
 * `Math.min(300000, retryCount * 20000)` milliseconds, a kick a fixed 20000.
 */
module Backoff {

  /** Growth of the delay per consecutive disconnect, in milliseconds. */
  const StepMs: nat := 20000
  /** The ceiling of the disconnect delay ("max 5 min"). */
  const CeilingMs: nat := 300000
  /** The delay after a kick, whatever the retry count. */
  const KickDelayMs: nat := 20000

  /** The delay the `end` handler asks for once the retry counter reads `retryCount`. */
  function EndDelay(retryCount: nat): (d: nat)
    // d is the minimum of the ceiling and the linear term
    ensures d <= CeilingMs && d <= retryCount * StepMs
    ensures d == CeilingMs || d == retryCount * StepMs
  {
    if retryCount * StepMs < CeilingMs then retryCount * StepMs else CeilingMs
  }

  /** A larger retry count never yields a shorter delay. */
  lemma EndDelayMonotone(m: nat, n: nat)
    requires m <= n
    ensures EndDelay(m) <= EndDelay(n)
  {
  }

  /** Below the ceiling the delay grows by exactly one step per retry. */
  lemma EndDelayLinear(n: nat)
    requires n * StepMs <= CeilingMs
    ensures EndDelay(n) == n * StepMs
  {
  }

  /** From the fifteenth consecutive disconnect on, the delay stays at the ceiling. */
  lemma EndDelaySaturates(n: nat)
    requires n >= CeilingMs / StepMs
    ensures EndDelay(n) == CeilingMs
  {
  }

  /** The delays requested by `k` consecutive disconnects after the counter read `start`. */
  function EndDelays(start: nat, k: nat): (ds: seq<nat>)
    ensures |ds| == k
    ensures forall i :: 0 <= i < k ==> ds[i] <= CeilingMs
    decreases k
  {
    if k == 0 then [] else [EndDelay(start + 1)] + EndDelays(start + 1, k - 1)
  }

  /** The delays of consecutive disconnects form a non-decreasing sequence. */
  lemma {:induction false} EndDelaysSorted(start: nat, k: nat, i: nat, j: nat)
    requires i <= j < k
    ensures EndDelays(start, k)[i] <= EndDelays(start, k)[j]
    decreases k
  {
    if i == 0 {
      if j > 0 {
        EndDelaysSorted(start + 1, k - 1, 0, j - 1);
        EndDelayMonotone(start + 1, start + 2);
        assert EndDelays(start + 1, k - 1)[0] == EndDelay(start + 2);
      }
    } else {
      EndDelaysSorted(start + 1, k - 1, i - 1, j - 1);
    }
  }

  /** The delay at position `i` is that of the counter value `start + i + 1`. */
  lemma {:induction false} EndDelaysAt(start: nat, k: nat, i: nat)
    requires i < k
    ensures EndDelays(start, k)[i] == EndDelay(start + i + 1)
    decreases k
  {
    if i > 0 {
      EndDelaysAt(start + 1, k - 1, i - 1);
    }
  }

  /** From a spawn (counter 0), three disconnects wait 20, 40 and 60 seconds. */
  lemma ThreeDisconnectDelays()
    ensures EndDelays(0, 3) == [20000, 40000, 60000]
  {
  }
}
