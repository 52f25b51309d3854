/** The worker's handshake with the broker (src/llmbus/worker.py:112-158). */
module Connections {
  import opened Prelude
  import opened Retries

  function SumOf(delays: seq<real>): real {
    if delays == [] then 0.0 else SumOf(delays[..|delays| - 1]) + delays[|delays| - 1]
  }

  lemma SumOneMore(delays: seq<real>, delay: real)
    ensures SumOf(delays + [delay]) == SumOf(delays) + delay
  {
    assert (delays + [delay])[..|delays|] == delays;
  }

  /** Try until a connection stands or the attempts are used up; whatever the failure, back off in between.
      The k-th attempt connects if `connects(k)`, and draws `jitter(k)` if it has to be followed by another. */
  method ConnectBroker(policy: RetryPolicy, connects: nat -> bool, jitter: nat -> real)
      returns (connected: bool, tries: nat, slept: seq<real>)
    requires policy.Valid() && forall k: nat :: 0.0 <= jitter(k) < 1.0
    ensures 1 <= tries <= policy.maxAttempts
    ensures forall k: nat :: k < tries - 1 ==> !connects(k)
    ensures connected <==> connects(tries - 1)
    ensures !connected ==> tries == policy.maxAttempts
    ensures |slept| == tries - 1
    ensures forall k: nat :: k < |slept| ==> BackoffDelay(k, policy, jitter(k)) == Returned(slept[k])
    ensures SumOf(slept) <= CeilingSum(tries - 1, policy)
  {
    hide Ceiling, Jittered;
    var attempt: nat := 0;
    slept := [];
    while true
      invariant attempt < policy.maxAttempts && |slept| == attempt
      invariant forall k: nat :: k < attempt ==> !connects(k)
      invariant forall k: nat :: k < attempt ==> BackoffDelay(k, policy, jitter(k)) == Returned(slept[k])
      invariant SumOf(slept) <= CeilingSum(attempt, policy)
      decreases policy.maxAttempts - attempt
    {
      if connects(attempt) {
        return true, attempt + 1, slept;
      }
      if attempt + 1 >= policy.maxAttempts {
        return false, attempt + 1, slept;
      }
      BackoffMonotone(attempt, attempt, policy, jitter(attempt));
      var delay := BackoffDelay(attempt, policy, jitter(attempt));
      SumOneMore(slept, delay.value);
      slept := slept + [delay.value];
      attempt := attempt + 1;
    }
  }
}
