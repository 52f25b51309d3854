/** Retry policy, failure classification, backoff and the retry budget (src/llmbus/retry.py). */
module Retries {
  import opened Prelude

  datatype RetryPolicy = RetryPolicy(maxAttempts: int, baseDelay: real, maxDelay: real) {
    predicate Valid() {
      maxAttempts >= 1 && baseDelay > 0.0 && maxDelay >= baseDelay
    }
  }

  datatype WorkerPolicy = WorkerPolicy(retry: RetryPolicy, jobTimeout: real, defaultOutputTokens: int) {
    predicate Valid() {
      retry.Valid() && jobTimeout > 0.0 && defaultOutputTokens >= 0
    }
  }

  /** What the classifier sees of an exception: whether it is a builtin timeout or connection error,
      an integer status if it carries one, and its class name. */
  datatype Failure = Failure(transport: bool, status: Option<int>, name: string)

  predicate IsRetryable(failure: Failure) {
    if failure.transport then true
    else if failure.status.Some? then
      failure.status.value in {408, 409, 429} || failure.status.value >= 500
    else failure.name in {"APIConnectionError", "APITimeoutError"}
  }

  function Pow2(n: nat): nat {
    if n == 0 then 1 else 2 * Pow2(n - 1)
  }

  /** The doubled delay before retry number `index`, before the cap. */
  function Doubled(index: nat, policy: RetryPolicy): real {
    policy.baseDelay * Pow2(index) as real
  }

  /** The capped delay before retry number `index`, without jitter. */
  function Ceiling(index: nat, policy: RetryPolicy): real {
    Min(policy.maxDelay, Doubled(index, policy))
  }

  /** Full jitter: a delay scaled by a draw in [0, 1). */
  function Jittered(ceiling: real, rand: real): real {
    ceiling * rand
  }

  /** The jittered delay before retry number `index`; a negative index is refused. */
  function BackoffDelay(index: int, policy: RetryPolicy, rand: real): Outcome<real> {
    if index < 0 then Raised(ValueError) else Returned(Jittered(Ceiling(index, policy), rand))
  }

  /** The delays before the first `n` retries, without jitter. */
  function CeilingSum(n: nat, policy: RetryPolicy): real {
    if n == 0 then 0.0 else CeilingSum(n - 1, policy) + Ceiling(n - 1, policy)
  }

  /** Time one job can spend in attempts and backoff. */
  function RetryBudget(policy: WorkerPolicy): real
    requires policy.Valid()
  {
    policy.retry.maxAttempts as real * policy.jobTimeout + CeilingSum(policy.retry.maxAttempts - 1, policy.retry)
  }

  /** How many of the first `n` retries still double: their delay is below the cap. */
  function Doubling(n: nat, policy: RetryPolicy): nat {
    if n == 0 then 0
    else Doubling(n - 1, policy) + if Doubled(n - 1, policy) < policy.maxDelay then 1 else 0
  }

  lemma {:induction false} Pow2Grows(i: nat, j: nat)
    requires i <= j
    ensures 1 <= Pow2(i) <= Pow2(j)
  {
    if i < j {
      Pow2Grows(i, j - 1);
    } else if i > 0 {
      Pow2Grows(i - 1, i - 1);
    }
  }

  lemma DelaysGrow(i: nat, p: RetryPolicy, j: nat, q: RetryPolicy)
    requires p.Valid() && i <= j && p.baseDelay <= q.baseDelay
    ensures 0.0 < Doubled(i, p) <= Doubled(j, q)
  {
    hide Pow2;
    Pow2Grows(i, j);
    Growth(p.baseDelay, q.baseDelay, Pow2(i) as real, Pow2(j) as real);
  }

  lemma Growth(p: real, q: real, x: real, y: real)
    requires 0.0 < p <= q && 1.0 <= x <= y
    ensures 0.0 < p * x <= q * y
  {
    ProductMonotone(p, q, x, y);
    ProductMonotone(p, p, 1.0, x);
  }

  /** The delays that double are exactly the first ones. */
  lemma {:induction false} DoublingIsPrefix(n: nat, policy: RetryPolicy)
    requires policy.Valid()
    ensures Doubling(n, policy) <= n
    ensures forall i: nat :: i < n ==> (Doubled(i, policy) < policy.maxDelay <==> i < Doubling(n, policy))
  {
    hide Doubled;
    if n > 0 {
      DoublingIsPrefix(n - 1, policy);
      forall i: nat | i < n
        ensures Doubled(i, policy) <= Doubled(n - 1, policy)
      {
        DelaysGrow(i, policy, n - 1, policy);
      }
    }
  }

  /** The first `m` delays, while they double. */
  function Geometric(base: real, m: nat): real {
    base * (Pow2(m) - 1) as real
  }

  /** `k` delays at the cap. */
  function Capped(k: nat, cap: real): real {
    k as real * cap
  }

  /** The sum of delays in closed form: a geometric part while they double, the cap from then on. */
  lemma {:induction false} CeilingSumClosed(n: nat, policy: RetryPolicy)
    requires policy.Valid()
    ensures var m := Doubling(n, policy);
            && m <= n
            && CeilingSum(n, policy) == Geometric(policy.baseDelay, m) + Capped(n - m, policy.maxDelay)
  {
    hide Geometric, Capped, Doubled;
    if n == 0 {
      NoDelays(policy.baseDelay, policy.maxDelay);
    } else {
      CeilingSumClosed(n - 1, policy);
      DoublingIsPrefix(n, policy);
      DoublingIsPrefix(n - 1, policy);
      var m := Doubling(n - 1, policy);
      if Doubled(n - 1, policy) < policy.maxDelay {
        GeometricStep(policy, m);
      } else {
        CapStep(n - 1 - m, policy.maxDelay);
      }
    }
  }

  lemma NoDelays(base: real, cap: real)
    ensures Geometric(base, 0) == 0.0 && Capped(0, cap) == 0.0
  {
  }

  lemma GeometricStep(policy: RetryPolicy, m: nat)
    ensures Geometric(policy.baseDelay, m + 1) == Geometric(policy.baseDelay, m) + Doubled(m, policy)
  {
    Pow2Grows(0, m);
    var p := Pow2(m);
    assert (2 * p - 1) as real == (p - 1) as real + p as real;
  }

  lemma CapStep(k: nat, cap: real)
    ensures Capped(k + 1, cap) == Capped(k, cap) + cap
  {
    assert (k + 1) as real == k as real + 1.0;
  }

  /** The published budget in closed form. */
  lemma RetryBudgetClosed(policy: WorkerPolicy)
    requires policy.Valid()
    ensures var n := policy.retry.maxAttempts - 1;
            var m := Doubling(n, policy.retry);
            && m <= n
            && RetryBudget(policy)
               == (n + 1) as real * policy.jobTimeout
                + policy.retry.baseDelay * (Pow2(m) - 1) as real + (n - m) as real * policy.retry.maxDelay
  {
    hide CeilingSum, Pow2;
    CeilingSumClosed(policy.retry.maxAttempts - 1, policy.retry);
  }

  /** Each delay grows with the index and with both fields of the policy. */
  lemma CeilingMonotone(i: nat, p: RetryPolicy, j: nat, q: RetryPolicy)
    requires p.Valid() && q.Valid() && i <= j && p.baseDelay <= q.baseDelay && p.maxDelay <= q.maxDelay
    ensures 0.0 < Ceiling(i, p) <= Ceiling(j, q)
  {
    hide Doubled;
    DelaysGrow(i, p, j, q);
  }

  /** At one jitter draw, later retries never wait less; and no draw waits the whole ceiling. */
  lemma BackoffMonotone(i: nat, j: nat, policy: RetryPolicy, rand: real)
    requires policy.Valid() && i <= j && 0.0 <= rand < 1.0
    ensures BackoffDelay(i, policy, rand).value <= BackoffDelay(j, policy, rand).value
    ensures 0.0 <= BackoffDelay(j, policy, rand).value < Ceiling(j, policy)
  {
    hide Ceiling, Jittered;
    CeilingMonotone(i, policy, j, policy);
    JitterMonotone(Ceiling(i, policy), Ceiling(j, policy), rand);
    JitterShortens(Ceiling(j, policy), rand);
  }

  /** The capped delay before retry number `index`, written out. */
  lemma CeilingIs(index: nat, policy: RetryPolicy)
    requires policy.Valid()
    ensures var doubled := policy.baseDelay * Pow2(index) as real;
            Ceiling(index, policy) == if doubled < policy.maxDelay then doubled else policy.maxDelay
  {
  }

  /** The draw that makes a retry wait this long: there is one for every delay from zero up to, not including, the
      doubled and capped one, and only one. A negative retry index is refused. */
  lemma DrawForDelay(index: nat, policy: RetryPolicy, delay: real) returns (rand: real)
    requires policy.Valid()
    requires 0.0 <= delay < policy.baseDelay * Pow2(index) as real && delay < policy.maxDelay
    ensures 0.0 <= rand < 1.0 && BackoffDelay(index, policy, rand) == Returned(delay)
    ensures forall other ::
              0.0 <= other < 1.0 && BackoffDelay(index, policy, other) == Returned(delay) ==> other == rand
  {
    CeilingIs(index, policy);
    CeilingMonotone(index, policy, index, policy);
    hide Ceiling, Pow2;
    var ceiling := Ceiling(index, policy);
    rand := delay / ceiling;
    QuotientIsDraw(ceiling, delay);
    forall other | 0.0 <= other < 1.0 && BackoffDelay(index, policy, other) == Returned(delay)
      ensures other == rand
    {
      OneDraw(ceiling, rand, other);
    }
  }

  lemma QuotientIsDraw(ceiling: real, delay: real)
    requires 0.0 <= delay < ceiling
    ensures 0.0 <= delay / ceiling < 1.0 && Jittered(ceiling, delay / ceiling) == delay
  {
    TimesQuotient(ceiling, delay);
    IsDraw(ceiling, delay, delay / ceiling);
  }

  lemma IsDraw(ceiling: real, delay: real, rand: real)
    requires 0.0 <= delay < ceiling && ceiling * rand == delay
    ensures 0.0 <= rand < 1.0 && Jittered(ceiling, rand) == delay
  {
    PositiveFactor(ceiling, rand);
    if rand >= 1.0 {
      Scale(ceiling, 1.0, rand);
    }
  }

  lemma OneDraw(ceiling: real, a: real, b: real)
    requires ceiling > 0.0 && Jittered(ceiling, a) == Jittered(ceiling, b)
    ensures a == b
  {
    Unscale(ceiling, a, b);
    Unscale(ceiling, b, a);
  }

  /** The delay is linear in the draw: midway between two draws lies the delay midway between theirs. */
  lemma BackoffIsLinear(index: int, policy: RetryPolicy, a: real, b: real)
    ensures if index < 0 then BackoffDelay(index, policy, a) == Raised(ValueError)
            else
              && BackoffDelay(index, policy, a).Returned? && BackoffDelay(index, policy, b).Returned?
              && BackoffDelay(index, policy, (a + b) / 2.0)
                 == Returned((BackoffDelay(index, policy, a).value + BackoffDelay(index, policy, b).value) / 2.0)
  {
    hide Ceiling;
  }

  lemma JitterMonotone(low: real, high: real, rand: real)
    requires low <= high && 0.0 <= rand
    ensures Jittered(low, rand) <= Jittered(high, rand)
  {
    assert 0.0 <= (high - low) * rand;
  }

  lemma JitterShortens(ceiling: real, rand: real)
    requires 0.0 < ceiling && 0.0 <= rand < 1.0
    ensures 0.0 <= Jittered(ceiling, rand) < ceiling
  {
    assert 0.0 < ceiling * (1.0 - rand);
  }

  lemma {:induction false} CeilingSumMonotone(n: nat, p: RetryPolicy, k: nat, q: RetryPolicy)
    requires p.Valid() && q.Valid() && n <= k && p.baseDelay <= q.baseDelay && p.maxDelay <= q.maxDelay
    ensures 0.0 <= CeilingSum(n, p) <= CeilingSum(k, q)
  {
    hide Ceiling;
    if n < k {
      CeilingSumMonotone(n, p, k - 1, q);
      CeilingMonotone(k - 1, q, k - 1, q);
    } else if n > 0 {
      CeilingSumMonotone(n - 1, p, k - 1, q);
      CeilingMonotone(n - 1, p, k - 1, q);
    }
  }

  /** A policy that is larger in every field has a larger budget. */
  lemma RetryBudgetMonotone(p: WorkerPolicy, q: WorkerPolicy)
    requires p.Valid() && q.Valid()
    requires p.retry.maxAttempts <= q.retry.maxAttempts && p.jobTimeout <= q.jobTimeout
    requires p.retry.baseDelay <= q.retry.baseDelay && p.retry.maxDelay <= q.retry.maxDelay
    ensures RetryBudget(p) <= RetryBudget(q)
  {
    hide CeilingSum;
    CeilingSumMonotone(p.retry.maxAttempts - 1, p.retry, q.retry.maxAttempts - 1, q.retry);
    ProductMonotone(p.retry.maxAttempts as real, q.retry.maxAttempts as real, p.jobTimeout, q.jobTimeout);
  }

  lemma ProductMonotone(m: real, n: real, s: real, t: real)
    requires 0.0 <= m <= n && 0.0 <= s <= t
    ensures m * s <= n * t
  {
    Scale(s, m, n);
    Scale(n, s, t);
  }
}
