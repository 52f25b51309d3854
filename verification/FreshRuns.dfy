/** Exactly what a new limiter lets through at once, in terms of the configured limits
    (src/llmbus/ratelimit.py:98-113, 126-150). */
module FreshRuns {
  import opened Prelude
  import opened TokenBuckets
  import opened JointRuns
  import opened RateLimits

  predicate NonNegative(tokens: seq<real>) {
    forall k :: 0 <= k < |tokens| ==> tokens[k] >= 0.0
  }

  function Total(tokens: seq<real>, k: nat): real
    requires k <= |tokens|
  {
    if k == 0 then 0.0 else Total(tokens, k - 1) + tokens[k - 1]
  }

  lemma {:induction false} TotalGrows(tokens: seq<real>, i: nat, k: nat)
    requires i <= k <= |tokens| && NonNegative(tokens)
    ensures 0.0 <= Total(tokens, i) <= Total(tokens, k)
  {
    if i < k {
      TotalGrows(tokens, i, k - 1);
    } else if i > 0 {
      TotalGrows(tokens, i - 1, i - 1);
    }
  }

  /** The limiters when the first `k` jobs have reserved at one instant. */
  function Reserving(registry: Registry, provider: string, now: real, tokens: seq<real>, k: nat): (r: Registry)
    requires ValidRegistry(registry) && k <= |tokens|
    ensures ValidRegistry(r)
  {
    if k == 0 then registry
    else ReservedFor(Reserving(registry, provider, now, tokens, k - 1), provider, now, tokens[k - 1]).0
  }

  /** What the k-th of them is told. */
  function Reply(registry: Registry, provider: string, now: real, tokens: seq<real>, k: nat): Outcome<real>
    requires ValidRegistry(registry) && k < |tokens|
  {
    ReservedFor(Reserving(registry, provider, now, tokens, k), provider, now, tokens[k]).1
  }

  /** The seconds that an excess over a limit per minute takes to refill. */
  function Excess(spent: real, perMin: real): real
    requires perMin > 0.0
  {
    60.0 * Max(0.0, spent - perMin) / perMin
  }

  lemma ExcessIsZero(spent: real, perMin: real)
    requires perMin > 0.0
    ensures Excess(spent, perMin) >= 0.0
    ensures Excess(spent, perMin) == 0.0 <==> spent <= perMin
  {
    TimesQuotient(perMin, 60.0 * Max(0.0, spent - perMin));
    Unscale(perMin, 0.0, Excess(spent, perMin));
    Unscale(perMin, Excess(spent, perMin), 0.0);
  }

  /** A bucket of so much a minute from which so much was taken at its start. */
  function Spent(perMin: real, start: real, spent: real): Bucket {
    Bucket(perMin / 60.0, perMin, perMin - spent, start)
  }

  lemma ChargeSpent(perMin: real, start: real, spent: real, amount: real)
    requires perMin > 0.0 && spent >= 0.0 && amount >= 0.0
    ensures Spent(perMin, start, spent).Charged(start, amount) == Spent(perMin, start, spent + amount)
    ensures perMin / 60.0 > 0.0 && Spent(perMin, start, spent + amount).Wait() == Excess(spent + amount, perMin)
  {
    PerMinute(Max(0.0, spent + amount - perMin), perMin);
    ChargedAtOnce(Spent(perMin, start, spent), amount);
  }

  lemma OneReservation(registry: Registry, provider: string, limits: ProviderLimits, start: real,
                       requests: real, spent: real, amount: real)
    requires ValidRegistry(registry) && provider in registry && limits.Valid()
    requires requests >= 0.0 && spent >= 0.0 && amount >= 0.0
    requires registry[provider] == Limiter(Spent(limits.requestsPerMin, start, requests),
                                           Spent(limits.tokensPerMin, start, spent))
    ensures var (after, wait) := ReservedFor(registry, provider, start, amount);
            && provider in after
            && after[provider] == Limiter(Spent(limits.requestsPerMin, start, requests + 1.0),
                                          Spent(limits.tokensPerMin, start, spent + amount))
            && wait == Returned(Max(Excess(requests + 1.0, limits.requestsPerMin),
                                    Excess(spent + amount, limits.tokensPerMin)))
  {
    ChargeSpent(limits.requestsPerMin, start, requests, 1.0);
    ChargeSpent(limits.tokensPerMin, start, spent, amount);
    hide Bucket.Charged, Bucket.Wait, Excess, Spent;
  }

  lemma {:induction false} ReservedSoFar(registry: Registry, provider: string, limits: ProviderLimits, start: real,
                                         tokens: seq<real>, k: nat)
    requires ValidRegistry(registry) && provider in registry && registry[provider] == FreshLimiter(limits, start)
    requires limits.Valid() && NonNegative(tokens) && k <= |tokens|
    ensures var after := Reserving(registry, provider, start, tokens, k);
            && provider in after
            && after[provider] == Limiter(Spent(limits.requestsPerMin, start, k as real),
                                          Spent(limits.tokensPerMin, start, Total(tokens, k)))
  {
    hide ReservedFor;
    if k > 0 {
      ReservedSoFar(registry, provider, limits, start, tokens, k - 1);
      TotalGrows(tokens, k - 1, k - 1);
      var before := Reserving(registry, provider, start, tokens, k - 1);
      OneReservation(before, provider, limits, start, (k - 1) as real, Total(tokens, k - 1), tokens[k - 1]);
      assert k as real == (k - 1) as real + 1.0;
    }
  }

  /** Of jobs that reserve at the start on a new limiter, each waits exactly until what exceeds the limits, counted
      up to and with itself, has been refilled: the requests at their limit a minute or the tokens at theirs,
      whichever takes longer. */
  lemma BurstWaitsExactly(registry: Registry, provider: string, limits: ProviderLimits, start: real,
                          tokens: seq<real>, k: nat)
    requires ValidRegistry(registry) && provider in registry && registry[provider] == FreshLimiter(limits, start)
    requires limits.Valid() && NonNegative(tokens) && k < |tokens|
    ensures Reply(registry, provider, start, tokens, k)
         == Returned(Max(60.0 * Max(0.0, (k + 1) as real - limits.requestsPerMin) / limits.requestsPerMin,
                         60.0 * Max(0.0, Total(tokens, k + 1) - limits.tokensPerMin) / limits.tokensPerMin))
  {
    hide ReservedFor, Reserving;
    ReservedSoFar(registry, provider, limits, start, tokens, k);
    TotalGrows(tokens, k, k);
    var before := Reserving(registry, provider, start, tokens, k);
    OneReservation(before, provider, limits, start, k as real, Total(tokens, k), tokens[k]);
    assert (k + 1) as real == k as real + 1.0;
  }

  /** So a new limiter lets a burst through without any wait exactly if it has at most a minute's requests and at
      most a minute's tokens. */
  lemma BurstPassesExactly(registry: Registry, provider: string, limits: ProviderLimits, start: real, tokens: seq<real>)
    requires ValidRegistry(registry) && provider in registry && registry[provider] == FreshLimiter(limits, start)
    requires limits.Valid() && NonNegative(tokens) && tokens != []
    ensures (forall k :: 0 <= k < |tokens| ==> Reply(registry, provider, start, tokens, k) == Returned(0.0))
       <==> |tokens| as real <= limits.requestsPerMin && Total(tokens, |tokens|) <= limits.tokensPerMin
  {
    hide Reply;
    forall k | 0 <= k < |tokens|
      ensures Reply(registry, provider, start, tokens, k) == Returned(0.0)
         <==> (k + 1) as real <= limits.requestsPerMin && Total(tokens, k + 1) <= limits.tokensPerMin
      ensures Total(tokens, k + 1) <= Total(tokens, |tokens|)
    {
      BurstWaitsExactly(registry, provider, limits, start, tokens, k);
      ExcessIsZero((k + 1) as real, limits.requestsPerMin);
      ExcessIsZero(Total(tokens, k + 1), limits.tokensPerMin);
      TotalGrows(tokens, k + 1, |tokens|);
    }
    assert Reply(registry, provider, start, tokens, |tokens| - 1) == Returned(0.0)
      <==> |tokens| as real <= limits.requestsPerMin && Total(tokens, |tokens|) <= limits.tokensPerMin;
  }
}
