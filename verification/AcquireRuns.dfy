/** Callers of `acquire` that take turns, as the worker's jobs do (src/llmbus/ratelimit.py:141-156). */
module AcquireRuns {
  import opened Prelude
  import opened TokenBuckets
  import opened BucketRuns
  import opened JointRuns
  import opened RateLimits

  /** One `acquire`: how long after the one before it returned, for how many tokens, and how far its sleep
      overshoots. */
  datatype Ask = Ask(idle: real, tokens: real, overshoot: real)

  predicate ValidAsks(asks: seq<Ask>) {
    forall k :: 0 <= k < |asks| ==> asks[k].idle >= 0.0 && asks[k].tokens >= 0.0 && asks[k].overshoot >= 0.0
  }

  /** The limiters and the clock when the first `k` calls have returned. */
  function Served(registry: Registry, provider: string, clock: real, asks: seq<Ask>, k: nat): (r: (Registry, real))
    requires ValidRegistry(registry) && k <= |asks|
    ensures ValidRegistry(r.0) && r.0.Keys == registry.Keys
  {
    if k == 0 then (registry, clock)
    else
      var (before, now) := Served(registry, provider, clock, asks, k - 1);
      var ask := asks[k - 1];
      var (after, wait) := ReservedFor(before, provider, now + ask.idle, ask.tokens);
      (after, now + ask.idle + Slept(wait, ask.overshoot))
  }

  function AskedAt(registry: Registry, provider: string, clock: real, asks: seq<Ask>, k: nat): real
    requires ValidRegistry(registry) && k < |asks|
  {
    Served(registry, provider, clock, asks, k).1 + asks[k].idle
  }

  /** When the k-th call returns and its job starts. */
  function StartedAt(registry: Registry, provider: string, clock: real, asks: seq<Ask>, k: nat): real
    requires ValidRegistry(registry) && k < |asks|
  {
    Served(registry, provider, clock, asks, k + 1).1
  }

  /** What the calls charge to the two buckets. */
  function RequestCharges(registry: Registry, provider: string, clock: real, asks: seq<Ask>): (cs: seq<Charge>)
    requires ValidRegistry(registry)
    ensures |cs| == |asks|
  {
    seq(|asks|, k requires 0 <= k < |asks| => Charge(AskedAt(registry, provider, clock, asks, k), 1.0))
  }

  function TokenCharges(registry: Registry, provider: string, clock: real, asks: seq<Ask>): (cs: seq<Charge>)
    requires ValidRegistry(registry)
    ensures |cs| == |asks|
  {
    seq(|asks|, k requires 0 <= k < |asks| => Charge(AskedAt(registry, provider, clock, asks, k), asks[k].tokens))
  }

  function Starts(registry: Registry, provider: string, clock: real, asks: seq<Ask>): (starts: seq<real>)
    requires ValidRegistry(registry)
    ensures |starts| == |asks|
  {
    seq(|asks|, k requires 0 <= k < |asks| => StartedAt(registry, provider, clock, asks, k))
  }

  lemma OneAcquire(l: Limiter, registry: Registry, provider: string, now: real, tokens: real)
    requires ValidRegistry(registry) && provider in registry && registry[provider] == l && tokens >= 0.0
    ensures l.requests.rate > 0.0 && l.tokens.rate > 0.0
    ensures ReservedFor(registry, provider, now, tokens)
         == (registry[provider := Limiter(l.requests.Charged(now, 1.0), l.tokens.Charged(now, tokens))],
             Returned(Max(l.requests.Charged(now, 1.0).Wait(), l.tokens.Charged(now, tokens).Wait())))
  {
  }

  /** The two buckets of the provider are those of the two runs of charges. */
  lemma {:induction false} ServedIsAfter(registry: Registry, provider: string, clock: real, asks: seq<Ask>, k: nat)
    requires ValidRegistry(registry) && provider in registry && ValidAsks(asks) && k <= |asks|
    ensures var l := Served(registry, provider, clock, asks, k).0[provider];
            && l.requests == After(registry[provider].requests, RequestCharges(registry, provider, clock, asks), k)
            && l.tokens == After(registry[provider].tokens, TokenCharges(registry, provider, clock, asks), k)
  {
    hide Bucket.Charged, Bucket.Wait, ReservedFor, ValidRegistry;
    if k > 0 {
      ServedIsAfter(registry, provider, clock, asks, k - 1);
      var (before, now) := Served(registry, provider, clock, asks, k - 1);
      OneAcquire(before[provider], before, provider, now + asks[k - 1].idle, asks[k - 1].tokens);
    }
  }

  /** A call returns when the wait that its own charges leave, and any overshoot, are over. */
  lemma ReturnsAfterWait(registry: Registry, provider: string, clock: real, asks: seq<Ask>, k: nat)
    requires ValidRegistry(registry) && provider in registry && ValidAsks(asks) && k < |asks|
    ensures var l := Served(registry, provider, clock, asks, k + 1).0[provider];
            && l.requests.rate > 0.0 && l.tokens.rate > 0.0
            && 0.0 <= Max(l.requests.Wait(), l.tokens.Wait())
            && AskedAt(registry, provider, clock, asks, k) + Max(l.requests.Wait(), l.tokens.Wait())
               <= StartedAt(registry, provider, clock, asks, k)
  {
    hide Bucket.Charged, Bucket.Wait, ReservedFor;
    var (before, now) := Served(registry, provider, clock, asks, k);
    OneAcquire(before[provider], before, provider, now + asks[k].idle, asks[k].tokens);
    var l := Served(registry, provider, clock, asks, k + 1).0[provider];
    WaitCovers(l.requests, 0.0);
    WaitCovers(l.tokens, 0.0);
  }

  /** Each call returns no earlier than the longer of its two grants. */
  lemma ReturnsWhenGranted(registry: Registry, provider: string, clock: real, asks: seq<Ask>, k: nat)
    requires ValidRegistry(registry) && provider in registry && ValidAsks(asks) && k < |asks|
    ensures registry[provider].requests.rate > 0.0 && registry[provider].tokens.rate > 0.0
    ensures var rs := RequestCharges(registry, provider, clock, asks);
            var ts := TokenCharges(registry, provider, clock, asks);
            && AskedAt(registry, provider, clock, asks, k)
               <= Start(registry[provider].requests, rs, registry[provider].tokens, ts, k)
               <= StartedAt(registry, provider, clock, asks, k)
  {
    hide Served, StartedAt, AskedAt, After, Bucket.Wait;
    ServedIsAfter(registry, provider, clock, asks, k + 1);
    ReturnsAfterWait(registry, provider, clock, asks, k);
  }

  lemma AsksAfterReturn(registry: Registry, provider: string, clock: real, asks: seq<Ask>, k: nat)
    requires ValidRegistry(registry) && ValidAsks(asks) && k < |asks|
    ensures if k == 0 then clock <= AskedAt(registry, provider, clock, asks, 0)
            else StartedAt(registry, provider, clock, asks, k - 1) <= AskedAt(registry, provider, clock, asks, k)
  {
    hide ReservedFor;
  }

  lemma {:induction false} AsksInOrder(registry: Registry, provider: string, clock: real, asks: seq<Ask>,
                                       i: nat, j: nat)
    requires ValidRegistry(registry) && provider in registry && ValidAsks(asks) && i <= j < |asks|
    ensures AskedAt(registry, provider, clock, asks, i) <= AskedAt(registry, provider, clock, asks, j)
    ensures i < j ==> StartedAt(registry, provider, clock, asks, j - 1) <= AskedAt(registry, provider, clock, asks, j)
    ensures clock <= AskedAt(registry, provider, clock, asks, i)
    decreases j
  {
    hide AskedAt, StartedAt, Served, ValidRegistry, ValidAsks;
    AsksAfterReturn(registry, provider, clock, asks, j);
    if i < j {
      AsksInOrder(registry, provider, clock, asks, i, j - 1);
      ReturnsAfterWait(registry, provider, clock, asks, j - 1);
    } else if i > 0 {
      AsksInOrder(registry, provider, clock, asks, i - 1, i - 1);
      ReturnsAfterWait(registry, provider, clock, asks, i - 1);
    }
  }

  lemma ChargesAreOrderly(registry: Registry, provider: string, clock: real, asks: seq<Ask>, start: real)
    requires ValidRegistry(registry) && provider in registry && ValidAsks(asks) && start <= clock
    ensures Orderly(start, RequestCharges(registry, provider, clock, asks))
    ensures Orderly(start, TokenCharges(registry, provider, clock, asks))
  {
    hide AskedAt;
    forall i, j | 0 <= i <= j < |asks|
      ensures start <= AskedAt(registry, provider, clock, asks, i) <= AskedAt(registry, provider, clock, asks, j)
    {
      AsksInOrder(registry, provider, clock, asks, i, j);
    }
  }

  lemma {:induction false} UnitSum(cs: seq<Charge>, i: nat, k: nat)
    requires i <= k <= |cs| && AllUnits(cs)
    ensures Sum(cs, i, k) == (k - i) as real
  {
    if i < k {
      UnitSum(cs, i, k - 1);
      assert (k - i) as real == (k - 1 - i) as real + 1.0;
    }
  }

  function TokensAsked(asks: seq<Ask>, i: nat, k: nat): real
    requires i <= k <= |asks|
  {
    if i == k then 0.0 else TokensAsked(asks, i, k - 1) + asks[k - 1].tokens
  }

  lemma {:induction false} TokenSum(registry: Registry, provider: string, clock: real, asks: seq<Ask>, i: nat, k: nat)
    requires ValidRegistry(registry) && i <= k <= |asks|
    ensures Sum(TokenCharges(registry, provider, clock, asks), i, k) == TokensAsked(asks, i, k)
  {
    hide AskedAt;
    if i < k {
      TokenSum(registry, provider, clock, asks, i, k - 1);
    }
  }

  /** The calls are callers that take turns on the two buckets. */
  lemma TakenInTurn(registry: Registry, provider: string, clock: real, asks: seq<Ask>, start: real)
    requires ValidRegistry(registry) && provider in registry && ValidAsks(asks) && start <= clock
    ensures registry[provider].requests.Valid() && registry[provider].tokens.Valid()
    ensures var rs := RequestCharges(registry, provider, clock, asks);
            var ts := TokenCharges(registry, provider, clock, asks);
            var starts := Starts(registry, provider, clock, asks);
            && Orderly(start, rs) && Orderly(start, ts) && Paired(rs, ts) && AllUnits(rs)
            && (forall k :: 0 <= k < |rs| ==>
                  Start(registry[provider].requests, rs, registry[provider].tokens, ts, k) <= starts[k])
            && (forall k :: 0 < k < |rs| ==> starts[k - 1] <= rs[k].at)
            && (forall k :: 0 <= k < |rs| ==> rs[k].amount == 1.0 && ts[k].amount == asks[k].tokens)
  {
    hide AskedAt, StartedAt, Start, Bucket.Valid;
    ValidLimiter(registry, provider);
    ChargesAreOrderly(registry, provider, clock, asks, start);
    hide Orderly;
    var starts := Starts(registry, provider, clock, asks);
    forall k | 0 <= k < |asks|
      ensures Start(registry[provider].requests, RequestCharges(registry, provider, clock, asks),
                    registry[provider].tokens, TokenCharges(registry, provider, clock, asks), k) <= starts[k]
    {
      ReturnsWhenGranted(registry, provider, clock, asks, k);
    }
    forall k | 0 < k < |asks|
      ensures starts[k - 1] <= AskedAt(registry, provider, clock, asks, k)
    {
      AsksInOrder(registry, provider, clock, asks, k - 1, k);
    }
  }

  lemma ValidLimiter(registry: Registry, provider: string)
    requires ValidRegistry(registry) && provider in registry
    ensures registry[provider].requests.Valid() && registry[provider].tokens.Valid()
    ensures registry[provider].requests.rate > 0.0 && registry[provider].tokens.rate > 0.0
  {
  }

  /** What a bucket allows in so many seconds: a burst, and the refill. */
  function Allowed(burst: real, rate: real, seconds: real): real {
    burst + rate * seconds
  }

  lemma AllowedInTurns(b: Bucket, cs: seq<Charge>, starts: seq<real>, i: nat, j: nat)
    requires b.Valid() && b.tokens == b.capacity && Orderly(b.updated, cs)
    requires TakeTurns(b, cs, starts) && i <= j < |cs|
    ensures |starts| == |cs|
    ensures Sum(cs, i, j + 1) <= cs[i].amount + Allowed(b.capacity, b.rate, starts[j] - starts[i])
  {
    hide Allowed, Orderly, Sum, Grant, Bucket.Valid;
    TurnsWindow(b, cs, starts, i, j);
    IsAllowed(Sum(cs, i, j + 1), cs[i].amount, b.capacity, b.rate, starts[j] - starts[i]);
  }

  lemma IsAllowed(sum: real, first: real, burst: real, rate: real, seconds: real)
    requires sum <= burst + first + rate * seconds
    ensures sum <= first + Allowed(burst, rate, seconds)
  {
  }

  /** On each of the two buckets. */
  lemma AskedInTurns(registry: Registry, provider: string, clock: real, asks: seq<Ask>, start: real, i: nat)
    requires ValidRegistry(registry) && provider in registry && ValidAsks(asks) && start <= clock && i < |asks|
    ensures registry[provider].requests.Valid() && registry[provider].tokens.Valid()
    ensures registry[provider].requests.rate > 0.0 && registry[provider].tokens.rate > 0.0
    ensures var rs := RequestCharges(registry, provider, clock, asks);
            var ts := TokenCharges(registry, provider, clock, asks);
            var starts := Starts(registry, provider, clock, asks);
            && Orderly(start, rs) && Orderly(start, ts) && AllUnits(rs)
            && TakeTurns(registry[provider].requests, rs, starts) && TakeTurns(registry[provider].tokens, ts, starts)
            && rs[i].amount == 1.0 && ts[i].amount == asks[i].tokens
            && starts[i] == StartedAt(registry, provider, clock, asks, i)
  {
    hide Orderly, AskedAt, StartedAt, Start, RequestCharges, TokenCharges, Bucket.Valid, Paired, ValidRegistry;
    hide TakeTurns;
    TakenInTurn(registry, provider, clock, asks, start);
    ValidLimiter(registry, provider);
    BothTakeTurns(registry[provider].requests, RequestCharges(registry, provider, clock, asks),
                  registry[provider].tokens, TokenCharges(registry, provider, clock, asks),
                  Starts(registry, provider, clock, asks));
  }

  lemma AcquiresFit(registry: Registry, provider: string, clock: real, asks: seq<Ask>, i: nat, j: nat)
    requires ValidRegistry(registry) && provider in registry && ValidAsks(asks) && i <= j < |asks|
    requires registry[provider].requests.tokens == registry[provider].requests.capacity
    requires registry[provider].tokens.tokens == registry[provider].tokens.capacity
    requires registry[provider].requests.updated == registry[provider].tokens.updated <= clock
    ensures var l := registry[provider];
            var span := StartedAt(registry, provider, clock, asks, j) - StartedAt(registry, provider, clock, asks, i);
            && (j + 1 - i) as real <= 1.0 + Allowed(l.requests.capacity, l.requests.rate, span)
            && TokensAsked(asks, i, j + 1) <= asks[i].tokens + Allowed(l.tokens.capacity, l.tokens.rate, span)
  {
    hide Orderly, Sum, AskedAt, StartedAt, RequestCharges, TokenCharges, Starts, Bucket.Valid, ValidRegistry, AllUnits;
    hide Allowed, TakeTurns, ValidAsks;
    var l := registry[provider];
    var rs, ts := RequestCharges(registry, provider, clock, asks), TokenCharges(registry, provider, clock, asks);
    var starts := Starts(registry, provider, clock, asks);
    AskedInTurns(registry, provider, clock, asks, l.requests.updated, i);
    AskedInTurns(registry, provider, clock, asks, l.requests.updated, j);
    AllowedInTurns(l.requests, rs, starts, i, j);
    AllowedInTurns(l.tokens, ts, starts, i, j);
    UnitSum(rs, i, j + 1);
    TokenSum(registry, provider, clock, asks, i, j + 1);
  }

  /** Callers that take turns on a provider's limiter never start more than it allows, counted at the instants
      at which their calls return: from the i-th to the j-th of them, in requests and in tokens at once. */
  lemma AcquiresThrottled(registry: Registry, provider: string, limits: ProviderLimits, start: real,
                          clock: real, asks: seq<Ask>, i: nat, j: nat)
    requires ValidRegistry(registry) && provider in registry && registry[provider] == FreshLimiter(limits, start)
    requires start <= clock && ValidAsks(asks) && i <= j < |asks|
    ensures var span := StartedAt(registry, provider, clock, asks, j) - StartedAt(registry, provider, clock, asks, i);
            && (j + 1 - i) as real <= 1.0 + Allowed(limits.requestsPerMin, limits.requestsPerMin / 60.0, span)
            && TokensAsked(asks, i, j + 1)
               <= asks[i].tokens + Allowed(limits.tokensPerMin, limits.tokensPerMin / 60.0, span)
  {
    hide StartedAt, TokensAsked, ValidRegistry, Allowed;
    AcquiresFit(registry, provider, clock, asks, i, j);
  }
}
