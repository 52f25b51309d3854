/** The per-provider limiter and the throttle point that workers await (src/llmbus/ratelimit.py:30-156). */
module RateLimits {
  import opened Prelude
  import opened TokenBuckets
  import opened BucketRuns

  /** A provider's ceilings per minute. */
  datatype ProviderLimits = ProviderLimits(requestsPerMin: real, tokensPerMin: real) {
    predicate Valid() {
      requestsPerMin > 0.0 && tokensPerMin > 0.0
    }
  }

  /** The value of one provider's limiter. */
  datatype Limiter = Limiter(requests: Bucket, tokens: Bucket) {

    predicate Valid() {
      requests.Valid() && tokens.Valid()
    }

    /** Both buckets are charged, or a negative amount is refused and neither is. */
    function Reserved(now: real, tokenAmount: real, requestAmount: real): (Limiter, Outcome<real>)
      requires Valid()
    {
      if tokenAmount < 0.0 || requestAmount < 0.0 then (this, Raised(ValueError))
      else
        var r, t := requests.Charged(now, requestAmount), tokens.Charged(now, tokenAmount);
        (Limiter(r, t), Returned(Max(r.Wait(), t.Wait())))
    }
  }

  /** A provider's limiter starts with two full buckets that refill within a minute. */
  function FreshLimiter(limits: ProviderLimits, start: real): Limiter {
    Limiter(Fresh(limits.requestsPerMin / 60.0, limits.requestsPerMin, start),
            Fresh(limits.tokensPerMin / 60.0, limits.tokensPerMin, start))
  }

  class ProviderLimiter {
    const requests: TokenBucket
    const tokens: TokenBucket

    predicate Valid()
      reads requests, tokens
    {
      requests != tokens && View().Valid()
    }

    function View(): Limiter
      reads requests, tokens
    {
      Limiter(requests.View(), tokens.View())
    }

    constructor (limits: ProviderLimits, now: real)
      requires limits.Valid()
      ensures Valid() && fresh(requests) && fresh(tokens)
      ensures View() == FreshLimiter(limits, now)
    {
      requests := new TokenBucket(limits.requestsPerMin / 60.0, limits.requestsPerMin, now);
      tokens := new TokenBucket(limits.tokensPerMin / 60.0, limits.tokensPerMin, now);
    }

    method Reserve(now: real, tokenAmount: real, requestAmount: real) returns (wait: Outcome<real>)
      requires Valid()
      modifies requests, tokens
      ensures Valid()
      ensures (View(), wait) == old(View()).Reserved(now, tokenAmount, requestAmount)
    {
      if tokenAmount < 0.0 {
        return Raised(ValueError);
      }
      var waitRequests := requests.Reserve(now, requestAmount);
      if waitRequests.Raised? {
        return waitRequests;
      }
      var waitTokens := tokens.Reserve(now, tokenAmount);
      if waitTokens.Raised? {
        return waitTokens;
      }
      wait := Returned(Max(waitRequests.value, waitTokens.value));
    }
  }

  /** The limiters of all providers, as values. */
  type Registry = map<string, Limiter>

  predicate ValidRegistry(registry: Registry) {
    forall p :: p in registry ==> registry[p].Valid()
  }

  /** One job's reservation against a named provider: exactly one request is spent. */
  function ReservedFor(registry: Registry, provider: string, now: real, tokens: real): (r: (Registry, Outcome<real>))
    requires ValidRegistry(registry)
    ensures ValidRegistry(r.0) && r.0.Keys == registry.Keys
  {
    if provider !in registry then (registry, Raised(UnknownProvider(provider)))
    else
      var (after, wait) := registry[provider].Reserved(now, tokens, 1.0);
      (registry[provider := after], wait)
  }

  /** The injected clock and sleep; sleeping may overshoot. */
  class Clock {
    var now: real

    constructor (now: real)
      ensures this.now == now
    {
      this.now := now;
    }

    method Sleep(seconds: real, overshoot: real)
      requires seconds >= 0.0 && overshoot >= 0.0
      modifies this
      ensures now == old(now) + seconds + overshoot
    {
      now := now + seconds + overshoot;
    }
  }

  /** No two of the limiters share a bucket in any dimension. */
  ghost predicate Apart(limiters: map<string, ProviderLimiter>) {
    && (forall p, q :: p in limiters && q in limiters ==> limiters[p].requests != limiters[q].tokens)
    && (forall p, q :: p in limiters && q in limiters && p != q ==>
          limiters[p].requests != limiters[q].requests && limiters[p].tokens != limiters[q].tokens)
  }

  lemma NoneApart()
    ensures Apart(map[])
  {
  }

  lemma OneMoreApart(limiters: map<string, ProviderLimiter>, p: string, limiter: ProviderLimiter)
    requires Apart(limiters) && limiter.requests != limiter.tokens
    requires forall q :: q in limiters ==>
               && limiter.requests != limiters[q].requests && limiter.requests != limiters[q].tokens
               && limiter.tokens != limiters[q].requests && limiter.tokens != limiters[q].tokens
    ensures Apart(limiters[p := limiter])
  {
  }

  class RateLimiter {
    const limiters: map<string, ProviderLimiter>

    ghost function Repr(): set<TokenBucket> {
      (set p | p in limiters :: limiters[p].requests) + (set p | p in limiters :: limiters[p].tokens)
    }

    /** No two providers share a bucket, and none uses one bucket for both dimensions. */
    ghost predicate Valid()
      reads Repr()
    {
      && (forall p :: p in limiters ==> limiters[p].Valid())
      && Apart(limiters)
    }

    ghost function View(): Registry
      reads Repr()
    {
      map p | p in limiters :: limiters[p].View()
    }

    /** One fresh limiter for each entry. */
    static method Make(limits: map<string, ProviderLimits>, start: real) returns (made: map<string, ProviderLimiter>)
      requires forall p :: p in limits ==> limits[p].Valid()
      ensures made.Keys == limits.Keys && Apart(made)
      ensures forall p :: p in made ==> fresh(made[p].requests) && fresh(made[p].tokens)
      ensures forall p :: p in made ==> made[p].Valid() && made[p].View() == FreshLimiter(limits[p], start)
    {
      hide FreshLimiter, ProviderLimiter.View, Bucket.Valid, Limiter.Valid, ProviderLimits.Valid, Apart;
      made := map[];
      var left := limits.Keys;
      NoneApart();
      while left != {}
        invariant left <= limits.Keys && made.Keys == limits.Keys - left
        invariant forall p :: p in made ==>
          && fresh(made[p].requests) && fresh(made[p].tokens)
          && made[p].Valid() && made[p].View() == FreshLimiter(limits[p], start)
        invariant Apart(made)
        decreases |left|
      {
        var p :| p in left;
        var limiter := new ProviderLimiter(limits[p], start);
        OneMoreApart(made, p, limiter);
        made := made[p := limiter];
        left := left - {p};
      }
    }

    constructor (limits: map<string, ProviderLimits>, start: real)
      requires forall p :: p in limits ==> limits[p].Valid()
      ensures Valid() && fresh(Repr())
      ensures View() == map p | p in limits :: FreshLimiter(limits[p], start)
    {
      hide FreshLimiter, ProviderLimiter.View, ProviderLimiter.Valid, ProviderLimits.Valid, Apart;
      var made := RateLimiter.Make(limits, start);
      limiters := made;
    }

    lemma ViewIsValid()
      requires Valid()
      ensures ValidRegistry(View())
    {
    }

    /** The synchronous decision: an unknown provider or a negative amount is refused without any charge. */
    method Reserve(provider: string, now: real, tokens: real) returns (wait: Outcome<real>)
      requires Valid()
      modifies Repr()
      ensures Valid()
      ensures ValidRegistry(old(View()))
      ensures (View(), wait) == ReservedFor(old(View()), provider, now, tokens)
    {
      if provider !in limiters {
        return Raised(UnknownProvider(provider));
      }
      wait := limiters[provider].Reserve(now, tokens, 1.0);
      assert View() == old(View())[provider := limiters[provider].View()];
    }

    /** Reserve, then sleep out the wait if there is one. */
    method Acquire(clock: Clock, provider: string, tokens: real, overshoot: real) returns (wait: Outcome<real>)
      requires Valid() && overshoot >= 0.0
      modifies Repr(), clock
      ensures Valid() && ValidRegistry(old(View()))
      ensures (View(), wait) == ReservedFor(old(View()), provider, old(clock.now), tokens)
      ensures clock.now == old(clock.now) + Slept(wait, overshoot)
      ensures wait.Raised? ==> clock.now == old(clock.now)
    {
      hide ReservedFor, ValidRegistry, Apart, ProviderLimiter.View;
      wait := Reserve(provider, clock.now, tokens);
      if wait.Returned? && wait.value > 0.0 {
        clock.Sleep(wait.value, overshoot);
      }
    }
  }

  /** How long `acquire` sleeps for a reply; no sleep, no overshoot. */
  function Slept(wait: Outcome<real>, overshoot: real): real {
    if wait.Returned? && wait.value > 0.0 then wait.value + overshoot else 0.0
  }

  // ----- refused reservations -----

  datatype JointRequest = JointRequest(now: real, tokens: real, requests: real)

  function DriveJoint(l: Limiter, rs: seq<JointRequest>): (d: Limiter)
    requires l.Valid()
    ensures d.Valid()
  {
    if rs == [] then l
    else
      var last := rs[|rs| - 1];
      DriveJoint(l, rs[..|rs| - 1]).Reserved(last.now, last.tokens, last.requests).0
  }

  /** The run with its refused calls erased. */
  function Accepted(rs: seq<JointRequest>): seq<JointRequest> {
    if rs == [] then []
    else
      var last := rs[|rs| - 1];
      Accepted(rs[..|rs| - 1]) + if last.tokens < 0.0 || last.requests < 0.0 then [] else [last]
  }

  function RequestSide(rs: seq<JointRequest>): seq<Request> {
    seq(|rs|, i requires 0 <= i < |rs| => Request(rs[i].now, rs[i].requests))
  }

  function TokenSide(rs: seq<JointRequest>): seq<Request> {
    seq(|rs|, i requires 0 <= i < |rs| => Request(rs[i].now, rs[i].tokens))
  }

  lemma {:induction false} DrivePrefix(b: Bucket, rs: seq<Request>, more: seq<Request>, k: nat)
    requires k <= |rs| && b.rate > 0.0
    ensures Drive(b, rs + more, k) == Drive(b, rs, k)
  {
    if k > 0 {
      DrivePrefix(b, rs, more, k - 1);
    }
  }

  /** A run with refused calls leaves both buckets as the run without them does, each bucket
      driven by itself on its own dimension. */
  lemma {:induction false} RefusalsLeaveNoTrace(l: Limiter, rs: seq<JointRequest>)
    requires l.Valid()
    ensures var kept := Accepted(rs);
            && DriveJoint(l, rs) == DriveJoint(l, kept)
            && DriveJoint(l, rs).requests == Drive(l.requests, RequestSide(kept), |kept|).0
            && DriveJoint(l, rs).tokens == Drive(l.tokens, TokenSide(kept), |kept|).0
  {
    if rs != [] {
      hide Bucket.Charged, Bucket.Wait;
      var init, last := rs[..|rs| - 1], rs[|rs| - 1];
      RefusalsLeaveNoTrace(l, init);
      if last.tokens >= 0.0 && last.requests >= 0.0 {
        var before, kept := Accepted(init), Accepted(rs);
        assert kept[..|kept| - 1] == before;
        assert RequestSide(kept) == RequestSide(before) + [Request(last.now, last.requests)];
        assert TokenSide(kept) == TokenSide(before) + [Request(last.now, last.tokens)];
        DrivePrefix(l.requests, RequestSide(before), [Request(last.now, last.requests)], |before|);
        DrivePrefix(l.tokens, TokenSide(before), [Request(last.now, last.tokens)], |before|);
      } else {
        assert Accepted(rs) == Accepted(init);
      }
    }
  }
}
