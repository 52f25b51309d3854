/** How long one worker that serves its queue serially takes. */
module SerialQueue {
  import opened Prelude
  import opened Schema
  import opened TokenBuckets
  import opened BucketRuns
  import opened RateLimits
  import opened Retries
  import opened Processing
  import opened RetryRuns
  import opened Workers

  type Limits = map<string, ProviderLimits>

  predicate ValidLimits(limits: Limits) {
    forall p :: p in limits ==> limits[p].Valid()
  }

  /** The bucket's debt is paid by `now`. */
  predicate Settled(b: Bucket, now: real) {
    b.updated <= now && b.rate * (now - b.updated) >= -b.tokens
  }

  /** The limiters of these limits, with all debts paid by `now`. */
  predicate AllSettled(registry: Registry, limits: Limits, now: real) {
    && ValidRegistry(registry) && registry.Keys == limits.Keys
    && forall p :: p in registry ==>
         && registry[p].requests.rate == limits[p].requestsPerMin / 60.0
         && registry[p].tokens.rate == limits[p].tokensPerMin / 60.0
         && Settled(registry[p].requests, now) && Settled(registry[p].tokens, now)
  }

  /** The longest a job can wait for its own request and its own tokens to refill. */
  function WaitCeiling(limits: ProviderLimits, tokens: real): real
    requires limits.Valid()
  {
    Max(60.0 / limits.requestsPerMin, 60.0 * tokens / limits.tokensPerMin)
  }

  function Repeated(n: int, x: real): real {
    n as real * x
  }

  lemma FreshIsSettled(limits: Limits, start: real)
    requires ValidLimits(limits)
    ensures AllSettled(map p | p in limits :: FreshLimiter(limits[p], start), limits, start)
  {
    forall p | p in limits
      ensures FreshLimiter(limits[p], start).Valid()
      ensures Settled(FreshLimiter(limits[p], start).requests, start)
      ensures Settled(FreshLimiter(limits[p], start).tokens, start)
    {
      PositiveRate(limits[p].requestsPerMin);
      PositiveRate(limits[p].tokensPerMin);
    }
  }

  lemma PositiveRate(perMin: real)
    requires perMin > 0.0
    ensures perMin / 60.0 > 0.0
  {
  }

  lemma SettledLater(b: Bucket, now: real, later: real)
    requires b.rate > 0.0 && Settled(b, now) && now <= later
    ensures Settled(b, later)
  {
    Distribute(b.rate, b.updated, now, later);
    RefillIsNonNegative(b.rate, now, later);
  }

  lemma AllSettledLater(registry: Registry, limits: Limits, now: real, later: real)
    requires AllSettled(registry, limits, now) && now <= later
    ensures AllSettled(registry, limits, later)
  {
    forall p | p in registry
      ensures Settled(registry[p].requests, later) && Settled(registry[p].tokens, later)
    {
      SettledLater(registry[p].requests, now, later);
      SettledLater(registry[p].tokens, now, later);
    }
  }

  /** A charge on a settled bucket waits at most for its own amount, and has settled after that wait. */
  lemma ChargeSettled(b: Bucket, now: real, amount: real)
    requires b.Valid() && Settled(b, now) && amount >= 0.0
    ensures var c := b.Charged(now, amount);
            && c.Valid() && c.rate == b.rate && c.updated == now
            && 0.0 <= c.Wait() <= amount / b.rate
            && Settled(c, now + c.Wait())
  {
    DebtIsRefilled(b, now, now);
    NoDebtWait(b, now, amount);
    hide Bucket.Refilled, Bucket.Wait;
    WaitCovers(b.Charged(now, amount), 0.0);
  }

  /** One reservation of a worker that sleeps out its waits. */
  lemma AcquireSettled(registry: Registry, limits: Limits, provider: string, now: real, tokens: real, overshoot: real)
    requires ValidLimits(limits) && AllSettled(registry, limits, now)
    requires provider in limits && tokens >= 0.0 && overshoot >= 0.0
    ensures var (after, wait) := ReservedFor(registry, provider, now, tokens);
            && wait.Returned?
            && 0.0 <= wait.value <= WaitCeiling(limits[provider], tokens)
            && AllSettled(after, limits, now + Slept(wait, overshoot))
  {
    hide Bucket.Charged, Bucket.Wait, Settled;
    var l := registry[provider];
    var (after, wait) := ReservedFor(registry, provider, now, tokens);
    ChargeSettled(l.requests, now, 1.0);
    ChargeSettled(l.tokens, now, tokens);
    PerMinute(1.0, limits[provider].requestsPerMin);
    PerMinute(tokens, limits[provider].tokensPerMin);
    var slept := now + Slept(wait, overshoot);
    AllSettledLater(registry, limits, now, slept);
    SettledLater(after[provider].requests, now + after[provider].requests.Wait(), slept);
    SettledLater(after[provider].tokens, now + after[provider].tokens.Wait(), slept);
  }

  /** In a serial run every wait is bounded, whatever ran before. */
  lemma {:induction false} SerialWaits(c: Call, limits: Limits, registry: Registry, clock: real, first: nat)
    requires c.Valid() && ValidLimits(limits) && AllSettled(registry, limits, clock) && Sane(c.script)
    requires first < c.policy.retry.maxAttempts && c.provider in limits && c.estimate >= 0
    ensures var r := Attempts(c, registry, clock, first);
            && clock <= r.clock && AllSettled(r.registry, limits, r.clock)
            && Waited(r.trace)
               <= Repeated(c.policy.retry.maxAttempts - first, WaitCeiling(limits[c.provider], c.estimate as real))
    decreases c.policy.retry.maxAttempts - first
  {
    hide ReservedFor, Delay, IsRetryable, IsExpired, Priced, WaitCeiling, AllSettled, Attempts, Repeated;
    WaitCeilingIsPositive(limits[c.provider], c.estimate as real);
    var ceiling := WaitCeiling(limits[c.provider], c.estimate as real);
    var left := c.policy.retry.maxAttempts - first;
    SettledIsValid(registry, limits, clock);
    AtLeastOnce(left, ceiling);
    AcquireSettled(registry, limits, c.provider, clock, c.estimate as real, c.script(first).overshoot);
    if GoesOn(c, registry, clock, first) {
      SerialTurn(c, limits, registry, clock, first);
      ResumedIsNext(c, registry, clock, first);
      var (after, resumed, did) := Resumed(c, registry, clock, first);
      hide GoesOn, Resumed;
      SerialWaits(c, limits, after, resumed, first + 1);
      WaitedConcat(did, Attempts(c, after, resumed, first + 1).trace);
    } else {
      SerialLastTurn(c, limits, registry, clock, first);
    }
  }

  lemma SettledIsValid(registry: Registry, limits: Limits, now: real)
    requires AllSettled(registry, limits, now)
    ensures ValidRegistry(registry)
  {
  }

  lemma AtLeastOnce(n: int, ceiling: real)
    ensures Repeated(n, ceiling) == ceiling + Repeated(n - 1, ceiling)
    ensures n >= 1 && ceiling >= 0.0 ==> ceiling <= Repeated(n, ceiling)
  {
    assert n as real == (n - 1) as real + 1.0;
    Distribute(ceiling, 0.0, 1.0, n as real);
    if n >= 1 && ceiling >= 0.0 {
      Scale(ceiling, 1.0, n as real);
    }
  }

  lemma SerialTurn(c: Call, limits: Limits, registry: Registry, clock: real, k: nat)
    requires c.Valid() && ValidLimits(limits) && AllSettled(registry, limits, clock) && Sane(c.script)
    requires c.provider in limits && c.estimate >= 0 && ValidRegistry(registry) && GoesOn(c, registry, clock, k)
    ensures var n := Resumed(c, registry, clock, k);
            && clock <= n.1 && AllSettled(n.0, limits, n.1)
            && Waited(n.2) <= WaitCeiling(limits[c.provider], c.estimate as real)
  {
    hide ReservedFor, IsRetryable, IsExpired, WaitCeiling, AllSettled;
    AcquireSettled(registry, limits, c.provider, clock, c.estimate as real, c.script(k).overshoot);
    DelayIsBackoff(c, k);
    hide Delay;
    var (after, resumed, did) := Resumed(c, registry, clock, k);
    var wait := ReservedFor(registry, c.provider, clock, c.estimate as real).1;
    AllSettledLater(after, limits, clock + Slept(wait, c.script(k).overshoot), resumed);
    assert did == [did[0], did[1], did[2], did[3]];
    OneWait(did[0], did[1], did[2], did[3]);
  }

  lemma SerialLastTurn(c: Call, limits: Limits, registry: Registry, clock: real, k: nat)
    requires c.Valid() && ValidLimits(limits) && AllSettled(registry, limits, clock) && Sane(c.script)
    requires k < c.policy.retry.maxAttempts && c.provider in limits && c.estimate >= 0
    requires ValidRegistry(registry) && !GoesOn(c, registry, clock, k)
    ensures var r := Attempts(c, registry, clock, k);
            && clock <= r.clock && AllSettled(r.registry, limits, r.clock)
            && Waited(r.trace) <= WaitCeiling(limits[c.provider], c.estimate as real)
  {
    hide ReservedFor, Delay, IsRetryable, IsExpired, Priced, WaitCeiling, AllSettled;
    AcquireSettled(registry, limits, c.provider, clock, c.estimate as real, c.script(k).overshoot);
    if !IsExpired(c.job, clock) {
      var (after, wait) := ReservedFor(registry, c.provider, clock, c.estimate as real);
      var begun := clock + Slept(wait, c.script(k).overshoot);
      var acquired := Acquired(k, clock, wait.value);
      var started, finished := CallStarted(k, begun), CallEnded(k, begun + c.script(k).duration);
      AllSettledLater(after, limits, begun, begun + c.script(k).duration);
      OneWait(acquired, started, finished, BackedOff(k, 0.0));
      assert [acquired] + [started, finished] == [acquired, started, finished];
    }
  }

  // ----- the queue -----

  /** The most time one job can hold the worker: its timeouts and backoffs, one full wait for each
      attempt, and what the sleeps and the store and callback writes take beyond that. */
  function JobCeiling(config: Config, limits: Limits, posting: Posting, m: Moment): real
    requires config.policy.Valid() && ValidLimits(limits)
  {
    var policy := config.policy;
    var job := Decode(posting);
    if job.None? then 0.0
    else if job.value.model.None? || !Routable(job.value.model.value) then m.overhead
    else
      var provider := ProviderFor(job.value.model.value).value;
      if provider !in config.wired || provider !in limits then m.overhead
      else
        RetryBudget(policy)
        + Repeated(policy.retry.maxAttempts,
                   WaitCeiling(limits[provider], EstimateTokens(job.value, policy.defaultOutputTokens) as real))
        + Slack(m.script, 0, policy.retry.maxAttempts)
        + m.overhead
  }

  /** A job that the contract admits, seen with an environment that keeps the timeout. */
  ghost predicate Fair(config: Config, posting: Posting, m: Moment)
    requires config.policy.Valid()
  {
    && Sane(m.script) && m.overhead >= 0.0
    && (forall k: nat :: m.script(k).duration <= config.policy.jobTimeout)
    && (posting.Poison? || ValidJob(posting.job))
  }

  lemma RegistryOfLimits(registry: Registry, limits: Limits, now: real)
    requires AllSettled(registry, limits, now)
    ensures registry.Keys == limits.Keys
  {
  }

  lemma JobWithinCeiling(config: Config, limits: Limits, w: World, posting: Posting, m: Moment)
    requires config.policy.Valid() && ValidLimits(limits) && AllSettled(w.registry, limits, w.clock)
    requires Fair(config, posting, m)
    ensures var after := Consumed(config, w, posting, m).0;
            && w.clock <= after.clock <= w.clock + JobCeiling(config, limits, posting, m)
            && AllSettled(after.registry, limits, after.clock)
  {
    hide Attempts, WaitCeiling, AllSettled, RetryBudget, Slack, EstimateTokens, ValidRegistry, Repeated;
    SettledIsValid(w.registry, limits, w.clock);
    if posting.Poison? || posting.job.model.None? || !Routable(posting.job.model.value) {
      AllSettledLater(w.registry, limits, w.clock, w.clock + m.overhead);
    } else {
      var provider := ProviderFor(posting.job.model.value).value;
      if provider in config.wired && provider in limits {
        var c := CallFor(config, posting.job, provider, m.script);
        EstimateIsNonNegative(posting.job, config.policy);
        SerialWaits(c, limits, w.registry, w.clock, 0);
        OccupancyOfJob(c, w.registry, w.clock);
        var r := Attempts(c, w.registry, w.clock, 0);
        AllSettledLater(r.registry, limits, r.clock, r.clock + m.overhead);
      } else {
        RegistryOfLimits(w.registry, limits, w.clock);
        if provider in config.wired {
          WithoutLimiter(CallFor(config, posting.job, provider, m.script), w.registry, w.clock);
        }
        AllSettledLater(w.registry, limits, w.clock, w.clock + m.overhead);
      }
    }
  }

  /** The ceilings of the messages from offset `from` up to offset `k`. */
  function QueueCeiling(config: Config, limits: Limits, topic: seq<Posting>, env: Environment, from: nat, k: nat): real
    requires config.policy.Valid() && ValidLimits(limits) && from <= k <= |topic|
  {
    if k == from then 0.0
    else QueueCeiling(config, limits, topic, env, from, k - 1) + JobCeiling(config, limits, topic[k - 1], env(k - 1))
  }

  /** A serial worker is done with the k-th message within the sum of the ceilings up to it. */
  lemma {:induction false} QueueWithinCeiling(config: Config, limits: Limits, w: World, topic: seq<Posting>,
                                              env: Environment, from: nat, k: nat)
    requires config.policy.Valid() && ValidLimits(limits) && AllSettled(w.registry, limits, w.clock)
    requires from <= k <= |topic| && forall n :: from <= n < k ==> Fair(config, topic[n], env(n))
    ensures ValidRegistry(w.registry)
    ensures var after := Progress(config, w, topic, env, from, k).0;
            && w.clock <= after.clock
            && after.clock - w.clock <= QueueCeiling(config, limits, topic, env, from, k)
            && AllSettled(after.registry, limits, after.clock)
  {
    hide Consumed, JobCeiling, AllSettled, Fair;
    SettledIsValid(w.registry, limits, w.clock);
    if k > from {
      QueueWithinCeiling(config, limits, w, topic, env, from, k - 1);
      var (before, going) := Progress(config, w, topic, env, from, k - 1);
      CeilingIsNonNegative(config, limits, topic[k - 1], env(k - 1));
      if going {
        JobWithinCeiling(config, limits, before, topic[k - 1], env(k - 1));
      }
    }
  }

  lemma CeilingIsNonNegative(config: Config, limits: Limits, posting: Posting, m: Moment)
    requires config.policy.Valid() && ValidLimits(limits) && Fair(config, posting, m)
    ensures JobCeiling(config, limits, posting, m) >= 0.0
  {
    hide Slack, CeilingSum, EstimateTokens, WaitCeiling;
    SlackIsNonNegative(m.script, 0, config.policy.retry.maxAttempts);
    CeilingSumMonotone(0, config.policy.retry, config.policy.retry.maxAttempts - 1, config.policy.retry);
    Scale(config.policy.jobTimeout, 0.0, config.policy.retry.maxAttempts as real);
    forall p, tokens: real | p in limits
      ensures 0.0 <= Repeated(config.policy.retry.maxAttempts, WaitCeiling(limits[p], tokens))
    {
      WaitCeilingIsPositive(limits[p], tokens);
      Scale(config.policy.retry.maxAttempts as real, 0.0, WaitCeiling(limits[p], tokens));
    }
  }

  lemma WaitCeilingIsPositive(limits: ProviderLimits, tokens: real)
    requires limits.Valid()
    ensures WaitCeiling(limits, tokens) > 0.0
  {
  }
}
