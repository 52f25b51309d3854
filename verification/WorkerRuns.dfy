/** What a serial worker really calls: its acquires follow one another, so its calls keep the limits
    (src/llmbus/processing.py:215-239, src/llmbus/worker.py:280-289). */
module WorkerRuns {
  import opened Prelude
  import opened Schema
  import opened TokenBuckets
  import opened BucketRuns
  import opened RateLimits
  import opened AcquireRuns
  import opened Retries
  import opened Processing
  import opened RetryRuns
  import opened Workers

  /** One provider call: when it started, and what was reserved for it. */
  datatype Started = Started(at: real, tokens: real)

  /** The calls of one job. */
  function CallsIn(trace: seq<Event>, tokens: real): seq<Started> {
    if trace == [] then []
    else
      var last := trace[|trace| - 1];
      CallsIn(trace[..|trace| - 1], tokens) + if last.CallStarted? then [Started(last.at, tokens)] else []
  }

  /** The calls to one provider while one message is consumed. */
  function CallsFor(config: Config, w: World, posting: Posting, m: Moment, provider: string): seq<Started>
    requires config.policy.Valid() && ValidRegistry(w.registry)
  {
    match Decode(posting)
    case None => []
    case Some(job) =>
      if job.model.None? || ProviderFor(job.model.value) != Returned(provider) then []
      else
        CallsIn(Handled(config, job, m.script, w.registry, w.clock).trace,
                EstimateTokens(job, config.policy.defaultOutputTokens) as real)
  }

  /** The calls to one provider while the queue is consumed from offset `from` up to offset `k`. */
  function CallsTo(config: Config, w: World, topic: seq<Posting>, env: Environment, from: nat, k: nat, provider: string)
      : seq<Started>
    requires config.policy.Valid() && ValidRegistry(w.registry) && from <= k <= |topic|
  {
    if k == from then []
    else
      var (before, going) := Progress(config, w, topic, env, from, k - 1);
      CallsTo(config, w, topic, env, from, k - 1, provider)
      + if going then CallsFor(config, before, topic[k - 1], env(k - 1), provider) else []
  }

  lemma {:induction false} CallsConcat(a: seq<Event>, b: seq<Event>, tokens: real)
    ensures CallsIn(a + b, tokens) == CallsIn(a, tokens) + CallsIn(b, tokens)
  {
    if b == [] {
      assert a + b == a;
    } else {
      var init := b[..|b| - 1];
      assert (a + b)[..|a + b| - 1] == a + init;
      CallsConcat(a, init, tokens);
    }
  }

  // ----- the acquires behind the calls -----

  /** Acquires on one provider from a first state on, and which of them were followed by a call. */
  datatype Log = Log(registry: Registry, provider: string, clock: real, asks: seq<Ask>, picks: seq<nat>) {
    ghost predicate Valid() {
      && ValidRegistry(registry) && provider in registry && ValidAsks(asks)
      && (forall n :: 0 <= n < |picks| ==> picks[n] < |asks|)
      && (forall m, n :: 0 <= m < n < |picks| ==> picks[m] < picks[n])
    }

    function Now(): (Registry, real)
      requires ValidRegistry(registry)
    {
      Served(registry, provider, clock, asks, |asks|)
    }

    function Returns(k: nat): real
      requires ValidRegistry(registry) && k < |asks|
    {
      StartedAt(registry, provider, clock, asks, k)
    }

    predicate SameStart(other: Log) {
      registry == other.registry && provider == other.provider && clock == other.clock
    }
  }

  /** The log explains these calls, and the provider's limiter and the clock as they are. */
  ghost predicate Explains(log: Log, calls: seq<Started>, registry: Registry, clock: real) {
    && log.Valid() && |log.picks| == |calls|
    && (forall n :: 0 <= n < |calls| ==>
          calls[n] == Started(log.Returns(log.picks[n]), log.asks[log.picks[n]].tokens))
    && log.provider in registry && log.Now().0[log.provider] == registry[log.provider] && log.Now().1 <= clock
  }

  lemma {:induction false} ServedPrefix(registry: Registry, provider: string, clock: real, asks: seq<Ask>,
                                        more: Ask, k: nat)
    requires ValidRegistry(registry) && k <= |asks|
    ensures Served(registry, provider, clock, asks + [more], k) == Served(registry, provider, clock, asks, k)
  {
    hide ReservedFor;
    if k > 0 {
      ServedPrefix(registry, provider, clock, asks, more, k - 1);
    }
  }

  /** Only the provider's own limiter matters to a reservation. */
  lemma OnlyOwnLimiter(a: Registry, b: Registry, provider: string, now: real, tokens: real)
    requires ValidRegistry(a) && ValidRegistry(b) && provider in a && provider in b && a[provider] == b[provider]
    ensures var (after, wait) := ReservedFor(a, provider, now, tokens);
            var (after', wait') := ReservedFor(b, provider, now, tokens);
            wait == wait' && provider in after && provider in after' && after[provider] == after'[provider]
  {
    hide Bucket.Charged, Bucket.Wait;
  }

  /** One acquire more at the clock's time. */
  function Asked(log: Log, clock: real, tokens: real, overshoot: real): Log
    requires ValidRegistry(log.registry)
  {
    log.(asks := log.asks + [Ask(clock - log.Now().1, tokens, overshoot)])
  }

  lemma AskedNow(log: Log, registry: Registry, clock: real, tokens: real, overshoot: real)
    requires log.Valid() && ValidRegistry(registry) && log.provider in registry
    requires log.Now().0[log.provider] == registry[log.provider]
    ensures var next := Asked(log, clock, tokens, overshoot);
            var (after, wait) := ReservedFor(registry, log.provider, clock, tokens);
            && log.provider in after && log.provider in next.Now().0
            && next.Now().0[log.provider] == after[log.provider] && next.Now().1 == clock + Slept(wait, overshoot)
            && next.Returns(|log.asks|) == next.Now().1
  {
    hide ReservedFor, ValidRegistry;
    var next := Asked(log, clock, tokens, overshoot);
    var ask := next.asks[|log.asks|];
    ServedPrefix(log.registry, log.provider, log.clock, log.asks, ask, |log.asks|);
    OnlyOwnLimiter(log.Now().0, registry, log.provider, clock, tokens);
    assert log.Now().1 + ask.idle == clock;
  }

  lemma AskedReturns(log: Log, clock: real, tokens: real, overshoot: real, k: nat)
    requires log.Valid() && k < |log.asks|
    ensures Asked(log, clock, tokens, overshoot).Returns(k) == log.Returns(k)
  {
    hide Served;
    var ask := Asked(log, clock, tokens, overshoot).asks[|log.asks|];
    ServedPrefix(log.registry, log.provider, log.clock, log.asks, ask, k + 1);
  }

  /** An acquire, and perhaps a call right after it, keep the calls explained. */
  lemma TurnExplained(log: Log, calls: seq<Started>, registry: Registry, clock: real, tokens: real, overshoot: real,
                      called: bool) returns (next: Log)
    requires Explains(log, calls, registry, clock) && ValidRegistry(registry) && tokens >= 0.0 && overshoot >= 0.0
    ensures next.SameStart(log)
    ensures var (after, wait) := ReservedFor(registry, log.provider, clock, tokens);
            var begun := clock + Slept(wait, overshoot);
            Explains(next, calls + if called then [Started(begun, tokens)] else [], after, begun)
  {
    hide Log.Now, Log.Returns, ReservedFor, ValidRegistry, Slept;
    AskedNow(log, registry, clock, tokens, overshoot);
    var asked := Asked(log, clock, tokens, overshoot);
    next := if called then asked.(picks := log.picks + [|log.asks|]) else asked;
    forall n | 0 <= n < |log.picks|
      ensures asked.Returns(log.picks[n]) == log.Returns(log.picks[n])
    {
      AskedReturns(log, clock, tokens, overshoot, log.picks[n]);
    }
    PicksAside(asked, next);
  }

  lemma PicksAside(a: Log, b: Log)
    requires a.SameStart(b) && a.asks == b.asks && ValidRegistry(a.registry)
    ensures a.Now() == b.Now() && forall k: nat :: k < |a.asks| ==> a.Returns(k) == b.Returns(k)
  {
  }

  /** Time that passes and what other providers' jobs do change nothing. */
  lemma StillExplained(log: Log, calls: seq<Started>, registry: Registry, clock: real,
                       registry': Registry, clock': real)
    requires Explains(log, calls, registry, clock) && clock <= clock'
    requires log.provider in registry' && registry'[log.provider] == registry[log.provider]
    ensures Explains(log, calls, registry', clock')
  {
  }

  // ----- one job -----

  lemma CallsOfTurn(a: Event, s: Event, f: Event, b: Event, tokens: real)
    requires a.Acquired? && s.CallStarted? && f.CallEnded? && b.BackedOff?
    ensures CallsIn([], tokens) == [] == CallsIn([a], tokens)
    ensures CallsIn([a, s, f], tokens) == [Started(s.at, tokens)] == CallsIn([a, s, f, b], tokens)
  {
    assert [a, s, f, b][..3] == [a, s, f] && [a, s, f][..2] == [a, s] && [a, s][..1] == [a] && [a][..0] == [];
  }

  lemma CallsOfStop(c: Call, stop: Stop, asked: Outcome<real>, clock: real, k: nat, tokens: real)
    ensures CallsIn(StopTrace(c, stop, asked, clock, k), tokens)
         == if stop == Answered then [Started(clock + Slept(asked, c.script(k).overshoot), tokens)] else []
  {
    var begun := clock + Slept(asked, c.script(k).overshoot);
    CallsOfTurn(Acquired(k, clock, if asked.Returned? then asked.value else 0.0), CallStarted(k, begun),
                CallEnded(k, begun + c.script(k).duration), BackedOff(k, 0.0), tokens);
  }

  lemma LastTurnExplained(log: Log, calls: seq<Started>, c: Call, registry: Registry, clock: real, k: nat)
      returns (next: Log)
    requires c.Valid() && ValidRegistry(registry) && k < c.policy.retry.maxAttempts && c.estimate >= 0 && Sane(c.script)
    requires c.provider == log.provider && Explains(log, calls, registry, clock) && !GoesOn(c, registry, clock, k)
    ensures next.SameStart(log)
    ensures var r := Attempts(c, registry, clock, k);
            Explains(next, calls + CallsIn(r.trace, c.estimate as real), r.registry, r.clock)
  {
    hide Explains, Attempts, GoesOn, ReservedFor, StopTrace, StopOf, Slept, CallsIn;
    ProviderIsLimited(log, calls, registry, clock);
    var stop := StopOf(c, registry, clock, k);
    var turn, tokens := c.script(k), c.estimate as real;
    StopReport(c, registry, clock, k);
    StopState(c, registry, clock, k);
    CallsOfStop(c, stop, RetryRuns.Asked(c, registry, clock), clock, k, tokens);
    if stop == ExpiredBefore {
      assert calls + [] == calls;
      next := log;
    } else {
      next := TurnExplained(log, calls, registry, clock, tokens, turn.overshoot, stop == Answered);
      if stop == Answered {
        var (after, wait) := ReservedFor(registry, c.provider, clock, tokens);
        var begun := clock + Slept(wait, turn.overshoot);
        StillExplained(next, calls + [Started(begun, tokens)], after, begun, after, begun + turn.duration);
      }
    }
  }

  lemma ProviderIsLimited(log: Log, calls: seq<Started>, registry: Registry, clock: real)
    requires Explains(log, calls, registry, clock)
    ensures log.provider in registry
  {
  }

  lemma OneTurnExplained(log: Log, calls: seq<Started>, c: Call, registry: Registry, clock: real, k: nat)
      returns (next: Log)
    requires c.Valid() && ValidRegistry(registry) && c.estimate >= 0 && Sane(c.script)
    requires c.provider == log.provider && Explains(log, calls, registry, clock) && GoesOn(c, registry, clock, k)
    ensures next.SameStart(log)
    ensures var n := Resumed(c, registry, clock, k);
            Explains(next, calls + CallsIn(n.2, c.estimate as real), n.0, n.1)
  {
    hide Explains, ReservedFor, Slept, IsRetryable, IsExpired, CallsIn;
    ProviderIsLimited(log, calls, registry, clock);
    DelayIsBackoff(c, k);
    hide Delay;
    var turn, tokens := c.script(k), c.estimate as real;
    var (after, resumed, did) := Resumed(c, registry, clock, k);
    next := TurnExplained(log, calls, registry, clock, tokens, turn.overshoot, true);
    var begun := clock + Slept(ReservedFor(registry, c.provider, clock, tokens).1, turn.overshoot);
    assert did == [did[0], did[1], did[2], did[3]];
    CallsOfTurn(did[0], did[1], did[2], did[3], tokens);
    KeepsProvider(registry, c.provider, clock, tokens);
    StillExplained(next, calls + [Started(begun, tokens)], after, begun, after, resumed);
  }

  lemma KeepsProvider(registry: Registry, provider: string, now: real, tokens: real)
    requires ValidRegistry(registry) && provider in registry
    ensures provider in ReservedFor(registry, provider, now, tokens).0
  {
  }

  lemma {:induction false} AttemptsExplained(log: Log, calls: seq<Started>, c: Call, registry: Registry, clock: real,
                                             k: nat) returns (next: Log)
    requires c.Valid() && ValidRegistry(registry) && k < c.policy.retry.maxAttempts && c.estimate >= 0 && Sane(c.script)
    requires c.provider == log.provider && Explains(log, calls, registry, clock)
    ensures next.SameStart(log)
    ensures var r := Attempts(c, registry, clock, k);
            Explains(next, calls + CallsIn(r.trace, c.estimate as real), r.registry, r.clock)
    decreases c.policy.retry.maxAttempts - k
  {
    hide Explains, Attempts, GoesOn, Resumed, CallsIn;
    if GoesOn(c, registry, clock, k) {
      var (after, resumed, did) := Resumed(c, registry, clock, k);
      ResumedIsNext(c, registry, clock, k);
      var turned := OneTurnExplained(log, calls, c, registry, clock, k);
      var tokens := c.estimate as real;
      next := AttemptsExplained(turned, calls + CallsIn(did, tokens), c, after, resumed, k + 1);
      var rest := Attempts(c, after, resumed, k + 1).trace;
      CallsConcat(did, rest, tokens);
      var now, later := CallsIn(did, tokens), CallsIn(rest, tokens);
      assert calls + now + later == calls + (now + later);
    } else {
      next := LastTurnExplained(log, calls, c, registry, clock, k);
    }
  }

  /** A job of another provider leaves this one's limiter alone, and time does not run backwards. */
  lemma {:induction false} AttemptsElsewhere(c: Call, registry: Registry, clock: real, k: nat, provider: string)
    requires c.Valid() && ValidRegistry(registry) && k < c.policy.retry.maxAttempts && Sane(c.script)
    requires provider in registry && provider != c.provider
    ensures var r := Attempts(c, registry, clock, k);
            provider in r.registry && r.registry[provider] == registry[provider] && clock <= r.clock
    decreases c.policy.retry.maxAttempts - k
  {
    hide IsRetryable, IsExpired, Priced, TurnEvents;
    WaitsAreNonNegative(registry, c.provider, clock, c.estimate);
    ReservedElsewhere(registry, c.provider, clock, c.estimate as real, provider);
    hide ReservedFor;
    if GoesOn(c, registry, clock, k) {
      DelayIsBackoff(c, k);
      hide Delay;
      var n := Resumed(c, registry, clock, k);
      ResumedIsNext(c, registry, clock, k);
      hide Attempts;
      AttemptsElsewhere(c, n.0, n.1, k + 1, provider);
    }
  }

  lemma ReservedElsewhere(registry: Registry, provider: string, now: real, tokens: real, other: string)
    requires ValidRegistry(registry) && other in registry && other != provider
    ensures var after := ReservedFor(registry, provider, now, tokens).0;
            other in after && after[other] == registry[other]
  {
    hide Bucket.Charged, Bucket.Wait;
  }

  // ----- the queue -----

  /** What the worker meets: a message that the contract admits, and time that does not run backwards. */
  ghost predicate Ordinary(posting: Posting, m: Moment) {
    Sane(m.script) && m.overhead >= 0.0 && (posting.Poison? || ValidJob(posting.job))
  }

  lemma HandledExplained(log: Log, calls: seq<Started>, config: Config, w: World, job: Job, m: Moment)
      returns (next: Log)
    requires config.policy.Valid() && ValidRegistry(w.registry) && Sane(m.script) && ValidJob(job)
    requires Explains(log, calls, w.registry, w.clock)
    ensures next.SameStart(log)
    ensures var r := Handled(config, job, m.script, w.registry, w.clock);
            Explains(next, calls + CallsFor(config, w, Submitted(job), m, log.provider), r.registry, r.clock)
  {
    hide Explains, Attempts, EstimateTokens;
    ProviderIsLimited(log, calls, w.registry, w.clock);
    EstimateIsNonNegative(job, config.policy);
    assert calls + [] == calls;
    next := log;
    if job.model.Some? && ProviderFor(job.model.value).Returned? && ProviderFor(job.model.value).value in config.wired {
      var provider := ProviderFor(job.model.value).value;
      var c := CallFor(config, job, provider, m.script);
      if provider == log.provider {
        next := AttemptsExplained(log, calls, c, w.registry, w.clock, 0);
      } else {
        AttemptsElsewhere(c, w.registry, w.clock, 0, log.provider);
        var r := Attempts(c, w.registry, w.clock, 0);
        StillExplained(log, calls, w.registry, w.clock, r.registry, r.clock);
      }
    }
  }

  lemma ConsumedExplained(log: Log, calls: seq<Started>, config: Config, w: World, posting: Posting, m: Moment)
      returns (next: Log)
    requires config.policy.Valid() && ValidRegistry(w.registry) && Ordinary(posting, m)
    requires Explains(log, calls, w.registry, w.clock)
    ensures next.SameStart(log)
    ensures var after := Consumed(config, w, posting, m).0;
            Explains(next, calls + CallsFor(config, w, posting, m, log.provider), after.registry, after.clock)
  {
    hide Explains, Handled, CallsIn, Notified, ValidJob;
    if posting.Poison? {
      assert calls + [] == calls;
      next := log;
    } else {
      next := HandledExplained(log, calls, config, w, posting.job, m);
      var r := Handled(config, posting.job, m.script, w.registry, w.clock);
      var all := calls + CallsFor(config, w, posting, m, log.provider);
      ProviderIsLimited(next, all, r.registry, r.clock);
      StillExplained(next, all, r.registry, r.clock, r.registry, r.clock + m.overhead);
    }
  }

  lemma {:induction false} ProgressExplained(config: Config, w: World, topic: seq<Posting>, env: Environment,
                                             from: nat, k: nat, provider: string) returns (log: Log)
    requires config.policy.Valid() && ValidRegistry(w.registry) && from <= k <= |topic| && provider in w.registry
    requires forall n :: from <= n < k ==> Ordinary(topic[n], env(n))
    ensures log.registry == w.registry && log.provider == provider && log.clock == w.clock
    ensures var after := Progress(config, w, topic, env, from, k).0;
            Explains(log, CallsTo(config, w, topic, env, from, k, provider), after.registry, after.clock)
  {
    hide Consumed, CallsFor, Ordinary;
    if k == from {
      log := Log(w.registry, provider, w.clock, [], []);
    } else {
      hide Explains;
      log := ProgressExplained(config, w, topic, env, from, k - 1, provider);
      var calls := CallsTo(config, w, topic, env, from, k - 1, provider);
      var (before, going) := Progress(config, w, topic, env, from, k - 1);
      assert calls + [] == calls;
      if going {
        log := ConsumedExplained(log, calls, config, before, topic[k - 1], env(k - 1));
      }
    }
  }

  // ----- the limits -----

  function TokensOf(calls: seq<Started>, i: nat, k: nat): real
    requires i <= k <= |calls|
  {
    if i == k then 0.0 else TokensOf(calls, i, k - 1) + calls[k - 1].tokens
  }

  lemma {:induction false} TokensAskedSplit(asks: seq<Ask>, i: nat, m: nat, k: nat)
    requires i <= m <= k <= |asks| && ValidAsks(asks)
    ensures TokensAsked(asks, i, k) == TokensAsked(asks, i, m) + TokensAsked(asks, m, k)
    ensures TokensAsked(asks, m, k) >= 0.0
  {
    if m < k {
      TokensAskedSplit(asks, i, m, k - 1);
    }
  }

  /** The calls that were made are among the acquires: no more of them, and no more tokens. */
  lemma {:induction false} CallsAreAsks(log: Log, calls: seq<Started>, registry: Registry, clock: real, i: nat, j: nat)
    requires Explains(log, calls, registry, clock) && i <= j < |calls|
    ensures log.picks[i] <= log.picks[j] < |log.asks| && j - i <= log.picks[j] - log.picks[i]
    ensures TokensOf(calls, i, j + 1) <= TokensAsked(log.asks, log.picks[i], log.picks[j] + 1)
  {
    hide Log.Now, Log.Returns, ValidRegistry;
    var pick := log.picks[j];
    assert calls[j].tokens == log.asks[pick].tokens;
    TokensAskedSplit(log.asks, pick, pick, pick);
    if i == j {
      assert TokensOf(calls, i, i) == 0.0;
    } else {
      CallsAreAsks(log, calls, registry, clock, i, j - 1);
      TokensAskedSplit(log.asks, log.picks[i], log.picks[j - 1] + 1, pick);
    }
  }

  /** Over a whole run of the consume loop from fresh limits, whatever the jobs, retries, expiries and other
      providers: the calls to one provider that start between two of them, both included, number at most one more
      than its request limit allows in that time, and reserve at most the first one's tokens more than its token
      limit allows. */
  lemma CallsThrottled(config: Config, limits: ProviderLimits, start: real, w: World, topic: seq<Posting>,
                       env: Environment, from: nat, k: nat, provider: string, i: nat, j: nat)
    requires config.policy.Valid() && ValidRegistry(w.registry) && from <= k <= |topic|
    requires provider in w.registry && w.registry[provider] == FreshLimiter(limits, start) && start <= w.clock
    requires forall n :: from <= n < k ==> Ordinary(topic[n], env(n))
    requires i <= j < |CallsTo(config, w, topic, env, from, k, provider)|
    ensures var calls := CallsTo(config, w, topic, env, from, k, provider);
            var span := calls[j].at - calls[i].at;
            && (j + 1 - i) as real <= 1.0 + Allowed(limits.requestsPerMin, limits.requestsPerMin / 60.0, span)
            && TokensOf(calls, i, j + 1)
               <= calls[i].tokens + Allowed(limits.tokensPerMin, limits.tokensPerMin / 60.0, span)
  {
    hide Allowed, CallsTo, Progress, Ordinary, TokensOf, TokensAsked, StartedAt, Served, FreshLimiter, ValidRegistry;
    var calls := CallsTo(config, w, topic, env, from, k, provider);
    var after := Progress(config, w, topic, env, from, k).0;
    var log := ProgressExplained(config, w, topic, env, from, k, provider);
    CallsAreAsks(log, calls, after.registry, after.clock, i, j);
    AcquiresThrottled(w.registry, provider, limits, start, w.clock, log.asks, log.picks[i], log.picks[j]);
  }
}
