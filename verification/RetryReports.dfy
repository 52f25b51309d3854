/** When the retry loop drops a job, what it reports in the end, and where its time went
    (src/llmbus/processing.py:201-239). */
module RetryReports {
  import opened Prelude
  import opened Schema
  import opened Costs
  import opened RateLimits
  import opened Retries
  import opened Processing
  import opened RetryRuns
  import opened Workers

  // ----- expiry -----

  /** Exactly when an attempt does nothing, and when it calls, in instants: it does nothing once the deadline has
      been reached, and calls if the deadline is still ahead when the limiter lets it go. */
  lemma ExpiryExactly(c: Call, registry: Registry, clock: real, first: nat)
    requires c.Valid() && ValidRegistry(registry) && first < c.policy.retry.maxAttempts && Sane(c.script)
    requires c.provider in registry && c.estimate >= 0
    ensures var trace, job := Attempts(c, registry, clock, first).trace, c.job;
            var released := clock + Slept(Asked(c, registry, clock), c.script(first).overshoot);
            && (trace == [] <==> job.ttl.Some? && job.submittedAt.instant + job.ttl.value <= clock)
            && (first in Numbers(Calling, trace)
                <==> job.ttl.None? || released < job.submittedAt.instant + job.ttl.value)
  {
    hide Attempts, Numbers, ReservedFor, IsRetryable, Slept;
    ReservedOrRefused(registry, c.provider, clock, c.estimate);
    SleepTakesTime(c, registry, clock, first);
    if GoesOn(c, registry, clock, first) {
      var (after, resumed, did) := Resumed(c, registry, clock, first);
      ResumedIsNext(c, registry, clock, first);
      TurnNumbers(c, registry, clock, first);
      NumbersConcat(Calling, did, Attempts(c, after, resumed, first + 1).trace);
    } else {
      var asked, stop := Asked(c, registry, clock), StopOf(c, registry, clock, first);
      StopReport(c, registry, clock, first);
      StopNumbers(c, stop, asked, clock, first);
    }
  }

  lemma SleepTakesTime(c: Call, registry: Registry, clock: real, k: nat)
    requires c.Valid() && ValidRegistry(registry) && Sane(c.script)
    ensures Slept(Asked(c, registry, clock), c.script(k).overshoot) >= 0.0
  {
    hide ReservedFor;
    WaitsAreNonNegative(registry, c.provider, clock, c.estimate);
    assert c.script(k).overshoot >= 0.0;
  }

  // ----- the report -----

  /** What a success or a failure of the last call makes the loop report. */
  predicate Reports(job: Job, reply: Reply, result: Result) {
    match reply
    case Succeeded(completion, input, output) =>
      && result.verdict == Ok && result.completion == Some(completion) && result.error == None
      && result.usage.input == input && result.usage.output == output
      && job.model.Some? && CostUsd(job.model.value, input, output, job.submittedAt.day) == Returned(result.usage.cost)
    case Failed(_, text) =>
      && result.verdict == Verdict.Error && result.completion == None && result.error == Some(text)
      && result.usage == NO_USAGE
  }

  /** The loop reports on its job and provider what the last call it made said, with the counts and the completion
      of that call, or, if it did not end with a call, an error that costs nothing. */
  lemma LastCallIsReported(c: Call, registry: Registry, clock: real) returns (last: nat, answered: bool)
    requires c.Valid() && ValidRegistry(registry) && c.estimate >= 0 && c.provider in registry
    ensures var r := Attempts(c, registry, clock, 0);
            && (forall k: nat :: k in Numbers(Calling, r.trace) <==> k < last || (k == last && answered))
            && (r.end.Returned? ==>
                  var result := r.end.value;
                  && result.id == c.job.id && result.meta == c.job.meta && result.provider == Some(c.provider)
                  && if answered then Reports(c.job, c.script(last).reply, result)
                     else result.verdict == Verdict.Error && result.completion == None && result.error.Some?
                          && result.usage == NO_USAGE)
  {
    hide Attempts, Numbers, Range, AllRetried, EndOf, Reports;
    var stop, refusal;
    last, stop, refusal := LoopShape(c, registry, clock, 0);
    answered := stop == Answered;
    forall k: nat
      ensures k in Numbers(Calling, Attempts(c, registry, clock, 0).trace) <==> k < last || (k == last && answered)
    {
      InRange(0, last, k);
      InRange(0, last + 1, k);
    }
    EndIsReported(c, stop, refusal, last);
  }

  lemma EndIsReported(c: Call, stop: Stop, refusal: Error, last: nat)
    requires c.Valid() && stop != Unthrottled
    ensures var end := EndOf(c, stop, refusal, last);
            end.Returned? ==>
              && end.value.id == c.job.id && end.value.meta == c.job.meta && end.value.provider == Some(c.provider)
              && if stop == Answered then Reports(c.job, c.script(last).reply, end.value)
                 else end.value.verdict == Verdict.Error && end.value.completion == None && end.value.error.Some?
                      && end.value.usage == NO_USAGE
  {
    hide CostUsd;
  }

  /** Whatever becomes of a job, its result names its own id and metadata, and the provider that its model is
      routed to; without a route it names none. */
  lemma ResultNamesProvider(config: Config, job: Job, script: Script, registry: Registry, clock: real)
    requires config.policy.Valid() && ValidRegistry(registry) && ValidJob(job)
    ensures var end := Handled(config, job, script, registry, clock).end;
            end.Returned? ==>
              && end.value.id == job.id && end.value.meta == job.meta
              && end.value.provider == (if job.model.Some? && job.model.value in PROVIDERS
                                        then Some(PROVIDERS[job.model.value]) else None)
  {
    hide Attempts, EstimateTokens, EndOf, Numbers;
    if job.model.Some? && job.model.value in PROVIDERS && PROVIDERS[job.model.value] in config.wired {
      var c := CallFor(config, job, PROVIDERS[job.model.value], script);
      EstimateIsNonNegative(job, config.policy);
      if c.provider in registry {
        var last, answered := LastCallIsReported(c, registry, clock);
      } else {
        ExpiredWithoutLimiter(c, registry, clock);
      }
    }
  }

  lemma ExpiredWithoutLimiter(c: Call, registry: Registry, clock: real)
    requires c.Valid() && ValidRegistry(registry) && c.provider !in registry
    ensures var end := Attempts(c, registry, clock, 0).end;
            end.Returned? ==>
              end.value.id == c.job.id && end.value.meta == c.job.meta && end.value.provider == Some(c.provider)
  {
  }

  // ----- where the time goes -----

  /** The time that these events take: the limiter's sleeps, the calls, the backoffs, and their overshoots. */
  function Spent(c: Call, trace: seq<Event>): real {
    if trace == [] then 0.0
    else
      Spent(c, trace[..|trace| - 1])
      + match trace[|trace| - 1]
        case Acquired(k, _, wait) => Slept(Returned(wait), c.script(k).overshoot)
        case CallStarted(_, _) => 0.0
        case CallEnded(k, _) => c.script(k).duration
        case BackedOff(k, delay) => delay + c.script(k).oversleep
  }

  /** Each event happens when those before it are over, and each backoff is the one of its attempt's draw. */
  predicate OnTime(c: Call, clock: real, trace: seq<Event>) {
    trace == []
    || (var init := trace[..|trace| - 1];
        && OnTime(c, clock, init)
        && match trace[|trace| - 1]
           case Acquired(_, at, _) => at == clock + Spent(c, init)
           case CallStarted(_, at) => at == clock + Spent(c, init)
           case CallEnded(_, at) => at == clock + Spent(c, trace)
           case BackedOff(k, delay) => BackoffDelay(k, c.policy.retry, c.script(k).jitter) == Returned(delay))
  }

  lemma {:induction false} OnTimeConcat(c: Call, clock: real, a: seq<Event>, b: seq<Event>)
    requires OnTime(c, clock, a) && OnTime(c, clock + Spent(c, a), b)
    ensures OnTime(c, clock, a + b) && Spent(c, a + b) == Spent(c, a) + Spent(c, b)
  {
    hide BackoffDelay, Slept;
    if b == [] {
      assert a + b == a;
    } else {
      var init := b[..|b| - 1];
      assert (a + b)[..|a + b| - 1] == a + init;
      OnTimeConcat(c, clock, a, init);
    }
  }

  /** A turn's three first events, and all four. */
  lemma TurnOnTime(c: Call, wait: real, clock: real, k: nat)
    requires c.Valid() && Sane(c.script)
    ensures var begun := clock + Slept(Returned(wait), c.script(k).overshoot);
            var ended := begun + c.script(k).duration;
            && OnTime(c, clock, [Acquired(k, clock, wait)])
            && Spent(c, [Acquired(k, clock, wait)]) == begun - clock
            && OnTime(c, clock, [Acquired(k, clock, wait), CallStarted(k, begun), CallEnded(k, ended)])
            && Spent(c, [Acquired(k, clock, wait), CallStarted(k, begun), CallEnded(k, ended)]) == ended - clock
            && OnTime(c, clock, TurnEvents(c, wait, clock, begun, k))
            && Spent(c, TurnEvents(c, wait, clock, begun, k)) == ended + Delay(c, k) + c.script(k).oversleep - clock
  {
    DelayIsBackoff(c, k);
    hide Slept, BackoffDelay, Delay;
    var begun := clock + Slept(Returned(wait), c.script(k).overshoot);
    var ended := begun + c.script(k).duration;
    var a, s, f := Acquired(k, clock, wait), CallStarted(k, begun), CallEnded(k, ended);
    var four := TurnEvents(c, wait, clock, begun, k);
    assert [a][..0] == [] && [a, s][..1] == [a] && [a, s, f][..2] == [a, s] && four[..3] == [a, s, f];
    assert Spent(c, [a]) == begun - clock && OnTime(c, clock, [a]);
    assert Spent(c, [a, s]) == begun - clock && OnTime(c, clock, [a, s]);
    assert Spent(c, [a, s, f]) == ended - clock && OnTime(c, clock, [a, s, f]);
  }

  /** All time is accounted for: every event of the loop happens when those before it are over, and the loop ends
      when all of them are. So no sleep, backoff or call is left out or counted twice. */
  lemma {:induction false} ClockIsAccountedFor(c: Call, registry: Registry, clock: real, first: nat)
    requires c.Valid() && ValidRegistry(registry) && first < c.policy.retry.maxAttempts && Sane(c.script)
    requires c.provider in registry && c.estimate >= 0
    ensures var r := Attempts(c, registry, clock, first);
            OnTime(c, clock, r.trace) && r.clock == clock + Spent(c, r.trace)
    decreases c.policy.retry.maxAttempts - first
  {
    hide Attempts, OnTime, Spent, ReservedFor, IsRetryable, IsExpired, Delay, Slept;
    ReservedOrRefused(registry, c.provider, clock, c.estimate);
    var asked := Asked(c, registry, clock);
    TurnOnTime(c, if asked.Returned? then asked.value else 0.0, clock, first);
    if GoesOn(c, registry, clock, first) {
      var (after, resumed, did) := Resumed(c, registry, clock, first);
      ResumedIsNext(c, registry, clock, first);
      hide TurnEvents;
      ClockIsAccountedFor(c, after, resumed, first + 1);
      OnTimeConcat(c, clock, did, Attempts(c, after, resumed, first + 1).trace);
    } else {
      StopReport(c, registry, clock, first);
      StopState(c, registry, clock, first);
      NothingOnTime(c, clock);
    }
  }

  lemma NothingOnTime(c: Call, clock: real)
    ensures OnTime(c, clock, []) && Spent(c, []) == 0.0
  {
  }
}
