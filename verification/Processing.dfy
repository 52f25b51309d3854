/** What the worker does with one job: expiry, estimate, pricing and the retry loop
    (src/llmbus/processing.py:102-239). */
module Processing {
  import opened Prelude
  import opened Schema
  import opened Retries
  import opened RateLimits
  import opened Costs

  /** The deadline is inclusive; without a ttl there is none. */
  predicate IsExpired(job: Job, now: real) {
    job.ttl.Some? && now >= job.submittedAt.instant + job.ttl.value
  }

  function Characters(messages: seq<Message>): nat {
    if messages == [] then 0 else |messages[0].content| + Characters(messages[1..])
  }

  /** About four characters a token for the input, the asked or default maximum for the output. */
  function EstimateTokens(job: Job, defaultOutputTokens: int): int {
    Characters(job.messages) / 4 + if job.maxTokens.Some? then job.maxTokens.value else defaultOutputTokens
  }

  function ResultOk(job: Job, provider: string, completion: string, input: int, output: int, cost: real): Result {
    Result(job.id, Ok, Some(completion), Usage(input, output, cost), Some(provider), None, job.meta)
  }

  function ResultError(job: Job, provider: Option<string>, error: string): Result {
    Result(job.id, Verdict.Error, None, NO_USAGE, provider, Some(error), job.meta)
  }

  function ExpiredResult(job: Job, provider: string): Result {
    ResultError(job, Some(provider), "expired")
  }

  /** How one provider call ends. */
  datatype Reply =
    | Succeeded(completion: string, input: int, output: int)
    | Failed(failure: Failure, text: string)

  /** Providers report token counts that are not negative. */
  predicate NonNegativeCounts(reply: Reply) {
    reply.Succeeded? ==> reply.input >= 0 && reply.output >= 0
  }

  /** A success priced at the rate in force on the day of the job; pricing may raise. */
  function Priced(job: Job, provider: string, completion: string, input: int, output: int): Outcome<Result>
    requires job.model.Some?
  {
    var cost := CostUsd(job.model.value, input, output, job.submittedAt.day);
    if cost.Raised? then Raised(cost.error)
    else Returned(ResultOk(job, provider, completion, input, output, cost.value))
  }

  /** What the outside world does during one attempt: how far the limiter's sleep overshoots, how the call
      ends and when, the jitter that is drawn, and how far the backoff's sleep overshoots. */
  datatype Turn = Turn(overshoot: real, reply: Reply, duration: real, jitter: real, oversleep: real)

  type Script = nat -> Turn

  /** Time does not run backwards, and jitter is drawn from [0, 1). */
  ghost predicate Sane(script: Script) {
    forall k: nat :: var turn := script(k);
      turn.overshoot >= 0.0 && turn.duration >= 0.0 && turn.oversleep >= 0.0 && 0.0 <= turn.jitter < 1.0
  }

  datatype Event =
    | Acquired(attempt: nat, at: real, wait: real)
    | CallStarted(attempt: nat, at: real)
    | CallEnded(attempt: nat, at: real)
    | BackedOff(attempt: nat, delay: real)

  /** How a run of the loop ended, and what it did on the way. */
  datatype Report = Report(end: Outcome<Result>, clock: real, registry: Registry, trace: seq<Event>) {
    function After(earlier: seq<Event>): Report {
      this.(trace := earlier + trace)
    }
  }

  /** What stays the same through one job's run of the loop. */
  datatype Call = Call(policy: WorkerPolicy, job: Job, provider: string, estimate: int, script: Script) {
    predicate Valid() {
      policy.Valid() && job.model.Some?
    }
  }

  function Delay(c: Call, attempt: nat): real {
    Jittered(Ceiling(attempt, c.policy.retry), c.script(attempt).jitter)
  }

  lemma DelayIsBackoff(c: Call, attempt: nat)
    requires c.Valid() && Sane(c.script)
    ensures BackoffDelay(attempt, c.policy.retry, c.script(attempt).jitter) == Returned(Delay(c, attempt))
    ensures 0.0 <= Delay(c, attempt) < Ceiling(attempt, c.policy.retry)
  {
    BackoffMonotone(attempt, attempt, c.policy.retry, c.script(attempt).jitter);
  }

  /** The loop as a recursion over the attempts that are left. */
  function Attempts(c: Call, registry: Registry, clock: real, attempt: nat): Report
    requires c.Valid() && ValidRegistry(registry) && attempt < c.policy.retry.maxAttempts
    decreases c.policy.retry.maxAttempts - attempt
  {
    var turn := c.script(attempt);
    if IsExpired(c.job, clock) then Report(Returned(ExpiredResult(c.job, c.provider)), clock, registry, [])
    else
      var (after, wait) := ReservedFor(registry, c.provider, clock, c.estimate as real);
      if wait.Raised? then Report(Raised(wait.error), clock, after, [])
      else
        var begun := clock + Slept(wait, turn.overshoot);
        var acquired := [Acquired(attempt, clock, wait.value)];
        if IsExpired(c.job, begun) then
          Report(Returned(ExpiredResult(c.job, c.provider)), begun, after, acquired)
        else
          var ended := begun + turn.duration;
          var called := acquired + [CallStarted(attempt, begun), CallEnded(attempt, ended)];
          match turn.reply
          case Succeeded(completion, input, output) =>
            Report(Priced(c.job, c.provider, completion, input, output), ended, after, called)
          case Failed(failure, text) =>
            if IsRetryable(failure) && attempt + 1 < c.policy.retry.maxAttempts then
              var delay := Delay(c, attempt);
              Attempts(c, after, ended + delay + turn.oversleep, attempt + 1)
              .After(called + [BackedOff(attempt, delay)])
            else
              Report(Returned(ResultError(c.job, Some(c.provider), text)), ended, after, called)
  }

  /** Whether an attempt ends in a backoff and another attempt. */
  predicate GoesOn(c: Call, registry: Registry, clock: real, k: nat)
    requires c.Valid() && ValidRegistry(registry)
  {
    var wait := ReservedFor(registry, c.provider, clock, c.estimate as real).1;
    && !IsExpired(c.job, clock)
    && wait.Returned?
    && !IsExpired(c.job, clock + Slept(wait, c.script(k).overshoot))
    && c.script(k).reply.Failed? && IsRetryable(c.script(k).reply.failure)
    && k + 1 < c.policy.retry.maxAttempts
  }

  /** One attempt's events, if it goes on. */
  function TurnEvents(c: Call, wait: real, clock: real, begun: real, k: nat): seq<Event>
    requires c.Valid()
  {
    [Acquired(k, clock, wait), CallStarted(k, begun), CallEnded(k, begun + c.script(k).duration),
     BackedOff(k, Delay(c, k))]
  }

  /** What the next attempt starts from. */
  function Resumed(c: Call, registry: Registry, clock: real, k: nat): (n: (Registry, real, seq<Event>))
    requires c.Valid() && ValidRegistry(registry) && GoesOn(c, registry, clock, k)
    ensures ValidRegistry(n.0)
  {
    var (after, wait) := ReservedFor(registry, c.provider, clock, c.estimate as real);
    var turn := c.script(k);
    var begun := clock + Slept(wait, turn.overshoot);
    (after, begun + turn.duration + Delay(c, k) + turn.oversleep, TurnEvents(c, wait.value, clock, begun, k))
  }

  lemma ResumedIsNext(c: Call, registry: Registry, clock: real, k: nat)
    requires c.Valid() && ValidRegistry(registry) && GoesOn(c, registry, clock, k)
    ensures var n := Resumed(c, registry, clock, k);
            k + 1 < c.policy.retry.maxAttempts
            && Attempts(c, registry, clock, k) == Attempts(c, n.0, n.1, k + 1).After(n.2)
  {
    hide ReservedFor, Delay, IsRetryable, IsExpired, Priced;
    var (after, wait) := ReservedFor(registry, c.provider, clock, c.estimate as real);
    var begun := clock + Slept(wait, c.script(k).overshoot);
    assert TurnEvents(c, wait.value, clock, begun, k)
        == [Acquired(k, clock, wait.value)]
         + [CallStarted(k, begun), CallEnded(k, begun + c.script(k).duration)]
         + [BackedOff(k, Delay(c, k))];
  }

  /** One attempt on the real limiter and clock: it ends the job, or backs off and asks for another. */
  method Attempt(limiter: RateLimiter, clock: Clock, c: Call, attempt: nat)
      returns (end: Option<Outcome<Result>>, did: seq<Event>)
    requires c.Valid() && Sane(c.script) && limiter.Valid() && attempt < c.policy.retry.maxAttempts
    modifies limiter.Repr(), clock
    ensures limiter.Valid() && ValidRegistry(old(limiter.View())) && ValidRegistry(limiter.View())
    ensures end.None? <==> GoesOn(c, old(limiter.View()), old(clock.now), attempt)
    ensures end.None? ==> (limiter.View(), clock.now, did) == Resumed(c, old(limiter.View()), old(clock.now), attempt)
    ensures end.Some? ==>
              Report(end.value, clock.now, limiter.View(), did)
              == Attempts(c, old(limiter.View()), old(clock.now), attempt)
  {
    hide ReservedFor, Delay, BackoffDelay, Priced, IsRetryable, IsExpired;
    hide RateLimiter.View, RateLimiter.Valid, ValidRegistry;
    var turn := c.script(attempt);
    limiter.ViewIsValid();
    if IsExpired(c.job, clock.now) {
      return Some(Returned(ExpiredResult(c.job, c.provider))), [];
    }
    var asked := clock.now;
    var wait := limiter.Acquire(clock, c.provider, c.estimate as real, turn.overshoot);
    limiter.ViewIsValid();
    if wait.Raised? {
      return Some(Raised(wait.error)), [];
    }
    var begun := clock.now;
    did := [Acquired(attempt, asked, wait.value)];
    if IsExpired(c.job, begun) {
      return Some(Returned(ExpiredResult(c.job, c.provider))), did;
    }
    clock.Sleep(turn.duration, 0.0);
    did := did + [CallStarted(attempt, begun), CallEnded(attempt, clock.now)];
    match turn.reply
    case Succeeded(completion, input, output) =>
      return Some(Priced(c.job, c.provider, completion, input, output)), did;
    case Failed(failure, text) =>
      if !(IsRetryable(failure) && attempt + 1 < c.policy.retry.maxAttempts) {
        return Some(Returned(ResultError(c.job, Some(c.provider), text))), did;
      }
      DelayIsBackoff(c, attempt);
      var delay := BackoffDelay(attempt, c.policy.retry, turn.jitter);
      clock.Sleep(delay.value, turn.oversleep);
      did := did + [BackedOff(attempt, delay.value)];
      assert did == TurnEvents(c, wait.value, asked, begun, attempt);
      end := None;
  }

  /** The loop as the worker runs it. */
  method CallWithRetry(limiter: RateLimiter, clock: Clock, c: Call) returns (end: Outcome<Result>, trace: seq<Event>)
    requires c.Valid() && Sane(c.script) && limiter.Valid()
    modifies limiter.Repr(), clock
    ensures limiter.Valid() && ValidRegistry(old(limiter.View()))
    ensures Report(end, clock.now, limiter.View(), trace) == Attempts(c, old(limiter.View()), old(clock.now), 0)
  {
    hide Attempts, GoesOn, Resumed, RateLimiter.View, RateLimiter.Valid, ValidRegistry;
    var attempt := 0;
    trace := [];
    limiter.ViewIsValid();
    ghost var whole := Attempts(c, limiter.View(), clock.now, 0);
    while true
      invariant 0 <= attempt < c.policy.retry.maxAttempts
      invariant limiter.Valid() && ValidRegistry(limiter.View())
      invariant Attempts(c, limiter.View(), clock.now, attempt).After(trace) == whole
      decreases c.policy.retry.maxAttempts - attempt
    {
      ghost var registry, now := limiter.View(), clock.now;
      var ended, did := Attempt(limiter, clock, c, attempt);
      if ended.Some? {
        return ended.value, trace + did;
      }
      ResumedIsNext(c, registry, now, attempt);
      AfterTwice(Attempts(c, limiter.View(), clock.now, attempt + 1), did, trace);
      trace := trace + did;
      attempt := attempt + 1;
    }
  }

  lemma AfterTwice(r: Report, near: seq<Event>, far: seq<Event>)
    ensures r.After(near).After(far) == r.After(far + near)
  {
    assert far + (near + r.trace) == (far + near) + r.trace;
  }
}
