/** What every run of the retry loop does (src/llmbus/processing.py:201-239). */
module RetryRuns {
  import opened Prelude
  import opened Schema
  import opened TokenBuckets
  import opened BucketRuns
  import opened RateLimits
  import opened Retries
  import opened Costs
  import opened Processing

  // ----- what the loop does, as a function of the outcomes alone -----

  datatype Kind = Acquiring | Calling | BackingOff

  function KindOf(e: Event): Option<Kind> {
    match e
    case Acquired(_, _, _) => Some(Acquiring)
    case CallStarted(_, _) => Some(Calling)
    case CallEnded(_, _) => None
    case BackedOff(_, _) => Some(BackingOff)
  }

  /** The attempt numbers of the events of one kind, in order. */
  function Numbers(kind: Kind, trace: seq<Event>): seq<nat> {
    if trace == [] then []
    else
      Numbers(kind, trace[..|trace| - 1])
      + if KindOf(trace[|trace| - 1]) == Some(kind) then [trace[|trace| - 1].attempt] else []
  }

  /** The numbers from `low` up to, not including, `high`. */
  function Range(low: nat, high: nat): seq<nat>
    requires low <= high
  {
    seq(high - low, i => low + i)
  }

  lemma {:induction false} NumbersConcat(kind: Kind, a: seq<Event>, b: seq<Event>)
    ensures Numbers(kind, a + b) == Numbers(kind, a) + Numbers(kind, b)
  {
    if b == [] {
      assert a + b == a;
    } else {
      var init := b[..|b| - 1];
      assert (a + b)[..|a + b| - 1] == a + init;
      NumbersConcat(kind, a, init);
    }
  }

  /** Why the loop stopped at an attempt. */
  datatype Stop =
    | ExpiredBefore    // before the limiter was asked
    | Unthrottled      // the limiter refused
    | ExpiredWaiting   // after the limiter's wait
    | Answered         // with what the call returned or raised

  /** Attempts `first` to `last - 1` were called and failed in a way worth retrying. */
  ghost predicate AllRetried(c: Call, first: nat, last: nat) {
    forall k: nat :: first <= k < last ==> c.script(k).reply.Failed? && IsRetryable(c.script(k).reply.failure)
  }

  /** What the loop returns or raises when it stops at attempt `last`. */
  function EndOf(c: Call, stop: Stop, refusal: Error, last: nat): Outcome<Result>
    requires c.Valid()
  {
    match stop
    case Unthrottled => Raised(refusal)
    case ExpiredBefore => Returned(ExpiredResult(c.job, c.provider))
    case ExpiredWaiting => Returned(ExpiredResult(c.job, c.provider))
    case Answered =>
      match c.script(last).reply
      case Succeeded(completion, input, output) => Priced(c.job, c.provider, completion, input, output)
      case Failed(_, text) => Returned(ResultError(c.job, Some(c.provider), text))
  }

  /** The loop makes an unbroken run of attempts and stops at the first success, the first failure not
      worth retrying, the first expiry or the last attempt. It reserves once per call and at most once
      more, backs off once between two attempts, and reports what stopped it. */
  lemma {:induction false} LoopShape(c: Call, registry: Registry, clock: real, first: nat)
      returns (last: nat, stop: Stop, refusal: Error)
    requires c.Valid() && ValidRegistry(registry) && first < c.policy.retry.maxAttempts
    ensures var r := Attempts(c, registry, clock, first);
            && first <= last < c.policy.retry.maxAttempts
            && AllRetried(c, first, last)
            && r.end == EndOf(c, stop, refusal, last)
            && Numbers(BackingOff, r.trace) == Range(first, last)
            && Numbers(Calling, r.trace) == Range(first, if stop == Answered then last + 1 else last)
            && Numbers(Acquiring, r.trace)
               == Range(first, if stop == Answered || stop == ExpiredWaiting then last + 1 else last)
    ensures stop == Answered && c.script(last).reply.Failed? ==>
              !IsRetryable(c.script(last).reply.failure) || last + 1 == c.policy.retry.maxAttempts
    ensures stop == ExpiredBefore || stop == ExpiredWaiting ==> c.job.ttl.Some?
    ensures stop == Unthrottled ==> c.provider !in registry || c.estimate < 0
    decreases c.policy.retry.maxAttempts - first
  {
    hide ReservedFor, Delay, Priced, IsRetryable, TurnEvents, Attempts, Range, Numbers, AllRetried, EndOf;
    if GoesOn(c, registry, clock, first) {
      var (after, resumed, did) := Resumed(c, registry, clock, first);
      ResumedIsNext(c, registry, clock, first);
      hide GoesOn, Resumed;
      TurnNumbers(c, registry, clock, first);
      ReservedOrRefused(registry, c.provider, clock, c.estimate);
      last, stop, refusal := LoopShape(c, after, resumed, first + 1);
      var rest := Attempts(c, after, resumed, first + 1).trace;
      NumbersConcat(Acquiring, did, rest);
      NumbersConcat(Calling, did, rest);
      NumbersConcat(BackingOff, did, rest);
      RangeFrom(first, last);
      RangeFrom(first, last + 1);
      RetriedFrom(c, first, last);
    } else {
      RangeFrom(first, first + 1);
      NoRange(first);
      NoRange(first + 1);
      NoneRetried(c, first);
      last := first;
      stop, refusal := StopsHere(c, registry, clock, first);
    }
  }

  lemma RetriedFrom(c: Call, first: nat, last: nat)
    requires c.script(first).reply.Failed? && IsRetryable(c.script(first).reply.failure)
    requires AllRetried(c, first + 1, last)
    ensures AllRetried(c, first, last)
  {
  }

  lemma NoneRetried(c: Call, first: nat)
    ensures AllRetried(c, first, first)
  {
  }

  lemma RangeFrom(low: nat, high: nat)
    requires low < high
    ensures Range(low, high) == [low] + Range(low + 1, high)
  {
  }

  lemma NoRange(low: nat)
    ensures Range(low, low) == []
  {
  }

  lemma TurnNumbers(c: Call, registry: Registry, clock: real, k: nat)
    requires c.Valid() && ValidRegistry(registry) && GoesOn(c, registry, clock, k)
    ensures forall kind :: Numbers(kind, Resumed(c, registry, clock, k).2) == [k]
    ensures c.script(k).reply.Failed? && IsRetryable(c.script(k).reply.failure)
    ensures k + 1 < c.policy.retry.maxAttempts
    ensures c.provider in Resumed(c, registry, clock, k).0 <==> c.provider in registry
  {
    var did := Resumed(c, registry, clock, k).2;
    OneTurn(did[0], did[1], did[2], did[3]);
    assert did == [did[0], did[1], did[2], did[3]];
    forall kind
      ensures Numbers(kind, did) == [k]
    {
      match kind case Acquiring => case Calling => case BackingOff =>
    }
  }

  lemma StopsHere(c: Call, registry: Registry, clock: real, k: nat) returns (stop: Stop, refusal: Error)
    requires c.Valid() && ValidRegistry(registry) && k < c.policy.retry.maxAttempts
    requires !GoesOn(c, registry, clock, k)
    ensures var r := Attempts(c, registry, clock, k);
            && r.end == EndOf(c, stop, refusal, k)
            && Numbers(BackingOff, r.trace) == []
            && Numbers(Calling, r.trace) == (if stop == Answered then [k] else [])
            && Numbers(Acquiring, r.trace) == if stop == Answered || stop == ExpiredWaiting then [k] else []
    ensures stop == Answered && c.script(k).reply.Failed? ==>
              !IsRetryable(c.script(k).reply.failure) || k + 1 == c.policy.retry.maxAttempts
    ensures stop == ExpiredBefore || stop == ExpiredWaiting ==> c.job.ttl.Some?
    ensures stop == Unthrottled ==> c.provider !in registry || c.estimate < 0
  {
    hide Attempts, EndOf, StopTrace, ReservedFor, IsRetryable, IsExpired;
    var asked := Asked(c, registry, clock);
    stop, refusal := StopOf(c, registry, clock, k), if asked.Raised? then asked.error else ValueError;
    StopReport(c, registry, clock, k);
    StopNumbers(c, stop, asked, clock, k);
    WhyStopped(c, registry, clock, k);
  }

  /** What the limiter says to the attempt. */
  function Asked(c: Call, registry: Registry, clock: real): Outcome<real>
    requires c.Valid() && ValidRegistry(registry)
  {
    ReservedFor(registry, c.provider, clock, c.estimate as real).1
  }

  /** Why an attempt that does not go on stops. */
  function StopOf(c: Call, registry: Registry, clock: real, k: nat): Stop
    requires c.Valid() && ValidRegistry(registry)
  {
    var asked := Asked(c, registry, clock);
    if IsExpired(c.job, clock) then ExpiredBefore
    else if asked.Raised? then Unthrottled
    else if IsExpired(c.job, clock + Slept(asked, c.script(k).overshoot)) then ExpiredWaiting
    else Answered
  }

  /** What an attempt that stops has done. */
  function StopTrace(c: Call, stop: Stop, asked: Outcome<real>, clock: real, k: nat): seq<Event> {
    var wait := if asked.Returned? then asked.value else 0.0;
    var begun := clock + Slept(asked, c.script(k).overshoot);
    match stop
    case ExpiredBefore => []
    case Unthrottled => []
    case ExpiredWaiting => [Acquired(k, clock, wait)]
    case Answered => [Acquired(k, clock, wait), CallStarted(k, begun), CallEnded(k, begun + c.script(k).duration)]
  }

  lemma StopReport(c: Call, registry: Registry, clock: real, k: nat)
    requires c.Valid() && ValidRegistry(registry) && k < c.policy.retry.maxAttempts
    requires !GoesOn(c, registry, clock, k)
    ensures var r, asked := Attempts(c, registry, clock, k), Asked(c, registry, clock);
            var stop := StopOf(c, registry, clock, k);
            && r.end == EndOf(c, stop, if asked.Raised? then asked.error else ValueError, k)
            && r.trace == StopTrace(c, stop, asked, clock, k)
  {
    hide ReservedFor, Delay, Priced, IsRetryable, IsExpired;
  }

  lemma StopNumbers(c: Call, stop: Stop, asked: Outcome<real>, clock: real, k: nat)
    ensures var trace := StopTrace(c, stop, asked, clock, k);
            && Numbers(BackingOff, trace) == []
            && Numbers(Calling, trace) == (if stop == Answered then [k] else [])
            && Numbers(Acquiring, trace) == if stop == Answered || stop == ExpiredWaiting then [k] else []
  {
    var begun := clock + Slept(asked, c.script(k).overshoot);
    OneTurn(Acquired(k, clock, if asked.Returned? then asked.value else 0.0), CallStarted(k, begun),
            CallEnded(k, begun + c.script(k).duration), BackedOff(k, 0.0));
  }

  lemma WhyStopped(c: Call, registry: Registry, clock: real, k: nat)
    requires c.Valid() && ValidRegistry(registry) && k < c.policy.retry.maxAttempts
    requires !GoesOn(c, registry, clock, k)
    ensures var stop := StopOf(c, registry, clock, k);
            && (stop == Answered && c.script(k).reply.Failed? ==>
                  !IsRetryable(c.script(k).reply.failure) || k + 1 == c.policy.retry.maxAttempts)
            && (stop == ExpiredBefore || stop == ExpiredWaiting ==> c.job.ttl.Some?)
            && (stop == Unthrottled ==> c.provider !in registry || c.estimate < 0)
  {
    ReservedOrRefused(registry, c.provider, clock, c.estimate);
    hide ReservedFor, IsRetryable;
  }

  lemma ReservedOrRefused(registry: Registry, provider: string, now: real, estimate: int)
    requires ValidRegistry(registry)
    ensures var r := ReservedFor(registry, provider, now, estimate as real);
            && (r.1.Raised? <==> provider !in registry || estimate < 0)
            && (r.1.Raised? ==> r.0 == registry)
            && (provider in r.0 <==> provider in registry)
  {
  }

  /** Where an attempt that stops leaves the limiters and the clock. */
  lemma StopState(c: Call, registry: Registry, clock: real, k: nat)
    requires c.Valid() && ValidRegistry(registry) && k < c.policy.retry.maxAttempts && c.estimate >= 0
    requires c.provider in registry && !GoesOn(c, registry, clock, k)
    ensures var r := Attempts(c, registry, clock, k);
            var (after, wait) := ReservedFor(registry, c.provider, clock, c.estimate as real);
            var begun := clock + Slept(wait, c.script(k).overshoot);
            match StopOf(c, registry, clock, k)
            case ExpiredBefore => r.registry == registry && r.clock == clock
            case Unthrottled => false
            case ExpiredWaiting => r.registry == after && r.clock == begun
            case Answered => r.registry == after && r.clock == begun + c.script(k).duration
  {
    ReservedOrRefused(registry, c.provider, clock, c.estimate);
    hide ReservedFor, Delay, Priced, IsRetryable, IsExpired;
  }

  lemma OneTurn(a: Event, s: Event, f: Event, b: Event)
    requires a.Acquired? && s.CallStarted? && f.CallEnded? && b.BackedOff?
    ensures Numbers(Acquiring, [a]) == [a.attempt] == Numbers(Acquiring, [a, s, f]) == Numbers(Acquiring, [a, s, f, b])
    ensures Numbers(Calling, [a]) == []
    ensures Numbers(Calling, [a, s, f]) == [s.attempt] == Numbers(Calling, [a, s, f, b])
    ensures Numbers(BackingOff, [a]) == [] == Numbers(BackingOff, [a, s, f])
    ensures Numbers(BackingOff, [a, s, f, b]) == [b.attempt]
  {
    assert [a, s, f, b][..3] == [a, s, f] && [a, s, f][..2] == [a, s] && [a, s][..1] == [a] && [a][..0] == [];
  }

  lemma InRange(low: nat, high: nat, k: nat)
    requires low <= high
    ensures k in Range(low, high) <==> low <= k < high
  {
    if low <= k < high {
      assert Range(low, high)[k - low] == k;
    }
  }

  /** A call is followed by a backoff exactly if attempts are left and it lost its connection or timed out, or was
      answered 408, 409, 429 or with a server error; and by another call only after that backoff. */
  lemma RetriedExactly(c: Call, registry: Registry, clock: real, k: nat)
    requires c.Valid() && ValidRegistry(registry)
    ensures var trace, reply := Attempts(c, registry, clock, 0).trace, c.script(k).reply;
            && (k in Numbers(BackingOff, trace)
                <==> && k in Numbers(Calling, trace) && k + 1 < c.policy.retry.maxAttempts && reply.Failed?
                     && (reply.failure.transport
                         || match reply.failure.status
                            case Some(status) => status in {408, 409, 429} || status >= 500
                            case None => reply.failure.name in {"APIConnectionError", "APITimeoutError"}))
            && (k + 1 in Numbers(Calling, trace) ==> k in Numbers(BackingOff, trace))
  {
    hide Attempts, Numbers, Range, AllRetried, EndOf;
    var last, stop, refusal := LoopShape(c, registry, clock, 0);
    InRange(0, last, k);
    InRange(0, last + 1, k);
    InRange(0, last, k + 1);
    InRange(0, last + 1, k + 1);
    if k < last {
      WasRetried(c, last, k);
    }
  }

  lemma WasRetried(c: Call, last: nat, k: nat)
    requires AllRetried(c, 0, last) && k < last
    ensures c.script(k).reply.Failed? && IsRetryable(c.script(k).reply.failure)
  {
  }

  /** The loop never makes more calls than the policy allows, and none at all for a job that expired first. */
  lemma CallsBounded(c: Call, registry: Registry, clock: real)
    requires c.Valid() && ValidRegistry(registry)
    ensures |Numbers(Calling, Attempts(c, registry, clock, 0).trace)| <= c.policy.retry.maxAttempts
  {
    var last, stop, refusal := LoopShape(c, registry, clock, 0);
  }

  /** The estimate is the asked output, or the default, plus a token for every four whole characters. For a
      valid job it is never negative, so only an unknown provider makes the limiter refuse. */
  lemma EstimateIsNonNegative(job: Job, policy: WorkerPolicy)
    requires ValidJob(job) && policy.Valid()
    ensures var estimate := EstimateTokens(job, policy.defaultOutputTokens);
            var input := estimate - if job.maxTokens.Some? then job.maxTokens.value else policy.defaultOutputTokens;
            && estimate >= input >= 0
            && 4 * input <= Characters(job.messages) < 4 * input + 4
  {
  }

  lemma {:induction false} CharactersAddUp(a: seq<Message>, b: seq<Message>)
    ensures Characters(a + b) == Characters(a) + Characters(b)
  {
    if a == [] {
      assert a + b == b;
    } else {
      assert (a + b)[1..] == a[1..] + b;
      CharactersAddUp(a[1..], b);
    }
  }

  lemma CharactersOfOne(m: Message)
    ensures Characters([m]) == |m.content|
  {
    assert [m][1..] == [];
  }

  /** All messages count, and only by their length: a message that is cut in two leaves the estimate as it was,
      wherever it stands, and one of 4n characters more, anywhere, adds n tokens. */
  lemma EstimateCountsAllMessages(job: Job, defaultOutputTokens: int, a: seq<Message>, b: seq<Message>,
                                  whole: Message, first: Message, second: Message, n: nat)
    requires whole.content == first.content + second.content
    ensures EstimateTokens(job.(messages := a + [first, second] + b), defaultOutputTokens)
         == EstimateTokens(job.(messages := a + [whole] + b), defaultOutputTokens)
    ensures |whole.content| == 4 * n ==>
              EstimateTokens(job.(messages := a + [whole] + b), defaultOutputTokens)
              == EstimateTokens(job.(messages := a + b), defaultOutputTokens) + n
  {
    assert [first, second] == [first] + [second];
    CharactersAddUp([first], [second]);
    CharactersAddUp(a, [first, second]);
    CharactersAddUp(a + [first, second], b);
    CharactersAddUp(a, [whole]);
    CharactersAddUp(a + [whole], b);
    CharactersAddUp(a, b);
    CharactersOfOne(first);
    CharactersOfOne(second);
    CharactersOfOne(whole);
  }

  // ----- when the loop raises -----

  /** A success that cannot be billed: a count is negative, or no rate is in force on the job's day. */
  predicate Unbillable(job: Job, reply: Reply)
    requires job.model.Some?
  {
    reply.Succeeded? && (!NonNegativeCounts(reply) || PriceFor(job.model.value, job.submittedAt.day).Raised?)
  }

  /** One run of the loop raises exactly when it finds no limiter, or a call it makes succeeds and cannot be billed. */
  lemma RaisesExactly(c: Call, registry: Registry, clock: real)
    requires c.Valid() && ValidRegistry(registry) && c.estimate >= 0
    ensures Attempts(c, registry, clock, 0).end.Raised?
       <==> || (!IsExpired(c.job, clock) && c.provider !in registry)
            || exists k :: k in Numbers(Calling, Attempts(c, registry, clock, 0).trace)
                        && Unbillable(c.job, c.script(k).reply)
  {
    hide Attempts, Numbers, IsExpired, Unbillable;
    if c.provider !in registry {
      WithoutLimiter(c, registry, clock);
    } else {
      var last, answered := CallsOf(c, registry, clock);
      if answered {
        assert last in Numbers(Calling, Attempts(c, registry, clock, 0).trace);
      }
      forall k: nat | k in Numbers(Calling, Attempts(c, registry, clock, 0).trace) && k < last
        ensures !Unbillable(c.job, c.script(k).reply)
      {
        FailureIsNoBill(c, k);
      }
    }
  }

  lemma FailureIsNoBill(c: Call, k: nat)
    requires c.Valid() && c.script(k).reply.Failed?
    ensures !Unbillable(c.job, c.script(k).reply)
  {
  }

  /** With a limiter, the calls are 0 up to some last one, all before the last failed, and the loop raises
      exactly if the last one cannot be billed. */
  lemma CallsOf(c: Call, registry: Registry, clock: real) returns (last: nat, answered: bool)
    requires c.Valid() && ValidRegistry(registry) && c.estimate >= 0 && c.provider in registry
    ensures var r := Attempts(c, registry, clock, 0);
            && (forall k: nat :: k in Numbers(Calling, r.trace) <==> k < last || (k == last && answered))
            && (forall k: nat :: k < last ==> c.script(k).reply.Failed?)
            && (r.end.Raised? <==> answered && Unbillable(c.job, c.script(last).reply))
  {
    hide Attempts, Numbers, Range, AllRetried, Unbillable, EndOf;
    var stop, refusal;
    last, stop, refusal := LoopShape(c, registry, clock, 0);
    answered := stop == Answered;
    forall k: nat
      ensures k in Numbers(Calling, Attempts(c, registry, clock, 0).trace) <==> k < last || (k == last && answered)
    {
      InRange(0, last, k);
      InRange(0, last + 1, k);
    }
    forall k: nat | k < last
      ensures c.script(k).reply.Failed?
    {
      WasRetried(c, last, k);
    }
    BilledOrNot(c, stop, refusal, last);
  }

  lemma BilledOrNot(c: Call, stop: Stop, refusal: Error, k: nat)
    requires c.Valid() && stop != Unthrottled
    ensures EndOf(c, stop, refusal, k).Raised? <==> stop == Answered && Unbillable(c.job, c.script(k).reply)
  {
    hide PriceFor;
  }

  /** Without a limiter the loop does nothing at all. */
  lemma WithoutLimiter(c: Call, registry: Registry, clock: real)
    requires c.Valid() && ValidRegistry(registry) && c.provider !in registry
    ensures var r := Attempts(c, registry, clock, 0);
            && (r.end.Raised? <==> !IsExpired(c.job, clock))
            && r.trace == [] && r.clock == clock && r.registry == registry
            && Numbers(Calling, r.trace) == []
  {
  }

  /** The loop returns a result, however the calls end and whatever they report. */
  ghost predicate AlwaysReturns(c: Call, registry: Registry, clock: real)
    requires c.Valid() && ValidRegistry(registry)
  {
    forall script: Script | Sane(script) :: Attempts(c.(script := script), registry, clock, 0).end.Returned?
  }

  ghost predicate ReportsCounts(script: Script) {
    forall k: nat :: NonNegativeCounts(script(k).reply)
  }

  /** The loop returns a result for every provider that reports no negative count. */
  ghost predicate ReturnsForCounts(c: Call, registry: Registry, clock: real)
    requires c.Valid() && ValidRegistry(registry)
  {
    forall script: Script | Sane(script) && ReportsCounts(script) ::
      Attempts(c.(script := script), registry, clock, 0).end.Returned?
  }

  /** The job expires before it can be called: at once, or by the time the limiter lets it go. */
  predicate ExpiresUncalled(c: Call, registry: Registry, clock: real)
    requires c.Valid() && ValidRegistry(registry)
  {
    || IsExpired(c.job, clock)
    || (c.provider in registry && IsExpired(c.job, clock + Slept(Asked(c, registry, clock), 0.0)))
  }

  /** A provider that answers every call at once, with this many input tokens. */
  function Prompt(input: int): Script {
    (k: nat) => Turn(0.0, Succeeded("", input, 0), 0.0, 0.0, 0.0)
  }

  /** Over all providers, the loop returns exactly when it makes no call. Over those that report no negative
      count, it also returns exactly when there is a limiter and a rate is in force on the job's day. */
  lemma ReturnsExactly(c: Call, registry: Registry, clock: real)
    requires c.Valid() && ValidRegistry(registry) && c.estimate >= 0
    ensures AlwaysReturns(c, registry, clock) <==> ExpiresUncalled(c, registry, clock)
    ensures ReturnsForCounts(c, registry, clock)
       <==> || ExpiresUncalled(c, registry, clock)
            || (c.provider in registry && PriceFor(c.job.model.value, c.job.submittedAt.day).Returned?)
  {
    hide Attempts, PriceFor, ExpiresUncalled, Sane, ReportsCounts;
    if ExpiresUncalled(c, registry, clock) {
      forall script: Script | Sane(script)
        ensures Attempts(c.(script := script), registry, clock, 0).end.Returned?
      {
        SameUncalled(c, script, registry, clock);
        UncalledReturns(c.(script := script), registry, clock);
      }
    } else {
      Raiser(c, registry, clock, -1);
      if c.provider in registry && PriceFor(c.job.model.value, c.job.submittedAt.day).Returned? {
        forall script: Script | Sane(script) && ReportsCounts(script)
          ensures Attempts(c.(script := script), registry, clock, 0).end.Returned?
        {
          PricedLoopReturns(c.(script := script), registry, clock);
        }
      } else {
        Raiser(c, registry, clock, 0);
      }
    }
  }

  lemma SameUncalled(c: Call, script: Script, registry: Registry, clock: real)
    requires c.Valid() && ValidRegistry(registry)
    ensures ExpiresUncalled(c.(script := script), registry, clock) <==> ExpiresUncalled(c, registry, clock)
  {
  }

  /** A prompt provider makes the loop raise if its counts are negative, or if nothing is there to bill by. */
  lemma Raiser(c: Call, registry: Registry, clock: real, input: int)
    requires c.Valid() && ValidRegistry(registry) && c.estimate >= 0 && !ExpiresUncalled(c, registry, clock)
    requires input < 0 || c.provider !in registry || PriceFor(c.job.model.value, c.job.submittedAt.day).Raised?
    ensures Sane(Prompt(input)) && (input >= 0 ==> ReportsCounts(Prompt(input)))
    ensures !Attempts(c.(script := Prompt(input)), registry, clock, 0).end.Returned?
  {
    hide PriceFor;
    SameUncalled(c, Prompt(input), registry, clock);
    PromptRaises(c.(script := Prompt(input)), registry, clock, input);
  }

  /** A job that expires while it waits ends as expired; a longer sleep does not change that. */
  lemma UncalledReturns(c: Call, registry: Registry, clock: real)
    requires c.Valid() && ValidRegistry(registry) && c.estimate >= 0 && Sane(c.script)
    requires ExpiresUncalled(c, registry, clock)
    ensures Attempts(c, registry, clock, 0).end == Returned(ExpiredResult(c.job, c.provider))
  {
    hide ReservedFor;
    ReservedOrRefused(registry, c.provider, clock, c.estimate);
    assert c.script(0).overshoot >= 0.0;
  }

  lemma PricedLoopReturns(c: Call, registry: Registry, clock: real)
    requires c.Valid() && ValidRegistry(registry) && c.estimate >= 0 && c.provider in registry
    requires PriceFor(c.job.model.value, c.job.submittedAt.day).Returned? && ReportsCounts(c.script)
    ensures Attempts(c, registry, clock, 0).end.Returned?
  {
    hide Attempts, PriceFor, Numbers, IsRetryable;
    var last, stop, refusal := LoopShape(c, registry, clock, 0);
  }

  lemma PromptRaises(c: Call, registry: Registry, clock: real, input: int)
    requires c.Valid() && ValidRegistry(registry) && c.script == Prompt(input)
    requires c.estimate >= 0 && !ExpiresUncalled(c, registry, clock)
    requires input < 0 || c.provider !in registry || PriceFor(c.job.model.value, c.job.submittedAt.day).Raised?
    ensures Attempts(c, registry, clock, 0).end.Raised?
    ensures c.provider in registry && input < 0 ==> Attempts(c, registry, clock, 0).end == Raised(ValueError)
  {
    hide Attempts, ReservedFor, PriceFor, IsExpired, Slept;
    ReservedOrRefused(registry, c.provider, clock, c.estimate);
    PromptTurn(c, input);
    StopReport(c, registry, clock, 0);
  }

  lemma PromptTurn(c: Call, input: int)
    requires c.script == Prompt(input)
    ensures c.script(0) == Turn(0.0, Succeeded("", input, 0), 0.0, 0.0, 0.0)
  {
  }

  /** A job for a routed model, with a limiter and no deadline, submitted on this day. */
  function PlainCall(policy: WorkerPolicy, day: Day, input: int): Call {
    var job := Job("j", "p", "k", Some("gpt-5"), [], None, None, map[], Timestamp(0.0, day), None);
    Call(policy, job, "openai", 0, Prompt(input))
  }

  /** Two jobs on which the loop raises although nothing about them was refused: one dated the day before the
      price floor, and one whose provider reports a negative count. */
  lemma RoutedJobsThatRaise(policy: WorkerPolicy, limiter: Limiter, clock: real)
    requires policy.Valid() && limiter.Valid()
    ensures Attempts(PlainCall(policy, EPOCH - 1, 1), map["openai" := limiter], clock, 0).end.Raised?
    ensures Attempts(PlainCall(policy, EPOCH, -1), map["openai" := limiter], clock, 0).end == Raised(ValueError)
  {
    RoutedIsPriced("gpt-5", EPOCH - 1);
    PromptRaises(PlainCall(policy, EPOCH - 1, 1), map["openai" := limiter], clock, 1);
    PromptRaises(PlainCall(policy, EPOCH, -1), map["openai" := limiter], clock, -1);
  }

  // ----- deadlines -----

  /** Reservations and calls happen before the job expires; no call outlives that by more than its timeout. */
  predicate InTime(job: Job, jobTimeout: real, e: Event) {
    match e
    case Acquired(_, at, _) => job.ttl.Some? ==> at < job.submittedAt.instant + job.ttl.value
    case CallStarted(_, at) => job.ttl.Some? ==> at < job.submittedAt.instant + job.ttl.value
    case CallEnded(_, at) => job.ttl.Some? ==> at < job.submittedAt.instant + job.ttl.value + jobTimeout
    case BackedOff(_, _) => true
  }

  /** Every call ends within its timeout. */
  ghost predicate Punctual(c: Call) {
    forall k: nat :: c.script(k).duration <= c.policy.jobTimeout
  }

  lemma {:induction false} DeadlineSafety(c: Call, registry: Registry, clock: real, first: nat)
    requires c.Valid() && ValidRegistry(registry) && first < c.policy.retry.maxAttempts
    requires Sane(c.script) && Punctual(c)
    ensures forall e :: e in Attempts(c, registry, clock, first).trace ==> InTime(c.job, c.policy.jobTimeout, e)
    decreases c.policy.retry.maxAttempts - first
  {
    hide InTime, Attempts, GoesOn, Resumed;
    if GoesOn(c, registry, clock, first) {
      var n := Resumed(c, registry, clock, first);
      ResumedIsNext(c, registry, clock, first);
      TurnInTime(c, registry, clock, first);
      DeadlineSafety(c, n.0, n.1, first + 1);
    } else {
      LastTurnInTime(c, registry, clock, first);
    }
  }

  lemma TurnInTime(c: Call, registry: Registry, clock: real, k: nat)
    requires c.Valid() && ValidRegistry(registry) && Punctual(c) && GoesOn(c, registry, clock, k)
    ensures forall e :: e in Resumed(c, registry, clock, k).2 ==> InTime(c.job, c.policy.jobTimeout, e)
  {
    hide ReservedFor, Delay, IsRetryable;
  }

  lemma LastTurnInTime(c: Call, registry: Registry, clock: real, k: nat)
    requires c.Valid() && ValidRegistry(registry) && Punctual(c)
    requires k < c.policy.retry.maxAttempts && !GoesOn(c, registry, clock, k)
    ensures forall e :: e in Attempts(c, registry, clock, k).trace ==> InTime(c.job, c.policy.jobTimeout, e)
  {
    hide ReservedFor, Delay, Priced, IsRetryable;
  }

  /** A job whose deadline has been reached costs no quota and no call, and still ends in an error result. */
  lemma ExpiredCostsNothing(c: Call, registry: Registry, clock: real)
    requires c.Valid() && ValidRegistry(registry)
    requires c.job.ttl.Some? && c.job.submittedAt.instant + c.job.ttl.value <= clock
    ensures var r := Attempts(c, registry, clock, 0);
            && r.registry == registry && r.trace == [] && r.clock == clock
            && r.end.Returned? && r.end.value.verdict == Verdict.Error
            && r.end.value.id == c.job.id && r.end.value.usage == NO_USAGE
            && r.end.value.provider == Some(c.provider)
  {
    hide ReservedFor, Ceiling, Jittered, Priced, IsRetryable;
  }

  // ----- occupancy -----

  /** The waits the limiter asked for. */
  function Waited(trace: seq<Event>): real {
    if trace == [] then 0.0
    else
      Waited(trace[..|trace| - 1])
      + match trace[|trace| - 1] case Acquired(_, _, wait) => wait case _ => 0.0
  }

  lemma {:induction false} WaitedConcat(a: seq<Event>, b: seq<Event>)
    ensures Waited(a + b) == Waited(a) + Waited(b)
  {
    if b == [] {
      assert a + b == a;
    } else {
      var init := b[..|b| - 1];
      assert (a + b)[..|a + b| - 1] == a + init;
      WaitedConcat(a, init);
    }
  }

  /** How far the sleeps of attempts `first` to `last - 1` overshoot in all. */
  function Slack(script: Script, first: nat, last: nat): real
    requires first <= last
    decreases last - first
  {
    if first == last then 0.0
    else script(first).overshoot + script(first).oversleep + Slack(script, first + 1, last)
  }

  /** The timeouts of the attempts from `first` on, and the delays between them. */
  function BudgetFrom(policy: WorkerPolicy, first: nat): real
    requires policy.Valid() && first < policy.retry.maxAttempts
    decreases policy.retry.maxAttempts - first
  {
    policy.jobTimeout
    + if first + 1 < policy.retry.maxAttempts then Ceiling(first, policy.retry) + BudgetFrom(policy, first + 1) else 0.0
  }

  lemma {:induction false} BudgetSplit(policy: WorkerPolicy, first: nat)
    requires policy.Valid() && first < policy.retry.maxAttempts
    ensures BudgetFrom(policy, first) >= policy.jobTimeout
    ensures BudgetFrom(policy, first) + CeilingSum(first, policy.retry)
         == (policy.retry.maxAttempts - first) as real * policy.jobTimeout
          + CeilingSum(policy.retry.maxAttempts - 1, policy.retry)
    decreases policy.retry.maxAttempts - first
  {
    hide Ceiling;
    var left := policy.retry.maxAttempts - first;
    if left > 1 {
      BudgetSplit(policy, first + 1);
      CeilingMonotone(first, policy.retry, first, policy.retry);
      assert left as real == (left - 1) as real + 1.0;
      Distribute(policy.jobTimeout, 0.0, 1.0, left as real);
    }
  }

  lemma {:induction false} SlackIsNonNegative(script: Script, first: nat, last: nat)
    requires Sane(script) && first <= last
    ensures Slack(script, first, last) >= 0.0
    decreases last - first
  {
    if first < last {
      SlackIsNonNegative(script, first + 1, last);
    }
  }

  /** The time the loop takes is at most what the limiter asks for, the retry budget of the attempts
      that are left, and what the sleeps overshoot. */
  lemma {:induction false} Occupancy(c: Call, registry: Registry, clock: real, first: nat)
    requires c.Valid() && ValidRegistry(registry) && first < c.policy.retry.maxAttempts
    requires Sane(c.script) && Punctual(c)
    ensures var r := Attempts(c, registry, clock, first);
            r.clock - clock
            <= Waited(r.trace) + BudgetFrom(c.policy, first) + Slack(c.script, first, c.policy.retry.maxAttempts)
    decreases c.policy.retry.maxAttempts - first
  {
    hide Ceiling, Jittered, Priced, IsRetryable, IsExpired, ReservedFor, TurnEvents;
    BudgetSplit(c.policy, first);
    SlackIsNonNegative(c.script, first + 1, c.policy.retry.maxAttempts);
    WaitsAreNonNegative(registry, c.provider, clock, c.estimate);
    if GoesOn(c, registry, clock, first) {
      var (after, resumed, did) := Resumed(c, registry, clock, first);
      ResumedIsNext(c, registry, clock, first);
      TurnTime(c, registry, clock, first);
      hide GoesOn, Resumed;
      Occupancy(c, after, resumed, first + 1);
      WaitedConcat(did, Attempts(c, after, resumed, first + 1).trace);
    } else {
      LastTurnTime(c, registry, clock, first);
    }
  }

  lemma TurnTime(c: Call, registry: Registry, clock: real, k: nat)
    requires c.Valid() && ValidRegistry(registry) && Sane(c.script) && Punctual(c)
    requires GoesOn(c, registry, clock, k)
    ensures var n := Resumed(c, registry, clock, k);
            n.1 - clock <= Waited(n.2) + c.policy.jobTimeout + Ceiling(k, c.policy.retry)
                         + c.script(k).overshoot + c.script(k).oversleep
  {
    hide ReservedFor, IsRetryable, IsExpired;
    WaitsAreNonNegative(registry, c.provider, clock, c.estimate);
    BackoffMonotone(k, k, c.policy.retry, c.script(k).jitter);
    hide Ceiling, Jittered;
    var did := Resumed(c, registry, clock, k).2;
    assert did == [did[0], did[1], did[2], did[3]];
    OneWait(did[0], did[1], did[2], did[3]);
  }

  lemma LastTurnTime(c: Call, registry: Registry, clock: real, k: nat)
    requires c.Valid() && ValidRegistry(registry) && Sane(c.script) && Punctual(c)
    requires k < c.policy.retry.maxAttempts && !GoesOn(c, registry, clock, k)
    ensures var r := Attempts(c, registry, clock, k);
            r.clock - clock <= Waited(r.trace) + c.policy.jobTimeout + c.script(k).overshoot + c.script(k).oversleep
  {
    hide Ceiling, Jittered, Priced, IsRetryable, IsExpired, ReservedFor;
    WaitsAreNonNegative(registry, c.provider, clock, c.estimate);
    var wait := ReservedFor(registry, c.provider, clock, c.estimate as real).1;
    if !IsExpired(c.job, clock) && wait.Returned? {
      var begun := clock + Slept(wait, c.script(k).overshoot);
      var acquired := Acquired(k, clock, wait.value);
      var started, finished := CallStarted(k, begun), CallEnded(k, begun + c.script(k).duration);
      OneWait(acquired, started, finished, BackedOff(k, 0.0));
      assert [acquired] + [started, finished] == [acquired, started, finished];
    }
  }

  lemma OneWait(a: Event, s: Event, f: Event, b: Event)
    requires a.Acquired? && s.CallStarted? && f.CallEnded? && b.BackedOff?
    ensures Waited([a]) == a.wait == Waited([a, s, f]) == Waited([a, s, f, b])
  {
    assert [a, s, f, b][..3] == [a, s, f] && [a, s, f][..2] == [a, s] && [a, s][..1] == [a] && [a][..0] == [];
  }

  lemma WaitsAreNonNegative(registry: Registry, provider: string, now: real, estimate: int)
    requires ValidRegistry(registry)
    ensures var wait := ReservedFor(registry, provider, now, estimate as real).1;
            wait.Returned? ==> wait.value >= 0.0
  {
    hide Bucket.Charged, Bucket.Wait;
    if provider in registry && estimate >= 0 {
      var l := registry[provider];
      WaitIsNonNegative(l.requests, now, 1.0);
      WaitIsNonNegative(l.tokens, now, estimate as real);
    }
  }

  lemma WaitIsNonNegative(b: Bucket, now: real, amount: real)
    requires b.rate > 0.0
    ensures b.Charged(now, amount).rate > 0.0 && b.Charged(now, amount).Wait() >= 0.0
  {
    hide Bucket.Refilled, Bucket.Wait;
    WaitCovers(b.Charged(now, amount), 0.0);
  }

  /** The same bound for a whole job: its waits plus the published retry budget. */
  lemma OccupancyOfJob(c: Call, registry: Registry, clock: real)
    requires c.Valid() && ValidRegistry(registry) && Sane(c.script) && Punctual(c)
    ensures var r := Attempts(c, registry, clock, 0);
            r.clock - clock
            <= Waited(r.trace) + RetryBudget(c.policy) + Slack(c.script, 0, c.policy.retry.maxAttempts)
  {
    hide CeilingSum, BudgetFrom, Attempts, Slack;
    Occupancy(c, registry, clock, 0);
    BudgetSplit(c.policy, 0);
    NoCeilings(c.policy.retry);
  }

  lemma NoCeilings(policy: RetryPolicy)
    ensures CeilingSum(0, policy) == 0.0
  {
  }
}
