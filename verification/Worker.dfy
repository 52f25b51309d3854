/** The worker: one job end to end, and the serial consume loop (src/llmbus/processing.py:286-325,
    src/llmbus/worker.py:194-215, 272-289). */
module Workers {
  import opened Prelude
  import opened Schema
  import opened RateLimits
  import opened Retries
  import opened Processing
  import opened Tables
  import opened Stores

  /** What the worker is wired with: its policy and the providers it has adapters for. */
  datatype Config = Config(policy: WorkerPolicy, wired: set<string>)

  /** One attempted callback. */
  datatype Delivery = Delivery(url: string, result: Result)

  /** What the outside world does while one message is processed. */
  datatype Moment = Moment(script: Script, when: real, overhead: real)

  type Environment = nat -> Moment

  /** Everything the worker reads and writes. */
  datatype World = World(registry: Registry, clock: real, jobs: Jobs, sent: seq<Delivery>)

  function CallFor(config: Config, job: Job, provider: string, script: Script): Call {
    Call(config.policy, job, provider, EstimateTokens(job, config.policy.defaultOutputTokens), script)
  }

  /** The result of a job before it is stored: an error if it cannot be routed, else what the loop reports. */
  function Handled(config: Config, job: Job, script: Script, registry: Registry, clock: real): Report
    requires config.policy.Valid() && ValidRegistry(registry)
  {
    if job.model.None? then Report(Returned(ResultError(job, None, "no model")), clock, registry, [])
    else
      match ProviderFor(job.model.value)
      case Raised(_) => Report(Returned(ResultError(job, None, "no provider")), clock, registry, [])
      case Returned(provider) =>
        if provider !in config.wired then
          Report(Returned(ResultError(job, Some(provider), "no adapter")), clock, registry, [])
        else Attempts(CallFor(config, job, provider, script), registry, clock, 0)
  }

  /** Finalize, and call back only if this delivery won. */
  function Notified(jobs: Jobs, sent: seq<Delivery>, job: Job, result: Result, when: real): (Jobs, seq<Delivery>) {
    var (after, won) := Finalized(jobs, result, when);
    (after, if won && job.callback.Some? then sent + [Delivery(job.callback.value, result)] else sent)
  }

  function Processed(config: Config, w: World, job: Job, m: Moment): (World, Outcome<Result>)
    requires config.policy.Valid() && ValidRegistry(w.registry)
  {
    var r := Handled(config, job, m.script, w.registry, w.clock);
    if r.end.Raised? then (World(r.registry, r.clock, w.jobs, w.sent), r.end)
    else
      var (jobs, sent) := Notified(w.jobs, w.sent, job, r.end.value, m.when);
      (World(r.registry, r.clock + m.overhead, jobs, sent), r.end)
  }

  /** A message that does not decode is skipped; one that does is processed, and may raise. */
  function Consumed(config: Config, w: World, posting: Posting, m: Moment): (r: (World, bool))
    requires config.policy.Valid() && ValidRegistry(w.registry)
    ensures ValidRegistry(r.0.registry) && r.0.registry.Keys == w.registry.Keys
  {
    ProcessedIsValid(config, w, posting, m);
    match Decode(posting)
    case None => (w, true)
    case Some(job) =>
      var (after, end) := Processed(config, w, job, m);
      (after, end.Returned?)
  }

  /** The serial queue from the committed offset `from` up to offset `k`, as long as nothing raises. */
  function Progress(config: Config, w: World, topic: seq<Posting>, env: Environment, from: nat, k: nat)
      : (r: (World, bool))
    requires config.policy.Valid() && ValidRegistry(w.registry) && from <= k <= |topic|
    ensures ValidRegistry(r.0.registry) && r.0.registry.Keys == w.registry.Keys
  {
    if k == from then (w, true)
    else
      var (before, going) := Progress(config, w, topic, env, from, k - 1);
      if going then Consumed(config, before, topic[k - 1], env(k - 1)) else (before, false)
  }

  lemma {:induction false} AttemptsKeepRegistryValid(c: Call, registry: Registry, clock: real, k: nat)
    requires c.Valid() && ValidRegistry(registry) && k < c.policy.retry.maxAttempts
    ensures ValidRegistry(Attempts(c, registry, clock, k).registry)
    ensures Attempts(c, registry, clock, k).registry.Keys == registry.Keys
    decreases c.policy.retry.maxAttempts - k
  {
    hide ReservedFor, Delay, IsRetryable, IsExpired, Priced, ValidRegistry;
    if GoesOn(c, registry, clock, k) {
      var n := Resumed(c, registry, clock, k);
      ResumedIsNext(c, registry, clock, k);
      AttemptsKeepRegistryValid(c, n.0, n.1, k + 1);
    }
  }

  lemma ProcessedIsValid(config: Config, w: World, posting: Posting, m: Moment)
    requires config.policy.Valid() && ValidRegistry(w.registry)
    ensures posting.Poison? || ValidRegistry(Processed(config, w, posting.job, m).0.registry)
    ensures posting.Poison? || Processed(config, w, posting.job, m).0.registry.Keys == w.registry.Keys
  {
    hide Attempts, ValidRegistry;
    if !posting.Poison? && posting.job.model.Some? && ProviderFor(posting.job.model.value).Returned? {
      var provider := ProviderFor(posting.job.model.value).value;
      AttemptsKeepRegistryValid(CallFor(config, posting.job, provider, m.script), w.registry, w.clock, 0);
    }
  }

  /** Records each callback that is attempted; whether it arrives changes nothing. */
  class Mailbox {
    var sent: seq<Delivery>

    constructor ()
      ensures sent == []
    {
      sent := [];
    }

    method Deliver(delivery: Delivery)
      modifies this
      ensures sent == old(sent) + [delivery]
    {
      sent := sent + [delivery];
    }
  }

  class Worker {
    const config: Config
    const limiter: RateLimiter
    const clock: Clock
    const store: Store
    const mailbox: Mailbox

    ghost predicate Valid()
      reads limiter.Repr()
    {
      config.policy.Valid() && limiter.Valid()
    }

    ghost function View(): World
      reads limiter.Repr(), clock, store, mailbox
    {
      World(limiter.View(), clock.now, store.jobs, mailbox.sent)
    }

    constructor (config: Config, limiter: RateLimiter, clock: Clock, store: Store, mailbox: Mailbox)
      ensures this.config == config && this.limiter == limiter && this.clock == clock
      ensures this.store == store && this.mailbox == mailbox
    {
      this.config, this.limiter, this.clock, this.store, this.mailbox := config, limiter, clock, store, mailbox;
    }

    method FinalizeAndNotify(job: Job, result: Result, when: real)
      modifies store`jobs, mailbox
      ensures (store.jobs, mailbox.sent) == Notified(old(store.jobs), old(mailbox.sent), job, result, when)
      ensures var won := !Finished(old(store.jobs), result.id) && Finished(store.jobs, result.id);
              mailbox.sent == old(mailbox.sent) + if won && job.callback.Some?
                                                  then [Delivery(job.callback.value, result)] else []
      ensures result.id in store.jobs ==> Finished(store.jobs, result.id)
    {
      var won := store.Finalize(result, when);
      if won && job.callback.Some? {
        mailbox.Deliver(Delivery(job.callback.value, result));
      }
    }

    method Route(job: Job, script: Script) returns (end: Outcome<Result>, ghost trace: seq<Event>)
      requires Valid() && Sane(script)
      modifies limiter.Repr(), clock
      ensures Valid() && ValidRegistry(old(limiter.View()))
      ensures Report(end, clock.now, limiter.View(), trace)
           == Handled(config, job, script, old(limiter.View()), old(clock.now))
    {
      limiter.ViewIsValid();
      trace := [];
      if job.model.None? {
        return Returned(ResultError(job, None, "no model")), [];
      }
      var provider := ProviderFor(job.model.value);
      if provider.Raised? {
        return Returned(ResultError(job, None, "no provider")), [];
      }
      if provider.value !in config.wired {
        return Returned(ResultError(job, Some(provider.value), "no adapter")), [];
      }
      var did;
      end, did := CallWithRetry(limiter, clock, CallFor(config, job, provider.value, script));
      trace := did;
    }

    method ProcessJob(job: Job, m: Moment) returns (end: Outcome<Result>)
      requires Valid() && Sane(m.script) && m.overhead >= 0.0
      modifies limiter.Repr(), clock, store`jobs, mailbox
      ensures Valid() && ValidRegistry(old(View()).registry)
      ensures (View(), end) == Processed(config, old(View()), job, m)
      ensures store.policies == old(store.policies)
    {
      hide Handled, Notified, RateLimiter.View, RateLimiter.Valid, ValidRegistry;
      limiter.ViewIsValid();
      ghost var trace;
      end, trace := Route(job, m.script);
      if end.Returned? {
        FinalizeAndNotify(job, end.value, m.when);
        clock.Sleep(m.overhead, 0.0);
      }
    }

    method ConsumeOne(posting: Posting, m: Moment) returns (returned: bool)
      requires Valid() && Sane(m.script) && m.overhead >= 0.0
      modifies limiter.Repr(), clock, store`jobs, mailbox
      ensures Valid() && ValidRegistry(old(View()).registry)
      ensures (View(), returned) == Consumed(config, old(View()), posting, m)
    {
      limiter.ViewIsValid();
      var job := Decode(posting);
      if job.None? {
        return true;
      }
      var end := ProcessJob(job.value, m);
      returned := end.Returned?;
    }

    /** The consume loop: each offset is committed once its message has been processed, and not if that raised. */
    method Consume(topic: seq<Posting>, from: nat, env: Environment) returns (committed: nat)
      requires Valid() && from <= |topic|
      requires forall k :: Sane(env(k).script) && env(k).overhead >= 0.0
      modifies limiter.Repr(), clock, store`jobs, mailbox
      ensures Valid() && ValidRegistry(old(View()).registry)
      ensures from <= committed <= |topic|
      ensures Progress(config, old(View()), topic, env, from, committed).1
      ensures committed == |topic| ==> View() == Progress(config, old(View()), topic, env, from, committed).0
      ensures committed < |topic| ==>
                (View(), false) == Progress(config, old(View()), topic, env, from, committed + 1)
    {
      hide Consumed;
      limiter.ViewIsValid();
      committed := from;
      while committed < |topic|
        invariant Valid() && from <= committed <= |topic|
        invariant (View(), true) == Progress(config, old(View()), topic, env, from, committed)
      {
        var returned := ConsumeOne(topic[committed], env(committed));
        if !returned {
          return;
        }
        committed := committed + 1;
      }
    }
  }
}
