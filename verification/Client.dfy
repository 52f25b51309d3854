/** The producer's side: `submit` and `poll_result` (src/llmbus/client.py:79-125, 207-284). */
module Clients {
  import opened Prelude
  import opened Schema
  import opened Tables
  import opened Stores

  /** How the broker treats one send: it lands, it fails, or it fails although it landed. */
  datatype SendFate = Lands | Fails | FailsLanded

  class Topic {
    var messages: seq<Posting>

    constructor ()
      ensures messages == []
    {
      messages := [];
    }

    method Append(job: Job, fate: SendFate) returns (sent: bool)
      modifies this
      ensures sent <==> fate.Lands?
      ensures messages == if fate.Fails? then old(messages) else old(messages) + [Submitted(job)]
    {
      if !fate.Fails? {
        messages := messages + [Submitted(job)];
      }
      sent := fate.Lands?;
    }
  }

  /** The job with the model that the explicit choice or the policy resolves to. */
  function ResolvedJob(job: Job, policies: Policies): Outcome<Job> {
    var key := (job.project, job.kind);
    var policy := if job.model.None? && key in policies then Some(policies[key]) else None;
    var model := ResolveModel(job, policy);
    if model.Raised? then Raised(model.error) else Returned(job.(model := Some(model.value)))
  }

  /** A duplicate is pointed at the model its row names; without a row, or with that model already, it stays. */
  function Aligned(jobs: Jobs, job: Job): Job {
    if job.id !in jobs || Some(jobs[job.id].model) == job.model then job
    else job.(model := Some(jobs[job.id].model))
  }

  /** The job that an uninterrupted submit sends: the resolved one, or a duplicate on its row's model. */
  function Outgoing(jobs: Jobs, policies: Policies, job: Job): Outcome<Job> {
    var resolved := ResolvedJob(job, policies);
    if resolved.Raised? then resolved
    else
      var route := ProviderFor(resolved.value.model.value);
      if route.Raised? then Raised(route.error)
      else Returned(Aligned(jobs, resolved.value))
  }

  /** The model that the producer or the policy chose. */
  function Chosen(policies: Policies, job: Job): Option<string> {
    if job.model.Some? then job.model
    else if (job.project, job.kind) in policies then Some(policies[(job.project, job.kind)])
    else None
  }

  /** What is sent, and when a submit is refused: without a chosen model, or with one that is not routed. What is
      sent is the same job on its row's model if there is a row, and on the chosen one if there is none. */
  lemma OutgoingExactly(jobs: Jobs, policies: Policies, job: Job)
    ensures var outgoing, chosen := Outgoing(jobs, policies, job), Chosen(policies, job);
            && (outgoing.Returned? <==> chosen.Some? && chosen.value in PROVIDERS)
            && (chosen.None? ==> outgoing == Raised(NoModelPolicy(job.project, job.kind)))
            && (chosen.Some? && outgoing.Raised? ==> outgoing == Raised(UnknownModel(chosen.value)))
            && (outgoing.Returned? ==>
                  outgoing.value == job.(model := if job.id in jobs then Some(jobs[job.id].model) else chosen))
  {
  }

  class BusClient {
    const store: Store
    const topic: Topic

    constructor (store: Store, topic: Topic)
      ensures this.store == store && this.topic == topic
    {
      this.store, this.topic := store, topic;
    }

    method ResolveModelName(job: Job) returns (model: Outcome<string>)
      ensures model.Returned? <==> ResolvedJob(job, store.policies).Returned?
      ensures model.Returned? ==> ResolvedJob(job, store.policies).value == job.(model := Some(model.value))
      ensures model.Raised? ==> ResolvedJob(job, store.policies) == Raised(model.error)
    {
      if job.model.Some? {
        return Returned(job.model.value);
      }
      var policy := store.ModelPolicy(job.project, job.kind);
      model := ResolveModel(job, policy);
    }

    method ModelAlreadyOnRecord(job: Job) returns (aligned: Job)
      ensures aligned == Aligned(store.jobs, job)
    {
      var stored := store.Get(job.id);
      if stored.None? || Some(stored.value.model) == job.model {
        return job;
      }
      aligned := job.(model := Some(stored.value.model));
    }

    /** A job that cannot be resolved or routed is refused and nothing is written. Otherwise there is a row for
        it afterwards, the one that was there if there was one, and the message names that row's model. */
    method Submit(job: Job, fate: SendFate) returns (id: Outcome<JobId>)
      modifies store`jobs, topic
      ensures Grows(old(store.jobs), store.jobs) && store.policies == old(store.policies)
      ensures var outgoing := Outgoing(old(store.jobs), store.policies, job);
              if outgoing.Raised? then
                id == Raised(outgoing.error) && store.jobs == old(store.jobs) && topic.messages == old(topic.messages)
              else
                && id == (if fate.Lands? then Returned(job.id) else Raised(SendError))
                && topic.messages == (if fate.Fails? then old(topic.messages)
                                      else old(topic.messages) + [Submitted(outgoing.value)])
                && store.jobs == (if job.id in old(store.jobs) then old(store.jobs)
                                  else old(store.jobs)[job.id := PendingRow(job, outgoing.value.model.value)])
                && outgoing.value.model == Some(store.jobs[job.id].model)
                && outgoing.value == job.(model := outgoing.value.model)
    {
      var model := ResolveModelName(job);
      if model.Raised? {
        return Raised(model.error);
      }
      var resolved := job.(model := Some(model.value));
      var route := ProviderFor(model.value);
      if route.Raised? {
        return Raised(route.error);
      }
      var inserted := store.InsertPending(resolved);
      if !inserted.value {
        resolved := ModelAlreadyOnRecord(resolved);
      }
      var sent := topic.Append(resolved, fate);
      id := if sent then Returned(job.id) else Raised(SendError);
    }
  }

  // ----- polling -----

  function Ceil(x: real): (n: int)
    ensures n as real - 1.0 < x <= n as real
  {
    -((-x).Floor)
  }

  /** The clock moves on by at least the interval from each read to the next. */
  ghost predicate Advances(clock: nat -> real, interval: real) {
    forall k: nat :: clock(k) + interval <= clock(k + 1)
  }

  lemma NextRead(clock: nat -> real, interval: real, k: nat)
    requires Advances(clock, interval)
    ensures clock(k) + interval <= clock(k + 1)
  {
  }

  /** The poll ends at its k-th read: the row is terminal, or the deadline has passed. */
  predicate EndsAt(view: nat -> Jobs, clock: nat -> real, id: JobId, start: real, timeout: real, k: nat) {
    Finished(view(k), id) || clock(k) >= start + timeout
  }

  /** Reads the row, checks the deadline only if it is not terminal, and sleeps between reads. The k-th read
      sees `view(k)` and the clock stands at `clock(k)` after it. All that is asked is that some read ends it. */
  method PollResult(view: nat -> Jobs, clock: nat -> real, id: JobId, start: real, timeout: real, interval: real)
      returns (outcome: Outcome<Result>, looked: nat)
    requires exists k: nat :: EndsAt(view, clock, id, start, timeout, k)
    ensures looked > 0 && EndsAt(view, clock, id, start, timeout, looked - 1)
    ensures forall k: nat :: k < looked - 1 ==> !EndsAt(view, clock, id, start, timeout, k)
    ensures outcome.Returned? <==> Finished(view(looked - 1), id)
    ensures outcome.Returned? ==> ResultFromStored(id, view(looked - 1)[id]) == Some(outcome.value)
    ensures outcome.Raised? ==> outcome.error == PollTimeout && clock(looked - 1) >= start + timeout
    ensures interval > 0.0 && start <= clock(0) && Advances(clock, interval) && looked > 1 ==>
              looked <= Ceil(timeout / interval) + 1
  {
    hide Advances, Ceil;
    ghost var end: nat :| EndsAt(view, clock, id, start, timeout, end);
    ghost var advances := interval > 0.0 && start <= clock(0) && Advances(clock, interval);
    var deadline := start + timeout;
    var n: nat := 0;
    while true
      invariant n <= end && forall k: nat :: k < n ==> !EndsAt(view, clock, id, start, timeout, k)
      invariant advances ==> start + n as real * interval <= clock(n)
      invariant advances && n > 0 ==> n <= Ceil(timeout / interval)
      decreases end - n
    {
      var jobs := view(n);
      if id in jobs && jobs[id].status.Terminal? {
        return Returned(ResultFromStored(id, jobs[id]).value), n + 1;
      }
      if clock(n) >= deadline {
        return Raised(PollTimeout), n + 1;
      }
      assert !EndsAt(view, clock, id, start, timeout, n);
      if advances {
        StillBefore(n, interval, timeout);
        NextRead(clock, interval, n);
      }
      n := n + 1;
    }
  }

  lemma {:induction false} ClockAdvanced(clock: nat -> real, start: real, interval: real, k: nat)
    requires start <= clock(0) && Advances(clock, interval)
    ensures start + k as real * interval <= clock(k)
  {
    if k > 0 {
      ClockAdvanced(clock, start, interval, k - 1);
      NextRead(clock, interval, k - 1);
      assert k as real == (k - 1) as real + 1.0;
      Distribute(interval, 0.0, (k - 1) as real, k as real);
    }
  }

  /** With a positive interval and a clock that advances by it, some read ends every poll. */
  lemma PollEnds(view: nat -> Jobs, clock: nat -> real, id: JobId, start: real, timeout: real, interval: real)
      returns (k: nat)
    requires interval > 0.0 && start <= clock(0) && Advances(clock, interval)
    ensures EndsAt(view, clock, id, start, timeout, k)
  {
    hide Advances;
    var quotient := timeout / interval;
    k := if quotient <= 0.0 then 0 else Ceil(quotient);
    ClockAdvanced(clock, start, interval, k);
    TimesQuotient(interval, timeout);
    Unscale(interval, quotient, k as real);
  }

  lemma StillBefore(n: nat, interval: real, timeout: real)
    requires interval > 0.0 && n as real * interval < timeout
    ensures n < Ceil(timeout / interval)
    ensures (n + 1) as real * interval == n as real * interval + interval
  {
    assert (n + 1) as real == n as real + 1.0;
    Distribute(interval, 0.0, n as real, n as real + 1.0);
    TimesQuotient(interval, timeout);
    Unscale(interval, timeout / interval, n as real);
  }
}
