/** The bus as a protocol: producers, the store, the topic and one worker, interleaved at every point where
    the code awaits (src/llmbus/client.py:207-284, src/llmbus/worker.py:194-289, src/llmbus/processing.py:286-325). */
module Buses {
  import opened Prelude
  import opened Schema
  import opened Processing
  import opened Tables
  import opened Workers
  import opened Clients

  /** One call of `submit`; each has an identity of its own. */
  type SubmitId = nat

  /** Where a call of `submit` is. */
  datatype SubmitPc =
    | Resolving(job: Job)               // about to read the policy
    | Checking(job: Job)                // about to check the route
    | Inserting(job: Job)               // about to write the pending row
    | ReReading(job: Job)               // found the row already there
    | Sending(job: Job)                 // about to send
    | Sent(job: Job, offset: nat)       // returned
    | Refused(job: Job)                 // raised before the row was written
    | SendFailed(job: Job)              // raised by the send
    | Died(job: Job)                    // its process ended on the way

  /** Where the worker is with the message at the committed offset. */
  datatype WorkerPc =
    | Idle
    | Running(job: Job, provider: string)    // in the retry loop
    | Concluded(job: Job, result: Result)    // about to finalize
    | Notifying(job: Job, result: Result)    // won, about to call back
    | Settled                                // about to commit
    | Broken                                 // processing raised; nothing will be committed

  datatype Bus = Bus(
    wired: set<string>,                 // providers with an adapter
    limited: set<string>,               // providers with a limiter
    jobs: Jobs,
    policies: Policies,
    topic: seq<Posting>,
    committed: nat,
    submits: map<SubmitId, SubmitPc>,
    worker: WorkerPc,
    calls: seq<JobId>,                  // every provider call, by job
    wins: seq<Result>,                  // every result that finished a row, in order
    sent: seq<Delivery>,                // every callback attempted, in order
    origin: map<JobId, SubmitId>)       // who inserted each row

  predicate Initial(b: Bus) {
    && b.jobs == map[] && b.topic == [] && b.committed == 0 && b.submits == map[] && b.worker == Idle
    && b.calls == [] && b.wins == [] && b.sent == [] && b.origin == map[]
  }

  datatype Step =
    | Begin(s: SubmitId, job: Job)
    | Resolve(s: SubmitId)
    | Check(s: SubmitId)
    | Insert(s: SubmitId)
    | ReRead(s: SubmitId)
    | Send(s: SubmitId)
    | SendFails(s: SubmitId, landed: bool)
    | Dies(s: SubmitId)
    | EditPolicy(project: string, kind: string, model: string)
    | Inject(posting: Posting)
    | Deliver
    | CallAgain
    | CallEnds(reply: Reply)
    | Expires
    | LimiterRefuses
    | Finalize(when: real)
    | CallBack
    | Commit
    | Restart

  /** What a worker that takes a job up does first. */
  function TakenUp(wired: set<string>, job: Job): WorkerPc {
    if job.model.None? then Concluded(job, ResultError(job, None, "no model"))
    else
      match ProviderFor(job.model.value)
      case Raised(_) => Concluded(job, ResultError(job, None, "no provider"))
      case Returned(provider) =>
        if provider in wired then Running(job, provider)
        else Concluded(job, ResultError(job, Some(provider), "no adapter"))
  }

  /** Where the worker is after the last call of a job. */
  function Answer(job: Job, provider: string, reply: Reply): WorkerPc {
    match reply
    case Failed(_, text) => Concluded(job, ResultError(job, Some(provider), text))
    case Succeeded(completion, input, output) =>
      if job.model.None? then Broken
      else
        var priced := Priced(job, provider, completion, input, output);
        if priced.Raised? then Broken else Concluded(job, priced.value)
  }

  function SubmitStep(b: Bus, step: Step, s: SubmitId): Option<Bus> {
    if s !in b.submits then None
    else
      var pc := b.submits[s];
      match (step, pc)
      case (Resolve(_), Resolving(job)) =>
        var resolved := ResolvedJob(job, b.policies);
        Some(b.(submits := b.submits[s := if resolved.Raised? then Refused(job) else Checking(resolved.value)]))
      case (Check(_), Checking(job)) =>
        var routed := job.model.Some? && Routable(job.model.value);
        Some(b.(submits := b.submits[s := if routed then Inserting(job) else Refused(job)]))
      case (Insert(_), Inserting(job)) =>
        var (jobs, inserted) := Inserted(b.jobs, job);
        if inserted.Raised? then Some(b.(submits := b.submits[s := Refused(job)]))
        else if inserted.value then
          Some(b.(jobs := jobs, submits := b.submits[s := Sending(job)], origin := b.origin[job.id := s]))
        else Some(b.(submits := b.submits[s := ReReading(job)]))
      case (ReRead(_), ReReading(job)) =>
        Some(b.(submits := b.submits[s := Sending(Aligned(b.jobs, job))]))
      case (Send(_), Sending(job)) =>
        Some(b.(topic := b.topic + [Submitted(job)], submits := b.submits[s := Sent(job, |b.topic|)]))
      case (SendFails(_, landed), Sending(job)) =>
        Some(b.(topic := if landed then b.topic + [Submitted(job)] else b.topic,
                submits := b.submits[s := SendFailed(job)]))
      case (Dies(_), _) =>
        if pc.Sent? || pc.Refused? || pc.SendFailed? || pc.Died? then None
        else Some(b.(submits := b.submits[s := Died(pc.job)]))
      case _ => None
  }

  function WorkerStep(b: Bus, step: Step): Option<Bus> {
    match (step, b.worker)
    case (Deliver, Idle) =>
      if b.committed >= |b.topic| then None
      else
        var job := Decode(b.topic[b.committed]);
        Some(b.(worker := if job.None? then Settled else TakenUp(b.wired, job.value)))
    case (CallAgain, Running(job, provider)) =>
      if provider in b.limited then Some(b.(calls := b.calls + [job.id])) else None
    case (CallEnds(reply), Running(job, provider)) =>
      if provider in b.limited then Some(b.(calls := b.calls + [job.id], worker := Answer(job, provider, reply)))
      else None
    case (Expires, Running(job, provider)) =>
      if job.ttl.Some? then Some(b.(worker := Concluded(job, ExpiredResult(job, provider)))) else None
    case (LimiterRefuses, Running(job, provider)) =>
      if provider in b.limited then None else Some(b.(worker := Broken))
    case (Finalize(when), Concluded(job, result)) =>
      var (jobs, won) := Finalized(b.jobs, result, when);
      Some(b.(jobs := jobs,
              wins := if won then b.wins + [result] else b.wins,
              worker := if won && job.callback.Some? then Notifying(job, result) else Settled))
    case (CallBack, Notifying(job, result)) =>
      if job.callback.None? then None
      else Some(b.(sent := b.sent + [Delivery(job.callback.value, result)], worker := Settled))
    case (Commit, Settled) => Some(b.(committed := b.committed + 1, worker := Idle))
    case (Restart, _) => Some(b.(worker := Idle))
    case _ => None
  }

  /** One step of the bus, if it is enabled. */
  function Do(b: Bus, step: Step): Option<Bus> {
    match step
    case Begin(s, job) =>
      if s in b.submits then None else Some(b.(submits := b.submits[s := Resolving(job)]))
    case Resolve(s) => SubmitStep(b, step, s)
    case Check(s) => SubmitStep(b, step, s)
    case Insert(s) => SubmitStep(b, step, s)
    case ReRead(s) => SubmitStep(b, step, s)
    case Send(s) => SubmitStep(b, step, s)
    case SendFails(s, _) => SubmitStep(b, step, s)
    case Dies(s) => SubmitStep(b, step, s)
    case EditPolicy(project, kind, model) => Some(b.(policies := b.policies[(project, kind) := model]))
    case Inject(posting) =>
      if posting.Submitted? then None else Some(b.(topic := b.topic + [posting]))
    case _ => WorkerStep(b, step)
  }

  /** A run: every state follows from the one before by an enabled step. */
  ghost predicate IsRun(run: seq<Bus>, steps: seq<Step>) {
    && |run| == |steps| + 1
    && Initial(run[0])
    && forall i :: 0 <= i < |steps| ==> Do(run[i], steps[i]) == Some(run[i + 1])
  }
}
