/** What every step of the bus keeps. */
module BusInvariants {
  import opened Prelude
  import opened Schema
  import opened Costs
  import opened Processing
  import opened Tables
  import opened Clients
  import opened Buses

  /** The job names a concrete model that is routed and is the one its row names. */
  predicate OnRecord(jobs: Jobs, job: Job) {
    && job.id in jobs
    && job.model == Some(jobs[job.id].model)
    && Routable(jobs[job.id].model)
  }

  // ----- rows and messages agree -----

  ghost predicate SubmitAgrees(b: Bus, pc: SubmitPc) {
    match pc
    case Inserting(job) => job.model.Some? && Routable(job.model.value)
    case ReReading(job) => job.id in b.jobs && job.model.Some?
    case Sending(job) => OnRecord(b.jobs, job)
    case Sent(job, offset) => offset < |b.topic| && b.topic[offset] == Submitted(job)
    case _ => true
  }

  /** Rows name routable models, and every message that `submit` sent or will send names its row's. */
  ghost predicate Agreement(b: Bus) {
    && (forall id :: id in b.jobs ==> Routable(b.jobs[id].model))
    && (forall s :: s in b.submits ==> SubmitAgrees(b, b.submits[s]))
    && (forall k :: 0 <= k < |b.topic| && b.topic[k].Submitted? ==> OnRecord(b.jobs, b.topic[k].job))
  }

  lemma StepGrows(b: Bus, step: Step)
    requires Do(b, step).Some?
    ensures Grows(b.jobs, Do(b, step).value.jobs)
    ensures b.topic <= Do(b, step).value.topic
  {
    hide Inserted, Finalized, Grows, TakenUp, Answer, Routable, ResolvedJob, Aligned;
    NothingGrows(b.jobs);
    match step
    case Insert(s) =>
      InsertGrows(b.jobs, b.submits[s].job);
    case Finalize(when) =>
      FinalizeGrows(b.jobs, b.worker.result, when);
    case _ =>
  }

  lemma NothingGrows(jobs: Jobs)
    ensures Grows(jobs, jobs)
  {
  }

  lemma OnRecordStays(before: Jobs, after: Jobs, job: Job)
    requires Grows(before, after) && OnRecord(before, job)
    ensures OnRecord(after, job)
  {
  }

  lemma PcStaysAgreed(b: Bus, b': Bus, pc: SubmitPc)
    requires SubmitAgrees(b, pc) && Grows(b.jobs, b'.jobs) && b.topic <= b'.topic
    ensures SubmitAgrees(b', pc)
  {
  }

  /** The call of `submit` that a step moves. */
  function Mover(step: Step): Option<SubmitId> {
    match step
    case Begin(s, _) => Some(s)
    case Resolve(s) => Some(s)
    case Check(s) => Some(s)
    case Insert(s) => Some(s)
    case ReRead(s) => Some(s)
    case Send(s) => Some(s)
    case SendFails(s, _) => Some(s)
    case Dies(s) => Some(s)
    case _ => None
  }

  lemma OthersStay(b: Bus, step: Step, s: SubmitId)
    requires Do(b, step).Some? && Mover(step) != Some(s)
    ensures var b' := Do(b, step).value;
            (s in b'.submits <==> s in b.submits) && (s in b.submits ==> b'.submits[s] == b.submits[s])
  {
    hide Routable, ResolvedJob, Aligned, TakenUp, Answer, Inserted, Finalized;
  }

  lemma MoverAgrees(b: Bus, step: Step, s: SubmitId)
    requires Agreement(b) && Do(b, step).Some? && Mover(step) == Some(s)
    ensures var b' := Do(b, step).value;
            && s in b'.submits && SubmitAgrees(b', b'.submits[s])
            && (forall id :: id in b'.jobs ==> Routable(b'.jobs[id].model))
  {
    hide Routable, ResolvedJob;
    assert s in b.submits ==> SubmitAgrees(b, b.submits[s]);
  }

  lemma MoverSends(b: Bus, step: Step, s: SubmitId)
    requires Agreement(b) && Do(b, step).Some? && Mover(step) == Some(s)
    ensures var b' := Do(b, step).value;
            |b'.topic| > |b.topic| ==>
              && s in b'.submits && b'.topic == b.topic + [Submitted(b'.submits[s].job)]
              && OnRecord(b'.jobs, b'.submits[s].job)
  {
    hide Routable, ResolvedJob, Aligned, Inserted, OnRecord;
    assert s in b.submits ==> SubmitAgrees(b, b.submits[s]);
  }

  /** Only the worker and injected messages move without a call of `submit`. */
  lemma WorkerAgrees(b: Bus, step: Step)
    requires Do(b, step).Some? && Mover(step).None?
    ensures var b' := Do(b, step).value;
            && b'.submits == b.submits && b'.origin == b.origin
            && b'.jobs.Keys == b.jobs.Keys && (forall id :: id in b.jobs ==> b'.jobs[id].model == b.jobs[id].model)
            && (|b'.topic| > |b.topic| ==> b'.topic[..|b'.topic| - 1] == b.topic && !b'.topic[|b.topic|].Submitted?)
  {
    hide TakenUp, Answer;
  }

  lemma AgreementKept(b: Bus, step: Step)
    requires Agreement(b) && Do(b, step).Some?
    ensures Agreement(Do(b, step).value)
  {
    hide Do, OnRecord, Routable, SubmitAgrees;
    var b' := Do(b, step).value;
    StepGrows(b, step);
    var mover := Mover(step);
    if mover.Some? {
      MoverAgrees(b, step, mover.value);
      MoverSends(b, step, mover.value);
    } else {
      WorkerAgrees(b, step);
    }
    forall s | s in b'.submits && mover != Some(s)
      ensures SubmitAgrees(b', b'.submits[s])
    {
      OthersStay(b, step, s);
      PcStaysAgreed(b, b', b.submits[s]);
    }
    forall k | 0 <= k < |b.topic| && b.topic[k].Submitted?
      ensures OnRecord(b'.jobs, b.topic[k].job)
    {
      OnRecordStays(b.jobs, b'.jobs, b.topic[k].job);
    }
  }

  // ----- every row has the call of submit that inserted it -----

  /** A call of `submit` that inserted the row of `id`: it is past the insert, for that id. */
  predicate InsertedBy(pc: SubmitPc, id: JobId) {
    (pc.Sending? || pc.Sent? || pc.SendFailed? || pc.Died?) && pc.job.id == id
  }

  /** What the insert fixed in a row is what the job said. */
  predicate FromJob(row: Row, job: Job) {
    && row.project == job.project && Some(row.model) == job.model
    && row.meta == job.meta && row.submittedAt == job.submittedAt
  }

  ghost predicate Origins(b: Bus) {
    && b.origin.Keys == b.jobs.Keys
    && forall id :: id in b.origin ==>
         && b.origin[id] in b.submits && InsertedBy(b.submits[b.origin[id]], id)
         && FromJob(b.jobs[id], b.submits[b.origin[id]].job)
  }

  lemma OnlyInsertWrites(b: Bus, step: Step, s: SubmitId)
    requires Do(b, step).Some? && Mover(step) == Some(s) && !step.Insert?
    ensures var b' := Do(b, step).value;
            s in b'.submits && b'.jobs == b.jobs && b'.origin == b.origin
  {
    hide Routable, ResolvedJob, Aligned;
  }

  lemma InsertMoves(b: Bus, s: SubmitId)
    requires Do(b, Insert(s)).Some?
    ensures s in b.submits && b.submits[s].Inserting?
    ensures var b', job := Do(b, Insert(s)).value, b.submits[s].job;
            && s in b'.submits
            && if job.model.Some? && job.id !in b.jobs then
                 && b'.submits[s] == Sending(job) && b'.origin == b.origin[job.id := s]
                 && b'.jobs == b.jobs[job.id := PendingRow(job, job.model.value)]
               else b'.jobs == b.jobs && b'.origin == b.origin
  {
    hide PendingRow;
  }

  lemma MoverKeepsOrigins(b: Bus, step: Step, s: SubmitId)
    requires Do(b, step).Some? && Mover(step) == Some(s)
    ensures var b' := Do(b, step).value;
            && s in b'.submits
            && (!(b'.origin == b.origin && b'.jobs == b.jobs) ==>
                  var job := b'.submits[s].job;
                  && b'.submits[s].Sending? && job.id !in b.jobs && job.model.Some?
                  && b'.origin == b.origin[job.id := s]
                  && b'.jobs == b.jobs[job.id := PendingRow(job, job.model.value)])
  {
    hide Do, PendingRow;
    if step.Insert? {
      InsertMoves(b, s);
    } else {
      OnlyInsertWrites(b, step, s);
    }
  }

  /** A call of `submit` that has inserted a row stays the one that did. */
  lemma MoverStaysOrigin(b: Bus, step: Step, s: SubmitId)
    requires Do(b, step).Some? && Mover(step) == Some(s)
    ensures forall id :: s in b.submits && InsertedBy(b.submits[s], id) ==>
              && s in Do(b, step).value.submits && InsertedBy(Do(b, step).value.submits[s], id)
              && Do(b, step).value.submits[s].job == b.submits[s].job
  {
    hide Routable, ResolvedJob, Aligned, Inserted;
  }

  lemma FromJobStays(before: Jobs, after: Jobs, id: JobId, job: Job)
    requires Grows(before, after) && id in before && FromJob(before[id], job)
    ensures id in after && FromJob(after[id], job)
  {
  }

  /** A row keeps the submit that inserted it. */
  lemma OriginStays(b: Bus, step: Step, id: JobId)
    requires Origins(b) && Do(b, step).Some? && id in b.origin
    ensures var b' := Do(b, step).value;
            && id in b'.jobs && id in b'.origin && b'.origin[id] == b.origin[id] && b'.origin[id] in b'.submits
            && InsertedBy(b'.submits[b'.origin[id]], id)
            && FromJob(b'.jobs[id], b'.submits[b'.origin[id]].job)
  {
    hide Do, Grows, FromJob, InsertedBy;
    var s, mover := b.origin[id], Mover(step);
    StepGrows(b, step);
    FromJobStays(b.jobs, Do(b, step).value.jobs, id, b.submits[s].job);
    if mover.Some? {
      MoverKeepsOrigins(b, step, mover.value);
      MoverStaysOrigin(b, step, mover.value);
    } else {
      WorkerAgrees(b, step);
    }
    if mover != Some(s) {
      OthersStay(b, step, s);
    }
  }

  lemma PendingFromJob(job: Job)
    requires job.model.Some?
    ensures FromJob(PendingRow(job, job.model.value), job)
  {
  }

  /** A new row has the submit that just inserted it. */
  lemma OriginIsNew(b: Bus, step: Step, id: JobId)
    requires Origins(b) && Do(b, step).Some? && id in Do(b, step).value.origin && id !in b.origin
    ensures var b' := Do(b, step).value;
            && id in b'.jobs && b'.origin[id] in b'.submits
            && InsertedBy(b'.submits[b'.origin[id]], id) && FromJob(b'.jobs[id], b'.submits[b'.origin[id]].job)
  {
    hide Do, PendingRow, FromJob;
    var b', mover := Do(b, step).value, Mover(step);
    if mover.Some? {
      MoverKeepsOrigins(b, step, mover.value);
      PendingFromJob(b'.submits[mover.value].job);
    } else {
      WorkerAgrees(b, step);
    }
  }

  lemma OriginsCoverRows(b: Bus, step: Step)
    requires Origins(b) && Do(b, step).Some?
    ensures Do(b, step).value.origin.Keys == Do(b, step).value.jobs.Keys
  {
    hide Do, InsertedBy, FromJob, PendingRow;
    var mover := Mover(step);
    if mover.Some? {
      MoverKeepsOrigins(b, step, mover.value);
    } else {
      WorkerAgrees(b, step);
    }
  }

  lemma OriginsKept(b: Bus, step: Step)
    requires Origins(b) && Do(b, step).Some?
    ensures Origins(Do(b, step).value)
  {
    hide Do, FromJob, InsertedBy;
    var b' := Do(b, step).value;
    OriginsCoverRows(b, step);
    forall id | id in b'.origin
      ensures b'.origin[id] in b'.submits && InsertedBy(b'.submits[b'.origin[id]], id)
      ensures FromJob(b'.jobs[id], b'.submits[b'.origin[id]].job)
    {
      if id in b.origin {
        OriginStays(b, step, id);
      } else {
        OriginIsNew(b, step, id);
      }
    }
  }

  // ----- the worker and the committed offset -----

  /** The bill of a result: an error costs nothing, a success what its tokens cost on the job's day. */
  predicate Billed(job: Job, result: Result) {
    match result.verdict
    case Error => result.usage == NO_USAGE
    case Ok =>
      && job.model.Some?
      && CostUsd(job.model.value, result.usage.input, result.usage.output, job.submittedAt.day)
         == Returned(result.usage.cost)
  }

  /** A success carries a completion of the model's provider and no error; an error carries only its text. */
  predicate Shaped(model: Option<string>, verdict: Verdict, completion: Option<string>, error: Option<string>,
                   provider: Option<string>) {
    match verdict
    case Error => completion.None? && error.Some?
    case Ok =>
      && completion.Some? && error.None? && model.Some? && model.value in PROVIDERS
      && provider == Some(PROVIDERS[model.value])
  }

  predicate SoundResult(job: Job, result: Result) {
    && result.id == job.id && result.meta == job.meta && Billed(job, result)
    && Shaped(job.model, result.verdict, result.completion, result.error, result.provider)
  }

  predicate AtHead(b: Bus, job: Job) {
    b.committed < |b.topic| && Decode(b.topic[b.committed]) == Some(job)
  }

  ghost predicate WorkerSound(b: Bus) {
    match b.worker
    case Idle => true
    case Broken => b.committed < |b.topic| && !b.topic[b.committed].Poison?
    case Running(job, provider) =>
      AtHead(b, job) && job.model.Some? && ProviderFor(job.model.value) == Returned(provider) && provider in b.wired
    case Concluded(job, result) => AtHead(b, job) && SoundResult(job, result)
    case Notifying(job, result) =>
      && AtHead(b, job) && SoundResult(job, result) && job.callback.Some?
      && job.id in b.jobs && Carries(b.jobs[job.id], result)
    case Settled =>
      && b.committed < |b.topic|
      && (b.topic[b.committed].Submitted? ==> Finished(b.jobs, b.topic[b.committed].job.id))
  }

  /** Every message that `submit` sent and that is committed has a finished row. */
  ghost predicate NothingSkipped(b: Bus) {
    && b.committed <= |b.topic|
    && forall k :: 0 <= k < b.committed && b.topic[k].Submitted? ==> Finished(b.jobs, b.topic[k].job.id)
  }

  lemma TakenUpSound(wired: set<string>, job: Job)
    ensures var pc := TakenUp(wired, job);
            match pc
            case Running(j, provider) =>
              j == job && job.model.Some? && ProviderFor(job.model.value) == Returned(provider) && provider in wired
            case Concluded(j, result) => j == job && SoundResult(job, result)
            case _ => false
  {
  }

  lemma AnswerSound(job: Job, provider: string, reply: Reply)
    requires job.model.Some? && ProviderFor(job.model.value) == Returned(provider)
    ensures var pc := Answer(job, provider, reply);
            pc.Broken? || (pc.Concluded? && pc.job == job && SoundResult(job, pc.result))
  {
    hide CostUsd;
  }

  lemma FinalizedFinishes(jobs: Jobs, result: Result, when: real)
    ensures var (after, won) := Finalized(jobs, result, when);
            && (result.id in jobs ==> Finished(after, result.id))
            && (won ==> result.id in jobs && jobs[result.id].status.Pending? && Carries(after[result.id], result))
            && (forall id :: id != result.id && id in jobs ==> after[id] == jobs[id])
            && after.Keys == jobs.Keys
            && (!won ==> after == jobs)
  {
  }

  lemma WorkerStepSound(b: Bus, step: Step)
    requires WorkerSound(b) && Agreement(b) && WorkerStep(b, step).Some?
    ensures WorkerSound(WorkerStep(b, step).value)
  {
    hide TakenUp, Answer, SoundResult, Finalized, Routable, ProviderFor;
    match (step, b.worker)
    case (Deliver, Idle) =>
      if b.committed < |b.topic| && Decode(b.topic[b.committed]).Some? {
        TakenUpSound(b.wired, b.topic[b.committed].job);
      }
    case (CallEnds(reply), Running(job, provider)) => AnswerSound(job, provider, reply);
    case (Expires, Running(job, provider)) => ExpiredSound(job, provider);
    case (Finalize(when), Concluded(job, result)) =>
      FinalizedFinishes(b.jobs, result, when);
      IdOfSound(job, result);
    case (CallBack, Notifying(job, result)) =>
      IdOfSound(job, result);
    case _ =>
  }

  lemma IdOfSound(job: Job, result: Result)
    requires SoundResult(job, result)
    ensures result.id == job.id
  {
  }

  lemma ExpiredSound(job: Job, provider: string)
    ensures SoundResult(job, ExpiredResult(job, provider))
  {
  }

  lemma WorkerUndisturbed(b: Bus, b': Bus)
    requires WorkerSound(b)
    requires b'.worker == b.worker && b'.committed == b.committed && b.topic <= b'.topic && b'.wired == b.wired
    requires Grows(b.jobs, b'.jobs)
    ensures WorkerSound(b')
  {
    hide SoundResult, ProviderFor;
  }

  lemma SubmitLeavesWorker(b: Bus, step: Step)
    requires Do(b, step).Some? && (Mover(step).Some? || step.EditPolicy? || step.Inject?)
    ensures var b' := Do(b, step).value;
            && b'.worker == b.worker && b'.committed == b.committed && b'.wired == b.wired && b'.limited == b.limited
            && b'.wins == b.wins && b'.sent == b.sent && b'.calls == b.calls
  {
  }

  lemma WorkerSoundKept(b: Bus, step: Step)
    requires WorkerSound(b) && Agreement(b) && Do(b, step).Some?
    ensures WorkerSound(Do(b, step).value)
  {
    StepGrows(b, step);
    if Mover(step).Some? || step.EditPolicy? || step.Inject? {
      SubmitLeavesWorker(b, step);
      WorkerUndisturbed(b, Do(b, step).value);
    } else {
      WorkerStepSound(b, step);
    }
  }

  lemma NothingSkippedKept(b: Bus, step: Step)
    requires NothingSkipped(b) && WorkerSound(b) && Do(b, step).Some?
    ensures NothingSkipped(Do(b, step).value)
  {
    hide Do, WorkerSound;
    var b' := Do(b, step).value;
    StepGrows(b, step);
    CommitOnlySettled(b, step);
    forall k | 0 <= k < b'.committed && b'.topic[k].Submitted?
      ensures Finished(b'.jobs, b'.topic[k].job.id)
    {
      assert b'.topic[k] == b.topic[k];
      assert Finished(b.jobs, b.topic[k].job.id);
    }
  }

  lemma CommitOnlySettled(b: Bus, step: Step)
    requires WorkerSound(b) && Do(b, step).Some?
    ensures var b' := Do(b, step).value;
            b'.committed != b.committed ==>
              && b'.committed == b.committed + 1 <= |b.topic|
              && (b.topic[b.committed].Submitted? ==> Finished(b.jobs, b.topic[b.committed].job.id))
  {
    hide TakenUp, Answer, SoundResult;
  }
}
