/** When the ledger bills a job's row what its own model, tokens and day cost, and when processing raises. */
module BusBilling {
  import opened Prelude
  import opened Schema
  import opened Costs
  import opened Processing
  import opened Tables
  import opened Clients
  import opened Buses
  import opened BusInvariants
  import opened BusOutcomes
  import opened BusRuns
  import opened BusPostings
  import opened BusLinks

  /** An ok row's cost is that of its own model and tokens on its own day, which is the day the ledger groups it
      under, and its completion came from its model's provider; an error row carries its text and costs nothing. */
  predicate BilledAsRecorded(row: Row) {
    row.status.Terminal? ==>
      && Shaped(Some(row.model), row.status.verdict, row.completion, row.error, row.provider)
      && match row.status.verdict
         case Ok =>
           CostUsd(row.model, row.usage.input, row.usage.output, row.submittedAt.day) == Returned(row.usage.cost)
         case Error => row.usage == NO_USAGE
  }

  // ----- faithful billing -----

  function OnDay(day: Day): Property {
    (t: Timestamp, m: Meta) => t.day == day
  }

  /** A result of a submitted job, written over the row it agrees with, bills that row. */
  lemma FinalizeBills(jobs: Jobs, job: Job, result: Result, when: real)
    requires OnRecord(jobs, job) && SoundResult(job, result) && job.submittedAt.day == jobs[job.id].submittedAt.day
    requires Finalized(jobs, result, when).1
    ensures job.id in Finalized(jobs, result, when).0 && BilledAsRecorded(Finalized(jobs, result, when).0[job.id])
  {
    hide CostUsd, Routable;
  }

  /** The worker's job, if it has this id, was submitted on this day and names its row's model. */
  lemma HeadIsOnDay(b: Bus, job: Job, id: JobId, day: Day)
    requires AtHead(b, job) && job.id == id && Agreement(b) && SubmitsSay(b, id, OnDay(day)) && NoneForeign(b, id)
    ensures OnRecord(b.jobs, job) && job.submittedAt.day == day
  {
    assert b.topic[b.committed].Submitted? && b.topic[b.committed].job == job;
    assert Says(job, id, OnDay(day));
  }

  lemma BillKept(b: Bus, step: Step, id: JobId, day: Day)
    requires Agreement(b) && Origins(b) && WorkerSound(b) && Do(b, step).Some?
    requires SubmitsSay(b, id, OnDay(day)) && NoneForeign(b, id) && (id in b.jobs ==> BilledAsRecorded(b.jobs[id]))
    ensures var b' := Do(b, step).value;
            id in b'.jobs ==> BilledAsRecorded(b'.jobs[id])
  {
    hide Do, Agreement, Origins, SubmitsSay, NoneForeign, Finalized, BilledAsRecorded, SoundResult, PendingRow;
    Writes(b, step);
    var b' := Do(b, step).value;
    if b'.wins != b.wins {
      var job, result, when :| b.worker == Concluded(job, result) && Finalized(b.jobs, result, when).1
                            && b'.jobs == Finalized(b.jobs, result, when).0 && b'.wins == b.wins + [result];
      FinalizedFinishes(b.jobs, result, when);
      IdOfSound(job, result);
      if job.id == id {
        HeadIsOnDay(b, job, id, day);
        RowSays(b, id, OnDay(day));
        FinalizeBills(b.jobs, job, result, when);
      }
    } else if b'.jobs != b.jobs {
      var job: Job :| job.model.Some? && job.id !in b.jobs
                   && b'.jobs == b.jobs[job.id := PendingRow(job, job.model.value)];
      PendingIsBilled(job, job.model.value);
    }
  }

  lemma PendingIsBilled(job: Job, model: string)
    ensures BilledAsRecorded(PendingRow(job, model))
  {
  }

  /** If all submits of this id carry one day and nobody else posts it, its row is billed as it is recorded,
      whatever happens to other ids. */
  lemma {:induction false} FaithfulBilling(run: seq<Bus>, steps: seq<Step>, id: JobId, day: Day, i: nat)
    requires IsRun(run, steps) && i < |run|
    requires forall n :: 0 <= n < |steps| ==> BeginSays(steps[n], id, OnDay(day)) && OnlySubmitted(steps[n], id)
    ensures id in run[i].jobs ==> BilledAsRecorded(run[i].jobs[id])
  {
    hide Do, BeginSays, OnlySubmitted, BilledAsRecorded;
    if i > 0 {
      FaithfulBilling(run, steps, id, day, i - 1);
      RunSays(run, steps, id, OnDay(day), i - 1);
      RunForeign(run, steps, id, i - 1);
      RunSound(run, steps, i - 1);
      assert Do(run[i - 1], steps[i - 1]) == Some(run[i]);
      BillKept(run[i - 1], steps[i - 1], id, day);
    }
  }

  // ----- when processing raises -----

  /** Exactly what makes processing raise: a missing limiter, a negative token count, or a success for a job
      that is dated before the price floor. */
  lemma BreaksExactly(b: Bus, step: Step)
    requires WorkerSound(b) && Do(b, step).Some? && !b.worker.Broken?
    ensures Do(b, step).value.worker.Broken?
       <==> || step.LimiterRefuses?
            || (step.CallEnds? && step.reply.Succeeded?
                && (step.reply.input < 0 || step.reply.output < 0 || b.worker.job.submittedAt.day < EPOCH))
    ensures step.LimiterRefuses? ==>
              b.worker.Running? && b.worker.provider !in b.limited && b.worker.provider in b.wired
  {
    hide Answer, TakenUp;
    if Mover(step).Some? || step.EditPolicy? || step.Inject? {
      SubmitLeavesWorker(b, step);
    } else {
      match (step, b.worker)
      case (CallEnds(reply), Running(job, provider)) =>
        AnswerBreaksExactly(job, provider, reply);
      case (Deliver, Idle) =>
        if b.committed < |b.topic| && Decode(b.topic[b.committed]).Some? {
          TakenUpSound(b.wired, b.topic[b.committed].job);
        }
      case _ =>
    }
  }

  lemma AnswerBreaksExactly(job: Job, provider: string, reply: Reply)
    requires job.model.Some? && ProviderFor(job.model.value) == Returned(provider)
    ensures Answer(job, provider, reply).Broken?
       <==> reply.Succeeded? && (reply.input < 0 || reply.output < 0 || job.submittedAt.day < EPOCH)
  {
    RoutedIsPriced(job.model.value, job.submittedAt.day);
    hide PriceFor;
  }

  /** Processing raised on a message that no submit sent. */
  ghost predicate BrokenOnForeign(b: Bus) {
    b.committed < |b.topic| && !b.topic[b.committed].Submitted?
  }

  lemma StaysBroken(b: Bus, step: Step)
    requires b.worker.Broken? && Do(b, step).Some? && BrokenOnForeign(b)
    ensures Do(b, step).value.worker.Broken? ==> BrokenOnForeign(Do(b, step).value)
  {
    StepGrows(b, step);
    hide Routable, ResolvedJob, Aligned, TakenUp, Answer;
  }

  function FromFloor(): Property {
    (t: Timestamp, m: Meta) => t.day >= EPOCH
  }

  predicate ReportsCounts(step: Step) {
    step.CallEnds? ==> NonNegativeCounts(step.reply)
  }

  lemma WiringStays(b: Bus, step: Step)
    requires Do(b, step).Some?
    ensures Do(b, step).value.wired == b.wired && Do(b, step).value.limited == b.limited
  {
    hide TakenUp, Answer, Routable, ResolvedJob, Aligned, Finalized, Inserted;
  }

  lemma BreaksOnlyOnForeign(b: Bus, step: Step)
    requires WorkerSound(b) && Do(b, step).Some? && !b.worker.Broken? && b.wired <= b.limited && ReportsCounts(step)
    requires b.worker.Running? ==> SubmitsSay(b, b.worker.job.id, FromFloor())
    ensures Do(b, step).value.worker.Broken? ==> BrokenOnForeign(Do(b, step).value)
  {
    BreaksExactly(b, step);
    if b.worker.Running? {
      HeadIsFromFloor(b);
    }
  }

  /** The job in hand, if a submit sent it, is dated from the price floor on. */
  lemma HeadIsFromFloor(b: Bus)
    requires b.worker.Running? && WorkerSound(b) && SubmitsSay(b, b.worker.job.id, FromFloor())
    ensures b.committed < |b.topic|
    ensures b.topic[b.committed].Submitted? ==> b.worker.job.submittedAt.day >= EPOCH
  {
    assert AtHead(b, b.worker.job);
    if b.topic[b.committed].Submitted? {
      assert Says(b.worker.job, b.worker.job.id, FromFloor());
    }
  }

  /** With dates on or after the price floor, counts that are not negative and a limiter for every wired
      provider, processing raises on no message that a submit sent, whatever else reaches the topic. */
  lemma {:induction false} ProcessingNeverRaises(run: seq<Bus>, steps: seq<Step>, i: nat)
    requires IsRun(run, steps) && i < |run| && run[0].wired <= run[0].limited
    requires forall n :: 0 <= n < |steps| ==> ReportsCounts(steps[n])
    requires forall n :: 0 <= n < |steps| && steps[n].Begin? ==> steps[n].job.submittedAt.day >= EPOCH
    ensures run[i].worker.Broken? ==> BrokenOnForeign(run[i])
    ensures run[i].wired == run[0].wired && run[i].limited == run[0].limited
  {
    hide Do, WorkerSound, SubmitsSay, BrokenOnForeign;
    if i > 0 {
      var b, step := run[i - 1], steps[i - 1];
      ProcessingNeverRaises(run, steps, i - 1);
      RunSound(run, steps, i - 1);
      assert Do(b, step) == Some(run[i]);
      WiringStays(b, step);
      if b.worker.Broken? {
        StaysBroken(b, step);
      } else {
        if b.worker.Running? {
          forall n | 0 <= n < |steps|
            ensures BeginSays(steps[n], b.worker.job.id, FromFloor())
          {
          }
          RunSays(run, steps, b.worker.job.id, FromFloor(), i - 1);
        }
        BreaksOnlyOnForeign(b, step);
      }
    }
  }

  // ----- the exact condition for the bill -----

  /** The running job is answered with these counts, and finalized. */
  function Answered(b: Bus, completion: string, input: nat, output: nat, when: real): Option<Bus> {
    DoAll(b, [CallEnds(Succeeded(completion, input, output)), Step.Finalize(when)])
  }

  /** Whatever the provider reports, the row of this id ends up billed as it is recorded. */
  ghost predicate BillsItsRow(b: Bus, id: JobId) {
    forall completion: string, input: nat, output: nat, when: real ::
      var done := Answered(b, completion, input, output, when);
      done.Some? && id in done.value.jobs && BilledAsRecorded(done.value.jobs[id])
  }

  /** A worker that is about to call the provider for a message whose row is pending. */
  ghost predicate AboutToBill(b: Bus, job: Job) {
    && b.worker.Running? && b.worker.job == job && b.worker.provider in b.limited
    && b.committed < |b.topic| && b.topic[b.committed] == Submitted(job)
    && job.id in b.jobs && b.jobs[job.id].status.Pending?
  }

  lemma AnsweredRow(b: Bus, job: Job, completion: string, input: nat, output: nat, when: real)
    requires Agreement(b) && WorkerSound(b) && AboutToBill(b, job) && job.submittedAt.day >= EPOCH
    ensures job.model == Some(b.jobs[job.id].model) && PriceFor(job.model.value, job.submittedAt.day).Returned?
    ensures var done, row := Answered(b, completion, input, output, when), b.jobs[job.id];
            && done.Some? && job.id in done.value.jobs
            && var rate := PriceFor(row.model, job.submittedAt.day).value;
               BilledAsRecorded(done.value.jobs[job.id])
               <==> CostUsd(row.model, input, output, row.submittedAt.day) == Returned(Bill(rate, input, output))
  {
    assert OnRecord(b.jobs, job) && AtHead(b, job);
    RoutedIsPriced(job.model.value, job.submittedAt.day);
    hide PriceFor, Agreement, WorkerSound, DoAll;
    var answered := CallEnds(Succeeded(completion, input, output));
    var b1 := Do(b, answered).value;
    DoTwo(b, answered, Step.Finalize(when));
  }

  lemma BillsAtOneRate(model: string, sent: Day, recorded: Day)
    requires PriceFor(model, sent).Returned?
    ensures (forall input: nat, output: nat ::
               CostUsd(model, input, output, recorded) == Returned(Bill(PriceFor(model, sent).value, input, output)))
       <==> PriceFor(model, sent) == PriceFor(model, recorded)
  {
    hide PriceFor;
    var rate, own := PriceFor(model, sent).value, PriceFor(model, recorded);
    if forall input: nat, output: nat ::
        CostUsd(model, input, output, recorded) == Returned(Bill(rate, input, output)) {
      assert CostUsd(model, 0, 0, recorded) == Returned(Bill(rate, 0, 0));
      forall input: nat, output: nat
        ensures Bill(rate, input, output) == Bill(own.value, input, output)
      {
        assert CostUsd(model, input, output, recorded) == Returned(Bill(rate, input, output));
      }
      SameBillSameRate(rate, own.value);
    }
  }

  /** A success for a job without a rate on its day cannot be finalized. */
  lemma UnpricedIsNotBilled(b: Bus, job: Job)
    requires Agreement(b) && WorkerSound(b) && AboutToBill(b, job)
    requires PriceFor(b.jobs[job.id].model, job.submittedAt.day).Raised?
    ensures !BillsItsRow(b, job.id)
  {
    assert OnRecord(b.jobs, job) && AtHead(b, job);
    RoutedIsPriced(job.model.value, job.submittedAt.day);
    var answered := CallEnds(Succeeded("", 0, 0));
    AnswerBreaksExactly(job, b.worker.provider, answered.reply);
    hide PriceFor, Agreement, WorkerSound, DoAll;
    DoTwo(b, answered, Step.Finalize(0.0));
    assert Answered(b, "", 0, 0, 0.0).None?;
  }

  /** A message ends up billing its row as recorded, whatever the provider reports, exactly when the message's day
      has a rate and that rate is in force on the row's day too. */
  lemma BillsRowExactly(b: Bus, job: Job)
    requires Agreement(b) && WorkerSound(b) && AboutToBill(b, job)
    ensures var model := b.jobs[job.id].model;
            BillsItsRow(b, job.id)
            <==> && PriceFor(model, job.submittedAt.day).Returned?
                 && PriceFor(model, job.submittedAt.day) == PriceFor(model, b.jobs[job.id].submittedAt.day)
  {
    hide PriceFor, BillsItsRow, Agreement, WorkerSound;
    RowIsRouted(b, job);
    RoutedIsPriced(b.jobs[job.id].model, job.submittedAt.day);
    if job.submittedAt.day >= EPOCH {
      BillsPricedRowExactly(b, job);
    } else {
      UnpricedIsNotBilled(b, job);
    }
  }

  lemma RowIsRouted(b: Bus, job: Job)
    requires Agreement(b) && AboutToBill(b, job)
    ensures Routable(b.jobs[job.id].model)
  {
    hide Routable;
  }

  lemma BillsPricedRowExactly(b: Bus, job: Job)
    requires Agreement(b) && WorkerSound(b) && AboutToBill(b, job) && job.submittedAt.day >= EPOCH
    ensures BillsItsRow(b, job.id)
       <==> PriceFor(b.jobs[job.id].model, job.submittedAt.day)
            == PriceFor(b.jobs[job.id].model, b.jobs[job.id].submittedAt.day)
  {
    hide PriceFor, CostUsd, BilledAsRecorded, Answered, Agreement, WorkerSound;
    var row, sent := b.jobs[job.id], job.submittedAt.day;
    AnsweredRow(b, job, "", 0, 0, 0.0);
    var rate := PriceFor(row.model, sent).value;
    forall completion: string, input: nat, output: nat, when: real
      ensures var done := Answered(b, completion, input, output, when);
              && done.Some? && job.id in done.value.jobs
              && (BilledAsRecorded(done.value.jobs[job.id])
                  <==> CostUsd(row.model, input, output, row.submittedAt.day) == Returned(Bill(rate, input, output)))
    {
      AnsweredRow(b, job, completion, input, output, when);
    }
    BillsAtOneRate(row.model, sent, row.submittedAt.day);
    if BillsItsRow(b, job.id) {
      forall input: nat, output: nat
        ensures CostUsd(row.model, input, output, row.submittedAt.day) == Returned(Bill(rate, input, output))
      {
        assert Answered(b, "", input, output, 0.0).Some?;
      }
    }
  }

  // ----- a run that bills another day -----

  const SONNET := "claude-sonnet-5"

  lemma SonnetPrices()
    ensures PriceFor(SONNET, SONNET_STANDARD - 1) == Returned(ModelPricing(2.0, 10.0))
    ensures PriceFor(SONNET, SONNET_STANDARD) == Returned(ModelPricing(3.0, 15.0))
  {
    var intro := PricePoint(EPOCH, ModelPricing(2.0, 10.0));
    var standard := PricePoint(SONNET_STANDARD, ModelPricing(3.0, 15.0));
    var points := [intro, standard];
    assert PRICING[SONNET] == points && points[1..] == [standard];
    ApplicableOne(standard, SONNET_STANDARD - 1);
    ApplicableOne(standard, SONNET_STANDARD);
    assert Applicable(points, SONNET_STANDARD - 1) == [intro];
    assert Applicable(points, SONNET_STANDARD) == points;
    assert Latest(points[1..]) == standard;
  }

  lemma ApplicableOne(point: PricePoint, on: Day)
    ensures Applicable([point], on) == if point.effective <= on then [point] else []
  {
    assert [point][1..] == [];
  }

  function DriftingJob(day: Day): Job {
    Job("j", "p", "k", Some(SONNET), [], None, None, map[], Timestamp(0.0, day), None)
  }

  function Drifted(): Row {
    PendingRow(DriftingJob(SONNET_STANDARD - 1), SONNET)
      .(status := Terminal(Ok), usage := Usage(1000000, 0, 3.0), completion := Some("x"), provider := Some("anthropic"),
        error := None, completedAt := Some(0.0))
  }

  /** The worker's part: the message is taken up, answered and finalized. */
  lemma DriftingWork(b: Bus) returns (steps: seq<Step>)
    requires b.worker.Idle? && b.committed == 0 && b.wired == b.limited == {"anthropic"}
    requires b.topic == [Submitted(DriftingJob(SONNET_STANDARD))]
    requires b.jobs == map["j" := PendingRow(DriftingJob(SONNET_STANDARD - 1), SONNET)]
    ensures DoAll(b, steps).Some? && DoAll(b, steps).value.jobs == map["j" := Drifted()]
  {
    SonnetPrices();
    hide PriceFor;
    var answered := CallEnds(Succeeded("x", 1000000, 0));
    steps := [Deliver, answered, Step.Finalize(0.0)];
    var b1 := Do(b, Deliver).value;
    assert b1.worker == Running(DriftingJob(SONNET_STANDARD), "anthropic");
    var b2 := Do(b1, answered).value;
    assert b2.worker.Concluded?;
    DoThree(b, Deliver, answered, Step.Finalize(0.0), steps);
  }

  /** The send of a first submit fails; the job is submitted again a day later, across a price change. The
      message is billed at the new rate, on a row that the ledger groups under the old day. */
  lemma BillingDrifts(b: Bus) returns (steps: seq<Step>)
    requires Initial(b) && b.wired == b.limited == {"anthropic"}
    ensures DoAll(b, steps).Some?
    ensures var jobs := DoAll(b, steps).value.jobs;
            && jobs.Keys == {"j"} && jobs["j"].status == Terminal(Ok)
            && jobs["j"].submittedAt.day == SONNET_STANDARD - 1
            && jobs["j"].usage == Usage(1000000, 0, 3.0)
            && CostUsd(jobs["j"].model, 1000000, 0, jobs["j"].submittedAt.day) == Returned(2.0)
  {
    SonnetPrices();
    hide PriceFor, DoAll, SubmitSteps;
    var early, late := DriftingJob(SONNET_STANDARD - 1), DriftingJob(SONNET_STANDARD);
    SubmitIsItsSteps(b, 0, early, Fails);
    var first := SubmitSteps(b, 0, early, Fails);
    SubmitMovesItself(b, 0, early, Fails);
    SubmitFrame(b, first, 0);
    var b1 := DoAll(b, first).value;
    SubmitIsItsSteps(b1, 1, late, Lands);
    var second := SubmitSteps(b1, 1, late, Lands);
    SubmitMovesItself(b1, 1, late, Lands);
    SubmitFrame(b1, second, 1);
    var work := DriftingWork(DoAll(b1, second).value);
    DoAllConcat(b1, second, work);
    DoAllConcat(b, first, second + work);
    steps := first + (second + work);
  }
}
