/** Once-only outcomes, callbacks and money on the bus. */
module BusOutcomes {
  import opened Prelude
  import opened Schema
  import opened Costs
  import opened Tables
  import opened Workers
  import opened Ledger
  import opened Clients
  import opened Buses
  import opened BusInvariants

  // ----- the atomic specification -----

  /** What the bus promises about a job: it is waiting, or it has its one outcome. */
  datatype Fate =
    | Waiting
    | Done(verdict: Verdict, completion: Option<string>, error: Option<string>, provider: Option<string>, usage: Usage)

  function FateOf(row: Row): Fate {
    if row.status.Pending? then Waiting
    else Done(row.status.verdict, row.completion, row.error, row.provider, row.usage)
  }

  function FateIn(result: Result): Fate {
    Done(result.verdict, result.completion, result.error, result.provider, result.usage)
  }

  function Fates(jobs: Jobs): map<JobId, Fate> {
    map id | id in jobs :: FateOf(jobs[id])
  }

  /** The atomic first-write-wins map: nothing happens, a job starts waiting, or a waiting job is done. */
  ghost predicate FateStep(before: map<JobId, Fate>, after: map<JobId, Fate>) {
    || after == before
    || (exists id :: id !in before && after == before[id := Waiting])
    || (exists id, fate: Fate :: id in before && before[id] == Waiting && fate.Done? && after == before[id := fate])
  }

  lemma InsertIsAtomic(jobs: Jobs, job: Job)
    ensures FateStep(Fates(jobs), Fates(Inserted(jobs, job).0))
  {
    if job.model.Some? && job.id !in jobs {
      assert Fates(Inserted(jobs, job).0) == Fates(jobs)[job.id := Waiting];
    }
  }

  lemma FinalizeIsAtomic(jobs: Jobs, result: Result, when: real)
    ensures FateStep(Fates(jobs), Fates(Finalized(jobs, result, when).0))
  {
    if Finalized(jobs, result, when).1 {
      var before, after, fate := Fates(jobs), Fates(Finalized(jobs, result, when).0), FateIn(result);
      assert after == before[result.id := fate];
      assert result.id in before && before[result.id] == Waiting && fate.Done?;
    }
  }

  lemma InsertWrites(jobs: Jobs, job: Job)
    requires job.model.Some? && job.id !in jobs
    ensures Inserted(jobs, job).0 == jobs[job.id := PendingRow(job, job.model.value)]
  {
  }

  /** Every step of the bus is one step of the atomic map, or none. */
  lemma StepRefines(b: Bus, step: Step)
    requires Do(b, step).Some?
    ensures FateStep(Fates(b.jobs), Fates(Do(b, step).value.jobs))
  {
    hide Do, Inserted, Finalized, FateStep, Fates, PendingRow;
    var b' := Do(b, step).value;
    Writes(b, step);
    if b'.jobs == b.jobs {
      NoFateStep(Fates(b.jobs));
    } else if b'.wins == b.wins {
      var job: Job :| job.model.Some? && job.id !in b.jobs
                   && b'.jobs == b.jobs[job.id := PendingRow(job, job.model.value)];
      InsertWrites(b.jobs, job);
      InsertIsAtomic(b.jobs, job);
    } else {
      var job, result, when :| b.worker == Concluded(job, result) && Finalized(b.jobs, result, when).1
                            && b'.jobs == Finalized(b.jobs, result, when).0 && b'.wins == b.wins + [result];
      FinalizeIsAtomic(b.jobs, result, when);
    }
  }

  lemma NoFateStep(fates: map<JobId, Fate>)
    ensures FateStep(fates, fates)
  {
  }

  // ----- winners and callbacks -----

  ghost predicate DistinctIds(results: seq<Result>) {
    forall i, j :: 0 <= i < j < |results| ==> results[i].id != results[j].id
  }

  function Results(sent: seq<Delivery>): seq<Result> {
    seq(|sent|, i requires 0 <= i < |sent| => sent[i].result)
  }

  predicate Shows(jobs: Jobs, result: Result) {
    result.id in jobs && Carries(jobs[result.id], result)
  }

  /** Each row was won at most once, by what it shows; a row nobody has won is pending and free. */
  ghost predicate WinsSound(jobs: Jobs, wins: seq<Result>) {
    && DistinctIds(wins)
    && (forall w :: w in wins ==> Shows(jobs, w))
    && (forall id :: id in jobs && jobs[id].status.Terminal? ==> exists w :: w in wins && w.id == id)
    && (forall id :: id in jobs && jobs[id].status.Pending? ==> jobs[id].usage == NO_USAGE)
  }

  /** At most one callback per job, each for a result that won; none yet for the one about to be sent. */
  ghost predicate CallbacksSound(b: Bus) {
    && DistinctIds(Results(b.sent))
    && (forall r :: r in Results(b.sent) ==> r in b.wins)
    && (b.worker.Notifying? ==>
          && b.worker.result in b.wins
          && forall r :: r in Results(b.sent) ==> r.id != b.worker.result.id)
  }

  lemma ShownStays(before: Jobs, after: Jobs, result: Result)
    requires Grows(before, after) && Shows(before, result)
    ensures Shows(after, result)
  {
  }

  /** What a step can do to the rows and the logs. */
  lemma Writes(b: Bus, step: Step)
    requires Do(b, step).Some?
    ensures var b' := Do(b, step).value;
            || (b'.jobs == b.jobs && b'.wins == b.wins)
            || (exists job: Job :: job.model.Some? && job.id !in b.jobs && b'.wins == b.wins
                                && b'.jobs == b.jobs[job.id := PendingRow(job, job.model.value)])
            || (exists job: Job, result: Result, when: real ::
                  b.worker == Concluded(job, result) && Finalized(b.jobs, result, when).1
                  && b'.jobs == Finalized(b.jobs, result, when).0 && b'.wins == b.wins + [result])
  {
    hide TakenUp, Answer, Routable, ResolvedJob, PendingRow, Completed;
  }

  lemma InsertKeepsWins(jobs: Jobs, wins: seq<Result>, job: Job, model: string)
    requires WinsSound(jobs, wins) && job.id !in jobs
    ensures WinsSound(jobs[job.id := PendingRow(job, model)], wins)
  {
    var after := jobs[job.id := PendingRow(job, model)];
    assert Grows(jobs, after);
    forall w | w in wins
      ensures Shows(after, w)
    {
      ShownStays(jobs, after, w);
    }
  }

  /** A row that is still pending has not been won. */
  lemma WonIsNew(jobs: Jobs, wins: seq<Result>, id: JobId)
    requires WinsSound(jobs, wins) && id in jobs && jobs[id].status.Pending?
    ensures forall w :: w in wins ==> w.id != id
  {
  }

  lemma FinalizeKeepsWins(jobs: Jobs, wins: seq<Result>, result: Result, when: real)
    requires WinsSound(jobs, wins) && Finalized(jobs, result, when).1
    ensures WinsSound(Finalized(jobs, result, when).0, wins + [result])
  {
    var after, more := Finalized(jobs, result, when).0, wins + [result];
    FinalizedFinishes(jobs, result, when);
    FinalizeGrows(jobs, result, when);
    WonIsNew(jobs, wins, result.id);
    hide Finalized, Grows, Carries;
    forall w | w in wins
      ensures Shows(after, w)
    {
      ShownStays(jobs, after, w);
    }
    assert result in more;
    forall id | id in after && after[id].status.Terminal?
      ensures exists w :: w in more && w.id == id
    {
      if id != result.id {
        var w :| w in wins && w.id == id;
        assert w in more;
      }
    }
  }

  lemma WinsSoundKept(b: Bus, step: Step)
    requires WinsSound(b.jobs, b.wins) && Do(b, step).Some?
    ensures WinsSound(Do(b, step).value.jobs, Do(b, step).value.wins)
  {
    var b' := Do(b, step).value;
    Writes(b, step);
    hide Do, WinsSound;
    if b'.wins != b.wins {
      var job, result, when :| b.worker == Concluded(job, result) && Finalized(b.jobs, result, when).1
                            && b'.jobs == Finalized(b.jobs, result, when).0 && b'.wins == b.wins + [result];
      FinalizeKeepsWins(b.jobs, b.wins, result, when);
    } else if b'.jobs != b.jobs {
      var job: Job :| job.model.Some? && job.id !in b.jobs
                   && b'.jobs == b.jobs[job.id := PendingRow(job, job.model.value)];
      InsertKeepsWins(b.jobs, b.wins, job, job.model.value);
    }
  }

  lemma CallbackMoves(b: Bus, step: Step)
    requires Do(b, step).Some? && WorkerSound(b)
    ensures var b' := Do(b, step).value;
            && (b'.sent == b.sent
                || (b.worker.Notifying? && b'.worker == Settled && b'.wins == b.wins && b.worker.job.callback.Some?
                    && b'.sent == b.sent + [Delivery(b.worker.job.callback.value, b.worker.result)]))
            && b.wins <= b'.wins
            && (b'.worker.Notifying? && b'.worker != b.worker ==>
                  && b'.sent == b.sent && b'.worker.result in b'.wins
                  && b'.worker.result.id in b.jobs && b.jobs[b'.worker.result.id].status.Pending?)
  {
    hide TakenUp, Routable, ResolvedJob;
    match (step, b.worker)
    case (Deliver, Idle) =>
      if b.committed < |b.topic| && Decode(b.topic[b.committed]).Some? {
        TakenUpSound(b.wired, b.topic[b.committed].job);
      }
    case (CallEnds(reply), Running(job, provider)) =>
      AnswerSound(job, provider, reply);
    case _ =>
  }

  lemma CallbacksSoundKept(b: Bus, step: Step)
    requires WinsSound(b.jobs, b.wins) && CallbacksSound(b) && WorkerSound(b) && Do(b, step).Some?
    ensures CallbacksSound(Do(b, step).value)
  {
    var b' := Do(b, step).value;
    CallbackMoves(b, step);
    hide Do, WorkerSound;
    if b'.sent != b.sent {
      assert Results(b'.sent) == Results(b.sent) + [b.worker.result];
    }
    if b'.worker.Notifying? && b'.worker != b.worker {
      forall r | r in Results(b'.sent)
        ensures r.id != b'.worker.result.id
      {
        assert r in b.wins && Shows(b.jobs, r);
      }
    }
  }

  // ----- money -----

  function SumWins(wins: seq<Result>): real {
    if wins == [] then 0.0 else SumWins(wins[..|wins| - 1]) + wins[|wins| - 1].usage.cost
  }

  /** The store's money is that of the winning results, and none of it is negative. */
  ghost predicate Balanced(b: Bus) {
    TotalCost(b.jobs) == SumWins(b.wins) && NonNegative(b.jobs)
  }

  lemma PricesAreNonNegative(model: string, on: Day)
    ensures PriceFor(model, on).Returned? ==>
              PriceFor(model, on).value.input >= 0.0 && PriceFor(model, on).value.output >= 0.0
  {
    if model in PRICING {
      ApplicableExactly(PRICING[model], on);
      if Applicable(PRICING[model], on) != [] {
        LatestIsLatest(Applicable(PRICING[model], on));
      }
    }
  }

  lemma BilledIsNonNegative(job: Job, result: Result)
    requires Billed(job, result)
    ensures result.usage.cost >= 0.0
  {
    if result.verdict.Ok? {
      PricesAreNonNegative(job.model.value, job.submittedAt.day);
      var price := PriceFor(job.model.value, job.submittedAt.day).value;
      Scale(price.input, 0.0, result.usage.input as real);
      Scale(price.output, 0.0, result.usage.output as real);
    }
  }

  lemma InsertIsFree(jobs: Jobs, job: Job, model: string)
    requires job.id !in jobs
    ensures TotalCost(jobs[job.id := PendingRow(job, model)]) == TotalCost(jobs)
  {
    var after := jobs[job.id := PendingRow(job, model)];
    assert after.Keys == jobs.Keys + {job.id};
    SumWith(after, jobs.Keys, job.id);
    SumAgrees(jobs, after, jobs.Keys);
  }

  lemma FinalizeCosts(jobs: Jobs, result: Result, when: real)
    requires Finalized(jobs, result, when).1 && result.id in jobs && jobs[result.id].usage == NO_USAGE
    ensures result.id in jobs && Finalized(jobs, result, when).0.Keys == jobs.Keys
    ensures TotalCost(Finalized(jobs, result, when).0) == TotalCost(jobs) + result.usage.cost
  {
    var after := Finalized(jobs, result, when).0;
    var others := jobs.Keys - {result.id};
    assert after.Keys == jobs.Keys == others + {result.id};
    SumWith(jobs, others, result.id);
    SumWith(after, others, result.id);
    SumAgrees(jobs, after, others);
  }

  lemma PendingRowIsFree(jobs: Jobs, wins: seq<Result>, result: Result, when: real)
    requires WinsSound(jobs, wins) && Finalized(jobs, result, when).1
    ensures result.id in jobs && jobs[result.id].usage == NO_USAGE
  {
  }

  lemma InsertKeepsNonNegative(jobs: Jobs, job: Job, model: string)
    requires NonNegative(jobs)
    ensures NonNegative(jobs[job.id := PendingRow(job, model)])
  {
  }

  lemma FinalizeKeepsNonNegative(jobs: Jobs, result: Result, when: real)
    requires NonNegative(jobs) && result.usage.cost >= 0.0
    ensures NonNegative(Finalized(jobs, result, when).0)
  {
  }

  lemma SumOneMoreWin(wins: seq<Result>, result: Result)
    ensures SumWins(wins + [result]) == SumWins(wins) + result.usage.cost
  {
    assert (wins + [result])[..|wins|] == wins;
  }

  lemma ConcludedBill(b: Bus)
    requires WorkerSound(b) && b.worker.Concluded?
    ensures Billed(b.worker.job, b.worker.result)
  {
  }

  lemma BalancedKept(b: Bus, step: Step)
    requires Balanced(b) && WinsSound(b.jobs, b.wins) && WorkerSound(b) && Do(b, step).Some?
    ensures Balanced(Do(b, step).value)
  {
    hide Do, TotalCost, WinsSound, WorkerSound, Finalized, NonNegative, SumWins, Billed, PendingRow;
    var b' := Do(b, step).value;
    Writes(b, step);
    if b'.wins != b.wins {
      var job, result, when :| b.worker == Concluded(job, result) && Finalized(b.jobs, result, when).1
                            && b'.jobs == Finalized(b.jobs, result, when).0 && b'.wins == b.wins + [result];
      PendingRowIsFree(b.jobs, b.wins, result, when);
      FinalizeCosts(b.jobs, result, when);
      SumOneMoreWin(b.wins, result);
      ConcludedBill(b);
      BilledIsNonNegative(job, result);
      FinalizeKeepsNonNegative(b.jobs, result, when);
    } else if b'.jobs != b.jobs {
      var job: Job :| job.model.Some? && job.id !in b.jobs
                   && b'.jobs == b.jobs[job.id := PendingRow(job, job.model.value)];
      InsertIsFree(b.jobs, job, job.model.value);
      InsertKeepsNonNegative(b.jobs, job, job.model.value);
    }
  }
}
