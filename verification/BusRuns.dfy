/** What holds in every state of every run of the bus, and between any two of them. */
module BusRuns {
  import opened Prelude
  import opened Schema
  import opened Tables
  import opened Ledger
  import opened Dashboard
  import opened Clients
  import opened Buses
  import opened BusInvariants
  import opened BusOutcomes

  ghost predicate Sound(b: Bus) {
    && Agreement(b) && Origins(b) && WorkerSound(b) && NothingSkipped(b)
    && WinsSound(b.jobs, b.wins) && CallbacksSound(b) && Balanced(b)
  }

  lemma StepSound(b: Bus, step: Step)
    requires Sound(b) && Do(b, step).Some?
    ensures Sound(Do(b, step).value)
  {
    hide Do, Agreement, Origins, WorkerSound, NothingSkipped, WinsSound, CallbacksSound, Balanced;
    AgreementKept(b, step);
    OriginsKept(b, step);
    WorkerSoundKept(b, step);
    NothingSkippedKept(b, step);
    WinsSoundKept(b, step);
    CallbacksSoundKept(b, step);
    BalancedKept(b, step);
  }

  lemma {:induction false} RunSound(run: seq<Bus>, steps: seq<Step>, i: nat)
    requires IsRun(run, steps) && i < |run|
    ensures Sound(run[i])
  {
    hide Do;
    if i > 0 {
      RunSound(run, steps, i - 1);
      assert Do(run[i - 1], steps[i - 1]) == Some(run[i]);
      StepSound(run[i - 1], steps[i - 1]);
    }
  }

  // ----- rows and topic tell the same story -----

  /** Every message that `submit` sent names a concrete, routed model: its row's. */
  lemma RowTopicAgreement(run: seq<Bus>, steps: seq<Step>, i: nat, k: nat)
    requires IsRun(run, steps) && i < |run| && k < |run[i].topic| && run[i].topic[k].Submitted?
    ensures var job := run[i].topic[k].job;
            && job.id in run[i].jobs
            && job.model == Some(run[i].jobs[job.id].model)
            && job.model.value in PROVIDERS
  {
    RunSound(run, steps, i);
    assert OnRecord(run[i].jobs, run[i].topic[k].job);
  }

  /** So a worker that takes such a message up never concludes "no model" or "no provider". */
  lemma SubmittedIsRouted(run: seq<Bus>, steps: seq<Step>, i: nat)
    requires IsRun(run, steps) && i < |run|
    requires run[i].worker.Idle? && run[i].committed < |run[i].topic| && run[i].topic[run[i].committed].Submitted?
    ensures var pc := Do(run[i], Deliver).value.worker;
            var job := run[i].topic[run[i].committed].job;
            && job.id in run[i].jobs && run[i].jobs[job.id].model in PROVIDERS
            && var provider := PROVIDERS[run[i].jobs[job.id].model];
            if provider in run[i].wired then pc == Running(job, provider)
            else pc.Concluded? && pc.result.provider == Some(provider)
  {
    RowTopicAgreement(run, steps, i, run[i].committed);
  }

  /** The re-read of a duplicate always finds the row: nothing ever deletes one. */
  lemma ReReadFindsRow(run: seq<Bus>, steps: seq<Step>, i: nat, s: SubmitId)
    requires IsRun(run, steps) && i < |run| && s in run[i].submits && run[i].submits[s].ReReading?
    ensures run[i].submits[s].job.id in run[i].jobs
  {
    RunSound(run, steps, i);
    assert SubmitAgrees(run[i], run[i].submits[s]);
  }

  /** A submit that has not written yet, or was refused before it did. */
  predicate Unwritten(pc: SubmitPc) {
    pc.Resolving? || pc.Checking? || pc.Inserting? || pc.Refused?
  }

  lemma UnwrittenWritesNothing(b: Bus, step: Step, s: SubmitId)
    requires Do(b, step).Some? && Mover(step) == Some(s)
    requires s in Do(b, step).value.submits && Unwritten(Do(b, step).value.submits[s])
    ensures Do(b, step).value.jobs == b.jobs && Do(b, step).value.topic == b.topic
    ensures s in b.submits ==> Unwritten(b.submits[s])
  {
    hide Routable, ResolvedJob, TakenUp, Answer, Aligned;
  }

  lemma MovesItself(b: Bus, step: Step, s: SubmitId)
    requires Do(b, step).Some? && Mover(step) == Some(s)
    ensures s in Do(b, step).value.submits
  {
    hide Routable, ResolvedJob, Aligned;
  }

  lemma {:induction false} NotBegunNotMoved(run: seq<Bus>, steps: seq<Step>, i: nat, s: SubmitId, n: nat)
    requires IsRun(run, steps) && n < i < |run| && s !in run[i].submits
    ensures Mover(steps[n]) != Some(s)
  {
    hide Do;
    assert Do(run[i - 1], steps[i - 1]) == Some(run[i]);
    if Mover(steps[i - 1]) == Some(s) {
      MovesItself(run[i - 1], steps[i - 1], s);
    } else {
      OthersStay(run[i - 1], steps[i - 1], s);
      if n < i - 1 {
        NotBegunNotMoved(run, steps, i - 1, s, n);
      }
    }
  }

  /** A submit that is refused for its model, or has come no further than its insert, has written nothing:
      no step that it has taken changed the store or the topic, and no row is its own. */
  lemma {:induction false} RefusedWritesNothing(run: seq<Bus>, steps: seq<Step>, i: nat, s: SubmitId)
    requires IsRun(run, steps) && i < |run| && s in run[i].submits && Unwritten(run[i].submits[s])
    ensures forall n :: 0 <= n < i && Mover(steps[n]) == Some(s) ==>
              run[n + 1].jobs == run[n].jobs && run[n + 1].topic == run[n].topic
    ensures forall id :: id in run[i].jobs ==> id in run[i].origin && run[i].origin[id] != s
  {
    hide Do, Unwritten;
    RunSound(run, steps, i);
    NoOrigin(run[i], s);
    if i > 0 {
      var b, step := run[i - 1], steps[i - 1];
      assert Do(b, step) == Some(run[i]);
      if Mover(step) == Some(s) {
        UnwrittenWritesNothing(b, step, s);
      } else {
        OthersStay(b, step, s);
      }
      if s in b.submits {
        RefusedWritesNothing(run, steps, i - 1, s);
      } else {
        forall n | 0 <= n < i - 1
          ensures Mover(steps[n]) != Some(s)
        {
          NotBegunNotMoved(run, steps, i - 1, s, n);
        }
      }
    }
  }

  lemma NoOrigin(b: Bus, s: SubmitId)
    requires Origins(b) && s in b.submits && Unwritten(b.submits[s])
    ensures forall id :: id in b.jobs ==> id in b.origin && b.origin[id] != s
  {
    forall id | id in b.jobs
      ensures id in b.origin && b.origin[id] != s
    {
      assert InsertedBy(b.submits[b.origin[id]], id);
    }
  }

  /** The first write wins: each row is that of the one submit that inserted it, whatever was submitted later. */
  lemma {:induction false} RowIsFirstSubmit(run: seq<Bus>, steps: seq<Step>, i: nat, j: nat, id: JobId)
    requires IsRun(run, steps) && i <= j < |run| && id in run[i].jobs
    ensures id in run[j].jobs && id in run[j].origin && id in run[i].origin
    ensures run[j].origin[id] == run[i].origin[id] && run[j].origin[id] in run[j].submits
    ensures var job := run[j].submits[run[j].origin[id]].job;
            job.id == id && FromJob(run[j].jobs[id], job)
    decreases j
  {
    hide Do, FromJob;
    RunSound(run, steps, j);
    if i < j {
      RowIsFirstSubmit(run, steps, i, j - 1, id);
      RunSound(run, steps, j - 1);
      assert Do(run[j - 1], steps[j - 1]) == Some(run[j]);
      OriginStays(run[j - 1], steps[j - 1], id);
    }
    assert InsertedBy(run[j].submits[run[j].origin[id]], id);
  }

  // ----- once-only outcomes -----

  lemma {:induction false} RunGrows(run: seq<Bus>, steps: seq<Step>, i: nat, j: nat)
    requires IsRun(run, steps) && i <= j < |run|
    ensures Grows(run[i].jobs, run[j].jobs) && run[i].topic <= run[j].topic
  {
    hide Do;
    if i < j {
      RunGrows(run, steps, i, j - 1);
      assert Do(run[j - 1], steps[j - 1]) == Some(run[j]);
      StepGrows(run[j - 1], steps[j - 1]);
      GrowsTransitive(run[i].jobs, run[j - 1].jobs, run[j].jobs);
    } else {
      NothingGrows(run[i].jobs);
    }
  }

  /** Once a job has its outcome, no later crash, redelivery or duplicate changes any part of its row. */
  lemma OutcomeIsFinal(run: seq<Bus>, steps: seq<Step>, i: nat, j: nat, id: JobId)
    requires IsRun(run, steps) && i <= j < |run| && Finished(run[i].jobs, id)
    ensures id in run[j].jobs && run[j].jobs[id] == run[i].jobs[id]
  {
    RunGrows(run, steps, i, j);
  }

  /** The run of the bus is a run of the atomic first-write-wins map. */
  lemma RunRefinesFates(run: seq<Bus>, steps: seq<Step>, i: nat)
    requires IsRun(run, steps) && i + 1 < |run|
    ensures Fates(run[0].jobs) == map[]
    ensures FateStep(Fates(run[i].jobs), Fates(run[i + 1].jobs))
  {
    assert Do(run[i], steps[i]) == Some(run[i + 1]);
    StepRefines(run[i], steps[i]);
  }

  /** At most one callback is attempted per job, after the result it carries has won, and it says what the row says. */
  lemma CallbackOnce(run: seq<Bus>, steps: seq<Step>, i: nat)
    requires IsRun(run, steps) && i < |run|
    ensures forall m, n :: 0 <= m < n < |run[i].sent| ==> run[i].sent[m].result.id != run[i].sent[n].result.id
    ensures forall d :: d in run[i].sent ==>
              && d.result in run[i].wins && d.result.id in run[i].jobs
              && Carries(run[i].jobs[d.result.id], d.result)
  {
    RunSound(run, steps, i);
    var b := run[i];
    forall m, n | 0 <= m < n < |b.sent|
      ensures b.sent[m].result.id != b.sent[n].result.id
    {
      assert Results(b.sent)[m].id != Results(b.sent)[n].id;
    }
    forall d | d in b.sent
      ensures d.result in b.wins && Shows(b.jobs, d.result)
    {
      var m :| 0 <= m < |b.sent| && b.sent[m] == d;
      assert Results(b.sent)[m] in Results(b.sent);
    }
  }

  // ----- no lost job -----

  /** Whatever `submit` sent and the worker committed is finished; and every pending row belongs to a
      submit that has not sent it, or has a message that is not committed yet. */
  lemma NoLostJob(run: seq<Bus>, steps: seq<Step>, i: nat, id: JobId)
    requires IsRun(run, steps) && i < |run|
    ensures run[i].committed <= |run[i].topic|
    ensures forall k :: 0 <= k < run[i].committed && run[i].topic[k].Submitted? ==>
              Finished(run[i].jobs, run[i].topic[k].job.id)
    ensures id in run[i].jobs && run[i].jobs[id].status.Pending? ==>
              && id in run[i].origin && run[i].origin[id] in run[i].submits
              && var pc := run[i].submits[run[i].origin[id]];
              && pc.job.id == id
              && (pc.Sending? || pc.SendFailed? || pc.Died?
                  || (pc.Sent? && run[i].committed <= pc.offset < |run[i].topic|
                      && run[i].topic[pc.offset] == Submitted(pc.job)))
  {
    RunSound(run, steps, i);
    var b := run[i];
    if id in b.jobs && b.jobs[id].status.Pending? {
      var s := b.origin[id];
      assert InsertedBy(b.submits[s], id);
      assert SubmitAgrees(b, b.submits[s]);
    }
  }

  /** While a message that does not decode is at the head, the worker only takes it up and commits it: in every
      reachable state one of the two is enabled, and no step of the worker touches a row, a call or a callback. */
  lemma PoisonIsSkipped(run: seq<Bus>, steps: seq<Step>, i: nat)
    requires IsRun(run, steps) && i < |run| && run[i].committed < |run[i].topic|
    requires run[i].topic[run[i].committed].Poison?
    ensures run[i].worker.Idle? || run[i].worker.Settled?
    ensures Do(run[i], if run[i].worker.Idle? then Deliver else Commit).Some?
    ensures i < |steps| && Mover(steps[i]).None? ==>
              var b, b' := run[i], run[i + 1];
              b'.jobs == b.jobs && b'.calls == b.calls && b'.wins == b.wins && b'.sent == b.sent
  {
    RunSound(run, steps, i);
    HeadIsPoison(run[i]);
    if i < |steps| && Mover(steps[i]).None? {
      assert Do(run[i], steps[i]) == Some(run[i + 1]);
      PoisonMoves(run[i], steps[i]);
    }
  }

  lemma HeadIsPoison(b: Bus)
    requires WorkerSound(b) && b.committed < |b.topic| && b.topic[b.committed].Poison?
    ensures b.worker.Idle? || b.worker.Settled?
    ensures Do(b, if b.worker.Idle? then Deliver else Commit).Some?
  {
    hide SoundResult, ProviderFor, Carries;
  }

  lemma PoisonMoves(b: Bus, step: Step)
    requires (b.worker.Idle? || b.worker.Settled?) && Mover(step).None? && Do(b, step).Some?
    ensures var b' := Do(b, step).value;
            b'.jobs == b.jobs && b'.calls == b.calls && b'.wins == b.wins && b'.sent == b.sent
  {
    hide TakenUp;
  }

  // ----- money -----

  /** On every reachable store the three figures of the dashboard are the sum of the winning results,
      each job's counted once. */
  lemma LedgerIsConserved(run: seq<Bus>, steps: seq<Step>, i: nat, rows: seq<ProjectDayCost>, s: CostSummary)
    requires IsRun(run, steps) && i < |run| && IsLedger(run[i].jobs, rows) && IsSummary(rows, s)
    ensures s.grandTotal == SumTotals(s.byProject) == SumTotals(s.byDay) == SumWins(run[i].wins)
    ensures DistinctIds(run[i].wins)
  {
    RunSound(run, steps, i);
    LedgerConserves(run[i].jobs, rows);
    SummaryConserves(rows, s);
  }
}
