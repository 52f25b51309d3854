/** When rows were completed, and which policy a submit is resolved by. */
module BusHistory {
  import opened Prelude
  import opened Schema
  import opened Tables
  import opened Workers
  import opened Clients
  import opened Buses
  import opened BusInvariants
  import opened BusOutcomes
  import opened BusRuns

  // ----- rows -----

  /** A pending row says nothing yet; a terminal one says when it was completed. */
  predicate Stamped(row: Row) {
    if row.status.Pending? then
      row.completion == None && row.error == None && row.provider == None && row.usage == NO_USAGE
      && row.completedAt == None
    else row.completedAt.Some?
  }

  /** A step that finishes a row is a finalize, and stamps it with that finalize's time. */
  lemma FinishedByFinalize(b: Bus, step: Step, id: JobId)
    requires Do(b, step).Some? && !Finished(b.jobs, id) && Finished(Do(b, step).value.jobs, id)
    ensures step.Finalize? && Do(b, step).value.jobs[id].completedAt == Some(step.when)
  {
    hide TakenUp, Answer, Routable, ResolvedJob, Aligned;
  }

  lemma StampedKept(b: Bus, step: Step)
    requires Do(b, step).Some? && forall id :: id in b.jobs ==> Stamped(b.jobs[id])
    ensures forall id :: id in Do(b, step).value.jobs ==> Stamped(Do(b, step).value.jobs[id])
  {
    Writes(b, step);
    hide Do;
  }

  /** In every reachable state pending rows are blank, and a terminal row carries the time of the one finalize of the
      run that finished it. */
  lemma {:induction false} CompletedByFinalize(run: seq<Bus>, steps: seq<Step>, i: nat, id: JobId) returns (n: nat)
    requires IsRun(run, steps) && i < |run|
    ensures forall row :: row in run[i].jobs.Values ==> Stamped(row)
    ensures Finished(run[i].jobs, id) ==>
              && n < i && steps[n].Finalize? && run[i].jobs[id].completedAt == Some(steps[n].when)
              && !Finished(run[n].jobs, id) && Finished(run[n + 1].jobs, id)
  {
    hide Do, Stamped, Finished;
    n := 0;
    if i == 0 {
      NothingFinished(run[0], id);
    } else {
      n := CompletedByFinalize(run, steps, i - 1, id);
      assert Do(run[i - 1], steps[i - 1]) == Some(run[i]);
      AllStamped(run[i - 1]);
      StampedKept(run[i - 1], steps[i - 1]);
      if Finished(run[i].jobs, id) {
        if Finished(run[i - 1].jobs, id) {
          OutcomeIsFinal(run, steps, i - 1, i, id);
        } else {
          FinishedByFinalize(run[i - 1], steps[i - 1], id);
          n := i - 1;
        }
      }
    }
  }

  lemma NothingFinished(b: Bus, id: JobId)
    requires b.jobs == map[]
    ensures !Finished(b.jobs, id)
  {
  }

  lemma AllStamped(b: Bus)
    requires forall row :: row in b.jobs.Values ==> Stamped(row)
    ensures forall id :: id in b.jobs ==> Stamped(b.jobs[id])
  {
    forall id | id in b.jobs
      ensures Stamped(b.jobs[id])
    {
      assert b.jobs[id] in b.jobs.Values;
    }
  }

  // ----- policies -----

  /** The last edit of a policy before the i-th state, if there was one. */
  function LastEdit(steps: seq<Step>, i: nat, project: string, kind: string): Option<string>
    requires i <= |steps|
  {
    if i == 0 then None
    else
      match steps[i - 1]
      case EditPolicy(p, k, model) =>
        if p == project && k == kind then Some(model) else LastEdit(steps, i - 1, project, kind)
      case _ => LastEdit(steps, i - 1, project, kind)
  }

  function PolicyOf(policies: Policies, project: string, kind: string): Option<string> {
    if (project, kind) in policies then Some(policies[(project, kind)]) else None
  }

  lemma OnlyEditsEdit(b: Bus, step: Step)
    requires Do(b, step).Some? && !step.EditPolicy?
    ensures Do(b, step).value.policies == b.policies
  {
    hide TakenUp, Answer, Routable, ResolvedJob, Aligned, Inserted, Finalized;
  }

  /** A policy is what it was last edited to, and nothing else changes it. */
  lemma {:induction false} PolicyIsLastEdit(run: seq<Bus>, steps: seq<Step>, i: nat, project: string, kind: string)
    requires IsRun(run, steps) && i < |run|
    ensures var edit := LastEdit(steps, i, project, kind);
            PolicyOf(run[i].policies, project, kind)
            == if edit.Some? then edit else PolicyOf(run[0].policies, project, kind)
  {
    if i > 0 {
      PolicyIsLastEdit(run, steps, i - 1, project, kind);
      assert Do(run[i - 1], steps[i - 1]) == Some(run[i]);
      if !steps[i - 1].EditPolicy? {
        OnlyEditsEdit(run[i - 1], steps[i - 1]);
      }
    }
  }

  /** A submit without a model of its own is resolved by the last edit before it resolves, one with a model by that;
      without either it is refused. */
  lemma ResolvedByLastEdit(run: seq<Bus>, steps: seq<Step>, i: nat, s: SubmitId)
    requires IsRun(run, steps) && i < |steps| && steps[i] == Resolve(s)
    requires s in run[i].submits && run[i].submits[s].Resolving?
    ensures var job := run[i].submits[s].job;
            var edit := LastEdit(steps, i, job.project, job.kind);
            var model := if job.model.Some? then job.model
                         else if edit.Some? then edit
                         else PolicyOf(run[0].policies, job.project, job.kind);
            && s in run[i + 1].submits
            && run[i + 1].submits[s] == if model.Some? then Checking(job.(model := model)) else Refused(job)
  {
    var job := run[i].submits[s].job;
    PolicyIsLastEdit(run, steps, i, job.project, job.kind);
    assert Do(run[i], steps[i]) == Some(run[i + 1]);
    hide LastEdit;
  }
}
