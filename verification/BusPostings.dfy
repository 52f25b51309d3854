/** What all submits of one job id say, its row and its messages say. */
module BusPostings {
  import opened Prelude
  import opened Schema
  import opened Clients
  import opened Buses
  import opened BusInvariants

  /** A property of the timestamp and the metadata that a job is submitted with. */
  type Property = (Timestamp, Meta) -> bool

  predicate Says(job: Job, id: JobId, fits: Property) {
    job.id == id ==> fits(job.submittedAt, job.meta)
  }

  /** The call of `submit` that begins, if one does, has the property if it is for this id. */
  predicate BeginSays(step: Step, id: JobId, fits: Property) {
    step.Begin? ==> Says(step.job, id, fits)
  }

  /** Nobody but `submit` posts a job with this id. */
  predicate OnlySubmitted(step: Step, id: JobId) {
    step.Inject? && !step.posting.Poison? ==> step.posting.job.id != id
  }

  ghost predicate SubmitsSay(b: Bus, id: JobId, fits: Property) {
    && (forall s :: s in b.submits ==> Says(b.submits[s].job, id, fits))
    && (forall k :: 0 <= k < |b.topic| && b.topic[k].Submitted? ==> Says(b.topic[k].job, id, fits))
  }

  ghost predicate NoneForeign(b: Bus, id: JobId) {
    forall k :: 0 <= k < |b.topic| && b.topic[k].Foreign? ==> b.topic[k].job.id != id
  }

  lemma ModelAside(b: Bus, job: Job, id: JobId, fits: Property)
    requires Says(job, id, fits)
    ensures Says(Aligned(b.jobs, job), id, fits)
    ensures ResolvedJob(job, b.policies).Returned? ==> Says(ResolvedJob(job, b.policies).value, id, fits)
  {
  }

  lemma MoverSays(b: Bus, step: Step, s: SubmitId, id: JobId, fits: Property)
    requires Do(b, step).Some? && Mover(step) == Some(s) && BeginSays(step, id, fits)
    requires s in b.submits ==> Says(b.submits[s].job, id, fits)
    ensures var b' := Do(b, step).value;
            && s in b'.submits && Says(b'.submits[s].job, id, fits)
            && (b'.topic != b.topic ==> b'.topic == b.topic + [Submitted(b'.submits[s].job)])
  {
    hide Routable, Says, ResolvedJob, Aligned;
    if s in b.submits {
      ModelAside(b, b.submits[s].job, id, fits);
    }
  }

  /** Only an injected message reaches the topic without a call of `submit`. */
  lemma Injected(b: Bus, step: Step)
    requires Do(b, step).Some? && Mover(step).None?
    ensures var b' := Do(b, step).value;
            b'.topic != b.topic ==> step.Inject? && b'.topic == b.topic + [step.posting] && !step.posting.Submitted?
  {
    hide TakenUp, Answer;
  }

  lemma SubmitsSayKept(b: Bus, step: Step, id: JobId, fits: Property)
    requires SubmitsSay(b, id, fits) && Do(b, step).Some? && BeginSays(step, id, fits)
    ensures SubmitsSay(Do(b, step).value, id, fits)
  {
    hide Do, Says;
    var b', mover := Do(b, step).value, Mover(step);
    if mover.Some? {
      MoverSays(b, step, mover.value, id, fits);
      forall s | s in b'.submits
        ensures Says(b'.submits[s].job, id, fits)
      {
        if mover != Some(s) {
          OthersStay(b, step, s);
        }
      }
    } else {
      WorkerAgrees(b, step);
      Injected(b, step);
    }
  }

  lemma NoneForeignKept(b: Bus, step: Step, id: JobId)
    requires NoneForeign(b, id) && Do(b, step).Some? && OnlySubmitted(step, id)
    ensures NoneForeign(Do(b, step).value, id)
  {
    hide Do;
    if Mover(step).Some? {
      var s := Mover(step).value;
      MoverSays(b, step, s, id, (t, m) => true);
    } else {
      Injected(b, step);
    }
  }

  lemma {:induction false} RunSays(run: seq<Bus>, steps: seq<Step>, id: JobId, fits: Property, i: nat)
    requires IsRun(run, steps) && i < |run| && forall n :: 0 <= n < |steps| ==> BeginSays(steps[n], id, fits)
    ensures SubmitsSay(run[i], id, fits)
  {
    hide Do, BeginSays;
    if i > 0 {
      RunSays(run, steps, id, fits, i - 1);
      assert Do(run[i - 1], steps[i - 1]) == Some(run[i]);
      SubmitsSayKept(run[i - 1], steps[i - 1], id, fits);
    }
  }

  lemma {:induction false} RunForeign(run: seq<Bus>, steps: seq<Step>, id: JobId, i: nat)
    requires IsRun(run, steps) && i < |run| && forall n :: 0 <= n < |steps| ==> OnlySubmitted(steps[n], id)
    ensures NoneForeign(run[i], id)
  {
    hide Do, OnlySubmitted;
    if i > 0 {
      RunForeign(run, steps, id, i - 1);
      assert Do(run[i - 1], steps[i - 1]) == Some(run[i]);
      NoneForeignKept(run[i - 1], steps[i - 1], id);
    }
  }

  /** A row has the property too: the insert fixed what the first submit said. */
  lemma RowSays(b: Bus, id: JobId, fits: Property)
    requires Origins(b) && SubmitsSay(b, id, fits) && id in b.jobs
    ensures fits(b.jobs[id].submittedAt, b.jobs[id].meta)
  {
    assert InsertedBy(b.submits[b.origin[id]], id);
    assert Says(b.submits[b.origin[id]].job, id, fits);
  }
}
