/** The rows of the results store and what its writes do to them (src/llmbus/store.py). */
module Tables {
  import opened Prelude
  import opened Schema

  datatype Status = Pending | Terminal(verdict: Verdict)

  datatype Row = Row(
    project: string,
    model: string,
    status: Status,
    completion: Option<string>,
    error: Option<string>,
    provider: Option<string>,
    usage: Usage,
    meta: Meta,
    submittedAt: Timestamp,
    completedAt: Option<real>)

  type Jobs = map<JobId, Row>

  type Policies = map<(string, string), string>

  function PendingRow(job: Job, model: string): Row {
    Row(job.project, model, Pending, None, None, None, NO_USAGE, job.meta, job.submittedAt, None)
  }

  /** The first write of a job id wins; a row needs a concrete model. */
  function Inserted(jobs: Jobs, job: Job): (Jobs, Outcome<bool>) {
    if job.model.None? then (jobs, Raised(NullModel))
    else if job.id in jobs then (jobs, Returned(false))
    else (jobs[job.id := PendingRow(job, job.model.value)], Returned(true))
  }

  /** A row with a result written over it; what the insert fixed stays. */
  function Completed(row: Row, result: Result, when: real): Row {
    row.(status := Terminal(result.verdict),
         completion := result.completion,
         error := result.error,
         provider := result.provider,
         usage := result.usage,
         completedAt := Some(when))
  }

  /** The one-shot transition: only a pending row takes a result. */
  function Finalized(jobs: Jobs, result: Result, when: real): (Jobs, bool) {
    if result.id in jobs && jobs[result.id].status.Pending? then
      (jobs[result.id := Completed(jobs[result.id], result, when)], true)
    else (jobs, false)
  }

  /** The row has its result. */
  predicate Finished(jobs: Jobs, id: JobId) {
    id in jobs && jobs[id].status.Terminal?
  }

  /** The result contract read back from a terminal row; a pending row is no result. */
  function ResultFromStored(id: JobId, row: Row): Option<Result> {
    if row.status.Pending? then None
    else Some(Result(id, row.status.verdict, row.completion, row.usage, row.provider, row.error, row.meta))
  }

  /** A row carries a result, all fields but the metadata that was fixed at insert. */
  predicate Carries(row: Row, result: Result) {
    && row.status == Terminal(result.verdict)
    && row.completion == result.completion
    && row.error == result.error
    && row.provider == result.provider
    && row.usage == result.usage
  }

  /** `after` may know more jobs than `before` and have finished some; it forgets and rewrites nothing. */
  ghost predicate Grows(before: Jobs, after: Jobs) {
    forall id :: id in before ==>
      && id in after
      && (before[id].status.Terminal? ==> after[id] == before[id])
      && after[id].project == before[id].project && after[id].model == before[id].model
      && after[id].meta == before[id].meta && after[id].submittedAt == before[id].submittedAt
  }

  lemma InsertGrows(jobs: Jobs, job: Job)
    ensures Grows(jobs, Inserted(jobs, job).0)
  {
  }

  lemma FinalizeGrows(jobs: Jobs, result: Result, when: real)
    ensures Grows(jobs, Finalized(jobs, result, when).0)
  {
  }

  lemma GrowsTransitive(a: Jobs, b: Jobs, c: Jobs)
    requires Grows(a, b) && Grows(b, c)
    ensures Grows(a, c)
  {
    forall id | id in a
      ensures id in c && (a[id].status.Terminal? ==> c[id] == a[id])
    {
      assert id in b;
    }
  }

  /** The rows after these attempts to finalize, in order, and what each attempt was told. */
  function FinalizedAll(jobs: Jobs, attempts: seq<(Result, real)>): (r: (Jobs, seq<bool>))
    ensures |r.1| == |attempts|
  {
    if attempts == [] then (jobs, [])
    else
      var before := FinalizedAll(jobs, attempts[..|attempts| - 1]);
      var (after, won) := Finalized(before.0, attempts[|attempts| - 1].0, attempts[|attempts| - 1].1);
      (after, before.1 + [won])
  }

  /** However often a pending job is finalized, the first result stands and only the first attempt is told it won. */
  lemma {:induction false} FirstResultWins(jobs: Jobs, id: JobId, attempts: seq<(Result, real)>)
    requires id in jobs && jobs[id].status.Pending? && attempts != []
    requires forall k :: 0 <= k < |attempts| ==> attempts[k].0.id == id
    ensures var r := FinalizedAll(jobs, attempts);
            && r.0 == jobs[id := Completed(jobs[id], attempts[0].0, attempts[0].1)]
            && forall k :: 0 <= k < |attempts| ==> (r.1[k] <==> k == 0)
  {
    if |attempts| == 1 {
      assert FinalizedAll(jobs, attempts[..0]) == (jobs, []);
    } else {
      FirstResultWins(jobs, id, attempts[..|attempts| - 1]);
    }
  }
}
