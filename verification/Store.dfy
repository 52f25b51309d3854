/** The results store (src/llmbus/store.py:215-461): each committing method is one atomic step. */
module Stores {
  import opened Prelude
  import opened Schema
  import opened Tables
  import opened Sorting
  import opened Ledger

  class Store {
    var jobs: Jobs
    var policies: Policies

    constructor ()
      ensures jobs == map[] && policies == map[]
    {
      jobs, policies := map[], map[];
    }

    /** Whether this call inserted the row; a duplicate job id changes nothing. */
    method InsertPending(job: Job) returns (inserted: Outcome<bool>)
      modifies this`jobs
      ensures (jobs, inserted) == Inserted(old(jobs), job)
      ensures Grows(old(jobs), jobs)
    {
      if job.model.None? {
        return Raised(NullModel);
      }
      if job.id in jobs {
        return Returned(false);
      }
      jobs := jobs[job.id := PendingRow(job, job.model.value)];
      return Returned(true);
    }

    /** Whether this call finished the job. */
    method Finalize(result: Result, when: real) returns (won: bool)
      modifies this`jobs
      ensures (jobs, won) == Finalized(old(jobs), result, when)
      ensures Grows(old(jobs), jobs)
    {
      won := result.id in jobs && jobs[result.id].status.Pending?;
      if won {
        jobs := jobs[result.id := Completed(jobs[result.id], result, when)];
      }
    }

    method Get(id: JobId) returns (row: Option<Row>)
      ensures row == if id in jobs then Some(jobs[id]) else None
    {
      row := if id in jobs then Some(jobs[id]) else None;
    }

    method PendingCount() returns (n: nat)
      ensures n == |set id | id in jobs && jobs[id].status.Pending?|
    {
      n := 0;
      var left := jobs.Keys;
      ghost var pending: set<JobId> := {};
      while left != {}
        invariant left <= jobs.Keys
        invariant pending == (set id | id in jobs && id !in left && jobs[id].status.Pending?)
        invariant n == |pending|
        decreases |left|
      {
        var id :| id in left;
        left := left - {id};
        if jobs[id].status.Pending? {
          n := n + 1;
          pending := pending + {id};
        }
      }
      assert pending == set id | id in jobs && jobs[id].status.Pending?;
    }

    method SetModelPolicy(project: string, kind: string, model: string)
      modifies this`policies
      ensures policies == old(policies)[(project, kind) := model]
    {
      policies := policies[(project, kind) := model];
    }

    method ModelPolicy(project: string, kind: string) returns (model: Option<string>)
      ensures model == if (project, kind) in policies then Some(policies[(project, kind)]) else None
    {
      model := if (project, kind) in policies then Some(policies[(project, kind)]) else None;
    }

    /** The grouping of the query: one total per project and day that has a row. */
    method GroupTotals() returns (totals: map<(string, Day), real>)
      ensures Totals(jobs, totals, jobs.Keys)
    {
      hide Totals;
      totals := map[];
      var left := jobs.Keys;
      NoTotals(jobs);
      assert jobs.Keys - left == {};
      while left != {}
        invariant left <= jobs.Keys && Totals(jobs, totals, jobs.Keys - left)
        decreases |left|
      {
        var id :| id in left;
        var key := (jobs[id].project, jobs[id].submittedAt.day);
        TotalsStep(jobs, totals, jobs.Keys - left, id);
        totals := totals[key := (if key in totals then totals[key] else 0.0) + jobs[id].usage.cost];
        assert jobs.Keys - (left - {id}) == jobs.Keys - left + {id};
        left := left - {id};
      }
      assert jobs.Keys - left == jobs.Keys;
    }

    /** Spend per project and day: groups that cost nothing are dropped, the rest come in order. */
    method CostByProjectDay() returns (rows: seq<ProjectDayCost>)
      ensures IsLedger(jobs, rows)
    {
      var totals := GroupTotals();
      rows := [];
      var left := totals.Keys;
      BeforeIsStrict();
      while left != {}
        invariant left <= totals.Keys
        invariant Sorted(Before, rows)
        invariant forall r :: r in rows <==>
                    && (r.project, r.day) in totals.Keys - left
                    && r.cost == totals[(r.project, r.day)] && r.cost > 0.0
        decreases |left|
      {
        var key :| key in left;
        left := left - {key};
        if totals[key] > 0.0 {
          var row := ProjectDayCost(key.0, key.1, totals[key]);
          InsertSorted(Before, row, rows);
          InsertMembers(Before, row, rows);
          rows := Insert(Before, row, rows);
        }
      }
      forall project, day
        ensures TotalOf(totals, project, day) == SumOver(jobs, Group(jobs, project, day))
      {
        assert Group(jobs, project, day) * jobs.Keys == Group(jobs, project, day);
      }
      forall r | r in rows
        ensures r.cost == SumOver(jobs, Group(jobs, r.project, r.day))
      {
        assert r.cost == TotalOf(totals, r.project, r.day);
      }
      forall project, day | SumOver(jobs, Group(jobs, project, day)) > 0.0
        ensures exists r :: r in rows && r.project == project && r.day == day
      {
        assert TotalOf(totals, project, day) > 0.0;
        assert ProjectDayCost(project, day, totals[(project, day)]) in rows;
      }
    }
  }
}
