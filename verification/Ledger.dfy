/** The cost ledger: what is spent per project and day (src/llmbus/store.py:336-356). */
module Ledger {
  import opened Schema
  import opened Tables
  import opened Sorting

  /** One line of the ledger. */
  datatype ProjectDayCost = ProjectDayCost(project: string, day: Day, cost: real)

  /** What a set of rows has cost. */
  ghost function SumOver(jobs: Jobs, ids: set<JobId>): real
    requires ids <= jobs.Keys
  {
    if ids == {} then 0.0
    else
      var id :| id in ids;
      jobs[id].usage.cost + SumOver(jobs, ids - {id})
  }

  /** Any row can be taken out of a sum. */
  lemma {:induction false} SumWithout(jobs: Jobs, ids: set<JobId>, id: JobId)
    requires ids <= jobs.Keys && id in ids
    ensures SumOver(jobs, ids) == jobs[id].usage.cost + SumOver(jobs, ids - {id})
    decreases ids
  {
    var picked :| picked in ids && SumOver(jobs, ids) == jobs[picked].usage.cost + SumOver(jobs, ids - {picked});
    if picked != id {
      SumWithout(jobs, ids - {picked}, id);
      SumWithout(jobs, ids - {id}, picked);
      assert ids - {picked} - {id} == ids - {id} - {picked};
    }
  }

  lemma SumWith(jobs: Jobs, ids: set<JobId>, id: JobId)
    requires ids <= jobs.Keys && id in jobs && id !in ids
    ensures SumOver(jobs, ids + {id}) == SumOver(jobs, ids) + jobs[id].usage.cost
  {
    SumWithout(jobs, ids + {id}, id);
    assert ids + {id} - {id} == ids;
  }

  lemma {:induction false} SumUnion(jobs: Jobs, a: set<JobId>, b: set<JobId>)
    requires a <= jobs.Keys && b <= jobs.Keys && a !! b
    ensures SumOver(jobs, a + b) == SumOver(jobs, a) + SumOver(jobs, b)
    decreases b
  {
    if b == {} {
      assert a + b == a;
    } else {
      var id :| id in b;
      SumUnion(jobs, a, b - {id});
      SumWith(jobs, a + (b - {id}), id);
      SumWith(jobs, b - {id}, id);
      assert a + (b - {id}) + {id} == a + b;
      assert b - {id} + {id} == b;
    }
  }

  /** Two tables that agree on the cost of some rows sum them alike. */
  lemma {:induction false} SumAgrees(a: Jobs, b: Jobs, ids: set<JobId>)
    requires ids <= a.Keys && ids <= b.Keys
    requires forall id :: id in ids ==> a[id].usage.cost == b[id].usage.cost
    ensures SumOver(a, ids) == SumOver(b, ids)
    decreases ids
  {
    if ids != {} {
      var id :| id in ids;
      SumWithout(a, ids, id);
      SumWithout(b, ids, id);
      SumAgrees(a, b, ids - {id});
    }
  }

  ghost predicate NonNegative(jobs: Jobs) {
    forall id :: id in jobs ==> jobs[id].usage.cost >= 0.0
  }

  lemma {:induction false} SumAtLeastEach(jobs: Jobs, ids: set<JobId>)
    requires ids <= jobs.Keys && NonNegative(jobs)
    ensures SumOver(jobs, ids) >= 0.0
    ensures forall id :: id in ids ==> jobs[id].usage.cost <= SumOver(jobs, ids)
    decreases ids
  {
    if ids != {} {
      forall id | id in ids
        ensures 0.0 <= jobs[id].usage.cost <= SumOver(jobs, ids)
      {
        SumWithout(jobs, ids, id);
        SumAtLeastEach(jobs, ids - {id});
      }
    }
  }

  lemma {:induction false} SumOfFree(jobs: Jobs, ids: set<JobId>)
    requires ids <= jobs.Keys && forall id :: id in ids ==> jobs[id].usage.cost == 0.0
    ensures SumOver(jobs, ids) == 0.0
    decreases ids
  {
    if ids != {} {
      var id :| id in ids;
      SumWithout(jobs, ids, id);
      SumOfFree(jobs, ids - {id});
    }
  }

  // ----- the query -----

  /** Everything the store says has been spent. */
  ghost function TotalCost(jobs: Jobs): real {
    SumOver(jobs, jobs.Keys)
  }

  /** The rows of one project on one day. */
  function Group(jobs: Jobs, project: string, day: Day): set<JobId> {
    set id | id in jobs && jobs[id].project == project && jobs[id].submittedAt.day == day
  }

  /** Ledger order: by day, then by project. */
  predicate Before(a: ProjectDayCost, b: ProjectDayCost) {
    a.day < b.day || (a.day == b.day && StringLess(a.project, b.project))
  }

  predicate SameGroup(a: ProjectDayCost, b: ProjectDayCost) {
    a.project == b.project && a.day == b.day
  }

  /** What the query answers: each group that cost something, once, with its sum, in order. */
  ghost predicate IsLedger(jobs: Jobs, rows: seq<ProjectDayCost>) {
    && Sorted(Before, rows)
    && (forall r :: r in rows ==> r.cost == SumOver(jobs, Group(jobs, r.project, r.day)) && r.cost > 0.0)
    && (forall project, day :: SumOver(jobs, Group(jobs, project, day)) > 0.0 ==>
          exists r :: r in rows && r.project == project && r.day == day)
  }

  lemma BeforeIsStrict()
    ensures StrictOrder(Before)
    ensures forall a, b :: Before(a, b) || Before(b, a) || SameGroup(a, b)
    ensures forall a, b :: Before(a, b) ==> !SameGroup(a, b)
  {
    forall a: ProjectDayCost
      ensures !Before(a, a)
    {
      StringIrreflexive(a.project);
    }
    forall a, b, c | Before(a, b) && Before(b, c)
      ensures Before(a, c)
    {
      if StringLess(a.project, b.project) && StringLess(b.project, c.project) {
        StringTransitive(a.project, b.project, c.project);
      }
    }
    forall a: ProjectDayCost, b: ProjectDayCost
      ensures Before(a, b) || Before(b, a) || SameGroup(a, b)
      ensures Before(a, b) ==> !SameGroup(a, b)
    {
      StringConnected(a.project, b.project);
      StringIrreflexive(a.project);
    }
  }

  lemma LedgerLists(jobs: Jobs, rows: seq<ProjectDayCost>, r: ProjectDayCost)
    requires IsLedger(jobs, rows)
    requires r.cost == SumOver(jobs, Group(jobs, r.project, r.day)) && r.cost > 0.0
    ensures r in rows
  {
    var s :| s in rows && s.project == r.project && s.day == r.day;
  }

  /** Days never decrease down the ledger, and within a day the projects come in name order, each once. */
  lemma LedgerInOrder(jobs: Jobs, rows: seq<ProjectDayCost>, i: nat, j: nat)
    requires IsLedger(jobs, rows) && i < j < |rows|
    ensures rows[i].day <= rows[j].day
    ensures rows[i].day == rows[j].day ==>
              rows[i].project != rows[j].project && StringLess(rows[i].project, rows[j].project)
  {
    hide StringLess;
    assert Before(rows[i], rows[j]);
    StringIrreflexive(rows[i].project);
  }

  /** The query has one answer. */
  lemma LedgerUnique(jobs: Jobs, a: seq<ProjectDayCost>, b: seq<ProjectDayCost>)
    requires IsLedger(jobs, a) && IsLedger(jobs, b)
    ensures a == b
  {
    BeforeIsStrict();
    forall r
      ensures r in a <==> r in b
    {
      if r in a {
        LedgerLists(jobs, b, r);
      }
      if r in b {
        LedgerLists(jobs, a, r);
      }
    }
    SortedUnique(Before, a, b);
  }

  /** The totals per group over a set of rows that have been read. */
  ghost predicate Totals(jobs: Jobs, totals: map<(string, Day), real>, done: set<JobId>) {
    && done <= jobs.Keys
    && forall project, day :: TotalOf(totals, project, day) == SumOver(jobs, Group(jobs, project, day) * done)
  }

  function TotalOf(totals: map<(string, Day), real>, project: string, day: Day): real {
    if (project, day) in totals then totals[(project, day)] else 0.0
  }

  lemma NoTotals(jobs: Jobs)
    ensures Totals(jobs, map[], {})
  {
    forall project, day
      ensures SumOver(jobs, Group(jobs, project, day) * {}) == 0.0
    {
      assert Group(jobs, project, day) * {} == {};
    }
  }

  lemma TotalsStep(jobs: Jobs, totals: map<(string, Day), real>, done: set<JobId>, id: JobId)
    requires Totals(jobs, totals, done) && id in jobs && id !in done
    ensures var key := (jobs[id].project, jobs[id].submittedAt.day);
            Totals(jobs, totals[key := (if key in totals then totals[key] else 0.0) + jobs[id].usage.cost], done + {id})
  {
    var key := (jobs[id].project, jobs[id].submittedAt.day);
    var after := totals[key := (if key in totals then totals[key] else 0.0) + jobs[id].usage.cost];
    forall project, day
      ensures TotalOf(after, project, day) == SumOver(jobs, Group(jobs, project, day) * (done + {id}))
    {
      var read := Group(jobs, project, day) * done;
      assert TotalOf(totals, project, day) == SumOver(jobs, read);
      if (project, day) == key {
        SumWith(jobs, read, id);
        assert Group(jobs, project, day) * (done + {id}) == read + {id};
      } else {
        assert Group(jobs, project, day) * (done + {id}) == read;
      }
    }
  }

  // ----- conservation -----

  function SumRows(rows: seq<ProjectDayCost>): real {
    if rows == [] then 0.0 else SumRows(rows[..|rows| - 1]) + rows[|rows| - 1].cost
  }

  /** The rows of the table that some line accounts for. */
  function Covered(jobs: Jobs, rows: seq<ProjectDayCost>): set<JobId> {
    if rows == [] then {}
    else
      Covered(jobs, rows[..|rows| - 1]) + Group(jobs, rows[|rows| - 1].project, rows[|rows| - 1].day)
  }

  lemma {:induction false} CoveredBy(jobs: Jobs, rows: seq<ProjectDayCost>)
    ensures forall id :: id in Covered(jobs, rows) <==>
              id in jobs && exists r :: r in rows && r.project == jobs[id].project && r.day == jobs[id].submittedAt.day
  {
    if rows != [] {
      var init, last := rows[..|rows| - 1], rows[|rows| - 1];
      CoveredBy(jobs, init);
      assert rows == init + [last];
    }
  }

  /** In ledger order, the last line's group is not covered by the lines before it. */
  lemma LastIsApart(jobs: Jobs, init: seq<ProjectDayCost>, last: ProjectDayCost)
    requires Sorted(Before, init + [last])
    ensures Covered(jobs, init) !! Group(jobs, last.project, last.day)
  {
    var rows := init + [last];
    CoveredBy(jobs, init);
    BeforeIsStrict();
    forall r | r in init
      ensures !SameGroup(r, last)
    {
      var i :| 0 <= i < |init| && init[i] == r;
      assert Before(rows[i], rows[|init|]);
    }
  }

  lemma SortedInit(init: seq<ProjectDayCost>, last: ProjectDayCost)
    requires Sorted(Before, init + [last])
    ensures Sorted(Before, init)
  {
    hide Before;
    forall i, j | 0 <= i < j < |init|
      ensures Before(init[i], init[j])
    {
      assert Before((init + [last])[i], (init + [last])[j]);
    }
  }

  lemma {:induction false} CoveredSum(jobs: Jobs, rows: seq<ProjectDayCost>)
    requires Sorted(Before, rows)
    requires forall r :: r in rows ==> r.cost == SumOver(jobs, Group(jobs, r.project, r.day))
    ensures Covered(jobs, rows) <= jobs.Keys
    ensures SumOver(jobs, Covered(jobs, rows)) == SumRows(rows)
  {
    hide Before, Sorted, SumOver, Group;
    if rows == [] {
      NothingSummed(jobs);
    } else {
      var init, last := rows[..|rows| - 1], rows[|rows| - 1];
      assert rows == init + [last];
      assert forall r :: r in init ==> r in rows;
      SortedInit(init, last);
      CoveredSum(jobs, init);
      LastIsApart(jobs, init, last);
      GroupIsKnown(jobs, last.project, last.day);
      SumUnion(jobs, Covered(jobs, init), Group(jobs, last.project, last.day));
    }
  }

  lemma NothingSummed(jobs: Jobs)
    ensures SumOver(jobs, {}) == 0.0
  {
  }

  lemma GroupIsKnown(jobs: Jobs, project: string, day: Day)
    ensures Group(jobs, project, day) <= jobs.Keys
  {
  }

  /** The ledger accounts for every dollar in the store: the groups it drops are worth nothing. */
  lemma LedgerConserves(jobs: Jobs, rows: seq<ProjectDayCost>)
    requires IsLedger(jobs, rows) && NonNegative(jobs)
    ensures SumRows(rows) == TotalCost(jobs)
    ensures forall id :: id in jobs && id !in Covered(jobs, rows) ==> jobs[id].usage.cost == 0.0
  {
    CoveredSum(jobs, rows);
    CoveredBy(jobs, rows);
    var covered := Covered(jobs, rows);
    var dropped := jobs.Keys - covered;
    forall id | id in dropped
      ensures jobs[id].usage.cost == 0.0
    {
      SumAtLeastEach(jobs, Group(jobs, jobs[id].project, jobs[id].submittedAt.day));
    }
    SumOfFree(jobs, dropped);
    SumUnion(jobs, covered, dropped);
    assert covered + dropped == jobs.Keys;
  }
}
