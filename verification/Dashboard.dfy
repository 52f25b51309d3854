/** The ledger reduced to totals (src/llmbus/dashboard.py:111-139). */
module Dashboard {
  import opened Schema
  import opened Sorting
  import opened Ledger

  /** The attribute that a reduction groups by, and its values. */
  datatype Attribute = ByProject | ByDay

  datatype Key = ProjectKey(project: string) | DayKey(day: Day)

  function KeyOf(row: ProjectDayCost, attribute: Attribute): Key {
    match attribute
    case ByProject => ProjectKey(row.project)
    case ByDay => DayKey(row.day)
  }

  predicate KeyLess(a: Key, b: Key) {
    match (a, b)
    case (ProjectKey(p), ProjectKey(q)) => StringLess(p, q)
    case (DayKey(d), DayKey(e)) => d < e
    case (ProjectKey(_), DayKey(_)) => true
    case (DayKey(_), ProjectKey(_)) => false
  }

  datatype Total = Total(key: Key, amount: real)

  /** Most spend first; equal spend in name order. */
  predicate SpendsMore(a: Total, b: Total) {
    a.amount > b.amount || (a.amount == b.amount && KeyLess(a.key, b.key))
  }

  predicate Earlier(a: Total, b: Total) {
    KeyLess(a.key, b.key)
  }

  datatype CostSummary = CostSummary(
    rows: seq<ProjectDayCost>,
    byProject: seq<Total>,
    byDay: seq<Total>,
    grandTotal: real)

  /** What the rows with one value of an attribute add up to. */
  function KeySum(rows: seq<ProjectDayCost>, attribute: Attribute, key: Key): real {
    if rows == [] then 0.0
    else
      var last := rows[|rows| - 1];
      KeySum(rows[..|rows| - 1], attribute, key) + if KeyOf(last, attribute) == key then last.cost else 0.0
  }

  function Keys(rows: seq<ProjectDayCost>, attribute: Attribute): set<Key> {
    set r | r in rows :: KeyOf(r, attribute)
  }

  /** Each value of the attribute once, with the exact sum of its rows. */
  ghost predicate AreTotals(rows: seq<ProjectDayCost>, attribute: Attribute, totals: seq<Total>) {
    && (forall t :: t in totals ==> t.key in Keys(rows, attribute) && t.amount == KeySum(rows, attribute, t.key))
    && (forall key :: key in Keys(rows, attribute) ==> Total(key, KeySum(rows, attribute, key)) in totals)
  }

  ghost predicate IsSummary(rows: seq<ProjectDayCost>, s: CostSummary) {
    && AreTotals(rows, ByProject, s.byProject) && Sorted(SpendsMore, s.byProject)
    && AreTotals(rows, ByDay, s.byDay) && Sorted(Earlier, s.byDay)
    && s.grandTotal == SumRows(rows)
    && s.rows == rows
  }

  lemma KeysAreOrdered()
    ensures forall a :: !KeyLess(a, a)
    ensures forall a, b, c :: KeyLess(a, b) && KeyLess(b, c) ==> KeyLess(a, c)
    ensures forall a, b :: a == b || KeyLess(a, b) || KeyLess(b, a)
  {
    forall a
      ensures !KeyLess(a, a)
    {
      if a.ProjectKey? {
        StringIrreflexive(a.project);
      }
    }
    forall a, b, c | KeyLess(a, b) && KeyLess(b, c)
      ensures KeyLess(a, c)
    {
      if a.ProjectKey? && b.ProjectKey? && c.ProjectKey? {
        StringTransitive(a.project, b.project, c.project);
      }
    }
    forall a, b
      ensures a == b || KeyLess(a, b) || KeyLess(b, a)
    {
      if a.ProjectKey? && b.ProjectKey? {
        StringConnected(a.project, b.project);
      }
    }
  }

  lemma TotalsAreOrdered()
    ensures StrictOrder(SpendsMore) && StrictOrder(Earlier)
    ensures forall a, b :: a == b || SpendsMore(a, b) || SpendsMore(b, a)
    ensures forall a: Total, b: Total :: a.key == b.key || Earlier(a, b) || Earlier(b, a)
  {
    KeysAreOrdered();
    hide KeyLess;
  }

  // ----- the reduction -----

  /** Totals per distinct value of the attribute, accumulated row by row. */
  method SumBy(rows: seq<ProjectDayCost>, attribute: Attribute) returns (totals: map<Key, real>)
    ensures totals.Keys == Keys(rows, attribute)
    ensures forall key :: key in totals ==> totals[key] == KeySum(rows, attribute, key)
  {
    totals := map[];
    for i := 0 to |rows|
      invariant totals.Keys == Keys(rows[..i], attribute)
      invariant forall key :: KeySum(rows[..i], attribute, key) == if key in totals then totals[key] else 0.0
    {
      var key := KeyOf(rows[i], attribute);
      assert rows[..i + 1] == rows[..i] + [rows[i]];
      forall k {
        KeySumSnoc(rows[..i], rows[i], attribute, k);
      }
      hide KeySum;
      totals := totals[key := (if key in totals then totals[key] else 0.0) + rows[i].cost];
    }
    assert rows[..|rows|] == rows;
  }

  /** The entries of a map as totals, in one of the two orders. */
  method SortTotals(totals: map<Key, real>, bySpend: bool) returns (sorted: seq<Total>)
    ensures forall t :: t in sorted <==> t.key in totals && t.amount == totals[t.key]
    ensures if bySpend then Sorted(SpendsMore, sorted) else Sorted(Earlier, sorted)
  {
    TotalsAreOrdered();
    var less := if bySpend then SpendsMore else Earlier;
    sorted := [];
    var left := totals.Keys;
    while left != {}
      invariant left <= totals.Keys
      invariant forall t :: t in sorted <==> t.key in totals.Keys - left && t.amount == totals[t.key]
      invariant Sorted(less, sorted)
      decreases |left|
    {
      var key :| key in left;
      var total := Total(key, totals[key]);
      InsertSorted(less, total, sorted);
      InsertMembers(less, total, sorted);
      sorted := Insert(less, total, sorted);
      left := left - {key};
    }
  }

  method Summarize(rows: seq<ProjectDayCost>) returns (summary: CostSummary)
    ensures IsSummary(rows, summary)
  {
    var perProject := SumBy(rows, ByProject);
    var perDay := SumBy(rows, ByDay);
    var byProject := SortTotals(perProject, true);
    var byDay := SortTotals(perDay, false);
    var grandTotal := 0.0;
    for i := 0 to |byProject|
      invariant grandTotal == SumTotals(byProject[..i])
    {
      assert byProject[..i + 1][..i] == byProject[..i];
      grandTotal := grandTotal + byProject[i].amount;
    }
    assert byProject[..|byProject|] == byProject;
    assert AreTotals(rows, ByProject, byProject);
    TotalsAreOrdered();
    TotalsConserve(rows, ByProject, SpendsMore, byProject);
    summary := CostSummary(rows, byProject, byDay, grandTotal);
  }

  // ----- conservation -----

  function SumTotals(totals: seq<Total>): real {
    if totals == [] then 0.0 else SumTotals(totals[..|totals| - 1]) + totals[|totals| - 1].amount
  }

  /** What the rows add up to over a sequence of keys. */
  function SumOfKeys(keys: seq<Total>, rows: seq<ProjectDayCost>, attribute: Attribute): real {
    if keys == [] then 0.0
    else
      SumOfKeys(keys[..|keys| - 1], rows, attribute) + KeySum(rows, attribute, keys[|keys| - 1].key)
  }

  ghost predicate DistinctKeys(totals: seq<Total>) {
    forall i, j :: 0 <= i < j < |totals| ==> totals[i].key != totals[j].key
  }

  /** A row counts once for its own key and for no other. */
  lemma {:induction false} OneMoreRow(keys: seq<Total>, rows: seq<ProjectDayCost>, attribute: Attribute)
    requires DistinctKeys(keys) && rows != []
    ensures var init, last := rows[..|rows| - 1], rows[|rows| - 1];
            SumOfKeys(keys, rows, attribute)
            == SumOfKeys(keys, init, attribute)
             + if exists t :: t in keys && t.key == KeyOf(last, attribute) then last.cost else 0.0
  {
    if keys != [] {
      var front, total := keys[..|keys| - 1], keys[|keys| - 1];
      OneMoreRow(front, rows, attribute);
      assert keys == front + [total];
    }
  }

  lemma {:induction false} KeysCoverRows(keys: seq<Total>, rows: seq<ProjectDayCost>, attribute: Attribute)
    requires DistinctKeys(keys)
    requires forall key :: key in Keys(rows, attribute) ==> exists t :: t in keys && t.key == key
    ensures SumOfKeys(keys, rows, attribute) == SumRows(rows)
  {
    if rows == [] {
      NothingToSum(keys, attribute);
    } else {
      var init, last := rows[..|rows| - 1], rows[|rows| - 1];
      assert rows == init + [last];
      assert last in rows && KeyOf(last, attribute) in Keys(rows, attribute);
      assert Keys(init, attribute) <= Keys(rows, attribute);
      KeysCoverRows(keys, init, attribute);
      OneMoreRow(keys, rows, attribute);
    }
  }

  lemma {:induction false} NothingToSum(keys: seq<Total>, attribute: Attribute)
    ensures SumOfKeys(keys, [], attribute) == 0.0
  {
    if keys != [] {
      NothingToSum(keys[..|keys| - 1], attribute);
    }
  }

  lemma {:induction false} TotalsAreKeySums(totals: seq<Total>, rows: seq<ProjectDayCost>, attribute: Attribute)
    requires forall t :: t in totals ==> t.amount == KeySum(rows, attribute, t.key)
    ensures SumTotals(totals) == SumOfKeys(totals, rows, attribute)
  {
    if totals != [] {
      TotalsAreKeySums(totals[..|totals| - 1], rows, attribute);
    }
  }

  lemma TotalsAreDistinct(rows: seq<ProjectDayCost>, attribute: Attribute, less: (Total, Total) -> bool,
                          totals: seq<Total>)
    requires AreTotals(rows, attribute, totals) && Sorted(less, totals) && StrictOrder(less)
    ensures DistinctKeys(totals)
  {
    forall i, j | 0 <= i < j < |totals|
      ensures totals[i].key != totals[j].key
    {
      assert totals[i] in totals && totals[j] in totals && less(totals[i], totals[j]);
    }
  }

  /** Regrouping moves no money: the totals add up to the rows. */
  lemma TotalsConserve(rows: seq<ProjectDayCost>, attribute: Attribute, less: (Total, Total) -> bool,
                       totals: seq<Total>)
    requires AreTotals(rows, attribute, totals) && Sorted(less, totals) && StrictOrder(less)
    ensures SumTotals(totals) == SumRows(rows)
  {
    TotalsAreDistinct(rows, attribute, less, totals);
    TotalsAreKeySums(totals, rows, attribute);
    KeysCoverRows(totals, rows, attribute);
  }

  /** The three figures of a summary agree, and keys are listed once. */
  lemma SummaryConserves(rows: seq<ProjectDayCost>, s: CostSummary)
    requires IsSummary(rows, s)
    ensures SumTotals(s.byProject) == s.grandTotal == SumTotals(s.byDay)
    ensures DistinctKeys(s.byProject) && DistinctKeys(s.byDay)
  {
    TotalsAreOrdered();
    TotalsAreDistinct(rows, ByProject, SpendsMore, s.byProject);
    TotalsAreDistinct(rows, ByDay, Earlier, s.byDay);
    TotalsConserve(rows, ByProject, SpendsMore, s.byProject);
    TotalsConserve(rows, ByDay, Earlier, s.byDay);
  }

  // ----- in plain words -----

  function ProjectCost(rows: seq<ProjectDayCost>, project: string): real {
    if rows == [] then 0.0
    else
      ProjectCost(rows[..|rows| - 1], project)
      + if rows[|rows| - 1].project == project then rows[|rows| - 1].cost else 0.0
  }

  function DayCost(rows: seq<ProjectDayCost>, day: Day): real {
    if rows == [] then 0.0
    else DayCost(rows[..|rows| - 1], day) + if rows[|rows| - 1].day == day then rows[|rows| - 1].cost else 0.0
  }

  lemma {:induction false} KeySumsInWords(rows: seq<ProjectDayCost>, project: string, day: Day)
    ensures KeySum(rows, ByProject, ProjectKey(project)) == ProjectCost(rows, project)
    ensures KeySum(rows, ByDay, DayKey(day)) == DayCost(rows, day)
  {
    if rows != [] {
      KeySumsInWords(rows[..|rows| - 1], project, day);
    }
  }

  lemma ProjectsInWords(rows: seq<ProjectDayCost>, totals: seq<Total>)
    requires AreTotals(rows, ByProject, totals)
    ensures forall t :: t in totals <==>
              exists r :: r in rows && t == Total(ProjectKey(r.project), ProjectCost(rows, r.project))
  {
    hide KeySum, ProjectCost;
    forall r | r in rows
      ensures Total(ProjectKey(r.project), ProjectCost(rows, r.project)) in totals
    {
      KeySumsInWords(rows, r.project, 0);
      assert KeyOf(r, ByProject) in Keys(rows, ByProject);
    }
    forall t | t in totals
      ensures exists r :: r in rows && t == Total(ProjectKey(r.project), ProjectCost(rows, r.project))
    {
      var r :| r in rows && KeyOf(r, ByProject) == t.key;
      KeySumsInWords(rows, r.project, 0);
    }
  }

  lemma DaysInWords(rows: seq<ProjectDayCost>, totals: seq<Total>)
    requires AreTotals(rows, ByDay, totals)
    ensures forall t :: t in totals <==> exists r :: r in rows && t == Total(DayKey(r.day), DayCost(rows, r.day))
  {
    hide KeySum, DayCost;
    forall r | r in rows
      ensures Total(DayKey(r.day), DayCost(rows, r.day)) in totals
    {
      KeySumsInWords(rows, "", r.day);
      assert KeyOf(r, ByDay) in Keys(rows, ByDay);
    }
    forall t | t in totals
      ensures exists r :: r in rows && t == Total(DayKey(r.day), DayCost(rows, r.day))
    {
      var r :| r in rows && KeyOf(r, ByDay) == t.key;
      KeySumsInWords(rows, "", r.day);
    }
  }

  /** Each total by project is of one project of the rows and is what its rows cost, each total by day likewise. */
  lemma SummaryInWords(rows: seq<ProjectDayCost>, s: CostSummary)
    requires IsSummary(rows, s)
    ensures forall t :: t in s.byProject <==>
              exists r :: r in rows && t == Total(ProjectKey(r.project), ProjectCost(rows, r.project))
    ensures forall t :: t in s.byDay <==> exists r :: r in rows && t == Total(DayKey(r.day), DayCost(rows, r.day))
  {
    hide AreTotals, ProjectCost, DayCost, SpendsMore, Earlier;
    ProjectsInWords(rows, s.byProject);
    DaysInWords(rows, s.byDay);
  }

  /** The totals by project never increase, equal ones come in name order, and days strictly increase. */
  lemma SummaryInOrder(rows: seq<ProjectDayCost>, s: CostSummary, i: nat, j: nat)
    requires IsSummary(rows, s) && i < j
    ensures j < |s.byProject| ==>
              var a, b := s.byProject[i], s.byProject[j];
              && a.key.ProjectKey? && b.key.ProjectKey? && a.amount >= b.amount
              && (a.amount == b.amount ==> StringLess(a.key.project, b.key.project))
    ensures j < |s.byDay| ==>
              s.byDay[i].key.DayKey? && s.byDay[j].key.DayKey? && s.byDay[i].key.day < s.byDay[j].key.day
  {
    hide StringLess;
    SummaryInWords(rows, s);
    if j < |s.byProject| {
      assert s.byProject[i] in s.byProject && s.byProject[j] in s.byProject;
      assert SpendsMore(s.byProject[i], s.byProject[j]);
    }
    if j < |s.byDay| {
      assert s.byDay[i] in s.byDay && s.byDay[j] in s.byDay;
      assert Earlier(s.byDay[i], s.byDay[j]);
    }
  }

  // ----- order does not matter -----

  function Without(rows: seq<ProjectDayCost>, i: nat): seq<ProjectDayCost>
    requires i < |rows|
  {
    rows[..i] + rows[i + 1..]
  }

  lemma WithoutLast(rows: seq<ProjectDayCost>, i: nat)
    requires i < |rows|
    ensures i == |rows| - 1 ==> Without(rows, i) == rows[..i]
    ensures i < |rows| - 1 ==> Without(rows, i) == Without(rows[..|rows| - 1], i) + [rows[|rows| - 1]]
  {
  }

  lemma KeySumSnoc(rows: seq<ProjectDayCost>, last: ProjectDayCost, attribute: Attribute, key: Key)
    ensures KeySum(rows + [last], attribute, key)
         == KeySum(rows, attribute, key) + if KeyOf(last, attribute) == key then last.cost else 0.0
    ensures SumRows(rows + [last]) == SumRows(rows) + last.cost
  {
    assert (rows + [last])[..|rows|] == rows;
  }

  lemma {:induction false} KeySumWithout(rows: seq<ProjectDayCost>, attribute: Attribute, key: Key, i: nat)
    requires i < |rows|
    ensures KeySum(rows, attribute, key)
         == KeySum(Without(rows, i), attribute, key) + if KeyOf(rows[i], attribute) == key then rows[i].cost else 0.0
    ensures SumRows(rows) == SumRows(Without(rows, i)) + rows[i].cost
  {
    hide Without, KeySum, SumRows;
    var init, last := rows[..|rows| - 1], rows[|rows| - 1];
    assert rows == init + [last];
    KeySumSnoc(init, last, attribute, key);
    WithoutLast(rows, i);
    if i < |rows| - 1 {
      KeySumWithout(init, attribute, key, i);
      KeySumSnoc(Without(init, i), last, attribute, key);
    }
  }

  lemma {:induction false} SameRowsSameSums(a: seq<ProjectDayCost>, b: seq<ProjectDayCost>,
                                            attribute: Attribute, key: Key)
    requires multiset(a) == multiset(b)
    ensures KeySum(a, attribute, key) == KeySum(b, attribute, key) && SumRows(a) == SumRows(b)
  {
    assert |a| == |multiset(a)| == |multiset(b)| == |b|;
    if b != [] {
      var init, last := b[..|b| - 1], b[|b| - 1];
      var i := TakeOut(a, b);
      KeySumWithout(a, attribute, key, i);
      SameRowsSameSums(Without(a, i), init, attribute, key);
    }
  }

  /** The last row of one sequence can be taken out of the other. */
  lemma TakeOut(a: seq<ProjectDayCost>, b: seq<ProjectDayCost>) returns (i: nat)
    requires multiset(a) == multiset(b) && b != []
    ensures i < |a| && a[i] == b[|b| - 1]
    ensures multiset(Without(a, i)) == multiset(b[..|b| - 1])
  {
    var init, last := b[..|b| - 1], b[|b| - 1];
    assert b == init + [last];
    assert last in multiset(a);
    i :| 0 <= i < |a| && a[i] == last;
    assert a == a[..i] + [a[i]] + a[i + 1..];
    calc {
      multiset(Without(a, i));
      multiset(a[..i]) + multiset(a[i + 1..]);
      multiset(a) - multiset{last};
      multiset(b) - multiset{last};
      multiset(init);
    }
  }

  /** The totals of a summary depend on which rows there are, not on their order. */
  lemma CanonicalSummary(a: seq<ProjectDayCost>, s: CostSummary, b: seq<ProjectDayCost>, t: CostSummary)
    requires IsSummary(a, s) && IsSummary(b, t) && multiset(a) == multiset(b)
    ensures s.byProject == t.byProject && s.byDay == t.byDay && s.grandTotal == t.grandTotal
  {
    TotalsAreOrdered();
    SameTotals(a, s.byProject, b, t.byProject, ByProject, SpendsMore);
    SameTotals(a, s.byDay, b, t.byDay, ByDay, Earlier);
    SameRowsSameSums(a, b, ByDay, DayKey(0));
  }

  lemma SameTotals(a: seq<ProjectDayCost>, s: seq<Total>, b: seq<ProjectDayCost>, t: seq<Total>,
                   attribute: Attribute, less: (Total, Total) -> bool)
    requires AreTotals(a, attribute, s) && AreTotals(b, attribute, t) && multiset(a) == multiset(b)
    requires StrictOrder(less) && Sorted(less, s) && Sorted(less, t)
    ensures s == t
  {
    forall r: ProjectDayCost
      ensures r in a <==> r in b
    {
      assert r in a <==> r in multiset(a);
      assert r in b <==> r in multiset(b);
    }
    assert Keys(a, attribute) == Keys(b, attribute);
    forall key
      ensures KeySum(a, attribute, key) == KeySum(b, attribute, key)
    {
      SameRowsSameSums(a, b, attribute, key);
    }
    forall x
      ensures x in s <==> x in t
    {
      assert x in s ==> Total(x.key, KeySum(a, attribute, x.key)) == x;
      assert x in t ==> Total(x.key, KeySum(b, attribute, x.key)) == x;
    }
    SortedUnique(less, s, t);
  }
}
