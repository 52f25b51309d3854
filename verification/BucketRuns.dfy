/** What one bucket guarantees over whole runs of reservations (src/llmbus/ratelimit.py:75-91). */
module BucketRuns {
  import opened Prelude
  import opened TokenBuckets

  /** One granted reservation. */
  datatype Charge = Charge(at: real, amount: real)

  /** A run of reservations at non-decreasing instants, none before `start`. */
  predicate Orderly(start: real, cs: seq<Charge>) {
    && (forall k :: 0 <= k < |cs| ==> cs[k].amount >= 0.0 && start <= cs[k].at)
    && (forall i, j :: 0 <= i <= j < |cs| ==> cs[i].at <= cs[j].at)
  }

  /** The bucket after the first `k` reservations of the run. */
  function After(b: Bucket, cs: seq<Charge>, k: nat): Bucket
    requires k <= |cs|
  {
    if k == 0 then b else After(b, cs, k - 1).Charged(cs[k - 1].at, cs[k - 1].amount)
  }

  lemma NothingCharged(b: Bucket, cs: seq<Charge>)
    ensures After(b, cs, 0) == b
  {
  }

  /** The amounts reserved from the i-th reservation up to, not including, the k-th. */
  function Sum(cs: seq<Charge>, i: nat, k: nat): real
    requires i <= k <= |cs|
  {
    if i == k then 0.0 else Sum(cs, i, k - 1) + cs[k - 1].amount
  }

  /** The instant the j-th caller is told to wait for. */
  function Grant(b: Bucket, cs: seq<Charge>, j: nat): real
    requires j < |cs| && b.rate > 0.0
  {
    AfterIsValid(b, cs, j + 1);
    cs[j].at + After(b, cs, j + 1).Wait()
  }

  lemma {:induction false} AfterIsValid(b: Bucket, cs: seq<Charge>, k: nat)
    requires k <= |cs|
    ensures After(b, cs, k).rate == b.rate && After(b, cs, k).capacity == b.capacity
    ensures b.Valid() && (forall i :: 0 <= i < |cs| ==> cs[i].amount >= 0.0) ==> After(b, cs, k).Valid()
  {
    if k > 0 {
      AfterIsValid(b, cs, k - 1);
    }
  }

  lemma {:induction false} UpdatedAt(b: Bucket, cs: seq<Charge>, k: nat)
    requires k <= |cs| && Orderly(b.updated, cs)
    ensures After(b, cs, k).updated == if k == 0 then b.updated else cs[k - 1].at
  {
    if k > 0 {
      UpdatedAt(b, cs, k - 1);
    }
  }

  lemma ChargeStep(b: Bucket, c: Charge)
    requires b.updated <= c.at
    ensures b.Charged(c.at, c.amount).updated == c.at
    ensures b.Charged(c.at, c.amount).tokens
         == Min(b.capacity, b.tokens + b.rate * (c.at - b.updated)) - c.amount
  {
  }

  /** One charge of a run: the balance gains at most the refill and loses the amount. */
  lemma OneDrop(b: Bucket, cs: seq<Charge>, k: nat)
    requires b.Valid() && Orderly(b.updated, cs) && 0 < k <= |cs|
    ensures var before, after := After(b, cs, k - 1), After(b, cs, k);
            after.tokens <= before.tokens + b.rate * (after.updated - before.updated) - cs[k - 1].amount
  {
    hide Bucket.Charged, Bucket.Wait;
    UpdatedAt(b, cs, k - 1);
    AfterIsValid(b, cs, k - 1);
    ChargeStep(After(b, cs, k - 1), cs[k - 1]);
  }

  /** Between two points of a run a balance gains at most the refill and loses all that was reserved. */
  lemma {:induction false} BalanceDrop(b: Bucket, cs: seq<Charge>, i: nat, k: nat)
    requires b.Valid() && Orderly(b.updated, cs) && i <= k <= |cs|
    ensures After(b, cs, k).tokens
         <= After(b, cs, i).tokens
          + b.rate * (After(b, cs, k).updated - After(b, cs, i).updated) - Sum(cs, i, k)
  {
    hide After, Orderly, Bucket.Valid;
    if i < k {
      BalanceDrop(b, cs, i, k - 1);
      OneDrop(b, cs, k);
      Distribute(b.rate, After(b, cs, i).updated, After(b, cs, k - 1).updated, After(b, cs, k).updated);
    }
  }

  /** A balance gains at most the refill of a span and loses what is spent in it. */
  predicate Drops(rate: real, from: real, to: real, before: real, after: real, spent: real) {
    after <= before + rate * (to - from) - spent
  }

  /** A wait pays back the whole debt. */
  predicate Repays(rate: real, at: real, grant: real, left: real) {
    rate * (grant - at) == Max(0.0, -left)
  }

  /** The same between two reservations, in terms of their instants. */
  lemma DropBetween(b: Bucket, cs: seq<Charge>, i: nat, j: nat)
    requires b.Valid() && Orderly(b.updated, cs) && i <= j < |cs|
    ensures Drops(b.rate, cs[i].at, cs[j].at, After(b, cs, i + 1).tokens, After(b, cs, j + 1).tokens,
                  Sum(cs, i + 1, j + 1))
    ensures Drops(b.rate, b.updated, cs[j].at, b.tokens, After(b, cs, j + 1).tokens, Sum(cs, 0, j + 1))
  {
    hide Bucket.Charged, After, Sum, Orderly;
    NothingCharged(b, cs);
    BalanceDrop(b, cs, i + 1, j + 1);
    BalanceDrop(b, cs, 0, j + 1);
    UpdatedAt(b, cs, i + 1);
    UpdatedAt(b, cs, j + 1);
    SameSpan(b.rate, After(b, cs, i + 1).updated, cs[i].at, After(b, cs, j + 1).updated, cs[j].at);
    SameSpan(b.rate, b.updated, b.updated, After(b, cs, j + 1).updated, cs[j].at);
  }

  /** What the window that opens at the i-th of `k` reservations leaves unused at the k-th. */
  function Headroom(b: Bucket, cs: seq<Charge>, i: nat, k: nat): real
    requires i < k <= |cs|
  {
    b.capacity + b.rate * (cs[k - 1].at - cs[i].at) - Sum(cs, i, k)
  }

  lemma HeadroomStep(b: Bucket, cs: seq<Charge>, i: nat, k: nat)
    requires i + 1 < k <= |cs|
    ensures Headroom(b, cs, i, k)
         == Headroom(b, cs, i, k - 1) + b.rate * (cs[k - 1].at - cs[k - 2].at) - cs[k - 1].amount
  {
    Distribute(b.rate, cs[i].at, cs[k - 2].at, cs[k - 1].at);
  }

  /** The lazily kept balance is the tightest headroom over every window that ends now. */
  lemma {:induction false} ExactBalance(b: Bucket, cs: seq<Charge>, k: nat) returns (tight: nat)
    requires b.Valid() && b.tokens == b.capacity && Orderly(b.updated, cs) && 0 < k <= |cs|
    ensures forall i: nat :: i < k ==> After(b, cs, k).tokens <= Headroom(b, cs, i, k)
    ensures tight < k && After(b, cs, k).tokens == Headroom(b, cs, tight, k)
  {
    hide Bucket.Charged, Bucket.Wait;
    AfterIsValid(b, cs, k - 1);
    UpdatedAt(b, cs, k - 1);
    ChargeStep(After(b, cs, k - 1), cs[k - 1]);
    assert Sum(cs, k - 1, k - 1) == 0.0;
    assert Headroom(b, cs, k - 1, k) == b.capacity - cs[k - 1].amount;
    if k == 1 {
      RefillIsNonNegative(b.rate, b.updated, cs[0].at);
      return 0;
    }
    var before := ExactBalance(b, cs, k - 1);
    var refill := b.rate * (cs[k - 1].at - cs[k - 2].at);
    assert After(b, cs, k).tokens == Min(b.capacity, After(b, cs, k - 1).tokens + refill) - cs[k - 1].amount;
    hide After, Headroom, Sum, Orderly;
    forall i: nat | i < k
      ensures After(b, cs, k).tokens <= Headroom(b, cs, i, k)
    {
      if i < k - 1 {
        HeadroomStep(b, cs, i, k);
      }
    }
    HeadroomStep(b, cs, before, k);
    tight := if After(b, cs, k).tokens == b.capacity - cs[k - 1].amount then k - 1 else before;
  }

  /** All windows that end with the last of `k` reservations fit if that one starts `d` late. */
  ghost predicate Fits(b: Bucket, cs: seq<Charge>, k: nat, d: real)
    requires 0 < k <= |cs|
  {
    forall i: nat :: i < k ==> Sum(cs, i, k) <= b.capacity + b.rate * (cs[k - 1].at + d - cs[i].at)
  }

  /** The returned wait is the least delay that keeps every window within the rate. */
  lemma LeastDelay(b: Bucket, cs: seq<Charge>, k: nat, d: real)
    requires b.Valid() && b.tokens == b.capacity && Orderly(b.updated, cs) && 0 < k <= |cs| && d >= 0.0
    ensures After(b, cs, k).rate > 0.0
    ensures Fits(b, cs, k, d) <==> After(b, cs, k).Wait() <= d
  {
    hide Bucket.Charged, Bucket.Wait, After, Headroom, Sum, Orderly;
    AfterIsValid(b, cs, k);
    WaitCovers(After(b, cs, k), d);
    var tight := ExactBalance(b, cs, k);
    forall i: nat | i < k
      ensures Sum(cs, i, k) <= b.capacity + b.rate * (cs[k - 1].at + d - cs[i].at)
         <==> 0.0 <= Headroom(b, cs, i, k) + b.rate * d
    {
      LateHeadroom(b, cs, i, k, d);
    }
    assert Fits(b, cs, k, d) ==> 0.0 <= Headroom(b, cs, tight, k) + b.rate * d;
  }

  lemma LateHeadroom(b: Bucket, cs: seq<Charge>, i: nat, k: nat, d: real)
    requires i < k <= |cs|
    ensures b.capacity + b.rate * (cs[k - 1].at + d - cs[i].at) - Sum(cs, i, k)
         == Headroom(b, cs, i, k) + b.rate * d
  {
    Distribute(b.rate, cs[i].at, cs[k - 1].at, cs[k - 1].at + d);
  }

  /** A delay covers the wait exactly when it refills the debt. */
  lemma WaitCovers(b: Bucket, d: real)
    requires b.rate > 0.0 && d >= 0.0
    ensures b.Wait() <= d <==> -b.tokens <= b.rate * d
    ensures b.Wait() >= 0.0 && b.rate * b.Wait() == Max(0.0, -b.tokens)
  {
    TimesQuotient(b.rate, Max(0.0, -b.tokens));
    Unscale(b.rate, b.Wait(), d);
    Unscale(b.rate, 0.0, b.Wait());
    Scale(b.rate, 0.0, d);
  }

  /** A grant is never earlier than its reservation, and pays back the whole debt. */
  lemma GrantPays(b: Bucket, cs: seq<Charge>, j: nat)
    requires b.Valid() && Orderly(b.updated, cs) && j < |cs|
    ensures Grant(b, cs, j) >= cs[j].at
    ensures Repays(b.rate, cs[j].at, Grant(b, cs, j), After(b, cs, j + 1).tokens)
  {
    hide Bucket.Charged, Bucket.Wait;
    AfterIsValid(b, cs, j + 1);
    WaitCovers(After(b, cs, j + 1), 0.0);
  }

  /** First come, first served: grants never overtake one another. */
  lemma GrantsInOrder(b: Bucket, cs: seq<Charge>, i: nat, j: nat)
    requires b.Valid() && Orderly(b.updated, cs) && i <= j < |cs|
    ensures Grant(b, cs, i) <= Grant(b, cs, j)
  {
    hide Bucket.Charged, Bucket.Wait, After, Grant, Sum, Repays, Drops;
    GrantPays(b, cs, i);
    GrantPays(b, cs, j);
    DropBetween(b, cs, i, j);
    SumIsNonNegative(cs, i + 1, j + 1);
    PaidInOrder(b.rate, cs[i].at, cs[j].at, Grant(b, cs, i), Grant(b, cs, j),
                After(b, cs, i + 1).tokens, After(b, cs, j + 1).tokens, Sum(cs, i + 1, j + 1));
  }

  lemma PaidInOrder(r: real, ti: real, tj: real, gi: real, gj: real, bi: real, bj: real, later: real)
    requires r > 0.0 && ti <= tj && later >= 0.0
    requires Repays(r, ti, gi, bi) && Repays(r, tj, gj, bj) && Drops(r, ti, tj, bi, bj, later)
    ensures gi <= gj
  {
    var repaid, refilled, owed := r * (gj - tj), r * (tj - ti), r * (gi - ti);
    assert r * (gj - gi) == repaid + refilled - owed;
    assert refilled >= 0.0;
    assert repaid + refilled - owed >= 0.0;
    PositiveFactor(r, gj - gi);
  }

  lemma {:induction false} SumIsNonNegative(cs: seq<Charge>, i: nat, k: nat)
    requires i <= k <= |cs| && forall n :: 0 <= n < |cs| ==> cs[n].amount >= 0.0
    ensures Sum(cs, i, k) >= 0.0
  {
    if i < k {
      SumIsNonNegative(cs, i, k - 1);
    }
  }

  lemma {:induction false} SumFromFirst(cs: seq<Charge>, i: nat, k: nat)
    requires i < k <= |cs|
    ensures Sum(cs, i, k) == cs[i].amount + Sum(cs, i + 1, k)
  {
    if i + 1 < k {
      SumFromFirst(cs, i, k - 1);
    }
  }

  /** What is reserved behind the i-th grant fits the refill between the two grants plus what the i-th left. */
  lemma LaterFits(b: Bucket, cs: seq<Charge>, i: nat, j: nat)
    requires b.Valid() && Orderly(b.updated, cs) && i <= j < |cs|
    ensures Sum(cs, i + 1, j + 1)
         <= Max(0.0, After(b, cs, i + 1).tokens) + b.rate * (Grant(b, cs, j) - Grant(b, cs, i))
  {
    hide Bucket.Charged, Bucket.Wait, Sum, After, Grant, Orderly, Repays, Drops;
    GrantPays(b, cs, i);
    GrantPays(b, cs, j);
    DropBetween(b, cs, i, j);
    PaidWindow(b.rate, cs[i].at, cs[j].at, Grant(b, cs, i), Grant(b, cs, j),
               After(b, cs, i + 1).tokens, After(b, cs, j + 1).tokens, Sum(cs, i + 1, j + 1));
  }

  /** The sliding window over grant instants, for amounts of any size and callers that arrive at any time. */
  lemma SlidingWindow(b: Bucket, cs: seq<Charge>, i: nat, j: nat)
    requires b.Valid() && Orderly(b.updated, cs) && i <= j < |cs|
    ensures Sum(cs, i, j + 1) <= Max(b.capacity, cs[i].amount) + b.rate * (Grant(b, cs, j) - Grant(b, cs, i))
  {
    hide Bucket.Charged, Bucket.Wait;
    LaterFits(b, cs, i, j);
    SumFromFirst(cs, i, j + 1);
    FirstLeavesRoom(b, cs, i);
  }

  lemma FirstLeavesRoom(b: Bucket, cs: seq<Charge>, i: nat)
    requires b.Valid() && i < |cs|
    ensures After(b, cs, i + 1).tokens <= b.capacity - cs[i].amount
  {
    AfterIsValid(b, cs, i);
  }

  /** What is reserved behind a grant fits the refill between the two grants plus what the first one left. */
  lemma PaidWindow(r: real, ti: real, tj: real, gi: real, gj: real, bi: real, bj: real, later: real)
    requires Repays(r, ti, gi, bi) && Repays(r, tj, gj, bj) && Drops(r, ti, tj, bi, bj, later)
    ensures later <= Max(0.0, bi) + r * (gj - gi)
  {
  }

  /** What callers have started by `t`, if the k-th starts at `starts[k]`. */
  function StartedBy(cs: seq<Charge>, starts: seq<real>, t: real, k: nat): real
    requires k <= |cs| == |starts|
  {
    if k == 0 then 0.0
    else StartedBy(cs, starts, t, k - 1) + if starts[k - 1] <= t then cs[k - 1].amount else 0.0
  }

  /** Callers that sleep as long as they were told, or arbitrarily longer, never start more than
      the burst plus the refill since the bucket was made. */
  lemma ConservedFromStart(b: Bucket, cs: seq<Charge>, starts: seq<real>, t: real)
    requires b.Valid() && b.tokens == b.capacity && Orderly(b.updated, cs)
    requires |starts| == |cs| && forall k :: 0 <= k < |cs| ==> Grant(b, cs, k) <= starts[k]
    requires b.updated <= t
    ensures StartedBy(cs, starts, t, |cs|) <= b.capacity + b.rate * (t - b.updated)
  {
    ConservedPrefix(b, cs, starts, t, |cs|);
  }

  lemma {:induction false} ConservedPrefix(b: Bucket, cs: seq<Charge>, starts: seq<real>, t: real, k: nat)
    requires b.Valid() && b.tokens == b.capacity && Orderly(b.updated, cs)
    requires |starts| == |cs| && forall k :: 0 <= k < |cs| ==> Grant(b, cs, k) <= starts[k]
    requires b.updated <= t && k <= |cs|
    ensures StartedBy(cs, starts, t, k) <= b.capacity + b.rate * (t - b.updated)
  {
    hide Bucket.Charged, Bucket.Wait, After, Grant, Sum, Repays, Drops;
    if k == 0 {
      RefillIsNonNegative(b.rate, b.updated, t);
    } else if starts[k - 1] > t {
      ConservedPrefix(b, cs, starts, t, k - 1);
    } else {
      StartedAtMost(cs, starts, t, k);
      DropBetween(b, cs, 0, k - 1);
      GrantPays(b, cs, k - 1);
      PaidSinceStart(b.rate, b.updated, cs[k - 1].at, Grant(b, cs, k - 1), t,
                     b.tokens, After(b, cs, k).tokens, Sum(cs, 0, k));
    }
  }

  lemma PaidSinceStart(r: real, start: real, at: real, grant: real, t: real, full: real, left: real, spent: real)
    requires r > 0.0 && grant <= t
    requires Repays(r, at, grant, left) && Drops(r, start, at, full, left, spent)
    ensures spent <= full + r * (t - start)
  {
    Distribute(r, start, at, grant);
    Distribute(r, start, grant, t);
    Scale(r, 0.0, t - grant);
  }

  lemma {:induction false} StartedAtMost(cs: seq<Charge>, starts: seq<real>, t: real, k: nat)
    requires k <= |cs| == |starts| && forall n :: 0 <= n < |cs| ==> cs[n].amount >= 0.0
    ensures StartedBy(cs, starts, t, k) <= Sum(cs, 0, k)
  {
    if k > 0 {
      StartedAtMost(cs, starts, t, k - 1);
    }
  }

  // ----- callers that take turns -----

  /** Callers that take turns: each starts when it was told to or later, and the next one asks after that. */
  predicate TakeTurns(b: Bucket, cs: seq<Charge>, starts: seq<real>)
    requires b.rate > 0.0
  {
    && |starts| == |cs|
    && (forall j :: 0 <= j < |cs| ==> Grant(b, cs, j) <= starts[j])
    && (forall j :: 0 < j < |cs| ==> starts[j - 1] <= cs[j].at)
  }

  /** A caller that takes its turn never inherits debt. */
  lemma TurnsFindNoDebt(b: Bucket, cs: seq<Charge>, starts: seq<real>, j: nat)
    requires b.Valid() && b.tokens == b.capacity && Orderly(b.updated, cs)
    requires TakeTurns(b, cs, starts) && j < |cs|
    ensures After(b, cs, j).Refilled(cs[j].at) >= 0.0
  {
    hide Bucket.Wait, Bucket.Charged, Bucket.Refilled, Grant, After;
    NothingCharged(b, cs);
    assert 0 < j ==> Grant(b, cs, j - 1) <= starts[j - 1] <= cs[j].at;
    hide Orderly, TakeTurns;
    UpdatedAt(b, cs, j);
    AfterIsValid(b, cs, j);
    if j == 0 {
      DebtIsRefilled(b, b.updated, cs[0].at);
    } else {
      GrantPays(b, cs, j - 1);
      assert Grant(b, cs, j - 1) <= starts[j - 1] <= cs[j].at;
      DebtIsRefilled(After(b, cs, j), Grant(b, cs, j - 1), cs[j].at);
    }
  }

  lemma DebtIsRefilled(b: Bucket, grant: real, at: real)
    requires b.Valid() && b.updated <= grant <= at
    requires b.rate * (grant - b.updated) >= -b.tokens
    ensures b.Refilled(at) >= 0.0
  {
    Distribute(b.rate, b.updated, grant, at);
    RefillIsNonNegative(b.rate, grant, at);
  }

  /** A caller that takes its turn waits at most for its own amount to refill. */
  lemma TurnsWaitForThemselves(b: Bucket, cs: seq<Charge>, starts: seq<real>, j: nat)
    requires b.Valid() && b.tokens == b.capacity && Orderly(b.updated, cs)
    requires TakeTurns(b, cs, starts) && j < |cs|
    ensures Grant(b, cs, j) - cs[j].at <= cs[j].amount / b.rate
  {
    AfterIsValid(b, cs, j);
    TurnsFindNoDebt(b, cs, starts, j);
    NoDebtWait(After(b, cs, j), cs[j].at, cs[j].amount);
  }

  lemma NoDebtWait(b: Bucket, at: real, amount: real)
    requires b.rate > 0.0 && amount >= 0.0 && b.Refilled(at) >= 0.0
    ensures b.Charged(at, amount).Wait() <= amount / b.rate
  {
    hide Bucket.Refilled;
    var deficit := Max(0.0, -b.Charged(at, amount).tokens);
    TimesQuotient(b.rate, deficit);
    TimesQuotient(b.rate, amount);
    Unscale(b.rate, deficit / b.rate, amount / b.rate);
  }

  /** What callers that take turns actually start between the i-th and the j-th of them. */
  lemma TurnsWindow(b: Bucket, cs: seq<Charge>, starts: seq<real>, i: nat, j: nat)
    requires b.Valid() && b.tokens == b.capacity && Orderly(b.updated, cs)
    requires TakeTurns(b, cs, starts) && i <= j < |cs|
    ensures Sum(cs, i, j + 1) <= b.capacity + cs[i].amount + b.rate * (starts[j] - starts[i])
  {
    hide Bucket.Wait, Bucket.Charged, Grant, After, Orderly;
    SumFromFirst(cs, i, j + 1);
    if i < j {
      LaterTurnsFit(b, cs, starts, i, j);
    }
  }

  lemma LaterTurnsFit(b: Bucket, cs: seq<Charge>, starts: seq<real>, i: nat, j: nat)
    requires b.Valid() && b.tokens == b.capacity && Orderly(b.updated, cs)
    requires TakeTurns(b, cs, starts) && i < j < |cs|
    ensures Sum(cs, i + 1, j + 1) <= b.capacity + b.rate * (starts[j] - starts[i])
  {
    hide Bucket.Wait, Bucket.Charged, Grant, After, Sum, Orderly;
    GrantPays(b, cs, j);
    var tight := ExactBalance(b, cs, j + 1);
    var left := After(b, cs, j + 1).tokens;
    assert left <= Headroom(b, cs, i + 1, j + 1);
    assert starts[i] <= cs[i + 1].at && Grant(b, cs, j) <= starts[j];
    PaidSinceTurn(b.rate, starts[i], cs[i + 1].at, cs[j].at, Grant(b, cs, j), starts[j],
                  b.capacity, left, Sum(cs, i + 1, j + 1));
  }

  lemma PaidSinceTurn(r: real, si: real, next: real, at: real, grant: real, sj: real,
                      full: real, left: real, spent: real)
    requires r > 0.0 && si <= next && grant <= sj
    requires Repays(r, at, grant, left) && Drops(r, next, at, full, left, spent)
    ensures spent <= full + r * (sj - si)
  {
    Distribute(r, si, next, sj);
    RefillIsNonNegative(r, si, next);
    PaidSinceStart(r, next, at, grant, sj, full, left, spent);
  }

  // ----- any clock, and refused reservations -----

  /** One call of `reserve`, at whatever the clock read and with whatever amount. */
  datatype Request = Request(now: real, amount: real)

  /** The bucket and the replies after the first `k` calls. */
  function Drive(b: Bucket, rs: seq<Request>, k: nat): (d: (Bucket, seq<Outcome<real>>))
    requires k <= |rs| && b.rate > 0.0
    ensures d.0.rate == b.rate && |d.1| == k
  {
    if k == 0 then (b, [])
    else
      var d := Drive(b, rs, k - 1);
      var r := d.0.Reserved(rs[k - 1].now, rs[k - 1].amount);
      (r.0, d.1 + [r.1])
  }

  /** The granted calls among the first `k`, each at the highest clock reading so far. */
  function Granted(start: real, rs: seq<Request>, k: nat): seq<Charge>
    requires k <= |rs|
  {
    if k == 0 then []
    else
      var cs := Granted(start, rs, k - 1);
      if rs[k - 1].amount < 0.0 then cs
      else cs + [Charge(Max(if cs == [] then start else cs[|cs| - 1].at, rs[k - 1].now), rs[k - 1].amount)]
  }

  /** The waits among the replies, refusals dropped. */
  function Waits(replies: seq<Outcome<real>>): seq<real> {
    if replies == [] then []
    else
      var init, last := replies[..|replies| - 1], replies[|replies| - 1];
      Waits(init) + if last.Returned? then [last.value] else []
  }

  /** The waits a run of granted reservations returns. */
  function GrantedWaits(b: Bucket, cs: seq<Charge>, k: nat): seq<real>
    requires k <= |cs| && b.rate > 0.0
  {
    if k == 0 then [] else
      AfterIsValid(b, cs, k);
      GrantedWaits(b, cs, k - 1) + [After(b, cs, k).Wait()]
  }

  lemma {:induction false} AfterPrefix(b: Bucket, cs: seq<Charge>, more: seq<Charge>, k: nat)
    requires k <= |cs| && b.rate > 0.0
    ensures After(b, cs + more, k) == After(b, cs, k)
    ensures GrantedWaits(b, cs + more, k) == GrantedWaits(b, cs, k)
  {
    if k > 0 {
      AfterPrefix(b, cs, more, k - 1);
    }
  }

  lemma {:induction false} GrantedOrderly(start: real, rs: seq<Request>, k: nat)
    requires k <= |rs|
    ensures Orderly(start, Granted(start, rs, k))
  {
    if k > 0 {
      GrantedOrderly(start, rs, k - 1);
    }
  }

  /** A bucket driven by any clock, backwards jumps and refused calls included, has the state and
      returns the waits of an orderly run on the running maximum of that clock. */
  lemma {:induction false} AnyClock(b: Bucket, rs: seq<Request>, k: nat)
    requires b.Valid() && k <= |rs|
    ensures var cs := Granted(b.updated, rs, k);
            && Orderly(b.updated, cs)
            && Drive(b, rs, k).0 == After(b, cs, |cs|)
            && Waits(Drive(b, rs, k).1) == GrantedWaits(b, cs, |cs|)
  {
    hide Bucket.Charged, Bucket.Wait, Orderly;
    GrantedOrderly(b.updated, rs, k);
    if k > 0 {
      AnyClock(b, rs, k - 1);
      var before, request := Granted(b.updated, rs, k - 1), rs[k - 1];
      assert Drive(b, rs, k).1[..k - 1] == Drive(b, rs, k - 1).1;
      if request.amount >= 0.0 {
        UpdatedAt(b, before, |before|);
        var state := After(b, before, |before|);
        ClampedCharge(state, request.now, request.amount);
        GrantOneMore(b, before, Charge(Max(state.updated, request.now), request.amount));
      }
    }
  }

  lemma GrantOneMore(b: Bucket, cs: seq<Charge>, c: Charge)
    requires b.rate > 0.0
    ensures var state := After(b, cs, |cs|).Charged(c.at, c.amount);
            && state.rate > 0.0
            && After(b, cs + [c], |cs| + 1) == state
            && GrantedWaits(b, cs + [c], |cs| + 1) == GrantedWaits(b, cs, |cs|) + [state.Wait()]
  {
    hide Bucket.Wait, Bucket.Refilled;
    AfterIsValid(b, cs, |cs|);
    AfterPrefix(b, cs, [c], |cs|);
  }

  /** A reading behind the bucket's clock acts like that clock itself. */
  lemma ClampedCharge(b: Bucket, now: real, amount: real)
    ensures b.Charged(now, amount) == b.Charged(Max(b.updated, now), amount)
  {
  }
}
