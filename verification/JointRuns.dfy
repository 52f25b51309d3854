/** One provider's two buckets charged together (src/llmbus/ratelimit.py:94-113). */
module JointRuns {
  import opened Prelude
  import opened TokenBuckets
  import opened BucketRuns

  /** The same callers seen by two buckets: equal instants, one amount in each dimension. */
  predicate Paired(own: seq<Charge>, other: seq<Charge>) {
    |own| == |other| && forall k :: 0 <= k < |own| ==> own[k].at == other[k].at
  }

  /** When the j-th caller starts: it sleeps out the longer of its two waits. */
  function Start(a: Bucket, own: seq<Charge>, b: Bucket, other: seq<Charge>, j: nat): real
    requires Paired(own, other) && j < |own| && a.rate > 0.0 && b.rate > 0.0
  {
    Max(Grant(a, own, j), Grant(b, other, j))
  }

  /** Sleeping out the longer wait, callers that take turns do so on both buckets. */
  lemma BothTakeTurns(requests: Bucket, rs: seq<Charge>, tokens: Bucket, ts: seq<Charge>, starts: seq<real>)
    requires requests.rate > 0.0 && tokens.rate > 0.0 && Paired(rs, ts) && |starts| == |rs|
    requires forall k :: 0 <= k < |rs| ==> Start(requests, rs, tokens, ts, k) <= starts[k]
    requires forall k :: 0 < k < |rs| ==> starts[k - 1] <= rs[k].at
    ensures TakeTurns(requests, rs, starts) && TakeTurns(tokens, ts, starts)
  {
    hide Grant;
    forall k | 0 <= k < |rs|
      ensures Grant(requests, rs, k) <= starts[k] && Grant(tokens, ts, k) <= starts[k]
    {
      assert Start(requests, rs, tokens, ts, k) <= starts[k];
    }
    assert forall k :: 0 < k < |ts| ==> rs[k].at == ts[k].at;
  }

  /** Callers that take turns keep both limits at once over the instants they really start,
      and none waits longer than its own request and tokens take to refill. */
  lemma SerialJointThrottle(requests: Bucket, rs: seq<Charge>, tokens: Bucket, ts: seq<Charge>,
                            starts: seq<real>, i: nat, j: nat)
    requires requests.Valid() && requests.tokens == requests.capacity && Orderly(requests.updated, rs)
    requires tokens.Valid() && tokens.tokens == tokens.capacity && Orderly(tokens.updated, ts)
    requires Paired(rs, ts) && |starts| == |rs| && i <= j < |rs|
    requires forall k :: 0 <= k < |rs| ==> Start(requests, rs, tokens, ts, k) <= starts[k]
    requires forall k :: 0 < k < |rs| ==> starts[k - 1] <= rs[k].at
    ensures Sum(rs, i, j + 1) <= requests.capacity + rs[i].amount + requests.rate * (starts[j] - starts[i])
    ensures Sum(ts, i, j + 1) <= tokens.capacity + ts[i].amount + tokens.rate * (starts[j] - starts[i])
    ensures Start(requests, rs, tokens, ts, j) - rs[j].at
         <= Max(rs[j].amount / requests.rate, ts[j].amount / tokens.rate)
  {
    BothTakeTurns(requests, rs, tokens, ts, starts);
    hide Grant, Orderly, TakeTurns, Sum;
    assert rs[j].at == ts[j].at;
    TurnsWindow(requests, rs, starts, i, j);
    TurnsWindow(tokens, ts, starts, i, j);
    TurnsWaitForThemselves(requests, rs, starts, j);
    TurnsWaitForThemselves(tokens, ts, starts, j);
  }

  /** However the longer wait is made up, neither dimension starts more than burst plus refill since the beginning. */
  lemma JointConservedFromStart(requests: Bucket, rs: seq<Charge>, tokens: Bucket, ts: seq<Charge>,
                                starts: seq<real>, t: real)
    requires requests.Valid() && requests.tokens == requests.capacity && Orderly(requests.updated, rs)
    requires tokens.Valid() && tokens.tokens == tokens.capacity && Orderly(tokens.updated, ts)
    requires Paired(rs, ts) && |starts| == |rs| && Max(requests.updated, tokens.updated) <= t
    requires forall k :: 0 <= k < |rs| ==> Start(requests, rs, tokens, ts, k) <= starts[k]
    ensures StartedBy(rs, starts, t, |rs|) <= requests.capacity + requests.rate * (t - requests.updated)
    ensures StartedBy(ts, starts, t, |ts|) <= tokens.capacity + tokens.rate * (t - tokens.updated)
  {
    forall k | 0 <= k < |rs|
      ensures Grant(requests, rs, k) <= starts[k] && Grant(tokens, ts, k) <= starts[k]
    {
      assert Start(requests, rs, tokens, ts, k) <= starts[k];
    }
    ConservedFromStart(requests, rs, starts, t);
    ConservedFromStart(tokens, ts, starts, t);
  }

  // ----- concurrent callers -----

  /** One caller's wait on a pair of buckets. */
  function JointWait(a: Bucket, b: Bucket): real
    requires a.rate > 0.0 && b.rate > 0.0
  {
    Max(a.Wait(), b.Wait())
  }

  /** The window that opens when a caller starts keeps the own limit, whatever arrives afterwards. */
  ghost predicate WindowHolds(a: Bucket, b: Bucket, at: real, amount: real, otherAmount: real)
    requires a.rate > 0.0 && b.rate > 0.0
  {
    var a', b' := a.Charged(at, amount), b.Charged(at, otherAmount);
    forall own: seq<Charge>, other: seq<Charge>, j: nat ::
      Orderly(at, own) && Orderly(at, other) && Paired(own, other) && j < |own| ==>
        amount + Sum(own, 0, j + 1)
          <= Max(a.capacity, amount) + a.rate * (Start(a', own, b', other, j) - (at + JointWait(a', b')))
  }

  /** All that can start behind a caller from the moment it starts itself. */
  lemma BehindHeldBack(a: Bucket, b: Bucket, own: seq<Charge>, other: seq<Charge>, j: nat)
    requires a.Valid() && b.Valid() && a.updated == b.updated
    requires Orderly(a.updated, own) && Orderly(b.updated, other) && Paired(own, other) && j < |own|
    ensures Sum(own, 0, j + 1)
         <= a.tokens + a.rate * JointWait(a, b)
          + a.rate * (Start(a, own, b, other, j) - (a.updated + JointWait(a, b)))
  {
    hide Bucket.Wait, Bucket.Charged, Repays, Drops;
    GrantPays(a, own, j);
    DropBetween(a, own, 0, j);
    PaidSinceStart(a.rate, a.updated, own[j].at, Grant(a, own, j), Start(a, own, b, other, j),
                   a.tokens, After(a, own, j + 1).tokens, Sum(own, 0, j + 1));
    Distribute(a.rate, a.updated, a.updated + JointWait(a, b), Start(a, own, b, other, j));
  }

  /** A request that takes all that has refilled by the moment the caller in front starts, starts with it. */
  lemma WorstArrival(a: Bucket, b: Bucket) returns (own: seq<Charge>, other: seq<Charge>)
    requires a.Valid() && b.Valid() && a.updated == b.updated
    ensures |own| == 1 && Orderly(a.updated, own) && Orderly(b.updated, other) && Paired(own, other)
    ensures Sum(own, 0, 1) == a.tokens + a.rate * JointWait(a, b)
    ensures Start(a, own, b, other, 0) == a.updated + JointWait(a, b)
  {
    var wait := JointWait(a, b);
    WaitCovers(a, wait);
    own, other := [Charge(a.updated, a.tokens + a.rate * wait)], [Charge(b.updated, 0.0)];
    assert Sum(own, 0, 0) == 0.0 && Sum(own, 0, 1) == Sum(own, 0, 0) + own[0].amount;
    DrainedFor(a, wait);
    NothingTaken(b);
    hide Bucket.Charged, Bucket.Wait, Orderly;
    assert After(a, own, 1) == a.Charged(own[0].at, own[0].amount);
    assert After(b, other, 1) == b;
  }

  /** Taking what a wait refills puts the bucket in debt for exactly that wait. */
  lemma DrainedFor(b: Bucket, wait: real)
    requires b.Valid() && wait >= 0.0
    ensures b.Charged(b.updated, b.tokens + b.rate * wait).Wait() == wait
  {
    RefillIsNonNegative(b.rate, 0.0, wait);
    assert b.Refilled(b.updated) == b.tokens;
    hide Bucket.Refilled;
    QuotientTimes(b.rate, wait);
  }

  lemma NothingTaken(b: Bucket)
    requires b.Valid()
    ensures b.Charged(b.updated, 0.0) == b
  {
  }

  lemma QuotientTimes(rate: real, x: real)
    requires rate > 0.0
    ensures (rate * x) / rate == x
  {
    TimesQuotient(rate, rate * x);
    Unscale(rate, (rate * x) / rate, x);
    Unscale(rate, x, (rate * x) / rate);
  }

  /** What the own bucket held before a charge, refilled for as long as the caller is held back. */
  function HeldAtStart(a: Bucket, b: Bucket, at: real, amount: real, otherAmount: real): real
    requires a.rate > 0.0 && b.rate > 0.0
  {
    a.Refilled(at) + a.rate * JointWait(a.Charged(at, amount), b.Charged(at, otherAmount))
  }

  lemma HeldFits(a: Bucket, b: Bucket, at: real, amount: real, otherAmount: real)
    requires a.Valid() && b.Valid() && a.updated <= at && b.updated <= at
    requires amount >= 0.0 && otherAmount >= 0.0
    requires HeldAtStart(a, b, at, amount, otherAmount) <= Max(a.capacity, amount)
    ensures WindowHolds(a, b, at, amount, otherAmount)
  {
    hide Bucket.Refilled, Bucket.Wait;
    RefilledAtMost(a, at);
    RefilledAtMost(b, at);
    var a', b' := a.Charged(at, amount), b.Charged(at, otherAmount);
    assert amount + a'.tokens + a.rate * JointWait(a', b') == HeldAtStart(a, b, at, amount, otherAmount);
    hide Bucket.Charged, JointWait, Start, Sum, HeldAtStart, Orderly;
    forall own: seq<Charge>, other: seq<Charge>, j: nat
      | Orderly(at, own) && Orderly(at, other) && Paired(own, other) && j < |own|
      ensures amount + Sum(own, 0, j + 1)
           <= Max(a.capacity, amount) + a.rate * (Start(a', own, b', other, j) - (at + JointWait(a', b')))
    {
      BehindHeldBack(a', b', own, other, j);
    }
  }

  lemma HeldOverflows(a: Bucket, b: Bucket, at: real, amount: real, otherAmount: real)
    requires a.Valid() && b.Valid() && a.updated <= at && b.updated <= at
    requires amount >= 0.0 && otherAmount >= 0.0
    requires HeldAtStart(a, b, at, amount, otherAmount) > Max(a.capacity, amount)
    ensures !WindowHolds(a, b, at, amount, otherAmount)
  {
    hide Bucket.Refilled, Bucket.Wait;
    RefilledAtMost(a, at);
    RefilledAtMost(b, at);
    var a', b' := a.Charged(at, amount), b.Charged(at, otherAmount);
    assert amount + a'.tokens + a.rate * JointWait(a', b') == HeldAtStart(a, b, at, amount, otherAmount);
    var own, other := WorstArrival(a', b');
    hide Bucket.Charged, JointWait, Start, Sum, HeldAtStart, Orderly;
    assert Start(a', own, b', other, 0) - (at + JointWait(a', b')) == 0.0;
    assert a.rate * (Start(a', own, b', other, 0) - (at + JointWait(a', b'))) == 0.0;
    assert amount + Sum(own, 0, 0 + 1) > Max(a.capacity, amount);
  }

  /** "Neither limit is ever exceeded" holds from a caller's start on exactly when what its bucket
      held before the charge, refilled for as long as the caller is held back, fits the limit. */
  lemma WindowHoldsExactly(a: Bucket, b: Bucket, at: real, amount: real, otherAmount: real)
    requires a.Valid() && b.Valid() && a.updated <= at && b.updated <= at
    requires amount >= 0.0 && otherAmount >= 0.0
    ensures WindowHolds(a, b, at, amount, otherAmount)
       <==> HeldAtStart(a, b, at, amount, otherAmount) <= Max(a.capacity, amount)
  {
    hide WindowHolds, HeldAtStart;
    if HeldAtStart(a, b, at, amount, otherAmount) <= Max(a.capacity, amount) {
      HeldFits(a, b, at, amount, otherAmount);
    } else {
      HeldOverflows(a, b, at, amount, otherAmount);
    }
  }

  // ----- the same for callers that ask for one request each, as the bus does -----

  /** The window that opens when a caller starts keeps the request limit, whatever single requests arrive afterwards. */
  ghost predicate UnitWindowHolds(requests: Bucket, tokens: Bucket, at: real, amount: real)
    requires requests.rate > 0.0 && tokens.rate > 0.0
  {
    var requests', tokens' := requests.Charged(at, 1.0), tokens.Charged(at, amount);
    forall rs: seq<Charge>, ts: seq<Charge>, j: nat ::
      Orderly(at, rs) && Orderly(at, ts) && Paired(rs, ts) && AllUnits(rs) && j < |rs| ==>
        1.0 + Sum(rs, 0, j + 1)
          <= Max(requests.capacity, 1.0)
           + requests.rate * (Start(requests', rs, tokens', ts, j) - (at + JointWait(requests', tokens')))
  }

  predicate AllUnits(rs: seq<Charge>) {
    forall k :: 0 <= k < |rs| ==> rs[k].amount == 1.0
  }

  /** `n` equal charges at once. */
  function Burst(at: real, amount: real, n: nat): seq<Charge> {
    seq(n, _ => Charge(at, amount))
  }

  lemma {:induction false} AfterBurst(b: Bucket, amount: real, n: nat, k: nat)
    requires b.Valid() && amount >= 0.0 && k <= n
    ensures After(b, Burst(b.updated, amount, n), k) == b.(tokens := b.tokens - k as real * amount)
    ensures Sum(Burst(b.updated, amount, n), 0, k) == k as real * amount
  {
    hide Bucket.Wait, Bucket.Charged;
    if k > 0 {
      AfterBurst(b, amount, n, k - 1);
      assert k as real == (k - 1) as real + 1.0;
      Distribute(amount, 0.0, (k - 1) as real, k as real);
      Scale(amount, 0.0, (k - 1) as real);
      ChargedAtOnce(b.(tokens := b.tokens - (k - 1) as real * amount), amount);
    }
  }

  lemma ChargedAtOnce(b: Bucket, amount: real)
    requires b.Valid()
    ensures b.Charged(b.updated, amount) == b.(tokens := b.tokens - amount)
  {
  }

  /** What the last of a burst of single requests is told to wait for. */
  lemma BurstOfRequests(b: Bucket, n: nat)
    requires b.Valid() && n > 0
    ensures var rs := Burst(b.updated, 1.0, n);
            && Orderly(b.updated, rs) && AllUnits(rs) && Sum(rs, 0, n) == n as real
            && Repays(b.rate, b.updated, Grant(b, rs, n - 1), b.tokens - n as real)
  {
    hide Bucket.Wait, Bucket.Charged;
    AfterBurst(b, 1.0, n, n);
    hide After, Grant, Sum, Repays;
    GrantPays(b, Burst(b.updated, 1.0, n), n - 1);
  }

  /** No bound holds for callers that do not take turns: enough of them at once make the last one wait longer. */
  lemma ConcurrentWaitsAreUnbounded(b: Bucket, bound: real) returns (n: nat)
    requires b.Valid()
    ensures n > 0 && Orderly(b.updated, Burst(b.updated, 1.0, n))
    ensures Grant(b, Burst(b.updated, 1.0, n), n - 1) - b.updated > bound
  {
    hide Grant, Orderly, AllUnits, Repays;
    n := Max(0.0, b.tokens + b.rate * bound).Floor + 1;
    BurstOfRequests(b, n);
    WaitsLonger(b, Grant(b, Burst(b.updated, 1.0, n), n - 1), bound, n as real);
  }

  lemma WaitsLonger(b: Bucket, grant: real, bound: real, n: real)
    requires b.rate > 0.0 && n > b.tokens + b.rate * bound && Repays(b.rate, b.updated, grant, b.tokens - n)
    ensures grant - b.updated > bound
  {
    Unscale(b.rate, grant - b.updated, bound);
  }

  /** A burst that takes nothing is told to wait for the debt that is there. */
  lemma BurstOfNothing(b: Bucket, n: nat)
    requires b.Valid() && n > 0
    ensures Orderly(b.updated, Burst(b.updated, 0.0, n))
    ensures Grant(b, Burst(b.updated, 0.0, n), n - 1) == b.updated + b.Wait()
  {
    hide Bucket.Wait, Bucket.Charged;
    AfterBurst(b, 0.0, n, n);
    hide After;
  }

  /** As many single requests at once as leave the last of them waiting longest for its own bucket. */
  lemma UnitArrivals(requests: Bucket, tokens: Bucket) returns (rs: seq<Charge>, ts: seq<Charge>, n: nat)
    requires requests.Valid() && tokens.Valid() && requests.updated == tokens.updated
    ensures n > 0 && |rs| == n && Orderly(requests.updated, rs) && Orderly(tokens.updated, ts)
    ensures Paired(rs, ts) && AllUnits(rs)
    ensures Sum(rs, 0, n) == n as real
    ensures requests.rate * (Start(requests, rs, tokens, ts, n - 1) - requests.updated) == n as real - requests.tokens
  {
    var wait := JointWait(requests, tokens);
    WaitCovers(requests, 0.0);
    hide Bucket.Wait, Grant, Sum, Orderly, AllUnits, Repays;
    n := Max(0.0, requests.tokens + requests.rate * wait).Floor + 1;
    rs, ts := Burst(requests.updated, 1.0, n), Burst(tokens.updated, 0.0, n);
    BurstOfRequests(requests, n);
    BurstOfNothing(tokens, n);
    LongestForRequests(requests, Grant(requests, rs, n - 1), wait, n as real);
  }

  lemma LongestForRequests(b: Bucket, grant: real, wait: real, n: real)
    requires b.rate > 0.0 && wait >= 0.0 && n >= Max(0.0, b.tokens + b.rate * wait)
    requires Repays(b.rate, b.updated, grant, b.tokens - n)
    ensures b.rate * (grant - b.updated) == n - b.tokens && grant >= b.updated + wait
  {
    Scale(b.rate, 0.0, wait);
    Unscale(b.rate, wait, grant - b.updated);
  }

  lemma HeldOverflowsUnits(requests: Bucket, tokens: Bucket, at: real, amount: real)
    requires requests.Valid() && tokens.Valid() && requests.updated <= at && tokens.updated <= at && amount >= 0.0
    requires HeldAtStart(requests, tokens, at, 1.0, amount) > Max(requests.capacity, 1.0)
    ensures !UnitWindowHolds(requests, tokens, at, amount)
  {
    hide Bucket.Refilled, Bucket.Wait;
    RefilledAtMost(requests, at);
    RefilledAtMost(tokens, at);
    var requests', tokens' := requests.Charged(at, 1.0), tokens.Charged(at, amount);
    var wait := JointWait(requests', tokens');
    assert 1.0 + requests'.tokens + requests.rate * wait == HeldAtStart(requests, tokens, at, 1.0, amount);
    var rs, ts, n := UnitArrivals(requests', tokens');
    hide Bucket.Charged, JointWait, Start, Sum, HeldAtStart, Orderly;
    var last := Start(requests', rs, tokens', ts, n - 1);
    Distribute(requests.rate, at, at + wait, last);
    assert 1.0 + Sum(rs, 0, (n - 1) + 1) > Max(requests.capacity, 1.0) + requests.rate * (last - (at + wait));
  }

  lemma UnitsAreArrivals(requests: Bucket, tokens: Bucket, at: real, amount: real)
    requires requests.rate > 0.0 && tokens.rate > 0.0 && WindowHolds(requests, tokens, at, 1.0, amount)
    ensures UnitWindowHolds(requests, tokens, at, amount)
  {
    hide Bucket.Charged, JointWait, Start, Sum, Orderly;
  }

  /** For callers that spend one request each the claim holds under exactly the same condition. */
  lemma UnitWindowHoldsExactly(requests: Bucket, tokens: Bucket, at: real, amount: real)
    requires requests.Valid() && tokens.Valid() && requests.updated <= at && tokens.updated <= at && amount >= 0.0
    ensures UnitWindowHolds(requests, tokens, at, amount)
       <==> HeldAtStart(requests, tokens, at, 1.0, amount) <= Max(requests.capacity, 1.0)
  {
    hide HeldAtStart, WindowHolds, UnitWindowHolds;
    if HeldAtStart(requests, tokens, at, 1.0, amount) <= Max(requests.capacity, 1.0) {
      HeldFits(requests, tokens, at, 1.0, amount);
      UnitsAreArrivals(requests, tokens, at, amount);
    } else {
      HeldOverflowsUnits(requests, tokens, at, amount);
    }
  }

  /** A caller that its own bucket holds back longest opens a window that keeps the limit. */
  lemma BindingDimensionHolds(a: Bucket, b: Bucket, at: real, amount: real, otherAmount: real)
    requires a.Valid() && b.Valid() && a.updated <= at && b.updated <= at
    requires amount >= 0.0 && otherAmount >= 0.0
    requires b.Charged(at, otherAmount).Wait() <= a.Charged(at, amount).Wait()
    ensures WindowHolds(a, b, at, amount, otherAmount)
  {
    hide Bucket.Refilled, Bucket.Wait, WindowHolds;
    WaitCovers(a.Charged(at, amount), 0.0);
    RefilledAtMost(a, at);
    HeldFits(a, b, at, amount, otherAmount);
  }

  lemma RefilledAtMost(b: Bucket, at: real)
    ensures b.Refilled(at) <= b.capacity
  {
  }

  lemma RequestsInTurn(requests: Bucket, rs: seq<Charge>)
    requires requests == Fresh(1.0 / 60.0, 1.0, 0.0)
    requires rs == [Charge(0.0, 1.0), Charge(60.0, 1.0), Charge(120.0, 1.0)]
    ensures Grant(requests, rs, 0) == 0.0 && Grant(requests, rs, 1) == 60.0 && Grant(requests, rs, 2) == 120.0
  {
    hide Bucket.Charged, Bucket.Wait;
    OneAMinute(requests, 0.0);
    OneAMinute(Bucket(1.0 / 60.0, 1.0, 0.0, 0.0), 60.0);
    OneAMinute(Bucket(1.0 / 60.0, 1.0, 0.0, 60.0), 120.0);
    assert After(requests, rs, 1) == Bucket(1.0 / 60.0, 1.0, 0.0, 0.0);
    assert After(requests, rs, 2) == Bucket(1.0 / 60.0, 1.0, 0.0, 60.0);
    assert After(requests, rs, 3) == Bucket(1.0 / 60.0, 1.0, 0.0, 120.0);
  }

  /** On a limit of one a minute, a full bucket, or one that was emptied a minute ago, grants one at once. */
  lemma OneAMinute(b: Bucket, at: real)
    requires b.rate == 1.0 / 60.0 && b.capacity == 1.0 && b.updated <= at
    requires b.tokens == 1.0 || (b.tokens == 0.0 && at == b.updated + 60.0)
    ensures b.Charged(at, 1.0) == Bucket(1.0 / 60.0, 1.0, 0.0, at)
    ensures b.Charged(at, 1.0).Wait() == 0.0
  {
    var refill := (at - b.updated) * b.rate;
    if b.tokens == 1.0 {
      Scale(b.rate, 0.0, at - b.updated);
    } else {
      assert 60.0 * (1.0 / 60.0) == 1.0;
    }
    assert b.Refilled(at) == 1.0;
    TimesQuotient(b.rate, 0.0);
    WaitCovers(b.Charged(at, 1.0), 0.0);
  }

  lemma TokensInDebt(tokens: Bucket, ts: seq<Charge>)
    requires tokens == Fresh(1.0, 60.0, 0.0)
    requires ts == [Charge(0.0, 180.0), Charge(60.0, 0.0), Charge(120.0, 0.0)]
    ensures Grant(tokens, ts, 0) == 120.0 && Grant(tokens, ts, 1) == 120.0 && Grant(tokens, ts, 2) == 120.0
  {
    hide Bucket.Charged, Bucket.Wait;
    var one, two := Bucket(1.0, 60.0, -120.0, 0.0), Bucket(1.0, 60.0, -60.0, 60.0);
    DebtPaidAtRateOne(tokens, 0.0, 180.0);
    DebtPaidAtRateOne(one, 60.0, 0.0);
    DebtPaidAtRateOne(two, 120.0, 0.0);
    assert After(tokens, ts, 1) == one;
    assert After(tokens, ts, 2) == two;
  }

  lemma DebtPaidAtRateOne(b: Bucket, at: real, amount: real)
    requires b.rate == 1.0 && b.updated <= at && b.capacity == 60.0
    ensures b.Charged(at, amount) == Bucket(1.0, 60.0, Min(60.0, b.tokens + at - b.updated) - amount, at)
    ensures b.Charged(at, amount).Wait() == Max(0.0, -b.Charged(at, amount).tokens)
  {
  }

  /** Three callers on a limit of one request a minute: the second and third are held back only by the
      first one's tokens, their requests refill meanwhile, and all three start at the same instant. */
  lemma ThreeStartAtOnce(requests: Bucket, rs: seq<Charge>, tokens: Bucket, ts: seq<Charge>)
    requires requests == Fresh(1.0 / 60.0, 1.0, 0.0) && tokens == Fresh(1.0, 60.0, 0.0)
    requires rs == [Charge(0.0, 1.0), Charge(60.0, 1.0), Charge(120.0, 1.0)]
    requires ts == [Charge(0.0, 180.0), Charge(60.0, 0.0), Charge(120.0, 0.0)]
    ensures forall k :: 0 <= k < 3 ==> Start(requests, rs, tokens, ts, k) == 120.0
    ensures Sum(rs, 0, 3) == 3.0 * requests.capacity
  {
    hide Grant;
    RequestsInTurn(requests, rs);
    TokensInDebt(tokens, ts);
    assert Sum(rs, 0, 1) == 1.0 && Sum(rs, 0, 2) == 2.0;
  }
}
