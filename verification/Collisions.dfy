/** Exactly when a snapshot that passed the uniqueness check exposes a series twice. */
module Collisions {
  import opened Bags
  import opened Domain
  import opened Snapshots
  import opened Exposition
  import Text

  /** The same target, provider and basis. */
  predicate SameSource(t: string, p: string, b: string, t': string, p': string, b': string) {
    t == t' && p == p' && b == b'
  }

  /** Two totals that their values alone tell apart: the value is no label of theirs. */
  predicate CostsCollide(a: Cost, b: Cost) {
    && Indexed(a) && Indexed(b) && a.dimension.kind == TOTAL && b.dimension.kind == TOTAL
    && SameSource(a.target, a.provider, a.basis, b.target, b.provider, b.basis)
    && a.window == b.window && a.amount.currency == b.amount.currency
  }

  /** Two forecasts of one source that share the currency of a bound. */
  predicate ForecastsCollide(a: Forecast, b: Forecast) {
    && SameSource(a.target, a.provider, a.basis, b.target, b.provider, b.basis)
    && (|| a.mean.currency == b.mean.currency
        || a.lower.currency == b.lower.currency
        || a.upper.currency == b.upper.currency)
  }

  /** Two tag costs that are told apart by their windows alone, although both are
      exported as daily: every window but month-to-date is. */
  predicate TagsCollide(a: TagCost, b: TagCost) {
    && SameSource(a.target, a.provider, a.basis, b.target, b.provider, b.basis)
    && (a.window == MONTH_TO_DATE <==> b.window == MONTH_TO_DATE)
    && a.tagKey == b.tagKey && a.tagValue == b.tagValue && a.amount.currency == b.amount.currency
  }

  predicate Collide(r: Record, q: Record) {
    match (r, q)
    case (CostR(a), CostR(b)) => CostsCollide(a, b)
    case (ForecastR(a), ForecastR(b)) => ForecastsCollide(a, b)
    case (TagR(a), TagR(b)) => TagsCollide(a, b)
    case _ => false
  }

  ghost predicate Disjoint<T>(a: seq<T>, b: seq<T>) { forall x :: x in a ==> x !in b }

  // ------------------------------------------------------------ pair by pair

  lemma OneEach<T>(a: seq<T>, b: seq<T>)
    requires |a| == |b| == 1
    ensures Disjoint(a, b) <==> a[0] != b[0]
  {
    assert a[0] in a && b[0] in b;
  }

  lemma CostLabels(c: Cost, id: SeriesID)
    requires Indexed(c) && id == Samples(CostR(c))[0].id
    ensures id.family == CostFamily(c.window, c.dimension.kind) && |id.labels| >= 4
    ensures id.labels[0] == c.target && id.labels[1] == c.provider
    ensures id.labels[2] == c.basis && id.labels[3] == c.amount.currency
    ensures c.dimension.kind == TOTAL ==> id.labels == [c.target, c.provider, c.basis, c.amount.currency]
  {
  }

  lemma CostPair(a: Cost, b: Cost)
    requires Disjoint(Keys(CostR(a)), Keys(CostR(b)))
    ensures Disjoint(IDs(CostR(a)), IDs(CostR(b))) <==> !CostsCollide(a, b)
  {
    if Indexed(a) && Indexed(b) && a.dimension.kind == b.dimension.kind != TOTAL {
      PlainPair(CostR(a), CostR(b));
    } else if Indexed(a) && Indexed(b) {
      var x, y := Samples(CostR(a))[0].id, Samples(CostR(b))[0].id;
      assert IDs(CostR(a)) == [x] && IDs(CostR(b)) == [y];
      OneEach(IDs(CostR(a)), IDs(CostR(b)));
      CostLabels(a, x);
      CostLabels(b, y);
      assert CostsCollide(a, b) ==> x.labels == y.labels;
    }
  }

  lemma ForecastPair(a: Forecast, b: Forecast)
    ensures Disjoint(IDs(ForecastR(a)), IDs(ForecastR(b))) <==> !ForecastsCollide(a, b)
  {
    var x, y := IDs(ForecastR(a)), IDs(ForecastR(b));
    assert forall i :: 0 <= i < 3 ==> x[i].family == ForecastFamily(i) && y[i].family == ForecastFamily(i);
    forall i | 0 <= i < 3
      ensures x[i] == y[i] <==>
                && SameSource(a.target, a.provider, a.basis, b.target, b.provider, b.basis)
                && x[i].labels[3] == y[i].labels[3]
    {
    }
    if ForecastsCollide(a, b) {
      assert x[0] in x && x[1] in x && x[2] in x && y[0] in y && y[1] in y && y[2] in y;
    } else {
      assert forall i, j :: 0 <= i < 3 && 0 <= j < 3 ==> x[i] != y[j];
    }
  }

  lemma TagPair(a: TagCost, b: TagCost)
    ensures Disjoint(IDs(TagR(a)), IDs(TagR(b))) <==> !TagsCollide(a, b)
  {
    var x, y := IDs(TagR(a))[0], IDs(TagR(b))[0];
    OneEach(IDs(TagR(a)), IDs(TagR(b)));
    if x == y {
      assert forall i :: 0 <= i < 6 ==> x.labels[i] == y.labels[i];
    }
  }

  /** Where every series carries a key's fields, different keys give different series. */
  lemma PlainPair(r: Record, q: Record)
    requires WellFormed(r) && WellFormed(q) && Disjoint(Keys(r), Keys(q))
    ensures Disjoint(IDs(r), IDs(q))
  {
    forall id | id in IDs(r) ensures id !in IDs(q) {
      if id in IDs(q) {
        SeriesDetermineTheirKey(r, id);
        SeriesDetermineTheirKey(q, id);
      }
    }
  }

  predicate Alike(f: Family, r: Record) {
    match r
    case CostR(_) => f.CostFamily?
    case ForecastR(_) => f.ForecastFamily?
    case BudgetR(_) => f.BudgetFamily?
    case AccountR(_) => f.AccountInfo?
    case TagR(_) => f.TagFamily?
    case CommitmentR(_) => f.CommitmentFamily?
    case AnomalyR(_) => f.AnomalyFamily?
  }

  lemma FamilyOfRecord(r: Record, id: SeriesID)
    requires id in IDs(r)
    ensures Alike(id.family, r)
  {
    var i :| 0 <= i < |IDs(r)| && IDs(r)[i] == id;
    match r
    case CommitmentR(c) =>
      RatiosSeparate(c);
      AmountsSeparate(c);
      assert Samples(r)[i] in RatioSamples(c) || Samples(r)[i] in AmountSamples(c);
    case _ =>
      assert Alike(Samples(r)[i].id.family, r);
  }

  lemma UnlikePair(r: Record, q: Record)
    requires forall f :: !(Alike(f, r) && Alike(f, q))
    ensures Disjoint(IDs(r), IDs(q))
  {
    forall id | id in IDs(r) ensures id !in IDs(q) {
      FamilyOfRecord(r, id);
      if id in IDs(q) {
        FamilyOfRecord(q, id);
      }
    }
  }

  /** Two records with different keys share a series exactly when they collide. */
  lemma Pair(r: Record, q: Record)
    requires Disjoint(Keys(r), Keys(q))
    ensures Disjoint(IDs(r), IDs(q)) <==> !Collide(r, q)
  {
    match (r, q)
    case (CostR(a), CostR(b)) => CostPair(a, b);
    case (ForecastR(a), ForecastR(b)) => ForecastPair(a, b);
    case (TagR(a), TagR(b)) => TagPair(a, b);
    case (BudgetR(_), BudgetR(_)) => PlainPair(r, q);
    case (AccountR(_), AccountR(_)) => PlainPair(r, q);
    case (CommitmentR(_), CommitmentR(_)) => PlainPair(r, q);
    case (AnomalyR(_), AnomalyR(_)) => PlainPair(r, q);
    case _ => UnlikePair(r, q);
  }

  // --------------------------------------------------------- whole snapshots

  /** Lists without repeats join to a list without repeats exactly when they are
      pairwise disjoint. */
  lemma {:induction false} DistinctPairwise<T, U>(f: T -> seq<U>, s: seq<T>)
    requires forall x :: x in s ==> Distinct(f(x))
    ensures Distinct(FlatMap(f, s)) <==> forall i, j :: 0 <= i < j < |s| ==> Disjoint(f(s[i]), f(s[j]))
  {
    if s != [] {
      var rest := s[1..];
      assert forall x :: x in rest ==> x in s;
      DistinctPairwise(f, rest);
      DistinctAppend(f(s[0]), FlatMap(f, rest));
      DisjointFromAll(f, f(s[0]), rest);
      if forall i, j :: 0 <= i < j < |s| ==> Disjoint(f(s[i]), f(s[j])) {
        forall j | 0 <= j < |rest| ensures Disjoint(f(s[0]), f(rest[j])) {
          assert Disjoint(f(s[0]), f(s[j + 1]));
        }
        forall i, j | 0 <= i < j < |rest| ensures Disjoint(f(rest[i]), f(rest[j])) {
          assert Disjoint(f(s[i + 1]), f(s[j + 1]));
        }
      } else {
        var i, j :| 0 <= i < j < |s| && !Disjoint(f(s[i]), f(s[j]));
        assert s[j] == rest[j - 1] && (i > 0 ==> s[i] == rest[i - 1]);
      }
    }
  }

  lemma DisjointFromAll<T, U>(f: T -> seq<U>, a: seq<U>, s: seq<T>)
    ensures Disjoint(a, FlatMap(f, s)) <==> forall j :: 0 <= j < |s| ==> Disjoint(a, f(s[j]))
  {
  }

  ghost predicate NoCollision(rs: seq<Record>) { forall i, j :: 0 <= i < j < |rs| ==> !Collide(rs[i], rs[j]) }

  lemma DistinctKeysPairwise(rs: seq<Record>, i: int, j: int)
    requires Distinct(FlatMap(Keys, rs)) && 0 <= i < j < |rs|
    ensures Disjoint(Keys(rs[i]), Keys(rs[j]))
  {
    forall k | k in Keys(rs[i]) ensures k !in Keys(rs[j]) {
      ValuesMeetOnce(Keys, rs, i, j, k);
    }
  }

  lemma RecordsExposedOnceIff(rs: seq<Record>)
    requires Distinct(FlatMap(Keys, rs))
    ensures Distinct(FlatMap(IDs, rs)) <==> NoCollision(rs)
  {
    forall r | r in rs ensures Distinct(IDs(r)) {
      OneRecordRepeatsNothing(r);
    }
    DistinctPairwise(IDs, rs);
    forall i, j | 0 <= i < j < |rs| ensures Disjoint(IDs(rs[i]), IDs(rs[j])) <==> !Collide(rs[i], rs[j]) {
      DistinctKeysPairwise(rs, i, j);
      Pair(rs[i], rs[j]);
    }
  }

  ghost predicate Colliding(s: Snapshot) {
    || (exists i, j :: 0 <= i < j < |s.costs| && CostsCollide(s.costs[i], s.costs[j]))
    || (exists i, j :: 0 <= i < j < |s.forecasts| && ForecastsCollide(s.forecasts[i], s.forecasts[j]))
    || (exists i, j :: 0 <= i < j < |s.tagCosts| && TagsCollide(s.tagCosts[i], s.tagCosts[j]))
  }

  lemma VisitedCollision(s: Snapshot, i: int, j: int)
    requires 0 <= i < j < |Visited(s)| && Collide(Visited(s)[i], Visited(s)[j])
    ensures Colliding(s)
  {
  }

  lemma CollisionVisited(s: Snapshot, i: int, j: int)
    requires 0 <= i < j < |Visited(s)|
    ensures var c := |s.costs|;
            var f := c + |s.forecasts|;
            var t := f + |s.accounts| + |s.budgets|;
            && (j < c && CostsCollide(s.costs[i], s.costs[j]) ==> Collide(Visited(s)[i], Visited(s)[j]))
            && (c <= i && j < f && ForecastsCollide(s.forecasts[i - c], s.forecasts[j - c]) ==>
                  Collide(Visited(s)[i], Visited(s)[j]))
            && (t <= i && j < t + |s.tagCosts| && TagsCollide(s.tagCosts[i - t], s.tagCosts[j - t]) ==>
                  Collide(Visited(s)[i], Visited(s)[j]))
  {
  }

  lemma VisitedCollideIff(s: Snapshot)
    ensures NoCollision(Visited(s)) <==> !Colliding(s)
  {
    var vs, c := Visited(s), |s.costs|;
    var t := c + |s.forecasts| + |s.accounts| + |s.budgets|;
    if i, j :| 0 <= i < j < |vs| && Collide(vs[i], vs[j]) {
      VisitedCollision(s, i, j);
    } else if i, j :| 0 <= i < j < |s.costs| && CostsCollide(s.costs[i], s.costs[j]) {
      CollisionVisited(s, i, j);
    } else if i, j :| 0 <= i < j < |s.forecasts| && ForecastsCollide(s.forecasts[i], s.forecasts[j]) {
      CollisionVisited(s, c + i, c + j);
    } else if i, j :| 0 <= i < j < |s.tagCosts| && TagsCollide(s.tagCosts[i], s.tagCosts[j]) {
      CollisionVisited(s, t + i, t + j);
    }
  }

  /** A snapshot that passed the uniqueness check exposes every series once if and
      only if no two of its costs, forecasts or tag costs collide. */
  lemma ExposedOnceIff(s: Snapshot)
    requires Unique(s)
    ensures Distinct(ExposedIDs(s)) <==> !Colliding(s)
  {
    VisitedIsAllRecords(s);
    FlatMapPermutes(Keys, Visited(s), Records(s));
    DistinctPermutes(FlatMap(Keys, Visited(s)), FlatMap(Keys, Records(s)));
    RecordsExposedOnceIff(Visited(s));
    VisitedCollideIff(s);
  }

  /** What the record constructors guarantee leaves nothing to collide. */
  lemma WellFormedNeverCollide(s: Snapshot)
    requires Unique(s) && forall r :: r in Records(s) ==> WellFormed(r)
    ensures !Colliding(s)
  {
    ExpositionHasNoDuplicates(s);
    ExposedOnceIff(s);
  }

  // --------------------------------------------- the check alone is not enough

  /** The check alone is not enough: two forecasts in different currencies whose
      lower bounds share one pass it and still collide. */
  lemma UniquenessNeedsWellFormedRecords()
    ensures exists s :: Unique(s) && !Distinct(ExposedIDs(s))
  {
    var f, g := Lopsided("EUR"), Lopsided("USD");
    var s := EMPTY.(forecasts := [f, g]);
    TwoForecasts(f, g);
    CollidingForecasts();
    PairIsUnique(ForecastR(f), ForecastR(g));
    PairShowsTwice(ForecastR(f), ForecastR(g));
    assert Unique(s) && !Distinct(ExposedIDs(s));
  }

  lemma PairIsUnique(r: Record, q: Record)
    requires IdentityValid(r) && IdentityValid(q)
    requires |Keys(r)| == 1 && |Keys(q)| == 1 && Keys(r)[0] != Keys(q)[0]
    ensures UniqueRecords([r, q])
  {
    FlatMapOfTwo(Keys, r, q);
    PairIsDistinct(Keys(r), Keys(q));
  }

  lemma PairShowsTwice(r: Record, q: Record)
    requires |IDs(r)| == |IDs(q)| == 3 && IDs(r)[1] == IDs(q)[1]
    ensures !Distinct(FlatMap(IDs, [r, q]))
  {
    FlatMapOfTwo(IDs, r, q);
    PairCollides(IDs(r), IDs(q));
  }

  lemma PairCollides<U>(a: seq<U>, b: seq<U>)
    requires |a| == |b| == 3 && a[1] == b[1]
    ensures !Distinct(a + b)
  {
    var all := a + b;
    assert all[1] == all[4];
  }

  lemma TwoForecasts(f: Forecast, g: Forecast)
    ensures var s := EMPTY.(forecasts := [f, g]);
            Records(s) == [ForecastR(f), ForecastR(g)] && Visited(s) == [ForecastR(f), ForecastR(g)]
  {
  }

  function Lopsided(currency: string): Forecast {
    Forecast("a", COST_EXPLORER, NET, Period(1, 2), Money(1.0, currency), Money(1.0, "USD"), Money(1.0, currency))
  }

  lemma CollidingForecasts()
    ensures var f, g := ForecastR(Lopsided("EUR")), ForecastR(Lopsided("USD"));
            && |Keys(f)| == 1 && |Keys(g)| == 1 && Keys(f)[0] != Keys(g)[0]
            && |IDs(f)| == 3 && |IDs(g)| == 3 && IDs(f)[1] == IDs(g)[1]
  {
    var f, g := ForecastR(Lopsided("EUR")), ForecastR(Lopsided("USD"));
    Text.JoinsDiffer(KeyFields(f)[0], KeyFields(g)[0]);
  }
}
