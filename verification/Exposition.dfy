/** `CostCollector.Collect`: the Prometheus series a snapshot is turned into.
    A series is identified by its metric family and its label values. */
module Exposition {
  import opened Bags
  import opened Domain
  import opened Snapshots
  import Text

  /** The metric descriptors; the indexed ones follow the collector's arrays. */
  datatype Family =
    | CostFamily(window: string, kind: string)
    | ForecastFamily(bound: nat)
    | AccountInfo
    | BudgetFamily(figure: nat)
    | TagFamily(span: nat)
    | CommitmentFamily(measure: nat)
    | AnomalyFamily(fact: nat)

  datatype SeriesID = SeriesID(family: Family, labels: seq<string>)

  datatype Sample = Sample(id: SeriesID, value: real)

  function Gauge(family: Family, labels: seq<string>, value: real): Sample {
    Sample(SeriesID(family, labels), value)
  }

  predicate Indexed(c: Cost) { KnownWindow(c.window) && KnownKind(c.dimension.kind) }

  function RatioSamples(c: Commitment): seq<Sample> {
    var base := [c.target, c.kind, c.timeUnit];
    When(c.hasUtilization, Gauge(CommitmentFamily(0), base, c.utilization))
    + When(c.hasCoverage, Gauge(CommitmentFamily(1), base, c.coverage))
    + When(c.hasUnusedHours, Gauge(CommitmentFamily(2), base, c.unusedHours))
  }

  function AmountSample(c: Commitment, measure: nat, money: Money): Sample {
    Gauge(CommitmentFamily(measure), [c.target, c.kind, c.timeUnit, money.currency], money.amount)
  }

  function AmountSamples(c: Commitment): seq<Sample> {
    When(c.hasCoveredSpend, AmountSample(c, 3, c.coveredSpend))
    + When(c.hasOnDemandCost, AmountSample(c, 4, c.onDemandCost))
    + When(c.hasNetSavings, AmountSample(c, 5, c.netSavings))
  }

  /** The samples pushed for one record. */
  function Samples(r: Record): seq<Sample> {
    match r
    case CostR(c) =>
      var labels := [c.target, c.provider, c.basis, c.amount.currency]
                    + When(c.dimension.kind != TOTAL, c.dimension.value);
      When(Indexed(c), Gauge(CostFamily(c.window, c.dimension.kind), labels, c.amount.amount))
    case ForecastR(f) =>
      [Gauge(ForecastFamily(0), [f.target, f.provider, f.basis, f.mean.currency], f.mean.amount),
       Gauge(ForecastFamily(1), [f.target, f.provider, f.basis, f.lower.currency], f.lower.amount),
       Gauge(ForecastFamily(2), [f.target, f.provider, f.basis, f.upper.currency], f.upper.amount)]
    case AccountR(a) =>
      [Gauge(AccountInfo, [a.target, a.accountID, a.name, a.status], 1.0)]
    case BudgetR(b) =>
      [Gauge(BudgetFamily(0), [b.target, b.name, b.limit.currency, b.kind, b.timeUnit], b.limit.amount)]
      + When(b.hasActual,
             Gauge(BudgetFamily(1), [b.target, b.name, b.actual.currency, b.kind, b.timeUnit], b.actual.amount))
      + When(b.hasForecasted,
             Gauge(BudgetFamily(2), [b.target, b.name, b.forecasted.currency, b.kind, b.timeUnit], b.forecasted.amount))
    case TagR(t) =>
      [Gauge(TagFamily(if t.window == MONTH_TO_DATE then 1 else 0),
             [t.target, t.provider, t.basis, t.amount.currency, t.tagKey, t.tagValue], t.amount.amount)]
    case CommitmentR(c) => RatioSamples(c) + AmountSamples(c)
    case AnomalyR(a) =>
      [Gauge(AnomalyFamily(0), [a.target], if a.active then 1.0 else 0.0),
       Gauge(AnomalyFamily(1), [a.target], a.count as real)]
      + When(a.hasImpact, Gauge(AnomalyFamily(2), [a.target, a.impact.currency], a.impact.amount))
      + When(a.lastDetected != ZERO_TIME, Gauge(AnomalyFamily(3), [a.target], (a.lastDetected - UNIX_EPOCH) as real))
  }

  function IDs(r: Record): seq<SeriesID> { Map((x: Sample) => x.id, Samples(r)) }

  /** The records in the order a scrape visits them: accounts before budgets. */
  function Visited(s: Snapshot): seq<Record> {
    Map(c => CostR(c), s.costs) + Map(f => ForecastR(f), s.forecasts) + Map(a => AccountR(a), s.accounts)
    + Map(b => BudgetR(b), s.budgets) + Map(t => TagR(t), s.tagCosts)
    + Map(c => CommitmentR(c), s.commitments) + Map(a => AnomalyR(a), s.anomalies)
  }

  function Exposed(s: Snapshot): seq<Sample> { FlatMap(Samples, Visited(s)) }

  function ExposedIDs(s: Snapshot): seq<SeriesID> { FlatMap(IDs, Visited(s)) }

  /** What the record constructors guarantee: a total has no value, the three
      forecast amounts share a currency, tag windows are the two known ones. */
  predicate WellFormed(r: Record) {
    match r
    case CostR(c) => c.dimension.kind == TOTAL ==> c.dimension.value == ""
    case ForecastR(f) => f.lower.currency == f.mean.currency && f.upper.currency == f.mean.currency
    case TagR(t) => KnownWindow(t.window)
    case _ => true
  }

  // ------------------------------------------------- no series appears twice

  /** The uniqueness-key fields that a series' family and labels determine. */
  function FieldsOf(id: SeriesID): seq<string> {
    var l := id.labels;
    match id.family
    case CostFamily(w, k) =>
      if |l| == 4 then ["cost", l[0], l[1], l[2], w, k, "", l[3]]
      else if |l| == 5 then ["cost", l[0], l[1], l[2], w, k, l[4], l[3]]
      else []
    case ForecastFamily(_) => if |l| == 4 then ["forecast", l[0], l[1], l[2], l[3]] else []
    case AccountInfo => if |l| == 4 then ["account", l[0], l[1], l[2], l[3]] else []
    case BudgetFamily(i) =>
      if |l| != 5 then [] else
      ["budget", l[0], l[1], l[3], l[4], if i == 0 then "limit" else if i == 1 then "actual" else "forecasted", l[2]]
    case TagFamily(i) =>
      if |l| != 6 then [] else
      ["tag", l[0], l[1], l[2], if i == 0 then DAILY else MONTH_TO_DATE, l[4], l[5], l[3]]
    case CommitmentFamily(i) =>
      if |l| == 3 then
        ["commitment", l[0], l[1], l[2],
         if i == 0 then "utilization" else if i == 1 then "coverage" else "unused_hours"]
      else if |l| == 4 then
        ["commitment", l[0], l[1], l[2],
         if i == 3 then "covered_spend" else if i == 4 then "on_demand_cost" else "net_savings", l[3]]
      else []
    case AnomalyFamily(i) =>
      if |l| == 1 then ["anomaly", l[0], if i == 0 then "active" else if i == 1 then "count" else "last_detected"]
      else if |l| == 2 then ["anomaly", l[0], "impact", l[1]]
      else []
  }

  function KeyOf(id: SeriesID): string { Text.Join(FieldsOf(id)) }

  lemma SampleFieldsAreKeyFields(r: Record, x: Sample)
    requires WellFormed(r) && x in Samples(r)
    ensures FieldsOf(x.id) in KeyFields(r)
  {
    match r
    case BudgetR(b) => BudgetFields(b, x);
    case CommitmentR(c) => CommitmentFields(c, x);
    case AnomalyR(a) => AnomalyFields(a, x);
    case CostR(c) =>
      assert FieldsOf(x.id) == KeyFields(r)[0];
    case ForecastR(f) =>
      assert FieldsOf(x.id) == KeyFields(r)[0];
    case AccountR(a) =>
    case TagR(t) =>
  }

  lemma BudgetFields(b: Budget, x: Sample)
    requires x in Samples(BudgetR(b))
    ensures FieldsOf(x.id) in KeyFields(BudgetR(b))
  {
  }

  lemma CommitmentFields(c: Commitment, x: Sample)
    requires x in Samples(CommitmentR(c))
    ensures FieldsOf(x.id) in KeyFields(CommitmentR(c))
  {
  }

  lemma AnomalyFields(a: Anomaly, x: Sample)
    requires x in Samples(AnomalyR(a))
    ensures FieldsOf(x.id) in KeyFields(AnomalyR(a))
  {
  }

  lemma SeriesDetermineTheirKey(r: Record, id: SeriesID)
    requires WellFormed(r) && id in IDs(r)
    ensures KeyOf(id) in Keys(r)
  {
    var i :| 0 <= i < |IDs(r)| && IDs(r)[i] == id;
    SampleFieldsAreKeyFields(r, Samples(r)[i]);
    var k :| 0 <= k < |KeyFields(r)| && KeyFields(r)[k] == FieldsOf(id);
    assert Keys(r)[k] == KeyOf(id);
  }

  /** The samples carry pairwise different identities. */
  ghost predicate Separate(xs: seq<Sample>) {
    forall i, j :: 0 <= i < j < |xs| ==> xs[i].id != xs[j].id
  }

  lemma RatiosSeparate(c: Commitment)
    ensures Separate(RatioSamples(c))
    ensures forall x :: x in RatioSamples(c) ==> x.id.family.CommitmentFamily? && x.id.family.measure < 3
  {
  }

  lemma AmountsSeparate(c: Commitment)
    ensures Separate(AmountSamples(c))
    ensures forall x :: x in AmountSamples(c) ==> x.id.family.CommitmentFamily? && x.id.family.measure >= 3
  {
  }

  lemma SeparateJoin(a: seq<Sample>, b: seq<Sample>)
    requires Separate(a) && Separate(b) && forall x, y :: x in a && y in b ==> x.id.family != y.id.family
    ensures Separate(a + b)
  {
    var all := a + b;
    forall i, j | 0 <= i < j < |all| ensures all[i].id != all[j].id {
      if i < |a| <= j {
        assert a[i] in a && b[j - |a|] in b;
      }
    }
  }

  /** Ratios belong to the first three families, amounts to the others. */
  lemma MeasuresSeparate(a: seq<Sample>, b: seq<Sample>, all: seq<Sample>)
    requires all == a + b
    requires Separate(a) && forall x :: x in a ==> x.id.family.CommitmentFamily? && x.id.family.measure < 3
    requires Separate(b) && forall y :: y in b ==> y.id.family.CommitmentFamily? && y.id.family.measure >= 3
    ensures Separate(all)
  {
    SeparateJoin(a, b);
  }

  lemma CommitmentSeparate(c: Commitment)
    ensures Separate(Samples(CommitmentR(c)))
  {
    RatiosSeparate(c);
    AmountsSeparate(c);
    MeasuresSeparate(RatioSamples(c), AmountSamples(c), Samples(CommitmentR(c)));
  }

  lemma BudgetSeparate(b: Budget)
    ensures Separate(Samples(BudgetR(b)))
  {
  }

  lemma AnomalySeparate(a: Anomaly)
    ensures Separate(Samples(AnomalyR(a)))
  {
  }

  lemma OneRecordRepeatsNothing(r: Record)
    ensures Distinct(IDs(r))
  {
    match r
    case BudgetR(b) => BudgetSeparate(b);
    case CommitmentR(c) => CommitmentSeparate(c);
    case AnomalyR(a) => AnomalySeparate(a);
    case _ =>
    assert Separate(Samples(r));
  }

  lemma {:induction false} DistinctKeysGiveDistinctSeries(rs: seq<Record>)
    requires Distinct(FlatMap(Keys, rs))
    requires forall r :: r in rs ==> WellFormed(r)
    ensures Distinct(FlatMap(IDs, rs))
  {
    if rs != [] {
      var r, rest := rs[0], rs[1..];
      assert forall x :: x in rest ==> x in rs;
      DistinctAppend(Keys(r), FlatMap(Keys, rest));
      DistinctKeysGiveDistinctSeries(rest);
      OneRecordRepeatsNothing(r);
      forall id | id in IDs(r) ensures id !in FlatMap(IDs, rest) {
        if id in FlatMap(IDs, rest) {
          InFlatMap(IDs, rest, id);
          var q :| q in rest && id in IDs(q);
          SeriesDetermineTheirKey(r, id);
          SeriesDetermineTheirKey(q, id);
          InFlatMap(Keys, rest, KeyOf(id));
        }
      }
      DistinctAppend(IDs(r), FlatMap(IDs, rest));
    }
  }

  lemma VisitedIsAllRecords(s: Snapshot)
    ensures Permutation(Visited(s), Records(s))
  {
  }

  /** A snapshot that passed the uniqueness check never exposes two samples with
      the same metric family and label values. */
  lemma ExpositionHasNoDuplicates(s: Snapshot)
    requires Unique(s)
    requires forall r :: r in Records(s) ==> WellFormed(r)
    ensures Distinct(ExposedIDs(s))
  {
    VisitedIsAllRecords(s);
    PermutationFacts(Visited(s), Records(s));
    FlatMapPermutes(Keys, Visited(s), Records(s));
    DistinctPermutes(FlatMap(Keys, Visited(s)), FlatMap(Keys, Records(s)));
    DistinctKeysGiveDistinctSeries(Visited(s));
  }

  // --------------------------------------------- how many series are exposed

  predicate Unindexed(r: Record) { r.CostR? && !Indexed(r.cost) }

  lemma RecordExposesItsSeries(r: Record)
    ensures |Samples(r)| == Series(r) - One(Unindexed(r))
  {
  }

  lemma {:induction false} LengthsAddUp<T, U>(f: T -> seq<U>, g: T -> int, p: T -> bool, s: seq<T>)
    requires forall x :: x in s ==> |f(x)| == g(x) - One(p(x))
    ensures |FlatMap(f, s)| == Sum(g, s) - |Filter(p, s)|
  {
    if s != [] {
      assert forall x :: x in s[1..] ==> x in s;
      LengthsAddUp(f, g, p, s[1..]);
    }
  }

  lemma RecordsExposeTheirSeries(rs: seq<Record>)
    ensures |FlatMap(Samples, rs)| == Sum(Series, rs) - |Filter(Unindexed, rs)|
  {
    forall r | r in rs ensures |Samples(r)| == Series(r) - One(Unindexed(r)) {
      RecordExposesItsSeries(r);
    }
    LengthsAddUp(Samples, Series, Unindexed, rs);
  }

  /** A scrape emits exactly `SeriesCount` samples, less one for each cost whose
      window or dimension kind has no descriptor. */
  lemma ExpositionMatchesSeriesCount(s: Snapshot)
    ensures |Exposed(s)| == SeriesCount(s) - |Filter(Unindexed, Records(s))|
    ensures |Exposed(s)| == SeriesCount(s) <==> forall c :: c in s.costs ==> Indexed(c)
  {
    VisitedIsAllRecords(s);
    FlatMapPermutes(Samples, Visited(s), Records(s));
    PermutationFacts(Exposed(s), FlatMap(Samples, Records(s)));
    RecordsExposeTheirSeries(Records(s));
    UnindexedCosts(s);
  }

  lemma UnindexedCosts(s: Snapshot)
    ensures Filter(Unindexed, Records(s)) == [] <==> forall c :: c in s.costs ==> Indexed(c)
  {
    var rs := Records(s);
    forall c | c in s.costs ensures CostR(c) in rs {
      var i :| 0 <= i < |s.costs| && s.costs[i] == c;
      assert rs[i] == CostR(c);
    }
    if forall c :: c in s.costs ==> Indexed(c) {
      forall r | r in rs ensures !Unindexed(r) {
        var i :| 0 <= i < |rs| && rs[i] == r;
        if r.CostR? {
          assert i < |s.costs|;
          assert r.cost == s.costs[i];
        }
      }
      FilterNone(Unindexed, rs);
    } else {
      var c :| c in s.costs && !Indexed(c);
      InFilter(Unindexed, rs, CostR(c));
    }
  }
}
