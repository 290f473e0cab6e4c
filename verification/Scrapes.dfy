/** What a scrape says: which series it holds, with which values, and how often. */
module Scrapes {
  import opened Bags
  import opened Domain
  import opened Snapshots
  import opened Exposition

  /** The records whose figure a sample shows: by its family, labels and value. */
  predicate Shows(r: Record, x: Sample) {
    var l, v := x.id.labels, x.value;
    match (r, x.id.family)
    case (CostR(c), CostFamily(window, kind)) =>
      && window == c.window && kind == c.dimension.kind && window in ["daily", "month_to_date"]
      && (|| (kind == "total" && l == [c.target, c.provider, c.basis, c.amount.currency])
          || (kind in ["service", "region", "account"]
              && l == [c.target, c.provider, c.basis, c.amount.currency, c.dimension.value]))
      && v == c.amount.amount
    case (ForecastR(f), ForecastFamily(i)) =>
      || (i == 0 && l == [f.target, f.provider, f.basis, f.mean.currency] && v == f.mean.amount)
      || (i == 1 && l == [f.target, f.provider, f.basis, f.lower.currency] && v == f.lower.amount)
      || (i == 2 && l == [f.target, f.provider, f.basis, f.upper.currency] && v == f.upper.amount)
    case (AccountR(a), AccountInfo) => l == [a.target, a.accountID, a.name, a.status] && v == 1.0
    case (BudgetR(b), BudgetFamily(i)) =>
      || (i == 0 && l == [b.target, b.name, b.limit.currency, b.kind, b.timeUnit] && v == b.limit.amount)
      || (i == 1 && b.hasActual
          && l == [b.target, b.name, b.actual.currency, b.kind, b.timeUnit] && v == b.actual.amount)
      || (i == 2 && b.hasForecasted
          && l == [b.target, b.name, b.forecasted.currency, b.kind, b.timeUnit] && v == b.forecasted.amount)
    case (TagR(t), TagFamily(i)) =>
      && (i == 0 <==> t.window != "month_to_date") && i <= 1
      && l == [t.target, t.provider, t.basis, t.amount.currency, t.tagKey, t.tagValue] && v == t.amount.amount
    case (CommitmentR(c), CommitmentFamily(i)) =>
      if i < 3 then
        && l == [c.target, c.kind, c.timeUnit]
        && (|| (i == 0 && c.hasUtilization && v == c.utilization)
            || (i == 1 && c.hasCoverage && v == c.coverage)
            || (i == 2 && c.hasUnusedHours && v == c.unusedHours))
      else
        || (i == 3 && c.hasCoveredSpend
            && l == [c.target, c.kind, c.timeUnit, c.coveredSpend.currency] && v == c.coveredSpend.amount)
        || (i == 4 && c.hasOnDemandCost
            && l == [c.target, c.kind, c.timeUnit, c.onDemandCost.currency] && v == c.onDemandCost.amount)
        || (i == 5 && c.hasNetSavings
            && l == [c.target, c.kind, c.timeUnit, c.netSavings.currency] && v == c.netSavings.amount)
    case (AnomalyR(a), AnomalyFamily(i)) =>
      || (i == 0 && l == [a.target] && v == (if a.active then 1.0 else 0.0))
      || (i == 1 && l == [a.target] && v == a.count as real)
      || (i == 2 && a.hasImpact && l == [a.target, a.impact.currency] && v == a.impact.amount)
      || (i == 3 && a.lastDetected != 0 && l == [a.target] && v == (a.lastDetected - UNIX_EPOCH) as real)
    case _ => false
  }

  // --------------------------------------------------------- record by record

  lemma CostSamplesShow(c: Cost, x: Sample)
    ensures x in Samples(CostR(c)) <==> Shows(CostR(c), x)
  {
    var labels := [c.target, c.provider, c.basis, c.amount.currency];
    assert labels + [c.dimension.value] == [c.target, c.provider, c.basis, c.amount.currency, c.dimension.value];
    assert labels + [] == labels;
  }

  lemma ForecastSamplesShow(f: Forecast, x: Sample)
    ensures x in Samples(ForecastR(f)) <==> Shows(ForecastR(f), x)
  {
  }

  lemma BudgetSamplesShow(b: Budget, x: Sample)
    ensures x in Samples(BudgetR(b)) <==> Shows(BudgetR(b), x)
  {
  }

  lemma RatioSamplesShow(c: Commitment, x: Sample)
    ensures x in RatioSamples(c) <==>
              Shows(CommitmentR(c), x) && x.id.family.CommitmentFamily? && x.id.family.measure < 3
  {
  }

  lemma AmountSamplesShow(c: Commitment, x: Sample)
    ensures x in AmountSamples(c) <==>
              Shows(CommitmentR(c), x) && x.id.family.CommitmentFamily? && x.id.family.measure >= 3
  {
  }

  lemma AnomalySamplesShow(a: Anomaly, x: Sample)
    ensures x in Samples(AnomalyR(a)) <==> Shows(AnomalyR(a), x)
  {
  }

  lemma SamplesShow(r: Record, x: Sample)
    ensures x in Samples(r) <==> Shows(r, x)
  {
    match r
    case CostR(c) => CostSamplesShow(c, x);
    case ForecastR(f) => ForecastSamplesShow(f, x);
    case BudgetR(b) => BudgetSamplesShow(b, x);
    case CommitmentR(c) =>
      RatioSamplesShow(c, x);
      AmountSamplesShow(c, x);
    case AnomalyR(a) => AnomalySamplesShow(a, x);
    case _ =>
  }

  // -------------------------------------------------------- the whole scrape

  /** The number of records that show a sample. */
  function Showing(x: Sample): Record -> bool { (r: Record) => Shows(r, x) }

  /** Every sample stands in the output as often as there are records that show it. */
  ghost predicate ScrapeOf(s: Snapshot, output: seq<Sample>) {
    forall x :: multiset(output)[x] == |Filter(Showing(x), Records(s))|
  }

  lemma {:induction false} CountInFlatMap<T, U>(f: T -> seq<U>, p: T -> bool, s: seq<T>, y: U)
    requires forall x :: x in s ==> multiset(f(x))[y] == if p(x) then 1 else 0
    ensures multiset(FlatMap(f, s))[y] == |Filter(p, s)|
  {
    if s != [] {
      assert forall x :: x in s[1..] ==> x in s;
      CountInFlatMap(f, p, s[1..], y);
    }
  }

  lemma {:induction false} DistinctIDsNeverRepeat(xs: seq<Sample>, x: Sample)
    requires Distinct(Map((y: Sample) => y.id, xs))
    ensures multiset(xs)[x] == if x in xs then 1 else 0
  {
    forall i, j | 0 <= i < j < |xs| ensures xs[i] != xs[j] {
      assert Map((y: Sample) => y.id, xs)[i] != Map((y: Sample) => y.id, xs)[j];
    }
    DistinctIsMultiplicityOne(xs);
  }

  lemma ExposedIsScrape(s: Snapshot)
    ensures ScrapeOf(s, Exposed(s))
  {
    forall x ensures multiset(Exposed(s))[x] == |Filter(Showing(x), Records(s))| {
      forall r | r in Visited(s) ensures multiset(Samples(r))[x] == if Showing(x)(r) then 1 else 0 {
        SamplesShow(r, x);
        OneRecordRepeatsNothing(r);
        DistinctIDsNeverRepeat(Samples(r), x);
      }
      CountInFlatMap(Samples, Showing(x), Visited(s), x);
      VisitedIsAllRecords(s);
      FilterPermutes(Showing(x), Visited(s), Records(s));
      PermutationFacts(Filter(Showing(x), Visited(s)), Filter(Showing(x), Records(s)));
    }
  }

  lemma ScrapeMembers(s: Snapshot, output: seq<Sample>, x: Sample)
    requires ScrapeOf(s, output)
    ensures x in output <==> exists r :: r in Records(s) && Shows(r, x)
  {
    assert x in output <==> multiset(output)[x] > 0;
    if r :| r in Records(s) && Shows(r, x) {
      InFilter(Showing(x), Records(s), r);
    }
    if x in output {
      var r := Filter(Showing(x), Records(s))[0];
      assert Showing(x)(r);
    }
  }

  // ---------------------------------------------------------------- the costs

  predicate HasSeries(c: Cost) {
    && c.window in ["daily", "month_to_date"]
    && c.dimension.kind in ["total", "service", "region", "account"]
  }

  /** The one sample of a cost. */
  function CostSample(c: Cost): Sample {
    Sample(
      SeriesID(
        CostFamily(c.window, c.dimension.kind),
        if c.dimension.kind == "total" then [c.target, c.provider, c.basis, c.amount.currency]
        else [c.target, c.provider, c.basis, c.amount.currency, c.dimension.value]),
      c.amount.amount)
  }

  lemma CostIsRecorded(s: Snapshot, c: Cost)
    ensures c in s.costs <==> CostR(c) in Records(s)
  {
    InMap((x: Cost) => CostR(x), s.costs, CostR(c));
    NoCostElsewhere(s, c);
  }

  lemma NoCostElsewhere(s: Snapshot, c: Cost)
    ensures CostR(c) !in Map((f: Forecast) => ForecastR(f), s.forecasts) + Map((b: Budget) => BudgetR(b), s.budgets)
    ensures CostR(c) !in AccountRecords(s.accounts) + Trailing(s)
  {
  }

  lemma CostShowsItsSample(c: Cost, x: Sample)
    ensures Shows(CostR(c), x) <==> HasSeries(c) && x == CostSample(c)
  {
  }

  /** Every cost with a series is exported with its own labels and its amount, and no
      cost series comes from anything else. */
  lemma CostsAreExported(s: Snapshot, output: seq<Sample>)
    requires ScrapeOf(s, output)
    ensures forall c :: c in s.costs && HasSeries(c) ==> CostSample(c) in output
    ensures forall x :: x in output && x.id.family.CostFamily? ==>
              exists c :: c in s.costs && HasSeries(c) && x == CostSample(c)
  {
    forall c | c in s.costs && HasSeries(c) ensures CostSample(c) in output {
      CostIsRecorded(s, c);
      CostShowsItsSample(c, CostSample(c));
      ScrapeMembers(s, output, CostSample(c));
    }
    forall x | x in output && x.id.family.CostFamily?
      ensures exists c :: c in s.costs && HasSeries(c) && x == CostSample(c)
    {
      ScrapeMembers(s, output, x);
      var r :| r in Records(s) && Shows(r, x);
      assert r.CostR?;
      CostIsRecorded(s, r.cost);
      CostShowsItsSample(r.cost, x);
    }
  }

  /** Without repeated identities, no two samples have a cost's family and labels. */
  lemma CostsAreExportedOnce(s: Snapshot, output: seq<Sample>, c: Cost, i: nat, j: nat)
    requires ScrapeOf(s, output) && Distinct(Map((x: Sample) => x.id, output)) && c in s.costs && HasSeries(c)
    requires i < |output| && j < |output| && output[i] == CostSample(c) && output[j].id == CostSample(c).id
    ensures i == j && output[j].value == c.amount.amount
  {
    var ids := Map((x: Sample) => x.id, output);
    assert ids[i] == output[i].id && ids[j] == output[j].id;
  }

  // ------------------------------------------------------------------- totals

  function CostValue(currency: string): Sample -> real {
    (x: Sample) =>
      if x.id.family.CostFamily? && |x.id.labels| >= 4 && x.id.labels[3] == currency then x.value else 0.0
  }

  function RecordValue(currency: string): Record -> real {
    (r: Record) => if r.CostR? then ExportedAmount(currency)(r.cost) else 0.0
  }

  function ExportedAmount(currency: string): Cost -> real {
    (c: Cost) => if HasSeries(c) && c.amount.currency == currency then c.amount.amount else 0.0
  }

  lemma CostSamplesAre(c: Cost)
    ensures Samples(CostR(c)) == if HasSeries(c) then [CostSample(c)] else []
  {
    var labels := [c.target, c.provider, c.basis, c.amount.currency];
    assert labels + [c.dimension.value] == [c.target, c.provider, c.basis, c.amount.currency, c.dimension.value];
    assert labels + [] == labels;
  }

  lemma {:induction false} NoValue(f: Sample -> real, xs: seq<Sample>)
    requires forall x :: x in xs ==> f(x) == 0.0
    ensures Total(f, xs) == 0.0
  {
    if xs != [] {
      assert forall x :: x in xs[1..] ==> x in xs;
      NoValue(f, xs[1..]);
    }
  }

  lemma CostSampleValue(c: Cost, currency: string)
    requires HasSeries(c)
    ensures CostValue(currency)(CostSample(c)) == ExportedAmount(currency)(c)
  {
    var x := CostSample(c);
    assert |x.id.labels| >= 4 && x.id.labels[3] == c.amount.currency;
  }

  lemma TotalOfOne<T>(f: T -> real, x: T)
    ensures Total(f, [x]) == f(x)
  {
    assert [x][1..] == [];
    assert Total(f, [x]) == f(x) + Total(f, []);
  }

  lemma CostSamplesValue(c: Cost, currency: string)
    ensures Total(CostValue(currency), Samples(CostR(c))) == ExportedAmount(currency)(c)
  {
    CostSamplesAre(c);
    if HasSeries(c) {
      CostSampleValue(c, currency);
      TotalOfOne(CostValue(currency), CostSample(c));
    }
  }

  lemma SamplesValue(r: Record, currency: string)
    ensures Total(CostValue(currency), Samples(r)) == RecordValue(currency)(r)
  {
    if r.CostR? {
      CostSamplesValue(r.cost, currency);
      assert r == CostR(r.cost);
    } else {
      forall x | x in Samples(r) ensures CostValue(currency)(x) == 0.0 {
        SamplesShow(r, x);
      }
      NoValue(CostValue(currency), Samples(r));
    }
  }

  lemma {:induction false} TotalOfFlatMap<T, U>(f: T -> seq<U>, g: U -> real, h: T -> real, s: seq<T>)
    requires forall x :: x in s ==> h(x) == Total(g, f(x))
    ensures Total(g, FlatMap(f, s)) == Total(h, s)
  {
    if s != [] {
      assert forall x :: x in s[1..] ==> x in s;
      TotalOfFlatMap(f, g, h, s[1..]);
      TotalAppend(g, f(s[0]), FlatMap(f, s[1..]));
    }
  }

  lemma {:induction false} TotalOfCosts(costs: seq<Cost>, currency: string)
    ensures Total(RecordValue(currency), Map((c: Cost) => CostR(c), costs)) == Total(ExportedAmount(currency), costs)
  {
    if costs != [] {
      assert Map((c: Cost) => CostR(c), costs)[1..] == Map((c: Cost) => CostR(c), costs[1..]);
      TotalOfCosts(costs[1..], currency);
    }
  }

  lemma {:induction false} NoCostValue(rs: seq<Record>, currency: string)
    requires forall r :: r in rs ==> !r.CostR?
    ensures Total(RecordValue(currency), rs) == 0.0
  {
    if rs != [] {
      assert rs[0] in rs && forall r :: r in rs[1..] ==> r in rs;
      NoCostValue(rs[1..], currency);
    }
  }

  lemma TotalOfVisited(s: Snapshot, currency: string)
    ensures Total(RecordValue(currency), Visited(s)) == Total(ExportedAmount(currency), s.costs)
  {
    var costs: seq<Record> := Map((c: Cost) => CostR(c), s.costs);
    var rest := Visited(s)[|costs|..];
    assert Visited(s) == costs + rest;
    TotalAppend(RecordValue(currency), costs, rest);
    TotalOfCosts(s.costs, currency);
    forall r | r in rest ensures !r.CostR? {
    }
    NoCostValue(rest, currency);
  }

  /** In every currency the exported cost series total the costs that have a series. */
  ghost predicate TotalsExported(s: Snapshot, output: seq<Sample>) {
    forall currency :: Total(CostValue(currency), output) == Total(ExportedAmount(currency), s.costs)
  }

  lemma ExposedTotals(s: Snapshot)
    ensures TotalsExported(s, Exposed(s))
  {
    forall currency ensures Total(CostValue(currency), Exposed(s)) == Total(ExportedAmount(currency), s.costs) {
      forall r | r in Visited(s) ensures RecordValue(currency)(r) == Total(CostValue(currency), Samples(r)) {
        SamplesValue(r, currency);
      }
      TotalOfFlatMap(Samples, CostValue(currency), RecordValue(currency), Visited(s));
      TotalOfVisited(s, currency);
    }
  }

  // ---------------------------------------------------------------- forecasts

  /** The sample of a forecast's mean, lower or upper bound. */
  function ForecastSample(f: Forecast, bound: nat, m: Money): Sample {
    Sample(SeriesID(ForecastFamily(bound), [f.target, f.provider, f.basis, m.currency]), m.amount)
  }

  lemma ForecastIsRecorded(s: Snapshot, f: Forecast)
    ensures f in s.forecasts <==> ForecastR(f) in Records(s)
  {
    InMap((x: Forecast) => ForecastR(x), s.forecasts, ForecastR(f));
    NoForecastElsewhere(s, f);
  }

  lemma NoForecastElsewhere(s: Snapshot, f: Forecast)
    ensures ForecastR(f) !in Map((c: Cost) => CostR(c), s.costs)
    ensures ForecastR(f) !in Map((b: Budget) => BudgetR(b), s.budgets)
    ensures ForecastR(f) !in AccountRecords(s.accounts) + Trailing(s)
  {
  }

  /** Every forecast is exported as its mean, its lower and its upper bound, and no
      forecast series comes from anything else. */
  lemma ForecastsAreExported(s: Snapshot, output: seq<Sample>)
    requires ScrapeOf(s, output)
    ensures forall f :: f in s.forecasts ==>
              && ForecastSample(f, 0, f.mean) in output
              && ForecastSample(f, 1, f.lower) in output
              && ForecastSample(f, 2, f.upper) in output
    ensures forall x :: x in output && x.id.family.ForecastFamily? ==>
              exists f :: f in s.forecasts
                && (|| x == ForecastSample(f, 0, f.mean)
                    || x == ForecastSample(f, 1, f.lower)
                    || x == ForecastSample(f, 2, f.upper))
  {
    forall f | f in s.forecasts
      ensures ForecastSample(f, 0, f.mean) in output && ForecastSample(f, 1, f.lower) in output
      ensures ForecastSample(f, 2, f.upper) in output
    {
      ForecastIsRecorded(s, f);
      ScrapeMembers(s, output, ForecastSample(f, 0, f.mean));
      ScrapeMembers(s, output, ForecastSample(f, 1, f.lower));
      ScrapeMembers(s, output, ForecastSample(f, 2, f.upper));
      assert Shows(ForecastR(f), ForecastSample(f, 0, f.mean));
      assert Shows(ForecastR(f), ForecastSample(f, 1, f.lower));
      assert Shows(ForecastR(f), ForecastSample(f, 2, f.upper));
    }
    forall x | x in output && x.id.family.ForecastFamily?
      ensures exists f :: f in s.forecasts
                && (|| x == ForecastSample(f, 0, f.mean)
                    || x == ForecastSample(f, 1, f.lower)
                    || x == ForecastSample(f, 2, f.upper))
    {
      ScrapeMembers(s, output, x);
      var r :| r in Records(s) && Shows(r, x);
      assert r.ForecastR?;
      ForecastIsRecorded(s, r.forecast);
    }
  }

  /** A well-formed forecast with ordered bounds. */
  predicate Ordered(f: Forecast) {
    && f.lower.currency == f.mean.currency == f.upper.currency
    && f.lower.amount <= f.mean.amount <= f.upper.amount
  }

  /** Ordered forecasts are exported ordered: of three samples with the same labels the
      lower bound is at most the mean and the mean at most the upper bound. */
  lemma BoundsAreExportedInOrder(s: Snapshot, output: seq<Sample>, low: Sample, mid: Sample, high: Sample)
    requires ScrapeOf(s, output) && Distinct(Map((x: Sample) => x.id, output))
    requires forall f :: f in s.forecasts ==> Ordered(f)
    requires low in output && mid in output && high in output
    requires low.id.family == ForecastFamily(1) && mid.id.family == ForecastFamily(0)
    requires high.id.family == ForecastFamily(2)
    requires low.id.labels == mid.id.labels == high.id.labels
    ensures low.value <= mid.value <= high.value
  {
    ForecastsAreExported(s, output);
    var f :| f in s.forecasts && mid == ForecastSample(f, 0, f.mean);
    SameIDSameSample(output, low, ForecastSample(f, 1, f.lower));
    SameIDSameSample(output, high, ForecastSample(f, 2, f.upper));
  }

  lemma SameIDSameSample(output: seq<Sample>, x: Sample, y: Sample)
    requires Distinct(Map((z: Sample) => z.id, output)) && x in output && y in output && x.id == y.id
    ensures x == y
  {
    var i :| 0 <= i < |output| && output[i] == x;
    var j :| 0 <= j < |output| && output[j] == y;
    var ids := Map((z: Sample) => z.id, output);
    assert ids[i] == x.id && ids[j] == y.id;
  }
}
