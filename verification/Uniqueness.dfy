/** What the uniqueness check refuses, record by record: no more and no less than two
    records of a family that agree in all the fields of a series. */
module Uniqueness {
  import opened Bags
  import opened Domain
  import opened Snapshots
  import opened Collisions
  import Text

  predicate Free(s: string) { Text.DelimiterFree(s) }

  /** No text of the record holds the delimiter. */
  predicate TextFree(r: Record) {
    match r
    case CostR(c) =>
      && Free(c.target) && Free(c.provider) && Free(c.basis) && Free(c.window)
      && Free(c.dimension.kind) && Free(c.dimension.value) && Free(c.amount.currency)
    case ForecastR(f) => Free(f.target) && Free(f.provider) && Free(f.basis) && Free(f.mean.currency)
    case BudgetR(b) =>
      && Free(b.target) && Free(b.name) && Free(b.kind) && Free(b.timeUnit)
      && Free(b.limit.currency) && Free(b.actual.currency) && Free(b.forecasted.currency)
    case AccountR(a) => Free(a.target) && Free(a.accountID) && Free(a.name) && Free(a.status)
    case TagR(t) =>
      && Free(t.target) && Free(t.provider) && Free(t.basis) && Free(t.window)
      && Free(t.tagKey) && Free(t.tagValue) && Free(t.amount.currency)
    case CommitmentR(c) =>
      && Free(c.target) && Free(c.kind) && Free(c.timeUnit)
      && Free(c.coveredSpend.currency) && Free(c.onDemandCost.currency) && Free(c.netSavings.currency)
    case AnomalyR(a) => Free(a.target) && Free(a.impact.currency)
  }

  // ------------------------------------------------ when two records are one too many

  predicate SameCost(a: Cost, b: Cost) {
    && a.target == b.target && a.provider == b.provider && a.basis == b.basis && a.window == b.window
    && a.dimension.kind == b.dimension.kind && a.dimension.value == b.dimension.value
    && a.amount.currency == b.amount.currency
  }

  predicate SameForecast(a: Forecast, b: Forecast) {
    a.target == b.target && a.provider == b.provider && a.basis == b.basis && a.mean.currency == b.mean.currency
  }

  predicate SameBudget(a: Budget, b: Budget) {
    && a.target == b.target && a.name == b.name && a.kind == b.kind && a.timeUnit == b.timeUnit
    && (|| a.limit.currency == b.limit.currency
        || (a.hasActual && b.hasActual && a.actual.currency == b.actual.currency)
        || (a.hasForecasted && b.hasForecasted && a.forecasted.currency == b.forecasted.currency))
  }

  predicate SameAccount(a: Account, b: Account) {
    a.target == b.target && a.accountID == b.accountID && a.name == b.name && a.status == b.status
  }

  predicate SameTag(a: TagCost, b: TagCost) {
    && a.target == b.target && a.provider == b.provider && a.basis == b.basis && a.window == b.window
    && a.tagKey == b.tagKey && a.tagValue == b.tagValue && a.amount.currency == b.amount.currency
  }

  predicate SameCommitment(a: Commitment, b: Commitment) {
    && a.target == b.target && a.kind == b.kind && a.timeUnit == b.timeUnit
    && (|| (a.hasUtilization && b.hasUtilization)
        || (a.hasCoverage && b.hasCoverage)
        || (a.hasUnusedHours && b.hasUnusedHours)
        || (a.hasCoveredSpend && b.hasCoveredSpend && a.coveredSpend.currency == b.coveredSpend.currency)
        || (a.hasOnDemandCost && b.hasOnDemandCost && a.onDemandCost.currency == b.onDemandCost.currency)
        || (a.hasNetSavings && b.hasNetSavings && a.netSavings.currency == b.netSavings.currency))
  }

  predicate Same(r: Record, q: Record) {
    match (r, q)
    case (CostR(a), CostR(b)) => SameCost(a, b)
    case (ForecastR(a), ForecastR(b)) => SameForecast(a, b)
    case (BudgetR(a), BudgetR(b)) => SameBudget(a, b)
    case (AccountR(a), AccountR(b)) => SameAccount(a, b)
    case (TagR(a), TagR(b)) => SameTag(a, b)
    case (CommitmentR(a), CommitmentR(b)) => SameCommitment(a, b)
    case (AnomalyR(a), AnomalyR(b)) => a.target == b.target
    case _ => false
  }

  predicate Bounded(provider: string, basis: string) {
    && provider in ["cost_explorer", "cur_athena"] && basis in ["unblended", "amortized", "net"]
  }

  predicate BoundedIdentity(r: Record) {
    match r
    case CostR(c) => Bounded(c.provider, c.basis)
    case ForecastR(f) => Bounded(f.provider, f.basis)
    case TagR(t) => Bounded(t.provider, t.basis)
    case _ => true
  }

  // ------------------------------------------------------- keys stand for fields

  ghost predicate FreeFields(fields: seq<string>) { fields != [] && forall f :: f in fields ==> Free(f) }

  lemma RatioFieldsAreFree(c: Commitment, fields: seq<string>)
    requires TextFree(CommitmentR(c)) && fields in RatioFields(c)
    ensures FreeFields(fields)
  {
  }

  lemma AmountFieldsAreFree(c: Commitment, fields: seq<string>)
    requires TextFree(CommitmentR(c)) && fields in AmountFields(c)
    ensures FreeFields(fields)
  {
  }

  lemma BudgetFieldsAreFree(b: Budget, fields: seq<string>)
    requires TextFree(BudgetR(b)) && fields in KeyFields(BudgetR(b))
    ensures FreeFields(fields)
  {
  }

  lemma AnomalyFieldsAreFree(a: Anomaly, fields: seq<string>)
    requires TextFree(AnomalyR(a)) && fields in KeyFields(AnomalyR(a))
    ensures FreeFields(fields)
  {
  }

  lemma KeyFieldsAreFree(r: Record, fields: seq<string>)
    requires TextFree(r) && fields in KeyFields(r)
    ensures FreeFields(fields)
  {
    match r
    case BudgetR(b) => BudgetFieldsAreFree(b, fields);
    case CommitmentR(c) =>
      if fields in RatioFields(c) {
        RatioFieldsAreFree(c, fields);
      } else {
        AmountFieldsAreFree(c, fields);
      }
    case AnomalyR(a) => AnomalyFieldsAreFree(a, fields);
    case _ =>
      assert fields == KeyFields(r)[0];
  }

  lemma KeysMeetWhereFieldsDo(r: Record, q: Record)
    requires TextFree(r) && TextFree(q)
    ensures Disjoint(Keys(r), Keys(q)) <==> Disjoint(KeyFields(r), KeyFields(q))
  {
    if fields :| fields in KeyFields(r) && fields in KeyFields(q) {
      InMap(Text.Join, KeyFields(r), Text.Join(fields));
      InMap(Text.Join, KeyFields(q), Text.Join(fields));
    } else {
      forall k | k in Keys(r) ensures k !in Keys(q) {
        InMap(Text.Join, KeyFields(r), k);
        InMap(Text.Join, KeyFields(q), k);
        var x :| x in KeyFields(r) && Text.Join(x) == k;
        if k in Keys(q) {
          var y :| y in KeyFields(q) && Text.Join(y) == k;
          KeyFieldsAreFree(r, x);
          KeyFieldsAreFree(q, y);
          Text.JoinInjective(x, y);
        }
      }
    }
  }

  // ------------------------------------------------------- fields, family by family

  lemma CostFieldsMeet(a: Cost, b: Cost)
    ensures Disjoint(KeyFields(CostR(a)), KeyFields(CostR(b))) <==> !SameCost(a, b)
  {
    var x, y := KeyFields(CostR(a))[0], KeyFields(CostR(b))[0];
    OneEach(KeyFields(CostR(a)), KeyFields(CostR(b)));
    assert x == y <==> forall i :: 0 <= i < 8 ==> x[i] == y[i];
    assert x[1] == a.target && x[2] == a.provider && x[3] == a.basis && x[4] == a.window;
    assert x[5] == a.dimension.kind && x[6] == a.dimension.value && x[7] == a.amount.currency;
  }

  lemma ForecastFieldsMeet(a: Forecast, b: Forecast)
    ensures Disjoint(KeyFields(ForecastR(a)), KeyFields(ForecastR(b))) <==> !SameForecast(a, b)
  {
    var x, y := KeyFields(ForecastR(a))[0], KeyFields(ForecastR(b))[0];
    OneEach(KeyFields(ForecastR(a)), KeyFields(ForecastR(b)));
    assert x == y <==> forall i :: 0 <= i < 5 ==> x[i] == y[i];
    assert x[1] == a.target && x[2] == a.provider && x[3] == a.basis && x[4] == a.mean.currency;
  }

  lemma AccountFieldsMeet(a: Account, b: Account)
    ensures Disjoint(KeyFields(AccountR(a)), KeyFields(AccountR(b))) <==> !SameAccount(a, b)
  {
    var x, y := KeyFields(AccountR(a))[0], KeyFields(AccountR(b))[0];
    OneEach(KeyFields(AccountR(a)), KeyFields(AccountR(b)));
    assert x == y <==> forall i :: 0 <= i < 5 ==> x[i] == y[i];
    assert x[1] == a.target && x[2] == a.accountID && x[3] == a.name && x[4] == a.status;
  }

  lemma TagFieldsMeet(a: TagCost, b: TagCost)
    ensures Disjoint(KeyFields(TagR(a)), KeyFields(TagR(b))) <==> !SameTag(a, b)
  {
    var x, y := KeyFields(TagR(a))[0], KeyFields(TagR(b))[0];
    OneEach(KeyFields(TagR(a)), KeyFields(TagR(b)));
    assert x == y <==> forall i :: 0 <= i < 8 ==> x[i] == y[i];
    assert x[1] == a.target && x[2] == a.provider && x[3] == a.basis && x[4] == a.window;
    assert x[5] == a.tagKey && x[6] == a.tagValue && x[7] == a.amount.currency;
  }

  /** The fields of one figure of a budget. */
  function BudgetKey(b: Budget, figure: string, m: Money): seq<string> {
    ["budget", b.target, b.name, b.kind, b.timeUnit, figure, m.currency]
  }

  lemma BudgetKeysEqual(a: Budget, f: string, m: Money, b: Budget, g: string, n: Money)
    ensures BudgetKey(a, f, m) == BudgetKey(b, g, n) <==>
              && a.target == b.target && a.name == b.name && a.kind == b.kind && a.timeUnit == b.timeUnit
              && f == g && m.currency == n.currency
  {
    var x, y := BudgetKey(a, f, m), BudgetKey(b, g, n);
    assert x == y <==> forall i :: 0 <= i < 7 ==> x[i] == y[i];
    assert x[1] == a.target && x[2] == a.name && x[3] == a.kind && x[4] == a.timeUnit;
    assert x[5] == f && x[6] == m.currency;
  }

  /** The figures a budget shows, with their names. */
  predicate Figure(b: Budget, figure: string, m: Money) {
    || (figure == "limit" && m == b.limit)
    || (figure == "actual" && b.hasActual && m == b.actual)
    || (figure == "forecasted" && b.hasForecasted && m == b.forecasted)
  }

  lemma BudgetFieldsAre(b: Budget, fields: seq<string>)
    ensures fields in KeyFields(BudgetR(b)) <==> exists f, m :: Figure(b, f, m) && fields == BudgetKey(b, f, m)
  {
    var limit := BudgetKey(b, "limit", b.limit);
    var actual := BudgetKey(b, "actual", b.actual);
    var forecasted := BudgetKey(b, "forecasted", b.forecasted);
    assert KeyFields(BudgetR(b)) == [limit] + When(b.hasActual, actual) + When(b.hasForecasted, forecasted);
    assert Figure(b, "limit", b.limit);
    assert b.hasActual ==> Figure(b, "actual", b.actual);
    assert b.hasForecasted ==> Figure(b, "forecasted", b.forecasted);
  }

  lemma BudgetFieldsMeet(a: Budget, b: Budget)
    ensures Disjoint(KeyFields(BudgetR(a)), KeyFields(BudgetR(b))) <==> !SameBudget(a, b)
  {
    if fields :| fields in KeyFields(BudgetR(a)) && fields in KeyFields(BudgetR(b)) {
      BudgetFieldsAre(a, fields);
      BudgetFieldsAre(b, fields);
      var f, m :| Figure(a, f, m) && fields == BudgetKey(a, f, m);
      var g, n :| Figure(b, g, n) && fields == BudgetKey(b, g, n);
      BudgetKeysEqual(a, f, m, b, g, n);
    } else {
      if SameBudget(a, b) {
        var f, m, n := CommonFigure(a, b);
        BudgetKeysEqual(a, f, m, b, f, n);
        BudgetFieldsAre(a, BudgetKey(a, f, m));
        BudgetFieldsAre(b, BudgetKey(b, f, n));
      }
    }
  }

  lemma CommonFigure(a: Budget, b: Budget) returns (f: string, m: Money, n: Money)
    requires SameBudget(a, b)
    ensures Figure(a, f, m) && Figure(b, f, n) && m.currency == n.currency
  {
    if a.limit.currency == b.limit.currency {
      f, m, n := "limit", a.limit, b.limit;
    } else if a.hasActual && b.hasActual && a.actual.currency == b.actual.currency {
      f, m, n := "actual", a.actual, b.actual;
    } else {
      f, m, n := "forecasted", a.forecasted, b.forecasted;
    }
  }

  /** The fields of one measure of a commitment: ratios carry no currency. */
  function MeasureKey(c: Commitment, measure: string, tail: seq<string>): seq<string> {
    ["commitment", c.target, c.kind, c.timeUnit, measure] + tail
  }

  predicate Measure(c: Commitment, measure: string, tail: seq<string>) {
    || (measure == "utilization" && c.hasUtilization && tail == [])
    || (measure == "coverage" && c.hasCoverage && tail == [])
    || (measure == "unused_hours" && c.hasUnusedHours && tail == [])
    || (measure == "covered_spend" && c.hasCoveredSpend && tail == [c.coveredSpend.currency])
    || (measure == "on_demand_cost" && c.hasOnDemandCost && tail == [c.onDemandCost.currency])
    || (measure == "net_savings" && c.hasNetSavings && tail == [c.netSavings.currency])
  }

  lemma MeasureKeysEqual(a: Commitment, f: string, m: seq<string>, b: Commitment, g: string, n: seq<string>)
    ensures MeasureKey(a, f, m) == MeasureKey(b, g, n) <==>
              a.target == b.target && a.kind == b.kind && a.timeUnit == b.timeUnit && f == g && m == n
  {
    var x, y := MeasureKey(a, f, m), MeasureKey(b, g, n);
    assert x[1] == a.target && x[2] == a.kind && x[3] == a.timeUnit && x[4] == f && x[5..] == m;
    assert y[1] == b.target && y[2] == b.kind && y[3] == b.timeUnit && y[4] == g && y[5..] == n;
  }

  lemma RatioFieldsAre(c: Commitment, fields: seq<string>)
    ensures fields in RatioFields(c) <==>
              || (c.hasUtilization && fields == MeasureKey(c, "utilization", []))
              || (c.hasCoverage && fields == MeasureKey(c, "coverage", []))
              || (c.hasUnusedHours && fields == MeasureKey(c, "unused_hours", []))
  {
    assert MeasureKey(c, "utilization", []) == ["commitment", c.target, c.kind, c.timeUnit, "utilization"];
    assert MeasureKey(c, "coverage", []) == ["commitment", c.target, c.kind, c.timeUnit, "coverage"];
    assert MeasureKey(c, "unused_hours", []) == ["commitment", c.target, c.kind, c.timeUnit, "unused_hours"];
  }

  lemma AmountFieldsAre(c: Commitment, fields: seq<string>)
    ensures fields in AmountFields(c) <==>
              || (c.hasCoveredSpend && fields == MeasureKey(c, "covered_spend", [c.coveredSpend.currency]))
              || (c.hasOnDemandCost && fields == MeasureKey(c, "on_demand_cost", [c.onDemandCost.currency]))
              || (c.hasNetSavings && fields == MeasureKey(c, "net_savings", [c.netSavings.currency]))
  {
    var p, q, r := c.coveredSpend.currency, c.onDemandCost.currency, c.netSavings.currency;
    assert MeasureKey(c, "covered_spend", [p]) == ["commitment", c.target, c.kind, c.timeUnit, "covered_spend", p];
    assert MeasureKey(c, "on_demand_cost", [q]) == ["commitment", c.target, c.kind, c.timeUnit, "on_demand_cost", q];
    assert MeasureKey(c, "net_savings", [r]) == ["commitment", c.target, c.kind, c.timeUnit, "net_savings", r];
  }

  lemma CommitmentFieldsAre(c: Commitment, fields: seq<string>)
    ensures fields in KeyFields(CommitmentR(c)) <==> exists f, t :: Measure(c, f, t) && fields == MeasureKey(c, f, t)
  {
    RatioFieldsAre(c, fields);
    AmountFieldsAre(c, fields);
    assert fields in KeyFields(CommitmentR(c)) <==> fields in RatioFields(c) || fields in AmountFields(c);
    if fields in RatioFields(c) {
      var f := if c.hasUtilization && fields == MeasureKey(c, "utilization", []) then "utilization"
               else if c.hasCoverage && fields == MeasureKey(c, "coverage", []) then "coverage" else "unused_hours";
      assert Measure(c, f, []) && fields == MeasureKey(c, f, []);
    } else if fields in AmountFields(c) {
      var f, t := AmountOfFields(c, fields);
      assert Measure(c, f, t) && fields == MeasureKey(c, f, t);
    }
  }

  lemma AmountOfFields(c: Commitment, fields: seq<string>) returns (f: string, t: seq<string>)
    requires fields in AmountFields(c)
    ensures Measure(c, f, t) && fields == MeasureKey(c, f, t)
  {
    AmountFieldsAre(c, fields);
    if c.hasCoveredSpend && fields == MeasureKey(c, "covered_spend", [c.coveredSpend.currency]) {
      f, t := "covered_spend", [c.coveredSpend.currency];
    } else if c.hasOnDemandCost && fields == MeasureKey(c, "on_demand_cost", [c.onDemandCost.currency]) {
      f, t := "on_demand_cost", [c.onDemandCost.currency];
    } else {
      f, t := "net_savings", [c.netSavings.currency];
    }
  }

  lemma CommonMeasureIff(a: Commitment, b: Commitment)
    ensures SameCommitment(a, b) <==>
              && a.target == b.target && a.kind == b.kind && a.timeUnit == b.timeUnit
              && exists f, t :: Measure(a, f, t) && Measure(b, f, t)
  {
    if a.hasUtilization && b.hasUtilization {
      assert Measure(a, "utilization", []) && Measure(b, "utilization", []);
    }
    if a.hasCoverage && b.hasCoverage {
      assert Measure(a, "coverage", []) && Measure(b, "coverage", []);
    }
    if a.hasUnusedHours && b.hasUnusedHours {
      assert Measure(a, "unused_hours", []) && Measure(b, "unused_hours", []);
    }
    CommonAmount(a, b);
    if f, t :| Measure(a, f, t) && Measure(b, f, t) {
      assert t == [] || t[0] == t[0];
      CommonMeasure(a, b, f, t);
    }
  }

  lemma CommonAmount(a: Commitment, b: Commitment)
    ensures (a.hasCoveredSpend && b.hasCoveredSpend && a.coveredSpend.currency == b.coveredSpend.currency)
            || (a.hasOnDemandCost && b.hasOnDemandCost && a.onDemandCost.currency == b.onDemandCost.currency)
            || (a.hasNetSavings && b.hasNetSavings && a.netSavings.currency == b.netSavings.currency)
            ==> exists f, t :: Measure(a, f, t) && Measure(b, f, t)
  {
    if a.hasCoveredSpend && b.hasCoveredSpend && a.coveredSpend.currency == b.coveredSpend.currency {
      var t := [a.coveredSpend.currency];
      assert Measure(a, "covered_spend", t) && Measure(b, "covered_spend", t);
    } else if a.hasOnDemandCost && b.hasOnDemandCost && a.onDemandCost.currency == b.onDemandCost.currency {
      var t := [a.onDemandCost.currency];
      assert Measure(a, "on_demand_cost", t) && Measure(b, "on_demand_cost", t);
    } else if a.hasNetSavings && b.hasNetSavings && a.netSavings.currency == b.netSavings.currency {
      var t := [a.netSavings.currency];
      assert Measure(a, "net_savings", t) && Measure(b, "net_savings", t);
    }
  }

  lemma CommonMeasure(a: Commitment, b: Commitment, f: string, t: seq<string>)
    requires Measure(a, f, t) && Measure(b, f, t)
    ensures || (a.hasUtilization && b.hasUtilization) || (a.hasCoverage && b.hasCoverage)
            || (a.hasUnusedHours && b.hasUnusedHours)
            || (a.hasCoveredSpend && b.hasCoveredSpend && a.coveredSpend.currency == b.coveredSpend.currency)
            || (a.hasOnDemandCost && b.hasOnDemandCost && a.onDemandCost.currency == b.onDemandCost.currency)
            || (a.hasNetSavings && b.hasNetSavings && a.netSavings.currency == b.netSavings.currency)
  {
    if t != [] {
      assert forall x: string, y: string :: [x] == [y] ==> [x][0] == [y][0];
    }
  }

  lemma CommitmentFieldsMeet(a: Commitment, b: Commitment)
    ensures Disjoint(KeyFields(CommitmentR(a)), KeyFields(CommitmentR(b))) <==> !SameCommitment(a, b)
  {
    CommonMeasureIff(a, b);
    if fields :| fields in KeyFields(CommitmentR(a)) && fields in KeyFields(CommitmentR(b)) {
      CommitmentFieldsAre(a, fields);
      CommitmentFieldsAre(b, fields);
      var f, t :| Measure(a, f, t) && fields == MeasureKey(a, f, t);
      var g, u :| Measure(b, g, u) && fields == MeasureKey(b, g, u);
      MeasureKeysEqual(a, f, t, b, g, u);
    } else if SameCommitment(a, b) {
      var f, t :| Measure(a, f, t) && Measure(b, f, t);
      MeasureKeysEqual(a, f, t, b, f, t);
      CommitmentFieldsAre(a, MeasureKey(a, f, t));
      CommitmentFieldsAre(b, MeasureKey(b, f, t));
    }
  }

  lemma AnomalyFieldsNameTarget(a: Anomaly)
    ensures forall fields :: fields in KeyFields(AnomalyR(a)) ==> |fields| >= 2 && fields[1] == a.target
    ensures ["anomaly", a.target, "active"] in KeyFields(AnomalyR(a))
  {
    assert KeyFields(AnomalyR(a))[0] == ["anomaly", a.target, "active"];
  }

  lemma AnomalyFieldsMeet(a: Anomaly, b: Anomaly)
    ensures Disjoint(KeyFields(AnomalyR(a)), KeyFields(AnomalyR(b))) <==> a.target != b.target
  {
    AnomalyFieldsNameTarget(a);
    AnomalyFieldsNameTarget(b);
  }

  function FamilyName(r: Record): string {
    match r
    case CostR(_) => "cost"
    case ForecastR(_) => "forecast"
    case BudgetR(_) => "budget"
    case AccountR(_) => "account"
    case TagR(_) => "tag"
    case CommitmentR(_) => "commitment"
    case AnomalyR(_) => "anomaly"
  }

  lemma CommitmentFieldsNameIt(c: Commitment, fields: seq<string>)
    requires fields in KeyFields(CommitmentR(c))
    ensures fields != [] && fields[0] == "commitment"
  {
    CommitmentFieldsAre(c, fields);
  }

  lemma BudgetFieldsNameIt(b: Budget, fields: seq<string>)
    requires fields in KeyFields(BudgetR(b))
    ensures fields != [] && fields[0] == "budget"
  {
    BudgetFieldsAre(b, fields);
  }

  lemma FieldsNameTheFamily(r: Record, fields: seq<string>)
    requires fields in KeyFields(r)
    ensures fields != [] && fields[0] == FamilyName(r)
  {
    match r
    case BudgetR(b) => BudgetFieldsNameIt(b, fields);
    case CommitmentR(c) => CommitmentFieldsNameIt(c, fields);
    case AnomalyR(_) =>
    case _ =>
      assert fields == KeyFields(r)[0];
  }

  lemma FieldsMeetIff(r: Record, q: Record)
    ensures Disjoint(KeyFields(r), KeyFields(q)) <==> !Same(r, q)
  {
    match (r, q)
    case (CostR(a), CostR(b)) => CostFieldsMeet(a, b);
    case (ForecastR(a), ForecastR(b)) => ForecastFieldsMeet(a, b);
    case (BudgetR(a), BudgetR(b)) => BudgetFieldsMeet(a, b);
    case (AccountR(a), AccountR(b)) => AccountFieldsMeet(a, b);
    case (TagR(a), TagR(b)) => TagFieldsMeet(a, b);
    case (CommitmentR(a), CommitmentR(b)) => CommitmentFieldsMeet(a, b);
    case (AnomalyR(a), AnomalyR(b)) => AnomalyFieldsMeet(a, b);
    case _ => FamiliesNeverMeet(r, q);
  }

  lemma FamiliesNeverMeet(r: Record, q: Record)
    requires FamilyName(r) != FamilyName(q)
    ensures Disjoint(KeyFields(r), KeyFields(q))
  {
    forall fields | fields in KeyFields(r) ensures fields !in KeyFields(q) {
      FieldsNameTheFamily(r, fields);
      if fields in KeyFields(q) {
        FieldsNameTheFamily(q, fields);
      }
    }
  }

  // ---------------------------------------------------- one record, its own keys

  lemma BudgetFieldsDiffer(b: Budget)
    ensures Distinct(KeyFields(BudgetR(b)))
  {
    BudgetKeysEqual(b, "limit", b.limit, b, "actual", b.actual);
    BudgetKeysEqual(b, "limit", b.limit, b, "forecasted", b.forecasted);
    BudgetKeysEqual(b, "actual", b.actual, b, "forecasted", b.forecasted);
  }

  /** The fifth field of a commitment's key is the measure, and no two are alike. */
  lemma RatioFieldsDiffer(c: Commitment)
    ensures Distinct(RatioFields(c)) && forall f :: f in RatioFields(c) ==> |f| == 5
  {
    var fields := RatioFields(c);
    forall i, j | 0 <= i < j < |fields| ensures fields[i][4] != fields[j][4] {
    }
  }

  lemma AmountFieldsDiffer(c: Commitment)
    ensures Distinct(AmountFields(c)) && forall f :: f in AmountFields(c) ==> |f| == 6
  {
    var fields := AmountFields(c);
    forall i, j | 0 <= i < j < |fields| ensures fields[i][4] != fields[j][4] {
    }
  }

  lemma CommitmentFieldsDiffer(c: Commitment)
    ensures Distinct(KeyFields(CommitmentR(c)))
  {
    RatioFieldsDiffer(c);
    AmountFieldsDiffer(c);
    LengthsKeepApart(RatioFields(c), AmountFields(c), KeyFields(CommitmentR(c)));
  }

  lemma LengthsKeepApart(a: seq<seq<string>>, b: seq<seq<string>>, all: seq<seq<string>>)
    requires all == a + b && Distinct(a) && Distinct(b)
    requires (forall f :: f in a ==> |f| == 5) && forall f :: f in b ==> |f| == 6
    ensures Distinct(all)
  {
    DistinctAppend(a, b);
  }

  lemma OwnFieldsDiffer(r: Record)
    ensures Distinct(KeyFields(r))
  {
    match r
    case BudgetR(b) => BudgetFieldsDiffer(b);
    case CommitmentR(c) => CommitmentFieldsDiffer(c);
    case AnomalyR(a) =>
      var fields := KeyFields(r);
      assert forall i, j :: 0 <= i < j < |fields| ==> fields[i][2] != fields[j][2];
    case _ =>
  }

  lemma OwnKeysDiffer(r: Record)
    requires TextFree(r)
    ensures Distinct(Keys(r))
  {
    OwnFieldsDiffer(r);
    var fields := KeyFields(r);
    forall i, j | 0 <= i < j < |fields| ensures Keys(r)[i] != Keys(r)[j] {
      assert fields[i] in fields && fields[j] in fields;
      KeyFieldsAreFree(r, fields[i]);
      KeyFieldsAreFree(r, fields[j]);
      if Keys(r)[i] == Keys(r)[j] {
        Text.JoinInjective(fields[i], fields[j]);
      }
    }
  }

  // ------------------------------------------------------------- main theorem

  lemma DistinctKeysIff(rs: seq<Record>)
    requires forall r :: r in rs ==> TextFree(r)
    ensures Distinct(FlatMap(Keys, rs)) <==> forall i, j :: 0 <= i < j < |rs| ==> !Same(rs[i], rs[j])
  {
    forall r | r in rs ensures Distinct(Keys(r)) {
      OwnKeysDiffer(r);
    }
    DistinctPairwise(Keys, rs);
    forall i, j | 0 <= i < j < |rs| ensures Disjoint(Keys(rs[i]), Keys(rs[j])) <==> !Same(rs[i], rs[j]) {
      assert rs[i] in rs && rs[j] in rs;
      KeysMeetWhereFieldsDo(rs[i], rs[j]);
      FieldsMeetIff(rs[i], rs[j]);
    }
  }

  lemma BoundedIdentityIff(r: Record)
    ensures IdentityValid(r) <==> BoundedIdentity(r)
  {
  }

  /** Where no text holds the delimiter, records are unique if and only if every
      identity is bounded and no two records of a family are the same in the fields
      of some series. */
  lemma UniqueRecordsIff(rs: seq<Record>)
    requires forall r :: r in rs ==> TextFree(r)
    ensures UniqueRecords(rs) <==>
              && (forall r :: r in rs ==> BoundedIdentity(r))
              && (forall i, j :: 0 <= i < j < |rs| ==> !Same(rs[i], rs[j]))
  {
    forall r | r in rs ensures IdentityValid(r) <==> BoundedIdentity(r) {
      BoundedIdentityIff(r);
    }
    DistinctKeysIff(rs);
  }

  /** So the check accepts such a snapshot exactly then. */
  lemma UniqueIff(s: Snapshot)
    requires forall r :: r in Records(s) ==> TextFree(r)
    ensures Unique(s) <==>
              && (forall r :: r in Records(s) ==> BoundedIdentity(r))
              && (forall i, j :: 0 <= i < j < |Records(s)| ==> !Same(Records(s)[i], Records(s)[j]))
  {
    UniqueRecordsIff(Records(s));
  }
}
