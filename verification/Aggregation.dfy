/** Cost Explorer usage: mapping the daily rows of a response and summing them
    into one month-to-date row per dimension and currency. */
module Aggregation {
  import opened Bags
  import opened Domain
  import opened Grouping
  import opened Limiters
  import opened Ranking

  datatype AggregateKey = AggregateKey(kind: string, value: string, currency: string, provider: string, basis: string)

  function KeyOf(c: Cost): AggregateKey {
    AggregateKey(c.dimension.kind, c.dimension.value, c.amount.currency, c.provider, c.basis)
  }

  /** The comparator looks at neither provider nor basis. */
  function KeyRank(k: AggregateKey): Rank { [S(k.kind), S(k.value), S(k.currency)] }

  function RowRank(c: Cost): Rank { KeyRank(KeyOf(c)) }

  /** The month-to-date row of a key: the sum of the rows that carry it. */
  function Summed(rows: seq<Cost>, period: Period): AggregateKey -> Cost {
    (k: AggregateKey) =>
      Cost("", k.provider, k.basis, MONTH_TO_DATE, period, Dimension(k.kind, k.value),
           Money(Total(Amount(CostMoney), Filter(HasKey(KeyOf, k), rows)), k.currency))
  }

  /** A group-by sum: every key of the rows exactly once, with its sum, in the
      comparator's order. */
  ghost predicate IsAggregate(out: seq<Cost>, rows: seq<Cost>, period: Period) {
    && (forall x :: x in out ==> x == Summed(rows, period)(KeyOf(x)))
    && Distinct(Map(KeyOf, out))
    && (forall k :: k in Map(KeyOf, out) <==> k in Map(KeyOf, rows))
    && Ordered(RowRank, out)
  }

  predicate OneIdentity(rows: seq<Cost>) {
    forall x, y :: x in rows && y in rows ==> x.provider == y.provider && x.basis == y.basis
  }

  predicate SameCell(x: Cost, y: Cost) { x.dimension == y.dimension && x.amount.currency == y.amount.currency }

  /** Rows of one dimension and currency share their provider and basis. */
  predicate IdentityPerCell(rows: seq<Cost>) {
    forall x, y :: x in rows && y in rows && SameCell(x, y) ==> x.provider == y.provider && x.basis == y.basis
  }

  ghost predicate StrictlyOrdered(out: seq<Cost>) {
    forall i, j :: 0 <= i < j < |out| ==> RankLess(RowRank(out[i]), RowRank(out[j]))
  }

  // --------------------------------------------------------------- properties

  lemma SameRankSameCell(x: Cost, y: Cost)
    ensures RowRank(x) == RowRank(y) <==> SameCell(x, y)
  {
  }

  /** An output row and the rows it sums share a key. */
  lemma RowOfKey(out: seq<Cost>, rows: seq<Cost>, period: Period, x: Cost)
    requires IsAggregate(out, rows, period)
    ensures x in out ==> exists r :: r in rows && KeyOf(r) == KeyOf(x)
    ensures x in rows ==> exists i :: 0 <= i < |out| && KeyOf(out[i]) == KeyOf(x)
  {
    InMap(KeyOf, out, KeyOf(x));
    InMap(KeyOf, rows, KeyOf(x));
    if x in rows {
      var o :| o in out && KeyOf(o) == KeyOf(x);
      var i :| 0 <= i < |out| && out[i] == o;
    }
  }

  lemma TiesAreMixedCells(out: seq<Cost>, rows: seq<Cost>, period: Period, i: int, j: int)
    requires IsAggregate(out, rows, period) && IdentityPerCell(rows) && 0 <= i < j < |out|
    ensures RowRank(out[i]) != RowRank(out[j])
  {
    assert Map(KeyOf, out)[i] != Map(KeyOf, out)[j];
    RowOfKey(out, rows, period, out[i]);
    RowOfKey(out, rows, period, out[j]);
    var x :| x in rows && KeyOf(x) == KeyOf(out[i]);
    var y :| y in rows && KeyOf(y) == KeyOf(out[j]);
    SameRankSameCell(out[i], out[j]);
    assert SameCell(x, y) <==> SameCell(out[i], out[j]);
  }

  lemma MixedCellsTie(out: seq<Cost>, rows: seq<Cost>, period: Period) returns (i: int, j: int)
    requires IsAggregate(out, rows, period) && !IdentityPerCell(rows)
    ensures 0 <= i < j < |out| && RowRank(out[i]) == RowRank(out[j]) && out[i] != out[j]
  {
    var x, y :| x in rows && y in rows && SameCell(x, y) && !(x.provider == y.provider && x.basis == y.basis);
    RowOfKey(out, rows, period, x);
    RowOfKey(out, rows, period, y);
    i :| 0 <= i < |out| && KeyOf(out[i]) == KeyOf(x);
    j :| 0 <= j < |out| && KeyOf(out[j]) == KeyOf(y);
    SameRankSameCell(x, y);
    if i > j {
      i, j := j, i;
    }
  }

  /** No two output rows tie if no cell mixes providers or bases. */
  lemma AggregateHasNoTies(out: seq<Cost>, rows: seq<Cost>, period: Period)
    requires IsAggregate(out, rows, period) && IdentityPerCell(rows)
    ensures NoTies(RowRank, out)
  {
    var ranks := Map(RowRank, out);
    forall i, j | 0 <= i < j < |out| ensures ranks[i] != ranks[j] {
      TiesAreMixedCells(out, rows, period, i, j);
    }
  }

  /** The output is strictly ordered by kind, value and currency if and only if no
      dimension and currency occur under two providers or bases. */
  lemma AggregateIsStrictIff(out: seq<Cost>, rows: seq<Cost>, period: Period)
    requires IsAggregate(out, rows, period)
    ensures StrictlyOrdered(out) <==> IdentityPerCell(rows)
  {
    RankLessIsStrictTotal();
    if IdentityPerCell(rows) {
      forall i, j | 0 <= i < j < |out| ensures RankLess(RowRank(out[i]), RowRank(out[j])) {
        TiesAreMixedCells(out, rows, period, i, j);
      }
    } else {
      var i, j := MixedCellsTie(out, rows, period);
      assert !RankLess(RowRank(out[i]), RowRank(out[j]));
    }
  }

  /** In particular for rows of one provider and basis. */
  lemma AggregateIsStrictlyOrdered(out: seq<Cost>, rows: seq<Cost>, period: Period)
    requires IsAggregate(out, rows, period) && OneIdentity(rows)
    ensures StrictlyOrdered(out)
  {
    AggregateIsStrictIff(out, rows, period);
  }

  /** Swapping tied rows yields another aggregate of the same rows. */
  lemma TiedRowsSwap(out: seq<Cost>, rows: seq<Cost>, period: Period, i: int, j: int) returns (other: seq<Cost>)
    requires IsAggregate(out, rows, period) && 0 <= i < j < |out|
    requires RowRank(out[i]) == RowRank(out[j]) && out[i] != out[j]
    ensures IsAggregate(other, rows, period) && other != out
  {
    other := out[i := out[j]][j := out[i]];
    SwapPermutes(out, i, j);
    SwapKeepsKeys(out, other);
    SwapKeepsOrder(out, i, j);
    PermutationFacts(other, out);
    assert other[i] != out[i];
  }

  lemma SwapPermutes<T>(s: seq<T>, i: int, j: int)
    requires 0 <= i < j < |s|
    ensures Permutation(s[i := s[j]][j := s[i]], s)
  {
  }

  lemma SwapKeepsKeys(out: seq<Cost>, other: seq<Cost>)
    requires Permutation(other, out) && Distinct(Map(KeyOf, out))
    ensures Distinct(Map(KeyOf, other)) && forall k :: k in Map(KeyOf, other) <==> k in Map(KeyOf, out)
  {
    MapPermutes(KeyOf, other, out);
    DistinctPermutes(Map(KeyOf, other), Map(KeyOf, out));
    PermutationFacts(Map(KeyOf, other), Map(KeyOf, out));
  }

  lemma SwapKeepsOrder(out: seq<Cost>, i: int, j: int)
    requires 0 <= i < j < |out| && RowRank(out[i]) == RowRank(out[j]) && Ordered(RowRank, out)
    ensures Ordered(RowRank, out[i := out[j]][j := out[i]])
  {
  }

  lemma AggregateExists(rows: seq<Cost>, period: Period) returns (out: seq<Cost>)
    ensures IsAggregate(out, rows, period)
  {
    var keys := Dedup(Map(KeyOf, rows));
    DedupFacts(Map(KeyOf, rows));
    SortPermutes(KeyRank, keys);
    SortOrders(KeyRank, keys);
    DistinctPermutes(keys, StableSort(KeyRank, keys));
    PermutationFacts(StableSort(KeyRank, keys), keys);
    SortedTotalsAreAggregate(rows, period, StableSort(KeyRank, keys));
    out := Map(Summed(rows, period), StableSort(KeyRank, keys));
  }

  /** The comparator and the map's order leave one possible output exactly under
      that condition. */
  lemma AggregateIsDeterminedIff(rows: seq<Cost>, period: Period)
    ensures (forall x, y :: IsAggregate(x, rows, period) && IsAggregate(y, rows, period) ==> x == y)
       <==> IdentityPerCell(rows)
  {
    if IdentityPerCell(rows) {
      forall x, y | IsAggregate(x, rows, period) && IsAggregate(y, rows, period) ensures x == y {
        AggregateForgetsOrder(x, y, rows, rows, period);
      }
    } else {
      var out := AggregateExists(rows, period);
      var i, j := MixedCellsTie(out, rows, period);
      var other := TiedRowsSwap(out, rows, period, i, j);
    }
  }

  /** One service under two bases is enough to break both. */
  lemma MixedBasesLoseTheOrder(period: Period, out: seq<Cost>)
    requires IsAggregate(out, [Billed(UNBLENDED), Billed(NET)], period)
    ensures !StrictlyOrdered(out)
  {
    var rows := [Billed(UNBLENDED), Billed(NET)];
    assert rows[0] in rows && rows[1] in rows && SameCell(rows[0], rows[1]);
    assert rows[0].basis[0] != rows[1].basis[0];
    AggregateIsStrictIff(out, rows, period);
  }

  function Billed(basis: string): Cost {
    Cost("", COST_EXPLORER, basis, MONTH_TO_DATE, Period(1, 2), Dimension(SERVICE, "ec2"), Money(1.0, "USD"))
  }

  lemma AmountOfSum(rows: seq<Cost>, period: Period, k: AggregateKey, c: string)
    ensures Total(AmountIn(CostMoney, c), [Summed(rows, period)(k)])
         == Total(AmountIn(CostMoney, c), Filter(HasKey(KeyOf, k), rows))
  {
    var group, row := Filter(HasKey(KeyOf, k), rows), Summed(rows, period)(k);
    forall x | x in group ensures CostMoney(x).currency == k.currency {
      assert HasKey(KeyOf, k)(x);
      assert KeyOf(x) == k;
    }
    OneCurrencyTotals(CostMoney, k.currency, c, group);
    assert CostMoney(row) == row.amount;
    assert [row][1..] == [];
  }

  lemma {:induction false} RowsOfKeys(out: seq<Cost>, rows: seq<Cost>, period: Period)
    requires forall x :: x in out ==> x == Summed(rows, period)(KeyOf(x))
    ensures out == FlatMap((k: AggregateKey) => [Summed(rows, period)(k)], Map(KeyOf, out))
  {
    if out != [] {
      assert forall x :: x in out[1..] ==> x in out;
      assert out[0] in out;
      RowsOfKeys(out[1..], rows, period);
      assert Map(KeyOf, out)[1..] == Map(KeyOf, out[1..]);
    }
  }

  /** Summing conserves what every currency adds up to. */
  lemma AggregateConserves(out: seq<Cost>, rows: seq<Cost>, period: Period, c: string)
    requires IsAggregate(out, rows, period)
    ensures TotalIn(CostMoney, c, out) == TotalIn(CostMoney, c, rows)
  {
    var f, keys := AmountIn(CostMoney, c), Map(KeyOf, out);
    var after := (k: AggregateKey) => [Summed(rows, period)(k)];
    forall k | k in keys ensures Total(f, after(k)) == Total(f, Filter(HasKey(KeyOf, k), rows)) {
      AmountOfSum(rows, period, k, c);
    }
    forall x | x in rows ensures KeyOf(x) in keys {
      InMap(KeyOf, rows, KeyOf(x));
    }
    TotalsByGroup(f, after, keys, KeyOf, rows);
    RowsOfKeys(out, rows, period);
  }

  lemma SummedForgetsOrder(a: seq<Cost>, b: seq<Cost>, period: Period, k: AggregateKey)
    requires Permutation(a, b)
    ensures Summed(a, period)(k) == Summed(b, period)(k)
  {
    FilterPermutes(HasKey(KeyOf, k), a, b);
    TotalPermutes(Amount(CostMoney), Filter(HasKey(KeyOf, k), a), Filter(HasKey(KeyOf, k), b));
  }

  lemma AggregateOfPermutation(out: seq<Cost>, a: seq<Cost>, b: seq<Cost>, period: Period)
    requires IsAggregate(out, a, period) && Permutation(a, b)
    ensures IsAggregate(out, b, period)
  {
    forall x | x in out ensures x == Summed(b, period)(KeyOf(x)) {
      SummedForgetsOrder(a, b, period, KeyOf(x));
    }
    MapPermutes(KeyOf, a, b);
    PermutationFacts(Map(KeyOf, a), Map(KeyOf, b));
  }

  lemma DistinctByKey(out: seq<Cost>)
    requires Distinct(Map(KeyOf, out))
    ensures Distinct(out)
  {
  }

  // What an aggregate is, without keys.

  predicate Joins(x: Cost, y: Cost) {
    && x.dimension == y.dimension && x.amount.currency == y.amount.currency
    && x.provider == y.provider && x.basis == y.basis
  }

  function JoinedAmount(x: Cost): Cost -> real { (y: Cost) => if Joins(x, y) then y.amount.amount else 0.0 }

  /** Every row joins exactly one sum and every sum is joined by a row: a month's
      amount over all rows of its dimension, currency, provider and basis. */
  ghost predicate SumsUp(out: seq<Cost>, rows: seq<Cost>, period: Period) {
    && (forall x :: x in out ==> x.target == "" && x.window == "month_to_date" && x.period == period)
    && (forall x :: x in out ==> x.amount.amount == Total(JoinedAmount(x), rows))
    && (forall i, j :: 0 <= i < j < |out| ==> !Joins(out[i], out[j]))
    && (forall y :: y in rows ==> exists x :: x in out && Joins(x, y))
    && (forall x :: x in out ==> exists y :: y in rows && Joins(x, y))
  }

  lemma {:induction false} JoinedTotal(x: Cost, rows: seq<Cost>)
    ensures Total(JoinedAmount(x), rows) == Total(Amount(CostMoney), Filter(HasKey(KeyOf, KeyOf(x)), rows))
  {
    if rows != [] {
      var y, p := rows[0], HasKey(KeyOf, KeyOf(x));
      JoinedTotal(x, rows[1..]);
      AmountOfCost(y);
      assert p(y) <==> Joins(x, y);
      assert Filter(p, rows) == if p(y) then [y] + Filter(p, rows[1..]) else Filter(p, rows[1..]);
      assert p(y) ==> ([y] + Filter(p, rows[1..]))[1..] == Filter(p, rows[1..]);
    }
  }

  lemma AggregateSumsUp(out: seq<Cost>, rows: seq<Cost>, period: Period)
    requires IsAggregate(out, rows, period)
    ensures SumsUp(out, rows, period)
  {
    forall x | x in out ensures x.amount.amount == Total(JoinedAmount(x), rows) {
      JoinedTotal(x, rows);
    }
    forall x | x in out ensures exists y :: y in rows && Joins(x, y) {
      RowOfKey(out, rows, period, x);
      var y :| y in rows && KeyOf(y) == KeyOf(x);
      assert Joins(x, y);
    }
    forall y | y in rows ensures exists x :: x in out && Joins(x, y) {
      RowOfKey(out, rows, period, y);
      var i :| 0 <= i < |out| && KeyOf(out[i]) == KeyOf(y);
      assert out[i] in out && Joins(out[i], y);
    }
    forall i, j | 0 <= i < j < |out| ensures !Joins(out[i], out[j]) {
      assert Map(KeyOf, out)[i] != Map(KeyOf, out)[j];
    }
  }

  /** Neither the order of the rows nor that of the map matters: two aggregates of
      the same bag of rows hold the same rows, and are the same sequence unless a cell
      mixes providers or bases. */
  lemma AggregateForgetsOrder(x: seq<Cost>, y: seq<Cost>, a: seq<Cost>, b: seq<Cost>, period: Period)
    requires IsAggregate(x, a, period) && IsAggregate(y, b, period) && Permutation(a, b)
    ensures Permutation(x, y) && (IdentityPerCell(a) ==> x == y)
  {
    AggregateOfPermutation(y, b, a, period);
    forall r ensures r in x <==> r in y {
      SameRowsIn(x, y, a, period, r);
      SameRowsIn(y, x, a, period, r);
    }
    DistinctByKey(x);
    DistinctByKey(y);
    SameElementsPermute(x, y);
    if IdentityPerCell(a) {
      AggregateHasNoTies(x, a, period);
      OrderedIsUnique(RowRank, x, y);
    }
  }

  lemma SameRowsIn(x: seq<Cost>, y: seq<Cost>, rows: seq<Cost>, period: Period, r: Cost)
    requires IsAggregate(x, rows, period) && IsAggregate(y, rows, period)
    ensures r in x ==> r in y
  {
    if r in x {
      InMap(KeyOf, x, KeyOf(r));
      InMap(KeyOf, y, KeyOf(r));
      assert KeyOf(r) in Map(KeyOf, rows);
      var q :| q in y && KeyOf(q) == KeyOf(r);
      assert q == Summed(rows, period)(KeyOf(q));
    }
  }

  // --------------------------------------------------------------- operations

  /** `sort.Slice` promises an ordered permutation and nothing about ties. */
  method SortKeys(keys: seq<AggregateKey>) returns (sorted: seq<AggregateKey>)
    ensures Permutation(sorted, keys) && Ordered(KeyRank, sorted)
  {
    sorted := StableSort(KeyRank, keys);
    SortPermutes(KeyRank, keys);
    SortOrders(KeyRank, keys);
  }

  /** The totals map after some rows. */
  ghost predicate Totalled(totals: map<AggregateKey, Cost>, rows: seq<Cost>, period: Period) {
    && (forall k :: k in totals <==> k in Map(KeyOf, rows))
    && (forall k :: k in totals ==> totals[k] == Summed(rows, period)(k))
  }

  lemma SummedSnoc(rows: seq<Cost>, row: Cost, period: Period, k: AggregateKey)
    ensures var before, after := Summed(rows, period)(k), Summed(rows + [row], period)(k);
            var added := if KeyOf(row) == k then row.amount.amount else 0.0;
            after == before.(amount := Money(before.amount.amount + added, k.currency))
  {
    FilterAppend(HasKey(KeyOf, k), rows, [row]);
    var group, more := Filter(HasKey(KeyOf, k), rows), Filter(HasKey(KeyOf, k), [row]);
    TotalAppend(Amount(CostMoney), group, more);
    AmountOfCost(row);
    assert [row][1..] == [];
    assert more == if KeyOf(row) == k then [row] else [];
  }

  lemma TotalledSnoc(totals: map<AggregateKey, Cost>, rows: seq<Cost>, row: Cost, period: Period, value: Cost)
    requires Totalled(totals, rows, period) && value == Summed(rows + [row], period)(KeyOf(row))
    ensures Totalled(totals[KeyOf(row) := value], rows + [row], period)
  {
    MapAppend(KeyOf, rows, [row]);
    assert Map(KeyOf, [row]) == [KeyOf(row)];
    forall k | k in totals && k != KeyOf(row) ensures totals[k] == Summed(rows + [row], period)(k) {
      SummedSnoc(rows, row, period, k);
    }
  }

  lemma FirstOfKey(rows: seq<Cost>, period: Period, k: AggregateKey)
    requires k !in Map(KeyOf, rows)
    ensures Summed(rows, period)(k).amount.amount == 0.0
  {
    forall x | x in rows ensures !HasKey(KeyOf, k)(x) {
      InMap(KeyOf, rows, k);
    }
    FilterNone(HasKey(KeyOf, k), rows);
  }

  /** One row into the totals map; the currencies always agree because the currency
      is part of the key. */
  method AddRow(totals: map<AggregateKey, Cost>, ghost rows: seq<Cost>, row: Cost, period: Period)
    returns (r: Result<map<AggregateKey, Cost>, string>)
    requires Totalled(totals, rows, period)
    ensures r.Ok? && Totalled(r.value, rows + [row], period)
  {
    var key := KeyOf(row);
    SummedSnoc(rows, row, period, key);
    if key !in totals {
      FirstOfKey(rows, period, key);
      var first := Cost("", row.provider, row.basis, MONTH_TO_DATE, period, row.dimension, row.amount);
      TotalledSnoc(totals, rows, row, period, first);
      return Ok(totals[key := first]);
    }
    var existing := totals[key];
    var sum := Add(existing.amount, row.amount);
    if sum.Err? {
      return Err("currency mismatch");
    }
    existing := existing.(amount := sum.value);
    TotalledSnoc(totals, rows, row, period, existing);
    r := Ok(totals[key := existing]);
  }

  lemma SortedTotalsAreAggregate(rows: seq<Cost>, period: Period, keys: seq<AggregateKey>)
    requires Distinct(keys) && Ordered(KeyRank, keys) && forall k :: k in keys <==> k in Map(KeyOf, rows)
    ensures IsAggregate(Map(Summed(rows, period), keys), rows, period)
  {
  }

  method TotalRows(rows: seq<Cost>, period: Period) returns (r: Result<map<AggregateKey, Cost>, string>)
    ensures r.Ok? && Totalled(r.value, rows, period)
  {
    var totals: map<AggregateKey, Cost> := map[];
    for i := 0 to |rows|
      invariant Totalled(totals, rows[..i], period)
    {
      r := AddRow(totals, rows[..i], rows[i], period);
      assert rows[..i + 1] == rows[..i] + [rows[i]];
      if r.Err? {
        return;
      }
      totals := r.value;
    }
    assert rows[..|rows|] == rows;
    r := Ok(totals);
  }

  /** `aggregateMonthToDate`. It never fails. */
  method AggregateMonthToDate(rows: seq<Cost>, period: Period) returns (r: Result<seq<Cost>, string>)
    ensures r.Ok? && IsAggregate(r.value, rows, period)
  {
    if |rows| == 0 {
      return Ok([]);
    }
    var totalled := TotalRows(rows, period);
    if totalled.Err? {
      return Err("currency mismatch");
    }
    var totals := totalled.value;
    var keys := Range(totals);
    var sorted := SortKeys(keys);
    DistinctPermutes(keys, sorted);
    PermutationFacts(sorted, keys);
    var aggregated: seq<Cost> := [];
    for i := 0 to |sorted|
      invariant aggregated == Map(Summed(rows, period), sorted[..i])
    {
      MapAppend(Summed(rows, period), sorted[..i], [sorted[i]]);
      assert sorted[..i + 1] == sorted[..i] + [sorted[i]];
      aggregated := aggregated + [totals[sorted[i]]];
    }
    assert sorted[..|sorted|] == sorted;
    SortedTotalsAreAggregate(rows, period, sorted);
    r := Ok(aggregated);
  }
}

/** `MapUsage`: from the pages of a response to cost rows. Numbers and dates come
    parsed, or as the failure to parse them. */
module Usage {
  import opened Aggregation
  import opened Bags
  import opened Domain
  import Exposition
  import Snapshots
  import Text

  datatype Metric = Metric(amount: Result<real, string>, unit: string)

  datatype Group = Group(keys: seq<string>, metrics: map<string, Metric>)

  datatype ResultByTime = ResultByTime(period: Result<Period, string>, total: map<string, Metric>, groups: seq<Group>)

  datatype Query = Query(groupBy: string, window: string, period: Period)

  function MetricBasis(metric: string): (r: string)
    ensures ValidBasis(r)
  {
    if metric == "AmortizedCost" then AMORTIZED else if metric == "NetUnblendedCost" then NET else UNBLENDED
  }

  function MapCost(
    period: Period, window: string, d: Dimension, metrics: map<string, Metric>, metric: string): Result<Cost, string>
  {
    if metric !in metrics then Err("missing metric")
    else if metrics[metric].amount.Err? then Err(metrics[metric].amount.error)
    else
      var money := NewMoney(metrics[metric].amount.value, metrics[metric].unit);
      if money.Err? then Err(money.error)
      else Ok(Cost("", COST_EXPLORER, MetricBasis(metric), window, period, d, money.value))
  }

  function MapGroup(period: Period, q: Query, metric: string): Group -> Result<Cost, string> {
    (g: Group) =>
      if |g.keys| != 1 then Err("group must have one key")
      else
        var d := NewDimension(q.groupBy, g.keys[0]);
        if d.Err? then Err(d.error) else MapCost(period, q.window, d.value, g.metrics, metric)
  }

  /** The rows of a list, or its first failure. */
  function AllOf<T>(f: T -> Result<Cost, string>, s: seq<T>): Result<seq<Cost>, string> {
    if s == [] then Ok([])
    else
      var n := |s| - 1;
      var before := AllOf(f, s[..n]);
      if before.Err? then before
      else if f(s[n]).Err? then Err(f(s[n]).error)
      else Ok(before.value + [f(s[n]).value])
  }

  function MapResult(x: ResultByTime, q: Query, metric: string): Result<seq<Cost>, string> {
    if x.period.Err? then Err(x.period.error)
    else if q.groupBy == TOTAL then
      var row := MapCost(x.period.value, q.window, Dimension(TOTAL, ""), x.total, metric);
      if row.Err? then Err(row.error) else Ok([row.value])
    else AllOf(MapGroup(x.period.value, q, metric), x.groups)
  }

  function MapResults(xs: seq<ResultByTime>, q: Query, metric: string): Result<seq<Cost>, string> {
    if xs == [] then Ok([])
    else
      var n := |xs| - 1;
      var before := MapResults(xs[..n], q, metric);
      if before.Err? then before
      else
        var rows := MapResult(xs[n], q, metric);
        if rows.Err? then rows else Ok(before.value + rows.value)
  }

  // ---------------------------------------------- which value lands in which row

  /** A metric that can be read: a number with a unit. */
  predicate Priced(metrics: map<string, Metric>, metric: string) {
    metric in metrics && metrics[metric].amount.Ok? && Text.TrimSpace(metrics[metric].unit) != ""
  }

  predicate Keyed(g: Group, groupBy: string) {
    |g.keys| == 1 && (groupBy == "region" || Text.TrimSpace(g.keys[0]) != "")
  }

  predicate Fits(g: Group, groupBy: string, metric: string) { Keyed(g, groupBy) && Priced(g.metrics, metric) }

  /** A result all of whose values can be read. */
  ghost predicate Sound(x: ResultByTime, groupBy: string, metric: string) {
    && x.period.Ok?
    && (groupBy == "total" ==> Priced(x.total, metric))
    && (groupBy != "total" ==> forall g :: g in x.groups ==> Fits(g, groupBy, metric))
  }

  function Width(x: ResultByTime, groupBy: string): nat { if groupBy == "total" then 1 else |x.groups| }

  function RowsBefore(xs: seq<ResultByTime>, groupBy: string, k: nat): nat
    requires k <= |xs|
  {
    if k == 0 then 0 else RowsBefore(xs, groupBy, k - 1) + Width(xs[k - 1], groupBy)
  }

  function ValueOf(g: Group, groupBy: string): string
    requires |g.keys| > 0
  {
    if groupBy == "region" && Text.TrimSpace(g.keys[0]) == "" then "global" else Text.TrimSpace(g.keys[0])
  }

  predicate PricedAs(m: Metric, money: Money) {
    m.amount == Ok(money.amount) && money.currency == Text.TrimSpace(m.unit)
  }

  predicate QueriedAs(q: Query, metric: string, c: Cost) {
    && c.target == "" && c.provider == "cost_explorer" && c.window == q.window && c.dimension.kind == q.groupBy
    && c.basis == (
         if metric == "AmortizedCost" then "amortized"
         else if metric == "NetUnblendedCost" then "net"
         else "unblended")
  }

  /** Row i of a result: its period, dimension and money, and the query's labels. */
  predicate IsRow(x: ResultByTime, q: Query, metric: string, i: nat, c: Cost) {
    && QueriedAs(q, metric, c) && x.period == Ok(c.period)
    && if q.groupBy == "total" then
         c.dimension.value == "" && metric in x.total && PricedAs(x.total[metric], c.amount)
       else
         && i < |x.groups| && |x.groups[i].keys| == 1 && metric in x.groups[i].metrics
         && c.dimension.value == ValueOf(x.groups[i], q.groupBy)
         && PricedAs(x.groups[i].metrics[metric], c.amount)
  }

  predicate Stands(xs: seq<ResultByTime>, q: Query, metric: string, rows: seq<Cost>, k: nat, i: nat)
    requires k < |xs|
  {
    && RowsBefore(xs, q.groupBy, k) + i < |rows|
    && IsRow(xs[k], q, metric, i, rows[RowsBefore(xs, q.groupBy, k) + i])
  }

  /** One row per value of each result, result after result, and no other row. */
  ghost predicate RowsInPlace(xs: seq<ResultByTime>, q: Query, metric: string, rows: seq<Cost>) {
    && |rows| == RowsBefore(xs, q.groupBy, |xs|)
    && forall k: nat, i: nat :: k < |xs| && i < Width(xs[k], q.groupBy) ==> Stands(xs, q, metric, rows, k, i)
  }

  lemma {:induction false} AllOfMeaning<T>(f: T -> Result<Cost, string>, s: seq<T>)
    ensures AllOf(f, s).Ok? <==> forall i :: 0 <= i < |s| ==> f(s[i]).Ok?
    ensures AllOf(f, s).Ok? ==> |AllOf(f, s).value| == |s|
    ensures AllOf(f, s).Ok? ==> forall i :: 0 <= i < |s| ==> f(s[i]) == Ok(AllOf(f, s).value[i])
  {
    if s != [] {
      var n := |s| - 1;
      AllOfMeaning(f, s[..n]);
      assert forall i :: 0 <= i < n ==> s[..n][i] == s[i];
    }
  }

  lemma MapGroupMeaning(x: ResultByTime, q: Query, metric: string, i: nat)
    requires x.period.Ok? && i < |x.groups| && KnownKind(q.groupBy) && q.groupBy != TOTAL
    ensures var r, g := MapGroup(x.period.value, q, metric)(x.groups[i]), x.groups[i];
            && (r.Ok? <==> Fits(g, q.groupBy, metric))
            && (r.Ok? ==> IsRow(x, q, metric, i, r.value))
  {
  }

  ghost predicate AreRows(x: ResultByTime, q: Query, metric: string, rows: seq<Cost>) {
    |rows| == Width(x, q.groupBy) && forall i :: 0 <= i < |rows| ==> IsRow(x, q, metric, i, rows[i])
  }

  lemma MapTotalMeaning(x: ResultByTime, q: Query, metric: string)
    requires q.groupBy == TOTAL
    ensures MapResult(x, q, metric).Ok? <==> Sound(x, q.groupBy, metric)
    ensures MapResult(x, q, metric).Ok? ==> AreRows(x, q, metric, MapResult(x, q, metric).value)
  {
  }

  lemma MapGroupsMeaning(x: ResultByTime, q: Query, metric: string)
    requires KnownKind(q.groupBy) && q.groupBy != TOTAL && x.period.Ok?
    ensures var r := AllOf(MapGroup(x.period.value, q, metric), x.groups);
            && (r.Ok? <==> Sound(x, q.groupBy, metric))
            && (r.Ok? ==> AreRows(x, q, metric, r.value))
  {
    var f := MapGroup(x.period.value, q, metric);
    AllOfMeaning(f, x.groups);
    forall i | 0 <= i < |x.groups| ensures f(x.groups[i]).Ok? <==> Fits(x.groups[i], q.groupBy, metric) {
      MapGroupMeaning(x, q, metric, i);
    }
    var r := AllOf(f, x.groups);
    if r.Ok? {
      forall i | 0 <= i < |x.groups| ensures IsRow(x, q, metric, i, r.value[i]) {
        MapGroupMeaning(x, q, metric, i);
      }
    }
  }

  lemma MapResultMeaning(x: ResultByTime, q: Query, metric: string)
    requires KnownKind(q.groupBy)
    ensures MapResult(x, q, metric).Ok? <==> Sound(x, q.groupBy, metric)
    ensures MapResult(x, q, metric).Ok? ==> AreRows(x, q, metric, MapResult(x, q, metric).value)
  {
    if q.groupBy == TOTAL {
      MapTotalMeaning(x, q, metric);
    } else if x.period.Ok? {
      MapGroupsMeaning(x, q, metric);
    }
  }

  lemma {:induction false} RowsBeforeOfPart(xs: seq<ResultByTime>, groupBy: string, k: nat, n: nat)
    requires k <= n <= |xs|
    ensures RowsBefore(xs[..n], groupBy, k) == RowsBefore(xs, groupBy, k) <= RowsBefore(xs, groupBy, n)
    decreases n, k
  {
    if k > 0 {
      RowsBeforeOfPart(xs, groupBy, k - 1, n - 1);
      RowsBeforeOfPart(xs, groupBy, k - 1, n);
    }
    if k < n {
      RowsBeforeOfPart(xs, groupBy, k, n - 1);
    }
  }

  lemma StandsAfter(
    xs: seq<ResultByTime>, q: Query, metric: string, rows: seq<Cost>, more: seq<Cost>, k: nat, i: nat)
    requires k < |xs| - 1 && Stands(xs[..|xs| - 1], q, metric, rows, k, i)
    ensures Stands(xs, q, metric, rows + more, k, i)
  {
    RowsBeforeOfPart(xs, q.groupBy, k, |xs| - 1);
    assert xs[..|xs| - 1][k] == xs[k];
  }

  lemma RowsStandAfter(xs: seq<ResultByTime>, q: Query, metric: string, rows: seq<Cost>, more: seq<Cost>)
    requires xs != [] && RowsInPlace(xs[..|xs| - 1], q, metric, rows) && AreRows(xs[|xs| - 1], q, metric, more)
    ensures RowsInPlace(xs, q, metric, rows + more)
  {
    var n := |xs| - 1;
    RowsBeforeOfPart(xs, q.groupBy, n, n);
    forall k: nat, i: nat | k < |xs| && i < Width(xs[k], q.groupBy)
      ensures Stands(xs, q, metric, rows + more, k, i)
    {
      if k < n {
        assert xs[..n][k] == xs[k];
        StandsAfter(xs, q, metric, rows, more, k, i);
      } else {
        assert (rows + more)[|rows| + i] == more[i];
      }
    }
  }

  /** Mapping succeeds exactly when everything can be read, and puts each value in
      its row. */
  lemma {:induction false} MapResultsMeaning(xs: seq<ResultByTime>, q: Query, metric: string)
    requires KnownKind(q.groupBy)
    ensures MapResults(xs, q, metric).Ok? <==> forall x :: x in xs ==> Sound(x, q.groupBy, metric)
    ensures MapResults(xs, q, metric).Ok? ==> RowsInPlace(xs, q, metric, MapResults(xs, q, metric).value)
  {
    if xs != [] {
      var n := |xs| - 1;
      MapResultsMeaning(xs[..n], q, metric);
      MapResultMeaning(xs[n], q, metric);
      assert xs == xs[..n] + [xs[n]];
      if MapResults(xs, q, metric).Ok? {
        RowsStandAfter(xs, q, metric, MapResults(xs[..n], q, metric).value, MapResult(xs[n], q, metric).value);
      }
    }
  }

  lemma {:induction false} AllOfFails<T>(f: T -> Result<Cost, string>, s: seq<T>, i: nat)
    requires i <= |s| && AllOf(f, s[..i]).Err?
    ensures AllOf(f, s) == AllOf(f, s[..i])
    decreases |s|
  {
    if i < |s| {
      var n := |s| - 1;
      assert s[..n][..i] == s[..i];
      AllOfFails(f, s[..n], i);
    } else {
      assert s[..i] == s;
    }
  }

  lemma {:induction false} MapResultsFails(xs: seq<ResultByTime>, i: nat, q: Query, metric: string)
    requires i <= |xs| && MapResults(xs[..i], q, metric).Err?
    ensures MapResults(xs, q, metric) == MapResults(xs[..i], q, metric)
    decreases |xs|
  {
    if i < |xs| {
      var n := |xs| - 1;
      assert xs[..n][..i] == xs[..i];
      MapResultsFails(xs[..n], i, q, metric);
    } else {
      assert xs[..i] == xs;
    }
  }

  predicate FromCostExplorer(c: Cost, metric: string) { c.provider == COST_EXPLORER && c.basis == MetricBasis(metric) }

  lemma {:induction false} GroupRowsIdentity(
    f: Group -> Result<Cost, string>, s: seq<Group>, period: Period, q: Query, metric: string)
    requires f == MapGroup(period, q, metric) && AllOf(f, s).Ok?
    ensures forall c :: c in AllOf(f, s).value ==> FromCostExplorer(c, metric)
  {
    if s != [] {
      GroupRowsIdentity(f, s[..|s| - 1], period, q, metric);
    }
  }

  /** All rows of one call share provider and basis. */
  lemma {:induction false} MappedRowsIdentity(xs: seq<ResultByTime>, q: Query, metric: string)
    requires MapResults(xs, q, metric).Ok?
    ensures forall c :: c in MapResults(xs, q, metric).value ==> FromCostExplorer(c, metric)
  {
    if xs != [] {
      var n := |xs| - 1;
      MappedRowsIdentity(xs[..n], q, metric);
      if q.groupBy != TOTAL {
        GroupRowsIdentity(MapGroup(xs[n].period.value, q, metric), xs[n].groups, xs[n].period.value, q, metric);
      }
    }
  }

  method MapGroups(groups: seq<Group>, period: Period, q: Query, metric: string) returns (r: Result<seq<Cost>, string>)
    ensures r == AllOf(MapGroup(period, q, metric), groups)
  {
    var f := MapGroup(period, q, metric);
    var rows: seq<Cost> := [];
    for i := 0 to |groups|
      invariant AllOf(f, groups[..i]) == Ok(rows)
    {
      assert groups[..i + 1][..i] == groups[..i];
      var entry := f(groups[i]);
      if entry.Err? {
        AllOfFails(f, groups, i + 1);
        return Err(entry.error);
      }
      rows := rows + [entry.value];
    }
    assert groups[..|groups|] == groups;
    r := Ok(rows);
  }

  method MapRows(xs: seq<ResultByTime>, q: Query, metric: string) returns (r: Result<seq<Cost>, string>)
    ensures r == MapResults(xs, q, metric)
  {
    var mapped: seq<Cost> := [];
    for i := 0 to |xs|
      invariant MapResults(xs[..i], q, metric) == Ok(mapped)
    {
      assert xs[..i + 1][..i] == xs[..i];
      var step := MapOne(xs[i], q, metric);
      if step.Err? {
        MapResultsFails(xs, i + 1, q, metric);
        return step;
      }
      mapped := mapped + step.value;
    }
    assert xs[..|xs|] == xs;
    r := Ok(mapped);
  }

  method MapOne(x: ResultByTime, q: Query, metric: string) returns (r: Result<seq<Cost>, string>)
    ensures r == MapResult(x, q, metric)
  {
    if x.period.Err? {
      return Err(x.period.error);
    }
    if q.groupBy == TOTAL {
      var entry := MapCost(x.period.value, q.window, Dimension(TOTAL, ""), x.total, metric);
      if entry.Err? {
        return Err(entry.error);
      }
      return Ok([entry.value]);
    }
    r := MapGroups(x.groups, x.period.value, q, metric);
  }

  /** The rows of all results, summed up and strictly ordered. */
  ghost predicate SumsRows(xs: seq<ResultByTime>, q: Query, metric: string, out: seq<Cost>) {
    exists rows ::
      && RowsInPlace(xs, q, metric, rows) && OneIdentity(rows)
      && SumsUp(out, rows, q.period) && StrictlyOrdered(out)
  }

  /** Rows as mapped, or their aggregate. */
  ghost predicate FinishedRows(rows: seq<Cost>, q: Query, out: seq<Cost>) {
    if q.window == MONTH_TO_DATE then IsAggregate(out, rows, q.period) else out == rows
  }

  /** `MapUsage`: all rows or an error; a month-to-date query gets their strictly
      ordered group-by sum instead. */
  method MapUsage(xs: seq<ResultByTime>, q: Query, metric: string) returns (r: Result<seq<Cost>, string>)
    ensures r.Ok? <==> && metric != "" && q.groupBy in ["total", "service", "region", "account"]
                       && forall x :: x in xs ==> Sound(x, q.groupBy, metric)
    ensures r.Ok? && q.window != "month_to_date" ==> RowsInPlace(xs, q, metric, r.value)
    ensures r.Ok? && q.window == "month_to_date" ==> SumsRows(xs, q, metric, r.value)
    ensures r.Ok? ==> MapResults(xs, q, metric).Ok? && FinishedRows(MapResults(xs, q, metric).value, q, r.value)
  {
    if metric == "" || !KnownKind(q.groupBy) {
      return Err("invalid response");
    }
    MapResultsMeaning(xs, q, metric);
    r := MapRows(xs, q, metric);
    if r.Err? || q.window != MONTH_TO_DATE {
      return;
    }
    var rows := r.value;
    r := AggregateMonthToDate(rows, q.period);
    MappedRowsIdentity(xs, q, metric);
    assert OneIdentity(rows);
    AggregateIsStrictlyOrdered(r.value, rows, q.period);
    AggregateSumsUp(r.value, rows, q.period);
  }

  /** Every row of a response counts once whatever order its results come in: two
      responses with the same rows yield the same month-to-date sequence. */
  lemma UsageForgetsOrder(
    a: seq<ResultByTime>, b: seq<ResultByTime>, q: Query, metric: string, x: seq<Cost>, y: seq<Cost>)
    requires Permutation(a, b) && MapResults(a, q, metric).Ok? && MapResults(b, q, metric).Ok?
    requires IsAggregate(x, MapResults(a, q, metric).value, q.period)
    requires IsAggregate(y, MapResults(b, q, metric).value, q.period)
    ensures x == y
  {
    RowsAreFlatMap(a, q, metric);
    RowsAreFlatMap(b, q, metric);
    FlatMapPermutes(RowsIn(q, metric), a, b);
    MappedRowsIdentity(a, q, metric);
    AggregateForgetsOrder(x, y, MapResults(a, q, metric).value, MapResults(b, q, metric).value, q.period);
  }

  function RowsIn(q: Query, metric: string): ResultByTime -> seq<Cost> {
    (x: ResultByTime) => var rows := MapResult(x, q, metric); if rows.Ok? then rows.value else []
  }

  lemma {:induction false} RowsAreFlatMap(xs: seq<ResultByTime>, q: Query, metric: string)
    requires MapResults(xs, q, metric).Ok?
    ensures MapResults(xs, q, metric).value == FlatMap(RowsIn(q, metric), xs)
  {
    if xs != [] {
      var n := |xs| - 1;
      RowsAreFlatMap(xs[..n], q, metric);
      FlatMapSnoc(RowsIn(q, metric), xs, n);
      assert xs[..n + 1] == xs;
    }
  }

  // ----------------------------------------------------------------- forecast

  datatype ForecastResult = ForecastResult(
    period: Result<Period, string>,
    mean: Result<real, string>, lower: Result<real, string>, upper: Result<real, string>)

  datatype ForecastReply = NoTotal | Forecasts(results: seq<ForecastResult>, unit: string)

  /** The requested period, and the first instant of its month. */
  datatype ForecastQuery = ForecastQuery(basis: string, period: Period, monthStart: int)

  function Parsed(amount: Result<real, string>, unit: string): Result<Money, string> {
    if amount.Err? then Err(amount.error) else NewMoney(amount.value, unit)
  }

  /** One result, over the requested period from its start or that of its month,
      with three ordered amounts and a unit. */
  predicate Foreseen(reply: ForecastReply, q: ForecastQuery) {
    && q.basis in ["unblended", "amortized", "net"]
    && reply.Forecasts? && |reply.results| == 1 && Text.TrimSpace(reply.unit) != ""
    && var x := reply.results[0];
       && x.period.Ok? && x.period.value.end == q.period.end
       && (x.period.value.start == q.period.start || x.period.value.start == q.monthStart)
       && x.mean.Ok? && x.lower.Ok? && x.upper.Ok?
       && x.lower.value <= x.mean.value <= x.upper.value
  }

  /** Each amount in its field, for the requested period. */
  predicate ForecastIs(reply: ForecastReply, q: ForecastQuery, f: Forecast)
    requires Foreseen(reply, q)
  {
    var x, unit := reply.results[0], Text.TrimSpace(reply.unit);
    && f.target == "" && f.provider == "cost_explorer" && f.basis == q.basis && f.period == q.period
    && f.mean == Money(x.mean.value, unit)
    && f.lower == Money(x.lower.value, unit)
    && f.upper == Money(x.upper.value, unit)
  }

  /** `MapForecast`: the three amounts are read with the reply's one unit, so a
      forecast of this reader is always well formed for exposition. */
  function MapForecast(reply: ForecastReply, q: ForecastQuery): (r: Result<Forecast, string>)
    ensures r.Ok? <==> Foreseen(reply, q)
    ensures r.Ok? ==> ForecastIs(reply, q, r.value)
    ensures r.Ok? ==> Exposition.WellFormed(Snapshots.ForecastR(r.value))
    ensures r.Ok? ==> Snapshots.IdentityValid(Snapshots.ForecastR(r.value))
    ensures r.Ok? ==> r.value.lower.amount <= r.value.mean.amount <= r.value.upper.amount
  {
    if !ValidBasis(q.basis) then Err("unsupported forecast cost basis")
    else if reply.NoTotal? || |reply.results| != 1 then Err("expected one forecast result")
    else
      var x := reply.results[0];
      if x.period.Err? then Err(x.period.error)
      else if (x.period.value.start != q.period.start && x.period.value.start != q.monthStart)
              || x.period.value.end != q.period.end
      then Err("forecast period mismatch")
      else
        var mean, lower, upper := Parsed(x.mean, reply.unit), Parsed(x.lower, reply.unit), Parsed(x.upper, reply.unit);
        if mean.Err? then Err(mean.error)
        else if lower.Err? then Err(lower.error)
        else if upper.Err? then Err(upper.error)
        else if lower.value.amount > mean.value.amount || mean.value.amount > upper.value.amount then
          Err("prediction bounds are unordered")
        else Ok(Forecast("", COST_EXPLORER, q.basis, q.period, mean.value, lower.value, upper.value))
  }
}
