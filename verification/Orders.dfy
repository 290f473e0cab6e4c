/** The comparators as the source writes them, one field after the other, and what
    sorting by the ranks comes to. */
module Orders {
  import opened Bags
  import opened Domain
  import opened Ranking
  import opened Snapshots
  import Text

  predicate CostLess(a: Cost, b: Cost) {
    if a.target != b.target then Text.Less(a.target, b.target)
    else if a.provider != b.provider then Text.Less(a.provider, b.provider)
    else if a.basis != b.basis then Text.Less(a.basis, b.basis)
    else if a.window != b.window then Text.Less(a.window, b.window)
    else if a.dimension.kind != b.dimension.kind then Text.Less(a.dimension.kind, b.dimension.kind)
    else if a.dimension.value != b.dimension.value then Text.Less(a.dimension.value, b.dimension.value)
    else if a.amount.currency != b.amount.currency then Text.Less(a.amount.currency, b.amount.currency)
    else a.period.start < b.period.start
  }

  predicate ForecastLess(a: Forecast, b: Forecast) {
    if a.target != b.target then Text.Less(a.target, b.target)
    else if a.provider != b.provider then Text.Less(a.provider, b.provider)
    else if a.basis != b.basis then Text.Less(a.basis, b.basis)
    else if a.period.start != b.period.start then a.period.start < b.period.start
    else Text.Less(a.mean.currency, b.mean.currency)
  }

  predicate BudgetLess(a: Budget, b: Budget) {
    if a.target != b.target then Text.Less(a.target, b.target) else Text.Less(a.name, b.name)
  }

  predicate AccountLess(a: Account, b: Account) {
    if a.target != b.target then Text.Less(a.target, b.target) else Text.Less(a.accountID, b.accountID)
  }

  predicate CommitmentLess(a: Commitment, b: Commitment) {
    if a.target != b.target then Text.Less(a.target, b.target)
    else if a.kind != b.kind then Text.Less(a.kind, b.kind)
    else Text.Less(a.timeUnit, b.timeUnit)
  }

  predicate AnomalyLess(a: Anomaly, b: Anomaly) { Text.Less(a.target, b.target) }

  predicate TagLess(a: TagCost, b: TagCost) {
    if a.target != b.target then Text.Less(a.target, b.target)
    else if a.provider != b.provider then Text.Less(a.provider, b.provider)
    else if a.basis != b.basis then Text.Less(a.basis, b.basis)
    else if a.window != b.window then Text.Less(a.window, b.window)
    else if a.tagKey != b.tagKey then Text.Less(a.tagKey, b.tagKey)
    else if a.tagValue != b.tagValue then Text.Less(a.tagValue, b.tagValue)
    else Text.Less(a.amount.currency, b.amount.currency)
  }

  // ------------------------------------------------- ranks are such comparisons

  lemma TextFirst(x: string, r: Rank, y: string, q: Rank)
    ensures RankLess([S(x)] + r, [S(y)] + q) <==> (if x != y then Text.Less(x, y) else RankLess(r, q))
  {
    Text.LessIsStrictTotal();
    assert ([S(x)] + r)[1..] == r && ([S(y)] + q)[1..] == q;
  }

  lemma NumberFirst(x: int, r: Rank, y: int, q: Rank)
    ensures RankLess([N(x)] + r, [N(y)] + q) <==> (if x != y then x < y else RankLess(r, q))
  {
    assert ([N(x)] + r)[1..] == r && ([N(y)] + q)[1..] == q;
  }

  lemma CostRankIs(a: Cost, b: Cost)
    ensures RankLess(CostRank(a), CostRank(b)) <==> CostLess(a, b)
  {
    var x7, y7 := [N(a.period.start)], [N(b.period.start)];
    var x6, y6 := [S(a.amount.currency)] + x7, [S(b.amount.currency)] + y7;
    var x5, y5 := [S(a.dimension.value)] + x6, [S(b.dimension.value)] + y6;
    var x4, y4 := [S(a.dimension.kind)] + x5, [S(b.dimension.kind)] + y5;
    var x3, y3 := [S(a.window)] + x4, [S(b.window)] + y4;
    var x2, y2 := [S(a.basis)] + x3, [S(b.basis)] + y3;
    var x1, y1 := [S(a.provider)] + x2, [S(b.provider)] + y2;
    assert CostRank(a) == [S(a.target)] + x1 && CostRank(b) == [S(b.target)] + y1;
    TextFirst(a.target, x1, b.target, y1);
    TextFirst(a.provider, x2, b.provider, y2);
    TextFirst(a.basis, x3, b.basis, y3);
    TextFirst(a.window, x4, b.window, y4);
    TextFirst(a.dimension.kind, x5, b.dimension.kind, y5);
    TextFirst(a.dimension.value, x6, b.dimension.value, y6);
    TextFirst(a.amount.currency, x7, b.amount.currency, y7);
    LastNumber(a.period.start, b.period.start);
  }

  lemma LastNumber(x: int, y: int)
    ensures RankLess([N(x)], [N(y)]) <==> x < y
  {
    NumberFirst(x, [], y, []);
    assert [N(x)] + [] == [N(x)] && [N(y)] + [] == [N(y)];
  }

  lemma LastText(x: string, y: string)
    ensures RankLess([S(x)], [S(y)]) <==> Text.Less(x, y)
  {
    Text.LessIsStrictTotal();
    TextFirst(x, [], y, []);
    assert [S(x)] + [] == [S(x)] && [S(y)] + [] == [S(y)];
  }

  lemma ForecastRankIs(a: Forecast, b: Forecast)
    ensures RankLess(ForecastRank(a), ForecastRank(b)) <==> ForecastLess(a, b)
  {
    var x4, y4 := [S(a.mean.currency)], [S(b.mean.currency)];
    var x3, y3 := [N(a.period.start)] + x4, [N(b.period.start)] + y4;
    var x2, y2 := [S(a.basis)] + x3, [S(b.basis)] + y3;
    var x1, y1 := [S(a.provider)] + x2, [S(b.provider)] + y2;
    assert ForecastRank(a) == [S(a.target)] + x1 && ForecastRank(b) == [S(b.target)] + y1;
    TextFirst(a.target, x1, b.target, y1);
    TextFirst(a.provider, x2, b.provider, y2);
    TextFirst(a.basis, x3, b.basis, y3);
    NumberFirst(a.period.start, x4, b.period.start, y4);
    LastText(a.mean.currency, b.mean.currency);
  }

  lemma BudgetRankIs(a: Budget, b: Budget)
    ensures RankLess(BudgetRank(a), BudgetRank(b)) <==> BudgetLess(a, b)
  {
    assert BudgetRank(a) == [S(a.target)] + [S(a.name)] && BudgetRank(b) == [S(b.target)] + [S(b.name)];
    TextFirst(a.target, [S(a.name)], b.target, [S(b.name)]);
    LastText(a.name, b.name);
  }

  lemma AccountRankIs(a: Account, b: Account)
    ensures RankLess(AccountRank(a), AccountRank(b)) <==> AccountLess(a, b)
  {
    assert AccountRank(a) == [S(a.target)] + [S(a.accountID)] && AccountRank(b) == [S(b.target)] + [S(b.accountID)];
    TextFirst(a.target, [S(a.accountID)], b.target, [S(b.accountID)]);
    LastText(a.accountID, b.accountID);
  }

  lemma CommitmentRankIs(a: Commitment, b: Commitment)
    ensures RankLess(CommitmentRank(a), CommitmentRank(b)) <==> CommitmentLess(a, b)
  {
    var x1, y1 := [S(a.kind)] + [S(a.timeUnit)], [S(b.kind)] + [S(b.timeUnit)];
    assert CommitmentRank(a) == [S(a.target)] + x1 && CommitmentRank(b) == [S(b.target)] + y1;
    TextFirst(a.target, x1, b.target, y1);
    TextFirst(a.kind, [S(a.timeUnit)], b.kind, [S(b.timeUnit)]);
    LastText(a.timeUnit, b.timeUnit);
  }

  lemma AnomalyRankIs(a: Anomaly, b: Anomaly)
    ensures RankLess(AnomalyRank(a), AnomalyRank(b)) <==> AnomalyLess(a, b)
  {
    LastText(a.target, b.target);
  }

  lemma TagRankIs(a: TagCost, b: TagCost)
    ensures RankLess(TagRank(a), TagRank(b)) <==> TagLess(a, b)
  {
    var x6, y6 := [S(a.amount.currency)], [S(b.amount.currency)];
    var x5, y5 := [S(a.tagValue)] + x6, [S(b.tagValue)] + y6;
    var x4, y4 := [S(a.tagKey)] + x5, [S(b.tagKey)] + y5;
    var x3, y3 := [S(a.window)] + x4, [S(b.window)] + y4;
    var x2, y2 := [S(a.basis)] + x3, [S(b.basis)] + y3;
    var x1, y1 := [S(a.provider)] + x2, [S(b.provider)] + y2;
    assert TagRank(a) == [S(a.target)] + x1 && TagRank(b) == [S(b.target)] + y1;
    TextFirst(a.target, x1, b.target, y1);
    TextFirst(a.provider, x2, b.provider, y2);
    TextFirst(a.basis, x3, b.basis, y3);
    TextFirst(a.window, x4, b.window, y4);
    TextFirst(a.tagKey, x5, b.tagKey, y5);
    TextFirst(a.tagValue, x6, b.tagValue, y6);
    LastText(a.amount.currency, b.amount.currency);
  }

  // ------------------------------------------------------------ sorted snapshots

  /** No element comes before one that should precede it. */
  ghost predicate SortedBy<T>(less: (T, T) -> bool, s: seq<T>) {
    forall i, j :: 0 <= i < j < |s| ==> !less(s[j], s[i])
  }

  lemma SortedByRank<T>(rank: T -> Rank, less: (T, T) -> bool, s: seq<T>)
    requires forall x, y :: x in s && y in s ==> (RankLess(rank(x), rank(y)) <==> less(x, y))
    ensures SortedBy(less, StableSort(rank, s))
  {
    SortOrders(rank, s);
    SortPermutes(rank, s);
    var sorted := StableSort(rank, s);
    PermutationFacts(sorted, s);
    forall i, j | 0 <= i < j < |sorted| ensures !less(sorted[j], sorted[i]) {
      var x, y := sorted[i], sorted[j];
      assert x in multiset(sorted) && y in multiset(sorted);
      assert x in s && y in s && !RankLess(rank(y), rank(x));
    }
  }

  ghost predicate SnapshotSorted(s: Snapshot) {
    && SortedBy(CostLess, s.costs) && SortedBy(ForecastLess, s.forecasts) && SortedBy(BudgetLess, s.budgets)
    && SortedBy(AccountLess, s.accounts) && SortedBy(CommitmentLess, s.commitments)
    && SortedBy(AnomalyLess, s.anomalies) && SortedBy(TagLess, s.tagCosts)
  }

  /** Every family of a snapshot is sorted by the source's own comparator. */
  lemma SnapshotsAreSorted(s: Snapshot)
    ensures SnapshotSorted(NewWithData(s))
  {
    forall a, b ensures RankLess(CostRank(a), CostRank(b)) <==> CostLess(a, b) { CostRankIs(a, b); }
    forall a, b ensures RankLess(ForecastRank(a), ForecastRank(b)) <==> ForecastLess(a, b) { ForecastRankIs(a, b); }
    forall a, b ensures RankLess(BudgetRank(a), BudgetRank(b)) <==> BudgetLess(a, b) { BudgetRankIs(a, b); }
    forall a, b ensures RankLess(AccountRank(a), AccountRank(b)) <==> AccountLess(a, b) { AccountRankIs(a, b); }
    forall a, b ensures RankLess(CommitmentRank(a), CommitmentRank(b)) <==> CommitmentLess(a, b) {
      CommitmentRankIs(a, b);
    }
    forall a, b ensures RankLess(AnomalyRank(a), AnomalyRank(b)) <==> AnomalyLess(a, b) { AnomalyRankIs(a, b); }
    forall a, b ensures RankLess(TagRank(a), TagRank(b)) <==> TagLess(a, b) { TagRankIs(a, b); }
    SortedByRank(CostRank, CostLess, s.costs);
    SortedByRank(ForecastRank, ForecastLess, s.forecasts);
    SortedByRank(BudgetRank, BudgetLess, s.budgets);
    SortedByRank(AccountRank, AccountLess, s.accounts);
    SortedByRank(CommitmentRank, CommitmentLess, s.commitments);
    SortedByRank(AnomalyRank, AnomalyLess, s.anomalies);
    SortedByRank(TagRank, TagLess, s.tagCosts);
  }
}
