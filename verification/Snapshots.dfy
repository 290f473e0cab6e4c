/** The aggregate snapshot: merging, uniqueness of metric label sets, and the
    number of series a snapshot owns. */
module Snapshots {
  import opened Bags
  import opened Domain
  import opened Ranking
  import Text

  datatype Snapshot = Snapshot(
    costs: seq<Cost>, forecasts: seq<Forecast>, budgets: seq<Budget>, accounts: seq<Account>,
    commitments: seq<Commitment>, anomalies: seq<Anomaly>, tagCosts: seq<TagCost>)

  const EMPTY := Snapshot([], [], [], [], [], [], [])

  /** One record of any family, so that claims can be made about all of them at once. */
  datatype Record =
    | CostR(cost: Cost)
    | ForecastR(forecast: Forecast)
    | BudgetR(budget: Budget)
    | AccountR(account: Account)
    | TagR(tag: TagCost)
    | CommitmentR(commitment: Commitment)
    | AnomalyR(anomaly: Anomaly)

  function Leading(s: Snapshot): seq<Record> {
    Map(c => CostR(c), s.costs) + Map(f => ForecastR(f), s.forecasts) + Map(b => BudgetR(b), s.budgets)
  }

  function AccountRecords(xs: seq<Account>): seq<Record> { Map(a => AccountR(a), xs) }

  function Trailing(s: Snapshot): seq<Record> {
    Map(t => TagR(t), s.tagCosts) + Map(c => CommitmentR(c), s.commitments) + Map(a => AnomalyR(a), s.anomalies)
  }

  /** Every record, in the order the uniqueness check visits them. */
  function Records(s: Snapshot): seq<Record> { Leading(s) + AccountRecords(s.accounts) + Trailing(s) }

  function Target(r: Record): string {
    match r
    case CostR(c) => c.target
    case ForecastR(f) => f.target
    case BudgetR(b) => b.target
    case AccountR(a) => a.target
    case TagR(t) => t.target
    case CommitmentR(c) => c.target
    case AnomalyR(a) => a.target
  }

  predicate IdentityValid(r: Record) {
    match r
    case CostR(c) => ValidProvider(c.provider) && ValidBasis(c.basis)
    case ForecastR(f) => ValidProvider(f.provider) && ValidBasis(f.basis)
    case TagR(t) => ValidProvider(t.provider) && ValidBasis(t.basis)
    case _ => true
  }

  function When<T>(flag: bool, x: T): seq<T> { if flag then [x] else [] }

  function RatioFields(c: Commitment): seq<seq<string>> {
    When(c.hasUtilization, ["commitment", c.target, c.kind, c.timeUnit, "utilization"])
    + When(c.hasCoverage, ["commitment", c.target, c.kind, c.timeUnit, "coverage"])
    + When(c.hasUnusedHours, ["commitment", c.target, c.kind, c.timeUnit, "unused_hours"])
  }

  function AmountFields(c: Commitment): seq<seq<string>> {
    When(c.hasCoveredSpend, ["commitment", c.target, c.kind, c.timeUnit, "covered_spend", c.coveredSpend.currency])
    + When(c.hasOnDemandCost, ["commitment", c.target, c.kind, c.timeUnit, "on_demand_cost", c.onDemandCost.currency])
    + When(c.hasNetSavings, ["commitment", c.target, c.kind, c.timeUnit, "net_savings", c.netSavings.currency])
  }

  /** The field lists of the uniqueness keys one record contributes. */
  function KeyFields(r: Record): seq<seq<string>> {
    match r
    case CostR(c) =>
      [["cost", c.target, c.provider, c.basis, c.window, c.dimension.kind, c.dimension.value, c.amount.currency]]
    case ForecastR(f) =>
      [["forecast", f.target, f.provider, f.basis, f.mean.currency]]
    case BudgetR(b) =>
      [["budget", b.target, b.name, b.kind, b.timeUnit, "limit", b.limit.currency]]
      + When(b.hasActual, ["budget", b.target, b.name, b.kind, b.timeUnit, "actual", b.actual.currency])
      + When(b.hasForecasted, ["budget", b.target, b.name, b.kind, b.timeUnit, "forecasted", b.forecasted.currency])
    case AccountR(a) =>
      [["account", a.target, a.accountID, a.name, a.status]]
    case TagR(t) =>
      [["tag", t.target, t.provider, t.basis, t.window, t.tagKey, t.tagValue, t.amount.currency]]
    case CommitmentR(c) => RatioFields(c) + AmountFields(c)
    case AnomalyR(a) =>
      [["anomaly", a.target, "active"], ["anomaly", a.target, "count"], ["anomaly", a.target, "last_detected"]]
      + When(a.hasImpact, ["anomaly", a.target, "impact", a.impact.currency])
  }

  /** The uniqueness keys themselves: '|'-joined strings. */
  function Keys(r: Record): seq<string> { Map(Text.Join, KeyFields(r)) }

  function One(flag: bool): int { if flag then 1 else 0 }

  /** The number of exported series one record owns. */
  function Series(r: Record): int {
    match r
    case CostR(_) => 1
    case ForecastR(_) => 3
    case BudgetR(b) => 1 + One(b.hasActual) + One(b.hasForecasted)
    case AccountR(_) => 1
    case TagR(_) => 1
    case CommitmentR(c) =>
      One(c.hasUtilization) + One(c.hasCoverage) + One(c.hasUnusedHours)
      + One(c.hasCoveredSpend) + One(c.hasOnDemandCost) + One(c.hasNetSavings)
    case AnomalyR(a) => 2 + One(a.hasImpact) + One(a.lastDetected != ZERO_TIME)
  }

  function SeriesCount(s: Snapshot): int { Sum(Series, Records(s)) }

  /** Every record belongs to the target and carries a bounded provider and basis. */
  ghost predicate ValidPartial(s: Snapshot, target: string) {
    forall r :: r in Records(s) ==> Target(r) == target && IdentityValid(r)
  }

  ghost predicate UniqueRecords(rs: seq<Record>) {
    && (forall r :: r in rs ==> IdentityValid(r))
    && Distinct(FlatMap(Keys, rs))
  }

  ghost predicate Unique(s: Snapshot) { UniqueRecords(Records(s)) }

  // ----------------------------------------------------------------- merging

  /** `NewWithData`: copy and sort every family by its comparator. */
  function NewWithData(s: Snapshot): Snapshot {
    Snapshot(
      StableSort(CostRank, s.costs), StableSort(ForecastRank, s.forecasts),
      StableSort(BudgetRank, s.budgets), StableSort(AccountRank, s.accounts),
      StableSort(CommitmentRank, s.commitments), StableSort(AnomalyRank, s.anomalies),
      StableSort(TagRank, s.tagCosts))
  }

  function Append(s: Snapshot, t: Snapshot): Snapshot {
    Snapshot(s.costs + t.costs, s.forecasts + t.forecasts, s.budgets + t.budgets, s.accounts + t.accounts,
             s.commitments + t.commitments, s.anomalies + t.anomalies, s.tagCosts + t.tagCosts)
  }

  function Gather(parts: seq<Snapshot>): Snapshot {
    if parts == [] then EMPTY else Append(parts[0], Gather(parts[1..]))
  }

  function Merge(parts: seq<Snapshot>): Snapshot { NewWithData(Gather(parts)) }

  lemma SortKeepsRecords(s: Snapshot)
    ensures Permutation(Records(NewWithData(s)), Records(s))
  {
    SortPermutes(CostRank, s.costs);
    SortPermutes(ForecastRank, s.forecasts);
    SortPermutes(BudgetRank, s.budgets);
    SortPermutes(AccountRank, s.accounts);
    SortPermutes(CommitmentRank, s.commitments);
    SortPermutes(AnomalyRank, s.anomalies);
    SortPermutes(TagRank, s.tagCosts);
    MapPermutes((c: Cost) => CostR(c), StableSort(CostRank, s.costs), s.costs);
    MapPermutes((f: Forecast) => ForecastR(f), StableSort(ForecastRank, s.forecasts), s.forecasts);
    MapPermutes((b: Budget) => BudgetR(b), StableSort(BudgetRank, s.budgets), s.budgets);
    MapPermutes((a: Account) => AccountR(a), StableSort(AccountRank, s.accounts), s.accounts);
    MapPermutes((t: TagCost) => TagR(t), StableSort(TagRank, s.tagCosts), s.tagCosts);
    MapPermutes((c: Commitment) => CommitmentR(c), StableSort(CommitmentRank, s.commitments), s.commitments);
    MapPermutes((a: Anomaly) => AnomalyR(a), StableSort(AnomalyRank, s.anomalies), s.anomalies);
  }

  lemma AppendKeepsRecords(s: Snapshot, t: Snapshot)
    ensures Permutation(Records(Append(s, t)), Records(s) + Records(t))
  {
    MapAppend((c: Cost) => CostR(c), s.costs, t.costs);
    MapAppend((f: Forecast) => ForecastR(f), s.forecasts, t.forecasts);
    MapAppend((b: Budget) => BudgetR(b), s.budgets, t.budgets);
    MapAppend((a: Account) => AccountR(a), s.accounts, t.accounts);
    MapAppend((x: TagCost) => TagR(x), s.tagCosts, t.tagCosts);
    MapAppend((c: Commitment) => CommitmentR(c), s.commitments, t.commitments);
    MapAppend((a: Anomaly) => AnomalyR(a), s.anomalies, t.anomalies);
  }

  lemma {:induction false} GatherKeepsRecords(parts: seq<Snapshot>)
    ensures Permutation(Records(Gather(parts)), FlatMap(Records, parts))
  {
    if parts != [] {
      GatherKeepsRecords(parts[1..]);
      AppendKeepsRecords(parts[0], Gather(parts[1..]));
    }
  }

  /** Merging loses, invents and duplicates no record. */
  lemma MergeKeepsRecords(parts: seq<Snapshot>)
    ensures Permutation(Records(Merge(parts)), FlatMap(Records, parts))
  {
    GatherKeepsRecords(parts);
    SortKeepsRecords(Gather(parts));
  }
}
