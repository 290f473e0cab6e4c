/** The exporter's domain values: money, identities and the seven record
    families that a snapshot holds. Amounts are exact; instants are integers
    counted from Go's zero time, so `IsZero` is comparison with 0. */
module Domain {
  import opened Bags
  import opened Ranking
  import Text

  datatype Result<+T, +E> = Ok(value: T) | Err(error: E)

  datatype Money = Money(amount: real, currency: string)

  /** Money is only made by `NewMoney`, by `Add`, or as the zero value. */
  predicate Proper(m: Money) { Text.TrimSpace(m.currency) == m.currency }

  /** `NewMoney`: amounts are finite here, so only a blank currency is refused. */
  function NewMoney(amount: real, currency: string): (r: Result<Money, string>)
    ensures r.Ok? ==> Proper(r.value) && r.value.currency != "" && r.value.amount == amount
    ensures currency != "" && Proper(Money(amount, currency)) ==> r == Ok(Money(amount, currency))
  {
    Text.TrimTwice(currency);
    var c := Text.TrimSpace(currency);
    if c == "" then Err("currency must not be empty") else Ok(Money(amount, c))
  }

  /** `Money.Add`: sums never cross currencies. */
  function Add(a: Money, b: Money): (r: Result<Money, string>)
    ensures r.Ok? && Proper(a) ==> Proper(r.value)
    ensures r.Ok? ==> r.value.currency == a.currency == b.currency
    ensures a.currency == b.currency ==> r.Ok?
  {
    if a.currency != b.currency then Err("currency mismatch") else Ok(Money(a.amount + b.amount, a.currency))
  }

  /** What was made once can be made again from its parts, unchanged. */
  lemma MoneyRoundTrips(amount: real, currency: string)
    requires NewMoney(amount, currency).Ok?
    ensures var m := NewMoney(amount, currency).value; NewMoney(m.amount, m.currency) == Ok(m)
    ensures NewMoney(amount, Text.TrimSpace(currency)) == NewMoney(amount, currency)
  {
    Text.TrimTwice(currency);
  }

  /** Adds a list up, first to last. */
  function AddUp(first: Money, rest: seq<Money>): Result<Money, string>
    decreases |rest|
  {
    if rest == [] then Ok(first)
    else
      var sum := Add(first, rest[0]);
      if sum.Err? then sum else AddUp(sum.value, rest[1..])
  }

  function AmountOf(m: Money): real { m.amount }

  /** A list adds up exactly when it is all of one currency, and then to the total of
      its amounts in that currency. */
  lemma {:induction false} AddUpIff(first: Money, rest: seq<Money>)
    ensures AddUp(first, rest).Ok? <==> forall m :: m in rest ==> m.currency == first.currency
    ensures AddUp(first, rest).Ok? ==>
              AddUp(first, rest).value == Money(first.amount + Total(AmountOf, rest), first.currency)
    decreases |rest|
  {
    if rest != [] {
      assert rest == [rest[0]] + rest[1..];
      if first.currency == rest[0].currency {
        AddUpIff(Add(first, rest[0]).value, rest[1..]);
      }
    }
  }

  datatype Period = Period(start: int, end: int)

  const ZERO_TIME := 0

  /** From Go's zero time to the Unix epoch, in seconds. */
  const UNIX_EPOCH := 62135596800

  // The bounded public values of the string-typed fields.
  const COST_EXPLORER := "cost_explorer"
  const CUR_ATHENA := "cur_athena"
  const UNBLENDED := "unblended"
  const AMORTIZED := "amortized"
  const NET := "net"
  const DAILY := "daily"
  const MONTH_TO_DATE := "month_to_date"
  const TOTAL := "total"
  const SERVICE := "service"
  const REGION := "region"
  const ACCOUNT := "account"

  predicate ValidProvider(p: string) { p == COST_EXPLORER || p == CUR_ATHENA }

  predicate ValidBasis(b: string) { b == UNBLENDED || b == AMORTIZED || b == NET }

  predicate KnownWindow(w: string) { w == DAILY || w == MONTH_TO_DATE }

  predicate KnownKind(k: string) { k == TOTAL || k == SERVICE || k == REGION || k == ACCOUNT }

  datatype Dimension = Dimension(kind: string, value: string)

  /** `NewDimension`: only totals go without a value; an empty region is global. */
  function NewDimension(kind: string, value: string): (r: Result<Dimension, string>)
    ensures r.Ok? ==> r.value.kind == kind && KnownKind(kind)
    ensures r.Ok? ==> (r.value.value == "" <==> kind == TOTAL)
    ensures r.Ok? && Text.TrimSpace(value) != "" ==> r.value.value == Text.TrimSpace(value)
    ensures r.Ok? && Text.TrimSpace(value) == "" ==> r.value.value == if kind == "region" then "global" else ""
    ensures r.Err? <==> !KnownKind(kind)
                        || (kind == TOTAL && Text.TrimSpace(value) != "")
                        || ((kind == SERVICE || kind == ACCOUNT) && Text.TrimSpace(value) == "")
  {
    var v := Text.TrimSpace(value);
    if kind == TOTAL then
      if v != "" then Err("invalid cost dimension") else Ok(Dimension(kind, v))
    else if kind == REGION then
      Ok(Dimension(kind, if v == "" then "global" else v))
    else if kind == SERVICE || kind == ACCOUNT then
      if v == "" then Err("invalid cost dimension") else Ok(Dimension(kind, v))
    else Err("invalid cost dimension")
  }

  datatype CollectorID = CollectorID(target: string, name: string) {
    predicate Valid() {
      && Text.TrimSpace(target) == target && target != ""
      && Text.TrimSpace(name) == name && name != ""
    }
  }

  datatype Cost = Cost(
    target: string, provider: string, basis: string, window: string,
    period: Period, dimension: Dimension, amount: Money)

  datatype Forecast = Forecast(
    target: string, provider: string, basis: string, period: Period,
    mean: Money, lower: Money, upper: Money)

  datatype Budget = Budget(
    target: string, name: string, kind: string, timeUnit: string,
    limit: Money, actual: Money, forecasted: Money,
    hasActual: bool, hasForecasted: bool)

  datatype Account = Account(target: string, accountID: string, name: string, status: string)

  datatype Commitment = Commitment(
    target: string, kind: string, timeUnit: string,
    utilization: real, coverage: real, unusedHours: real,
    coveredSpend: Money, onDemandCost: Money, netSavings: Money,
    hasUtilization: bool, hasCoverage: bool, hasUnusedHours: bool,
    hasCoveredSpend: bool, hasOnDemandCost: bool, hasNetSavings: bool)

  datatype Anomaly = Anomaly(
    target: string, active: bool, count: int, impact: Money, lastDetected: int, hasImpact: bool)

  datatype TagCost = TagCost(
    target: string, provider: string, basis: string, window: string,
    tagKey: string, tagValue: string, amount: Money)

  // The fields each family's comparator compares, in its order.

  function CostRank(c: Cost): Rank {
    [S(c.target), S(c.provider), S(c.basis), S(c.window), S(c.dimension.kind),
     S(c.dimension.value), S(c.amount.currency), N(c.period.start)]
  }

  function ForecastRank(f: Forecast): Rank {
    [S(f.target), S(f.provider), S(f.basis), N(f.period.start), S(f.mean.currency)]
  }

  function BudgetRank(b: Budget): Rank { [S(b.target), S(b.name)] }

  function AccountRank(a: Account): Rank { [S(a.target), S(a.accountID)] }

  function CommitmentRank(c: Commitment): Rank { [S(c.target), S(c.kind), S(c.timeUnit)] }

  function AnomalyRank(a: Anomaly): Rank { [S(a.target)] }

  function TagRank(t: TagCost): Rank {
    [S(t.target), S(t.provider), S(t.basis), S(t.window), S(t.tagKey), S(t.tagValue),
     S(t.amount.currency)]
  }
}
