/** The Cost Explorer tag collector, against a reader that may answer anything. */
module TagCollector {
  import opened Arithmetic
  import opened Bags
  import opened Budgets
  import opened Domain
  import opened Limiters
  import opened Ranking
  import opened Snapshots
  import opened TagLimits

  /** One call of `ReadTagCosts`. */
  datatype Request = Request(basis: string, key: TagKey, window: string)

  datatype Failure = ReadFailed(message: string) | LimitFailed(error: Error) | SeriesLimitExceeded

  /** The answer to the n-th call. */
  type Reader = (nat, Request) -> Result<seq<TagCost>, string>

  function ForKey(basis: string): TagKey -> seq<Request> {
    key => [Request(basis, key, DAILY), Request(basis, key, MONTH_TO_DATE)]
  }

  function ForBasis(keys: seq<TagKey>): string -> seq<Request> { basis => FlatMap(ForKey(basis), keys) }

  /** Every request, in the order of the nested loops. */
  function Requests(bases: seq<string>, keys: seq<TagKey>): seq<Request> { FlatMap(ForBasis(keys), bases) }

  function Aim(target: string): TagCost -> TagCost { (t: TagCost) => t.(target := target) }

  /** What one answer adds to the rows so far. */
  function Added(
    rows: seq<TagCost>, request: Request, answer: Result<seq<TagCost>, string>, overflow: string, target: string)
    : Result<seq<TagCost>, Failure>
  {
    if answer.Err? then Err(ReadFailed(answer.error))
    else
      var bounded := LimitValues(answer.value, request.key.maxValues, overflow);
      if bounded.Err? then Err(LimitFailed(bounded.error)) else Ok(rows + Map(Aim(target), bounded.value))
  }

  /** The rows after a list of requests, or the first failure. */
  function Gathered(
    requests: seq<Request>, read: Reader, overflow: string, target: string): Result<seq<TagCost>, Failure>
  {
    if requests == [] then Ok([])
    else
      var n := |requests| - 1;
      var before := Gathered(requests[..n], read, overflow, target);
      if before.Err? then before else Added(before.value, requests[n], read(n, requests[n]), overflow, target)
  }

  lemma {:induction false} FailureIsFinal(
    a: seq<Request>, b: seq<Request>, read: Reader, overflow: string, target: string)
    requires Gathered(a, read, overflow, target).Err?
    ensures Gathered(a + b, read, overflow, target) == Gathered(a, read, overflow, target)
    decreases |b|
  {
    if b == [] {
      assert a + b == a;
    } else {
      var n := |b| - 1;
      FailureIsFinal(a, b[..n], read, overflow, target);
      assert (a + b)[..|a + b| - 1] == a + b[..n];
    }
  }

  // ------------------------------------------------------------------ budget

  function Allowance(r: Request): int { r.key.maxValues }

  /** No answer contributes more rows than its key allows. */
  lemma {:induction false} RowsWithinAllowance(requests: seq<Request>, read: Reader, overflow: string, target: string)
    requires Gathered(requests, read, overflow, target).Ok?
    ensures |Gathered(requests, read, overflow, target).value| <= Sum(Allowance, requests)
  {
    if requests != [] {
      var n := |requests| - 1;
      RowsWithinAllowance(requests[..n], read, overflow, target);
      SumSnoc(Allowance, requests, n);
      assert requests[..n + 1] == requests;
    }
  }

  /** The allowances of all requests add up to what the configuration budgets for
      one currency. */
  lemma AllowanceOfAll(bases: seq<string>, keys: seq<TagKey>)
    ensures Sum(Allowance, Requests(bases, keys)) == 2 * Sum(KeyValues, keys) * |bases|
  {
    var each := 2 * Sum(KeyValues, keys);
    var perBasis := (b: string) => each;
    forall b | b in bases ensures perBasis(b) == Sum(Allowance, ForBasis(keys)(b)) {
      AllowanceOfBasis(b, keys);
    }
    SumOfFlatMap(ForBasis(keys), Allowance, perBasis, bases);
    SumOfConstant(perBasis, each, bases);
  }

  lemma AllowanceOfBasis(b: string, keys: seq<TagKey>)
    ensures Sum(Allowance, ForBasis(keys)(b)) == 2 * Sum(KeyValues, keys)
  {
  }

  // ----------------------------------------------------- what is collected

  /** Every request is answered, with rows whose money is well made. */
  predicate AnswersProper(requests: seq<Request>, read: Reader) {
    forall n :: 0 <= n < |requests| && read(n, requests[n]).Ok? ==>
      forall t :: t in read(n, requests[n]).value ==> Proper(t.amount)
  }

  function Answer(requests: seq<Request>, read: Reader, n: nat): seq<TagCost>
    requires n < |requests|
  {
    if read(n, requests[n]).Ok? then read(n, requests[n]).value else []
  }

  /** How many rows the first n answers may contribute. */
  function Fitting(requests: seq<Request>, read: Reader, n: nat): int
    requires n <= |requests|
  {
    if n == 0 then 0
    else Fitting(requests, read, n - 1) + Min(|Answer(requests, read, n - 1)|, requests[n - 1].key.maxValues)
  }

  /** What the first n answers total in one currency. */
  function Answered(requests: seq<Request>, read: Reader, n: nat, currency: string): real
    requires n <= |requests|
  {
    if n == 0 then 0.0
    else Answered(requests, read, n - 1, currency) + TotalIn(TagMoney, currency, Answer(requests, read, n - 1))
  }

  /** A row is an answered row, or the overflow of some, now of the given target. */
  predicate Stems(x: TagCost, requests: seq<Request>, read: Reader, overflow: string, target: string) {
    && x.target == target
    && exists n, t :: 0 <= n < |requests| && t in Answer(requests, read, n)
         && SameBoundary(x, t) && x.amount.currency == t.amount.currency
         && (x == t.(target := target) || x.tagValue == overflow)
  }

  /** Of n answered rows min(n, maxValues) are collected, request after request; no
      money is lost; every row stems from an answer. */
  ghost predicate RowsHoldAnswers(
    rows: seq<TagCost>, requests: seq<Request>, read: Reader, overflow: string, target: string)
  {
    && |rows| == Fitting(requests, read, |requests|)
    && (forall c :: TotalIn(TagMoney, c, rows) == Answered(requests, read, |requests|, c))
    && (forall x :: x in rows ==> Stems(x, requests, read, overflow, target))
  }

  /** The same of a whole snapshot, which holds nothing else. */
  ghost predicate HoldsAnswers(s: Snapshot, requests: seq<Request>, read: Reader, overflow: string, target: string) {
    && RowsHoldAnswers(s.tagCosts, requests, read, overflow, target)
    && s == EMPTY.(tagCosts := s.tagCosts)
  }

  lemma {:induction false} AimKeepsTotals(target: string, s: seq<TagCost>, c: string)
    ensures TotalIn(TagMoney, c, Map(Aim(target), s)) == TotalIn(TagMoney, c, s)
  {
    if s != [] {
      AimKeepsTotals(target, s[1..], c);
      assert Map(Aim(target), s)[1..] == Map(Aim(target), s[1..]);
      assert TagMoney(Aim(target)(s[0])) == TagMoney(s[0]);
    }
  }

  lemma {:induction false} FittingOfPrefix(requests: seq<Request>, read: Reader, n: nat, m: nat)
    requires n <= m <= |requests|
    ensures Fitting(requests[..m], read, n) == Fitting(requests, read, n)
    ensures forall c :: Answered(requests[..m], read, n, c) == Answered(requests, read, n, c)
  {
    if n > 0 {
      FittingOfPrefix(requests, read, n - 1, m);
      assert requests[..m][n - 1] == requests[n - 1];
    }
  }

  lemma StemsOnward(x: TagCost, requests: seq<Request>, read: Reader, overflow: string, target: string, m: nat)
    requires m <= |requests| && Stems(x, requests[..m], read, overflow, target)
    ensures Stems(x, requests, read, overflow, target)
  {
    var n, t :| 0 <= n < m && t in Answer(requests[..m], read, n)
      && SameBoundary(x, t) && x.amount.currency == t.amount.currency
      && (x == t.(target := target) || x.tagValue == overflow);
    assert t in Answer(requests, read, n);
  }

  lemma NewRowStems(requests: seq<Request>, read: Reader, overflow: string, target: string, n: nat, x: TagCost)
    requires n < |requests| && read(n, requests[n]).Ok?
    requires forall t :: t in Answer(requests, read, n) ==> Proper(t.amount)
    requires var bounded := LimitValues(Answer(requests, read, n), requests[n].key.maxValues, overflow);
             bounded.Ok? && x in Map(Aim(target), bounded.value)
    ensures Stems(x, requests, read, overflow, target)
  {
    var bounded := LimitValues(Answer(requests, read, n), requests[n].key.maxValues, overflow).value;
    InMap(Aim(target), bounded, x);
    var y :| y in bounded && Aim(target)(y) == x;
    LimitedMembers(Answer(requests, read, n), requests[n].key.maxValues, overflow, y);
    var t :| t in Answer(requests, read, n) && SameBoundary(y, t) && y.target == t.target
      && y.amount.currency == t.amount.currency && (y == t || y.tagValue == overflow);
    assert SameBoundary(x, t);
  }

  lemma {:induction false} GatheredHolds(requests: seq<Request>, read: Reader, overflow: string, target: string)
    requires Gathered(requests, read, overflow, target).Ok? && AnswersProper(requests, read)
    ensures RowsHoldAnswers(Gathered(requests, read, overflow, target).value, requests, read, overflow, target)
  {
    var rows := Gathered(requests, read, overflow, target).value;
    if requests != [] {
      var n := |requests| - 1;
      var before := Gathered(requests[..n], read, overflow, target).value;
      var answer := Answer(requests, read, n);
      var bounded := LimitValues(answer, requests[n].key.maxValues, overflow).value;
      PrefixIsProper(requests, read, n);
      GatheredHolds(requests[..n], read, overflow, target);
      FittingOfPrefix(requests, read, n, n);
      ValuesAreLimited(answer, requests[n].key.maxValues, overflow);
      assert rows == before + Map(Aim(target), bounded);
      forall c ensures TotalIn(TagMoney, c, rows) == Answered(requests, read, n + 1, c) {
        TotalAppend(AmountIn(TagMoney, c), before, Map(Aim(target), bounded));
        AimKeepsTotals(target, bounded, c);
      }
      forall x | x in rows ensures Stems(x, requests, read, overflow, target) {
        if x in before {
          StemsOnward(x, requests, read, overflow, target, n);
        } else {
          NewRowStems(requests, read, overflow, target, n, x);
        }
      }
    }
  }

  lemma PrefixIsProper(requests: seq<Request>, read: Reader, m: nat)
    requires m <= |requests| && AnswersProper(requests, read)
    ensures AnswersProper(requests[..m], read)
  {
    forall n | 0 <= n < m && read(n, requests[..m][n]).Ok?
      ensures forall t :: t in read(n, requests[..m][n]).value ==> Proper(t.amount)
    {
      assert requests[..m][n] == requests[n];
    }
  }

  lemma SnapshotHoldsAnswers(requests: seq<Request>, read: Reader, overflow: string, target: string)
    requires Gathered(requests, read, overflow, target).Ok? && AnswersProper(requests, read)
    ensures var rows := Gathered(requests, read, overflow, target).value;
            HoldsAnswers(NewWithData(EMPTY.(tagCosts := rows)), requests, read, overflow, target)
  {
    var rows := Gathered(requests, read, overflow, target).value;
    GatheredHolds(requests, read, overflow, target);
    SortPermutes(TagRank, rows);
    PermutationFacts(StableSort(TagRank, rows), rows);
    forall c ensures TotalIn(TagMoney, c, StableSort(TagRank, rows)) == TotalIn(TagMoney, c, rows) {
      TotalPermutes(AmountIn(TagMoney, c), StableSort(TagRank, rows), rows);
    }
  }

  /** The requests: every basis with every key, once per window. */
  lemma RequestAt(bases: seq<string>, keys: seq<TagKey>, i: nat, j: nat, q: nat)
    requires i < |bases| && j < |keys| && q < 2
    ensures |Requests(bases, keys)| == |bases| * (2 * |keys|)
    ensures i * (2 * |keys|) + (2 * j + q) < |Requests(bases, keys)|
    ensures Requests(bases, keys)[i * (2 * |keys|) + (2 * j + q)]
         == Request(bases[i], keys[j], if q == 0 then "daily" else "month_to_date")
  {
    forall b | b in bases ensures |ForBasis(keys)(b)| == 2 * |keys| {
      RequestsOfBasis(b, keys);
    }
    FlatMapAt(ForBasis(keys), bases, 2 * |keys|, i, 2 * j + q);
    FlatMapAt(ForKey(bases[i]), keys, 2, j, q);
  }

  /** Pieces of one length: element k of piece i stands at i times that length plus k. */
  lemma {:induction false} FlatMapAt<T, U>(f: T -> seq<U>, s: seq<T>, size: nat, i: nat, k: nat)
    requires (forall x :: x in s ==> |f(x)| == size) && i < |s| && k < size
    ensures |FlatMap(f, s)| == |s| * size && i * size + k < |FlatMap(f, s)|
    ensures FlatMap(f, s)[i * size + k] == f(s[i])[k]
  {
    var first, rest := f(s[0]), s[1..];
    assert s[0] in s && forall x :: x in rest ==> x in s;
    PiecesAddUp(f, s, size);
    if i > 0 {
      FlatMapAt(f, rest, size, i - 1, k);
      OneMorePiece(i - 1, size);
      OneMorePiece(|rest|, size);
      assert FlatMap(f, s)[i * size + k] == FlatMap(f, rest)[(i - 1) * size + k];
    } else {
      OneMorePiece(|rest|, size);
      assert FlatMap(f, s)[k] == first[k];
    }
  }

  lemma OneMorePiece(n: nat, size: nat)
    ensures (n + 1) * size == n * size + size >= size
  {
  }

  lemma {:induction false} PiecesAddUp<T, U>(f: T -> seq<U>, s: seq<T>, size: nat)
    requires forall x :: x in s ==> |f(x)| == size
    ensures |FlatMap(f, s)| == |s| * size
  {
    if s != [] {
      assert forall x :: x in s[1..] ==> x in s;
      assert s[0] in s;
      PiecesAddUp(f, s[1..], size);
      OneMorePiece(|s| - 1, size);
    }
  }

  /** `Collect`'s verdict. */
  function Collected(bases: seq<string>, keys: seq<TagKey>, limit: int, read: Reader, overflow: string, target: string)
    : Result<Snapshot, Failure>
  {
    var rows := Gathered(Requests(bases, keys), read, overflow, target);
    if rows.Err? then Err(rows.error)
    else if |rows.value| > limit then Err(SeriesLimitExceeded)
    else Ok(NewWithData(EMPTY.(tagCosts := rows.value)))
  }

  lemma Ordering(v: int, b: int, c: int, limit: int)
    requires v >= 0 && b >= 0 && v * 2 * Max(1, b) * Max(1, c) <= limit
    ensures 2 * v * b <= limit
  {
    var w, m, n := 2 * v, Max(1, b), Max(1, c);
    MulMonotone(w, b, m);
    MulMonotone(w * m, 1, n);
    assert v * 2 * m * n == w * m * n;
  }

  /** Whatever the reader answers, a validated configuration never meets the tag
      series limit. */
  lemma TagBudgetSuffices(config: TargetConfig, s: Settings, read: Reader, overflow: string, target: string)
    requires ValidTags(config, s) && config.tags
    ensures Collected(s.bases, config.keys, s.tagSeriesLimit, read, overflow, target) != Err(SeriesLimitExceeded)
  {
    var requests := Requests(s.bases, config.keys);
    var rows := Gathered(requests, read, overflow, target);
    if rows.Ok? {
      RowsWithinAllowance(requests, read, overflow, target);
      AllowanceOfAll(s.bases, config.keys);
      SumIsNatural(KeyValues, config.keys);
      Ordering(Sum(KeyValues, config.keys), |s.bases|, if config.cur then s.maxCurrencies else 1, s.tagSeriesLimit);
    } else {
      GatherFailsOtherwise(requests, read, overflow, target);
    }
  }

  lemma {:induction false} GatherFailsOtherwise(requests: seq<Request>, read: Reader, overflow: string, target: string)
    ensures Gathered(requests, read, overflow, target) != Err(SeriesLimitExceeded)
  {
    if requests != [] {
      GatherFailsOtherwise(requests[..|requests| - 1], read, overflow, target);
    }
  }

  // The budget is not too careful either.

  const SAMPLE := TagCost("", COST_EXPLORER, UNBLENDED, DAILY, "", "", Money(0.0, "USD"))

  /** A reader that answers every call with as many rows as its key allows. */
  function FullReader(): Reader {
    (n: nat, r: Request) => Ok(seq(Max(0, r.key.maxValues), (i: nat) => SAMPLE))
  }

  lemma {:induction false} FullAnswersFill(requests: seq<Request>, overflow: string, target: string)
    requires forall r :: r in requests ==> r.key.maxValues > 0
    ensures Gathered(requests, FullReader(), overflow, target).Ok?
    ensures |Gathered(requests, FullReader(), overflow, target).value| == Sum(Allowance, requests)
  {
    if requests != [] {
      var n := |requests| - 1;
      FullAnswersFill(requests[..n], overflow, target);
      SumSnoc(Allowance, requests, n);
      assert requests[..n + 1] == requests;
    }
  }

  lemma RequestsAllowSome(bases: seq<string>, keys: seq<TagKey>)
    requires forall k :: k in keys ==> k.maxValues > 0
    ensures forall r :: r in Requests(bases, keys) ==> r.key.maxValues > 0
  {
    forall r | r in Requests(bases, keys) ensures r.key.maxValues > 0 {
      InFlatMap(ForBasis(keys), bases, r);
      var b :| b in bases && r in ForBasis(keys)(b);
      InFlatMap(ForKey(b), keys, r);
    }
  }

  lemma BudgetForOneCurrency(v: int, b: nat)
    requires v >= 0 && b > 0
    ensures v * 2 * Max(1, b) * Max(1, 1) == 2 * v * b
  {
  }

  /** Some reader makes the collector exceed its limit exactly when the configured
      values, twice per basis, do. */
  lemma TagBudgetIsExact(bases: seq<string>, keys: seq<TagKey>, limit: int, overflow: string, target: string)
    requires bases != [] && forall k :: k in keys ==> k.maxValues > 0
    ensures (exists read :: Collected(bases, keys, limit, read, overflow, target) == Err(SeriesLimitExceeded))
       <==> TagBudget(keys, |bases|, 1) > limit
  {
    var requests := Requests(bases, keys);
    AllowanceOfAll(bases, keys);
    SumIsNatural(KeyValues, keys);
    BudgetForOneCurrency(Sum(KeyValues, keys), |bases|);
    if TagBudget(keys, |bases|, 1) > limit {
      RequestsAllowSome(bases, keys);
      FullAnswersFill(requests, overflow, target);
      assert Collected(bases, keys, limit, FullReader(), overflow, target) == Err(SeriesLimitExceeded);
    }
    forall read | Collected(bases, keys, limit, read, overflow, target) == Err(SeriesLimitExceeded)
      ensures TagBudget(keys, |bases|, 1) > limit
    {
      GatherFailsOtherwise(requests, read, overflow, target);
      RowsWithinAllowance(requests, read, overflow, target);
    }
  }

  // --------------------------------------------------------------- operation

  lemma GatheredSnoc(done: seq<Request>, request: Request, read: Reader, overflow: string, target: string)
    requires Gathered(done, read, overflow, target).Ok?
    ensures Gathered(done + [request], read, overflow, target)
         == Added(Gathered(done, read, overflow, target).value, request, read(|done|, request), overflow, target)
  {
  }

  /** The body of the innermost loop. */
  method Ask(
    ghost done: seq<Request>, request: Request, calls: nat, read: Reader, overflow: string, target: string,
    result: seq<TagCost>)
    returns (r: Result<seq<TagCost>, Failure>)
    requires Gathered(done, read, overflow, target) == Ok(result) && calls == |done|
    ensures r == Gathered(done + [request], read, overflow, target)
  {
    GatheredSnoc(done, request, read, overflow, target);
    var rows := read(calls, request);
    if rows.Err? {
      return Err(ReadFailed(rows.error));
    }
    var bounded := LimitTagValues(rows.value, request.key.maxValues, overflow);
    if bounded.Err? {
      return Err(LimitFailed(bounded.error));
    }
    r := Ok(result + Map(Aim(target), bounded.value));
  }

  /** The loop over the two windows. */
  method CollectKey(
    ghost done: seq<Request>, basis: string, key: TagKey, calls: nat, read: Reader, overflow: string, target: string,
    result: seq<TagCost>)
    returns (r: Result<seq<TagCost>, Failure>)
    requires Gathered(done, read, overflow, target) == Ok(result) && calls == |done|
    ensures r == Gathered(done + ForKey(basis)(key), read, overflow, target)
  {
    ghost var all := ForKey(basis)(key);
    var windows := [DAILY, MONTH_TO_DATE];
    var rows := result;
    ghost var asked := done;
    assert done + all[..0] == done;
    for q := 0 to 2
      invariant asked == done + all[..q]
      invariant Gathered(asked, read, overflow, target) == Ok(rows)
    {
      var request := Request(basis, key, windows[q]);
      r := Ask(asked, request, calls + q, read, overflow, target, rows);
      asked := asked + [request];
      PartOfKey(done, all, q, request);
      if r.Err? {
        FailureIsFinal(asked, all[q + 1..], read, overflow, target);
        return;
      }
      rows := r.value;
    }
    assert all[..2] == all;
    r := Ok(rows);
  }

  lemma PartOfKey(done: seq<Request>, all: seq<Request>, q: nat, request: Request)
    requires q < |all| && all[q] == request
    ensures done + all[..q] + [request] == done + all[..q + 1]
    ensures done + all[..q + 1] + all[q + 1..] == done + all
  {
  }

  /** The loop over the keys. */
  method CollectBasis(
    ghost done: seq<Request>, basis: string, keys: seq<TagKey>, calls: nat, read: Reader, overflow: string,
    target: string, result: seq<TagCost>)
    returns (r: Result<seq<TagCost>, Failure>)
    requires Gathered(done, read, overflow, target) == Ok(result) && calls == |done|
    ensures r == Gathered(done + ForBasis(keys)(basis), read, overflow, target)
  {
    var rows, made := result, calls;
    ghost var asked := done;
    assert asked == UpTo(done, basis, keys, 0);
    for j := 0 to |keys|
      invariant asked == UpTo(done, basis, keys, j) && made == |asked|
      invariant Gathered(asked, read, overflow, target) == Ok(rows)
    {
      NextKey(done, basis, keys, j);
      r := CollectKey(asked, basis, keys[j], made, read, overflow, target, rows);
      asked := asked + ForKey(basis)(keys[j]);
      if r.Err? {
        FailureOfBasis(done, basis, keys, j + 1, read, overflow, target);
        return;
      }
      rows, made := r.value, made + 2;
    }
    AllKeys(done, basis, keys);
    r := Ok(rows);
  }

  ghost function UpTo(done: seq<Request>, basis: string, keys: seq<TagKey>, j: nat): seq<Request>
    requires j <= |keys|
  {
    done + FlatMap(ForKey(basis), keys[..j])
  }

  lemma NextKey(done: seq<Request>, basis: string, keys: seq<TagKey>, j: nat)
    requires j < |keys|
    ensures UpTo(done, basis, keys, j + 1) == UpTo(done, basis, keys, j) + ForKey(basis)(keys[j])
  {
    FlatMapSnoc(ForKey(basis), keys, j);
  }

  lemma AllKeys(done: seq<Request>, basis: string, keys: seq<TagKey>)
    ensures UpTo(done, basis, keys, |keys|) == done + ForBasis(keys)(basis)
  {
    assert keys[..|keys|] == keys;
  }

  lemma FailureOfBasis(
    done: seq<Request>, basis: string, keys: seq<TagKey>, j: nat, read: Reader, overflow: string, target: string)
    requires j <= |keys| && Gathered(UpTo(done, basis, keys, j), read, overflow, target).Err?
    ensures Gathered(done + ForBasis(keys)(basis), read, overflow, target)
         == Gathered(UpTo(done, basis, keys, j), read, overflow, target)
  {
    var rest := FlatMap(ForKey(basis), keys[j..]);
    RestOfFlatMap(ForKey(basis), keys, j);
    assert UpTo(done, basis, keys, j) + rest == done + ForBasis(keys)(basis);
    FailureIsFinal(UpTo(done, basis, keys, j), rest, read, overflow, target);
  }

  lemma RestOfFlatMap<T, U>(f: T -> seq<U>, s: seq<T>, i: nat)
    requires i <= |s|
    ensures FlatMap(f, s) == FlatMap(f, s[..i]) + FlatMap(f, s[i..])
  {
    var head, tail := s[..i], s[i..];
    assert head + tail == s;
    FlatMapAppend(f, head, tail);
  }

  lemma {:induction false} RequestsOfBasis(basis: string, keys: seq<TagKey>)
    ensures |FlatMap(ForKey(basis), keys)| == 2 * |keys|
  {
    if keys != [] {
      RequestsOfBasis(basis, keys[1..]);
    }
  }

  /** `Collect`: nested loops over bases, keys and windows. */
  method Collect(bases: seq<string>, keys: seq<TagKey>, limit: int, read: Reader, overflow: string, target: string)
    returns (r: Result<Snapshot, Failure>)
    ensures r == Collected(bases, keys, limit, read, overflow, target)
    ensures r.Ok? && AnswersProper(Requests(bases, keys), read) ==>
              HoldsAnswers(r.value, Requests(bases, keys), read, overflow, target) && |r.value.tagCosts| <= limit
  {
    var rows: seq<TagCost>, calls: nat := [], 0;
    ghost var asked: seq<Request> := [];
    for i := 0 to |bases|
      invariant asked == FlatMap(ForBasis(keys), bases[..i]) && calls == |asked|
      invariant Gathered(asked, read, overflow, target) == Ok(rows)
    {
      var step := CollectBasis(asked, bases[i], keys, calls, read, overflow, target, rows);
      FlatMapSnoc(ForBasis(keys), bases, i);
      RequestsOfBasis(bases[i], keys);
      asked := asked + ForBasis(keys)(bases[i]);
      if step.Err? {
        RestOfFlatMap(ForBasis(keys), bases, i + 1);
        FailureIsFinal(asked, FlatMap(ForBasis(keys), bases[i + 1..]), read, overflow, target);
        return Err(step.error);
      }
      rows, calls := step.value, calls + 2 * |keys|;
    }
    assert bases[..|bases|] == bases;
    if |rows| > limit {
      return Err(SeriesLimitExceeded);
    }
    r := Ok(NewWithData(EMPTY.(tagCosts := rows)));
    if AnswersProper(Requests(bases, keys), read) {
      SnapshotHoldsAnswers(Requests(bases, keys), read, overflow, target);
    }
  }
}
