/** Cardinality limiters: keep the largest values and fold the rest into one. */
module Limiters {
  import opened Bags
  import opened Domain
  import opened Grouping
  import opened Ranking
  import Text

  datatype Error =
    | InvalidSeriesLimit | InvalidOverflowLabel | InvalidCostIdentity | ReservedDimension
    | MixedCurrency | InvalidAmount | InvalidDimension | NonPositiveLimit | CrossedBoundary

  // -------------------------------------------------- keeping and folding

  function Amount<T>(money: T -> Money): T -> real { x => money(x).amount }

  function AmountIn<T>(money: T -> Money, currency: string): T -> real {
    x => if money(x).currency == currency then money(x).amount else 0.0
  }

  /** What a list of values sums to in one currency. */
  function TotalIn<T>(money: T -> Money, currency: string, s: seq<T>): real { Total(AmountIn(money, currency), s) }

  /** Both limiters' comparator: largest amount first, then by value. */
  function BySize<T>(money: T -> Money, name: T -> string): T -> Rank {
    x => [Largest(money(x).amount), S(name(x))]
  }

  function Kept<T>(rank: T -> Rank, s: seq<T>, limit: int): (r: seq<T>)
    requires 0 < limit < |s|
    ensures |r| == limit - 1
  {
    StableSort(rank, s)[..limit - 1]
  }

  function Folded<T>(rank: T -> Rank, s: seq<T>, limit: int): (r: seq<T>)
    requires 0 < limit < |s|
    ensures |r| == |s| - limit + 1 >= 2
  {
    StableSort(rank, s)[limit - 1..]
  }

  predicate OneCurrency<T(==)>(money: T -> Money, s: seq<T>) {
    forall x :: x in s ==> money(x).currency == money(s[0]).currency
  }

  /** The larger amount comes first, and of equal amounts the name that is first in
      the alphabet. */
  predicate Ahead<T>(money: T -> Money, name: T -> string, a: T, b: T) {
    || money(a).amount > money(b).amount
    || (money(a).amount == money(b).amount && !Text.Less(name(b), name(a)))
  }

  ghost predicate Descending<T>(money: T -> Money, name: T -> string, s: seq<T>) {
    forall i, j :: 0 <= i < j < |s| ==> Ahead(money, name, s[i], s[j])
  }

  lemma SizeOrder(x: real, a: string, y: real, b: string)
    ensures RankLess([Largest(x), S(a)], [Largest(y), S(b)]) <==> x > y || (x == y && Text.Less(a, b))
  {
    var p, q := [Largest(x), S(a)], [Largest(y), S(b)];
    assert p[1..] == [S(a)] && q[1..] == [S(b)];
    assert !Text.LexLess(AtomLess, [S(a)][1..], [S(b)][1..]);
    assert Text.LexLess(AtomLess, [S(a)], [S(b)]) <==> AtomLess(S(a), S(b));
    assert AtomLess(S(a), S(b)) <==> Text.Less(a, b);
  }

  /** The largest values are kept and nothing is lost by the split. */
  lemma LargestAreKept<T>(money: T -> Money, name: T -> string, s: seq<T>, limit: int)
    requires 0 < limit < |s|
    ensures var rank := BySize(money, name);
            && Permutation(Kept(rank, s, limit) + Folded(rank, s, limit), s)
            && Descending(money, name, Kept(rank, s, limit) + Folded(rank, s, limit))
  {
    var rank := BySize(money, name);
    var sorted := StableSort(rank, s);
    SortPermutes(rank, s);
    SortOrders(rank, s);
    assert sorted == Kept(rank, s, limit) + Folded(rank, s, limit);
    forall i, j | 0 <= i < j < |sorted| ensures Ahead(money, name, sorted[i], sorted[j]) {
      var a, b := sorted[i], sorted[j];
      SizeOrder(money(b).amount, name(b), money(a).amount, name(a));
      assert !RankLess(rank(b), rank(a));
    }
  }

  lemma {:induction false} OneCurrencyTotals<T>(money: T -> Money, own: string, c: string, s: seq<T>)
    requires forall x :: x in s ==> money(x).currency == own
    ensures TotalIn(money, c, s) == if c == own then Total(Amount(money), s) else 0.0
  {
    if s != [] {
      assert forall x :: x in s[1..] ==> x in s;
      OneCurrencyTotals(money, own, c, s[1..]);
    }
  }

  /** Folding values of one currency into their sum conserves every currency. */
  lemma FoldConserves<T>(money: T -> Money, kept: seq<T>, folded: seq<T>, overflow: T, c: string)
    requires folded != [] && OneCurrency(money, folded)
    requires money(overflow) == Money(Total(Amount(money), folded), money(folded[0]).currency)
    ensures TotalIn(money, c, kept + [overflow]) == TotalIn(money, c, kept + folded)
  {
    OneCurrencyTotals(money, money(folded[0]).currency, c, folded);
    TotalAppend(AmountIn(money, c), kept, [overflow]);
    TotalAppend(AmountIn(money, c), kept, folded);
  }

  lemma LimitConserves<T>(money: T -> Money, name: T -> string, s: seq<T>, limit: int, overflow: T, c: string)
    requires 0 < limit < |s|
    requires var folded := Folded(BySize(money, name), s, limit);
             && OneCurrency(money, folded)
             && money(overflow) == Money(Total(Amount(money), folded), money(folded[0]).currency)
    ensures TotalIn(money, c, Kept(BySize(money, name), s, limit) + [overflow]) == TotalIn(money, c, s)
  {
    var rank := BySize(money, name);
    LargestAreKept(money, name, s, limit);
    FoldConserves(money, Kept(rank, s, limit), Folded(rank, s, limit), overflow, c);
    TotalPermutes(AmountIn(money, c), Kept(rank, s, limit) + Folded(rank, s, limit), s);
  }

  /** Replacing the folded values keeps labels unique exactly when the new label is
      none of the kept ones. */
  lemma LimitKeepsLabels<T, L>(key: T -> L, kept: seq<T>, folded: seq<T>, s: seq<T>, overflow: T)
    requires Permutation(kept + folded, s) && Distinct(Map(key, s))
    ensures Distinct(Map(key, kept + [overflow])) <==> forall k :: k in kept ==> key(k) != key(overflow)
  {
    InMap(key, kept, key(overflow));
    MapPermutes(key, kept + folded, s);
    DistinctPermutes(Map(key, kept + folded), Map(key, s));
    MapAppend(key, kept, folded);
    DistinctAppend(Map(key, kept), Map(key, folded));
    MapAppend(key, kept, [overflow]);
    assert Map(key, [overflow]) == [key(overflow)];
    DistinctAppend(Map(key, kept), [key(overflow)]);
  }

  // ---------------------------------------------------------- dimension costs

  function CostMoney(c: Cost): Money { c.amount }
  function CostName(c: Cost): string { c.dimension.value }
  function CostSize(): Cost -> Rank { BySize(CostMoney, CostName) }

  /** The labels a cost is exported under. */
  function CostLabel(c: Cost): Cost { c.(period := Period(0, 0), amount := Money(0.0, c.amount.currency)) }

  /** `limitDimensionGroup`. */
  function LimitGroup(values: seq<Cost>, limit: int, other: string): Result<seq<Cost>, Error>
    requires limit > 0
  {
    if |values| <= limit then Ok(values)
    else
      var folded := Folded(CostSize(), values, limit);
      var money := NewMoney(Total(Amount(CostMoney), folded), folded[0].amount.currency);
      var dimension := NewDimension(folded[0].dimension.kind, other);
      if !OneCurrency(CostMoney, folded) then Err(MixedCurrency)
      else if money.Err? then Err(InvalidAmount)
      else if dimension.Err? then Err(InvalidDimension)
      else Ok(Kept(CostSize(), values, limit) + [folded[0].(dimension := dimension.value, amount := money.value)])
  }

  predicate CostAhead(a: Cost, b: Cost) {
    || a.amount.amount > b.amount.amount
    || (a.amount.amount == b.amount.amount && !Text.Less(b.dimension.value, a.dimension.value))
  }

  /** All but the last of `after` were kept, the first of `before` by size; the others
      are of one currency, and the last stands for them: the first of them, with the
      overflow label. */
  ghost predicate Folds(after: seq<Cost>, folded: seq<Cost>, before: seq<Cost>, other: string) {
    && after != [] && folded != []
    && var n := |after| - 1;
       && Permutation(after[..n] + folded, before)
       && (forall i, j :: 0 <= i < j < |before| ==>
             && |after[..n] + folded| == |before|
             && CostAhead((after[..n] + folded)[i], (after[..n] + folded)[j]))
       && (forall d :: d in folded ==> d.amount.currency == after[n].amount.currency)
       && after[n] == folded[0].(dimension := Dimension(folded[0].dimension.kind, other), amount := after[n].amount)
  }

  /** A group of n values yields min(n, limit) values with the same totals; only the
      last by size are folded, and only with their own currency. */
  ghost predicate Limited(before: seq<Cost>, after: seq<Cost>, limit: int, other: string) {
    && |after| == (if |before| <= limit then |before| else limit)
    && (forall c :: TotalIn(CostMoney, c, after) == TotalIn(CostMoney, c, before))
    && (|before| <= limit ==> after == before)
    && (|before| > limit ==> exists folded :: Folds(after, folded, before, other))
  }

  lemma GroupOutcome(values: seq<Cost>, after: seq<Cost>, limit: int, other: string)
    requires limit > 0 && LimitGroup(values, limit, other) == Ok(after) && forall v :: v in values ==> Proper(v.amount)
    requires Text.TrimSpace(other) == other != ""
    ensures Limited(values, after, limit, other)
  {
    if |values| > limit {
      var kept, folded := Kept(CostSize(), values, limit), Folded(CostSize(), values, limit);
      FoldedGroupFacts(values, limit, other);
      forall c ensures TotalIn(CostMoney, c, after) == TotalIn(CostMoney, c, values) {
        LimitConserves(CostMoney, CostName, values, limit, after[limit - 1], c);
      }
      CostsDescend(values, limit);
      MakeFolds(kept, after[limit - 1], folded, values, other);
    }
  }

  lemma MakeFolds(kept: seq<Cost>, last: Cost, folded: seq<Cost>, before: seq<Cost>, other: string)
    requires folded != [] && Permutation(kept + folded, before)
    requires forall i, j :: 0 <= i < j < |kept + folded| ==> CostAhead((kept + folded)[i], (kept + folded)[j])
    requires forall d :: d in folded ==> d.amount.currency == last.amount.currency
    requires last == folded[0].(dimension := Dimension(folded[0].dimension.kind, other), amount := last.amount)
    ensures Folds(kept + [last], folded, before, other)
  {
    var after := kept + [last];
    PermutationFacts(kept + folded, before);
    assert after[..|after| - 1] == kept;
  }

  lemma CostsDescend(values: seq<Cost>, limit: int)
    requires 0 < limit < |values|
    ensures var all := Kept(CostSize(), values, limit) + Folded(CostSize(), values, limit);
            forall i, j :: 0 <= i < j < |all| ==> CostAhead(all[i], all[j])
  {
    var all := Kept(CostSize(), values, limit) + Folded(CostSize(), values, limit);
    LargestAreKept(CostMoney, CostName, values, limit);
    forall i, j | 0 <= i < j < |all| ensures CostAhead(all[i], all[j]) {
      assert Ahead(CostMoney, CostName, all[i], all[j]);
    }
  }

  lemma FoldedGroupFacts(values: seq<Cost>, limit: int, other: string)
    requires limit > 0 && |values| > limit && LimitGroup(values, limit, other).Ok?
    requires Text.TrimSpace(other) == other != "" && forall v :: v in values ==> Proper(v.amount)
    ensures var r, folded := LimitGroup(values, limit, other).value, Folded(CostSize(), values, limit);
            && Permutation(Kept(CostSize(), values, limit) + folded, values)
            && r == Kept(CostSize(), values, limit) + [r[limit - 1]]
            && r[limit - 1].amount == Money(Total(Amount(CostMoney), folded), folded[0].amount.currency)
            && r[limit - 1]
            == folded[0].(dimension := Dimension(folded[0].dimension.kind, other), amount := r[limit - 1].amount)
            && (forall d :: d in folded ==> d.amount.currency == r[limit - 1].amount.currency)
  {
    var kept, folded := Kept(CostSize(), values, limit), Folded(CostSize(), values, limit);
    LargestAreKept(CostMoney, CostName, values, limit);
    PermutationFacts(kept + folded, values);
    assert folded[0] in kept + folded;
  }

  /** What is invariant across a group stays invariant, and the overflow carries
      the overflow label. */
  lemma GroupMembers(values: seq<Cost>, limit: int, other: string, x: Cost)
    requires limit > 0 && LimitGroup(values, limit, other).Ok? && x in LimitGroup(values, limit, other).value
    ensures x in values || (exists v :: v in values && x == v.(dimension := x.dimension, amount := x.amount))
    ensures x !in values && Text.TrimSpace(other) == other != "" ==> x.dimension.value == other
  {
    if |values| > limit {
      LargestAreKept(CostMoney, CostName, values, limit);
      var kept, folded := Kept(CostSize(), values, limit), Folded(CostSize(), values, limit);
      PermutationFacts(kept + folded, values);
      assert folded[0] in kept + folded;
      if x in kept {
        assert x in kept + folded;
      } else {
        assert x == folded[0].(dimension := x.dimension, amount := x.amount);
      }
    }
  }

  lemma GroupKeepsLabels(values: seq<Cost>, limit: int, other: string)
    requires limit > 0 && LimitGroup(values, limit, other).Ok?
    requires Text.TrimSpace(other) == other != "" && forall v :: v in values ==> v.dimension.value != other
    requires Distinct(Map(CostLabel, values))
    ensures Distinct(Map(CostLabel, LimitGroup(values, limit, other).value))
  {
    if |values| > limit {
      var kept, folded := Kept(CostSize(), values, limit), Folded(CostSize(), values, limit);
      var overflow := LimitGroup(values, limit, other).value[limit - 1];
      LargestAreKept(CostMoney, CostName, values, limit);
      LimitKeepsLabels(CostLabel, kept, folded, values, overflow);
      PermutationFacts(kept + folded, values);
      forall k | k in kept ensures CostLabel(k) != CostLabel(overflow) {
        assert k in kept + folded;
        assert CostLabel(k).dimension.value != CostLabel(overflow).dimension.value;
      }
    }
  }

  // --------------------------------------------------------- provider and basis

  /** The map key of a value's group. */
  function GroupKey(c: Cost): string { c.provider + "\0" + c.basis }

  function InGroup(key: string): Cost -> bool { HasKey(GroupKey, key) }

  predicate ValidIdentity(c: Cost) { ValidProvider(c.provider) && ValidBasis(c.basis) }

  /** The separator keeps different providers and bases in different groups. */
  lemma GroupsAreIdentities(a: Cost, b: Cost)
    requires ValidIdentity(a) && ValidIdentity(b)
    ensures GroupKey(a) == GroupKey(b) <==> a.provider == b.provider && a.basis == b.basis
  {
    if GroupKey(a) == GroupKey(b) {
      assert GroupKey(a)[1] == a.provider[1] && GroupKey(b)[1] == b.provider[1];
      assert a.provider == b.provider;
      assert GroupKey(a)[|a.provider| + 1..] == a.basis && GroupKey(b)[|b.provider| + 1..] == b.basis;
    }
  }

  function Faults(other: string): Cost -> seq<Error> {
    c => if !ValidIdentity(c) then [InvalidCostIdentity]
         else if c.dimension.value == other then [ReservedDimension]
         else []
  }

  function ByText(): string -> Rank { s => [S(s)] }

  function SortedKeys(values: seq<Cost>): seq<string> { StableSort(ByText(), Dedup(Map(GroupKey, values))) }

  /** Limits one group after the other, up to the first that fails. */
  function LimitGroups(keys: seq<string>, values: seq<Cost>, limit: int, other: string): Result<seq<Cost>, Error>
    requires limit > 0
  {
    if keys == [] then Ok([])
    else
      var first := LimitGroup(Filter(InGroup(keys[0]), values), limit, other);
      if first.Err? then first
      else
        var rest := LimitGroups(keys[1..], values, limit, other);
        if rest.Err? then rest else Ok(first.value + rest.value)
  }

  /** `LimitDimensions`. */
  function LimitDimensions(values: seq<Cost>, limit: int, given: string): Result<seq<Cost>, Error> {
    var other := Text.TrimSpace(given);
    if limit <= 0 then Err(InvalidSeriesLimit)
    else if other == "" then Err(InvalidOverflowLabel)
    else
      var faults := FlatMap(Faults(other), values);
      if faults != [] then Err(faults[0]) else LimitGroups(SortedKeys(values), values, limit, other)
  }

  lemma GroupStaysInGroup(key: string, values: seq<Cost>, limit: int, other: string)
    requires limit > 0 && LimitGroup(Filter(InGroup(key), values), limit, other).Ok?
    ensures forall x :: x in LimitGroup(Filter(InGroup(key), values), limit, other).value ==> InGroup(key)(x)
  {
    var group := Filter(InGroup(key), values);
    forall x | x in LimitGroup(group, limit, other).value ensures InGroup(key)(x) {
      GroupMembers(group, limit, other, x);
      if x !in group {
        var v :| v in group && x == v.(dimension := x.dimension, amount := x.amount);
        assert InGroup(key)(v) && GroupKey(x) == GroupKey(v);
      }
    }
  }

  /** Each group of the result is that group of the input, limited. */
  lemma {:induction false} GroupsAreSeparate(
    keys: seq<string>, values: seq<Cost>, limit: int, other: string, key: string)
    requires limit > 0 && Distinct(keys) && LimitGroups(keys, values, limit, other).Ok?
    ensures var mine := Filter(InGroup(key), LimitGroups(keys, values, limit, other).value);
            if key in keys then LimitGroup(Filter(InGroup(key), values), limit, other) == Ok(mine) else mine == []
  {
    if keys != [] {
      var first := LimitGroup(Filter(InGroup(keys[0]), values), limit, other).value;
      var rest := LimitGroups(keys[1..], values, limit, other).value;
      GroupsAreSeparate(keys[1..], values, limit, other, key);
      FilterAppend(InGroup(key), first, rest);
      GroupStaysInGroup(keys[0], values, limit, other);
      assert keys == [keys[0]] + keys[1..];
      if key == keys[0] {
        FilterAll(InGroup(key), first);
        assert key !in keys[1..];
        assert first + [] == first;
      } else {
        FilterNone(InGroup(key), first);
        assert [] + Filter(InGroup(key), rest) == Filter(InGroup(key), rest);
      }
    }
  }

  lemma SortedKeysFacts(values: seq<Cost>)
    ensures Distinct(SortedKeys(values))
    ensures forall v :: v in values ==> GroupKey(v) in SortedKeys(values)
    ensures forall k :: k in SortedKeys(values) ==> exists v :: v in values && GroupKey(v) == k
  {
    var keys := Map(GroupKey, values);
    DedupFacts(keys);
    SortPermutes(ByText(), Dedup(keys));
    DistinctPermutes(Dedup(keys), SortedKeys(values));
    PermutationFacts(SortedKeys(values), Dedup(keys));
    forall v | v in values ensures GroupKey(v) in SortedKeys(values) {
      var i :| 0 <= i < |values| && values[i] == v;
      assert keys[i] == GroupKey(v);
    }
    forall k | k in SortedKeys(values) ensures exists v :: v in values && GroupKey(v) == k {
      assert k in keys;
      var i :| 0 <= i < |keys| && keys[i] == k;
      assert values[i] in values;
    }
  }

  lemma EveryGroupIsLimited(values: seq<Cost>, limit: int, given: string, key: string)
    requires LimitDimensions(values, limit, given).Ok?
    ensures LimitGroup(Filter(InGroup(key), values), limit, Text.TrimSpace(given))
         == Ok(Filter(InGroup(key), LimitDimensions(values, limit, given).value))
  {
    SortedKeysFacts(values);
    GroupsAreSeparate(SortedKeys(values), values, limit, Text.TrimSpace(given), key);
    if key !in SortedKeys(values) {
      FilterNone(InGroup(key), values);
    }
  }

  function OfIdentity(provider: string, basis: string): Cost -> bool {
    (c: Cost) => c.provider == provider && c.basis == basis
  }

  lemma GroupOfIdentity(values: seq<Cost>, provider: string, basis: string)
    requires ValidProvider(provider) && ValidBasis(basis) && forall v :: v in values ==> ValidIdentity(v)
    ensures Filter(InGroup(provider + "\0" + basis), values) == Filter(OfIdentity(provider, basis), values)
  {
    var sample := Cost("", provider, basis, "", Period(0, 0), Dimension("", ""), Money(0.0, ""));
    forall v | v in values ensures InGroup(provider + "\0" + basis)(v) == OfIdentity(provider, basis)(v) {
      GroupsAreIdentities(v, sample);
    }
    FilterAgrees(InGroup(provider + "\0" + basis), OfIdentity(provider, basis), values);
  }

  lemma {:induction false} LimitedIdentities(keys: seq<string>, values: seq<Cost>, limit: int, other: string)
    requires limit > 0 && LimitGroups(keys, values, limit, other).Ok? && forall v :: v in values ==> ValidIdentity(v)
    ensures forall x :: x in LimitGroups(keys, values, limit, other).value ==> ValidIdentity(x)
  {
    if keys != [] {
      var group := Filter(InGroup(keys[0]), values);
      LimitedIdentities(keys[1..], values, limit, other);
      forall x | x in LimitGroup(group, limit, other).value ensures ValidIdentity(x) {
        GroupMembers(group, limit, other, x);
      }
    }
  }

  /** Each provider and basis is limited on its own: exactly min(n, limit) of its n
      values come out, every currency's total is unchanged, and only the smallest are
      folded, into the first of them. */
  lemma EachIdentityIsLimited(values: seq<Cost>, limit: int, given: string, provider: string, basis: string)
    requires LimitDimensions(values, limit, given).Ok? && forall v :: v in values ==> Proper(v.amount)
    requires ValidProvider(provider) && ValidBasis(basis)
    ensures Limited(Filter(OfIdentity(provider, basis), values),
                    Filter(OfIdentity(provider, basis), LimitDimensions(values, limit, given).value),
                    limit, Text.TrimSpace(given))
  {
    var before := Filter(OfIdentity(provider, basis), values);
    var after := Filter(OfIdentity(provider, basis), LimitDimensions(values, limit, given).value);
    Text.TrimTwice(given);
    IdentityIsGroup(values, limit, given, provider, basis);
    GroupOutcome(before, after, limit, Text.TrimSpace(given));
  }

  /** What comes out of one provider and basis is its group, limited. */
  lemma IdentityIsGroup(values: seq<Cost>, limit: int, given: string, provider: string, basis: string)
    requires LimitDimensions(values, limit, given).Ok? && ValidProvider(provider) && ValidBasis(basis)
    ensures LimitGroup(Filter(OfIdentity(provider, basis), values), limit, Text.TrimSpace(given))
         == Ok(Filter(OfIdentity(provider, basis), LimitDimensions(values, limit, given).value))
  {
    FaultsIff(values, Text.TrimSpace(given));
    LimitedIdentities(SortedKeys(values), values, limit, Text.TrimSpace(given));
    GroupOfIdentity(values, provider, basis);
    GroupOfIdentity(LimitDimensions(values, limit, given).value, provider, basis);
    EveryGroupIsLimited(values, limit, given, provider + "\0" + basis);
  }

  lemma {:induction false} GroupsKeepLabels(keys: seq<string>, values: seq<Cost>, limit: int, other: string)
    requires limit > 0 && Distinct(keys) && LimitGroups(keys, values, limit, other).Ok?
    requires Text.TrimSpace(other) == other != "" && forall v :: v in values ==> v.dimension.value != other
    requires Distinct(Map(CostLabel, values))
    ensures Distinct(Map(CostLabel, LimitGroups(keys, values, limit, other).value))
    ensures forall x :: x in LimitGroups(keys, values, limit, other).value ==> GroupKey(x) in keys
  {
    if keys != [] {
      var group := Filter(InGroup(keys[0]), values);
      var first := LimitGroup(group, limit, other).value;
      var rest := LimitGroups(keys[1..], values, limit, other).value;
      GroupsKeepLabels(keys[1..], values, limit, other);
      LabelsOfPart(CostLabel, InGroup(keys[0]), values);
      GroupKeepsLabels(group, limit, other);
      GroupStaysInGroup(keys[0], values, limit, other);
      MapAppend(CostLabel, first, rest);
      forall i, j | 0 <= i < |first| && 0 <= j < |rest| ensures Map(CostLabel, first)[i] != Map(CostLabel, rest)[j] {
        assert first[i] in first && InGroup(keys[0])(first[i]) && rest[j] in rest;
        assert GroupKey(rest[j]) in keys[1..] && GroupKey(first[i]) == keys[0];
        assert GroupKey(CostLabel(first[i])) == keys[0] && GroupKey(CostLabel(rest[j])) == GroupKey(rest[j]);
      }
      DistinctAppend(Map(CostLabel, first), Map(CostLabel, rest));
    }
  }

  lemma {:induction false} LabelsOfPart<T, L>(key: T -> L, p: T -> bool, values: seq<T>)
    requires Distinct(Map(key, values))
    ensures Distinct(Map(key, Filter(p, values)))
  {
    if values != [] {
      var rest := Filter(p, values[1..]);
      assert Map(key, values[1..]) == Map(key, values)[1..];
      LabelsOfPart(key, p, values[1..]);
      forall j | 0 <= j < |rest| ensures key(rest[j]) != key(values[0]) {
        assert rest[j] in values[1..];
        var i :| 0 <= i < |values[1..]| && values[1..][i] == rest[j];
        assert Map(key, values)[i + 1] != Map(key, values)[0];
      }
    }
  }

  /** Unique exported labels stay unique: the overflow label is reserved. */
  lemma LimitKeepsCostLabelsUnique(values: seq<Cost>, limit: int, given: string)
    requires LimitDimensions(values, limit, given).Ok? && Distinct(Map(CostLabel, values))
    ensures Distinct(Map(CostLabel, LimitDimensions(values, limit, given).value))
  {
    var other := Text.TrimSpace(given);
    Text.TrimTwice(given);
    FaultsIff(values, other);
    SortedKeysFacts(values);
    GroupsKeepLabels(SortedKeys(values), values, limit, other);
  }

  // ------------------------------------------------------- when limiting works

  /** A value of a kind that can overflow, with a currency. */
  predicate Foldable(c: Cost) {
    Proper(c.amount) && c.amount.currency != "" && KnownKind(c.dimension.kind) && c.dimension.kind != TOTAL
  }

  /** A group fits, or what must be folded is of one currency. */
  predicate CanFold(group: seq<Cost>, limit: int)
    requires limit > 0
  {
    |group| <= limit || OneCurrency(CostMoney, Folded(CostSize(), group, limit))
  }

  lemma GroupSucceedsIff(group: seq<Cost>, limit: int, other: string)
    requires limit > 0 && Text.TrimSpace(other) == other != "" && forall v :: v in group ==> Foldable(v)
    ensures LimitGroup(group, limit, other).Ok? <==> CanFold(group, limit)
  {
    if |group| > limit {
      var kept, folded := Kept(CostSize(), group, limit), Folded(CostSize(), group, limit);
      LargestAreKept(CostMoney, CostName, group, limit);
      PermutationFacts(kept + folded, group);
      assert folded[0] in kept + folded;
    }
  }

  lemma {:induction false} GroupsSucceedIff(keys: seq<string>, values: seq<Cost>, limit: int, other: string)
    requires limit > 0 && Text.TrimSpace(other) == other != "" && forall v :: v in values ==> Foldable(v)
    ensures LimitGroups(keys, values, limit, other).Ok? <==>
            forall k :: k in keys ==> CanFold(Filter(InGroup(k), values), limit)
  {
    if keys != [] {
      GroupsSucceedIff(keys[1..], values, limit, other);
      GroupSucceedsIff(Filter(InGroup(keys[0]), values), limit, other);
      assert keys == [keys[0]] + keys[1..];
    }
  }

  /** Values that can be folded at all are limited if and only if the label is free,
      the identities are bounded, and no group must fold across currencies. */
  lemma LimitSucceedsIff(values: seq<Cost>, limit: int, given: string)
    requires forall v :: v in values ==> Foldable(v)
    ensures LimitDimensions(values, limit, given).Ok? <==>
            && limit > 0 && Text.TrimSpace(given) != ""
            && (forall v :: v in values ==> ValidIdentity(v) && v.dimension.value != Text.TrimSpace(given))
            && (forall v :: v in values ==> CanFold(Filter(InGroup(GroupKey(v)), values), limit))
  {
    var other := Text.TrimSpace(given);
    Text.TrimTwice(given);
    FaultsIff(values, other);
    if limit > 0 && other != "" {
      GroupsSucceedIff(SortedKeys(values), values, limit, other);
      SortedKeysFacts(values);
    }
  }

  lemma {:induction false} FaultsIff(values: seq<Cost>, other: string)
    ensures FlatMap(Faults(other), values) == [] <==>
            forall v :: v in values ==> ValidIdentity(v) && v.dimension.value != other
  {
    if values != [] {
      FaultsIff(values[1..], other);
      assert values == [values[0]] + values[1..];
    }
  }

  // ------------------------------------------------------------ the operations

  lemma AmountOfCost(c: Cost)
    ensures Amount(CostMoney)(c) == c.amount.amount
  {
    assert CostMoney(c) == c.amount;
  }

  /** `limitDimensionGroup`: the loop adds up what is folded. */
  method LimitOneGroup(values: seq<Cost>, limit: int, other: string) returns (r: Result<seq<Cost>, Error>)
    requires limit > 0
    ensures r == LimitGroup(values, limit, other)
  {
    if |values| <= limit {
      return Ok(values);
    }
    var ranked := StableSort(CostSize(), values);
    var keep := limit - 1;
    var folded := ranked[keep..];
    var currency := ranked[keep].amount.currency;
    var total := 0.0;
    for i := 0 to |folded|
      invariant total == Total(Amount(CostMoney), folded[..i])
      invariant forall k :: 0 <= k < i ==> folded[k].amount.currency == currency
    {
      if folded[i].amount.currency != currency {
        assert folded[i] in folded;
        return Err(MixedCurrency);
      }
      TotalSnoc(Amount(CostMoney), folded, i);
      AmountOfCost(folded[i]);
      total := total + folded[i].amount.amount;
    }
    assert folded[..|folded|] == folded;
    var amount := NewMoney(total, currency);
    if amount.Err? {
      return Err(InvalidAmount);
    }
    var dimension := NewDimension(ranked[keep].dimension.kind, other);
    if dimension.Err? {
      return Err(InvalidDimension);
    }
    var overflow := ranked[keep];
    overflow := overflow.(dimension := dimension.value, amount := amount.value);
    r := Ok(ranked[..keep] + [overflow]);
  }

  /** With at most one group the values are limited as they are. */
  lemma OneGroupIsAll(keys: seq<string>, values: seq<Cost>, limit: int, other: string)
    requires limit > 0 && |keys| <= 1 && forall v :: v in values ==> GroupKey(v) in keys
    ensures LimitGroups(keys, values, limit, other) == LimitGroup(values, limit, other)
  {
    if values != [] {
      assert values[0] in values;
      assert keys != [];
    }
    if keys != [] {
      FilterAll(InGroup(keys[0]), values);
      var one := LimitGroup(values, limit, other);
      assert one.Ok? ==> one.value + [] == one.value;
    }
  }

  lemma {:induction false} LimitGroupsAppend(
    a: seq<string>, b: seq<string>, values: seq<Cost>, limit: int, other: string)
    requires limit > 0 && LimitGroups(a, values, limit, other).Ok?
    ensures var rest := LimitGroups(b, values, limit, other);
            && (rest.Err? ==> LimitGroups(a + b, values, limit, other) == rest)
            && (rest.Ok? ==> LimitGroups(a + b, values, limit, other)
                             == Ok(LimitGroups(a, values, limit, other).value + rest.value))
  {
    if a == [] {
      assert a + b == b;
      var rest := LimitGroups(b, values, limit, other);
      assert rest.Ok? ==> [] + rest.value == rest.value;
    } else {
      assert (a + b)[1..] == a[1..] + b;
      LimitGroupsAppend(a[1..], b, values, limit, other);
      var first, rest := LimitGroup(Filter(InGroup(a[0]), values), limit, other), LimitGroups(b, values, limit, other);
      var more := LimitGroups(a[1..], values, limit, other);
      assert rest.Ok? ==> first.value + (more.value + rest.value) == (first.value + more.value) + rest.value;
    }
  }

  /** However the map is ranged over, sorting its keys yields the same list. */
  lemma SortedRange(groups: map<string, seq<Cost>>, values: seq<Cost>, keys: seq<string>)
    requires Grouped(GroupKey, groups, values) && Distinct(keys) && forall k :: k in keys <==> k in groups
    ensures StableSort(ByText(), keys) == SortedKeys(values)
  {
    var all := Map(GroupKey, values);
    DedupFacts(all);
    SortedKeysFacts(values);
    SortPermutes(ByText(), Dedup(all));
    PermutationFacts(SortedKeys(values), Dedup(all));
    SameElementsPermute(keys, Dedup(all));
    var ranks := Map(ByText(), keys);
    forall i, j | 0 <= i < j < |keys| ensures ranks[i] != ranks[j] {
      assert ranks[i] == [S(keys[i])] && ranks[j] == [S(keys[j])];
      assert ranks[i][0] == S(keys[i]) && ranks[j][0] == S(keys[j]);
    }
    SortForgetsOrder(ByText(), keys, Dedup(all));
  }

  /** One more group: its failure is the failure of all, its values are added. */
  lemma NextGroup(keys: seq<string>, i: nat, values: seq<Cost>, limit: int, other: string)
    requires limit > 0 && i < |keys| && LimitGroups(keys[..i], values, limit, other).Ok?
    ensures var one := LimitGroup(Filter(InGroup(keys[i]), values), limit, other);
            && (one.Err? ==> LimitGroups(keys, values, limit, other) == one)
            && (one.Ok? ==> LimitGroups(keys[..i + 1], values, limit, other)
                            == Ok(LimitGroups(keys[..i], values, limit, other).value + one.value))
  {
    var one := LimitGroup(Filter(InGroup(keys[i]), values), limit, other);
    assert keys == keys[..i] + keys[i..] && keys[i..][0] == keys[i];
    LimitGroupsAppend(keys[..i], keys[i..], values, limit, other);
    assert keys[..i + 1] == keys[..i] + [keys[i]];
    LimitGroupsAppend(keys[..i], [keys[i]], values, limit, other);
    assert [keys[i]][1..] == [] && (one.Ok? ==> one.value + [] == one.value);
  }

  method LimitSortedGroups(
    keys: seq<string>, groups: map<string, seq<Cost>>, ghost values: seq<Cost>, limit: int, other: string)
    returns (r: Result<seq<Cost>, Error>)
    requires limit > 0 && Grouped(GroupKey, groups, values) && forall k :: k in keys ==> k in groups
    ensures r == LimitGroups(keys, values, limit, other)
  {
    var result := [];
    for i := 0 to |keys|
      invariant LimitGroups(keys[..i], values, limit, other) == Ok(result)
    {
      var bounded := LimitOneGroup(groups[keys[i]], limit, other);
      NextGroup(keys, i, values, limit, other);
      if bounded.Err? {
        return bounded;
      }
      result := result + bounded.value;
    }
    assert keys[..|keys|] == keys;
    r := Ok(result);
  }

  /** `LimitDimensions`: group, sort the group keys, limit each group. */
  method LimitCosts(values: seq<Cost>, limit: int, given: string) returns (r: Result<seq<Cost>, Error>)
    ensures r == LimitDimensions(values, limit, given)
  {
    if limit <= 0 {
      return Err(InvalidSeriesLimit);
    }
    var other := Text.TrimSpace(given);
    if other == "" {
      return Err(InvalidOverflowLabel);
    }
    var groups: map<string, seq<Cost>> := map[];
    for i := 0 to |values|
      invariant Grouped(GroupKey, groups, values[..i])
      invariant FlatMap(Faults(other), values[..i]) == []
    {
      assert values == values[..i] + ([values[i]] + values[i + 1..]) && values[..i + 1] == values[..i] + [values[i]];
      FlatMapAppend(Faults(other), values[..i], [values[i]] + values[i + 1..]);
      FlatMapAppend(Faults(other), values[..i], [values[i]]);
      if !ValidProvider(values[i].provider) || !ValidBasis(values[i].basis) {
        return Err(InvalidCostIdentity);
      }
      if values[i].dimension.value == other {
        return Err(ReservedDimension);
      }
      GroupedSnoc(GroupKey, groups, values[..i], values[i]);
      groups := Longer(groups, GroupKey(values[i]), values[i]);
    }
    assert values[..|values|] == values;
    var keys := Range(groups);
    SortedRange(groups, values, keys);
    SortedKeysFacts(values);
    var sorted := StableSort(ByText(), keys);
    if |sorted| > 1 {
      r := LimitSortedGroups(sorted, groups, values, limit, other);
    } else {
      OneGroupIsAll(sorted, values, limit, other);
      r := LimitOneGroup(values, limit, other);
    }
  }
}
