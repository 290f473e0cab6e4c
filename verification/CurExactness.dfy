/** The CUR configuration checks are exact: they refuse a configuration only if rows
    as queried exist that would exceed the limit. */
module CurExactness {
  import opened Arithmetic
  import opened Bags
  import opened Budgets
  import opened CurBudget
  import opened CurCollector
  import opened Domain
  import opened Grouping
  import opened Limiters
  import opened Ranking
  import opened Snapshots
  import opened TagLimits
  import Text

  // ------------------------------------------------------- lists without repeats

  /** Disjoint lists without repeats make one without. */
  lemma {:induction false} DistinctFlatMap<T, U>(f: T -> seq<U>, s: seq<T>)
    requires Distinct(s) && forall x :: x in s ==> Distinct(f(x))
    requires forall x, y, u :: x in s && y in s && u in f(x) && u in f(y) ==> x == y
    ensures Distinct(FlatMap(f, s))
  {
    if s != [] {
      var first, rest := s[0], s[1..];
      assert s == [first] + rest && first !in rest;
      DistinctFlatMap(f, rest);
      forall i, j | 0 <= i < |f(first)| && 0 <= j < |FlatMap(f, rest)| ensures f(first)[i] != FlatMap(f, rest)[j] {
        InFlatMap(f, rest, FlatMap(f, rest)[j]);
        var y :| y in rest && FlatMap(f, rest)[j] in f(y);
        assert f(first)[i] in f(first);
      }
      DistinctAppend(f(first), FlatMap(f, rest));
    }
  }

  lemma InBothSlots(basis: string, currency: string, x: Slot)
    ensures x in BothSlots(basis)(currency) <==> x.basis == basis && x.currency == currency && KnownWindow(x.window)
  {
    var both := BothSlots(basis)(currency);
    assert both == [Slot(DAILY, basis, currency), Slot(MONTH_TO_DATE, basis, currency)];
  }

  lemma InSlotsOfBasis(basis: string, currencies: seq<string>, x: Slot)
    ensures x in SlotsOfBasis(currencies)(basis) <==>
            x.basis == basis && x.currency in currencies && KnownWindow(x.window)
  {
    InFlatMap(BothSlots(basis), currencies, x);
    if x in SlotsOfBasis(currencies)(basis) {
      var c :| c in currencies && x in BothSlots(basis)(c);
      InBothSlots(basis, c, x);
    }
    InBothSlots(basis, x.currency, x);
  }

  lemma InAllSlots(bases: seq<string>, currencies: seq<string>, x: Slot)
    ensures x in AllSlots(bases, currencies) <==>
            x.basis in bases && x.currency in currencies && KnownWindow(x.window)
  {
    InFlatMap(SlotsOfBasis(currencies), bases, x);
    if x in AllSlots(bases, currencies) {
      var b :| b in bases && x in SlotsOfBasis(currencies)(b);
      InSlotsOfBasis(b, currencies, x);
    }
    InSlotsOfBasis(x.basis, currencies, x);
  }

  lemma SlotsOfBasisDiffer(basis: string, currencies: seq<string>)
    requires Distinct(currencies)
    ensures Distinct(SlotsOfBasis(currencies)(basis))
  {
    forall c | c in currencies ensures Distinct(BothSlots(basis)(c)) {
      var both := BothSlots(basis)(c);
      assert both[0].window[0] == 'd' && both[1].window[0] == 'm';
    }
    forall c, d, x | c in currencies && d in currencies && x in BothSlots(basis)(c) && x in BothSlots(basis)(d)
      ensures c == d
    {
      InBothSlots(basis, c, x);
      InBothSlots(basis, d, x);
    }
    DistinctFlatMap(BothSlots(basis), currencies);
  }

  lemma SlotsDiffer(bases: seq<string>, currencies: seq<string>)
    requires Distinct(bases) && Distinct(currencies)
    ensures Distinct(AllSlots(bases, currencies))
  {
    forall b | b in bases ensures Distinct(SlotsOfBasis(currencies)(b)) {
      SlotsOfBasisDiffer(b, currencies);
    }
    forall b, d, x | b in bases && d in bases && x in SlotsOfBasis(currencies)(b) && x in SlotsOfBasis(currencies)(d)
      ensures b == d
    {
      InSlotsOfBasis(b, currencies, x);
      InSlotsOfBasis(d, currencies, x);
    }
    DistinctFlatMap(SlotsOfBasis(currencies), bases);
  }

  lemma InGroupsOfKey(k: TagKey, slots: seq<Slot>, g: TagGroup)
    ensures g in GroupsOfKey(slots)(k) <==>
            g.key == k.key && g.provider == CUR_ATHENA && Slot(g.window, g.basis, g.currency) in slots
  {
    var groups := GroupsOfKey(slots)(k);
    if g in groups {
      var i :| 0 <= i < |groups| && groups[i] == g;
      assert g == GroupAt(k)(slots[i]);
    }
    if slot :| slot in slots && slot == Slot(g.window, g.basis, g.currency) {
      var i :| 0 <= i < |slots| && slots[i] == slot;
      assert groups[i] == GroupAt(k)(slot);
    }
  }

  lemma GroupsDiffer(keys: seq<TagKey>, slots: seq<Slot>)
    requires Distinct(Map(KeyName, keys)) && Distinct(slots)
    ensures Distinct(AllGroups(keys, slots))
  {
    KeysDiffer(keys);
    forall k | k in keys ensures Distinct(GroupsOfKey(slots)(k)) {
      var groups := GroupsOfKey(slots)(k);
      forall i, j | 0 <= i < j < |groups| ensures groups[i] != groups[j] {
        assert groups[i] == GroupAt(k)(slots[i]) && groups[j] == GroupAt(k)(slots[j]);
      }
    }
    forall k, l, g | k in keys && l in keys && g in GroupsOfKey(slots)(k) && g in GroupsOfKey(slots)(l) ensures k == l {
      InGroupsOfKey(k, slots, g);
      InGroupsOfKey(l, slots, g);
      SameKey(keys, k, l);
    }
    DistinctFlatMap(GroupsOfKey(slots), keys);
  }

  lemma KeysDiffer(keys: seq<TagKey>)
    requires Distinct(Map(KeyName, keys))
    ensures Distinct(keys)
  {
    forall i, j | 0 <= i < j < |keys| ensures keys[i] != keys[j] {
      assert Map(KeyName, keys)[i] != Map(KeyName, keys)[j];
    }
  }

  lemma SameKey(keys: seq<TagKey>, k: TagKey, l: TagKey)
    requires Distinct(Map(KeyName, keys)) && k in keys && l in keys && k.key == l.key
    ensures k == l
  {
    var i :| 0 <= i < |keys| && keys[i] == k;
    var j :| 0 <= j < |keys| && keys[j] == l;
    assert Map(KeyName, keys)[i] == Map(KeyName, keys)[j];
  }

  // ---------------------------------------------- rows that fill every allowance

  const CODES := "ABCDEFGHIJ"

  function Code(i: nat): string
    requires i < 10
  {
    [CODES[i]]
  }

  function Codes(n: nat): (r: seq<string>)
    requires n <= 10
    ensures |r| == n
  {
    seq(n, (i: nat) requires i < n => Code(i))
  }

  lemma CodesDiffer(n: nat)
    requires n <= 10
    ensures Distinct(Codes(n)) && forall c :: c in Codes(n) ==> Text.TrimSpace(c) == c && c != ""
  {
    forall i, j | 0 <= i < j < n ensures Codes(n)[i] != Codes(n)[j] {
      assert Codes(n)[i][0] != Codes(n)[j][0];
    }
  }

  function CostAt(slot: Slot): Cost {
    Cost("", CUR_ATHENA, slot.basis, slot.window, Period(0, 0), Dimension(TOTAL, ""), Money(0.0, slot.currency))
  }

  function TagAt(g: TagGroup): TagCost {
    TagCost("", g.provider, g.basis, g.window, g.key, "", Money(0.0, g.currency))
  }

  function FullGroup(limits: map<string, int>): TagGroup -> seq<TagCost> {
    (g: TagGroup) => seq(Max(0, LimitOf(limits, g.key)), (i: nat) => TagAt(g))
  }

  function FullCosts(bases: seq<string>, currencies: seq<string>): seq<Cost> {
    Map(CostAt, AllSlots(bases, currencies))
  }

  function FullTags(bases: seq<string>, currencies: seq<string>, keys: seq<TagKey>): seq<TagCost> {
    FlatMap(FullGroup(Limits(keys)), AllGroups(keys, AllSlots(bases, currencies)))
  }

  // ------------------------------------------------------ they are as queried

  ghost predicate SoundKeys(keys: seq<TagKey>) {
    Distinct(Map(KeyName, keys)) && forall k :: k in keys ==> k.maxValues > 0
  }

  lemma FullCostsAreQueried(bases: seq<string>, currencies: seq<string>)
    requires Distinct(bases) && Distinct(currencies)
    ensures Distinct(Map(SlotOf, FullCosts(bases, currencies)))
    ensures |FullCosts(bases, currencies)| == 2 * |currencies| * |bases|
    ensures forall c :: c in FullCosts(bases, currencies) ==>
              c.basis in bases && KnownWindow(c.window) && c.amount.currency in currencies
  {
    var slots, costs := AllSlots(bases, currencies), FullCosts(bases, currencies);
    SlotCount(bases, currencies);
    SlotsDiffer(bases, currencies);
    assert Map(SlotOf, costs) == slots;
    forall c | c in costs ensures c.basis in bases && KnownWindow(c.window) && c.amount.currency in currencies {
      var i :| 0 <= i < |costs| && costs[i] == c;
      assert slots[i] in slots && c == CostAt(slots[i]);
      InAllSlots(bases, currencies, slots[i]);
    }
  }

  lemma FullTagOf(bases: seq<string>, currencies: seq<string>, keys: seq<TagKey>, t: TagCost)
    requires t in FullTags(bases, currencies, keys)
    ensures GroupOf(t) in AllGroups(keys, AllSlots(bases, currencies)) && t == TagAt(GroupOf(t))
    ensures t.provider == CUR_ATHENA && t.basis in bases && KnownWindow(t.window) && t.amount.currency in currencies
    ensures exists k :: k in keys && k.key == t.tagKey
  {
    var slots := AllSlots(bases, currencies);
    var groups, full := AllGroups(keys, slots), FullGroup(Limits(keys));
    InFlatMap(full, groups, t);
    var g :| g in groups && t in full(g);
    assert t == TagAt(g) && GroupOf(t) == g;
    InFlatMap(GroupsOfKey(slots), keys, g);
    var k :| k in keys && g in GroupsOfKey(slots)(k);
    InGroupsOfKey(k, slots, g);
    InAllSlots(bases, currencies, Slot(g.window, g.basis, g.currency));
  }

  lemma {:induction false} FewMembers(a: set<string>, list: seq<string>)
    requires forall x :: x in a ==> x in list
    ensures |a| <= |list|
  {
    if list != [] {
      FewMembers(a - {list[0]}, list[1..]);
    } else {
      assert a == {};
    }
  }

  lemma FullRowsAreQueried(s: Settings, currencies: seq<string>, keys: seq<TagKey>)
    requires Distinct(s.bases) && Distinct(currencies) && |currencies| == s.maxCurrencies
    requires forall c :: c in currencies ==> Text.TrimSpace(c) == c
    ensures AsQueried(s, FullCosts(s.bases, currencies), FullTags(s.bases, currencies, keys))
  {
    var costs, tags := FullCosts(s.bases, currencies), FullTags(s.bases, currencies, keys);
    FullCostsAreQueried(s.bases, currencies);
    forall t | t in tags
      ensures t.provider == CUR_ATHENA && t.basis in s.bases && KnownWindow(t.window) && Proper(t.amount)
      ensures TagCurrency(t) in currencies
    {
      FullTagOf(s.bases, currencies, keys, t);
    }
    FewMembers(Currencies(costs, tags), currencies);
  }

  // --------------------------------------------------- and none of them is folded

  lemma {:induction false} LengthIsSum<T, U>(f: T -> seq<U>, h: T -> int, s: seq<T>)
    requires forall x :: x in s ==> |f(x)| == h(x)
    ensures |FlatMap(f, s)| == Sum(h, s)
  {
    if s != [] {
      assert forall x :: x in s[1..] ==> x in s;
      assert s[0] in s;
      LengthIsSum(f, h, s[1..]);
    }
  }

  lemma FullTagsCount(bases: seq<string>, currencies: seq<string>, keys: seq<TagKey>)
    requires SoundKeys(keys)
    ensures |FullTags(bases, currencies, keys)| == 2 * |currencies| * |bases| * Sum(KeyValues, keys)
  {
    var slots := AllSlots(bases, currencies);
    WeightIsNatural(keys, slots);
    LengthIsSum(FullGroup(Limits(keys)), Weight(Limits(keys)), AllGroups(keys, slots));
    WeightOfAllGroups(keys, slots);
    SlotCount(bases, currencies);
  }

  lemma FullGroupFits(bases: seq<string>, currencies: seq<string>, keys: seq<TagKey>, overflow: string, g: TagGroup)
    requires Distinct(bases) && Distinct(currencies) && SoundKeys(keys)
    requires g in AllGroups(keys, AllSlots(bases, currencies))
    ensures var tags := FullTags(bases, currencies, keys);
            Bounded(g, tags, Limits(keys), overflow) == Ok(Members(GroupOf, tags)(g))
  {
    var slots, full := AllSlots(bases, currencies), FullGroup(Limits(keys));
    SlotsDiffer(bases, currencies);
    GroupsDiffer(keys, slots);
    WeightIsNatural(keys, slots);
    GroupOfFlatMap(AllGroups(keys, slots), GroupOf, full, g);
    assert Weight(Limits(keys))(g) >= 0;
  }

  lemma FullGroupsAreKept(
    bases: seq<string>, currencies: seq<string>, keys: seq<TagKey>, overflow: string, order: seq<TagGroup>)
    requires Distinct(bases) && Distinct(currencies) && SoundKeys(keys)
    requires RangesOver(order, FullTags(bases, currencies, keys))
    ensures var tags := FullTags(bases, currencies, keys);
            var rows := BoundedAll(order, tags, Limits(keys), overflow);
            rows.Ok? && rows.value == FlatMap(Members(GroupOf, tags), order)
  {
    var tags, limits := FullTags(bases, currencies, keys), Limits(keys);
    forall g | g in order ensures Bounded(g, tags, limits, overflow) == Ok(Members(GroupOf, tags)(g)) {
      var t :| t in tags && GroupOf(t) == g;
      FullTagOf(bases, currencies, keys, t);
      FullGroupFits(bases, currencies, keys, overflow, g);
    }
    BoundedAllIsFlatMap(order, tags, limits, overflow);
    FlatMapAgrees(RowsOf(tags, limits, overflow), Members(GroupOf, tags), order);
  }

  lemma FullTagsAreAllowed(bases: seq<string>, currencies: seq<string>, keys: seq<TagKey>)
    requires SoundKeys(keys)
    ensures forall t :: t in FullTags(bases, currencies, keys) ==> Allowed(Limits(keys), t)
  {
    forall t | t in FullTags(bases, currencies, keys) ensures Allowed(Limits(keys), t) {
      FullTagOf(bases, currencies, keys, t);
      AllowedIff(keys, t);
    }
  }

  lemma FullRowsAreKept(
    bases: seq<string>, currencies: seq<string>, keys: seq<TagKey>, overflow: string, order: seq<TagGroup>)
    requires Distinct(bases) && Distinct(currencies) && SoundKeys(keys)
    requires RangesOver(order, FullTags(bases, currencies, keys))
    ensures var tags := FullTags(bases, currencies, keys);
            var limited := LimitedTags(order, tags, keys, overflow);
            limited.Ok? && Permutation(limited.value, tags)
  {
    var tags := FullTags(bases, currencies, keys);
    FullGroupsAreKept(bases, currencies, keys, overflow, order);
    FullTagsAreAllowed(bases, currencies, keys);
    KeptRows(tags, keys, overflow, order);
  }

  lemma KeptRows(tags: seq<TagCost>, keys: seq<TagKey>, overflow: string, order: seq<TagGroup>)
    requires RangesOver(order, tags) && forall t :: t in tags ==> Allowed(Limits(keys), t)
    requires BoundedAll(order, tags, Limits(keys), overflow) == Ok(FlatMap(Members(GroupOf, tags), order))
    ensures var limited := LimitedTags(order, tags, keys, overflow); limited.Ok? && Permutation(limited.value, tags)
  {
    GroupsPartition(order, GroupOf, tags);
    SortPermutes(TagRank, FlatMap(Members(GroupOf, tags), order));
  }

  // ------------------------------------------------------------------ exactness

  /** The failure can happen: rows as queried and a map order that lead to it. */
  ghost predicate CanHappen(target: TargetConfig, s: Settings, overflow: string, failure: Failure) {
    exists costs, tags, order ::
      && AsQueried(s, costs, tags) && RangesOver(order, tags)
      && Collected(target, s, overflow, Ok(costs), Ok(tags), order) == Err(failure)
  }

  ghost predicate Settled(target: TargetConfig, s: Settings) {
    && ValidBases(s.bases) && 0 < s.maxCurrencies <= 10 && target.cur
    && (target.tags ==> SoundKeys(target.keys))
  }

  lemma ProductsAgree(v: int, b: nat, c: nat)
    requires b > 0 && c > 0
    ensures 2 * c * b * v == v * 2 * Max(1, b) * Max(1, c)
    ensures 2 * c * b == 2 * Max(1, b) * Max(1, c)
  {
    assert 2 * c * b * v == v * (2 * b * c);
    assert v * 2 * b * c == v * (2 * b * c);
  }

  /** The fullest rows as queried meet both budgets exactly. */
  lemma FullestRows(target: TargetConfig, s: Settings, overflow: string)
    returns (costs: seq<Cost>, tags: seq<TagCost>, order: seq<TagGroup>)
    requires Settled(target, s)
    ensures AsQueried(s, costs, tags) && RangesOver(order, tags)
    ensures |costs| == 2 * Max(1, |s.bases|) * Max(1, s.maxCurrencies)
    ensures target.tags ==>
              var limited := LimitedTags(order, tags, target.keys, overflow);
              && limited.Ok? && Permutation(limited.value, tags)
              && |limited.value| == TagBudget(target.keys, |s.bases|, s.maxCurrencies)
  {
    var currencies := Codes(s.maxCurrencies);
    CodesDiffer(s.maxCurrencies);
    costs, tags := FullCosts(s.bases, currencies), FullTags(s.bases, currencies, target.keys);
    order := AnyOrder(tags);
    FullRowsAreQueried(s, currencies, target.keys);
    FullCostsAreQueried(s.bases, currencies);
    ProductsAgree(0, |s.bases|, s.maxCurrencies);
    if target.tags {
      FullTagsCount(s.bases, currencies, target.keys);
      FullRowsAreKept(s.bases, currencies, target.keys, overflow, order);
      ProductsAgree(Sum(KeyValues, target.keys), |s.bases|, s.maxCurrencies);
      PermutationFacts(LimitedTags(order, tags, target.keys, overflow).value, tags);
    }
  }

  /** Tag rows can exceed their limit exactly when the budget does. */
  lemma TagLimitIsExact(target: TargetConfig, s: Settings, overflow: string)
    requires Settled(target, s) && target.tags
    ensures CanHappen(target, s, overflow, TagSeriesLimitExceeded) <==>
            TagBudget(target.keys, |s.bases|, s.maxCurrencies) > s.tagSeriesLimit
  {
    if TagBudget(target.keys, |s.bases|, s.maxCurrencies) > s.tagSeriesLimit {
      var costs, tags, order := FullestRows(target, s, overflow);
      FewerCurrencies(costs, [], tags);
      assert Collected(target, s, overflow, Ok(costs), Ok(tags), order) == Err(TagSeriesLimitExceeded);
    }
    forall costs, tags, order |
      && AsQueried(s, costs, tags) && RangesOver(order, tags)
      && Collected(target, s, overflow, Ok(costs), Ok(tags), order) == Err(TagSeriesLimitExceeded)
      ensures TagBudget(target.keys, |s.bases|, s.maxCurrencies) > s.tagSeriesLimit
    {
      TagRowsWithinBudget(target, s, overflow, costs, tags, order);
    }
  }

  lemma TagRowsWithinBudget(
    target: TargetConfig, s: Settings, overflow: string, costs: seq<Cost>, tags: seq<TagCost>, order: seq<TagGroup>)
    requires Settled(target, s) && target.tags && AsQueried(s, costs, tags) && RangesOver(order, tags)
    requires LimitedTags(order, tags, target.keys, overflow).Ok?
    ensures |LimitedTags(order, tags, target.keys, overflow).value|
         <= TagBudget(target.keys, |s.bases|, s.maxCurrencies)
  {
    var currencies := ListOf(Currencies(costs, tags));
    forall t | t in tags ensures t.amount.currency in currencies {
      assert TagCurrency(t) in Currencies(costs, tags);
    }
    TagsAreFew(s, target.keys, order, tags, overflow, currencies);
    SumIsNatural(KeyValues, target.keys);
    WithinTagBudget(Sum(KeyValues, target.keys), |s.bases|, |currencies|, s);
  }

  /** Costs and tag rows together can exceed the CUR limit exactly when the check of
      the configuration fails. */
  lemma CurLimitIsExact(target: TargetConfig, s: Settings, overflow: string)
    requires Settled(target, s) && ValidTags(target, s)
    ensures CanHappen(target, s, overflow, SeriesLimitExceeded) <==> !ValidCURBudget(target, s)
  {
    if !ValidCURBudget(target, s) {
      var costs, tags, order := FullestRows(target, s, overflow);
      FullestExceed(target, s, overflow, costs, tags, order);
    } else {
      forall costs, tags, order | AsQueried(s, costs, tags) && RangesOver(order, tags)
        ensures Collected(target, s, overflow, Ok(costs), Ok(tags), order) != Err(SeriesLimitExceeded)
      {
        CurBudgetSuffices(target, s, overflow, costs, tags, order);
      }
    }
  }

  lemma FullestExceed(
    target: TargetConfig, s: Settings, overflow: string, costs: seq<Cost>, tags: seq<TagCost>, order: seq<TagGroup>)
    requires Settled(target, s) && ValidTags(target, s) && !ValidCURBudget(target, s)
    requires AsQueried(s, costs, tags) && |costs| == 2 * Max(1, |s.bases|) * Max(1, s.maxCurrencies)
    requires target.tags ==>
               var limited := LimitedTags(order, tags, target.keys, overflow);
               && limited.Ok? && Permutation(limited.value, tags)
               && |limited.value| == TagBudget(target.keys, |s.bases|, s.maxCurrencies)
    ensures Collected(target, s, overflow, Ok(costs), Ok(tags), order) == Err(SeriesLimitExceeded)
  {
    FewerCurrencies(costs, [], tags);
    if target.tags {
      var limited := LimitedTags(order, tags, target.keys, overflow).value;
      assert |costs| + |limited| > s.curSeriesLimit && |limited| <= s.tagSeriesLimit;
      TooManyRows(s, costs, limited, tags);
    }
  }

  lemma TooManyRows(s: Settings, costs: seq<Cost>, limited: seq<TagCost>, tags: seq<TagCost>)
    requires |Currencies(costs, tags)| <= s.maxCurrencies && Permutation(limited, tags)
    requires |costs| + |limited| > s.curSeriesLimit
    ensures Finished(s, costs, limited) == Err(SeriesLimitExceeded)
  {
    PermutationFacts(limited, tags);
    SameCurrencies(costs, limited, tags);
  }

  lemma SameCurrencies(costs: seq<Cost>, a: seq<TagCost>, b: seq<TagCost>)
    requires forall t :: t in a <==> t in b
    ensures Currencies(costs, a) == Currencies(costs, b)
  {
  }
}
