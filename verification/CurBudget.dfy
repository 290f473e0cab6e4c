/** Why a validated configuration keeps the CUR collector within its limits, and
    the collector itself. */
module CurBudget {
  import opened Arithmetic
  import opened Bags
  import opened Budgets
  import opened CurCollector
  import opened Domain
  import opened Grouping
  import opened Limiters
  import opened Ranking
  import opened Snapshots
  import opened TagLimits

  function CostCurrency(c: Cost): string { c.amount.currency }
  function TagCurrency(t: TagCost): string { t.amount.currency }

  function Currencies(costs: seq<Cost>, tags: seq<TagCost>): set<string> {
    (set c | c in costs :: CostCurrency(c)) + (set t | t in tags :: TagCurrency(t))
  }

  /** `Collect`, for one iteration order of the groups map. */
  function Collected(
    target: TargetConfig, s: Settings, overflow: string,
    costs: Result<seq<Cost>, string>, tags: Result<seq<TagCost>, string>, order: seq<TagGroup>)
    : Result<Snapshot, Failure>
  {
    if costs.Err? then Err(ReadFailed(costs.error))
    else if |Currencies(costs.value, [])| > s.maxCurrencies then Err(CurrencyLimitExceeded)
    else if !target.tags then Finished(s, costs.value, [])
    else if tags.Err? then Err(ReadFailed(tags.error))
    else
      var limited := LimitedTags(order, tags.value, target.keys, overflow);
      if limited.Err? then Err(limited.error)
      else if |limited.value| > s.tagSeriesLimit then Err(TagSeriesLimitExceeded)
      else Finished(s, costs.value, limited.value)
  }

  function Finished(s: Settings, costs: seq<Cost>, tags: seq<TagCost>): Result<Snapshot, Failure> {
    if |Currencies(costs, tags)| > s.maxCurrencies then Err(CurrencyLimitExceeded)
    else if |costs| + |tags| > s.curSeriesLimit then Err(SeriesLimitExceeded)
    else Ok(NewWithData(EMPTY.(costs := costs, tagCosts := tags)))
  }

  // ----------------------------------------------------- what rows to expect

  datatype Slot = Slot(window: string, basis: string, currency: string)

  function SlotOf(c: Cost): Slot { Slot(c.window, c.basis, c.amount.currency) }

  /** The rows that the query asks for: configured bases, both windows, one cost
      row per window, basis and currency, and no more currencies than configured. */
  ghost predicate AsQueried(s: Settings, costs: seq<Cost>, tags: seq<TagCost>) {
    && (forall c :: c in costs ==> c.basis in s.bases && KnownWindow(c.window))
    && Distinct(Map(SlotOf, costs))
    && (forall t :: t in tags ==>
          t.provider == CUR_ATHENA && t.basis in s.bases && KnownWindow(t.window) && Proper(t.amount))
    && |Currencies(costs, tags)| <= s.maxCurrencies
  }

  // ----------------------------------------------------------------- counting

  function BothSlots(basis: string): string -> seq<Slot> {
    currency => [Slot(DAILY, basis, currency), Slot(MONTH_TO_DATE, basis, currency)]
  }

  function SlotsOfBasis(currencies: seq<string>): string -> seq<Slot> { basis => FlatMap(BothSlots(basis), currencies) }

  function AllSlots(bases: seq<string>, currencies: seq<string>): seq<Slot> { FlatMap(SlotsOfBasis(currencies), bases) }

  lemma {:induction false} TwicePerCurrency(basis: string, currencies: seq<string>)
    ensures |FlatMap(BothSlots(basis), currencies)| == 2 * |currencies|
  {
    if currencies != [] {
      TwicePerCurrency(basis, currencies[1..]);
    }
  }

  lemma {:induction false} SlotCount(bases: seq<string>, currencies: seq<string>)
    ensures |AllSlots(bases, currencies)| == 2 * |currencies| * |bases|
  {
    if bases != [] {
      TwicePerCurrency(bases[0], currencies);
      SlotCount(bases[1..], currencies);
      assert |AllSlots(bases, currencies)| == 2 * |currencies| + 2 * |currencies| * (|bases| - 1);
    }
  }

  lemma SlotIsListed(slot: Slot, bases: seq<string>, currencies: seq<string>)
    requires KnownWindow(slot.window) && slot.basis in bases && slot.currency in currencies
    ensures slot in AllSlots(bases, currencies)
  {
    assert slot in BothSlots(slot.basis)(slot.currency);
    InFlatMap(BothSlots(slot.basis), currencies, slot);
    assert slot in SlotsOfBasis(currencies)(slot.basis);
    InFlatMap(SlotsOfBasis(currencies), bases, slot);
  }

  /** Distinct members of a list are no more than the list is long. */
  lemma PartIsShorter<T>(part: seq<T>, whole: seq<T>)
    requires Distinct(part) && forall x :: x in part ==> x in whole
    ensures |part| <= |whole|
  {
    var one := (x: T) => 1;
    SumOfPart(one, part, whole);
    SumOfConstant(one, 1, part);
    SumOfConstant(one, 1, whole);
  }

  lemma CostsAreFew(s: Settings, costs: seq<Cost>, currencies: seq<string>)
    requires forall c :: c in costs ==> c.basis in s.bases && KnownWindow(c.window) && c.amount.currency in currencies
    requires Distinct(Map(SlotOf, costs))
    ensures |costs| <= 2 * |currencies| * |s.bases|
  {
    var slots := Map(SlotOf, costs);
    forall x | x in slots ensures x in AllSlots(s.bases, currencies) {
      var i :| 0 <= i < |slots| && slots[i] == x;
      assert costs[i] in costs;
      SlotIsListed(x, s.bases, currencies);
    }
    PartIsShorter(slots, AllSlots(s.bases, currencies));
    SlotCount(s.bases, currencies);
  }

  // Tag groups: a slot for every key.

  function GroupAt(key: TagKey): Slot -> TagGroup {
    (slot: Slot) => TagGroup(key.key, CUR_ATHENA, slot.basis, slot.window, slot.currency)
  }

  function GroupsOfKey(slots: seq<Slot>): TagKey -> seq<TagGroup> { key => Map(GroupAt(key), slots) }

  function AllGroups(keys: seq<TagKey>, slots: seq<Slot>): seq<TagGroup> { FlatMap(GroupsOfKey(slots), keys) }

  function Weight(limits: map<string, int>): TagGroup -> int { (g: TagGroup) => LimitOf(limits, g.key) }

  lemma WeightOfAllGroups(keys: seq<TagKey>, slots: seq<Slot>)
    requires Distinct(Map(KeyName, keys))
    ensures Sum(Weight(Limits(keys)), AllGroups(keys, slots)) == |slots| * Sum(KeyValues, keys)
  {
    var w := Weight(Limits(keys));
    var perKey := (k: TagKey) => |slots| * k.maxValues;
    LimitsOfKeys(keys);
    forall k | k in keys ensures perKey(k) == Sum(w, GroupsOfKey(slots)(k)) {
      var groups := GroupsOfKey(slots)(k);
      assert LimitOf(Limits(keys), k.key) == k.maxValues;
      assert forall i :: 0 <= i < |groups| ==> groups[i] == GroupAt(k)(slots[i]) && groups[i].key == k.key;
      SumOfConstant(w, k.maxValues, groups);
    }
    SumOfFlatMap(GroupsOfKey(slots), w, perKey, keys);
    SumScales(perKey, KeyValues, |slots|, keys);
  }

  lemma GroupIsListed(t: TagCost, keys: seq<TagKey>, slots: seq<Slot>)
    requires Distinct(Map(KeyName, keys)) && Allowed(Limits(keys), t) && t.provider == CUR_ATHENA
    requires Slot(t.window, t.basis, t.amount.currency) in slots
    ensures GroupOf(t) in AllGroups(keys, slots)
  {
    LimitsOfKeys(keys);
    var names := Map(KeyName, keys);
    assert t.tagKey in names;
    var i :| 0 <= i < |names| && names[i] == t.tagKey;
    var j :| 0 <= j < |slots| && slots[j] == Slot(t.window, t.basis, t.amount.currency);
    var groups := GroupsOfKey(slots)(keys[i]);
    assert groups[j] == GroupAt(keys[i])(slots[j]);
    assert groups[j] == GroupOf(t);
    assert keys[i] in keys;
    InFlatMap(GroupsOfKey(slots), keys, GroupOf(t));
  }

  lemma RowsWithinWeight(order: seq<TagGroup>, values: seq<TagCost>, limits: map<string, int>, overflow: string)
    requires BoundedAll(order, values, limits, overflow).Ok?
    ensures |BoundedAll(order, values, limits, overflow).value| <= Sum(Weight(limits), order)
  {
    var rows := RowsOf(values, limits, overflow);
    BoundedAllIsFlatMap(order, values, limits, overflow);
    forall g | g in order ensures |rows(g)| <= Weight(limits)(g) {
      assert Bounded(g, values, limits, overflow).Ok?;
    }
    LengthsWithin(rows, Weight(limits), order);
  }

  lemma TagsAreFew(
    s: Settings, keys: seq<TagKey>, order: seq<TagGroup>, values: seq<TagCost>, overflow: string,
    currencies: seq<string>)
    requires RangesOver(order, values) && Distinct(Map(KeyName, keys)) && LimitedTags(order, values, keys, overflow).Ok?
    requires forall k :: k in keys ==> k.maxValues > 0
    requires forall t :: t in values ==>
               && t.provider == CUR_ATHENA && t.basis in s.bases && KnownWindow(t.window)
               && t.amount.currency in currencies
    ensures |LimitedTags(order, values, keys, overflow).value| <= 2 * |currencies| * |s.bases| * Sum(KeyValues, keys)
  {
    var slots, w := AllSlots(s.bases, currencies), Weight(Limits(keys));
    RowsWithinWeight(order, values, Limits(keys), overflow);
    forall g | g in order ensures g in AllGroups(keys, slots) {
      var t :| t in values && GroupOf(t) == g;
      SlotIsListed(Slot(t.window, t.basis, t.amount.currency), s.bases, currencies);
      GroupIsListed(t, keys, slots);
    }
    WeightIsNatural(keys, slots);
    SumOfPart(w, order, AllGroups(keys, slots));
    WeightOfAllGroups(keys, slots);
    SlotCount(s.bases, currencies);
  }

  lemma WeightIsNatural(keys: seq<TagKey>, slots: seq<Slot>)
    requires Distinct(Map(KeyName, keys)) && forall k :: k in keys ==> k.maxValues > 0
    ensures forall g :: g in AllGroups(keys, slots) ==> Weight(Limits(keys))(g) >= 0
  {
    LimitsOfKeys(keys);
    forall g | g in AllGroups(keys, slots) ensures Weight(Limits(keys))(g) >= 0 {
      InFlatMap(GroupsOfKey(slots), keys, g);
      var k :| k in keys && g in GroupsOfKey(slots)(k);
      var i :| 0 <= i < |slots| && GroupsOfKey(slots)(k)[i] == g;
      assert g == GroupAt(k)(slots[i]);
    }
  }

  // -------------------------------------------------------------- sufficiency

  /** A finite set as a list. */
  lemma {:induction false} ListOf(a: set<string>) returns (r: seq<string>)
    ensures |r| == |a| && forall x :: x in r <==> x in a
    decreases |a|
  {
    if a == {} {
      r := [];
    } else {
      var x :| x in a;
      var rest := ListOf(a - {x});
      r := rest + [x];
    }
  }

  lemma WithinTagBudget(v: nat, bases: nat, currencies: nat, s: Settings)
    requires bases == |s.bases| > 0 && currencies <= s.maxCurrencies
    ensures 2 * currencies * bases * v <= v * 2 * Max(1, bases) * Max(1, s.maxCurrencies)
    ensures 2 * currencies * bases <= 2 * Max(1, bases) * Max(1, s.maxCurrencies)
  {
  }

  lemma LimitedCurrencies(order: seq<TagGroup>, values: seq<TagCost>, keys: seq<TagKey>, overflow: string)
    requires RangesOver(order, values) && LimitedTags(order, values, keys, overflow).Ok?
    requires forall t :: t in values ==> Proper(t.amount)
    ensures forall x :: x in LimitedTags(order, values, keys, overflow).value ==>
              exists t :: t in values && TagCurrency(t) == TagCurrency(x)
  {
    var limits := Limits(keys);
    var rows := BoundedAll(order, values, limits, overflow).value;
    BoundedAllIsFlatMap(order, values, limits, overflow);
    SortPermutes(TagRank, rows);
    PermutationFacts(StableSort(TagRank, rows), rows);
    forall x | x in LimitedTags(order, values, keys, overflow).value
      ensures exists t :: t in values && TagCurrency(t) == TagCurrency(x)
    {
      InFlatMap(RowsOf(values, limits, overflow), order, x);
      var g :| g in order && x in RowsOf(values, limits, overflow)(g);
      GroupTotalIsConserved(g, values, limits, overflow, "");
      var t :| t in values && GroupOf(t) == g;
      assert GroupOf(x) == g && TagCurrency(t) == TagCurrency(x);
    }
  }

  /** Under a validated configuration, rows as queried never meet the tag series
      limit, the CUR series limit or the currency limit, in any map order. */
  lemma CurBudgetSuffices(
    target: TargetConfig, s: Settings, overflow: string, costs: seq<Cost>, tags: seq<TagCost>, order: seq<TagGroup>)
    requires Validated(target, s) && target.cur && AsQueried(s, costs, tags) && RangesOver(order, tags)
    ensures var r := Collected(target, s, overflow, Ok(costs), Ok(tags), order);
            r != Err(TagSeriesLimitExceeded) && r != Err(SeriesLimitExceeded) && r != Err(CurrencyLimitExceeded)
  {
    var all := Currencies(costs, tags);
    var currencies := ListOf(all);
    forall c | c in costs ensures c.amount.currency in currencies {
      assert CostCurrency(c) in all;
    }
    forall t | t in tags ensures t.amount.currency in currencies {
      assert TagCurrency(t) in all;
    }
    FewerCurrencies(costs, [], tags);
    CostsAreFew(s, costs, currencies);
    WithinTagBudget(0, |s.bases|, |currencies|, s);
    if target.tags {
      TagPartSuffices(target, s, overflow, costs, tags, order, currencies);
    }
  }

  lemma FewerCurrencies(costs: seq<Cost>, some: seq<TagCost>, tags: seq<TagCost>)
    requires forall x :: x in some ==> exists t :: t in tags && TagCurrency(t) == TagCurrency(x)
    ensures |Currencies(costs, some)| <= |Currencies(costs, tags)|
  {
    var a, b := Currencies(costs, some), Currencies(costs, tags);
    assert a <= b;
    assert b == a + (b - a);
  }

  lemma TagPartSuffices(
    target: TargetConfig, s: Settings, overflow: string, costs: seq<Cost>, tags: seq<TagCost>,
    order: seq<TagGroup>, currencies: seq<string>)
    requires Validated(target, s) && target.cur && target.tags && AsQueried(s, costs, tags) && RangesOver(order, tags)
    requires |currencies| <= s.maxCurrencies && |costs| <= 2 * |currencies| * |s.bases|
    requires forall t :: t in tags ==> t.amount.currency in currencies
    ensures var limited := LimitedTags(order, tags, target.keys, overflow);
            && (limited.Err? ==> limited.error == NotAllowlisted || limited.error.LimitFailed?)
            && (limited.Ok? ==>
                  && |limited.value| <= s.tagSeriesLimit
                  && |costs| + |limited.value| <= s.curSeriesLimit
                  && |Currencies(costs, limited.value)| <= s.maxCurrencies)
  {
    var limited := LimitedTags(order, tags, target.keys, overflow);
    if limited.Ok? {
      TagsAreFew(s, target.keys, order, tags, overflow, currencies);
      SumIsNatural(KeyValues, target.keys);
      WithinTagBudget(Sum(KeyValues, target.keys), |s.bases|, |currencies|, s);
      LimitedCurrencies(order, tags, target.keys, overflow);
      FewerCurrencies(costs, limited.value, tags);
    }
  }

  // --------------------------------------------------------------- operations

  lemma MoreCosts(costs: seq<Cost>, c: Cost)
    ensures Currencies(costs + [c], []) == Currencies(costs, []) + {c.amount.currency}
  {
    assert c in costs + [c] && forall x :: x in costs ==> x in costs + [c];
    assert CostCurrency(c) in Currencies(costs + [c], []);
  }

  lemma MoreTags(costs: seq<Cost>, tags: seq<TagCost>, t: TagCost)
    ensures Currencies(costs, tags + [t]) == Currencies(costs, tags) + {t.amount.currency}
  {
    assert t in tags + [t] && forall x :: x in tags ==> x in tags + [t];
    assert TagCurrency(t) in Currencies(costs, tags + [t]);
  }

  /** `currencyCount`. */
  method CurrencyCount(costs: seq<Cost>, tags: seq<TagCost>) returns (count: nat)
    ensures count == |Currencies(costs, tags)|
  {
    var currencies: set<string> := {};
    for i := 0 to |costs|
      invariant currencies == Currencies(costs[..i], [])
    {
      assert costs[..i + 1] == costs[..i] + [costs[i]];
      MoreCosts(costs[..i], costs[i]);
      currencies := currencies + {costs[i].amount.currency};
    }
    assert costs[..|costs|] == costs;
    for i := 0 to |tags|
      invariant currencies == Currencies(costs, tags[..i])
    {
      assert tags[..i + 1] == tags[..i] + [tags[i]];
      MoreTags(costs, tags[..i], tags[i]);
      currencies := currencies + {tags[i].amount.currency};
    }
    assert tags[..|tags|] == tags;
    count := |currencies|;
  }

  /** The limits map of `limitTags`. */
  method BuildLimits(keys: seq<TagKey>) returns (limits: map<string, int>)
    ensures limits == Limits(keys)
  {
    limits := map[];
    for i := 0 to |keys|
      invariant limits == Limits(keys[..i])
    {
      assert keys[..i + 1][..i] == keys[..i];
      limits := limits[keys[i].key := keys[i].maxValues];
    }
    assert keys[..|keys|] == keys;
  }

  /** The loop of `limitTags` over the groups, in the order given. */
  method LimitEachGroup(
    order: seq<TagGroup>, groups: map<TagGroup, seq<TagCost>>, ghost values: seq<TagCost>, limits: map<string, int>,
    overflow: string)
    returns (r: Result<seq<TagCost>, Error>)
    requires Grouped(GroupOf, groups, values) && forall g :: g in order ==> g in groups
    ensures r == BoundedAll(order, values, limits, overflow)
  {
    var result := [];
    for i := 0 to |order|
      invariant BoundedAll(order[..i], values, limits, overflow) == Ok(result)
    {
      assert order[..i + 1][..i] == order[..i];
      assert groups[order[i]] == Filter(InTagGroup(order[i]), values);
      var bounded := LimitTagValues(groups[order[i]], LimitOf(limits, order[i].key), overflow);
      if bounded.Err? {
        FirstErrorStays(order, i + 1, values, limits, overflow);
        return bounded;
      }
      result := result + bounded.value;
    }
    assert order[..|order|] == order;
    r := Ok(result);
  }

  lemma {:induction false} FirstErrorStays(
    order: seq<TagGroup>, i: nat, values: seq<TagCost>, limits: map<string, int>, overflow: string)
    requires i <= |order| && BoundedAll(order[..i], values, limits, overflow).Err?
    ensures BoundedAll(order, values, limits, overflow) == BoundedAll(order[..i], values, limits, overflow)
    decreases |order|
  {
    if i < |order| {
      var n := |order| - 1;
      assert order[..n][..i] == order[..i];
      FirstErrorStays(order[..n], i, values, limits, overflow);
    } else {
      assert order[..i] == order;
    }
  }

  /** `limitTags`: the result is the specified one for some order of the groups map. */
  method LimitTags(values: seq<TagCost>, keys: seq<TagKey>, overflow: string) returns (r: Result<seq<TagCost>, Failure>)
    ensures exists order :: RangesOver(order, values) && r == LimitedTags(order, values, keys, overflow)
  {
    var limits := BuildLimits(keys);
    var groups: map<TagGroup, seq<TagCost>> := map[];
    for i := 0 to |values|
      invariant Grouped(GroupOf, groups, values[..i])
      invariant forall v :: v in values[..i] ==> Allowed(limits, v)
    {
      if !(values[i].tagKey in limits) || limits[values[i].tagKey] <= 0 {
        ghost var order := AnyOrder(values);
        assert values[i] in values && !Allowed(limits, values[i]);
        assert LimitedTags(order, values, keys, overflow) == Err(NotAllowlisted);
        return Err(NotAllowlisted);
      }
      assert values[..i + 1] == values[..i] + [values[i]];
      GroupedSnoc(GroupOf, groups, values[..i], values[i]);
      groups := Longer(groups, GroupOf(values[i]), values[i]);
    }
    assert values[..|values|] == values;
    var order := Range(groups);
    var rows := LimitEachGroup(order, groups, values, limits, overflow);
    if rows.Err? {
      r := Err(LimitFailed(rows.error));
    } else {
      r := Ok(StableSort(TagRank, rows.value));
    }
    assert RangesOver(order, values) && r == LimitedTags(order, values, keys, overflow);
  }

  lemma AnyOrder(values: seq<TagCost>) returns (order: seq<TagGroup>)
    ensures RangesOver(order, values)
  {
    var groups := Map(GroupOf, values);
    order := Dedup(groups);
    DedupFacts(groups);
    forall g ensures g in order <==> exists v :: v in values && GroupOf(v) == g {
      if g in order {
        var i :| 0 <= i < |groups| && groups[i] == g;
        assert values[i] in values && GroupOf(values[i]) == g;
      }
      if v :| v in values && GroupOf(v) == g {
        var i :| 0 <= i < |values| && values[i] == v;
        assert groups[i] == g;
      }
    }
  }

  /** The verdict is the specified one for some order of the groups map. */
  ghost predicate IsVerdict(
    target: TargetConfig, s: Settings, overflow: string,
    costs: Result<seq<Cost>, string>, tags: Result<seq<TagCost>, string>, r: Result<Snapshot, Failure>)
  {
    exists order ::
      && (tags.Ok? ==> RangesOver(order, tags.value))
      && r == Collected(target, s, overflow, costs, tags, order)
  }

  /** The checks before the tags are read do not depend on the map order. */
  lemma EarlyVerdict(
    target: TargetConfig, s: Settings, overflow: string,
    costs: Result<seq<Cost>, string>, tags: Result<seq<TagCost>, string>, r: Result<Snapshot, Failure>)
    requires forall order :: r == Collected(target, s, overflow, costs, tags, order)
    ensures IsVerdict(target, s, overflow, costs, tags, r)
  {
    var order: seq<TagGroup> := [];
    if tags.Ok? {
      order := AnyOrder(tags.value);
    }
    assert r == Collected(target, s, overflow, costs, tags, order);
  }

  // ---------------------------------------------------- what is collected

  /** All costs, the limited tag costs, and nothing else. */
  ghost predicate HoldsRows(out: Snapshot, costs: seq<Cost>, tags: seq<TagCost>, keys: seq<TagKey>, overflow: string) {
    && out == EMPTY.(costs := out.costs, tagCosts := out.tagCosts)
    && Permutation(out.costs, costs)
    && TagsHeld(out.tagCosts, tags, keys, overflow)
  }

  ghost predicate WithinLimits(target: TargetConfig, s: Settings, out: Snapshot) {
    && |out.costs| + |out.tagCosts| <= s.curSeriesLimit
    && (target.tags ==> |out.tagCosts| <= s.tagSeriesLimit)
    && exists currencies: set<string> ::
         && |currencies| <= s.maxCurrencies
         && (forall c :: c in out.costs ==> c.amount.currency in currencies)
         && (forall t :: t in out.tagCosts ==> t.amount.currency in currencies)
  }

  /** Both answers read as far as they are asked for, and held within all limits. */
  ghost predicate Holds(
    target: TargetConfig, s: Settings, overflow: string,
    costs: Result<seq<Cost>, string>, tags: Result<seq<TagCost>, string>, out: Snapshot)
  {
    && WithinLimits(target, s, out)
    && costs.Ok? && (target.tags ==> tags.Ok?)
    && (target.tags ==> HoldsRows(out, costs.value, tags.value, target.keys, overflow))
    && (!target.tags ==> HoldsRows(out, costs.value, [], target.keys, overflow))
  }

  lemma NothingHeld(keys: seq<TagKey>, overflow: string)
    ensures TagsHeld([], [], keys, overflow)
  {
  }

  lemma HeldSorted(tags: seq<TagCost>, values: seq<TagCost>, keys: seq<TagKey>, overflow: string)
    requires TagsHeld(tags, values, keys, overflow)
    ensures TagsHeld(StableSort(TagRank, tags), values, keys, overflow)
  {
    var out := StableSort(TagRank, tags);
    SortPermutes(TagRank, tags);
    PermutationFacts(out, tags);
    forall c ensures TotalIn(TagMoney, c, out) == TotalIn(TagMoney, c, values) {
      TotalPermutes(AmountIn(TagMoney, c), out, tags);
    }
    forall t, k | t in values && k in keys && k.key == t.tagKey && Distinct(Map(KeyName, keys))
      ensures Held(out, values, t, k.maxValues)
    {
      FilterPermutes(InSameGroup(t), out, tags);
      PermutationFacts(Filter(InSameGroup(t), out), Filter(InSameGroup(t), tags));
      assert Held(tags, values, t, k.maxValues);
    }
  }

  lemma FinishedHolds(
    target: TargetConfig, s: Settings, costs: seq<Cost>, tags: seq<TagCost>, values: seq<TagCost>,
    overflow: string)
    requires Finished(s, costs, tags).Ok? && TagsHeld(tags, values, target.keys, overflow)
    requires target.tags ==> |tags| <= s.tagSeriesLimit
    ensures var out := Finished(s, costs, tags).value;
            WithinLimits(target, s, out) && HoldsRows(out, costs, values, target.keys, overflow)
  {
    var out, currencies := Finished(s, costs, tags).value, Currencies(costs, tags);
    HeldSorted(tags, values, target.keys, overflow);
    SortPermutes(TagRank, tags);
    PermutationFacts(out.tagCosts, tags);
    SortPermutes(CostRank, costs);
    PermutationFacts(out.costs, costs);
    forall c | c in out.costs ensures c.amount.currency in currencies {
      assert CostCurrency(c) in currencies;
    }
    forall t | t in out.tagCosts ensures t.amount.currency in currencies {
      assert TagCurrency(t) in currencies;
    }
  }

  lemma VerdictHolds(
    target: TargetConfig, s: Settings, overflow: string,
    costs: Result<seq<Cost>, string>, tags: Result<seq<TagCost>, string>, r: Result<Snapshot, Failure>)
    requires IsVerdict(target, s, overflow, costs, tags, r) && r.Ok?
    requires target.tags && tags.Ok? ==> forall t :: t in tags.value ==> Proper(t.amount)
    ensures Holds(target, s, overflow, costs, tags, r.value)
  {
    var order :| && (tags.Ok? ==> RangesOver(order, tags.value))
                 && r == Collected(target, s, overflow, costs, tags, order);
    if target.tags {
      var limited := LimitedTags(order, tags.value, target.keys, overflow).value;
      TagsAreHeld(order, tags.value, target.keys, overflow);
      FinishedHolds(target, s, costs.value, limited, tags.value, overflow);
    } else {
      NothingHeld(target.keys, overflow);
      FinishedHolds(target, s, costs.value, [], [], overflow);
    }
  }

  /** On rows as queried under a validated configuration, collecting succeeds exactly
      when no tag row has a key that is not configured. */
  lemma CollectsIffAllowlisted(
    target: TargetConfig, s: Settings, overflow: string, costs: seq<Cost>, tags: seq<TagCost>,
    r: Result<Snapshot, Failure>)
    requires Validated(target, s) && target.cur && AsQueried(s, costs, tags)
    requires forall t :: t in tags ==> t.amount.currency != ""
    requires IsVerdict(target, s, overflow, Ok(costs), Ok(tags), r)
    ensures r.Ok? <==> (target.tags ==> forall t :: t in tags ==> exists k :: k in target.keys && k.key == t.tagKey)
  {
    var order :| RangesOver(order, tags) && r == Collected(target, s, overflow, Ok(costs), Ok(tags), order);
    CurBudgetSuffices(target, s, overflow, costs, tags, order);
    if target.tags {
      TagsAreLimitedIffAllowlisted(order, tags, target.keys, overflow);
      LimitsOfKeys(target.keys);
      forall t | t in tags
        ensures Allowed(Limits(target.keys), t) <==> exists k :: k in target.keys && k.key == t.tagKey
      {
        AllowedIff(target.keys, t);
      }
    }
  }

  lemma AllowedIff(keys: seq<TagKey>, t: TagCost)
    requires Distinct(Map(KeyName, keys)) && forall k :: k in keys ==> k.maxValues > 0
    ensures Allowed(Limits(keys), t) <==> exists k :: k in keys && k.key == t.tagKey
  {
    LimitsOfKeys(keys);
    InMap(KeyName, keys, t.tagKey);
  }

  /** `Collect`. */
  method Collect(
    target: TargetConfig, s: Settings, overflow: string,
    costs: Result<seq<Cost>, string>, tags: Result<seq<TagCost>, string>)
    returns (r: Result<Snapshot, Failure>)
    ensures IsVerdict(target, s, overflow, costs, tags, r)
    ensures r.Ok? && (target.tags && tags.Ok? ==> forall t :: t in tags.value ==> Proper(t.amount)) ==>
              Holds(target, s, overflow, costs, tags, r.value)
  {
    r := Verdict(target, s, overflow, costs, tags);
    if r.Ok? && (target.tags && tags.Ok? ==> forall t :: t in tags.value ==> Proper(t.amount)) {
      VerdictHolds(target, s, overflow, costs, tags, r);
    }
  }

  method Verdict(
    target: TargetConfig, s: Settings, overflow: string,
    costs: Result<seq<Cost>, string>, tags: Result<seq<TagCost>, string>)
    returns (r: Result<Snapshot, Failure>)
    ensures IsVerdict(target, s, overflow, costs, tags, r)
  {
    if costs.Err? {
      r := Err(ReadFailed(costs.error));
      EarlyVerdict(target, s, overflow, costs, tags, r);
      return;
    }
    var count := CurrencyCount(costs.value, []);
    if count > s.maxCurrencies {
      r := Err(CurrencyLimitExceeded);
      EarlyVerdict(target, s, overflow, costs, tags, r);
      return;
    }
    if !target.tags {
      r := Finish(s, costs.value, []);
      EarlyVerdict(target, s, overflow, costs, tags, r);
      return;
    }
    if tags.Err? {
      r := Err(ReadFailed(tags.error));
      EarlyVerdict(target, s, overflow, costs, tags, r);
      return;
    }
    var limited := LimitTags(tags.value, target.keys, overflow);
    ghost var order :| RangesOver(order, tags.value)
                       && limited == LimitedTags(order, tags.value, target.keys, overflow);
    if limited.Err? {
      r := Err(limited.error);
    } else if |limited.value| > s.tagSeriesLimit {
      r := Err(TagSeriesLimitExceeded);
    } else {
      r := Finish(s, costs.value, limited.value);
    }
    assert r == Collected(target, s, overflow, costs, tags, order);
  }

  /** The last checks of `Collect`, on both lists of rows. */
  method Finish(s: Settings, costs: seq<Cost>, tags: seq<TagCost>) returns (r: Result<Snapshot, Failure>)
    ensures r == Finished(s, costs, tags)
  {
    var count := CurrencyCount(costs, tags);
    if count > s.maxCurrencies {
      return Err(CurrencyLimitExceeded);
    }
    if |costs| + |tags| > s.curSeriesLimit {
      return Err(SeriesLimitExceeded);
    }
    r := Ok(NewWithData(EMPTY.(costs := costs, tagCosts := tags)));
  }

  /** No verdict on rows as queried under a validated configuration is a limit error. */
  lemma NoVerdictIsALimitError(
    target: TargetConfig, s: Settings, overflow: string, costs: seq<Cost>, tags: seq<TagCost>,
    r: Result<Snapshot, Failure>)
    requires Validated(target, s) && target.cur && AsQueried(s, costs, tags)
    requires IsVerdict(target, s, overflow, Ok(costs), Ok(tags), r)
    ensures r != Err(TagSeriesLimitExceeded) && r != Err(SeriesLimitExceeded) && r != Err(CurrencyLimitExceeded)
  {
    var order :| RangesOver(order, tags) && r == Collected(target, s, overflow, Ok(costs), Ok(tags), order);
    CurBudgetSuffices(target, s, overflow, costs, tags, order);
  }
}
