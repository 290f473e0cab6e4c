/** The CUR collector: costs and tag costs of several currencies, limited per
    group, against the budgets that the configuration was checked for. */
module CurCollector {
  import opened Bags
  import opened Budgets
  import opened Domain
  import opened Grouping
  import opened Limiters
  import opened Ranking
  import opened Snapshots
  import opened TagLimits

  datatype TagGroup = TagGroup(key: string, provider: string, basis: string, window: string, currency: string)

  function GroupOf(t: TagCost): TagGroup { TagGroup(t.tagKey, t.provider, t.basis, t.window, t.amount.currency) }

  function InTagGroup(g: TagGroup): TagCost -> bool { HasKey(GroupOf, g) }

  datatype Failure =
    | ReadFailed(message: string) | CurrencyLimitExceeded | TagSeriesLimitExceeded | SeriesLimitExceeded
    | NotAllowlisted | LimitFailed(error: Error)

  function Limits(keys: seq<TagKey>): map<string, int> {
    if keys == [] then map[]
    else var n := |keys| - 1; Limits(keys[..n])[keys[n].key := keys[n].maxValues]
  }

  function LimitOf(limits: map<string, int>, key: string): int { if key in limits then limits[key] else 0 }

  predicate Allowed(limits: map<string, int>, t: TagCost) { LimitOf(limits, t.tagKey) > 0 }

  // ----------------------------------------------------------- group by group

  function Bounded(
    g: TagGroup, values: seq<TagCost>, limits: map<string, int>, overflow: string): Result<seq<TagCost>, Error>
  {
    LimitValues(Filter(InTagGroup(g), values), LimitOf(limits, g.key), overflow)
  }

  /** One group after the other in the order that the map yields them. */
  function BoundedAll(
    order: seq<TagGroup>, values: seq<TagCost>, limits: map<string, int>, overflow: string)
    : Result<seq<TagCost>, Error>
  {
    if order == [] then Ok([])
    else
      var n := |order| - 1;
      var before := BoundedAll(order[..n], values, limits, overflow);
      var last := Bounded(order[n], values, limits, overflow);
      if before.Err? then before
      else if last.Err? then last
      else Ok(before.value + last.value)
  }

  /** An iteration order of the groups map. */
  ghost predicate RangesOver(order: seq<TagGroup>, values: seq<TagCost>) {
    Distinct(order) && forall g :: g in order <==> exists v :: v in values && GroupOf(v) == g
  }

  /** `limitTags`. */
  function LimitedTags(
    order: seq<TagGroup>, values: seq<TagCost>, keys: seq<TagKey>, overflow: string): Result<seq<TagCost>, Failure>
  {
    var limits := Limits(keys);
    if exists v :: v in values && !Allowed(limits, v) then Err(NotAllowlisted)
    else
      var rows := BoundedAll(order, values, limits, overflow);
      if rows.Err? then Err(LimitFailed(rows.error)) else Ok(StableSort(TagRank, rows.value))
  }

  // -------------------------------------------------- map order is invisible

  function RowsOf(values: seq<TagCost>, limits: map<string, int>, overflow: string): TagGroup -> seq<TagCost> {
    (g: TagGroup) =>
      var r := Bounded(g, values, limits, overflow);
      if r.Ok? then r.value else []
  }

  lemma {:induction false} BoundedAllSucceeds(
    order: seq<TagGroup>, values: seq<TagCost>, limits: map<string, int>, overflow: string)
    ensures BoundedAll(order, values, limits, overflow).Ok? <==>
            forall i :: 0 <= i < |order| ==> Bounded(order[i], values, limits, overflow).Ok?
  {
    if order != [] {
      var n := |order| - 1;
      BoundedAllSucceeds(order[..n], values, limits, overflow);
      assert forall i :: 0 <= i < n ==> order[..n][i] == order[i];
    }
  }

  lemma {:induction false} BoundedAllConcatenates(
    order: seq<TagGroup>, values: seq<TagCost>, limits: map<string, int>, overflow: string)
    requires BoundedAll(order, values, limits, overflow).Ok?
    ensures BoundedAll(order, values, limits, overflow).value == FlatMap(RowsOf(values, limits, overflow), order)
  {
    if order != [] {
      var n := |order| - 1;
      BoundedAllConcatenates(order[..n], values, limits, overflow);
      FlatMapSnoc(RowsOf(values, limits, overflow), order, n);
      assert order[..n + 1] == order;
    }
  }

  /** The groups are limited independently of each other. */
  lemma BoundedAllIsFlatMap(order: seq<TagGroup>, values: seq<TagCost>, limits: map<string, int>, overflow: string)
    ensures var r := BoundedAll(order, values, limits, overflow);
            && (r.Ok? <==> forall g :: g in order ==> Bounded(g, values, limits, overflow).Ok?)
            && (r.Ok? ==> r.value == FlatMap(RowsOf(values, limits, overflow), order))
  {
    BoundedAllSucceeds(order, values, limits, overflow);
    if BoundedAll(order, values, limits, overflow).Ok? {
      BoundedAllConcatenates(order, values, limits, overflow);
    } else {
      var i :| 0 <= i < |order| && !Bounded(order[i], values, limits, overflow).Ok?;
      assert order[i] in order;
    }
  }

  /** Labels are what the sort compares. */
  lemma LabelsAreRanks(rows: seq<TagCost>)
    requires Distinct(Map(TagLabel, rows))
    ensures NoTies(TagRank, rows)
  {
  }

  /** Two iteration orders of the same map both fail or both succeed, with the same
      rows; in the same sequence when the limited rows carry unique labels. */
  lemma LimitTagsForgetsMapOrder(
    a: seq<TagGroup>, b: seq<TagGroup>, values: seq<TagCost>, keys: seq<TagKey>, overflow: string)
    requires RangesOver(a, values) && RangesOver(b, values)
    ensures var x, y := LimitedTags(a, values, keys, overflow), LimitedTags(b, values, keys, overflow);
            && (x.Ok? <==> y.Ok?)
            && (x.Ok? ==> Permutation(x.value, y.value))
            && (x.Ok? && Distinct(Map(TagLabel, x.value)) ==> x == y)
  {
    var limits := Limits(keys);
    BoundedAllIsFlatMap(a, values, limits, overflow);
    BoundedAllIsFlatMap(b, values, limits, overflow);
    assert forall g :: g in a <==> g in b;
    SameElementsPermute(a, b);
    FlatMapPermutes(RowsOf(values, limits, overflow), a, b);
    var x := LimitedTags(a, values, keys, overflow);
    if x.Ok? {
      var p, q := BoundedAll(a, values, limits, overflow).value, BoundedAll(b, values, limits, overflow).value;
      SortPermutes(TagRank, p);
      SortPermutes(TagRank, q);
      if Distinct(Map(TagLabel, x.value)) {
        MapPermutes(TagLabel, x.value, p);
        DistinctPermutes(Map(TagLabel, x.value), Map(TagLabel, p));
        LabelsAreRanks(p);
        SortForgetsOrder(TagRank, p, q);
      }
    }
  }

  // ------------------------------------- grouping rules out the clash errors

  lemma {:induction false} NoClashInGroup(g: TagGroup, current: TagCost, items: seq<TagCost>)
    requires GroupOf(current) == g && forall t :: t in items ==> GroupOf(t) == g
    ensures FlatMap(Clashes(current), items) == []
  {
    if items != [] {
      assert items[0] in items && forall t :: t in items[1..] ==> t in items;
      NoClashInGroup(g, current, items[1..]);
    }
  }

  /** A group of allowlisted rows with a currency can always be limited. */
  lemma GroupIsBounded(g: TagGroup, values: seq<TagCost>, limits: map<string, int>, overflow: string)
    requires LimitOf(limits, g.key) > 0 && forall v :: v in values ==> Proper(v.amount) && v.amount.currency != ""
    ensures Bounded(g, values, limits, overflow).Ok?
  {
    var group, limit := Filter(InTagGroup(g), values), LimitOf(limits, g.key);
    if |group| > limit {
      var kept, folded := Kept(TagSize(), group, limit), Folded(TagSize(), group, limit);
      LargestAreKept(TagMoney, TagName, group, limit);
      PermutationFacts(kept + folded, group);
      forall t | t in folded ensures GroupOf(t) == g && t in values {
        assert t in kept + folded;
        assert InTagGroup(g)(t);
      }
      NoClashInGroup(g, folded[0], folded);
    }
  }

  /** Rows with a currency are refused exactly when some key is not allowlisted:
      different currencies are never summed and never an error. */
  lemma TagsAreLimitedIffAllowlisted(order: seq<TagGroup>, values: seq<TagCost>, keys: seq<TagKey>, overflow: string)
    requires RangesOver(order, values) && forall v :: v in values ==> Proper(v.amount) && v.amount.currency != ""
    ensures LimitedTags(order, values, keys, overflow).Ok? <==> forall v :: v in values ==> Allowed(Limits(keys), v)
  {
    var limits := Limits(keys);
    if forall v :: v in values ==> Allowed(limits, v) {
      forall g | g in order ensures Bounded(g, values, limits, overflow).Ok? {
        var v :| v in values && GroupOf(v) == g;
        GroupIsBounded(g, values, limits, overflow);
      }
      BoundedAllIsFlatMap(order, values, limits, overflow);
    }
  }

  /** Limiting conserves every group's total, hence every currency's. */
  lemma GroupTotalIsConserved(g: TagGroup, values: seq<TagCost>, limits: map<string, int>, overflow: string, c: string)
    requires Bounded(g, values, limits, overflow).Ok? && forall v :: v in values ==> Proper(v.amount)
    ensures TotalIn(TagMoney, c, Bounded(g, values, limits, overflow).value)
         == TotalIn(TagMoney, c, Filter(InTagGroup(g), values))
    ensures forall x :: x in Bounded(g, values, limits, overflow).value ==> GroupOf(x) == g
  {
    var group := Filter(InTagGroup(g), values);
    ValuesAreLimited(group, LimitOf(limits, g.key), overflow);
    forall x | x in Bounded(g, values, limits, overflow).value ensures GroupOf(x) == g {
      LimitedMembers(group, LimitOf(limits, g.key), overflow, x);
      var v :| v in group && SameBoundary(x, v) && x.amount.currency == v.amount.currency;
      assert InTagGroup(g)(v);
      assert GroupOf(v) == g && GroupOf(x) == GroupOf(v);
    }
  }

  /** Every currency's total survives `limitTags`. */
  lemma TagTotalsAreConserved(
    order: seq<TagGroup>, values: seq<TagCost>, keys: seq<TagKey>, overflow: string, c: string)
    requires RangesOver(order, values) && forall v :: v in values ==> Proper(v.amount)
    requires LimitedTags(order, values, keys, overflow).Ok?
    ensures TotalIn(TagMoney, c, LimitedTags(order, values, keys, overflow).value) == TotalIn(TagMoney, c, values)
  {
    var limits := Limits(keys);
    var after := RowsOf(values, limits, overflow);
    var f := AmountIn(TagMoney, c);
    BoundedAllIsFlatMap(order, values, limits, overflow);
    forall g | g in order ensures Total(f, after(g)) == Total(f, Filter(HasKey(GroupOf, g), values)) {
      GroupTotalIsConserved(g, values, limits, overflow, c);
    }
    TotalsByGroup(f, after, order, GroupOf, values);
    var rows := BoundedAll(order, values, limits, overflow).value;
    SortPermutes(TagRank, rows);
    TotalPermutes(f, StableSort(TagRank, rows), rows);
  }

  // ------------------------------------------------ what limiting leaves

  function InSameGroup(t: TagCost): TagCost -> bool {
    (x: TagCost) =>
      && x.tagKey == t.tagKey && x.provider == t.provider && x.basis == t.basis && x.window == t.window
      && x.amount.currency == t.amount.currency
  }

  /** A row is an input row, or takes the place of some with the overflow label. */
  predicate Descends(x: TagCost, values: seq<TagCost>, overflow: string) {
    exists t :: && t in values && InSameGroup(t)(x) && x.target == t.target
                && (x == t || x.tagValue == overflow)
  }

  /** Of every key, provider, basis, window and currency, min(n, maxValues) of the n
      values come out; no money is lost; every row descends from the input. */
  ghost predicate TagsHeld(out: seq<TagCost>, values: seq<TagCost>, keys: seq<TagKey>, overflow: string) {
    && (forall c :: TotalIn(TagMoney, c, out) == TotalIn(TagMoney, c, values))
    && (forall x :: x in out ==> Descends(x, values, overflow))
    && (forall t, k :: t in values && k in keys && k.key == t.tagKey && Distinct(Map(KeyName, keys)) ==>
          Held(out, values, t, k.maxValues))
  }

  predicate Held(out: seq<TagCost>, values: seq<TagCost>, t: TagCost, limit: int) {
    var n := |Filter(InSameGroup(t), values)|;
    |Filter(InSameGroup(t), out)| == if n <= limit then n else limit
  }

  lemma SameGroupIsGroup(t: TagCost, s: seq<TagCost>)
    ensures Filter(InSameGroup(t), s) == Filter(InTagGroup(GroupOf(t)), s)
  {
    forall x | x in s ensures InSameGroup(t)(x) == InTagGroup(GroupOf(t))(x) {
      assert InSameGroup(t)(x) <==> GroupOf(x) == GroupOf(t);
    }
    FilterAgrees(InSameGroup(t), InTagGroup(GroupOf(t)), s);
  }

  lemma RowsOfMembers(order: seq<TagGroup>, values: seq<TagCost>, limits: map<string, int>, overflow: string)
    requires BoundedAll(order, values, limits, overflow).Ok? && forall v :: v in values ==> Proper(v.amount)
    ensures forall g, x :: g in order && x in RowsOf(values, limits, overflow)(g) ==>
              GroupOf(x) == g && Descends(x, values, overflow)
  {
    BoundedAllIsFlatMap(order, values, limits, overflow);
    forall g, x | g in order && x in RowsOf(values, limits, overflow)(g)
      ensures GroupOf(x) == g && Descends(x, values, overflow)
    {
      var group := Filter(InTagGroup(g), values);
      GroupTotalIsConserved(g, values, limits, overflow, "");
      LimitedMembers(group, LimitOf(limits, g.key), overflow, x);
      var t :| && t in group && SameBoundary(x, t) && x.target == t.target
               && x.amount.currency == t.amount.currency && (x == t || x.tagValue == overflow);
      assert t in values && InSameGroup(t)(x);
    }
  }

  /** Every configured key has its own limit. */
  lemma LimitsOfKeys(keys: seq<TagKey>)
    requires Distinct(Map(KeyName, keys))
    ensures forall name :: name in Limits(keys) <==> name in Map(KeyName, keys)
    ensures forall k :: k in keys ==> LimitOf(Limits(keys), k.key) == k.maxValues
  {
  }

  lemma GroupWithin(order: seq<TagGroup>, values: seq<TagCost>, limits: map<string, int>, overflow: string, g: TagGroup)
    requires BoundedAll(order, values, limits, overflow).Ok? && g in order
    requires forall v :: v in values ==> Proper(v.amount)
    ensures var n := |Filter(InTagGroup(g), values)|;
            |RowsOf(values, limits, overflow)(g)| == if n <= LimitOf(limits, g.key) then n else LimitOf(limits, g.key)
  {
    BoundedAllIsFlatMap(order, values, limits, overflow);
    assert Bounded(g, values, limits, overflow).Ok?;
    ValuesAreLimited(Filter(InTagGroup(g), values), LimitOf(limits, g.key), overflow);
  }

  lemma GroupOfRows(
    order: seq<TagGroup>, values: seq<TagCost>, limits: map<string, int>, overflow: string, g: TagGroup)
    requires BoundedAll(order, values, limits, overflow).Ok? && Distinct(order) && g in order
    requires forall v :: v in values ==> Proper(v.amount)
    ensures Filter(InTagGroup(g), BoundedAll(order, values, limits, overflow).value)
         == RowsOf(values, limits, overflow)(g)
  {
    var rows := RowsOf(values, limits, overflow);
    BoundedAllIsFlatMap(order, values, limits, overflow);
    forall k, x | k in order && x in rows(k) ensures GroupOf(x) == k {
      assert Bounded(k, values, limits, overflow).Ok?;
      GroupTotalIsConserved(k, values, limits, overflow, "");
    }
    GroupOfFlatMap(order, GroupOf, rows, g);
  }

  lemma RowsOfGroup(
    order: seq<TagGroup>, values: seq<TagCost>, limits: map<string, int>, overflow: string, t: TagCost)
    requires BoundedAll(order, values, limits, overflow).Ok? && Distinct(order) && GroupOf(t) in order
    requires forall v :: v in values ==> Proper(v.amount)
    ensures Held(BoundedAll(order, values, limits, overflow).value, values, t, LimitOf(limits, t.tagKey))
  {
    var out := BoundedAll(order, values, limits, overflow).value;
    GroupOfRows(order, values, limits, overflow, GroupOf(t));
    GroupWithin(order, values, limits, overflow, GroupOf(t));
    SameGroupIsGroup(t, values);
    SameGroupIsGroup(t, out);
  }

  /** `limitTags` neither loses nor invents. */
  lemma TagsAreHeld(order: seq<TagGroup>, values: seq<TagCost>, keys: seq<TagKey>, overflow: string)
    requires RangesOver(order, values) && LimitedTags(order, values, keys, overflow).Ok?
    requires forall v :: v in values ==> Proper(v.amount)
    ensures TagsHeld(LimitedTags(order, values, keys, overflow).value, values, keys, overflow)
  {
    var limits, out := Limits(keys), LimitedTags(order, values, keys, overflow).value;
    var rows := BoundedAll(order, values, limits, overflow).value;
    SortPermutes(TagRank, rows);
    PermutationFacts(out, rows);
    forall c ensures TotalIn(TagMoney, c, out) == TotalIn(TagMoney, c, values) {
      TagTotalsAreConserved(order, values, keys, overflow, c);
    }
    forall x | x in out ensures Descends(x, values, overflow) {
      BoundedAllIsFlatMap(order, values, limits, overflow);
      RowsOfMembers(order, values, limits, overflow);
      InFlatMap(RowsOf(values, limits, overflow), order, x);
    }
    forall t, k | t in values && k in keys && k.key == t.tagKey && Distinct(Map(KeyName, keys))
      ensures Held(out, values, t, k.maxValues)
    {
      LimitsOfKeys(keys);
      RowsOfGroup(order, values, limits, overflow, t);
      FilterPermutes(InSameGroup(t), out, rows);
      PermutationFacts(Filter(InSameGroup(t), out), Filter(InSameGroup(t), rows));
    }
  }

  lemma LabelsOfGroup(g: TagGroup, values: seq<TagCost>, limits: map<string, int>, overflow: string)
    requires Distinct(Map(TagLabel, values)) && Bounded(g, values, limits, overflow).Ok?
    requires forall v :: v in values ==> Proper(v.amount) && v.tagValue != overflow
    ensures Distinct(Map(TagLabel, Bounded(g, values, limits, overflow).value))
    ensures forall x :: x in Bounded(g, values, limits, overflow).value ==> GroupOf(x) == g
  {
    LabelsOfPart(TagLabel, InTagGroup(g), values);
    FreeOverflowLabelKeepsTagLabels(Filter(InTagGroup(g), values), LimitOf(limits, g.key), overflow);
    GroupTotalIsConserved(g, values, limits, overflow, "");
  }

  /** Rows of other groups carry other labels. */
  lemma LabelsJoin(before: seq<TagCost>, last: seq<TagCost>, groups: seq<TagGroup>, g: TagGroup)
    requires Distinct(Map(TagLabel, before)) && Distinct(Map(TagLabel, last)) && g !in groups
    requires (forall x :: x in before ==> GroupOf(x) in groups) && forall x :: x in last ==> GroupOf(x) == g
    ensures Distinct(Map(TagLabel, before + last))
  {
    MapAppend(TagLabel, before, last);
    forall i, j | 0 <= i < |before| && 0 <= j < |last| ensures Map(TagLabel, before)[i] != Map(TagLabel, last)[j] {
      assert before[i] in before && last[j] in last;
      assert GroupOf(TagLabel(before[i])) in groups && GroupOf(TagLabel(last[j])) == g;
    }
    DistinctAppend(Map(TagLabel, before), Map(TagLabel, last));
  }

  lemma {:induction false} LabelsOfGroups(
    order: seq<TagGroup>, values: seq<TagCost>, limits: map<string, int>, overflow: string)
    requires Distinct(order) && Distinct(Map(TagLabel, values)) && BoundedAll(order, values, limits, overflow).Ok?
    requires forall v :: v in values ==> Proper(v.amount) && v.tagValue != overflow
    ensures var rows := BoundedAll(order, values, limits, overflow).value;
            Distinct(Map(TagLabel, rows)) && forall x :: x in rows ==> GroupOf(x) in order
  {
    if order != [] {
      var n := |order| - 1;
      var before := BoundedAll(order[..n], values, limits, overflow).value;
      var last := Bounded(order[n], values, limits, overflow).value;
      LabelsOfGroups(order[..n], values, limits, overflow);
      LabelsOfGroup(order[n], values, limits, overflow);
      LabelsJoin(before, last, order[..n], order[n]);
    }
  }

  /** With an overflow label that no row uses, unique rows stay unique, and the
      result is one and the same for every iteration order. */
  lemma LimitTagsIsDeterministic(
    a: seq<TagGroup>, b: seq<TagGroup>, values: seq<TagCost>, keys: seq<TagKey>, overflow: string)
    requires RangesOver(a, values) && RangesOver(b, values) && Distinct(Map(TagLabel, values))
    requires forall v :: v in values ==> Proper(v.amount) && v.amount.currency != "" && v.tagValue != overflow
    ensures LimitedTags(a, values, keys, overflow) == LimitedTags(b, values, keys, overflow)
    ensures var r := LimitedTags(a, values, keys, overflow); r.Ok? ==> Distinct(Map(TagLabel, r.value))
  {
    var r := LimitedTags(a, values, keys, overflow);
    TagsAreLimitedIffAllowlisted(a, values, keys, overflow);
    TagsAreLimitedIffAllowlisted(b, values, keys, overflow);
    if r.Ok? {
      var rows := BoundedAll(a, values, Limits(keys), overflow).value;
      LabelsOfGroups(a, values, Limits(keys), overflow);
      SortPermutes(TagRank, rows);
      MapPermutes(TagLabel, r.value, rows);
      DistinctPermutes(Map(TagLabel, rows), Map(TagLabel, r.value));
      LimitTagsForgetsMapOrder(a, b, values, keys, overflow);
    }
  }
}
