/** The tag limiter: the same folding, without a reserved overflow label. */
module TagLimits {
  import opened Bags
  import opened Domain
  import opened Ranking
  import opened Limiters
  import Text

  function TagMoney(t: TagCost): Money { t.amount }
  function TagName(t: TagCost): string { t.tagValue }
  function TagSize(): TagCost -> Rank { BySize(TagMoney, TagName) }

  /** The labels a tag cost is exported under. */
  function TagLabel(t: TagCost): TagCost { t.(amount := Money(0.0, t.amount.currency)) }

  predicate SameBoundary(a: TagCost, b: TagCost) {
    a.provider == b.provider && a.basis == b.basis && a.window == b.window && a.tagKey == b.tagKey
  }

  /** Why an item may not be folded with another. */
  function Clashes(current: TagCost): TagCost -> seq<Error> {
    (t: TagCost) => if t.amount.currency != current.amount.currency then [MixedCurrency]
         else if !SameBoundary(t, current) then [CrossedBoundary]
         else []
  }

  /** `LimitValues`. */
  function LimitValues(values: seq<TagCost>, limit: int, overflow: string): Result<seq<TagCost>, Error> {
    if |values| <= limit then Ok(values)
    else if limit <= 0 then Err(NonPositiveLimit)
    else
      var folded := Folded(TagSize(), values, limit);
      var clashes := FlatMap(Clashes(folded[0]), folded);
      var money := NewMoney(Total(Amount(TagMoney), folded), folded[0].amount.currency);
      if clashes != [] then Err(clashes[0])
      else if money.Err? then Err(InvalidAmount)
      else Ok(Kept(TagSize(), values, limit) + [folded[0].(tagValue := overflow, amount := money.value)])
  }

  lemma {:induction false} ClashesIff(current: TagCost, items: seq<TagCost>)
    ensures FlatMap(Clashes(current), items) == [] <==>
            forall t :: t in items ==> t.amount.currency == current.amount.currency && SameBoundary(t, current)
  {
    if items != [] {
      ClashesIff(current, items[1..]);
      assert items == [items[0]] + items[1..];
    }
  }

  /** Values with a currency are limited if and only if they fit, or the limit is
      positive and what must be folded shares one currency and boundary. */
  lemma LimitTagsSucceedsIff(values: seq<TagCost>, limit: int, overflow: string)
    requires forall v :: v in values ==> Proper(v.amount) && v.amount.currency != ""
    ensures LimitValues(values, limit, overflow).Ok? <==>
            || |values| <= limit
            || (limit > 0 && forall t :: t in Folded(TagSize(), values, limit) ==>
                  && t.amount.currency == Folded(TagSize(), values, limit)[0].amount.currency
                  && SameBoundary(t, Folded(TagSize(), values, limit)[0]))
  {
    if 0 < limit < |values| {
      var kept, folded := Kept(TagSize(), values, limit), Folded(TagSize(), values, limit);
      LargestAreKept(TagMoney, TagName, values, limit);
      PermutationFacts(kept + folded, values);
      assert folded[0] in kept + folded;
      ClashesIff(folded[0], folded);
    }
  }

  lemma FoldedFacts(values: seq<TagCost>, limit: int, overflow: string)
    requires LimitValues(values, limit, overflow).Ok? && |values| > limit
    requires forall v :: v in values ==> Proper(v.amount)
    ensures var r, folded := LimitValues(values, limit, overflow).value, Folded(TagSize(), values, limit);
            && Permutation(Kept(TagSize(), values, limit) + folded, values)
            && r == Kept(TagSize(), values, limit) + [r[limit - 1]]
            && r[limit - 1].amount == Money(Total(Amount(TagMoney), folded), folded[0].amount.currency)
            && r[limit - 1] == folded[0].(tagValue := overflow, amount := r[limit - 1].amount)
            && forall d :: d in folded ==> d.amount.currency == folded[0].amount.currency && SameBoundary(d, folded[0])
  {
    var kept, folded := Kept(TagSize(), values, limit), Folded(TagSize(), values, limit);
    LargestAreKept(TagMoney, TagName, values, limit);
    ClashesIff(folded[0], folded);
    PermutationFacts(kept + folded, values);
    assert folded[0] in kept + folded;
  }

  predicate TagAhead(a: TagCost, b: TagCost) {
    || a.amount.amount > b.amount.amount
    || (a.amount.amount == b.amount.amount && !Text.Less(b.tagValue, a.tagValue))
  }

  /** All but the last of `after` were kept, the first of `before` by size; the others
      share currency and boundary, and the last stands for them: the first of them,
      with the overflow label. */
  ghost predicate Folds(after: seq<TagCost>, folded: seq<TagCost>, before: seq<TagCost>, overflow: string) {
    && after != [] && folded != []
    && var n := |after| - 1;
       && Permutation(after[..n] + folded, before)
       && (forall i, j :: 0 <= i < j < |before| ==>
             && |after[..n] + folded| == |before|
             && TagAhead((after[..n] + folded)[i], (after[..n] + folded)[j]))
       && (forall d :: d in folded ==> d.amount.currency == after[n].amount.currency && SameBoundary(d, after[n]))
       && after[n] == folded[0].(tagValue := overflow, amount := after[n].amount)
  }

  /** n values yield min(n, limit) values with the same totals; only the last by size
      are folded, and these share currency and boundary. */
  lemma ValuesAreLimited(values: seq<TagCost>, limit: int, overflow: string)
    requires LimitValues(values, limit, overflow).Ok? && forall v :: v in values ==> Proper(v.amount)
    ensures var r := LimitValues(values, limit, overflow).value;
            && |r| == (if |values| <= limit then |values| else limit)
            && (forall c :: TotalIn(TagMoney, c, r) == TotalIn(TagMoney, c, values))
            && (|values| <= limit ==> r == values)
            && (|values| > limit ==> exists folded :: Folds(r, folded, values, overflow))
  {
    if |values| > limit {
      var r, folded := LimitValues(values, limit, overflow).value, Folded(TagSize(), values, limit);
      FoldedFacts(values, limit, overflow);
      forall c ensures TotalIn(TagMoney, c, r) == TotalIn(TagMoney, c, values) {
        LimitConserves(TagMoney, TagName, values, limit, r[limit - 1], c);
      }
      TagsDescend(values, limit);
      MakeFolds(Kept(TagSize(), values, limit), r[limit - 1], folded, values, overflow);
    }
  }

  lemma TagsDescend(values: seq<TagCost>, limit: int)
    requires 0 < limit < |values|
    ensures var all := Kept(TagSize(), values, limit) + Folded(TagSize(), values, limit);
            forall i, j :: 0 <= i < j < |all| ==> TagAhead(all[i], all[j])
  {
    var all := Kept(TagSize(), values, limit) + Folded(TagSize(), values, limit);
    LargestAreKept(TagMoney, TagName, values, limit);
    forall i, j | 0 <= i < j < |all| ensures TagAhead(all[i], all[j]) {
      assert Ahead(TagMoney, TagName, all[i], all[j]);
    }
  }

  lemma MakeFolds(kept: seq<TagCost>, last: TagCost, folded: seq<TagCost>, before: seq<TagCost>, overflow: string)
    requires folded != [] && Permutation(kept + folded, before)
    requires forall i, j :: 0 <= i < j < |kept + folded| ==> TagAhead((kept + folded)[i], (kept + folded)[j])
    requires forall d :: d in folded ==> d.amount.currency == last.amount.currency && SameBoundary(d, last)
    requires last == folded[0].(tagValue := overflow, amount := last.amount)
    ensures Folds(kept + [last], folded, before, overflow)
  {
    var after := kept + [last];
    PermutationFacts(kept + folded, before);
    assert after[..|after| - 1] == kept;
  }

  /** Every output value comes from an input value; only its tag value and amount
      may be new, and then the tag value is the overflow label. */
  lemma LimitedMembers(values: seq<TagCost>, limit: int, overflow: string, x: TagCost)
    requires LimitValues(values, limit, overflow).Ok? && x in LimitValues(values, limit, overflow).value
    requires forall v :: v in values ==> Proper(v.amount)
    ensures exists v :: && v in values && SameBoundary(x, v) && x.target == v.target
                        && x.amount.currency == v.amount.currency && (x == v || x.tagValue == overflow)
  {
    if |values| > limit {
      var kept, folded := Kept(TagSize(), values, limit), Folded(TagSize(), values, limit);
      LargestAreKept(TagMoney, TagName, values, limit);
      PermutationFacts(kept + folded, values);
      assert folded[0] in kept + folded;
      if x in kept {
        assert x in kept + folded;
      } else {
        assert SameBoundary(x, folded[0]) && x.tagValue == overflow;
      }
    }
  }

  /** Unique labels stay unique exactly when no kept value already carries the
      label that the overflow takes. */
  lemma LimitKeepsTagLabelsIff(values: seq<TagCost>, limit: int, overflow: string)
    requires LimitValues(values, limit, overflow).Ok? && Distinct(Map(TagLabel, values))
    requires forall v :: v in values ==> Proper(v.amount)
    ensures var r := LimitValues(values, limit, overflow).value;
            Distinct(Map(TagLabel, r)) <==>
            |values| <= limit
            || forall k :: k in Kept(TagSize(), values, limit) ==>
                 TagLabel(k) != TagLabel(Folded(TagSize(), values, limit)[0]).(tagValue := overflow)
  {
    if |values| > limit {
      var kept, folded := Kept(TagSize(), values, limit), Folded(TagSize(), values, limit);
      var r := LimitValues(values, limit, overflow).value;
      LargestAreKept(TagMoney, TagName, values, limit);
      PermutationFacts(kept + folded, values);
      assert folded[0] in kept + folded;
      LimitKeepsLabels(TagLabel, kept, folded, values, r[limit - 1]);
      assert TagLabel(r[limit - 1]) == TagLabel(folded[0]).(tagValue := overflow);
    }
  }

  /** In particular when no value at all is called like the overflow. */
  lemma FreeOverflowLabelKeepsTagLabels(values: seq<TagCost>, limit: int, overflow: string)
    requires LimitValues(values, limit, overflow).Ok? && Distinct(Map(TagLabel, values))
    requires forall v :: v in values ==> Proper(v.amount) && v.tagValue != overflow
    ensures Distinct(Map(TagLabel, LimitValues(values, limit, overflow).value))
  {
    LimitKeepsTagLabelsIff(values, limit, overflow);
    if |values| > limit {
      var kept, folded := Kept(TagSize(), values, limit), Folded(TagSize(), values, limit);
      LargestAreKept(TagMoney, TagName, values, limit);
      PermutationFacts(kept + folded, values);
      forall k | k in kept ensures TagLabel(k) != TagLabel(folded[0]).(tagValue := overflow) {
        assert k in kept + folded;
        assert TagLabel(k).tagValue != overflow;
      }
    }
  }

  function Tagged(value: string, amount: real): TagCost {
    TagCost("t", COST_EXPLORER, UNBLENDED, DAILY, "team", value, Money(amount, "USD"))
  }

  lemma SizeOf(t: TagCost)
    ensures TagSize()(t) == [Largest(t.amount.amount), S(t.tagValue)] && Amount(TagMoney)(t) == t.amount.amount
  {
    assert TagMoney(t) == t.amount && TagName(t) == t.tagValue;
  }

  /** Of two values the larger is ranked first. */
  lemma LargerFirst(a: TagCost, rest: seq<TagCost>)
    requires rest != [] && a.amount.amount > rest[0].amount.amount
    ensures Insert(TagSize(), a, rest) == [a] + rest
  {
    SizeOf(a);
    SizeOf(rest[0]);
  }

  /** A large value that is itself called "other" ends up beside the overflow. */
  lemma OverflowLabelCanCollide()
    ensures var values := [Tagged("other", 3.0), Tagged("a", 2.0), Tagged("b", 1.0)];
            && Distinct(Map(TagLabel, values))
            && LimitValues(values, 2, "other") == Ok([Tagged("other", 3.0), Tagged("other", 3.0)])
  {
    var first, second, third := Tagged("other", 3.0), Tagged("a", 2.0), Tagged("b", 1.0);
    var values := [first, second, third];
    assert values[1..] == [second, third] && [second, third][1..] == [third] && [third][1..] == [];
    LargerFirst(second, [third]);
    LargerFirst(first, [second, third]);
    assert StableSort(TagSize(), [third]) == [third];
    assert StableSort(TagSize(), [second, third]) == [second, third];
    var folded := Folded(TagSize(), values, 2);
    assert folded == [second, third];
    FlatMapOfTwo(Clashes(second), second, third);
    SizeOf(second);
    SizeOf(third);
    TotalOfTwo(Amount(TagMoney), second, third);
    assert Text.TrimSpace("USD") == "USD";
    assert Kept(TagSize(), values, 2) == [first];
    assert second.(tagValue := "other", amount := Money(3.0, "USD")) == first;
    assert NewMoney(3.0, "USD") == Ok(Money(3.0, "USD"));
    assert [first] + [first] == [first, first];
    var labels := Map(TagLabel, values);
    assert labels[0].tagValue == "other" && labels[1].tagValue == "a" && labels[2].tagValue == "b";
  }

  /** The first element that contributes anything contributes the first value. */
  lemma FirstValue<T, U>(f: T -> seq<U>, s: seq<T>, i: nat)
    requires i < |s| && FlatMap(f, s[..i]) == []
    ensures FlatMap(f, s[..i + 1]) == f(s[i])
    ensures f(s[i]) != [] ==> FlatMap(f, s) != [] && FlatMap(f, s)[0] == f(s[i])[0]
  {
    var head, tail := s[..i + 1], s[i + 1..];
    FlatMapSnoc(f, s, i);
    assert [] + f(s[i]) == f(s[i]);
    FlatMapAppend(f, head, tail);
    assert head + tail == s;
  }

  /** `LimitValues`: the loop checks and adds up what is folded. */
  method LimitTagValues(values: seq<TagCost>, limit: int, overflow: string) returns (r: Result<seq<TagCost>, Error>)
    ensures r == LimitValues(values, limit, overflow)
  {
    if |values| <= limit {
      return Ok(values);
    }
    var ranked := StableSort(TagSize(), values);
    var keep := limit - 1;
    if keep < 0 {
      return Err(NonPositiveLimit);
    }
    var folded := ranked[keep..];
    var current := ranked[keep];
    var total := 0.0;
    for i := 0 to |folded|
      invariant total == Total(Amount(TagMoney), folded[..i])
      invariant FlatMap(Clashes(current), folded[..i]) == []
    {
      var item := folded[i];
      FirstValue(Clashes(current), folded, i);
      if item.amount.currency != current.amount.currency {
        return Err(MixedCurrency);
      }
      if !SameBoundary(item, current) {
        return Err(CrossedBoundary);
      }
      TotalSnoc(Amount(TagMoney), folded, i);
      SizeOf(item);
      total := total + item.amount.amount;
    }
    assert folded[..|folded|] == folded;
    var amount := NewMoney(total, current.amount.currency);
    if amount.Err? {
      return Err(InvalidAmount);
    }
    current := current.(tagValue := overflow, amount := amount.value);
    r := Ok(ranked[..keep] + [current]);
  }
}
