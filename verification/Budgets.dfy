/** Configuration checks that bound the number of series before anything runs. */
module Budgets {
  import opened Arithmetic
  import opened Bags
  import opened Domain
  import Text

  const MAX_TAG_KEYS := 20
  const MAX_TAG_VALUES := 500

  datatype TagKey = TagKey(key: string, maxValues: int)

  /** The part of a target's configuration that the series budgets look at. */
  datatype TargetConfig = TargetConfig(
    tags: bool, keys: seq<TagKey>, cur: bool, tagColumns: seq<string>, costExplorer: bool)

  /** The collection-wide settings. */
  datatype Settings = Settings(bases: seq<string>, tagSeriesLimit: int, curSeriesLimit: int, maxCurrencies: int)

  function KeyName(k: TagKey): string { k.key }
  function KeyValues(k: TagKey): int { k.maxValues }

  function TagBudget(keys: seq<TagKey>, bases: int, currencies: int): int {
    Sum(KeyValues, keys) * 2 * Max(1, bases) * Max(1, currencies)
  }

  predicate ValidKey(k: TagKey) {
    k.key != "" && k.key == Text.TrimSpace(k.key) && 0 < k.maxValues <= MAX_TAG_VALUES
  }

  ghost predicate ValidTags(target: TargetConfig, s: Settings) {
    target.tags ==>
      && (target.cur || target.costExplorer)
      && 0 < |target.keys| <= MAX_TAG_KEYS
      && (forall k :: k in target.keys ==> ValidKey(k))
      && Distinct(Map(KeyName, target.keys))
      && (target.cur ==> forall name :: name in Map(KeyName, target.keys) <==> name in target.tagColumns)
      && TagBudget(target.keys, |s.bases|, if target.cur then s.maxCurrencies else 1) <= s.tagSeriesLimit
  }

  ghost predicate ValidCURBudget(target: TargetConfig, s: Settings) {
    target.cur ==>
      2 * Max(1, |s.bases|) * Max(1, s.maxCurrencies)
      + (if target.tags then TagBudget(target.keys, |s.bases|, s.maxCurrencies) else 0) <= s.curSeriesLimit
  }

  ghost predicate ValidBases(bases: seq<string>) {
    bases != [] && Distinct(bases) && forall b :: b in bases ==> ValidBasis(b)
  }

  ghost predicate Validated(target: TargetConfig, s: Settings) {
    ValidTags(target, s) && ValidCURBudget(target, s) && ValidBases(s.bases) && 0 < s.maxCurrencies <= 10
  }

  /** `tagSeriesBudget`. */
  method TagSeriesBudget(keys: seq<TagKey>, bases: int, currencies: int) returns (budget: int)
    ensures budget == TagBudget(keys, bases, currencies)
  {
    var values := 0;
    for i := 0 to |keys|
      invariant values == Sum(KeyValues, keys[..i])
    {
      SumSnoc(KeyValues, keys, i);
      values := values + keys[i].maxValues;
    }
    assert keys[..|keys|] == keys;
    budget := values * 2 * Max(1, bases) * Max(1, currencies);
  }

  /** `validateUniqueStrings` without a pattern, with the membership test that
      precedes it: the configured cost bases. */
  method ValidateBases(bases: seq<string>) returns (ok: bool)
    ensures ok <==> ValidBases(bases)
  {
    if |bases| == 0 {
      return false;
    }
    var seen: set<string> := {};
    for i := 0 to |bases|
      invariant forall b :: b in seen <==> b in bases[..i]
      invariant Distinct(bases[..i]) && forall b :: b in bases[..i] ==> ValidBasis(b)
    {
      assert bases[i] in bases && bases[..i + 1] == bases[..i] + [bases[i]];
      if !ValidBasis(bases[i]) {
        return false;
      }
      if bases[i] in seen {
        var k :| 0 <= k < i && bases[k] == bases[i];
        return false;
      }
      seen := seen + {bases[i]};
    }
    assert bases[..|bases|] == bases;
    ok := true;
  }

  /** Two sets of equal size, one inside the other, are the same set. */
  lemma SameSizeSubset(a: set<string>, b: set<string>)
    requires a <= b
    ensures |a| == |b| <==> a == b
  {
    assert b == a + (b - a);
  }

  method CollectColumns(tagColumns: seq<string>) returns (columns: set<string>)
    ensures forall c :: c in columns <==> c in tagColumns
  {
    columns := {};
    for i := 0 to |tagColumns|
      invariant forall c :: c in columns <==> c in tagColumns[..i]
    {
      columns := columns + {tagColumns[i]};
    }
    assert tagColumns[..|tagColumns|] == tagColumns;
  }

  ghost predicate KeysFine(keys: seq<TagKey>, cur: bool, columns: set<string>) {
    && (forall k :: k in keys ==> ValidKey(k))
    && Distinct(Map(KeyName, keys))
    && (cur ==> forall k :: k in keys ==> k.key in columns)
  }

  lemma KeysFineSnoc(keys: seq<TagKey>, k: TagKey, cur: bool, columns: set<string>)
    ensures KeysFine(keys + [k], cur, columns) <==>
            && KeysFine(keys, cur, columns) && ValidKey(k)
            && k.key !in Map(KeyName, keys) && (cur ==> k.key in columns)
  {
    MapAppend(KeyName, keys, [k]);
    assert Map(KeyName, [k]) == [k.key];
    DistinctAppend(Map(KeyName, keys), [k.key]);
    assert k in keys + [k] && forall x :: x in keys ==> x in keys + [k];
  }

  lemma KeysFinePrefix(keys: seq<TagKey>, i: nat, cur: bool, columns: set<string>)
    requires i <= |keys| && KeysFine(keys, cur, columns)
    ensures KeysFine(keys[..i], cur, columns)
    decreases |keys| - i
  {
  }

  /** The loop of `validateTags` over the configured keys. */
  method ValidateKeys(keys: seq<TagKey>, cur: bool, columns: set<string>) returns (ok: bool, seen: set<string>)
    ensures ok <==> KeysFine(keys, cur, columns)
    ensures ok ==> forall name :: name in seen <==> name in Map(KeyName, keys)
  {
    seen := {};
    for i := 0 to |keys|
      invariant KeysFine(keys[..i], cur, columns)
      invariant forall name :: name in seen <==> name in Map(KeyName, keys[..i])
    {
      var key := keys[i];
      assert keys[..i + 1] == keys[..i] + [key];
      KeysFineSnoc(keys[..i], key, cur, columns);
      MapAppend(KeyName, keys[..i], [key]);
      if KeysFine(keys, cur, columns) {
        KeysFinePrefix(keys, i + 1, cur, columns);
      }
      if key.key == "" || key.key != Text.TrimSpace(key.key) || key.maxValues <= 0 || key.maxValues > MAX_TAG_VALUES
         || key.key in seen || (cur && key.key !in columns)
      {
        return false, seen;
      }
      seen := seen + {key.key};
    }
    assert keys[..|keys|] == keys;
    ok := true;
  }

  /** `validateTags`. */
  method ValidateTags(target: TargetConfig, s: Settings) returns (ok: bool)
    ensures ok <==> ValidTags(target, s)
  {
    if !target.tags {
      return true;
    }
    if (!target.cur && !target.costExplorer) || |target.keys| == 0 || |target.keys| > MAX_TAG_KEYS {
      return false;
    }
    var columns := CollectColumns(target.tagColumns);
    var fine, seen := ValidateKeys(target.keys, target.cur, columns);
    ghost var names := Map(KeyName, target.keys);
    assert forall k :: 0 <= k < |names| ==> target.keys[k] in target.keys && names[k] == target.keys[k].key;
    if !fine {
      return false;
    }
    if target.cur {
      assert seen <= columns;
      SameSizeSubset(seen, columns);
      if |columns| != |seen| {
        return false;
      }
    }
    var currencies := 1;
    if target.cur {
      currencies := s.maxCurrencies;
    }
    var budget := TagSeriesBudget(target.keys, |s.bases|, currencies);
    ok := budget <= s.tagSeriesLimit;
  }

  /** `validateCURSeriesBudget`. */
  method ValidateCURSeriesBudget(target: TargetConfig, s: Settings) returns (ok: bool)
    ensures ok <==> ValidCURBudget(target, s)
  {
    if !target.cur {
      return true;
    }
    var required := 2 * Max(1, |s.bases|) * Max(1, s.maxCurrencies);
    if target.tags {
      var budget := TagSeriesBudget(target.keys, |s.bases|, s.maxCurrencies);
      required := required + budget;
    }
    ok := required <= s.curSeriesLimit;
  }
}
