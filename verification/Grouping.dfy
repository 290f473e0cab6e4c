/** Group-by with a map of lists, as the limiters and the aggregation build it. */
module Grouping {
  import opened Bags

  function Longer<K, T>(groups: map<K, seq<T>>, k: K, x: T): map<K, seq<T>> {
    groups[k := (if k in groups then groups[k] else []) + [x]]
  }

  /** The groups map after a list of values: one entry for every key met, holding
      that key's values in their order. */
  ghost predicate Grouped<K(!new), T>(key: T -> K, groups: map<K, seq<T>>, s: seq<T>) {
    && (forall k :: k in groups <==> exists x :: x in s && key(x) == k)
    && (forall k :: k in groups ==> groups[k] == Filter(HasKey(key, k), s))
  }

  function HasKey<K(==), T>(key: T -> K, k: K): T -> bool { x => key(x) == k }

  lemma GroupedSnoc<K(!new), T>(key: T -> K, groups: map<K, seq<T>>, s: seq<T>, x: T)
    requires Grouped(key, groups, s)
    ensures Grouped(key, Longer(groups, key(x), x), s + [x])
  {
    var longer := Longer(groups, key(x), x);
    forall k ensures k in longer <==> exists y :: y in s + [x] && key(y) == k {
      if k == key(x) {
        assert x in s + [x];
      } else if k in longer {
        var y :| y in s && key(y) == k;
        assert y in s + [x];
      }
    }
    forall k | k in longer ensures longer[k] == Filter(HasKey(key, k), s + [x]) {
      FilterAppend(HasKey(key, k), s, [x]);
      if k !in groups {
        FilterNone(HasKey(key, k), s);
      }
    }
  }

  /** Go ranges over a map in any order. */
  method Range<K(!new), V>(m: map<K, V>) returns (keys: seq<K>)
    ensures Distinct(keys) && forall k :: k in keys <==> k in m
  {
    keys := [];
    var left := m.Keys;
    while left != {}
      invariant Distinct(keys) && left <= m.Keys
      invariant forall k :: k in keys <==> k in m && k !in left
      decreases left
    {
      var k :| k in left;
      DistinctAppend(keys, [k]);
      assert k !in keys;
      keys, left := keys + [k], left - {k};
    }
  }

  /** An order lists every key of a sequence, each once. */
  ghost predicate Lists<K, T>(order: seq<K>, key: T -> K, s: seq<T>) {
    Distinct(order) && forall x :: x in s ==> key(x) in order
  }

  function Members<K(==), T>(key: T -> K, s: seq<T>): K -> seq<T> { k => Filter(HasKey(key, k), s) }

  /** Groups taken together are the whole. */
  lemma {:induction false} GroupsPartition<K, T>(order: seq<K>, key: T -> K, s: seq<T>)
    requires Lists(order, key, s)
    ensures Permutation(FlatMap(Members(key, s), order), s)
    decreases |order|
  {
    if s != [] {
      assert s[0] in s;
      assert order != [];
    }
    if order != [] {
      var others := (x: T) => key(x) != order[0];
      var rest := Filter(others, s);
      FilterSplits(HasKey(key, order[0]), others, s);
      forall x | x in rest ensures key(x) in order[1..] {
        assert key(x) in order && key(x) != order[0];
      }
      GroupsPartition(order[1..], key, rest);
      forall k | k in order[1..] ensures Members(key, rest)(k) == Members(key, s)(k) {
        FilterTwice(HasKey(key, k), others, HasKey(key, k), s);
      }
      FlatMapAgrees(Members(key, rest), Members(key, s), order[1..]);
    }
  }

  lemma {:induction false} FlatMapAgrees<T, U>(f: T -> seq<U>, g: T -> seq<U>, s: seq<T>)
    requires forall x :: x in s ==> f(x) == g(x)
    ensures FlatMap(f, s) == FlatMap(g, s)
  {
    if s != [] {
      assert forall x :: x in s[1..] ==> x in s;
      FlatMapAgrees(f, g, s[1..]);
    }
  }

  lemma {:induction false} TotalsAgree<T, U>(f: U -> real, a: T -> seq<U>, b: T -> seq<U>, s: seq<T>)
    requires forall x :: x in s ==> Total(f, a(x)) == Total(f, b(x))
    ensures Total(f, FlatMap(a, s)) == Total(f, FlatMap(b, s))
  {
    if s != [] {
      assert forall x :: x in s[1..] ==> x in s;
      TotalsAgree(f, a, b, s[1..]);
      TotalAppend(f, a(s[0]), FlatMap(a, s[1..]));
      TotalAppend(f, b(s[0]), FlatMap(b, s[1..]));
    }
  }

  /** What conserves every group's total conserves the total. */
  lemma TotalsByGroup<K, T>(f: T -> real, after: K -> seq<T>, order: seq<K>, key: T -> K, s: seq<T>)
    requires Lists(order, key, s)
    requires forall k :: k in order ==> Total(f, after(k)) == Total(f, Filter(HasKey(key, k), s))
    ensures Total(f, FlatMap(after, order)) == Total(f, s)
  {
    TotalsAgree(f, after, Members(key, s), order);
    GroupsPartition(order, key, s);
    TotalPermutes(f, FlatMap(Members(key, s), order), s);
  }

  /** One group of a concatenation of groups. */
  lemma {:induction false} GroupOfFlatMap<K, T>(order: seq<K>, key: T -> K, after: K -> seq<T>, g: K)
    requires Distinct(order) && forall k, x :: k in order && x in after(k) ==> key(x) == k
    ensures Filter(HasKey(key, g), FlatMap(after, order)) == if g in order then after(g) else []
  {
    if order != [] {
      var first, rest := after(order[0]), order[1..];
      assert order == [order[0]] + rest && order[0] !in rest;
      GroupOfFlatMap(rest, key, after, g);
      FilterAppend(HasKey(key, g), first, FlatMap(after, rest));
      if g == order[0] {
        FilterAll(HasKey(key, g), first);
        assert first + [] == first;
      } else {
        FilterNone(HasKey(key, g), first);
        assert [] + Filter(HasKey(key, g), FlatMap(after, rest)) == Filter(HasKey(key, g), FlatMap(after, rest));
      }
    }
  }
}
