/** Sequences seen as bags: what survives a change of order. */
module Bags {

  function Map<T, U>(f: T -> U, s: seq<T>): (r: seq<U>)
    ensures |r| == |s|
    ensures forall i :: 0 <= i < |s| ==> r[i] == f(s[i])
  {
    seq(|s|, i requires 0 <= i < |s| => f(s[i]))
  }

  function FlatMap<T, U>(f: T -> seq<U>, s: seq<T>): seq<U> {
    if s == [] then [] else f(s[0]) + FlatMap(f, s[1..])
  }

  function Filter<T>(p: T -> bool, s: seq<T>): (r: seq<T>)
    ensures forall x :: x in r ==> x in s && p(x)
    ensures |r| <= |s|
  {
    if s == [] then []
    else if p(s[0]) then [s[0]] + Filter(p, s[1..])
    else Filter(p, s[1..])
  }

  function Sum<T>(f: T -> int, s: seq<T>): int {
    if s == [] then 0 else f(s[0]) + Sum(f, s[1..])
  }

  function Total<T>(f: T -> real, s: seq<T>): real {
    if s == [] then 0.0 else f(s[0]) + Total(f, s[1..])
  }

  ghost predicate Distinct<T>(s: seq<T>) {
    forall i, j :: 0 <= i < j < |s| ==> s[i] != s[j]
  }

  ghost predicate Permutation<T>(a: seq<T>, b: seq<T>) { multiset(a) == multiset(b) }

  // ---------------------------------------------------------- concatenation

  lemma {:induction false} FlatMapAppend<T, U>(f: T -> seq<U>, a: seq<T>, b: seq<T>)
    ensures FlatMap(f, a + b) == FlatMap(f, a) + FlatMap(f, b)
  {
    if a == [] {
      assert a + b == b;
    } else {
      assert (a + b)[1..] == a[1..] + b;
      FlatMapAppend(f, a[1..], b);
    }
  }

  lemma {:induction false} FilterAppend<T>(p: T -> bool, a: seq<T>, b: seq<T>)
    ensures Filter(p, a + b) == Filter(p, a) + Filter(p, b)
  {
    if a == [] {
      assert a + b == b;
    } else {
      assert (a + b)[1..] == a[1..] + b;
      FilterAppend(p, a[1..], b);
    }
  }

  lemma {:induction false} SumAppend<T>(f: T -> int, a: seq<T>, b: seq<T>)
    ensures Sum(f, a + b) == Sum(f, a) + Sum(f, b)
  {
    if a == [] {
      assert a + b == b;
    } else {
      assert (a + b)[1..] == a[1..] + b;
      SumAppend(f, a[1..], b);
    }
  }

  lemma {:induction false} TotalAppend<T>(f: T -> real, a: seq<T>, b: seq<T>)
    ensures Total(f, a + b) == Total(f, a) + Total(f, b)
  {
    if a == [] {
      assert a + b == b;
    } else {
      assert (a + b)[1..] == a[1..] + b;
      TotalAppend(f, a[1..], b);
    }
  }

  lemma MapAppend<T, U>(f: T -> U, a: seq<T>, b: seq<T>)
    ensures Map(f, a + b) == Map(f, a) + Map(f, b)
  {
  }

  // One more element, as a loop over the sequence meets it.

  lemma FlatMapSnoc<T, U>(f: T -> seq<U>, s: seq<T>, i: nat)
    requires i < |s|
    ensures FlatMap(f, s[..i + 1]) == FlatMap(f, s[..i]) + f(s[i])
  {
    assert s[..i + 1] == s[..i] + [s[i]];
    FlatMapAppend(f, s[..i], [s[i]]);
    assert FlatMap(f, [s[i]]) == f(s[i]) + FlatMap(f, []);
  }

  lemma SumSnoc<T>(f: T -> int, s: seq<T>, i: nat)
    requires i < |s|
    ensures Sum(f, s[..i + 1]) == Sum(f, s[..i]) + f(s[i])
  {
    assert s[..i + 1] == s[..i] + [s[i]];
    SumAppend(f, s[..i], [s[i]]);
    assert Sum(f, [s[i]]) == f(s[i]) + Sum(f, []);
  }

  lemma TotalSnoc<T>(f: T -> real, s: seq<T>, i: nat)
    requires i < |s|
    ensures Total(f, s[..i + 1]) == Total(f, s[..i]) + f(s[i])
  {
    assert s[..i + 1] == s[..i] + [s[i]];
    TotalAppend(f, s[..i], [s[i]]);
    assert Total(f, [s[i]]) == f(s[i]) + Total(f, []);
  }

  lemma FlatMapOfTwo<T, U>(f: T -> seq<U>, x: T, y: T)
    ensures FlatMap(f, [x, y]) == f(x) + f(y)
  {
    assert [x, y] == [x] + [y] && [x][1..] == [] && [y][1..] == [];
    FlatMapAppend(f, [x], [y]);
  }

  lemma TotalOfTwo<T>(f: T -> real, x: T, y: T)
    ensures Total(f, [x, y]) == f(x) + f(y)
  {
    assert [x, y][1..] == [y] && [y][1..] == [];
    assert Total(f, [y]) == f(y) + Total(f, []);
  }

  // ------------------------------------------------------------ permutation

  /** Where the first element of `a` sits in its permutation `b`. */
  lemma Locate<T>(a: seq<T>, b: seq<T>) returns (i: nat)
    requires Permutation(a, b) && a != []
    ensures i < |b| && b[i] == a[0]
    ensures b == b[..i] + [b[i]] + b[i + 1..]
    ensures Permutation(a[1..], b[..i] + b[i + 1..])
    ensures |b[..i] + b[i + 1..]| == |a| - 1
  {
    assert a[0] in multiset(a);
    assert a[0] in b;
    i :| 0 <= i < |b| && b[i] == a[0];
    assert a == [a[0]] + a[1..];
    assert b == b[..i] + [b[i]] + b[i + 1..];
    assert multiset(a[1..]) == multiset(a) - multiset{a[0]};
    assert multiset(b[..i] + b[i + 1..]) == multiset(b) - multiset{b[i]};
    assert |multiset(a)| == |a| && |multiset(b)| == |b|;
  }

  lemma {:induction false} FlatMapPermutes<T, U>(f: T -> seq<U>, a: seq<T>, b: seq<T>)
    requires Permutation(a, b)
    ensures Permutation(FlatMap(f, a), FlatMap(f, b))
    decreases |a|
  {
    if a == [] {
      assert |multiset(b)| == 0;
    } else {
      var i := Locate(a, b);
      FlatMapPermutes(f, a[1..], b[..i] + b[i + 1..]);
      FlatMapAppend(f, b[..i], b[i + 1..]);
      FlatMapAppend(f, b[..i], [b[i]] + b[i + 1..]);
      assert b[..i] + ([b[i]] + b[i + 1..]) == b;
    }
  }

  lemma {:induction false} SumPermutes<T>(f: T -> int, a: seq<T>, b: seq<T>)
    requires Permutation(a, b)
    ensures Sum(f, a) == Sum(f, b)
    decreases |a|
  {
    if a == [] {
      assert |multiset(b)| == 0;
    } else {
      var i := Locate(a, b);
      SumPermutes(f, a[1..], b[..i] + b[i + 1..]);
      SumAppend(f, b[..i], b[i + 1..]);
      SumAppend(f, b[..i], [b[i]] + b[i + 1..]);
      assert b[..i] + ([b[i]] + b[i + 1..]) == b;
    }
  }

  lemma {:induction false} TotalPermutes<T>(f: T -> real, a: seq<T>, b: seq<T>)
    requires Permutation(a, b)
    ensures Total(f, a) == Total(f, b)
    decreases |a|
  {
    if a == [] {
      assert |multiset(b)| == 0;
    } else {
      var i := Locate(a, b);
      TotalPermutes(f, a[1..], b[..i] + b[i + 1..]);
      TotalAppend(f, b[..i], b[i + 1..]);
      TotalAppend(f, b[..i], [b[i]] + b[i + 1..]);
      assert b[..i] + ([b[i]] + b[i + 1..]) == b;
    }
  }

  function Passing<T>(p: T -> bool): T -> seq<T> { x => if p(x) then [x] else [] }

  lemma {:induction false} FilterIsFlatMap<T>(p: T -> bool, s: seq<T>)
    ensures Filter(p, s) == FlatMap(Passing(p), s)
  {
    if s != [] {
      FilterIsFlatMap(p, s[1..]);
    }
  }

  lemma FilterPermutes<T>(p: T -> bool, a: seq<T>, b: seq<T>)
    requires Permutation(a, b)
    ensures Permutation(Filter(p, a), Filter(p, b))
  {
    FilterIsFlatMap(p, a);
    FilterIsFlatMap(p, b);
    FlatMapPermutes(Passing(p), a, b);
  }

  lemma {:induction false} MapIsFlatMap<T, U>(f: T -> U, s: seq<T>)
    ensures Map(f, s) == FlatMap(x => [f(x)], s)
  {
    if s != [] {
      MapIsFlatMap(f, s[1..]);
      assert Map(f, s) == [f(s[0])] + Map(f, s[1..]);
    }
  }

  lemma MapPermutes<T, U>(f: T -> U, a: seq<T>, b: seq<T>)
    requires Permutation(a, b)
    ensures Permutation(Map(f, a), Map(f, b))
  {
    MapIsFlatMap(f, a);
    MapIsFlatMap(f, b);
    FlatMapPermutes(x => [f(x)], a, b);
  }

  lemma PermutationFacts<T>(a: seq<T>, b: seq<T>)
    requires Permutation(a, b)
    ensures |a| == |b|
    ensures forall x :: x in a <==> x in b
  {
    assert |multiset(a)| == |a| && |multiset(b)| == |b|;
    forall x ensures x in a <==> x in b {
      assert x in a <==> x in multiset(a);
      assert x in b <==> x in multiset(b);
    }
  }

  // ------------------------------------------------------------ distinctness

  lemma {:induction false} DistinctIsMultiplicityOne<T>(s: seq<T>)
    ensures Distinct(s) <==> forall x :: multiset(s)[x] <= 1
  {
    if s != [] {
      var h, t := s[0], s[1..];
      assert s == [h] + t;
      DistinctIsMultiplicityOne(t);
      assert multiset(s) == multiset{h} + multiset(t);
      assert h in t <==> multiset(t)[h] >= 1;
      if Distinct(s) {
        assert h !in t;
        assert Distinct(t);
      }
      if forall x :: multiset(s)[x] <= 1 {
        forall x ensures multiset(t)[x] <= 1 { assert multiset(s)[x] <= 1; }
        assert multiset(s)[h] <= 1;
        assert h !in t;
      }
    }
  }

  lemma DistinctPermutes<T>(a: seq<T>, b: seq<T>)
    requires Permutation(a, b)
    ensures Distinct(a) <==> Distinct(b)
  {
    DistinctIsMultiplicityOne(a);
    DistinctIsMultiplicityOne(b);
  }

  lemma DistinctAppend<T>(a: seq<T>, b: seq<T>)
    ensures Distinct(a + b) <==> Distinct(a) && Distinct(b) && forall x :: x in a ==> x !in b
  {
    if Distinct(a + b) {
      forall i, j | 0 <= i < j < |a| ensures a[i] != a[j] {
        assert (a + b)[i] == a[i] && (a + b)[j] == a[j];
      }
      forall i, j | 0 <= i < j < |b| ensures b[i] != b[j] {
        assert (a + b)[|a| + i] == b[i] && (a + b)[|a| + j] == b[j];
      }
      forall x | x in a ensures x !in b {
        var i :| 0 <= i < |a| && a[i] == x;
        forall j | 0 <= j < |b| ensures b[j] != x {
          assert (a + b)[i] == x && (a + b)[|a| + j] == b[j];
        }
      }
    } else {
      var i, j :| 0 <= i < j < |a + b| && (a + b)[i] == (a + b)[j];
      if i < |a| <= j {
        assert a[i] in a && b[j - |a|] in b;
      }
    }
  }

  /** Two distinct listings of the same elements are permutations. */
  lemma {:induction false} SameElementsPermute<T>(a: seq<T>, b: seq<T>)
    requires Distinct(a) && Distinct(b)
    requires forall x :: x in a <==> x in b
    ensures Permutation(a, b)
  {
    DistinctIsMultiplicityOne(a);
    DistinctIsMultiplicityOne(b);
    forall x ensures multiset(a)[x] == multiset(b)[x] {
      assert x in a <==> x in multiset(a);
      assert x in b <==> x in multiset(b);
    }
  }

  lemma {:induction false} DistinctFilter<T>(p: T -> bool, s: seq<T>)
    requires Distinct(s)
    ensures Distinct(Filter(p, s))
  {
    if s != [] {
      DistinctFilter(p, s[1..]);
      InFilter(p, s[1..], s[0]);
    }
  }

  // ------------------------------------------------------------- membership

  lemma {:induction false} InFlatMap<T, U>(f: T -> seq<U>, s: seq<T>, y: U)
    ensures y in FlatMap(f, s) <==> exists x :: x in s && y in f(x)
  {
    if s != [] {
      InFlatMap(f, s[1..], y);
      assert s == [s[0]] + s[1..];
      if y in FlatMap(f, s[1..]) {
        var x :| x in s[1..] && y in f(x);
        assert x in s;
      }
      if x :| x in s && y in f(x) {
        assert x == s[0] || x in s[1..];
      }
    }
  }

  lemma InMap<T, U>(f: T -> U, s: seq<T>, y: U)
    ensures y in Map(f, s) <==> exists x :: x in s && f(x) == y
  {
  }

  lemma PairIsDistinct<U>(a: seq<U>, b: seq<U>)
    requires |a| == |b| == 1 && a[0] != b[0]
    ensures Distinct(a + b)
  {
  }

  /** A value belongs to one position only, once all values are distinct. */
  lemma {:induction false} ValuesMeetOnce<T, U>(f: T -> seq<U>, s: seq<T>, i: nat, j: nat, y: U)
    requires Distinct(FlatMap(f, s)) && i < j < |s| && y in f(s[i])
    ensures y !in f(s[j])
  {
    DistinctAppend(f(s[0]), FlatMap(f, s[1..]));
    if i > 0 {
      ValuesMeetOnce(f, s[1..], i - 1, j - 1, y);
    } else {
      assert s[j] == s[1..][j - 1] && s[1..][j - 1] in s[1..];
      InFlatMap(f, s[1..], y);
    }
  }

  lemma {:induction false} InFilter<T>(p: T -> bool, s: seq<T>, x: T)
    ensures x in Filter(p, s) <==> x in s && p(x)
  {
    if s != [] {
      InFilter(p, s[1..], x);
      assert s == [s[0]] + s[1..];
    }
  }

  /** A sequence splits into what passes a test and what does not. */
  lemma {:induction false} FilterSplits<T>(p: T -> bool, q: T -> bool, s: seq<T>)
    requires forall x :: x in s ==> q(x) == !p(x)
    ensures multiset(s) == multiset(Filter(p, s)) + multiset(Filter(q, s))
  {
    if s != [] {
      assert forall x :: x in s[1..] ==> x in s;
      FilterSplits(p, q, s[1..]);
      assert s == [s[0]] + s[1..];
    }
  }

  lemma {:induction false} FilterTwice<T>(p: T -> bool, q: T -> bool, both: T -> bool, s: seq<T>)
    requires forall x :: x in s ==> both(x) == (q(x) && p(x))
    ensures Filter(p, Filter(q, s)) == Filter(both, s)
  {
    if s != [] {
      assert forall x :: x in s[1..] ==> x in s;
      FilterTwice(p, q, both, s[1..]);
      if q(s[0]) {
        assert ([s[0]] + Filter(q, s[1..]))[1..] == Filter(q, s[1..]);
      }
    }
  }

  lemma {:induction false} FilterAgrees<T>(p: T -> bool, q: T -> bool, s: seq<T>)
    requires forall x :: x in s ==> p(x) == q(x)
    ensures Filter(p, s) == Filter(q, s)
  {
    if s != [] {
      assert forall x :: x in s[1..] ==> x in s;
      FilterAgrees(p, q, s[1..]);
    }
  }

  lemma {:induction false} FilterAll<T>(p: T -> bool, s: seq<T>)
    requires forall x :: x in s ==> p(x)
    ensures Filter(p, s) == s
  {
    if s != [] {
      assert forall x :: x in s[1..] ==> x in s;
      FilterAll(p, s[1..]);
    }
  }

  lemma {:induction false} FilterNone<T>(p: T -> bool, s: seq<T>)
    requires forall x :: x in s ==> !p(x)
    ensures Filter(p, s) == []
  {
    if s != [] {
      assert forall x :: x in s[1..] ==> x in s;
      FilterNone(p, s[1..]);
    }
  }

  lemma {:induction false} SumOfFlatMap<T, U>(f: T -> seq<U>, g: U -> int, h: T -> int, s: seq<T>)
    requires forall x :: x in s ==> h(x) == Sum(g, f(x))
    ensures Sum(g, FlatMap(f, s)) == Sum(h, s)
  {
    if s != [] {
      assert forall x :: x in s[1..] ==> x in s;
      SumOfFlatMap(f, g, h, s[1..]);
      SumAppend(g, f(s[0]), FlatMap(f, s[1..]));
    }
  }

  // ----------------------------------------------------------- without repeats

  /** One copy of every element. */
  function Dedup<T(==)>(s: seq<T>): seq<T> {
    if s == [] then []
    else if s[0] in s[1..] then Dedup(s[1..])
    else [s[0]] + Dedup(s[1..])
  }

  lemma {:induction false} DedupFacts<T>(s: seq<T>)
    ensures Distinct(Dedup(s)) && forall x :: x in Dedup(s) <==> x in s
  {
    if s != [] {
      DedupFacts(s[1..]);
      assert s == [s[0]] + s[1..];
    }
  }

  lemma {:induction false} SumOfConstant<T>(f: T -> int, c: int, s: seq<T>)
    requires forall x :: x in s ==> f(x) == c
    ensures Sum(f, s) == c * |s|
  {
    if s != [] {
      assert forall x :: x in s[1..] ==> x in s;
      SumOfConstant(f, c, s[1..]);
    }
  }

  lemma {:induction false} SumScales<T>(f: T -> int, g: T -> int, c: int, s: seq<T>)
    requires forall x :: x in s ==> f(x) == c * g(x)
    ensures Sum(f, s) == c * Sum(g, s)
  {
    if s != [] {
      assert forall x :: x in s[1..] ==> x in s;
      SumScales(f, g, c, s[1..]);
    }
  }

  lemma {:induction false} LengthsWithin<T, U>(f: T -> seq<U>, g: T -> int, s: seq<T>)
    requires forall x :: x in s ==> |f(x)| <= g(x)
    ensures |FlatMap(f, s)| <= Sum(g, s)
  {
    if s != [] {
      assert forall x :: x in s[1..] ==> x in s;
      LengthsWithin(f, g, s[1..]);
    }
  }

  /** A distinct list of members of another weighs no more than it. */
  lemma {:induction false} SumOfPart<T>(f: T -> int, part: seq<T>, whole: seq<T>)
    requires Distinct(part) && (forall x :: x in part ==> x in whole) && (forall x :: x in whole ==> f(x) >= 0)
    ensures Sum(f, part) <= Sum(f, whole)
    decreases |part|
  {
    if part == [] {
      SumIsNatural(f, whole);
    } else {
      assert part[0] in whole;
      var i :| 0 <= i < |whole| && whole[i] == part[0];
      var others := whole[..i] + whole[i + 1..];
      assert whole == whole[..i] + [whole[i]] + whole[i + 1..];
      forall x | x in part[1..] ensures x in others {
        assert x in part && x != part[0];
        assert x in whole;
      }
      SumOfPart(f, part[1..], others);
      SumAppend(f, whole[..i], whole[i + 1..]);
      SumAppend(f, whole[..i] + [whole[i]], whole[i + 1..]);
      SumAppend(f, whole[..i], [whole[i]]);
    }
  }

  lemma {:induction false} SumIsNatural<T>(f: T -> int, s: seq<T>)
    requires forall x :: x in s ==> f(x) >= 0
    ensures Sum(f, s) >= 0
  {
    if s != [] {
      assert forall x :: x in s[1..] ==> x in s;
      SumIsNatural(f, s[1..]);
    }
  }
}
