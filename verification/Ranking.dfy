/** Go's `sort.SliceStable` with a chain-of-fields comparator: the comparator is
    the lexicographic order on a rank, a short list of the compared fields. */
module Ranking {
  import opened Bags
  import Text

  /** One compared field: text, an instant, or an amount ranked largest first. */
  datatype Atom = S(text: string) | N(number: int) | Largest(amount: real)

  type Rank = seq<Atom>

  predicate AtomLess(a: Atom, b: Atom) {
    match (a, b)
    case (S(x), S(y)) => Text.Less(x, y)
    case (N(x), N(y)) => x < y
    case (Largest(x), Largest(y)) => x > y
    case (S(_), _) => true
    case (N(_), Largest(_)) => true
    case _ => false
  }

  predicate RankLess(a: Rank, b: Rank) { Text.LexLess(AtomLess, a, b) }

  lemma AtomLessIsStrictTotal()
    ensures Text.StrictTotal(AtomLess)
  {
    Text.LessIsStrictTotal();
  }

  lemma RankLessIsStrictTotal()
    ensures Text.StrictTotal(RankLess)
  {
    AtomLessIsStrictTotal();
    forall a, b ensures (RankLess(a, b) || a == b || RankLess(b, a)) && !RankLess(a, a) {
      Text.LexConnected(AtomLess, a, b);
      Text.LexIrreflexive(AtomLess, a);
    }
    forall a, b, c | RankLess(a, b) && RankLess(b, c) ensures RankLess(a, c) {
      Text.LexTransitive(AtomLess, a, b, c);
    }
  }

  // ------------------------------------------------------------ stable sort

  function Insert<T>(rank: T -> Rank, x: T, s: seq<T>): (r: seq<T>)
    ensures |r| == |s| + 1
  {
    if s == [] then [x]
    else if RankLess(rank(s[0]), rank(x)) then [s[0]] + Insert(rank, x, s[1..])
    else [x] + s
  }

  function StableSort<T>(rank: T -> Rank, s: seq<T>): (r: seq<T>)
    ensures |r| == |s|
  {
    if s == [] then [] else Insert(rank, s[0], StableSort(rank, s[1..]))
  }

  ghost predicate Ordered<T>(rank: T -> Rank, s: seq<T>) {
    forall i, j :: 0 <= i < j < |s| ==> !RankLess(rank(s[j]), rank(s[i]))
  }

  lemma {:induction false} InsertPermutes<T>(rank: T -> Rank, x: T, s: seq<T>)
    ensures multiset(Insert(rank, x, s)) == multiset{x} + multiset(s)
  {
    if s != [] {
      assert s == [s[0]] + s[1..];
      InsertPermutes(rank, x, s[1..]);
    }
  }

  lemma {:induction false} SortPermutes<T>(rank: T -> Rank, s: seq<T>)
    ensures Permutation(StableSort(rank, s), s)
  {
    if s != [] {
      assert s == [s[0]] + s[1..];
      SortPermutes(rank, s[1..]);
      InsertPermutes(rank, s[0], StableSort(rank, s[1..]));
    }
  }

  lemma {:induction false} InsertOrders<T>(rank: T -> Rank, x: T, s: seq<T>)
    requires Ordered(rank, s)
    ensures Ordered(rank, Insert(rank, x, s))
  {
    RankLessIsStrictTotal();
    if s == [] {
    } else if RankLess(rank(s[0]), rank(x)) {
      InsertOrders(rank, x, s[1..]);
      var rest := Insert(rank, x, s[1..]);
      InsertPermutes(rank, x, s[1..]);
      forall y | y in rest ensures !RankLess(rank(y), rank(s[0])) {
        assert y in multiset(rest);
        assert y == x || y in s[1..];
      }
    } else {
      forall y | y in s ensures !RankLess(rank(y), rank(x)) {
        var j :| 0 <= j < |s| && s[j] == y;
        assert j == 0 || !RankLess(rank(s[j]), rank(s[0]));
      }
    }
  }

  lemma {:induction false} SortOrders<T>(rank: T -> Rank, s: seq<T>)
    ensures Ordered(rank, StableSort(rank, s))
  {
    if s != [] {
      SortOrders(rank, s[1..]);
      InsertOrders(rank, s[0], StableSort(rank, s[1..]));
    }
  }

  lemma {:induction false} InsertKeepsClass<T>(rank: T -> Rank, r: Rank, x: T, s: seq<T>)
    ensures Filter(y => rank(y) == r, Insert(rank, x, s))
         == (if rank(x) == r then [x] else []) + Filter(y => rank(y) == r, s)
  {
    RankLessIsStrictTotal();
    if s != [] && RankLess(rank(s[0]), rank(x)) {
      InsertKeepsClass(rank, r, x, s[1..]);
    }
  }

  /** Stability: elements the comparator ties keep their relative order. */
  lemma {:induction false} SortIsStable<T>(rank: T -> Rank, r: Rank, s: seq<T>)
    ensures Filter(y => rank(y) == r, StableSort(rank, s)) == Filter(y => rank(y) == r, s)
  {
    if s != [] {
      SortIsStable(rank, r, s[1..]);
      InsertKeepsClass(rank, r, s[0], StableSort(rank, s[1..]));
    }
  }

  // ------------------------------------------- when the sorted order is unique

  /** No two elements tie under the comparator. */
  ghost predicate NoTies<T>(rank: T -> Rank, s: seq<T>) {
    Distinct(Map(rank, s))
  }

  /** The smallest element comes first in every ordered arrangement. */
  lemma OrderedHeadsAgree<T>(rank: T -> Rank, a: seq<T>, b: seq<T>)
    requires Permutation(a, b) && NoTies(rank, a) && a != []
    requires Ordered(rank, a) && Ordered(rank, b)
    ensures b != [] && a[0] == b[0]
  {
    PermutationFacts(a, b);
    RankLessIsStrictTotal();
    assert b[0] in a && a[0] in b;
    var i :| 0 <= i < |a| && a[i] == b[0];
    var j :| 0 <= j < |b| && b[j] == a[0];
    assert rank(a[0]) == rank(b[0]);
    assert Map(rank, a)[0] == Map(rank, a)[i];
  }

  lemma OrderedTail<T>(rank: T -> Rank, s: seq<T>)
    requires s != [] && Ordered(rank, s)
    ensures Ordered(rank, s[1..])
  {
  }

  lemma NoTiesTail<T>(rank: T -> Rank, s: seq<T>)
    requires s != [] && NoTies(rank, s)
    ensures NoTies(rank, s[1..])
  {
  }

  lemma PermutationTail<T>(a: seq<T>, b: seq<T>)
    requires Permutation(a, b) && a != [] && b != [] && a[0] == b[0]
    ensures Permutation(a[1..], b[1..])
  {
    assert a == [a[0]] + a[1..] && b == [b[0]] + b[1..];
    assert multiset(a[1..]) == multiset(a) - multiset{a[0]};
    assert multiset(b[1..]) == multiset(b) - multiset{b[0]};
  }

  lemma {:induction false} OrderedIsUnique<T>(rank: T -> Rank, a: seq<T>, b: seq<T>)
    requires Permutation(a, b) && NoTies(rank, a)
    requires Ordered(rank, a) && Ordered(rank, b)
    ensures a == b
    decreases |a|
  {
    PermutationFacts(a, b);
    if a != [] {
      OrderedHeadsAgree(rank, a, b);
      PermutationTail(a, b);
      NoTiesTail(rank, a);
      OrderedTail(rank, a);
      OrderedTail(rank, b);
      OrderedIsUnique(rank, a[1..], b[1..]);
      assert a == [a[0]] + a[1..] && b == [b[0]] + b[1..];
    }
  }

  /** Without ties a stable sort forgets the order its input came in. */
  lemma SortForgetsOrder<T>(rank: T -> Rank, a: seq<T>, b: seq<T>)
    requires Permutation(a, b) && NoTies(rank, a)
    ensures StableSort(rank, a) == StableSort(rank, b)
  {
    SortPermutes(rank, a);
    SortPermutes(rank, b);
    SortOrders(rank, a);
    SortOrders(rank, b);
    MapPermutes(rank, StableSort(rank, a), a);
    DistinctPermutes(Map(rank, StableSort(rank, a)), Map(rank, a));
    OrderedIsUnique(rank, StableSort(rank, a), StableSort(rank, b));
  }
}
