/** Strings as the exporter uses them: Go's ordering, space trimming, and the
    '|'-separated keys that the uniqueness check compares. */
module Text {

  // ---------------------------------------------------------------- ordering

  /** Lexicographic extension of an order on elements. */
  predicate LexLess<T(==)>(lt: (T, T) -> bool, a: seq<T>, b: seq<T>) {
    if b == [] then false
    else if a == [] then true
    else lt(a[0], b[0]) || (a[0] == b[0] && LexLess(lt, a[1..], b[1..]))
  }

  ghost predicate StrictTotal<T(!new)>(lt: (T, T) -> bool) {
    && (forall x :: !lt(x, x))
    && (forall x, y, z :: lt(x, y) && lt(y, z) ==> lt(x, z))
    && (forall x, y :: lt(x, y) || x == y || lt(y, x))
  }

  lemma {:induction false} LexTransitive<T(!new)>(lt: (T, T) -> bool, a: seq<T>, b: seq<T>, c: seq<T>)
    requires StrictTotal(lt) && LexLess(lt, a, b) && LexLess(lt, b, c)
    ensures LexLess(lt, a, c)
  {
    if a != [] && a[0] == b[0] && b[0] == c[0] {
      LexTransitive(lt, a[1..], b[1..], c[1..]);
    }
  }

  lemma {:induction false} LexConnected<T(!new)>(lt: (T, T) -> bool, a: seq<T>, b: seq<T>)
    requires StrictTotal(lt)
    ensures LexLess(lt, a, b) || a == b || LexLess(lt, b, a)
  {
    if a != [] && b != [] && a[0] == b[0] {
      LexConnected(lt, a[1..], b[1..]);
      if a[1..] == b[1..] {
        assert a == [a[0]] + a[1..] && b == [b[0]] + b[1..];
      }
    }
  }

  lemma {:induction false} LexIrreflexive<T(!new)>(lt: (T, T) -> bool, a: seq<T>)
    requires StrictTotal(lt)
    ensures !LexLess(lt, a, a)
  {
    if a != [] {
      LexIrreflexive(lt, a[1..]);
    }
  }

  predicate CharLess(a: char, b: char) { a < b }

  /** Go's `<` on strings. */
  predicate Less(a: string, b: string) { LexLess(CharLess, a, b) }

  lemma LessIsStrictTotal()
    ensures StrictTotal(Less)
  {
    forall a, b ensures (Less(a, b) || a == b || Less(b, a)) && !Less(a, a) {
      LexConnected(CharLess, a, b);
      LexIrreflexive(CharLess, a);
    }
    forall a, b, c | Less(a, b) && Less(b, c) ensures Less(a, c) {
      LexTransitive(CharLess, a, b, c);
    }
  }

  /** They agree up to i, where the one ends or has the smaller character. */
  predicate LessAt(a: string, b: string, i: nat) {
    i <= |a| && i < |b| && a[..i] == b[..i] && (i == |a| || a[i] < b[i])
  }

  lemma LessAtTail(a: string, b: string, i: nat)
    requires a != [] && b != []
    ensures a[0] == b[0] && LessAt(a[1..], b[1..], i) ==> LessAt(a, b, i + 1)
    ensures LessAt(a, b, i) && i > 0 ==> a[0] == b[0] && LessAt(a[1..], b[1..], i - 1)
  {
    if a[0] == b[0] && LessAt(a[1..], b[1..], i) {
      assert a[..i + 1] == [a[0]] + a[1..][..i] && b[..i + 1] == [b[0]] + b[1..][..i];
    }
    if LessAt(a, b, i) && i > 0 {
      assert a[..i][0] == a[0] && b[..i][0] == b[0];
      assert a[1..][..i - 1] == a[..i][1..] && b[1..][..i - 1] == b[..i][1..];
    }
  }

  /** The first difference decides, and a proper beginning comes first. */
  lemma {:induction false} LessIff(a: string, b: string)
    ensures Less(a, b) <==> exists i: nat :: LessAt(a, b, i)
  {
    if a == [] || b == [] {
      assert b != [] ==> LessAt(a, b, 0);
    } else {
      assert a[0] < b[0] ==> LessAt(a, b, 0);
      LessIff(a[1..], b[1..]);
      if i: nat :| LessAt(a, b, i) {
        LessAtTail(a, b, i);
      }
      if a[0] == b[0] {
        if i: nat :| LessAt(a[1..], b[1..], i) {
          LessAtTail(a, b, i);
        }
      }
    }
  }

  // ---------------------------------------------------------------- trimming

  /** The runes with the Unicode White_Space property. */
  predicate IsSpace(c: char) {
    || '\t' <= c <= '\r' || c == ' '
    || c == '\U{85}' || c == '\U{A0}' || c == '\U{1680}'
    || '\U{2000}' <= c <= '\U{200A}'
    || c == '\U{2028}' || c == '\U{2029}' || c == '\U{202F}' || c == '\U{205F}' || c == '\U{3000}'
  }

  function TrimSpace(s: string): (r: string)
    ensures r != "" ==> !IsSpace(r[0]) && !IsSpace(r[|r| - 1])
    ensures (s == "" || (!IsSpace(s[0]) && !IsSpace(s[|s| - 1]))) ==> r == s
    ensures forall c :: c in r ==> c in s
  {
    if s == "" then ""
    else if IsSpace(s[0]) then TrimSpace(s[1..])
    else if IsSpace(s[|s| - 1]) then TrimSpace(s[..|s| - 1])
    else s
  }

  /** Outside i to j there is only space, and neither end of the middle is one. */
  predicate Trims(s: string, i: nat, j: nat) {
    && i <= j <= |s|
    && (forall k :: 0 <= k < i ==> IsSpace(s[k]))
    && (forall k :: j <= k < |s| ==> IsSpace(s[k]))
    && (i < j ==> !IsSpace(s[i]) && !IsSpace(s[j - 1]))
  }

  lemma TrimsFront(s: string, i: nat, j: nat)
    requires s != "" && IsSpace(s[0]) && Trims(s[1..], i, j)
    ensures Trims(s, i + 1, j + 1) && s[1..][i..j] == s[i + 1..j + 1]
  {
    forall k | 0 <= k < i + 1 ensures IsSpace(s[k]) {
      assert k > 0 ==> s[k] == s[1..][k - 1];
    }
    forall k | j + 1 <= k < |s| ensures IsSpace(s[k]) {
      assert s[k] == s[1..][k - 1];
    }
  }

  lemma TrimsBack(s: string, i: nat, j: nat)
    requires s != "" && IsSpace(s[|s| - 1]) && Trims(s[..|s| - 1], i, j)
    ensures Trims(s, i, j) && s[..|s| - 1][i..j] == s[i..j]
  {
    forall k | j <= k < |s| ensures IsSpace(s[k]) {
      assert k < |s| - 1 ==> s[k] == s[..|s| - 1][k];
    }
  }

  /** Trimming takes away the space at both ends and nothing else. */
  lemma {:induction false} TrimMeaning(s: string) returns (i: nat, j: nat)
    ensures Trims(s, i, j) && TrimSpace(s) == s[i..j]
    decreases |s|
  {
    if s == "" {
      i, j := 0, 0;
    } else if IsSpace(s[0]) {
      i, j := TrimMeaning(s[1..]);
      TrimsFront(s, i, j);
      i, j := i + 1, j + 1;
    } else if IsSpace(s[|s| - 1]) {
      i, j := TrimMeaning(s[..|s| - 1]);
      TrimsBack(s, i, j);
    } else {
      i, j := 0, |s|;
    }
  }

  /** Trimming is idempotent, so a trimmed label survives a second trim. */
  lemma TrimTwice(s: string)
    ensures TrimSpace(TrimSpace(s)) == TrimSpace(s)
  {
  }

  // ------------------------------------------------------- delimited keys

  const DELIMITER := '|'

  predicate DelimiterFree(s: string) { DELIMITER !in s }

  /** The fields joined by '|', as `fmt.Sprintf("%s|%s|...")` does. */
  function Join(fields: seq<string>): string {
    if fields == [] then ""
    else if |fields| == 1 then fields[0]
    else fields[0] + [DELIMITER] + Join(fields[1..])
  }

  /** The text before the first delimiter. */
  function First(s: string): string {
    if s == "" || s[0] == DELIMITER then "" else [s[0]] + First(s[1..])
  }

  /** The text after the first delimiter. */
  function Rest(s: string): string {
    if s == "" then "" else if s[0] == DELIMITER then s[1..] else Rest(s[1..])
  }

  lemma {:induction false} SplitsAtFirstDelimiter(head: string, tail: string)
    requires DelimiterFree(head)
    ensures First(head + [DELIMITER] + tail) == head
    ensures Rest(head + [DELIMITER] + tail) == tail
  {
    if head != "" {
      SplitsAtFirstDelimiter(head[1..], tail);
      assert (head + [DELIMITER] + tail)[1..] == head[1..] + [DELIMITER] + tail;
    } else {
      assert (head + [DELIMITER] + tail)[1..] == tail;
    }
  }

  /** `t`, followed by the delimiter, begins `u`. */
  predicate Shadows(t: string, u: string) { t + [DELIMITER] <= u }

  /** Two texts whose joined keys can be mistaken for each other. */
  predicate Confusable(t: string, u: string) { Shadows(t, u) || Shadows(u, t) }

  lemma DelimiterFreeNeverConfused(t: string, u: string)
    requires DelimiterFree(t) && DelimiterFree(u)
    ensures !Confusable(t, u)
  {
    if Shadows(t, u) {
      ShadowedHoldsDelimiter(t, u);
    }
    if Shadows(u, t) {
      ShadowedHoldsDelimiter(u, t);
    }
  }

  lemma ShadowedHoldsDelimiter(t: string, u: string)
    requires Shadows(t, u)
    ensures !DelimiterFree(u)
  {
    assert u[|t|] == DELIMITER;
  }

  /** Delimited beginnings of one string are the same or confusable. */
  lemma SharedBeginning(t: string, u: string, x: string, y: string)
    requires t + [DELIMITER] + x == u + [DELIMITER] + y
    ensures t == u || Confusable(t, u)
  {
    var s := t + [DELIMITER] + x;
    assert t + [DELIMITER] == s[..|t| + 1] && u + [DELIMITER] == s[..|u| + 1];
    assert u == s[..|u|] && t == s[..|t|];
  }

  /** Equal keys whose first fields hold no delimiter have second fields that are the
      same or confusable. */
  lemma SecondFieldsOfEqualKeys(a: seq<string>, b: seq<string>)
    requires |a| >= 3 && |b| >= 3 && DelimiterFree(a[0]) && DelimiterFree(b[0])
    requires Join(a) == Join(b)
    ensures a[1] == b[1] || Confusable(a[1], b[1])
  {
    SplitsAtFirstDelimiter(a[0], Join(a[1..]));
    SplitsAtFirstDelimiter(b[0], Join(b[1..]));
    SharedBeginning(a[1], b[1], Join(a[1..][1..]), Join(b[1..][1..]));
  }

  /** The delimiter between two fields may as well stand inside the first. */
  lemma JoinShift(t: string, w: string, x: string, tail: seq<string>)
    requires tail != []
    ensures Join([t, w + [DELIMITER] + x] + tail) == Join([t + [DELIMITER] + w, x] + tail)
  {
  }

  /** Keys that first differ in a delimiter-free field are different strings. */
  lemma {:induction false} JoinsDiffer(a: seq<string>, b: seq<string>)
    requires |a| == |b| && a != b
    requires forall f :: f in a || f in b ==> DelimiterFree(f)
    ensures Join(a) != Join(b)
  {
    if |a| > 1 {
      SplitsAtFirstDelimiter(a[0], Join(a[1..]));
      SplitsAtFirstDelimiter(b[0], Join(b[1..]));
      if a[0] == b[0] {
        assert a == [a[0]] + a[1..] && b == [b[0]] + b[1..];
        assert forall f :: f in a[1..] || f in b[1..] ==> f in a || f in b;
        JoinsDiffer(a[1..], b[1..]);
      }
    } else if |a| == 1 {
      assert a == [a[0]] && b == [b[0]];
    }
  }

  lemma JoinHoldsDelimiter(a: seq<string>)
    requires |a| > 1
    ensures !DelimiterFree(Join(a))
  {
    assert Join(a)[|a[0]|] == DELIMITER;
  }

  /** Delimiter-free fields can be read back from their key. */
  lemma {:induction false} JoinInjective(a: seq<string>, b: seq<string>)
    requires a != [] && b != [] && forall f :: f in a || f in b ==> DelimiterFree(f)
    requires Join(a) == Join(b)
    ensures a == b
  {
    if |a| > 1 && |b| > 1 {
      SplitsAtFirstDelimiter(a[0], Join(a[1..]));
      SplitsAtFirstDelimiter(b[0], Join(b[1..]));
      assert forall f :: f in a[1..] || f in b[1..] ==> f in a || f in b;
      JoinInjective(a[1..], b[1..]);
      assert a == [a[0]] + a[1..] && b == [b[0]] + b[1..];
    } else if |b| > 1 {
      assert DelimiterFree(a[0]);
      JoinHoldsDelimiter(b);
    } else if |a| > 1 {
      assert DelimiterFree(b[0]);
      JoinHoldsDelimiter(a);
    }
  }
}
