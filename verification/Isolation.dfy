/** Targets do not interfere: what one target publishes neither changes another
    target's records nor depends on them, although the uniqueness check and the
    account policy look at the whole snapshot. */
module Isolation {
  import opened Bags
  import opened Domain
  import opened Snapshots
  import opened Stores
  import opened Caches
  import Text

  function NotAbout(t: string): Record -> bool { r => Target(r) != t }

  /** The partials of one target alone. */
  function Only(parts: Parts, t: string): Parts { map id | id in parts && id.target == t :: parts[id] }

  /** No two records have target names that joined keys can confuse. */
  ghost predicate SeparableTargets(rs: seq<Record>) {
    forall r, q :: r in rs && q in rs ==> !Text.Confusable(Target(r), Target(q))
  }

  // --------------------------------------------------------- uniqueness keys

  lemma KeysNameTheirTarget(r: Record, q: Record, k: string)
    requires k in Keys(r) && k in Keys(q)
    ensures Target(r) == Target(q) || Text.Confusable(Target(r), Target(q))
  {
    var i :| 0 <= i < |Keys(r)| && Keys(r)[i] == k;
    var j :| 0 <= j < |Keys(q)| && Keys(q)[j] == k;
    FieldsStartWithTarget(r, KeyFields(r)[i]);
    FieldsStartWithTarget(q, KeyFields(q)[j]);
    Text.SecondFieldsOfEqualKeys(KeyFields(r)[i], KeyFields(q)[j]);
  }

  lemma FieldsStartWithTarget(r: Record, fields: seq<string>)
    requires fields in KeyFields(r)
    ensures |fields| >= 3 && fields[1] == Target(r) && Text.DelimiterFree(fields[0])
  {
    match r
    case CommitmentR(c) =>
      if fields in RatioFields(c) {
        RatiosStartWithTarget(c, fields);
      } else {
        AmountsStartWithTarget(c, fields);
      }
    case _ =>
  }

  lemma RatiosStartWithTarget(c: Commitment, fields: seq<string>)
    requires fields in RatioFields(c)
    ensures |fields| >= 3 && fields[1] == c.target && Text.DelimiterFree(fields[0])
  {
  }

  lemma AmountsStartWithTarget(c: Commitment, fields: seq<string>)
    requires fields in AmountFields(c)
    ensures |fields| >= 3 && fields[1] == c.target && Text.DelimiterFree(fields[0])
  {
  }

  lemma SplitRecords(t: string, rs: seq<Record>)
    ensures Permutation(rs, OfTarget(t, rs) + Filter(NotAbout(t), rs))
  {
    FilterSplits(About(t), NotAbout(t), rs);
  }

  /** Uniqueness is decided target by target. */
  lemma UniqueSplits(t: string, rs: seq<Record>)
    requires SeparableTargets(rs)
    ensures UniqueRecords(rs) <==> UniqueRecords(OfTarget(t, rs)) && UniqueRecords(Filter(NotAbout(t), rs))
  {
    var a, b := OfTarget(t, rs), Filter(NotAbout(t), rs);
    SplitRecords(t, rs);
    UniqueForgetsOrder(rs, a + b);
    FlatMapAppend(Keys, a, b);
    DistinctAppend(FlatMap(Keys, a), FlatMap(Keys, b));
    forall k | k in FlatMap(Keys, a) ensures k !in FlatMap(Keys, b) {
      InFlatMap(Keys, a, k);
      var r :| r in a && k in Keys(r);
      if k in FlatMap(Keys, b) {
        InFlatMap(Keys, b, k);
        var q :| q in b && k in Keys(q);
        KeysNameTheirTarget(r, q, k);
      }
    }
  }

  // ---------------------------------------------------------- account policy

  lemma ObservedIsPerTarget(t: string, rs: seq<Record>, account: string)
    ensures (t, account) in Observed(rs) <==> (t, account) in Observed(OfTarget(t, rs))
  {
    if (t, account) in Observed(rs) {
      var r :| r in rs && NamesAccount(r) && (r.cost.target, r.cost.dimension.value) == (t, account);
      InFilter(About(t), rs, r);
      assert r in OfTarget(t, rs);
    }
  }

  /** What a target exposes depends on that target's records only. */
  lemma VisibleIsPerTarget(policies: Policies, t: string, rs: seq<Record>)
    ensures OfTarget(t, Visible(policies, rs)) == Visible(policies, OfTarget(t, rs))
  {
    var p, q := Keeper(policies, Observed(rs)), Keeper(policies, Observed(OfTarget(t, rs)));
    var both := (r: Record) => Target(r) == t && p(r);
    FilterTwice(About(t), p, both, rs);
    forall r | r in rs ensures both(r) == (About(t)(r) && q(r)) {
      KeepingIsPerTarget(policies, t, rs, r);
    }
    FilterTwice(q, About(t), both, rs);
  }

  lemma KeepingIsPerTarget(policies: Policies, t: string, rs: seq<Record>, r: Record)
    ensures Target(r) == t ==>
              (Keeps(policies, Observed(rs), r) <==> Keeps(policies, Observed(OfTarget(t, rs)), r))
  {
    if r.AccountR? {
      ObservedIsPerTarget(t, rs, r.account.accountID);
    }
  }

  lemma CountIsPerTarget(t: string, rs: seq<Record>)
    ensures AccountCount(t, rs) == AccountCount(t, OfTarget(t, rs))
  {
    FilterTwice(AccountAbout(t), About(t), AccountAbout(t), rs);
  }

  lemma OthersCount(t: string, u: string, rs: seq<Record>)
    ensures OfTarget(u, Filter(NotAbout(t), rs)) == if u == t then [] else OfTarget(u, rs)
  {
  }

  lemma MineCount(t: string, u: string, rs: seq<Record>)
    ensures OfTarget(u, OfTarget(t, rs)) == if u == t then OfTarget(t, rs) else []
  {
    if u == t {
      FilterTwice(About(u), About(t), About(t), rs);
    } else {
      FilterTwice(About(u), About(t), r => false, rs);
      FilterNone(r => false, rs);
    }
  }

  /** The number of exposed accounts of `u`, computed from `u`'s records. */
  lemma VisibleCount(policies: Policies, u: string, rs: seq<Record>)
    ensures AccountCount(u, Visible(policies, rs)) == AccountCount(u, Visible(policies, OfTarget(u, rs)))
  {
    CountIsPerTarget(u, Visible(policies, rs));
    VisibleIsPerTarget(policies, u, rs);
    MineCount(u, u, rs);
    CountIsPerTarget(u, Visible(policies, OfTarget(u, rs)));
    VisibleIsPerTarget(policies, u, OfTarget(u, rs));
  }

  lemma LimitsSplit(policies: Policies, t: string, rs: seq<Record>)
    ensures WithinLimits(policies, rs)
       <==> WithinLimits(policies, OfTarget(t, rs)) && WithinLimits(policies, Filter(NotAbout(t), rs))
  {
    var a, b := OfTarget(t, rs), Filter(NotAbout(t), rs);
    forall u | u in policies
      ensures AccountCount(u, Visible(policies, a)) == if u == t then AccountCount(u, Visible(policies, rs)) else 0
      ensures AccountCount(u, Visible(policies, b)) == if u == t then 0 else AccountCount(u, Visible(policies, rs))
    {
      VisibleCount(policies, u, rs);
      VisibleCount(policies, u, a);
      VisibleCount(policies, u, b);
      MineCount(t, u, rs);
      OthersCount(t, u, rs);
      assert Visible(policies, []) == [];
    }
    var n := (u: string, xs: seq<Record>) => AccountCount(u, Visible(policies, xs));
    assert forall u :: u in policies ==> n(u, rs) == n(u, a) + n(u, b);
  }

  /** Whether records may be published together is decided target by target. */
  lemma AcceptableSplits(policies: Policies, t: string, rs: seq<Record>)
    requires SeparableTargets(rs)
    ensures Acceptable(policies, rs)
       <==> Acceptable(policies, OfTarget(t, rs)) && Acceptable(policies, Filter(NotAbout(t), rs))
  {
    UniqueSplits(t, rs);
    LimitsSplit(policies, t, rs);
  }

  // ------------------------------------------------------------ parts by target

  lemma {:induction false} RecordsOfOneTarget(parts: Parts, t: string, ids: seq<CollectorID>)
    requires PartsValid(parts)
    ensures OfTarget(t, AllRecords(parts, ids)) == AllRecords(Only(parts, t), ids)
  {
    if ids != [] {
      var id, rest := ids[0], ids[1..];
      RecordsOfOneTarget(parts, t, rest);
      FilterAppend(About(t), RecordsOf(parts)(id), AllRecords(parts, rest));
      if id in parts && id.target == t {
        FilterAll(About(t), Records(parts[id]));
      } else {
        FilterNone(About(t), RecordsOf(parts)(id));
      }
    }
  }

  /** Replacing one of T's partials leaves the other targets' records in place. */
  lemma {:induction false} OthersUntouched(parts: Parts, id: CollectorID, partial: Snapshot, ids: seq<CollectorID>)
    requires PartsValid(parts) && ValidPartial(partial, id.target)
    ensures Filter(NotAbout(id.target), AllRecords(parts[id := partial], ids))
         == Filter(NotAbout(id.target), AllRecords(parts, ids))
  {
    if ids != [] {
      var p, after := NotAbout(id.target), parts[id := partial];
      OthersUntouched(parts, id, partial, ids[1..]);
      FilterAppend(p, RecordsOf(parts)(ids[0]), AllRecords(parts, ids[1..]));
      FilterAppend(p, RecordsOf(after)(ids[0]), AllRecords(after, ids[1..]));
      if ids[0] == id {
        FilterNone(p, RecordsOf(parts)(id));
        FilterNone(p, RecordsOf(after)(id));
      }
    }
  }

  ghost predicate SeparableParts(parts: Parts) {
    forall a, b :: a in parts && b in parts ==> !Text.Confusable(a.target, b.target)
  }

  lemma RecordHasItsPart(parts: Parts, ids: seq<CollectorID>, r: Record)
    requires PartsValid(parts) && r in AllRecords(parts, ids)
    ensures exists id :: id in parts && id.target == Target(r)
  {
    InFlatMap(RecordsOf(parts), ids, r);
    var id :| id in ids && r in RecordsOf(parts)(id);
    assert id in parts;
  }

  lemma PartsHaveSeparableTargets(parts: Parts, ids: seq<CollectorID>)
    requires PartsValid(parts) && SeparableParts(parts)
    ensures SeparableTargets(AllRecords(parts, ids))
  {
    forall r, q | r in AllRecords(parts, ids) && q in AllRecords(parts, ids)
      ensures !Text.Confusable(Target(r), Target(q))
    {
      RecordHasItsPart(parts, ids, r);
      RecordHasItsPart(parts, ids, q);
    }
  }

  // ------------------------------------------------------------ main theorems

  /** Whether a publish is accepted depends only on its own target's partials. */
  lemma AcceptanceIsLocal(policies: Policies, s: State, id: CollectorID, partial: Snapshot)
    requires Inv(policies, s)
    requires SeparableParts(s.parts[id := partial])
    ensures Taken(policies, s, id, partial)
       <==> id.Valid() && ValidPartial(partial, id.target) && Accepts(policies, Only(s.parts[id := partial], id.target))
  {
    if id.Valid() && ValidPartial(partial, id.target) {
      var after := s.parts[id := partial];
      var ids := OrderExists(after.Keys);
      PublishKeepsParts(s.parts, id, partial);
      OthersStayAcceptable(policies, s, id, partial, ids);
      AcceptsIffOwn(policies, after, id.target, ids);
    }
  }

  /** What the other targets published was acceptable before and still is. */
  lemma OthersStayAcceptable(policies: Policies, s: State, id: CollectorID, partial: Snapshot, ids: seq<CollectorID>)
    requires Inv(policies, s) && SeparableParts(s.parts[id := partial]) && ValidPartial(partial, id.target)
    requires Covers(ids, s.parts)
    ensures Acceptable(policies, Filter(NotAbout(id.target), AllRecords(s.parts[id := partial], ids)))
  {
    OthersUntouched(s.parts, id, partial, ids);
    FewerPartsAreSeparable(s.parts, id, partial);
    PartsHaveSeparableTargets(s.parts, ids);
    SnapshotIsVisibleRecords(policies, s.parts, s.snapshot, ids);
    AcceptableSplits(policies, id.target, AllRecords(s.parts, ids));
  }

  lemma FewerPartsAreSeparable(parts: Parts, id: CollectorID, partial: Snapshot)
    requires SeparableParts(parts[id := partial])
    ensures SeparableParts(parts)
  {
  }

  /** If the others are acceptable, all is decided by the target's own partials. */
  lemma AcceptsIffOwn(policies: Policies, parts: Parts, t: string, ids: seq<CollectorID>)
    requires PartsValid(parts) && SeparableParts(parts) && Covers(ids, parts)
    requires Acceptable(policies, Filter(NotAbout(t), AllRecords(parts, ids)))
    ensures Accepts(policies, parts) <==> Accepts(policies, Only(parts, t))
  {
    RecordsOfOneTarget(parts, t, ids);
    PartsHaveSeparableTargets(parts, ids);
    AcceptableSplits(policies, t, AllRecords(parts, ids));
    AcceptsInAnyOrder(policies, parts, ids);
    AcceptsInAnyOrder(policies, Only(parts, t), ids);
  }

  lemma {:induction false} OthersKeepTheirView(t: string, u: string, a: seq<Record>, b: seq<Record>)
    requires t != u && Filter(NotAbout(t), a) == Filter(NotAbout(t), b)
    ensures OfTarget(u, a) == OfTarget(u, b)
  {
    OthersCount(t, u, a);
    OthersCount(t, u, b);
  }

  /** A publish for one target leaves every other target's exposed records alone. */
  lemma PublishLeavesOthersAlone(policies: Policies, s: State, op: Op, s': State, u: string)
    requires Inv(policies, s) && Step(policies, s, op, s') && op.Publish?
    requires u != op.id.target
    ensures Permutation(OfTarget(u, Records(s'.snapshot)), OfTarget(u, Records(s.snapshot)))
  {
    if Taken(policies, s, op.id, op.partial) {
      var ids := OrderExists(s'.parts.Keys);
      SnapshotIsVisibleRecords(policies, s.parts, s.snapshot, ids);
      SnapshotIsVisibleRecords(policies, s'.parts, s'.snapshot, ids);
      var a, b := AllRecords(s.parts, ids), AllRecords(s'.parts, ids);
      OthersUntouched(s.parts, op.id, op.partial, ids);
      OthersKeepTheirView(op.id.target, u, a, b);
      VisibleIsPerTarget(policies, u, a);
      VisibleIsPerTarget(policies, u, b);
      FilterPermutes(About(u), Records(s.snapshot), Visible(policies, a));
      FilterPermutes(About(u), Records(s'.snapshot), Visible(policies, b));
    }
  }

  ghost predicate SeparableOps(ops: seq<Op>) {
    forall a, b :: a in ops && b in ops ==> !Text.Confusable(a.id.target, b.id.target)
  }

  /** Target non-interference over every run. */
  lemma TargetsDoNotInterfere(policies: Policies, states: seq<State>, ops: seq<Op>, i: nat, u: string)
    requires IsRun(policies, states, ops) && i < |ops|
    requires SeparableOps(ops)
    ensures u != ops[i].id.target ==>
              Permutation(OfTarget(u, Records(states[i + 1].snapshot)), OfTarget(u, Records(states[i].snapshot)))
    ensures ops[i].Publish? ==>
              var id, partial, parts := ops[i].id, ops[i].partial, Replay(policies, ops[..i]);
              states[i + 1].parts != states[i].parts ==>
                ValidPartial(partial, id.target) && Accepts(policies, Only(parts[id := partial], id.target))
    ensures ops[i].Publish? ==>
              var id, partial, parts := ops[i].id, ops[i].partial, Replay(policies, ops[..i]);
              id.Valid() && ValidPartial(partial, id.target) && Accepts(policies, Only(parts[id := partial], id.target))
              ==> states[i + 1].parts == parts[id := partial]
  {
    CacheAgreesWithRebuild(policies, states[..i + 1], ops[..i]);
    if ops[i].Publish? {
      ReplayedPartsAreSeparable(policies, ops, i);
      AcceptanceIsLocal(policies, states[i], ops[i].id, ops[i].partial);
      if u != ops[i].id.target {
        PublishLeavesOthersAlone(policies, states[i], ops[i], states[i + 1], u);
      }
    }
  }

  lemma {:induction false} ReplayedTargetsAreOps(policies: Policies, ops: seq<Op>)
    ensures forall id :: id in Replay(policies, ops) ==> exists op :: op in ops && op.id == id
  {
    if ops != [] {
      ReplayedTargetsAreOps(policies, ops[..|ops| - 1]);
      assert ops[|ops| - 1] in ops;
    }
  }

  lemma ReplayedPartsAreSeparable(policies: Policies, ops: seq<Op>, i: nat)
    requires i < |ops| && ops[i].Publish? && SeparableOps(ops)
    ensures SeparableParts(Replay(policies, ops[..i])[ops[i].id := ops[i].partial])
  {
    var parts := Replay(policies, ops[..i])[ops[i].id := ops[i].partial];
    ReplayedTargetsAreOps(policies, ops[..i]);
    forall id | id in parts ensures exists op :: op in ops && op.id == id {
      if id == ops[i].id {
        assert ops[i] in ops;
      } else {
        var op :| op in ops[..i] && op.id == id;
        assert op in ops;
      }
    }
    forall a, b | a in parts && b in parts ensures !Text.Confusable(a.target, b.target) {
      var p :| p in ops && p.id == a;
      var q :| q in ops && q.id == b;
    }
  }

  /** Names without the delimiter are always separable. */
  lemma DelimiterFreeOpsAreSeparable(ops: seq<Op>)
    requires forall op :: op in ops ==> Text.DelimiterFree(op.id.target)
    ensures SeparableOps(ops)
  {
    forall a, b | a in ops && b in ops ensures !Text.Confusable(a.id.target, b.id.target) {
      Text.DelimiterFreeNeverConfused(a.id.target, b.id.target);
    }
  }

  // ----------------------------------------- which names let targets interfere

  /** Partials of two targets, each acceptable alone but not together. */
  ghost predicate Interfere(policies: Policies, a: CollectorID, b: CollectorID, x: Snapshot, y: Snapshot) {
    && a.target != b.target && ValidPartial(x, a.target) && ValidPartial(y, b.target)
    && Accepts(policies, map[a := x]) && Accepts(policies, map[b := y])
    && !Accepts(policies, map[a := x, b := y])
  }

  lemma AcceptsOne(policies: Policies, id: CollectorID, x: Snapshot)
    ensures Accepts(policies, map[id := x]) <==> Acceptable(policies, Records(x))
  {
    var parts := map[id := x];
    assert [id][1..] == [] && FlatMap(RecordsOf(parts), []) == [];
    assert AllRecords(parts, [id]) == Records(x);
    AcceptsInAnyOrder(policies, parts, [id]);
  }

  lemma AcceptsTwo(policies: Policies, a: CollectorID, b: CollectorID, x: Snapshot, y: Snapshot)
    requires a != b
    ensures Accepts(policies, map[a := x, b := y]) <==> Acceptable(policies, Records(x) + Records(y))
  {
    var parts := map[a := x, b := y];
    FlatMapOfTwo(RecordsOf(parts), a, b);
    AcceptsInAnyOrder(policies, parts, [a, b]);
  }

  lemma SeparableNeverInterfere(policies: Policies, a: CollectorID, b: CollectorID, x: Snapshot, y: Snapshot)
    requires a.target != b.target && ValidPartial(x, a.target) && ValidPartial(y, b.target)
    requires !Text.Confusable(a.target, b.target)
    ensures Accepts(policies, map[a := x, b := y]) <==> Accepts(policies, map[a := x]) && Accepts(policies, map[b := y])
  {
    var rs, t := Records(x) + Records(y), a.target;
    AcceptsOne(policies, a, x);
    AcceptsOne(policies, b, y);
    AcceptsTwo(policies, a, b, x, y);
    FilterAppend(About(t), Records(x), Records(y));
    FilterAppend(NotAbout(t), Records(x), Records(y));
    FilterAll(About(t), Records(x));
    FilterNone(About(t), Records(y));
    FilterNone(NotAbout(t), Records(x));
    FilterAll(NotAbout(t), Records(y));
    assert OfTarget(t, rs) == Records(x) && Filter(NotAbout(t), rs) == Records(y);
    AcceptableSplits(policies, t, rs);
  }

  function Lone(target: string, id: string): Snapshot { EMPTY.(accounts := [Account(target, id, "", "")]) }

  lemma LoneRecord(target: string, id: string)
    ensures Records(Lone(target, id)) == [AccountR(Account(target, id, "", ""))]
    ensures ValidPartial(Lone(target, id), target)
  {
  }

  lemma LoneIsAcceptable(target: string, id: string)
    ensures Acceptable(map[], Records(Lone(target, id)))
  {
  }

  /** A name that shadows another can take over what follows it in a key. */
  lemma ShadowedKeys(t: string, u: string)
    requires Text.Shadows(t, u)
    ensures Keys(AccountR(Account(t, u[|t| + 1..] + [Text.DELIMITER], "", "")))
         == Keys(AccountR(Account(u, "", "", "")))
  {
    var w := u[|t| + 1..];
    assert u == t + [Text.DELIMITER] + w && w + [Text.DELIMITER] + "" == w + [Text.DELIMITER];
    Text.JoinShift(t, w, "", ["", ""]);
    AccountKey(t, w + [Text.DELIMITER]);
    AccountKey(u, "");
  }

  lemma AccountKey(t: string, id: string)
    ensures Keys(AccountR(Account(t, id, "", ""))) == ["account" + [Text.DELIMITER] + Text.Join([t, id] + ["", ""])]
  {
  }

  lemma SharedValue<T, U>(f: T -> seq<U>, p: T, q: T)
    requires f(p) == f(q) && f(p) != []
    ensures !Distinct(FlatMap(f, [p, q]))
  {
    FlatMapOfTwo(f, p, q);
    var all := f(p) + f(q);
    assert all[0] == f(p)[0] && all[|f(p)|] == f(q)[0];
  }

  lemma SharedKeysAreRefused(p: Record, q: Record)
    requires p.AccountR? && Keys(p) == Keys(q)
    ensures !UniqueRecords([p, q])
  {
    SharedValue(Keys, p, q);
  }

  lemma ShadowsInterfere(a: CollectorID, b: CollectorID) returns (x: Snapshot, y: Snapshot)
    requires Text.Shadows(a.target, b.target)
    ensures Interfere(map[], a, b, x, y)
  {
    var id := b.target[|a.target| + 1..] + [Text.DELIMITER];
    x, y := Lone(a.target, id), Lone(b.target, "");
    LoneRecord(a.target, id);
    LoneRecord(b.target, "");
    LoneIsAcceptable(a.target, id);
    LoneIsAcceptable(b.target, "");
    AcceptsOne(map[], a, x);
    AcceptsOne(map[], b, y);
    AcceptsTwo(map[], a, b, x, y);
    ShadowedKeys(a.target, b.target);
    var p, q := Records(x)[0], Records(y)[0];
    assert Records(x) + Records(y) == [p, q];
    SharedKeysAreRefused(p, q);
  }

  lemma InterfereIsSymmetric(policies: Policies, a: CollectorID, b: CollectorID, x: Snapshot, y: Snapshot)
    requires Interfere(policies, a, b, x, y)
    ensures Interfere(policies, b, a, y, x)
  {
    assert map[a := x, b := y] == map[b := y, a := x];
  }

  /** Two targets can interfere if and only if one's name, followed by '|', begins
      the other's: then an account of the first can carry the rest in its id. */
  lemma TargetsInterfereIff(a: CollectorID, b: CollectorID)
    requires a.target != b.target
    ensures (exists policies, x, y :: Interfere(policies, a, b, x, y)) <==> Text.Confusable(a.target, b.target)
  {
    if Text.Shadows(a.target, b.target) {
      var x, y := ShadowsInterfere(a, b);
    } else if Text.Shadows(b.target, a.target) {
      var y, x := ShadowsInterfere(b, a);
      InterfereIsSymmetric(map[], b, a, y, x);
    } else {
      forall policies, x, y ensures !Interfere(policies, a, b, x, y) {
        if Interfere(policies, a, b, x, y) {
          SeparableNeverInterfere(policies, a, b, x, y);
        }
      }
    }
  }
}
