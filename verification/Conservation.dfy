/** The per-collector series counts add up to the series of the snapshot, exactly
    as long as no exposed account is claimed by two collectors of its target. */
module Conservation {
  import opened Bags
  import opened Domain
  import opened Snapshots
  import opened Stores
  import opened Caches
  import Collisions
  import Isolation
  import Text

  function PlainSeries(r: Record): int { if r.AccountR? then 0 else Series(r) }

  predicate PublishesAccounts(parts: Parts, id: CollectorID) { id in parts && parts[id].accounts != [] }

  function SeriesIn(statuses: map<CollectorID, Status>): CollectorID -> int {
    (id: CollectorID) => if id in statuses then statuses[id].series else 0
  }

  /** The accounts a collector is credited with. */
  function Credit(parts: Parts, accounts: seq<Account>): CollectorID -> int {
    (id: CollectorID) => if PublishesAccounts(parts, id) then |AccountsOf(id.target, accounts)| else 0
  }

  function Plain(parts: Parts): CollectorID -> int {
    (id: CollectorID) => Sum(PlainSeries, RecordsOf(parts)(id))
  }

  /** No exposed account has two publishing collectors. */
  ghost predicate AccountsClaimedOnce(parts: Parts, accounts: seq<Account>) {
    forall p, q :: !Contested(parts, accounts, p, q)
  }

  // ------------------------------------------------------------ plain records

  lemma {:induction false} PlainSeriesSplit(rs: seq<Record>)
    ensures Sum(Series, rs) == Sum(PlainSeries, rs) + |Filter((r: Record) => r.AccountR?, rs)|
  {
    if rs != [] {
      PlainSeriesSplit(rs[1..]);
    }
  }

  lemma SeriesCountSplits(s: Snapshot)
    ensures SeriesCount(s) == Sum(PlainSeries, Records(s)) + |s.accounts|
  {
    PlainSeriesSplit(Records(s));
    SelectAccounts(s, (r: Record) => r.AccountR?, (a: Account) => true);
    FilterAll((a: Account) => true, s.accounts);
  }

  lemma {:induction false} HidingAccountsKeepsPlainSeries(p: Record -> bool, rs: seq<Record>)
    requires forall r: Record :: !r.AccountR? ==> p(r)
    ensures Sum(PlainSeries, Filter(p, rs)) == Sum(PlainSeries, rs)
  {
    if rs != [] {
      HidingAccountsKeepsPlainSeries(p, rs[1..]);
    }
  }

  lemma {:induction false} SumOfTwo(
    f: CollectorID -> int, g: CollectorID -> int, h: CollectorID -> int, ids: seq<CollectorID>)
    requires forall id :: id in ids ==> h(id) == f(id) + g(id)
    ensures Sum(h, ids) == Sum(f, ids) + Sum(g, ids)
  {
    if ids != [] {
      assert forall id :: id in ids[1..] ==> id in ids;
      SumOfTwo(f, g, h, ids[1..]);
    }
  }

  lemma PlainSeriesAddUp(policies: Policies, s: State, ids: seq<CollectorID>)
    requires Inv(policies, s) && Covers(ids, s.parts)
    ensures Sum(Plain(s.parts), ids) == Sum(PlainSeries, Records(s.snapshot))
  {
    var rs := AllRecords(s.parts, ids);
    SnapshotIsVisibleRecords(policies, s.parts, s.snapshot, ids);
    SumOfFlatMap(RecordsOf(s.parts), PlainSeries, Plain(s.parts), ids);
    HidingAccountsKeepsPlainSeries(Keeper(policies, Observed(rs)), rs);
    SumPermutes(PlainSeries, Records(s.snapshot), Visible(policies, rs));
  }

  // ----------------------------------------------------------------- accounts

  function Publishers(parts: Parts, ids: seq<CollectorID>): set<string> {
    set id | id in ids && PublishesAccounts(parts, id) :: id.target
  }

  function In(targets: set<string>): Account -> bool { (a: Account) => a.target in targets }

  lemma {:induction false} CountOneMoreTarget(t: string, targets: set<string>, accounts: seq<Account>)
    requires t !in targets
    ensures |Filter(In(targets + {t}), accounts)| == |Filter(In(targets), accounts)| + |AccountsOf(t, accounts)|
  {
    if accounts != [] {
      CountOneMoreTarget(t, targets, accounts[1..]);
    }
  }

  /** How often an account is credited beyond the first time. */
  ghost function Excess(parts: Parts, accounts: seq<Account>, ids: seq<CollectorID>): nat {
    if ids == [] then 0
    else if PublishesAccounts(parts, ids[0]) && ids[0].target in Publishers(parts, ids[1..]) then
      |AccountsOf(ids[0].target, accounts)| + Excess(parts, accounts, ids[1..])
    else Excess(parts, accounts, ids[1..])
  }

  lemma {:induction false} CreditsCountAccounts(parts: Parts, accounts: seq<Account>, ids: seq<CollectorID>)
    ensures Sum(Credit(parts, accounts), ids)
         == |Filter(In(Publishers(parts, ids)), accounts)| + Excess(parts, accounts, ids)
  {
    if ids == [] {
      assert Publishers(parts, ids) == {};
      FilterNone(In(Publishers(parts, ids)), accounts);
    } else {
      var id, rest := ids[0], ids[1..];
      CreditsCountAccounts(parts, accounts, rest);
      var targets := Publishers(parts, rest);
      assert ids == [id] + rest;
      if PublishesAccounts(parts, id) {
        assert Publishers(parts, ids) == targets + {id.target};
        if id.target in targets {
          assert targets + {id.target} == targets;
        } else {
          CountOneMoreTarget(id.target, targets, accounts);
        }
      } else {
        assert Publishers(parts, ids) == targets;
      }
    }
  }

  /** Two collectors of one target both claim its exposed accounts. */
  predicate Contested(parts: Parts, accounts: seq<Account>, p: CollectorID, q: CollectorID) {
    && PublishesAccounts(parts, p) && PublishesAccounts(parts, q)
    && p != q && p.target == q.target && AccountsOf(p.target, accounts) != []
  }

  /** The head adds to the excess exactly when it contests with one of the rest. */
  lemma HeadContests(parts: Parts, accounts: seq<Account>, id: CollectorID, rest: seq<CollectorID>)
    requires id !in rest
    ensures (PublishesAccounts(parts, id) && id.target in Publishers(parts, rest)
             && AccountsOf(id.target, accounts) != [])
       <==> exists q :: q in rest && Contested(parts, accounts, id, q)
  {
  }

  lemma {:induction false} NoExcess(parts: Parts, accounts: seq<Account>, ids: seq<CollectorID>)
    requires Distinct(ids)
    ensures Excess(parts, accounts, ids) == 0 <==>
            forall p, q :: p in ids && q in ids ==> !Contested(parts, accounts, p, q)
  {
    if ids != [] {
      var id, rest := ids[0], ids[1..];
      assert id !in rest;
      NoExcess(parts, accounts, rest);
      HeadContests(parts, accounts, id, rest);
      ContestedPairs(parts, accounts, id, rest);
      assert ids == [id] + rest;
    }
  }

  /** A contested pair lies within the rest or involves the head. */
  lemma ContestedPairs(parts: Parts, accounts: seq<Account>, id: CollectorID, rest: seq<CollectorID>)
    ensures (forall p, q :: p in [id] + rest && q in [id] + rest ==> !Contested(parts, accounts, p, q)) <==>
            && (forall p, q :: p in rest && q in rest ==> !Contested(parts, accounts, p, q))
            && (forall q :: q in rest ==> !Contested(parts, accounts, id, q))
  {
  }

  lemma RecordedAccountHasPublisher(parts: Parts, ids: seq<CollectorID>, a: Account)
    requires PartsValid(parts) && AccountR(a) in AllRecords(parts, ids)
    ensures a.target in Publishers(parts, ids)
  {
    InFlatMap(RecordsOf(parts), ids, AccountR(a));
    var id :| id in ids && AccountR(a) in RecordsOf(parts)(id);
    assert id in parts && RecordsOf(parts)(id) == Records(parts[id]);
    RecordedAccounts(parts[id], a);
    assert Target(AccountR(a)) == id.target && PublishesAccounts(parts, id);
  }

  lemma ExposedAccountsHavePublishers(policies: Policies, s: State, ids: seq<CollectorID>)
    requires Inv(policies, s) && Covers(ids, s.parts)
    ensures Filter(In(Publishers(s.parts, ids)), s.snapshot.accounts) == s.snapshot.accounts
  {
    var rs, shown := AllRecords(s.parts, ids), s.snapshot;
    SnapshotIsVisibleRecords(policies, s.parts, shown, ids);
    PermutationFacts(Records(shown), Visible(policies, rs));
    forall a | a in shown.accounts ensures a.target in Publishers(s.parts, ids) {
      AccountIsRecorded(shown, a);
      InFilter(Keeper(policies, Observed(rs)), rs, AccountR(a));
      RecordedAccountHasPublisher(s.parts, ids, a);
    }
    FilterAll(In(Publishers(s.parts, ids)), shown.accounts);
  }

  lemma AccountIsRecorded(s: Snapshot, a: Account)
    requires a in s.accounts
    ensures AccountR(a) in Records(s)
  {
  }

  lemma RecordedAccounts(s: Snapshot, a: Account)
    requires AccountR(a) in Records(s)
    ensures s.accounts != []
  {
  }

  // -------------------------------------------------------------- main theorem

  lemma CollectorSeriesSplit(s: State, id: CollectorID)
    requires SeriesCurrent(s) && id in s.statuses
    ensures s.statuses[id].series == Plain(s.parts)(id) + Credit(s.parts, s.snapshot.accounts)(id)
  {
    if id in s.parts {
      assert RecordsOf(s.parts)(id) == Records(s.parts[id]);
      SeriesCountSplits(s.parts[id]);
    } else {
      assert RecordsOf(s.parts)(id) == [];
    }
  }

  lemma ConservationInState(policies: Policies, s: State, ids: seq<CollectorID>)
    requires Inv(policies, s)
    requires Distinct(ids) && forall id :: id in ids <==> id in s.statuses
    ensures Sum(SeriesIn(s.statuses), ids)
         == SeriesCount(s.snapshot) + Excess(s.parts, s.snapshot.accounts, ids)
    ensures Excess(s.parts, s.snapshot.accounts, ids) == 0 <==> AccountsClaimedOnce(s.parts, s.snapshot.accounts)
  {
    var accounts := s.snapshot.accounts;
    forall id | id in ids
      ensures SeriesIn(s.statuses)(id) == Plain(s.parts)(id) + Credit(s.parts, accounts)(id)
    {
      CollectorSeriesSplit(s, id);
    }
    SumOfTwo(Plain(s.parts), Credit(s.parts, accounts), SeriesIn(s.statuses), ids);
    PlainSeriesAddUp(policies, s, ids);
    CreditsCountAccounts(s.parts, accounts, ids);
    ExposedAccountsHavePublishers(policies, s, ids);
    SeriesCountSplits(s.snapshot);
    NoExcess(s.parts, accounts, ids);
  }

  /** In every reachable state, listed in any order, the collectors' series counts
      sum to the snapshot's exactly when no exposed account is claimed twice; a
      second claim always makes the sum too large. */
  lemma SeriesAreConserved(policies: Policies, states: seq<State>, ops: seq<Op>, ids: seq<CollectorID>)
    requires IsRun(policies, states, ops)
    requires Distinct(ids) && forall id :: id in ids <==> id in states[|ops|].statuses
    ensures var s := states[|ops|];
            && Sum(SeriesIn(s.statuses), ids) >= SeriesCount(s.snapshot)
            && (Sum(SeriesIn(s.statuses), ids) == SeriesCount(s.snapshot)
                <==> AccountsClaimedOnce(s.parts, s.snapshot.accounts))
  {
    CacheAgreesWithRebuild(policies, states, ops);
    ConservationInState(policies, states[|ops|], ids);
  }

  // ------------------------------------------------- a run that counts twice

  const FIRST := CollectorID("t", "one")
  const SECOND := CollectorID("t", "two")

  /** One account of target t, exposed by a collector of its own. */
  function OneAccount(id: string): Snapshot { Isolation.Lone("t", id) }

  lemma AccountKeysDiffer()
    ensures var p, q := AccountR(Account("t", "1", "", "")), AccountR(Account("t", "2", "", ""));
            |Keys(p)| == 1 && |Keys(q)| == 1 && Keys(p)[0] != Keys(q)[0]
  {
    var p, q := AccountR(Account("t", "1", "", "")), AccountR(Account("t", "2", "", ""));
    assert KeyFields(p)[0][2] != KeyFields(q)[0][2];
    Text.JoinsDiffer(KeyFields(p)[0], KeyFields(q)[0]);
  }

  lemma TwoAccountsAreUnique()
    ensures Acceptable(map[], Records(OneAccount("1")) + Records(OneAccount("2")))
  {
    Isolation.LoneRecord("t", "1");
    Isolation.LoneRecord("t", "2");
    AccountKeysDiffer();
    var p, q := AccountR(Account("t", "1", "", "")), AccountR(Account("t", "2", "", ""));
    Collisions.PairIsUnique(p, q);
    assert [p] + [q] == [p, q];
  }

  /** Two accepted publishes after which the collectors' counts exceed the snapshot's. */
  ghost predicate CountsTwice(states: seq<State>, ops: seq<Op>, ids: seq<CollectorID>) {
    && IsRun(map[], states, ops) && |ops| == 2
    && states[2].parts == map[FIRST := OneAccount("1"), SECOND := OneAccount("2")]
    && Distinct(ids) && (forall id :: id in ids <==> id in states[2].statuses)
    && Sum(SeriesIn(states[2].statuses), ids) > SeriesCount(states[2].snapshot)
  }

  lemma FirstIsTaken()
    ensures Taken(map[], INITIAL, FIRST, OneAccount("1"))
  {
    Isolation.LoneRecord("t", "1");
    Isolation.LoneIsAcceptable("t", "1");
    Isolation.AcceptsOne(map[], FIRST, OneAccount("1"));
    assert INITIAL.parts[FIRST := OneAccount("1")] == map[FIRST := OneAccount("1")];
  }

  lemma SecondIsTaken(s: State)
    requires s.parts == map[FIRST := OneAccount("1")]
    ensures Taken(map[], s, SECOND, OneAccount("2"))
  {
    Isolation.LoneRecord("t", "2");
    TwoAccountsAreUnique();
    Isolation.AcceptsTwo(map[], FIRST, SECOND, OneAccount("1"), OneAccount("2"));
    assert s.parts[SECOND := OneAccount("2")] == map[FIRST := OneAccount("1"), SECOND := OneAccount("2")];
  }

  lemma RunOfTwo(policies: Policies, s: State, s': State, first: Op, second: Op)
    requires Step(policies, INITIAL, first, s) && Step(policies, s, second, s')
    ensures IsRun(policies, [INITIAL, s, s'], [first, second])
  {
  }

  lemma PublishBoth() returns (states: seq<State>, ops: seq<Op>)
    ensures |states| == 3 && IsRun(map[], states, ops) && |ops| == 2
    ensures states[2].parts == map[FIRST := OneAccount("1"), SECOND := OneAccount("2")]
  {
    FirstIsTaken();
    var s := PublishProceeds(map[], INITIAL, FIRST, OneAccount("1"), 1);
    assert s.parts == map[FIRST := OneAccount("1")];
    SecondIsTaken(s);
    var s' := PublishProceeds(map[], s, SECOND, OneAccount("2"), 2);
    var first, second := Publish(FIRST, OneAccount("1"), 1), Publish(SECOND, OneAccount("2"), 2);
    RunOfTwo(map[], s, s', first, second);
    states, ops := [INITIAL, s, s'], [first, second];
  }

  /** Without policies every recorded account is exposed. */
  lemma RecordedIsExposed(s: State, ids: seq<CollectorID>, id: CollectorID, a: Account)
    requires Rebuilt(map[], s.parts, s.snapshot) && Covers(ids, s.parts)
    requires id in ids && AccountR(a) in RecordsOf(s.parts)(id)
    ensures a in s.snapshot.accounts
  {
    var rs := AllRecords(s.parts, ids);
    SnapshotIsVisibleRecords(map[], s.parts, s.snapshot, ids);
    InFlatMap(RecordsOf(s.parts), ids, AccountR(a));
    FilterAll(Keeper(map[], Observed(rs)), rs);
    PermutationFacts(Records(s.snapshot), rs);
    ExposedAccount(s.snapshot, a);
  }

  lemma FirstIsRecorded(parts: Parts)
    requires FIRST in parts && parts[FIRST] == OneAccount("1")
    ensures AccountR(Account("t", "1", "", "")) in RecordsOf(parts)(FIRST)
  {
    Isolation.LoneRecord("t", "1");
    assert RecordsOf(parts)(FIRST) == [AccountR(Account("t", "1", "", ""))];
  }

  lemma FirstIsExposed(s: State)
    requires Rebuilt(map[], s.parts, s.snapshot) && FIRST in s.parts && s.parts[FIRST] == OneAccount("1")
    ensures Account("t", "1", "", "") in s.snapshot.accounts
  {
    var ids := OrderExists(s.parts.Keys);
    FirstIsRecorded(s.parts);
    RecordedIsExposed(s, ids, FIRST, Account("t", "1", "", ""));
  }

  lemma ClaimIsContested(parts: Parts, accounts: seq<Account>)
    requires parts == map[FIRST := OneAccount("1"), SECOND := OneAccount("2")]
    requires Account("t", "1", "", "") in accounts
    ensures Contested(parts, accounts, FIRST, SECOND)
  {
    TargetHasAccount(accounts, Account("t", "1", "", ""));
  }

  lemma TargetHasAccount(accounts: seq<Account>, a: Account)
    requires a in accounts
    ensures AccountsOf(a.target, accounts) != []
  {
    InFilter((x: Account) => x.target == a.target, accounts, a);
  }

  lemma ExposedAccount(s: Snapshot, a: Account)
    requires AccountR(a) in Records(s)
    ensures a in s.accounts
  {
  }

  /** Two collectors of one target that publish an account each are enough. */
  lemma SeriesCanBeCountedTwice()
    ensures exists states, ops, ids :: CountsTwice(states, ops, ids)
  {
    var states, ops := PublishBoth();
    var ids := OrderExists(states[2].statuses.Keys);
    ContestedInTheEnd(states, ops);
    ContestedIsOvercounted(map[], states, ops, ids, FIRST, SECOND);
    assert CountsTwice(states, ops, ids);
  }

  lemma ContestedInTheEnd(states: seq<State>, ops: seq<Op>)
    requires IsRun(map[], states, ops)
    requires states[|ops|].parts == map[FIRST := OneAccount("1"), SECOND := OneAccount("2")]
    ensures Contested(states[|ops|].parts, states[|ops|].snapshot.accounts, FIRST, SECOND)
  {
    CacheAgreesWithRebuild(map[], states, ops);
    FirstIsExposed(states[|ops|]);
    ClaimIsContested(states[|ops|].parts, states[|ops|].snapshot.accounts);
  }

  lemma ContestedIsOvercounted(
    policies: Policies, states: seq<State>, ops: seq<Op>, ids: seq<CollectorID>, p: CollectorID, q: CollectorID)
    requires IsRun(policies, states, ops)
    requires Distinct(ids) && forall id :: id in ids <==> id in states[|ops|].statuses
    requires Contested(states[|ops|].parts, states[|ops|].snapshot.accounts, p, q)
    ensures Sum(SeriesIn(states[|ops|].statuses), ids) > SeriesCount(states[|ops|].snapshot)
  {
    SeriesAreConserved(policies, states, ops, ids);
  }
}
