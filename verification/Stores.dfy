/** What the snapshot cache computes: the merge of all collectors' partials, the
    organization-account policy applied to it, and when a merge is accepted. */
module Stores {
  import opened Bags
  import opened Domain
  import opened Snapshots

  /** Metadata exposure of one target: an allowlist, or the observed accounts. */
  datatype Policy = Policy(accountIDs: seq<string>, seriesLimit: int)

  type Policies = map<string, Policy>

  datatype Refusal = InvalidCollector | InvalidSnapshot | SeriesLimit

  predicate AccountNumber(v: string) {
    |v| == 12 && forall i :: 0 <= i < |v| ==> '0' <= v[i] <= '9'
  }

  predicate NamesAccount(r: Record) {
    r.CostR? && r.cost.dimension.kind == ACCOUNT && AccountNumber(r.cost.dimension.value)
  }

  /** The (target, account) pairs that appear in account-cost records. */
  function Observed(rs: seq<Record>): set<(string, string)> {
    set r | r in rs && NamesAccount(r) :: (r.cost.target, r.cost.dimension.value)
  }

  predicate Selects(policies: Policies, observed: set<(string, string)>, a: Account) {
    && a.target in policies
    && (if policies[a.target].accountIDs == [] then (a.target, a.accountID) in observed
        else a.accountID in policies[a.target].accountIDs)
  }

  predicate Keeps(policies: Policies, observed: set<(string, string)>, r: Record) {
    policies == map[] || !r.AccountR? || Selects(policies, observed, r.account)
  }

  function Keeper(policies: Policies, observed: set<(string, string)>): Record -> bool {
    r => Keeps(policies, observed, r)
  }

  /** The records left once the account policy has been applied. */
  function Visible(policies: Policies, rs: seq<Record>): seq<Record> {
    Filter(Keeper(policies, Observed(rs)), rs)
  }

  function About(target: string): Record -> bool { r => Target(r) == target }

  function OfTarget(target: string, rs: seq<Record>): seq<Record> { Filter(About(target), rs) }

  function AccountAbout(target: string): Record -> bool { (r: Record) => r.AccountR? && r.account.target == target }

  function AccountCount(target: string, rs: seq<Record>): nat { |Filter(AccountAbout(target), rs)| }

  predicate WithinLimits(policies: Policies, rs: seq<Record>) {
    forall t :: t in policies ==>
      var n := AccountCount(t, Visible(policies, rs));
      n > 0 ==> n <= policies[t].seriesLimit
  }

  /** When a collection of records may be published together. */
  ghost predicate Acceptable(policies: Policies, rs: seq<Record>) {
    UniqueRecords(rs) && WithinLimits(policies, rs)
  }

  /** The accounts a merged snapshot may expose. */
  function Selected(policies: Policies, merged: Snapshot): seq<Account> {
    var observed := Observed(Records(merged));
    Filter((a: Account) => Selects(policies, observed, a), merged.accounts)
  }

  function AccountsOf(target: string, accounts: seq<Account>): seq<Account> {
    Filter((a: Account) => a.target == target, accounts)
  }

  predicate OverLimit(policies: Policies, selected: seq<Account>) {
    exists t :: t in policies
      && |AccountsOf(t, selected)| > 0 && |AccountsOf(t, selected)| > policies[t].seriesLimit
  }

  /** The second half of `mergeParts`: uniqueness, then the account policy. */
  ghost function Publishable(policies: Policies, merged: Snapshot): Result<Snapshot, Refusal> {
    if !Unique(merged) then Err(InvalidSnapshot)
    else if policies == map[] then Ok(merged)
    else if OverLimit(policies, Selected(policies, merged)) then Err(SeriesLimit)
    else
      var result := NewWithData(merged.(accounts := Selected(policies, merged)));
      if !Unique(result) then Err(InvalidSnapshot) else Ok(result)
  }

  /** `mergeParts`, for the partials in the order the map happened to yield them. */
  ghost function MergeParts(policies: Policies, values: seq<Snapshot>): Result<Snapshot, Refusal> {
    Publishable(policies, Merge(values))
  }

  // ------------------------------------------------- order does not matter

  lemma UniqueForgetsOrder(a: seq<Record>, b: seq<Record>)
    requires Permutation(a, b)
    ensures UniqueRecords(a) <==> UniqueRecords(b)
  {
    PermutationFacts(a, b);
    FlatMapPermutes(Keys, a, b);
    DistinctPermutes(FlatMap(Keys, a), FlatMap(Keys, b));
  }

  lemma ObservedForgetsOrder(a: seq<Record>, b: seq<Record>)
    requires Permutation(a, b)
    ensures Observed(a) == Observed(b)
  {
    PermutationFacts(a, b);
  }

  lemma VisibleForgetsOrder(policies: Policies, a: seq<Record>, b: seq<Record>)
    requires Permutation(a, b)
    ensures Permutation(Visible(policies, a), Visible(policies, b))
  {
    ObservedForgetsOrder(a, b);
    FilterPermutes(Keeper(policies, Observed(a)), a, b);
  }

  lemma AccountCountForgetsOrder(t: string, a: seq<Record>, b: seq<Record>)
    requires Permutation(a, b)
    ensures AccountCount(t, a) == AccountCount(t, b)
  {
    FilterPermutes(AccountAbout(t), a, b);
    PermutationFacts(Filter(AccountAbout(t), a), Filter(AccountAbout(t), b));
  }

  lemma AcceptableForgetsOrder(policies: Policies, a: seq<Record>, b: seq<Record>)
    requires Permutation(a, b)
    ensures Acceptable(policies, a) <==> Acceptable(policies, b)
    ensures WithinLimits(policies, a) <==> WithinLimits(policies, b)
  {
    UniqueForgetsOrder(a, b);
    VisibleForgetsOrder(policies, a, b);
    forall t | t in policies
      ensures AccountCount(t, Visible(policies, a)) == AccountCount(t, Visible(policies, b))
    {
      AccountCountForgetsOrder(t, Visible(policies, a), Visible(policies, b));
    }
  }

  // ------------------------------------------- accounts inside the record list

  lemma OnlyAccountsInTheMiddle(s: Snapshot, r: Record)
    requires r in Leading(s) || r in Trailing(s)
    ensures !r.AccountR?
  {
  }

  lemma {:induction false} FilterOfMap<T, U>(f: T -> U, p: U -> bool, q: T -> bool, s: seq<T>)
    requires forall x :: x in s ==> q(x) == p(f(x))
    ensures Filter(p, Map(f, s)) == Map(f, Filter(q, s))
  {
    if s != [] {
      assert forall x :: x in s[1..] ==> x in s;
      FilterOfMap(f, p, q, s[1..]);
      assert Map(f, s)[1..] == Map(f, s[1..]) && Map(f, s)[0] == f(s[0]);
      MapAppend(f, [s[0]], Filter(q, s[1..]));
      assert Map(f, [s[0]]) == [f(s[0])];
    }
  }

  lemma FilterAccountRecords(xs: seq<Account>, p: Record -> bool)
    ensures Filter(p, AccountRecords(xs)) == AccountRecords(Filter((a: Account) => p(AccountR(a)), xs))
  {
    FilterOfMap((a: Account) => AccountR(a), p, (a: Account) => p(AccountR(a)), xs);
  }

  lemma FilterInThree(s: Snapshot, p: Record -> bool)
    ensures Filter(p, Records(s))
         == Filter(p, Leading(s)) + AccountRecords(Filter((a: Account) => p(AccountR(a)), s.accounts))
            + Filter(p, Trailing(s))
  {
    FilterAppend(p, Leading(s) + AccountRecords(s.accounts), Trailing(s));
    FilterAppend(p, Leading(s), AccountRecords(s.accounts));
    FilterAccountRecords(s.accounts, p);
  }

  /** A test that only accounts can fail filters a snapshot's accounts. */
  lemma FilterOnAccounts(s: Snapshot, p: Record -> bool, q: Account -> bool)
    requires forall r: Record :: p(r) == (r.AccountR? ==> q(r.account))
    ensures Filter(p, Records(s)) == Records(s.(accounts := Filter(q, s.accounts)))
  {
    forall r | r in Leading(s) || r in Trailing(s) ensures p(r) { OnlyAccountsInTheMiddle(s, r); }
    FilterInThree(s, p);
    FilterAll(p, Leading(s));
    FilterAll(p, Trailing(s));
    FilterAgrees((a: Account) => p(AccountR(a)), q, s.accounts);
  }

  /** A test that only accounts can pass selects from a snapshot's accounts. */
  lemma SelectAccounts(s: Snapshot, p: Record -> bool, q: Account -> bool)
    requires forall r: Record :: p(r) == (r.AccountR? && q(r.account))
    ensures Filter(p, Records(s)) == AccountRecords(Filter(q, s.accounts))
  {
    forall r | r in Leading(s) || r in Trailing(s) ensures !p(r) { OnlyAccountsInTheMiddle(s, r); }
    FilterInThree(s, p);
    FilterNone(p, Leading(s));
    FilterNone(p, Trailing(s));
    FilterAgrees((a: Account) => p(AccountR(a)), q, s.accounts);
  }

  lemma CountAccounts(s: Snapshot, t: string)
    ensures AccountCount(t, Records(s)) == |Filter((a: Account) => a.target == t, s.accounts)|
  {
    SelectAccounts(s, AccountAbout(t), (a: Account) => a.target == t);
  }

  // -------------------------------------------------- the meaning of a merge

  lemma {:induction false} UniqueIsInherited(p: Record -> bool, rs: seq<Record>)
    requires UniqueRecords(rs)
    ensures UniqueRecords(Filter(p, rs))
  {
    forall r | r in Filter(p, rs) ensures IdentityValid(r) { InFilter(p, rs, r); }
    if rs != [] {
      var r, rest := rs[0], rs[1..];
      assert forall x :: x in rest ==> x in rs;
      DistinctAppend(Keys(r), FlatMap(Keys, rest));
      UniqueIsInherited(p, rest);
      if p(r) {
        forall k | k in Keys(r) ensures k !in FlatMap(Keys, Filter(p, rest)) {
          if k in FlatMap(Keys, Filter(p, rest)) {
            InFlatMap(Keys, Filter(p, rest), k);
            var q :| q in Filter(p, rest) && k in Keys(q);
            InFilter(p, rest, q);
            InFlatMap(Keys, rest, k);
          }
        }
        DistinctAppend(Keys(r), FlatMap(Keys, Filter(p, rest)));
        assert ([r] + Filter(p, rest))[1..] == Filter(p, rest);
      }
    }
  }

  /** Selecting accounts leaves exactly the visible records. */
  lemma SelectionMeaning(policies: Policies, merged: Snapshot)
    requires policies != map[]
    ensures Records(merged.(accounts := Selected(policies, merged))) == Visible(policies, Records(merged))
  {
    var observed := Observed(Records(merged));
    FilterOnAccounts(merged, Keeper(policies, observed), (a: Account) => Selects(policies, observed, a));
  }

  lemma LimitMeaning(policies: Policies, merged: Snapshot)
    requires policies != map[]
    ensures OverLimit(policies, Selected(policies, merged)) <==> !WithinLimits(policies, Records(merged))
  {
    SelectionMeaning(policies, merged);
    forall t ensures AccountCount(t, Visible(policies, Records(merged)))
                  == |AccountsOf(t, Selected(policies, merged))|
    {
      CountAccounts(merged.(accounts := Selected(policies, merged)), t);
    }
  }

  lemma PublishableMeaning(policies: Policies, merged: Snapshot)
    ensures var rs, result := Records(merged), Publishable(policies, merged);
            && (result.Ok? <==> Acceptable(policies, rs))
            && (result.Ok? ==> Permutation(Records(result.value), Visible(policies, rs)))
            && (result.Err? ==> result.error == if UniqueRecords(rs) then SeriesLimit else InvalidSnapshot)
  {
    var rs := Records(merged);
    if Unique(merged) && policies == map[] {
      FilterAll(Keeper(policies, Observed(rs)), rs);
    } else if Unique(merged) {
      LimitMeaning(policies, merged);
      SelectionMeaning(policies, merged);
      var chosen := merged.(accounts := Selected(policies, merged));
      SortKeepsRecords(chosen);
      UniqueIsInherited(Keeper(policies, Observed(rs)), rs);
      UniqueForgetsOrder(Records(NewWithData(chosen)), Records(chosen));
    }
  }

  /** A merge succeeds exactly when its records are acceptable, and then holds
      exactly the visible ones; a refusal names what was wrong. */
  lemma MergeMeaning(policies: Policies, values: seq<Snapshot>)
    ensures var rs, result := FlatMap(Records, values), MergeParts(policies, values);
            && (result.Ok? <==> Acceptable(policies, rs))
            && (result.Ok? ==> Permutation(Records(result.value), Visible(policies, rs)))
            && (result.Err? ==> result.error == if UniqueRecords(rs) then SeriesLimit else InvalidSnapshot)
  {
    var rs, ms := FlatMap(Records, values), Records(Merge(values));
    MergeKeepsRecords(values);
    UniqueForgetsOrder(ms, rs);
    AcceptableForgetsOrder(policies, ms, rs);
    VisibleForgetsOrder(policies, ms, rs);
    PublishableMeaning(policies, Merge(values));
  }
}
