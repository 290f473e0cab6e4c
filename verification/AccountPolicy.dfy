/** Which accounts a snapshot exposes, and when there are too many of them, in the
    policy's own terms. */
module AccountPolicy {
  import opened Bags
  import opened Domain
  import opened Snapshots
  import opened Stores
  import opened Caches

  /** Twelve digits. */
  predicate TwelveDigits(v: string) {
    |v| == 12 && forall c :: c in v ==> c in ['0', '1', '2', '3', '4', '5', '6', '7', '8', '9']
  }

  /** An account cost of the target was observed for that account number. */
  predicate CostObserved(rs: seq<Record>, target: string, account: string) {
    TwelveDigits(account)
    && exists r :: r in rs && r.CostR? && r.cost.target == target && r.cost.dimension == Dimension("account", account)
  }

  /** Without policies all accounts are exposed; otherwise those of a target with a
      policy: the listed ones, or with an empty list those with an account cost. */
  predicate MayExpose(policies: Policies, rs: seq<Record>, a: Account) {
    || policies == map[]
    || (&& a.target in policies
        && (if |policies[a.target].accountIDs| > 0 then a.accountID in policies[a.target].accountIDs
            else CostObserved(rs, a.target, a.accountID)))
  }

  function Exposing(policies: Policies, rs: seq<Record>, target: string): Record -> bool {
    (r: Record) => r.AccountR? && r.account.target == target && MayExpose(policies, rs, r.account)
  }

  lemma ObservedIff(rs: seq<Record>, target: string, account: string)
    ensures (target, account) in Observed(rs) <==> CostObserved(rs, target, account)
  {
    if (target, account) in Observed(rs) {
      var r :| r in rs && NamesAccount(r) && (r.cost.target, r.cost.dimension.value) == (target, account);
      assert r.cost.dimension == Dimension("account", account);
    }
    if CostObserved(rs, target, account) {
      var r :| r in rs && r.CostR? && r.cost.target == target && r.cost.dimension == Dimension("account", account);
      assert forall i :: 0 <= i < |account| ==> account[i] in account;
      assert NamesAccount(r);
    }
  }

  lemma KeepsIff(policies: Policies, rs: seq<Record>, r: Record)
    ensures Keeps(policies, Observed(rs), r) <==> (r.AccountR? ==> MayExpose(policies, rs, r.account))
  {
    if r.AccountR? {
      ObservedIff(rs, r.account.target, r.account.accountID);
    }
  }

  lemma VisibleIff(policies: Policies, rs: seq<Record>, r: Record)
    ensures r in Visible(policies, rs) <==> r in rs && (r.AccountR? ==> MayExpose(policies, rs, r.account))
  {
    InFilter(Keeper(policies, Observed(rs)), rs, r);
    KeepsIff(policies, rs, r);
  }

  /** In every rebuilt snapshot: of what the partials hold, all records but accounts,
      and of the accounts exactly those the policies let through. */
  lemma SnapshotExposes(policies: Policies, parts: Parts, snapshot: Snapshot, ids: seq<CollectorID>, r: Record)
    requires Rebuilt(policies, parts, snapshot) && Covers(ids, parts)
    ensures var rs := AllRecords(parts, ids);
            r in Records(snapshot) <==> r in rs && (r.AccountR? ==> MayExpose(policies, rs, r.account))
  {
    SnapshotIsVisibleRecords(policies, parts, snapshot, ids);
    PermutationFacts(Records(snapshot), Visible(policies, AllRecords(parts, ids)));
    VisibleIff(policies, AllRecords(parts, ids), r);
  }

  lemma ExposedCount(policies: Policies, rs: seq<Record>, t: string)
    ensures AccountCount(t, Visible(policies, rs)) == |Filter(Exposing(policies, rs, t), rs)|
  {
    var keeper := Keeper(policies, Observed(rs));
    forall r | r in rs ensures Exposing(policies, rs, t)(r) == (keeper(r) && AccountAbout(t)(r)) {
      KeepsIff(policies, rs, r);
    }
    FilterTwice(AccountAbout(t), keeper, Exposing(policies, rs, t), rs);
  }

  /** Records may be published together if and only if they are unique and no target
      with a policy exposes more accounts than its limit. */
  lemma AcceptableIff(policies: Policies, rs: seq<Record>)
    requires forall t :: t in policies ==> policies[t].seriesLimit > 0
    ensures Acceptable(policies, rs) <==>
              && UniqueRecords(rs)
              && forall t :: t in policies ==> |Filter(Exposing(policies, rs, t), rs)| <= policies[t].seriesLimit
  {
    forall t ensures AccountCount(t, Visible(policies, rs)) == |Filter(Exposing(policies, rs, t), rs)| {
      ExposedCount(policies, rs, t);
    }
  }
}
