/** The snapshot package's visitors, written as the loops they are, each proved
    to compute what the specification of snapshots says. */
module Walks {
  import opened Bags
  import opened Domain
  import opened Snapshots
  import opened Exposition
  import Scrapes

  // --------------------------------------------------------- uniqueness check

  /** The keys seen so far are the distinct keys visited, until one repeats. */
  ghost predicate Tracks(visited: seq<string>, seen: set<string>, valid: bool) {
    && (valid <==> Distinct(visited))
    && (valid ==> forall k :: k in seen <==> k in visited)
  }

  /** `valid = valid && add(key)`. */
  method AddKey(key: string, ghost visited: seq<string>, seen: set<string>, valid: bool)
    returns (seen': set<string>, valid': bool)
    requires Tracks(visited, seen, valid)
    ensures Tracks(visited + [key], seen', valid')
  {
    seen', valid' := seen, valid;
    DistinctAppend(visited, [key]);
    if valid {
      if key in seen {
        valid' := false;
        assert key in [key];
      } else {
        seen' := seen + {key};
      }
    }
  }

  /** Offers the keys of one record. */
  method AddRecord(keys: seq<string>, ghost visited: seq<string>, seen: set<string>, valid: bool)
    returns (seen': set<string>, valid': bool)
    requires Tracks(visited, seen, valid)
    ensures Tracks(visited + keys, seen', valid')
  {
    seen', valid' := seen, valid;
    assert visited + keys[..0] == visited;
    for k := 0 to |keys|
      invariant Tracks(visited + keys[..k], seen', valid')
    {
      seen', valid' := AddKey(keys[k], visited + keys[..k], seen', valid');
      assert visited + keys[..k] + [keys[k]] == visited + keys[..k + 1];
    }
    assert keys[..|keys|] == keys;
  }

  /** One visitor: offers every key of every record of a family. */
  method AddKeys<T>(keysOf: T -> seq<string>, items: seq<T>) returns (valid: bool)
    ensures valid <==> Distinct(FlatMap(keysOf, items))
  {
    var seen: set<string> := {};
    valid := true;
    for i := 0 to |items|
      invariant Tracks(FlatMap(keysOf, items[..i]), seen, valid)
    {
      FlatMapSnoc(keysOf, items, i);
      seen, valid := AddRecord(keysOf(items[i]), FlatMap(keysOf, items[..i]), seen, valid);
    }
    assert items[..|items|] == items;
  }

  method IdentitiesValid(rs: seq<Record>) returns (valid: bool)
    ensures valid <==> forall r :: r in rs ==> IdentityValid(r)
  {
    valid := true;
    for i := 0 to |rs|
      invariant valid <==> forall k :: 0 <= k < i ==> IdentityValid(rs[k])
    {
      valid := valid && IdentityValid(rs[i]);
    }
  }

  /** `ValidateUnique`: bounded identities first, then the seven visitors, which
      run over the records family by family. */
  method ValidateUnique(s: Snapshot) returns (ok: bool)
    ensures ok <==> Unique(s)
  {
    var rs := Records(s);
    ok := IdentitiesValid(rs);
    if ok {
      ok := AddKeys(Keys, rs);
    }
  }

  predicate Bounded(provider: string, basis: string) {
    provider in ["cost_explorer", "cur_athena"] && basis in ["unblended", "amortized", "net"]
  }

  /** Every record of every family is of the target, priced records with a bounded
      provider and basis. */
  ghost predicate BelongsTo(s: Snapshot, target: string) {
    && (forall x :: x in s.costs ==> x.target == target && Bounded(x.provider, x.basis))
    && (forall x :: x in s.forecasts ==> x.target == target && Bounded(x.provider, x.basis))
    && (forall x :: x in s.tagCosts ==> x.target == target && Bounded(x.provider, x.basis))
    && (forall x :: x in s.budgets ==> x.target == target)
    && (forall x :: x in s.accounts ==> x.target == target)
    && (forall x :: x in s.commitments ==> x.target == target)
    && (forall x :: x in s.anomalies ==> x.target == target)
  }

  ghost predicate AllOwned(rs: seq<Record>, target: string) {
    forall r :: r in rs ==> Target(r) == target && IdentityValid(r)
  }

  lemma PartOwned<T(!new)>(f: T -> Record, s: seq<T>, target: string, ok: T -> bool)
    requires forall x :: ok(x) <==> Target(f(x)) == target && IdentityValid(f(x))
    ensures AllOwned(Map(f, s), target) <==> forall x :: x in s ==> ok(x)
  {
    if AllOwned(Map(f, s), target) {
      forall x | x in s ensures ok(x) {
        var i :| 0 <= i < |s| && s[i] == x;
        assert Map(f, s)[i] in Map(f, s);
      }
    }
  }

  lemma ValidPartialIff(s: Snapshot, target: string)
    ensures ValidPartial(s, target) <==> BelongsTo(s, target)
  {
    PartOwned((x: Cost) => CostR(x), s.costs, target, (x: Cost) => x.target == target && Bounded(x.provider, x.basis));
    PartOwned((x: Forecast) => ForecastR(x), s.forecasts, target,
              (x: Forecast) => x.target == target && Bounded(x.provider, x.basis));
    PartOwned((x: TagCost) => TagR(x), s.tagCosts, target,
              (x: TagCost) => x.target == target && Bounded(x.provider, x.basis));
    PartOwned((x: Budget) => BudgetR(x), s.budgets, target, (x: Budget) => x.target == target);
    PartOwned((x: Account) => AccountR(x), s.accounts, target, (x: Account) => x.target == target);
    PartOwned((x: Commitment) => CommitmentR(x), s.commitments, target, (x: Commitment) => x.target == target);
    PartOwned((x: Anomaly) => AnomalyR(x), s.anomalies, target, (x: Anomaly) => x.target == target);
    assert ValidPartial(s, target) <==> AllOwned(Records(s), target);
    assert AllOwned(Records(s), target) <==>
      AllOwned(Leading(s), target) && AllOwned(AccountRecords(s.accounts), target) && AllOwned(Trailing(s), target);
  }

  /** `ValidatePartial`. */
  method ValidatePartial(s: Snapshot, target: string) returns (valid: bool)
    ensures valid <==> ValidPartial(s, target)
    ensures valid <==> BelongsTo(s, target)
  {
    ValidPartialIff(s, target);
    valid := true;
    var rs := Records(s);
    for i := 0 to |rs|
      invariant valid <==> forall k :: 0 <= k < i ==> Target(rs[k]) == target && IdentityValid(rs[k])
    {
      valid := valid && Target(rs[i]) == target && IdentityValid(rs[i]);
    }
  }

  // ------------------------------------------------------------ series count

  lemma SumOfFamilies(s: Snapshot)
    ensures SeriesCount(s)
         == |s.costs| + 3 * |s.forecasts| + |s.accounts| + |s.tagCosts|
            + Sum(Series, Map(c => CommitmentR(c), s.commitments))
            + Sum(Series, Map(a => AnomalyR(a), s.anomalies))
            + Sum(Series, Map(b => BudgetR(b), s.budgets))
  {
    var costs, forecasts := Map((c: Cost) => CostR(c), s.costs), Map((f: Forecast) => ForecastR(f), s.forecasts);
    var budgets, accounts := Map((b: Budget) => BudgetR(b), s.budgets), AccountRecords(s.accounts);
    SumAppend(Series, Leading(s) + accounts, Trailing(s));
    SumAppend(Series, Leading(s), accounts);
    SumAppend(Series, costs + forecasts, budgets);
    SumAppend(Series, costs, forecasts);
    SumOfConstant(Series, 1, costs);
    SumOfConstant(Series, 3, forecasts);
    SumOfConstant(Series, 1, accounts);
    SumOfTrailing(s);
  }

  lemma SumOfTrailing(s: Snapshot)
    ensures Sum(Series, Trailing(s))
         == |s.tagCosts| + Sum(Series, Map(c => CommitmentR(c), s.commitments))
            + Sum(Series, Map(a => AnomalyR(a), s.anomalies))
  {
    var tags, commitments :=
        Map((t: TagCost) => TagR(t), s.tagCosts), Map((c: Commitment) => CommitmentR(c), s.commitments);
    SumAppend(Series, tags + commitments, Map((a: Anomaly) => AnomalyR(a), s.anomalies));
    SumAppend(Series, tags, commitments);
    SumOfConstant(Series, 1, tags);
  }

  /** `SeriesCount`, with its running count. */
  method CountSeries(s: Snapshot) returns (count: int)
    ensures count == SeriesCount(s)
  {
    SumOfFamilies(s);
    count := |s.costs| + 3 * |s.forecasts| + |s.accounts| + |s.tagCosts|;
    ghost var start := count;
    var commitments := Map(c => CommitmentR(c), s.commitments);
    for i := 0 to |s.commitments|
      invariant count == start + Sum(Series, commitments[..i])
    {
      var item := s.commitments[i];
      SumSnoc(Series, commitments, i);
      assert commitments[i] == CommitmentR(item);
      if item.hasUtilization { count := count + 1; }
      if item.hasCoverage { count := count + 1; }
      if item.hasUnusedHours { count := count + 1; }
      if item.hasCoveredSpend { count := count + 1; }
      if item.hasOnDemandCost { count := count + 1; }
      if item.hasNetSavings { count := count + 1; }
    }
    assert commitments[..|s.commitments|] == commitments;
    start := count;
    var anomalies := Map(a => AnomalyR(a), s.anomalies);
    for i := 0 to |s.anomalies|
      invariant count == start + Sum(Series, anomalies[..i])
    {
      var item := s.anomalies[i];
      SumSnoc(Series, anomalies, i);
      assert anomalies[i] == AnomalyR(item);
      count := count + 2;
      if item.hasImpact { count := count + 1; }
      if item.lastDetected != ZERO_TIME { count := count + 1; }
    }
    assert anomalies[..|s.anomalies|] == anomalies;
    start := count;
    var budgets := Map(b => BudgetR(b), s.budgets);
    for i := 0 to |s.budgets|
      invariant count == start + Sum(Series, budgets[..i])
    {
      var item := s.budgets[i];
      SumSnoc(Series, budgets, i);
      assert budgets[i] == BudgetR(item);
      count := count + 1;
      if item.hasActual { count := count + 1; }
      if item.hasForecasted { count := count + 1; }
    }
    assert budgets[..|s.budgets|] == budgets;
  }

  // ----------------------------------------------------------------- merging

  lemma {:induction false} GatherSnoc(parts: seq<Snapshot>, p: Snapshot)
    ensures Gather(parts + [p]) == Append(Gather(parts), p)
  {
    if parts == [] {
      assert parts + [p] == [p] && [p][1..] == [];
    } else {
      assert (parts + [p])[1..] == parts[1..] + [p];
      GatherSnoc(parts[1..], p);
    }
  }

  /** `Merge`: append every family of every part, then sort the families. */
  method MergeAll(parts: seq<Snapshot>) returns (merged: Snapshot)
    ensures merged == Merge(parts)
  {
    var all := EMPTY;
    for i := 0 to |parts|
      invariant all == Gather(parts[..i])
    {
      GatherSnoc(parts[..i], parts[i]);
      assert parts[..i + 1] == parts[..i] + [parts[i]];
      all := Append(all, parts[i]);
    }
    assert parts[..|parts|] == parts;
    merged := NewWithData(all);
  }

  // -------------------------------------------------------------- exposition

  /** `CostCollector.Collect`: pushes every record's samples to the output. */
  method Collect(s: Snapshot) returns (output: seq<Sample>)
    ensures output == Exposed(s)
    ensures Scrapes.ScrapeOf(s, output) && Scrapes.TotalsExported(s, output)
    ensures Unique(s) && (forall r :: r in Records(s) ==> WellFormed(r)) ==>
              forall i, j :: 0 <= i < j < |output| ==> output[i].id != output[j].id
  {
    output := [];
    var visited := Visited(s);
    for i := 0 to |visited|
      invariant output == FlatMap(Samples, visited[..i])
    {
      FlatMapSnoc(Samples, visited, i);
      output := output + Samples(visited[i]);
    }
    assert visited[..|visited|] == visited;
    Scrapes.ExposedIsScrape(s);
    Scrapes.ExposedTotals(s);
    if Unique(s) && forall r :: r in Records(s) ==> WellFormed(r) {
      ExpositionHasNoDuplicates(s);
      IDsOfSamples(visited);
      forall i, j | 0 <= i < j < |output| ensures output[i].id != output[j].id {
        assert ExposedIDs(s)[i] == output[i].id && ExposedIDs(s)[j] == output[j].id;
      }
    }
  }

  lemma {:induction false} IDsOfSamples(rs: seq<Record>)
    ensures FlatMap(IDs, rs) == Map((x: Sample) => x.id, FlatMap(Samples, rs))
  {
    if rs != [] {
      IDsOfSamples(rs[1..]);
      MapAppend((x: Sample) => x.id, Samples(rs[0]), FlatMap(Samples, rs[1..]));
    }
  }
}
