/** The cache as a state machine: what one publish or failure does, what any run
    of them keeps, and why Go's random map order cannot be observed. */
module Caches {
  import opened Bags
  import opened Domain
  import opened Ranking
  import opened Snapshots
  import opened Stores

  type Parts = map<CollectorID, Snapshot>

  datatype Status = Status(lastAttempt: int, lastSuccess: int, up: bool, series: int)

  const NEVER := Status(ZERO_TIME, ZERO_TIME, false, 0)

  datatype State = State(snapshot: Snapshot, parts: Parts, statuses: map<CollectorID, Status>)

  const INITIAL := State(EMPTY, map[], map[])

  datatype Op = Publish(id: CollectorID, partial: Snapshot, now: int) | Fail(id: CollectorID, now: int)

  // ------------------------------------------------------ iterating over a map

  /** One of the orders in which a map iteration may yield its keys. */
  ghost predicate IsOrder(ids: seq<CollectorID>, parts: Parts) {
    Distinct(ids) && forall id :: id in ids <==> id in parts
  }

  /** A listing that misses no part; absent collectors contribute nothing. */
  ghost predicate Covers(ids: seq<CollectorID>, parts: Parts) {
    Distinct(ids) && forall id :: id in parts ==> id in ids
  }

  function Values(parts: Parts, ids: seq<CollectorID>): seq<Snapshot>
    requires forall id :: id in ids ==> id in parts
  {
    if ids == [] then [] else [parts[ids[0]]] + Values(parts, ids[1..])
  }

  function RecordsOf(parts: Parts): CollectorID -> seq<Record> {
    (id: CollectorID) => if id in parts then Records(parts[id]) else []
  }

  function AllRecords(parts: Parts, ids: seq<CollectorID>): seq<Record> { FlatMap(RecordsOf(parts), ids) }

  lemma {:induction false} ValuesHoldAllRecords(parts: Parts, ids: seq<CollectorID>)
    requires forall id :: id in ids ==> id in parts
    ensures FlatMap(Records, Values(parts, ids)) == AllRecords(parts, ids)
  {
    if ids != [] {
      ValuesHoldAllRecords(parts, ids[1..]);
      assert Values(parts, ids)[1..] == Values(parts, ids[1..]);
    }
  }

  lemma {:induction false} OrderExists(keys: set<CollectorID>) returns (ids: seq<CollectorID>)
    ensures Distinct(ids) && forall id :: id in ids <==> id in keys
  {
    if keys == {} {
      ids := [];
    } else {
      var id :| id in keys;
      var rest := OrderExists(keys - {id});
      ids := [id] + rest;
    }
  }

  lemma {:induction false} AbsentPartsAddNothing(parts: Parts, ids: seq<CollectorID>)
    ensures AllRecords(parts, ids) == AllRecords(parts, Filter((id: CollectorID) => id in parts, ids))
  {
    if ids != [] {
      AbsentPartsAddNothing(parts, ids[1..]);
      var kept := Filter((id: CollectorID) => id in parts, ids[1..]);
      assert ([ids[0]] + kept)[1..] == kept;
    }
  }

  lemma CoversAgree(parts: Parts, a: seq<CollectorID>, b: seq<CollectorID>)
    requires Covers(a, parts) && Covers(b, parts)
    ensures Permutation(AllRecords(parts, a), AllRecords(parts, b))
  {
    var p := (id: CollectorID) => id in parts;
    var x, y := Filter(p, a), Filter(p, b);
    AbsentPartsAddNothing(parts, a);
    AbsentPartsAddNothing(parts, b);
    DistinctFilter(p, a);
    DistinctFilter(p, b);
    forall id ensures id in x <==> id in y {
      InFilter(p, a, id);
      InFilter(p, b, id);
    }
    SameElementsPermute(x, y);
    FlatMapPermutes(RecordsOf(parts), x, y);
  }

  // ------------------------------------------------------------------- steps

  /** Whether the store takes these partials together. */
  ghost predicate Accepts(policies: Policies, parts: Parts) {
    exists ids :: Covers(ids, parts) && Acceptable(policies, AllRecords(parts, ids))
  }

  lemma AcceptsInAnyOrder(policies: Policies, parts: Parts, ids: seq<CollectorID>)
    requires Covers(ids, parts)
    ensures Accepts(policies, parts) <==> Acceptable(policies, AllRecords(parts, ids))
  {
    if Accepts(policies, parts) {
      var other :| Covers(other, parts) && Acceptable(policies, AllRecords(parts, other));
      CoversAgree(parts, ids, other);
      AcceptableForgetsOrder(policies, AllRecords(parts, other), AllRecords(parts, ids));
    }
  }

  /** The snapshot is what merging the parts in some map order yields. */
  ghost predicate Rebuilt(policies: Policies, parts: Parts, snapshot: Snapshot) {
    exists ids :: IsOrder(ids, parts) && MergeParts(policies, Values(parts, ids)) == Ok(snapshot)
  }

  function PublishedSeries(target: string, partial: Snapshot, merged: Snapshot): int {
    if partial.accounts == [] then SeriesCount(partial)
    else SeriesCount(partial) - |partial.accounts| + |AccountsOf(target, merged.accounts)|
  }

  function StatusOf(statuses: map<CollectorID, Status>, id: CollectorID): Status {
    if id in statuses then statuses[id] else NEVER
  }

  /** One collector's status after an accepted publish: its series are recounted. */
  function RecountedStatus(
    s: State, id: CollectorID, now: int, parts: Parts, merged: Snapshot, k: CollectorID): Status
  {
    var base := if k == id then Status(now, now, true, 0) else StatusOf(s.statuses, k);
    if k in parts then base.(series := PublishedSeries(k.target, parts[k], merged)) else base
  }

  function Recounted(s: State, id: CollectorID, now: int, parts: Parts, merged: Snapshot): map<CollectorID, Status> {
    map k | k in s.statuses.Keys + parts.Keys :: RecountedStatus(s, id, now, parts, merged, k)
  }

  /** What a publish does to the statuses: it is the collector's latest attempt and
      success, and nobody else's. */
  ghost predicate OnlySucceeds(
    before: map<CollectorID, Status>, after: map<CollectorID, Status>, id: CollectorID, now: int)
  {
    && id in after && after[id].lastAttempt == now && after[id].lastSuccess == now && after[id].up
    && forall k :: k in before && k != id ==>
         && k in after
         && after[k].lastAttempt == before[k].lastAttempt
         && after[k].lastSuccess == before[k].lastSuccess
         && after[k].up == before[k].up
  }

  lemma RecountOnlySucceeds(s: State, id: CollectorID, now: int, parts: Parts, merged: Snapshot)
    requires id in parts
    ensures OnlySucceeds(s.statuses, Recounted(s, id, now, parts, merged), id, now)
  {
    var after := Recounted(s, id, now, parts, merged);
    forall k | k in s.statuses || k == id
      ensures k in after && after[k] == RecountedStatus(s, id, now, parts, merged, k)
    {
    }
  }

  ghost predicate Taken(policies: Policies, s: State, id: CollectorID, partial: Snapshot) {
    && id.Valid()
    && ValidPartial(partial, id.target)
    && Accepts(policies, s.parts[id := partial])
  }

  /** The effect of one operation; only the map order is left open. */
  ghost predicate Step(policies: Policies, s: State, op: Op, s': State) {
    match op
    case Publish(id, partial, now) =>
      if Taken(policies, s, id, partial) then
        && s'.parts == s.parts[id := partial]
        && Rebuilt(policies, s'.parts, s'.snapshot)
        && s'.statuses == Recounted(s, id, now, s'.parts, s'.snapshot)
      else s' == s
    case Fail(id, now) =>
      if id.Valid() then
        s' == s.(statuses := s.statuses[id := StatusOf(s.statuses, id).(lastAttempt := now, up := false)])
      else s' == s
  }

  ghost predicate IsRun(policies: Policies, states: seq<State>, ops: seq<Op>) {
    && |states| == |ops| + 1
    && states[0] == INITIAL
    && forall i :: 0 <= i < |ops| ==> Step(policies, states[i], ops[i], states[i + 1])
  }

  lemma RunExtends(policies: Policies, states: seq<State>, ops: seq<Op>, op: Op, next: State)
    requires IsRun(policies, states, ops) && Step(policies, states[|ops|], op, next)
    ensures IsRun(policies, states + [next], ops + [op])
  {
  }

  // -------------------------------------------------------------- invariants

  ghost predicate PartsValid(parts: Parts) {
    forall id :: id in parts ==> id.Valid() && ValidPartial(parts[id], id.target)
  }

  ghost predicate SeriesCurrent(s: State) {
    && s.parts.Keys <= s.statuses.Keys
    && forall id :: id in s.statuses ==>
         s.statuses[id].series == if id in s.parts then PublishedSeries(id.target, s.parts[id], s.snapshot) else 0
  }

  ghost predicate Inv(policies: Policies, s: State) {
    PartsValid(s.parts) && Rebuilt(policies, s.parts, s.snapshot) && SeriesCurrent(s)
  }

  lemma EmptyIsRebuilt(policies: Policies)
    ensures Rebuilt(policies, map[], EMPTY)
  {
    var ids: seq<CollectorID> := [];
    assert IsOrder(ids, map[]) && Values(map[], ids) == [];
    assert Merge([]) == EMPTY && Records(EMPTY) == [];
    assert EMPTY.(accounts := []) == EMPTY;
    assert Unique(EMPTY);
  }

  lemma PublishKeepsParts(parts: Parts, id: CollectorID, partial: Snapshot)
    requires PartsValid(parts) && id.Valid() && ValidPartial(partial, id.target)
    ensures PartsValid(parts[id := partial])
  {
  }

  lemma StepKeepsParts(policies: Policies, s: State, op: Op, s': State)
    requires PartsValid(s.parts) && Step(policies, s, op, s')
    ensures PartsValid(s'.parts)
  {
    if op.Publish? && Taken(policies, s, op.id, op.partial) {
      PublishKeepsParts(s.parts, op.id, op.partial);
    }
  }

  lemma StepRebuilds(policies: Policies, s: State, op: Op, s': State)
    requires Rebuilt(policies, s.parts, s.snapshot) && Step(policies, s, op, s')
    ensures Rebuilt(policies, s'.parts, s'.snapshot)
  {
  }

  lemma StepRecounts(policies: Policies, s: State, op: Op, s': State)
    requires SeriesCurrent(s) && Step(policies, s, op, s')
    ensures SeriesCurrent(s')
  {
  }

  lemma StepKeepsInv(policies: Policies, s: State, op: Op, s': State)
    requires Inv(policies, s) && Step(policies, s, op, s')
    ensures Inv(policies, s')
  {
    StepKeepsParts(policies, s, op, s');
    StepRebuilds(policies, s, op, s');
    StepRecounts(policies, s, op, s');
  }

  /** A taken publish always has a next state, whatever order the map yields. */
  lemma EveryOrderServes(policies: Policies, parts: Parts, ids: seq<CollectorID>)
    requires IsOrder(ids, parts)
    ensures Accepts(policies, parts) <==> MergeParts(policies, Values(parts, ids)).Ok?
  {
    AcceptsInAnyOrder(policies, parts, ids);
    ValuesHoldAllRecords(parts, ids);
    MergeMeaning(policies, Values(parts, ids));
  }

  lemma RebuildExists(policies: Policies, parts: Parts) returns (snapshot: Snapshot)
    requires Accepts(policies, parts)
    ensures Rebuilt(policies, parts, snapshot)
  {
    var ids := OrderExists(parts.Keys);
    EveryOrderServes(policies, parts, ids);
    snapshot := MergeParts(policies, Values(parts, ids)).value;
  }

  /** So every acceptable publish has a next state. */
  lemma PublishProceeds(policies: Policies, s: State, id: CollectorID, partial: Snapshot, now: int) returns (s': State)
    requires Taken(policies, s, id, partial)
    ensures Step(policies, s, Publish(id, partial, now), s') && s'.parts == s.parts[id := partial]
  {
    var parts := s.parts[id := partial];
    var snapshot := RebuildExists(policies, parts);
    s' := State(snapshot, parts, Recounted(s, id, now, parts, snapshot));
  }

  // ----------------------------------------------------------- specification

  /** The last accepted partial of every collector, computed without a cache. */
  ghost function Replay(policies: Policies, ops: seq<Op>): Parts {
    if ops == [] then map[]
    else
      var before, op := Replay(policies, ops[..|ops| - 1]), ops[|ops| - 1];
      if op.Publish? && Taken(policies, State(EMPTY, before, map[]), op.id, op.partial)
      then before[op.id := op.partial] else before
  }

  /** In every run the cache holds the policy-filtered merge of the last accepted
      partials, rebuilt from scratch, and its series counts describe it. */
  lemma {:induction false} CacheAgreesWithRebuild(policies: Policies, states: seq<State>, ops: seq<Op>)
    requires IsRun(policies, states, ops)
    ensures var s := states[|ops|];
            && s.parts == Replay(policies, ops)
            && Inv(policies, s)
    decreases |ops|
  {
    var n := |ops|;
    if n == 0 {
      EmptyIsRebuilt(policies);
    } else {
      CacheAgreesWithRebuild(policies, states[..n], ops[..n - 1]);
      StepKeepsInv(policies, states[n - 1], ops[n - 1], states[n]);
    }
  }

  /** The snapshot of any reachable state, as a bag of records. */
  lemma SnapshotIsVisibleRecords(policies: Policies, parts: Parts, snapshot: Snapshot, ids: seq<CollectorID>)
    requires Rebuilt(policies, parts, snapshot) && Covers(ids, parts)
    ensures Acceptable(policies, AllRecords(parts, ids))
    ensures Permutation(Records(snapshot), Visible(policies, AllRecords(parts, ids)))
  {
    var order :| IsOrder(order, parts) && MergeParts(policies, Values(parts, order)) == Ok(snapshot);
    ValuesHoldAllRecords(parts, order);
    MergeMeaning(policies, Values(parts, order));
    CoversAgree(parts, order, ids);
    AcceptableForgetsOrder(policies, AllRecords(parts, order), AllRecords(parts, ids));
    VisibleForgetsOrder(policies, AllRecords(parts, order), AllRecords(parts, ids));
  }

  // ---------------------------------------------------- map-order independence

  lemma {:induction false} GatherFamilies(values: seq<Snapshot>)
    ensures Gather(values).costs == FlatMap((s: Snapshot) => s.costs, values)
    ensures Gather(values).forecasts == FlatMap((s: Snapshot) => s.forecasts, values)
    ensures Gather(values).anomalies == FlatMap((s: Snapshot) => s.anomalies, values)
    ensures Gather(values).tagCosts == FlatMap((s: Snapshot) => s.tagCosts, values)
  {
    if values != [] {
      GatherFamilies(values[1..]);
    }
  }

  lemma KeysOfAStretch(pre: seq<Record>, mid: seq<Record>, post: seq<Record>)
    requires Distinct(FlatMap(Keys, pre + mid + post))
    ensures Distinct(FlatMap(Keys, mid))
  {
    FlatMapAppend(Keys, pre + mid, post);
    FlatMapAppend(Keys, pre, mid);
    DistinctAppend(FlatMap(Keys, pre) + FlatMap(Keys, mid), FlatMap(Keys, post));
    DistinctAppend(FlatMap(Keys, pre), FlatMap(Keys, mid));
  }

  // Records that tie under their comparator would share a uniqueness key.

  lemma TiedCosts(a: Cost, b: Cost)
    ensures CostRank(a) == CostRank(b) ==> Keys(CostR(a)) == Keys(CostR(b))
  {
  }

  lemma TiedForecasts(a: Forecast, b: Forecast)
    ensures ForecastRank(a) == ForecastRank(b) ==> Keys(ForecastR(a)) == Keys(ForecastR(b))
  {
  }

  lemma TiedTags(a: TagCost, b: TagCost)
    ensures TagRank(a) == TagRank(b) ==> Keys(TagR(a)) == Keys(TagR(b))
  {
  }

  lemma TiedAnomalies(a: Anomaly, b: Anomaly)
    ensures AnomalyRank(a) == AnomalyRank(b) ==> Keys(AnomalyR(a))[0] == Keys(AnomalyR(b))[0]
  {
  }

  /** If tied elements share a key and no key occurs twice, nothing ties. */
  lemma DistinctKeysNeverTie<T(!new)>(keys: Record -> seq<string>, wrap: T -> Record, rank: T -> Rank, xs: seq<T>)
    requires Distinct(FlatMap(keys, Map(wrap, xs))) && forall x :: keys(wrap(x)) != []
    requires forall x, y :: rank(x) == rank(y) ==> keys(wrap(x))[0] == keys(wrap(y))[0]
    ensures NoTies(rank, xs)
  {
    var rs := Map(wrap, xs);
    forall i, j | 0 <= i < j < |xs| ensures rank(xs[i]) != rank(xs[j]) {
      ValuesMeetOnce(keys, rs, i, j, keys(rs[i])[0]);
      assert keys(rs[j])[0] in keys(rs[j]);
    }
  }

  lemma CostsShareNoKey(s: Snapshot)
    requires Unique(s)
    ensures Distinct(FlatMap(Keys, Map((x: Cost) => CostR(x), s.costs)))
  {
    var wrap := (x: Cost) => CostR(x);
    var pre: seq<Record> := [];
    var post: seq<Record> := Map((f: Forecast) => ForecastR(f), s.forecasts) + Map((b: Budget) => BudgetR(b), s.budgets)
                             + AccountRecords(s.accounts) + Trailing(s);
    assert Records(s) == pre + Map(wrap, s.costs) + post;
    KeysOfAStretch(pre, Map(wrap, s.costs), post);
  }

  lemma CostsNeverTie(s: Snapshot)
    requires Unique(s)
    ensures NoTies(CostRank, s.costs)
  {
    var wrap := (x: Cost) => CostR(x);
    CostsShareNoKey(s);
    forall x, y ensures CostRank(x) == CostRank(y) ==> Keys(wrap(x))[0] == Keys(wrap(y))[0] {
      TiedCosts(x, y);
    }
    DistinctKeysNeverTie(Keys, wrap, CostRank, s.costs);
  }

  lemma ForecastsShareNoKey(s: Snapshot)
    requires Unique(s)
    ensures Distinct(FlatMap(Keys, Map((x: Forecast) => ForecastR(x), s.forecasts)))
  {
    var wrap := (x: Forecast) => ForecastR(x);
    var pre: seq<Record> := Map((c: Cost) => CostR(c), s.costs);
    var post: seq<Record> := Map((b: Budget) => BudgetR(b), s.budgets) + AccountRecords(s.accounts) + Trailing(s);
    assert Records(s) == pre + Map(wrap, s.forecasts) + post;
    KeysOfAStretch(pre, Map(wrap, s.forecasts), post);
  }

  lemma ForecastsNeverTie(s: Snapshot)
    requires Unique(s)
    ensures NoTies(ForecastRank, s.forecasts)
  {
    var wrap := (x: Forecast) => ForecastR(x);
    ForecastsShareNoKey(s);
    forall x, y ensures ForecastRank(x) == ForecastRank(y) ==> Keys(wrap(x))[0] == Keys(wrap(y))[0] {
      TiedForecasts(x, y);
    }
    DistinctKeysNeverTie(Keys, wrap, ForecastRank, s.forecasts);
  }

  lemma TagsShareNoKey(s: Snapshot)
    requires Unique(s)
    ensures Distinct(FlatMap(Keys, Map((x: TagCost) => TagR(x), s.tagCosts)))
  {
    var wrap := (x: TagCost) => TagR(x);
    var pre: seq<Record> := Leading(s) + AccountRecords(s.accounts);
    var post: seq<Record> := Map((c: Commitment) => CommitmentR(c), s.commitments)
                             + Map((a: Anomaly) => AnomalyR(a), s.anomalies);
    assert Records(s) == pre + Map(wrap, s.tagCosts) + post;
    KeysOfAStretch(pre, Map(wrap, s.tagCosts), post);
  }

  lemma TagsNeverTie(s: Snapshot)
    requires Unique(s)
    ensures NoTies(TagRank, s.tagCosts)
  {
    var wrap := (x: TagCost) => TagR(x);
    TagsShareNoKey(s);
    forall x, y ensures TagRank(x) == TagRank(y) ==> Keys(wrap(x))[0] == Keys(wrap(y))[0] {
      TiedTags(x, y);
    }
    DistinctKeysNeverTie(Keys, wrap, TagRank, s.tagCosts);
  }

  lemma AnomaliesShareNoKey(s: Snapshot)
    requires Unique(s)
    ensures Distinct(FlatMap(Keys, Map((x: Anomaly) => AnomalyR(x), s.anomalies)))
  {
    var wrap := (x: Anomaly) => AnomalyR(x);
    var tags: seq<Record> := Map((t: TagCost) => TagR(t), s.tagCosts);
    var commitments: seq<Record> := Map((c: Commitment) => CommitmentR(c), s.commitments);
    var pre: seq<Record>, post: seq<Record> := Leading(s) + AccountRecords(s.accounts) + tags + commitments, [];
    assert Trailing(s) == tags + commitments + Map(wrap, s.anomalies);
    assert Records(s) == pre + Map(wrap, s.anomalies) + post;
    KeysOfAStretch(pre, Map(wrap, s.anomalies), post);
  }

  lemma AnomaliesNeverTie(s: Snapshot)
    requires Unique(s)
    ensures NoTies(AnomalyRank, s.anomalies)
  {
    var wrap := (x: Anomaly) => AnomalyR(x);
    AnomaliesShareNoKey(s);
    forall x, y ensures AnomalyRank(x) == AnomalyRank(y) ==> Keys(wrap(x))[0] == Keys(wrap(y))[0] {
      TiedAnomalies(x, y);
    }
    DistinctKeysNeverTie(Keys, wrap, AnomalyRank, s.anomalies);
  }

  /** Equal in every sequence whose comparator is total, and in content elsewhere. */
  ghost predicate Indistinguishable(s: Snapshot, t: Snapshot) {
    && s.costs == t.costs && s.forecasts == t.forecasts
    && s.anomalies == t.anomalies && s.tagCosts == t.tagCosts
    && Permutation(Records(s), Records(t))
  }

  lemma MergeForgetsOrder(a: seq<Snapshot>, b: seq<Snapshot>)
    requires Permutation(a, b) && Unique(Merge(a))
    ensures Indistinguishable(Merge(a), Merge(b))
  {
    GatherFamilies(a);
    GatherFamilies(b);
    FlatMapPermutes((s: Snapshot) => s.costs, a, b);
    FlatMapPermutes((s: Snapshot) => s.forecasts, a, b);
    FlatMapPermutes((s: Snapshot) => s.anomalies, a, b);
    FlatMapPermutes((s: Snapshot) => s.tagCosts, a, b);
    SortKeepsRecords(Gather(a));
    UniqueForgetsOrder(Records(Merge(a)), Records(Gather(a)));
    CostsNeverTie(Gather(a));
    ForecastsNeverTie(Gather(a));
    AnomaliesNeverTie(Gather(a));
    TagsNeverTie(Gather(a));
    SortForgetsOrder(CostRank, Gather(a).costs, Gather(b).costs);
    SortForgetsOrder(ForecastRank, Gather(a).forecasts, Gather(b).forecasts);
    SortForgetsOrder(AnomalyRank, Gather(a).anomalies, Gather(b).anomalies);
    SortForgetsOrder(TagRank, Gather(a).tagCosts, Gather(b).tagCosts);
    MergeKeepsRecords(a);
    MergeKeepsRecords(b);
    FlatMapPermutes(Records, a, b);
  }

  /** The policy step adds no dependence on the order. */
  lemma PolicyForgetsOrder(policies: Policies, a: Snapshot, b: Snapshot)
    requires Permutation(Records(a), Records(b))
    ensures var r, q := Publishable(policies, a), Publishable(policies, b);
            && (r.Err? ==> q == r)
            && (r.Ok? ==> q.Ok? && Permutation(Records(r.value), Records(q.value)))
  {
    PublishableMeaning(policies, a);
    PublishableMeaning(policies, b);
    UniqueForgetsOrder(Records(a), Records(b));
    AcceptableForgetsOrder(policies, Records(a), Records(b));
    VisibleForgetsOrder(policies, Records(a), Records(b));
  }

  lemma PolicyKeepsSequences(policies: Policies, a: Snapshot, b: Snapshot)
    requires Indistinguishable(a, b) && Publishable(policies, a).Ok? && Publishable(policies, b).Ok?
    ensures var s, t := Publishable(policies, a).value, Publishable(policies, b).value;
            s.costs == t.costs && s.forecasts == t.forecasts && s.anomalies == t.anomalies && s.tagCosts == t.tagCosts
  {
  }

  /** Two publications of the same parts agree whatever order the map iteration
      took: same verdict, same reason, same sorted sequences, same records. */
  lemma MapOrderIsInvisible(policies: Policies, parts: Parts, i: seq<CollectorID>, j: seq<CollectorID>)
    requires IsOrder(i, parts) && IsOrder(j, parts)
    ensures var r, q := MergeParts(policies, Values(parts, i)), MergeParts(policies, Values(parts, j));
            && (r.Err? ==> q == r)
            && (r.Ok? ==> q.Ok? && Indistinguishable(r.value, q.value))
  {
    var a, b := Values(parts, i), Values(parts, j);
    ValuesPermute(parts, i, j);
    MergeKeepsRecords(a);
    MergeKeepsRecords(b);
    FlatMapPermutes(Records, a, b);
    PolicyForgetsOrder(policies, Merge(a), Merge(b));
    if Unique(Merge(a)) {
      MergeForgetsOrder(a, b);
      if Publishable(policies, Merge(a)).Ok? {
        PolicyKeepsSequences(policies, Merge(a), Merge(b));
      }
    }
  }

  lemma ValuesPermute(parts: Parts, i: seq<CollectorID>, j: seq<CollectorID>)
    requires IsOrder(i, parts) && IsOrder(j, parts)
    ensures Permutation(Values(parts, i), Values(parts, j))
  {
    var one := (id: CollectorID) => if id in parts then [parts[id]] else [];
    ValuesAsFlatMap(parts, i);
    ValuesAsFlatMap(parts, j);
    SameElementsPermute(i, j);
    FlatMapPermutes(one, i, j);
  }

  lemma {:induction false} ValuesAsFlatMap(parts: Parts, ids: seq<CollectorID>)
    requires forall id :: id in ids ==> id in parts
    ensures Values(parts, ids) == FlatMap((id: CollectorID) => if id in parts then [parts[id]] else [], ids)
  {
    if ids != [] {
      ValuesAsFlatMap(parts, ids[1..]);
    }
  }
}
