/** The in-memory store: one pointer to an immutable state, replaced by every
    accepted publish and every recorded failure, and read without locking. */
module Store {
  import opened Bags
  import opened Domain
  import opened Snapshots
  import opened Stores
  import opened Caches
  import Walks

  datatype Freshness = Missing | Fresh | Aging | Stale

  datatype View = View(snapshot: Snapshot, collectors: map<CollectorID, Status>, freshness: map<CollectorID, Freshness>)

  /** `freshness`: the age class of a collector's last success. */
  function AgeClass(now: int, success: int, freshnessTTL: int, staleAfter: int): Freshness {
    if success == ZERO_TIME then Missing
    else if now - success <= freshnessTTL then Fresh
    else if now - success <= staleAfter then Aging
    else Stale
  }

  /** Every collector's age class, by the limits that decide it. */
  predicate AgesAre(view: View, now: int, freshnessTTL: int, staleAfter: int) {
    && view.freshness.Keys == view.collectors.Keys
    && forall id :: id in view.collectors ==>
         var success := view.collectors[id].lastSuccess;
         && (view.freshness[id] == Missing <==> success == ZERO_TIME)
         && (view.freshness[id] == Fresh <==> success != ZERO_TIME && now <= success + freshnessTTL)
         && (view.freshness[id] == Aging <==>
               success != ZERO_TIME && success + freshnessTTL < now <= success + staleAfter)
         && (view.freshness[id] == Stale <==> success != ZERO_TIME && success + staleAfter < now)
  }

  function LoadView(s: State, now: int, freshnessTTL: int, staleAfter: int): View {
    View(s.snapshot, s.statuses,
         map id | id in s.statuses :: AgeClass(now, s.statuses[id].lastSuccess, freshnessTTL, staleAfter))
  }

  predicate ValidPolicies(policies: Policies) {
    forall t :: t in policies ==> t != "" && policies[t].seriesLimit > 0
  }

  // ------------------------------------------- the loops of the account policy

  predicate Names(c: Cost, t: string, v: string) {
    NamesAccount(CostR(c)) && c.target == t && c.dimension.value == v
  }

  ghost predicate NamedIn(costs: seq<Cost>, t: string, v: string) { exists c :: c in costs && Names(c, t, v) }

  lemma NamedInSnoc(costs: seq<Cost>, c: Cost, t: string, v: string)
    ensures NamedIn(costs + [c], t, v) <==> NamedIn(costs, t, v) || Names(c, t, v)
  {
  }

  lemma ObservedInCosts(s: Snapshot, t: string, v: string)
    ensures (t, v) in Observed(Records(s)) <==> NamedIn(s.costs, t, v)
  {
    var rs := Records(s);
    if c :| c in s.costs && Names(c, t, v) {
      var i :| 0 <= i < |s.costs| && s.costs[i] == c;
      assert rs[i] == CostR(c);
    }
    if (t, v) in Observed(rs) {
      var r :| r in rs && NamesAccount(r) && (r.cost.target, r.cost.dimension.value) == (t, v);
      var i :| 0 <= i < |rs| && rs[i] == r;
      assert i < |s.costs| && s.costs[i] == r.cost;
      assert Names(s.costs[i], t, v);
    }
  }

  function Members(sets: map<string, set<string>>, t: string): set<string> {
    if t in sets then sets[t] else {}
  }

  /** The `observed` map: account numbers seen in account costs, per target. */
  method ObserveAccounts(merged: Snapshot) returns (observed: map<string, set<string>>)
    ensures forall t, v :: v in Members(observed, t) <==> (t, v) in Observed(Records(merged))
  {
    observed := map[];
    for i := 0 to |merged.costs|
      invariant forall t, v :: v in Members(observed, t) <==> NamedIn(merged.costs[..i], t, v)
    {
      var c := merged.costs[i];
      assert merged.costs[..i + 1] == merged.costs[..i] + [c];
      forall t, v ensures NamedIn(merged.costs[..i + 1], t, v) <==> NamedIn(merged.costs[..i], t, v) || Names(c, t, v) {
        NamedInSnoc(merged.costs[..i], c, t, v);
      }
      ghost var before := observed;
      if NamesAccount(CostR(c)) {
        observed := observed[c.target := Members(observed, c.target) + {c.dimension.value}];
      }
      assert forall t, v :: v in Members(observed, t) <==> v in Members(before, t) || Names(c, t, v);
    }
    assert merged.costs[..|merged.costs|] == merged.costs;
    forall t, v ensures v in Members(observed, t) <==> (t, v) in Observed(Records(merged)) {
      ObservedInCosts(merged, t, v);
    }
  }

  /** The `allowed` map: the allowlist if there is one, else what was observed. */
  method AllowAccounts(policies: Policies, observed: map<string, set<string>>, ghost seen: set<(string, string)>)
    returns (allowed: map<string, set<string>>)
    requires forall t, v :: v in Members(observed, t) <==> (t, v) in seen
    ensures allowed.Keys == policies.Keys
    ensures forall a: Account :: a.target in policies ==>
              (a.accountID in allowed[a.target] <==> Selects(policies, seen, a))
  {
    allowed := map[];
    var pending := policies.Keys;
    while pending != {}
      invariant pending <= policies.Keys && allowed.Keys == policies.Keys - pending
      invariant forall a: Account :: a.target in allowed ==>
                  (a.accountID in allowed[a.target] <==> Selects(policies, seen, a))
      decreases |pending|
    {
      var t :| t in pending;
      if policies[t].accountIDs == [] {
        allowed := allowed[t := Members(observed, t)];
      } else {
        allowed := allowed[t := set id | id in policies[t].accountIDs];
      }
      pending := pending - {t};
    }
  }

  function Tally(counts: map<string, int>, t: string): int { if t in counts then counts[t] else 0 }

  lemma FilterSnoc<T>(p: T -> bool, s: seq<T>, x: T)
    ensures Filter(p, s + [x]) == Filter(p, s) + if p(x) then [x] else []
  {
    FilterAppend(p, s, [x]);
  }

  /** The `selected` slice and the `counts` map. */
  method SelectAllowed(policies: Policies, merged: Snapshot, allowed: map<string, set<string>>)
    returns (selected: seq<Account>, counts: map<string, int>)
    requires allowed.Keys == policies.Keys
    requires forall a: Account :: a.target in policies ==>
               (a.accountID in allowed[a.target] <==> Selects(policies, Observed(Records(merged)), a))
    ensures selected == Selected(policies, merged)
    ensures counts.Keys <= policies.Keys
    ensures forall t :: Tally(counts, t) == |AccountsOf(t, selected)|
  {
    selected, counts := [], map[];
    ghost var p := (a: Account) => Selects(policies, Observed(Records(merged)), a);
    for i := 0 to |merged.accounts|
      invariant selected == Filter(p, merged.accounts[..i])
      invariant counts.Keys <= policies.Keys
      invariant forall t :: Tally(counts, t) == |AccountsOf(t, selected)|
    {
      var a := merged.accounts[i];
      assert merged.accounts[..i + 1] == merged.accounts[..i] + [a];
      FilterSnoc(p, merged.accounts[..i], a);
      if a.target in allowed && a.accountID in allowed[a.target] {
        ghost var before := selected;
        forall t ensures |AccountsOf(t, before + [a])| == |AccountsOf(t, before)| + if a.target == t then 1 else 0 {
          FilterSnoc((x: Account) => x.target == t, before, a);
        }
        counts := counts[a.target := Tally(counts, a.target) + 1];
        selected := selected + [a];
      }
    }
    assert merged.accounts[..|merged.accounts|] == merged.accounts;
  }

  /** Whether some target selected more accounts than its policy allows. */
  method AnyOverLimit(policies: Policies, counts: map<string, int>, selected: seq<Account>) returns (over: bool)
    requires counts.Keys <= policies.Keys
    requires forall t :: Tally(counts, t) == |AccountsOf(t, selected)|
    ensures over <==> OverLimit(policies, selected)
  {
    var pending := counts.Keys;
    while pending != {}
      invariant pending <= counts.Keys
      invariant forall t :: t in counts.Keys - pending ==>
                  !(counts[t] > 0 && counts[t] > policies[t].seriesLimit)
      decreases |pending|
    {
      var t :| t in pending;
      assert Tally(counts, t) == |AccountsOf(t, selected)|;
      if counts[t] > 0 && counts[t] > policies[t].seriesLimit {
        return true;
      }
      pending := pending - {t};
    }
    over := false;
    forall t | t in policies
      ensures !(|AccountsOf(t, selected)| > 0 && |AccountsOf(t, selected)| > policies[t].seriesLimit)
    {
      assert Tally(counts, t) == |AccountsOf(t, selected)|;
    }
  }

  /** The `values` slice, in whatever order the map iteration yields the parts. */
  method CollectValues(parts: Parts) returns (values: seq<Snapshot>, ghost ids: seq<CollectorID>)
    ensures IsOrder(ids, parts) && values == Values(parts, ids)
  {
    values, ids := [], [];
    var pending := parts.Keys;
    while pending != {}
      invariant pending <= parts.Keys
      invariant Distinct(ids) && forall id :: id in ids <==> id in parts.Keys - pending
      invariant values == Values(parts, ids)
      decreases |pending|
    {
      var id :| id in pending;
      ValuesSnoc(parts, ids, id);
      assert forall k :: k in ids + [id] <==> k in ids || k == id;
      DistinctAppend(ids, [id]);
      assert id !in ids;
      values, ids := values + [parts[id]], ids + [id];
      pending := pending - {id};
    }
  }

  lemma {:induction false} ValuesSnoc(parts: Parts, ids: seq<CollectorID>, id: CollectorID)
    requires id in parts && forall k :: k in ids ==> k in parts
    ensures Values(parts, ids + [id]) == Values(parts, ids) + [parts[id]]
  {
    if ids == [] {
      assert ids + [id] == [id];
    } else {
      assert (ids + [id])[1..] == ids[1..] + [id];
      ValuesSnoc(parts, ids[1..], id);
    }
  }

  /** The second half of `mergeParts`. */
  method ApplyPolicies(policies: Policies, merged: Snapshot) returns (result: Result<Snapshot, Refusal>)
    ensures result == Publishable(policies, merged)
  {
    var unique := Walks.ValidateUnique(merged);
    if !unique { return Err(InvalidSnapshot); }
    if policies == map[] { return Ok(merged); }
    var observed := ObserveAccounts(merged);
    var allowed := AllowAccounts(policies, observed, Observed(Records(merged)));
    var selected, counts := SelectAllowed(policies, merged, allowed);
    var over := AnyOverLimit(policies, counts, selected);
    if over { return Err(SeriesLimit); }
    var chosen := NewWithData(merged.(accounts := selected));
    unique := Walks.ValidateUnique(chosen);
    if !unique { return Err(InvalidSnapshot); }
    return Ok(chosen);
  }

  /** `mergeParts`: accepts and merges whatever order the map iteration takes. */
  method Rebuild(policies: Policies, parts: Parts) returns (merged: Result<Snapshot, Refusal>)
    ensures merged.Ok? <==> Accepts(policies, parts)
    ensures merged.Ok? ==> Rebuilt(policies, parts, merged.value)
  {
    var values;
    ghost var order;
    values, order := CollectValues(parts);
    var all := Walks.MergeAll(values);
    merged := ApplyPolicies(policies, all);
    EveryOrderServes(policies, parts, order);
  }

  /** `publishedSeries`. */
  method CountPublished(target: string, partial: Snapshot, merged: Snapshot) returns (series: int)
    ensures series == PublishedSeries(target, partial, merged)
  {
    series := Walks.CountSeries(partial);
    if |partial.accounts| == 0 { return; }
    var selectedAccounts := 0;
    for i := 0 to |merged.accounts|
      invariant selectedAccounts == |AccountsOf(target, merged.accounts[..i])|
    {
      assert merged.accounts[..i + 1] == merged.accounts[..i] + [merged.accounts[i]];
      FilterSnoc((a: Account) => a.target == target, merged.accounts[..i], merged.accounts[i]);
      if merged.accounts[i].target == target { selectedAccounts := selectedAccounts + 1; }
    }
    assert merged.accounts[..|merged.accounts|] == merged.accounts;
    series := series - |partial.accounts| + selectedAccounts;
  }

  /** The series of every part, counted against the merged snapshot. */
  method CountAllPublished(parts: Parts, merged: Snapshot) returns (series: map<CollectorID, int>)
    ensures series.Keys == parts.Keys
    ensures forall k :: k in parts ==> series[k] == PublishedSeries(k.target, parts[k], merged)
  {
    series := map[];
    var pending := parts.Keys;
    while pending != {}
      invariant pending <= parts.Keys && series.Keys == parts.Keys - pending
      invariant forall k :: k in series ==> series[k] == PublishedSeries(k.target, parts[k], merged)
      decreases |pending|
    {
      var k :| k in pending;
      var counted := CountPublished(k.target, parts[k], merged);
      series := series[k := counted];
      pending := pending - {k};
    }
  }

  /** A map after each listed key has been rewritten from its old value. */
  ghost predicate Rewritten<K, V>(start: map<K, V>, keys: set<K>, update: (K, V) -> V, missing: V, result: map<K, V>) {
    && result.Keys == start.Keys + keys
    && forall k :: k in result ==>
         result[k] == if k !in keys then start[k] else update(k, if k in start then start[k] else missing)
  }

  /** The status loop of an accepted publish, for any way of updating a status. */
  method RewriteAll<K(==), V>(start: map<K, V>, keys: set<K>, update: (K, V) -> V, missing: V)
    returns (result: map<K, V>)
    ensures Rewritten(start, keys, update, missing, result)
  {
    result := start;
    var pending := keys;
    while pending != {}
      invariant pending <= keys
      invariant Rewritten(start, keys - pending, update, missing, result)
      decreases |pending|
    {
      var k :| k in pending;
      result := result[k := update(k, if k in result then result[k] else missing)];
      pending := pending - {k};
    }
    assert keys - {} == keys;
  }

  function SetSeries(series: map<CollectorID, int>): (CollectorID, Status) -> Status {
    (k: CollectorID, status: Status) => if k in series then status.(series := series[k]) else status
  }

  method Recount(s: State, id: CollectorID, now: int, parts: Parts, merged: Snapshot)
    returns (statuses: map<CollectorID, Status>)
    requires id in parts
    ensures statuses == Recounted(s, id, now, parts, merged)
  {
    var series := CountAllPublished(parts, merged);
    var start := s.statuses[id := Status(now, now, true, 0)];
    statuses := RewriteAll(start, parts.Keys, SetSeries(series), NEVER);
    RewrittenIsRecounted(s, id, now, parts, merged, series, statuses);
  }

  /** One status as the loop leaves it is the recounted one. */
  lemma RewrittenStatus(s: State, id: CollectorID, now: int, parts: Parts, merged: Snapshot,
                        series: map<CollectorID, int>, k: CollectorID, status: Status)
    requires id in parts && series.Keys == parts.Keys
    requires k in parts ==> series[k] == PublishedSeries(k.target, parts[k], merged)
    requires var start := s.statuses[id := Status(now, now, true, 0)];
             && (k in parts ==> status == SetSeries(series)(k, StatusOf(start, k)))
             && (k !in parts ==> status == StatusOf(start, k))
    ensures status == RecountedStatus(s, id, now, parts, merged, k)
  {
  }

  lemma RewrittenIsRecounted(s: State, id: CollectorID, now: int, parts: Parts, merged: Snapshot,
                             series: map<CollectorID, int>, statuses: map<CollectorID, Status>)
    requires id in parts && series.Keys == parts.Keys
    requires forall k :: k in parts ==> series[k] == PublishedSeries(k.target, parts[k], merged)
    requires Rewritten(s.statuses[id := Status(now, now, true, 0)], parts.Keys, SetSeries(series), NEVER, statuses)
    ensures statuses == Recounted(s, id, now, parts, merged)
  {
    forall k | k in statuses ensures statuses[k] == RecountedStatus(s, id, now, parts, merged, k) {
      RewrittenStatus(s, id, now, parts, merged, series, k, statuses[k]);
    }
  }

  class Store {
    const policies: Policies
    const freshnessTTL: int
    const staleAfter: int
    var current: State
    ghost var states: seq<State>
    ghost var ops: seq<Op>

    /** The history is a run and the pointer designates its last state. */
    ghost predicate Valid()
      reads this
    {
      && 0 < freshnessTTL <= staleAfter
      && IsRun(policies, states, ops)
      && current == states[|ops|]
    }

    constructor (policies: Policies, freshnessTTL: int, staleAfter: int)
      requires 0 < freshnessTTL <= staleAfter
      ensures Valid() && fresh(this)
      ensures this.policies == policies && this.freshnessTTL == freshnessTTL && this.staleAfter == staleAfter
      ensures current == INITIAL && ops == []
    {
      this.policies := policies;
      this.freshnessTTL := freshnessTTL;
      this.staleAfter := staleAfter;
      current := INITIAL;
      states := [INITIAL];
      ops := [];
    }

    ghost method Record(op: Op)
      requires IsRun(policies, states, ops) && Step(policies, states[|ops|], op, current)
      requires 0 < freshnessTTL <= staleAfter
      modifies this`states, this`ops
      ensures Valid() && ops == old(ops) + [op] && states == old(states) + [current]
    {
      RunExtends(policies, states, ops, op, current);
      states, ops := states + [current], ops + [op];
    }

    /** `Publish`: all or nothing, with the clock read `now` inside the lock. */
    method Publish(id: CollectorID, partial: Snapshot, now: int) returns (error: Result<(), Refusal>)
      requires Valid()
      modifies this
      ensures Valid() && ops == old(ops) + [Caches.Publish(id, partial, now)] && states == old(states) + [current]
      ensures error.Ok? <==> Taken(policies, old(current), id, partial)
      ensures error.Err? ==> current == old(current)
      ensures error.Ok? ==>
        && current.parts == old(current).parts[id := partial]
        && Rebuilt(policies, current.parts, current.snapshot)
        && OnlySucceeds(old(current).statuses, current.statuses, id, now)
    {
      var op := Caches.Publish(id, partial, now);
      var owned := Walks.ValidatePartial(partial, id.target);
      if !id.Valid() || !owned {
        error := if !id.Valid() then Err(InvalidCollector) else Err(InvalidSnapshot);
        Record(op);
        return;
      }
      var parts := current.parts[id := partial];
      var merged := Rebuild(policies, parts);
      if merged.Err? {
        error := Err(merged.error);
        Record(op);
        return;
      }
      var statuses := Recount(current, id, now, parts, merged.value);
      RecountOnlySucceeds(current, id, now, parts, merged.value);
      current := State(merged.value, parts, statuses);
      error := Ok(());
      Record(op);
    }

    /** `RecordFailure`: keeps every published partial. */
    method RecordFailure(id: CollectorID, now: int) returns (error: Result<(), Refusal>)
      requires Valid()
      modifies this
      ensures Valid() && ops == old(ops) + [Fail(id, now)] && states == old(states) + [current]
      ensures error.Ok? <==> id.Valid()
      ensures current.snapshot == old(current).snapshot && current.parts == old(current).parts
      ensures error.Ok? ==>
        var status := StatusOf(old(current).statuses, id);
        current.statuses == old(current).statuses[id := status.(lastAttempt := now, up := false)]
    {
      var op := Fail(id, now);
      if !id.Valid() {
        error := Err(InvalidCollector);
        Record(op);
        return;
      }
      var status := StatusOf(current.statuses, id);
      status := status.(lastAttempt := now, up := false);
      current := State(current.snapshot, current.parts, current.statuses[id := status]);
      error := Ok(());
      Record(op);
    }

    /** `Load`: one pointer read plus the computed age classes. */
    method Load(now: int) returns (view: View)
      requires Valid()
      ensures view == LoadView(current, now, freshnessTTL, staleAfter)
      ensures view.snapshot == current.snapshot && view.collectors == current.statuses
      ensures AgesAre(view, now, freshnessTTL, staleAfter)
    {
      var seen := current;
      var freshness: map<CollectorID, Freshness> := map[];
      var pending := seen.statuses.Keys;
      while pending != {}
        invariant pending <= seen.statuses.Keys && freshness.Keys == seen.statuses.Keys - pending
        invariant forall id :: id in freshness ==>
                    freshness[id] == AgeClass(now, seen.statuses[id].lastSuccess, freshnessTTL, staleAfter)
        decreases |pending|
      {
        var id :| id in pending;
        freshness := freshness[id := AgeClass(now, seen.statuses[id].lastSuccess, freshnessTTL, staleAfter)];
        pending := pending - {id};
      }
      view := View(seen.snapshot, seen.statuses, freshness);
    }
  }

  /** `New`: the policies that `WithOrganizationPolicies` admits, and ordered limits. */
  method New(policies: Policies, freshnessTTL: int, staleAfter: int) returns (store: Store?)
    ensures store != null <==> ValidPolicies(policies) && 0 < freshnessTTL <= staleAfter
    ensures store != null ==>
              && fresh(store) && store.Valid() && store.current == INITIAL && store.ops == []
              && store.policies == policies && store.freshnessTTL == freshnessTTL && store.staleAfter == staleAfter
  {
    if freshnessTTL <= 0 || staleAfter < freshnessTTL {
      return null;
    }
    var pending := policies.Keys;
    while pending != {}
      invariant pending <= policies.Keys
      invariant forall t :: t in policies && t !in pending ==> t != "" && policies[t].seriesLimit > 0
      decreases |pending|
    {
      var t :| t in pending;
      if t == "" || policies[t].seriesLimit <= 0 {
        return null;
      }
      pending := pending - {t};
    }
    store := new Store(policies, freshnessTTL, staleAfter);
  }
}
