/** The readiness probe as an observer of the store's whole history. */
module Readiness {
  import opened Domain
  import opened Caches
  import opened Stores
  import opened Store

  datatype Verdict = Ready | NotReady(reason: string)

  /** `readiness`: the first required collector that is missing or stale decides. */
  function Probe(view: View, required: seq<CollectorID>): Verdict {
    if required == [] then Ready
    else
      var id := required[0];
      if id !in view.collectors || view.collectors[id].lastSuccess == ZERO_TIME then NotReady("missing")
      else if id !in view.freshness then NotReady("missing")
      else match view.freshness[id]
        case Fresh => Probe(view, required[1..])
        case Aging => Probe(view, required[1..])
        case Stale => NotReady("stale")
        case Missing => NotReady("missing")
  }

  datatype Moment = Never | At(time: int)

  /** When a collector last published successfully, read off the history. */
  ghost function LastPublish(policies: Policies, states: seq<State>, ops: seq<Op>, id: CollectorID): Moment
    requires |states| == |ops| + 1
  {
    if ops == [] then Never
    else
      var n := |ops| - 1;
      if ops[n].Publish? && ops[n].id == id && Taken(policies, states[n], id, ops[n].partial) then At(ops[n].now)
      else LastPublish(policies, states[..n + 1], ops[..n], id)
  }

  ghost function SuccessTime(m: Moment): int { if m.At? then m.time else ZERO_TIME }

  lemma {:induction false} StatusRemembersLastPublish(
    policies: Policies, states: seq<State>, ops: seq<Op>, id: CollectorID)
    requires IsRun(policies, states, ops)
    ensures StatusOf(states[|ops|].statuses, id).lastSuccess == SuccessTime(LastPublish(policies, states, ops, id))
  {
    if ops != [] {
      var n := |ops| - 1;
      StatusRemembersLastPublish(policies, states[..n + 1], ops[..n], id);
      assert Step(policies, states[n], ops[n], states[n + 1]);
      if ops[n].Publish? && Taken(policies, states[n], ops[n].id, ops[n].partial) {
        assert StatusOf(states[n + 1].statuses, id).lastSuccess
            == if id == ops[n].id then ops[n].now else StatusOf(states[n].statuses, id).lastSuccess;
      }
    }
  }

  /** A collector's last accepted publish exists and is recent enough. */
  ghost predicate Current(m: Moment, now: int, staleAfter: int) {
    m.At? && m.time != ZERO_TIME && now - m.time <= staleAfter
  }

  lemma {:induction false} ProbeScansEveryCollector(
    s: State, now: int, freshnessTTL: int, staleAfter: int, required: seq<CollectorID>)
    requires 0 < freshnessTTL <= staleAfter
    ensures Probe(LoadView(s, now, freshnessTTL, staleAfter), required) == Ready <==>
            forall id :: id in required ==>
              && StatusOf(s.statuses, id).lastSuccess != ZERO_TIME
              && now - StatusOf(s.statuses, id).lastSuccess <= staleAfter
  {
    if required != [] {
      ProbeScansEveryCollector(s, now, freshnessTTL, staleAfter, required[1..]);
      assert required == [required[0]] + required[1..];
      var view, first := LoadView(s, now, freshnessTTL, staleAfter), required[0];
      var age := AgeClass(now, StatusOf(s.statuses, first).lastSuccess, freshnessTTL, staleAfter);
      assert first in s.statuses ==> first in view.freshness && view.freshness[first] == age;
      assert Probe(view, required) == Ready <==>
        (age == Fresh || age == Aging) && Probe(view, required[1..]) == Ready;
    }
  }

  /** In every run, at any clock reading, the exporter is ready exactly when each
      required collector's last accepted publish is at most staleAfter old. */
  lemma ReadyIffEveryCollectorIsCurrent(
    policies: Policies, states: seq<State>, ops: seq<Op>,
    now: int, freshnessTTL: int, staleAfter: int, required: seq<CollectorID>)
    requires IsRun(policies, states, ops) && 0 < freshnessTTL <= staleAfter
    ensures Probe(LoadView(states[|ops|], now, freshnessTTL, staleAfter), required) == Ready <==>
            forall id :: id in required ==> Current(LastPublish(policies, states, ops, id), now, staleAfter)
  {
    var s := states[|ops|];
    ProbeScansEveryCollector(s, now, freshnessTTL, staleAfter, required);
    forall id
      ensures Current(LastPublish(policies, states, ops, id), now, staleAfter) <==>
              && StatusOf(s.statuses, id).lastSuccess != ZERO_TIME
              && now - StatusOf(s.statuses, id).lastSuccess <= staleAfter
    {
      StatusRemembersLastPublish(policies, states, ops, id);
    }
  }
}
