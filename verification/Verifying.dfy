/** The target identity verifier as a protocol of many concurrent callers. Each
    critical section of `Verify` is one step; credential reads, the identity call
    and the clock are arbitrary. Fingerprints and channels are numbers. */
module Verifying {
  datatype Option<+T> = None | Some(value: T)

  datatype Config = Config(accountID: string, successTTL: int, failureTTL: int)

  /** The fields that the mutex guards. `failed` is `lastErr != nil`. */
  datatype Cache = Cache(
    verified: bool, verifiedUntil: int, verifiedFor: nat,
    inFlight: Option<nat>,
    failed: bool, retryAfter: int, failedFor: nat)

  const EMPTY := Cache(false, 0, 0, None, false, 0, 0)

  /** A completed check: for which fingerprint, from when to when, the account that
      the identity call reported and the fingerprint read afterwards, if any. */
  datatype Check = Check(f: nat, begun: int, at: int, account: Option<string>, reread: Option<nat>)

  predicate Good(cfg: Config, c: Check) { c.account == Some(cfg.accountID) && c.reread == Some(c.f) }

  datatype Outcome = Passed(f: nat, at: int) | Refused(f: nat, at: int) | Unresolved

  datatype Caller =
    | Reading
    | AtLock(f: nat)
    | Waiting(channel: nat)
    | Calling(f: nat, channel: nat, begun: int)
    | Rereading(f: nat, channel: nat, begun: int)
    | Settling(f: nat, channel: nat, begun: int, account: Option<string>, reread: Option<nat>)
    | Returned(outcome: Outcome)

  datatype System = System(
    cache: Cache, callers: map<nat, Caller>, closed: set<nat>, channels: nat, now: int, log: seq<Check>)

  datatype Action =
    | Call(id: nat)
    | Read(id: nat, result: Option<nat>)
    | Consult(id: nat, first: int, second: int)
    | Wake(id: nat)
    | Cancelled(id: nat)
    | Answer(id: nat, account: Option<string>)
    | Reread(id: nat, result: Option<nat>)
    | Settle(id: nat, time: int)

  // ------------------------------------------------- the critical sections

  datatype Decision = Pass | Wait(channel: nat) | Refuse | Begin

  /** From the first lock to its unlock; the clock is read once or twice. */
  function Decide(cfg: Config, c: Cache, f: nat, first: int, second: int, next: nat): (Cache, Decision) {
    if c.verified && c.verifiedFor == f && (cfg.successTTL <= 0 || first < c.verifiedUntil) then (c, Pass)
    else if c.inFlight.Some? then (c.(verified := false), Wait(c.inFlight.value))
    else if c.failed && c.failedFor == f && second < c.retryAfter then (c.(verified := false), Refuse)
    else (c.(verified := false, inFlight := Some(next)), Begin)
  }

  /** From the second lock to its unlock. */
  function Settled(cfg: Config, c: Cache, f: nat, ok: bool, time: int): Cache {
    if ok then
      c.(verified := true, verifiedUntil := time + cfg.successTTL, verifiedFor := f, failed := false, inFlight := None)
    else
      c.(failed := true, retryAfter := time + cfg.failureTTL, failedFor := f, inFlight := None)
  }

  predicate Enabled(s: System, a: Action) {
    match a
    case Call(id) => id !in s.callers
    case Read(id, _) => id in s.callers && s.callers[id] == Reading
    case Consult(id, first, second) => id in s.callers && s.callers[id].AtLock? && s.now <= first <= second
    case Wake(id) => id in s.callers && s.callers[id].Waiting? && s.callers[id].channel in s.closed
    case Cancelled(id) => id in s.callers && s.callers[id].Waiting?
    case Answer(id, _) => id in s.callers && s.callers[id].Calling?
    case Reread(id, _) => id in s.callers && s.callers[id].Rereading?
    case Settle(id, time) => id in s.callers && s.callers[id].Settling? && s.now <= time
  }

  function Consulted(cfg: Config, s: System, id: nat, first: int, second: int): System
    requires Enabled(s, Consult(id, first, second))
  {
    var f := s.callers[id].f;
    var (cache, decision) := Decide(cfg, s.cache, f, first, second, s.channels);
    match decision
    case Pass => s.(now := first, callers := s.callers[id := Returned(Passed(f, first))])
    case Wait(channel) => s.(cache := cache, now := first, callers := s.callers[id := Waiting(channel)])
    case Refuse => s.(cache := cache, now := second, callers := s.callers[id := Returned(Refused(f, second))])
    case Begin => s.(cache := cache, now := second, channels := s.channels + 1,
                     callers := s.callers[id := Calling(f, s.channels, second)])
  }

  function Completed(cfg: Config, s: System, id: nat, time: int): System
    requires Enabled(s, Settle(id, time))
  {
    var p := s.callers[id];
    var check := Check(p.f, p.begun, time, p.account, p.reread);
    s.(cache := Settled(cfg, s.cache, p.f, Good(cfg, check), time),
       callers := s.callers[id := Returned(if Good(cfg, check) then Passed(p.f, time) else Refused(p.f, time))],
       closed := s.closed + {p.channel},
       now := time,
       log := s.log + [check])
  }

  /** What a step that takes no lock makes of its caller. */
  function Advanced(cfg: Config, p: Caller, a: Action): Caller {
    match a
    case Read(_, result) => if result.Some? then AtLock(result.value) else Returned(Unresolved)
    case Cancelled(_) => Returned(Unresolved)
    case Answer(_, account) =>
      if !p.Calling? then p
      else if account == Some(cfg.accountID) then Rereading(p.f, p.channel, p.begun)
      else Settling(p.f, p.channel, p.begun, account, None)
    case Reread(_, result) =>
      if p.Rereading? then Settling(p.f, p.channel, p.begun, Some(cfg.accountID), result) else p
    case _ => Reading
  }

  function Next(cfg: Config, s: System, a: Action): System
    requires Enabled(s, a)
  {
    match a
    case Consult(id, first, second) => Consulted(cfg, s, id, first, second)
    case Settle(id, time) => Completed(cfg, s, id, time)
    case _ => s.(callers := s.callers[a.id := Advanced(cfg, if a.id in s.callers then s.callers[a.id] else Reading, a)])
  }

  ghost predicate CanRun(cfg: Config, s: System, actions: seq<Action>)
    decreases |actions|
  {
    actions == [] || (Enabled(s, actions[0]) && CanRun(cfg, Next(cfg, s, actions[0]), actions[1..]))
  }

  ghost function Run(cfg: Config, s: System, actions: seq<Action>): System
    requires CanRun(cfg, s, actions)
    decreases |actions|
  {
    if actions == [] then s else Run(cfg, Next(cfg, s, actions[0]), actions[1..])
  }

  function Initial(now: int): System { System(EMPTY, map[], {}, 0, now, []) }

  ghost predicate Reachable(cfg: Config, s: System) {
    exists now, actions :: CanRun(cfg, Initial(now), actions) && Run(cfg, Initial(now), actions) == s
  }

  // -------------------------------------------------------------- invariant

  predicate Owns(p: Caller) { p.Calling? || p.Rereading? || p.Settling? }

  function Owners(s: System): set<nat> { set id | id in s.callers && Owns(s.callers[id]) }

  /** Every owner's channel is the current one, and there is an owner if and only if
      there is a current channel. */
  ghost predicate FlightInv(s: System) {
    && (forall id :: id in s.callers && Owns(s.callers[id]) ==> s.cache.inFlight == Some(s.callers[id].channel))
    && (forall a, b :: a in Owners(s) && b in Owners(s) ==> a == b)
    && (s.cache.inFlight.Some? ==> exists id :: id in Owners(s))
    && (s.cache.inFlight.Some? ==> s.cache.inFlight.value < s.channels && s.cache.inFlight.value !in s.closed)
    && (forall c :: c in s.closed ==> c < s.channels)
  }

  ghost predicate WaitersInv(s: System) {
    forall id :: id in s.callers && s.callers[id].Waiting? ==>
      s.callers[id].channel in s.closed || s.cache.inFlight == Some(s.callers[id].channel)
  }

  function Last(s: System): Check
    requires s.log != []
  {
    s.log[|s.log| - 1]
  }

  /** Both cached verdicts speak of the last completed check. */
  predicate CacheInv(cfg: Config, s: System) {
    var c := s.cache;
    && (c.verified ==>
          && c.inFlight == None && s.log != [] && Good(cfg, Last(s))
          && c.verifiedFor == Last(s).f && c.verifiedUntil == Last(s).at + cfg.successTTL)
    && (c.failed <==> s.log != [] && !Good(cfg, Last(s)))
    && (c.failed ==> c.failedFor == Last(s).f && c.retryAfter == Last(s).at + cfg.failureTTL)
  }

  /** Completed checks never overlapped: each began after the one before ended. */
  ghost predicate Sequential(log: seq<Check>, now: int) {
    && (forall k :: 0 <= k < |log| ==> log[k].begun <= log[k].at <= now)
    && (forall k, l :: 0 <= k < l < |log| ==> log[k].at <= log[l].begun)
  }

  ghost predicate TimesInv(s: System) {
    && Sequential(s.log, s.now)
    && forall id :: id in s.callers && Owns(s.callers[id]) ==>
         s.callers[id].begun <= s.now && (s.log != [] ==> Last(s).at <= s.callers[id].begun)
  }

  /** Check k accounts for an outcome: right verdict, right fingerprint, completed
      by then and, with a positive time to live, not yet expired. */
  predicate AccountsFor(cfg: Config, c: Check, o: Outcome) {
    match o
    case Passed(f, at) =>
      Good(cfg, c) && c.f == f && c.at <= at && (cfg.successTTL > 0 ==> at < c.at + cfg.successTTL)
    case Refused(f, at) =>
      !Good(cfg, c) && c.f == f && c.at <= at && (cfg.failureTTL > 0 ==> at < c.at + cfg.failureTTL)
    case Unresolved => true
  }

  ghost predicate Justified(cfg: Config, log: seq<Check>, o: Outcome) {
    o != Unresolved ==> exists k :: 0 <= k < |log| && AccountsFor(cfg, log[k], o)
  }

  ghost predicate OutcomesInv(cfg: Config, s: System) {
    forall id :: id in s.callers && s.callers[id].Returned? ==> Justified(cfg, s.log, s.callers[id].outcome)
  }

  ghost predicate Inv(cfg: Config, s: System) {
    FlightInv(s) && WaitersInv(s) && CacheInv(cfg, s) && TimesInv(s) && OutcomesInv(cfg, s)
  }

  // ------------------------------------------------- each step keeps each part

  lemma OwnersChange(s: System, s': System, id: nat)
    requires s'.callers.Keys == s.callers.Keys + {id}
    requires forall k :: k in s.callers && k != id ==> s'.callers[k] == s.callers[k]
    ensures Owners(s') == if Owns(s'.callers[id]) then Owners(s) + {id} else Owners(s) - {id}
  {
  }

  lemma StepTouchesOneCaller(cfg: Config, s: System, a: Action)
    requires Enabled(s, a)
    ensures var s' := Next(cfg, s, a);
            && s'.callers.Keys == s.callers.Keys + {a.id}
            && forall k :: k in s.callers && k != a.id ==> s'.callers[k] == s.callers[k]
  {
  }

  lemma StepKeepsFlight(cfg: Config, s: System, a: Action)
    requires Enabled(s, a) && FlightInv(s) && CacheInv(cfg, s)
    ensures FlightInv(Next(cfg, s, a))
  {
    var s' := Next(cfg, s, a);
    StepTouchesOneCaller(cfg, s, a);
    OwnersChange(s, s', a.id);
    if a.id in s.callers && Owns(s.callers[a.id]) {
      assert a.id in Owners(s);
    }
    if Owns(s'.callers[a.id]) {
      assert a.id in Owners(s');
    }
    if a.Settle? {
      forall k | k in s.callers && Owns(s.callers[k]) ensures k == a.id {
        assert k in Owners(s);
      }
    } else if s.cache.inFlight.Some? {
      var id :| id in Owners(s);
      assert id in Owners(s');
    }
  }

  lemma StepKeepsWaiters(cfg: Config, s: System, a: Action)
    requires Enabled(s, a) && FlightInv(s) && WaitersInv(s)
    ensures WaitersInv(Next(cfg, s, a))
  {
  }

  lemma StepKeepsCache(cfg: Config, s: System, a: Action)
    requires Enabled(s, a) && FlightInv(s) && CacheInv(cfg, s)
    ensures CacheInv(cfg, Next(cfg, s, a))
  {
  }

  lemma StepKeepsTimes(cfg: Config, s: System, a: Action)
    requires Enabled(s, a) && FlightInv(s) && TimesInv(s)
    ensures TimesInv(Next(cfg, s, a))
  {
    StepTouchesOneCaller(cfg, s, a);
    if a.Settle? {
      SettleKeepsTimes(cfg, s, a);
    } else if a.id in s.callers && Owns(s.callers[a.id]) {
      assert Owns(Next(cfg, s, a).callers[a.id]) ==> Next(cfg, s, a).callers[a.id].begun == s.callers[a.id].begun;
    }
  }

  lemma SettleKeepsTimes(cfg: Config, s: System, a: Action)
    requires Enabled(s, a) && a.Settle? && FlightInv(s) && TimesInv(s)
    ensures TimesInv(Next(cfg, s, a))
  {
    StepTouchesOneCaller(cfg, s, a);
    assert a.id in Owners(s);
    forall k | k in s.callers && k != a.id ensures !Owns(s.callers[k]) {
      assert k in Owners(s) ==> k == a.id;
    }
  }

  lemma LogKeepsJustified(cfg: Config, log: seq<Check>, more: seq<Check>, o: Outcome)
    requires Justified(cfg, log, o)
    ensures Justified(cfg, log + more, o)
  {
    if o != Unresolved {
      var k :| 0 <= k < |log| && AccountsFor(cfg, log[k], o);
      assert (log + more)[k] == log[k];
    }
  }

  /** A cached verdict is the last check's. */
  lemma CachedVerdictsAreJustified(cfg: Config, s: System, id: nat, first: int, second: int)
    requires Enabled(s, Consult(id, first, second)) && CacheInv(cfg, s) && TimesInv(s)
    ensures var p := Consulted(cfg, s, id, first, second).callers[id];
            p.Returned? ==> Justified(cfg, s.log, p.outcome)
  {
  }

  lemma OwnVerdictIsJustified(cfg: Config, s: System, id: nat, time: int)
    requires Enabled(s, Settle(id, time))
    ensures var s' := Completed(cfg, s, id, time);
            s'.callers[id].Returned? && Justified(cfg, s'.log, s'.callers[id].outcome)
  {
    var s' := Completed(cfg, s, id, time);
    assert AccountsFor(cfg, s'.log[|s.log|], s'.callers[id].outcome);
  }

  lemma StepKeepsOutcomes(cfg: Config, s: System, a: Action)
    requires Enabled(s, a) && CacheInv(cfg, s) && TimesInv(s) && OutcomesInv(cfg, s)
    ensures OutcomesInv(cfg, Next(cfg, s, a))
  {
    var s' := Next(cfg, s, a);
    StepTouchesOneCaller(cfg, s, a);
    forall id | id in s'.callers && s'.callers[id].Returned? ensures Justified(cfg, s'.log, s'.callers[id].outcome) {
      if id != a.id {
        LogKeepsJustified(cfg, s.log, if a.Settle? then [Last(s')] else [], s.callers[id].outcome);
        assert s'.log == s.log + if a.Settle? then [Last(s')] else [];
      } else if a.Consult? {
        CachedVerdictsAreJustified(cfg, s, id, a.first, a.second);
      } else if a.Settle? {
        OwnVerdictIsJustified(cfg, s, id, a.time);
      }
    }
  }

  lemma StepKeepsInv(cfg: Config, s: System, a: Action)
    requires Enabled(s, a) && Inv(cfg, s)
    ensures Inv(cfg, Next(cfg, s, a))
  {
    StepKeepsFlight(cfg, s, a);
    StepKeepsWaiters(cfg, s, a);
    StepKeepsCache(cfg, s, a);
    StepKeepsTimes(cfg, s, a);
    StepKeepsOutcomes(cfg, s, a);
  }

  lemma {:induction false} RunKeepsInv(cfg: Config, s: System, actions: seq<Action>)
    requires Inv(cfg, s) && CanRun(cfg, s, actions)
    ensures Inv(cfg, Run(cfg, s, actions))
    decreases |actions|
  {
    if actions != [] {
      StepKeepsInv(cfg, s, actions[0]);
      RunKeepsInv(cfg, Next(cfg, s, actions[0]), actions[1..]);
    }
  }

  lemma ReachableInv(cfg: Config, s: System)
    requires Reachable(cfg, s)
    ensures Inv(cfg, s)
  {
    var now, actions :| CanRun(cfg, Initial(now), actions) && Run(cfg, Initial(now), actions) == s;
    RunKeepsInv(cfg, Initial(now), actions);
  }

  // --------------------------------------------------------------- theorems

  /** Soundness: whoever passed did so on the strength of a completed check of the
      same fingerprint that saw the configured account, found the credentials
      unchanged afterwards and, with a positive time to live, had not expired. */
  lemma PassedMeansVerified(cfg: Config, s: System, id: nat)
    requires Reachable(cfg, s) && id in s.callers && s.callers[id].Returned? && s.callers[id].outcome.Passed?
    ensures var o := s.callers[id].outcome;
            exists k :: && 0 <= k < |s.log| && s.log[k].f == o.f
                        && s.log[k].account == Some(cfg.accountID) && s.log[k].reread == Some(o.f)
                        && s.log[k].begun <= s.log[k].at <= o.at
                        && (cfg.successTTL > 0 ==> o.at < s.log[k].at + cfg.successTTL)
  {
    ReachableInv(cfg, s);
    var o := s.callers[id].outcome;
    var k :| 0 <= k < |s.log| && AccountsFor(cfg, s.log[k], o);
    assert s.log[k].f == o.f;
  }

  /** A refusal is no guess either: it repeats a failed check of the same fingerprint. */
  lemma RefusedMeansFailed(cfg: Config, s: System, id: nat)
    requires Reachable(cfg, s) && id in s.callers && s.callers[id].Returned? && s.callers[id].outcome.Refused?
    ensures var o := s.callers[id].outcome;
            exists k :: && 0 <= k < |s.log| && s.log[k].f == o.f && !Good(cfg, s.log[k]) && s.log[k].at <= o.at
                        && (cfg.failureTTL > 0 ==> o.at < s.log[k].at + cfg.failureTTL)
  {
    ReachableInv(cfg, s);
    var o := s.callers[id].outcome;
    var k :| 0 <= k < |s.log| && AccountsFor(cfg, s.log[k], o);
    assert s.log[k].f == o.f;
  }

  /** Single flight: the identity call and what follows it up to the verdict have
      one owner exactly when `inFlight` is set, and never two at any time. */
  lemma OneOwnerIffInFlight(cfg: Config, s: System)
    requires Reachable(cfg, s)
    ensures |Owners(s)| == if s.cache.inFlight.Some? then 1 else 0
    ensures Sequential(s.log, s.now)
  {
    ReachableInv(cfg, s);
    if s.cache.inFlight.Some? {
      var id :| id in Owners(s);
      assert Owners(s) == {id};
    } else {
      assert forall id :: id !in Owners(s);
      assert Owners(s) == {};
    }
  }

  /** No waiter is forgotten: its channel is closed, or it is the channel that the
      one owner will close, and that owner always has a step to take. */
  lemma WaitersAreServed(cfg: Config, s: System, id: nat)
    requires Reachable(cfg, s) && id in s.callers && s.callers[id].Waiting?
    ensures || Enabled(s, Wake(id))
            || exists owner :: && owner in Owners(s) && s.callers[owner].channel == s.callers[id].channel
                               && (Enabled(s, Answer(owner, None)) || Enabled(s, Reread(owner, None))
                                   || Enabled(s, Settle(owner, s.now)))
  {
    ReachableInv(cfg, s);
    if s.callers[id].channel !in s.closed {
      var owner :| owner in Owners(s);
      assert s.callers[owner].channel == s.callers[id].channel;
    }
  }

  // ------------------------------------------------------- spacing of calls

  /** Every credential read that succeeds yields f. */
  predicate Steady(actions: seq<Action>, f: nat) {
    forall a :: a in actions && a.Read? && a.result.Some? ==> a.result.value == f
  }

  predicate Concerns(p: Caller, f: nat) { (p.AtLock? || Owns(p)) ==> p.f == f }

  /** How long a check's verdict keeps the next call away. */
  function Rest(cfg: Config, c: Check): int { if Good(cfg, c) then cfg.successTTL else cfg.failureTTL }

  ghost predicate SpacedLog(cfg: Config, log: seq<Check>) {
    forall k :: 0 < k < |log| ==> log[k - 1].at + Rest(cfg, log[k - 1]) <= log[k].begun
  }

  ghost predicate SteadyInv(cfg: Config, s: System, f: nat) {
    && (forall id :: id in s.callers ==> Concerns(s.callers[id], f))
    && (forall k :: 0 <= k < |s.log| ==> s.log[k].f == f)
    && SpacedLog(cfg, s.log)
    && (forall id :: id in Owners(s) && s.log != [] ==> Last(s).at + Rest(cfg, Last(s)) <= s.callers[id].begun)
    && (s.log != [] && Good(cfg, Last(s)) && !s.cache.verified ==> 0 < cfg.successTTL <= s.now - Last(s).at)
    && (cfg.successTTL <= 0 && s.log != [] && Good(cfg, Last(s)) ==> Owners(s) == {})
    && (cfg.successTTL <= 0 ==> forall k :: 0 <= k < |s.log| - 1 ==> !Good(cfg, s.log[k]))
  }

  lemma SteadySettle(cfg: Config, s: System, a: Action, f: nat)
    requires Enabled(s, a) && a.Settle? && Inv(cfg, s) && SteadyInv(cfg, s, f)
    ensures SteadyInv(cfg, Next(cfg, s, a), f)
  {
    var s' := Next(cfg, s, a);
    assert a.id in Owners(s);
    StepTouchesOneCaller(cfg, s, a);
    StepKeepsFlight(cfg, s, a);
    assert Last(s').begun == s.callers[a.id].begun;
    forall id ensures id !in Owners(s') {
      assert s'.cache.inFlight == None;
    }
  }

  lemma SteadyConsult(cfg: Config, s: System, a: Action, f: nat)
    requires Enabled(s, a) && a.Consult? && Inv(cfg, s) && SteadyInv(cfg, s, f)
    ensures SteadyInv(cfg, Next(cfg, s, a), f)
  {
    var s' := Next(cfg, s, a);
    StepTouchesOneCaller(cfg, s, a);
    OwnersChange(s, s', a.id);
    assert Concerns(s.callers[a.id], f);
    SteadyDecision(cfg, s, a, f);
  }

  /** A consultation by a caller of the same fingerprint begins a call only after
      the last verdict's rest, and clears a success only when that has expired. */
  lemma SteadyDecision(cfg: Config, s: System, a: Action, f: nat)
    requires Enabled(s, a) && a.Consult? && CacheInv(cfg, s) && SteadyInv(cfg, s, f) && Sequential(s.log, s.now)
    ensures var s' := Next(cfg, s, a); var p := s'.callers[a.id];
            && Concerns(p, f)
            && (Owns(p) && s.log != [] ==> Last(s).at + Rest(cfg, Last(s)) <= p.begun)
            && (s.log != [] && Good(cfg, Last(s)) && !s'.cache.verified ==> 0 < cfg.successTTL <= s'.now - Last(s).at)
            && (cfg.successTTL <= 0 && s.log != [] && Good(cfg, Last(s)) ==> !Owns(p))
  {
  }

  lemma SteadyOther(cfg: Config, s: System, a: Action, f: nat)
    requires Enabled(s, a) && !a.Consult? && !a.Settle? && Steady([a], f) && SteadyInv(cfg, s, f)
    ensures SteadyInv(cfg, Next(cfg, s, a), f)
  {
    var s' := Next(cfg, s, a);
    StepTouchesOneCaller(cfg, s, a);
    OwnersChange(s, s', a.id);
    assert a in [a];
    if a.id in s.callers {
      assert Concerns(s.callers[a.id], f);
      assert Owns(s.callers[a.id]) ==> a.id in Owners(s);
    }
  }

  lemma {:induction false} SteadyRun(cfg: Config, s: System, actions: seq<Action>, f: nat)
    requires Inv(cfg, s) && SteadyInv(cfg, s, f)
    requires CanRun(cfg, s, actions) && Steady(actions, f)
    ensures SteadyInv(cfg, Run(cfg, s, actions), f)
    decreases |actions|
  {
    if actions != [] {
      var a := actions[0];
      assert a in actions && forall b :: b in actions[1..] ==> b in actions;
      StepKeepsInv(cfg, s, a);
      if a.Consult? {
        SteadyConsult(cfg, s, a, f);
      } else if a.Settle? {
        SteadySettle(cfg, s, a, f);
      } else {
        SteadyOther(cfg, s, a, f);
      }
      SteadyRun(cfg, Next(cfg, s, a), actions[1..], f);
    }
  }

  /** While the fingerprint does not change, a new identity call starts no sooner
      than the matching time to live after the previous check completed. (A success
      time to live that is not positive never expires, and then none starts.) */
  lemma CallsAreSpaced(cfg: Config, now: int, actions: seq<Action>, f: nat)
    requires CanRun(cfg, Initial(now), actions) && Steady(actions, f)
    ensures var s := Run(cfg, Initial(now), actions);
            && (forall k :: 0 < k < |s.log| ==> s.log[k - 1].at + Rest(cfg, s.log[k - 1]) <= s.log[k].begun)
            && (forall id :: id in Owners(s) && s.log != [] ==> Last(s).at + Rest(cfg, Last(s)) <= s.callers[id].begun)
            && (cfg.successTTL <= 0 ==> forall k :: 0 <= k < |s.log| - 1 ==> !Good(cfg, s.log[k]))
  {
    SteadyRun(cfg, Initial(now), actions, f);
  }

  lemma LastVerdictAnswers(cfg: Config, s: System, f: nat, a: Action)
    requires Inv(cfg, s) && SteadyInv(cfg, s, f) && Enabled(s, a) && a.Consult? && s.log != []
    ensures Good(cfg, Last(s)) && (cfg.successTTL <= 0 || a.first < Last(s).at + cfg.successTTL) ==>
              Next(cfg, s, a).callers[a.id] == Returned(Passed(f, a.first))
    ensures !Good(cfg, Last(s)) && a.second < Last(s).at + cfg.failureTTL ==>
              Next(cfg, s, a).callers[a.id] == Returned(Refused(f, a.second))
  {
  }

  /** And within that time every caller is answered at once with the last verdict:
      it neither waits nor calls. */
  lemma VerdictsAreReused(cfg: Config, now: int, actions: seq<Action>, f: nat, a: Action)
    requires CanRun(cfg, Initial(now), actions) && Steady(actions, f)
    requires Enabled(Run(cfg, Initial(now), actions), a) && a.Consult? && Run(cfg, Initial(now), actions).log != []
    ensures var s := Run(cfg, Initial(now), actions);
            && (Good(cfg, Last(s)) && (cfg.successTTL <= 0 || a.first < Last(s).at + cfg.successTTL) ==>
                  Next(cfg, s, a).callers[a.id] == Returned(Passed(f, a.first)))
            && (!Good(cfg, Last(s)) && a.second < Last(s).at + cfg.failureTTL ==>
                  Next(cfg, s, a).callers[a.id] == Returned(Refused(f, a.second)))
  {
    RunKeepsInv(cfg, Initial(now), actions);
    SteadyRun(cfg, Initial(now), actions, f);
    LastVerdictAnswers(cfg, Run(cfg, Initial(now), actions), f, a);
  }
}
