/** What every run of the scheduler keeps, that no worker waits forever for a
    slot, and exactly when a shutdown can complete. */
module SchedulingTheorems {
  import opened Domain
  import opened Scheduling
  import Bags

  // --------------------------------------------------------- single flight

  /** In every reachable state, until a job's worker has returned, the running
      flag holds exactly while one reference is about to be sent, queued or being
      collected. A send is blocked only after that worker returned and left a
      reference behind. */
  lemma SingleFlightInEveryRun(cfg: Config, s: System, id: CollectorID)
    requires ValidConfig(cfg) && Reachable(cfg, s) && id in s.jobs
    ensures var j := s.jobs[id];
            && (j.phase != Returned ==> Tokens(j) <= 1 && (j.running <==> Tokens(j) == 1) && !SendBlocked(j))
            && (SendBlocked(j) ==> j.phase == Returned && j.stranded)
  {
    ReachableInv(cfg, s);
  }

  /** Every tick is skipped, or dispatched and then collected at most once. */
  lemma EveryTickOnce(cfg: Config, s: System, id: CollectorID, n: nat)
    requires ValidConfig(cfg) && Reachable(cfg, s) && id in s.jobs && n < s.jobs[id].ticks
    ensures var j := s.jobs[id];
            && One(n in j.skipped) + One(n in j.begun) + One(n in j.queue) + One(n in Sent(j)) == 1
            && multiset(j.begun)[n] <= 1
  {
    ReachableInv(cfg, s);
    var j := s.jobs[id];
    var d := Dispatched(j);
    assert n in d <==> n in j.begun || n in j.queue || n in Sent(j);
    forall a: nat, b: nat | a < b < |d| ensures d[a] != d[b] { assert d[a] < d[b]; }
    PlacesDoNotOverlap(j.begun, j.queue, Sent(j), n);
    Bags.DistinctIsMultiplicityOne(j.begun);
    assert Bags.Distinct(j.begun) by {
      forall i, k | 0 <= i < k < |j.begun| ensures j.begun[i] != j.begun[k] {
        assert d[i] == j.begun[i] && d[k] == j.begun[k];
      }
    }
  }

  lemma PlacesDoNotOverlap(a: seq<nat>, b: seq<nat>, c: seq<nat>, n: nat)
    requires forall i, k :: 0 <= i < k < |a + b + c| ==> (a + b + c)[i] != (a + b + c)[k]
    ensures One(n in a) + One(n in b) + One(n in c) <= 1
  {
    var d := a + b + c;
    if n in a {
      var i :| 0 <= i < |a| && a[i] == n;
      assert d[i] == n;
      forall k | 0 <= k < |b| ensures b[k] != n { assert d[|a| + k] == b[k]; }
      forall k | 0 <= k < |c| ensures c[k] != n { assert d[|a| + |b| + k] == c[k]; }
    } else if n in b {
      var i :| 0 <= i < |b| && b[i] == n;
      assert d[|a| + i] == n;
      forall k | 0 <= k < |c| ensures c[k] != n { assert d[|a| + |b| + k] == c[k]; }
    }
  }

  // ------------------------------------------------------------ slot safety

  function Collectors(s: System): set<CollectorID> {
    set id | id in s.jobs && s.jobs[id].phase == Collecting
  }

  /** At most MaxConcurrency collectors run, at most one per target, and the
      channel lengths are the numbers of their holders. */
  lemma SlotSafety(cfg: Config, s: System)
    requires ValidConfig(cfg) && Reachable(cfg, s)
    ensures s.semaphore == |SemaphoreHolders(s)| && |Collectors(s)| <= s.semaphore <= cfg.maxConcurrency
    ensures forall t :: Length(s, t) == |TargetHolders(s, t)| && Length(s, t) <= 1
    ensures forall a, b :: a in Collectors(s) && b in Collectors(s) && a.target == b.target ==> a == b
  {
    ReachableInv(cfg, s);
    SubsetSize(Collectors(s), SemaphoreHolders(s));
    forall a, b | a in Collectors(s) && b in Collectors(s) && a.target == b.target ensures a == b {
      var holders := TargetHolders(s, a.target);
      assert Length(s, a.target) == |holders| && Length(s, a.target) <= 1;
      if a != b {
        SubsetSize({a, b}, holders);
      }
    }
  }

  lemma {:induction false} SubsetSize<T>(a: set<T>, b: set<T>)
    requires a <= b
    ensures |a| <= |b|
  {
    if a != {} {
      var x :| x in a;
      SubsetSize(a - {x}, b - {x});
    }
  }

  /** A release is always possible the moment it is due. */
  lemma ReleasesNeverBlock(cfg: Config, s: System, id: CollectorID)
    requires SlotsCounted(cfg, s) && id in s.jobs
    ensures s.jobs[id].phase == DropSemaphore ==> Enabled(cfg, s, Do(id, PutSemaphore))
    ensures s.jobs[id].phase == DropTarget ==> Enabled(cfg, s, Do(id, PutTarget))
    ensures s.jobs[id].phase == QuitTarget ==> Enabled(cfg, s, Do(id, PutTargetAndQuit))
  {
    var holders := TargetHolders(s, id.target);
    assert Length(s, id.target) == |holders|;
    if HoldsTarget(s.jobs[id].phase) {
      assert id in holders;
      assert |holders| > 0;
    }
    if HoldsSemaphore(s.jobs[id].phase) {
      assert id in SemaphoreHolders(s);
      assert |SemaphoreHolders(s)| > 0;
    }
  }

  /** Once every worker has returned, every slot is free. */
  lemma SlotsFreeAtTheEnd(cfg: Config, s: System)
    requires ValidConfig(cfg) && Reachable(cfg, s)
    requires forall id :: id in s.jobs ==> s.jobs[id].phase == Returned
    ensures s.semaphore == 0 && forall t :: Length(s, t) == 0
  {
    ReachableInv(cfg, s);
    assert SemaphoreHolders(s) == {};
    forall t ensures Length(s, t) == 0 {
      assert TargetHolders(s, t) == {};
      assert Length(s, t) == |TargetHolders(s, t)|;
    }
  }

  // --------------------------------------------------------------- progress

  /** A worker that would wait if nothing else moved. */
  predicate Blocked(cfg: Config, s: System, id: CollectorID) {
    && id in s.jobs
    && (|| (s.jobs[id].phase == AwaitTarget && Length(s, id.target) >= 1)
        || (s.jobs[id].phase == AwaitSemaphore && s.semaphore >= cfg.maxConcurrency))
  }

  /** `a` waits for a slot that `b` holds. */
  predicate WaitsFor(cfg: Config, s: System, a: CollectorID, b: CollectorID) {
    && Blocked(cfg, s, a) && b in s.jobs
    && (s.jobs[a].phase == AwaitTarget ==> b in TargetHolders(s, a.target))
    && (s.jobs[a].phase == AwaitSemaphore ==> b in SemaphoreHolders(s))
  }

  function Level(p: Phase): nat { if p == AwaitTarget then 2 else if p == AwaitSemaphore then 1 else 0 }

  /** Waiting always points to a strictly lower level, so no cycle can form, and
      a blocked worker always has somebody to wait for. */
  lemma NoCircularWait(cfg: Config, s: System, a: CollectorID)
    requires ValidConfig(cfg) && SlotsCounted(cfg, s) && Blocked(cfg, s, a)
    ensures exists b :: WaitsFor(cfg, s, a, b)
    ensures forall b :: WaitsFor(cfg, s, a, b) ==> Level(s.jobs[b].phase) < Level(s.jobs[a].phase)
  {
    if s.jobs[a].phase == AwaitTarget {
      var holders := TargetHolders(s, a.target);
      assert Length(s, a.target) == |holders|;
      assert holders != {};
      var b :| b in holders;
      assert WaitsFor(cfg, s, a, b);
    } else {
      assert SemaphoreHolders(s) != {};
      var b :| b in SemaphoreHolders(s);
      assert WaitsFor(cfg, s, a, b);
    }
  }

  /** The actions can be taken one after the other and end in `s'`. */
  ghost predicate Leads(cfg: Config, s: System, actions: seq<Action>, s': System) {
    CanRun(cfg, s, actions) && Run(cfg, s, actions) == s'
  }

  lemma {:induction false} LeadsOn(cfg: Config, s: System, a: seq<Action>, m: System, b: seq<Action>, s': System)
    requires Leads(cfg, s, a, m) && Leads(cfg, m, b, s')
    ensures Leads(cfg, s, a + b, s')
    decreases |a|
  {
    if a == [] {
      assert a + b == b;
    } else {
      LeadsOn(cfg, Next(cfg, s, a[0]), a[1..], m, b, s');
      assert (a + b)[1..] == a[1..] + b;
    }
  }

  /** Every job outside `movers` is as it was. */
  ghost predicate OnlyMoves(s: System, s': System, movers: set<CollectorID>) {
    && s'.jobs.Keys == s.jobs.Keys && s'.cancelled == s.cancelled
    && forall id :: id in s.jobs && id !in movers ==> s'.jobs[id] == s.jobs[id]
  }

  /** Jobs that hold no slot are as they were. */
  ghost predicate SlotlessUntouched(s: System, s': System) {
    && s'.jobs.Keys == s.jobs.Keys
    && forall id :: id in s.jobs && !HoldsTarget(s.jobs[id].phase) ==> s'.jobs[id] == s.jobs[id]
  }

  /** A collection going its ordinary way, with nothing cancelled or timed. */
  predicate Ordinary(m: Move) {
    m == TakeSemaphore || m == Answer || m == PutSemaphore || m == PutTarget || m == PutTargetAndQuit
  }

  predicate ByHolder(s: System, a: Action) {
    a.Do? && a.id in s.jobs && HoldsTarget(s.jobs[a.id].phase) && Ordinary(a.move)
  }

  /** Only jobs that hold a slot in `s` move, and only in the ordinary way. */
  ghost predicate ByHolders(s: System, actions: seq<Action>) { forall a :: a in actions ==> ByHolder(s, a) }

  /** Who holds a slot later held one before, if the slotless stayed as they were. */
  lemma HoldersFollow(s: System, m: System, first: seq<Action>, rest: seq<Action>)
    requires ByHolders(s, first) && SlotlessUntouched(s, m) && ByHolders(m, rest)
    ensures ByHolders(s, first + rest)
  {
  }

  lemma OneByHolder(s: System, h: CollectorID, m: Move)
    requires h in s.jobs && HoldsTarget(s.jobs[h].phase) && Ordinary(m)
    ensures ByHolders(s, [Do(h, m)])
  {
  }

  lemma BothByHolders(s: System, first: seq<Action>, rest: seq<Action>)
    requires ByHolders(s, first) && ByHolders(s, rest)
    ensures ByHolders(s, first + rest)
  {
  }

  lemma OneStep(cfg: Config, s: System, id: CollectorID, m: Move) returns (s': System)
    requires Inv(cfg, s) && Enabled(cfg, s, Do(id, m))
    ensures s' == Next(cfg, s, Do(id, m)) && Leads(cfg, s, [Do(id, m)], s')
    ensures Inv(cfg, s') && OnlyMoves(s, s', {id}) && s'.jobs[id] == Local(cfg, s.jobs[id], m)
  {
    s' := Next(cfg, s, Do(id, m));
    StepKeepsInv(cfg, s, Do(id, m));
    assert [Do(id, m)][1..] == [];
    assert CanRun(cfg, s', []);
  }

  /** The steps by which a semaphore holder gives its slot back. */
  lemma FreeSemaphore(cfg: Config, s: System) returns (actions: seq<Action>, k: CollectorID, s': System)
    requires Inv(cfg, s) && s.semaphore >= 1
    ensures k in SemaphoreHolders(s) && Leads(cfg, s, actions, s') && ByHolders(s, actions)
    ensures Inv(cfg, s') && OnlyMoves(s, s', {k}) && s'.semaphore == s.semaphore - 1 < cfg.maxConcurrency
  {
    assert SemaphoreHolders(s) != {};
    k :| k in SemaphoreHolders(s);
    OneByHolder(s, k, Answer);
    OneByHolder(s, k, PutSemaphore);
    BothByHolders(s, [Do(k, Answer)], [Do(k, PutSemaphore)]);
    if s.jobs[k].phase == Collecting {
      var mid := OneStep(cfg, s, k, Answer);
      ReleasesNeverBlock(cfg, mid, k);
      s' := OneStep(cfg, mid, k, PutSemaphore);
      LeadsOn(cfg, s, [Do(k, Answer)], mid, [Do(k, PutSemaphore)], s');
      actions := [Do(k, Answer)] + [Do(k, PutSemaphore)];
    } else {
      ReleasesNeverBlock(cfg, s, k);
      s' := OneStep(cfg, s, k, PutSemaphore);
      actions := [Do(k, PutSemaphore)];
    }
  }

  /** What a target holder does next on its way to giving the slot back. */
  function ReleaseMove(p: Phase): Move
    requires HoldsTarget(p)
  {
    match p
    case AwaitSemaphore => TakeSemaphore
    case Collecting => Answer
    case DropSemaphore => PutSemaphore
    case DropTarget => PutTarget
    case _ => PutTargetAndQuit
  }

  function ReleaseRank(p: Phase): nat {
    match p
    case AwaitSemaphore => 4
    case Collecting => 3
    case DropSemaphore => 2
    case DropTarget => 1
    case QuitTarget => 1
    case _ => 0
  }

  lemma ReleaseMoveEnabled(cfg: Config, s: System, h: CollectorID)
    requires SlotsCounted(cfg, s) && h in s.jobs && HoldsTarget(s.jobs[h].phase)
    requires s.jobs[h].phase == AwaitSemaphore ==> s.semaphore < cfg.maxConcurrency
    ensures var m := ReleaseMove(s.jobs[h].phase);
            && Enabled(cfg, s, Do(h, m))
            && ReleaseRank(Local(cfg, s.jobs[h], m).phase) < ReleaseRank(s.jobs[h].phase)
  {
    ReleasesNeverBlock(cfg, s, h);
  }

  lemma OthersAreSlotless(s: System, s': System, h: CollectorID)
    requires OnlyMoves(s, s', {h}) && h in s.jobs && HoldsTarget(s.jobs[h].phase)
    ensures SlotlessUntouched(s, s')
  {
  }

  /** A worker waiting for a full semaphore gets a slot from one of its holders. */
  lemma MakeRoomAndTake(cfg: Config, s: System, h: CollectorID) returns (actions: seq<Action>, s': System)
    requires Inv(cfg, s) && h in s.jobs && s.jobs[h].phase == AwaitSemaphore && s.semaphore >= cfg.maxConcurrency
    ensures Leads(cfg, s, actions, s') && Inv(cfg, s') && SlotlessUntouched(s, s') && ByHolders(s, actions)
    ensures s'.jobs[h].phase == Collecting
  {
    var free, k, mid := FreeSemaphore(cfg, s);
    assert k != h && HoldsTarget(s.jobs[k].phase);
    OthersAreSlotless(s, mid, k);
    s' := OneStep(cfg, mid, h, TakeSemaphore);
    OneByHolder(mid, h, TakeSemaphore);
    OthersAreSlotless(mid, s', h);
    SlotlessChain(s, mid, s');
    LeadsOn(cfg, s, free, mid, [Do(h, TakeSemaphore)], s');
    HoldersFollow(s, mid, free, [Do(h, TakeSemaphore)]);
    actions := free + [Do(h, TakeSemaphore)];
  }

  /** The holder of a target takes one step towards releasing it, after a
      semaphore slot was freed for it if it needed one. */
  lemma ReleaseStep(cfg: Config, s: System, h: CollectorID) returns (actions: seq<Action>, s': System)
    requires Inv(cfg, s) && h in s.jobs && HoldsTarget(s.jobs[h].phase)
    ensures Leads(cfg, s, actions, s') && Inv(cfg, s') && SlotlessUntouched(s, s') && ByHolders(s, actions)
    ensures ReleaseRank(s'.jobs[h].phase) < ReleaseRank(s.jobs[h].phase)
  {
    if s.jobs[h].phase == AwaitSemaphore && s.semaphore >= cfg.maxConcurrency {
      actions, s' := MakeRoomAndTake(cfg, s, h);
    } else {
      ReleaseMoveEnabled(cfg, s, h);
      s' := OneStep(cfg, s, h, ReleaseMove(s.jobs[h].phase));
      OthersAreSlotless(s, s', h);
      OneByHolder(s, h, ReleaseMove(s.jobs[h].phase));
      actions := [Do(h, ReleaseMove(s.jobs[h].phase))];
    }
  }

  lemma SlotlessChain(s: System, mid: System, s': System)
    requires SlotlessUntouched(s, mid) && SlotlessUntouched(mid, s')
    ensures SlotlessUntouched(s, s')
  {
  }

  /** Slot holders alone can bring a target's holder to release the target. */
  lemma {:induction false} FreeTarget(cfg: Config, s: System, h: CollectorID) returns (actions: seq<Action>, s': System)
    requires Inv(cfg, s) && h in s.jobs && HoldsTarget(s.jobs[h].phase)
    ensures Leads(cfg, s, actions, s') && Inv(cfg, s') && SlotlessUntouched(s, s') && ByHolders(s, actions)
    ensures !HoldsTarget(s'.jobs[h].phase)
    decreases ReleaseRank(s.jobs[h].phase)
  {
    actions, s' := ReleaseStep(cfg, s, h);
    if HoldsTarget(s'.jobs[h].phase) {
      var mid := s';
      var rest;
      rest, s' := FreeTarget(cfg, mid, h);
      LeadsOn(cfg, s, actions, mid, rest, s');
      SlotlessChain(s, mid, s');
      HoldersFollow(s, mid, actions, rest);
      actions := actions + rest;
    }
  }

  lemma FreeForSemaphore(cfg: Config, s: System, id: CollectorID) returns (actions: seq<Action>, s': System)
    requires Inv(cfg, s) && Blocked(cfg, s, id) && s.jobs[id].phase == AwaitSemaphore
    ensures Leads(cfg, s, actions, s') && ByHolders(s, actions)
    ensures id in s'.jobs && s'.jobs[id] == s.jobs[id] && !Blocked(cfg, s', id)
  {
    var k;
    actions, k, s' := FreeSemaphore(cfg, s);
    SemaphoreIsFree(cfg, s, s', id, k);
  }

  lemma SemaphoreIsFree(cfg: Config, s: System, s': System, id: CollectorID, k: CollectorID)
    requires id in s.jobs && s.jobs[id].phase == AwaitSemaphore && k in SemaphoreHolders(s)
    requires OnlyMoves(s, s', {k}) && s'.semaphore < cfg.maxConcurrency
    ensures id in s'.jobs && s'.jobs[id] == s.jobs[id] && !Blocked(cfg, s', id)
  {
  }

  lemma FreeForTarget(cfg: Config, s: System, id: CollectorID) returns (actions: seq<Action>, s': System)
    requires Inv(cfg, s) && Blocked(cfg, s, id) && s.jobs[id].phase == AwaitTarget
    ensures Leads(cfg, s, actions, s') && ByHolders(s, actions)
    ensures id in s'.jobs && s'.jobs[id] == s.jobs[id] && !Blocked(cfg, s', id)
  {
    NoCircularWait(cfg, s, id);
    var h :| WaitsFor(cfg, s, id, h);
    actions, s' := FreeTarget(cfg, s, h);
    TargetIsEmpty(cfg, s, s', h);
  }

  /** From every reachable state a blocked worker is freed by ordinary steps of the
      slot holders alone; neither cancellation nor a timer is needed. */
  lemma BlockedWorkersGetTheirSlot(cfg: Config, s: System, id: CollectorID)
    requires ValidConfig(cfg) && Reachable(cfg, s) && Blocked(cfg, s, id)
    ensures exists actions, s' :: Leads(cfg, s, actions, s') && ByHolders(s, actions)
              && id in s'.jobs && s'.jobs[id] == s.jobs[id] && !Blocked(cfg, s', id)
  {
    ReachableInv(cfg, s);
    var actions, s';
    if s.jobs[id].phase == AwaitSemaphore {
      actions, s' := FreeForSemaphore(cfg, s, id);
    } else {
      actions, s' := FreeForTarget(cfg, s, id);
    }
    assert Leads(cfg, s, actions, s') && ByHolders(s, actions);
  }

  lemma SoleHolder(cfg: Config, s: System, a: CollectorID, b: CollectorID)
    requires SlotsCounted(cfg, s) && a.target == b.target
    requires a in TargetHolders(s, a.target) && b in TargetHolders(s, a.target)
    ensures a == b
  {
    assert Length(s, a.target) == |TargetHolders(s, a.target)| && Length(s, a.target) <= 1;
    if a != b {
      SubsetSize({a, b}, TargetHolders(s, a.target));
    }
  }

  lemma TargetIsEmpty(cfg: Config, s: System, s': System, h: CollectorID)
    requires SlotsCounted(cfg, s) && SlotsCounted(cfg, s') && SlotlessUntouched(s, s')
    requires h in s.jobs && HoldsTarget(s.jobs[h].phase) && !HoldsTarget(s'.jobs[h].phase)
    ensures Length(s', h.target) == 0
  {
    var t := h.target;
    forall x ensures x !in TargetHolders(s', t) {
      if x in TargetHolders(s', t) && x in TargetHolders(s, t) {
        SoleHolder(cfg, s, x, h);
      }
    }
    assert TargetHolders(s', t) == {};
    assert Length(s', t) == |TargetHolders(s', t)|;
  }

  // --------------------------------------------------------------- shutdown

  ghost predicate AllDone(s: System) {
    forall id :: id in s.jobs ==> s.jobs[id].ticker == Stopped && s.jobs[id].phase == Returned
  }

  ghost predicate SomeSendBlocked(s: System) { exists id :: id in s.jobs && SendBlocked(s.jobs[id]) }

  /** A blocked send stays blocked in every continuation. */
  lemma {:induction false} BlockedSendsStayBlocked(cfg: Config, s: System, actions: seq<Action>, id: CollectorID)
    requires id in s.jobs && SendBlocked(s.jobs[id]) && s.jobs[id].phase == Returned
    requires CanRun(cfg, s, actions)
    ensures id in Run(cfg, s, actions).jobs && Run(cfg, s, actions).jobs[id] == s.jobs[id]
    decreases |actions|
  {
    if actions != [] {
      BlockedSendsStayBlocked(cfg, Next(cfg, s, actions[0]), actions[1..], id);
    }
  }

  /** The next step of a cancelled worker towards its return. */
  function ExitMove(p: Phase): Move
    requires p != Returned
  {
    match p
    case Idle => Leave
    case AwaitTarget => GiveUpTarget
    case AwaitSemaphore => GiveUpSemaphore
    case Collecting => Answer
    case DropSemaphore => PutSemaphore
    case DropTarget => PutTarget
    case QuitTarget => PutTargetAndQuit
    case Reporting => Conclude
    case BackingOff => BackoffCancelled
    case Finished => Clear
    case Leaving => Move.Return
  }

  function ExitRank(p: Phase): nat {
    match p
    case Returned => 0 case Leaving => 1 case Idle => 2 case Finished => 3
    case AwaitTarget => 4 case QuitTarget => 4 case Reporting => 4 case BackingOff => 4
    case AwaitSemaphore => 5 case DropTarget => 5 case DropSemaphore => 6 case Collecting => 7
  }

  lemma ExitMoveIsReady(cfg: Config, j: Job)
    requires j.phase != Returned
    ensures var m := ExitMove(j.phase);
            && Ready(cfg, true, j, m)
            && ExitRank(Local(cfg, j, m).phase) < ExitRank(j.phase)
            && Local(cfg, j, m).ticker == j.ticker
            && (j.phase != Leaving ==> Local(cfg, j, m).phase != Returned)
  {
  }

  lemma ExitMoveEnabled(cfg: Config, s: System, id: CollectorID)
    requires Inv(cfg, s) && s.cancelled && id in s.jobs && s.jobs[id].phase != Returned
    ensures Enabled(cfg, s, Do(id, ExitMove(s.jobs[id].phase)))
  {
    ExitMoveIsReady(cfg, s.jobs[id]);
    ReleasesNeverBlock(cfg, s, id);
  }

  lemma ExitStep(cfg: Config, s: System, id: CollectorID) returns (mid: System)
    requires Inv(cfg, s) && s.cancelled && id in s.jobs && s.jobs[id].phase != Returned
    ensures Leads(cfg, s, [Do(id, ExitMove(s.jobs[id].phase))], mid) && Inv(cfg, mid) && OnlyMoves(s, mid, {id})
    ensures ExitRank(mid.jobs[id].phase) < ExitRank(s.jobs[id].phase) && mid.jobs[id].ticker == s.jobs[id].ticker
    ensures s.jobs[id].phase != Leaving ==> mid.jobs[id].phase != Returned
  {
    ExitMoveEnabled(cfg, s, id);
    ExitMoveIsReady(cfg, s.jobs[id]);
    mid := OneStep(cfg, s, id, ExitMove(s.jobs[id].phase));
  }

  lemma OnlyMovesOn(s: System, mid: System, s': System, movers: set<CollectorID>)
    requires OnlyMoves(s, mid, movers) && OnlyMoves(mid, s', movers)
    ensures OnlyMoves(s, s', movers)
  {
  }

  lemma {:induction false} LeaveWorker(cfg: Config, s: System, id: CollectorID)
    returns (actions: seq<Action>, s': System)
    requires Inv(cfg, s) && s.cancelled && id in s.jobs && s.jobs[id].phase != Returned
    ensures Leads(cfg, s, actions, s') && Inv(cfg, s') && OnlyMoves(s, s', {id})
    ensures s'.jobs[id].phase == Leaving && s'.jobs[id].ticker == s.jobs[id].ticker
    decreases ExitRank(s.jobs[id].phase)
  {
    actions, s' := [], s;
    if s.jobs[id].phase != Leaving {
      var mid := ExitStep(cfg, s, id);
      var rest;
      rest, s' := LeaveWorker(cfg, mid, id);
      LeadsOn(cfg, s, [Do(id, ExitMove(s.jobs[id].phase))], mid, rest, s');
      OnlyMovesOn(s, mid, s', {id});
      actions := [Do(id, ExitMove(s.jobs[id].phase))] + rest;
    }
  }

  /** `first` and then one more move of the same job. */
  lemma AndThen(cfg: Config, s: System, first: seq<Action>, mid: System, id: CollectorID, m: Move)
    returns (actions: seq<Action>, s': System)
    requires Leads(cfg, s, first, mid) && Inv(cfg, mid) && OnlyMoves(s, mid, {id}) && Enabled(cfg, mid, Do(id, m))
    ensures Leads(cfg, s, actions, s') && Inv(cfg, s') && OnlyMoves(s, s', {id})
    ensures s' == Next(cfg, mid, Do(id, m)) && s'.jobs[id] == Local(cfg, mid.jobs[id], m)
  {
    s' := OneStep(cfg, mid, id, m);
    LeadsOn(cfg, s, first, mid, [Do(id, m)], s');
    actions := first + [Do(id, m)];
  }

  lemma FinishWorker(cfg: Config, s: System, id: CollectorID) returns (actions: seq<Action>, s': System)
    requires Inv(cfg, s) && s.cancelled && id in s.jobs
    ensures Leads(cfg, s, actions, s') && Inv(cfg, s') && OnlyMoves(s, s', {id})
    ensures s'.jobs[id].phase == Returned && s'.jobs[id].ticker == s.jobs[id].ticker
  {
    actions, s' := [], s;
    if s.jobs[id].phase != Returned {
      actions, s' := LeaveWorker(cfg, s, id);
      actions, s' := AndThen(cfg, s, actions, s', id, Move.Return);
    }
  }

  /** What a cancelled ticker does next on its way out. */
  function StopMove(cfg: Config, id: CollectorID, t: Ticker): Move
    requires t != Stopped
  {
    match t
    case Starting => Start(id in cfg.startup)
    case Sending(_) => Send
    case Waiting => StopTicker
  }

  function StopRank(t: Ticker): nat {
    match t case Starting => 3 case Sending(_) => 2 case Waiting => 1 case Stopped => 0
  }

  lemma StopMoveEnabled(cfg: Config, s: System, id: CollectorID)
    requires Inv(cfg, s) && s.cancelled && id in s.jobs
    requires s.jobs[id].ticker != Stopped && !SendBlocked(s.jobs[id])
    ensures var m := StopMove(cfg, id, s.jobs[id].ticker);
            && Enabled(cfg, s, Do(id, m))
            && StopRank(Local(cfg, s.jobs[id], m).ticker) < StopRank(s.jobs[id].ticker)
            && !SendBlocked(Local(cfg, s.jobs[id], m))
  {
    if s.jobs[id].ticker == Starting {
      StartingHasNothing(s.jobs[id]);
    }
  }

  lemma {:induction false} StopTickerOf(cfg: Config, s: System, id: CollectorID)
    returns (actions: seq<Action>, s': System)
    requires Inv(cfg, s) && s.cancelled && id in s.jobs && !SendBlocked(s.jobs[id])
    ensures Leads(cfg, s, actions, s') && Inv(cfg, s') && OnlyMoves(s, s', {id})
    ensures s'.jobs[id].ticker == Stopped
    decreases StopRank(s.jobs[id].ticker)
  {
    actions, s' := [], s;
    if s.jobs[id].ticker != Stopped {
      var m := StopMove(cfg, id, s.jobs[id].ticker);
      StopMoveEnabled(cfg, s, id);
      var mid := OneStep(cfg, s, id, m);
      var rest;
      rest, s' := StopTickerOf(cfg, mid, id);
      LeadsOn(cfg, s, [Do(id, m)], mid, rest, s');
      actions := [Do(id, m)] + rest;
    }
  }

  predicate JobDone(j: Job) { j.ticker == Stopped && j.phase == Returned }

  lemma FinishJob(cfg: Config, s: System, id: CollectorID) returns (actions: seq<Action>, s': System)
    requires Inv(cfg, s) && s.cancelled && id in s.jobs && !SendBlocked(s.jobs[id])
    ensures Leads(cfg, s, actions, s') && Inv(cfg, s') && OnlyMoves(s, s', {id}) && JobDone(s'.jobs[id])
  {
    var stop, mid := StopTickerOf(cfg, s, id);
    var exit;
    exit, s' := FinishWorker(cfg, mid, id);
    LeadsOn(cfg, s, stop, mid, exit, s');
    actions := stop + exit;
  }

  /** The jobs still to finish after one of them has been finished. */
  lemma OneFewer(s: System, s': System, id: CollectorID, pending: set<CollectorID>)
    requires pending <= s.jobs.Keys && id in pending && OnlyMoves(s, s', {id}) && JobDone(s'.jobs[id])
    requires forall k :: k in pending ==> !SendBlocked(s.jobs[k])
    requires forall k :: k in s.jobs && k !in pending ==> JobDone(s.jobs[k])
    ensures pending - {id} <= s'.jobs.Keys && |pending - {id}| < |pending|
    ensures forall k :: k in pending - {id} ==> !SendBlocked(s'.jobs[k])
    ensures forall k :: k in s'.jobs && k !in pending - {id} ==> JobDone(s'.jobs[k])
  {
  }

  lemma {:induction false} FinishAll(cfg: Config, s: System, pending: set<CollectorID>)
    returns (actions: seq<Action>, s': System)
    requires Inv(cfg, s) && s.cancelled && pending <= s.jobs.Keys
    requires forall id :: id in pending ==> !SendBlocked(s.jobs[id])
    requires forall id :: id in s.jobs && id !in pending ==> JobDone(s.jobs[id])
    ensures Leads(cfg, s, actions, s') && AllDone(s')
    decreases |pending|
  {
    actions, s' := [], s;
    if pending != {} {
      var id :| id in pending;
      var first, mid := FinishJob(cfg, s, id);
      OneFewer(s, mid, id, pending);
      var rest;
      rest, s' := FinishAll(cfg, mid, pending - {id});
      LeadsOn(cfg, s, first, mid, rest, s');
      actions := first + rest;
    }
  }

  /** After a cancellation the runner can still wind down completely if and only
      if no ticker is blocked in a send to a worker that has already returned. */
  lemma ShutdownCompletesIffNoSendIsBlocked(cfg: Config, s: System)
    requires ValidConfig(cfg) && Reachable(cfg, s) && s.cancelled
    ensures (exists actions, s' :: Leads(cfg, s, actions, s') && AllDone(s')) <==> !SomeSendBlocked(s)
  {
    ReachableInv(cfg, s);
    if !SomeSendBlocked(s) {
      var actions, s' := FinishAll(cfg, s, s.jobs.Keys);
      assert Leads(cfg, s, actions, s') && AllDone(s');
    } else {
      var id :| id in s.jobs && SendBlocked(s.jobs[id]);
      assert s.jobs[id].phase == Returned;
      forall actions, s' | Leads(cfg, s, actions, s') ensures !AllDone(s') {
        BlockedSendsStayBlocked(cfg, s, actions, id);
      }
    }
  }

  // ------------------------------------------- the shutdown that never ends

  /** The ticker has not stopped, and the worker has not returned or has left a
      reference behind: what it takes for one more send to block. */
  predicate CanHang(j: Job) { j.ticker != Stopped && (j.phase != Returned || j.stranded) }

  /** A job that cannot hang cannot come to hang. */
  lemma MoveKeepsSafety(cfg: Config, cancelled: bool, j: Job, m: Move)
    requires JobInv(cfg, j) && Ready(cfg, cancelled, j, m) && !CanHang(j)
    ensures !CanHang(Local(cfg, j, m)) && !SendBlocked(j)
  {
  }

  ghost predicate NobodyCanHang(s: System) { forall id :: id in s.jobs ==> !CanHang(s.jobs[id]) }

  lemma {:induction false} SafetyLasts(cfg: Config, s: System, actions: seq<Action>)
    requires Inv(cfg, s) && NobodyCanHang(s) && CanRun(cfg, s, actions)
    ensures !SomeSendBlocked(Run(cfg, s, actions))
    decreases |actions|
  {
    if actions == [] {
      forall id | id in s.jobs ensures !SendBlocked(s.jobs[id]) {
        assert JobInv(cfg, s.jobs[id]) && !CanHang(s.jobs[id]);
      }
    } else {
      var a := actions[0];
      StepKeepsInv(cfg, s, a);
      if a.Do? {
        MoveKeepsSafety(cfg, s.cancelled, s.jobs[a.id], a.move);
      }
      SafetyLasts(cfg, Next(cfg, s, a), actions[1..]);
    }
  }

  /** A job on whose behalf a reference is about to be sent or queued. */
  predicate Loaded(j: Job) { |Sent(j)| + |j.queue| >= 1 }

  /** While a worker is leaving, its ticker can still bring in a reference. */
  lemma LoadJob(cfg: Config, s: System, id: CollectorID) returns (actions: seq<Action>, s': System)
    requires Inv(cfg, s) && id in s.jobs && s.jobs[id].phase == Leaving && s.jobs[id].ticker != Stopped
    ensures Leads(cfg, s, actions, s') && Inv(cfg, s') && OnlyMoves(s, s', {id})
    ensures s'.jobs[id].phase == Leaving && s'.jobs[id].ticker != Stopped && Loaded(s'.jobs[id])
  {
    actions, s' := [], s;
    if s.jobs[id].ticker == Starting {
      StartingHasNothing(s.jobs[id]);
      actions, s' := AndThen(cfg, s, actions, s', id, Start(id in cfg.startup));
    }
    if !Loaded(s'.jobs[id]) {
      assert JobInv(cfg, s'.jobs[id]);
      actions, s' := AndThen(cfg, s, actions, s', id, Tick);
    }
  }

  /** A stranded reference blocks the send after the next tick. */
  lemma BlockStranded(cfg: Config, s: System, id: CollectorID) returns (actions: seq<Action>, s': System)
    requires Inv(cfg, s) && id in s.jobs && s.jobs[id].stranded && s.jobs[id].ticker != Stopped
    ensures Leads(cfg, s, actions, s') && OnlyMoves(s, s', {id}) && SendBlocked(s'.jobs[id])
  {
    assert JobInv(cfg, s.jobs[id]);
    actions, s' := [], s;
    if s.jobs[id].ticker.Sending? && s.jobs[id].queue == [] {
      actions, s' := AndThen(cfg, s, actions, s', id, Send);
    }
    if !SendBlocked(s'.jobs[id]) {
      actions, s' := AndThen(cfg, s, actions, s', id, Tick);
    }
  }

  /** A job that can hang can be brought to hang by its own steps. */
  lemma HangJob(cfg: Config, s: System, id: CollectorID) returns (actions: seq<Action>, s': System)
    requires Inv(cfg, s) && s.cancelled && id in s.jobs && CanHang(s.jobs[id])
    ensures Leads(cfg, s, actions, s') && OnlyMoves(s, s', {id}) && SendBlocked(s'.jobs[id])
  {
    actions, s' := [], s;
    if s.jobs[id].phase != Returned {
      var leave, left := LeaveWorker(cfg, s, id);
      var load, loaded := LoadJob(cfg, left, id);
      LeadsOn(cfg, s, leave, left, load, loaded);
      actions, s' := AndThen(cfg, s, leave + load, loaded, id, Move.Return);
    }
    var mid, last := s', [];
    last, s' := BlockStranded(cfg, mid, id);
    LeadsOn(cfg, s, actions, mid, last, s');
    actions := actions + last;
  }

  /** Exactly when a shutdown is still in danger of hanging: a send can come to block
      if and only if some ticker has not stopped whose worker has not returned, or
      has returned and left a reference behind. */
  lemma ShutdownIsSafeIffNobodyCanHang(cfg: Config, s: System)
    requires ValidConfig(cfg) && Reachable(cfg, s) && s.cancelled
    ensures (exists actions, s' :: Leads(cfg, s, actions, s') && SomeSendBlocked(s'))
       <==> (exists id :: id in s.jobs && CanHang(s.jobs[id]))
  {
    ReachableInv(cfg, s);
    if id :| id in s.jobs && CanHang(s.jobs[id]) {
      var actions, s' := HangJob(cfg, s, id);
      assert id in s'.jobs && SendBlocked(s'.jobs[id]);
      assert Leads(cfg, s, actions, s') && SomeSendBlocked(s');
    } else {
      forall actions, s' | Leads(cfg, s, actions, s') ensures !SomeSendBlocked(s') {
        SafetyLasts(cfg, s, actions);
      }
    }
  }

  /** The danger is real under every configuration: cancelled at its very start, a
      runner with a job can still end up in a send that blocks for ever. */
  lemma ShutdownCanHang(cfg: Config, id: CollectorID)
    requires ValidConfig(cfg)
    ensures exists s :: Reachable(cfg, s) && s.cancelled && SomeSendBlocked(s)
  {
    var start := System(map[id := FRESH], 0, map[], true);
    var before := start.(cancelled := false);
    InitialIsReachable(cfg, before);
    ReachableStep(cfg, before, Cancel);
    ShutdownIsSafeIffNobodyCanHang(cfg, start);
    assert id in start.jobs && CanHang(start.jobs[id]);
    var actions, s' :| Leads(cfg, start, actions, s') && SomeSendBlocked(s');
    ReachableRun(cfg, start, actions);
  }

  lemma {:induction false} ReachableRun(cfg: Config, s: System, actions: seq<Action>)
    requires Reachable(cfg, s) && CanRun(cfg, s, actions)
    ensures Reachable(cfg, Run(cfg, s, actions)) && (s.cancelled ==> Run(cfg, s, actions).cancelled)
    decreases |actions|
  {
    if actions != [] {
      ReachableStep(cfg, s, actions[0]);
      ReachableRun(cfg, Next(cfg, s, actions[0]), actions[1..]);
    }
  }
}
