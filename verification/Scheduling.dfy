/** The scheduler as a protocol of atomic steps. Every job has two goroutines, a
    ticker and a worker, that share a `running` flag and a one-slot queue; all
    workers share one-slot target channels and a global semaphore. Channels are
    counters, and any enabled step of any goroutine may come next. */
module Scheduling {
  import opened Domain

  // --------------------------------------------------------------- one job

  /** The schedule goroutine: before its startup refresh, waiting for the timer or
      the cancellation, inside dispatch about to send, or gone. */
  datatype Ticker = Starting | Waiting | Sending(tick: nat) | Stopped

  /** The worker goroutine: in its select, at one of the stages of `collect`, back
      from `collect` and about to clear the flag, or on its way out. */
  datatype Phase =
    | Idle
    | AwaitTarget | AwaitSemaphore | Collecting | DropSemaphore | DropTarget
    | QuitTarget | Reporting | BackingOff | Finished
    | Leaving | Returned

  /** Ticks are numbered; `skipped` and `begun` log what became of each. */
  datatype Job = Job(
    ticker: Ticker, phase: Phase, attempt: nat, running: bool, queue: seq<nat>,
    ticks: nat, skipped: seq<nat>, begun: seq<nat>, stranded: bool)

  const FRESH := Job(Starting, Idle, 0, false, [], 0, [], [], false)

  datatype Config = Config(maxConcurrency: nat, maxAttempts: nat, startup: set<CollectorID>)

  predicate ValidConfig(cfg: Config) { cfg.maxConcurrency > 0 && 0 < cfg.maxAttempts <= 10 }

  datatype Move =
    | Start(refresh: bool) | Tick | Send | StopTicker
    | Receive | Leave | Return
    | TakeTarget | GiveUpTarget | TakeSemaphore | GiveUpSemaphore
    | Answer | PutSemaphore | PutTarget | PutTargetAndQuit
    | Conclude | Fail | BackoffOver | BackoffCancelled | Clear

  /** The critical section of `dispatch`. */
  function Dispatch(j: Job): Job {
    if j.running then j.(ticker := Waiting, ticks := j.ticks + 1, skipped := j.skipped + [j.ticks])
    else j.(ticker := Sending(j.ticks), ticks := j.ticks + 1, running := true)
  }

  /** What the job itself requires of a move; slots are a matter of the system. */
  predicate Ready(cfg: Config, cancelled: bool, j: Job, m: Move) {
    match m
    case Start(_) => j.ticker == Starting
    case Tick => j.ticker == Waiting
    case Send => j.ticker.Sending? && j.queue == []
    case StopTicker => j.ticker == Waiting && cancelled
    case Receive => j.phase == Idle && j.queue != []
    case Leave => j.phase == Idle && cancelled
    case Return => j.phase == Leaving
    case TakeTarget => j.phase == AwaitTarget
    case GiveUpTarget => j.phase == AwaitTarget && cancelled
    case TakeSemaphore => j.phase == AwaitSemaphore
    case GiveUpSemaphore => j.phase == AwaitSemaphore && cancelled
    case Answer => j.phase == Collecting
    case PutSemaphore => j.phase == DropSemaphore
    case PutTarget => j.phase == DropTarget
    case PutTargetAndQuit => j.phase == QuitTarget
    case Conclude => j.phase == Reporting
    case Fail => j.phase == Reporting && j.attempt < cfg.maxAttempts
    case BackoffOver => j.phase == BackingOff
    case BackoffCancelled => j.phase == BackingOff && cancelled
    case Clear => j.phase == Finished
  }

  function Local(cfg: Config, j: Job, m: Move): Job
    requires exists cancelled :: Ready(cfg, cancelled, j, m)
  {
    match m
    case Start(refresh) => if refresh then Dispatch(j) else j.(ticker := Waiting)
    case Tick => Dispatch(j)
    case Send => j.(queue := [j.ticker.tick], ticker := Waiting)
    case StopTicker => j.(ticker := Stopped)
    case Receive => j.(queue := j.queue[1..], begun := j.begun + [j.queue[0]], phase := AwaitTarget, attempt := 1)
    case Leave => j.(phase := Leaving)
    case Return => j.(phase := Returned, running := false, stranded := Tokens(j) > 0)
    case TakeTarget => j.(phase := AwaitSemaphore)
    case GiveUpTarget => j.(phase := Finished)
    case TakeSemaphore => j.(phase := Collecting)
    case GiveUpSemaphore => j.(phase := QuitTarget)
    case Answer => j.(phase := DropSemaphore)
    case PutSemaphore => j.(phase := DropTarget)
    case PutTarget => j.(phase := Reporting)
    case PutTargetAndQuit => j.(phase := Finished)
    case Conclude => j.(phase := Finished)
    case Fail => j.(phase := BackingOff)
    case BackoffOver => j.(phase := AwaitTarget, attempt := j.attempt + 1)
    case BackoffCancelled => j.(phase := Finished)
    case Clear => j.(phase := Idle, running := false)
  }

  // ------------------------------------------------ single-flight accounting

  predicate Busy(p: Phase) { p != Idle && p != Leaving && p != Returned }

  function Sent(j: Job): seq<nat> { if j.ticker.Sending? then [j.ticker.tick] else [] }

  function One(b: bool): nat { if b then 1 else 0 }

  /** How many references are about to be sent, queued, or being collected. */
  function Tokens(j: Job): nat { |Sent(j)| + |j.queue| + One(Busy(j.phase)) }

  /** The references dispatched so far, in order. */
  function Dispatched(j: Job): seq<nat> { j.begun + j.queue + Sent(j) }

  ghost predicate Increasing(s: seq<nat>, bound: nat) {
    && (forall i :: 0 <= i < |s| ==> s[i] < bound)
    && (forall i, k :: 0 <= i < k < |s| ==> s[i] < s[k])
  }

  /** Every tick so far was skipped or dispatched, never both and never twice. */
  ghost predicate TicksAccounted(j: Job) {
    && Increasing(j.skipped, j.ticks)
    && Increasing(Dispatched(j), j.ticks)
    && forall n: nat :: n < j.ticks ==> (n in j.skipped <==> n !in Dispatched(j))
  }

  /** The flag is set exactly while one token exists, unless the worker returned
      with a token outstanding: then one more may follow, and it blocks. */
  ghost predicate SingleFlight(j: Job) {
    && (!j.stranded ==> Tokens(j) <= 1 && (j.running <==> Tokens(j) == 1))
    && (j.stranded ==> j.phase == Returned && Tokens(j) >= 1 && (j.running <==> Tokens(j) == 2))
    && |j.queue| <= 1
  }

  ghost predicate JobInv(cfg: Config, j: Job) {
    && SingleFlight(j)
    && TicksAccounted(j)
    && Stages(cfg, j)
  }

  lemma DispatchAccounts(j: Job)
    requires TicksAccounted(j) && !j.ticker.Sending?
    ensures TicksAccounted(Dispatch(j))
  {
    var k := Dispatch(j);
    if j.running {
      assert Dispatched(k) == Dispatched(j);
      assert forall n :: n in k.skipped <==> n in j.skipped || n == j.ticks;
    } else {
      assert Dispatched(k) == Dispatched(j) + [j.ticks];
    }
  }

  lemma MoveAccountsTicks(cfg: Config, cancelled: bool, j: Job, m: Move)
    requires Ready(cfg, cancelled, j, m) && TicksAccounted(j)
    ensures TicksAccounted(Local(cfg, j, m))
  {
    var k := Local(cfg, j, m);
    match m
    case Start(_) => DispatchAccounts(j);
    case Tick => DispatchAccounts(j);
    case Receive =>
      assert j.queue == [j.queue[0]] + j.queue[1..];
      assert Dispatched(k) == Dispatched(j);
    case Send => assert Dispatched(k) == Dispatched(j);
    case _ => assert Dispatched(k) == Dispatched(j);
  }

  lemma MoveKeepsSingleFlight(cfg: Config, cancelled: bool, j: Job, m: Move)
    requires Ready(cfg, cancelled, j, m) && SingleFlight(j) && (j.ticker == Starting ==> !j.stranded)
    ensures SingleFlight(Local(cfg, j, m))
  {
  }

  lemma MoveKeepsJobInv(cfg: Config, cancelled: bool, j: Job, m: Move)
    requires ValidConfig(cfg) && JobInv(cfg, j) && Ready(cfg, cancelled, j, m)
    ensures JobInv(cfg, Local(cfg, j, m))
  {
    MoveAccountsTicks(cfg, cancelled, j, m);
    MoveKeepsSingleFlight(cfg, cancelled, j, m);
    if j.ticker == Starting {
      StartingHasNothing(j);
    }
    MoveKeepsStages(cfg, cancelled, j, m);
  }

  /** The bounds that go with the stages of the two goroutines. */
  predicate Stages(cfg: Config, j: Job) {
    && (j.ticker == Starting ==> j.ticks == 0 && !j.stranded)
    && (Busy(j.phase) ==> j.begun != [] && 1 <= j.attempt <= cfg.maxAttempts)
    && (j.phase == BackingOff ==> j.attempt < cfg.maxAttempts)
  }

  lemma MoveKeepsStages(cfg: Config, cancelled: bool, j: Job, m: Move)
    requires ValidConfig(cfg) && Stages(cfg, j) && Ready(cfg, cancelled, j, m)
    requires j.ticker == Starting ==> Dispatched(j) == []
    requires !j.stranded ==> Tokens(j) <= 1
    ensures Stages(cfg, Local(cfg, j, m))
  {
  }

  lemma {:induction false} IncreasingIsShort(s: seq<nat>, bound: nat)
    requires Increasing(s, bound)
    ensures |s| <= bound
  {
    if s != [] {
      var n := |s| - 1;
      IncreasingIsShort(s[..n], s[n]);
    }
  }

  /** Before its first dispatch a job has no reference anywhere. */
  lemma StartingHasNothing(j: Job)
    requires TicksAccounted(j) && j.ticks == 0
    ensures Dispatched(j) == [] && j.skipped == []
  {
    IncreasingIsShort(Dispatched(j), 0);
    IncreasingIsShort(j.skipped, 0);
  }

  /** A send that cannot proceed. */
  predicate SendBlocked(j: Job) { j.ticker.Sending? && j.queue != [] }

  // ------------------------------------------------------------- the system

  datatype System = System(jobs: map<CollectorID, Job>, semaphore: nat, targets: map<string, nat>, cancelled: bool)

  datatype Action = Cancel | Do(id: CollectorID, move: Move)

  function Length(s: System, t: string): nat { if t in s.targets then s.targets[t] else 0 }

  predicate Enabled(cfg: Config, s: System, a: Action) {
    match a
    case Cancel => true
    case Do(id, m) =>
      && id in s.jobs
      && Ready(cfg, s.cancelled, s.jobs[id], m)
      && (m.Start? ==> m.refresh == (id in cfg.startup))
      && (m.TakeTarget? ==> Length(s, id.target) < 1)
      && (m.TakeSemaphore? ==> s.semaphore < cfg.maxConcurrency)
      && (m.PutSemaphore? ==> s.semaphore > 0)
      && (m.PutTarget? || m.PutTargetAndQuit? ==> Length(s, id.target) > 0)
  }

  function SemaphoreChange(m: Move): int {
    if m.TakeSemaphore? then 1 else if m.PutSemaphore? then -1 else 0
  }

  function TargetChange(m: Move): int {
    if m.TakeTarget? then 1 else if m.PutTarget? || m.PutTargetAndQuit? then -1 else 0
  }

  function Next(cfg: Config, s: System, a: Action): System
    requires Enabled(cfg, s, a)
  {
    match a
    case Cancel => s.(cancelled := true)
    case Do(id, m) =>
      s.(jobs := s.jobs[id := Local(cfg, s.jobs[id], m)],
         semaphore := s.semaphore + SemaphoreChange(m),
         targets := if TargetChange(m) == 0 then s.targets
                    else s.targets[id.target := Length(s, id.target) + TargetChange(m)])
  }

  ghost predicate CanRun(cfg: Config, s: System, actions: seq<Action>)
    decreases |actions|
  {
    actions == [] || (Enabled(cfg, s, actions[0]) && CanRun(cfg, Next(cfg, s, actions[0]), actions[1..]))
  }

  ghost function Run(cfg: Config, s: System, actions: seq<Action>): System
    requires CanRun(cfg, s, actions)
    decreases |actions|
  {
    if actions == [] then s else Run(cfg, Next(cfg, s, actions[0]), actions[1..])
  }

  ghost predicate Initial(s: System) {
    && (forall id :: id in s.jobs ==> s.jobs[id] == FRESH)
    && s.semaphore == 0 && !s.cancelled
    && forall t :: Length(s, t) == 0
  }

  ghost predicate Reachable(cfg: Config, s: System) {
    exists start, actions :: Initial(start) && CanRun(cfg, start, actions) && Run(cfg, start, actions) == s
  }

  // -------------------------------------------------------- slot accounting

  predicate HoldsTarget(p: Phase) {
    p == AwaitSemaphore || p == Collecting || p == DropSemaphore || p == DropTarget || p == QuitTarget
  }

  predicate HoldsSemaphore(p: Phase) { p == Collecting || p == DropSemaphore }

  function TargetHolders(s: System, t: string): set<CollectorID> {
    set id | id in s.jobs && id.target == t && HoldsTarget(s.jobs[id].phase)
  }

  function SemaphoreHolders(s: System): set<CollectorID> {
    set id | id in s.jobs && HoldsSemaphore(s.jobs[id].phase)
  }

  ghost predicate SlotsCounted(cfg: Config, s: System) {
    && s.semaphore == |SemaphoreHolders(s)| && s.semaphore <= cfg.maxConcurrency
    && forall t :: Length(s, t) == |TargetHolders(s, t)| && Length(s, t) <= 1
  }

  ghost predicate Inv(cfg: Config, s: System) {
    && ValidConfig(cfg)
    && SlotsCounted(cfg, s)
    && forall id :: id in s.jobs ==> JobInv(cfg, s.jobs[id])
  }

  /** What one move does to the job's holdings. */
  lemma MoveHoldings(cfg: Config, cancelled: bool, j: Job, m: Move)
    requires Ready(cfg, cancelled, j, m)
    ensures var k := Local(cfg, j, m);
            && SemaphoreChange(m) == One(HoldsSemaphore(k.phase)) - One(HoldsSemaphore(j.phase))
            && TargetChange(m) == One(HoldsTarget(k.phase)) - One(HoldsTarget(j.phase))
  {
  }

  lemma SemaphoreStaysCounted(cfg: Config, s: System, id: CollectorID, m: Move)
    requires s.semaphore == |SemaphoreHolders(s)| <= cfg.maxConcurrency && Enabled(cfg, s, Do(id, m))
    ensures var s' := Next(cfg, s, Do(id, m));
            s'.semaphore == |SemaphoreHolders(s')| && s'.semaphore <= cfg.maxConcurrency
  {
    MoveHoldings(cfg, s.cancelled, s.jobs[id], m);
    SemaphoreHoldersChange(cfg, s, id, m);
    CountOneChange(SemaphoreHolders(s), id);
    assert HoldsSemaphore(s.jobs[id].phase) <==> id in SemaphoreHolders(s);
  }

  lemma SemaphoreHoldersChange(cfg: Config, s: System, id: CollectorID, m: Move)
    requires Enabled(cfg, s, Do(id, m))
    ensures SemaphoreHolders(Next(cfg, s, Do(id, m)))
         == if HoldsSemaphore(Local(cfg, s.jobs[id], m).phase) then SemaphoreHolders(s) + {id}
            else SemaphoreHolders(s) - {id}
  {
  }

  lemma TargetHoldersChange(cfg: Config, s: System, id: CollectorID, m: Move, t: string)
    requires Enabled(cfg, s, Do(id, m))
    ensures TargetHolders(Next(cfg, s, Do(id, m)), t)
         == if id.target != t then TargetHolders(s, t)
            else if HoldsTarget(Local(cfg, s.jobs[id], m).phase) then TargetHolders(s, t) + {id}
            else TargetHolders(s, t) - {id}
  {
    var s' := Next(cfg, s, Do(id, m));
    forall k ensures k in TargetHolders(s', t) <==>
                     (k in s.jobs && k.target == t
                      && HoldsTarget(if k == id then Local(cfg, s.jobs[id], m).phase else s.jobs[k].phase))
    {
    }
  }

  lemma LengthChange(cfg: Config, s: System, id: CollectorID, m: Move, t: string)
    requires Enabled(cfg, s, Do(id, m))
    ensures Length(Next(cfg, s, Do(id, m)), t) == Length(s, t) + if t == id.target then TargetChange(m) else 0
  {
  }

  lemma CountOneChange(holders: set<CollectorID>, id: CollectorID)
    ensures |holders + {id}| == |holders| + One(id !in holders)
    ensures |holders - {id}| == |holders| - One(id in holders)
  {
  }

  lemma TargetsStayCounted(cfg: Config, s: System, id: CollectorID, m: Move, t: string)
    requires SlotsCounted(cfg, s) && Enabled(cfg, s, Do(id, m))
    ensures var s' := Next(cfg, s, Do(id, m)); Length(s', t) == |TargetHolders(s', t)| && Length(s', t) <= 1
  {
    var j := s.jobs[id];
    MoveHoldings(cfg, s.cancelled, j, m);
    TargetHoldersChange(cfg, s, id, m, t);
    LengthChange(cfg, s, id, m, t);
    CountOneChange(TargetHolders(s, t), id);
    assert Length(s, t) == |TargetHolders(s, t)| && Length(s, t) <= 1;
    assert id.target == t ==> (HoldsTarget(j.phase) <==> id in TargetHolders(s, t));
  }

  lemma StepKeepsInv(cfg: Config, s: System, a: Action)
    requires Inv(cfg, s) && Enabled(cfg, s, a)
    ensures Inv(cfg, Next(cfg, s, a))
  {
    var s' := Next(cfg, s, a);
    if a.Cancel? {
      assert SemaphoreHolders(s') == SemaphoreHolders(s);
      forall t ensures Length(s', t) == |TargetHolders(s', t)| && Length(s', t) <= 1 {
        assert TargetHolders(s', t) == TargetHolders(s, t);
        assert Length(s, t) == |TargetHolders(s, t)|;
      }
    } else {
      MoveKeepsJobInv(cfg, s.cancelled, s.jobs[a.id], a.move);
      SemaphoreStaysCounted(cfg, s, a.id, a.move);
      forall t ensures Length(s', t) == |TargetHolders(s', t)| && Length(s', t) <= 1 {
        TargetsStayCounted(cfg, s, a.id, a.move, t);
      }
    }
  }

  lemma {:induction false} RunKeepsInv(cfg: Config, s: System, actions: seq<Action>)
    requires Inv(cfg, s) && CanRun(cfg, s, actions)
    ensures Inv(cfg, Run(cfg, s, actions))
    decreases |actions|
  {
    if actions != [] {
      StepKeepsInv(cfg, s, actions[0]);
      RunKeepsInv(cfg, Next(cfg, s, actions[0]), actions[1..]);
    }
  }

  lemma InitialInv(cfg: Config, s: System)
    requires ValidConfig(cfg) && Initial(s)
    ensures Inv(cfg, s)
  {
    assert SemaphoreHolders(s) == {};
    forall t ensures Length(s, t) == |TargetHolders(s, t)| && Length(s, t) <= 1 {
      assert TargetHolders(s, t) == {};
    }
    assert Dispatched(FRESH) == [];
  }

  lemma ReachableInv(cfg: Config, s: System)
    requires ValidConfig(cfg) && Reachable(cfg, s)
    ensures Inv(cfg, s)
  {
    var start, actions :| Initial(start) && CanRun(cfg, start, actions) && Run(cfg, start, actions) == s;
    InitialInv(cfg, start);
    RunKeepsInv(cfg, start, actions);
  }

  lemma {:induction false} RunSnoc(cfg: Config, s: System, actions: seq<Action>, a: Action)
    requires CanRun(cfg, s, actions) && Enabled(cfg, Run(cfg, s, actions), a)
    ensures CanRun(cfg, s, actions + [a]) && Run(cfg, s, actions + [a]) == Next(cfg, Run(cfg, s, actions), a)
    decreases |actions|
  {
    if actions == [] {
      assert actions + [a] == [a] && [a][1..] == [];
    } else {
      assert (actions + [a])[1..] == actions[1..] + [a];
      RunSnoc(cfg, Next(cfg, s, actions[0]), actions[1..], a);
    }
  }

  lemma ReachableStep(cfg: Config, s: System, a: Action)
    requires Reachable(cfg, s) && Enabled(cfg, s, a)
    ensures Reachable(cfg, Next(cfg, s, a))
  {
    var start, actions :| Initial(start) && CanRun(cfg, start, actions) && Run(cfg, start, actions) == s;
    RunSnoc(cfg, start, actions, a);
  }

  lemma InitialIsReachable(cfg: Config, s: System)
    requires Initial(s)
    ensures Reachable(cfg, s)
  {
    assert CanRun(cfg, s, []) && Run(cfg, s, []) == s;
  }
}
