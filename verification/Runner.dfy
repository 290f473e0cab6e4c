/** The runner's shared memory: the `running` map, the queues, the semaphore and
    the target channels, as the critical sections and channel operations change
    them. Every operation is one step of the scheduling protocol. */
module Runner {
  import opened Bags
  import opened Domain
  import opened Retrying
  import opened Scheduling

  datatype JobSpec = JobSpec(id: CollectorID, interval: int, startupRefresh: bool)

  function IDs(jobs: seq<JobSpec>): seq<CollectorID> { Map((j: JobSpec) => j.id, jobs) }

  predicate IsSet(running: map<CollectorID, bool>, id: CollectorID) { id in running && running[id] }

  ghost predicate Mirrors(
    running: map<CollectorID, bool>, queues: map<CollectorID, seq<nat>>,
    semaphore: nat, targets: map<string, nat>, s: System)
  {
    && queues.Keys == s.jobs.Keys
    && (forall id :: id in queues ==> queues[id] == s.jobs[id].queue)
    && (forall id :: id in queues ==> (IsSet(running, id) <==> s.jobs[id].running))
    && semaphore == s.semaphore && targets == s.targets
  }

  /** A move's effect on the shared memory is the effect on the moved job's flag
      and queue and on the two kinds of slots. */
  lemma MirrorsMove(
    cfg: Config, s: System, id: CollectorID, m: Move,
    running: map<CollectorID, bool>, queues: map<CollectorID, seq<nat>>,
    running': map<CollectorID, bool>, queues': map<CollectorID, seq<nat>>, semaphore': nat, targets': map<string, nat>)
    requires Mirrors(running, queues, s.semaphore, s.targets, s) && Enabled(cfg, s, Do(id, m))
    requires queues'.Keys == queues.Keys
    requires forall k :: k in queues && k != id ==>
               queues'[k] == queues[k] && (IsSet(running', k) <==> IsSet(running, k))
    requires var j := Local(cfg, s.jobs[id], m); queues'[id] == j.queue && (IsSet(running', id) <==> j.running)
    requires semaphore' == Next(cfg, s, Do(id, m)).semaphore && targets' == Next(cfg, s, Do(id, m)).targets
    ensures Mirrors(running', queues', semaphore', targets', Next(cfg, s, Do(id, m)))
  {
  }

  lemma StartingIsIdle(cfg: Config, s: System, id: CollectorID)
    requires ValidConfig(cfg) && Reachable(cfg, s) && id in s.jobs && s.jobs[id].ticker == Starting
    ensures !s.jobs[id].running
  {
    ReachableInv(cfg, s);
    assert JobInv(cfg, s.jobs[id]);
    StartingHasNothing(s.jobs[id]);
  }

  lemma QueueHoldsOne(cfg: Config, s: System, id: CollectorID)
    requires ValidConfig(cfg) && Reachable(cfg, s) && id in s.jobs
    ensures |s.jobs[id].queue| <= 1
  {
    ReachableInv(cfg, s);
    assert JobInv(cfg, s.jobs[id]);
  }

  class Runner {
    const cfg: Config
    var running: map<CollectorID, bool>
    var queues: map<CollectorID, seq<nat>>
    var semaphore: nat
    var targets: map<string, nat>
    ghost var system: System

    /** The memory is the shared part of a reachable protocol state. */
    ghost predicate Valid()
      reads this
    {
      ValidConfig(cfg) && Reachable(cfg, system) && Mirrors(running, queues, semaphore, targets, system)
    }

    predicate Flag(id: CollectorID)
      reads this`running
    {
      IsSet(running, id)
    }

    constructor (cfg: Config, ids: set<CollectorID>, targets: map<string, nat>)
      requires ValidConfig(cfg) && forall t :: t in targets ==> targets[t] == 0
      ensures Valid() && Initial(system) && system.jobs.Keys == ids && this.cfg == cfg && fresh(this)
    {
      this.cfg := cfg;
      running := map[];
      queues := map id | id in ids :: [];
      semaphore := 0;
      this.targets := targets;
      system := System(map id | id in ids :: FRESH, 0, targets, false);
      new;
      InitialIsReachable(cfg, system);
    }

    /** A step that touches no shared memory, or whose memory effect is made. */
    ghost method Advance(a: Action)
      requires Reachable(cfg, system) && Enabled(cfg, system, a)
      modifies this`system
      ensures system == Next(cfg, old(system), a) && Reachable(cfg, system)
    {
      ReachableStep(cfg, system, a);
      system := Next(cfg, system, a);
    }

    /** The start of `schedule`: a startup refresh is dispatched, and never skipped. */
    method Start(id: CollectorID) returns (send: bool)
      requires Valid() && Enabled(cfg, system, Do(id, Move.Start(id in cfg.startup)))
      modifies this
      ensures Valid() && system == Next(cfg, old(system), Do(id, Move.Start(id in cfg.startup)))
      ensures send <==> id in cfg.startup
      ensures send <==> system.jobs[id].ticker.Sending?
    {
      StartingIsIdle(cfg, system, id);
      ghost var before := running;
      send := id in cfg.startup && !(id in running && running[id]);
      if send {
        running := running[id := true];
      }
      MirrorsMove(cfg, system, id, Move.Start(id in cfg.startup), before, queues, running, queues, semaphore, targets);
      Advance(Do(id, Move.Start(id in cfg.startup)));
    }

    /** `dispatch` up to its send: skip if the flag is set, else set it. */
    method Dispatch(id: CollectorID) returns (send: bool)
      requires Valid() && Enabled(cfg, system, Do(id, Tick))
      modifies this
      ensures Valid() && system == Next(cfg, old(system), Do(id, Tick))
      ensures send <==> !old(Flag(id))
      ensures send <==> system.jobs[id].ticker.Sending?
    {
      ghost var before := running;
      send := !(id in running && running[id]);
      if send {
        running := running[id := true];
      }
      MirrorsMove(cfg, system, id, Tick, before, queues, running, queues, semaphore, targets);
      Advance(Do(id, Tick));
    }

    /** The channel send that ends `dispatch`; it completes when there is room. */
    method Send(id: CollectorID, tick: nat)
      requires Valid() && Enabled(cfg, system, Do(id, Move.Send)) && system.jobs[id].ticker.tick == tick
      modifies this
      ensures Valid() && system == Next(cfg, old(system), Do(id, Move.Send))
      ensures queues == old(queues)[id := [tick]]
    {
      ghost var before := queues;
      queues := queues[id := queues[id] + [tick]];
      MirrorsMove(cfg, system, id, Move.Send, running, before, running, queues, semaphore, targets);
      Advance(Do(id, Move.Send));
    }

    /** The worker takes the queued reference. */
    method Receive(id: CollectorID) returns (tick: nat)
      requires Valid() && Enabled(cfg, system, Do(id, Move.Receive))
      modifies this
      ensures Valid() && system == Next(cfg, old(system), Do(id, Move.Receive))
      ensures old(queues)[id] == [tick] && queues[id] == []
    {
      QueueHoldsOne(cfg, system, id);
      ghost var before := queues;
      tick := queues[id][0];
      queues := queues[id := queues[id][1..]];
      MirrorsMove(cfg, system, id, Move.Receive, running, before, running, queues, semaphore, targets);
      Advance(Do(id, Move.Receive));
    }

    /** `clearRunning`, after a collection or on the worker's way out. */
    method ClearRunning(id: CollectorID, ghost m: Move)
      requires Valid() && (m == Clear || m == Move.Return) && Enabled(cfg, system, Do(id, m))
      modifies this
      ensures Valid() && system == Next(cfg, old(system), Do(id, m)) && !Flag(id)
    {
      ghost var before := running;
      running := running - {id};
      MirrorsMove(cfg, system, id, m, before, queues, running, queues, semaphore, targets);
      Advance(Do(id, m));
    }

    /** `target <- struct{}{}`, when there is room. */
    method AcquireTarget(id: CollectorID)
      requires Valid() && Enabled(cfg, system, Do(id, TakeTarget))
      modifies this
      ensures Valid() && system == Next(cfg, old(system), Do(id, TakeTarget))
      ensures targets == old(targets)[id.target := 1]
    {
      targets := targets[id.target := (if id.target in targets then targets[id.target] else 0) + 1];
      MirrorsMove(cfg, system, id, TakeTarget, running, queues, running, queues, semaphore, targets);
      Advance(Do(id, TakeTarget));
    }

    /** `semaphore <- struct{}{}`, when there is room. */
    method AcquireSemaphore(id: CollectorID)
      requires Valid() && Enabled(cfg, system, Do(id, TakeSemaphore))
      modifies this
      ensures Valid() && system == Next(cfg, old(system), Do(id, TakeSemaphore))
      ensures semaphore == old(semaphore) + 1 <= cfg.maxConcurrency
    {
      semaphore := semaphore + 1;
      MirrorsMove(cfg, system, id, TakeSemaphore, running, queues, running, queues, semaphore, targets);
      Advance(Do(id, TakeSemaphore));
    }

    /** `<-semaphore`. */
    method ReleaseSemaphore(id: CollectorID)
      requires Valid() && Enabled(cfg, system, Do(id, PutSemaphore))
      modifies this
      ensures Valid() && system == Next(cfg, old(system), Do(id, PutSemaphore))
      ensures semaphore == old(semaphore) - 1
    {
      semaphore := semaphore - 1;
      MirrorsMove(cfg, system, id, PutSemaphore, running, queues, running, queues, semaphore, targets);
      Advance(Do(id, PutSemaphore));
    }

    /** `<-target`, after an attempt or when the wait for the semaphore is given up. */
    method ReleaseTarget(id: CollectorID, ghost m: Move)
      requires Valid() && (m == PutTarget || m == PutTargetAndQuit) && Enabled(cfg, system, Do(id, m))
      modifies this
      ensures Valid() && system == Next(cfg, old(system), Do(id, m))
      ensures id.target in old(targets) && targets == old(targets)[id.target := old(targets)[id.target] - 1]
    {
      targets := targets[id.target := targets[id.target] - 1];
      MirrorsMove(cfg, system, id, m, running, queues, running, queues, semaphore, targets);
      Advance(Do(id, m));
    }
  }

  datatype Settings = Settings(maxConcurrency: int, jitterRatio: real, backoff: Backoff)

  predicate ValidSettings(s: Settings) {
    s.maxConcurrency > 0 && 0.0 <= s.jitterRatio <= 0.5 && ValidBackoff(s.backoff)
  }

  /** The scalar checks of `NewJobs`, as it makes them. */
  method CheckSettings(s: Settings) returns (ok: bool)
    ensures ok <==> ValidSettings(s)
  {
    var b := s.backoff;
    if s.maxConcurrency <= 0 || s.jitterRatio < 0.0 || s.jitterRatio > 0.5 {
      return false;
    }
    if b.maxAttempts <= 0 || b.maxAttempts > 10 || b.initial <= 0 || b.max < b.initial || b.multiplier <= 1.0 {
      return false;
    }
    ok := true;
  }

  function IDSet(jobs: seq<JobSpec>): set<CollectorID> { set j | j in jobs :: j.id }

  /** The jobs to refresh at startup. */
  function StartupOf(jobs: seq<JobSpec>): set<CollectorID> { set j | j in jobs && j.startupRefresh :: j.id }

  predicate JobFine(j: JobSpec) { j.interval > 0 && j.id.Valid() }

  lemma OneMoreJob(jobs: seq<JobSpec>, j: JobSpec)
    ensures IDSet(jobs + [j]) == IDSet(jobs) + {j.id}
    ensures StartupOf(jobs + [j]) == StartupOf(jobs) + (if j.startupRefresh then {j.id} else {})
    ensures Distinct(IDs(jobs + [j])) <==> Distinct(IDs(jobs)) && j.id !in IDSet(jobs)
  {
    assert j in jobs + [j] && forall x :: x in jobs ==> x in jobs + [j];
    MapAppend((x: JobSpec) => x.id, jobs, [j]);
    assert IDs([j]) == [j.id];
    DistinctAppend(IDs(jobs), [j.id]);
    InMap((x: JobSpec) => x.id, jobs, j.id);
  }

  lemma {:induction false} RepeatedJob(jobs: seq<JobSpec>, i: nat)
    requires i <= |jobs| && Distinct(IDs(jobs))
    ensures Distinct(IDs(jobs[..i]))
  {
    assert IDs(jobs[..i]) == IDs(jobs)[..i];
  }

  /** The loop of `NewJobs`: every job fine, no id twice. */
  method CheckJobs(jobs: seq<JobSpec>)
    returns (ok: bool, known: set<CollectorID>, startup: set<CollectorID>, targets: map<string, nat>)
    ensures ok <==> (forall j :: j in jobs ==> JobFine(j)) && Distinct(IDs(jobs))
    ensures ok ==> known == IDSet(jobs) && startup == StartupOf(jobs)
    ensures ok ==> forall t :: t in targets ==> targets[t] == 0
  {
    known, startup, targets := {}, {}, map[];
    for i := 0 to |jobs|
      invariant (forall j :: j in jobs[..i] ==> JobFine(j)) && Distinct(IDs(jobs[..i]))
      invariant known == IDSet(jobs[..i]) && startup == StartupOf(jobs[..i])
      invariant forall t :: t in targets ==> targets[t] == 0
    {
      var job := jobs[i];
      assert job in jobs && jobs[..i + 1] == jobs[..i] + [job];
      OneMoreJob(jobs[..i], job);
      if Distinct(IDs(jobs)) {
        RepeatedJob(jobs, i + 1);
      }
      if job.interval <= 0 || !job.id.Valid() || job.id in known {
        ok := false;
        return;
      }
      known := known + {job.id};
      if job.startupRefresh { startup := startup + {job.id}; }
      targets := targets[job.id.target := 0];
    }
    assert jobs[..|jobs|] == jobs;
    ok := true;
  }

  /** `NewJobs`: bounded settings, valid and pairwise different jobs; the runner
      starts with free slots, empty queues and the jobs' own startup wishes. */
  method NewJobs(jobs: seq<JobSpec>, settings: Settings) returns (runner: Runner?)
    ensures runner != null <==>
              jobs != [] && ValidSettings(settings) && (forall j :: j in jobs ==> JobFine(j)) && Distinct(IDs(jobs))
    ensures runner != null ==>
              && fresh(runner) && runner.Valid() && Initial(runner.system)
              && runner.cfg == Config(settings.maxConcurrency, settings.backoff.maxAttempts, StartupOf(jobs))
              && runner.system.jobs.Keys == IDSet(jobs)
  {
    var ok := CheckSettings(settings);
    if |jobs| == 0 || !ok {
      return null;
    }
    var known, startup, targets;
    ok, known, startup, targets := CheckJobs(jobs);
    if !ok {
      return null;
    }
    runner := new Runner(Config(settings.maxConcurrency, settings.backoff.maxAttempts, startup), known, targets);
  }
}
