/** What lasts: a running instance until it exits, its forwarder until that ends, and the
  * wish to have it running until somebody stops it.
  */
module SupervisorLasting {
  import opened Wrappers
  import opened Supervisor
  import opened SupervisorSteps
  import opened SupervisorFrames
  import opened SupervisorUpgrade
  import opened SupervisorPorts
  import opened SupervisorLaunches

  /** The same instance, still wanted if it was. */
  predicate SameLifeWanted(c: Container, d: Container) {
    d.pid == c.pid && d.started == c.started && d.adopted == c.adopted && (c.desired == Up ==> d.desired == Up)
  }

  /** A running n goes on as it is, with its forwarder if it has one. */
  predicate Lasts(s: State, s': State, n: string) {
    n in s.containers && s.containers[n].pid != 0 ==>
      && n in s'.containers && SameLifeWanted(s.containers[n], s'.containers[n])
      && (s.containers[n].fwdPid != 0 ==> s'.containers[n].fwdPid == s.containers[n].fwdPid)
  }

  lemma LastsTrans(s: State, s1: State, s2: State, n: string)
    requires Lasts(s, s1, n) && Lasts(s1, s2, n)
    ensures Lasts(s, s2, n)
  {
  }

  lemma PutLasts(s: State, m: string, c: Container, n: string)
    requires m in s.containers ==> SameLifeWanted(s.containers[m], c) && c.fwdPid == s.containers[m].fwdPid
    ensures Lasts(s, Put(s, m, c), n)
  {
  }

  lemma SameLasts(s: State, s': State, n: string)
    requires s'.containers == s.containers
    ensures Lasts(s, s', n)
  {
  }

  lemma LaunchLasts(cfg: Settings, s: State, m: string, env: Env, n: string)
    requires Wanting(s, m) && s.now > 0
    ensures Lasts(s, Launch(cfg, s, m, env), n)
  {
    var k := LaunchBrings(cfg, s, m, env);
    assert n != m ==> RaisedAt(cfg, s, Launch(cfg, s, m, env), n, env);
  }

  lemma StartLasts(cfg: Settings, s: State, m: string, env: Env, n: string)
    requires s.nextPid > 0 && s.now > 0
    ensures Lasts(s, OperatorStart(cfg, s, m, env), n)
  {
    if ValidName(m) {
      var s1 := Ensure(s, m);
      var s2 := Put(s1, m, MarkUp(s1.containers[m]));
      PutLasts(s, m, s2.containers[m], n);
      if s1.containers[m].conf.bundle != "" && s1.containers[m].pid == 0 {
        LaunchLasts(cfg, s2, m, env, n);
        LastsTrans(s, s2, Launch(cfg, s2, m, env), n);
      }
    }
  }

  lemma RestartLasts(cfg: Settings, s: State, m: string, env: Env, n: string)
    requires s.nextPid > 0 && s.now > 0
    ensures Lasts(s, Restart(cfg, s, m, env), n)
  {
    if ValidName(m) {
      var s1 := Ensure(s, m);
      var s2 := Put(s1, m, WantedAnew(s1.containers[m]));
      PutLasts(s, m, s2.containers[m], n);
      if s1.containers[m].conf.bundle != "" {
        if s1.containers[m].pid == 0 { LaunchLasts(cfg, s2, m, env, n); }
        LastsTrans(s, s2, Restart(cfg, s, m, env), n);
      }
    }
  }

  lemma RewrittenLasts(s: State, m: string, recorded: bool, n: string)
    ensures Lasts(s, Rewritten(s, m, recorded), n) && Rewritten(s, m, recorded).nextPid == s.nextPid
    ensures Rewritten(s, m, recorded).now == s.now
  {
  }

  lemma RevertedLasts(cfg: Settings, s: State, m: string, recorded: bool, env: Env, n: string)
    requires s.nextPid > 0 && s.now > 0
    ensures Lasts(s, Reverted(cfg, s, m, recorded, env), n)
  {
    RewrittenLasts(s, m, recorded, n);
    RestartLasts(cfg, Rewritten(s, m, recorded), m, env, n);
    LastsTrans(s, Rewritten(s, m, recorded), Reverted(cfg, s, m, recorded, env), n);
  }

  lemma RecordedLasts(cfg: Settings, s: State, m: string, hadPrev: bool, n: string)
    ensures Lasts(s, UpgradeRecorded(cfg, s, m, hadPrev), n)
    ensures var s' := UpgradeRecorded(cfg, s, m, hadPrev); s'.nextPid == s.nextPid && s'.now == s.now
  {
    RewrittenLasts(s, m, hadPrev, n);
    if Gated(cfg, s, m) {
      var s1 := Put(s, m, s.containers[m].(lastUpdate := NoResult));
      RewrittenLasts(s1, m, hadPrev, n);
      LastsTrans(s, s1, Rewritten(s1, m, hadPrev), n);
    }
  }

  lemma UpgradeLasts(cfg: Settings, s: State, m: string, hadPrev: bool, env: Env, n: string)
    requires s.nextPid > 0 && s.now > 0
    ensures Lasts(s, UpgradeDone(cfg, s, m, hadPrev, env), n)
  {
    var s1 := UpgradeRecorded(cfg, s, m, hadPrev);
    RecordedLasts(cfg, s, m, hadPrev, n);
    RestartLasts(cfg, s1, m, env, n);
    LastsTrans(s, s1, Restart(cfg, s1, m, env), n);
  }

  lemma WatchLasts(cfg: Settings, s: State, t: Timer, probe: Probe, env: Env, n: string)
    requires t.Watch? && t in s.timers && s.nextPid > 0 && s.now > 0
    ensures Lasts(s, WatchPoll(cfg, s, t, probe, env), n)
  {
    var m := t.name;
    if m in s.containers {
      if Passes(s, t) {
        PutLasts(s, m, s.containers[m].(lastUpdate := Verified), n);
      } else if s.now >= t.deadline {
        if ReadConfig(s, m).bundle != "" && probe.swapOk {
          var s1 := Put(Disarm(s, t), m, s.containers[m].(lastUpdate := RolledBack));
          PutLasts(s, m, s1.containers[m], n);
          RevertedLasts(cfg, s1, m, probe.recorded, env, n);
          LastsTrans(s, s1, Reverted(cfg, s1, m, probe.recorded, env), n);
        } else {
          PutLasts(s, m, s.containers[m].(lastUpdate := RollbackFailed), n);
        }
      }
    }
  }

  lemma JudgeLasts(s: State, m: string, ok: bool, on: nat, n: string)
    requires m in s.containers
    ensures Lasts(s, Judge(s, m, ok, on), n)
  {
  }

  lemma CycleLasts(s: State, m: string, probe: Probe, n: string)
    requires m in s.containers
    ensures Lasts(s, HealthCycle(s, m, probe), n)
  {
    var c := s.containers[m];
    if c.pid != 0 && c.hcWorker == 0 {
      var s1 := Put(s, m, c.(hcResourceOk := probe.resourceOk));
      if !c.conf.hcBlocking {
        JudgeLasts(s, m, probe.resourceOk, c.pid, n);
      } else if !probe.workerStarts {
        JudgeLasts(s1, m, probe.resourceOk, c.pid, n);
        LastsTrans(s, s1, Judge(s1, m, probe.resourceOk, c.pid), n);
      } else {
        assert HealthCycle(s, m, probe) == WorkerStart(s1, m);
      }
    }
  }

  lemma WorkerLasts(s: State, m: string, ok: bool, n: string)
    requires m in s.containers
    ensures Lasts(s, WorkerExit(s, m, ok), n)
  {
    var c := s.containers[m];
    PutLasts(s, m, c.(hcWorker := 0), n);
    JudgeLasts(CancelWorker(s, m), m, c.hcResourceOk && ok, c.hist.workerOn, n);
    LastsTrans(s, CancelWorker(s, m), WorkerExit(s, m, ok), n);
  }

  lemma PortTimerLasts(cfg: Settings, s: State, t: Timer, probe: Probe, env: Env, n: string)
    requires t in s.timers && (t.FwdRetry? || t.FwdDeferred?)
    ensures Lasts(s, Fire(cfg, s, t, probe, env), n)
  {
    if t.name in s.containers {
      RetryFires(cfg, s, t, probe, env);
      StartServes(Disarm(s, t), t.name, env);
      assert Touches(Disarm(s, t), StartForwards(Disarm(s, t), t.name, env), t.name);
    }
  }

  /** The event is the end of n's instance, or the operator stops or removes n. */
  predicate EndsOrStops(s: State, e: Event, n: string) {
    match e
    case JailExits(p) => p in s.jails && s.jails[p] == n
    case AdoptedGone(m) => m == n
    case CallStop(m) => m == n
    case CallRemove(m) => m == n
    case _ => false
  }

  /** The event is that the forwarder of n has ended, or is found dead. */
  predicate EndsForwarder(s: State, e: Event, n: string) {
    match e
    case ForwarderExits(p) => p in s.forwarders && s.forwarders[p] == n
    case TimerFires(t, probe) => t.FwdCheck? && t.name == n && probe.forwarderDead
    case _ => false
  }

  lemma FireLasts(cfg: Settings, s: State, t: Timer, probe: Probe, env: Env, n: string)
    requires t in s.timers && s.nextPid > 0 && s.now > 0
    requires !(t.FwdCheck? && t.name == n && probe.forwarderDead)
    ensures Lasts(s, Fire(cfg, s, t, probe, env), n)
  {
    var m, s1 := t.name, Disarm(s, t);
    if t.Watch? {
      WatchLasts(cfg, s, t, probe, env, n);
    } else if t.FwdRetry? || t.FwdDeferred? {
      PortTimerLasts(cfg, s, t, probe, env, n);
    } else if t.HealthTick? {
      TickLasts(cfg, s, t, probe, env, n);
    } else if t.Relaunch? && Wanting(s, m) {
      LaunchLasts(cfg, s1, m, env, n);
    } else {
      IdleTimerLasts(cfg, s, t, probe, env, n);
    }
  }

  lemma TickLasts(cfg: Settings, s: State, t: Timer, probe: Probe, env: Env, n: string)
    requires t in s.timers && t.HealthTick?
    ensures Lasts(s, Fire(cfg, s, t, probe, env), n)
  {
    if t.name in s.containers {
      FireTick(cfg, s, t, probe, env);
      if s.containers[t.name].conf.hcInterval > 0 { CycleLasts(s, t.name, probe, n); }
      else { PutLasts(s, t.name, s.containers[t.name].(hcScheduled := false), n); }
    }
  }

  lemma IdleTimerLasts(cfg: Settings, s: State, t: Timer, probe: Probe, env: Env, n: string)
    requires t in s.timers && s.nextPid > 0
    requires t.GraceKill? || (t.FwdCheck? && !(t.name == n && probe.forwarderDead)) || (t.Relaunch? && !Wanting(s, t.name))
    ensures Lasts(s, Fire(cfg, s, t, probe, env), n)
  {
  }

  lemma OthersLast(s: State, s': State, m: string, n: string)
    requires Only(s, s', m) && n != m && (n in s.containers ==> n in s'.containers)
    ensures Lasts(s, s', n)
  {
    assert OnlyAt(s, s', m, n);
  }

  lemma CallLasts(cfg: Settings, s: State, env: Env, e: Event, n: string)
    requires Enabled(s, env, e) && s.now == env.now && s.nextPid > 0 && Launches(s, e) != None && !e.TimerFires?
    ensures Lasts(s, Step(cfg, s, env, e), n)
  {
    match e
    case CallStart(m) => StartLasts(cfg, s, m, env, n);
    case CallRestart(m) => RestartLasts(cfg, s, m, env, n);
    case CallRollback(m, recorded, _) => RevertedLasts(cfg, s, m, recorded, env, n);
    case AdoptRunning(m) => AdoptLasts(s, m, env, n);
    case UpgradeFinished(m, hadPrev) => UpgradeLasts(cfg, s, m, hadPrev, env, n);
  }

  lemma AdoptLasts(s: State, m: string, env: Env, n: string)
    requires m !in s.containers
    ensures Lasts(s, Adopt(s, m, env), n)
  {
    AdoptGrown(s, m, env);
    assert GrownAt(s, Adopt(s, m, env), m, n);
  }

  /** An exit forgets no other container. */
  lemma ExitForgets(cfg: Settings, s: State, m: string)
    requires m in s.containers
    ensures s.containers.Keys - {m} <= JailExit(cfg, s, m).containers.Keys
    ensures s.containers.Keys <= AdoptedExit(cfg, s, m).containers.Keys
  {
    GoneKnows(s, m);
    RespawnKnows(cfg, Gone(s, m), m);
    RespawnKnows(cfg, CancelWorker(Gone(s, m), m), m);
  }

  lemma GoneKnows(s: State, m: string)
    requires m in s.containers
    ensures Gone(s, m).containers.Keys == CancelWorker(Gone(s, m), m).containers.Keys == s.containers.Keys
  {
  }

  lemma RespawnKnows(cfg: Settings, s: State, m: string)
    requires m in s.containers
    ensures ScheduleRespawn(cfg, s, m).containers.Keys == s.containers.Keys
  {
  }

  lemma OtherStopLasts(s: State, m: string, n: string)
    requires n != m
    ensures Lasts(s, Stop(s, m), n) && Lasts(s, Remove(s, m), n)
  {
    StopKnows(s, m);
    OthersLast(s, Stop(s, m), m, n);
    OthersLast(s, Remove(s, m), m, n);
  }

  lemma StopKnows(s: State, m: string)
    ensures Stop(s, m).containers.Keys == s.containers.Keys && s.containers.Keys - {m} <= Remove(s, m).containers.Keys
  {
  }

  lemma ForwarderLasts(s: State, m: string, n: string)
    requires m in s.containers && n != m
    ensures Lasts(s, ForwarderExit(s, m), n)
  {
    if n in s.containers { OthersLast(s, ForwarderExit(s, m), m, n); }
  }

  lemma EntryLasts(cfg: Settings, s: State, env: Env, e: Event, n: string)
    requires Enabled(s, env, e) && s.now == env.now && (e.CallSetConfig? || e.EditRegistry? || e.Learn?)
    ensures Lasts(s, Step(cfg, s, env, e), n)
  {
  }

  /** A running instance lasts through every step but its exit, wanted up until somebody
    * stops or removes it, and so does its forwarder until that ends.
    */
  lemma StepLasts(cfg: Settings, s0: State, env: Env, e: Event, n: string)
    requires Enabled(s0, env, e) && s0.nextPid > 0 && !EndsOrStops(s0, e, n) && !EndsForwarder(s0, e, n)
    ensures Lasts(s0, Step(cfg, s0, env, e), n)
  {
    var s := s0.(now := env.now);
    match e
    case CallStop(m) => OtherStopLasts(s, m, n);
    case CallRemove(m) => OtherStopLasts(s, m, n);
    case CallSetConfig(_, _) => EntryLasts(cfg, s, env, e, n);
    case EditRegistry(_) => EntryLasts(cfg, s, env, e, n);
    case Learn(_) => EntryLasts(cfg, s, env, e, n);
    case JailExits(p) => ExitLasts(cfg, s, s.jails[p], n);
    case AdoptedGone(m) => ExitLasts(cfg, s, m, n);
    case WorkerExits(p, ok) => WorkerLasts(s, s.workers[p], ok, n);
    case ForwarderExits(p) => ForwarderLasts(s, s.forwarders[p], n);
    case TimerFires(t, probe) => FireLasts(cfg, s, t, probe, env, n);
    case _ => CallLasts(cfg, s, env, e, n);
  }

  lemma ExitLasts(cfg: Settings, s: State, m: string, n: string)
    requires m in s.containers && n != m
    ensures Lasts(s, JailExit(cfg, s, m), n) && Lasts(s, AdoptedExit(cfg, s, m), n)
  {
    if n in s.containers {
      ExitForgets(cfg, s, m);
      OthersLast(s, JailExit(cfg, s, m), m, n);
      OthersLast(s, AdoptedExit(cfg, s, m), m, n);
    }
  }
}
