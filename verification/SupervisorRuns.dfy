/** Every step of the supervisor keeps the invariant, hence every run does. */
module SupervisorRuns {
  import opened Wrappers
  import opened Health
  import opened Supervisor
  import opened SupervisorSteps
  import opened SupervisorInvariant
  import opened SupervisorFrames

  // ---- exits ------------------------------------------------------------------------

  lemma GoneKeeps(cfg: Settings, s: State, n: string)
    requires Inv(cfg, s) && n in s.containers && s.containers[n].pid != 0
    ensures InvBut(cfg, Gone(s, n), {n}) && n in Gone(s, n).containers
    ensures var c := Gone(s, n).containers[n];
      c.pid == 0 && c.fwdPid == 0 && c.hcWorker == s.containers[n].hcWorker && !c.adopted
  {
    var s' := Gone(s, n);
    assert Tracked(cfg, s, n);
    Children(cfg, s, n, {}, s.nextPid);
    assert OnlyRecord(s, s', n);
    RecordKeeps(cfg, s, s', n, {});
    assert {} + {n} == {n};
  }

  lemma CancelWorkerKeeps(cfg: Settings, s: State, n: string, x: set<string>)
    requires InvBut(cfg, s, x) && n in s.containers
    ensures InvBut(cfg, CancelWorker(s, n), x)
    ensures n in CancelWorker(s, n).containers
    ensures CancelWorker(s, n).containers[n] == s.containers[n].(hcWorker := 0)
  {
    if s.containers[n].hcWorker != 0 {
      var s' := CancelWorker(s, n);
      assert Tracked(cfg, s, n);
      Children(cfg, s, n, x, s.nextPid);
      StillSettled(s, s', n, x);
      RecordKeeps(cfg, s, s', n, x);
    }
  }

  lemma RespawnKeeps(cfg: Settings, s: State, n: string)
    requires InvBut(cfg, s, {n}) && n in s.containers && s.containers[n].pid == 0
    ensures Inv(cfg, ScheduleRespawn(cfg, s, n))
  {
    var up := UpFor(s, s.containers[n]);
    assert {} + {n} == {n};
    RestartClockKeeps(cfg, s, n);
    var s1 := Put(s, n, s.containers[n].(started := 0));
    if s1.containers[n].desired != Up {
      Settle(cfg, s1, n, {});
    } else if !s1.containers[n].conf.respawn {
      ParkKeeps(cfg, s1, n, RespawnOff, {});
    } else {
      CrashPolicyKeeps(cfg, s1, n, up);
    }
  }

  lemma CrashPolicyKeeps(cfg: Settings, s: State, n: string, up: int)
    requires InvBut(cfg, s, {n}) && n in s.containers && s.containers[n].pid == 0
    ensures Inv(cfg, CrashPolicy(cfg, s, n, up))
  {
    var c := Crashed(cfg, s.containers[n], up);
    assert {} + {n} == {n};
    CrashedOk(cfg, s, n, up);
    PutInLaunch(cfg, s, n, c, {});
    if c.desired != Up {
      Settle(cfg, Put(s, n, c), n, {});
    } else {
      RetryKeeps(cfg, Put(s, n, c), n, Backoff(cfg, c.crashCount), {});
    }
  }

  lemma CrashedOk(cfg: Settings, s: State, n: string, up: int)
    requires InvBut(cfg, s, {n}) && n in s.containers
    ensures LocalOk(cfg, s.now, Crashed(cfg, s.containers[n], up))
    ensures SameLife(s.containers[n], Crashed(cfg, s.containers[n], up))
  {
    assert Tracked(cfg, s, n);
  }

  lemma RestartClockKeeps(cfg: Settings, s: State, n: string)
    requires InvBut(cfg, s, {n}) && n in s.containers && s.containers[n].pid == 0
    ensures InvBut(cfg, Put(s, n, s.containers[n].(started := 0)), {n})
  {
    assert Tracked(cfg, s, n);
    Children(cfg, s, n, {n}, s.nextPid);
    RecordKeeps(cfg, s, Put(s, n, s.containers[n].(started := 0)), n, {n});
  }

  lemma EraseKeeps(cfg: Settings, s: State, n: string)
    requires InvBut(cfg, s, {n}) && n in s.containers
    requires var c := s.containers[n]; c.pid == 0 && c.fwdPid == 0 && c.hcWorker == 0
    ensures Inv(cfg, Erase(s, n))
  {
    var s' := Erase(s, n);
    forall m ensures Tracked(cfg, s', m) { assert Tracked(cfg, s, m); }
    forall p ensures JailOk(s', p) { assert JailOk(s, p); }
    forall p ensures ForwarderOk(s', p) { assert ForwarderOk(s, p); }
    forall p ensures WorkerOk(s', p) { assert WorkerOk(s, p); }
    forall p ensures SignalOk(s', p) { assert SignalOk(s, p); }
    forall t ensures TimerOk(s', t) { assert TimerOk(s, t); }
    forall m ensures SettledBut(s', {}, m) { assert SettledBut(s, {n}, m); SamePending(s, s', m); }
  }

  lemma JailExitKeeps(cfg: Settings, s: State, n: string)
    requires Inv(cfg, s) && n in s.containers && s.containers[n].pid != 0
    ensures Inv(cfg, JailExit(cfg, s, n))
  {
    GoneKeeps(cfg, s, n);
    CancelWorkerKeeps(cfg, Gone(s, n), n, {n});
    var s1 := CancelWorker(Gone(s, n), n);
    if n !in s.registry {
      EraseKeeps(cfg, s1, n);
    } else {
      RespawnKeeps(cfg, s1, n);
    }
  }

  lemma AdoptedExitKeeps(cfg: Settings, s: State, n: string)
    requires Inv(cfg, s) && n in s.containers && s.containers[n].pid != 0
    ensures Inv(cfg, AdoptedExit(cfg, s, n))
  {
    GoneKeeps(cfg, s, n);
    RespawnKeeps(cfg, Gone(s, n), n);
  }

  // ---- operator calls -----------------------------------------------------------------

  /** Nothing of a state but its clock, registry and signal records has changed. */
  ghost predicate SameWorld(s: State, s': State) {
    && s'.containers == s.containers && s'.timers == s.timers && s'.nextPid == s.nextPid
    && s'.jails == s.jails && s'.forwarders == s.forwarders && s'.workers == s.workers
    && s.now <= s'.now && s.signalled <= s'.signalled
    && (forall p :: SignalOk(s', p))
  }

  lemma SameWorldKeeps(cfg: Settings, s: State, s': State, x: set<string>)
    requires InvBut(cfg, s, x) && SameWorld(s, s')
    ensures InvBut(cfg, s', x)
  {
    forall m ensures Tracked(cfg, s', m) { assert Tracked(cfg, s, m); }
    forall p ensures JailOk(s', p) { assert JailOk(s, p); }
    forall p ensures ForwarderOk(s', p) { assert ForwarderOk(s, p); }
    forall p ensures WorkerOk(s', p) { assert WorkerOk(s, p); }
    forall t ensures TimerOk(s', t) { assert TimerOk(s, t); }
    forall m ensures SettledBut(s', x, m) { assert SettledBut(s, x, m); SamePending(s, s', m); }
  }

  lemma SignalKeeps(cfg: Settings, s: State, n: string, target: nat, x: set<string>)
    requires InvBut(cfg, s, x) && 0 < target < s.nextPid
    ensures InvBut(cfg, SignalAndReap(s, n, target), x)
  {
    var s1 := s.(signalled := s.signalled + {target});
    forall p ensures SignalOk(s1, p) { assert SignalOk(s, p); }
    SameWorldKeeps(cfg, s, s1, x);
    ArmKeeps(cfg, s1, GraceKill(n, target), x) by {
      assert TimerOk(s1, GraceKill(n, target));
    }
    assert Arm(s1, GraceKill(n, target)) == SignalAndReap(s, n, target);
  }

  lemma RegistryKeeps(cfg: Settings, s: State, r: map<string, Config>, x: set<string>)
    requires InvBut(cfg, s, x)
    ensures InvBut(cfg, s.(registry := r), x)
  {
    var s' := s.(registry := r);
    forall p ensures SignalOk(s', p) { assert SignalOk(s, p); }
    SameWorldKeeps(cfg, s, s', x);
  }

  lemma ClockKeeps(cfg: Settings, s: State, now: nat)
    requires Inv(cfg, s) && s.now <= now
    ensures Inv(cfg, s.(now := now))
  {
    var s' := s.(now := now);
    forall p ensures SignalOk(s', p) { assert SignalOk(s, p); }
    SameWorldKeeps(cfg, s, s', {});
  }

  lemma EnsureKeeps(cfg: Settings, s: State, n: string)
    requires Inv(cfg, s)
    ensures Inv(cfg, Ensure(s, n)) && n in Ensure(s, n).containers
  {
    var s' := Ensure(s, n);
    if n !in s.containers {
      forall m ensures Tracked(cfg, s', m) { assert Tracked(cfg, s, m); }
      forall p ensures JailOk(s', p) { assert JailOk(s, p); }
      forall p ensures ForwarderOk(s', p) { assert ForwarderOk(s, p); }
      forall p ensures WorkerOk(s', p) { assert WorkerOk(s, p); }
      forall p ensures SignalOk(s', p) { assert SignalOk(s, p); }
      forall t ensures TimerOk(s', t) { assert TimerOk(s, t); }
      forall m ensures SettledBut(s', {}, m) { assert SettledBut(s, {}, m); SamePending(s, s', m); }
    }
  }

  lemma StopKeeps(cfg: Settings, s: State, n: string)
    requires Inv(cfg, s)
    ensures Inv(cfg, Stop(s, n))
  {
    if ValidName(n) && n in s.containers {
      var c := s.containers[n];
      assert Tracked(cfg, s, n);
      PutKeeps(cfg, s, n, c.(desired := Down), {});
      if c.pid != 0 {
        assert Tracked(cfg, s, n) && JailOk(s, s.containers[n].pid);
        SignalKeeps(cfg, Put(s, n, c.(desired := Down)), n, c.pid, {});
      }
    }
  }

  lemma RestartKeeps(cfg: Settings, s: State, n: string, env: Env)
    requires Inv(cfg, s) && s.now > 0
    ensures Inv(cfg, Restart(cfg, s, n, env))
  {
    if ValidName(n) {
      EnsureKeeps(cfg, s, n);
      var s1 := Ensure(s, n);
      var c := s1.containers[n];
      if c.conf.bundle != "" {
        var d := WantedAnew(c);
        assert Tracked(cfg, s1, n);
        PutKeeps(cfg, s1, n, d, {});
        var s2 := Put(s1, n, d);
        if c.pid != 0 {
          assert Tracked(cfg, s1, n) && JailOk(s1, s1.containers[n].pid);
          SignalKeeps(cfg, s2, n, c.pid, {});
        } else {
          LaunchKeeps(cfg, s2, n, env, {});
        }
      }
    }
  }

  lemma SetConfigKeeps(cfg: Settings, s: State, n: string, conf: Config)
    requires Inv(cfg, s)
    ensures Inv(cfg, SetConfig(s, n, conf))
  {
    if ValidName(n) && conf.bundle != "" {
      var s1 := s.(registry := s.registry[n := conf]);
      RegistryKeeps(cfg, s, s.registry[n := conf], {});
      if n in s1.containers {
        assert Tracked(cfg, s1, n);
        Update(cfg, s1, n, ApplyConfig(s1.containers[n], conf));
      }
    }
  }

  /** A change that keeps instance, wish and parking reason keeps the invariant. */
  lemma Update(cfg: Settings, s: State, n: string, c: Container)
    requires Inv(cfg, s) && n in s.containers
    requires SameLife(s.containers[n], c) && LocalOk(cfg, s.now, c)
    requires c.desired == s.containers[n].desired && c.hist.parked == s.containers[n].hist.parked
    ensures Inv(cfg, Put(s, n, c))
  {
    StillSettled(s, Put(s, n, c), n, {});
    PutKeeps(cfg, s, n, c, {});
  }

  lemma Loosen(cfg: Settings, s: State, n: string)
    requires Inv(cfg, s)
    ensures InvBut(cfg, s, {n})
  {
    forall m ensures SettledBut(s, {n}, m) { assert SettledBut(s, {}, m); }
  }

  lemma RemoveKeeps(cfg: Settings, s: State, n: string)
    requires Inv(cfg, s)
    ensures Inv(cfg, Remove(s, n))
  {
    if ValidName(n) {
      var s1 := s.(registry := s.registry - {n});
      RegistryKeeps(cfg, s, s.registry - {n}, {});
      if n in s1.containers {
        if s1.containers[n].pid != 0 {
          StopKeeps(cfg, s1, n);
        } else {
          CancelWorkerKeeps(cfg, s1, n, {});
          assert Tracked(cfg, s1, n);
          Loosen(cfg, CancelWorker(s1, n), n);
          EraseKeeps(cfg, CancelWorker(s1, n), n);
        }
      }
    }
  }

  lemma AdoptKeeps(cfg: Settings, s: State, n: string, env: Env)
    requires Inv(cfg, s) && n !in s.containers && s.now > 0
    ensures Inv(cfg, Adopt(s, n, env))
  {
    EnsureKeeps(cfg, s, n);
    var s1 := Ensure(s, n);
    var s2 := TakenOver(s1, n);
    TakenOverKeeps(cfg, s1, n);
    ScheduleHealthKeeps(cfg, s2, n, {});
    if s1.containers[n].conf.publishes {
      StartForwardsKeeps(cfg, ScheduleHealth(s2, n), n, env, {});
    }
  }

  lemma TakenOverKeeps(cfg: Settings, s: State, n: string)
    requires Inv(cfg, s) && n in s.containers && s.now > 0
    requires s.containers[n].pid == 0 && s.containers[n].hist.waitsOn == None
    ensures Inv(cfg, TakenOver(s, n))
  {
    assert Tracked(cfg, s, n);
    Children(cfg, s, n, {}, s.nextPid + 1);
    RecordKeeps(cfg, s, TakenOver(s, n), n, {});
  }

  // ---- health and forwarders -------------------------------------------------------------

  lemma JudgeKeeps(cfg: Settings, s: State, n: string, ok: bool, on: nat)
    requires Inv(cfg, s) && n in s.containers
    ensures Inv(cfg, Judge(s, n, ok, on))
  {
    var c := s.containers[n];
    var r := ApplyVerdict(c.conf.policy, c.hc, ok, c.started, c.pid, s.now);
    var c1 := c.(hc := r.state, hist := if ok then c.hist.(passedOn := on) else c.hist);
    assert Tracked(cfg, s, n);
    Update(cfg, s, n, c1);
    if r.restart {
      assert Tracked(cfg, s, n) && JailOk(s, s.containers[n].pid);
      SignalKeeps(cfg, Put(s, n, c1), n, c.pid, {});
    }
  }

  lemma WorkerStartKeeps(cfg: Settings, s: State, n: string)
    requires Inv(cfg, s) && n in s.containers && s.containers[n].pid != 0 && s.containers[n].hcWorker == 0
    ensures Inv(cfg, WorkerStart(s, n))
  {
    Children(cfg, s, n, {}, s.nextPid + 1);
    StillSettled(s, WorkerStart(s, n), n, {});
    assert Tracked(cfg, s, n);
    RecordKeeps(cfg, s, WorkerStart(s, n), n, {});
  }

  lemma HealthCycleKeeps(cfg: Settings, s: State, n: string, probe: Probe)
    requires Inv(cfg, s) && n in s.containers
    ensures Inv(cfg, HealthCycle(s, n, probe))
  {
    var c := s.containers[n];
    assert Tracked(cfg, s, n);
    if c.pid == 0 {
      Update(cfg, s, n, c.(hc := HealthState(Unknown, 0)));
    } else if c.hcWorker == 0 {
      if !c.conf.hcBlocking {
        JudgeKeeps(cfg, s, n, probe.resourceOk, c.pid);
      } else {
        var s1 := Put(s, n, c.(hcResourceOk := probe.resourceOk));
        Update(cfg, s, n, c.(hcResourceOk := probe.resourceOk));
        if !probe.workerStarts {
          JudgeKeeps(cfg, s1, n, probe.resourceOk, c.pid);
        } else {
          WorkerStartKeeps(cfg, s1, n);
        }
      }
    }
  }

  lemma WorkerExitKeeps(cfg: Settings, s: State, n: string, ok: bool)
    requires Inv(cfg, s) && n in s.containers
    ensures Inv(cfg, WorkerExit(s, n, ok))
  {
    CancelWorkerKeeps(cfg, s, n, {});
    var c := s.containers[n];
    JudgeKeeps(cfg, CancelWorker(s, n), n, c.hcResourceOk && ok, c.hist.workerOn);
  }

  /** The forwarder of n is dead and forgotten. */
  lemma ForwarderDeadKeeps(cfg: Settings, s: State, n: string, c: Container)
    requires Inv(cfg, s) && n in s.containers && s.containers[n].fwdPid != 0
    requires c == s.containers[n].(fwdPid := 0, fwdError := c.fwdError)
    ensures Inv(cfg, Put(s, n, c).(forwarders := s.forwarders - {s.containers[n].fwdPid}))
  {
    var s' := Put(s, n, c).(forwarders := s.forwarders - {s.containers[n].fwdPid});
    assert Tracked(cfg, s, n);
    Children(cfg, s, n, {}, s.nextPid);
    StillSettled(s, s', n, {});
    RecordKeeps(cfg, s, s', n, {});
  }

  lemma ForwarderExitKeeps(cfg: Settings, s: State, n: string)
    requires Inv(cfg, s) && n in s.containers && s.containers[n].fwdPid != 0
    ensures Inv(cfg, ForwarderExit(s, n))
  {
    var c := s.containers[n].(fwdPid := 0);
    ForwarderDeadKeeps(cfg, s, n, c);
    var s1 := Put(s, n, c).(forwarders := s.forwarders - {s.containers[n].fwdPid});
    if c.pid != 0 && c.desired == Up {
      ForwarderRetryKeeps(cfg, s1, n);
    }
  }

  lemma RepublishingOk(cfg: Settings, now: nat, c: Container)
    requires LocalOk(cfg, now, c) && c.fwdRestarts + 1 <= FWD_MAX_RESTARTS
    ensures LocalOk(cfg, now, Republishing(c)) && SameLife(c, Republishing(c))
    ensures Republishing(c).desired == c.desired && Republishing(c).hist.parked == c.hist.parked
  {
  }

  lemma ForwarderRetryKeeps(cfg: Settings, s: State, n: string)
    requires Inv(cfg, s) && n in s.containers
    ensures Inv(cfg, ForwarderRetry(s, n))
  {
    var c := s.containers[n];
    assert Tracked(cfg, s, n);
    if c.fwdRestarts + 1 > FWD_MAX_RESTARTS {
      Update(cfg, s, n, c.(fwdRestarts := c.fwdRestarts + 1, fwdError := true));
    } else {
      RepublishingOk(cfg, s.now, c);
      RetriedKeeps(cfg, s, n, Republishing(c));
    }
  }

  lemma RetriedKeeps(cfg: Settings, s: State, n: string, d: Container)
    requires Inv(cfg, s) && n in s.containers
    requires LocalOk(cfg, s.now, d) && SameLife(s.containers[n], d)
    requires d.desired == s.containers[n].desired && d.hist.parked == s.containers[n].hist.parked
    ensures Inv(cfg, Arm(Put(s, n, d), FwdRetry(n)))
  {
    Update(cfg, s, n, d);
    ArmKeeps(cfg, Put(s, n, d), FwdRetry(n), {});
  }

  // ---- timers ------------------------------------------------------------------------------

  /** A tick that finds no healthcheck any more stops ticking. */
  lemma TickStops(cfg: Settings, s: State, n: string)
    requires Inv(cfg, s) && n in s.containers && HealthTick(n) in s.timers
    ensures Inv(cfg, Put(Disarm(s, HealthTick(n)), n, s.containers[n].(hcScheduled := false)))
  {
    var s1 := Put(s, n, s.containers[n].(hcScheduled := false));
    assert Tracked(cfg, s, n);
    Children(cfg, s, n, {}, s.nextPid);
    StillSettled(s, s1, n, {});
    RecordKeeps(cfg, s, s1, n, {});
    TickGoes(cfg, s1, n);
    assert Disarm(s1, HealthTick(n)) == Put(Disarm(s, HealthTick(n)), n, s.containers[n].(hcScheduled := false));
  }

  lemma TickGoes(cfg: Settings, s: State, n: string)
    requires Inv(cfg, s) && (n in s.containers ==> !s.containers[n].hcScheduled)
    ensures Inv(cfg, Disarm(s, HealthTick(n)))
  {
    var s' := Disarm(s, HealthTick(n));
    forall m ensures Tracked(cfg, s', m) {
      assert Tracked(cfg, s, m);
      assert m != n ==> HealthTick(m) != HealthTick(n);
    }
    forall p ensures JailOk(s', p) { assert JailOk(s, p); }
    forall p ensures ForwarderOk(s', p) { assert ForwarderOk(s, p); }
    forall p ensures WorkerOk(s', p) { assert WorkerOk(s, p); }
    forall p ensures SignalOk(s', p) { assert SignalOk(s, p); }
    forall t ensures TimerOk(s', t) { assert TimerOk(s, t); }
    forall m ensures SettledBut(s', {}, m) {
      assert SettledBut(s, {}, m);
      if RelaunchPending(s, m) {
        var delay :| Relaunch(m, delay) in s.timers;
        assert Relaunch(m, delay) in s'.timers;
      }
    }
  }

  lemma OutcomeKeeps(cfg: Settings, s: State, n: string, outcome: LastUpdate)
    requires Inv(cfg, s) && n in s.containers
    ensures Inv(cfg, Put(s, n, s.containers[n].(lastUpdate := outcome)))
  {
    assert Tracked(cfg, s, n);
    Update(cfg, s, n, s.containers[n].(lastUpdate := outcome));
  }

  lemma RevertedKeeps(cfg: Settings, s: State, n: string, recorded: bool, env: Env)
    requires Inv(cfg, s) && s.now > 0
    ensures Inv(cfg, Reverted(cfg, s, n, recorded, env))
  {
    RewrittenKeeps(cfg, s, n, recorded);
    RestartKeeps(cfg, Rewritten(s, n, recorded), n, env);
  }

  lemma WatchPollKeeps(cfg: Settings, s: State, t: Timer, probe: Probe, env: Env)
    requires Inv(cfg, s) && t.Watch? && t in s.timers && s.now > 0
    ensures Inv(cfg, WatchPoll(cfg, s, t, probe, env))
  {
    var n := t.name;
    DisarmKeeps(cfg, s, t, {});
    var s1 := Disarm(s, t);
    if n in s.containers {
      OutcomeKeeps(cfg, s1, n, Verified);
      OutcomeKeeps(cfg, s1, n, RolledBack);
      OutcomeKeeps(cfg, s1, n, RollbackFailed);
      RevertedKeeps(cfg, Put(s1, n, s.containers[n].(lastUpdate := RolledBack)), n, probe.recorded, env);
    }
  }

  lemma RelaunchFires(cfg: Settings, s: State, t: Timer, env: Env)
    requires Inv(cfg, s) && t.Relaunch? && t in s.timers && s.now > 0
    ensures Inv(cfg, Fire(cfg, s, t, Probe(true, true, true, true, true), env))
  {
    var n := t.name;
    DisarmKeeps(cfg, s, t, {});
    var s1 := Disarm(s, t);
    assert {} + {n} == {n};
    if n in s.containers {
      var c := s.containers[n];
      if c.desired == Up && c.pid == 0 {
        LaunchKeeps(cfg, s1, n, env, {});
      } else {
        Settle(cfg, s1, n, {});
      }
    } else {
      Settle(cfg, s1, n, {});
    }
  }

  lemma FireKeeps(cfg: Settings, s: State, t: Timer, probe: Probe, env: Env)
    requires Inv(cfg, s) && t in s.timers && s.now > 0
    ensures Inv(cfg, Fire(cfg, s, t, probe, env))
  {
    var n := t.name;
    if t.Watch? {
      WatchPollKeeps(cfg, s, t, probe, env);
    } else if t.Relaunch? {
      RelaunchFires(cfg, s, t, env);
    } else if t.HealthTick? {
      if n !in s.containers {
        TickGoes(cfg, s, n);
      } else if s.containers[n].conf.hcInterval <= 0 {
        TickStops(cfg, s, n);
      } else {
        HealthCycleKeeps(cfg, s, n, probe);
      }
    } else {
      DisarmKeeps(cfg, s, t, {});
      if n in s.containers {
        SmallTimerKeeps(cfg, Disarm(s, t), s, t, probe, env);
      }
    }
  }

  lemma SmallTimerKeeps(cfg: Settings, s1: State, s: State, t: Timer, probe: Probe, env: Env)
    requires Inv(cfg, s) && t in s.timers && t.name in s.containers && s1 == Disarm(s, t) && Inv(cfg, s1)
    requires t.GraceKill? || t.FwdRetry? || t.FwdCheck? || t.FwdDeferred?
    ensures Inv(cfg, Fire(cfg, s, t, probe, env))
  {
    var n := t.name;
    var c := s.containers[n];
    assert TimerOk(s, t);
    if t.GraceKill? {
      if c.pid == t.pid { KillKeeps(cfg, s1, t.pid); }
    } else if t.FwdRetry? {
      if c.pid != 0 { StartForwardsKeeps(cfg, s1, n, env, {}); }
    } else if t.FwdCheck? {
      if c.fwdPid == t.pid { ForwarderDeadKeeps(cfg, s1, n, c.(fwdPid := 0, fwdError := true)); }
    } else {
      if c.pid == t.pid { StartForwardsKeeps(cfg, s1, n, env, {}); }
    }
  }

  lemma KillKeeps(cfg: Settings, s: State, target: nat)
    requires Inv(cfg, s) && target in s.signalled
    ensures Inv(cfg, s.(killed := s.killed + {target}))
  {
    var s' := s.(killed := s.killed + {target});
    forall p ensures SignalOk(s', p) { assert SignalOk(s, p); }
    SameWorldKeeps(cfg, s, s', {});
  }

  // ---- safe update ----------------------------------------------------------------------

  /** What a restart does to instances, and that it forgets no container. */
  lemma RestartForks(cfg: Settings, s: State, n: string, env: Env)
    requires n in s.containers
    ensures var s' := Restart(cfg, s, n, env);
      && s.containers.Keys == s'.containers.Keys && s.nextPid <= s'.nextPid && s'.now == s.now
      && Forked(s, s.containers[n], s'.containers[n])
  {
    RestartLaunched(cfg, s, n, env);
    assert Known(s, n) == s && LaunchedAt(s, Restart(cfg, s, n, env), n, n);
  }

  /** Writing the entry back leaves every life as it is. */
  lemma RewrittenKeeps(cfg: Settings, s: State, n: string, recorded: bool)
    requires Inv(cfg, s)
    ensures var s' := Rewritten(s, n, recorded);
      && Inv(cfg, s') && s'.now == s.now && s'.nextPid == s.nextPid && s'.containers.Keys == s.containers.Keys
      && (n in s.containers ==> SameLife(s.containers[n], s'.containers[n]))
  {
    if recorded { SetConfigKeeps(cfg, s, n, ReadConfig(s, n)); }
  }

  lemma UpgradeRecordedKeeps(cfg: Settings, s: State, n: string, hadPrev: bool)
    requires Inv(cfg, s)
    ensures var s' := UpgradeRecorded(cfg, s, n, hadPrev);
      && Inv(cfg, s') && s'.now == s.now && s'.nextPid == s.nextPid && s'.containers.Keys == s.containers.Keys
      && (n in s.containers ==> SameLife(s.containers[n], s'.containers[n]))
  {
    if Gated(cfg, s, n) {
      OutcomeKeeps(cfg, s, n, NoResult);
      RewrittenKeeps(cfg, Put(s, n, s.containers[n].(lastUpdate := NoResult)), n, hadPrev);
    } else {
      RewrittenKeeps(cfg, s, n, hadPrev);
    }
  }

  lemma UpgradeKeeps(cfg: Settings, s: State, n: string, hadPrev: bool, env: Env)
    requires Inv(cfg, s) && s.now > 0
    ensures Inv(cfg, UpgradeDone(cfg, s, n, hadPrev, env))
  {
    var s1 := UpgradeRecorded(cfg, s, n, hadPrev);
    UpgradeRecordedKeeps(cfg, s, n, hadPrev);
    RestartKeeps(cfg, s1, n, env);
    if Gated(cfg, s, n) {
      var s2 := Restart(cfg, s1, n, env);
      RestartForks(cfg, s1, n, env);
      var t := WatchFor(cfg, s2.now, n, s2.containers[n], s.containers[n].started, s.nextPid);
      assert TellsApart(s2.containers[n], t) && Tracked(cfg, s, n);
      ArmKeeps(cfg, s2, t, {}) by {
        assert TimerOk(s2, t);
      }
    }
  }

  // ---- every step, every run ------------------------------------------------------------

  /** One callback, whatever it is and whatever the outside world answers. */
  lemma StepKeeps(cfg: Settings, s0: State, env: Env, e: Event)
    requires Inv(cfg, s0) && Enabled(s0, env, e)
    ensures Inv(cfg, Step(cfg, s0, env, e))
  {
    var s := s0.(now := env.now);
    ClockKeeps(cfg, s0, env.now);
    match e
    case CallStart(n) =>
      if ValidName(n) {
        EnsureKeeps(cfg, s, n);
        StartKeeps(cfg, Ensure(s, n), n, env, {});
      }
    case CallStop(n) => StopKeeps(cfg, s, n);
    case CallRestart(n) => RestartKeeps(cfg, s, n, env);
    case CallSetConfig(n, conf) => SetConfigKeeps(cfg, s, n, conf);
    case CallRemove(n) => RemoveKeeps(cfg, s, n);
    case CallRollback(n, recorded, _) => RevertedKeeps(cfg, s, n, recorded, env);
    case EditRegistry(r) => RegistryKeeps(cfg, s, r, {});
    case Learn(n) => EnsureKeeps(cfg, s, n);
    case AdoptRunning(n) => AdoptKeeps(cfg, s, n, env);
    case JailExits(p) =>
      assert JailOk(s, p);
      JailExitKeeps(cfg, s, s.jails[p]);
    case AdoptedGone(n) => AdoptedExitKeeps(cfg, s, n);
    case WorkerExits(p, ok) => WorkerExitKeeps(cfg, s, s.workers[p], ok);
    case ForwarderExits(p) =>
      assert ForwarderOk(s, p);
      ForwarderExitKeeps(cfg, s, s.forwarders[p]);
    case TimerFires(t, probe) => FireKeeps(cfg, s, t, probe, env);
    case UpgradeFinished(n, hadPrev) => UpgradeKeeps(cfg, s, n, hadPrev, env);
  }

  lemma InitialKeeps(cfg: Settings, s: State)
    requires Initial(s)
    ensures Inv(cfg, s)
  {
  }

  /** Every state of every run from an initial one satisfies the invariant. */
  lemma {:induction false} RunKeeps(cfg: Settings, states: seq<State>, moments: seq<Moment>, i: nat)
    requires IsRun(cfg, states, moments) && Initial(states[0]) && i < |states|
    ensures Inv(cfg, states[i])
  {
    if i == 0 {
      InitialKeeps(cfg, states[0]);
    } else {
      RunKeeps(cfg, states, moments, i - 1);
      StepKeeps(cfg, states[i - 1], moments[i - 1].env, moments[i - 1].event);
    }
  }
}
