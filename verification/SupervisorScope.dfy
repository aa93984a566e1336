/** That a stop lasts, and when a restart comes back. */
module SupervisorScope {
  import opened Wrappers
  import opened DependencyGraph
  import opened Health
  import opened Supervisor
  import opened SupervisorSteps
  import opened SupervisorFrames
  import opened SupervisorSafety
  import opened SupervisorPorts
  import opened SupervisorLaunches

  // ---- a stop lasts ---------------------------------------------------------------------

  predicate Stopped(s: State, n: string) {
    n in s.containers ==> s.containers[n].desired == Down && s.containers[n].pid == 0
  }

  /** The event launches n itself, or a container that depends on it. */
  ghost predicate Revives(s: State, e: Event, n: string) {
    Launches(s, e) != None
    && (Launches(s, e).value == n || Reaches(DependsGraph(s.registry), Launches(s, e).value, n))
  }

  /** A container that is down and not wanted stays so through every step, unless the
    * step starts, restarts, upgrades or watches it or another container that depends on
    * it; in particular no relaunch timer left over from before the stop brings it back.
    */
  lemma StopLasts(cfg: Settings, s0: State, env: Env, e: Event, n: string)
    requires Enabled(s0, env, e) && Stopped(s0, n) && !Revives(s0, e, n)
    ensures Stopped(Step(cfg, s0, env, e), n)
  {
    var m, pre := StepSplits(cfg, s0, env, e);
    SplitStopped(s0, pre, Step(cfg, s0, env, e), m, e, n);
  }

  lemma SplitStopped(s: State, pre: State, s': State, m: string, e: Event, n: string)
    requires Splits(s, pre, s', m, e) && Stopped(s, n) && !Revives(s, e, n)
    ensures Stopped(s', n)
  {
    assert GrownAt(s, pre, m, n) && LaunchedAt(pre, s', m, n) && (Launches(s, e) == None ==> DormantAt(s, pre, n));
  }

  /** So it does along every stretch of a run without such a step. */
  lemma {:induction false} StopLastsInRun(cfg: Settings, states: seq<State>, moments: seq<Moment>, i: nat, j: nat, n: string)
    requires IsRun(cfg, states, moments) && i <= j < |states| && Stopped(states[i], n)
    requires forall k | i <= k < j :: !Revives(states[k], moments[k].event, n)
    ensures Stopped(states[j], n)
  {
    if i < j {
      StopLastsInRun(cfg, states, moments, i, j - 1, n);
      StopLasts(cfg, states[j - 1], moments[j - 1].env, moments[j - 1].event, n);
    }
  }

  /** A running container that is stopped is down for good once its instance has ended,
    * whichever way it was supervised: no relaunch is armed.
    */
  lemma StopTakesEffect(cfg: Settings, s: State, n: string, exitAt: nat)
    requires ValidName(n) && n in s.containers && s.containers[n].pid != 0
    ensures var s1 := Stop(s, n).(now := exitAt);
      && n in s1.containers && Stopped(JailExit(cfg, s1, n), n) && JailExit(cfg, s1, n).timers == s1.timers
      && Stopped(AdoptedExit(cfg, s1, n), n) && AdoptedExit(cfg, s1, n).timers == s1.timers
  {
    var s1 := Stop(s, n).(now := exitAt);
    GoneSays(s1, n);
    CancelSays(Gone(s1, n), n);
    NoRespawn(cfg, Gone(s1, n), n);
    NoRespawn(cfg, CancelWorker(Gone(s1, n), n), n);
  }

  /** A running container that is removed disappears with its instance if and only if
    * uxcd launched it: the record of an adopted one stays behind, stopped.
    */
  lemma RemovedIsDropped(cfg: Settings, s: State, n: string, exitAt: nat)
    requires ValidName(n) && n in s.containers && s.containers[n].pid != 0
    ensures var s1 := Remove(s, n).(now := exitAt);
      && n in s1.containers
      && var s2 := if s.containers[n].adopted then AdoptedExit(cfg, s1, n) else JailExit(cfg, s1, n);
      (n !in s2.containers <==> !s.containers[n].adopted) && Stopped(s2, n)
  {
    var s1 := Remove(s, n).(now := exitAt);
    assert s1 == Stop(s.(registry := s.registry - {n}), n).(now := exitAt);
    StopTakesEffect(cfg, s.(registry := s.registry - {n}), n, exitAt);
    GoneSays(s1, n);
  }

  // ---- a restart comes back ---------------------------------------------------------------

  /** A restart of a running container only signals it; the exit that follows, of a
    * launched or an adopted instance, arms a relaunch if and only if the container may
    * respawn. Its crash count cannot stand in the way, for the restart has cleared it.
    */
  lemma RestartComesBack(cfg: Settings, s: State, n: string, env: Env, exitAt: nat)
    requires ValidName(n) && n in s.containers && s.containers[n].pid != 0
    requires s.containers[n].conf.bundle != "" && n in s.registry
    ensures var s1 := Restart(cfg, s, n, env).(now := exitAt);
      && n in s1.containers
      && (JailExit(cfg, s1, n).timers != s1.timers <==> s.containers[n].conf.respawn)
      && (AdoptedExit(cfg, s1, n).timers != s1.timers <==> s.containers[n].conf.respawn)
  {
    var c := s.containers[n];
    var s1 := SignalAndReap(Put(s, n, WantedAnew(c)), n, c.pid).(now := exitAt);
    assert Restart(cfg, s, n, env).(now := exitAt) == s1;
    GoneSays(s1, n);
    CancelSays(Gone(s1, n), n);
    WantedComesBack(cfg, Gone(s1, n), n);
    WantedComesBack(cfg, CancelWorker(Gone(s1, n), n), n);
  }

  lemma WantedComesBack(cfg: Settings, s: State, n: string)
    requires n in s.containers && s.containers[n].desired == Up && s.containers[n].crashCount == 0
    ensures ScheduleRespawn(cfg, s, n).timers != s.timers <==> s.containers[n].conf.respawn
  {
    var c := s.containers[n];
    RespawnExactly(cfg, s, n);
    assert CrashesLeft(cfg, c, UpFor(s, c));
    if c.conf.respawn {
      var t := Relaunch(n, Backoff(cfg, Streak(c, UpFor(s, c))));
      assert (s.timers + multiset{t})[t] == s.timers[t] + 1;
    } else {
      NoRespawn(cfg, s, n);
    }
  }

  predicate SameTerms(s: State, s': State, n: string) {
    && n in s.containers && n in s'.containers && s'.timers == s.timers && s'.registry == s.registry && s'.now == s.now
    && var c, d := s.containers[n], s'.containers[n];
    d.desired == c.desired && d.conf == c.conf && d.crashCount == c.crashCount && d.started == c.started
  }

  lemma GoneSays(s: State, n: string)
    requires n in s.containers
    ensures SameTerms(s, Gone(s, n), n)
  {
  }

  lemma CancelSays(s: State, n: string)
    requires n in s.containers
    ensures SameTerms(s, CancelWorker(s, n), n)
  {
  }

  // ---- names -----------------------------------------------------------------------------

  /** A valid name is one component of a path, neither hidden nor leading upwards, and
    * cannot be mistaken for a part of a scheduler key.
    */
  lemma ValidNamesAreFileNames(n: string)
    requires ValidName(n)
    ensures n != "" && |n| <= 128 && n != "." && n != ".." && n[0] != '.' && '/' !in n && '|' !in n && ' ' !in n
  {
  }

  // ---- entries and records ------------------------------------------------------------------

  /** What becomes of the registry: only setconfig, remove and edits of its files change it.
    * Writing provenance back is part of it and no more than that.
    */
  lemma RegistryFollows(cfg: Settings, s0: State, env: Env, e: Event)
    requires Enabled(s0, env, e)
    ensures Step(cfg, s0, env, e).registry ==
      if e.EditRegistry? then e.registry
      else if e.CallSetConfig? && ValidName(e.name) && e.conf.bundle != "" then s0.registry[e.name := e.conf]
      else if e.CallRemove? && ValidName(e.name) then s0.registry - {e.name}
      else s0.registry
  {
    var m, pre := StepSplits(cfg, s0, env, e);
    if Launches(s0, e) == None { QuietRegistry(cfg, s0.(now := env.now), env, e); }
  }

  lemma QuietRegistry(cfg: Settings, s: State, env: Env, e: Event)
    requires Enabled(s, env, e) && s.now == env.now && Launches(s, e) == None
    ensures Step(cfg, s, env, e).registry ==
      if e.EditRegistry? then e.registry
      else if e.CallSetConfig? && ValidName(e.name) && e.conf.bundle != "" then s.registry[e.name := e.conf]
      else if e.CallRemove? && ValidName(e.name) then s.registry - {e.name}
      else s.registry
  {
    match e
    case JailExits(p) => ExitRegistry(cfg, s, s.jails[p]);
    case AdoptedGone(n) => ExitRegistry(cfg, s, n);
    case WorkerExits(p, ok) => WorkerRegistry(s, s.workers[p], ok);
    case ForwarderExits(p) => ForwarderRegistry(s, s.forwarders[p]);
    case TimerFires(t, probe) => FireRegistry(cfg, s, t, probe, env);
    case _ => CallRegistry(cfg, s, env, e);
  }

  lemma CallRegistry(cfg: Settings, s: State, env: Env, e: Event)
    requires Enabled(s, env, e) && s.now == env.now
    requires Launches(s, e) == None && (e.CallStop? || e.CallSetConfig? || e.CallRemove? || e.EditRegistry? || e.Learn?)
    ensures Step(cfg, s, env, e).registry ==
      if e.EditRegistry? then e.registry
      else if e.CallSetConfig? && ValidName(e.name) && e.conf.bundle != "" then s.registry[e.name := e.conf]
      else if e.CallRemove? && ValidName(e.name) then s.registry - {e.name}
      else s.registry
  {
    match e
    case CallStop(n) => StopRegistry(s, n);
    case CallRemove(n) => StopRegistry(s.(registry := s.registry - {n}), n);
    case _ =>
  }

  lemma StopRegistry(s: State, n: string)
    ensures Stop(s, n).registry == s.registry
  {
  }

  lemma WorkerRegistry(s: State, n: string, ok: bool)
    requires n in s.containers
    ensures WorkerExit(s, n, ok).registry == s.registry
  {
    var c := s.containers[n];
    JudgeRegistry(CancelWorker(s, n), n, c.hcResourceOk && ok, c.hist.workerOn);
  }

  lemma CycleRegistry(s: State, n: string, probe: Probe)
    requires n in s.containers
    ensures HealthCycle(s, n, probe).registry == s.registry
  {
    var c := s.containers[n];
    if c.pid != 0 && c.hcWorker == 0 {
      var s1 := Put(s, n, c.(hcResourceOk := probe.resourceOk));
      if !c.conf.hcBlocking {
        JudgeRegistry(s, n, probe.resourceOk, c.pid);
      } else if !probe.workerStarts {
        JudgeRegistry(s1, n, probe.resourceOk, c.pid);
      } else {
        assert HealthCycle(s, n, probe) == WorkerStart(s1, n);
      }
    }
  }

  lemma JudgeRegistry(s: State, n: string, ok: bool, on: nat)
    requires n in s.containers
    ensures Judge(s, n, ok, on).registry == s.registry
  {
  }

  lemma ForwarderRegistry(s: State, n: string)
    requires n in s.containers
    ensures ForwarderExit(s, n).registry == s.registry
  {
  }

  lemma ExitRegistry(cfg: Settings, s: State, n: string)
    requires n in s.containers
    ensures JailExit(cfg, s, n).registry == s.registry && AdoptedExit(cfg, s, n).registry == s.registry
  {
    RespawnRegistry(cfg, Gone(s, n), n);
    RespawnRegistry(cfg, CancelWorker(Gone(s, n), n), n);
  }

  lemma RespawnRegistry(cfg: Settings, s: State, n: string)
    requires n in s.containers
    ensures ScheduleRespawn(cfg, s, n).registry == s.registry
  {
  }

  lemma FireRegistry(cfg: Settings, s: State, t: Timer, probe: Probe, env: Env)
    requires t in s.timers && Launches(s, TimerFires(t, probe)) == None
    ensures Fire(cfg, s, t, probe, env).registry == s.registry
  {
    if t.name in s.containers {
      if t.HealthTick? {
        FireTick(cfg, s, t, probe, env);
        CycleRegistry(s, t.name, probe);
      } else if t.FwdRetry? || t.FwdDeferred? {
        RetryFires(cfg, s, t, probe, env);
        PortsRegistry(Disarm(s, t), t.name, env);
      } else {
        IdleRegistry(cfg, s, t, probe, env);
      }
    }
  }

  lemma PortsRegistry(s: State, n: string, env: Env)
    requires n in s.containers
    ensures StartForwards(s, n, env).registry == s.registry
  {
    assert Touches(s, StartForwards(s, n, env), n);
  }

  lemma IdleRegistry(cfg: Settings, s: State, t: Timer, probe: Probe, env: Env)
    requires t in s.timers && t.name in s.containers && Launches(s, TimerFires(t, probe)) == None
    requires t.GraceKill? || t.FwdCheck? || t.Relaunch?
    ensures Fire(cfg, s, t, probe, env).registry == s.registry
  {
  }

  /** setconfig reaches the record at once; everything else about it stays. */
  lemma SetConfigTakesEffect(cfg: Settings, s0: State, env: Env, n: string, conf: Config)
    requires Enabled(s0, env, CallSetConfig(n, conf)) && ValidName(n) && conf.bundle != "" && n in s0.containers
    ensures var s' := Step(cfg, s0, env, CallSetConfig(n, conf));
      && s' == s0.(now := env.now, registry := s'.registry, containers := s0.containers[n := s'.containers[n]])
      && s'.containers[n] == s0.containers[n].(conf := s'.containers[n].conf) && Configured(s'.containers[n].conf, conf)
  {
  }

  /** A container that is removed while it is down is forgotten, with its probe; one that
    * runs is told to stop.
    */
  lemma RemoveTakesEffect(cfg: Settings, s0: State, env: Env, n: string)
    requires Enabled(s0, env, CallRemove(n)) && ValidName(n) && n in s0.containers
    ensures var s', c := Step(cfg, s0, env, CallRemove(n)), s0.containers[n];
      if c.pid == 0 then
        && n !in s'.containers && s'.containers == s0.containers - {n} && s'.timers == s0.timers
        && (c.hcWorker != 0 ==> c.hcWorker !in s'.workers)
      else
        && s'.containers == s0.containers[n := c.(desired := Down)]
        && s'.signalled == s0.signalled + {c.pid} && s'.timers == s0.timers + multiset{GraceKill(n, c.pid)}
  {
  }

  /** A registered name becomes known as its entry says, down and not wanted. */
  lemma LearnTakesEffect(cfg: Settings, s0: State, env: Env, n: string)
    requires Enabled(s0, env, Learn(n))
    ensures var s' := Step(cfg, s0, env, Learn(n));
      && s' == s0.(now := env.now, containers := s'.containers) && n in s'.containers
      && if n in s0.containers then s'.containers == s0.containers
         else
           && s'.containers == s0.containers[n := s'.containers[n]] && Configured(s'.containers[n].conf, ReadConfig(s0, n))
           && s'.containers[n].desired == Down && s'.containers[n].pid == 0
  {
  }

  /** A jail of a previous daemon life is taken over: it is the instance of its container,
    * wanted up, probed if it has a healthcheck, and its ports are published again.
    */
  lemma AdoptionTakesOver(cfg: Settings, s0: State, env: Env, n: string)
    requires Enabled(s0, env, AdoptRunning(n)) && s0.nextPid > 0
    ensures var s', entry := Step(cfg, s0, env, AdoptRunning(n)), ReadConfig(s0, n);
      && n in s'.containers
      && var d := s'.containers[n];
      && d.pid == s0.nextPid && d.pid in s'.jails && s'.jails[d.pid] == n && d.adopted && d.desired == Up
      && d.started == env.now && Configured(d.conf, entry) && d.hc == HealthState(Unknown, 0)
      && (entry.infra != "" ==> d.infraWasUp)
      && (entry.healthcheck && entry.hcInterval > 0 ==> d.hcScheduled && HealthTick(n) in s'.timers)
      && (entry.publishes ==> if n in env.fwdSpecs && n in env.fwdForkOk then d.fwdPid in s'.forwarders && s'.forwarders[d.fwdPid] == n
                              else d.fwdError)
  {
    AdoptTakesOver(s0.(now := env.now), n, env);
  }

  lemma AdoptTakesOver(s: State, n: string, env: Env)
    requires n !in s.containers && s.nextPid > 0
    ensures var s', entry := Adopt(s, n, env), ReadConfig(s, n);
      && n in s'.containers
      && var d := s'.containers[n];
      && d.pid == s.nextPid && d.pid in s'.jails && s'.jails[d.pid] == n && d.adopted && d.desired == Up
      && d.started == s.now && Configured(d.conf, entry) && d.hc == HealthState(Unknown, 0)
      && (entry.infra != "" ==> d.infraWasUp)
      && (entry.healthcheck && entry.hcInterval > 0 ==> d.hcScheduled && HealthTick(n) in s'.timers)
      && (entry.publishes ==> if n in env.fwdSpecs && n in env.fwdForkOk then d.fwdPid in s'.forwarders && s'.forwarders[d.fwdPid] == n
                              else d.fwdError)
  {
    var s1 := Ensure(s, n);
    var s3 := ScheduleHealth(TakenOver(s1, n), n);
    AdoptionTicks(s1, n);
    if s1.containers[n].conf.publishes { AdoptionPublishes(s3, n, env); }
  }

  lemma AdoptionPublishes(s: State, n: string, env: Env)
    requires n in s.containers && s.containers[n].conf.publishes
    ensures var s' := StartForwards(s, n, env);
      Published(s, s', n, env) && ButPorts(s.containers[n], s'.containers[n]) && s.timers <= s'.timers && s'.jails == s.jails
  {
    StartServes(s, n, env);
    PortsLeave(s, n, env);
  }

  lemma PortsLeave(s: State, n: string, env: Env)
    requires n in s.containers
    ensures var s' := StartForwards(s, n, env); s.timers <= s'.timers && s'.jails == s.jails
  {
    var s1 := StopForwards(s, n);
    assert Touches(s, StartForwards(s, n, env), n);
    PublishJails(s1, n, env);
  }

  lemma PublishJails(s: State, n: string, env: Env)
    requires n in s.containers
    ensures Publish(s, n, env).jails == s.jails
  {
  }

  lemma AdoptionTicks(s: State, n: string)
    requires n in s.containers && !s.containers[n].hcScheduled
    ensures var s', c := ScheduleHealth(TakenOver(s, n), n), s.containers[n];
      && n in s'.containers
      && s'.containers[n] == c.(pid := s.nextPid, adopted := true, desired := Up, started := s.now,
                                infraWasUp := c.infraWasUp || c.conf.infra != "", hcScheduled := s'.containers[n].hcScheduled)
      && s'.jails == s.jails[s.nextPid := n]
      && (c.conf.hcInterval > 0 ==> s'.containers[n].hcScheduled && HealthTick(n) in s'.timers)
  {
  }
}
