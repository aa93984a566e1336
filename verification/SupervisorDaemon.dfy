/** The daemon as src/container.cpp runs it: global maps that callbacks update field by
  * field. Every method is proved to do what its step of the state machine says, so the
  * daemon keeps the invariant and goes through the states of a run.
  */
module SupervisorDaemon {
  import opened Wrappers
  import opened DependencyGraph
  import opened Health
  import opened Supervisor
  import opened SupervisorSteps
  import opened SupervisorInvariant
  import opened SupervisorRuns
  import opened SupervisorSafety

  lemma PutTwice(m: map<string, Container>, n: string, c: Container, d: Container)
    ensures m[n := c][n := d] == m[n := d]
  {
  }

  class Daemon {
    const cfg: Settings
    var containers: map<string, Container>
    var registry: map<string, Config>
    var timers: multiset<Timer>
    var jails: map<nat, string>
    var forwarders: map<nat, string>
    var workers: map<nat, string>
    var nextPid: nat
    var now: nat
    var signalled: set<nat>
    var killed: set<nat>

    ghost function Snapshot(): State
      reads this
    {
      State(containers, registry, timers, jails, forwarders, workers, nextPid, now, signalled, killed)
    }

    constructor (cfg: Settings, registry: map<string, Config>)
      ensures this.cfg == cfg && this.registry == registry && Initial(Snapshot())
    {
      this.cfg, this.registry := cfg, registry;
      containers, timers := map[], multiset{};
      jails, forwarders, workers := map[], map[], map[];
      nextPid, now, signalled, killed := 1, 0, {}, {};
    }

    // ---- port forwarders --------------------------------------------------------------

    method StopPortForwards(n: string)
      requires n in containers
      modifies `containers, `forwarders
      ensures Snapshot() == StopForwards(old(Snapshot()), n)
    {
      var c := containers[n];
      if c.fwdPid == 0 { return; }
      forwarders := forwarders - {c.fwdPid};
      containers := containers[n := c.(fwdPid := 0, fwdRestarts := 0, hist := c.hist.(fwdArmed := 0))];
    }

    method StartPortForwards(n: string, env: Env)
      requires n in containers
      modifies `containers, `forwarders, `nextPid, `timers
      ensures Snapshot() == StartForwards(old(Snapshot()), n, env)
    {
      StopPortForwards(n);
      PublishPorts(n, env);
    }

    method PublishPorts(n: string, env: Env)
      requires n in containers
      modifies `containers, `forwarders, `nextPid, `timers
      ensures Snapshot() == Publish(old(Snapshot()), n, env)
    {
      var c := containers[n].(fwdError := false);
      containers := containers[n := c];
      if !c.conf.publishes { return; }
      if n !in env.fwdSpecs || n !in env.fwdForkOk {
        PutTwice(old(containers), n, c, c.(fwdError := true));
        containers := containers[n := c.(fwdError := true)];
        return;
      }
      PutTwice(old(containers), n, c, c.(fwdPid := nextPid));
      ForkForwarder(n);
    }

    method ForkForwarder(n: string)
      requires n in containers
      modifies `containers, `forwarders, `nextPid, `timers
      ensures containers == old(containers)[n := old(containers)[n].(fwdPid := old(nextPid))]
      ensures forwarders == old(forwarders)[old(nextPid) := n] && nextPid == old(nextPid) + 1
      ensures timers == old(timers) + multiset{FwdCheck(n, old(nextPid))}
    {
      var pid := nextPid;
      nextPid := nextPid + 1;
      forwarders := forwarders[pid := n];
      containers := containers[n := containers[n].(fwdPid := pid)];
      timers := timers + multiset{FwdCheck(n, pid)};
    }

    method StartPortForwardsDeferred(n: string, env: Env)
      requires n in containers
      modifies `containers, `forwarders, `nextPid, `timers
      ensures Snapshot() == StartForwardsDeferred(old(Snapshot()), n, env)
    {
      if !containers[n].conf.publishes { return; }
      StartPortForwards(n, env);
      var c := containers[n];
      if c.fwdPid != 0 || !c.fwdError { return; }
      timers := timers + multiset{FwdDeferred(n, c.pid)};
    }

    // ---- launch -----------------------------------------------------------------------

    method ScheduleRelaunch(n: string, delay: nat)
      modifies `timers
      ensures Snapshot() == Arm(old(Snapshot()), Relaunch(n, delay))
    {
      timers := timers + multiset{Relaunch(n, delay)};
    }

    method ScheduleHealthTick(n: string)
      requires n in containers
      modifies `containers, `timers
      ensures Snapshot() == ScheduleHealth(old(Snapshot()), n)
    {
      var c := containers[n];
      if c.conf.hcInterval <= 0 || c.hcScheduled { return; }
      containers := containers[n := c.(hcScheduled := true)];
      timers := timers + multiset{HealthTick(n)};
    }

    method LeaveDown(n: string, why: ParkReason)
      requires n in containers
      modifies `containers
      ensures Snapshot() == Park(old(Snapshot()), n, why)
    {
      containers := containers[n := containers[n].(hist := containers[n].hist.(parked := Some(why)))];
    }

    method Supervise(n: string)
      requires n in containers
      modifies `containers, `jails, `nextPid
      ensures Snapshot() == Running(old(Snapshot()), n)
    {
      var pid := nextPid;
      nextPid := nextPid + 1;
      jails := jails[pid := n];
      containers := containers[n := containers[n].(pid := pid, adopted := false, started := now)];
    }

    method ForkJail(n: string, env: Env)
      requires n in containers
      modifies `containers, `jails, `forwarders, `nextPid, `timers
      ensures Snapshot() == Spawn(old(Snapshot()), n, env)
    {
      if n !in env.pipeOk {
        LeaveDown(n, PipeFailed);
        return;
      }
      if n !in env.forkOk {
        LeaveDown(n, ForkFailed);
        return;
      }
      Supervise(n);
      ScheduleHealthTick(n);
      StartPortForwardsDeferred(n, env);
    }

    /** infra_wait_since, infra_was_up and the give-up of launch. */
    method WaitForInfra(n: string)
      requires n in containers && containers[n].desired == Up
      modifies `containers, `timers
      ensures Snapshot() == AwaitInfra(cfg, old(Snapshot()), n)
    {
      var c := containers[n];
      if c.infraWaitSince == 0 {
        c := c.(infraWaitSince := now);
      }
      containers := containers[n := c];
      if !c.infraWasUp && now - c.infraWaitSince >= INFRA_WAIT_SECS {
        containers := containers[n := c.(desired := Down, infraWaitSince := 0)];
        return;
      }
      ScheduleRelaunch(n, cfg.restartDelay);
    }

    method AllMounted(mounts: seq<string>, env: Env) returns (ok: bool)
      ensures ok <==> forall m | m in mounts :: m in env.mounted
    {
      var i := 0;
      while i < |mounts|
        invariant 0 <= i <= |mounts|
        invariant forall j | 0 <= j < i :: mounts[j] in env.mounted
      {
        if mounts[i] !in env.mounted { return false; }
        i := i + 1;
      }
      return true;
    }

    /** launch after the dependency loop. */
    method LaunchNow(n: string, env: Env)
      requires n in containers && containers[n].desired == Up
      modifies `containers, `jails, `forwarders, `nextPid, `timers
      ensures Snapshot() == LaunchReady(cfg, old(Snapshot()), n, env)
    {
      containers := containers[n := containers[n].(depWaitSince := 0)];
      var mounted := AllMounted(containers[n].conf.reqMounts, env);
      if !mounted {
        ScheduleRelaunch(n, cfg.restartDelay);
        return;
      }
      JoinAndFork(n, env);
    }

    method JoinAndFork(n: string, env: Env)
      requires n in containers && containers[n].desired == Up
      modifies `containers, `jails, `forwarders, `nextPid, `timers
      ensures Snapshot() == JoinInfra(cfg, old(Snapshot()), n, env)
    {
      var c := containers[n];
      if c.conf.infra != "" && c.conf.infra !in env.netns {
        WaitForInfra(n);
        return;
      }
      containers := containers[n := c.(infraWaitSince := 0, infraWasUp := true)];
      if c.conf.infra != "" || c.conf.overrides {
        if n !in env.shadowOk {
          ScheduleRelaunch(n, cfg.restartDelay);
          return;
        }
      }
      ForkJail(n, env);
    }

    /** launch: dependencies first, each searched for a loop back to this container. */
    method LaunchContainer(n: string, env: Env)
      requires n in containers && containers[n].desired == Up
      modifies `containers, `jails, `forwarders, `nextPid, `timers
      ensures Snapshot() == Launch(cfg, old(Snapshot()), n, env)
      decreases NotUp(Snapshot()), 2
    {
      ghost var s0 := Snapshot();
      var c := Refresh(n);
      ghost var s1 := Snapshot();
      LeavesPut(s0, n, c);
      assert NotUp(s1) == NotUp(s0);
      if c.conf.bundle == "" {
        LeaveDown(n, NoBundle);
        return;
      }
      var timedOut := c.depWaitSince != 0 && now - c.depWaitSince >= cfg.startTimeout;
      var passed := AwaitDependencies(n, timedOut, env);
      if passed {
        LaunchNow(n, env);
      }
    }

    /** apply_config */
    method Configured(c: Container, conf: Config) returns (d: Container)
      ensures d == ApplyConfig(c, conf)
    {
      d := c.(conf := conf.(hcInterval := 0, hcBlocking := false, policy := c.conf.policy));
      if conf.healthcheck {
        d := d.(conf := d.conf.(hcInterval := conf.hcInterval, hcBlocking := conf.hcBlocking, policy := conf.policy));
      }
    }

    /** refresh_config, and a clean slate for the history of this attempt. */
    method Refresh(n: string) returns (c: Container)
      requires n in containers
      modifies `containers
      ensures c == Refreshed(old(Snapshot()), n) && Snapshot() == Put(old(Snapshot()), n, c)
    {
      c := Configured(containers[n], if n in registry then registry[n] else EMPTY_CONFIG);
      c := c.(hist := c.hist.(parked := None, waitsOn := None));
      containers := containers[n := c];
    }

    /** The dependency loop of launch: goes on past ready and looping dependencies,
      * pulls others up, and defers to the first one that is not ready in time.
      */
    method AwaitDependencies(n: string, timedOut: bool, env: Env) returns (passed: bool)
      requires n in containers && containers[n].desired == Up
      modifies `containers, `jails, `forwarders, `nextPid, `timers
      ensures LaunchDeps(cfg, old(Snapshot()), n, 0, timedOut, env) == Gate(Snapshot(), passed)
      decreases NotUp(Snapshot()), 1, 1
    {
      var deps := containers[n].conf.dependsOn;
      var i := 0;
      while i < |deps|
        invariant 0 <= i <= |deps| && InLoop(old(Snapshot()), Snapshot(), n, deps)
        invariant LaunchDeps(cfg, old(Snapshot()), n, 0, timedOut, env) == LaunchDeps(cfg, Snapshot(), n, i, timedOut, env)
      {
        var go := AwaitDependency(n, deps, i, timedOut, env, old(Snapshot()));
        if !go { return false; }
        i := i + 1;
      }
      return true;
    }

    /** One round of that loop. */
    method AwaitDependency(n: string, deps: seq<string>, i: nat, timedOut: bool, env: Env, ghost before: State) returns (go: bool)
      requires i < |deps| && InLoop(before, Snapshot(), n, deps)
      modifies `containers, `jails, `forwarders, `nextPid, `timers
      ensures LaunchDeps(cfg, old(Snapshot()), n, i, timedOut, env) ==
        if go && InLoop(before, Snapshot(), n, deps) then LaunchDeps(cfg, Snapshot(), n, i + 1, timedOut, env)
        else Gate(Snapshot(), false)
      ensures go ==> InLoop(before, Snapshot(), n, deps)
      decreases NotUp(Snapshot()), 1, 0
    {
      var dep := deps[i];
      if dep == n || dep !in containers { return true; }
      var running := containers[dep].pid != 0 || dep in env.alive;
      var ready := running && (containers[dep].conf.hcInterval <= 0 || containers[dep].hc.health == Healthy);
      if ready { return true; }
      var cycle, _ := DepCycle(RegistryGraph(registry), n, dep);
      if cycle != "" {
        PullUp(n, dep, deps, running, env, before);
        return true;
      }
      if timedOut { return true; }
      PullUp(n, dep, deps, running, env, before);
      DeferTo(n, dep);
      return false;
    }

    /** What stays true of n and of the measure while its dependencies are seen to. */
    ghost predicate InLoop(before: State, s: State, n: string, deps: seq<string>) {
      && n in s.containers && s.containers[n].desired == Up && s.containers[n].conf.dependsOn == deps
      && NotUp(s) <= NotUp(before)
    }

    method PullUp(n: string, dep: string, deps: seq<string>, running: bool, env: Env, ghost before: State)
      requires dep in containers && dep != n && InLoop(before, Snapshot(), n, deps)
      requires running == DepRunning(Snapshot(), dep, env)
      modifies `containers, `jails, `forwarders, `nextPid, `timers
      ensures Snapshot() == Pull(cfg, old(Snapshot()), dep, env)
      ensures InLoop(before, Snapshot(), n, deps)
      decreases NotUp(Snapshot()), 0
    {
      ghost var s := Snapshot();
      if !running && containers[dep].desired != Up {
        StartContainer(dep, env);
      }
      assert LeftAlone(s, Snapshot(), dep, n);
    }

    method DeferTo(n: string, dep: string)
      requires n in containers
      modifies `containers, `timers
      ensures Snapshot() == Defer(cfg, old(Snapshot()), n, dep)
    {
      var c := containers[n];
      if c.depWaitSince == 0 {
        c := c.(depWaitSince := now);
      }
      containers := containers[n := c.(hist := c.hist.(waitsOn := Some(dep), waitedAt := now))];
      ScheduleRelaunch(n, cfg.restartDelay);
    }

    /** start */
    method StartContainer(n: string, env: Env)
      requires n in containers
      modifies `containers, `jails, `forwarders, `nextPid, `timers
      ensures Snapshot() == Start(cfg, old(Snapshot()), n, env)
      decreases NotUp(Snapshot()) - {n}, 3
    {
      if !ValidName(n) || containers[n].conf.bundle == "" { return; }
      ghost var s0 := Snapshot();
      var c := containers[n];
      c := c.(desired := Up, crashCount := 0, depWaitSince := 0, infraWaitSince := 0,
              hist := c.hist.(relaunches := 0, ranStable := false, waitsOn := None));
      LeavesPut(s0, n, c);
      containers := containers[n := c];
      if c.pid == 0 {
        LaunchContainer(n, env);
      }
    }

    // ---- exits -----------------------------------------------------------------------

    /** schedule_respawn */
    method ApplyRestartPolicy(n: string)
      requires n in containers
      modifies `containers, `timers
      ensures Snapshot() == ScheduleRespawn(cfg, old(Snapshot()), n)
    {
      var c := containers[n];
      var up := if c.started != 0 then now - c.started else 0;
      c := c.(started := 0);
      containers := containers[n := c];
      assert Snapshot() == Put(old(Snapshot()), n, c);
      if c.desired != Up { return; }
      if !c.conf.respawn {
        LeaveDown(n, RespawnOff);
        return;
      }
      BackOff(n, up);
    }

    method BackOff(n: string, up: int)
      requires n in containers && containers[n].desired == Up
      modifies `containers, `timers
      ensures Snapshot() == CrashPolicy(cfg, old(Snapshot()), n, up)
    {
      var c := Counted(containers[n], up);
      containers := containers[n := c];
      if c.desired == Up {
        var delay := RestartDelay(c.crashCount);
        ScheduleRelaunch(n, delay);
      }
    }

    /** The crash counter, and giving up. */
    method Counted(c: Container, up: int) returns (d: Container)
      ensures d == Crashed(cfg, c, up)
    {
      d := c.(crashCount := if up >= STABLE_SECS then 0 else c.crashCount + 1);
      if cfg.maxRestarts > 0 && d.crashCount > cfg.maxRestarts {
        d := d.(desired := Down);
        return;
      }
      var h := c.hist;
      h := if up >= STABLE_SECS then h.(relaunches := 1, ranStable := true) else h.(relaunches := h.relaunches + 1);
      d := d.(restarts := c.restarts + 1, hist := h);
    }

    method RestartDelay(count: nat) returns (delay: nat)
      ensures delay == Backoff(cfg, count)
    {
      var shift: nat := if count > 0 then count - 1 else 0;
      if shift > 5 { shift := 5; }
      delay := Shifted(cfg.restartDelay, shift);
      if delay > cfg.restartMaxDelay { delay := cfg.restartMaxDelay; }
    }

    /** hc_worker_cancel */
    method CancelHealthWorker(n: string)
      requires n in containers
      modifies `containers, `workers
      ensures Snapshot() == CancelWorker(old(Snapshot()), n)
    {
      var c := containers[n];
      if c.hcWorker == 0 { return; }
      workers := workers - {c.hcWorker};
      containers := containers[n := c.(hcWorker := 0)];
    }

    method ForgetInstance(n: string)
      requires n in containers
      modifies `containers, `jails, `forwarders
      ensures Snapshot() == Gone(old(Snapshot()), n)
    {
      var c := containers[n];
      jails := jails - {c.pid};
      containers := containers[n := c.(pid := 0, adopted := false, hc := c.hc.(health := Unknown))];
      StopPortForwards(n);
    }

    /** proc_exit_cb */
    method ProcExit(n: string)
      requires n in containers
      modifies `containers, `jails, `forwarders, `workers, `timers
      ensures Snapshot() == JailExit(cfg, old(Snapshot()), n)
    {
      ForgetInstance(n);
      CancelHealthWorker(n);
      if n !in registry {
        containers := containers - {n};
        return;
      }
      ApplyRestartPolicy(n);
    }

    /** One dead container of adopt_watchdog. */
    method AdoptedDied(n: string)
      requires n in containers
      modifies `containers, `jails, `forwarders, `timers
      ensures Snapshot() == AdoptedExit(cfg, old(Snapshot()), n)
    {
      ForgetInstance(n);
      ApplyRestartPolicy(n);
    }

    // ---- operator calls ----------------------------------------------------------------

    /** signal_and_reap */
    method Signal(n: string, target: nat)
      modifies `signalled, `timers
      ensures Snapshot() == SignalAndReap(old(Snapshot()), n, target)
    {
      signalled := signalled + {target};
      timers := timers + multiset{GraceKill(n, target)};
    }

    method EnsureContainer(n: string)
      modifies `containers
      ensures Snapshot() == Ensure(old(Snapshot()), n) && n in containers
    {
      if n in containers { return; }
      var c := Configured(FRESH_CONTAINER, if n in registry then registry[n] else EMPTY_CONFIG);
      containers := containers[n := c];
    }

    method StartCall(n: string, env: Env)
      modifies `containers, `jails, `forwarders, `nextPid, `timers
      ensures Snapshot() == OperatorStart(cfg, old(Snapshot()), n, env)
    {
      if !ValidName(n) { return; }
      EnsureContainer(n);
      StartContainer(n, env);
    }

    /** stop */
    method StopCall(n: string)
      modifies `containers, `signalled, `timers
      ensures Snapshot() == Stop(old(Snapshot()), n)
    {
      if !ValidName(n) || n !in containers { return; }
      var c := containers[n];
      containers := containers[n := c.(desired := Down)];
      if c.pid == 0 { return; }
      Signal(n, c.pid);
    }

    /** restart */
    method RestartCall(n: string, env: Env)
      modifies `containers, `jails, `forwarders, `nextPid, `signalled, `timers
      ensures Snapshot() == Restart(cfg, old(Snapshot()), n, env)
    {
      if !ValidName(n) { return; }
      EnsureContainer(n);
      var c := containers[n];
      if c.conf.bundle == "" { return; }
      containers := containers[n := c.(desired := Up, crashCount := 0, hist := c.hist.(relaunches := 0, ranStable := false))];
      if c.pid != 0 {
        Signal(n, c.pid);
      } else {
        LaunchContainer(n, env);
      }
    }

    /** setconfig */
    method SetConfigCall(n: string, conf: Config)
      modifies `containers, `registry
      ensures Snapshot() == SetConfig(old(Snapshot()), n, conf)
    {
      if !ValidName(n) || conf.bundle == "" { return; }
      registry := registry[n := conf];
      if n in containers {
        var c := Configured(containers[n], conf);
        containers := containers[n := c];
      }
    }

    /** remove */
    method RemoveCall(n: string)
      modifies `containers, `registry, `workers, `signalled, `timers
      ensures Snapshot() == Remove(old(Snapshot()), n)
    {
      if !ValidName(n) { return; }
      registry := registry - {n};
      if n !in containers { return; }
      if containers[n].pid != 0 {
        StopCall(n);
        return;
      }
      CancelHealthWorker(n);
      containers := containers - {n};
    }

    method TakeOver(n: string)
      requires n in containers
      modifies `containers, `jails, `nextPid
      ensures Snapshot() == TakenOver(old(Snapshot()), n)
    {
      var c := containers[n];
      jails := jails[nextPid := n];
      containers := containers[n := c.(pid := nextPid, adopted := true, desired := Up, started := now,
                                       infraWasUp := c.infraWasUp || c.conf.infra != "")];
      nextPid := nextPid + 1;
    }

    /** The adoption of one running jail in init. */
    method AdoptJail(n: string, env: Env)
      requires n !in containers
      modifies `containers, `jails, `forwarders, `nextPid, `timers
      ensures Snapshot() == Adopt(old(Snapshot()), n, env)
    {
      EnsureContainer(n);
      var publishes := containers[n].conf.publishes;
      TakeOver(n);
      ScheduleHealthTick(n);
      if publishes {
        StartPortForwards(n, env);
      }
    }

    // ---- health -------------------------------------------------------------------------

    /** apply_health_verdict */
    method Verdict(n: string, ok: bool, on: nat)
      requires n in containers
      modifies `containers, `signalled, `timers
      ensures Snapshot() == Judge(old(Snapshot()), n, ok, on)
    {
      var c := containers[n];
      var h, restart := NewHealth(c, ok);
      containers := containers[n := c.(hc := h, hist := if ok then c.hist.(passedOn := on) else c.hist)];
      if restart {
        Signal(n, c.pid);
      }
    }

    method NewHealth(c: Container, ok: bool) returns (h: HealthState, restart: bool)
      ensures var r := ApplyVerdict(c.conf.policy, c.hc, ok, c.started, c.pid, now); h == r.state && restart == r.restart
    {
      if ok { return HealthState(Healthy, 0), false; }
      var grace := c.conf.policy.startPeriod;
      if grace > 0 && c.started != 0 && now - c.started < grace { return c.hc, false; }
      h := c.hc.(fails := c.hc.fails + 1);
      if h.fails < c.conf.policy.retries { return h, false; }
      if c.conf.policy.restart && c.pid != 0 { return HealthState(Unknown, 0), true; }
      return h.(health := Unhealthy), false;
    }

    /** run_health_check */
    method RunHealthCheck(n: string, probe: Probe)
      requires n in containers
      modifies `containers, `workers, `nextPid, `signalled, `timers
      ensures Snapshot() == HealthCycle(old(Snapshot()), n, probe)
    {
      var c := containers[n];
      if c.pid == 0 {
        containers := containers[n := c.(hc := HealthState(Unknown, 0))];
        return;
      }
      if c.hcWorker != 0 { return; }
      if !c.conf.hcBlocking {
        Verdict(n, probe.resourceOk, c.pid);
        return;
      }
      containers := containers[n := c.(hcResourceOk := probe.resourceOk)];
      if !probe.workerStarts {
        Verdict(n, probe.resourceOk, c.pid);
        return;
      }
      ForkWorker(n);
    }

    method ForkWorker(n: string)
      requires n in containers
      modifies `containers, `workers, `nextPid
      ensures Snapshot() == WorkerStart(old(Snapshot()), n)
    {
      var c := containers[n];
      workers := workers[nextPid := n];
      containers := containers[n := c.(hcWorker := nextPid, hist := c.hist.(workerOn := c.pid))];
      nextPid := nextPid + 1;
    }

    /** health_worker_exit_cb */
    method WorkerExited(n: string, ok: bool)
      requires n in containers
      modifies `containers, `workers, `signalled, `timers
      ensures Snapshot() == WorkerExit(old(Snapshot()), n, ok)
    {
      var c := containers[n];
      CancelHealthWorker(n);
      Verdict(n, c.hcResourceOk && ok, c.hist.workerOn);
    }

    /** fwd_exit_cb */
    method ForwarderExited(n: string)
      requires n in containers
      modifies `containers, `forwarders, `timers
      ensures Snapshot() == ForwarderExit(old(Snapshot()), n)
    {
      var c := containers[n];
      forwarders := forwarders - {c.fwdPid};
      c := c.(fwdPid := 0);
      containers := containers[n := c];
      if c.pid == 0 || c.desired != Up { return; }
      RetryForwarder(n);
    }

    method RetryForwarder(n: string)
      requires n in containers
      modifies `containers, `timers
      ensures Snapshot() == ForwarderRetry(old(Snapshot()), n)
    {
      var c := containers[n];
      if c.fwdRestarts + 1 > FWD_MAX_RESTARTS {
        containers := containers[n := c.(fwdRestarts := c.fwdRestarts + 1, fwdError := true)];
        return;
      }
      containers := containers[n := c.(fwdRestarts := c.fwdRestarts + 1, hist := c.hist.(fwdArmed := c.hist.fwdArmed + 1))];
      timers := timers + multiset{FwdRetry(n)};
    }

    // ---- safe update ----------------------------------------------------------------------

    method NewWatch(n: string, c: Container, base: nat, first: nat) returns (t: Timer)
      ensures t == WatchFor(cfg, now, n, c, base, first)
    {
      var window := cfg.safeUpdateWindow + c.conf.policy.startPeriod;
      t := Watch(n, now + (if window > 0 then window else 1), base, first);
    }

    /** The setconfig with which recorded provenance is written into the entry. */
    method WriteProvenance(n: string, recorded: bool)
      modifies `containers, `registry
      ensures Snapshot() == Rewritten(old(Snapshot()), n, recorded)
    {
      if recorded {
        SetConfigCall(n, if n in registry then registry[n] else EMPTY_CONFIG);
      }
    }

    /** rollback, with the renames reduced to their success. */
    method RollbackCall(n: string, recorded: bool, swapOk: bool, env: Env)
      modifies this
      ensures Snapshot() == OperatorRollback(cfg, old(Snapshot()), n, recorded, swapOk, env)
    {
      if !ValidName(n) || n !in registry || registry[n].bundle == "" || !swapOk { return; }
      WriteProvenance(n, recorded);
      RestartCall(n, env);
    }

    /** job_exit_cb for a finished upgrade of n, with the registry part abbreviated to
      * writing the entry back.
      */
    method UpgradeExited(n: string, hadPrev: bool, env: Env)
      modifies this
      ensures Snapshot() == UpgradeDone(cfg, old(Snapshot()), n, hadPrev, env)
    {
      var base := if n in containers then containers[n].started else 0;
      var gate := cfg.safeUpdate && n in containers && containers[n].conf.hcInterval > 0;
      if gate {
        containers := containers[n := containers[n].(lastUpdate := NoResult)];
      }
      WriteProvenance(n, hadPrev);
      var first := nextPid;
      RestartCall(n, env);
      if gate && n in containers {
        var t := NewWatch(n, containers[n], base, first);
        timers := timers + multiset{t};
      }
    }

    /** A poll of watch_health, and the callback it ends with. */
    method PollWatch(t: Timer, probe: Probe, env: Env)
      requires t.Watch? && t in timers
      modifies this
      ensures Snapshot() == WatchPoll(cfg, old(Snapshot()), t, probe, env)
    {
      var n := t.name;
      if n !in containers {
        timers := timers - multiset{t};
        return;
      }
      var c := containers[n];
      if c.hc.health == Healthy && c.started > t.after {
        timers := timers - multiset{t};
        containers := containers[n := c.(lastUpdate := Verified)];
        return;
      }
      if now < t.deadline { return; }
      timers := timers - multiset{t};
      if n in registry && registry[n].bundle != "" && probe.swapOk {
        containers := containers[n := c.(lastUpdate := RolledBack)];
        WriteProvenance(n, probe.recorded);
        RestartCall(n, env);
      } else {
        containers := containers[n := c.(lastUpdate := RollbackFailed)];
      }
    }

    // ---- timers -----------------------------------------------------------------------------

    method TimerFired(t: Timer, probe: Probe, env: Env)
      requires t in timers
      modifies this
      ensures Snapshot() == Fire(cfg, old(Snapshot()), t, probe, env)
    {
      if t.Watch? {
        PollWatch(t, probe, env);
      } else if t.HealthTick? && t.name in containers && containers[t.name].conf.hcInterval > 0 {
        RunHealthCheck(t.name, probe);
      } else {
        ghost var s0 := Snapshot();
        timers := timers - multiset{t};
        if t.name in containers {
          OneShot(t, probe, env, s0);
        }
      }
    }

    /** The timers that fire once, each checking what it finds. */
    method OneShot(t: Timer, probe: Probe, env: Env, ghost s0: State)
      requires !t.Watch? && t.name in containers && t in s0.timers && Snapshot() == Disarm(s0, t)
      requires t.HealthTick? ==> containers[t.name].conf.hcInterval <= 0
      modifies this
      ensures Snapshot() == Fire(cfg, s0, t, probe, env)
    {
      var n := t.name;
      var c := containers[n];
      match t
      case Relaunch(_, _) =>
        if c.desired == Up && c.pid == 0 { LaunchContainer(n, env); }
      case GraceKill(_, target) =>
        if c.pid == target { killed := killed + {target}; }
      case HealthTick(_) =>
        containers := containers[n := c.(hcScheduled := false)];
      case FwdRetry(_) =>
        if c.pid != 0 && c.desired == Up && c.fwdPid == 0 { StartPortForwards(n, env); }
      case FwdCheck(_, was) =>
        if c.fwdPid == was && probe.forwarderDead {
          forwarders := forwarders - {was};
          containers := containers[n := c.(fwdPid := 0, fwdError := true)];
        }
      case FwdDeferred(_, launched) =>
        if c.pid == launched && c.fwdPid == 0 { StartPortForwards(n, env); }
    }

    // ---- the loop ---------------------------------------------------------------------------

    /** uloop hands over one event at the time of env. The daemon takes a step of the
      * state machine; it stays safe, and kills nothing but the signalled instance that a
      * container runs at this moment, when its grace period is over.
      */
    method Handle(env: Env, e: Event)
      requires Enabled(Snapshot(), env, e)
      modifies this
      ensures Snapshot() == Step(cfg, old(Snapshot()), env, e)
      ensures Inv(cfg, old(Snapshot())) ==> Inv(cfg, Snapshot()) && Safe(Snapshot())
      ensures Inv(cfg, old(Snapshot())) ==> forall p | p in killed && p !in old(killed) :: JustKilled(old(Snapshot()), e, p)
    {
      ghost var before := Snapshot();
      Dispatch(env, e);
      if Inv(cfg, before) {
        StepKeeps(cfg, before, env, e);
        InvIsSafe(cfg, Snapshot());
        forall p | p in killed && p !in before.killed ensures JustKilled(before, e, p) {
          KillHitsTheRunningInstance(cfg, before, env, e, p);
        }
      }
    }

    /** The daemon from its start: whatever comes in, it goes through the states of the
      * run and is safe in the end, hence at any time.
      */
    method Run(moments: seq<Moment>, ghost states: seq<State>)
      requires IsRun(cfg, states, moments) && states[0] == Snapshot() && Initial(Snapshot())
      modifies this
      ensures Snapshot() == states[|moments|] && Inv(cfg, Snapshot()) && Safe(Snapshot())
    {
      InitialKeeps(cfg, Snapshot());
      InvIsSafe(cfg, Snapshot());
      var i := 0;
      while i < |moments|
        invariant 0 <= i <= |moments| && Snapshot() == states[i]
        invariant Inv(cfg, Snapshot()) && Safe(Snapshot())
      {
        Handle(moments[i].env, moments[i].event);
        i := i + 1;
      }
    }

    method Dispatch(env: Env, e: Event)
      requires Enabled(Snapshot(), env, e)
      modifies this
      ensures Snapshot() == Step(cfg, old(Snapshot()), env, e)
    {
      now := env.now;
      match e
      case CallStart(n) => StartCall(n, env);
      case CallStop(n) => StopCall(n);
      case CallRestart(n) => RestartCall(n, env);
      case CallSetConfig(n, conf) => SetConfigCall(n, conf);
      case CallRemove(n) => RemoveCall(n);
      case CallRollback(n, recorded, swapOk) => RollbackCall(n, recorded, swapOk, env);
      case EditRegistry(r) => registry := r;
      case Learn(n) => EnsureContainer(n);
      case AdoptRunning(n) => AdoptJail(n, env);
      case JailExits(p) => ProcExit(jails[p]);
      case AdoptedGone(n) => AdoptedDied(n);
      case WorkerExits(p, ok) => WorkerExited(workers[p], ok);
      case ForwarderExits(p) => ForwarderExited(forwarders[p]);
      case TimerFires(t, probe) => TimerFired(t, probe, env);
      case UpgradeFinished(n, hadPrev) => UpgradeExited(n, hadPrev, env);
    }
  }
}
