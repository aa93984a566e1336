/** What a launch does bring about: the dependencies that are not there are started, the
  * container waits for one of them or is forked, and who is not forked is tried again or
  * has a reason to stay down.
  */
module SupervisorLaunches {
  import opened Wrappers
  import opened DependencyGraph
  import opened Health
  import opened Supervisor
  import opened SupervisorPorts

  // ---- one container's attempt -----------------------------------------------------------

  /** Everything a launch needs besides its dependencies. */
  predicate Unhindered(entry: Config, n: string, env: Env) {
    && entry.bundle != "" && (forall m | m in entry.reqMounts :: m in env.mounted)
    && (entry.infra == "" || entry.infra in env.netns)
    && ((entry.infra == "" && !entry.overrides) || n in env.shadowOk)
    && n in env.pipeOk && n in env.forkOk
  }

  /** The record has what the registry entry says. */
  predicate Configured(conf: Config, entry: Config) {
    && conf.bundle == entry.bundle && conf.infra == entry.infra && conf.respawn == entry.respawn
    && conf.dependsOn == entry.dependsOn && conf.reqMounts == entry.reqMounts
    && conf.overrides == entry.overrides && conf.publishes == entry.publishes
    && conf.healthcheck == entry.healthcheck
    && if entry.healthcheck then
         conf.hcInterval == entry.hcInterval && conf.hcBlocking == entry.hcBlocking && conf.policy == entry.policy
       else conf.hcInterval == 0
  }

  /** The published ports of n are served by a forwarder forked now, or the record says
    * that they are not and it is tried again.
    */
  predicate PortsSeenTo(s: State, s': State, n: string, env: Env)
    requires n in s'.containers
  {
    var d := s'.containers[n];
    if n in env.fwdSpecs && n in env.fwdForkOk then d.fwdPid >= s.nextPid && FwdCheck(n, d.fwdPid) in s'.timers
    else d.fwdPid == 0 && d.fwdError && FwdDeferred(n, d.pid) in s'.timers
  }

  /** n runs a process forked now, is probed if it has a healthcheck, and its ports are
    * seen to.
    */
  predicate ForkedNow(s: State, s': State, n: string, env: Env)
    requires n in s'.containers
  {
    var d, entry := s'.containers[n], ReadConfig(s, n);
    && d.pid >= s.nextPid && d.started == s.now && !d.adopted
    && (entry.healthcheck && entry.hcInterval > 0 ==> d.hcScheduled)
    && (entry.publishes ==> PortsSeenTo(s, s', n, env))
  }

  predicate RetriedNow(cfg: Settings, s: State, s': State, n: string)
    requires n in s'.containers
  {
    s'.containers[n].pid == 0 && s'.timers[Relaunch(n, cfg.restartDelay)] > s.timers[Relaunch(n, cfg.restartDelay)]
  }

  predicate ParkedNow(s: State, s': State, n: string, env: Env)
    requires n in s'.containers
  {
    && s'.containers[n].pid == 0
    && match s'.containers[n].hist.parked
       case None => false
       case Some(why) =>
         match why
         case NoBundle => ReadConfig(s, n).bundle == ""
         case PipeFailed => n !in env.pipeOk
         case ForkFailed => n in env.pipeOk && n !in env.forkOk
         case RespawnOff => false
  }

  /** n is wanted up and was forked, will be tried again, or has a reason to stay down. */
  predicate Attempted(cfg: Settings, s: State, s': State, n: string, env: Env) {
    && n in s'.containers && s'.containers[n].desired == Up && Configured(s'.containers[n].conf, ReadConfig(s, n))
    && (ForkedNow(s, s', n, env) || RetriedNow(cfg, s, s', n) || ParkedNow(s, s', n, env))
  }

  /** What does not change in a launch. */
  predicate SamePolicy(c: Container, d: Container) {
    && d.crashCount == c.crashCount && d.restarts == c.restarts && d.lastUpdate == c.lastUpdate
    && d.hist.relaunches == c.hist.relaunches && d.hist.ranStable == c.hist.ranStable
  }

  predicate Wanting(s: State, n: string) {
    n in s.containers && s.containers[n].desired == Up && s.containers[n].pid == 0 && s.nextPid > 0
  }

  /** The end of a launch that is not held up. */
  lemma SpawnServes(s: State, n: string, env: Env)
    requires Wanting(s, n) && Configured(s.containers[n].conf, ReadConfig(s, n)) && n in env.pipeOk && n in env.forkOk
    ensures var s' := Spawn(s, n, env);
      && ForkedNow(s, s', n, env) && s'.containers[n].desired == Up && s'.containers[n].conf == s.containers[n].conf
      && SamePolicy(s.containers[n], s'.containers[n]) && SameInfra(s.containers[n], s'.containers[n])
  {
    var s1 := ScheduleHealth(Running(s, n), n);
    RunningTicks(s, n);
    DeferredServes(s1, n, env);
    assert Spawn(s, n, env) == StartForwardsDeferred(s1, n, env);
  }

  /** The infra is missing, was never up for this container, and has been waited for long
    * enough.
    */
  predicate Hopeless(now: nat, c: Container, entry: Config, env: Env) {
    && entry.infra != "" && entry.infra !in env.netns && !c.infraWasUp
    && c.infraWaitSince != 0 && now - c.infraWaitSince >= INFRA_WAIT_SECS
  }

  /** What a launch that began with the record c comes to when no dependency holds it up:
    * it forks exactly if nothing else is in the way, and gives up on nothing but a
    * hopeless infra.
    */
  predicate Ended(cfg: Settings, s: State, s': State, n: string, c: Container, env: Env)
    requires n in s'.containers
  {
    var entry, d := ReadConfig(s, n), s'.containers[n];
    && (ForkedNow(s, s', n, env) <==> Unhindered(entry, n, env))
    && (Attempted(cfg, s, s', n, env) || (d.desired == Down && d.pid == 0 && Hopeless(s.now, c, entry, env)))
    && d.hist.waitsOn == None && d.depWaitSince == 0 && InfraRecorded(c, d, entry, s.now, env)
  }

  /** The same clock and memory of the infra. */
  predicate SameInfra(c: Container, d: Container) {
    d.infraWaitSince == c.infraWaitSince && d.infraWasUp == c.infraWasUp && d.desired == c.desired
  }

  /** How a launch leaves off with the infra: one that is there is remembered, one that is
    * missing is waited for from now on, or given up if it is hopeless.
    */
  predicate InfraRecorded(c: Container, d: Container, entry: Config, now: nat, env: Env) {
    if exists m | m in entry.reqMounts :: m !in env.mounted then SameInfra(c, d)
    else if entry.infra == "" || entry.infra in env.netns then d.infraWasUp && d.infraWaitSince == 0 && d.desired == Up
    else
      && d.infraWasUp == c.infraWasUp
      && if Hopeless(now, c, entry, env) then d.desired == Down && d.infraWaitSince == 0
         else d.desired == Up && d.infraWaitSince == if c.infraWaitSince == 0 then now else c.infraWaitSince
  }

  lemma SpawnEnds(cfg: Settings, s: State, n: string, env: Env)
    requires Wanting(s, n) && Configured(s.containers[n].conf, ReadConfig(s, n)) && ReadConfig(s, n).bundle != ""
    ensures var s' := Spawn(s, n, env);
      && Attempted(cfg, s, s', n, env) && (ForkedNow(s, s', n, env) <==> n in env.pipeOk && n in env.forkOk)
      && SamePolicy(s.containers[n], s'.containers[n]) && SameInfra(s.containers[n], s'.containers[n])
  {
    if n !in env.pipeOk {
      ParkEnds(s, n, PipeFailed, env);
    } else if n !in env.forkOk {
      ParkEnds(s, n, ForkFailed, env);
    } else {
      SpawnServes(s, n, env);
    }
  }

  lemma ParkEnds(s: State, n: string, why: ParkReason, env: Env)
    requires Wanting(s, n)
    ensures var s' := Park(s, n, why); var c, d := s.containers[n], s'.containers[n];
      && d.pid == 0 && d.desired == Up && d.conf == c.conf && SamePolicy(c, d) && SameInfra(c, d) && d.hist.parked == Some(why)
      && !ForkedNow(s, s', n, env)
  {
  }

  lemma ShadowEnds(cfg: Settings, s: State, n: string, env: Env)
    requires Wanting(s, n) && Configured(s.containers[n].conf, ReadConfig(s, n)) && ReadConfig(s, n).bundle != ""
    ensures var s', entry := ShadowAndSpawn(cfg, s, n, env), ReadConfig(s, n);
      && Attempted(cfg, s, s', n, env) && SamePolicy(s.containers[n], s'.containers[n]) && SameInfra(s.containers[n], s'.containers[n])
      && (ForkedNow(s, s', n, env) <==>
            ((entry.infra == "" && !entry.overrides) || n in env.shadowOk) && n in env.pipeOk && n in env.forkOk)
  {
    SpawnEnds(cfg, s, n, env);
    RetryCounts(cfg, s, n);
  }

  lemma RetryCounts(cfg: Settings, s: State, n: string)
    requires n in s.containers
    ensures s.containers[n].pid == 0 ==> RetriedNow(cfg, s, Retry(cfg, s, n), n)
  {
  }

  lemma AwaitEnds(cfg: Settings, s: State, n: string, env: Env)
    requires Wanting(s, n) && Configured(s.containers[n].conf, ReadConfig(s, n)) && s.now > 0
    requires !InfraUp(s.containers[n], env)
    ensures var s' := AwaitInfra(cfg, s, n);
      && s'.containers[n].pid == 0 && SamePolicy(s.containers[n], s'.containers[n]) && s'.containers[n].conf == s.containers[n].conf
      && (Attempted(cfg, s, s', n, env) || (s'.containers[n].desired == Down && Hopeless(s.now, s.containers[n], ReadConfig(s, n), env)))
      && (MountsMissing(s.containers[n], env) || InfraRecorded(s.containers[n], s'.containers[n], ReadConfig(s, n), s.now, env))
  {
    var c0 := s.containers[n];
    var c := if c0.infraWaitSince == 0 then c0.(infraWaitSince := s.now) else c0;
    if !c.infraWasUp && s.now - c.infraWaitSince >= INFRA_WAIT_SECS {
      GivesUp(cfg, s, n, c, env);
    } else {
      assert AwaitInfra(cfg, s, n) == Retry(cfg, Put(s, n, c), n);
      RetryAttempts(cfg, s, n, c, env);
    }
  }

  lemma GivesUp(cfg: Settings, s: State, n: string, c: Container, env: Env)
    requires Wanting(s, n) && s.now > 0 && !InfraUp(s.containers[n], env) && Configured(s.containers[n].conf, ReadConfig(s, n))
    requires var c0 := s.containers[n]; c == if c0.infraWaitSince == 0 then c0.(infraWaitSince := s.now) else c0
    requires !c.infraWasUp && s.now - c.infraWaitSince >= INFRA_WAIT_SECS
    ensures var s', entry := AwaitInfra(cfg, s, n), ReadConfig(s, n);
      && s'.containers[n] == c.(desired := Down, infraWaitSince := 0) && Hopeless(s.now, s.containers[n], entry, env)
  {
  }

  lemma RetryAttempts(cfg: Settings, s: State, n: string, c: Container, env: Env)
    requires Wanting(s, n) && Configured(s.containers[n].conf, ReadConfig(s, n)) && c == s.containers[n].(infraWaitSince := c.infraWaitSince)
    ensures var s' := Retry(cfg, Put(s, n, c), n); Attempted(cfg, s, s', n, env) && s'.containers[n] == c
  {
    RetryCounts(cfg, Put(s, n, c), n);
  }

  lemma JoinEnds(cfg: Settings, s: State, n: string, env: Env)
    requires Wanting(s, n) && Configured(s.containers[n].conf, ReadConfig(s, n)) && ReadConfig(s, n).bundle != "" && s.now > 0
    ensures var s', entry := JoinInfra(cfg, s, n, env), ReadConfig(s, n);
      && SamePolicy(s.containers[n], s'.containers[n]) && Configured(s'.containers[n].conf, entry)
      && (ForkedNow(s, s', n, env) <==>
            && (entry.infra == "" || entry.infra in env.netns)
            && ((entry.infra == "" && !entry.overrides) || n in env.shadowOk) && n in env.pipeOk && n in env.forkOk)
      && (Attempted(cfg, s, s', n, env)
          || (s'.containers[n].desired == Down && s'.containers[n].pid == 0 && Hopeless(s.now, s.containers[n], entry, env)))
      && (MountsMissing(s.containers[n], env) || InfraRecorded(s.containers[n], s'.containers[n], entry, s.now, env))
  {
    var c := s.containers[n];
    if !InfraUp(c, env) {
      AwaitEnds(cfg, s, n, env);
    } else {
      ShadowEnds(cfg, Put(s, n, c.(infraWaitSince := 0, infraWasUp := true)), n, env);
    }
  }

  lemma ReadyEnds(cfg: Settings, s: State, n: string, env: Env)
    requires Wanting(s, n) && Configured(s.containers[n].conf, ReadConfig(s, n)) && ReadConfig(s, n).bundle != "" && s.now > 0
    requires s.containers[n].hist.waitsOn == None
    ensures var s' := LaunchReady(cfg, s, n, env);
      && Ended(cfg, s, s', n, s.containers[n], env) && SamePolicy(s.containers[n], s'.containers[n])
      && Configured(s'.containers[n].conf, ReadConfig(s, n))
  {
    if MountsMissing(s.containers[n], env) {
      MountsEnd(cfg, s, n, env);
    } else {
      MountedEnds(cfg, s, n, env);
    }
  }

  lemma MountedEnds(cfg: Settings, s: State, n: string, env: Env)
    requires Wanting(s, n) && Configured(s.containers[n].conf, ReadConfig(s, n)) && ReadConfig(s, n).bundle != "" && s.now > 0
    requires s.containers[n].hist.waitsOn == None && !MountsMissing(s.containers[n], env)
    ensures var s' := LaunchReady(cfg, s, n, env);
      && Ended(cfg, s, s', n, s.containers[n], env) && SamePolicy(s.containers[n], s'.containers[n])
      && Configured(s'.containers[n].conf, ReadConfig(s, n))
  {
    var s1 := Put(s, n, s.containers[n].(depWaitSince := 0));
    JoinEnds(cfg, s1, n, env);
    var s' := JoinInfra(cfg, s1, n, env);
    assert LaunchReady(cfg, s, n, env) == s';
    assert Attempted(cfg, s1, s', n, env) ==> Attempted(cfg, s, s', n, env);
  }

  lemma MountsEnd(cfg: Settings, s: State, n: string, env: Env)
    requires Wanting(s, n) && Configured(s.containers[n].conf, ReadConfig(s, n)) && MountsMissing(s.containers[n], env)
    ensures var s' := LaunchReady(cfg, s, n, env);
      && Attempted(cfg, s, s', n, env) && !ForkedNow(s, s', n, env) && !Unhindered(ReadConfig(s, n), n, env)
      && s'.containers[n] == s.containers[n].(depWaitSince := 0)
  {
    RetryCounts(cfg, Put(s, n, s.containers[n].(depWaitSince := 0)), n);
  }

  lemma RunningTicks(s: State, n: string)
    requires Wanting(s, n)
    ensures var s' := ScheduleHealth(Running(s, n), n); var c, d := s.containers[n], s'.containers[n];
      && d == c.(pid := s.nextPid, adopted := false, started := s.now, hcScheduled := d.hcScheduled)
      && (c.conf.hcInterval > 0 ==> d.hcScheduled) && s'.nextPid > s.nextPid
  {
  }

  // ---- dependencies ------------------------------------------------------------------------

  /** The container dep runs, and is healthy if it has a healthcheck. */
  predicate Serves(s: State, dep: string, env: Env)
    requires dep in s.containers
  {
    var d := s.containers[dep];
    (d.pid != 0 || dep in env.alive) && (d.conf.hcInterval > 0 ==> d.hc.health == Healthy)
  }

  /** If m has changed it was down and not wanted, could be started, and was. */
  predicate RaisedAt(cfg: Settings, s: State, s': State, m: string, env: Env) {
    m in s.containers && m in s'.containers && s'.containers[m] != s.containers[m] ==>
      && s.containers[m].desired == Down && s.containers[m].pid == 0 && m !in env.alive
      && ValidName(m) && s.containers[m].conf.bundle != ""
      && Attempted(cfg, s, s', m, env) && s'.containers[m].crashCount == 0
  }

  /** s' comes after s in one callback: all that changed but those in x were started. */
  ghost predicate Later(cfg: Settings, s: State, s': State, x: set<string>, env: Env) {
    && s.containers.Keys <= s'.containers.Keys && s'.registry == s.registry && s'.now == s.now
    && s.timers <= s'.timers && s.nextPid <= s'.nextPid
    && forall m | m !in x :: RaisedAt(cfg, s, s', m, env)
  }

  /** dep was running or wanted, or cannot be started, or has been. */
  predicate BroughtUp(cfg: Settings, s: State, s': State, dep: string, env: Env)
    requires dep in s.containers
  {
    var d := s.containers[dep];
    d.pid != 0 || dep in env.alive || d.desired == Up || !ValidName(dep) || d.conf.bundle == "" || Attempted(cfg, s, s', dep, env)
  }

  /** Why a launch of n need not wait for dep: it serves; or it can lead back to n, but
    * then it has been brought up; or the patience is over.
    */
  ghost predicate Seen(cfg: Settings, s: State, s': State, n: string, dep: string, timedOut: bool, env: Env) {
    dep != n && dep in s.containers ==>
      && dep in s'.containers
      && (Serves(s', dep, env)
          || if Reaches(RegistryGraph(s.registry), dep, n) then BroughtUp(cfg, s, s', dep, env) else timedOut)
  }

  /** A launch of n that began with the record c waits for dep, which it has brought up. */
  ghost predicate DefersTo(cfg: Settings, s: State, s': State, n: string, c: Container, dep: string, timedOut: bool, env: Env) {
    && dep != n && dep in s.containers && !Serves(s, dep, env)
    && !timedOut && !Reaches(RegistryGraph(s.registry), dep, n) && BroughtUp(cfg, s, s', dep, env)
    && n in s'.containers && RetriedNow(cfg, s, s', n)
    && var d := s'.containers[n];
    d.desired == Up && d.hist.waitsOn == Some(dep) && d.depWaitSince == if c.depWaitSince == 0 then s.now else c.depWaitSince
  }

  lemma AttemptedLater(cfg: Settings, s: State, s1: State, s2: State, m: string, env: Env)
    requires Attempted(cfg, s, s1, m, env) && s1.timers <= s2.timers && m in s2.containers && s2.containers[m] == s1.containers[m]
    ensures Attempted(cfg, s, s2, m, env)
  {
  }

  lemma AttemptedEarlier(cfg: Settings, s: State, s1: State, s2: State, m: string, env: Env)
    requires Attempted(cfg, s1, s2, m, env) && s.timers <= s1.timers && s.nextPid <= s1.nextPid
    requires s1.registry == s.registry && s1.now == s.now
    ensures Attempted(cfg, s, s2, m, env)
  {
  }

  lemma RaisedTrans(cfg: Settings, s: State, s1: State, s2: State, m: string, env: Env)
    requires RaisedAt(cfg, s, s1, m, env) && RaisedAt(cfg, s1, s2, m, env) && (m in s.containers ==> m in s1.containers)
    requires s1.registry == s.registry && s1.now == s.now && s.timers <= s1.timers <= s2.timers && s.nextPid <= s1.nextPid
    ensures RaisedAt(cfg, s, s2, m, env)
  {
    if m in s.containers && m in s2.containers && s2.containers[m] != s.containers[m] {
      if s1.containers[m] != s.containers[m] {
        AttemptedLater(cfg, s, s1, s2, m, env);
      } else {
        AttemptedEarlier(cfg, s, s1, s2, m, env);
      }
    }
  }

  lemma LaterTrans(cfg: Settings, s: State, s1: State, s2: State, x: set<string>, env: Env)
    requires Later(cfg, s, s1, x, env) && Later(cfg, s1, s2, x, env)
    ensures Later(cfg, s, s2, x, env)
  {
    forall m | m !in x ensures RaisedAt(cfg, s, s2, m, env) {
      assert RaisedAt(cfg, s, s1, m, env) && RaisedAt(cfg, s1, s2, m, env);
      RaisedTrans(cfg, s, s1, s2, m, env);
    }
  }

  lemma BroughtLater(cfg: Settings, s: State, s1: State, s2: State, n: string, dep: string, env: Env)
    requires dep in s.containers && dep != n && BroughtUp(cfg, s, s1, dep, env) && Later(cfg, s1, s2, {n}, env)
    ensures BroughtUp(cfg, s, s2, dep, env)
  {
    if Attempted(cfg, s, s1, dep, env) {
      assert RaisedAt(cfg, s1, s2, dep, env);
      AttemptedLater(cfg, s, s1, s2, dep, env);
    }
  }

  lemma BroughtEarlier(cfg: Settings, s: State, s1: State, s2: State, n: string, dep: string, env: Env)
    requires dep in s.containers && dep != n && Later(cfg, s, s1, {}, env) && Later(cfg, s1, s2, {n}, env)
    requires BroughtUp(cfg, s1, s2, dep, env)
    ensures BroughtUp(cfg, s, s2, dep, env)
  {
    assert RaisedAt(cfg, s, s1, dep, env) && RaisedAt(cfg, s1, s2, dep, env);
    if s1.containers[dep] != s.containers[dep] {
      AttemptedLater(cfg, s, s1, s2, dep, env);
    } else if Attempted(cfg, s1, s2, dep, env) {
      AttemptedEarlier(cfg, s, s1, s2, dep, env);
    }
  }

  lemma SeenEarlier(cfg: Settings, s: State, s1: State, s2: State, n: string, dep: string, timedOut: bool, env: Env)
    requires Later(cfg, s, s1, {}, env) && Later(cfg, s1, s2, {n}, env) && Seen(cfg, s1, s2, n, dep, timedOut, env)
    ensures Seen(cfg, s, s2, n, dep, timedOut, env)
  {
    if dep != n && dep in s.containers && BroughtUp(cfg, s1, s2, dep, env) { BroughtEarlier(cfg, s, s1, s2, n, dep, env); }
  }

  lemma DefersEarlier(cfg: Settings, s: State, s1: State, s2: State, n: string, c: Container, dep: string, timedOut: bool, env: Env)
    requires Later(cfg, s, s1, {}, env) && Later(cfg, s1, s2, {n}, env) && dep in s.containers
    requires DefersTo(cfg, s1, s2, n, c, dep, timedOut, env)
    ensures DefersTo(cfg, s, s2, n, c, dep, timedOut, env)
  {
    BroughtEarlier(cfg, s, s1, s2, n, dep, env);
    assert RaisedAt(cfg, s, s1, dep, env);
  }

  // ---- the recursion -----------------------------------------------------------------------

  /** How far the dependency loop got, and what it saw to on the way. */
  ghost predicate Looped(cfg: Settings, s: State, g: Gate, n: string, i: nat, k: nat, timedOut: bool, env: Env)
    requires n in s.containers && i <= |s.containers[n].conf.dependsOn|
  {
    var deps := s.containers[n].conf.dependsOn;
    && i <= k <= |deps| && (g.passed <==> k == |deps|) && Later(cfg, s, g.state, {n}, env)
    && (forall j | i <= j < k :: Seen(cfg, s, g.state, n, deps[j], timedOut, env))
    && (k < |deps| ==> DefersTo(cfg, s, g.state, n, s.containers[n], deps[k], timedOut, env))
    && n in g.state.containers && SamePolicy(s.containers[n], g.state.containers[n])
    && g.state.containers[n].conf == s.containers[n].conf
  }

  lemma DeferCounts(cfg: Settings, s: State, n: string, dep: string)
    requires Wanting(s, n)
    ensures var s', c := Defer(cfg, s, n, dep), s.containers[n];
      && RetriedNow(cfg, s, s', n) && SamePolicy(c, s'.containers[n]) && s.timers <= s'.timers && s'.nextPid == s.nextPid
      && s'.containers[n].conf == c.conf
  {
  }

  /** The next entry is ready, or the patience is over. */
  lemma SkipLooped(cfg: Settings, s: State, n: string, i: nat, k: nat, timedOut: bool, env: Env)
    requires n in s.containers && s.containers[n].desired == Up && i < |s.containers[n].conf.dependsOn|
    requires var dep := s.containers[n].conf.dependsOn[i];
      dep == n || dep !in s.containers || DepReady(s, dep, env) || (timedOut && !Reaches(RegistryGraph(s.registry), dep, n))
    requires Looped(cfg, s, LaunchDeps(cfg, s, n, i + 1, timedOut, env), n, i + 1, k, timedOut, env)
    ensures Looped(cfg, s, LaunchDeps(cfg, s, n, i, timedOut, env), n, i, k, timedOut, env)
  {
    var dep, g := s.containers[n].conf.dependsOn[i], LaunchDeps(cfg, s, n, i + 1, timedOut, env);
    if dep != n && dep in s.containers { assert RaisedAt(cfg, s, g.state, dep, env); }
    assert Seen(cfg, s, g.state, n, dep, timedOut, env);
  }

  /** The next entry is waited for. */
  lemma DeferLooped(cfg: Settings, s: State, s1: State, n: string, i: nat, env: Env)
    requires Wanting(s, n) && i < |s.containers[n].conf.dependsOn|
    requires var dep := s.containers[n].conf.dependsOn[i];
      && dep != n && dep in s.containers && !DepReady(s, dep, env) && !Reaches(RegistryGraph(s.registry), dep, n)
      && s1 == Pull(cfg, s, dep, env) && Later(cfg, s, s1, {}, env) && BroughtUp(cfg, s, s1, dep, env)
    ensures Looped(cfg, s, LaunchDeps(cfg, s, n, i, false, env), n, i, i, false, env)
  {
    var dep := s.containers[n].conf.dependsOn[i];
    assert LeftAlone(s, s1, dep, n);
    var s2 := Defer(cfg, s1, n, dep);
    DeferCounts(cfg, s1, n, dep);
    assert Later(cfg, s1, s2, {n}, env);
    LaterTrans(cfg, s, s1, s2, {n}, env);
    BroughtLater(cfg, s, s1, s2, n, dep, env);
    assert DefersTo(cfg, s, s2, n, s.containers[n], dep, false, env);
  }

  /** The next entry can lead back to n: it is brought up, and the loop goes on. */
  lemma PullLooped(cfg: Settings, s: State, s1: State, n: string, i: nat, k: nat, timedOut: bool, env: Env)
    requires Wanting(s, n) && i < |s.containers[n].conf.dependsOn|
    requires var dep := s.containers[n].conf.dependsOn[i];
      && dep != n && dep in s.containers && !DepReady(s, dep, env) && Reaches(RegistryGraph(s.registry), dep, n)
      && s1 == Pull(cfg, s, dep, env) && Later(cfg, s, s1, {}, env) && BroughtUp(cfg, s, s1, dep, env)
      && n in s1.containers && s1.containers[n] == s.containers[n]
    requires Looped(cfg, s1, LaunchDeps(cfg, s1, n, i + 1, timedOut, env), n, i + 1, k, timedOut, env)
    ensures Looped(cfg, s, LaunchDeps(cfg, s, n, i, timedOut, env), n, i, k, timedOut, env)
  {
    var deps, g := s.containers[n].conf.dependsOn, LaunchDeps(cfg, s1, n, i + 1, timedOut, env);
    LaterTrans(cfg, s, s1, g.state, {n}, env);
    BroughtLater(cfg, s, s1, g.state, n, deps[i], env);
    forall j | i <= j < k ensures Seen(cfg, s, g.state, n, deps[j], timedOut, env) {
      if j > i { SeenEarlier(cfg, s, s1, g.state, n, deps[j], timedOut, env); }
    }
    if k < |deps| {
      assert deps[k] in s1.containers && s1.containers.Keys == s.containers.Keys;
      DefersEarlier(cfg, s, s1, g.state, n, s.containers[n], deps[k], timedOut, env);
    }
  }

  lemma {:induction false} DepsBring(cfg: Settings, s: State, n: string, i: nat, timedOut: bool, env: Env) returns (k: nat)
    requires Wanting(s, n) && s.now > 0 && i <= |s.containers[n].conf.dependsOn|
    ensures Looped(cfg, s, LaunchDeps(cfg, s, n, i, timedOut, env), n, i, k, timedOut, env)
    decreases NotUp(s), 1, |s.containers[n].conf.dependsOn| - i
  {
    var deps := s.containers[n].conf.dependsOn;
    k := i;
    if i < |deps| {
      var dep := deps[i];
      var loops := Reaches(RegistryGraph(s.registry), dep, n);
      if dep == n || dep !in s.containers || DepReady(s, dep, env) || (timedOut && !loops) {
        k := DepsBring(cfg, s, n, i + 1, timedOut, env);
        SkipLooped(cfg, s, n, i, k, timedOut, env);
      } else {
        var s1 := Pull(cfg, s, dep, env);
        PullBrings(cfg, s, dep, env);
        assert LeftAlone(s, s1, dep, n);
        if loops {
          k := DepsBring(cfg, s1, n, i + 1, timedOut, env);
          PullLooped(cfg, s, s1, n, i, k, timedOut, env);
        } else {
          DeferLooped(cfg, s, s1, n, i, env);
        }
      }
    }
  }

  lemma {:induction false} PullBrings(cfg: Settings, s: State, dep: string, env: Env)
    requires dep in s.containers && s.nextPid > 0 && s.now > 0
    ensures var s' := Pull(cfg, s, dep, env);
      Later(cfg, s, s', {}, env) && BroughtUp(cfg, s, s', dep, env) && s'.nextPid > 0
    decreases NotUp(s), 0, 0
  {
    if Pulls(s, dep, env) { StartRaises(cfg, s, dep, env); }
  }

  /** Starting a container that is down and not wanted. */
  lemma {:induction false} StartRaises(cfg: Settings, s: State, n: string, env: Env)
    requires n in s.containers && s.nextPid > 0 && s.now > 0
    requires s.containers[n].desired == Down && s.containers[n].pid == 0 && n !in env.alive
    ensures var s' := Start(cfg, s, n, env);
      && Later(cfg, s, s', {}, env)
      && (ValidName(n) && s.containers[n].conf.bundle != "" ==> Attempted(cfg, s, s', n, env))
    decreases NotUp(s) - {n}, 3, 0
  {
    var c := s.containers[n];
    if ValidName(n) && c.conf.bundle != "" {
      var s1 := Put(s, n, MarkUp(c));
      LeavesPut(s, n, MarkUp(c));
      var k := LaunchBrings(cfg, s1, n, env);
      var s' := Launch(cfg, s1, n, env);
      assert Attempted(cfg, s1, s', n, env) && s'.containers[n].crashCount == 0;
      AttemptedEarlier(cfg, s, s1, s', n, env);
      forall m ensures RaisedAt(cfg, s, s', m, env) {
        if m != n { assert RaisedAt(cfg, s1, s', m, env); RaisedTrans(cfg, s, s1, s', m, env); }
      }
    }
  }

  /** What a launch of n that began with the record c comes to: it sees to its first k
    * dependencies and then waits for the next one, or, with all seen to, goes on.
    */
  ghost predicate Brings(cfg: Settings, s: State, s': State, n: string, c: Container, k: nat, env: Env) {
    var entry := ReadConfig(s, n);
    var timedOut := c.depWaitSince != 0 && s.now - c.depWaitSince >= cfg.startTimeout;
    && Later(cfg, s, s', {n}, env) && n in s'.containers
    && Configured(s'.containers[n].conf, entry) && SamePolicy(c, s'.containers[n]) && k <= |entry.dependsOn|
    && if entry.bundle == "" then
         ParkedNow(s, s', n, env) && s'.containers[n].desired == Up
       else
         && (forall j | 0 <= j < k :: Seen(cfg, s, s', n, entry.dependsOn[j], timedOut, env))
         && if k < |entry.dependsOn| then DefersTo(cfg, s, s', n, c, entry.dependsOn[k], timedOut, env)
            else Ended(cfg, s, s', n, c, env)
  }

  lemma RefreshedSays(s: State, n: string)
    requires n in s.containers
    ensures var c, d := s.containers[n], Refreshed(s, n);
      && Configured(d.conf, ReadConfig(s, n)) && SamePolicy(c, d) && d.pid == c.pid && d.depWaitSince == c.depWaitSince
      && d.infraWaitSince == c.infraWaitSince && d.infraWasUp == c.infraWasUp && d.hist.waitsOn == None
  {
  }

  lemma {:induction false} LaunchBrings(cfg: Settings, s: State, n: string, env: Env) returns (k: nat)
    requires Wanting(s, n) && s.now > 0
    ensures Brings(cfg, s, Launch(cfg, s, n, env), n, s.containers[n], k, env)
    decreases NotUp(s), 2, 0
  {
    var c := Refreshed(s, n);
    var s1 := Put(s, n, c);
    LeavesPut(s, n, c);
    RefreshedSays(s, n);
    assert NotUp(s1) == NotUp(s);
    k := 0;
    if c.conf.bundle == "" {
      ParkEnds(s1, n, NoBundle, env);
    } else {
      k := DepsBring(cfg, s1, n, 0, DepTimeout(cfg, s, c), env);
      GateBrings(cfg, s, s1, n, k, env);
    }
  }

  /** s' differs from s in n's record, in more timers and process ids. */
  ghost predicate OnlyOwn(s: State, s': State, n: string) {
    && n in s.containers && n in s'.containers && s'.containers == s.containers[n := s'.containers[n]]
    && s'.registry == s.registry && s'.now == s.now && s.timers <= s'.timers && s.nextPid <= s'.nextPid
  }

  lemma JoinOwn(cfg: Settings, s: State, n: string, env: Env)
    requires n in s.containers && s.containers[n].desired == Up
    ensures OnlyOwn(s, JoinInfra(cfg, s, n, env), n)
  {
    var c := s.containers[n];
    if InfraUp(c, env) {
      ShadowOwn(cfg, Put(s, n, c.(infraWaitSince := 0, infraWasUp := true)), n, env);
    } else {
      AwaitOwn(cfg, s, n);
    }
  }

  lemma ShadowOwn(cfg: Settings, s: State, n: string, env: Env)
    requires n in s.containers
    ensures OnlyOwn(s, ShadowAndSpawn(cfg, s, n, env), n)
  {
    if NeedsShadow(s.containers[n]) && n !in env.shadowOk {
      ArmOwn(s, n, Relaunch(n, cfg.restartDelay));
    } else {
      TouchesOwn(s, Spawn(s, n, env), n);
    }
  }

  lemma TouchesOwn(s: State, s': State, n: string)
    requires Touches(s, s', n)
    ensures OnlyOwn(s, s', n)
  {
  }

  lemma ArmOwn(s: State, n: string, t: Timer)
    requires n in s.containers
    ensures OnlyOwn(s, Arm(s, t), n)
  {
  }

  lemma PutOwn(s: State, n: string, c: Container, s': State)
    requires n in s.containers && OnlyOwn(Put(s, n, c), s', n)
    ensures OnlyOwn(s, s', n)
  {
  }

  lemma AwaitOwn(cfg: Settings, s: State, n: string)
    requires n in s.containers && s.containers[n].desired == Up
    ensures OnlyOwn(s, AwaitInfra(cfg, s, n), n)
  {
  }

  lemma ReadyOwn(cfg: Settings, s: State, n: string, env: Env)
    requires n in s.containers && s.containers[n].desired == Up
    ensures OnlyOwn(s, LaunchReady(cfg, s, n, env), n)
  {
    var c := s.containers[n].(depWaitSince := 0);
    if MountsMissing(c, env) {
      ArmOwn(Put(s, n, c), n, Relaunch(n, cfg.restartDelay));
    } else {
      JoinOwn(cfg, Put(s, n, c), n, env);
    }
    PutOwn(s, n, c, LaunchReady(cfg, s, n, env));
  }

  lemma OwnLater(cfg: Settings, s: State, s1: State, s2: State, n: string, env: Env)
    requires Later(cfg, s, s1, {n}, env) && OnlyOwn(s1, s2, n)
    ensures Later(cfg, s, s2, {n}, env)
  {
    assert forall m | m !in {n} :: RaisedAt(cfg, s1, s2, m, env);
    LaterTrans(cfg, s, s1, s2, {n}, env);
  }

  lemma OwnSeen(cfg: Settings, s: State, s1: State, s2: State, n: string, dep: string, timedOut: bool, env: Env)
    requires Seen(cfg, s, s1, n, dep, timedOut, env) && OnlyOwn(s1, s2, n)
    ensures Seen(cfg, s, s2, n, dep, timedOut, env)
  {
    if dep != n && dep in s.containers && Attempted(cfg, s, s1, dep, env) { AttemptedLater(cfg, s, s1, s2, dep, env); }
  }

  /** The same, seen from a state that differs in n's record alone. */
  ghost predicate SameBut(s: State, s1: State, n: string) {
    && n in s1.containers && s1 == s.(containers := s1.containers) && s1.containers.Keys == s.containers.Keys + {n}
    && forall m | m in s.containers && m != n :: s1.containers[m] == s.containers[m]
  }

  lemma LaterFrom(cfg: Settings, s: State, s1: State, s2: State, n: string, env: Env)
    requires SameBut(s, s1, n) && Later(cfg, s1, s2, {n}, env)
    ensures Later(cfg, s, s2, {n}, env)
  {
    forall m | m !in {n} ensures RaisedAt(cfg, s, s2, m, env) {
      assert RaisedAt(cfg, s1, s2, m, env);
      if Attempted(cfg, s1, s2, m, env) { AttemptedEarlier(cfg, s, s1, s2, m, env); }
    }
  }

  lemma SeenFrom(cfg: Settings, s: State, s1: State, s2: State, n: string, dep: string, timedOut: bool, env: Env)
    requires SameBut(s, s1, n) && Seen(cfg, s1, s2, n, dep, timedOut, env)
    ensures Seen(cfg, s, s2, n, dep, timedOut, env)
  {
    if dep != n && dep in s.containers && Attempted(cfg, s1, s2, dep, env) { AttemptedEarlier(cfg, s, s1, s2, dep, env); }
  }

  lemma DefersFrom(cfg: Settings, s: State, s1: State, s2: State, n: string, c: Container, dep: string, timedOut: bool, env: Env)
    requires SameBut(s, s1, n) && DefersTo(cfg, s1, s2, n, c, dep, timedOut, env)
    ensures DefersTo(cfg, s, s2, n, c, dep, timedOut, env)
  {
    if Attempted(cfg, s1, s2, dep, env) { AttemptedEarlier(cfg, s, s1, s2, dep, env); }
  }

  /** A launch as seen from the state before its callback prepared n's record. */
  lemma BringsFrom(cfg: Settings, s: State, s1: State, s2: State, n: string, c: Container, k: nat, env: Env)
    requires SameBut(s, s1, n) && Brings(cfg, s1, s2, n, c, k, env)
    ensures Brings(cfg, s, s2, n, c, k, env)
  {
    var deps := ReadConfig(s, n).dependsOn;
    var timedOut := c.depWaitSince != 0 && s.now - c.depWaitSince >= cfg.startTimeout;
    LaterFrom(cfg, s, s1, s2, n, env);
    if ReadConfig(s, n).bundle != "" {
      forall j | 0 <= j < k ensures Seen(cfg, s, s2, n, deps[j], timedOut, env) { SeenFrom(cfg, s, s1, s2, n, deps[j], timedOut, env); }
      if k < |deps| { DefersFrom(cfg, s, s1, s2, n, c, deps[k], timedOut, env); }
    }
  }

  /** With all dependencies seen to. */
  lemma PassedBrings(cfg: Settings, s: State, g: Gate, n: string, env: Env)
    requires Wanting(s, n) && s.now > 0 && Configured(s.containers[n].conf, ReadConfig(s, n)) && ReadConfig(s, n).bundle != ""
    requires g.passed && s.containers[n].hist.waitsOn == None && Wanting(g.state, n) && g.state.containers[n] == s.containers[n]
    requires Looped(cfg, s, g, n, 0, |ReadConfig(s, n).dependsOn|, DepTimeout(cfg, s, s.containers[n]), env)
    ensures Brings(cfg, s, LaunchReady(cfg, g.state, n, env), n, s.containers[n], |ReadConfig(s, n).dependsOn|, env)
  {
    var c, s2 := s.containers[n], LaunchReady(cfg, g.state, n, env);
    var deps, timedOut := c.conf.dependsOn, DepTimeout(cfg, s, c);
    ReadyEnds(cfg, g.state, n, env);
    ReadyOwn(cfg, g.state, n, env);
    OwnLater(cfg, s, g.state, s2, n, env);
    forall j | 0 <= j < |deps| ensures Seen(cfg, s, s2, n, deps[j], timedOut, env) {
      OwnSeen(cfg, s, g.state, s2, n, deps[j], timedOut, env);
    }
    EndedFrom(cfg, s, g.state, s2, n, c, env);
  }

  lemma EndedFrom(cfg: Settings, s: State, s1: State, s2: State, n: string, c: Container, env: Env)
    requires n in s2.containers && Ended(cfg, s1, s2, n, c, env) && Later(cfg, s, s1, {n}, env)
    requires s.nextPid > 0
    ensures Ended(cfg, s, s2, n, c, env)
  {
  }

  /** The end of a launch, after the dependency loop. */
  lemma GateBrings(cfg: Settings, s: State, s1: State, n: string, k: nat, env: Env)
    requires Wanting(s, n) && s.now > 0 && s1 == Put(s, n, Refreshed(s, n)) && ReadConfig(s, n).bundle != ""
    requires Looped(cfg, s1, LaunchDeps(cfg, s1, n, 0, DepTimeout(cfg, s, Refreshed(s, n)), env), n, 0, k, DepTimeout(cfg, s, Refreshed(s, n)), env)
    ensures Brings(cfg, s, Launch(cfg, s, n, env), n, s.containers[n], k, env)
  {
    var c := Refreshed(s, n);
    var g := LaunchDeps(cfg, s1, n, 0, DepTimeout(cfg, s, c), env);
    RefreshedSays(s, n);
    if g.passed {
      PassedBrings(cfg, s1, g, n, env);
    } else {
      WaitingBrings(cfg, s1, g, n, k, env);
    }
    assert Launch(cfg, s, n, env) == if g.passed then LaunchReady(cfg, g.state, n, env) else g.state;
    BringsFrom(cfg, s, s1, Launch(cfg, s, n, env), n, c, k, env);
    BringsAlike(cfg, s, Launch(cfg, s, n, env), n, c, s.containers[n], k, env);
  }

  /** With a dependency to wait for. */
  lemma WaitingBrings(cfg: Settings, s: State, g: Gate, n: string, k: nat, env: Env)
    requires Wanting(s, n) && Configured(s.containers[n].conf, ReadConfig(s, n)) && ReadConfig(s, n).bundle != "" && !g.passed
    requires Looped(cfg, s, g, n, 0, k, DepTimeout(cfg, s, s.containers[n]), env)
    ensures Brings(cfg, s, g.state, n, s.containers[n], k, env)
  {
  }

  /** What is said of c is said of a record with the same clocks and counters. */
  predicate Alike(c: Container, d: Container) {
    SamePolicy(c, d) && d.depWaitSince == c.depWaitSince && d.infraWaitSince == c.infraWaitSince
    && d.infraWasUp == c.infraWasUp && d.desired == c.desired
  }

  lemma BringsAlike(cfg: Settings, s: State, s': State, n: string, c: Container, d: Container, k: nat, env: Env)
    requires Brings(cfg, s, s', n, c, k, env) && Alike(c, d)
    ensures Brings(cfg, s, s', n, d, k, env)
  {
  }

  // ---- nobody is started without need ------------------------------------------------------

  /** A launch of n has nothing to do about dep. */
  ghost predicate Excused(s: State, n: string, dep: string, timedOut: bool, env: Env) {
    dep == n || dep !in s.containers || Serves(s, dep, env) || (timedOut && !Reaches(RegistryGraph(s.registry), dep, n))
  }

  lemma {:induction false} ExcusedPass(cfg: Settings, s: State, n: string, i: nat, timedOut: bool, env: Env)
    requires n in s.containers && s.containers[n].desired == Up && i <= |s.containers[n].conf.dependsOn|
    requires forall dep | dep in s.containers[n].conf.dependsOn :: Excused(s, n, dep, timedOut, env)
    ensures LaunchDeps(cfg, s, n, i, timedOut, env) == Gate(s, true)
    decreases |s.containers[n].conf.dependsOn| - i
  {
    var deps := s.containers[n].conf.dependsOn;
    if i < |deps| {
      assert deps[i] in deps;
      ExcusedPass(cfg, s, n, i + 1, timedOut, env);
    }
  }

  /** A launch whose dependencies all serve, or with its patience over and no loop among
    * them, starts and changes no other container, and waits for nobody.
    */
  lemma ExcusedLaunchAlone(cfg: Settings, s: State, n: string, env: Env)
    requires Wanting(s, n) && s.now > 0
    requires var c := s.containers[n];
      forall dep | dep in ReadConfig(s, n).dependsOn ::
        Excused(s, n, dep, c.depWaitSince != 0 && s.now - c.depWaitSince >= cfg.startTimeout, env)
    ensures var s' := Launch(cfg, s, n, env);
      && s'.containers == s.containers[n := s'.containers[n]] && s'.containers[n].hist.waitsOn == None
  {
    var c := Refreshed(s, n);
    var s1 := Put(s, n, c);
    RefreshedSays(s, n);
    if c.conf.bundle != "" {
      var timedOut := DepTimeout(cfg, s, c);
      forall dep | dep in c.conf.dependsOn ensures Excused(s1, n, dep, timedOut, env) {
        assert Excused(s, n, dep, timedOut, env);
      }
      ExcusedPass(cfg, s1, n, 0, timedOut, env);
      ReadyOwn(cfg, s1, n, env);
      assert Launch(cfg, s, n, env) == LaunchReady(cfg, s1, n, env);
    }
  }
}
