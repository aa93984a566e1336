/** What a launch can change: instances, waits, and containers below the launched one. */
module SupervisorFrames {
  import opened Wrappers
  import opened DependencyGraph
  import opened Health
  import opened Supervisor
  import opened SupervisorSteps

  /** depends_on of every registry entry. */
  function DependsGraph(registry: map<string, Config>): Graph {
    map n | n in registry :: registry[n].dependsOn
  }

  /** n may wait for b: b is listed in n's registry entry and cannot lead back to n. */
  ghost predicate MayWait(registry: map<string, Config>, n: string, b: string) {
    && n != b && n in registry && b in registry[n].dependsOn
    && !Reaches(RegistryGraph(registry), b, n)
  }

  /** Running instances stay as they are; a container that was down is down still
    * or runs a process forked now. What is known of its health is left alone.
    */
  predicate Forked(s: State, c: Container, d: Container) {
    && SameHealth(c, d)
    && if c.pid != 0 then d.pid == c.pid && d.started == c.started
       else d.pid == 0 || (d.pid >= s.nextPid && d.started == s.now)
  }

  ghost predicate MayDefer(s: State, n: string, c: Container, d: Container) {
    d.hist.waitsOn == None || d.hist.waitsOn == c.hist.waitsOn || MayWait(s.registry, n, d.hist.waitsOn.value)
  }

  /** Container n across a launch of m: it is changed only if it is m or below m. */
  ghost predicate LaunchedAt(s: State, s': State, m: string, n: string) {
    n in s.containers && n in s'.containers ==>
      && Forked(s, s.containers[n], s'.containers[n])
      && MayDefer(s, n, s.containers[n], s'.containers[n])
      && (n != m && s'.containers[n] != s.containers[n] ==> Reaches(DependsGraph(s.registry), m, n))
  }

  ghost predicate Launched(s: State, s': State, m: string) {
    && s'.containers.Keys == s.containers.Keys && s'.registry == s.registry
    && s'.now == s.now && s.nextPid <= s'.nextPid && NoNewWatch(s, s') && s.timers <= s'.timers
    && forall n :: LaunchedAt(s, s', m, n)
  }

  lemma LaunchedTrans(s: State, s1: State, s2: State, m: string)
    requires Launched(s, s1, m) && Launched(s1, s2, m)
    ensures Launched(s, s2, m)
  {
    forall n ensures LaunchedAt(s, s2, m, n) { assert LaunchedAt(s, s1, m, n) && LaunchedAt(s1, s2, m, n); }
  }

  lemma LaunchedPut(s: State, m: string, c: Container)
    requires m in s.containers && Forked(s, s.containers[m], c)
    requires c.hist.waitsOn == None || c.hist.waitsOn == s.containers[m].hist.waitsOn
    ensures Launched(s, Put(s, m, c), m)
  {
  }

  lemma LaunchedTouch(s: State, s': State, m: string)
    requires Touches(s, s', m) && SameInstance(s, s', m) && StillWaits(s, s', m)
    ensures Launched(s, s', m)
  {
  }

  lemma LaunchedArm(s: State, t: Timer, m: string)
    requires !t.Watch?
    ensures Launched(s, Arm(s, t), m)
  {
  }

  /** What is below a dependency is below the container that has it. */
  lemma LaunchedEdge(s: State, s': State, dep: string, m: string)
    requires Launched(s, s', dep) && m in s.registry && dep in s.registry[m].dependsOn
    ensures Launched(s, s', m)
  {
    var g := DependsGraph(s.registry);
    EdgeReaches(g, m, dep);
    forall n ensures LaunchedAt(s, s', m, n) {
      assert LaunchedAt(s, s', dep, n);
      if n != dep && Reaches(g, dep, n) { WalkTrans(g, m, dep, n); }
    }
  }

  lemma RunningLaunched(s: State, m: string)
    requires m in s.containers && s.containers[m].pid == 0
    ensures Launched(s, Running(s, m), m)
  {
  }

  lemma SpawnLaunched(s: State, m: string, env: Env)
    requires m in s.containers && s.containers[m].pid == 0
    ensures Launched(s, Spawn(s, m, env), m)
  {
    if m !in env.pipeOk || m !in env.forkOk {
      LaunchedPut(s, m, Spawn(s, m, env).containers[m]);
    } else {
      var s1 := Running(s, m);
      var s2 := ScheduleHealth(s1, m);
      RunningLaunched(s, m);
      LaunchedTouch(s1, s2, m);
      LaunchedTouch(s2, StartForwardsDeferred(s2, m, env), m);
      LaunchedTrans(s, s1, s2, m);
      LaunchedTrans(s, s2, StartForwardsDeferred(s2, m, env), m);
    }
  }

  lemma AwaitLaunched(cfg: Settings, s: State, m: string)
    requires m in s.containers && s.containers[m].desired == Up
    ensures Launched(s, AwaitInfra(cfg, s, m), m)
  {
    var c0 := s.containers[m];
    var c := if c0.infraWaitSince == 0 then c0.(infraWaitSince := s.now) else c0;
    LaunchedPut(s, m, c);
    LaunchedPut(s, m, c.(desired := Down, infraWaitSince := 0));
    LaunchedArm(Put(s, m, c), Relaunch(m, cfg.restartDelay), m);
    LaunchedTrans(s, Put(s, m, c), Retry(cfg, Put(s, m, c), m), m);
  }

  lemma JoinLaunched(cfg: Settings, s: State, m: string, env: Env)
    requires m in s.containers && s.containers[m].desired == Up && s.containers[m].pid == 0
    ensures Launched(s, JoinInfra(cfg, s, m, env), m)
  {
    var c := s.containers[m];
    if !InfraUp(c, env) {
      AwaitLaunched(cfg, s, m);
    } else {
      var s1 := Put(s, m, c.(infraWaitSince := 0, infraWasUp := true));
      LaunchedPut(s, m, s1.containers[m]);
      LaunchedArm(s1, Relaunch(m, cfg.restartDelay), m);
      SpawnLaunched(s1, m, env);
      LaunchedTrans(s, s1, ShadowAndSpawn(cfg, s1, m, env), m);
    }
  }

  lemma ReadyLaunched(cfg: Settings, s: State, m: string, env: Env)
    requires m in s.containers && s.containers[m].desired == Up && s.containers[m].pid == 0
    ensures Launched(s, LaunchReady(cfg, s, m, env), m)
  {
    var s1 := Put(s, m, s.containers[m].(depWaitSince := 0));
    LaunchedPut(s, m, s1.containers[m]);
    if MountsMissing(s1.containers[m], env) {
      LaunchedArm(s1, Relaunch(m, cfg.restartDelay), m);
      LaunchedTrans(s, s1, Retry(cfg, s1, m), m);
    } else {
      JoinLaunched(cfg, s1, m, env);
      LaunchedTrans(s, s1, JoinInfra(cfg, s1, m, env), m);
    }
  }

  lemma DeferLaunched(cfg: Settings, s: State, m: string, dep: string)
    requires m in s.containers && MayWait(s.registry, m, dep)
    ensures Launched(s, Defer(cfg, s, m, dep), m)
  {
  }

  /** m's record lists what its registry entry lists. */
  predicate Listed(s: State, m: string) {
    m in s.containers && m in s.registry && s.containers[m].conf.dependsOn == s.registry[m].dependsOn
  }

  lemma {:induction false} DepsLaunched(cfg: Settings, s: State, m: string, i: nat, timedOut: bool, env: Env)
    requires Listed(s, m) && s.containers[m].desired == Up && i <= |s.containers[m].conf.dependsOn|
    ensures Launched(s, LaunchDeps(cfg, s, m, i, timedOut, env).state, m)
    decreases NotUp(s), 1, |s.containers[m].conf.dependsOn| - i
  {
    if i < |s.containers[m].conf.dependsOn| {
      var dep := s.containers[m].conf.dependsOn[i];
      var loops := Reaches(RegistryGraph(s.registry), dep, m);
      if dep == m || dep !in s.containers || DepReady(s, dep, env) || (timedOut && !loops) {
        DepsLaunched(cfg, s, m, i + 1, timedOut, env);
      } else {
        var s1 := Pull(cfg, s, dep, env);
        PullLaunched(cfg, s, dep, env);
        LaunchedEdge(s, s1, dep, m);
        assert LeftAlone(s, s1, dep, m);
        if loops {
          DepsLaunched(cfg, s1, m, i + 1, timedOut, env);
          LaunchedTrans(s, s1, LaunchDeps(cfg, s1, m, i + 1, timedOut, env).state, m);
        } else {
          DeferLaunched(cfg, s1, m, dep);
          LaunchedTrans(s, s1, Defer(cfg, s1, m, dep), m);
        }
      }
    }
  }

  lemma {:induction false} PullLaunched(cfg: Settings, s: State, dep: string, env: Env)
    requires dep in s.containers
    ensures Launched(s, Pull(cfg, s, dep, env), dep)
    decreases NotUp(s), 0, 0
  {
    if Pulls(s, dep, env) { StartLaunched(cfg, s, dep, env); }
  }

  /** A launch changes no container but its own and those it depends on according to
    * the registry; it leaves running instances and health alone; and it makes nobody
    * wait for a container that leads back to it.
    */
  lemma {:induction false} LaunchLaunched(cfg: Settings, s: State, m: string, env: Env)
    requires m in s.containers && s.containers[m].desired == Up && s.containers[m].pid == 0
    ensures Launched(s, Launch(cfg, s, m, env), m)
    decreases NotUp(s), 2, 0
  {
    var c := Refreshed(s, m);
    var s1 := Put(s, m, c);
    LaunchedPut(s, m, c);
    LeavesPut(s, m, c);
    assert NotUp(s1) == NotUp(s);
    if c.conf.bundle == "" {
      LaunchedPut(s1, m, Park(s1, m, NoBundle).containers[m]);
      LaunchedTrans(s, s1, Park(s1, m, NoBundle), m);
    } else {
      var g := LaunchDeps(cfg, s1, m, 0, DepTimeout(cfg, s, c), env);
      DepsLaunched(cfg, s1, m, 0, DepTimeout(cfg, s, c), env);
      LaunchedTrans(s, s1, g.state, m);
      if g.passed {
        ReadyLaunched(cfg, g.state, m, env);
        LaunchedTrans(s, g.state, LaunchReady(cfg, g.state, m, env), m);
      }
    }
  }

  lemma {:induction false} StartLaunched(cfg: Settings, s: State, m: string, env: Env)
    requires m in s.containers
    ensures Launched(s, Start(cfg, s, m, env), m)
    decreases NotUp(s) - {m}, 3, 0
  {
    var c := s.containers[m];
    if ValidName(m) && c.conf.bundle != "" {
      var s1 := Put(s, m, MarkUp(c));
      LaunchedPut(s, m, MarkUp(c));
      LeavesPut(s, m, MarkUp(c));
      if c.pid == 0 {
        LaunchLaunched(cfg, s1, m, env);
        LaunchedTrans(s, s1, Launch(cfg, s1, m, env), m);
      }
    }
  }

  // ---- every step ------------------------------------------------------------------------

  /** A record that was just created: it waits for nobody and nothing is known of it. */
  predicate Newborn(c: Container) {
    c.hist.waitsOn == None && c.hc == HealthState(Unknown, 0) && c.hcWorker == 0
  }

  predicate GrownAt(s: State, s': State, m: string, n: string) {
    n in s'.containers ==>
      if n in s.containers then (if n == m then Quieter(s.containers[n], s'.containers[n]) else s'.containers[n] == s.containers[n])
      else n == m && Newborn(s'.containers[n]) && (s'.containers[n].pid == 0 || s'.containers[n].pid >= s.nextPid)
  }

  /** What a callback of m does before it launches anything. */
  ghost predicate Grown(s: State, s': State, m: string) {
    NoNewWatch(s, s') && s.nextPid <= s'.nextPid && forall n :: GrownAt(s, s', m, n)
  }

  lemma OnlyGrown(s: State, s': State, m: string)
    requires Only(s, s', m)
    ensures Grown(s, s', m)
  {
    forall n ensures GrownAt(s, s', m, n) { assert OnlyAt(s, s', m, n); }
  }

  lemma SameGrown(s: State, s': State, m: string)
    requires s'.containers == s.containers && s'.nextPid == s.nextPid && NoNewWatch(s, s')
    ensures Grown(s, s', m)
  {
  }

  /** The operator's calls begin with creating the record, if it is missing. */
  function Known(s: State, m: string): State {
    if ValidName(m) then Ensure(s, m) else s
  }

  lemma KnownGrown(s: State, s1: State, m: string)
    requires Grown(s, s1, m)
    ensures Grown(s, Known(s1, m), m)
  {
    forall n ensures GrownAt(s, Known(s1, m), m, n) { assert GrownAt(s, s1, m, n); }
  }

  lemma SignalLaunched(s: State, m: string, target: nat)
    ensures Launched(s, SignalAndReap(s, m, target), m)
  {
  }

  lemma LaunchedRefl(s: State, m: string)
    ensures Launched(s, s, m)
  {
  }

  lemma RestartLaunched(cfg: Settings, s: State, m: string, env: Env)
    ensures Launched(Known(s, m), Restart(cfg, s, m, env), m)
  {
    if ValidName(m) {
      var s1 := Ensure(s, m);
      var c := s1.containers[m];
      if c.conf.bundle != "" {
        var s2 := Put(s1, m, WantedAnew(c));
        LaunchedPut(s1, m, s2.containers[m]);
        if c.pid != 0 {
          SignalLaunched(s2, m, c.pid);
          LaunchedTrans(s1, s2, SignalAndReap(s2, m, c.pid), m);
        } else {
          LaunchLaunched(cfg, s2, m, env);
          LaunchedTrans(s1, s2, Launch(cfg, s2, m, env), m);
        }
      }
    }
  }

  /** The container an event launches or starts, if any. A relaunch timer does so only
    * for a container that is wanted up and has no instance.
    */
  function Launches(s: State, e: Event): Option<string> {
    match e
    case CallStart(m) => Some(m)
    case CallRestart(m) => Some(m)
    case CallRollback(m, _, _) => Some(m)
    case UpgradeFinished(m, _) => Some(m)
    case AdoptRunning(m) => Some(m)
    case TimerFires(Watch(m, _, _, _), _) => Some(m)
    case TimerFires(Relaunch(m, _), _) =>
      if m in s.containers && s.containers[m].desired == Up && s.containers[m].pid == 0 then Some(m) else None
    case _ => None
  }

  /** The events that can say something new about a container's health: probes, and the
    * end of what they measure.
    */
  predicate Measures(e: Event) {
    e.WorkerExits? || e.JailExits? || e.AdoptedGone? || (e.TimerFires? && e.timer.HealthTick?)
  }

  /** The container a measuring event is about. */
  function Measured(s: State, env: Env, e: Event): string
    requires Measures(e) && Enabled(s, env, e)
  {
    match e
    case AdoptedGone(n) => n
    case JailExits(p) => s.jails[p]
    case WorkerExits(p, _) => s.workers[p]
    case TimerFires(t, _) => t.name
  }

  /** If n is new, it is not wanted and not running. */
  predicate DormantAt(s: State, s': State, n: string) {
    n in s'.containers && n !in s.containers ==> s'.containers[n].desired == Down && s'.containers[n].pid == 0
  }

  /** A step as the part that belongs to one container m, and what it launches. */
  ghost predicate Splits(s: State, pre: State, s': State, m: string, e: Event) {
    && Grown(s, pre, m) && pre.registry == s'.registry
    && (forall n :: LaunchedAt(pre, s', m, n)) && s'.containers.Keys == pre.containers.Keys
    && (!e.UpgradeFinished? ==> NoNewWatch(s, s'))
    && (Launches(s, e) == None ==> s'.containers == pre.containers && forall n :: DormantAt(s, pre, n))
    && (Launches(s, e) != None ==> Launches(s, e) == Some(m) && pre.registry == s.registry)
    && (!Measures(e) && m in s.containers && m in pre.containers ==> NoBetter(s.containers[m], pre.containers[m]))
  }

  lemma QuietSplits(s: State, s': State, m: string, e: Event)
    requires Only(s, s', m) && Launches(s, e) == None
    requires !Measures(e) ==> Plain(s, s', m)
    ensures Splits(s, s', s', m, e)
  {
    OnlyGrown(s, s', m);
    LaunchedRefl(s', m);
    assert OnlyAt(s, s', m, m);
    forall n ensures DormantAt(s, s', n) { assert OnlyAt(s, s', m, n); }
  }

  lemma PlainRefl(s: State, m: string)
    ensures Plain(s, s, m)
  {
  }

  lemma DisarmPlain(s: State, t: Timer)
    ensures Plain(s, Disarm(s, t), t.name)
  {
  }

  lemma RevertedLaunched(cfg: Settings, s: State, m: string, recorded: bool, env: Env)
    ensures Plain(s, Rewritten(s, m, recorded), m)
    ensures Launched(Known(Rewritten(s, m, recorded), m), Reverted(cfg, s, m, recorded, env), m)
  {
    RestartLaunched(cfg, Rewritten(s, m, recorded), m, env);
  }

  lemma RevertSplits(cfg: Settings, s: State, t: Timer, probe: Probe, env: Env) returns (pre: State)
    requires t.Watch? && t in s.timers && t.name in s.containers
    ensures var s2 := Put(Disarm(s, t), t.name, s.containers[t.name].(lastUpdate := RolledBack));
      Splits(s, pre, Reverted(cfg, s2, t.name, probe.recorded, env), t.name, TimerFires(t, probe))
  {
    var n := t.name;
    var s2 := Put(Disarm(s, t), n, s.containers[n].(lastUpdate := RolledBack));
    var s3 := Rewritten(s2, n, probe.recorded);
    OutcomePlain(s, t, RolledBack);
    RevertedLaunched(cfg, s2, n, probe.recorded, env);
    PlainTrans(s, s2, s3, n);
    pre := Known(s3, n);
    KnownSplits(s, s3, Reverted(cfg, s2, n, probe.recorded, env), n, TimerFires(t, probe));
  }

  lemma OutcomePlain(s: State, t: Timer, outcome: LastUpdate)
    requires t in s.timers && t.name in s.containers
    ensures var s' := Put(Disarm(s, t), t.name, s.containers[t.name].(lastUpdate := outcome));
      Plain(s, s', t.name) && s'.registry == s.registry && s'.containers.Keys == s.containers.Keys
  {
    var n, s1 := t.name, Disarm(s, t);
    DisarmPlain(s, t);
    PlainPut(s1, n, s.containers[n].(lastUpdate := outcome));
    PlainTrans(s, s1, Put(s1, n, s.containers[n].(lastUpdate := outcome)), n);
  }

  lemma OutcomeSplits(s: State, t: Timer, probe: Probe, outcome: LastUpdate)
    requires t.Watch? && t in s.timers && t.name in s.containers
    ensures var s' := Put(Disarm(s, t), t.name, s.containers[t.name].(lastUpdate := outcome));
      Splits(s, s', s', t.name, TimerFires(t, probe))
  {
    var s' := Put(Disarm(s, t), t.name, s.containers[t.name].(lastUpdate := outcome));
    OutcomePlain(s, t, outcome);
    SettledSplits(s, s', t.name, TimerFires(t, probe));
  }

  lemma WatchSplits(cfg: Settings, s: State, t: Timer, probe: Probe, env: Env) returns (pre: State)
    requires t.Watch? && t in s.timers
    ensures Splits(s, pre, WatchPoll(cfg, s, t, probe, env), t.name, TimerFires(t, probe))
  {
    var n, e := t.name, TimerFires(t, probe);
    pre := WatchPoll(cfg, s, t, probe, env);
    if n !in s.containers {
      DisarmPlain(s, t);
      SettledSplits(s, Disarm(s, t), n, e);
    } else if s.containers[n].hc.health == Healthy && s.containers[n].started > t.after {
      OutcomeSplits(s, t, probe, Verified);
    } else if s.now < t.deadline {
      PlainRefl(s, n);
      SettledSplits(s, s, n, e);
    } else if ReadConfig(s, n).bundle != "" && probe.swapOk {
      pre := RevertSplits(cfg, s, t, probe, env);
    } else {
      OutcomeSplits(s, t, probe, RollbackFailed);
    }
  }

  lemma KnownSplits(s: State, pre: State, s': State, m: string, e: Event)
    requires Plain(s, pre, m) && pre.registry == s.registry && pre.containers.Keys == s.containers.Keys
    requires Launches(s, e) == Some(m) && Launched(Known(pre, m), s', m)
    ensures Splits(s, Known(pre, m), s', m, e)
  {
    OnlyGrown(s, pre, m);
    KnownGrown(s, pre, m);
    assert OnlyAt(s, pre, m, m);
  }

  lemma PreSplits(s: State, pre: State, s': State, m: string, e: Event)
    requires Plain(s, pre, m) && pre.registry == s.registry && Launches(s, e) == Some(m) && Launched(pre, s', m)
    ensures Splits(s, pre, s', m, e)
  {
    OnlyGrown(s, pre, m);
    assert OnlyAt(s, pre, m, m);
  }

  lemma SettledSplits(s: State, s': State, m: string, e: Event)
    requires Plain(s, s', m) && s'.registry == s.registry && Launches(s, e) == Some(m)
    ensures Splits(s, s', s', m, e)
  {
    LaunchedRefl(s', m);
    PreSplits(s, s', s', m, e);
  }

  lemma SmallTimerOnly(cfg: Settings, s: State, t: Timer, probe: Probe, env: Env)
    requires t in s.timers && !t.Watch? && !t.Relaunch? && !t.GraceKill?
    ensures Only(s, Fire(cfg, s, t, probe, env), t.name)
    ensures !t.HealthTick? ==> Plain(s, Fire(cfg, s, t, probe, env), t.name)
  {
    var n, s1 := t.name, Disarm(s, t);
    DisarmPlain(s, t);
    if n in s.containers {
      var c := s.containers[n];
      if t.HealthTick? {
        OnlyPut(s1, n, c.(hcScheduled := false));
        OnlyTrans(s, s1, Put(s1, n, c.(hcScheduled := false)), n);
      } else if t.FwdCheck? {
        var s2 := Put(s1, n, c.(fwdPid := 0, fwdError := true));
        PlainPut(s1, n, s2.containers[n]);
        PlainTrans(s, s1, s2.(forwarders := s1.forwarders - {t.pid}), n);
      } else {
        TouchesPlain(s1, StartForwards(s1, n, env), n);
        PlainTrans(s, s1, StartForwards(s1, n, env), n);
      }
    }
  }

  lemma RelaunchSplits(cfg: Settings, s: State, t: Timer, probe: Probe, env: Env)
    requires t in s.timers && t.Relaunch? && Launches(s, TimerFires(t, probe)) != None
    ensures Splits(s, Disarm(s, t), Fire(cfg, s, t, probe, env), t.name, TimerFires(t, probe))
  {
    DisarmPlain(s, t);
    LaunchLaunched(cfg, Disarm(s, t), t.name, env);
    PreSplits(s, Disarm(s, t), Fire(cfg, s, t, probe, env), t.name, TimerFires(t, probe));
  }

  lemma IdleSplits(cfg: Settings, s: State, t: Timer, probe: Probe, env: Env)
    requires t in s.timers && (t.GraceKill? || t.Relaunch?) && Launches(s, TimerFires(t, probe)) == None
    ensures var s' := Fire(cfg, s, t, probe, env); Splits(s, s', s', t.name, TimerFires(t, probe))
  {
    var s' := Fire(cfg, s, t, probe, env);
    DisarmPlain(s, t);
    SameGrown(s, s', t.name);
    LaunchedRefl(s', t.name);
  }

  lemma FireSplits(cfg: Settings, s: State, t: Timer, probe: Probe, env: Env) returns (pre: State)
    requires t in s.timers
    ensures Splits(s, pre, Fire(cfg, s, t, probe, env), t.name, TimerFires(t, probe))
  {
    pre := Fire(cfg, s, t, probe, env);
    if t.Watch? {
      pre := WatchSplits(cfg, s, t, probe, env);
    } else if t.Relaunch? && Launches(s, TimerFires(t, probe)) != None {
      pre := Disarm(s, t);
      RelaunchSplits(cfg, s, t, probe, env);
    } else if t.GraceKill? || t.Relaunch? {
      IdleSplits(cfg, s, t, probe, env);
    } else {
      SmallTimerOnly(cfg, s, t, probe, env);
      QuietSplits(s, pre, t.name, TimerFires(t, probe));
    }
  }

  lemma AdoptedRecord(s: State, s2: State, s': State, n: string)
    requires n in s2.containers && Newborn(s2.containers[n]) && n in s'.containers && SameInstance(s2, s', n) && StillWaits(s2, s', n)
    ensures Newborn(s'.containers[n])
  {
  }

  lemma AdoptSplits(s: State, n: string, env: Env)
    requires n !in s.containers
    ensures Splits(s, Adopt(s, n, env), Adopt(s, n, env), n, AdoptRunning(n))
  {
    AdoptGrown(s, n, env);
    LaunchedRefl(Adopt(s, n, env), n);
  }

  lemma AdoptGrown(s: State, n: string, env: Env)
    requires n !in s.containers
    ensures Grown(s, Adopt(s, n, env), n) && Adopt(s, n, env).registry == s.registry
  {
    var s2 := TakenOver(Ensure(s, n), n);
    var s3 := ScheduleHealth(s2, n);
    assert Newborn(s2.containers[n]);
    AdoptedRecord(s, s2, s3, n);
    AdoptedRecord(s, s3, StartForwards(s3, n, env), n);
    forall m ensures GrownAt(s, Adopt(s, n, env), n, m) {
      assert m != n && m in s2.containers ==> s2.containers[m] == s.containers[m];
    }
  }

  lemma RollbackSplits(cfg: Settings, s: State, m: string, recorded: bool, swapOk: bool, env: Env) returns (pre: State)
    ensures Splits(s, pre, OperatorRollback(cfg, s, m, recorded, swapOk, env), m, CallRollback(m, recorded, swapOk))
  {
    var e := CallRollback(m, recorded, swapOk);
    if !ValidName(m) || ReadConfig(s, m).bundle == "" || !swapOk {
      pre := s;
      PlainRefl(s, m);
      SettledSplits(s, s, m, e);
    } else {
      RevertedLaunched(cfg, s, m, recorded, env);
      pre := Known(Rewritten(s, m, recorded), m);
      KnownSplits(s, Rewritten(s, m, recorded), Reverted(cfg, s, m, recorded, env), m, e);
    }
  }

  lemma UpgradeSplits(cfg: Settings, s: State, m: string, hadPrev: bool, env: Env) returns (pre: State)
    ensures Splits(s, pre, UpgradeDone(cfg, s, m, hadPrev, env), m, UpgradeFinished(m, hadPrev))
  {
    var s1 := UpgradeRecorded(cfg, s, m, hadPrev);
    var s2 := Restart(cfg, s1, m, env);
    RestartLaunched(cfg, s1, m, env);
    pre := Known(s1, m);
    KnownSplits(s, s1, s2, m, UpgradeFinished(m, hadPrev));
    assert UpgradeDone(cfg, s, m, hadPrev, env).containers == s2.containers;
    forall n ensures LaunchedAt(pre, UpgradeDone(cfg, s, m, hadPrev, env), m, n) {
      assert LaunchedAt(pre, s2, m, n);
    }
  }

  lemma StartSplits(cfg: Settings, s: State, m: string, env: Env)
    ensures Splits(s, Known(s, m), OperatorStart(cfg, s, m, env), m, CallStart(m))
    ensures Splits(s, Known(s, m), Restart(cfg, s, m, env), m, CallRestart(m))
  {
    PlainRefl(s, m);
    LaunchedRefl(s, m);
    RestartLaunched(cfg, s, m, env);
    if ValidName(m) { StartLaunched(cfg, Ensure(s, m), m, env); }
    KnownSplits(s, s, OperatorStart(cfg, s, m, env), m, CallStart(m));
    KnownSplits(s, s, Restart(cfg, s, m, env), m, CallRestart(m));
  }

  lemma LearnSplits(s: State, m: string)
    ensures Splits(s, Ensure(s, m), Ensure(s, m), m, Learn(m))
  {
    LaunchedRefl(Ensure(s, m), m);
    forall n ensures GrownAt(s, Ensure(s, m), m, n) { }
  }

  lemma QuietStepSplits(cfg: Settings, s: State, env: Env, e: Event) returns (m: string)
    requires Enabled(s, env, e) && s.now == env.now && Launches(s, e) == None && !e.TimerFires?
    ensures Splits(s, Step(cfg, s, env, e), Step(cfg, s, env, e), m, e)
  {
    m := match e
      case JailExits(p) => s.jails[p]
      case WorkerExits(p, _) => s.workers[p]
      case ForwarderExits(p) => s.forwarders[p]
      case EditRegistry(_) => ""
      case CallStop(n) => n
      case CallSetConfig(n, _) => n
      case CallRemove(n) => n
      case AdoptedGone(n) => n
      case Learn(n) => n
      case _ => "";
    if e.Learn? { LearnSplits(s, m); } else { QuietSplits(s, Step(cfg, s, env, e), m, e); }
  }

  lemma CallSplits(cfg: Settings, s: State, env: Env, e: Event) returns (m: string, pre: State)
    requires Enabled(s, env, e) && s.now == env.now && Launches(s, e) != None && !e.TimerFires?
    ensures Splits(s, pre, Step(cfg, s, env, e), m, e)
  {
    m := e.name;
    match e
    case CallStart(_) => pre := Known(s, m); StartSplits(cfg, s, m, env);
    case CallRestart(_) => pre := Known(s, m); StartSplits(cfg, s, m, env);
    case CallRollback(_, recorded, swapOk) => pre := RollbackSplits(cfg, s, m, recorded, swapOk, env);
    case UpgradeFinished(_, hadPrev) => pre := UpgradeSplits(cfg, s, m, hadPrev, env);
    case AdoptRunning(_) => pre := Adopt(s, m, env); AdoptSplits(s, m, env);
  }

  lemma NowSplits(cfg: Settings, s: State, env: Env, e: Event) returns (m: string, pre: State)
    requires Enabled(s, env, e) && s.now == env.now
    ensures Splits(s, pre, Step(cfg, s, env, e), m, e)
  {
    if e.TimerFires? {
      m := e.timer.name;
      pre := FireSplits(cfg, s, e.timer, e.probe, env);
    } else if Launches(s, e) != None {
      m, pre := CallSplits(cfg, s, env, e);
    } else {
      pre := Step(cfg, s, env, e);
      m := QuietStepSplits(cfg, s, env, e);
    }
  }

  /** Every step is something one container's callback does to its own record, and
    * what a launch of that container does afterwards.
    */
  lemma StepSplits(cfg: Settings, s0: State, env: Env, e: Event) returns (m: string, pre: State)
    requires Enabled(s0, env, e)
    ensures Splits(s0, pre, Step(cfg, s0, env, e), m, e)
  {
    var s := s0.(now := env.now);
    m, pre := NowSplits(cfg, s, env, e);
    assert Step(cfg, s, env, e) == Step(cfg, s0, env, e);
    SplitsMoved(s0, s, pre, Step(cfg, s0, env, e), m, e);
  }

  lemma SplitsMoved(s0: State, s: State, pre: State, s': State, m: string, e: Event)
    requires s == s0.(now := s.now) && Splits(s, pre, s', m, e)
    ensures Splits(s0, pre, s', m, e)
  {
    forall n ensures GrownAt(s0, pre, m, n) { assert GrownAt(s, pre, m, n); }
    if Launches(s0, e) == None {
      forall n ensures DormantAt(s0, pre, n) { assert DormantAt(s, pre, n); }
    }
  }
}
