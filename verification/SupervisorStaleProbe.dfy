/** What a probe of an adopted jail that is gone can do: verify an upgrade on the
  * instance it replaced.
  */
module SupervisorStaleProbe {
  import opened DependencyGraph
  import opened Health
  import opened Supervisor
  import opened SupervisorSteps
  import opened SupervisorFrames
  import opened SupervisorInvariant
  import opened SupervisorRuns
  import opened SupervisorWaiting
  import opened SupervisorUpgrade
  import opened SupervisorTraces

  // ---- a launch that cannot be held up ----------------------------------------------------

  /** Everything a launch with this configuration needs from outside. */
  function Willing(now: nat, n: string, conf: Config): Env {
    Env(now, {}, set m | m in conf.reqMounts, {conf.infra}, {n}, {n}, {n}, {}, {})
  }

  predicate Forks(s: State, s': State, n: string) {
    n in s'.containers && s'.containers[n].pid >= s.nextPid && s'.containers[n].pid != 0 && s'.containers[n].started == s.now
  }

  lemma SpawnForks(s: State, n: string, env: Env)
    requires n in s.containers && s.containers[n].pid == 0 && s.nextPid > 0
    requires n in env.pipeOk && n in env.forkOk
    ensures Forks(s, Spawn(s, n, env), n)
  {
  }

  lemma ReadyForks(cfg: Settings, s: State, n: string, env: Env)
    requires n in s.containers && s.containers[n].desired == Up && s.containers[n].pid == 0 && s.nextPid > 0
    requires var conf := s.containers[n].conf; env == Willing(s.now, n, conf)
    ensures Forks(s, LaunchReady(cfg, s, n, env), n)
  {
    var s1 := Put(s, n, s.containers[n].(depWaitSince := 0));
    assert !MountsMissing(s1.containers[n], env) && InfraUp(s1.containers[n], env);
    var s2 := Put(s1, n, s1.containers[n].(infraWaitSince := 0, infraWasUp := true));
    SpawnForks(s2, n, env);
    assert JoinInfra(cfg, s1, n, env) == ShadowAndSpawn(cfg, s2, n, env) == Spawn(s2, n, env);
  }

  /** A launch that defers leaves its container waiting from now on, if it was not. */
  lemma {:induction false} DefersNow(cfg: Settings, s: State, n: string, i: nat, env: Env)
    requires n in s.containers && s.containers[n].desired == Up && s.containers[n].depWaitSince == 0
    requires i <= |s.containers[n].conf.dependsOn|
    ensures var g := LaunchDeps(cfg, s, n, i, false, env); !g.passed ==> DefersFrom(s.now, s.containers[n], g.state, n)
    decreases NotUp(s), |s.containers[n].conf.dependsOn| - i
  {
    if i < |s.containers[n].conf.dependsOn| {
      var dep := s.containers[n].conf.dependsOn[i];
      if dep == n || dep !in s.containers || DepReady(s, dep, env) {
        DefersNow(cfg, s, n, i + 1, env);
      } else {
        var s1 := Pull(cfg, s, dep, env);
        PullStays(cfg, s, dep, env, n);
        if Reaches(RegistryGraph(s.registry), dep, n) {
          DefersNow(cfg, s1, n, i + 1, env);
        } else {
          assert DefersFrom(s.now, s.containers[n], Defer(cfg, s1, n, dep), n);
        }
      }
    }
  }

  /** The record c of n has come to wait at this time. */
  predicate DefersFrom(now: nat, c: Container, s: State, n: string) {
    n in s.containers && var d := s.containers[n]; d.depWaitSince == now && d.conf == c.conf && d.pid == c.pid
  }

  lemma PullStays(cfg: Settings, s: State, dep: string, env: Env, n: string)
    requires dep in s.containers && n in s.containers && dep != n && s.containers[n].desired == Up
    ensures var s1 := Pull(cfg, s, dep, env);
      && n in s1.containers && s1.containers[n] == s.containers[n] && s1.now == s.now && s1.registry == s.registry
      && NotUp(s1) <= NotUp(s)
  {
    assert LeftAlone(s, Pull(cfg, s, dep, env), dep, n);
  }

  /** n is down and waits for a dependency from now on. */
  predicate WaitsFromNow(s: State, n: string, bundle: string) {
    && n in s.containers && s.containers[n].pid == 0 && s.containers[n].depWaitSince == s.now
    && s.containers[n].conf.bundle == bundle
  }

  /** Either nothing holds the launch up, or it is the first time that a dependency does. */
  lemma LaunchForks(cfg: Settings, s: State, n: string, env: Env)
    requires n in s.containers && s.containers[n].desired == Up && s.containers[n].pid == 0 && s.nextPid > 0
    requires ReadConfig(s, n).bundle != "" && env == Willing(s.now, n, ReadConfig(s, n))
    requires s.containers[n].depWaitSince == 0 || DepTimeout(cfg, s, s.containers[n])
    ensures var s' := Launch(cfg, s, n, env);
      Forks(s, s', n) || (s.containers[n].depWaitSince == 0 && WaitsFromNow(s', n, ReadConfig(s, n).bundle))
  {
    var c := Refreshed(s, n);
    var s1 := Put(s, n, c);
    var timedOut := DepTimeout(cfg, s, c);
    var g := LaunchDeps(cfg, s1, n, 0, timedOut, env);
    assert NotUp(s1) == NotUp(s) by { LeavesPut(s, n, c); }
    if timedOut { TimeoutFailsOpen(cfg, s1, n, 0, env); } else { DefersNow(cfg, s1, n, 0, env); }
    if g.passed {
      DepsGrow(cfg, s1, n, timedOut, env);
      ReadyForks(cfg, g.state, n, env);
    }
  }

  lemma DepsGrow(cfg: Settings, s: State, n: string, timedOut: bool, env: Env)
    requires n in s.containers && s.containers[n].desired == Up
    requires s.containers[n].conf.dependsOn == ReadConfig(s, n).dependsOn
    ensures var s' := LaunchDeps(cfg, s, n, 0, timedOut, env).state;
      s.nextPid <= s'.nextPid && s'.now == s.now
  {
    if n in s.registry { DepsLaunched(cfg, s, n, 0, timedOut, env); }
  }

  // ---- a probe that outlives its instance ---------------------------------------------------

  /** A probe of the instance `gone` of n is under way and can pass, and t watches n. */
  ghost predicate Haunted(cfg: Settings, s: State, n: string, t: Timer, w: nat, gone: nat) {
    && Inv(cfg, s) && n in s.containers && n in s.registry && s.registry[n].bundle != ""
    && gone < s.nextPid
    && t.Watch? && t.name == n && t in s.timers && t.after <= s.now
    && var c := s.containers[n];
    c.hcWorker == w && CanPass(c) && c.hist.workerOn == gone
  }

  lemma ExitHaunts(cfg: Settings, s: State, n: string, t: Timer, w: nat, gone: nat)
    requires Haunted(cfg, s, n, t, w, gone) && s.containers[n].pid == gone && gone != 0
    ensures var s' := AdoptedExit(cfg, s, n);
      && Haunted(cfg, s', n, t, w, gone) && s'.containers[n].pid == 0
      && s'.containers[n].conf == s.containers[n].conf && s'.containers[n].depWaitSince <= s'.now
  {
    AdoptedExitKeeps(cfg, s, n);
    assert Tracked(cfg, AdoptedExit(cfg, s, n), n);
    assert ScheduleRespawn(cfg, Gone(s, n), n) == AdoptedExit(cfg, s, n);
    RespawnWorld(cfg, Gone(s, n), n);
  }

  lemma RespawnWorld(cfg: Settings, s: State, n: string)
    requires n in s.containers
    ensures var s' := ScheduleRespawn(cfg, s, n); s'.registry == s.registry && s'.nextPid == s.nextPid
  {
  }

  /** A restart of n, which is down, forks it or finds a dependency to wait for. */
  lemma RestartHaunts(cfg: Settings, s: State, n: string, t: Timer, w: nat, gone: nat)
    requires Haunted(cfg, s, n, t, w, gone) && s.containers[n].pid == 0 && ValidName(n) && s.now > 0
    requires s.containers[n].conf.bundle != ""
    requires s.containers[n].depWaitSince == 0 || DepTimeout(cfg, s, s.containers[n])
    ensures var s' := Restart(cfg, s, n, Willing(s.now, n, s.registry[n]));
      && Haunted(cfg, s', n, t, w, gone) && s'.now == s.now
      && (Forks(s, s', n)
          || (s.containers[n].depWaitSince == 0 && WaitsFromNow(s', n, s.registry[n].bundle)))
  {
    var env := Willing(s.now, n, s.registry[n]);
    var s1 := Put(s, n, WantedAnew(s.containers[n]));
    var s' := Restart(cfg, s, n, env);
    assert s' == Launch(cfg, s1, n, env);
    LaunchForks(cfg, s1, n, env);
    RestartKeeps(cfg, s, n, env);
    RestartLaunched(cfg, s, n, env);
    assert Known(s, n) == s && LaunchedAt(s, s', n, n);
  }

  /** Judging by the probe of the old instance. */
  lemma WorkerVerifies(cfg: Settings, s: State, n: string, t: Timer, w: nat, gone: nat)
    requires Haunted(cfg, s, n, t, w, gone)
    requires s.containers[n].pid > gone && s.containers[n].started > t.after
    ensures var s' := WorkerExit(s, n, true);
      t in s'.timers && Passes(s', t) && s'.containers[n].pid > gone && s'.containers[n].hist.passedOn == gone
  {
  }

  lemma HauntedLater(cfg: Settings, s: State, n: string, t: Timer, w: nat, gone: nat, now: nat)
    requires Haunted(cfg, s, n, t, w, gone) && s.now <= now
    ensures Haunted(cfg, s.(now := now), n, t, w, gone)
  {
    ClockKeeps(cfg, s, now);
  }

  /** The run so far ends with n haunted. */
  ghost predicate LeadsHaunted(cfg: Settings, states: seq<State>, moments: seq<Moment>, s: State, n: string, t: Timer, w: nat, gone: nat) {
    Leads(cfg, states, moments, s) && Haunted(cfg, s, n, t, w, gone)
  }

  lemma ThenRestart(cfg: Settings, states: seq<State>, moments: seq<Moment>, s: State, n: string, t: Timer, w: nat, gone: nat, now: nat)
    returns (states': seq<State>, moments': seq<Moment>, s': State)
    requires LeadsHaunted(cfg, states, moments, s, n, t, w, gone) && s.containers[n].pid == 0 && ValidName(n)
    requires s.containers[n].conf.bundle != "" && s.now <= now && 0 < now
    requires s.containers[n].depWaitSince == 0 || now - s.containers[n].depWaitSince >= cfg.startTimeout
    ensures LeadsHaunted(cfg, states', moments', s', n, t, w, gone) && states <= states' && s'.now == now
    ensures moments <= moments' && (NoTimers(moments) ==> NoTimers(moments'))
    ensures Forks(s.(now := now), s', n)
      || (s.containers[n].depWaitSince == 0 && WaitsFromNow(s', n, s.registry[n].bundle))
  {
    var env := Willing(now, n, s.registry[n]);
    HauntedLater(cfg, s, n, t, w, gone, now);
    RestartHaunts(cfg, s.(now := now), n, t, w, gone);
    states', moments' := Then(cfg, states, moments, s, Moment(env, CallRestart(n)));
    s' := Step(cfg, s, env, CallRestart(n));
  }

  lemma ProbeHaunts(cfg: Settings, s: State, n: string, t: Timer, w: nat, gone: nat)
    requires Inv(cfg, s) && n in s.containers && Earned(s, n) && CanPass(s.containers[n])
    requires n in s.registry && s.registry[n].bundle != "" && t.Watch? && t.name == n && t in s.timers
    requires w == s.containers[n].hcWorker && gone == s.containers[n].pid
    ensures Haunted(cfg, s, n, t, w, gone)
  {
    assert Tracked(cfg, s, n) && JailOk(s, gone) && TimerOk(s, t);
  }

  lemma HauntedExit(cfg: Settings, s: State, env: Env, n: string, t: Timer, w: nat, gone: nat)
    requires Inv(cfg, s) && Earned(s, n) && Enabled(s, env, AdoptedGone(n)) && CanPass(s.containers[n])
    requires n in s.registry && s.registry[n].bundle != "" && t.Watch? && t.name == n && t in s.timers
    requires w == s.containers[n].hcWorker && gone == s.containers[n].pid
    ensures var s' := AdoptedExit(cfg, s.(now := env.now), n);
      && Haunted(cfg, s', n, t, w, gone) && s'.containers[n].pid == 0 && s'.containers[n].conf == s.containers[n].conf
      && s'.containers[n].depWaitSince <= s'.now == env.now
  {
    ProbeHaunts(cfg, s, n, t, w, gone);
    HauntedLater(cfg, s, n, t, w, gone, env.now);
    ExitHaunts(cfg, s.(now := env.now), n, t, w, gone);
  }

  lemma ThenExit(cfg: Settings, s: State, env: Env, n: string, t: Timer, w: nat, gone: nat)
    returns (states: seq<State>, moments: seq<Moment>, s': State)
    requires Inv(cfg, s) && Earned(s, n) && Enabled(s, env, AdoptedGone(n)) && CanPass(s.containers[n])
    requires n in s.registry && s.registry[n].bundle != "" && t.Watch? && t.name == n && t in s.timers
    requires w == s.containers[n].hcWorker && gone == s.containers[n].pid
    ensures LeadsHaunted(cfg, states, moments, s', n, t, w, gone) && states == [s, s'] && moments == [Moment(env, AdoptedGone(n))]
    ensures s'.containers[n].pid == 0 && s'.containers[n].conf == s.containers[n].conf && s'.containers[n].depWaitSince <= s'.now && s'.now == env.now
  {
    HauntedExit(cfg, s, env, n, t, w, gone);
    s' := AdoptedExit(cfg, s.(now := env.now), n);
    states, moments := Then(cfg, [s], [], s, Moment(env, AdoptedGone(n)));
  }

  /** One restart, or a second one after the patience with a dependency. */
  lemma ThenForked(cfg: Settings, states: seq<State>, moments: seq<Moment>, s: State, n: string, t: Timer, w: nat, gone: nat)
    returns (states': seq<State>, moments': seq<Moment>, s': State)
    requires LeadsHaunted(cfg, states, moments, s, n, t, w, gone) && s.containers[n].pid == 0 && ValidName(n)
    requires s.containers[n].conf.bundle != "" && s.containers[n].depWaitSince <= s.now
    requires NoTimers(moments)
    ensures LeadsHaunted(cfg, states', moments', s', n, t, w, gone) && states <= states' && moments <= moments' && NoTimers(moments')
    ensures s'.containers[n].pid > gone && s'.containers[n].started > t.after
    ensures s'.now <= s.now + Patience(cfg) + 1
  {
    var soon := s.now + 1 + if s.containers[n].depWaitSince == 0 then 0 else Patience(cfg);
    states', moments', s' := ThenRestart(cfg, states, moments, s, n, t, w, gone, soon);
    if s'.containers[n].pid == 0 {
      states', moments', s' := ThenRestart(cfg, states', moments', s', n, t, w, gone, soon + Patience(cfg));
    }
  }

  /** How long a launch can be held up by a dependency. */
  function Patience(cfg: Settings): nat {
    if cfg.startTimeout > 0 then cfg.startTimeout else 0
  }

  /** From every state in which an adopted jail goes away under a probe that can pass,
    * while an upgrade of its container is watched for long enough yet, some run goes on
    * until the watch passes on the verdict about that jail, before its window is over.
    * No timer needs to fire for that: the container is restarted by hand, a second time
    * if a dependency holds it up.
    */
  lemma StaleProbeCanVerify(cfg: Settings, s: State, env: Env, n: string, t: Timer) returns (states: seq<State>, moments: seq<Moment>)
    requires Inv(cfg, s) && Earned(s, n) && Enabled(s, env, AdoptedGone(n)) && CanPass(s.containers[n])
    requires ValidName(n) && n in s.registry && s.registry[n].bundle != "" && s.containers[n].conf.bundle != ""
    requires t.Watch? && t.name == n && t in s.timers && env.now + Patience(cfg) + 1 < t.deadline
    ensures IsRun(cfg, states, moments) && states[0] == s && |moments| > 0 && moments[0] == Moment(env, AdoptedGone(n))
    ensures NoTimers(moments)
    ensures var s' := states[|moments|];
      s'.now < t.deadline && t in s'.timers && Passes(s', t) && s'.containers[n].pid > s'.containers[n].hist.passedOn == s.containers[n].pid
  {
    var gone, w := s.containers[n].pid, s.containers[n].hcWorker;
    var states1, moments1, s1 := ThenExit(cfg, s, env, n, t, w, gone);
    var states2, moments2, s2 := ThenForked(cfg, states1, moments1, s1, n, t, w, gone);
    assert Tracked(cfg, s2, n);
    WorkerVerifies(cfg, s2, n, t, w, gone);
    var e := Moment(Willing(s2.now, n, s2.registry[n]), WorkerExits(w, true));
    states, moments := Then(cfg, states2, moments2, s2, e);
    assert Step(cfg, s2, e.env, e.event) == WorkerExit(s2, n, true);
  }

  // ---- such a run from the start ------------------------------------------------------------

  const WEB: Config := Config("/srv/web", "", true, [], [], false, false, true, 10, true, Policy(3, 0, false))

  const GOOD: Probe := Probe(true, true, false, true, false)

  /** web runs as configured, with pid 1, and is perhaps probed by the worker 2. */
  ghost predicate Scene(s: State, worker: nat) {
    && s.registry == map["web" := WEB] && "web" in s.containers
    && var c := s.containers["web"];
    && c.conf == WEB && c.desired == Up && c.pid == 1 && c.started == 1 && c.adopted && c.hc.health == Unknown
    && c.hcWorker == worker && c.hcResourceOk && c.hist.workerOn == (if worker == 0 then 0 else 1)
  }

  lemma Adopted() returns (states: seq<State>, moments: seq<Moment>, s: State)
    ensures Starts(states, moments, s) && |moments| == 1 && NoTimers(moments)
    ensures Scene(s, 0) && s.nextPid == 2 && s.now == 1 && HealthTick("web") in s.timers
  {
    var states1, moments1, s1 := Begins(map["web" := WEB]);
    states, moments := Then(PLAIN, states1, moments1, s1, Moment(Quiet(1), AdoptRunning("web")));
    s := Step(PLAIN, s1, Quiet(1), AdoptRunning("web"));
  }

  lemma Probed() returns (states: seq<State>, moments: seq<Moment>, s: State)
    ensures Starts(states, moments, s) && NotEarly(states, moments)
    ensures Scene(s, 2) && s.nextPid == 3 && s.now == 11
  {
    var states1, moments1, s1 := Adopted();
    var m := Moment(Quiet(11), TimerFires(HealthTick("web"), GOOD));
    states, moments := Then(PLAIN, states1, moments1, s1, m);
    s := Step(PLAIN, s1, m.env, m.event);
    NoTimersNotEarly(states1, moments1);
    NotEarlyThen(states1, moments1, s, m, 1);
  }

  lemma Upgraded() returns (states: seq<State>, moments: seq<Moment>, s: State)
    ensures Starts(states, moments, s) && NotEarly(states, moments)
    ensures Scene(s, 2) && s.nextPid == 3 && s.now == 12
    ensures Watch("web", 132, 1, 3) in s.timers
  {
    var states1, moments1, s1 := Probed();
    var m := Moment(Quiet(12), UpgradeFinished("web", false));
    states, moments := Then(PLAIN, states1, moments1, s1, m);
    s := Step(PLAIN, s1, m.env, m.event);
    NotEarlyThen(states1, moments1, s, m, 0);
    UpgradeStep(s1.(now := 12));
  }

  lemma UpgradeStep(s: State)
    requires Scene(s, 2) && s.nextPid == 3 && s.now == 12
    ensures var s' := UpgradeDone(PLAIN, s, "web", false, Quiet(12));
      Scene(s', 2) && s'.nextPid == 3 && s'.now == 12 && Watch("web", 132, 1, 3) in s'.timers
  {
    assert ValidName("web");
    var s1 := UpgradeRecorded(PLAIN, s, "web", false);
    var s2 := SignalAndReap(Put(s1, "web", WantedAnew(s1.containers["web"])), "web", 1);
    assert Restart(PLAIN, s1, "web", Quiet(12)) == s2;
  }

  /** A run from an initial state, with every timer in its time, that verifies an upgrade
    * on the old instance.
    */
  lemma StaleProbeVerifies() returns (states: seq<State>, moments: seq<Moment>, t: Timer)
    ensures IsRun(PLAIN, states, moments) && Initial(states[0]) && NotEarly(states, moments)
    ensures var s := states[|moments|];
      t.Watch? && s.now < t.deadline && t in s.timers && Passes(s, t) && s.containers[t.name].pid != s.containers[t.name].hist.passedOn
  {
    var states1, moments1, s1 := Upgraded();
    t := Watch("web", 132, 1, 3);
    RunKeeps(PLAIN, states1, moments1, |moments1|);
    assert ValidName("web");
    var more, events := StaleProbeCanVerify(PLAIN, s1, Quiet(13), "web", t);
    RunsJoin(PLAIN, states1, moments1, more, events);
    NotEarlyJoin(states1, moments1, more[1..], events);
    states, moments := states1 + more[1..], moments1 + events;
  }
}
