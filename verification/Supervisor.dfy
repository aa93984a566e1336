/** The container supervisor of src/container.cpp as a state machine: what each
  * operator call, timer and child exit does to the containers, the pending timers
  * and the supervised children.
  *
  * One callback runs at one moment: what it observes of the outside world is an
  * Env. Timers may fire in any order and at any time after they are armed, so
  * whatever holds of every run here holds for every choice of delays.
  */
module Supervisor {
  import opened Wrappers
  import opened DependencyGraph
  import opened Health

  const STABLE_SECS: nat := 10
  const INFRA_WAIT_SECS: nat := 8
  const FWD_MAX_RESTARTS: nat := 5

  /** The settings the supervisor reads (include/config.hpp). Delays in ms. */
  datatype Settings = Settings(
    startTimeout: int, restartDelay: nat, restartMaxDelay: nat, maxRestarts: int,
    safeUpdate: bool, safeUpdateWindow: int)

  datatype Desired = Down | Up

  /** Why a container that is wanted up is left without a pending relaunch. */
  datatype ParkReason = NoBundle | PipeFailed | ForkFailed | RespawnOff

  datatype LastUpdate = NoResult | Verified | RolledBack | RollbackFailed

  /** The registry entry of a container, as far as the supervisor acts on it.
    * `overrides` stands for any field besides infra that needs a shadow bundle,
    * `publishes` for a non-empty ports list, `hcBlocking` for a tcp, http or exec check.
    */
  datatype Config = Config(
    bundle: string, infra: string, respawn: bool, dependsOn: seq<string>, reqMounts: seq<string>,
    overrides: bool, publishes: bool,
    healthcheck: bool, hcInterval: int, hcBlocking: bool, policy: Policy)

  const EMPTY_CONFIG: Config :=
    Config("", "", true, [], [], false, false, false, 0, false, Policy(3, 0, false))

  /** Auxiliary history; no step decides on it.
    * parked: why the last launch or exit left no relaunch behind.
    * waitsOn, waitedAt: the dependency the last launch deferred to, and when.
    * workerOn: the instance the running health worker measures.
    * passedOn: the instance the last passing health cycle measured.
    * fwdArmed: forwarder respawns scheduled since the last deliberate stop.
    * relaunches: how many the restart policy scheduled since crash_count was last reset.
    * ranStable: it was last reset by the exit of a stable run, whose own relaunch counts.
    */
  datatype History = History(
    parked: Option<ParkReason>, waitsOn: Option<string>, waitedAt: nat,
    workerOn: nat, passedOn: nat, fwdArmed: nat, relaunches: nat, ranStable: bool)

  datatype Container = Container(
    conf: Config,
    desired: Desired, pid: nat, adopted: bool, started: nat,
    restarts: nat, crashCount: nat,
    depWaitSince: nat, infraWaitSince: nat, infraWasUp: bool,
    fwdPid: nat, fwdRestarts: nat, fwdError: bool,
    hc: HealthState, hcScheduled: bool, hcWorker: nat, hcResourceOk: bool,
    lastUpdate: LastUpdate,
    hist: History)

  /** One-shot and repeating uloop tasks. `arose` of a Watch is auxiliary: the
    * first process id that can belong to an instance launched after it was armed.
    */
  datatype Timer =
    | Relaunch(name: string, delay: nat)
    | GraceKill(name: string, pid: nat)
    | HealthTick(name: string)
    | FwdRetry(name: string)
    | FwdCheck(name: string, pid: nat)
    | FwdDeferred(name: string, pid: nat)
    | Watch(name: string, deadline: int, after: nat, arose: nat)

  /** containers, registry and timers are the daemon's; jails, forwarders and
    * workers are its not yet reaped children by process id; signalled and killed
    * record the jails that got a stop signal and those that got SIGKILL.
    */
  datatype State = State(
    containers: map<string, Container>,
    registry: map<string, Config>,
    timers: multiset<Timer>,
    jails: map<nat, string>,
    forwarders: map<nat, string>,
    workers: map<nat, string>,
    nextPid: nat,
    now: nat,
    signalled: set<nat>,
    killed: set<nat>)

  /** What one callback sees outside the daemon. Sets hold the container names
    * (paths, netns names) for which the query or system call succeeds.
    */
  datatype Env = Env(
    now: nat,
    alive: set<string>,      // cgroup has processes
    mounted: set<string>,    // required mountpoints present
    netns: set<string>,      // infra netns present (after ifup)
    shadowOk: set<string>,   // shadow bundle could be written
    pipeOk: set<string>, forkOk: set<string>,
    fwdSpecs: set<string>,   // a forwarder argv can be built
    fwdForkOk: set<string>)

  const FRESH_HISTORY: History := History(None, None, 0, 0, 0, 0, 0, false)

  const FRESH_CONTAINER: Container :=
    Container(EMPTY_CONFIG, Down, 0, false, 0, 0, 0, 0, 0, false, 0, 0, false,
              HealthState(Unknown, 0), false, 0, true, NoResult, FRESH_HISTORY)

  // ---- registry ---------------------------------------------------------------

  predicate NameChar(c: char) {
    'a' <= c <= 'z' || 'A' <= c <= 'Z' || '0' <= c <= '9' || c == '_' || c == '-' || c == '.'
  }

  predicate ValidName(n: string) {
    0 < |n| <= 128 && n[0] != '.' && forall i | 0 <= i < |n| :: NameChar(n[i])
  }

  function ReadConfig(s: State, n: string): Config {
    if n in s.registry then s.registry[n] else EMPTY_CONFIG
  }

  /** apply_config: without a healthcheck block only the interval and the checks
    * are reset; the retry policy keeps its last value.
    */
  function ApplyConfig(c: Container, conf: Config): Container {
    c.(conf := if conf.healthcheck then conf
               else conf.(hcInterval := 0, hcBlocking := false, policy := c.conf.policy))
  }

  /** registry_deps for every name at once. */
  function RegistryGraph(registry: map<string, Config>): Graph {
    map n | n in registry && ValidName(n) :: registry[n].dependsOn
  }

  // ---- small updates ----------------------------------------------------------

  function Put(s: State, n: string, c: Container): State {
    s.(containers := s.containers[n := c])
  }

  function Arm(s: State, t: Timer): State {
    s.(timers := s.timers + multiset{t})
  }

  function Disarm(s: State, t: Timer): State {
    s.(timers := s.timers - multiset{t})
  }

  function Ensure(s: State, n: string): State {
    if n in s.containers then s else Put(s, n, ApplyConfig(FRESH_CONTAINER, ReadConfig(s, n)))
  }

  /** Launches and forwarders arm no watch. */
  ghost predicate NoNewWatch(s: State, s': State) {
    forall t | t in s'.timers && t.Watch? :: t in s.timers
  }

  /** Only container n's record may differ, and it is still wanted as before. */
  ghost predicate Touches(s: State, s': State, n: string) {
    && n in s.containers && n in s'.containers
    && s'.containers == s.containers[n := s'.containers[n]]
    && s'.containers[n].desired == s.containers[n].desired
    && s'.registry == s.registry && s'.now == s.now
    && s'.signalled == s.signalled && s'.killed == s.killed
    && s.timers <= s'.timers && NoNewWatch(s, s') && s.nextPid <= s'.nextPid
  }

  ghost predicate SameInstance(s: State, s': State, n: string)
    requires n in s.containers && n in s'.containers
  {
    && s'.containers[n].pid == s.containers[n].pid && s'.containers[n].started == s.containers[n].started
    && SameHealth(s.containers[n], s'.containers[n])
  }

  predicate SameHealth(c: Container, d: Container) {
    && d.hc == c.hc && d.hcWorker == c.hcWorker && d.hcResourceOk == c.hcResourceOk
    && d.hist.workerOn == c.hist.workerOn && d.hist.passedOn == c.hist.passedOn
  }

  /** n waits, or does not, as before. */
  ghost predicate StillWaits(s: State, s': State, n: string)
    requires n in s.containers && n in s'.containers
  {
    && s'.containers[n].hist.waitsOn == s.containers[n].hist.waitsOn
    && s'.containers[n].depWaitSince == s.containers[n].depWaitSince
  }

  lemma TouchesTrans(s: State, s1: State, s2: State, n: string)
    requires Touches(s, s1, n) && Touches(s1, s2, n)
    ensures Touches(s, s2, n)
  {
  }

  ghost function NotUp(s: State): set<string> {
    set m | m in s.containers && s.containers[m].desired != Up
  }

  /** launch and start touch no container that was already wanted up, except the
    * one they are called for.
    */
  predicate LeftAlone(s: State, s': State, n: string, m: string) {
    m in s.containers && m in s'.containers && m != n ==>
      (s.containers[m].desired == Up ==> s'.containers[m] == s.containers[m])
  }

  ghost predicate Leaves(s: State, s': State, n: string) {
    && s'.containers.Keys == s.containers.Keys
    && s'.registry == s.registry && s'.now == s.now
    && s'.signalled == s.signalled && s'.killed == s.killed
    && forall m :: LeftAlone(s, s', n, m)
  }

  lemma LeavesRefl(s: State, n: string)
    ensures Leaves(s, s, n)
  {
  }

  lemma LeavesPut(s: State, n: string, c: Container)
    requires n in s.containers
    ensures Leaves(s, Put(s, n, c), n)
    ensures c.desired == Up ==> NotUp(Put(s, n, c)) == NotUp(s) - {n}
  {
  }

  /** So no further container can become unwanted: the measure of the recursion. */
  lemma LeavesShrinks(s: State, s': State, n: string)
    requires Leaves(s, s', n) && n in s.containers && s'.containers[n].desired == Up
    ensures NotUp(s') <= NotUp(s)
  {
    forall m | m in NotUp(s') ensures m in NotUp(s) { assert LeftAlone(s, s', n, m); }
  }

  /** Starting a container that was not wanted up, then going on with n. */
  lemma LeavesPull(s: State, s1: State, s2: State, dep: string, n: string)
    requires Leaves(s, s1, dep) && Leaves(s1, s2, n)
    requires dep in s.containers && s.containers[dep].desired != Up
    ensures Leaves(s, s2, n)
  {
    forall m ensures LeftAlone(s, s2, n, m) { assert LeftAlone(s, s1, dep, m) && LeftAlone(s1, s2, n, m); }
  }

  lemma LeavesTrans(s: State, s1: State, s2: State, n: string)
    requires Leaves(s, s1, n) && Leaves(s1, s2, n)
    ensures Leaves(s, s2, n)
  {
    forall m ensures LeftAlone(s, s2, n, m) { assert LeftAlone(s, s1, n, m) && LeftAlone(s1, s2, n, m); }
  }

  lemma TouchesLeaves(s: State, s': State, n: string)
    requires Touches(s, s', n)
    ensures Leaves(s, s', n)
  {
  }

  // ---- port forwarders ----------------------------------------------------------

  function StopForwards(s: State, n: string): (s': State)
    requires n in s.containers
    ensures Touches(s, s', n) && SameInstance(s, s', n) && StillWaits(s, s', n)
  {
    var c := s.containers[n];
    if c.fwdPid == 0 then s
    else
      Put(s, n, c.(fwdPid := 0, fwdRestarts := 0, hist := c.hist.(fwdArmed := 0)))
        .(forwarders := s.forwarders - {c.fwdPid})
  }

  /** With no forwarder running: fork one if ports are published. */
  function Publish(s: State, n: string, env: Env): (s': State)
    requires n in s.containers
    ensures Touches(s, s', n) && SameInstance(s, s', n) && StillWaits(s, s', n)
  {
    var c := s.containers[n].(fwdError := false);
    if !c.conf.publishes then Put(s, n, c)
    else if n !in env.fwdSpecs || n !in env.fwdForkOk then Put(s, n, c.(fwdError := true))
    else Arm(Forwarding(s, n), FwdCheck(n, s.nextPid))
  }

  function Forwarding(s: State, n: string): (s': State)
    requires n in s.containers
    ensures Touches(s, s', n) && SameInstance(s, s', n) && StillWaits(s, s', n) && s'.timers == s.timers
  {
    var c := s.containers[n].(fwdError := false);
    Put(s, n, c.(fwdPid := s.nextPid)).(forwarders := s.forwarders[s.nextPid := n], nextPid := s.nextPid + 1)
  }

  function StartForwards(s: State, n: string, env: Env): (s': State)
    requires n in s.containers
    ensures Touches(s, s', n) && SameInstance(s, s', n) && StillWaits(s, s', n)
  {
    var s1 := StopForwards(s, n);
    var s2 := Publish(s1, n, env);
    TouchesTrans(s, s1, s2, n);
    s2
  }

  function StartForwardsDeferred(s: State, n: string, env: Env): (s': State)
    requires n in s.containers
    ensures Touches(s, s', n) && SameInstance(s, s', n) && StillWaits(s, s', n)
  {
    if !s.containers[n].conf.publishes then s
    else
      var s1 := StartForwards(s, n, env);
      var c := s1.containers[n];
      if c.fwdPid != 0 || !c.fwdError then s1 else Arm(s1, FwdDeferred(n, c.pid))
  }

  // ---- launch -------------------------------------------------------------------

  function ScheduleHealth(s: State, n: string): (s': State)
    requires n in s.containers
    ensures Touches(s, s', n) && SameInstance(s, s', n) && StillWaits(s, s', n)
  {
    var c := s.containers[n];
    if c.conf.hcInterval <= 0 || c.hcScheduled then s
    else Arm(Put(s, n, c.(hcScheduled := true)), HealthTick(n))
  }

  function Park(s: State, n: string, why: ParkReason): State
    requires n in s.containers
  {
    var c := s.containers[n];
    Put(s, n, c.(hist := c.hist.(parked := Some(why))))
  }

  /** The fork succeeded: a fresh child is supervised as container n. */
  function Running(s: State, n: string): (s': State)
    requires n in s.containers
    ensures Touches(s, s', n) && StillWaits(s, s', n)
  {
    var c := s.containers[n];
    var pid := s.nextPid;
    Put(s, n, c.(pid := pid, adopted := false, started := s.now))
      .(jails := s.jails[pid := n], nextPid := pid + 1)
  }

  /** The end of launch: fork ujail and take up supervision. */
  function Spawn(s: State, n: string, env: Env): (s': State)
    requires n in s.containers
    ensures Touches(s, s', n) && StillWaits(s, s', n)
  {
    if n !in env.pipeOk then Park(s, n, PipeFailed)
    else if n !in env.forkOk then Park(s, n, ForkFailed)
    else
      var s1 := Running(s, n);
      var s2 := ScheduleHealth(s1, n);
      var s3 := StartForwardsDeferred(s2, n, env);
      TouchesTrans(s, s1, s2, n);
      TouchesTrans(s, s2, s3, n);
      s3
  }

  function Retry(cfg: Settings, s: State, n: string): State {
    Arm(s, Relaunch(n, cfg.restartDelay))
  }

  predicate MountsMissing(c: Container, env: Env) {
    exists m | m in c.conf.reqMounts :: m !in env.mounted
  }

  predicate InfraUp(c: Container, env: Env) {
    c.conf.infra == "" || c.conf.infra in env.netns
  }

  predicate NeedsShadow(c: Container) {
    c.conf.infra != "" || c.conf.overrides
  }

  /** The infra netns is missing: wait for it, but give up on one that has not
    * been up for this container within INFRA_WAIT_SECS.
    */
  function AwaitInfra(cfg: Settings, s: State, n: string): (s': State)
    requires n in s.containers && s.containers[n].desired == Up
    ensures Leaves(s, s', n) && StillWaits(s, s', n)
    ensures s.containers[n].infraWaitSince == 0 ==> s'.containers[n].desired == Up
  {
    var c0 := s.containers[n];
    var c := if c0.infraWaitSince == 0 then c0.(infraWaitSince := s.now) else c0;
    var gaveUp := c.(desired := Down, infraWaitSince := 0);
    LeavesPut(s, n, gaveUp);
    LeavesPut(s, n, c);
    if !c.infraWasUp && s.now - c.infraWaitSince >= INFRA_WAIT_SECS then Put(s, n, gaveUp)
    else Retry(cfg, Put(s, n, c), n)
  }

  /** A shadow bundle is written if the entry overrides anything; then fork. */
  function ShadowAndSpawn(cfg: Settings, s: State, n: string, env: Env): (s': State)
    requires n in s.containers
    ensures Leaves(s, s', n) && StillWaits(s, s', n)
    ensures s'.containers[n].desired == s.containers[n].desired
  {
    if NeedsShadow(s.containers[n]) && n !in env.shadowOk then Retry(cfg, s, n)
    else
      TouchesLeaves(s, Spawn(s, n, env), n);
      Spawn(s, n, env)
  }

  /** The infra netns gate of launch, and what follows it. */
  function JoinInfra(cfg: Settings, s: State, n: string, env: Env): (s': State)
    requires n in s.containers && s.containers[n].desired == Up
    ensures Leaves(s, s', n) && StillWaits(s, s', n)
    ensures s.containers[n].infraWaitSince == 0 ==> s'.containers[n].desired == Up
  {
    var c := s.containers[n];
    if !InfraUp(c, env) then AwaitInfra(cfg, s, n)
    else
      var s1 := Put(s, n, c.(infraWaitSince := 0, infraWasUp := true));
      var s2 := ShadowAndSpawn(cfg, s1, n, env);
      LeavesPut(s, n, s1.containers[n]);
      LeavesTrans(s, s1, s2, n);
      s2
  }

  /** launch once the dependencies are satisfied: mounts, infra, shadow bundle, fork. */
  function LaunchReady(cfg: Settings, s: State, n: string, env: Env): (s': State)
    requires n in s.containers && s.containers[n].desired == Up
    ensures Leaves(s, s', n)
    ensures s'.containers[n].hist.waitsOn == s.containers[n].hist.waitsOn && s'.containers[n].depWaitSince == 0
    ensures s.containers[n].infraWaitSince == 0 ==> s'.containers[n].desired == Up
  {
    var s1 := Put(s, n, s.containers[n].(depWaitSince := 0));
    LeavesPut(s, n, s1.containers[n]);
    if MountsMissing(s1.containers[n], env) then Retry(cfg, s1, n)
    else
      var s2 := JoinInfra(cfg, s1, n, env);
      LeavesTrans(s, s1, s2, n);
      s2
  }

  predicate DepRunning(s: State, dep: string, env: Env)
    requires dep in s.containers
  {
    s.containers[dep].pid != 0 || dep in env.alive
  }

  predicate DepReady(s: State, dep: string, env: Env)
    requires dep in s.containers
  {
    var d := s.containers[dep];
    DepRunning(s, dep, env) && (d.conf.hcInterval <= 0 || d.hc.health == Healthy)
  }

  /** launch pulls a dependency up only if it neither runs nor is wanted up. */
  predicate Pulls(s: State, dep: string, env: Env)
    requires dep in s.containers
  {
    !DepRunning(s, dep, env) && s.containers[dep].desired != Up
  }

  /** The state in which the dependency loop went on or gave up waiting. */
  datatype Gate = Gate(state: State, passed: bool)

  function Defer(cfg: Settings, s: State, n: string, dep: string): (s': State)
    requires n in s.containers
    ensures Leaves(s, s', n) && s'.containers[n].desired == s.containers[n].desired
  {
    var c := s.containers[n];
    Retry(cfg, Put(s, n, c.(depWaitSince := if c.depWaitSince == 0 then s.now else c.depWaitSince,
                            hist := c.hist.(waitsOn := Some(dep), waitedAt := s.now))), n)
  }

  /** The dependency loop of launch from its i-th entry on. */
  ghost function LaunchDeps(cfg: Settings, s: State, n: string, i: nat, timedOut: bool, env: Env): (g: Gate)
    requires n in s.containers && s.containers[n].desired == Up
    requires i <= |s.containers[n].conf.dependsOn|
    ensures Leaves(s, g.state, n) && g.state.containers[n].desired == Up
    ensures g.passed ==> g.state.containers[n] == s.containers[n]
    decreases NotUp(s), 1, |s.containers[n].conf.dependsOn| - i
  {
    var deps := s.containers[n].conf.dependsOn;
    if i == |deps| then LeavesRefl(s, n); Gate(s, true)
    else
      var dep := deps[i];
      if dep == n || dep !in s.containers || DepReady(s, dep, env) then
        LaunchDeps(cfg, s, n, i + 1, timedOut, env)
      else
        var loops := Reaches(RegistryGraph(s.registry), dep, n);
        if timedOut && !loops then
          LaunchDeps(cfg, s, n, i + 1, timedOut, env)
        else
          var s1 := Pull(cfg, s, dep, env);
          assert LeftAlone(s, s1, dep, n);
          if loops then
            var g := LaunchDeps(cfg, s1, n, i + 1, timedOut, env);
            PullLeaves(s, s1, g.state, dep, n);
            g
          else
            var s2 := Defer(cfg, s1, n, dep);
            PullLeaves(s, s1, s2, dep, n);
            Gate(s2, false)
  }

  lemma PullLeaves(s: State, s1: State, s2: State, dep: string, n: string)
    requires dep in s.containers && Leaves(s1, s2, n)
    requires s1 == s || (Leaves(s, s1, dep) && s.containers[dep].desired != Up)
    ensures Leaves(s, s2, n)
  {
    if s1 != s { LeavesPull(s, s1, s2, dep, n); }
  }

  ghost function Pull(cfg: Settings, s: State, dep: string, env: Env): (s': State)
    requires dep in s.containers
    ensures Leaves(s, s', dep)
    ensures s' == s || s.containers[dep].desired != Up
    ensures NotUp(s') <= NotUp(s)
    decreases NotUp(s), 0, 0
  {
    if Pulls(s, dep, env) then Start(cfg, s, dep, env) else LeavesRefl(s, dep); s
  }

  ghost predicate DepTimeout(cfg: Settings, s: State, c: Container) {
    c.depWaitSince != 0 && s.now - c.depWaitSince >= cfg.startTimeout
  }

  /** What launch does first: read the registry again. */
  function Refreshed(s: State, n: string): Container
    requires n in s.containers
    ensures Refreshed(s, n).desired == s.containers[n].desired
    ensures Refreshed(s, n).infraWaitSince == s.containers[n].infraWaitSince
  {
    var c := ApplyConfig(s.containers[n], ReadConfig(s, n));
    c.(hist := c.hist.(parked := None, waitsOn := None))
  }

  ghost function Launch(cfg: Settings, s: State, n: string, env: Env): (s': State)
    requires n in s.containers && s.containers[n].desired == Up
    ensures Leaves(s, s', n)
    ensures s.containers[n].infraWaitSince == 0 ==> s'.containers[n].desired == Up
    decreases NotUp(s), 2, 0
  {
    var c := Refreshed(s, n);
    var s1 := Put(s, n, c);
    LeavesPut(s, n, c);
    assert NotUp(s1) == NotUp(s);
    if c.conf.bundle == "" then
      Park(s1, n, NoBundle)
    else
      var g := LaunchDeps(cfg, s1, n, 0, DepTimeout(cfg, s, c), env);
      LeavesTrans(s, s1, g.state, n);
      if g.passed then
        var s2 := LaunchReady(cfg, g.state, n, env);
        LeavesTrans(s, g.state, s2, n);
        s2
      else g.state
  }

  function MarkUp(c: Container): Container {
    c.(desired := Up, crashCount := 0, depWaitSince := 0, infraWaitSince := 0,
       hist := c.hist.(relaunches := 0, ranStable := false, waitsOn := None))
  }

  ghost function Start(cfg: Settings, s: State, n: string, env: Env): (s': State)
    requires n in s.containers
    ensures Leaves(s, s', n) && NotUp(s') <= NotUp(s)
    decreases NotUp(s) - {n}, 3, 0
  {
    var c := s.containers[n];
    if !ValidName(n) || c.conf.bundle == "" then LeavesRefl(s, n); s
    else
      var s1 := Put(s, n, MarkUp(c));
      LeavesPut(s, n, MarkUp(c));
      if c.pid == 0 then
        var s2 := Launch(cfg, s1, n, env);
        LeavesTrans(s, s1, s2, n);
        LeavesShrinks(s, s2, n);
        s2
      else s1
  }
}
