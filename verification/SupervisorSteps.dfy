/** Every callback of the supervisor as one step, and runs of such steps. */
module SupervisorSteps {
  import opened Wrappers
  import opened Health
  import opened Supervisor

  // ---- frames ---------------------------------------------------------------------

  /** The record of a container after a callback that launches nothing: it waits for
    * nobody new, is not newly wanted, and runs no new instance.
    */
  predicate Quieter(c: Container, d: Container) {
    && (d.hist.waitsOn == None || d.hist.waitsOn == c.hist.waitsOn)
    && (d.desired == Up ==> c.desired == Up)
    && (d.pid != 0 ==> d.pid == c.pid)
  }

  /** Its health is as before, and no new probe is under way. */
  predicate NoBetter(c: Container, d: Container) {
    && d.hc == c.hc
    && (d.hc.health == Healthy ==> d.hist.passedOn == c.hist.passedOn && d.pid == c.pid)
    && (d.hcWorker != 0 ==>
          && d.hcWorker == c.hcWorker && d.hist.workerOn == c.hist.workerOn && d.pid == c.pid
          && d.hcResourceOk == c.hcResourceOk)
  }

  predicate OnlyAt(s: State, s': State, n: string, m: string) {
    m in s'.containers ==>
      && m in s.containers
      && if m == n then Quieter(s.containers[n], s'.containers[n]) else s'.containers[m] == s.containers[m]
  }

  /** A callback of container n touches no other record, arms no watch and kills nobody. */
  ghost predicate Only(s: State, s': State, n: string) {
    s'.killed == s.killed && s.nextPid <= s'.nextPid && NoNewWatch(s, s') && forall m :: OnlyAt(s, s', n, m)
  }

  ghost predicate Plain(s: State, s': State, n: string) {
    Only(s, s', n) && (n in s.containers && n in s'.containers ==> NoBetter(s.containers[n], s'.containers[n]))
  }

  lemma OnlyTrans(s: State, s1: State, s2: State, n: string)
    requires Only(s, s1, n) && Only(s1, s2, n)
    ensures Only(s, s2, n)
  {
    forall m ensures OnlyAt(s, s2, n, m) { assert OnlyAt(s, s1, n, m) && OnlyAt(s1, s2, n, m); }
  }

  lemma PlainTrans(s: State, s1: State, s2: State, n: string)
    requires Plain(s, s1, n) && Plain(s1, s2, n)
    ensures Plain(s, s2, n)
  {
    OnlyTrans(s, s1, s2, n);
    assert OnlyAt(s, s1, n, n) && OnlyAt(s1, s2, n, n);
  }

  lemma PlainPut(s: State, n: string, c: Container)
    requires n in s.containers && Quieter(s.containers[n], c) && NoBetter(s.containers[n], c)
    ensures Plain(s, Put(s, n, c), n)
  {
  }

  lemma OnlyPut(s: State, n: string, c: Container)
    requires n in s.containers && Quieter(s.containers[n], c)
    ensures Only(s, Put(s, n, c), n)
  {
  }

  lemma TouchesPlain(s: State, s': State, n: string)
    requires Touches(s, s', n) && SameInstance(s, s', n) && StillWaits(s, s', n)
    ensures Plain(s, s', n)
  {
  }

  // ---- exits and the restart policy ---------------------------------------------

  /** base << k */
  function Shifted(base: nat, k: nat): nat {
    if k == 0 then base else 2 * Shifted(base, k - 1)
  }

  function Min(a: int, b: int): int {
    if a < b then a else b
  }

  /** The relaunch delay after the count-th rapid crash in a row. */
  function Backoff(cfg: Settings, count: nat): nat {
    var shift := if count > 0 then count - 1 else 0;
    Min(Shifted(cfg.restartDelay, Min(shift, 5)), cfg.restartMaxDelay)
  }

  /** How long the instance of c has been running, in seconds. */
  function UpFor(s: State, c: Container): int {
    if c.started != 0 then s.now - c.started else 0
  }

  /** Which crash in a row an exit after `up` seconds is. */
  function Streak(c: Container, up: int): nat {
    if up >= STABLE_SECS then 0 else c.crashCount + 1
  }

  /** schedule_respawn: the restart policy after an exit. */
  function ScheduleRespawn(cfg: Settings, s: State, n: string): (s': State)
    requires n in s.containers
    ensures Plain(s, s', n) && n in s'.containers && s'.containers[n].pid == s.containers[n].pid
    ensures SameHealth(s.containers[n], s'.containers[n]) && s.timers <= s'.timers
    ensures s'.containers[n].conf == s.containers[n].conf && s'.containers[n].fwdPid == s.containers[n].fwdPid
    ensures s'.containers[n].fwdRestarts == s.containers[n].fwdRestarts
  {
    var up := UpFor(s, s.containers[n]);
    var s1 := Put(s, n, s.containers[n].(started := 0));
    PlainPut(s, n, s1.containers[n]);
    var c := s1.containers[n];
    if c.desired != Up then s1
    else
      var s2 := AfterWanted(cfg, s1, n, up);
      PlainTrans(s, s1, s2, n);
      s2
  }

  /** An exit of a container that is wanted up. */
  function AfterWanted(cfg: Settings, s: State, n: string, up: int): (s': State)
    requires n in s.containers
    ensures Plain(s, s', n) && n in s'.containers && s'.containers[n].pid == s.containers[n].pid
    ensures SameHealth(s.containers[n], s'.containers[n]) && s.timers <= s'.timers
    ensures s'.containers[n].conf == s.containers[n].conf && s'.containers[n].fwdPid == s.containers[n].fwdPid
    ensures s'.containers[n].fwdRestarts == s.containers[n].fwdRestarts
  {
    if s.containers[n].conf.respawn then CrashPolicy(cfg, s, n, up)
    else
      PlainPut(s, n, Park(s, n, RespawnOff).containers[n]);
      Park(s, n, RespawnOff)
  }

  /** The crash-aware part: back off, or give up after maxRestarts rapid crashes. */
  function CrashPolicy(cfg: Settings, s: State, n: string, up: int): (s': State)
    requires n in s.containers
    ensures Plain(s, s', n) && n in s'.containers && s'.containers[n].pid == s.containers[n].pid
    ensures SameHealth(s.containers[n], s'.containers[n]) && s.timers <= s'.timers
    ensures s'.containers[n].conf == s.containers[n].conf && s'.containers[n].fwdPid == s.containers[n].fwdPid
    ensures s'.containers[n].fwdRestarts == s.containers[n].fwdRestarts
  {
    var c := Crashed(cfg, s.containers[n], up);
    PlainPut(s, n, c);
    if c.desired != Up then Put(s, n, c)
    else Arm(Put(s, n, c), Relaunch(n, Backoff(cfg, c.crashCount)))
  }

  /** The record of a container that exits after running for `up` seconds. */
  function Crashed(cfg: Settings, c: Container, up: int): (d: Container)
    ensures d.hist.waitsOn == c.hist.waitsOn && d.depWaitSince == c.depWaitSince
    ensures d.desired == c.desired || d.desired == Down
    ensures d.pid == c.pid && d.conf == c.conf && d.fwdPid == c.fwdPid && d.fwdRestarts == c.fwdRestarts && SameHealth(c, d)
  {
    var count := Streak(c, up);
    if cfg.maxRestarts > 0 && count > cfg.maxRestarts then
      c.(crashCount := count, desired := Down)
    else
      c.(crashCount := count, restarts := c.restarts + 1,
         hist := if up >= STABLE_SECS then c.hist.(relaunches := 1, ranStable := true)
                 else c.hist.(relaunches := c.hist.relaunches + 1))
  }

  function CancelWorker(s: State, n: string): (s': State)
    requires n in s.containers
    ensures Plain(s, s', n)
  {
    var c := s.containers[n];
    if c.hcWorker == 0 then s
    else
      PlainPut(s, n, c.(hcWorker := 0));
      Put(s, n, c.(hcWorker := 0)).(workers := s.workers - {c.hcWorker})
  }

  function Erase(s: State, n: string): (s': State)
    ensures Plain(s, s', n)
  {
    s.(containers := s.containers - {n})
  }

  /** The instance of n is gone: no pid, health unknown, nothing published. */
  function Gone(s: State, n: string): (s': State)
    requires n in s.containers
    ensures Only(s, s', n) && n in s'.containers
    ensures s'.timers == s.timers && s'.registry == s.registry
    ensures var c, d := s.containers[n], s'.containers[n];
      && d.pid == 0 && d.hc == c.hc.(health := Unknown) && d.conf == c.conf
      && d.hcWorker == c.hcWorker && d.hcResourceOk == c.hcResourceOk && d.hist.workerOn == c.hist.workerOn
  {
    var c := s.containers[n];
    var s1 := Put(s, n, c.(pid := 0, adopted := false, hc := c.hc.(health := Unknown))).(jails := s.jails - {c.pid});
    OnlyPut(s, n, s1.containers[n]);
    TouchesPlain(s1, StopForwards(s1, n), n);
    OnlyTrans(s, s1, StopForwards(s1, n), n);
    StopForwards(s1, n)
  }

  /** proc_exit_cb */
  function JailExit(cfg: Settings, s: State, n: string): (s': State)
    requires n in s.containers
    ensures Only(s, s', n)
    ensures n in s'.containers ==>
      s'.containers[n].hc == s.containers[n].hc.(health := Unknown) && s'.containers[n].hcWorker == 0
  {
    var s1 := CancelWorker(Gone(s, n), n);
    OnlyTrans(s, Gone(s, n), s1, n);
    var s2 := if n !in s.registry then Erase(s1, n) else ScheduleRespawn(cfg, s1, n);
    OnlyTrans(s, s1, s2, n);
    s2
  }

  /** One dead container in adopt_watchdog: as above, but the registry is not
    * consulted and a running health worker is left alone.
    */
  function AdoptedExit(cfg: Settings, s: State, n: string): (s': State)
    requires n in s.containers
    ensures Only(s, s', n)
  {
    OnlyTrans(s, Gone(s, n), ScheduleRespawn(cfg, Gone(s, n), n), n);
    ScheduleRespawn(cfg, Gone(s, n), n)
  }

  // ---- operator calls -------------------------------------------------------------

  /** signal_and_reap */
  function SignalAndReap(s: State, n: string, target: nat): (s': State)
    ensures Plain(s, s', n)
  {
    Arm(s, GraceKill(n, target)).(signalled := s.signalled + {target})
  }

  ghost function OperatorStart(cfg: Settings, s: State, n: string, env: Env): (s': State)
    ensures s'.killed == s.killed
  {
    if ValidName(n) then Start(cfg, Ensure(s, n), n, env) else s
  }

  function Stop(s: State, n: string): (s': State)
    ensures Plain(s, s', n)
  {
    if !ValidName(n) || n !in s.containers then s
    else
      var c := s.containers[n];
      var s1 := Put(s, n, c.(desired := Down));
      PlainPut(s, n, s1.containers[n]);
      if c.pid == 0 then s1
      else
        PlainTrans(s, s1, SignalAndReap(s1, n, c.pid), n);
        SignalAndReap(s1, n, c.pid)
  }

  /** Wanted up by the operator, with a new crash count. */
  function WantedAnew(c: Container): Container {
    c.(desired := Up, crashCount := 0, hist := c.hist.(relaunches := 0, ranStable := false))
  }

  ghost function Restart(cfg: Settings, s: State, n: string, env: Env): (s': State)
    ensures s'.killed == s.killed
  {
    if !ValidName(n) then s
    else
      var s1 := Ensure(s, n);
      var c := s1.containers[n];
      if c.conf.bundle == "" then s1
      else
        var s2 := Put(s1, n, WantedAnew(c));
        if c.pid != 0 then SignalAndReap(s2, n, c.pid) else Launch(cfg, s2, n, env)
  }

  function SetConfig(s: State, n: string, conf: Config): (s': State)
    ensures Plain(s, s', n)
  {
    if !ValidName(n) || conf.bundle == "" then s
    else
      var s1 := s.(registry := s.registry[n := conf]);
      if n !in s1.containers then s1
      else
        PlainPut(s1, n, ApplyConfig(s1.containers[n], conf));
        Put(s1, n, ApplyConfig(s1.containers[n], conf))
  }

  function Remove(s: State, n: string): (s': State)
    ensures Plain(s, s', n)
  {
    if !ValidName(n) then s
    else
      var s1 := s.(registry := s.registry - {n});
      if n !in s1.containers then s1
      else if s1.containers[n].pid != 0 then Stop(s1, n)
      else
        PlainTrans(s1, CancelWorker(s1, n), Erase(CancelWorker(s1, n), n), n);
        Erase(CancelWorker(s1, n), n)
  }

  function TakenOver(s: State, n: string): (s': State)
    requires n in s.containers
    ensures s'.killed == s.killed && n in s'.containers
    ensures StillWaits(s, s', n) && SameHealth(s.containers[n], s'.containers[n])
  {
    var c := s.containers[n];
    var pid := s.nextPid;
    Put(s, n, c.(pid := pid, adopted := true, desired := Up, started := s.now,
                 infraWasUp := c.infraWasUp || c.conf.infra != ""))
      .(jails := s.jails[pid := n], nextPid := pid + 1)
  }

  /** init: a jail of a previous daemon life is taken over. */
  function Adopt(s: State, n: string, env: Env): (s': State)
    requires n !in s.containers
    ensures s'.killed == s.killed
  {
    var s1 := Ensure(s, n);
    var s2 := TakenOver(s1, n);
    var s3 := ScheduleHealth(s2, n);
    if s1.containers[n].conf.publishes then StartForwards(s3, n, env) else s3
  }

  // ---- health -----------------------------------------------------------------------

  /** apply_health_verdict for a cycle that measured the instance `on`. */
  function Judge(s: State, n: string, ok: bool, on: nat): (s': State)
    requires n in s.containers
    ensures Only(s, s', n) && n in s'.containers
  {
    var c := s.containers[n];
    var r := ApplyVerdict(c.conf.policy, c.hc, ok, c.started, c.pid, s.now);
    var c1 := c.(hc := r.state, hist := if ok then c.hist.(passedOn := on) else c.hist);
    var s1 := Put(s, n, c1);
    OnlyPut(s, n, c1);
    if r.restart then
      OnlyTrans(s, s1, SignalAndReap(s1, n, c.pid), n);
      SignalAndReap(s1, n, c.pid)
    else s1
  }

  /** What probing the outside world yields during a timer callback. */
  datatype Probe = Probe(resourceOk: bool, workerStarts: bool, forwarderDead: bool, swapOk: bool, recorded: bool)

  /** A probing worker is forked for the current instance. */
  function WorkerStart(s: State, n: string): (s': State)
    requires n in s.containers
    ensures Only(s, s', n) && n in s'.containers
  {
    var c := s.containers[n];
    var w := s.nextPid;
    OnlyPut(s, n, c.(hcWorker := w, hist := c.hist.(workerOn := c.pid)));
    Put(s, n, c.(hcWorker := w, hist := c.hist.(workerOn := c.pid)))
      .(workers := s.workers[w := n], nextPid := w + 1)
  }

  /** run_health_check */
  function HealthCycle(s: State, n: string, probe: Probe): (s': State)
    requires n in s.containers
    ensures Only(s, s', n) && n in s'.containers
  {
    var c := s.containers[n];
    if c.pid == 0 then
      OnlyPut(s, n, c.(hc := HealthState(Unknown, 0)));
      Put(s, n, c.(hc := HealthState(Unknown, 0)))
    else if c.hcWorker != 0 then s
    else if !c.conf.hcBlocking then Judge(s, n, probe.resourceOk, c.pid)
    else
      var s1 := Put(s, n, c.(hcResourceOk := probe.resourceOk));
      OnlyPut(s, n, s1.containers[n]);
      var s2 := if !probe.workerStarts then Judge(s1, n, probe.resourceOk, c.pid) else WorkerStart(s1, n);
      OnlyTrans(s, s1, s2, n);
      s2
  }

  /** health_worker_exit_cb */
  function WorkerExit(s: State, n: string, ok: bool): (s': State)
    requires n in s.containers
    ensures Only(s, s', n) && n in s'.containers
  {
    var c := s.containers[n];
    var s1 := CancelWorker(s, n);
    var s2 := Judge(s1, n, c.hcResourceOk && ok, c.hist.workerOn);
    OnlyTrans(s, s1, s2, n);
    s2
  }

  /** fwd_exit_cb */
  function ForwarderExit(s: State, n: string): (s': State)
    requires n in s.containers
    ensures Plain(s, s', n)
  {
    var c := s.containers[n].(fwdPid := 0);
    var s1 := Put(s, n, c).(forwarders := s.forwarders - {s.containers[n].fwdPid});
    PlainPut(s, n, c);
    if c.pid == 0 || c.desired != Up then s1
    else
      PlainTrans(s, s1, ForwarderRetry(s1, n), n);
      ForwarderRetry(s1, n)
  }

  /** The container still serves: put the forwarder back, a bounded number of times. */
  function ForwarderRetry(s: State, n: string): (s': State)
    requires n in s.containers
    ensures Plain(s, s', n)
  {
    var c := s.containers[n];
    if c.fwdRestarts + 1 > FWD_MAX_RESTARTS then
      PlainPut(s, n, c.(fwdRestarts := c.fwdRestarts + 1, fwdError := true));
      Put(s, n, c.(fwdRestarts := c.fwdRestarts + 1, fwdError := true))
    else
      PlainPut(s, n, Republishing(c));
      Arm(Put(s, n, Republishing(c)), FwdRetry(n))
  }

  function Republishing(c: Container): Container {
    c.(fwdRestarts := c.fwdRestarts + 1, hist := c.hist.(fwdArmed := c.hist.fwdArmed + 1))
  }

  // ---- safe update -----------------------------------------------------------------

  /** The health gate of a finished upgrade of n. */
  predicate Gated(cfg: Settings, s: State, n: string) {
    cfg.safeUpdate && n in s.containers && s.containers[n].conf.hcInterval > 0
  }

  /** Before the restart: forget the last result, record what was upgraded from. */
  function UpgradeRecorded(cfg: Settings, s: State, n: string, hadPrev: bool): (s': State)
    ensures Plain(s, s', n) && s'.registry == s.registry && s'.containers.Keys == s.containers.Keys
  {
    if Gated(cfg, s, n) then
      var s1 := Put(s, n, s.containers[n].(lastUpdate := NoResult));
      PlainPut(s, n, s1.containers[n]);
      PlainTrans(s, s1, Rewritten(s1, n, hadPrev), n);
      Rewritten(s1, n, hadPrev)
    else Rewritten(s, n, hadPrev)
  }

  /** The entry of n is written back with other provenance, if there is any recorded. */
  function Rewritten(s: State, n: string, recorded: bool): (s': State)
    ensures Plain(s, s', n) && s'.registry == s.registry && s'.containers.Keys == s.containers.Keys
  {
    if recorded then SetConfig(s, n, ReadConfig(s, n)) else s
  }

  /** After a successful swap of the bundles: provenance, then a restart. */
  ghost function Reverted(cfg: Settings, s: State, n: string, recorded: bool, env: Env): (s': State)
    ensures s'.killed == s.killed
  {
    Restart(cfg, Rewritten(s, n, recorded), n, env)
  }

  ghost function OperatorRollback(cfg: Settings, s: State, n: string, recorded: bool, swapOk: bool, env: Env): (s': State)
    ensures s'.killed == s.killed
  {
    if !ValidName(n) || ReadConfig(s, n).bundle == "" || !swapOk then s else Reverted(cfg, s, n, recorded, env)
  }

  function WatchFor(cfg: Settings, now: nat, n: string, c: Container, base: nat, arose: nat): Timer {
    var window := cfg.safeUpdateWindow + c.conf.policy.startPeriod;
    Watch(n, now + (if window > 0 then window else 1), base, arose)
  }

  /** job_exit_cb for a successful upgrade job of n: record what it upgraded from
    * (hadPrev), restart onto the new bundle and, if gated, watch the instance that
    * replaces the one running now.
    */
  ghost function UpgradeDone(cfg: Settings, s: State, n: string, hadPrev: bool, env: Env): (s': State)
    ensures s'.killed == s.killed
  {
    var s1 := Restart(cfg, UpgradeRecorded(cfg, s, n, hadPrev), n, env);
    if Gated(cfg, s, n) && n in s1.containers then
      Arm(s1, WatchFor(cfg, s1.now, n, s1.containers[n], s.containers[n].started, s.nextPid))
    else s1
  }

  /** A poll of watch_health, and what job_exit_cb does with the answer. */
  ghost function WatchPoll(cfg: Settings, s: State, t: Timer, probe: Probe, env: Env): (s': State)
    requires t.Watch? && t in s.timers
    ensures s'.killed == s.killed
  {
    var n := t.name;
    var s1 := Disarm(s, t);
    if n !in s.containers then s1
    else
      var c := s.containers[n];
      if c.hc.health == Healthy && c.started > t.after then Put(s1, n, c.(lastUpdate := Verified))
      else if s.now >= t.deadline then
        if ReadConfig(s, n).bundle != "" && probe.swapOk then
          Reverted(cfg, Put(s1, n, c.(lastUpdate := RolledBack)), n, probe.recorded, env)
        else
          Put(s1, n, c.(lastUpdate := RollbackFailed))
      else s
  }

  // ---- timers -----------------------------------------------------------------------

  ghost function Fire(cfg: Settings, s: State, t: Timer, probe: Probe, env: Env): State
    requires t in s.timers
  {
    var n := t.name;
    var s1 := Disarm(s, t);
    if t.Watch? then WatchPoll(cfg, s, t, probe, env)
    else if n !in s.containers then s1
    else
      var c := s.containers[n];
      match t
      case Relaunch(_, _) => if c.desired == Up && c.pid == 0 then Launch(cfg, s1, n, env) else s1
      case GraceKill(_, target) => if c.pid == target then s1.(killed := s1.killed + {target}) else s1
      case HealthTick(_) =>
        if c.conf.hcInterval <= 0 then Put(s1, n, c.(hcScheduled := false)) else HealthCycle(s, n, probe)
      case FwdRetry(_) =>
        if c.pid != 0 && c.desired == Up && c.fwdPid == 0 then StartForwards(s1, n, env) else s1
      case FwdCheck(_, was) =>
        if c.fwdPid == was && probe.forwarderDead then
          Put(s1, n, c.(fwdPid := 0, fwdError := true)).(forwarders := s1.forwarders - {was})
        else s1
      case FwdDeferred(_, launched) =>
        if c.pid == launched && c.fwdPid == 0 then StartForwards(s1, n, env) else s1
  }

  lemma FireTick(cfg: Settings, s: State, t: Timer, probe: Probe, env: Env)
    requires t in s.timers && t.HealthTick? && t.name in s.containers
    ensures var c := s.containers[t.name];
      Fire(cfg, s, t, probe, env) ==
        if c.conf.hcInterval <= 0 then Put(Disarm(s, t), t.name, c.(hcScheduled := false)) else HealthCycle(s, t.name, probe)
  {
  }

  // ---- steps and runs ---------------------------------------------------------------

  datatype Event =
    | CallStart(name: string)
    | CallStop(name: string)
    | CallRestart(name: string)
    | CallSetConfig(name: string, conf: Config)
    | CallRemove(name: string)
    | CallRollback(name: string, recorded: bool, swapOk: bool)
    | EditRegistry(registry: map<string, Config>)   // files changed behind the daemon
    | Learn(name: string)                           // a registered container becomes known
    | AdoptRunning(name: string)
    | JailExits(pid: nat)
    | AdoptedGone(name: string)
    | WorkerExits(pid: nat, ok: bool)
    | ForwarderExits(pid: nat)
    | TimerFires(timer: Timer, probe: Probe)
    | UpgradeFinished(name: string, hadPrev: bool)

  ghost predicate Enabled(s: State, env: Env, e: Event) {
    && s.now <= env.now && 0 < env.now
    && match e
       case AdoptRunning(n) => n !in s.containers
       case JailExits(p) => p in s.jails && s.jails[p] in s.containers && !s.containers[s.jails[p]].adopted
       case AdoptedGone(n) => n in s.containers && s.containers[n].adopted && s.containers[n].pid != 0 && n !in env.alive
       case WorkerExits(p, _) => p in s.workers && s.workers[p] in s.containers
       case ForwarderExits(p) => p in s.forwarders && s.forwarders[p] in s.containers
       case TimerFires(t, _) => t in s.timers
       case _ => true
  }

  ghost function Step(cfg: Settings, s0: State, env: Env, e: Event): State
    requires Enabled(s0, env, e)
  {
    var s := s0.(now := env.now);
    match e
    case CallStart(n) => OperatorStart(cfg, s, n, env)
    case CallStop(n) => Stop(s, n)
    case CallRestart(n) => Restart(cfg, s, n, env)
    case CallSetConfig(n, conf) => SetConfig(s, n, conf)
    case CallRemove(n) => Remove(s, n)
    case CallRollback(n, recorded, swapOk) => OperatorRollback(cfg, s, n, recorded, swapOk, env)
    case EditRegistry(r) => s.(registry := r)
    case Learn(n) => Ensure(s, n)
    case AdoptRunning(n) => Adopt(s, n, env)
    case JailExits(p) => JailExit(cfg, s, s.jails[p])
    case AdoptedGone(n) => AdoptedExit(cfg, s, n)
    case WorkerExits(p, ok) => WorkerExit(s, s.workers[p], ok)
    case ForwarderExits(p) => ForwarderExit(s, s.forwarders[p])
    case TimerFires(t, probe) => Fire(cfg, s, t, probe, env)
    case UpgradeFinished(n, hadPrev) => UpgradeDone(cfg, s, n, hadPrev, env)
  }

  /** A run as the successive states of the daemon and what led to each. */
  datatype Moment = Moment(env: Env, event: Event)

  ghost predicate IsRun(cfg: Settings, states: seq<State>, moments: seq<Moment>) {
    && |states| == |moments| + 1
    && forall i | 0 <= i < |moments| ::
         && Enabled(states[i], moments[i].env, moments[i].event)
         && states[i + 1] == Step(cfg, states[i], moments[i].env, moments[i].event)
  }

  /** The daemon before init: no container known, nothing supervised. */
  predicate Initial(s: State) {
    && s.containers == map[] && s.timers == multiset{} && s.jails == map[]
    && s.forwarders == map[] && s.workers == map[]
    && s.nextPid > 0 && s.signalled == {} && s.killed == {}
  }
}
