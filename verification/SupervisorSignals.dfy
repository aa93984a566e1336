/** Timers wait until they fire, and a stop signal is followed up: what a grace timer
  * kills, and that no signalled jail is forgotten.
  */
module SupervisorSignals {
  import opened Wrappers
  import opened Supervisor
  import opened SupervisorSteps
  import opened SupervisorInvariant
  import opened SupervisorFrames
  import opened SupervisorRuns
  import opened SupervisorSafety
  import opened SupervisorUpgrade

  /** n runs the jail p and will be killed if it ignores its stop signal. */
  predicate Announced(s: State, n: string, p: nat) {
    n in s.containers && s.containers[n].pid == p && GraceKill(n, p) in s.timers
  }

  /** Timers and signals stay, and whoever is newly signalled is followed up. */
  ghost predicate Steady(s: State, s': State, n: string) {
    && s.timers <= s'.timers && s.signalled <= s'.signalled
    && forall p | p in s'.signalled && p !in s.signalled :: Announced(s', n, p)
  }

  /** Timers stay and nobody is signalled. */
  ghost predicate Quiet(s: State, s': State) {
    s.timers <= s'.timers && s'.signalled == s.signalled
  }

  lemma QuietSteady(s: State, s1: State, s': State, n: string)
    requires Quiet(s, s1) && Steady(s1, s', n)
    ensures Steady(s, s', n)
  {
  }

  /** Arming one more timer. */
  lemma SteadyArm(s: State, s': State, n: string, t: Timer)
    requires Steady(s, s', n)
    ensures Steady(s, Arm(s', t), n)
  {
    assert forall p :: Announced(s', n, p) ==> Announced(Arm(s', t), n, p);
  }

  lemma LaunchSteady(cfg: Settings, s: State, n: string, env: Env)
    requires n in s.containers && s.containers[n].desired == Up && s.containers[n].pid == 0
    ensures Steady(s, Launch(cfg, s, n, env), n)
  {
    LaunchLaunched(cfg, s, n, env);
  }

  lemma StartSteady(cfg: Settings, s: State, n: string, env: Env)
    ensures Steady(s, OperatorStart(cfg, s, n, env), n)
  {
    if ValidName(n) { StartLaunched(cfg, Ensure(s, n), n, env); }
  }

  lemma RestartSteady(cfg: Settings, s: State, n: string, env: Env)
    ensures Steady(s, Restart(cfg, s, n, env), n)
  {
    if ValidName(n) {
      var s1 := Ensure(s, n);
      var s2 := Put(s1, n, WantedAnew(s1.containers[n]));
      if s1.containers[n].conf.bundle != "" {
        if s1.containers[n].pid == 0 { LaunchSteady(cfg, s2, n, env); } else { SignalSteady(s2, n); }
        QuietSteady(s, s2, Restart(cfg, s, n, env), n);
      }
    }
  }

  lemma SignalSteady(s: State, n: string)
    requires n in s.containers
    ensures Steady(s, SignalAndReap(s, n, s.containers[n].pid), n)
  {
  }

  lemma RewrittenQuiet(s: State, n: string, recorded: bool)
    ensures Quiet(s, Rewritten(s, n, recorded))
  {
  }

  lemma RevertedSteady(cfg: Settings, s: State, n: string, recorded: bool, env: Env)
    ensures Steady(s, Reverted(cfg, s, n, recorded, env), n)
  {
    var s1 := Rewritten(s, n, recorded);
    RewrittenQuiet(s, n, recorded);
    RestartSteady(cfg, s1, n, env);
    QuietSteady(s, s1, Restart(cfg, s1, n, env), n);
  }

  lemma RecordedQuiet(cfg: Settings, s: State, n: string, hadPrev: bool)
    ensures Quiet(s, UpgradeRecorded(cfg, s, n, hadPrev))
  {
    RewrittenQuiet(s, n, hadPrev);
    if Gated(cfg, s, n) { RewrittenQuiet(Put(s, n, s.containers[n].(lastUpdate := NoResult)), n, hadPrev); }
  }

  lemma UpgradeSteady(cfg: Settings, s: State, n: string, hadPrev: bool, env: Env)
    ensures Steady(s, UpgradeDone(cfg, s, n, hadPrev, env), n)
  {
    var s1 := UpgradeRecorded(cfg, s, n, hadPrev);
    var s2 := Restart(cfg, s1, n, env);
    RecordedQuiet(cfg, s, n, hadPrev);
    RestartSteady(cfg, s1, n, env);
    QuietSteady(s, s1, s2, n);
    if Gated(cfg, s, n) && n in s2.containers {
      SteadyArm(s, s2, n, WatchFor(cfg, s2.now, n, s2.containers[n], s.containers[n].started, s.nextPid));
    }
  }

  lemma RespawnQuiet(cfg: Settings, s: State, n: string)
    requires n in s.containers
    ensures Quiet(s, ScheduleRespawn(cfg, s, n))
  {
  }

  lemma GoneQuiet(s: State, n: string)
    requires n in s.containers
    ensures Quiet(s, Gone(s, n)) && Quiet(s, CancelWorker(Gone(s, n), n))
  {
  }

  lemma ExitQuiet(cfg: Settings, s: State, n: string)
    requires n in s.containers
    ensures Quiet(s, JailExit(cfg, s, n)) && Quiet(s, AdoptedExit(cfg, s, n))
  {
    GoneQuiet(s, n);
    RespawnQuiet(cfg, Gone(s, n), n);
    RespawnQuiet(cfg, CancelWorker(Gone(s, n), n), n);
  }

  lemma ForwarderQuiet(s: State, n: string)
    requires n in s.containers
    ensures Quiet(s, ForwarderExit(s, n))
  {
  }

  lemma JudgeSteady(s: State, n: string, ok: bool, on: nat)
    requires n in s.containers
    ensures Steady(s, Judge(s, n, ok, on), n)
  {
  }

  lemma CycleSteady(s: State, n: string, probe: Probe)
    requires n in s.containers
    ensures Steady(s, HealthCycle(s, n, probe), n)
  {
    var c := s.containers[n];
    if c.pid != 0 && c.hcWorker == 0 {
      var s1 := Put(s, n, c.(hcResourceOk := probe.resourceOk));
      if !c.conf.hcBlocking {
        JudgeSteady(s, n, probe.resourceOk, c.pid);
      } else if !probe.workerStarts {
        JudgeSteady(s1, n, probe.resourceOk, c.pid);
        QuietSteady(s, s1, Judge(s1, n, probe.resourceOk, c.pid), n);
      } else {
        assert HealthCycle(s, n, probe) == WorkerStart(s1, n);
      }
    }
  }

  lemma WorkerSteady(s: State, n: string, ok: bool)
    requires n in s.containers
    ensures Steady(s, WorkerExit(s, n, ok), n)
  {
    var c := s.containers[n];
    JudgeSteady(CancelWorker(s, n), n, c.hcResourceOk && ok, c.hist.workerOn);
    QuietSteady(s, CancelWorker(s, n), WorkerExit(s, n, ok), n);
  }

  lemma WatchSteady(cfg: Settings, s: State, t: Timer, probe: Probe, env: Env)
    requires t.Watch? && t in s.timers
    ensures Steady(Disarm(s, t), WatchPoll(cfg, s, t, probe, env), t.name)
  {
    var n := t.name;
    if n in s.containers && !Passes(s, t) && s.now >= t.deadline && ReadConfig(s, n).bundle != "" && probe.swapOk {
      var s1 := Put(Disarm(s, t), n, s.containers[n].(lastUpdate := RolledBack));
      RevertedSteady(cfg, s1, n, probe.recorded, env);
      QuietSteady(Disarm(s, t), s1, Reverted(cfg, s1, n, probe.recorded, env), n);
    }
  }

  lemma FireSteady(cfg: Settings, s: State, t: Timer, probe: Probe, env: Env)
    requires t in s.timers
    ensures Steady(Disarm(s, t), Fire(cfg, s, t, probe, env), t.name)
  {
    var n, s1 := t.name, Disarm(s, t);
    if t.Watch? {
      WatchSteady(cfg, s, t, probe, env);
    } else if t.HealthTick? && n in s.containers {
      FireTick(cfg, s, t, probe, env);
      CycleSteady(s, n, probe);
    } else if t.Relaunch? && n in s.containers && s.containers[n].desired == Up && s.containers[n].pid == 0 {
      LaunchSteady(cfg, s1, n, env);
    }
  }

  lemma StopSteady(s: State, n: string)
    ensures Steady(s, Stop(s, n), n)
  {
  }

  lemma RemoveSteady(s: State, n: string)
    ensures Steady(s, Remove(s, n), n)
  {
    var s1 := s.(registry := s.registry - {n});
    StopSteady(s1, n);
  }

  lemma AdoptSteady(s: State, n: string, env: Env)
    requires n !in s.containers
    ensures Steady(s, Adopt(s, n, env), n)
  {
  }

  /** The container whose callback an event is. */
  function Subject(s: State, env: Env, e: Event): string
    requires Enabled(s, env, e)
  {
    match e
    case JailExits(p) => s.jails[p]
    case WorkerExits(p, _) => s.workers[p]
    case ForwarderExits(p) => s.forwarders[p]
    case TimerFires(t, _) => t.name
    case EditRegistry(_) => ""
    case _ => e.name
  }

  lemma CallSteady(cfg: Settings, s: State, env: Env, e: Event)
    requires Enabled(s, env, e) && s.now == env.now && Launches(s, e) != None && !e.TimerFires?
    ensures Steady(s, Step(cfg, s, env, e), e.name)
  {
    match e
    case CallStart(m) => StartSteady(cfg, s, m, env);
    case CallRestart(m) => RestartSteady(cfg, s, m, env);
    case CallRollback(m, recorded, _) => RevertedSteady(cfg, s, m, recorded, env);
    case AdoptRunning(m) => AdoptSteady(s, m, env);
    case UpgradeFinished(m, hadPrev) => UpgradeSteady(cfg, s, m, hadPrev, env);
  }

  lemma EntrySteady(cfg: Settings, s: State, env: Env, e: Event)
    requires Enabled(s, env, e) && s.now == env.now && (e.CallSetConfig? || e.EditRegistry? || e.Learn?)
    ensures Quiet(s, Step(cfg, s, env, e))
  {
  }

  lemma StepSteady(cfg: Settings, s: State, env: Env, e: Event)
    requires Enabled(s, env, e) && s.now == env.now
    ensures Steady(if e.TimerFires? then Disarm(s, e.timer) else s, Step(cfg, s, env, e), Subject(s, env, e))
  {
    match e
    case CallStop(m) => StopSteady(s, m);
    case CallRemove(m) => RemoveSteady(s, m);
    case CallSetConfig(_, _) => EntrySteady(cfg, s, env, e);
    case EditRegistry(_) => EntrySteady(cfg, s, env, e);
    case Learn(_) => EntrySteady(cfg, s, env, e);
    case JailExits(p) => ExitQuiet(cfg, s, s.jails[p]);
    case AdoptedGone(m) => ExitQuiet(cfg, s, m);
    case WorkerExits(p, ok) => WorkerSteady(s, s.workers[p], ok);
    case ForwarderExits(p) => ForwarderQuiet(s, s.forwarders[p]);
    case TimerFires(t, probe) => FireSteady(cfg, s, t, probe, env);
    case _ => CallSteady(cfg, s, env, e);
  }

  /** A pending timer waits until it fires itself, whatever else happens. */
  lemma TimersWait(cfg: Settings, s0: State, env: Env, e: Event, t: Timer)
    requires Enabled(s0, env, e)
    ensures var fired := e.TimerFires? && e.timer == t;
      s0.timers[t] <= Step(cfg, s0, env, e).timers[t] + if fired then 1 else 0
  {
    var s := s0.(now := env.now);
    StepSteady(cfg, s, env, e);
    assert Step(cfg, s0, env, e) == Step(cfg, s, env, e);
  }

  /** A stop tells a running instance to end and arms its grace timer. */
  lemma StopSignals(cfg: Settings, s0: State, env: Env, n: string)
    requires Enabled(s0, env, CallStop(n)) && ValidName(n) && n in s0.containers
    ensures var s', c := Step(cfg, s0, env, CallStop(n)), s0.containers[n];
      && n in s'.containers && s'.containers[n] == c.(desired := Down)
      && if c.pid == 0 then s'.signalled == s0.signalled && s'.timers == s0.timers
         else s'.signalled == s0.signalled + {c.pid} && s'.timers == s0.timers + multiset{GraceKill(n, c.pid)}
  {
  }

  // ---- grace timers ---------------------------------------------------------------------------

  /** A grace timer that fires kills its jail if and only if its container still runs it,
    * whether that container is wanted up or not. No other event kills anybody.
    */
  lemma GraceKillsExactly(cfg: Settings, s0: State, env: Env, e: Event, p: nat)
    requires Enabled(s0, env, e)
    ensures p in Step(cfg, s0, env, e).killed <==>
      p in s0.killed
      || (e.TimerFires? && e.timer.GraceKill? && e.timer.pid == p
          && e.timer.name in s0.containers && s0.containers[e.timer.name].pid == p)
  {
    KillsOnlyByGrace(cfg, s0, env, e);
    if e.TimerFires? && e.timer.GraceKill? { GraceFires(cfg, s0.(now := env.now), e.timer, e.probe, env); }
  }

  lemma GraceFires(cfg: Settings, s: State, t: Timer, probe: Probe, env: Env)
    requires t in s.timers && t.GraceKill?
    ensures Fire(cfg, s, t, probe, env).killed ==
      if t.name in s.containers && s.containers[t.name].pid == t.pid then s.killed + {t.pid} else s.killed
  {
  }

  /** The instance of n has been told to stop, and its grace period is running or over. */
  predicate FollowedUp(s: State, n: string) {
    n in s.containers && s.containers[n].pid != 0 && s.containers[n].pid in s.signalled ==>
      s.containers[n].pid in s.killed || GraceKill(n, s.containers[n].pid) in s.timers
  }

  lemma StepFollowsUp(cfg: Settings, s0: State, env: Env, e: Event, n: string)
    requires Inv(cfg, s0) && Enabled(s0, env, e) && FollowedUp(s0, n)
    ensures FollowedUp(Step(cfg, s0, env, e), n)
  {
    var s' := Step(cfg, s0, env, e);
    StepKeeps(cfg, s0, env, e);
    if n in s'.containers && s'.containers[n].pid != 0 && s'.containers[n].pid in s'.signalled {
      if s'.containers[n].pid in s0.signalled {
        SignalledBefore(cfg, s0, env, e, n);
      } else {
        SignalledNow(cfg, s0, env, e, n);
      }
    }
  }

  lemma SignalledNow(cfg: Settings, s0: State, env: Env, e: Event, n: string)
    requires Enabled(s0, env, e) && Inv(cfg, Step(cfg, s0, env, e))
    requires var s' := Step(cfg, s0, env, e);
      n in s'.containers && s'.containers[n].pid != 0 && s'.containers[n].pid in s'.signalled && s'.containers[n].pid !in s0.signalled
    ensures FollowedUp(Step(cfg, s0, env, e), n)
  {
    var s, s' := s0.(now := env.now), Step(cfg, s0, env, e);
    var m := Subject(s, env, e);
    StepSteady(cfg, s, env, e);
    assert s' == Step(cfg, s, env, e);
    assert Announced(s', m, s'.containers[n].pid);
    assert Tracked(cfg, s', n) && Tracked(cfg, s', m);
  }

  lemma SignalledBefore(cfg: Settings, s0: State, env: Env, e: Event, n: string)
    requires Inv(cfg, s0) && Enabled(s0, env, e) && FollowedUp(s0, n)
    requires var s' := Step(cfg, s0, env, e);
      n in s'.containers && s'.containers[n].pid != 0 && s'.containers[n].pid in s0.signalled
    ensures FollowedUp(Step(cfg, s0, env, e), n)
  {
    var p := Step(cfg, s0, env, e).containers[n].pid;
    SameInstanceBefore(cfg, s0, env, e, n);
    GraceKillsExactly(cfg, s0, env, e, p);
    TimersWait(cfg, s0, env, e, GraceKill(n, p));
  }

  /** A jail that was signalled before the step is no new one. */
  lemma SameInstanceBefore(cfg: Settings, s0: State, env: Env, e: Event, n: string)
    requires Inv(cfg, s0) && Enabled(s0, env, e)
    requires var s' := Step(cfg, s0, env, e);
      n in s'.containers && s'.containers[n].pid != 0 && s'.containers[n].pid in s0.signalled
    ensures n in s0.containers && s0.containers[n].pid == Step(cfg, s0, env, e).containers[n].pid
  {
    var m, pre := StepSplits(cfg, s0, env, e);
    assert SignalOk(s0, Step(cfg, s0, env, e).containers[n].pid);
    assert GrownAt(s0, pre, m, n) && LaunchedAt(pre, Step(cfg, s0, env, e), m, n);
  }

  lemma {:induction false} RunFollowsUp(cfg: Settings, states: seq<State>, moments: seq<Moment>, i: nat, n: string)
    requires IsRun(cfg, states, moments) && Initial(states[0]) && i < |states|
    ensures FollowedUp(states[i], n)
  {
    if i > 0 {
      RunFollowsUp(cfg, states, moments, i - 1, n);
      RunKeeps(cfg, states, moments, i - 1);
      StepFollowsUp(cfg, states[i - 1], moments[i - 1].env, moments[i - 1].event, n);
    }
  }

  /** In every run a jail that was told to stop and has not ended yet has been killed, or
    * the grace timer that will kill it is pending.
    */
  lemma SignalsAreFollowedUp(cfg: Settings, states: seq<State>, moments: seq<Moment>, i: nat, p: nat)
    requires IsRun(cfg, states, moments) && Initial(states[0]) && i < |states|
    requires p in states[i].jails && p in states[i].signalled
    ensures p in states[i].killed || GraceKill(states[i].jails[p], p) in states[i].timers
  {
    RunKeeps(cfg, states, moments, i);
    assert JailOk(states[i], p);
    RunFollowsUp(cfg, states, moments, i, states[i].jails[p]);
  }
}
