/** "Verified" is earned: what a passing safe-update watch says about the instance. */
module SupervisorUpgrade {
  import opened Health
  import opened Supervisor
  import opened SupervisorSteps
  import opened SupervisorInvariant
  import opened SupervisorFrames
  import opened SupervisorRuns

  // ---- whose health is it ---------------------------------------------------------

  /** A healthy verdict comes from a cycle that measured the running instance, and a
    * worker under way that can still pass measures the running instance.
    */
  predicate EarnedOk(c: Container) {
    && (c.hc.health == Healthy ==> c.pid != 0 && c.hist.passedOn == c.pid)
    && (CanPass(c) ==> c.pid != 0 && c.hist.workerOn == c.pid)
  }

  /** A probe is under way, and the stored resource result will not fail its cycle. */
  predicate CanPass(c: Container) {
    c.hcWorker != 0 && c.hcResourceOk
  }

  predicate Earned(s: State, n: string) {
    n in s.containers ==> EarnedOk(s.containers[n])
  }

  lemma PlainEarned(s: State, s': State, n: string)
    requires Earned(s, n) && Plain(s, s', n)
    ensures Earned(s', n)
  {
    assert OnlyAt(s, s', n, n);
  }

  /** A callback of m says nothing about n. */
  lemma OthersEarned(s: State, s': State, m: string, n: string)
    requires Earned(s, n) && Only(s, s', m) && m != n
    ensures Earned(s', n)
  {
    assert OnlyAt(s, s', m, n);
  }

  lemma SplitEarned(s: State, pre: State, s': State, m: string, e: Event, n: string)
    requires Earned(s, n) && Splits(s, pre, s', m, e) && !Measures(e)
    ensures Earned(s', n)
  {
    assert GrownAt(s, pre, m, n) && LaunchedAt(pre, s', m, n);
  }

  /** The exit of an adopted jail keeps its health earned if and only if no probe of it
    * that can still pass is under way, for the watchdog leaves a running worker alone.
    */
  lemma AdoptedExitEarned(cfg: Settings, s: State, n: string)
    requires Earned(s, n) && n in s.containers
    ensures Earned(AdoptedExit(cfg, s, n), n) <==> !CanPass(s.containers[n])
  {
    var s0 := Gone(s, n);
    assert ScheduleRespawn(cfg, s0, n) == AdoptedExit(cfg, s, n);
    if !CanPass(s.containers[n]) { PlainEarned(s0, AdoptedExit(cfg, s, n), n); }
  }

  /** The exit of a jail that uxcd launched always keeps it, for it cancels the worker. */
  lemma JailExitEarned(cfg: Settings, s: State, n: string)
    requires Earned(s, n) && n in s.containers
    ensures Earned(JailExit(cfg, s, n), n)
  {
  }

  lemma JudgeEarned(s: State, n: string, ok: bool, on: nat)
    requires Earned(s, n) && n in s.containers && (ok ==> s.containers[n].pid != 0 && on == s.containers[n].pid)
    ensures Earned(Judge(s, n, ok, on), n)
  {
  }

  lemma CycleEarned(s: State, n: string, probe: Probe)
    requires Earned(s, n) && n in s.containers
    ensures Earned(HealthCycle(s, n, probe), n)
  {
    var c := s.containers[n];
    if c.pid != 0 && c.hcWorker == 0 {
      var s1 := if c.conf.hcBlocking then Put(s, n, c.(hcResourceOk := probe.resourceOk)) else s;
      JudgeEarned(s1, n, probe.resourceOk, c.pid);
      WorkerStartEarned(s1, n);
    }
  }

  lemma WorkerStartEarned(s: State, n: string)
    requires Earned(s, n) && n in s.containers && s.containers[n].pid != 0
    ensures Earned(WorkerStart(s, n), n)
  {
  }

  lemma WorkerExitEarned(s: State, n: string, ok: bool)
    requires Earned(s, n) && n in s.containers && s.containers[n].hcWorker != 0
    ensures Earned(WorkerExit(s, n, ok), n)
  {
    var c := s.containers[n];
    PlainEarned(s, CancelWorker(s, n), n);
    JudgeEarned(CancelWorker(s, n), n, c.hcResourceOk && ok, c.hist.workerOn);
  }

  lemma TickEarned(cfg: Settings, s: State, t: Timer, probe: Probe, env: Env)
    requires Earned(s, t.name) && t in s.timers && t.HealthTick?
    ensures Earned(Fire(cfg, s, t, probe, env), t.name)
  {
    if t.name in s.containers {
      FireTick(cfg, s, t, probe, env);
      CycleEarned(s, t.name, probe);
    }
  }

  /** If the adopted jail of n goes away, no probe of it that can pass is under way. */
  predicate NoStaleProbe(s: State, e: Event, n: string) {
    e.AdoptedGone? && e.name == n && n in s.containers ==> !CanPass(s.containers[n])
  }

  lemma StepEarned(cfg: Settings, s0: State, env: Env, e: Event, n: string)
    requires Inv(cfg, s0) && Earned(s0, n) && Enabled(s0, env, e) && NoStaleProbe(s0, e, n)
    ensures Earned(Step(cfg, s0, env, e), n)
  {
    if Measures(e) {
      assert e.WorkerExits? ==> WorkerOk(s0, e.pid);
      MeasureEarned(cfg, s0.(now := env.now), env, e, n);
    } else {
      var m, pre := StepSplits(cfg, s0, env, e);
      SplitEarned(s0, pre, Step(cfg, s0, env, e), m, e, n);
    }
  }

  lemma MeasureEarned(cfg: Settings, s: State, env: Env, e: Event, n: string)
    requires Earned(s, n) && s.now == env.now && Measures(e) && Enabled(s, env, e) && NoStaleProbe(s, e, n)
    requires e.WorkerExits? ==> s.containers[s.workers[e.pid]].hcWorker != 0
    ensures Earned(Step(cfg, s, env, e), n)
  {
    var m, s' := Measured(s, env, e), Step(cfg, s, env, e);
    if e.TimerFires? { SmallTimerOnly(cfg, s, e.timer, e.probe, env); }
    if m != n {
      OthersEarned(s, s', m, n);
    } else if e.AdoptedGone? {
      AdoptedExitEarned(cfg, s, n);
    } else if e.JailExits? {
      JailExitEarned(cfg, s, n);
    } else if e.WorkerExits? {
      WorkerExitEarned(s, n, e.ok);
    } else {
      TickEarned(cfg, s, e.timer, e.probe, env);
    }
  }

  /** In every run in which the adopted jail of n never goes away under such a probe, a
    * healthy n is one whose running instance passed a cycle.
    */
  lemma {:induction false} RunEarned(cfg: Settings, states: seq<State>, moments: seq<Moment>, i: nat, n: string)
    requires IsRun(cfg, states, moments) && Initial(states[0]) && i < |states|
    requires forall k | 0 <= k < i :: NoStaleProbe(states[k], moments[k].event, n)
    ensures Earned(states[i], n)
  {
    if i > 0 {
      RunEarned(cfg, states, moments, i - 1, n);
      RunKeeps(cfg, states, moments, i - 1);
      StepEarned(cfg, states[i - 1], moments[i - 1].env, moments[i - 1].event, n);
    }
  }

  // ---- where watches come from --------------------------------------------------------

  /** Only a finished upgrade arms a watch: of its container, with the instance that
    * ran before its restart as the one to outlive.
    */
  lemma WatchIsArmedByUpgrade(cfg: Settings, s0: State, env: Env, e: Event, t: Timer)
    requires Enabled(s0, env, e) && t.Watch?
    requires t in Step(cfg, s0, env, e).timers && t !in s0.timers
    ensures e.UpgradeFinished? && t.name == e.name && t.arose == s0.nextPid
    ensures t.name in s0.containers && t.after == s0.containers[t.name].started
  {
    var m, pre := StepSplits(cfg, s0, env, e);
    if e.UpgradeFinished? {
      UpgradeArmsItsWatch(cfg, s0.(now := env.now), e.name, e.hadPrev, env, t);
    }
  }

  lemma UpgradeArmsItsWatch(cfg: Settings, s: State, n: string, hadPrev: bool, env: Env, t: Timer)
    requires t.Watch? && t in UpgradeDone(cfg, s, n, hadPrev, env).timers && t !in s.timers
    ensures t.name == n && t.arose == s.nextPid && n in s.containers && t.after == s.containers[n].started
  {
    var s1 := UpgradeRecorded(cfg, s, n, hadPrev);
    RestartLaunched(cfg, s1, n, env);
    assert NoNewWatch(s, s1) && Known(s1, n).timers == s1.timers;
  }

  /** The step of a run that armed a pending watch. */
  ghost predicate ArmedAt(states: seq<State>, moments: seq<Moment>, t: Timer, j: nat)
    requires t.Watch?
  {
    && j < |moments| && j < |states|
    && moments[j].event.UpgradeFinished? && moments[j].event.name == t.name
    && t.arose == states[j].nextPid
    && t.name in states[j].containers && t.after == states[j].containers[t.name].started
  }

  lemma ArmedAtLast(cfg: Settings, states: seq<State>, moments: seq<Moment>, j: nat, t: Timer)
    requires IsRun(cfg, states, moments) && j < |moments|
    requires t.Watch? && t !in states[j].timers && t in states[j + 1].timers
    ensures ArmedAt(states, moments, t, j)
  {
    WatchIsArmedByUpgrade(cfg, states[j], moments[j].env, moments[j].event, t);
  }

  lemma {:induction false} WatchOrigin(cfg: Settings, states: seq<State>, moments: seq<Moment>, i: nat, t: Timer) returns (j: nat)
    requires IsRun(cfg, states, moments) && Initial(states[0]) && i < |states|
    requires t.Watch? && t in states[i].timers
    ensures j < i && ArmedAt(states, moments, t, j)
  {
    j := i;
    while t in states[j].timers
      invariant j <= i
      invariant t in states[i].timers
      invariant j < i ==> t in states[j + 1].timers
      decreases j
    {
      assert j > 0;
      j := j - 1;
    }
    ArmedAtLast(cfg, states, moments, j, t);
  }

  /** The gate of watch_health. */
  predicate Passes(s: State, t: Timer)
    requires t.Watch?
  {
    && t.name in s.containers
    && s.containers[t.name].hc.health == Healthy && s.containers[t.name].started > t.after
  }

  /** A watch passes only for an instance forked by the upgrade's restart or later,
    * and only on the verdict of a health cycle that measured this very instance.
    */
  lemma VerifiedIsEarned(cfg: Settings, states: seq<State>, moments: seq<Moment>, i: nat, t: Timer)
    requires IsRun(cfg, states, moments) && Initial(states[0]) && i < |states|
    requires forall k | 0 <= k < i :: NoStaleProbe(states[k], moments[k].event, t.name)
    requires t.Watch? && t in states[i].timers && Passes(states[i], t)
    ensures var c := states[i].containers[t.name];
      exists j | 0 <= j < i && ArmedAt(states, moments, t, j) ::
        c.pid in states[i].jails && c.pid !in states[j].jails && c.pid >= states[j].nextPid && c.hist.passedOn == c.pid
  {
    var c := states[i].containers[t.name];
    var j := WatchOrigin(cfg, states, moments, i, t);
    RunKeeps(cfg, states, moments, i);
    RunKeeps(cfg, states, moments, j);
    RunEarned(cfg, states, moments, i, t.name);
    assert Earned(states[i], t.name) && Tracked(cfg, states[i], t.name) && TimerOk(states[i], t);
    assert JailOk(states[j], c.pid);
  }
}
