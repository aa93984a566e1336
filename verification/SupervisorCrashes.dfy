/** The bound on relaunches is reached: a run with a stable exit and then one rapid crash
  * after the other.
  */
module SupervisorCrashes {
  import opened Health
  import opened Supervisor
  import opened SupervisorSteps
  import opened SupervisorTraces

  const JOB := "job"
  const SIMPLE: Config := Config("/srv/job", "", true, [], [], false, false, false, 0, false, Policy(3, 0, false))

  function Ready(now: nat): Env {
    Env(now, {}, {}, {}, {}, {JOB}, {JOB}, {}, {})
  }

  predicate Known(s: State) {
    s.registry == map[JOB := SIMPLE] && JOB in s.containers && s.containers[JOB].conf == SIMPLE
    && s.containers[JOB].desired == Up && s.containers[JOB].fwdPid == 0 && s.containers[JOB].hcWorker == 0
    && !s.containers[JOB].adopted && s.nextPid > 0 && s.now > 0
  }

  /** Down after a stable run and k rapid crashes, about to be relaunched. */
  predicate Falling(cfg: Settings, s: State, k: nat) {
    && Known(s)
    && var c := s.containers[JOB];
    && c.pid == 0 && c.started == 0 && c.crashCount == k && c.hist.relaunches == k + 1 && c.hist.ranStable
    && c.depWaitSince == 0 && Relaunch(JOB, Backoff(cfg, k)) in s.timers
  }

  /** The same, running since then. */
  predicate Flying(s: State, pid: nat, started: nat) {
    && Known(s)
    && var c := s.containers[JOB];
    && c.pid == pid && pid != 0 && c.started == started && started > 0
    && pid in s.jails && s.jails[pid] == JOB
  }

  lemma LaunchFlies(cfg: Settings, s: State)
    requires Known(s) && s.containers[JOB].pid == 0 && s.containers[JOB].depWaitSince == 0
    ensures var s' := Launch(cfg, s, JOB, Ready(s.now));
      && Flying(s', s.nextPid, s.now) && s'.now == s.now
      && s'.containers[JOB].crashCount == s.containers[JOB].crashCount
      && s'.containers[JOB].hist.relaunches == s.containers[JOB].hist.relaunches
      && s'.containers[JOB].hist.ranStable == s.containers[JOB].hist.ranStable
      && s'.containers[JOB].depWaitSince == 0
  {
    var env := Ready(s.now);
    var s1 := Put(s, JOB, Refreshed(s, JOB));
    assert LaunchDeps(cfg, s1, JOB, 0, false, env) == Gate(s1, true);
    var s2 := Put(s1, JOB, s1.containers[JOB].(depWaitSince := 0));
    var s3 := Put(s2, JOB, s2.containers[JOB].(infraWaitSince := 0, infraWasUp := true));
    assert LaunchReady(cfg, s1, JOB, env) == JoinInfra(cfg, s2, JOB, env) == Spawn(s3, JOB, env);
    SpawnFlies(s3);
  }

  lemma SpawnFlies(s: State)
    requires Known(s) && s.containers[JOB].pid == 0
    ensures var s' := Spawn(s, JOB, Ready(s.now));
      s' == Running(s, JOB) && Flying(s', s.nextPid, s.now) && s'.now == s.now
  {
  }

  /** The instance and the time it was started are gone. */
  function Landed(s: State): State
    requires JOB in s.containers
  {
    Put(Gone(s, JOB), JOB, Gone(s, JOB).containers[JOB].(started := 0))
  }

  /** What an exit comes to. */
  lemma ExitIs(cfg: Settings, s: State, pid: nat, started: nat)
    requires Flying(s, pid, started) && started <= s.now
    ensures JailExit(cfg, s, JOB) == CrashPolicy(cfg, Landed(s), JOB, s.now - started)
  {
    var s1 := Gone(s, JOB);
    assert CancelWorker(s1, JOB) == s1;
    assert JailExit(cfg, s, JOB) == ScheduleRespawn(cfg, s1, JOB);
    assert UpFor(s1, s1.containers[JOB]) == s.now - started;
  }

  lemma LandedIs(s: State, pid: nat, started: nat)
    requires Flying(s, pid, started)
    ensures Known(Landed(s)) && Landed(s).now == s.now
    ensures var c := s.containers[JOB];
      Landed(s).containers[JOB] == c.(pid := 0, adopted := false, hc := c.hc.(health := Unknown), started := 0)
  {
  }

  lemma StableExitFalls(cfg: Settings, s: State, pid: nat, started: nat)
    requires Flying(s, pid, started) && s.now - started >= STABLE_SECS && s.containers[JOB].depWaitSince == 0
    requires cfg.maxRestarts > 0
    ensures Falling(cfg, JailExit(cfg, s, JOB), 0) && JailExit(cfg, s, JOB).now == s.now
  {
    ExitIs(cfg, s, pid, started);
  }

  /** What one more rapid crash makes of k of them. */
  predicate FallsOn(cfg: Settings, s: State, k: nat) {
    && JOB in s.containers
    && if k < cfg.maxRestarts then Falling(cfg, s, k + 1)
       else s.containers[JOB].desired == Down && s.containers[JOB].hist.relaunches == k + 1
  }

  /** A rapid crash goes on with the streak or, after maxRestarts of them, ends it. */
  lemma PolicyFalls(cfg: Settings, s: State, up: int, k: nat)
    requires Known(s) && s.containers[JOB].pid == 0 && s.containers[JOB].started == 0 && cfg.maxRestarts > 0 && up < STABLE_SECS
    requires var c := s.containers[JOB]; c.crashCount == k && c.hist.relaunches == k + 1 && c.hist.ranStable && c.depWaitSince == 0
    ensures FallsOn(cfg, CrashPolicy(cfg, s, JOB, up), k)
  {
    var d := Crashed(cfg, s.containers[JOB], up);
    CrashedOnce(cfg, s.containers[JOB], up, k);
    var s1 := Put(s, JOB, d);
    if k < cfg.maxRestarts {
      var t := Relaunch(JOB, Backoff(cfg, k + 1));
      assert CrashPolicy(cfg, s, JOB, up) == Arm(s1, t);
      assert t in Arm(s1, t).timers;
    } else {
      assert CrashPolicy(cfg, s, JOB, up) == s1;
    }
  }

  lemma CrashedOnce(cfg: Settings, c: Container, up: int, k: nat)
    requires c.desired == Up && c.crashCount == k && cfg.maxRestarts > 0 && up < STABLE_SECS
    ensures Crashed(cfg, c, up) ==
      if k < cfg.maxRestarts then
        c.(crashCount := k + 1, restarts := c.restarts + 1, hist := c.hist.(relaunches := c.hist.relaunches + 1))
      else c.(crashCount := k + 1, desired := Down)
  {
  }

  // ---- the run -----------------------------------------------------------------------------

  function Seconds(delay: nat): nat {
    (delay + 999) / 1000
  }

  /** The pending relaunch, when its time has come. */
  function Refires(cfg: Settings, s: State, k: nat): Moment {
    Moment(Ready(s.now + Seconds(Backoff(cfg, k))), TimerFires(Relaunch(JOB, Backoff(cfg, k)), Probe(true, true, false, true, false)))
  }

  /** Just relaunched after k rapid crashes. */
  predicate Soaring(s: State, pid: nat, k: nat) {
    && Flying(s, pid, s.now)
    && var c := s.containers[JOB];
    c.crashCount == k && c.hist.relaunches == k + 1 && c.hist.ranStable && c.depWaitSince == 0
  }

  lemma Relaunched(cfg: Settings, s: State, k: nat)
    requires Falling(cfg, s, k)
    ensures var m := Refires(cfg, s, k);
      && Enabled(s, m.env, m.event)
      && var s' := Step(cfg, s, m.env, m.event);
      Soaring(s', s.nextPid, k)
  {
    var m := Refires(cfg, s, k);
    var s1 := Disarm(s.(now := m.env.now), m.event.timer);
    LaunchFlies(cfg, s1);
    assert Fire(cfg, s.(now := m.env.now), m.event.timer, m.event.probe, m.env) == Launch(cfg, s1, JOB, m.env);
  }

  lemma CrashStep(cfg: Settings, s: State, pid: nat, started: nat, k: nat) returns (s': State)
    requires Soaring(s, pid, k) && started == s.now && cfg.maxRestarts > 0
    ensures Enabled(s, Ready(s.now + 1), JailExits(pid)) && s' == Step(cfg, s, Ready(s.now + 1), JailExits(pid))
    ensures FallsOn(cfg, s', k)
  {
    s' := CrashPolicy(cfg, Landed(s.(now := s.now + 1)), JOB, 1);
    ExitIs(cfg, s.(now := s.now + 1), pid, started);
    ReapStep(cfg, s, pid, s.now + 1, s');
    LandedIs(s.(now := s.now + 1), pid, started);
    PolicyFalls(cfg, Landed(s.(now := s.now + 1)), 1, k);
  }

  lemma ReapStep(cfg: Settings, s: State, pid: nat, now: nat, s': State)
    requires s.now <= now && pid in s.jails && s.jails[pid] == JOB && Enabled(s, Ready(now), JailExits(pid))
    requires s' == JailExit(cfg, s.(now := now), JOB)
    ensures s' == Step(cfg, s, Ready(now), JailExits(pid))
  {
  }

  lemma FirstFlight(cfg: Settings) returns (states: seq<State>, moments: seq<Moment>, s: State)
    ensures Leads(cfg, states, moments, s) && Initial(states[0]) && NotEarly(states, moments)
    ensures Flying(s, 1, 1) && s.now == 1 && s.containers[JOB].depWaitSince == 0
  {
    var s0 := State(map[], map[JOB := SIMPLE], multiset{}, map[], map[], map[], 1, 1, {}, {});
    var m := Moment(Ready(1), CallStart(JOB));
    assert ValidName(JOB);
    var s1 := Put(Ensure(s0, JOB), JOB, MarkUp(Ensure(s0, JOB).containers[JOB]));
    LaunchFlies(cfg, s1);
    assert Step(cfg, s0, m.env, m.event) == Launch(cfg, s1, JOB, Ready(1));
    states, moments := Then(cfg, [s0], [], s0, m);
    s := Step(cfg, s0, m.env, m.event);
    NoTimersNotEarly(states, moments);
  }

  lemma FirstFall(cfg: Settings) returns (states: seq<State>, moments: seq<Moment>, s: State)
    requires cfg.maxRestarts > 0
    ensures Leads(cfg, states, moments, s) && Initial(states[0]) && NotEarly(states, moments) && Falling(cfg, s, 0)
  {
    var states0, moments0, s0 := FirstFlight(cfg);
    var m := Moment(Ready(1 + STABLE_SECS), JailExits(1));
    StableExitFalls(cfg, s0.(now := 1 + STABLE_SECS), 1, 1);
    states, moments := Then(cfg, states0, moments0, s0, m);
    s := JailExit(cfg, s0.(now := 1 + STABLE_SECS), JOB);
    NotEarlyThen(states0, moments0, s, m, 0);
  }

  /** A run that ends k rapid crashes after a stable exit. */
  lemma {:induction false} StreakRun(cfg: Settings, k: nat) returns (states: seq<State>, moments: seq<Moment>, s: State)
    requires 0 <= k <= cfg.maxRestarts && cfg.maxRestarts > 0
    ensures Leads(cfg, states, moments, s) && Initial(states[0]) && NotEarly(states, moments) && Falling(cfg, s, k)
  {
    if k == 0 {
      states, moments, s := FirstFall(cfg);
    } else {
      var states0, moments0, s0 := StreakRun(cfg, k - 1);
      states, moments, s := ThenCrashes(cfg, states0, moments0, s0, k - 1);
    }
  }

  lemma ThenSoars(cfg: Settings, states0: seq<State>, moments0: seq<Moment>, s0: State, k: nat)
    returns (states: seq<State>, moments: seq<Moment>, s: State)
    requires Leads(cfg, states0, moments0, s0) && NotEarly(states0, moments0) && Falling(cfg, s0, k)
    ensures Leads(cfg, states, moments, s) && NotEarly(states, moments) && states[0] == states0[0]
    ensures Soaring(s, s0.nextPid, k)
  {
    var m := Refires(cfg, s0, k);
    Relaunched(cfg, s0, k);
    states, moments := Then(cfg, states0, moments0, s0, m);
    s := Step(cfg, s0, m.env, m.event);
    assert PendingSince(states0, |moments0|, |moments0|, m.event.timer);
    NotEarlyThen(states0, moments0, s, m, |moments0|);
  }

  /** The relaunch, and the next crash one second later. */
  lemma ThenCrashes(cfg: Settings, states0: seq<State>, moments0: seq<Moment>, s0: State, k: nat)
    returns (states: seq<State>, moments: seq<Moment>, s: State)
    requires Leads(cfg, states0, moments0, s0) && NotEarly(states0, moments0) && Falling(cfg, s0, k) && cfg.maxRestarts > 0
    ensures Leads(cfg, states, moments, s) && NotEarly(states, moments) && states[0] == states0[0]
    ensures FallsOn(cfg, s, k)
  {
    var states1, moments1, s1 := ThenSoars(cfg, states0, moments0, s0, k);
    s := CrashStep(cfg, s1, s0.nextPid, s1.now, k);
    var m := Moment(Ready(s1.now + 1), JailExits(s0.nextPid));
    states, moments := Then(cfg, states1, moments1, s1, m);
    NotEarlyThen(states1, moments1, s, m, 0);
  }

  /** With every timer in its time, maxRestarts + 1 relaunches are scheduled after a
    * stable exit, and then the next rapid crash gives up.
    */
  lemma BoundIsReached(cfg: Settings) returns (states: seq<State>, moments: seq<Moment>)
    requires cfg.maxRestarts > 0
    ensures IsRun(cfg, states, moments) && Initial(states[0]) && NotEarly(states, moments)
    ensures var s := states[|moments|];
      JOB in s.containers && s.containers[JOB].hist.relaunches == cfg.maxRestarts + 1 && s.containers[JOB].desired == Down
  {
    var states0, moments0, s0 := StreakRun(cfg, cfg.maxRestarts);
    var s: State;
    states, moments, s := ThenCrashes(cfg, states0, moments0, s0, cfg.maxRestarts);
  }
}
