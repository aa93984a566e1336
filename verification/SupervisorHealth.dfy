/** The health of a supervised container is what the verdict rules make of what was
  * observed of it: the theorems about sequences of observations hold of every run.
  */
module SupervisorHealth {
  import opened Health
  import opened Supervisor
  import opened SupervisorSteps
  import opened SupervisorFrames

  /** What a health tick observes, unless it finds a probe under way or starts one. */
  function TickObserves(c: Container, probe: Probe, now: nat): seq<Observation> {
    if c.conf.hcInterval <= 0 then []
    else if c.pid == 0 then [IdleTick]
    else if c.hcWorker != 0 || (c.conf.hcBlocking && probe.workerStarts) then []
    else [Verdict(c.conf.policy, probe.resourceOk, c.started, c.pid, now)]
  }

  /** What an event observes of the health of n, at most one thing. */
  ghost function Observed(s: State, env: Env, e: Event, n: string): seq<Observation>
    requires n in s.containers && Enabled(s, env, e)
  {
    var c := s.containers[n];
    match e
    case JailExits(p) => if s.jails[p] == n then [Exited] else []
    case AdoptedGone(m) => if m == n then [Exited] else []
    case WorkerExits(p, ok) =>
      if s.workers[p] == n then [Verdict(c.conf.policy, c.hcResourceOk && ok, c.started, c.pid, env.now)] else []
    case TimerFires(t, probe) => if t == HealthTick(n) then TickObserves(c, probe, env.now) else []
    case _ => []
  }

  /** The health of c became that of d on at most one observation. */
  predicate Follows(c: Container, w: seq<Observation>, d: Container) {
    |w| <= 1 && d.hc == if w == [] then c.hc else React(c.hc, w[0]).state
  }

  lemma JudgeReacts(s: State, n: string, ok: bool, on: nat)
    requires n in s.containers
    ensures var c := s.containers[n];
      Follows(c, [Verdict(c.conf.policy, ok, c.started, c.pid, s.now)], Judge(s, n, ok, on).containers[n])
  {
  }

  lemma CycleReacts(s: State, n: string, probe: Probe)
    requires n in s.containers && s.containers[n].conf.hcInterval > 0
    ensures Follows(s.containers[n], TickObserves(s.containers[n], probe, s.now), HealthCycle(s, n, probe).containers[n])
  {
    var c := s.containers[n];
    if c.pid != 0 && c.hcWorker == 0 {
      var s1 := Put(s, n, c.(hcResourceOk := probe.resourceOk));
      if !c.conf.hcBlocking {
        JudgeReacts(s, n, probe.resourceOk, c.pid);
      } else if !probe.workerStarts {
        JudgeReacts(s1, n, probe.resourceOk, c.pid);
      } else {
        assert HealthCycle(s, n, probe) == WorkerStart(s1, n);
      }
    }
  }

  lemma WorkerReacts(s: State, n: string, ok: bool)
    requires n in s.containers
    ensures var c := s.containers[n];
      Follows(c, [Verdict(c.conf.policy, c.hcResourceOk && ok, c.started, c.pid, s.now)], WorkerExit(s, n, ok).containers[n])
  {
    var c := s.containers[n];
    JudgeReacts(CancelWorker(s, n), n, c.hcResourceOk && ok, c.hist.workerOn);
  }

  lemma TickReacts(cfg: Settings, s: State, env: Env, t: Timer, probe: Probe)
    requires t in s.timers && t.HealthTick? && t.name in s.containers && s.now == env.now
    ensures var s' := Fire(cfg, s, t, probe, env); var c := s.containers[t.name];
      t.name in s'.containers && Follows(c, TickObserves(c, probe, env.now), s'.containers[t.name])
  {
    FireTick(cfg, s, t, probe, env);
    if s.containers[t.name].conf.hcInterval > 0 { CycleReacts(s, t.name, probe); }
  }

  lemma ExitReacts(cfg: Settings, s: State, n: string)
    requires n in s.containers
    ensures n in JailExit(cfg, s, n).containers ==> Follows(s.containers[n], [Exited], JailExit(cfg, s, n).containers[n])
    ensures n in AdoptedExit(cfg, s, n).containers && Follows(s.containers[n], [Exited], AdoptedExit(cfg, s, n).containers[n])
  {
    assert AdoptedExit(cfg, s, n) == ScheduleRespawn(cfg, Gone(s, n), n);
  }

  /** A step makes of the health of n what the rules make of the observation. */
  lemma StepReacts(cfg: Settings, s0: State, env: Env, e: Event, n: string)
    requires Enabled(s0, env, e) && n in s0.containers && n in Step(cfg, s0, env, e).containers
    ensures Follows(s0.containers[n], Observed(s0, env, e, n), Step(cfg, s0, env, e).containers[n])
  {
    var s := s0.(now := env.now);
    if Measures(e) {
      MeasureReacts(cfg, s, env, e, n);
    } else {
      var m, pre := StepSplits(cfg, s0, env, e);
      assert GrownAt(s0, pre, m, n) && LaunchedAt(pre, Step(cfg, s0, env, e), m, n);
    }
  }

  lemma MeasureReacts(cfg: Settings, s: State, env: Env, e: Event, n: string)
    requires n in s.containers && s.now == env.now && Enabled(s, env, e) && Measures(e)
    requires n in Step(cfg, s, env, e).containers
    ensures Follows(s.containers[n], Observed(s, env, e, n), Step(cfg, s, env, e).containers[n])
  {
    if n != Measured(s, env, e) {
      OthersUntouched(cfg, s, env, e, n);
    } else {
      OwnReacts(cfg, s, env, e, n);
    }
  }

  lemma OwnReacts(cfg: Settings, s: State, env: Env, e: Event, n: string)
    requires n in s.containers && s.now == env.now && Enabled(s, env, e) && Measures(e) && n == Measured(s, env, e)
    requires n in Step(cfg, s, env, e).containers
    ensures Follows(s.containers[n], Observed(s, env, e, n), Step(cfg, s, env, e).containers[n])
  {
    match e
    case AdoptedGone(_) => ExitReacts(cfg, s, n);
    case JailExits(_) => ExitReacts(cfg, s, n);
    case WorkerExits(_, ok) => WorkerReacts(s, n, ok);
    case TimerFires(t, probe) => TickReacts(cfg, s, env, t, probe);
  }

  lemma OthersUntouched(cfg: Settings, s: State, env: Env, e: Event, n: string)
    requires n in s.containers && s.now == env.now && Enabled(s, env, e) && Measures(e) && n != Measured(s, env, e)
    requires n in Step(cfg, s, env, e).containers
    ensures Step(cfg, s, env, e).containers[n] == s.containers[n] && Observed(s, env, e, n) == []
  {
    if e.TimerFires? { SmallTimerOnly(cfg, s, e.timer, e.probe, env); }
    assert OnlyAt(s, Step(cfg, s, env, e), Measured(s, env, e), n);
  }

  lemma NewbornHealth(cfg: Settings, s0: State, env: Env, e: Event, n: string)
    requires Enabled(s0, env, e) && n !in s0.containers && n in Step(cfg, s0, env, e).containers
    ensures Step(cfg, s0, env, e).containers[n].hc == HealthState(Unknown, 0)
  {
    var m, pre := StepSplits(cfg, s0, env, e);
    assert GrownAt(s0, pre, m, n) && LaunchedAt(pre, Step(cfg, s0, env, e), m, n);
  }

  /** What was observed of n since its record was created. */
  ghost function Trace(cfg: Settings, states: seq<State>, moments: seq<Moment>, i: nat, n: string): seq<Observation>
    requires IsRun(cfg, states, moments) && i < |states|
  {
    if i == 0 || n !in states[i - 1].containers then []
    else Trace(cfg, states, moments, i - 1, n) + Observed(states[i - 1], moments[i - 1].env, moments[i - 1].event, n)
  }

  /** Along every run the health of a container is what its trace comes to. */
  lemma {:induction false} HealthIsTrace(cfg: Settings, states: seq<State>, moments: seq<Moment>, i: nat, n: string)
    requires IsRun(cfg, states, moments) && Initial(states[0]) && i < |states|
    requires n in states[i].containers
    ensures states[i].containers[n].hc == After(Trace(cfg, states, moments, i, n))
  {
    if n !in states[i - 1].containers {
      NewbornHealth(cfg, states[i - 1], moments[i - 1].env, moments[i - 1].event, n);
    } else {
      var before := Trace(cfg, states, moments, i - 1, n);
      var w := Observed(states[i - 1], moments[i - 1].env, moments[i - 1].event, n);
      HealthIsTrace(cfg, states, moments, i - 1, n);
      StepReacts(cfg, states[i - 1], moments[i - 1].env, moments[i - 1].event, n);
      TraceGoesOn(states[i - 1].containers[n], before, w, states[i].containers[n]);
    }
  }

  lemma TraceGoesOn(c: Container, before: seq<Observation>, w: seq<Observation>, d: Container)
    requires Follows(c, w, d) && c.hc == After(before)
    ensures d.hc == After(before + w)
  {
    if w == [] { assert before + w == before; } else { assert (before + w)[..|before|] == before; }
  }

  /** So a container of a run is unhealthy only if its trace ends in a stretch with no
    * pass, idle tick or auto-restart that holds the counted failures its policy asked for
    * when it was called unhealthy.
    */
  lemma UnhealthyInRun(cfg: Settings, states: seq<State>, moments: seq<Moment>, i: nat, n: string) returns (r: nat, k: nat)
    requires IsRun(cfg, states, moments) && Initial(states[0]) && i < |states|
    requires n in states[i].containers && states[i].containers[n].hc.health == Unhealthy
    ensures var trace := Trace(cfg, states, moments, i, n);
      && r <= k < |trace| && Unbroken(trace, r, |trace|)
      && Counted(trace[k]) && CountedIn(trace[r..]) >= trace[k].policy.retries
  {
    var trace := Trace(cfg, states, moments, i, n);
    HealthIsTrace(cfg, states, moments, i, n);
    r := FailsAreCounted(trace, |trace|);
    k := UnhealthyHasFailed(trace);
    assert trace[..|trace|] == trace && trace[r..|trace|] == trace[r..];
    assert r > 0 ==> Clears(trace[r - 1]) || At(trace, r - 1).restart;
  }

  // ---- what ticks and verdicts do besides ------------------------------------------------

  /** A tick comes back as long as there is a healthcheck. It starts a probe of the running
    * instance if the checks can block, leaves one that is under way alone, and otherwise
    * judges at once.
    */
  lemma TickProbes(cfg: Settings, s0: State, env: Env, n: string, probe: Probe)
    requires Enabled(s0, env, TimerFires(HealthTick(n), probe)) && n in s0.containers
    ensures var s', c := Step(cfg, s0, env, TimerFires(HealthTick(n), probe)), s0.containers[n];
      && n in s'.containers
      && var d := s'.containers[n];
      if c.conf.hcInterval <= 0 then s'.timers == s0.timers - multiset{HealthTick(n)} && !d.hcScheduled
      else
        && s0.timers <= s'.timers
        && (c.pid != 0 && c.hcWorker != 0 ==> d == c)
        && (c.pid != 0 && c.hcWorker == 0 && c.conf.hcBlocking && probe.workerStarts ==>
              && d.hcWorker == s0.nextPid && d.hist.workerOn == c.pid && d.hcResourceOk == probe.resourceOk
              && s'.workers == s0.workers[s0.nextPid := n] && s'.nextPid > s0.nextPid)
        && (c.pid != 0 && c.hcWorker == 0 && !(c.conf.hcBlocking && probe.workerStarts) && probe.resourceOk ==>
              d.hist.passedOn == c.pid)
  {
    var s := s0.(now := env.now);
    FireTick(cfg, s, HealthTick(n), probe, env);
    if s.containers[n].conf.hcInterval > 0 { CycleProbes(s, n, probe); }
  }

  lemma CycleProbes(s: State, n: string, probe: Probe)
    requires n in s.containers
    ensures var s', c := HealthCycle(s, n, probe), s.containers[n];
      && var d := s'.containers[n];
      && s.timers <= s'.timers
      && (c.pid != 0 && c.hcWorker != 0 ==> d == c)
      && (c.pid != 0 && c.hcWorker == 0 && c.conf.hcBlocking && probe.workerStarts ==>
            && d.hcWorker == s.nextPid && d.hist.workerOn == c.pid && d.hcResourceOk == probe.resourceOk
            && s'.workers == s.workers[s.nextPid := n] && s'.nextPid > s.nextPid)
      && (c.pid != 0 && c.hcWorker == 0 && !(c.conf.hcBlocking && probe.workerStarts) && probe.resourceOk ==>
            d.hist.passedOn == c.pid)
  {
    var c := s.containers[n];
    if c.pid != 0 && c.hcWorker == 0 {
      var s1 := Put(s, n, c.(hcResourceOk := probe.resourceOk));
      if !c.conf.hcBlocking {
        JudgeSignals(s, n, probe.resourceOk, c.pid);
      } else if !probe.workerStarts {
        JudgeSignals(s1, n, probe.resourceOk, c.pid);
      } else {
        assert HealthCycle(s, n, probe) == WorkerStart(s1, n);
      }
    }
  }

  /** A verdict tells the instance to stop exactly if it restarts it, and then the grace
    * timer is armed; a pass is remembered with the instance it measured.
    */
  predicate Signals(s: State, s': State, n: string, restart: bool)
    requires n in s.containers
  {
    var p := s.containers[n].pid;
    if restart then s'.signalled == s.signalled + {p} && s'.timers == s.timers + multiset{GraceKill(n, p)}
    else s'.signalled == s.signalled && s'.timers == s.timers
  }

  /** A verdict tells the instance to stop exactly if the rules restart it; nothing else
    * that is observed of a container does.
    */
  lemma VerdictSignals(cfg: Settings, s0: State, env: Env, e: Event, n: string)
    requires Enabled(s0, env, e) && Measures(e) && n in s0.containers && n == Measured(s0, env, e)
    requires Observed(s0, env, e, n) != [] && Observed(s0, env, e, n)[0].Verdict?
    ensures Signals(s0, Step(cfg, s0, env, e), n, React(s0.containers[n].hc, Observed(s0, env, e, n)[0]).restart)
  {
    var s, c := s0.(now := env.now), s0.containers[n];
    if e.WorkerExits? {
      JudgeSignals(CancelWorker(s, n), n, c.hcResourceOk && e.ok, c.hist.workerOn);
    } else {
      FireTick(cfg, s, e.timer, e.probe, env);
      CycleSignals(s, n, e.probe);
    }
  }

  lemma CycleSignals(s: State, n: string, probe: Probe)
    requires n in s.containers && TickObserves(s.containers[n], probe, s.now) != []
    requires s.containers[n].conf.hcInterval > 0 && s.containers[n].pid != 0
    ensures var c := s.containers[n];
      Signals(s, HealthCycle(s, n, probe), n, ApplyVerdict(c.conf.policy, c.hc, probe.resourceOk, c.started, c.pid, s.now).restart)
  {
    var c := s.containers[n];
    var s1 := if c.conf.hcBlocking then Put(s, n, c.(hcResourceOk := probe.resourceOk)) else s;
    JudgeSignals(s1, n, probe.resourceOk, c.pid);
  }

  lemma JudgeSignals(s: State, n: string, ok: bool, on: nat)
    requires n in s.containers
    ensures var c, s' := s.containers[n], Judge(s, n, ok, on);
      && Signals(s, s', n, ApplyVerdict(c.conf.policy, c.hc, ok, c.started, c.pid, s.now).restart)
      && (ok ==> s'.containers[n].hist.passedOn == on) && s.timers <= s'.timers
  {
  }
}
