/** What the invariant means over whole runs: instances, relaunches, kills,
  * forwarders and the crash policy.
  */
module SupervisorSafety {
  import opened Wrappers
  import opened Supervisor
  import opened SupervisorSteps
  import opened SupervisorInvariant
  import opened SupervisorRuns

  /** What the invariant means to somebody who looks at the daemon: every child is the
    * one its container knows, a running container has its jail, a forwarder serves a
    * running container, whoever is wanted and down will be relaunched or was parked,
    * and only announced kills have happened.
    */
  ghost predicate Safe(s: State) {
    && (forall p | p in s.jails :: s.jails[p] in s.containers && s.containers[s.jails[p]].pid == p)
    && (forall p | p in s.forwarders :: s.forwarders[p] in s.containers && s.containers[s.forwarders[p]].fwdPid == p)
    && (forall n | n in s.containers :: SafeAt(s, n))
    && s.killed <= s.signalled
  }

  ghost predicate SafeAt(s: State, n: string)
    requires n in s.containers
  {
    var c := s.containers[n];
    && (c.pid != 0 ==> c.pid in s.jails && s.jails[c.pid] == n)
    && (c.fwdPid != 0 ==> c.pid != 0) && c.hist.fwdArmed <= FWD_MAX_RESTARTS
    && (c.desired == Up && c.pid == 0 ==> RelaunchPending(s, n) || c.hist.parked != None)
  }

  lemma InvIsSafe(cfg: Settings, s: State)
    requires Inv(cfg, s)
    ensures Safe(s)
  {
    forall p | p in s.jails ensures s.jails[p] in s.containers && s.containers[s.jails[p]].pid == p { assert JailOk(s, p); }
    forall p | p in s.forwarders ensures s.forwarders[p] in s.containers && s.containers[s.forwarders[p]].fwdPid == p {
      assert ForwarderOk(s, p);
    }
    forall n | n in s.containers ensures SafeAt(s, n) { assert Tracked(cfg, s, n) && SettledBut(s, {}, n); }
    forall p | p in s.killed ensures p in s.signalled { assert SignalOk(s, p); }
  }

  /** No container ever has two live jails, and a running one has exactly the jail
    * it records.
    */
  lemma OneLiveInstance(cfg: Settings, states: seq<State>, moments: seq<Moment>, i: nat)
    requires IsRun(cfg, states, moments) && Initial(states[0]) && i < |states|
    ensures forall p, q | p in states[i].jails && q in states[i].jails && states[i].jails[p] == states[i].jails[q] :: p == q
    ensures forall n | n in states[i].containers && states[i].containers[n].pid != 0 ::
              states[i].containers[n].pid in states[i].jails && states[i].jails[states[i].containers[n].pid] == n
    ensures forall p | p in states[i].jails :: states[i].jails[p] in states[i].containers && states[i].containers[states[i].jails[p]].pid == p
  {
    RunKeeps(cfg, states, moments, i);
    InvIsSafe(cfg, states[i]);
    assert forall n | n in states[i].containers :: SafeAt(states[i], n);
  }

  /** A container that is wanted up and not running has a relaunch ahead of it, or
    * its last launch or exit ended in one of the four ways that park it.
    */
  lemma NoLostRelaunch(cfg: Settings, states: seq<State>, moments: seq<Moment>, i: nat, n: string)
    requires IsRun(cfg, states, moments) && Initial(states[0]) && i < |states|
    requires n in states[i].containers
    requires states[i].containers[n].desired == Up && states[i].containers[n].pid == 0
    ensures RelaunchPending(states[i], n) || states[i].containers[n].hist.parked != None
  {
    RunKeeps(cfg, states, moments, i);
    InvIsSafe(cfg, states[i]);
    assert SafeAt(states[i], n);
  }

  /** Every jail that was sent SIGKILL had been sent its stop signal before, and a
    * grace timer never matches an instance launched after it was armed.
    */
  lemma KillsAreAnnounced(cfg: Settings, states: seq<State>, moments: seq<Moment>, i: nat)
    requires IsRun(cfg, states, moments) && Initial(states[0]) && i < |states|
    ensures states[i].killed <= states[i].signalled
    ensures forall t | t in states[i].timers && t.GraceKill? :: t.pid in states[i].signalled && t.pid < states[i].nextPid
  {
    RunKeeps(cfg, states, moments, i);
    var s := states[i];
    forall p | p in s.killed ensures p in s.signalled { assert SignalOk(s, p); }
    forall t | t in s.timers && t.GraceKill? ensures t.pid in s.signalled && t.pid < s.nextPid {
      assert TimerOk(s, t) && SignalOk(s, t.pid);
    }
  }

  /** p was the signalled instance of a container whose grace timer fires. */
  predicate JustKilled(s: State, e: Event, p: nat) {
    && e.TimerFires? && e.timer.GraceKill? && e.timer.pid == p && p in s.jails && s.jails[p] == e.timer.name
    && e.timer.name in s.containers && s.containers[e.timer.name].pid == p && p in s.signalled
  }

  /** Between two states of a run process ids only grow, and a kill recorded in
    * between hit an instance that its container was running at that moment.
    */
  lemma KillHitsTheRunningInstance(cfg: Settings, s0: State, env: Env, e: Event, p: nat)
    requires Inv(cfg, s0) && Enabled(s0, env, e)
    requires p in Step(cfg, s0, env, e).killed && p !in s0.killed
    ensures JustKilled(s0, e, p)
  {
    KillsOnlyByGrace(cfg, s0, env, e);
    assert Tracked(cfg, s0, e.timer.name) && TimerOk(s0, e.timer) && SignalOk(s0, p);
  }

  lemma FireKills(cfg: Settings, s: State, t: Timer, probe: Probe, env: Env)
    requires t in s.timers
    ensures Fire(cfg, s, t, probe, env).killed == s.killed
      || (t.GraceKill? && t.name in s.containers && s.containers[t.name].pid == t.pid
          && Fire(cfg, s, t, probe, env).killed == s.killed + {t.pid})
  {
  }

  lemma KillsOnlyByGrace(cfg: Settings, s0: State, env: Env, e: Event)
    requires Enabled(s0, env, e)
    ensures Step(cfg, s0, env, e).killed == s0.killed
      || (e.TimerFires? && e.timer.GraceKill? && e.timer.name in s0.containers
          && s0.containers[e.timer.name].pid == e.timer.pid
          && Step(cfg, s0, env, e).killed == s0.killed + {e.timer.pid})
  {
    if e.TimerFires? {
      FireKills(cfg, s0.(now := env.now), e.timer, e.probe, env);
    }
  }

  /** A published port never outlives its service: a tracked forwarder belongs to a
    * running container, every live forwarder is tracked, so each container has at
    * most one, and since the last deliberate stop at most FWD_MAX_RESTARTS respawns
    * of it were scheduled.
    */
  lemma PortsFollowTheService(cfg: Settings, states: seq<State>, moments: seq<Moment>, i: nat)
    requires IsRun(cfg, states, moments) && Initial(states[0]) && i < |states|
    ensures forall n | n in states[i].containers && states[i].containers[n].fwdPid != 0 :: states[i].containers[n].pid != 0
    ensures forall p | p in states[i].forwarders ::
              states[i].forwarders[p] in states[i].containers && states[i].containers[states[i].forwarders[p]].fwdPid == p
    ensures forall p, q | p in states[i].forwarders && q in states[i].forwarders
              && states[i].forwarders[p] == states[i].forwarders[q] :: p == q
    ensures forall n | n in states[i].containers :: states[i].containers[n].hist.fwdArmed <= FWD_MAX_RESTARTS
  {
    RunKeeps(cfg, states, moments, i);
    InvIsSafe(cfg, states[i]);
    assert forall n | n in states[i].containers :: SafeAt(states[i], n);
  }

  /** No jail and no forwarder of n is left, and of its workers only w, if that is one. */
  predicate Childless(s: State, n: string, w: nat) {
    && (forall p | p in s.jails :: s.jails[p] != n) && (forall p | p in s.forwarders :: s.forwarders[p] != n)
    && (forall p | p in s.workers :: s.workers[p] == n <==> p == w)
  }

  /** The exit of an instance leaves no child of its container behind, but for a probe of
    * an adopted one.
    */
  lemma ExitClearsChildren(cfg: Settings, s: State, n: string)
    requires Inv(cfg, s) && n in s.containers && s.containers[n].pid != 0
    ensures Childless(JailExit(cfg, s, n), n, 0)
    ensures Childless(AdoptedExit(cfg, s, n), n, s.containers[n].hcWorker)
  {
    JailExitClears(cfg, s, n);
    AdoptedExitClears(cfg, s, n);
  }

  lemma JailExitClears(cfg: Settings, s: State, n: string)
    requires Inv(cfg, s) && n in s.containers && s.containers[n].pid != 0
    ensures Childless(JailExit(cfg, s, n), n, 0)
  {
    JailExitKeeps(cfg, s, n);
    GoneKeeps(cfg, s, n);
    CancelWorkerKeeps(cfg, Gone(s, n), n, {n});
    NoChildren(cfg, JailExit(cfg, s, n), n);
  }

  lemma AdoptedExitClears(cfg: Settings, s: State, n: string)
    requires Inv(cfg, s) && n in s.containers && s.containers[n].pid != 0
    ensures Childless(AdoptedExit(cfg, s, n), n, s.containers[n].hcWorker)
  {
    AdoptedExitKeeps(cfg, s, n);
    GoneKeeps(cfg, s, n);
    assert AdoptedExit(cfg, s, n) == ScheduleRespawn(cfg, Gone(s, n), n);
    NoChildren(cfg, AdoptedExit(cfg, s, n), n);
  }

  lemma NoChildren(cfg: Settings, s: State, n: string)
    requires Inv(cfg, s) && (n in s.containers ==> s.containers[n].pid == 0 && s.containers[n].fwdPid == 0)
    ensures Childless(s, n, if n in s.containers then s.containers[n].hcWorker else 0)
  {
    assert Tracked(cfg, s, n);
    forall p | p in s.jails ensures s.jails[p] != n { assert JailOk(s, p); }
    forall p | p in s.forwarders ensures s.forwarders[p] != n { assert ForwarderOk(s, p); }
    forall p | p in s.workers
      ensures s.workers[p] == n <==> p == (if n in s.containers then s.containers[n].hcWorker else 0)
    {
      assert WorkerOk(s, p);
    }
  }

  // ---- the crash policy -------------------------------------------------------------------

  function Pow2(k: nat): nat {
    if k == 0 then 1 else 2 * Pow2(k - 1)
  }

  lemma {:induction false} ShiftIsPower(base: nat, k: nat)
    ensures Shifted(base, k) == base * Pow2(k)
  {
    if k > 0 { ShiftIsPower(base, k - 1); }
  }

  lemma {:induction false} ShiftGrows(base: nat, a: nat, b: nat)
    requires a <= b
    ensures Shifted(base, a) <= Shifted(base, b)
    decreases b - a
  {
    if a < b { ShiftGrows(base, a, b - 1); }
  }

  /** Delays of a crash streak never shrink and never exceed the cap; the k-th one
    * is base * 2^(k-1) up to the sixth, unless that passes the cap.
    */
  lemma BackoffGrows(cfg: Settings, k: nat, l: nat)
    requires k <= l
    ensures Backoff(cfg, k) <= Backoff(cfg, l) <= cfg.restartMaxDelay
    ensures k >= 6 ==> Backoff(cfg, k) == Backoff(cfg, l)
    ensures 1 <= k <= 6 ==> Backoff(cfg, k) == Min(cfg.restartDelay * Pow2(k - 1), cfg.restartMaxDelay)
  {
    var a: nat := Min(if k > 0 then k - 1 else 0, 5);
    var b: nat := Min(if l > 0 then l - 1 else 0, 5);
    ShiftGrows(cfg.restartDelay, a, b);
    ShiftIsPower(cfg.restartDelay, a);
  }

  /** With a limit set, the restart policy schedules at most that many relaunches after
    * a start or restart by hand, and one more after a stable run: the relaunch that its
    * exit is followed by.
    */
  lemma CrashLoopIsBounded(cfg: Settings, states: seq<State>, moments: seq<Moment>, i: nat, n: string)
    requires IsRun(cfg, states, moments) && Initial(states[0]) && i < |states|
    requires n in states[i].containers && cfg.maxRestarts > 0
    ensures var h := states[i].containers[n].hist;
      h.relaunches <= if h.ranStable then cfg.maxRestarts + 1 else cfg.maxRestarts
  {
    RunKeeps(cfg, states, moments, i);
    assert Tracked(cfg, states[i], n);
  }

  /** The record of a container after a stable run and k rapid crashes. */
  function Streaked(cfg: Settings, c: Container, k: nat): Container {
    if k == 0 then Crashed(cfg, c, STABLE_SECS) else Crashed(cfg, Streaked(cfg, c, k - 1), 0)
  }

  /** The policy alone admits maxRestarts + 1 relaunches after a stable run, and the next
    * crash is the end of it. BoundIsReached, in SupervisorCrashes, is a run that does so.
    */
  lemma {:induction false} StableThenCrashes(cfg: Settings, c: Container, k: nat)
    requires cfg.maxRestarts > 0 && c.desired == Up && k <= cfg.maxRestarts
    ensures var d := Streaked(cfg, c, k);
      d.desired == Up && d.crashCount == k && d.hist.ranStable && d.hist.relaunches == k + 1
    ensures k == cfg.maxRestarts ==> Streaked(cfg, c, k + 1).desired == Down
  {
    if k > 0 { StableThenCrashes(cfg, c, k - 1); }
  }

  /** The condition under which an exit is followed by a relaunch: the container is
    * wanted up, may respawn, and either ran long enough or has crashes left.
    */
  predicate Respawns(cfg: Settings, c: Container, up: int) {
    c.desired == Up && c.conf.respawn && CrashesLeft(cfg, c, up)
  }

  predicate CrashesLeft(cfg: Settings, c: Container, up: int) {
    up >= STABLE_SECS || cfg.maxRestarts <= 0 || c.crashCount < cfg.maxRestarts
  }

  /** An exit arms exactly one relaunch, with the backoff delay of its streak, when
    * that condition holds. In all other cases it arms none, and a container that
    * could respawn is then no longer wanted: it gave up.
    */
  lemma RespawnExactly(cfg: Settings, s: State, n: string)
    requires n in s.containers
    ensures var c := s.containers[n];
      var s' := ScheduleRespawn(cfg, s, n);
      && s'.containers[n].started == 0
      && if Respawns(cfg, c, UpFor(s, c)) then
           && s'.timers == s.timers + multiset{Relaunch(n, Backoff(cfg, Streak(c, UpFor(s, c))))}
           && s'.containers[n].desired == Up && s'.containers[n].restarts == c.restarts + 1
           && s'.containers[n].crashCount == Streak(c, UpFor(s, c))
         else
           && s'.timers == s.timers && s'.containers[n].restarts == c.restarts
           && (c.conf.respawn ==> s'.containers[n].desired == Down)
  {
    var c := s.containers[n];
    if c.desired == Up && c.conf.respawn {
      var s1 := Put(s, n, c.(started := 0));
      CrashPolicyExactly(cfg, s1, n, UpFor(s, c));
      assert ScheduleRespawn(cfg, s, n) == CrashPolicy(cfg, s1, n, UpFor(s, c));
    } else {
      NoRespawn(cfg, s, n);
    }
  }

  lemma NoRespawn(cfg: Settings, s: State, n: string)
    requires n in s.containers
    requires s.containers[n].desired == Down || !s.containers[n].conf.respawn
    ensures var s', c := ScheduleRespawn(cfg, s, n), s.containers[n]; var d := s'.containers[n];
      s'.timers == s.timers && d.desired == c.desired && d.started == 0 && d.restarts == c.restarts
  {
  }

  lemma CrashPolicyExactly(cfg: Settings, s: State, n: string, up: int)
    requires n in s.containers && s.containers[n].desired == Up
    ensures var c := s.containers[n];
      var s' := CrashPolicy(cfg, s, n, up);
      var d := s'.containers[n];
      && d.started == c.started
      && if CrashesLeft(cfg, c, up) then
           && s'.timers == s.timers + multiset{Relaunch(n, Backoff(cfg, Streak(c, up)))} && d.desired == Up
           && d.restarts == c.restarts + 1 && d.crashCount == Streak(c, up)
         else
           s'.timers == s.timers && d.desired == Down && d.restarts == c.restarts
  {
    CrashedWish(cfg, s.containers[n], up);
  }

  lemma CrashedWish(cfg: Settings, c: Container, up: int)
    requires c.desired == Up
    ensures Crashed(cfg, c, up).desired == Up <==> CrashesLeft(cfg, c, up)
    ensures var d := Crashed(cfg, c, up);
      d.crashCount == Streak(c, up) && d.started == c.started && d.restarts == c.restarts + if CrashesLeft(cfg, c, up) then 1 else 0
  {
  }
}
