/** What a call, a finished upgrade and a watch bring about: a running instance is told to
  * stop, and a container that is down is launched.
  */
module SupervisorCalls {
  import opened Supervisor
  import opened SupervisorSteps
  import opened SupervisorFrames
  import opened SupervisorUpgrade
  import opened SupervisorLaunches

  // ---- a launch, and more timers ---------------------------------------------------------

  lemma EndedMore(cfg: Settings, s: State, s1: State, s2: State, n: string, c: Container, env: Env)
    requires s2 == s1.(timers := s2.timers) && s1.timers <= s2.timers && s.nextPid > 0
    requires n in s1.containers && Ended(cfg, s, s1, n, c, env)
    ensures Ended(cfg, s, s2, n, c, env)
  {
    if Attempted(cfg, s, s1, n, env) { AttemptedLater(cfg, s, s1, s2, n, env); }
  }

  /** Another timer armed afterwards changes nothing of what a launch brought. */
  lemma BringsMore(cfg: Settings, s: State, s1: State, s2: State, n: string, c: Container, k: nat, env: Env)
    requires s2 == s1.(timers := s2.timers) && s1.timers <= s2.timers && s.nextPid > 0
    requires Brings(cfg, s, s1, n, c, k, env)
    ensures Brings(cfg, s, s2, n, c, k, env)
  {
    var deps := ReadConfig(s, n).dependsOn;
    var timedOut := c.depWaitSince != 0 && s.now - c.depWaitSince >= cfg.startTimeout;
    forall m | m !in {n} ensures RaisedAt(cfg, s, s2, m, env) {
      assert RaisedAt(cfg, s, s1, m, env);
      if Attempted(cfg, s, s1, m, env) { AttemptedLater(cfg, s, s1, s2, m, env); }
    }
    if ReadConfig(s, n).bundle != "" {
      forall j | 0 <= j < k ensures Seen(cfg, s, s2, n, deps[j], timedOut, env) {
        assert Seen(cfg, s, s1, n, deps[j], timedOut, env);
        if Attempted(cfg, s, s1, deps[j], env) { AttemptedLater(cfg, s, s1, s2, deps[j], env); }
      }
      if k < |deps| {
        if Attempted(cfg, s, s1, deps[k], env) { AttemptedLater(cfg, s, s1, s2, deps[k], env); }
      } else {
        EndedMore(cfg, s, s1, s2, n, c, env);
      }
    }
  }

  // ---- start ------------------------------------------------------------------------------

  /** The record a call for n finds or creates. */
  function RecordOf(s: State, n: string): Container {
    if n in s.containers then s.containers[n] else ApplyConfig(FRESH_CONTAINER, ReadConfig(s, n))
  }

  /** Wanted up, without crashes. */
  function Calmed(c: Container): Container {
    c.(desired := Up, crashCount := 0, hist := c.hist.(relaunches := 0, ranStable := false))
  }

  /** start: a running container goes on, wanted up and without crashes; one that is down
    * is launched with fresh patience. Without a bundle nothing happens.
    */
  ghost predicate Started(cfg: Settings, s: State, s': State, n: string, k: nat, env: Env) {
    var c := RecordOf(s, n);
    && n in s'.containers && s'.signalled == s.signalled
    && if c.conf.bundle == "" then s'.containers[n] == c && s'.timers == s.timers && s'.jails == s.jails
       else if c.pid != 0 then
         && s'.containers[n].desired == Up && s'.containers[n].crashCount == 0
         && s'.containers[n].pid == c.pid && s'.containers[n].started == c.started && s'.timers == s.timers
       else Brings(cfg, s, s', n, Calmed(c).(depWaitSince := 0, infraWaitSince := 0), k, env)
  }

  lemma EnsureSays(s: State, n: string)
    ensures SameBut(s, Ensure(s, n), n) && Ensure(s, n).containers[n] == RecordOf(s, n)
  {
  }

  lemma OperatorStartBrings(cfg: Settings, s: State, n: string, env: Env) returns (k: nat)
    requires ValidName(n) && s.nextPid > 0 && s.now > 0
    ensures Started(cfg, s, OperatorStart(cfg, s, n, env), n, k, env)
  {
    var s1, c := Ensure(s, n), RecordOf(s, n);
    var s2 := Put(s1, n, MarkUp(c));
    k := 0;
    EnsureSays(s, n);
    if c.conf.bundle != "" && c.pid == 0 {
      k := LaunchBrings(cfg, s2, n, env);
      var s', d := Launch(cfg, s2, n, env), Calmed(c).(depWaitSince := 0, infraWaitSince := 0);
      BringsAlike(cfg, s2, s', n, MarkUp(c), d, k, env);
      BringsFrom(cfg, s, s2, s', n, d, k, env);
    }
  }

  /** The operator's start, as a step. */
  lemma StartBrings(cfg: Settings, s0: State, env: Env, n: string) returns (k: nat)
    requires Enabled(s0, env, CallStart(n)) && s0.nextPid > 0
    ensures var s, s' := s0.(now := env.now), Step(cfg, s0, env, CallStart(n));
      if ValidName(n) then Started(cfg, s, s', n, k, env) else s' == s
  {
    k := 0;
    if ValidName(n) { k := OperatorStartBrings(cfg, s0.(now := env.now), n, env); }
  }

  // ---- restart ------------------------------------------------------------------------------

  /** n is wanted up again and without crashes: a running instance is told to stop and will
    * be killed if it does not; a container that is down is launched.
    */
  ghost predicate Restarted(cfg: Settings, s: State, s': State, n: string, c: Container, k: nat, env: Env) {
    n in s'.containers
    && if c.pid != 0 then
         && s'.containers[n].desired == Up && s'.containers[n].crashCount == 0
         && s'.containers[n].pid == c.pid && s'.containers[n].started == c.started
         && s'.signalled == s.signalled + {c.pid} && s'.timers[GraceKill(n, c.pid)] > s.timers[GraceKill(n, c.pid)]
         && s'.containers[n].lastUpdate == c.lastUpdate
       else
         s'.signalled == s.signalled && Brings(cfg, s, s', n, Calmed(c), k, env)
  }

  /** Nobody is told to stop, wanted or forked. */
  ghost predicate Idle(s: State, s': State) {
    && s'.signalled == s.signalled && s'.jails == s.jails
    && forall m | m in s.containers ::
         m in s'.containers && s'.containers[m].pid == s.containers[m].pid && s'.containers[m].desired == s.containers[m].desired
  }

  lemma RestartDoes(cfg: Settings, s: State, n: string, env: Env) returns (k: nat)
    requires s.nextPid > 0 && s.now > 0
    ensures var s', c := Restart(cfg, s, n, env), RecordOf(s, n);
      if ValidName(n) && c.conf.bundle != "" then Restarted(cfg, s, s', n, c, k, env) else Idle(s, s') && s'.timers == s.timers
  {
    var c := RecordOf(s, n);
    k := 0;
    EnsureSays(s, n);
    if ValidName(n) && c.conf.bundle != "" {
      if c.pid == 0 { k := DownRestarts(cfg, s, n, env); } else { RunningRestarts(cfg, s, n, env); }
    } else {
      assert Restart(cfg, s, n, env) == if ValidName(n) then Ensure(s, n) else s;
    }
  }

  lemma DownRestarts(cfg: Settings, s: State, n: string, env: Env) returns (k: nat)
    requires s.nextPid > 0 && s.now > 0 && ValidName(n)
    requires RecordOf(s, n).conf.bundle != "" && RecordOf(s, n).pid == 0
    ensures Restarted(cfg, s, Restart(cfg, s, n, env), n, RecordOf(s, n), k, env)
  {
    var c := RecordOf(s, n);
    var s2 := Put(Ensure(s, n), n, WantedAnew(c));
    EnsureSays(s, n);
    k := LaunchBrings(cfg, s2, n, env);
    var s' := Launch(cfg, s2, n, env);
    assert Restart(cfg, s, n, env) == s';
    BringsAlike(cfg, s2, s', n, WantedAnew(c), Calmed(c), k, env);
    BringsFrom(cfg, s, s2, s', n, Calmed(c), k, env);
  }

  lemma RunningRestarts(cfg: Settings, s: State, n: string, env: Env)
    requires ValidName(n) && RecordOf(s, n).conf.bundle != "" && RecordOf(s, n).pid != 0
    ensures Restarted(cfg, s, Restart(cfg, s, n, env), n, RecordOf(s, n), 0, env)
  {
    var c := RecordOf(s, n);
    assert Restart(cfg, s, n, env) == SignalAndReap(Put(Ensure(s, n), n, WantedAnew(c)), n, c.pid);
  }

  /** The operator's restart, as a step. */
  lemma RestartBrings(cfg: Settings, s0: State, env: Env, n: string) returns (k: nat)
    requires Enabled(s0, env, CallRestart(n)) && s0.nextPid > 0
    ensures var s, s' := s0.(now := env.now), Step(cfg, s0, env, CallRestart(n));
      var c := RecordOf(s, n);
      if ValidName(n) && c.conf.bundle != "" then Restarted(cfg, s, s', n, c, k, env) else Idle(s, s') && s'.timers == s.timers
  {
    k := RestartDoes(cfg, s0.(now := env.now), n, env);
  }

  /** A relaunch timer launches its container if that is wanted up and has no instance. */
  lemma RelaunchBrings(cfg: Settings, s0: State, env: Env, t: Timer, probe: Probe) returns (k: nat)
    requires Enabled(s0, env, TimerFires(t, probe)) && t.Relaunch? && s0.nextPid > 0
    ensures var s, s' := s0.(now := env.now, timers := s0.timers - multiset{t}), Step(cfg, s0, env, TimerFires(t, probe));
      var n := t.name;
      if n in s.containers && s.containers[n].desired == Up && s.containers[n].pid == 0 then
        Brings(cfg, s, s', n, s.containers[n], k, env)
      else s' == s
  {
    var s := s0.(now := env.now, timers := s0.timers - multiset{t});
    k := 0;
    if Wanting(s, t.name) { k := LaunchBrings(cfg, s, t.name, env); }
  }

  // ---- a restart with another entry or result recorded before --------------------------------

  /** The record before a restart that is preceded by changes to n's record alone. */
  lemma RestartedFrom(cfg: Settings, s: State, s1: State, s': State, n: string, c: Container, d: Container, k: nat, env: Env)
    requires Restarted(cfg, s1, s', n, c, k, env)
    requires s1 == s.(containers := s1.containers) && (s1 == s || (n in s.containers && SameBut(s, s1, n)))
    requires Alike(c, d) && d.pid == c.pid && d.started == c.started
    ensures Restarted(cfg, s, s', n, d, k, env)
  {
    if c.pid == 0 {
      BringsAlike(cfg, s1, s', n, Calmed(c), Calmed(d), k, env);
      if s1 != s { BringsFrom(cfg, s, s1, s', n, Calmed(d), k, env); }
    }
  }

  lemma RestartedMore(cfg: Settings, s: State, s1: State, s2: State, n: string, c: Container, k: nat, env: Env)
    requires s2 == s1.(timers := s2.timers) && s1.timers <= s2.timers && s.nextPid > 0
    requires Restarted(cfg, s, s1, n, c, k, env)
    ensures Restarted(cfg, s, s2, n, c, k, env)
  {
    if c.pid == 0 { BringsMore(cfg, s, s1, s2, n, Calmed(c), k, env); }
  }

  /** The bundle that a restart of n finds after its entry was written back, or not. */
  function BundleAfter(s: State, n: string, recorded: bool): string {
    if recorded && ReadConfig(s, n).bundle != "" then ReadConfig(s, n).bundle else RecordOf(s, n).conf.bundle
  }

  lemma RewrittenSays(s: State, n: string, recorded: bool)
    requires ValidName(n)
    ensures var s' := Rewritten(s, n, recorded); var c, d := RecordOf(s, n), RecordOf(s', n);
      && s' == s.(containers := s'.containers) && (s' == s || (n in s.containers && SameBut(s, s', n)))
      && Alike(c, d) && d.pid == c.pid && d.started == c.started && d.conf.bundle == BundleAfter(s, n, recorded)
  {
    if recorded && ReadConfig(s, n).bundle != "" { assert s.registry[n := s.registry[n]] == s.registry; }
  }

  /** After a successful swap of the bundles the container is restarted. */
  lemma RevertedRestarts(cfg: Settings, s: State, n: string, recorded: bool, env: Env) returns (k: nat)
    requires s.nextPid > 0 && s.now > 0 && ValidName(n) && BundleAfter(s, n, recorded) != ""
    ensures Restarted(cfg, s, Reverted(cfg, s, n, recorded, env), n, RecordOf(s, n), k, env)
  {
    var s1 := Rewritten(s, n, recorded);
    RewrittenSays(s, n, recorded);
    k := RestartDoes(cfg, s1, n, env);
    RestartedFrom(cfg, s, s1, Restart(cfg, s1, n, env), n, RecordOf(s1, n), RecordOf(s, n), k, env);
  }

  /** A rollback by hand whose swap succeeds restarts the container. */
  lemma RollbackBrings(cfg: Settings, s0: State, env: Env, n: string, recorded: bool, swapOk: bool) returns (k: nat)
    requires Enabled(s0, env, CallRollback(n, recorded, swapOk)) && s0.nextPid > 0
    ensures var s, s' := s0.(now := env.now), Step(cfg, s0, env, CallRollback(n, recorded, swapOk));
      if !ValidName(n) || ReadConfig(s, n).bundle == "" || !swapOk then s' == s
      else BundleAfter(s, n, recorded) != "" ==> Restarted(cfg, s, s', n, RecordOf(s, n), k, env)
  {
    var s := s0.(now := env.now);
    k := 0;
    if ValidName(n) && ReadConfig(s, n).bundle != "" && swapOk && BundleAfter(s, n, recorded) != "" {
      k := RevertedRestarts(cfg, s, n, recorded, env);
    }
  }

  // ---- finished upgrades ---------------------------------------------------------------------

  /** The upgrade of n is watched: safe update is on and n has a healthcheck. */
  predicate Watched(cfg: Settings, s: State, n: string) {
    cfg.safeUpdate && n in s.containers && s.containers[n].conf.hcInterval > 0
  }

  /** The record whose instance an upgrade replaces; a watched one forgets its last result. */
  function Upgrading(cfg: Settings, s: State, n: string): Container {
    if Watched(cfg, s, n) then RecordOf(s, n).(lastUpdate := NoResult) else RecordOf(s, n)
  }

  lemma RecordedSays(cfg: Settings, s: State, n: string, hadPrev: bool)
    requires ValidName(n)
    ensures var s' := UpgradeRecorded(cfg, s, n, hadPrev); var c, d := Upgrading(cfg, s, n), RecordOf(s', n);
      && s' == s.(containers := s'.containers) && (s' == s || (n in s.containers && SameBut(s, s', n)))
      && Alike(c, d) && d.pid == c.pid && d.started == c.started && d.conf.bundle == BundleAfter(s, n, hadPrev)
  {
    if Watched(cfg, s, n) {
      RewrittenSays(Put(s, n, s.containers[n].(lastUpdate := NoResult)), n, hadPrev);
    } else {
      RewrittenSays(s, n, hadPrev);
    }
  }

  /** The restart in the middle of job_exit_cb. */
  lemma RecordedRestarts(cfg: Settings, s: State, n: string, hadPrev: bool, env: Env) returns (k: nat)
    requires s.nextPid > 0 && s.now > 0 && ValidName(n) && BundleAfter(s, n, hadPrev) != ""
    ensures Restarted(cfg, s, Restart(cfg, UpgradeRecorded(cfg, s, n, hadPrev), n, env), n, Upgrading(cfg, s, n), k, env)
  {
    var s1 := UpgradeRecorded(cfg, s, n, hadPrev);
    RecordedSays(cfg, s, n, hadPrev);
    k := RestartDoes(cfg, s1, n, env);
    RestartedFrom(cfg, s, s1, Restart(cfg, s1, n, env), n, RecordOf(s1, n), Upgrading(cfg, s, n), k, env);
  }

  lemma NotRestarted(cfg: Settings, s: State, n: string, hadPrev: bool, env: Env)
    requires !ValidName(n) || BundleAfter(s, n, hadPrev) == ""
    ensures Idle(s, Restart(cfg, UpgradeRecorded(cfg, s, n, hadPrev), n, env))
  {
    var s1 := UpgradeRecorded(cfg, s, n, hadPrev);
    if ValidName(n) {
      RecordedSays(cfg, s, n, hadPrev);
      EnsureSays(s1, n);
    }
  }

  /** A finished upgrade restarts its container if there is a bundle to restart it with. */
  lemma UpgradeBrings(cfg: Settings, s0: State, env: Env, n: string, hadPrev: bool) returns (k: nat)
    requires Enabled(s0, env, UpgradeFinished(n, hadPrev)) && s0.nextPid > 0
    ensures var s, s' := s0.(now := env.now), Step(cfg, s0, env, UpgradeFinished(n, hadPrev));
      if ValidName(n) && BundleAfter(s, n, hadPrev) != "" then Restarted(cfg, s, s', n, Upgrading(cfg, s, n), k, env)
      else Idle(s, s')
  {
    k := UpgradeRestarts(cfg, s0.(now := env.now), n, hadPrev, env);
  }

  lemma UpgradeRestarts(cfg: Settings, s: State, n: string, hadPrev: bool, env: Env) returns (k: nat)
    requires s.nextPid > 0 && s.now > 0
    ensures var s' := UpgradeDone(cfg, s, n, hadPrev, env);
      if ValidName(n) && BundleAfter(s, n, hadPrev) != "" then Restarted(cfg, s, s', n, Upgrading(cfg, s, n), k, env)
      else Idle(s, s')
  {
    var s2 := Restart(cfg, UpgradeRecorded(cfg, s, n, hadPrev), n, env);
    var s' := UpgradeDone(cfg, s, n, hadPrev, env);
    k := 0;
    assert s' == s2.(timers := s'.timers) && s2.timers <= s'.timers;
    if ValidName(n) && BundleAfter(s, n, hadPrev) != "" {
      k := RecordedRestarts(cfg, s, n, hadPrev, env);
      RestartedMore(cfg, s, s2, s', n, Upgrading(cfg, s, n), k, env);
    } else {
      NotRestarted(cfg, s, n, hadPrev, env);
    }
  }

  /** The watch of a finished upgrade: until when, and which instance it is to outlive. */
  function WatchOf(cfg: Settings, s: State, s': State, n: string): Timer
    requires n in s.containers && n in s'.containers
  {
    var window := cfg.safeUpdateWindow + s'.containers[n].conf.policy.startPeriod;
    Watch(n, s.now + (if window >= 1 then window else 1), s.containers[n].started, s.nextPid)
  }

  /** If it is gated, the upgrade is watched from then on; otherwise nothing is. */
  lemma UpgradeIsWatched(cfg: Settings, s0: State, env: Env, n: string, hadPrev: bool)
    requires Enabled(s0, env, UpgradeFinished(n, hadPrev)) && s0.nextPid > 0
    ensures var s, s' := s0.(now := env.now), Step(cfg, s0, env, UpgradeFinished(n, hadPrev));
      if Watched(cfg, s, n) then
        n in s'.containers && WatchOf(cfg, s, s', n) in s'.timers && s'.containers[n].lastUpdate == NoResult
      else NoNewWatch(s, s')
  {
    var s := s0.(now := env.now);
    if Watched(cfg, s, n) { UpgradeArms(cfg, s, n, hadPrev, env); } else { UpgradeArmsNone(cfg, s, n, hadPrev, env); }
  }

  lemma UpgradeArms(cfg: Settings, s: State, n: string, hadPrev: bool, env: Env)
    requires s.nextPid > 0 && s.now > 0 && Watched(cfg, s, n)
    ensures var s' := UpgradeDone(cfg, s, n, hadPrev, env);
      n in s'.containers && WatchOf(cfg, s, s', n) in s'.timers && s'.containers[n].lastUpdate == NoResult
  {
    var s1 := UpgradeRecorded(cfg, s, n, hadPrev);
    var s2 := Restart(cfg, s1, n, env);
    RecordedResult(cfg, s, n, hadPrev);
    RestartKeepsResult(cfg, s1, n, env);
    assert UpgradeDone(cfg, s, n, hadPrev, env) == Arm(s2, WatchOf(cfg, s, s2, n));
    assert WatchOf(cfg, s, s2, n) in Arm(s2, WatchOf(cfg, s, s2, n)).timers;
  }

  lemma RecordedResult(cfg: Settings, s: State, n: string, hadPrev: bool)
    requires Watched(cfg, s, n)
    ensures var s' := UpgradeRecorded(cfg, s, n, hadPrev);
      n in s'.containers && s'.containers[n].lastUpdate == NoResult && s'.now == s.now && s'.nextPid == s.nextPid
  {
  }

  lemma UpgradeArmsNone(cfg: Settings, s: State, n: string, hadPrev: bool, env: Env)
    requires !Watched(cfg, s, n)
    ensures NoNewWatch(s, UpgradeDone(cfg, s, n, hadPrev, env))
  {
    var s1 := UpgradeRecorded(cfg, s, n, hadPrev);
    RestartLaunched(cfg, s1, n, env);
    assert NoNewWatch(s, s1) && Known(s1, n).timers == s1.timers;
  }

  lemma RestartKeepsResult(cfg: Settings, s: State, n: string, env: Env)
    requires n in s.containers
    requires s.nextPid > 0 && s.now > 0
    ensures var s' := Restart(cfg, s, n, env); n in s'.containers && s'.containers[n].lastUpdate == s.containers[n].lastUpdate && s'.now == s.now
  {
    if ValidName(n) && s.containers[n].conf.bundle != "" && s.containers[n].pid == 0 {
      var k := LaunchBrings(cfg, Put(s, n, WantedAnew(s.containers[n])), n, env);
    }
  }

  // ---- watches -----------------------------------------------------------------------------

  /** A poll of a watch: it ends verified as soon as a newer instance is healthy; it goes on
    * before its deadline; and then the container is rolled back and restarted if the
    * bundles could be swapped.
    */
  ghost predicate Polled(cfg: Settings, s: State, s': State, t: Timer, probe: Probe, k: nat, env: Env)
    requires t.Watch?
  {
    var n, s1 := t.name, s.(timers := s.timers - multiset{t});
    if n !in s.containers then s' == s1
    else
      && n in s'.containers
      && if Passes(s, t) then
           s'.containers[n] == s.containers[n].(lastUpdate := Verified) && Idle(s, s') && s'.timers == s1.timers
         else if s.now < t.deadline then s' == s
         else if ReadConfig(s, n).bundle == "" || !probe.swapOk then
           s'.containers[n].lastUpdate == RollbackFailed && Idle(s, s') && s'.timers == s1.timers
         else
           && s'.containers[n].lastUpdate == RolledBack
           && (ValidName(n) && BundleAfter(s, n, probe.recorded) != "" ==>
                 Restarted(cfg, s1, s', n, s.containers[n].(lastUpdate := RolledBack), k, env))
  }

  lemma WatchPolls(cfg: Settings, s0: State, env: Env, t: Timer, probe: Probe) returns (k: nat)
    requires Enabled(s0, env, TimerFires(t, probe)) && t.Watch? && s0.nextPid > 0
    ensures Polled(cfg, s0.(now := env.now), Step(cfg, s0, env, TimerFires(t, probe)), t, probe, k, env)
  {
    k := PollDoes(cfg, s0.(now := env.now), t, probe, env);
  }

  lemma PollDoes(cfg: Settings, s: State, t: Timer, probe: Probe, env: Env) returns (k: nat)
    requires t.Watch? && t in s.timers && s.nextPid > 0 && s.now > 0
    ensures Polled(cfg, s, WatchPoll(cfg, s, t, probe, env), t, probe, k, env)
  {
    var n := t.name;
    k := 0;
    if n in s.containers {
      if Passes(s, t) {
        ResultIdle(s, t, Verified);
      } else if s.now >= t.deadline {
        if ReadConfig(s, n).bundle != "" && probe.swapOk {
          k := WatchReverts(cfg, s, t, probe, env);
        } else {
          ResultIdle(s, t, RollbackFailed);
        }
      }
    }
  }

  lemma ResultIdle(s: State, t: Timer, result: LastUpdate)
    requires t.name in s.containers
    ensures var s' := Put(Disarm(s, t), t.name, s.containers[t.name].(lastUpdate := result));
      Idle(s, s') && s'.timers == s.timers - multiset{t} && s'.containers[t.name] == s.containers[t.name].(lastUpdate := result)
  {
  }

  lemma WatchReverts(cfg: Settings, s: State, t: Timer, probe: Probe, env: Env) returns (k: nat)
    requires t.Watch? && t in s.timers && t.name in s.containers && s.nextPid > 0 && s.now > 0
    ensures var n, s1 := t.name, Disarm(s, t);
      var c := s.containers[n].(lastUpdate := RolledBack);
      var s' := Reverted(cfg, Put(s1, n, c), n, probe.recorded, env);
      && n in s'.containers && s'.containers[n].lastUpdate == RolledBack
      && (ValidName(n) && BundleAfter(s, n, probe.recorded) != "" ==> Restarted(cfg, s1, s', n, c, k, env))
  {
    var n, s1 := t.name, Disarm(s, t);
    var c := s.containers[n].(lastUpdate := RolledBack);
    var s2 := Put(s1, n, c);
    k := 0;
    RestartKeepsResult(cfg, Rewritten(s2, n, probe.recorded), n, env);
    if ValidName(n) && BundleAfter(s, n, probe.recorded) != "" {
      k := RevertedRestarts(cfg, s2, n, probe.recorded, env);
      RestartedFrom(cfg, s1, s2, Reverted(cfg, s2, n, probe.recorded, env), n, c, c, k, env);
    }
  }
}
