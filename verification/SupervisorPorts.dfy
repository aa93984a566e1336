/** Published ports come back: what starting a forwarder does, and that none is lost
  * without a word.
  */
module SupervisorPorts {
  import opened Supervisor
  import opened SupervisorSteps
  import opened SupervisorInvariant

  /** Nothing but what is recorded about the forwarder differs. */
  predicate ButPorts(c: Container, d: Container) {
    d == c.(fwdPid := d.fwdPid, fwdRestarts := d.fwdRestarts, fwdError := d.fwdError, hist := c.hist.(fwdArmed := d.hist.fwdArmed))
  }

  /** The ports of n, which publishes some, are served by a forwarder forked now that
    * will be looked at, or the record says that they are not.
    */
  predicate Published(s: State, s': State, n: string, env: Env)
    requires n in s'.containers
  {
    var d := s'.containers[n];
    if n in env.fwdSpecs && n in env.fwdForkOk then
      d.fwdPid == s.nextPid && d.fwdPid in s'.forwarders && s'.forwarders[d.fwdPid] == n && FwdCheck(n, d.fwdPid) in s'.timers && !d.fwdError
    else d.fwdPid == 0 && d.fwdError
  }

  lemma PublishServes(s: State, n: string, env: Env)
    requires n in s.containers && s.containers[n].fwdPid == 0
    ensures var s' := Publish(s, n, env);
      && ButPorts(s.containers[n], s'.containers[n]) && s'.containers[n].fwdRestarts == s.containers[n].fwdRestarts
      && if s.containers[n].conf.publishes then Published(s, s', n, env) else s'.containers[n].fwdPid == 0 && !s'.containers[n].fwdError
  {
    if s.containers[n].conf.publishes && n in env.fwdSpecs && n in env.fwdForkOk {
      ForwardingServes(s, n);
      ArmedPublished(s, Forwarding(s, n), n, env);
    }
  }

  lemma ForwardingServes(s: State, n: string)
    requires n in s.containers
    ensures var s' := Forwarding(s, n); var d := s'.containers[n];
      && ButPorts(s.containers[n], d) && d.fwdPid == s.nextPid && !d.fwdError && d.fwdRestarts == s.containers[n].fwdRestarts
      && s.nextPid in s'.forwarders && s'.forwarders[s.nextPid] == n
  {
  }

  lemma ArmedPublished(s: State, s1: State, n: string, env: Env)
    requires n in s1.containers && n in env.fwdSpecs && n in env.fwdForkOk
    requires var d := s1.containers[n];
      d.fwdPid == s.nextPid && !d.fwdError && s.nextPid in s1.forwarders && s1.forwarders[s.nextPid] == n
    ensures Published(s, Arm(s1, FwdCheck(n, s.nextPid)), n, env)
  {
  }

  lemma StopServes(s: State, n: string)
    requires n in s.containers
    ensures var s', c := StopForwards(s, n), s.containers[n];
      && ButPorts(c, s'.containers[n]) && s'.containers[n].fwdPid == 0 && s'.nextPid == s.nextPid
      && s'.containers[n].fwdRestarts == if c.fwdPid == 0 then c.fwdRestarts else 0
  {
  }

  /** Starting the forwarder of n: an old one goes, and with it the count of its respawns;
    * a new one comes if it can.
    */
  lemma StartServes(s: State, n: string, env: Env)
    requires n in s.containers
    ensures var s', c := StartForwards(s, n, env), s.containers[n];
      && ButPorts(c, s'.containers[n]) && s'.containers[n].fwdRestarts == (if c.fwdPid == 0 then c.fwdRestarts else 0)
      && if s.containers[n].conf.publishes then Published(s, s', n, env) else s'.containers[n].fwdPid == 0 && !s'.containers[n].fwdError
  {
    StopServes(s, n);
    PublishServes(StopForwards(s, n), n, env);
  }

  /** After a launch a failed attempt is repeated once. */
  lemma DeferredServes(s: State, n: string, env: Env)
    requires n in s.containers && s.nextPid > 0
    ensures var s' := StartForwardsDeferred(s, n, env);
      && ButPorts(s.containers[n], s'.containers[n])
      && (s.containers[n].conf.publishes ==>
            Published(s, s', n, env) && (s'.containers[n].fwdPid == 0 ==> FwdDeferred(n, s.containers[n].pid) in s'.timers))
  {
    StartServes(s, n, env);
    var s1, t := StartForwards(s, n, env), FwdDeferred(n, s.containers[n].pid);
    if s.containers[n].conf.publishes && s1.containers[n].fwdPid == 0 && s1.containers[n].fwdError {
      assert StartForwardsDeferred(s, n, env) == Arm(s1, t);
      assert t in Arm(s1, t).timers;
    }
  }

  /** The end of an instance ends its forwarder, and with it the count of its respawns. */
  lemma ExitForgetsRespawns(cfg: Settings, s: State, n: string)
    requires n in s.containers && s.containers[n].fwdPid != 0
    ensures n in JailExit(cfg, s, n).containers ==> JailExit(cfg, s, n).containers[n].fwdRestarts == 0
    ensures n in AdoptedExit(cfg, s, n).containers && AdoptedExit(cfg, s, n).containers[n].fwdRestarts == 0
  {
    GoneForgets(s, n);
    assert AdoptedExit(cfg, s, n) == ScheduleRespawn(cfg, Gone(s, n), n);
  }

  lemma GoneForgets(s: State, n: string)
    requires n in s.containers && s.containers[n].fwdPid != 0
    ensures Gone(s, n).containers[n].fwdRestarts == CancelWorker(Gone(s, n), n).containers[n].fwdRestarts == 0
  {
  }

  // ---- forwarders that end, and the timers about them ------------------------------------

  /** A forwarder that ends is put back after a moment while its container is meant to
    * serve, FWD_MAX_RESTARTS times; then the record says that it is not.
    */
  lemma ForwarderExitRetries(cfg: Settings, s0: State, env: Env, p: nat)
    requires Inv(cfg, s0) && Enabled(s0, env, ForwarderExits(p))
    ensures var n, s' := s0.forwarders[p], Step(cfg, s0, env, ForwarderExits(p));
      && n in s'.containers && p !in s'.forwarders
      && var c, d := s0.containers[n], s'.containers[n];
      && d.fwdPid == 0 && d.pid == c.pid && d.desired == c.desired
      && if c.pid == 0 || c.desired == Down then s'.timers == s0.timers
         else
           && d.fwdRestarts == c.fwdRestarts + 1
           && if c.fwdRestarts < FWD_MAX_RESTARTS then s'.timers == s0.timers + multiset{FwdRetry(n)}
              else s'.timers == s0.timers && d.fwdError
  {
    assert ForwarderOk(s0, p);
  }

  /** t is about a forwarder that its container, still running as then, has not got. */
  predicate Unserved(c: Container, t: Timer) {
    && c.fwdPid == 0
    && ((t.FwdRetry? && c.pid != 0 && c.desired == Up) || (t.FwdDeferred? && c.pid == t.pid))
  }

  /** A timer that finds its container without the forwarder starts one. */
  lemma RetryServes(cfg: Settings, s0: State, env: Env, t: Timer, probe: Probe)
    requires Enabled(s0, env, TimerFires(t, probe)) && (t.FwdRetry? || t.FwdDeferred?) && t.name in s0.containers
    ensures var s, s' := s0.(now := env.now, timers := s0.timers - multiset{t}), Step(cfg, s0, env, TimerFires(t, probe));
      && t.name in s'.containers
      && if !Unserved(s0.containers[t.name], t) then s' == s
         else
           && ButPorts(s0.containers[t.name], s'.containers[t.name])
           && (s0.containers[t.name].conf.publishes ==> Published(s, s', t.name, env))
  {
    var s := s0.(now := env.now);
    RetryFires(cfg, s, t, probe, env);
    StartServes(Disarm(s, t), t.name, env);
  }

  lemma RetryFires(cfg: Settings, s: State, t: Timer, probe: Probe, env: Env)
    requires t in s.timers && (t.FwdRetry? || t.FwdDeferred?) && t.name in s.containers
    ensures Fire(cfg, s, t, probe, env) ==
      if Unserved(s.containers[t.name], t) then StartForwards(Disarm(s, t), t.name, env) else Disarm(s, t)
  {
  }

  /** A forwarder that died at once is found out, and the record says so. */
  lemma CheckFinds(cfg: Settings, s0: State, env: Env, t: Timer, probe: Probe)
    requires Enabled(s0, env, TimerFires(t, probe)) && t.FwdCheck? && t.name in s0.containers
    ensures var s, s' := s0.(now := env.now, timers := s0.timers - multiset{t}), Step(cfg, s0, env, TimerFires(t, probe));
      if s0.containers[t.name].fwdPid == t.pid && probe.forwarderDead then
        && t.name in s'.containers && s'.containers[t.name].fwdPid == 0 && s'.containers[t.name].fwdError
        && ButPorts(s0.containers[t.name], s'.containers[t.name]) && s'.timers == s.timers
      else s' == s
  {
  }
}
