/** What every run of the supervisor keeps: one live jail per container, no lost
  * relaunch, no forwarder without a service, no kill that was not announced.
  */
module SupervisorInvariant {
  import opened Wrappers
  import opened DependencyGraph
  import opened Supervisor

  // ---- the invariant --------------------------------------------------------------

  ghost predicate RelaunchPending(s: State, n: string) {
    exists delay :: Relaunch(n, delay) in s.timers
  }

  /** Wanted up but down only with a relaunch ahead or a recorded reason. */
  ghost predicate Settled(s: State, n: string)
    requires n in s.containers
  {
    var c := s.containers[n];
    c.desired == Up && c.pid == 0 ==> RelaunchPending(s, n) || c.hist.parked != None
  }

  /** The last deferral to a dependency was within the patience of this wait. */
  predicate Patient(cfg: Settings, c: Container) {
    c.hist.waitsOn != None ==>
      && c.pid == 0 && c.depWaitSince != 0 && c.depWaitSince <= c.hist.waitedAt
      && (c.hist.waitedAt == c.depWaitSince || c.hist.waitedAt - c.depWaitSince < cfg.startTimeout)
  }

  /** The crash count bounds the relaunches, but for the one after a stable run. */
  predicate RelaunchesOk(cfg: Settings, c: Container) {
    var first := if c.hist.ranStable then 1 else 0;
    && c.hist.relaunches <= c.crashCount + first
    && (cfg.maxRestarts > 0 ==> c.hist.relaunches <= cfg.maxRestarts + first)
  }

  predicate LocalOk(cfg: Settings, now: nat, c: Container) {
    && c.started <= now && (c.pid != 0 ==> 0 < c.started)
    && (c.adopted ==> c.pid != 0)
    && (c.fwdPid != 0 ==> c.pid != 0)
    && c.depWaitSince <= now && c.hist.waitedAt <= now
    && c.hist.fwdArmed <= c.fwdRestarts && c.hist.fwdArmed <= FWD_MAX_RESTARTS
    && RelaunchesOk(cfg, c)
    && Patient(cfg, c)
  }

  /** The process ids and ticks a record mentions are really supervised for it. */
  predicate LinkOk(s: State, n: string, c: Container) {
    && (c.pid != 0 ==> c.pid in s.jails && s.jails[c.pid] == n)
    && (c.fwdPid != 0 ==> c.fwdPid in s.forwarders && s.forwarders[c.fwdPid] == n)
    && (c.hcWorker != 0 ==> c.hcWorker in s.workers && s.workers[c.hcWorker] == n)
    && (c.hcScheduled ==> HealthTick(n) in s.timers)
  }

  predicate Tracked(cfg: Settings, s: State, n: string) {
    n in s.containers ==> LocalOk(cfg, s.now, s.containers[n]) && LinkOk(s, n, s.containers[n])
  }

  /** Every child is the one its container tracks. */
  predicate JailOk(s: State, p: nat) {
    p in s.jails ==> 0 < p < s.nextPid && s.jails[p] in s.containers && s.containers[s.jails[p]].pid == p
  }

  predicate ForwarderOk(s: State, p: nat) {
    p in s.forwarders ==> 0 < p < s.nextPid && s.forwarders[p] in s.containers && s.containers[s.forwarders[p]].fwdPid == p
  }

  predicate WorkerOk(s: State, p: nat) {
    p in s.workers ==> 0 < p < s.nextPid && s.workers[p] in s.containers && s.containers[s.workers[p]].hcWorker == p
  }

  /** SIGKILL goes only to jails that got the stop signal first. */
  predicate SignalOk(s: State, p: nat) {
    && (p in s.killed ==> p in s.signalled)
    && (p in s.signalled ==> 0 < p < s.nextPid)
  }

  /** A grace timer belongs to a signalled jail, and a watch armed before an
    * instance existed can tell it from the older one.
    */
  predicate TimerOk(s: State, t: Timer) {
    t in s.timers ==>
      && (t.GraceKill? ==> t.pid in s.signalled)
      && (t.FwdCheck? || t.FwdDeferred? ==> t.pid != 0)
      && (t.Watch? ==> t.arose <= s.nextPid && t.after <= s.now && (t.name in s.containers ==> TellsApart(s.containers[t.name], t)))
  }

  predicate TellsApart(c: Container, t: Timer)
    requires t.Watch?
  {
    c.pid == 0 || c.pid >= t.arose || c.started <= t.after
  }

  ghost predicate SettledBut(s: State, x: set<string>, n: string) {
    n in s.containers && n !in x ==> Settled(s, n)
  }

  /** The invariant, with the containers in x still being launched. */
  ghost predicate InvBut(cfg: Settings, s: State, x: set<string>) {
    && s.nextPid > 0
    && (forall n :: Tracked(cfg, s, n))
    && (forall p :: JailOk(s, p)) && (forall p :: ForwarderOk(s, p)) && (forall p :: WorkerOk(s, p))
    && (forall p :: SignalOk(s, p))
    && (forall t :: TimerOk(s, t))
    && (forall n :: SettledBut(s, x, n))
  }

  ghost predicate Inv(cfg: Settings, s: State) {
    InvBut(cfg, s, {})
  }

  // ---- small updates ----------------------------------------------------------------

  lemma Settle(cfg: Settings, s: State, n: string, x: set<string>)
    requires InvBut(cfg, s, x + {n})
    requires n in s.containers ==> Settled(s, n)
    ensures InvBut(cfg, s, x)
  {
    forall m ensures SettledBut(s, x, m) { assert SettledBut(s, x + {n}, m); }
  }

  predicate SameLife(c: Container, d: Container) {
    && c.pid == d.pid && c.started == d.started && c.fwdPid == d.fwdPid
    && c.hcWorker == d.hcWorker && c.hcScheduled == d.hcScheduled
  }

  lemma PutKeeps(cfg: Settings, s: State, n: string, c: Container, x: set<string>)
    requires InvBut(cfg, s, x) && n in s.containers
    requires SameLife(s.containers[n], c) && LocalOk(cfg, s.now, c)
    ensures InvBut(cfg, Put(s, n, c), x + {n})
    ensures n in x || Settled(Put(s, n, c), n) ==> InvBut(cfg, Put(s, n, c), x)
  {
    var s' := Put(s, n, c);
    forall m ensures Tracked(cfg, s', m) { assert Tracked(cfg, s, m); }
    forall p ensures JailOk(s', p) { assert JailOk(s, p); }
    forall p ensures ForwarderOk(s', p) { assert ForwarderOk(s, p); }
    forall p ensures WorkerOk(s', p) { assert WorkerOk(s, p); }
    forall p ensures SignalOk(s', p) { assert SignalOk(s, p); }
    forall t ensures TimerOk(s', t) { assert TimerOk(s, t); }
    forall m ensures m != n ==> SettledBut(s', x, m) { assert SettledBut(s, x, m); SamePending(s, s', m); }
    SettledCases(s', x, n);
  }

  lemma SamePending(s: State, s': State, n: string)
    requires s.timers <= s'.timers
    ensures RelaunchPending(s, n) ==> RelaunchPending(s', n)
  {
    if RelaunchPending(s, n) {
      var delay :| Relaunch(n, delay) in s.timers;
      assert Relaunch(n, delay) in s'.timers;
    }
  }

  lemma SettledCases(s: State, x: set<string>, n: string)
    requires forall m :: m != n ==> SettledBut(s, x, m)
    ensures forall m :: SettledBut(s, x + {n}, m)
    ensures n in x || (n in s.containers ==> Settled(s, n)) ==> forall m :: SettledBut(s, x, m)
  {
    forall m ensures SettledBut(s, x + {n}, m) { assert m != n ==> SettledBut(s, x, m); }
    forall m ensures n in x || (n in s.containers ==> Settled(s, n)) ==> SettledBut(s, x, m) {
      assert m != n ==> SettledBut(s, x, m);
    }
  }

  lemma ArmKeeps(cfg: Settings, s: State, t: Timer, x: set<string>)
    requires InvBut(cfg, s, x) && TimerOk(Arm(s, t), t)
    ensures InvBut(cfg, Arm(s, t), x)
    ensures t in Arm(s, t).timers
  {
    var s' := Arm(s, t);
    forall m ensures Tracked(cfg, s', m) { assert Tracked(cfg, s, m); }
    forall p ensures JailOk(s', p) { assert JailOk(s, p); }
    forall p ensures ForwarderOk(s', p) { assert ForwarderOk(s, p); }
    forall p ensures WorkerOk(s', p) { assert WorkerOk(s, p); }
    forall p ensures SignalOk(s', p) { assert SignalOk(s, p); }
    forall u ensures TimerOk(s', u) { assert TimerOk(s, u); }
    forall m ensures SettledBut(s', x, m) { assert SettledBut(s, x, m); SamePending(s, s', m); }
  }

  /** Arming a relaunch settles its container. */
  lemma RetryKeeps(cfg: Settings, s: State, n: string, delay: nat, x: set<string>)
    requires InvBut(cfg, s, x + {n})
    ensures InvBut(cfg, Arm(s, Relaunch(n, delay)), x)
  {
    ArmKeeps(cfg, s, Relaunch(n, delay), x + {n});
    Settle(cfg, Arm(s, Relaunch(n, delay)), n, x);
  }

  /** A timer other than a tick may go; a relaunch leaves its container unsettled. */
  lemma DisarmKeeps(cfg: Settings, s: State, t: Timer, x: set<string>)
    requires InvBut(cfg, s, x)
    requires !t.HealthTick?
    ensures InvBut(cfg, Disarm(s, t), if t.Relaunch? then x + {t.name} else x)
  {
    var s' := Disarm(s, t);
    var y := if t.Relaunch? then x + {t.name} else x;
    forall m ensures Tracked(cfg, s', m) { assert Tracked(cfg, s, m); }
    forall p ensures JailOk(s', p) { assert JailOk(s, p); }
    forall p ensures ForwarderOk(s', p) { assert ForwarderOk(s, p); }
    forall p ensures WorkerOk(s', p) { assert WorkerOk(s, p); }
    forall p ensures SignalOk(s', p) { assert SignalOk(s, p); }
    forall u ensures TimerOk(s', u) { assert TimerOk(s, u); }
    forall m ensures SettledBut(s', y, m) {
      assert SettledBut(s, x, m);
      if RelaunchPending(s, m) {
        var delay :| Relaunch(m, delay) in s.timers;
        assert Relaunch(m, delay) != t ==> Relaunch(m, delay) in s'.timers;
      }
    }
  }

  // ---- children come and go -----------------------------------------------------------

  /** One kind of child after a change to n: n's only child is the tracked one,
    * everybody else's are the same.
    */
  predicate ChildMap(before: map<nat, string>, after: map<nat, string>, n: string, tracked: nat, nextPid: nat) {
    && (forall p | p in after && after[p] == n :: p == tracked && 0 < p < nextPid)
    && (forall p | p in after && after[p] != n :: p in before && before[p] == after[p])
    && (forall p | p in before && before[p] != n :: p in after && after[p] == before[p])
    && (tracked != 0 ==> tracked in after && after[tracked] == n)
  }

  /** Dropping n's tracked child, or keeping it, or adding a fresh one. */
  lemma ChildKept(before: map<nat, string>, n: string, tracked: nat, nextPid: nat, later: nat)
    requires forall p | p in before && before[p] == n :: p == tracked && 0 < p < nextPid
    requires tracked != 0 ==> tracked in before && before[tracked] == n
    requires 0 < nextPid <= later
    ensures ChildMap(before, before, n, tracked, later)
    ensures tracked != 0 ==> ChildMap(before, before - {tracked}, n, 0, later)
    ensures tracked == 0 && nextPid !in before ==> ChildMap(before, before[nextPid := n], n, nextPid, nextPid + 1)
  {
  }

  /** The three child maps of n under the invariant. */
  lemma Children(cfg: Settings, s: State, n: string, x: set<string>, later: nat)
    requires InvBut(cfg, s, x) && n in s.containers && s.nextPid <= later
    ensures var c := s.containers[n];
      && ChildMap(s.jails, s.jails, n, c.pid, later)
      && ChildMap(s.forwarders, s.forwarders, n, c.fwdPid, later)
      && ChildMap(s.workers, s.workers, n, c.hcWorker, later)
      && (c.pid != 0 ==> ChildMap(s.jails, s.jails - {c.pid}, n, 0, later))
      && (c.fwdPid != 0 ==> ChildMap(s.forwarders, s.forwarders - {c.fwdPid}, n, 0, later))
      && (c.hcWorker != 0 ==> ChildMap(s.workers, s.workers - {c.hcWorker}, n, 0, later))
      && (c.pid == 0 ==> ChildMap(s.jails, s.jails[s.nextPid := n], n, s.nextPid, s.nextPid + 1))
      && (c.fwdPid == 0 ==> ChildMap(s.forwarders, s.forwarders[s.nextPid := n], n, s.nextPid, s.nextPid + 1))
      && (c.hcWorker == 0 ==> ChildMap(s.workers, s.workers[s.nextPid := n], n, s.nextPid, s.nextPid + 1))
  {
    var c := s.containers[n];
    assert Tracked(cfg, s, n);
    assert JailOk(s, s.nextPid) && ForwarderOk(s, s.nextPid) && WorkerOk(s, s.nextPid);
    forall p | p in s.jails && s.jails[p] == n ensures p == c.pid && 0 < p < s.nextPid { assert JailOk(s, p); }
    forall p | p in s.forwarders && s.forwarders[p] == n ensures p == c.fwdPid && 0 < p < s.nextPid { assert ForwarderOk(s, p); }
    forall p | p in s.workers && s.workers[p] == n ensures p == c.hcWorker && 0 < p < s.nextPid { assert WorkerOk(s, p); }
    ChildKept(s.jails, n, c.pid, s.nextPid, later);
    ChildKept(s.forwarders, n, c.fwdPid, s.nextPid, later);
    ChildKept(s.workers, n, c.hcWorker, s.nextPid, later);
  }

  /** s' differs from s in n's record and children and in the next process id. */
  predicate OnlyRecord(s: State, s': State, n: string) {
    && n in s.containers && s'.containers.Keys == s.containers.Keys
    && s'.containers == s.containers[n := s'.containers[n]]
    && s'.timers == s.timers && s'.now == s.now && s.nextPid <= s'.nextPid
    && s'.signalled == s.signalled && s'.killed == s.killed
  }

  /** The instance of n is as before, gone, or newly forked. */
  predicate NewLife(s: State, c: Container, d: Container) {
    d.pid == 0 || (d.pid == c.pid && d.started == c.started) || d.pid >= s.nextPid
  }

  lemma RecordKeeps(cfg: Settings, s: State, s': State, n: string, x: set<string>)
    requires InvBut(cfg, s, x) && OnlyRecord(s, s', n)
    requires LocalOk(cfg, s'.now, s'.containers[n]) && NewLife(s, s.containers[n], s'.containers[n])
    requires ChildMap(s.jails, s'.jails, n, s'.containers[n].pid, s'.nextPid)
    requires ChildMap(s.forwarders, s'.forwarders, n, s'.containers[n].fwdPid, s'.nextPid)
    requires ChildMap(s.workers, s'.workers, n, s'.containers[n].hcWorker, s'.nextPid)
    requires s'.containers[n].hcScheduled ==> HealthTick(n) in s.timers
    ensures InvBut(cfg, s', x + {n})
    ensures n in x || Settled(s', n) ==> InvBut(cfg, s', x)
  {
    forall m ensures Tracked(cfg, s', m) { assert Tracked(cfg, s, m); }
    forall p ensures JailOk(s', p) { assert JailOk(s, p); }
    forall p ensures ForwarderOk(s', p) { assert ForwarderOk(s, p); }
    forall p ensures WorkerOk(s', p) { assert WorkerOk(s, p); }
    forall p ensures SignalOk(s', p) { assert SignalOk(s, p); }
    forall t ensures TimerOk(s', t) { assert TimerOk(s, t); }
    forall m ensures m != n ==> SettledBut(s', x, m) { assert SettledBut(s, x, m); SamePending(s, s', m); }
    SettledCases(s', x, n);
  }

  /** A change that keeps wish, instance and parking reason keeps n settled. */
  lemma StillSettled(s: State, s': State, n: string, x: set<string>)
    requires n in s.containers && n in s'.containers && s.timers <= s'.timers
    requires forall m :: SettledBut(s, x, m)
    requires s'.containers[n].desired == s.containers[n].desired && s'.containers[n].pid == s.containers[n].pid
    requires s'.containers[n].hist.parked == s.containers[n].hist.parked
    ensures n in x || Settled(s', n)
  {
    assert SettledBut(s, x, n);
    SamePending(s, s', n);
  }

  lemma StopForwardsKeeps(cfg: Settings, s: State, n: string, x: set<string>)
    requires InvBut(cfg, s, x) && n in s.containers
    ensures InvBut(cfg, StopForwards(s, n), x)
    ensures StopForwards(s, n).containers[n].fwdPid == 0
  {
    if s.containers[n].fwdPid != 0 {
      var s' := StopForwards(s, n);
      assert Tracked(cfg, s, n);
      Children(cfg, s, n, x, s.nextPid);
      StillSettled(s, s', n, x);
      RecordKeeps(cfg, s, s', n, x);
    }
  }

  /** A forwarder is forked for a running container that has none. */
  lemma ForwarderRecorded(cfg: Settings, s: State, n: string, x: set<string>)
    requires InvBut(cfg, s, x) && n in s.containers && s.containers[n].pid != 0 && s.containers[n].fwdPid == 0
    ensures InvBut(cfg, Forwarding(s, n), x)
  {
    assert Tracked(cfg, s, n);
    Children(cfg, s, n, x, s.nextPid + 1);
    RecordKeeps(cfg, s, Forwarding(s, n), n, x);
  }

  lemma StartForwardsKeeps(cfg: Settings, s: State, n: string, env: Env, x: set<string>)
    requires InvBut(cfg, s, x) && n in s.containers && s.containers[n].pid != 0
    ensures InvBut(cfg, StartForwards(s, n, env), x)
  {
    StopForwardsKeeps(cfg, s, n, x);
    PublishKeeps(cfg, StopForwards(s, n), n, env, x);
  }

  lemma PublishKeeps(cfg: Settings, s: State, n: string, env: Env, x: set<string>)
    requires InvBut(cfg, s, x) && n in s.containers && s.containers[n].pid != 0 && s.containers[n].fwdPid == 0
    ensures InvBut(cfg, Publish(s, n, env), x)
  {
    var c := s.containers[n].(fwdError := false);
    if c.conf.publishes && n in env.fwdSpecs && n in env.fwdForkOk {
      ForwarderRecorded(cfg, s, n, x);
      ArmKeeps(cfg, Forwarding(s, n), FwdCheck(n, s.nextPid), x);
    } else {
      NoForwarderKeeps(cfg, s, n, c, x);
      NoForwarderKeeps(cfg, s, n, c.(fwdError := true), x);
    }
  }

  /** Without a forwarder at most the error flag changes. */
  lemma NoForwarderKeeps(cfg: Settings, s: State, n: string, c: Container, x: set<string>)
    requires InvBut(cfg, s, x) && n in s.containers && s.containers[n].pid != 0
    requires c == s.containers[n].(fwdError := c.fwdError)
    ensures InvBut(cfg, Put(s, n, c), x)
  {
    assert Tracked(cfg, s, n);
    PutKeeps(cfg, s, n, c, x);
  }

  lemma StartForwardsDeferredKeeps(cfg: Settings, s: State, n: string, env: Env, x: set<string>)
    requires InvBut(cfg, s, x) && n in s.containers && s.containers[n].pid != 0
    ensures InvBut(cfg, StartForwardsDeferred(s, n, env), x)
  {
    if s.containers[n].conf.publishes {
      var s1 := StartForwards(s, n, env);
      StartForwardsKeeps(cfg, s, n, env, x);
      ArmKeeps(cfg, s1, FwdDeferred(n, s1.containers[n].pid), x);
    }
  }

  lemma ScheduleHealthKeeps(cfg: Settings, s: State, n: string, x: set<string>)
    requires InvBut(cfg, s, x) && n in s.containers
    ensures InvBut(cfg, ScheduleHealth(s, n), x)
  {
    var c := s.containers[n];
    if c.conf.hcInterval > 0 && !c.hcScheduled {
      var s1 := Arm(s, HealthTick(n));
      ArmKeeps(cfg, s, HealthTick(n), x);
      var s2 := Put(s1, n, c.(hcScheduled := true));
      assert Tracked(cfg, s1, n);
      Children(cfg, s1, n, x, s1.nextPid);
      StillSettled(s1, s2, n, x);
      RecordKeeps(cfg, s1, s2, n, x);
      assert s2 == ScheduleHealth(s, n);
    }
  }

  /** A fork for a container that was down gives it its one live jail. */
  lemma RunningKeeps(cfg: Settings, s: State, n: string, x: set<string>)
    requires InvBut(cfg, s, x + {n}) && n in s.containers
    requires s.containers[n].pid == 0 && s.now > 0 && s.containers[n].hist.waitsOn == None
    ensures InvBut(cfg, Running(s, n), x)
  {
    var s' := Running(s, n);
    assert Tracked(cfg, s, n);
    Children(cfg, s, n, x + {n}, s'.nextPid);
    RecordKeeps(cfg, s, s', n, x + {n});
    Settle(cfg, s', n, x);
  }

  lemma SpawnKeeps(cfg: Settings, s: State, n: string, env: Env, x: set<string>)
    requires InvBut(cfg, s, x + {n}) && n in s.containers
    requires s.containers[n].pid == 0 && s.now > 0 && s.containers[n].hist.waitsOn == None
    ensures InvBut(cfg, Spawn(s, n, env), x)
  {
    if n !in env.pipeOk || n !in env.forkOk {
      ParkKeeps(cfg, s, n, if n !in env.pipeOk then PipeFailed else ForkFailed, x);
    } else {
      RunningKeeps(cfg, s, n, x);
      ScheduleHealthKeeps(cfg, Running(s, n), n, x);
      StartForwardsDeferredKeeps(cfg, ScheduleHealth(Running(s, n), n), n, env, x);
    }
  }

  lemma ParkKeeps(cfg: Settings, s: State, n: string, why: ParkReason, x: set<string>)
    requires InvBut(cfg, s, x + {n}) && n in s.containers
    ensures InvBut(cfg, Park(s, n, why), x)
  {
    assert Tracked(cfg, s, n);
    PutKeeps(cfg, s, n, Park(s, n, why).containers[n], x + {n});
    Settle(cfg, Park(s, n, why), n, x);
  }

  // ---- launch ---------------------------------------------------------------------------

  lemma PutInLaunch(cfg: Settings, s: State, n: string, c: Container, x: set<string>)
    requires InvBut(cfg, s, x + {n}) && n in s.containers
    requires SameLife(s.containers[n], c) && LocalOk(cfg, s.now, c)
    ensures InvBut(cfg, Put(s, n, c), x + {n})
  {
    PutKeeps(cfg, s, n, c, x + {n});
    assert x + {n} + {n} == x + {n};
  }

  lemma AwaitInfraKeeps(cfg: Settings, s: State, n: string, x: set<string>)
    requires InvBut(cfg, s, x + {n}) && n in s.containers && s.containers[n].desired == Up
    ensures InvBut(cfg, AwaitInfra(cfg, s, n), x)
  {
    var c0 := s.containers[n];
    var c := if c0.infraWaitSince == 0 then c0.(infraWaitSince := s.now) else c0;
    assert Tracked(cfg, s, n);
    if !c.infraWasUp && s.now - c.infraWaitSince >= INFRA_WAIT_SECS {
      PutInLaunch(cfg, s, n, c.(desired := Down, infraWaitSince := 0), x);
      Settle(cfg, AwaitInfra(cfg, s, n), n, x);
    } else {
      PutInLaunch(cfg, s, n, c, x);
      RetryKeeps(cfg, Put(s, n, c), n, cfg.restartDelay, x);
    }
  }

  lemma JoinInfraKeeps(cfg: Settings, s: State, n: string, env: Env, x: set<string>)
    requires InvBut(cfg, s, x + {n}) && n in s.containers && s.containers[n].desired == Up
    requires s.containers[n].pid == 0 && s.now > 0 && s.containers[n].hist.waitsOn == None
    ensures InvBut(cfg, JoinInfra(cfg, s, n, env), x)
  {
    var c := s.containers[n];
    if !InfraUp(c, env) {
      AwaitInfraKeeps(cfg, s, n, x);
    } else {
      var s1 := Put(s, n, c.(infraWaitSince := 0, infraWasUp := true));
      assert Tracked(cfg, s, n);
      PutInLaunch(cfg, s, n, s1.containers[n], x);
      if NeedsShadow(s1.containers[n]) && n !in env.shadowOk {
        RetryKeeps(cfg, s1, n, cfg.restartDelay, x);
      } else {
        SpawnKeeps(cfg, s1, n, env, x);
      }
    }
  }

  lemma LaunchReadyKeeps(cfg: Settings, s: State, n: string, env: Env, x: set<string>)
    requires InvBut(cfg, s, x + {n}) && n in s.containers && s.containers[n].desired == Up
    requires s.containers[n].pid == 0 && s.now > 0 && s.containers[n].hist.waitsOn == None
    ensures InvBut(cfg, LaunchReady(cfg, s, n, env), x)
  {
    var s1 := Put(s, n, s.containers[n].(depWaitSince := 0));
    assert Tracked(cfg, s, n);
    PutInLaunch(cfg, s, n, s1.containers[n], x);
    if MountsMissing(s1.containers[n], env) {
      RetryKeeps(cfg, s1, n, cfg.restartDelay, x);
    } else {
      JoinInfraKeeps(cfg, s1, n, env, x);
    }
  }

  /** The containers whose launch is still under way stay untouched by nested ones. */
  predicate OnStack(s: State, x: set<string>) {
    forall m | m in x :: m in s.containers && s.containers[m].desired == Up && s.containers[m].pid == 0
  }

  lemma DeferKeeps(cfg: Settings, s: State, n: string, dep: string, x: set<string>)
    requires InvBut(cfg, s, x + {n}) && n in s.containers && s.now > 0
    requires s.containers[n].pid == 0
    requires s.containers[n].depWaitSince != 0 ==> s.now - s.containers[n].depWaitSince < cfg.startTimeout
    ensures InvBut(cfg, Defer(cfg, s, n, dep), x)
  {
    var c := s.containers[n];
    var d := c.(depWaitSince := if c.depWaitSince == 0 then s.now else c.depWaitSince,
                hist := c.hist.(waitsOn := Some(dep), waitedAt := s.now));
    assert Tracked(cfg, s, n);
    PutInLaunch(cfg, s, n, d, x);
    RetryKeeps(cfg, Put(s, n, d), n, cfg.restartDelay, x);
  }

  /** Pulling a dependency up leaves n and the launches under way alone. */
  lemma {:induction false} PullKeeps(cfg: Settings, s: State, n: string, dep: string, env: Env, x: set<string>)
    requires n in s.containers && s.containers[n].desired == Up && s.containers[n].pid == 0 && s.now > 0
    requires dep in s.containers && dep != n
    requires InvBut(cfg, s, x + {n}) && OnStack(s, x)
    ensures InvBut(cfg, Pull(cfg, s, dep, env), x + {n}) && OnStack(Pull(cfg, s, dep, env), x)
    ensures Pull(cfg, s, dep, env).containers.Keys == s.containers.Keys
    ensures Pull(cfg, s, dep, env).containers[n] == s.containers[n]
    ensures Pull(cfg, s, dep, env).registry == s.registry && Pull(cfg, s, dep, env).now == s.now
    ensures NotUp(Pull(cfg, s, dep, env)) <= NotUp(s)
    decreases NotUp(s), 0, 0
  {
    var s1 := Pull(cfg, s, dep, env);
    assert LeftAlone(s, s1, dep, n);
    forall m | m in x ensures m in s1.containers && s1.containers[m] == s.containers[m] {
      assert LeftAlone(s, s1, dep, m);
    }
    if Pulls(s, dep, env) {
      assert dep !in x;
      StartKeeps(cfg, s, dep, env, x + {n});
    }
  }

  /** One more dependency entry is done with: the loop is at its i-th entry. */
  ghost predicate InDeps(cfg: Settings, s: State, n: string, i: nat, timedOut: bool, x: set<string>) {
    && n in s.containers && s.containers[n].desired == Up && s.containers[n].pid == 0 && s.now > 0
    && i <= |s.containers[n].conf.dependsOn|
    && InvBut(cfg, s, x + {n}) && OnStack(s, x) && n !in x
    && s.containers[n].hist.waitsOn == None
    && timedOut == DepTimeout(cfg, s, s.containers[n])
  }

  lemma {:induction false} LaunchDepsKeeps(cfg: Settings, s: State, n: string, i: nat, timedOut: bool, env: Env, x: set<string>)
    requires InDeps(cfg, s, n, i, timedOut, x)
    ensures var g := LaunchDeps(cfg, s, n, i, timedOut, env);
            InvBut(cfg, g.state, if g.passed then x + {n} else x)
    decreases NotUp(s), 1, |s.containers[n].conf.dependsOn| - i, 1
  {
    var deps := s.containers[n].conf.dependsOn;
    if i < |deps| {
      var dep := deps[i];
      if dep == n || dep !in s.containers || DepReady(s, dep, env)
         || (timedOut && !Reaches(RegistryGraph(s.registry), dep, n)) {
        LaunchDepsKeeps(cfg, s, n, i + 1, timedOut, env, x);
      } else {
        UnreadyDepKeeps(cfg, s, n, i, timedOut, env, x);
      }
    }
  }

  /** A dependency that is not ready is pulled up, then skipped if it lies on a
    * loop through n, and waited for otherwise.
    */
  lemma {:induction false} UnreadyDepKeeps(cfg: Settings, s: State, n: string, i: nat, timedOut: bool, env: Env, x: set<string>)
    requires InDeps(cfg, s, n, i, timedOut, x)
    requires i < |s.containers[n].conf.dependsOn|
    requires var dep := s.containers[n].conf.dependsOn[i];
      && dep != n && dep in s.containers && !DepReady(s, dep, env)
      && (timedOut ==> Reaches(RegistryGraph(s.registry), dep, n))
    ensures var g := LaunchDeps(cfg, s, n, i, timedOut, env);
            InvBut(cfg, g.state, if g.passed then x + {n} else x)
    decreases NotUp(s), 1, |s.containers[n].conf.dependsOn| - i, 0
  {
    var dep := s.containers[n].conf.dependsOn[i];
    PullKeeps(cfg, s, n, dep, env, x);
    var s1 := Pull(cfg, s, dep, env);
    if Reaches(RegistryGraph(s.registry), dep, n) {
      LaunchDepsKeeps(cfg, s1, n, i + 1, timedOut, env, x);
    } else {
      DeferKeeps(cfg, s1, n, dep, x);
    }
  }

  /** launch is entered for a container that is wanted up and has no instance;
    * it keeps the invariant for all containers outside the launches under way.
    */
  lemma {:induction false} LaunchKeeps(cfg: Settings, s: State, n: string, env: Env, x: set<string>)
    requires n in s.containers && s.containers[n].desired == Up && s.containers[n].pid == 0 && s.now > 0
    requires InvBut(cfg, s, x + {n}) && OnStack(s, x) && n !in x
    ensures InvBut(cfg, Launch(cfg, s, n, env), x)
    decreases NotUp(s), 2, 0
  {
    var c := Refreshed(s, n);
    var s1 := Put(s, n, c);
    assert Tracked(cfg, s, n);
    PutInLaunch(cfg, s, n, c, x);
    LeavesPut(s, n, c);
    assert NotUp(s1) == NotUp(s);
    if c.conf.bundle == "" {
      ParkKeeps(cfg, s1, n, NoBundle, x);
    } else {
      LaunchDepsKeeps(cfg, s1, n, 0, DepTimeout(cfg, s, c), env, x);
      var g := LaunchDeps(cfg, s1, n, 0, DepTimeout(cfg, s, c), env);
      if g.passed {
        LaunchReadyKeeps(cfg, g.state, n, env, x);
      }
    }
  }

  lemma {:induction false} StartKeeps(cfg: Settings, s: State, n: string, env: Env, x: set<string>)
    requires n in s.containers && s.now > 0
    requires InvBut(cfg, s, x) && OnStack(s, x) && n !in x
    ensures InvBut(cfg, Start(cfg, s, n, env), x)
    decreases NotUp(s) - {n}, 3, 0
  {
    var c := s.containers[n];
    if ValidName(n) && c.conf.bundle != "" {
      var s1 := Put(s, n, MarkUp(c));
      LeavesPut(s, n, MarkUp(c));
      assert Tracked(cfg, s, n);
      PutKeeps(cfg, s, n, MarkUp(c), x);
      if c.pid == 0 {
        LaunchKeeps(cfg, s1, n, env, x);
      } else {
        Settle(cfg, s1, n, x);
      }
    }
  }
}
