/** Waiting for dependencies: no circular wait, and no wait beyond its patience. */
module SupervisorWaiting {
  import opened Wrappers
  import opened DependencyGraph
  import opened Supervisor
  import opened SupervisorSteps
  import opened SupervisorInvariant
  import opened SupervisorFrames
  import opened SupervisorLaunches
  import opened SupervisorRuns

  ghost predicate WaitOk(s: State, n: string) {
    n in s.containers && s.containers[n].hist.waitsOn != None ==>
      MayWait(s.registry, n, s.containers[n].hist.waitsOn.value)
  }

  /** Whoever waits, waits for a listed dependency that cannot lead back. */
  ghost predicate Waits(s: State) {
    forall n :: WaitOk(s, n)
  }

  lemma SplitWaits(s: State, pre: State, s': State, m: string, e: Event)
    requires Waits(s) && Splits(s, pre, s', m, e) && s'.registry == s.registry
    ensures Waits(s')
  {
    forall n ensures WaitOk(s', n) {
      assert WaitOk(s, n) && GrownAt(s, pre, m, n) && LaunchedAt(pre, s', m, n);
    }
  }

  // ---- the theorems ---------------------------------------------------------------------

  ghost predicate FixedRegistry(states: seq<State>) {
    forall i | 0 <= i < |states| :: states[i].registry == states[0].registry
  }

  lemma {:induction false} RunWaits(cfg: Settings, states: seq<State>, moments: seq<Moment>, i: nat)
    requires IsRun(cfg, states, moments) && Initial(states[0]) && FixedRegistry(states) && i < |states|
    ensures Waits(states[i])
  {
    if i > 0 {
      RunWaits(cfg, states, moments, i - 1);
      assert states[i].registry == states[0].registry == states[i - 1].registry;
      var m, pre := StepSplits(cfg, states[i - 1], moments[i - 1].env, moments[i - 1].event);
      SplitWaits(states[i - 1], pre, states[i], m, moments[i - 1].event);
    }
  }

  /** ring[k] waits for ring[k + 1], and the last one is the first again. */
  predicate CircularWait(s: State, ring: seq<string>) {
    && |ring| >= 2 && ring[0] == ring[|ring| - 1]
    && forall k | 0 <= k < |ring| - 1 ::
         ring[k] in s.containers && s.containers[ring[k]].hist.waitsOn == Some(ring[k + 1])
  }

  /** Somewhere on the way round, before the ring comes back to its first name, is
    * another name that is not valid: the loop search would have found the ring if it
    * had looked up all dependencies.
    */
  lemma InvalidOnTheWay(s: State, ring: seq<string>) returns (k: nat)
    requires Waits(s) && CircularWait(s, ring)
    ensures 1 <= k < |ring| - 1 && !ValidName(ring[k]) && ring[k] != ring[0]
  {
    assert WaitOk(s, ring[0]);
    k := 1;
    while ValidName(ring[k]) && ring[k + 1] != ring[0]
      invariant 1 <= k < |ring| - 1 && forall q | 1 <= q <= k :: ring[q] != ring[0]
      invariant forall q | 1 <= q < k :: ValidName(ring[q])
      decreases |ring| - k
    {
      k := k + 1;
    }
    if ValidName(ring[k]) { RingReaches(s, ring, k + 1); }
  }

  /** k steps round the ring by valid names are a walk of depends_on edges. */
  lemma RingReaches(s: State, ring: seq<string>, k: nat)
    requires Waits(s) && CircularWait(s, ring) && 2 <= k < |ring| && ring[k] == ring[0]
    requires forall q | 1 <= q < k :: ValidName(ring[q])
    ensures Reaches(RegistryGraph(s.registry), ring[1], ring[0])
  {
    var g := RegistryGraph(s.registry);
    var back := ring[1..k + 1];
    forall q | 0 <= q < |back| - 1 ensures back[q + 1] in Deps(g, back[q]) {
      assert WaitOk(s, ring[q + 1]);
    }
    assert IsWalk(g, back) && back[0] == ring[1] && back[|back| - 1] == ring[0];
  }

  /** The ring read from its k-th name on. */
  function Turned(ring: seq<string>, k: nat): seq<string>
    requires k < |ring|
  {
    ring[k..] + ring[1..k + 1]
  }

  lemma TurnedWaits(s: State, ring: seq<string>, k: nat)
    requires CircularWait(s, ring) && 1 <= k < |ring| - 1
    ensures CircularWait(s, Turned(ring, k)) && Turned(ring, k)[0] == ring[k]
    ensures forall q | 0 <= q < |Turned(ring, k)| :: Turned(ring, k)[q] in ring
  {
    var turned, m := Turned(ring, k), |ring| - 1;
    forall q | 0 <= q < |turned| - 1
      ensures turned[q] in s.containers && s.containers[turned[q]].hist.waitsOn == Some(turned[q + 1])
    {
      var at := if q < m - k then k + q else q - (m - k);
      assert turned[q] == ring[at] && turned[q + 1] == ring[at + 1];
    }
  }

  /** No container of a run ever waits, directly or through others, for itself: a
    * ring of waiting containers could only arise among containers of which two
    * different ones have names that are not valid, whose dependencies the loop search
    * does not look up.
    */
  lemma NoCircularWait(cfg: Settings, states: seq<State>, moments: seq<Moment>, i: nat, ring: seq<string>)
    requires IsRun(cfg, states, moments) && Initial(states[0]) && FixedRegistry(states) && i < |states|
    requires CircularWait(states[i], ring)
    ensures exists a, b :: a in ring && b in ring && a != b && !ValidName(a) && !ValidName(b)
  {
    RunWaits(cfg, states, moments, i);
    var k := InvalidOnTheWay(states[i], ring);
    TurnedWaits(states[i], ring, k);
    var l := InvalidOnTheWay(states[i], Turned(ring, k));
    assert ring[k] in ring && Turned(ring, k)[l] in ring;
  }

  /** Every deferral to a dependency in a run comes less than start_timeout after
    * the first one of the same unbroken wait, which may be this one.
    */
  lemma DeferralsAreInTime(cfg: Settings, states: seq<State>, moments: seq<Moment>, i: nat, n: string)
    requires IsRun(cfg, states, moments) && Initial(states[0]) && i < |states|
    requires n in states[i].containers && states[i].containers[n].hist.waitsOn != None
    ensures var c := states[i].containers[n];
      && c.pid == 0 && c.depWaitSince != 0 && c.depWaitSince <= c.hist.waitedAt <= states[i].now
      && (c.hist.waitedAt == c.depWaitSince || c.hist.waitedAt - c.depWaitSince < cfg.startTimeout)
  {
    RunKeeps(cfg, states, moments, i);
    assert Tracked(cfg, states[i], n);
  }

  /** Once start_timeout has passed since the first deferral the dependency loop lets
    * the launch go on, whatever state the dependencies are in.
    */
  lemma {:induction false} TimeoutFailsOpen(cfg: Settings, s: State, n: string, i: nat, env: Env)
    requires n in s.containers && s.containers[n].desired == Up
    requires i <= |s.containers[n].conf.dependsOn|
    ensures LaunchDeps(cfg, s, n, i, true, env).passed
    decreases NotUp(s), |s.containers[n].conf.dependsOn| - i
  {
    if i < |s.containers[n].conf.dependsOn| {
      var dep := s.containers[n].conf.dependsOn[i];
      if dep == n || dep !in s.containers || DepReady(s, dep, env) || !Reaches(RegistryGraph(s.registry), dep, n) {
        TimeoutFailsOpen(cfg, s, n, i + 1, env);
      } else {
        assert LeftAlone(s, Pull(cfg, s, dep, env), dep, n);
        TimeoutFailsOpen(cfg, Pull(cfg, s, dep, env), n, i + 1, env);
      }
    }
  }

  /** So a launch after that waits for no dependency and ends the wait. */
  lemma LaunchEndsTheWait(cfg: Settings, s: State, n: string, env: Env)
    requires n in s.containers && s.containers[n].desired == Up
    requires ReadConfig(s, n).bundle != ""
    requires DepTimeout(cfg, s, s.containers[n])
    ensures var c := Launch(cfg, s, n, env).containers[n];
      c.hist.waitsOn == None && c.depWaitSince == 0
  {
    var s1 := Put(s, n, Refreshed(s, n));
    TimeoutFailsOpen(cfg, s1, n, 0, env);
    var g := LaunchDeps(cfg, s1, n, 0, true, env);
    assert g.passed;
  }

  // ---- giving up on an infra --------------------------------------------------------------

  /** Behind the dependencies a launch gives up if and only if the mounts are there and
    * the infra is hopeless. An infra that is only missing is waited for.
    */
  lemma InfraGiveUpExactly(cfg: Settings, s: State, n: string, env: Env)
    requires n in s.containers && s.containers[n].desired == Up && s.now > 0
    ensures var c := s.containers[n];
      var s' := LaunchReady(cfg, s, n, env);
      && (s'.containers[n].desired == Down <==> !MountsMissing(c, env) && Hopeless(s.now, c, c.conf, env))
      && (!MountsMissing(c, env) && !InfraUp(c, env) && !Hopeless(s.now, c, c.conf, env) ==>
            s'.timers == s.timers + multiset{Relaunch(n, cfg.restartDelay)} && s'.containers[n].infraWaitSince != 0)
  {
    var s1 := Put(s, n, s.containers[n].(depWaitSince := 0));
    JoinGivesUp(cfg, s1, n, env);
  }

  lemma JoinGivesUp(cfg: Settings, s: State, n: string, env: Env)
    requires n in s.containers && s.containers[n].desired == Up && s.now > 0
    ensures var c := s.containers[n];
      var s' := JoinInfra(cfg, s, n, env);
      && (s'.containers[n].desired == Down <==> Hopeless(s.now, c, c.conf, env))
      && (!InfraUp(c, env) && !Hopeless(s.now, c, c.conf, env) ==>
            s'.timers == s.timers + multiset{Relaunch(n, cfg.restartDelay)} && s'.containers[n].infraWaitSince != 0)
  {
  }

  /** So a launch that gives up has met a hopeless infra. */
  lemma LaunchGivesUp(cfg: Settings, s: State, n: string, env: Env)
    requires n in s.containers && s.containers[n].desired == Up && s.now > 0
    requires Launch(cfg, s, n, env).containers[n].desired == Down
    ensures Hopeless(s.now, s.containers[n], ReadConfig(s, n), env)
  {
    var s1 := Put(s, n, Refreshed(s, n));
    LeavesPut(s, n, Refreshed(s, n));
    var g := LaunchDeps(cfg, s1, n, 0, DepTimeout(cfg, s, Refreshed(s, n)), env);
    if g.passed { InfraGiveUpExactly(cfg, g.state, n, env); }
  }
}
