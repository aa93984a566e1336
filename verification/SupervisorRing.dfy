/** Two adopted containers with names that are not valid can end up waiting for each
  * other, which no two containers with valid names can.
  */
module SupervisorRing {
  import opened Wrappers
  import opened DependencyGraph
  import opened Health
  import opened Supervisor
  import opened SupervisorSteps
  import opened SupervisorSafety
  import opened SupervisorWaiting
  import opened SupervisorTraces

  const LEFT := "left hand"
  const RIGHT := "right hand"

  function Needs(dep: string): Config {
    Config("/srv/hand", "", true, [dep], [], false, false, false, 0, false, Policy(3, 0, false))
  }

  const HANDS: map<string, Config> := map[LEFT := Needs(RIGHT), RIGHT := Needs(LEFT)]

  function Other(n: string): string {
    if n == LEFT then RIGHT else LEFT
  }

  /** n as it was adopted, with this process id; or down since, with a relaunch ahead. */
  predicate Hand(s: State, n: string, pid: nat) {
    && n in s.containers && s.registry == HANDS
    && var c := s.containers[n];
    && c.conf == Needs(Other(n)) && c.desired == Up && c.pid == pid && c.adopted == (pid != 0)
    && c.crashCount == (if pid == 0 then 1 else 0) && c.depWaitSince == 0
    && c.started == (if pid == 0 then 0 else 1) && c.fwdPid == 0
    && (pid == 0 ==> Relaunch(n, 5000) in s.timers)
  }

  predicate Waiting(s: State, n: string) {
    n in s.containers && s.containers[n].hist.waitsOn == Some(Other(n)) && s.containers[n].desired == Up
  }

  /** A step of n that leaves the other hand and its timers alone. */
  predicate Apart(s: State, s': State, n: string) {
    && (forall m | m in s.containers && m != n :: m in s'.containers && s'.containers[m] == s.containers[m])
    && s'.registry == s.registry && forall t | t in s.timers && t.name != n :: t in s'.timers
  }

  lemma AdoptHand(s: State, n: string)
    requires (n == LEFT || n == RIGHT) && n !in s.containers && s.registry == HANDS && s.now == 1 && s.nextPid > 0
    ensures var s' := Adopt(s, n, Quiet(1)); Hand(s', n, s.nextPid) && Apart(s, s', n) && s'.now == 1 && s'.nextPid > s.nextPid
  {
  }

  lemma DropHand(s: State, n: string, pid: nat)
    requires (n == LEFT || n == RIGHT) && Hand(s, n, pid) && pid != 0 && s.now == 2
    ensures var s' := AdoptedExit(PLAIN, s, n); Hand(s', n, 0) && Apart(s, s', n) && s'.now == 2
  {
    var s1 := Gone(s, n);
    assert Shifted(5000, 0) == 5000 && Backoff(PLAIN, 1) == 5000;
    RespawnExactly(PLAIN, s1, n);
    assert UpFor(s1, s1.containers[n]) == 1;
  }

  lemma NobodyIsLookedUp(a: string, b: string)
    ensures !Reaches(RegistryGraph(HANDS), a, b)
  {
    assert !ValidName(LEFT) by { assert LEFT[4] == ' '; }
    assert !ValidName(RIGHT) by { assert RIGHT[5] == ' '; }
    var g := RegistryGraph(HANDS);
    assert g == map[];
    forall p | |p| >= 2 ensures !IsWalk(g, p) { assert p[1] !in Deps(g, p[0]); }
  }

  /** Launching one hand while the other is down and wanted: it waits. */
  lemma HoldHand(s: State, n: string)
    requires (n == LEFT || n == RIGHT) && n in s.containers && s.registry == HANDS && s.now == 7
    requires s.containers[n].conf == Needs(Other(n)) && s.containers[n].desired == Up && s.containers[n].pid == 0
    requires s.containers[n].depWaitSince == 0
    requires Other(n) in s.containers && s.containers[Other(n)].pid == 0 && s.containers[Other(n)].desired == Up
    ensures var s' := Launch(PLAIN, s, n, Quiet(7)); Waiting(s', n) && Apart(s, s', n) && s'.now == 7 && s'.containers[n].pid == 0
  {
    var c := Refreshed(s, n);
    HoldDeps(Put(s, n, c), n);
    assert Launch(PLAIN, s, n, Quiet(7)) == Defer(PLAIN, Put(s, n, c), n, Other(n));
  }

  lemma HoldDeps(s: State, n: string)
    requires (n == LEFT || n == RIGHT) && n in s.containers && s.registry == HANDS && s.now == 7
    requires s.containers[n].conf == Needs(Other(n)) && s.containers[n].desired == Up
    requires Other(n) in s.containers && s.containers[Other(n)].pid == 0 && s.containers[Other(n)].desired == Up
    ensures LaunchDeps(PLAIN, s, n, 0, false, Quiet(7)) == Gate(Defer(PLAIN, s, n, Other(n)), false)
  {
    NobodyIsLookedUp(Other(n), n);
    assert !DepReady(s, Other(n), Quiet(7)) && !Pulls(s, Other(n), Quiet(7));
  }

  lemma BothAdopted(s0: State) returns (s1: State, s2: State)
    requires s0.containers == map[] && s0.registry == HANDS && s0.now == 1 && s0.nextPid == 1
    ensures Enabled(s0, Quiet(1), AdoptRunning(LEFT)) && s1 == Step(PLAIN, s0, Quiet(1), AdoptRunning(LEFT))
    ensures Enabled(s1, Quiet(1), AdoptRunning(RIGHT)) && s2 == Step(PLAIN, s1, Quiet(1), AdoptRunning(RIGHT))
    ensures s1.registry == HANDS && s2.now == 1 && Hand(s2, LEFT, 1) && Hand(s2, RIGHT, s1.nextPid) && s1.nextPid != 0
  {
    AdoptHand(s0, LEFT);
    s1 := Adopt(s0, LEFT, Quiet(1));
    assert s0.(now := 1) == s0 && RIGHT !in s1.containers;
    AdoptHand(s1, RIGHT);
    s2 := Adopt(s1, RIGHT, Quiet(1));
    assert s1.(now := 1) == s1;
  }

  lemma Adopted() returns (states: seq<State>, moments: seq<Moment>, s: State, right: nat)
    ensures Starts(states, moments, s) && AllHave(states, HANDS) && NoTimers(moments)
    ensures s.now == 1 && Hand(s, LEFT, 1) && Hand(s, RIGHT, right) && right != 0
  {
    var states0, moments0, s0 := Begins(HANDS);
    var s1, s2 := BothAdopted(s0);
    var states1, moments1 := Then(PLAIN, states0, moments0, s0, Moment(Quiet(1), AdoptRunning(LEFT)));
    states, moments := Then(PLAIN, states1, moments1, s1, Moment(Quiet(1), AdoptRunning(RIGHT)));
    s, right := s2, s1.nextPid;
  }

  lemma OneDropped() returns (states: seq<State>, moments: seq<Moment>, s: State, right: nat)
    ensures Starts(states, moments, s) && AllHave(states, HANDS) && NoTimers(moments)
    ensures s.now == 2 && Hand(s, LEFT, 0) && Hand(s, RIGHT, right) && right != 0
  {
    var states0, moments0, s0, pid := Adopted();
    right := pid;
    DropHand(s0.(now := 2), LEFT, 1);
    s := AdoptedExit(PLAIN, s0.(now := 2), LEFT);
    states, moments := Then(PLAIN, states0, moments0, s0, Moment(Quiet(2), AdoptedGone(LEFT)));
  }

  lemma Dropped() returns (states: seq<State>, moments: seq<Moment>, s: State)
    ensures Starts(states, moments, s) && AllHave(states, HANDS) && NoTimers(moments)
    ensures s.now == 2 && Hand(s, LEFT, 0) && Hand(s, RIGHT, 0)
  {
    var states0, moments0, s0, right := OneDropped();
    assert s0.(now := 2) == s0;
    DropHand(s0, RIGHT, right);
    s := AdoptedExit(PLAIN, s0, RIGHT);
    states, moments := Then(PLAIN, states0, moments0, s0, Moment(Quiet(2), AdoptedGone(RIGHT)));
  }

  const CALM: Probe := Probe(true, true, false, true, false)

  function Fires(n: string): Moment {
    Moment(Quiet(7), TimerFires(Relaunch(n, 5000), CALM))
  }

  lemma RelaunchHand(s0: State, n: string) returns (s: State)
    requires (n == LEFT || n == RIGHT) && Hand(s0, n, 0) && s0.now <= 7
    requires Other(n) in s0.containers && s0.containers[Other(n)].pid == 0 && s0.containers[Other(n)].desired == Up
    ensures Enabled(s0, Fires(n).env, Fires(n).event) && s == Step(PLAIN, s0, Fires(n).env, Fires(n).event)
    ensures Waiting(s, n) && Apart(s0, s, n) && s.now == 7 && s.containers[n].pid == 0
  {
    var t := Relaunch(n, 5000);
    HoldRelaunched(s0.(now := 7), n);
    s := Step(PLAIN, s0, Quiet(7), TimerFires(t, CALM));
  }

  lemma HoldRelaunched(s: State, n: string)
    requires (n == LEFT || n == RIGHT) && Hand(s, n, 0) && s.now == 7
    requires Other(n) in s.containers && s.containers[Other(n)].pid == 0 && s.containers[Other(n)].desired == Up
    ensures var s' := Fire(PLAIN, s, Relaunch(n, 5000), CALM, Quiet(7));
      Waiting(s', n) && Apart(s, s', n) && s'.now == 7 && s'.containers[n].pid == 0
  {
    HoldHand(Disarm(s, Relaunch(n, 5000)), n);
  }

  lemma StillDown(s0: State, s1: State)
    requires Hand(s0, RIGHT, 0) && Apart(s0, s1, LEFT)
    ensures Hand(s1, RIGHT, 0)
  {
    assert Relaunch(RIGHT, 5000) in s1.timers;
  }

  lemma BothHeld(s0: State) returns (s1: State, s2: State)
    requires s0.now == 2 && Hand(s0, LEFT, 0) && Hand(s0, RIGHT, 0)
    ensures Enabled(s0, Fires(LEFT).env, Fires(LEFT).event) && s1 == Step(PLAIN, s0, Fires(LEFT).env, Fires(LEFT).event)
    ensures Enabled(s1, Fires(RIGHT).env, Fires(RIGHT).event) && s2 == Step(PLAIN, s1, Fires(RIGHT).env, Fires(RIGHT).event)
    ensures CircularWait(s2, [LEFT, RIGHT, LEFT]) && Relaunch(RIGHT, 5000) in s1.timers
  {
    s1 := RelaunchHand(s0, LEFT);
    StillDown(s0, s1);
    assert Other(RIGHT) == LEFT;
    s2 := RelaunchHand(s1, RIGHT);
    RingCloses(s1, s2);
  }

  lemma RingCloses(s1: State, s2: State)
    requires Waiting(s1, LEFT) && Apart(s1, s2, RIGHT) && Waiting(s2, RIGHT)
    ensures CircularWait(s2, [LEFT, RIGHT, LEFT])
  {
    assert LEFT != RIGHT by { assert LEFT[0] != RIGHT[0]; }
  }

  /** A run, with every timer in its time, in which two containers wait for each other. */
  lemma RingArises() returns (states: seq<State>, moments: seq<Moment>)
    ensures IsRun(PLAIN, states, moments) && Initial(states[0]) && FixedRegistry(states) && NotEarly(states, moments)
    ensures CircularWait(states[|moments|], [LEFT, RIGHT, LEFT])
  {
    var states0, moments0, s0 := Dropped();
    var k := |moments0|;
    var s1, s2 := BothHeld(s0);
    var states1, moments1 := Then(PLAIN, states0, moments0, s0, Fires(LEFT));
    states, moments := Then(PLAIN, states1, moments1, s1, Fires(RIGHT));
    NoTimersNotEarly(states0, moments0);
    assert PendingSince(states0, k, k, Relaunch(LEFT, 5000));
    NotEarlyThen(states0, moments0, s1, Fires(LEFT), k);
    assert PendingSince(states1, k, k + 1, Relaunch(RIGHT, 5000));
    NotEarlyThen(states1, moments1, s2, Fires(RIGHT), k);
  }
}
