/** The health verdict of src/container.cpp (`apply_health_verdict`) and what any
  * sequence of verdicts, exits and idle ticks can make of it.
  */
module Health {
  import opened Wrappers

  datatype Health = Unknown | Healthy | Unhealthy

  /** health and hc_fails of a container. */
  datatype HealthState = HealthState(health: Health, fails: nat)

  /** retries, start_period (seconds) and on_unhealthy == "restart". */
  datatype Policy = Policy(retries: int, startPeriod: int, restart: bool)

  /** The new state, the transition event if one is emitted, and whether the
    * instance is told to restart.
    */
  datatype Outcome = Outcome(state: HealthState, event: Option<Health>, restart: bool)

  predicate InGrace(policy: Policy, started: nat, now: nat) {
    policy.startPeriod > 0 && started != 0 && now - started < policy.startPeriod
  }

  function ApplyVerdict(policy: Policy, st: HealthState, ok: bool, started: nat, pid: nat, now: nat): Outcome {
    if ok then
      Outcome(HealthState(Healthy, 0), if st.health != Healthy then Some(Healthy) else None, false)
    else if InGrace(policy, started, now) then
      Outcome(st, None, false)
    else if st.fails + 1 >= policy.retries then
      var event := if st.health != Unhealthy then Some(Unhealthy) else None;
      if policy.restart && pid != 0 then
        Outcome(HealthState(Unknown, 0), event, true)
      else
        Outcome(HealthState(Unhealthy, st.fails + 1), event, false)
    else
      Outcome(st.(fails := st.fails + 1), None, false)
  }

  /** What reaches the health state of one container over time; a verdict is reached under
    * the policy of its moment.
    */
  datatype Observation =
    | Verdict(policy: Policy, ok: bool, started: nat, pid: nat, at: nat)  // a finished health cycle
    | IdleTick                                                            // a health tick with no instance
    | Exited                                                              // the instance ended

  function React(st: HealthState, o: Observation): Outcome {
    match o
    case Verdict(policy, ok, started, pid, at) => ApplyVerdict(policy, st, ok, started, pid, at)
    case IdleTick => Outcome(HealthState(Unknown, 0), None, false)
    case Exited => Outcome(st.(health := Unknown), None, false)
  }

  function After(trace: seq<Observation>): HealthState {
    if trace == [] then HealthState(Unknown, 0)
    else React(After(trace[..|trace| - 1]), trace[|trace| - 1]).state
  }

  /** What the i-th observation of a trace brings about. */
  function At(trace: seq<Observation>, i: nat): Outcome
    requires i < |trace|
  {
    React(After(trace[..i]), trace[i])
  }

  /** A failing cycle outside the startup grace: there is none, the instance has no launch
    * time, or it was launched start_period or longer ago.
    */
  predicate Counted(o: Observation) {
    o.Verdict? && !o.ok && (o.policy.startPeriod <= 0 || o.started == 0 || o.started + o.policy.startPeriod <= o.at)
  }

  function CountedIn(w: seq<Observation>): nat {
    if w == [] then 0
    else CountedIn(w[..|w| - 1]) + if Counted(w[|w| - 1]) then 1 else 0
  }

  predicate Clears(o: Observation) {
    o.IdleTick? || (o.Verdict? && o.ok)
  }

  lemma {:induction false} AfterExtends(trace: seq<Observation>, i: nat)
    requires i < |trace|
    ensures After(trace[..i + 1]) == At(trace, i).state
  {
    assert trace[..i + 1][..i] == trace[..i];
  }

  /** No clearing observation and no auto-restart at positions r..j of the trace. */
  ghost predicate Unbroken(trace: seq<Observation>, r: nat, j: nat)
    requires r <= j <= |trace|
  {
    forall k | r <= k < j :: !Clears(trace[k]) && !At(trace, k).restart
  }

  /** r is where the current run of counted failures begins in trace[..j]. */
  ghost predicate RunStart(trace: seq<Observation>, r: nat, j: nat)
    requires j <= |trace|
  {
    && r <= j
    && Unbroken(trace, r, j)
    && (r > 0 ==> Clears(trace[r - 1]) || At(trace, r - 1).restart)
  }

  lemma {:induction false} CountedPush(trace: seq<Observation>, r: nat, j: nat)
    requires r <= j < |trace|
    ensures CountedIn(trace[r..j + 1]) == CountedIn(trace[r..j]) + if Counted(trace[j]) then 1 else 0
  {
    assert trace[r..j + 1][..j - r] == trace[r..j];
  }

  lemma RunGoesOn(trace: seq<Observation>, r: nat, j: nat)
    requires j < |trace| && RunStart(trace, r, j)
    requires !Clears(trace[j]) && !At(trace, j).restart
    ensures RunStart(trace, r, j + 1)
  {
  }

  lemma FailsStep(trace: seq<Observation>, j: nat)
    requires j < |trace|
    ensures Clears(trace[j]) || At(trace, j).restart ==> At(trace, j).state.fails == 0
    ensures !Clears(trace[j]) && !At(trace, j).restart ==>
      At(trace, j).state.fails == After(trace[..j]).fails + if Counted(trace[j]) then 1 else 0
  {
  }

  /** hc_fails is the number of counted failures since the last clearing
    * observation or auto-restart, wherever the trace is cut.
    */
  lemma {:induction false} FailsAreCounted(trace: seq<Observation>, j: nat) returns (r: nat)
    requires j <= |trace|
    ensures RunStart(trace, r, j)
    ensures After(trace[..j]).fails == CountedIn(trace[r..j])
  {
    r := 0;
    if j > 0 {
      r := FailsAreCounted(trace, j - 1);
      AfterExtends(trace, j - 1);
      FailsStep(trace, j - 1);
      if Clears(trace[j - 1]) || At(trace, j - 1).restart {
        r := j;
      } else {
        RunGoesOn(trace, r, j - 1);
        CountedPush(trace, r, j - 1);
      }
    }
  }

  /** A container is reported unhealthy only on a counted failure that completes the
    * retries of its policy, with no pass, no idle tick and no auto-restart in between.
    */
  lemma UnhealthyIsEarned(trace: seq<Observation>, i: nat) returns (r: nat)
    requires i < |trace| && At(trace, i).event == Some(Unhealthy)
    ensures r <= i && Counted(trace[i])
    ensures CountedIn(trace[r..i + 1]) >= trace[i].policy.retries
    ensures Unbroken(trace, r, i) && !Clears(trace[i])
  {
    r := FailsAreCounted(trace, i);
    CountedPush(trace, r, i);
  }

  /** Two consecutive auto-restarts are at least the retries of the second one apart. */
  lemma RestartsArePaced(trace: seq<Observation>, i: nat, j: nat)
    requires i < j < |trace|
    requires At(trace, i).restart && At(trace, j).restart
    ensures trace[j].Verdict? && CountedIn(trace[i + 1..j + 1]) >= trace[j].policy.retries
  {
    var r := FailsAreCounted(trace, j);
    CountedPush(trace, r, j);
    CountedSuffix(trace[i + 1..j + 1], r - i - 1);
    assert trace[i + 1..j + 1][r - i - 1..] == trace[r..j + 1];
  }

  lemma {:induction false} CountedSuffix(w: seq<Observation>, k: nat)
    requires k <= |w|
    ensures CountedIn(w) >= CountedIn(w[k..])
  {
    if k < |w| {
      CountedSuffix(w[..|w| - 1], k);
      assert w[k..][..|w| - 1 - k] == w[..|w| - 1][k..];
    } else {
      assert w[k..] == [];
    }
  }

  /** Between two unhealthy reports lies a healthy report or a reset to unknown
    * (an exit, an idle tick, or the auto-restart itself).
    */
  lemma UnhealthyReportsAlternate(trace: seq<Observation>, i: nat, j: nat)
    requires i < j < |trace|
    requires At(trace, i).event == Some(Unhealthy) && At(trace, j).event == Some(Unhealthy)
    ensures exists k :: i <= k < j && (At(trace, k).event == Some(Healthy) || At(trace, k).state.health == Unknown)
  {
    var k := j;
    while k > i + 1
      invariant i < k <= j
      invariant After(trace[..k]).health != Unhealthy
      decreases k
    {
      AfterExtends(trace, k - 1);
      if At(trace, k - 1).event == Some(Healthy) || At(trace, k - 1).state.health == Unknown {
        return;
      }
      k := k - 1;
    }
    AfterExtends(trace, i);
    assert At(trace, i).state.health != Unhealthy;
  }

  /** That many failures are enough for every policy in w. */
  predicate Suffices(w: seq<Observation>, count: nat) {
    forall k | 0 <= k < |w| && Counted(w[k]) :: w[k].policy.retries <= count
  }

  /** The other half: without auto-restart, a stretch of the trace with no pass, idle
    * tick or exit that holds as many counted failures (at least one) as its policies
    * ask for ends unhealthy, whatever came before it.
    */
  lemma {:induction false} EnoughFailuresAreReported(before: seq<Observation>, w: seq<Observation>)
    requires forall k | 0 <= k < |w| :: w[k].Verdict? && !w[k].ok && !w[k].policy.restart
    ensures CountedIn(w) >= 1 && Suffices(w, CountedIn(w)) ==> After(before + w).health == Unhealthy
    ensures After(before + w).fails >= CountedIn(w)
    decreases |w|
  {
    if w != [] {
      var v := w[..|w| - 1];
      EnoughFailuresAreReported(before, v);
      assert (before + w)[..|before + w| - 1] == before + v;
      assert (before + w)[|before + w| - 1] == w[|w| - 1];
    }
  }

  /** An unhealthy container has failed often enough for the policy that called it so,
    * and nothing has cleared that since.
    */
  lemma {:induction false} UnhealthyHasFailed(trace: seq<Observation>) returns (k: nat)
    requires After(trace).health == Unhealthy
    ensures k < |trace| && Counted(trace[k]) && After(trace).fails >= trace[k].policy.retries
    ensures Unbroken(trace, k, |trace|)
    decreases |trace|
  {
    var v := trace[..|trace| - 1];
    var last := trace[|v|];
    assert After(trace) == At(trace, |v|).state;
    if Counted(last) && After(v).fails + 1 >= last.policy.retries {
      k := |v|;
    } else {
      k := UnhealthyHasFailed(v);
      forall i | k <= i < |v| ensures !Clears(trace[i]) && !At(trace, i).restart {
        assert !Clears(v[i]) && !At(v, i).restart && v[..i] == trace[..i];
      }
    }
  }

  /** The k-th observation of w, after `before`, restarts the container. */
  predicate RestartsAt(before: seq<Observation>, w: seq<Observation>, k: nat) {
    k < |w| && At(before + w, |before| + k).restart
  }

  /** Cutting off the last observation changes nothing before it. */
  lemma SameAt(before: seq<Observation>, w: seq<Observation>, k: nat)
    requires k < |w| - 1
    ensures RestartsAt(before, w, k) == RestartsAt(before, w[..|w| - 1], k)
  {
    assert (before + w)[..|before| + k] == (before + w[..|w| - 1])[..|before| + k];
  }

  lemma LastAt(before: seq<Observation>, w: seq<Observation>)
    requires w != []
    ensures At(before + w, |before + w| - 1) == React(After(before + w[..|w| - 1]), w[|w| - 1])
    ensures After(before + w) == At(before + w, |before + w| - 1).state
  {
    assert (before + w)[..|before + w| - 1] == before + w[..|w| - 1];
  }

  /** With no clearing observation and no auto-restart every counted failure counts. */
  lemma {:induction false} FailsGrow(before: seq<Observation>, w: seq<Observation>)
    requires forall k | 0 <= k < |w| :: !Clears(w[k])
    requires forall k: nat :: !RestartsAt(before, w, k)
    ensures After(before + w).fails >= CountedIn(w)
    decreases |w|
  {
    if w != [] {
      var v := w[..|w| - 1];
      forall k: nat ensures !RestartsAt(before, v, k) {
        if k < |v| { SameAt(before, w, k); }
      }
      FailsGrow(before, v);
      LastAt(before, w);
      assert !RestartsAt(before, w, |v|);
    }
  }

  /** With auto-restart, a stretch with no pass or idle tick in which every counted
    * failure is one of a running instance, and which holds as many of them (at least
    * one) as its policies ask for, restarts the container.
    */
  lemma {:induction false} EnoughFailuresRestart(before: seq<Observation>, w: seq<Observation>)
    requires forall i | 0 <= i < |w| :: !Clears(w[i]) && (Counted(w[i]) ==> w[i].policy.restart && w[i].pid != 0)
    requires CountedIn(w) >= 1 && Suffices(w, CountedIn(w))
    ensures exists k: nat :: RestartsAt(before, w, k)
    decreases |w|
  {
    var v := w[..|w| - 1];
    if !Counted(w[|v|]) {
      EnoughFailuresRestart(before, v);
      var k: nat :| RestartsAt(before, v, k);
      SameAt(before, w, k);
    } else if k: nat :| RestartsAt(before, v, k) {
      SameAt(before, w, k);
    } else {
      FailsGrow(before, v);
      LastAt(before, w);
      assert RestartsAt(before, w, |v|);
    }
  }
}
