/** Building runs step by step, to show what can happen. */
module SupervisorTraces {
  import opened Supervisor
  import opened SupervisorSteps

  ghost predicate Leads(cfg: Settings, states: seq<State>, moments: seq<Moment>, s: State) {
    IsRun(cfg, states, moments) && states[|moments|] == s
  }

  ghost predicate AllHave(states: seq<State>, registry: map<string, Config>) {
    forall i | 0 <= i < |states| :: states[i].registry == registry
  }

  lemma Then(cfg: Settings, states: seq<State>, moments: seq<Moment>, s: State, m: Moment) returns (states': seq<State>, moments': seq<Moment>)
    requires Leads(cfg, states, moments, s) && Enabled(s, m.env, m.event)
    ensures states' == states + [Step(cfg, s, m.env, m.event)] && moments' == moments + [m]
    ensures Leads(cfg, states', moments', Step(cfg, s, m.env, m.event))
    ensures AllHave(states, s.registry) && Step(cfg, s, m.env, m.event).registry == s.registry ==> AllHave(states', s.registry)
  {
    states' := states + [Step(cfg, s, m.env, m.event)];
    moments' := moments + [m];
    forall i | 0 <= i < |moments'|
      ensures Enabled(states'[i], moments'[i].env, moments'[i].event)
      ensures states'[i + 1] == Step(cfg, states'[i], moments'[i].env, moments'[i].event)
    {
      if i < |moments| { assert states'[i] == states[i] && states'[i + 1] == states[i + 1]; }
    }
  }

  lemma RunsJoin(cfg: Settings, states: seq<State>, moments: seq<Moment>, more: seq<State>, events: seq<Moment>)
    requires IsRun(cfg, states, moments) && IsRun(cfg, more, events) && more[0] == states[|moments|]
    ensures IsRun(cfg, states + more[1..], moments + events)
  {
    forall i | 0 <= i < |moments + events|
      ensures Enabled((states + more[1..])[i], (moments + events)[i].env, (moments + events)[i].event)
      ensures (states + more[1..])[i + 1] == Step(cfg, (states + more[1..])[i], (moments + events)[i].env, (moments + events)[i].event)
    {
      if i >= |moments| {
        assert (states + more[1..])[i] == more[i - |moments|] && (states + more[1..])[i + 1] == more[i - |moments| + 1];
      }
    }
  }

  // ---- timers in time ------------------------------------------------------------------------

  /** Seconds from arming to firing of the timers that occur in these runs. */
  function DelayOf(s: State, t: Timer): int {
    match t
    case Relaunch(_, delay) => (delay + 999) / 1000
    case HealthTick(n) => if n in s.containers then s.containers[n].conf.hcInterval else 0
    case _ => 0
  }

  /** t has been pending from the j-th state of the run to the k-th. */
  predicate PendingSince(states: seq<State>, j: nat, k: nat, t: Timer) {
    j <= k < |states| && forall i | j <= i <= k :: t in states[i].timers
  }

  /** The k-th event is no timer that fires before its time. */
  ghost predicate OnTime(states: seq<State>, moments: seq<Moment>, k: nat)
    requires k < |moments| && |states| > k
  {
    moments[k].event.TimerFires? ==>
      var t := moments[k].event.timer;
      exists j: nat :: PendingSince(states, j, k, t) && states[j].now + DelayOf(states[k], t) <= moments[k].env.now
  }

  ghost predicate NotEarly(states: seq<State>, moments: seq<Moment>)
    requires |states| == |moments| + 1
  {
    forall k | 0 <= k < |moments| :: OnTime(states, moments, k)
  }

  predicate NoTimers(moments: seq<Moment>) {
    forall m | m in moments :: !m.event.TimerFires?
  }

  lemma NoTimersNotEarly(states: seq<State>, moments: seq<Moment>)
    requires |states| == |moments| + 1 && NoTimers(moments)
    ensures NotEarly(states, moments)
  {
  }

  lemma SameOnTime(states: seq<State>, moments: seq<Moment>, more: seq<State>, events: seq<Moment>, k: nat)
    requires |states| == |moments| + 1 && k < |moments| && OnTime(states, moments, k)
    requires states <= more && moments <= events && |more| > k
    ensures OnTime(more, events, k)
  {
    assert more[k] == states[k] && events[k] == moments[k];
    if moments[k].event.TimerFires? {
      var t := moments[k].event.timer;
      var j: nat :| PendingSince(states, j, k, t) && states[j].now + DelayOf(states[k], t) <= moments[k].env.now;
      assert PendingSince(more, j, k, t) && more[j] == states[j];
    }
  }

  /** One more event: no timer, or one that has been pending long enough. */
  lemma NotEarlyThen(states: seq<State>, moments: seq<Moment>, s: State, m: Moment, j: nat)
    requires |states| == |moments| + 1 && NotEarly(states, moments)
    requires m.event.TimerFires? ==>
      PendingSince(states, j, |moments|, m.event.timer) && states[j].now + DelayOf(states[|moments|], m.event.timer) <= m.env.now
    ensures NotEarly(states + [s], moments + [m])
  {
    var more, events := states + [s], moments + [m];
    forall k | 0 <= k < |events| ensures OnTime(more, events, k) {
      if k < |moments| {
        SameOnTime(states, moments, more, events, k);
      } else if m.event.TimerFires? {
        assert PendingSince(more, j, k, m.event.timer) && more[j] == states[j];
      }
    }
  }

  lemma NotEarlyJoin(states: seq<State>, moments: seq<Moment>, more: seq<State>, events: seq<Moment>)
    requires |states| == |moments| + 1 && NotEarly(states, moments) && |more| == |events| && NoTimers(events)
    ensures NotEarly(states + more, moments + events)
  {
    forall k | 0 <= k < |moments + events| ensures OnTime(states + more, moments + events, k) {
      if k < |moments| {
        SameOnTime(states, moments, states + more, moments + events, k);
      } else {
        assert (moments + events)[k] in events;
      }
    }
  }

  // ---- beginnings ------------------------------------------------------------------------------

  const PLAIN: Settings := Settings(60, 5000, 60000, 0, true, 120)

  function Quiet(now: nat): Env {
    Env(now, {}, {}, {}, {}, {}, {}, {}, {})
  }

  ghost predicate Starts(states: seq<State>, moments: seq<Moment>, s: State) {
    Leads(PLAIN, states, moments, s) && Initial(states[0])
  }

  /** The daemon at its start, with these registry files. */
  lemma Begins(registry: map<string, Config>) returns (states: seq<State>, moments: seq<Moment>, s: State)
    ensures Starts(states, moments, s) && AllHave(states, registry) && moments == []
    ensures s == State(map[], registry, multiset{}, map[], map[], map[], 1, 1, {}, {})
  {
    s := State(map[], registry, multiset{}, map[], map[], map[], 1, 1, {}, {});
    states, moments := [s], [];
  }
}
