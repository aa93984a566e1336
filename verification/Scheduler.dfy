/** The minute scheduler of src/container.cpp: every due rule exactly once a minute,
  * whatever the polls and however the schedule lists are rebuilt in between.
  */
module Scheduler {
  import opened Cron
  import opened TextLines

  datatype Schedule = Schedule(cron: string, action: string, enabled: bool)

  datatype Listed = Listed(name: string, schedules: seq<Schedule>)

  /** What is to be done: an action on a container, for one of its cron rules. */
  datatype Duty = Duty(name: string, action: string, cron: string)

  /** Start of each rule's last firing in seconds, kept outside the schedule lists. */
  type Fired = map<string, nat>

  function Key(d: Duty): string {
    d.name + "|" + d.action + "|" + d.cron
  }

  /** operator[] of a map of times: absent reads as 0. */
  function Last(fired: Fired, key: string): nat {
    if key in fired then fired[key] else 0
  }

  datatype Slot = Slot(duty: Duty, enabled: bool)

  function SlotsOf(name: string, schedules: seq<Schedule>): seq<Slot> {
    if schedules == [] then []
    else [Slot(Duty(name, schedules[0].action, schedules[0].cron), schedules[0].enabled)] + SlotsOf(name, schedules[1..])
  }

  function Slots(containers: seq<Listed>): seq<Slot> {
    if containers == [] then [] else SlotsOf(containers[0].name, containers[0].schedules) + Slots(containers[1..])
  }

  // ---- one poll ------------------------------------------------------------------------

  datatype Polled = Polled(fired: Fired, due: seq<Duty>)

  function Visit(fired: Fired, slot: Slot, now: nat, t: Time): Polled {
    var key := Key(slot.duty);
    if !slot.enabled || slot.duty.cron == "" then Polled(fired, [])
    else if Last(fired, key) / 60 == now / 60 || !Matches(slot.duty.cron, t) then Polled(fired[key := Last(fired, key)], [])
    else Polled(fired[key := now], [slot.duty])
  }

  /** run_scheduler up to the dispatch: slot by slot. */
  function Poll(fired: Fired, slots: seq<Slot>, now: nat, t: Time): Polled
    decreases slots
  {
    if slots == [] then Polled(fired, [])
    else
      var v := Visit(fired, slots[0], now, t);
      var p := Poll(v.fired, slots[1..], now, t);
      Polled(p.fired, v.due + p.due)
  }

  function Count(due: seq<Duty>, d: Duty): nat {
    if due == [] then 0 else (if due[0] == d then 1 else 0) + Count(due[1..], d)
  }

  lemma {:induction false} CountConcat(a: seq<Duty>, b: seq<Duty>, d: Duty)
    ensures Count(a + b, d) == Count(a, d) + Count(b, d)
    decreases a
  {
    if a == [] {
      assert a + b == b;
    } else {
      assert (a + b)[1..] == a[1..] + b;
      CountConcat(a[1..], b, d);
    }
  }

  predicate NoBar(s: string) {
    forall i | 0 <= i < |s| :: s[i] != '|'
  }

  /** Valid container names and the three actions contain no bar. */
  predicate Clean(d: Duty) {
    NoBar(d.name) && NoBar(d.action)
  }

  predicate AllClean(slots: seq<Slot>) {
    forall i | 0 <= i < |slots| :: Clean(slots[i].duty)
  }

  lemma FrontIs(a: string, rest: string)
    requires NoBar(a)
    ensures Find(a + "|" + rest, '|') == |a|
    ensures (a + "|" + rest)[..|a|] == a && (a + "|" + rest)[|a| + 1..] == rest
  {
    FindIs(a + "|" + rest, '|', |a|);
  }

  /** The key tells any two rules apart. */
  lemma KeyInjective(c: Duty, d: Duty)
    requires Clean(c) && Clean(d)
    ensures Key(c) == Key(d) <==> c == d
  {
    if Key(c) == Key(d) {
      assert Key(c) == c.name + "|" + (c.action + "|" + c.cron);
      assert Key(d) == d.name + "|" + (d.action + "|" + d.cron);
      FrontIs(c.name, c.action + "|" + c.cron);
      FrontIs(d.name, d.action + "|" + d.cron);
      FrontIs(c.action, c.cron);
      FrontIs(d.action, d.cron);
    }
  }

  predicate Present(slots: seq<Slot>, d: Duty) {
    exists i | 0 <= i < |slots| :: slots[i] == Slot(d, true)
  }

  /** A rule fires in a poll if it is listed, matches, and has not fired this minute. */
  predicate Fires(fired: Fired, slots: seq<Slot>, now: nat, t: Time, d: Duty) {
    Present(slots, d) && Matches(d.cron, t) && Last(fired, Key(d)) / 60 != now / 60
  }

  lemma VisitOther(fired: Fired, slot: Slot, now: nat, t: Time, d: Duty)
    requires Clean(slot.duty) && Clean(d) && slot != Slot(d, true)
    ensures var v := Visit(fired, slot, now, t);
      Count(v.due, d) == 0 && Last(v.fired, Key(d)) == Last(fired, Key(d))
  {
    KeyInjective(slot.duty, d);
  }

  lemma PresentTail(slots: seq<Slot>, d: Duty)
    requires slots != []
    ensures Present(slots, d) <==> slots[0] == Slot(d, true) || Present(slots[1..], d)
  {
    if Present(slots[1..], d) {
      var i :| 0 <= i < |slots[1..]| && slots[1..][i] == Slot(d, true);
      assert slots[i + 1] == Slot(d, true);
    }
    if Present(slots, d) && slots[0] != Slot(d, true) {
      var i :| 0 <= i < |slots| && slots[i] == Slot(d, true);
      assert slots[1..][i - 1] == slots[i];
    }
  }

  /** Even if it is listed more than once, a rule is due at most once in a poll, and
    * exactly once when it fires; its recorded time is the poll's then, and unchanged
    * otherwise.
    */
  lemma {:induction false} PollOnce(fired: Fired, slots: seq<Slot>, now: nat, t: Time, d: Duty)
    requires AllClean(slots) && Clean(d) && d.cron != ""
    ensures var p := Poll(fired, slots, now, t);
      && Count(p.due, d) == (if Fires(fired, slots, now, t, d) then 1 else 0)
      && Last(p.fired, Key(d)) == (if Fires(fired, slots, now, t, d) then now else Last(fired, Key(d)))
    decreases slots
  {
    if slots != [] {
      var v := Visit(fired, slots[0], now, t);
      PresentTail(slots, d);
      PollOnce(v.fired, slots[1..], now, t, d);
      CountConcat(v.due, Poll(v.fired, slots[1..], now, t).due, d);
      if slots[0] != Slot(d, true) {
        VisitOther(fired, slots[0], now, t, d);
      }
    }
  }

  // ---- a run of polls --------------------------------------------------------------------

  /** A poll at a time, with the schedule lists as they are then. */
  datatype Tick = Tick(now: nat, slots: seq<Slot>)

  /** The recorded times after the polls; local gives the local time of a minute. */
  function FiredAfter(ticks: seq<Tick>, local: nat -> Time): Fired {
    if ticks == [] then map[]
    else
      var last := ticks[|ticks| - 1];
      Poll(FiredAfter(ticks[..|ticks| - 1], local), last.slots, last.now, local(last.now / 60)).fired
  }

  /** How often a rule is dispatched by the polls within a minute. */
  function Firings(ticks: seq<Tick>, local: nat -> Time, d: Duty, minute: nat): nat {
    if ticks == [] then 0
    else
      var before, last := ticks[..|ticks| - 1], ticks[|ticks| - 1];
      Firings(before, local, d, minute)
      + if last.now / 60 != minute then 0
        else Count(Poll(FiredAfter(before, local), last.slots, last.now, local(last.now / 60)).due, d)
  }

  /** Polls at most a minute apart, each of which finds the rule enabled. */
  predicate Steady(ticks: seq<Tick>, d: Duty) {
    && ticks != [] && ticks[0].now >= 60 && Clean(d) && d.cron != ""
    && (forall i | 0 <= i < |ticks| :: AllClean(ticks[i].slots) && Present(ticks[i].slots, d))
    && (forall i | 0 < i < |ticks| :: ticks[i - 1].now <= ticks[i].now <= ticks[i - 1].now + 60)
  }

  lemma SteadyFront(ticks: seq<Tick>, d: Duty)
    requires Steady(ticks, d) && |ticks| > 1
    ensures var before := ticks[..|ticks| - 1];
      && Steady(before, d) && before[0] == ticks[0]
      && before[|before| - 1].now <= ticks[|ticks| - 1].now <= before[|before| - 1].now + 60
  {
    var before := ticks[..|ticks| - 1];
    assert forall i | 0 <= i < |before| :: before[i] == ticks[i];
    assert ticks[|ticks| - 2] == before[|before| - 1];
  }

  lemma NextMinute(a: nat, b: nat)
    requires a <= b <= a + 60
    ensures b / 60 == a / 60 || b / 60 == a / 60 + 1
  {
  }

  lemma {:induction false} TimeGoesOn(ticks: seq<Tick>, d: Duty)
    requires Steady(ticks, d)
    ensures ticks[0].now <= ticks[|ticks| - 1].now
    decreases |ticks|
  {
    if |ticks| > 1 {
      SteadyFront(ticks, d);
      TimeGoesOn(ticks[..|ticks| - 1], d);
    }
  }

  /** The rule has its due in a minute. */
  function Share(ticks: seq<Tick>, local: nat -> Time, d: Duty, minute: nat): nat
    requires ticks != []
  {
    if ticks[0].now / 60 <= minute <= ticks[|ticks| - 1].now / 60 && Matches(d.cron, local(minute)) then 1 else 0
  }

  lemma ShareGrows(ticks: seq<Tick>, local: nat -> Time, d: Duty, minute: nat)
    requires Steady(ticks, d) && |ticks| > 1
    ensures var before := ticks[..|ticks| - 1];
      var cur0, cur := before[|before| - 1].now / 60, ticks[|ticks| - 1].now / 60;
      && cur0 <= cur
      && Share(ticks, local, d, minute) ==
           Share(before, local, d, minute) + (if cur == minute && cur != cur0 && Matches(d.cron, local(cur)) then 1 else 0)
  {
    var before := ticks[..|ticks| - 1];
    SteadyFront(ticks, d);
    TimeGoesOn(ticks, d);
    TimeGoesOn(before, d);
    NextMinute(before[|before| - 1].now, ticks[|ticks| - 1].now);
  }

  /** What the recorded time says about the minute of the last poll. */
  predicate Recorded(ticks: seq<Tick>, local: nat -> Time, d: Duty)
    requires ticks != []
  {
    var fired, cur := Last(FiredAfter(ticks, local), Key(d)), ticks[|ticks| - 1].now / 60;
    fired / 60 <= cur && (fired / 60 == cur <==> Matches(d.cron, local(cur)))
  }

  /** The last poll of a run, on top of the ones before it. */
  lemma LastTick(ticks: seq<Tick>, local: nat -> Time, d: Duty, minute: nat)
    requires Steady(ticks, d)
    ensures var fired, cur := Last(FiredAfter(ticks[..|ticks| - 1], local), Key(d)), ticks[|ticks| - 1].now / 60;
      var fires := Matches(d.cron, local(cur)) && fired / 60 != cur;
      && Firings(ticks, local, d, minute) ==
           Firings(ticks[..|ticks| - 1], local, d, minute) + (if cur == minute && fires then 1 else 0)
      && Last(FiredAfter(ticks, local), Key(d)) == if fires then ticks[|ticks| - 1].now else fired
  {
    var before, last := ticks[..|ticks| - 1], ticks[|ticks| - 1];
    PollOnce(FiredAfter(before, local), last.slots, last.now, local(last.now / 60), d);
  }

  /** Over any polls at most a minute apart, a rule that stays enabled is dispatched
    * exactly once in every minute from the first poll to the last whose local time it
    * matches, and never otherwise.
    */
  lemma {:induction false} ExactlyOnce(ticks: seq<Tick>, local: nat -> Time, d: Duty, minute: nat)
    requires Steady(ticks, d)
    ensures Firings(ticks, local, d, minute) == Share(ticks, local, d, minute)
    ensures Recorded(ticks, local, d)
    decreases |ticks|
  {
    var before := ticks[..|ticks| - 1];
    LastTick(ticks, local, d, minute);
    if |ticks| == 1 {
      assert before == [];
    } else {
      SteadyFront(ticks, d);
      ExactlyOnce(before, local, d, minute);
      ShareGrows(ticks, local, d, minute);
    }
  }

  // ---- as the daemon does it ----------------------------------------------------------------

  class Daemon {
    var containers: seq<Listed>
    var lastFired: Fired

    /** run_scheduler: collects what is due; the caller dispatches it afterwards. */
    method RunScheduler(now: nat, t: Time) returns (due: seq<Duty>)
      modifies `lastFired
      ensures Polled(lastFired, due) == Poll(old(lastFired), Slots(containers), now, t)
    {
      due := [];
      var i := 0;
      while i < |containers|
        invariant 0 <= i <= |containers|
        invariant Rest(lastFired, due, Slots(containers[i..]), now, t) == Poll(old(lastFired), Slots(containers), now, t)
      {
        var c := containers[i];
        assert containers[i..][1..] == containers[i + 1..];
        ghost var later := Slots(containers[i + 1..]);
        var j := 0;
        while j < |c.schedules|
          invariant 0 <= j <= |c.schedules|
          invariant Rest(lastFired, due, SlotsOf(c.name, c.schedules[j..]) + later, now, t)
            == Poll(old(lastFired), Slots(containers), now, t)
        {
          RestStep(lastFired, due, c.name, c.schedules, j, later, now, t);
          var more := VisitSchedule(c.name, c.schedules[j], now, t);
          due := due + more;
          j := j + 1;
        }
        assert SlotsOf(c.name, c.schedules[j..]) + later == later;
        i := i + 1;
      }
    }

    method VisitSchedule(name: string, s: Schedule, now: nat, t: Time) returns (due: seq<Duty>)
      modifies `lastFired
      ensures Polled(lastFired, due) == Visit(old(lastFired), Slot(Duty(name, s.action, s.cron), s.enabled), now, t)
    {
      if !s.enabled || s.cron == "" { return []; }
      var key := name + "|" + s.action + "|" + s.cron;
      if key !in lastFired {
        lastFired := lastFired[key := 0];
      }
      if lastFired[key] / 60 == now / 60 { return []; }
      var hit := CronMatch(s.cron, t);
      if !hit { return []; }
      lastFired := lastFired[key := now];
      return [Duty(name, s.action, s.cron)];
    }
  }

  /** What a poll comes to from the slots it still has to visit. */
  function Rest(fired: Fired, due: seq<Duty>, slots: seq<Slot>, now: nat, t: Time): Polled {
    var p := Poll(fired, slots, now, t);
    Polled(p.fired, due + p.due)
  }

  lemma RestStep(fired: Fired, due: seq<Duty>, name: string, schedules: seq<Schedule>, j: nat, later: seq<Slot>, now: nat, t: Time)
    requires j < |schedules|
    ensures var s := schedules[j];
      var v := Visit(fired, Slot(Duty(name, s.action, s.cron), s.enabled), now, t);
      Rest(fired, due, SlotsOf(name, schedules[j..]) + later, now, t)
        == Rest(v.fired, due + v.due, SlotsOf(name, schedules[j + 1..]) + later, now, t)
  {
    var s := schedules[j];
    var slot := Slot(Duty(name, s.action, s.cron), s.enabled);
    var rest := SlotsOf(name, schedules[j + 1..]) + later;
    assert schedules[j..][1..] == schedules[j + 1..];
    assert SlotsOf(name, schedules[j..]) + later == [slot] + rest;
    assert ([slot] + rest)[1..] == rest;
    var v := Visit(fired, slot, now, t);
    var p := Poll(v.fired, rest, now, t);
    assert due + (v.due + p.due) == (due + v.due) + p.due;
  }
}
