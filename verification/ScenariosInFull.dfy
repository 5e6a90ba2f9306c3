/** What the simulator shows its engine, with every notion written out: the changes' own fields and plain times. */
module ScenariosInFull {
  import opened Common
  import opened PowerCore
  import opened Scenarios
  import opened ScenarioSweeps
  import Pve = FakePve

  /** The last change to a field decides it, whatever the changes to the other fields. */
  lemma {:induction false} LastChangeWins(changes: seq<Change>, n: nat, i: nat)
    requires i < n <= |changes|
    ensures var s, c := Changed(changes, n), changes[i];
      && (c.nut.Some? && (forall j :: i < j < n ==> changes[j].nut.None?) ==> s.nut == c.nut.value)
      && (c.lan.Some? && (forall j :: i < j < n ==> changes[j].lan.None?) ==> s.lan == c.lan.value)
      && (c.wan.Some? && (forall j :: i < j < n ==> changes[j].wan.None?) ==> s.wan == c.wan.value)
      && (c.allStopped.Some? && (forall j :: i < j < n ==> changes[j].allStopped.None?) ==> s.allGuestsStopped == c.allStopped.value)
  {
    if i < n - 1 {
      LastChangeWins(changes, n - 1, i);
    }
  }

  /** A field that no change sets is unknown, unreachable, or not stopped. */
  lemma {:induction false} UnsetIsBlank(changes: seq<Change>, n: nat)
    requires n <= |changes|
    ensures var s := Changed(changes, n);
      && ((forall j :: 0 <= j < n ==> changes[j].nut.None?) ==> s.nut == OtherNut(""))
      && ((forall j :: 0 <= j < n ==> changes[j].lan.None?) ==> !s.lan)
      && ((forall j :: 0 <= j < n ==> changes[j].wan.None?) ==> !s.wan)
      && ((forall j :: 0 <= j < n ==> changes[j].allStopped.None?) ==> !s.allGuestsStopped)
  {
    if n > 0 {
      UnsetIsBlank(changes, n - 1);
    }
  }

  /** Change i has come by tick k: its time is not after that of the tick. */
  predicate HasCome(c: Config, sc: Scenario, k: nat, i: nat)
    requires i < |sc.changes|
  {
    sc.changes[i].atSeconds * 1_000_000_000 <= k * c.interval
  }

  lemma ComesWhenDue(c: Config, sc: Scenario, k: nat, i: nat)
    requires 0 < c.interval && Sorted(ChangeTimes(sc.changes)) && i < |sc.changes|
    ensures HasCome(c, sc, k, i) <==> i < ChangesBy(c, sc, k)
  {
    SweptIffDue(ChangeTimes(sc.changes), SecondsAt(c, k), i);
    WholeSeconds(k * c.interval, sc.changes[i].atSeconds);
  }

  lemma WholeSeconds(t: int, seconds: int)
    ensures seconds <= t / SECOND <==> seconds * 1_000_000_000 <= t
  {}

  /** What the engine sees at tick k: each field as the last change to it that has come by then set it; and with a PVE,
      that all guests are stopped iff every one of them is. */
  lemma ObservedInFull(c: Config, sc: Scenario, k: nat, p: Option<Pve.Pve>, i: nat)
    requires 0 < c.interval && Sorted(ChangeTimes(sc.changes)) && i < |sc.changes| && HasCome(c, sc, k, i)
    ensures var seen, change := Observed(c, sc, k, p), sc.changes[i];
      && (change.nut.Some? && (forall j :: i < j < |sc.changes| && HasCome(c, sc, k, j) ==> sc.changes[j].nut.None?) ==> seen.nut == change.nut.value)
      && (change.lan.Some? && (forall j :: i < j < |sc.changes| && HasCome(c, sc, k, j) ==> sc.changes[j].lan.None?) ==> seen.lan == change.lan.value)
      && (change.wan.Some? && (forall j :: i < j < |sc.changes| && HasCome(c, sc, k, j) ==> sc.changes[j].wan.None?) ==> seen.wan == change.wan.value)
      && (p.None? && change.allStopped.Some?
          && (forall j :: i < j < |sc.changes| && HasCome(c, sc, k, j) ==> sc.changes[j].allStopped.None?) ==>
            seen.allGuestsStopped == change.allStopped.value)
  {
    forall j: nat | j < |sc.changes| ensures HasCome(c, sc, k, j) <==> j < ChangesBy(c, sc, k) {
      ComesWhenDue(c, sc, k, j);
    }
    LastChangeWins(sc.changes, ChangesBy(c, sc, k), i);
  }

  /** With a PVE the engine sees all guests stopped at tick k iff each is stopped, or stopping and due by then. */
  lemma GuestsObservedInFull(c: Config, sc: Scenario, k: nat, p: Pve.Pve)
    requires 0 < c.interval
    ensures Observed(c, sc, k, Some(p)).allGuestsStopped <==>
      forall i :: 0 <= i < |p.guests| ==>
        || p.guests[i].state == Pve.Stopped
        || (p.guests[i].state == Pve.Stopping && p.guests[i].stopDue.Some? && p.guests[i].stopDue.value <= k * c.interval)
  {
    var q := Pve.Advanced(p, Tick(c, k));
    TestsGrow(c, sc, k);
    TestedKeepsGuests(q, Tick(c, k), sc.agentTests, TestsBefore(c, sc, k), TestsBefore(c, sc, k + 1));
    var r := Prepared(c, sc, k, p);
    forall i | 0 <= i < |p.guests|
      ensures r.guests[i].state == Pve.Stopped <==>
        || p.guests[i].state == Pve.Stopped
        || (p.guests[i].state == Pve.Stopping && p.guests[i].stopDue.Some? && p.guests[i].stopDue.value <= k * c.interval)
    {
      assert r.guests[i].state == q.guests[i].state && q.guests[i] == Pve.StoppedIfDue(p.guests[i], Tick(c, k));
    }
  }

  lemma OneTested(p: Pve.Pve, q: Pve.Pve, at: int, id: int) returns (e: Pve.Event)
    requires Pve.Known(p, id) && |q.guests| == |p.guests| && forall i :: 0 <= i < |p.guests| ==> q.guests[i].spec == p.guests[i].spec
    ensures Pve.AgentProbed(q, at, id).events == q.events + [e] && e.kind == Pve.AgentTested && e.at == at && e.guestId == id
  {
    var i :| 0 <= i < |p.guests| && p.guests[i].spec.id == id;
    assert q.guests[i].spec.id == id;
    e := Pve.AgentProbed(q, at, id).events[|q.events|];
  }

  lemma TestedKeepsSpecs(p: Pve.Pve, at: int, tests: seq<AgentTest>, from: nat, to: nat)
    requires from <= to <= |tests|
    ensures var q := Tested(p, at, tests, from, to);
      |q.guests| == |p.guests| && forall i :: 0 <= i < |p.guests| ==> q.guests[i].spec == p.guests[i].spec
  {
    TestedKeepsGuests(p, at, tests, from, to);
    var q := Tested(p, at, tests, from, to);
    forall i | 0 <= i < |p.guests| ensures q.guests[i].spec == p.guests[i].spec {
      assert q.guests[i].(lastTest := None) == p.guests[i].(lastTest := None);
    }
  }

  /** One report for each of the tests from this one on, in their order. */
  predicate Reports(events: seq<Pve.Event>, at: int, tests: seq<AgentTest>, from: nat)
    requires from + |events| <= |tests|
  {
    forall k :: 0 <= k < |events| ==>
      events[k].kind == Pve.AgentTested && events[k].at == at && events[k].guestId == tests[from + k].guestId
  }

  lemma OneMoreReport(events: seq<Pve.Event>, e: Pve.Event, at: int, tests: seq<AgentTest>, from: nat)
    requires from + |events| < |tests| && Reports(events, at, tests, from)
    requires e.kind == Pve.AgentTested && e.at == at && e.guestId == tests[from + |events|].guestId
    ensures Reports(events + [e], at, tests, from)
  {}

  lemma OneMoreTest(p: Pve.Pve, at: int, tests: seq<AgentTest>, from: nat, to: nat) returns (e: Pve.Event)
    requires from < to <= |tests| && AllKnown(p, tests, from, to)
    ensures Tested(p, at, tests, from, to).events == Tested(p, at, tests, from, to - 1).events + [e]
    ensures e.kind == Pve.AgentTested && e.at == at && e.guestId == tests[to - 1].guestId
  {
    TestedKeepsSpecs(p, at, tests, from, to - 1);
    e := OneTested(p, Tested(p, at, tests, from, to - 1), at, tests[to - 1].guestId);
  }

  /** The tests of a tick, one event each, in their order and each of its own guest. */
  lemma {:induction false} TestedInFull(p: Pve.Pve, at: int, tests: seq<AgentTest>, from: nat, to: nat) returns (events: seq<Pve.Event>)
    requires from <= to <= |tests| && AllKnown(p, tests, from, to)
    ensures |events| == to - from && Reports(events, at, tests, from) && Tested(p, at, tests, from, to).events == p.events + events
  {
    events := [];
    if from < to {
      events := TestedInFull(p, at, tests, from, to - 1);
      var e := OneMoreTest(p, at, tests, from, to);
      OneMoreReport(events, e, at, tests, from);
      assert p.events + events + [e] == p.events + (events + [e]);
      events := events + [e];
    }
  }
}
