/** The incremental sweeps of the simulator, read declaratively. */
module ScenarioSweeps {
  import opened Common
  import opened PowerCore
  import opened Scenarios
  import Pve = FakePve
  import opened FakePveRuns

  ghost predicate Sorted(times: seq<int>) {
    forall i, j :: 0 <= i < j < |times| ==> times[i] <= times[j]
  }

  /** In a sorted script the swept entries are exactly those that are due. */
  lemma SweptIffDue(times: seq<int>, seconds: int, i: nat)
    requires Sorted(times) && i < |times|
    ensures i < Due(times, 0, seconds) <==> times[i] <= seconds
  {}

  /** The scripted changes that are due by `seconds`, from the first n, in order. */
  function DueChanges(changes: seq<Change>, seconds: int, n: nat): seq<Change>
    requires n <= |changes|
  {
    if n == 0 then []
    else DueChanges(changes, seconds, n - 1) + if changes[n - 1].atSeconds <= seconds then [changes[n - 1]] else []
  }

  lemma {:induction false} DueChangesArePrefix(changes: seq<Change>, seconds: int, n: nat)
    requires Sorted(ChangeTimes(changes)) && n <= |changes|
    ensures var due := Due(ChangeTimes(changes), 0, seconds);
      DueChanges(changes, seconds, n) == changes[..if n < due then n else due]
  {
    if n > 0 {
      DueChangesArePrefix(changes, seconds, n - 1);
      SweptIffDue(ChangeTimes(changes), seconds, n - 1);
    }
  }

  lemma {:induction false} ChangedPrefix(changes: seq<Change>, n: nat)
    requires n <= |changes|
    ensures Changed(changes, n) == Changed(changes[..n], n)
  {
    ChangedAgrees(changes, changes[..n], n);
  }

  lemma {:induction false} ChangedAgrees(a: seq<Change>, b: seq<Change>, n: nat)
    requires n <= |a| && n <= |b| && forall i :: 0 <= i < n ==> a[i] == b[i]
    ensures Changed(a, n) == Changed(b, n)
  {
    if n > 0 {
      ChangedAgrees(a, b, n - 1);
    }
  }

  /** At every tick the incrementally updated snapshot is the fold of all changes due so far. */
  lemma SnapshotIsRefold(c: Config, sc: Scenario, k: nat)
    requires 0 < c.interval && Sorted(ChangeTimes(sc.changes))
    ensures var due := DueChanges(sc.changes, SecondsAt(c, k), |sc.changes|);
      Changed(sc.changes, ChangesBy(c, sc, k)) == Changed(due, |due|)
  {
    DueChangesArePrefix(sc.changes, SecondsAt(c, k), |sc.changes|);
    ChangedPrefix(sc.changes, ChangesBy(c, sc, k));
  }

  /** An agent test runs at the first tick not before its time, and at no other. */
  lemma TestRunsOnce(c: Config, sc: Scenario, i: nat, k: nat)
    requires 0 < c.interval && Sorted(TestTimes(sc.agentTests)) && i < |sc.agentTests|
    ensures TestsBefore(c, sc, k) <= i < TestsBefore(c, sc, k + 1) <==>
      && sc.agentTests[i].atSeconds <= SecondsAt(c, k)
      && (k > 0 ==> SecondsAt(c, k - 1) < sc.agentTests[i].atSeconds)
  {
    SweptIffDue(TestTimes(sc.agentTests), SecondsAt(c, k), i);
    if k > 0 {
      SweptIffDue(TestTimes(sc.agentTests), SecondsAt(c, k - 1), i);
    }
  }

  // ----- agent tests change nothing else -----

  /** Equal but for agent reports and the events on record. */
  ghost predicate SameStates(p: Pve.Pve, q: Pve.Pve) {
    && p.config == q.config && p.gracefulStarted == q.gracefulStarted && |p.guests| == |q.guests|
    && forall i :: 0 <= i < |p.guests| ==> p.guests[i].(lastTest := None) == q.guests[i].(lastTest := None)
  }

  lemma SameStatesAdvance(p: Pve.Pve, q: Pve.Pve, at: int)
    requires SameStates(p, q)
    ensures SameStates(Pve.Advanced(p, at), Pve.Advanced(q, at))
  {
    forall i | 0 <= i < |p.guests|
      ensures Pve.StoppedIfDue(p.guests[i], at).(lastTest := None) == Pve.StoppedIfDue(q.guests[i], at).(lastTest := None)
    {
      assert p.guests[i].(lastTest := None) == q.guests[i].(lastTest := None);
    }
  }

  lemma SameStatesStart(p: Pve.Pve, q: Pve.Pve, at: int)
    requires SameStates(p, q)
    ensures SameStates(Pve.GracefullyStarted(p, at), Pve.GracefullyStarted(q, at))
  {
    if !p.gracefulStarted && p.config.stopAll != Pve.Failure {
      var a, b := Asked(p, at), Asked(q, at);
      forall i | 0 <= i < |p.guests| ensures a.guests[i].(lastTest := None) == b.guests[i].(lastTest := None) {
        assert p.guests[i].(lastTest := None) == q.guests[i].(lastTest := None);
      }
      SameStatesAdvance(a, b, at);
    }
  }

  lemma SameStatesForce(p: Pve.Pve, q: Pve.Pve, at: int)
    requires SameStates(p, q)
    ensures SameStates(Pve.ForcedRemaining(p, at), Pve.ForcedRemaining(q, at))
  {
    forall i | 0 <= i < |p.guests|
      ensures Pve.Forced(p.guests[i]).(lastTest := None) == Pve.Forced(q.guests[i]).(lastTest := None)
    {
      assert p.guests[i].(lastTest := None) == q.guests[i].(lastTest := None);
    }
  }

  lemma {:induction false} SameStatesDispatch(p: Pve.Pve, q: Pve.Pve, actions: seq<Action>)
    requires SameStates(p, q)
    ensures SameStates(Dispatched(p, actions), Dispatched(q, actions))
  {
    if actions != [] {
      var before, at := actions[..|actions| - 1], actions[|actions| - 1].at;
      SameStatesDispatch(p, q, before);
      SameStatesStart(Dispatched(p, before), Dispatched(q, before), at);
      SameStatesForce(Dispatched(p, before), Dispatched(q, before), at);
    }
  }

  lemma SameStatesStopped(p: Pve.Pve, q: Pve.Pve)
    requires SameStates(p, q)
    ensures p.AllStopped() <==> q.AllStopped()
  {
    forall i | 0 <= i < |p.guests| ensures p.guests[i].state == q.guests[i].state {
      assert p.guests[i].(lastTest := None) == q.guests[i].(lastTest := None);
    }
    assert p.AllStopped() <==> forall i :: 0 <= i < |p.guests| ==> p.guests[i].state == Pve.Stopped;
    assert q.AllStopped() <==> forall i :: 0 <= i < |q.guests| ==> q.guests[i].state == Pve.Stopped;
  }

  lemma SameStatesPrepared(c: Config, sc: Scenario, k: nat, p: Pve.Pve, q: Pve.Pve)
    requires 0 < c.interval && SameStates(p, q)
    ensures SameStates(Prepared(c, sc, k, p), Prepared(c, sc.(agentTests := []), k, q))
  {
    var quiet, at := sc.(agentTests := []), Tick(c, k);
    SameStatesAdvance(p, q, at);
    TestsGrow(c, sc, k);
    TestsGrow(c, quiet, k);
    TestedKeepsGuests(Pve.Advanced(p, at), at, sc.agentTests, TestsBefore(c, sc, k), TestsBefore(c, sc, k + 1));
    var a, b, mid := Prepared(c, sc, k, p), Prepared(c, quiet, k, q), Pve.Advanced(p, at);
    forall i | 0 <= i < |mid.guests| ensures a.guests[i].(lastTest := None) == b.guests[i].(lastTest := None) {
      assert mid.guests[i].(lastTest := None) == b.guests[i].(lastTest := None);
    }
  }

  ghost predicate SameRun(w: World, v: World) {
    && w.memory == v.memory && w.log == v.log
    && (w.pve.Some? <==> v.pve.Some?)
    && (w.pve.Some? ==> SameStates(w.pve.value, v.pve.value))
  }

  lemma TickedSameRun(c: Config, sc: Scenario, k: nat, w: World, v: World)
    requires 0 < c.interval && SameRun(w, v)
    ensures SameRun(Ticked(c, sc, k, w), Ticked(c, sc.(agentTests := []), k, v))
  {
    if w.pve.Some? {
      var a, b := Prepared(c, sc, k, w.pve.value), Prepared(c, sc.(agentTests := []), k, v.pve.value);
      SameStatesPrepared(c, sc, k, w.pve.value, v.pve.value);
      SameStatesStopped(a, b);
      var r := Step(c, w.memory, Tick(c, k), Observed(c, sc, k, w.pve));
      if r.Ok? {
        SameStatesDispatch(a, b, r.value.actions);
      }
    }
  }

  lemma TickKeepsSameRun(c: Config, sc: Scenario, quiet: Scenario, k: nat)
    requires 0 < c.interval && quiet == sc.(agentTests := [])
    requires SameRun(WorldAfter(c, sc, k), WorldAfter(c, quiet, k))
    ensures SameRun(WorldTick(c, sc, k), WorldTick(c, quiet, k))
  {
    TickedSameRun(c, sc, k, WorldAfter(c, sc, k), WorldAfter(c, quiet, k));
  }

  /** Leaving all agent tests out changes no action, no engine state and no guest state. */
  lemma {:induction false} TestsDoNotMatter(c: Config, sc: Scenario, quiet: Scenario, k: nat)
    requires 0 < c.interval && quiet == sc.(agentTests := [])
    ensures SameRun(WorldAfter(c, sc, k), WorldAfter(c, quiet, k))
  {
    if k > 0 {
      TestsDoNotMatter(c, sc, quiet, k - 1);
      TickKeepsSameRun(c, sc, quiet, k - 1);
    }
  }

  // ----- restarts change nothing -----

  lemma TickedIgnoresRestarts(c: Config, sc: Scenario, other: Scenario, k: nat, w: World)
    requires 0 < c.interval && other == sc.(restarts := other.restarts)
    ensures Ticked(c, sc, k, w) == Ticked(c, other, k, w)
  {}

  lemma TickIgnoresRestarts(c: Config, sc: Scenario, other: Scenario, k: nat)
    requires 0 < c.interval && other == sc.(restarts := other.restarts)
    requires WorldAfter(c, sc, k) == WorldAfter(c, other, k)
    ensures WorldTick(c, sc, k) == WorldTick(c, other, k)
  {
    TickedIgnoresRestarts(c, sc, other, k, WorldAfter(c, sc, k));
  }

  /** Restoring the engine at any other times, or never, changes nothing in a simulation: every action, every
      event and every state of the engine and the guests is the same. */
  lemma {:induction false} RestartsDoNotMatter(c: Config, sc: Scenario, other: Scenario, n: nat)
    requires 0 < c.interval && other == sc.(restarts := other.restarts)
    ensures WorldAfter(c, sc, n) == WorldAfter(c, other, n)
    ensures TickCount(c, sc) == TickCount(c, other) && (TestsKnown(c, sc, n) <==> TestsKnown(c, other, n))
  {
    if n > 0 {
      RestartsDoNotMatter(c, sc, other, n - 1);
      TickIgnoresRestarts(c, sc, other, n - 1);
    }
  }
}
