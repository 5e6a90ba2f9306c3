/** The engine and the in-memory PVE together: how every simulated outage ends. */
module ClosedLoop {
  import opened Common
  import opened PowerCore
  import opened EngineHistory
  import EngineRuns
  import opened Scenarios
  import Pve = FakePve
  import opened FakePveRuns

  // ----- the simulation is a run of the engine -----

  ghost function SampleAt(c: Config, sc: Scenario, k: nat): Sample
    requires 0 < c.interval
  {
    Sample(Tick(c, k), Observed(c, sc, k, WorldAfter(c, sc, k).pve))
  }

  /** The samples the engine takes in n ticks. */
  ghost function History(c: Config, sc: Scenario, n: nat): (h: seq<Sample>)
    requires 0 < c.interval
    ensures |h| == n && forall k: nat {:trigger SampleAt(c, sc, k)} :: k < n ==> h[k] == SampleAt(c, sc, k)
  {
    if n == 0 then [] else History(c, sc, n - 1) + [SampleAt(c, sc, n - 1)]
  }

  lemma {:induction false} TicksIncrease(c: Config, i: nat, j: nat)
    requires 0 < c.interval && i < j
    ensures 0 <= Tick(c, i) < Tick(c, j)
  {
    SecondsGrow(c, j - 1);
    if i < j - 1 {
      TicksIncrease(c, i, j - 1);
    }
  }

  /** h holds the samples the engine takes. */
  ghost predicate IsHistory(c: Config, sc: Scenario, h: seq<Sample>) {
    c.Valid() && WellTimed(h) && forall k: nat {:trigger SampleAt(c, sc, k)} :: k < |h| ==> h[k] == SampleAt(c, sc, k)
  }

  lemma HistoryIsOne(c: Config, sc: Scenario, n: nat)
    requires c.Valid()
    ensures IsHistory(c, sc, History(c, sc, n))
  {
    var h := History(c, sc, n);
    forall i, j | 0 <= i < j < |h| ensures h[i].at < h[j].at {
      assert h[i] == SampleAt(c, sc, i) && h[j] == SampleAt(c, sc, j);
      TicksIncrease(c, i, j);
    }
    forall i | 0 <= i < |h| ensures 0 <= h[i].at {
      assert h[i] == SampleAt(c, sc, i);
      TicksIncrease(c, i, i + 1);
    }
  }

  lemma {:induction false} LoopIsEngineRun(c: Config, sc: Scenario, h: seq<Sample>, k: nat)
    requires IsHistory(c, sc, h) && k <= |h|
    ensures WorldAfter(c, sc, k).memory == After(c, h, k)
  {
    if k > 0 {
      LoopIsEngineRun(c, sc, h, k - 1);
      EveryTickAccepted(c, sc, k - 1);
      assert WorldAfter(c, sc, k) == WorldTick(c, sc, k - 1);
      assert h[k - 1] == SampleAt(c, sc, k - 1);
      assert After(c, h, k) == Taken(c, h, k - 1).memory;
    }
  }

  /** One tick is one sample of that run: it adds the sample's actions to the log and carries them out. */
  lemma TickIsSample(c: Config, sc: Scenario, h: seq<Sample>, k: nat)
    requires IsHistory(c, sc, h) && k < |h|
    ensures var actions := Taken(c, h, k).actions;
      var before, after := WorldAfter(c, sc, k), WorldTick(c, sc, k);
      && after.log == before.log + actions
      && (before.pve.Some? ==> after.pve == Some(Dispatched(Prepared(c, sc, k, before.pve.value), actions)))
  {
    LoopIsEngineRun(c, sc, h, k);
    EveryTickAccepted(c, sc, k);
    assert h[k] == SampleAt(c, sc, k);
  }

  // ----- what dispatching one sample's actions does -----

  lemma {:induction false} DispatchedConcat(p: Pve.Pve, a: seq<Action>, b: seq<Action>)
    ensures Dispatched(p, a + b) == Dispatched(Dispatched(p, a), b)
  {
    if b == [] {
      assert a + b == a;
    } else {
      DispatchedConcat(p, a, b[..|b| - 1]);
      assert (a + b)[..|a + b| - 1] == a + b[..|b| - 1];
    }
  }

  function Carried(p: Pve.Pve, at: int, graceful: bool, forced: bool, poweroff: bool): Pve.Pve {
    var q := if graceful then Pve.GracefullyStarted(p, at) else p;
    var r := if forced then Pve.ForcedRemaining(q, at) else q;
    if poweroff then Pve.PoweroffRequested(r, at) else r
  }

  function DispatchedIfAny(p: Pve.Pve, a: seq<Action>): Pve.Pve
    requires |a| <= 1
  {
    if a == [] then p else DispatchedOne(p, a[0])
  }

  lemma DispatchOptional(p: Pve.Pve, a: seq<Action>)
    requires |a| <= 1
    ensures Dispatched(p, a) == DispatchedIfAny(p, a)
  {
    if a != [] {
      assert Dispatched(p, a[..0]) == p;
    }
  }

  lemma DispatchInTurn(p: Pve.Pve, a: seq<Action>, b: seq<Action>, graceful: seq<Action>, forced: seq<Action>, off: seq<Action>)
    requires |a| <= 1 && |b| <= 1 && |graceful| <= 1 && |forced| <= 1 && |off| <= 1
    requires DispatchedIfAny(p, a) == p && DispatchedIfAny(p, b) == p
    ensures Dispatched(p, a + b + graceful + (forced + off))
      == DispatchedIfAny(DispatchedIfAny(DispatchedIfAny(p, graceful), forced), off)
  {
    var q := DispatchedIfAny(p, graceful);
    DispatchOptional(p, a);
    DispatchOptional(p, b);
    DispatchOptional(p, graceful);
    DispatchOptional(q, forced);
    DispatchOptional(DispatchedIfAny(q, forced), off);
    DispatchedConcat(p, a, b);
    DispatchedConcat(p, a + b, graceful);
    DispatchedConcat(p, a + b + graceful, forced + off);
    DispatchedConcat(q, forced, off);
  }

  /** The actions of one sample, for any choice of which of them are emitted. */
  lemma DispatchChosen(p: Pve.Pve, at: int, started: seq<Action>, cancelled: seq<Action>, graceful: bool, forced: bool, off: bool,
                       why: Reason, end: Reason)
    requires |started| <= 1 && (started != [] ==> started[0].kind == OutageCandidateStarted)
    requires |cancelled| <= 1 && (cancelled != [] ==> cancelled[0].kind == OutageCancelled)
    ensures var actions := started + cancelled + OneIf(graceful, Action(at, GracefulShutdown, why))
        + (OneIf(forced, Action(at, EmergencyStopRemaining, ReserveReached)) + OneIf(off, Action(at, HostPoweroffRequested, end)));
      Dispatched(p, actions) == Carried(p, at, graceful, forced, off)
  {
    DispatchInTurn(p, started, cancelled, OneIf(graceful, Action(at, GracefulShutdown, why)),
                   OneIf(forced, Action(at, EmergencyStopRemaining, ReserveReached)), OneIf(off, Action(at, HostPoweroffRequested, end)));
  }

  lemma DispatchOutcome(c: Config, st: Status, at: int, s: Snapshot, p: Pve.Pve)
    requires Reachable(c, st)
    ensures Dispatched(p, React(c, st, at, s).1) ==
      Carried(p, at, Confirms(c, st, at, s), Ends(c, st, at, s) && !s.allGuestsStopped, Ends(c, st, at, s))
  {
    ReactActions(c, st, at, s);
    var started := OneIf(Starts(st, s), Action(at, OutageCandidateStarted, if s.NutLoss() then NutReported else NetworkUnreachable));
    var cancelled := OneIf(Cancels(c, st, s), Action(at, OutageCancelled, RecoveryConfirmed));
    var why := Confirmation(c, WithEvidence(st, at, s), at, s);
    DispatchChosen(p, at, started, cancelled, Confirms(c, st, at, s), Ends(c, st, at, s) && !s.allGuestsStopped, Ends(c, st, at, s),
                   if why.Some? then why.value else NutRemainedActive,
                   if s.allGuestsStopped then GuestsStoppedGracefully else AfterEmergencyStop);
  }

  // ----- the plan a graceful stop sets up -----

  /** When a guest that was asked to stop at `start` will have stopped, if ever. */
  function StopInstant(c: Pve.PveConfig, g: Pve.Guest, start: int): Option<int> {
    if c.stopAll == Pve.Failure || g.graceful != Pve.GracefulStops then None
    else Some(start + g.delaySeconds * SECOND)
  }

  predicate Down(c: Pve.PveConfig, g: Pve.Guest, start: int, at: int) {
    StopInstant(c, g, start).Some? && StopInstant(c, g, start).value <= at
  }

  predicate FollowsPlan(c: Pve.PveConfig, g: Pve.GuestRuntime, start: int, at: int) {
    if Down(c, g.spec, start, at) then g.state == Pve.Stopped && g.stopDue.None?
    else g.state != Pve.Stopped && g.stopDue == StopInstant(c, g.spec, start) && (g.stopDue.Some? ==> g.state == Pve.Stopping)
  }

  predicate IsFinal(e: Pve.Event) {
    e.kind == Pve.GuestForced || e.kind == Pve.PoweroffIssued
  }

  /** The forced stops and poweroff requests among the events, in order. */
  function Finals(events: seq<Pve.Event>): seq<Pve.Event> {
    if events == [] then []
    else
      var rest, last := Finals(events[..|events| - 1]), events[|events| - 1];
      if IsFinal(last) then rest + [last] else rest
  }

  lemma {:induction false} FinalsConcat(a: seq<Pve.Event>, b: seq<Pve.Event>)
    ensures Finals(a + b) == Finals(a) + Finals(b)
  {
    if b == [] {
      assert a + b == a;
    } else {
      FinalsConcat(a, b[..|b| - 1]);
      assert (a + b)[..|a + b| - 1] == a + b[..|b| - 1];
    }
  }

  lemma {:induction false} NoFinals(events: seq<Pve.Event>)
    requires forall i :: 0 <= i < |events| ==> !IsFinal(events[i])
    ensures Finals(events) == []
  {
    if events != [] {
      NoFinals(events[..|events| - 1]);
    }
  }

  lemma {:induction false} OnlyFinals(events: seq<Pve.Event>)
    requires forall i :: 0 <= i < |events| ==> IsFinal(events[i])
    ensures Finals(events) == events
  {
    if events != [] {
      OnlyFinals(events[..|events| - 1]);
      assert events == events[..|events| - 1] + [events[|events| - 1]];
    }
  }

  lemma AdvancedFinals(p: Pve.Pve, at: int)
    ensures Finals(Pve.Advanced(p, at).events) == Finals(p.events)
  {
    var stops := Pve.StopEvents(p.guests, Pve.StopOrder(p.guests, at), at);
    FinalsConcat(p.events, stops);
    NoFinals(stops);
  }

  lemma {:induction false} RequestsNotFinal(gs: seq<Pve.GuestRuntime>, at: int, n: nat)
    requires n <= |gs|
    ensures forall i :: 0 <= i < |Pve.Requests(gs, at, n)| ==> !IsFinal(Pve.Requests(gs, at, n)[i])
  {
    if n > 0 {
      RequestsNotFinal(gs, at, n - 1);
    }
  }

  lemma GracefulFinals(p: Pve.Pve, at: int)
    ensures Finals(Pve.GracefullyStarted(p, at).events) == Finals(p.events)
  {
    var issued, requests := [Pve.StopAllEvent(p.config, at)], Pve.Requests(p.guests, at, |p.guests|);
    FinalsConcat(p.events, issued);
    NoFinals(issued);
    RequestsNotFinal(p.guests, at, |p.guests|);
    NoFinals(requests);
    FinalsConcat(p.events + issued, requests);
    AdvancedFinals(Asked(p, at), at);
  }

  lemma ProbedFinals(p: Pve.Pve, at: int, id: int)
    ensures Finals(Pve.AgentProbed(p, at, id).events) == Finals(p.events)
  {
    var next := Pve.AgentProbed(p, at, id);
    if Pve.Find(p.guests, id, 0).Some? {
      var added := [next.events[|p.events|]];
      assert next.events == p.events + added;
      FinalsConcat(p.events, added);
      NoFinals(added);
    }
  }

  lemma {:induction false} TestedFinals(p: Pve.Pve, at: int, tests: seq<AgentTest>, from: nat, to: nat)
    requires from <= to <= |tests|
    ensures Finals(Tested(p, at, tests, from, to).events) == Finals(p.events)
  {
    if from < to {
      TestedFinals(p, at, tests, from, to - 1);
      ProbedFinals(Tested(p, at, tests, from, to - 1), at, tests[to - 1].guestId);
    }
  }

  /** Before a tick's sample, agent tests aside, the PVE has only advanced. */
  lemma PreparedAdvances(c: Config, sc: Scenario, k: nat, p: Pve.Pve)
    requires 0 < c.interval
    ensures var q := Prepared(c, sc, k, p);
      && q.config == p.config && q.gracefulStarted == p.gracefulStarted && |q.guests| == |p.guests|
      && Finals(q.events) == Finals(p.events)
      && forall i :: 0 <= i < |p.guests| ==>
           q.guests[i].(lastTest := None) == Pve.StoppedIfDue(p.guests[i], Tick(c, k)).(lastTest := None)
  {
    TestsGrow(c, sc, k);
    var advanced := Pve.Advanced(p, Tick(c, k));
    AdvancedFinals(p, Tick(c, k));
    TestedFinals(advanced, Tick(c, k), sc.agentTests, TestsBefore(c, sc, k), TestsBefore(c, sc, k + 1));
    TestedKeepsGuests(advanced, Tick(c, k), sc.agentTests, TestsBefore(c, sc, k), TestsBefore(c, sc, k + 1));
  }

  // ----- the phases of a simulation -----

  ghost predicate Idle(p: Pve.Pve) {
    && !p.gracefulStarted && Finals(p.events) == []
    && forall i :: 0 <= i < |p.guests| ==> p.guests[i].state == Pve.Running && p.guests[i].stopDue.None?
  }

  ghost predicate Planned(p: Pve.Pve, start: int, at: int) {
    && p.gracefulStarted && Finals(p.events) == []
    && forall i :: 0 <= i < |p.guests| ==> FollowsPlan(p.config, p.guests[i], start, at)
  }

  ghost predicate SoundSpecs(p: Pve.Pve) {
    && p.config.stopAll in {Pve.Success, Pve.Failure} && p.config.poweroff in {Pve.Success, Pve.Failure}
    && forall i :: 0 <= i < |p.guests| ==>
         && 0 <= p.guests[i].spec.delaySeconds
         && p.guests[i].spec.graceful in {Pve.GracefulStops, Pve.GracefulStuck, Pve.GracefulFails}
         && p.guests[i].spec.force in {Pve.ForceStops, Pve.ForceFails}
  }

  lemma PreparedIdle(c: Config, sc: Scenario, k: nat, p: Pve.Pve)
    requires 0 < c.interval && Idle(p)
    ensures Idle(Prepared(c, sc, k, p))
  {
    PreparedAdvances(c, sc, k, p);
    var q := Prepared(c, sc, k, p);
    forall i | 0 <= i < |q.guests| ensures q.guests[i].state == Pve.Running && q.guests[i].stopDue.None? {
      assert q.guests[i].(lastTest := None) == Pve.StoppedIfDue(p.guests[i], Tick(c, k)).(lastTest := None);
    }
  }

  lemma PreparedPlanned(c: Config, sc: Scenario, k: nat, p: Pve.Pve, start: int, at: int)
    requires 0 < c.interval && Planned(p, start, at) && at <= Tick(c, k)
    ensures Planned(Prepared(c, sc, k, p), start, Tick(c, k))
  {
    PreparedAdvances(c, sc, k, p);
    var q := Prepared(c, sc, k, p);
    forall i | 0 <= i < |q.guests| ensures FollowsPlan(q.config, q.guests[i], start, Tick(c, k)) {
      assert FollowsPlan(p.config, p.guests[i], start, at);
      assert q.guests[i].(lastTest := None) == Pve.StoppedIfDue(p.guests[i], Tick(c, k)).(lastTest := None);
    }
  }

  lemma StartPlansGuest(c: Pve.PveConfig, g: Pve.GuestRuntime, at: int)
    requires g.state == Pve.Running && g.stopDue.None? && g.spec.graceful in {Pve.GracefulStops, Pve.GracefulStuck, Pve.GracefulFails}
    ensures FollowsPlan(c, if c.stopAll == Pve.Failure then g else Pve.StoppedIfDue(Pve.AskedToStop(g, at), at), at, at)
      || g.spec.delaySeconds < 0
  {}

  /** The graceful stop puts every guest on its plan. */
  lemma StartPlans(p: Pve.Pve, at: int)
    requires Idle(p) && SoundSpecs(p)
    ensures Planned(Pve.GracefullyStarted(p, at), at, at)
    ensures SameGuests(Some(p), Some(Pve.GracefullyStarted(p, at)))
  {
    GracefulFinals(p, at);
    StartAccounts(p, at);
    var q := Pve.GracefullyStarted(p, at);
    forall i | 0 <= i < |q.guests| ensures FollowsPlan(q.config, q.guests[i], at, at) {
      StartPlansGuest(p.config, p.guests[i], at);
    }
  }

  // ----- the end -----

  /** A forced stop for each of the first n guests that is not down yet. */
  function Stragglers(c: Pve.PveConfig, gs: seq<Pve.GuestRuntime>, start: int, at: int, n: nat): seq<Pve.Event>
    requires n <= |gs|
  {
    if n == 0 then []
    else if Down(c, gs[n - 1].spec, start, at) then Stragglers(c, gs, start, at, n - 1)
    else Stragglers(c, gs, start, at, n - 1) + [Pve.ForceEvent(gs[n - 1].spec, at)]
  }

  ghost predicate Blocks(c: Pve.PveConfig, gs: seq<Pve.GuestRuntime>, start: int, at: int) {
    exists i :: 0 <= i < |gs| && !Down(c, gs[i].spec, start, at) && gs[i].spec.force == Pve.ForceFails
  }

  /** How an outage whose guests were asked to stop at `start` and whose host is powered off at `at` ends:
      the guests not yet down are forced, and the poweroff is blocked iff one of those resists. */
  ghost function Ending(c: Pve.PveConfig, gs: seq<Pve.GuestRuntime>, start: int, at: int): seq<Pve.Event> {
    Stragglers(c, gs, start, at, |gs|) +
    [Pve.Event(at, Pve.PoweroffIssued, 0, Pve.NoMeans, Pve.SystemctlPoweroff,
               if Blocks(c, gs, start, at) then Pve.Blocked else c.poweroff, Pve.ProbeUnset)]
  }

  lemma {:induction false} ForcedAreStragglers(c: Pve.PveConfig, gs: seq<Pve.GuestRuntime>, start: int, at: int, n: nat)
    requires n <= |gs| && forall i :: 0 <= i < |gs| ==> FollowsPlan(c, gs[i], start, at)
    ensures Pve.ForceEvents(gs, at, n) == Stragglers(c, gs, start, at, n)
    ensures forall i :: 0 <= i < |Stragglers(c, gs, start, at, n)| ==> IsFinal(Stragglers(c, gs, start, at, n)[i])
  {
    if n > 0 {
      ForcedAreStragglers(c, gs, start, at, n - 1);
      assert FollowsPlan(c, gs[n - 1], start, at);
    }
  }

  lemma {:induction false} NoStragglers(c: Pve.PveConfig, gs: seq<Pve.GuestRuntime>, start: int, at: int, n: nat)
    requires n <= |gs| && forall i :: 0 <= i < |gs| ==> Down(c, gs[i].spec, start, at)
    ensures Stragglers(c, gs, start, at, n) == []
  {
    if n > 0 {
      NoStragglers(c, gs, start, at, n - 1);
    }
  }

  lemma {:induction false} SameStragglers(c: Pve.PveConfig, a: seq<Pve.GuestRuntime>, b: seq<Pve.GuestRuntime>, start: int, at: int, n: nat)
    requires n <= |a| == |b| && forall i :: 0 <= i < |a| ==> a[i].spec == b[i].spec
    ensures Stragglers(c, a, start, at, n) == Stragglers(c, b, start, at, n)
  {
    if n > 0 {
      SameStragglers(c, a, b, start, at, n - 1);
    }
  }

  lemma PoweroffFinals(p: Pve.Pve, at: int)
    ensures Finals(Pve.PoweroffRequested(p, at).events) == Finals(p.events) +
      [Pve.Event(at, Pve.PoweroffIssued, 0, Pve.NoMeans, Pve.SystemctlPoweroff, Pve.PoweroffResult(p), Pve.ProbeUnset)]
  {
    var off := Pve.Event(at, Pve.PoweroffIssued, 0, Pve.NoMeans, Pve.SystemctlPoweroff, Pve.PoweroffResult(p), Pve.ProbeUnset);
    FinalsConcat(p.events, [off]);
    OnlyFinals([off]);
  }

  lemma ForcedFinals(p: Pve.Pve, start: int, at: int)
    requires Planned(p, start, at)
    ensures Finals(Pve.ForcedRemaining(p, at).events) == Stragglers(p.config, p.guests, start, at, |p.guests|)
  {
    ForcedAreStragglers(p.config, p.guests, start, at, |p.guests|);
    var forced := Pve.ForceEvents(p.guests, at, |p.guests|);
    FinalsConcat(p.events, forced);
    OnlyFinals(forced);
  }

  /** Powering off a host on its plan, with the stragglers forced first unless all guests are stopped. */
  lemma EndsAsPlanned(p: Pve.Pve, start: int, at: int, forced: bool)
    requires Planned(p, start, at) && SoundSpecs(p) && (forced || p.AllStopped())
    ensures Finals((if forced then Pve.PoweroffRequested(Pve.ForcedRemaining(p, at), at) else Pve.PoweroffRequested(p, at)).events)
      == Ending(p.config, p.guests, start, at)
  {
    if forced {
      var r := Pve.ForcedRemaining(p, at);
      ForcedFinals(p, start, at);
      PoweroffFinals(r, at);
      forall i | 0 <= i < |p.guests|
        ensures r.guests[i].state == Pve.Stopped <==> Down(p.config, p.guests[i].spec, start, at) || p.guests[i].spec.force == Pve.ForceStops
      {
        assert FollowsPlan(p.config, p.guests[i], start, at);
      }
      assert r.AllStopped() <==> !Blocks(p.config, p.guests, start, at) by {
        assert r.AllStopped() <==> forall i :: 0 <= i < |r.guests| ==> r.guests[i].state == Pve.Stopped;
      }
    } else {
      forall i | 0 <= i < |p.guests| ensures Down(p.config, p.guests[i].spec, start, at) {
        assert p.guests[i] in p.guests && FollowsPlan(p.config, p.guests[i], start, at);
      }
      NoStragglers(p.config, p.guests, start, at, |p.guests|);
      PoweroffFinals(p, at);
    }
  }

  lemma SameEnding(c: Pve.PveConfig, a: seq<Pve.GuestRuntime>, b: seq<Pve.GuestRuntime>, start: int, at: int)
    requires |a| == |b| && forall i :: 0 <= i < |a| ==> a[i].spec == b[i].spec
    ensures Ending(c, a, start, at) == Ending(c, b, start, at)
  {
    SameStragglers(c, a, b, start, at, |a|);
    forall i | 0 <= i < |a| ensures a[i].spec == b[i].spec {}
    assert Blocks(c, a, start, at) <==> Blocks(c, b, start, at);
  }

  // ----- ticks -----

  ghost predicate Runs(c: Config, sc: Scenario, h: seq<Sample>) {
    IsHistory(c, sc, h) && sc.pve.Some? && Pve.ValidConfig(sc.pve.value)
  }

  ghost function PveAfter(c: Config, sc: Scenario, k: nat): Pve.Pve
    requires c.Valid() && sc.pve.Some?
  {
    EveryTickAccepted(c, sc, k);
    WorldAfter(c, sc, k).pve.value
  }

  lemma AlwaysSoundSpecs(c: Config, sc: Scenario, k: nat)
    requires c.Valid() && sc.pve.Some? && Pve.ValidConfig(sc.pve.value)
    ensures SoundSpecs(PveAfter(c, sc, k)) && SameGuests(InitialPve(sc), Some(PveAfter(c, sc, k)))
  {
    EveryTickAccepted(c, sc, k);
    FreshSound(sc.pve.value);
    var p0 := InitialPve(sc).value;
    forall i | 0 <= i < |p0.guests| ensures SoundGuest(p0.guests[i], false) {}
  }

  /** What tick k does to the PVE, in terms of the engine's actions. */
  lemma TickCarries(c: Config, sc: Scenario, h: seq<Sample>, k: nat)
    requires Runs(c, sc, h) && k < |h|
    ensures PveAfter(c, sc, k + 1) == Carried(Prepared(c, sc, k, PveAfter(c, sc, k)), Tick(c, k),
        Emits(c, h, k, GracefulShutdown),
        Emits(c, h, k, HostPoweroffRequested) && !h[k].snap.allGuestsStopped,
        Emits(c, h, k, HostPoweroffRequested))
  {
    TickIsSample(c, sc, h, k);
    EveryTickAccepted(c, sc, k);
    RunPhase(c, h, k);
    assert h[k] == SampleAt(c, sc, k);
    ReactEmits(c, After(c, h, k).status, h[k].at, h[k].snap);
    DispatchOutcome(c, After(c, h, k).status, h[k].at, h[k].snap, Prepared(c, sc, k, PveAfter(c, sc, k)));
    assert WorldAfter(c, sc, k + 1) == WorldTick(c, sc, k);
  }

  /** Until a confirmation the PVE is left alone. */
  lemma {:induction false} IdlePhase(c: Config, sc: Scenario, h: seq<Sample>, k: nat)
    requires Runs(c, sc, h) && k <= |h| && Undecided(c, h, k)
    ensures Idle(PveAfter(c, sc, k))
  {
    if k > 0 {
      IdlePhase(c, sc, h, k - 1);
      PreparedIdle(c, sc, k - 1, PveAfter(c, sc, k - 1));
      TickCarries(c, sc, h, k - 1);
      GracefulIffFirstConfirmed(c, h, k - 1);
      PoweroffIffPlanned(c, h, k - 1);
    }
  }

  ghost predicate Confirming(c: Config, sc: Scenario, h: seq<Sample>, g: nat, j: nat) {
    && Runs(c, sc, h) && g < |h| && FirstConfirmed(c, h, g)
    && j <= g && OutageStart(h, c.recoveryCount, j, g + 1)
  }

  ghost function EndingAt(c: Config, sc: Scenario, g: nat, q: nat): seq<Pve.Event>
    requires sc.pve.Some?
  {
    var p := InitialPve(sc).value;
    Ending(p.config, p.guests, Tick(c, g), Tick(c, q))
  }

  lemma CarriedFromIdle(p: Pve.Pve, at: int, released: bool)
    requires Idle(p) && SoundSpecs(p)
    ensures var r := Carried(p, at, true, released && !p.AllStopped(), released);
      if released then Finals(r.events) == Ending(p.config, p.guests, at, at) else Planned(r, at, at)
  {
    StartPlans(p, at);
    var q := Pve.GracefullyStarted(p, at);
    if released {
      assert p.AllStopped() ==> |q.guests| == 0 by {
        assert |p.guests| > 0 ==> p.guests[0] in p.guests;
      }
      EndsAsPlanned(q, at, at, !p.AllStopped());
      SameEnding(q.config, q.guests, p.guests, at, at);
    }
  }

  lemma CarriedFromPlan(p: Pve.Pve, start: int, at: int, released: bool)
    requires Planned(p, start, at) && SoundSpecs(p)
    ensures var r := Carried(p, at, false, released && !p.AllStopped(), released);
      if released then Finals(r.events) == Ending(p.config, p.guests, start, at) else r == p
  {
    if released {
      EndsAsPlanned(p, start, at, !p.AllStopped());
    }
  }

  ghost predicate ReleasedAt(c: Config, sc: Scenario, h: seq<Sample>, g: nat, j: nat, k: nat)
    requires Confirming(c, sc, h, g, j) && k < |h|
  {
    Releases(c, h, j, k) && !ReleasedBefore(c, h, g, j, k)
  }

  lemma ShutdownEmissions(c: Config, h: seq<Sample>, g: nat, j: nat, k: nat)
    requires c.Valid() && WellTimed(h) && g <= k < |h| && FirstConfirmed(c, h, g)
    requires j <= g && OutageStart(h, c.recoveryCount, j, g + 1)
    ensures Emits(c, h, k, GracefulShutdown) <==> k == g
    ensures Emits(c, h, k, HostPoweroffRequested) <==> Releases(c, h, j, k) && !ReleasedBefore(c, h, g, j, k)
  {
    GracefulIffFirstConfirmed(c, h, k);
    ShutdownEnds(c, h, g, j, k);
  }

  lemma PreparedSound(c: Config, sc: Scenario, k: nat)
    requires c.Valid() && sc.pve.Some? && Pve.ValidConfig(sc.pve.value)
    ensures var p := Prepared(c, sc, k, PveAfter(c, sc, k));
      SoundSpecs(p) && SameGuests(InitialPve(sc), Some(p))
  {
    AlwaysSoundSpecs(c, sc, k);
    PreparedKeepsGuests(c, sc, k, PveAfter(c, sc, k));
  }

  lemma SnapshotSeesGuests(c: Config, sc: Scenario, h: seq<Sample>, k: nat)
    requires Runs(c, sc, h) && k < |h|
    ensures h[k].snap.allGuestsStopped == Prepared(c, sc, k, PveAfter(c, sc, k)).AllStopped()
    ensures h[k].at == Tick(c, k)
  {
    EveryTickAccepted(c, sc, k);
    assert h[k] == SampleAt(c, sc, k);
  }

  /** From the confirmation on, a tick's effect depends only on whether it confirms and whether it releases. */
  lemma ShutdownTick(c: Config, sc: Scenario, h: seq<Sample>, g: nat, j: nat, k: nat)
    requires Confirming(c, sc, h, g, j) && g <= k < |h|
    ensures var p, released := Prepared(c, sc, k, PveAfter(c, sc, k)), ReleasedAt(c, sc, h, g, j, k);
      PveAfter(c, sc, k + 1) == Carried(p, Tick(c, k), k == g, released && !p.AllStopped(), released)
  {
    TickCarries(c, sc, h, k);
    ShutdownEmissions(c, h, g, j, k);
    SnapshotSeesGuests(c, sc, h, k);
  }

  lemma FirstPlanned(c: Config, sc: Scenario, h: seq<Sample>, g: nat, j: nat)
    requires Confirming(c, sc, h, g, j) && !ReleasedBefore(c, h, g, j, g + 1)
    ensures Planned(PveAfter(c, sc, g + 1), Tick(c, g), Tick(c, g))
  {
    ShutdownTick(c, sc, h, g, j, g);
    PreparedSound(c, sc, g);
    IdlePhase(c, sc, h, g);
    PreparedIdle(c, sc, g, PveAfter(c, sc, g));
    CarriedFromIdle(Prepared(c, sc, g, PveAfter(c, sc, g)), Tick(c, g), false);
  }

  lemma NextPlanned(c: Config, sc: Scenario, h: seq<Sample>, g: nat, j: nat, k: nat)
    requires Confirming(c, sc, h, g, j) && g < k < |h| && !ReleasedBefore(c, h, g, j, k + 1)
    requires Planned(PveAfter(c, sc, k), Tick(c, g), Tick(c, k - 1))
    ensures Planned(PveAfter(c, sc, k + 1), Tick(c, g), Tick(c, k))
  {
    ShutdownTick(c, sc, h, g, j, k);
    PreparedSound(c, sc, k);
    TicksIncrease(c, k - 1, k);
    PreparedPlanned(c, sc, k, PveAfter(c, sc, k), Tick(c, g), Tick(c, k - 1));
    CarriedFromPlan(Prepared(c, sc, k, PveAfter(c, sc, k)), Tick(c, g), Tick(c, k), false);
  }

  /** From the confirmation until a release the guests follow their plan. */
  lemma {:induction false} PlannedPhase(c: Config, sc: Scenario, h: seq<Sample>, g: nat, j: nat, k: nat)
    requires Confirming(c, sc, h, g, j) && g < k <= |h| && !ReleasedBefore(c, h, g, j, k)
    ensures Planned(PveAfter(c, sc, k), Tick(c, g), Tick(c, k - 1))
  {
    if k == g + 1 {
      FirstPlanned(c, sc, h, g, j);
    } else {
      PlannedPhase(c, sc, h, g, j, k - 1);
      NextPlanned(c, sc, h, g, j, k - 1);
    }
  }

  /** The tick that releases a shutdown ends it as planned. */
  lemma ReleasingTick(c: Config, sc: Scenario, h: seq<Sample>, g: nat, j: nat, q: nat)
    requires Confirming(c, sc, h, g, j) && g <= q < |h| && ReleasedAt(c, sc, h, g, j, q)
    ensures Finals(PveAfter(c, sc, q + 1).events) == EndingAt(c, sc, g, q)
  {
    ShutdownTick(c, sc, h, g, j, q);
    PreparedSound(c, sc, q);
    var before := PveAfter(c, sc, q);
    var p := Prepared(c, sc, q, before);
    if q == g {
      IdlePhase(c, sc, h, g);
      PreparedIdle(c, sc, g, before);
      CarriedFromIdle(p, Tick(c, g), true);
    } else {
      PlannedPhase(c, sc, h, g, j, q);
      TicksIncrease(c, q - 1, q);
      PreparedPlanned(c, sc, q, before, Tick(c, g), Tick(c, q - 1));
      CarriedFromPlan(p, Tick(c, g), Tick(c, q), true);
    }
    SameEnding(p.config, p.guests, InitialPve(sc).value.guests, Tick(c, g), Tick(c, q));
  }

  lemma QuietTick(c: Config, sc: Scenario, h: seq<Sample>, g: nat, j: nat, q: nat, k: nat)
    requires Confirming(c, sc, h, g, j) && g <= q < k < |h| && ReleasedAt(c, sc, h, g, j, q)
    ensures Finals(PveAfter(c, sc, k + 1).events) == Finals(PveAfter(c, sc, k).events)
  {
    assert ReleasedBefore(c, h, g, j, k);
    ShutdownTick(c, sc, h, g, j, k);
    PreparedAdvances(c, sc, k, PveAfter(c, sc, k));
  }

  /** In every scenario: if the shutdown confirmed at tick g is released at tick q, then from then on the
      forced stops and poweroffs on record are exactly those of its ending, and the poweroff stays unique. */
  lemma {:induction false} EndingStands(c: Config, sc: Scenario, h: seq<Sample>, g: nat, j: nat, q: nat, k: nat)
    requires Confirming(c, sc, h, g, j) && g <= q < k <= |h| && ReleasedAt(c, sc, h, g, j, q)
    ensures Finals(PveAfter(c, sc, k).events) == EndingAt(c, sc, g, q)
  {
    if k == q + 1 {
      ReleasingTick(c, sc, h, g, j, q);
    } else {
      EndingStands(c, sc, h, g, j, q, k - 1);
      QuietTick(c, sc, h, g, j, q, k - 1);
    }
  }

  /** Every simulation, at every tick: either nothing final has happened, or the record of forced stops and
      poweroffs is the ending of the one shutdown that was confirmed and released. */
  lemma EveryEnding(c: Config, sc: Scenario, h: seq<Sample>, k: nat) returns (g: nat, j: nat, q: nat)
    requires Runs(c, sc, h) && k <= |h|
    ensures var finals := Finals(PveAfter(c, sc, k).events);
      || finals == []
      || (Confirming(c, sc, h, g, j) && g <= q < k && ReleasedAt(c, sc, h, g, j, q) && finals == EndingAt(c, sc, g, q))
  {
    g, j, q := 0, 0, 0;
    if Undecided(c, h, k) {
      IdlePhase(c, sc, h, k);
    } else {
      g := DecidedHasFirst(c, h, k);
      j := ConfirmedStart(c, h, g);
      if ReleasedBefore(c, h, g, j, k) {
        var r: nat :| g <= r < k && Releases(c, h, j, r);
        q := EngineRuns.FirstRelease(c, h, g, j, r);
        EndingStands(c, sc, h, g, j, q, k);
      } else {
        PlannedPhase(c, sc, h, g, j, k);
      }
    }
  }

  /** The forced stop, at tick q, of a guest that is not down by then. */
  ghost predicate IsStraggler(p: Pve.Pve, start: int, at: int, n: nat, e: Pve.Event)
    requires n <= |p.guests|
  {
    exists i :: 0 <= i < n && !Down(p.config, p.guests[i].spec, start, at) && e == Pve.ForceEvent(p.guests[i].spec, at)
  }

  lemma {:induction false} StragglersAre(p: Pve.Pve, start: int, at: int, n: nat)
    requires n <= |p.guests|
    ensures var forced := Stragglers(p.config, p.guests, start, at, n);
      forall e :: e in forced <==> IsStraggler(p, start, at, n, e)
  {
    if n > 0 {
      StragglersAre(p, start, at, n - 1);
      var forced := Stragglers(p.config, p.guests, start, at, n);
      forall e ensures e in forced <==> IsStraggler(p, start, at, n, e) {
        assert IsStraggler(p, start, at, n - 1, e) ==> IsStraggler(p, start, at, n, e);
      }
    }
  }

  /** An ending forces exactly the guests that are not down, and then requests the poweroff, once; the
      request is blocked iff one of those guests resists. */
  lemma EndingShape(c: Config, sc: Scenario, g: nat, q: nat)
    requires sc.pve.Some? && Pve.ValidConfig(sc.pve.value)
    ensures var p, ending := InitialPve(sc).value, EndingAt(c, sc, g, q);
      var last := |ending| - 1;
      && 0 <= last && ending[last].kind == Pve.PoweroffIssued
      && (forall e :: e in ending[..last] <==> IsStraggler(p, Tick(c, g), Tick(c, q), |p.guests|, e))
      && (ending[last].outcome == Pve.Blocked <==> Blocks(p.config, p.guests, Tick(c, g), Tick(c, q)))
  {
    var p, ending := InitialPve(sc).value, EndingAt(c, sc, g, q);
    StragglersAre(p, Tick(c, g), Tick(c, q), |p.guests|);
    assert ending[..|ending| - 1] == Stragglers(p.config, p.guests, Tick(c, g), Tick(c, q), |p.guests|);
  }

  /** In every simulation at every tick at most one host poweroff has been requested, and no guest is forced
      after it. */
  lemma OnePoweroff(c: Config, sc: Scenario, h: seq<Sample>, k: nat, i: nat)
    requires Runs(c, sc, h) && k <= |h| && i < |Finals(PveAfter(c, sc, k).events)|
    ensures var finals := Finals(PveAfter(c, sc, k).events);
      finals[i].kind == Pve.PoweroffIssued <==> i == |finals| - 1
  {
    var g, j, q := EveryEnding(c, sc, h, k);
    EndingShape(c, sc, g, q);
    var p, ending := InitialPve(sc).value, EndingAt(c, sc, g, q);
    if i < |ending| - 1 {
      assert ending[i] in ending[..|ending| - 1];
      assert IsStraggler(p, Tick(c, g), Tick(c, q), |p.guests|, ending[i]);
    }
  }

  // ----- the outcome of a confirmed outage -----

  ghost predicate AllDown(c: Config, sc: Scenario, g: nat, k: nat)
    requires sc.pve.Some?
  {
    var p := InitialPve(sc).value;
    forall i :: 0 <= i < |p.guests| ==> Down(p.config, p.guests[i].spec, Tick(c, g), Tick(c, k))
  }

  /** After the confirmation and before a release, the engine sees all guests stopped iff all are down. */
  lemma SeenDown(c: Config, sc: Scenario, h: seq<Sample>, g: nat, j: nat, k: nat)
    requires Confirming(c, sc, h, g, j) && g < k < |h| && !ReleasedBefore(c, h, g, j, k)
    ensures h[k].snap.allGuestsStopped <==> AllDown(c, sc, g, k)
  {
    var before := PveAfter(c, sc, k);
    PlannedPhase(c, sc, h, g, j, k);
    TicksIncrease(c, k - 1, k);
    PreparedPlanned(c, sc, k, before, Tick(c, g), Tick(c, k - 1));
    PreparedSound(c, sc, k);
    SnapshotSeesGuests(c, sc, h, k);
    PlannedDown(Prepared(c, sc, k, before), InitialPve(sc).value, Tick(c, g), Tick(c, k));
  }

  lemma PlannedDown(p: Pve.Pve, first: Pve.Pve, start: int, at: int)
    requires Planned(p, start, at) && SameGuests(Some(first), Some(p))
    ensures p.AllStopped() <==> forall i :: 0 <= i < |first.guests| ==> Down(first.config, first.guests[i].spec, start, at)
  {
    forall i | 0 <= i < |p.guests| ensures p.guests[i].state == Pve.Stopped <==> Down(first.config, first.guests[i].spec, start, at) {
      assert FollowsPlan(p.config, p.guests[i], start, at);
    }
    assert p.AllStopped() <==> forall i :: 0 <= i < |p.guests| ==> p.guests[i].state == Pve.Stopped;
  }

  /** At the confirming tick itself no guest has been asked yet: all are seen stopped iff there are none. */
  lemma SeenAtConfirmation(c: Config, sc: Scenario, h: seq<Sample>, g: nat, j: nat)
    requires Confirming(c, sc, h, g, j)
    ensures h[g].snap.allGuestsStopped <==> |sc.pve.value.guests| == 0
  {
    IdlePhase(c, sc, h, g);
    PreparedIdle(c, sc, g, PveAfter(c, sc, g));
    PreparedSound(c, sc, g);
    SnapshotSeesGuests(c, sc, h, g);
    var p := Prepared(c, sc, g, PveAfter(c, sc, g));
    if |p.guests| > 0 {
      assert p.guests[0] in p.guests;
    }
  }

  /** Tick k is at or past the emergency instant of the outage of sample j. */
  predicate Overdue(c: Config, h: seq<Sample>, j: nat, k: nat)
    requires j < |h| && k < |h|
  {
    h[k].at >= h[j].at + c.EmergencyAfter()
  }

  /** What a tick must find for the host to be powered off. */
  ghost predicate Due(c: Config, sc: Scenario, h: seq<Sample>, g: nat, j: nat, k: nat)
    requires sc.pve.Some? && j < |h| && k < |h|
  {
    Overdue(c, h, j, k) || (if k == g then |sc.pve.value.guests| == 0 else AllDown(c, sc, g, k))
  }

  lemma DueIsReleasing(c: Config, sc: Scenario, h: seq<Sample>, g: nat, j: nat, k: nat)
    requires Confirming(c, sc, h, g, j) && g <= k < |h| && !ReleasedBefore(c, h, g, j, k)
    ensures Releases(c, h, j, k) <==> Due(c, sc, h, g, j, k)
  {
    if k == g {
      SeenAtConfirmation(c, sc, h, g, j);
    } else {
      SeenDown(c, sc, h, g, j, k);
    }
  }

  lemma NotDueUntil(c: Config, sc: Scenario, h: seq<Sample>, g: nat, j: nat, q: nat)
    requires Confirming(c, sc, h, g, j) && g <= q < |h| && Releases(c, h, j, q) && !ReleasedBefore(c, h, g, j, q)
    ensures Due(c, sc, h, g, j, q) && forall k: nat :: g <= k < q ==> !Due(c, sc, h, g, j, k)
  {
    DueIsReleasing(c, sc, h, g, j, q);
    forall k: nat | g <= k < q ensures !Due(c, sc, h, g, j, k) {
      assert !Releases(c, h, j, k) && !ReleasedBefore(c, h, g, j, k);
      DueIsReleasing(c, sc, h, g, j, k);
    }
  }

  /** A tick that is due has been preceded by a release, if it is none itself. */
  lemma DueIsReleasedBy(c: Config, sc: Scenario, h: seq<Sample>, g: nat, j: nat, last: nat) returns (q: nat)
    requires Confirming(c, sc, h, g, j) && g <= last < |h| && Due(c, sc, h, g, j, last)
    ensures g <= q <= last && Releases(c, h, j, q) && !ReleasedBefore(c, h, g, j, q)
  {
    q := last;
    if ReleasedBefore(c, h, g, j, last) {
      var k: nat :| g <= k < last && Releases(c, h, j, k);
      q := EngineRuns.FirstRelease(c, h, g, j, k);
    } else {
      DueIsReleasing(c, sc, h, g, j, last);
    }
  }

  /** The host is powered off at tick q, which is the first that is due; the record of forced stops and poweroffs
      is its ending to the end of the run, and nobody is forced if all guests are down. */
  ghost predicate EndsAt(c: Config, sc: Scenario, h: seq<Sample>, g: nat, j: nat, q: nat)
    requires Confirming(c, sc, h, g, j)
  {
    && g <= q < |h| && Due(c, sc, h, g, j, q) && (forall k: nat :: g <= k < q ==> !Due(c, sc, h, g, j, k))
    && Emits(c, h, q, HostPoweroffRequested)
    && Finals(PveAfter(c, sc, |h|).events) == EndingAt(c, sc, g, q)
    && (AllDown(c, sc, g, q) ==> |EndingAt(c, sc, g, q)| == 1)
  }

  lemma EndsWhenDue(c: Config, sc: Scenario, h: seq<Sample>, g: nat, j: nat, last: nat) returns (q: nat)
    requires Confirming(c, sc, h, g, j) && g <= last < |h| && Due(c, sc, h, g, j, last)
    ensures q <= last && EndsAt(c, sc, h, g, j, q)
  {
    q := DueIsReleasedBy(c, sc, h, g, j, last);
    EndingStands(c, sc, h, g, j, q, |h|);
    ShutdownEmissions(c, h, g, j, q);
    NotDueUntil(c, sc, h, g, j, q);
    if AllDown(c, sc, g, q) {
      var p := InitialPve(sc).value;
      NoStragglers(p.config, p.guests, Tick(c, g), Tick(c, q), |p.guests|);
    }
  }

  lemma NothingFinalUntilDue(c: Config, sc: Scenario, h: seq<Sample>, g: nat, j: nat)
    requires Confirming(c, sc, h, g, j) && forall k: nat :: g <= k < |h| ==> !Due(c, sc, h, g, j, k)
    ensures Finals(PveAfter(c, sc, |h|).events) == []
    ensures forall k: nat :: g <= k < |h| ==> !Emits(c, h, k, HostPoweroffRequested)
  {
    if ReleasedBefore(c, h, g, j, |h|) {
      var k: nat :| g <= k < |h| && Releases(c, h, j, k);
      var q := EngineRuns.FirstRelease(c, h, g, j, k);
      DueIsReleasing(c, sc, h, g, j, q);
      assert false;
    }
    PlannedPhase(c, sc, h, g, j, |h|);
    forall k: nat | g <= k < |h| ensures !Emits(c, h, k, HostPoweroffRequested) {
      ShutdownEmissions(c, h, g, j, k);
    }
  }

  /** How every confirmed outage of every simulation goes, whatever the samples and however long the run: guests are
      told to stop at the confirmation; the host is powered off at the first tick from then on that is overdue or
      finds all guests down; and if the run ends before there is one, nothing was forced and nothing powered off. */
  lemma ConfirmedOutcome(c: Config, sc: Scenario, h: seq<Sample>, g: nat, j: nat) returns (q: nat)
    requires Confirming(c, sc, h, g, j)
    ensures Emits(c, h, g, GracefulShutdown)
    ensures if exists k: nat :: g <= k < |h| && Due(c, sc, h, g, j, k)
      then EndsAt(c, sc, h, g, j, q)
      else Finals(PveAfter(c, sc, |h|).events) == [] && forall k: nat :: g <= k < |h| ==> !Emits(c, h, k, HostPoweroffRequested)
  {
    ShutdownEmissions(c, h, g, j, g);
    q := g;
    if k: nat :| g <= k < |h| && Due(c, sc, h, g, j, k) {
      q := EndsWhenDue(c, sc, h, g, j, k);
    } else {
      NothingFinalUntilDue(c, sc, h, g, j);
    }
  }

  // ----- loss that nothing interrupts -----

  /** The ticks at which the confirmation time, and the time to the emergency, of an outage of sample s are over. */
  ghost function ConfirmTick(c: Config, h: seq<Sample>, s: nat): nat
    requires c.Valid() && s < |h|
  {
    s + CeilDiv(EngineRuns.ConfirmTime(c, h, s), c.interval)
  }

  ghost function EmergencyTick(c: Config, s: nat): nat
    requires c.Valid()
  {
    s + CeilDiv(c.EmergencyAfter(), c.interval)
  }

  ghost predicate OnGrid(c: Config, h: seq<Sample>) {
    forall k: nat :: k < |h| ==> h[k].at == Tick(c, k)
  }

  lemma GridReaches(c: Config, h: seq<Sample>, s: nat, k: nat, time: int)
    requires c.Valid() && OnGrid(c, h) && s <= k < |h| && 0 <= time
    ensures h[k].at >= h[s].at + time <==> k >= s + CeilDiv(time, c.interval)
  {
    CeilDivIsLeast(time, c.interval, k - s);
    assert h[k].at == Tick(c, k) && h[s].at == Tick(c, s);
    assert k * c.interval - s * c.interval == (k - s) * c.interval;
  }

  /** Loss that begins an outage at tick s and lasts to the confirmation tick: UPS loss first, and then any loss,
      or network loss only. */
  ghost predicate UnbrokenLoss(c: Config, h: seq<Sample>, s: nat)
    requires c.Valid() && WellTimed(h)
  {
    && s < |h| && ConfirmTick(c, h, s) < |h| && Emits(c, h, s, OutageCandidateStarted)
    && LossRun(h, s, ConfirmTick(c, h, s) + 1)
    && (h[s].snap.NutLoss() || NetworkSince(h, s, ConfirmTick(c, h, s) + 1))
  }

  lemma UnbrokenIsConfirmed(c: Config, h: seq<Sample>, s: nat)
    requires c.Valid() && WellTimed(h) && OnGrid(c, h) && UnbrokenLoss(c, h, s)
    ensures s <= ConfirmTick(c, h, s) && Confirmed(c, h, ConfirmTick(c, h, s))
  {
    var g := ConfirmTick(c, h, s);
    GridReaches(c, h, s, g, EngineRuns.ConfirmTime(c, h, s));
    if h[s].snap.NutLoss() {
      assert NutSince(h, s, g + 1);
    } else {
      assert NetworkSince(h, s, g + 1);
    }
  }

  /** No evidence from before the outage counts. */
  lemma EvidenceIsWithin(c: Config, h: seq<Sample>, s: nat, i: nat, n: nat)
    requires c.Valid() && WellTimed(h) && s < n <= |h| && Emits(c, h, s, OutageCandidateStarted)
    requires NutSince(h, i, n) || NetworkSince(h, i, n)
    ensures s <= i
  {
    CandidateIffNothingOpen(c, h, s);
    if i < s {
      assert h[i].Loss() by {
        assert NetworkSince(h, i, n) ==> h[i].snap.NetworkLoss();
      }
      assert LossRun(h, i, s) by {
        forall k | i <= k < s ensures h[k].Loss() {
          assert NetworkSince(h, i, n) ==> h[k].snap.NetworkLoss();
        }
      }
      assert OpenSince(h, c.recoveryCount, i, s) by {
        forall k: nat | i <= k < s ensures !Recovered(h, c.recoveryCount, k, s) {
          assert h[k].Loss();
        }
      }
    }
  }

  /** Before the confirmation tick only network loss can confirm, in an outage that began with UPS loss. */
  lemma TooEarly(c: Config, h: seq<Sample>, s: nat, m: nat)
    requires c.Valid() && WellTimed(h) && OnGrid(c, h) && UnbrokenLoss(c, h, s) && s <= m < ConfirmTick(c, h, s)
    ensures Confirmed(c, h, m) <==> h[s].snap.NutLoss() && NetworkConfirmed(c, h, m)
  {
    var end := m + 1;
    GridReaches(c, h, s, m, EngineRuns.ConfirmTime(c, h, s));
    if !h[s].snap.NutLoss() {
      forall i | s <= i < end ensures !h[i].snap.NutLoss() {
        assert h[i].snap.NetworkLoss();
      }
    }
    forall i: nat | NutSince(h, i, end) ensures h[s].snap.NutLoss() && h[m].at - h[i].at < c.nutConfirm {
      EvidenceIsWithin(c, h, s, i, end);
      assert h[i].at >= h[s].at;
    }
    forall i: nat | NetworkSince(h, i, end) && !h[s].snap.NutLoss() ensures h[m].at - h[i].at < c.networkConfirm {
      EvidenceIsWithin(c, h, s, i, end);
      assert h[i].at >= h[s].at;
    }
  }

  lemma FirstOfUnbroken(c: Config, h: seq<Sample>, s: nat) returns (g: nat)
    requires c.Valid() && WellTimed(h) && OnGrid(c, h) && UnbrokenLoss(c, h, s)
    ensures s <= g <= ConfirmTick(c, h, s) && FirstConfirmed(c, h, g) && OutageStart(h, c.recoveryCount, s, g + 1)
  {
    var due := ConfirmTick(c, h, s);
    UnbrokenIsConfirmed(c, h, s);
    CandidateIffNothingOpen(c, h, s);
    assert !Undecided(c, h, due + 1);
    g := DecidedHasFirst(c, h, due + 1);
    assert LossRun(h, s, g + 1);
    EngineRuns.UnbrokenStart(h, c.recoveryCount, s, g + 1);
  }

  /** Unbroken loss is confirmed at the latest at the first tick that reaches the confirmation time of its first
      sample, and exactly there iff no network loss within it lasts long enough before. */
  lemma ConfirmsOnTheGrid(c: Config, h: seq<Sample>, s: nat) returns (g: nat)
    requires c.Valid() && WellTimed(h) && OnGrid(c, h) && UnbrokenLoss(c, h, s)
    ensures s <= g <= ConfirmTick(c, h, s) && FirstConfirmed(c, h, g) && OutageStart(h, c.recoveryCount, s, g + 1)
    ensures g == ConfirmTick(c, h, s) <==>
      forall m: nat :: s <= m < ConfirmTick(c, h, s) ==> !(h[s].snap.NutLoss() && NetworkConfirmed(c, h, m))
  {
    g := FirstOfUnbroken(c, h, s);
    forall m: nat | s <= m < ConfirmTick(c, h, s)
      ensures Confirmed(c, h, m) <==> h[s].snap.NutLoss() && NetworkConfirmed(c, h, m)
    {
      TooEarly(c, h, s, m);
    }
  }

  lemma RunsOnGrid(c: Config, sc: Scenario, h: seq<Sample>)
    requires Runs(c, sc, h)
    ensures OnGrid(c, h)
  {
    forall k: nat | k < |h| ensures h[k].at == Tick(c, k) {
      SnapshotSeesGuests(c, sc, h, k);
    }
  }

  /** On the grid an outage is due from its emergency tick on, or when all guests are down. */
  ghost predicate DueAt(c: Config, sc: Scenario, g: nat, s: nat, k: nat)
    requires c.Valid() && sc.pve.Some?
  {
    k >= EmergencyTick(c, s) || (if k == g then |sc.pve.value.guests| == 0 else AllDown(c, sc, g, k))
  }

  lemma DueOnGrid(c: Config, sc: Scenario, h: seq<Sample>, g: nat, s: nat, k: nat)
    requires Runs(c, sc, h) && OnGrid(c, h) && s <= k < |h|
    ensures Due(c, sc, h, g, s, k) <==> DueAt(c, sc, g, s, k)
  {
    GridReaches(c, h, s, k, c.EmergencyAfter());
  }

  /** Loss that begins at any tick s and is unbroken up to its confirmation: the graceful stop comes at the
      confirmation tick, or earlier iff network loss confirms before; and the host is powered off at the first tick
      from then on at which all guests are down, or at the emergency tick if that comes first, if the run is long
      enough to reach such a tick; otherwise nothing is forced or powered off. */
  lemma UninterruptedOutcome(c: Config, sc: Scenario, h: seq<Sample>, s: nat) returns (g: nat, q: nat)
    requires Runs(c, sc, h) && UnbrokenLoss(c, h, s)
    ensures s <= g <= ConfirmTick(c, h, s) && Confirming(c, sc, h, g, s) && Emits(c, h, g, GracefulShutdown)
    ensures g == ConfirmTick(c, h, s) <==>
      forall m: nat :: s <= m < ConfirmTick(c, h, s) ==> !(h[s].snap.NutLoss() && NetworkConfirmed(c, h, m))
    ensures if exists k: nat :: g <= k < |h| && DueAt(c, sc, g, s, k)
      then DueAt(c, sc, g, s, q) && EndsAt(c, sc, h, g, s, q) && forall k: nat :: g <= k < q ==> !DueAt(c, sc, g, s, k)
      else Finals(PveAfter(c, sc, |h|).events) == [] && forall k: nat :: g <= k < |h| ==> !Emits(c, h, k, HostPoweroffRequested)
  {
    RunsOnGrid(c, sc, h);
    g := ConfirmsOnTheGrid(c, h, s);
    q := ConfirmedOutcome(c, sc, h, g, s);
    forall k: nat | g <= k < |h| ensures Due(c, sc, h, g, s, k) <==> DueAt(c, sc, g, s, k) {
      DueOnGrid(c, sc, h, g, s, k);
    }
    if k: nat :| g <= k < |h| && DueAt(c, sc, g, s, k) {
      assert Due(c, sc, h, g, s, k);
    }
  }

  /** When all guests stop on their own, and in time: if none of them resists the node-wide stop, they are all
      down at the first tick after g that the longest delay reaches. */
  lemma AllDownAfterLongestDelay(c: Config, sc: Scenario, g: nat, k: nat, longest: int)
    requires c.Valid() && sc.pve.Some? && Pve.ValidConfig(sc.pve.value) && InitialPve(sc).value.config.stopAll != Pve.Failure
    requires forall i :: 0 <= i < |InitialPve(sc).value.guests| ==>
      InitialPve(sc).value.guests[i].spec.graceful == Pve.GracefulStops && InitialPve(sc).value.guests[i].spec.delaySeconds <= longest
    requires exists i :: 0 <= i < |InitialPve(sc).value.guests| && InitialPve(sc).value.guests[i].spec.delaySeconds == longest
    ensures AllDown(c, sc, g, k) <==> Tick(c, k) >= Tick(c, g) + longest * SECOND
  {
    var guests := InitialPve(sc).value.guests;
    forall i | 0 <= i < |guests| ensures guests[i].spec.delaySeconds * SECOND <= longest * SECOND {}
  }
}
