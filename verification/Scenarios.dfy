/** The simulator: the engine and the in-memory PVE driven by a scripted scenario in virtual time. */
module Scenarios {
  import opened Common
  import opened PowerCore
  import Pve = FakePve
  import opened FakePveRuns

  datatype Change = Change(atSeconds: int, nut: Option<NutStatus>, lan: Option<bool>, wan: Option<bool>, allStopped: Option<bool>)

  datatype AgentTest = AgentTest(atSeconds: int, guestId: int)

  datatype Scenario = Scenario(
    durationSeconds: int,
    changes: seq<Change>,
    restarts: seq<int>,
    pve: Option<Pve.PveConfig>,
    agentTests: seq<AgentTest>)

  // The zero value of a snapshot.
  const BLANK := Snapshot(OtherNut(""), false, false, false)

  function ApplyChange(s: Snapshot, c: Change): Snapshot {
    Snapshot(
      if c.nut.Some? then c.nut.value else s.nut,
      if c.lan.Some? then c.lan.value else s.lan,
      if c.wan.Some? then c.wan.value else s.wan,
      if c.allStopped.Some? then c.allStopped.value else s.allGuestsStopped)
  }

  // ----- what is due at a tick -----

  function ChangeTimes(changes: seq<Change>): seq<int> {
    seq(|changes|, i requires 0 <= i < |changes| => changes[i].atSeconds)
  }

  function TestTimes(tests: seq<AgentTest>): seq<int> {
    seq(|tests|, i requires 0 <= i < |tests| => tests[i].atSeconds)
  }

  /** From index `from` on, the first entry that is not due yet. */
  function Due(times: seq<int>, from: nat, seconds: int): (n: nat)
    requires from <= |times|
    ensures from <= n <= |times|
    ensures forall i :: from <= i < n ==> times[i] <= seconds
    ensures n < |times| ==> times[n] > seconds
    decreases |times| - from
  {
    if from < |times| && times[from] <= seconds then Due(times, from + 1, seconds) else from
  }

  /** Sweeping on from where an earlier sweep stopped gives the same index as starting over. */
  lemma {:induction false} SweepOn(times: seq<int>, from: nat, t1: int, t2: int)
    requires from <= |times| && t1 <= t2
    ensures Due(times, Due(times, from, t1), t2) == Due(times, from, t2)
    decreases |times| - from
  {
    if from < |times| && times[from] <= t1 {
      SweepOn(times, from + 1, t1, t2);
    }
  }

  /** The snapshot after the first n changes. */
  function Changed(changes: seq<Change>, n: nat): Snapshot
    requires n <= |changes|
  {
    if n == 0 then BLANK else ApplyChange(Changed(changes, n - 1), changes[n - 1])
  }

  function Tick(c: Config, k: nat): int {
    k * c.interval
  }

  function SecondsAt(c: Config, k: nat): int {
    Tick(c, k) / SECOND
  }

  function ChangesBy(c: Config, sc: Scenario, k: nat): (n: nat)
    ensures n <= |sc.changes|
  {
    Due(ChangeTimes(sc.changes), 0, SecondsAt(c, k))
  }

  /** The agent tests that have run before tick k. */
  function TestsBefore(c: Config, sc: Scenario, k: nat): (n: nat)
    ensures n <= |sc.agentTests|
  {
    if k == 0 then 0 else Due(TestTimes(sc.agentTests), 0, SecondsAt(c, k - 1))
  }

  // ----- one tick -----

  datatype World = World(memory: Memory, pve: Option<Pve.Pve>, log: seq<Action>)

  function Tested(p: Pve.Pve, at: int, tests: seq<AgentTest>, from: nat, to: nat): Pve.Pve
    requires from <= to <= |tests|
  {
    if from == to then p else Pve.AgentProbed(Tested(p, at, tests, from, to - 1), at, tests[to - 1].guestId)
  }

  lemma TestsGrow(c: Config, sc: Scenario, k: nat)
    requires 0 < c.interval
    ensures TestsBefore(c, sc, k) <= TestsBefore(c, sc, k + 1)
    ensures Due(TestTimes(sc.agentTests), TestsBefore(c, sc, k), SecondsAt(c, k)) == TestsBefore(c, sc, k + 1)
  {
    if k > 0 {
      SecondsGrow(c, k - 1);
      SweepOn(TestTimes(sc.agentTests), 0, SecondsAt(c, k - 1), SecondsAt(c, k));
    }
  }

  lemma SecondsGrow(c: Config, k: nat)
    requires 0 < c.interval
    ensures 0 <= Tick(c, k) && Tick(c, k + 1) == Tick(c, k) + c.interval && SecondsAt(c, k) <= SecondsAt(c, k + 1)
  {}

  /** The PVE as the engine sees it at tick k. */
  function Prepared(c: Config, sc: Scenario, k: nat, p: Pve.Pve): Pve.Pve
    requires 0 < c.interval
  {
    TestsGrow(c, sc, k);
    Tested(Pve.Advanced(p, Tick(c, k)), Tick(c, k), sc.agentTests, TestsBefore(c, sc, k), TestsBefore(c, sc, k + 1))
  }

  function Observed(c: Config, sc: Scenario, k: nat, p: Option<Pve.Pve>): Snapshot
    requires 0 < c.interval
  {
    var scripted := Changed(sc.changes, ChangesBy(c, sc, k));
    if p.None? then scripted else scripted.(allGuestsStopped := Prepared(c, sc, k, p.value).AllStopped())
  }

  function DispatchedOne(p: Pve.Pve, a: Action): Pve.Pve {
    match a.kind
    case GracefulShutdown => Pve.GracefullyStarted(p, a.at)
    case EmergencyStopRemaining => Pve.ForcedRemaining(p, a.at)
    case HostPoweroffRequested => Pve.PoweroffRequested(p, a.at)
    case _ => p
  }

  function Dispatched(p: Pve.Pve, actions: seq<Action>): Pve.Pve {
    if actions == [] then p
    else DispatchedOne(Dispatched(p, actions[..|actions| - 1]), actions[|actions| - 1])
  }

  function Ticked(c: Config, sc: Scenario, k: nat, w: World): World
    requires 0 < c.interval
  {
    match Step(c, w.memory, Tick(c, k), Observed(c, sc, k, w.pve))
    case Err(_) => w
    case Ok(next) =>
      World(next.memory,
            if w.pve.None? then None else Some(Dispatched(Prepared(c, sc, k, w.pve.value), next.actions)),
            w.log + next.actions)
  }

  function InitialPve(sc: Scenario): Option<Pve.Pve> {
    if sc.pve.None? then None else Some(Pve.Fresh(Pve.Normalized(sc.pve.value)))
  }

  /** The simulation after n ticks. Restarts do not appear in it. */
  ghost function WorldAfter(c: Config, sc: Scenario, n: nat): World
    requires 0 < c.interval
    decreases n, 0
  {
    if n == 0 then World(INITIAL, InitialPve(sc), []) else WorldTick(c, sc, n - 1)
  }

  /** The simulation when tick k is done. */
  ghost function WorldTick(c: Config, sc: Scenario, k: nat): World
    requires 0 < c.interval
    decreases k, 1
  {
    Ticked(c, sc, k, WorldAfter(c, sc, k))
  }

  function TickCount(c: Config, sc: Scenario): nat
    requires 0 < c.interval
  {
    if sc.durationSeconds < 0 then 0 else CeilDiv(sc.durationSeconds * SECOND + 1, c.interval)
  }

  /** The ticks are those at or before the end of the scenario. */
  lemma TicksWithinDuration(c: Config, sc: Scenario, k: nat)
    requires 0 < c.interval
    ensures k < TickCount(c, sc) <==> Tick(c, k) <= sc.durationSeconds * SECOND
  {
    if sc.durationSeconds < 0 {
      assert Tick(c, k) >= 0;
    } else {
      CeilDivIsLeast(sc.durationSeconds * SECOND + 1, c.interval, k);
    }
  }

  ghost predicate AllKnown(p: Pve.Pve, tests: seq<AgentTest>, from: nat, to: int)
    requires to <= |tests|
  {
    forall i :: from <= i < to ==> Pve.Known(p, tests[i].guestId)
  }

  /** Every agent test that runs before tick n names a guest. */
  ghost predicate TestsKnown(c: Config, sc: Scenario, n: nat) {
    InitialPve(sc).Some? ==> AllKnown(InitialPve(sc).value, sc.agentTests, 0, TestsBefore(c, sc, n))
  }

  // ----- the program -----

  datatype SimError = BadConfig | BadPve | UnknownGuest | EngineFailed

  datatype SimResult = SimResult(actions: seq<Action>, events: seq<Pve.Event>)

  ghost predicate SameNetwork(a: Snapshot, b: Snapshot) {
    a.(allGuestsStopped := false) == b.(allGuestsStopped := false)
  }

  method ApplyDueChanges(current: Snapshot, changes: seq<Change>, from: nat, seconds: int)
    returns (current': Snapshot, index: nat)
    requires from <= |changes|
    ensures index == Due(ChangeTimes(changes), from, seconds)
    ensures current == Changed(changes, from) ==> current' == Changed(changes, index)
    ensures SameNetwork(current, Changed(changes, from)) ==> SameNetwork(current', Changed(changes, index))
  {
    current', index := current, from;
    while index < |changes| && changes[index].atSeconds <= seconds
      invariant from <= index <= |changes|
      invariant Due(ChangeTimes(changes), from, seconds) == Due(ChangeTimes(changes), index, seconds)
      invariant current == Changed(changes, from) ==> current' == Changed(changes, index)
      invariant SameNetwork(current, Changed(changes, from)) ==> SameNetwork(current', Changed(changes, index))
    {
      current' := ApplyChange(current', changes[index]);
      index := index + 1;
    }
  }

  /** Replaces the engine by a restored one for every restart that is due. */
  method RestartIfDue(engine: Engine, restarts: seq<int>, from: nat, seconds: int) returns (r: Result<Engine, EngineError>, index: nat)
    requires from <= |restarts|
    ensures from <= index <= |restarts| && (r.Ok? ==> index == Due(restarts, from, seconds))
    ensures engine.config.Valid() && !engine.status.state.OtherState? ==> r.Ok?
    ensures r.Ok? ==>
      && (if index == from then r.value == engine else fresh(r.value))
      && r.value.config == engine.config && r.value.Remembers() == engine.Remembers()
  {
    index := from;
    var running := engine;
    while index < |restarts| && restarts[index] <= seconds
      invariant from <= index <= |restarts|
      invariant Due(restarts, index, seconds) == Due(restarts, from, seconds)
      invariant if index == from then running == engine else fresh(running)
      invariant running.config == engine.config && running.Remembers() == engine.Remembers()
    {
      var restored := RestoreEngine(running.config, running.status, running.lastAt);
      if restored.Err? {
        return Err(restored.error), index;
      }
      running := restored.value;
      index := index + 1;
    }
    return Ok(running), index;
  }

  method RunTest(pve: Pve.Executor, tests: seq<AgentTest>, ghost from: nat, index: nat, at: int, ghost p: Pve.Pve) returns (found: bool)
    requires from <= index < |tests| && pve.Value() == Tested(p, at, tests, from, index)
    modifies pve
    ensures found <==> Pve.Known(p, tests[index].guestId)
    ensures found ==> pve.Value() == Tested(p, at, tests, from, index + 1)
  {
    TestedKnows(p, at, tests, from, index, tests[index].guestId);
    found := pve.TestAgent(at, tests[index].guestId);
  }

  method RunDueTests(pve: Pve.Executor, tests: seq<AgentTest>, from: nat, at: int, seconds: int) returns (known: bool, index: nat)
    requires from <= |tests|
    modifies pve
    ensures known <==> AllKnown(old(pve.Value()), tests, from, Due(TestTimes(tests), from, seconds))
    ensures known ==>
      && index == Due(TestTimes(tests), from, seconds)
      && pve.Value() == Tested(old(pve.Value()), at, tests, from, index)
  {
    index := from;
    ghost var p := pve.Value();
    while index < |tests| && tests[index].atSeconds <= seconds
      invariant from <= index <= |tests| && AllDue(tests, from, index, seconds)
      invariant pve.Value() == Tested(p, at, tests, from, index)
      invariant AllKnown(p, tests, from, index)
    {
      DueReaches(tests, from, index, seconds);
      var found := RunTest(pve, tests, from, index, at, p);
      KnownNext(p, tests, from, index, Due(TestTimes(tests), from, seconds));
      if !found {
        return false, index;
      }
      index := index + 1;
    }
    DueReaches(tests, from, index, seconds);
    return true, index;
  }

  ghost predicate AllDue(tests: seq<AgentTest>, from: nat, to: nat, seconds: int)
    requires to <= |tests|
  {
    forall i :: from <= i < to ==> tests[i].atSeconds <= seconds
  }

  lemma DueReaches(tests: seq<AgentTest>, from: nat, index: nat, seconds: int)
    requires from <= index <= |tests| && AllDue(tests, from, index, seconds)
    ensures index <= Due(TestTimes(tests), from, seconds)
    ensures index < Due(TestTimes(tests), from, seconds) <==> index < |tests| && tests[index].atSeconds <= seconds
  {
    var end := Due(TestTimes(tests), from, seconds);
    if end < |tests| {
      assert TestTimes(tests)[end] == tests[end].atSeconds;
    }
    if index < end {
      assert TestTimes(tests)[index] == tests[index].atSeconds;
    }
  }

  lemma KnownNext(p: Pve.Pve, tests: seq<AgentTest>, from: nat, index: nat, end: nat)
    requires from <= index < end <= |tests| && AllKnown(p, tests, from, index)
    ensures AllKnown(p, tests, from, index + 1) <==> Pve.Known(p, tests[index].guestId)
    ensures !Pve.Known(p, tests[index].guestId) ==> !AllKnown(p, tests, from, end)
  {}

  lemma {:induction false} TestedKeepsGuests(p: Pve.Pve, at: int, tests: seq<AgentTest>, from: nat, to: nat)
    requires from <= to <= |tests|
    ensures var q := Tested(p, at, tests, from, to);
      && q.config == p.config && q.gracefulStarted == p.gracefulStarted && |q.guests| == |p.guests|
      && forall i :: 0 <= i < |p.guests| ==> q.guests[i].(lastTest := None) == p.guests[i].(lastTest := None)
  {
    if from < to {
      TestedKeepsGuests(p, at, tests, from, to - 1);
    }
  }

  lemma TestedKnows(p: Pve.Pve, at: int, tests: seq<AgentTest>, from: nat, to: nat, id: int)
    requires from <= to <= |tests|
    ensures Pve.Known(Tested(p, at, tests, from, to), id) <==> Pve.Known(p, id)
  {
    TestedKeepsGuests(p, at, tests, from, to);
    var q := Tested(p, at, tests, from, to);
    forall i | 0 <= i < |p.guests| ensures q.guests[i].spec == p.guests[i].spec {
      assert q.guests[i].(lastTest := None) == p.guests[i].(lastTest := None);
    }
  }

  method DispatchActions(pve: Pve.Executor, actions: seq<Action>)
    modifies pve
    ensures pve.Value() == Dispatched(old(pve.Value()), actions)
  {
    for i := 0 to |actions|
      invariant pve.Value() == Dispatched(old(pve.Value()), actions[..i])
    {
      assert actions[..i + 1][..i] == actions[..i];
      match actions[i].kind {
        case GracefulShutdown => pve.StartGracefulShutdown(actions[i].at);
        case EmergencyStopRemaining => pve.ForceRemaining(actions[i].at);
        case HostPoweroffRequested => var _ := pve.RequestHostPoweroff(actions[i].at);
        case _ =>
      }
    }
    assert actions[..|actions|] == actions;
  }

  ghost predicate Holds(pve: Option<Pve.Executor>, p: Option<Pve.Pve>)
    reads if pve.Some? then {pve.value} else {}
  {
    if pve.None? then p.None? else p == Some(pve.value.Value())
  }

  ghost predicate Scripted(pve: Option<Pve.Executor>, current: Snapshot, s: Snapshot) {
    if pve.None? then current == s else SameNetwork(current, s)
  }

  /** One tick after the due changes and restarts: advance the PVE, run the due tests, sample, dispatch. */
  method TakeTick(c: Config, sc: Scenario, engine: Engine, pve: Option<Pve.Executor>, current: Snapshot,
                  testIndex: nat, at: int, ghost k: nat, ghost w: World)
    returns (r: Result<seq<Action>, SimError>, current': Snapshot, testIndex': nat)
    requires 0 < c.interval && engine.config == c && at == Tick(c, k)
    requires engine.Remembers() == w.memory && TimeError(w.memory.lastAt, at).None?
    requires Holds(pve, w.pve) && Scripted(pve, current, Changed(sc.changes, ChangesBy(c, sc, k)))
    requires pve.Some? ==> testIndex == TestsBefore(c, sc, k)
    modifies engine, if pve.Some? then {pve.value} else {}
    ensures r.Ok? <==> (w.pve.Some? ==> AllKnown(w.pve.value, sc.agentTests, TestsBefore(c, sc, k), TestsBefore(c, sc, k + 1)))
    ensures r.Err? ==> r.error == UnknownGuest
    ensures r.Ok? ==>
      && engine.Remembers() == Ticked(c, sc, k, w).memory && Holds(pve, Ticked(c, sc, k, w).pve)
      && Ticked(c, sc, k, w).log == w.log + r.value
      && Scripted(pve, current', Changed(sc.changes, ChangesBy(c, sc, k)))
      && (pve.Some? ==> testIndex' == TestsBefore(c, sc, k + 1))
  {
    current', testIndex' := current, testIndex;
    if pve.Some? {
      var executor := pve.value;
      executor.Advance(at);
      AdvancedKnows(w.pve.value, at);
      TestsGrow(c, sc, k);
      var known;
      known, testIndex' := RunDueTests(executor, sc.agentTests, testIndex, at, at / SECOND);
      if !known {
        return Err(UnknownGuest), current', testIndex';
      }
      var stopped := executor.AllGuestsStopped();
      current' := current'.(allGuestsStopped := stopped);
    }
    assert current' == Observed(c, sc, k, w.pve);
    var sampled := engine.Sample(at, current');
    if pve.Some? {
      DispatchActions(pve.value, sampled.value);
    }
    return Ok(sampled.value), current', testIndex';
  }

  lemma AdvancedKnows(p: Pve.Pve, at: int)
    ensures forall id :: Pve.Known(Pve.Advanced(p, at), id) <==> Pve.Known(p, id)
  {
    AdvanceAccounts(p, at);
  }

  /** The same guests, whatever their states. */
  ghost predicate SameGuests(p: Option<Pve.Pve>, q: Option<Pve.Pve>) {
    && (p.Some? <==> q.Some?)
    && (p.Some? ==>
          && |q.value.guests| == |p.value.guests|
          && q.value.config == p.value.config
          && forall i :: 0 <= i < |p.value.guests| ==> q.value.guests[i].spec == p.value.guests[i].spec)
  }

  lemma DispatchKeepsGuests(p: Pve.Pve, a: Action)
    ensures SameGuests(Some(p), Some(DispatchedOne(p, a)))
  {
    ApplyAccounts(p, Start(a.at));
    ApplyAccounts(p, Force(a.at));
  }

  lemma {:induction false} DispatchedKeepsGuests(p: Pve.Pve, actions: seq<Action>)
    ensures SameGuests(Some(p), Some(Dispatched(p, actions)))
  {
    if actions != [] {
      var before, last := actions[..|actions| - 1], actions[|actions| - 1];
      DispatchedKeepsGuests(p, before);
      DispatchKeepsGuests(Dispatched(p, before), last);
    }
  }

  lemma PreparedKeepsGuests(c: Config, sc: Scenario, k: nat, p: Pve.Pve)
    requires 0 < c.interval
    ensures SameGuests(Some(p), Some(Prepared(c, sc, k, p)))
  {
    AdvanceAccounts(p, Tick(c, k));
    TestsGrow(c, sc, k);
    var advanced := Pve.Advanced(p, Tick(c, k));
    TestedKeepsGuests(advanced, Tick(c, k), sc.agentTests, TestsBefore(c, sc, k), TestsBefore(c, sc, k + 1));
    var q := Prepared(c, sc, k, p);
    forall i | 0 <= i < |p.guests| ensures q.guests[i].spec == p.guests[i].spec {
      assert q.guests[i].(lastTest := None) == advanced.guests[i].(lastTest := None);
    }
  }

  ghost predicate SoundWorld(c: Config, sc: Scenario, k: nat, w: World) {
    && Reachable(c, w.memory.status)
    && w.memory.lastAt == (if k == 0 then None else Some(Tick(c, k - 1)))
    && SameGuests(InitialPve(sc), w.pve)
  }

  lemma TickedSound(c: Config, sc: Scenario, k: nat, w: World)
    requires c.Valid() && SoundWorld(c, sc, k, w)
    ensures TimeError(w.memory.lastAt, Tick(c, k)).None?
    ensures SoundWorld(c, sc, k + 1, Ticked(c, sc, k, w))
  {
    SecondsGrow(c, k);
    if k > 0 {
      SecondsGrow(c, k - 1);
    }
    var s := Observed(c, sc, k, w.pve);
    StepKeepsReachable(c, w.memory, Tick(c, k), s);
    if w.pve.Some? {
      PreparedKeepsGuests(c, sc, k, w.pve.value);
      DispatchedKeepsGuests(Prepared(c, sc, k, w.pve.value), Step(c, w.memory, Tick(c, k), s).value.actions);
    }
  }

  /** In every simulation each tick is accepted by the engine, whose status stays reachable. */
  lemma {:induction false} EveryTickAccepted(c: Config, sc: Scenario, k: nat)
    requires c.Valid()
    ensures SoundWorld(c, sc, k, WorldAfter(c, sc, k))
    ensures TimeError(WorldAfter(c, sc, k).memory.lastAt, Tick(c, k)).None?
  {
    if k > 0 {
      EveryTickAccepted(c, sc, k - 1);
      TickedSound(c, sc, k - 1, WorldAfter(c, sc, k - 1));
    }
    SecondsGrow(c, k);
    if k > 0 {
      SecondsGrow(c, k - 1);
    }
  }

  lemma ChangesGrow(c: Config, sc: Scenario, k: nat)
    requires 0 < c.interval
    ensures Due(ChangeTimes(sc.changes), if k == 0 then 0 else ChangesBy(c, sc, k - 1), SecondsAt(c, k)) == ChangesBy(c, sc, k)
    ensures Due(sc.restarts, if k == 0 then 0 else Due(sc.restarts, 0, SecondsAt(c, k - 1)), SecondsAt(c, k)) == Due(sc.restarts, 0, SecondsAt(c, k))
  {
    if k > 0 {
      SecondsGrow(c, k - 1);
      SweepOn(sc.restarts, 0, SecondsAt(c, k - 1), SecondsAt(c, k));
      SweepOn(ChangeTimes(sc.changes), 0, SecondsAt(c, k - 1), SecondsAt(c, k));
    }
  }

  lemma {:induction false} TestsBeforeGrow(c: Config, sc: Scenario, k: nat, n: nat)
    requires 0 < c.interval && k <= n
    ensures TestsBefore(c, sc, k) <= TestsBefore(c, sc, n)
  {
    if k < n {
      TestsBeforeGrow(c, sc, k, n - 1);
      TestsGrow(c, sc, n - 1);
    }
  }

  lemma UnknownStays(c: Config, sc: Scenario, k: nat, n: nat)
    requires 0 < c.interval && k <= n
    ensures TestsKnown(c, sc, n) ==> TestsKnown(c, sc, k)
  {
    TestsBeforeGrow(c, sc, k, n);
  }

  lemma TestsKnownNext(c: Config, sc: Scenario, k: nat, w: World)
    requires 0 < c.interval && TestsKnown(c, sc, k) && SameGuests(InitialPve(sc), w.pve)
    ensures TestsKnown(c, sc, k + 1) <==>
      (w.pve.Some? ==> AllKnown(w.pve.value, sc.agentTests, TestsBefore(c, sc, k), TestsBefore(c, sc, k + 1)))
  {
    TestsGrow(c, sc, k);
    if w.pve.Some? {
      forall id ensures Pve.Known(w.pve.value, id) <==> Pve.Known(InitialPve(sc).value, id) {}
    }
  }

  /** Where the program stands before tick k. */
  ghost predicate Stands(c: Config, sc: Scenario, k: nat, engine: Engine, pve: Option<Pve.Executor>, sweep: Sweep, actions: seq<Action>)
    requires 0 < c.interval
    reads engine, if pve.Some? then {pve.value} else {}
  {
    var w := WorldAfter(c, sc, k);
    && engine.config == c && engine.Remembers() == w.memory && Holds(pve, w.pve) && actions == w.log
    && SweepAt(c, sc, k, pve, sweep)
  }

  /** The due changes and restarts of a tick, and then the tick itself. */
  method RunTick(c: Config, sc: Scenario, engine: Engine, pve: Option<Pve.Executor>, sweep: Sweep, actions: seq<Action>, at: int, ghost k: nat)
    returns (r: Result<seq<Action>, SimError>, engine': Engine, sweep': Sweep)
    requires c.Valid() && at == Tick(c, k) && Stands(c, sc, k, engine, pve, sweep, actions) && TestsKnown(c, sc, k)
    modifies engine, if pve.Some? then {pve.value} else {}
    ensures engine' == engine || fresh(engine')
    ensures r.Ok? <==> TestsKnown(c, sc, k + 1)
    ensures r.Err? ==> r.error == UnknownGuest
    ensures r.Ok? ==> Stands(c, sc, k + 1, engine', pve, sweep', r.value)
  {
    var seconds := at / SECOND;
    ghost var w := WorldAfter(c, sc, k);
    EveryTickAccepted(c, sc, k);
    ChangesGrow(c, sc, k);
    TestsKnownNext(c, sc, k, w);
    engine', sweep' := engine, sweep;
    var current, changeIndex := ApplyDueChanges(sweep.current, sc.changes, sweep.changeIndex, seconds);
    var restarted, restartIndex := RestartIfDue(engine, sc.restarts, sweep.restartIndex, seconds);
    engine' := restarted.value;
    var taken, testIndex;
    taken, current, testIndex := TakeTick(c, sc, engine', pve, current, sweep.testIndex, at, k, w);
    sweep' := Sweep(current, changeIndex, restartIndex, testIndex);
    r := if taken.Ok? then Ok(actions + taken.value) else taken;
  }

  // The snapshot under construction and how far each script has been played.
  datatype Sweep = Sweep(current: Snapshot, changeIndex: nat, restartIndex: nat, testIndex: nat)

  ghost predicate SweepAt(c: Config, sc: Scenario, k: nat, pve: Option<Pve.Executor>, s: Sweep)
    requires 0 < c.interval
  {
    && s.changeIndex == (if k == 0 then 0 else ChangesBy(c, sc, k - 1))
    && Scripted(pve, s.current, Changed(sc.changes, s.changeIndex))
    && s.restartIndex == (if k == 0 then 0 else Due(sc.restarts, 0, SecondsAt(c, k - 1)))
    && (pve.Some? ==> s.testIndex == TestsBefore(c, sc, k))
  }

  lemma NextTick(c: Config, sc: Scenario, k: nat, at: int)
    requires 0 < c.interval && at == Tick(c, k)
    ensures at <= sc.durationSeconds * SECOND <==> k < TickCount(c, sc)
    ensures at + c.interval == Tick(c, k + 1)
  {
    SecondsGrow(c, k);
    TicksWithinDuration(c, sc, k);
  }

  method RunTicks(sc: Scenario, c: Config, first: Engine, pve: Option<Pve.Executor>)
    returns (r: Result<seq<Action>, SimError>)
    requires c.Valid() && first.config == c && first.Remembers() == INITIAL && Holds(pve, InitialPve(sc))
    modifies first, if pve.Some? then {pve.value} else {}
    ensures r.Ok? <==> TestsKnown(c, sc, TickCount(c, sc))
    ensures r.Err? ==> r.error == UnknownGuest
    ensures r.Ok? ==> var w := WorldAfter(c, sc, TickCount(c, sc)); Holds(pve, w.pve) && r.value == w.log
  {
    var engine, actions, sweep, at := first, [], Sweep(BLANK, 0, 0, 0), 0;
    ghost var k: nat := 0;
    while at <= sc.durationSeconds * SECOND
      invariant engine == first || fresh(engine)
      invariant at == Tick(c, k) && k <= TickCount(c, sc)
      invariant Stands(c, sc, k, engine, pve, sweep, actions) && TestsKnown(c, sc, k)
      decreases TickCount(c, sc) - k
    {
      NextTick(c, sc, k, at);
      UnknownStays(c, sc, k + 1, TickCount(c, sc));
      var taken;
      taken, engine, sweep := RunTick(c, sc, engine, pve, sweep, actions, at, k);
      if taken.Err? {
        return Err(taken.error);
      }
      actions, at, k := taken.value, at + c.interval, k + 1;
    }
    NextTick(c, sc, k, at);
    return Ok(actions);
  }

  /** Advances virtual time by one interval at a time. The result is that of the specification, in which
      restarts play no part. */
  method RunScenario(sc: Scenario, c: Config) returns (r: Result<SimResult, SimError>)
    ensures r.Ok? <==>
      && c.Valid() && (sc.pve.Some? ==> Pve.ValidConfig(sc.pve.value))
      && TestsKnown(c, sc, TickCount(c, sc))
    ensures r == Err(BadConfig) <==> !c.Valid()
    ensures r == Err(BadPve) <==> c.Valid() && sc.pve.Some? && !Pve.ValidConfig(sc.pve.value)
    ensures r.Err? ==> r.error != EngineFailed
    ensures r.Ok? ==>
      var w := WorldAfter(c, sc, TickCount(c, sc));
      r.value == SimResult(w.log, if w.pve.Some? then w.pve.value.events else [])
  {
    var made := NewEngine(c);
    if made.Err? {
      return Err(BadConfig);
    }
    var pve: Option<Pve.Executor> := None;
    if sc.pve.Some? {
      var executor := Pve.New(sc.pve.value);
      if executor.Err? {
        return Err(BadPve);
      }
      pve := Some(executor.value);
    }
    var actions := RunTicks(sc, c, made.value, pve);
    if actions.Err? {
      return Err(actions.error);
    }
    return Ok(SimResult(actions.value, if pve.Some? then pve.value.events else []));
  }
}
