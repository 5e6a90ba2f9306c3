/** Scenario files: what their validation demands, and what a validated scenario can rely on. */
module ScenarioFile {
  import opened Common
  import opened PowerCore
  import opened Scenarios
  import opened ScenarioSweeps
  import opened ShutdownOrder
  import Pve = FakePve

  // An expected action or PVE event; `known` says whether its kind is one of the program's.
  datatype Expected = Expected(atSeconds: int, known: bool)

  datatype ScenarioFile = ScenarioFile(
    name: string,
    scenario: Scenario,
    expectedActions: seq<Expected>,
    expectedEvents: seq<Expected>)

  datatype FileError =
    | NoName
    | NegativeDuration
    | LateStart
    | IncompleteStart
    | BadPve
    | StoppedFlagWithPve(index: nat)
    | BadTest(index: nat)
    | NoPve
    | BadChange(index: nat)
    | BadRestart(index: nat)
    | BadExpectation(index: nat)

  // ----- sorting by time -----

  function TimeKeys(times: seq<int>): (r: seq<Keyed>)
    ensures |r| == |times| && forall i :: 0 <= i < |r| ==> r[i] == Keyed(Key(times[i], 0, i), i)
  {
    seq(|times|, i requires 0 <= i < |times| => Keyed(Key(times[i], 0, i), i))
  }

  /** The positions of the entries in the order of their times, equal times in their given order. */
  function ByTime(times: seq<int>): (r: seq<Keyed>)
    ensures |r| == |times| && StrictlySorted(r) && forall x :: x in r <==> x in TimeKeys(times)
    ensures forall k :: 0 <= k < |r| ==> r[k].item < |times| && r[k].key == Key(times[r[k].item], 0, r[k].item)
  {
    SortSorts(TimeKeys(times));
    assert forall k :: 0 <= k < |times| ==> Sort(TimeKeys(times))[k] in TimeKeys(times);
    Sort(TimeKeys(times))
  }

  /** Sorting by time keeps every entry exactly once. */
  lemma ByTimePermutes(times: seq<int>, i: nat)
    requires i < |times|
    ensures exists k :: 0 <= k < |times| && ByTime(times)[k].item == i
    ensures forall j, k :: 0 <= j < k < |times| ==> ByTime(times)[j].item != ByTime(times)[k].item
  {
    var order := ByTime(times);
    assert TimeKeys(times)[i] in order;
    forall j, k | 0 <= j < k < |times| ensures order[j].item != order[k].item {
      assert order[j].key.Less(order[k].key);
    }
  }

  function Arranged(sc: Scenario): Scenario {
    var changes, restarts, tests := ByTime(ChangeTimes(sc.changes)), ByTime(sc.restarts), ByTime(TestTimes(sc.agentTests));
    sc.(changes := seq(|changes|, k requires 0 <= k < |changes| => sc.changes[changes[k].item]),
        restarts := seq(|restarts|, k requires 0 <= k < |restarts| => sc.restarts[restarts[k].item]),
        agentTests := seq(|tests|, k requires 0 <= k < |tests| => sc.agentTests[tests[k].item]))
  }

  /** The scripts that the sweeps rely on are sorted. */
  lemma ArrangedIsSorted(sc: Scenario)
    ensures var sorted := Arranged(sc);
      Sorted(ChangeTimes(sorted.changes)) && Sorted(sorted.restarts) && Sorted(TestTimes(sorted.agentTests))
  {
    ByTimeSorts(ChangeTimes(sc.changes));
    ByTimeSorts(sc.restarts);
    ByTimeSorts(TestTimes(sc.agentTests));
  }

  lemma ByTimeSorts(times: seq<int>)
    ensures forall j, k :: 0 <= j < k < |times| ==> times[ByTime(times)[j].item] <= times[ByTime(times)[k].item]
  {
    var order := ByTime(times);
    forall j, k | 0 <= j < k < |times| ensures times[order[j].item] <= times[order[k].item] {
      assert order[j].key.Less(order[k].key);
    }
  }

  // ----- validation -----

  predicate Within(at: int, duration: int) {
    0 <= at <= duration
  }

  predicate CompleteStart(c: Change) {
    c.atSeconds == 0 && c.nut.Some? && c.lan.Some? && c.wan.Some?
  }

  predicate GoodChange(c: Change, duration: int) {
    Within(c.atSeconds, duration) && !(c.nut.Some? && c.nut.value.OtherNut?)
  }

  ghost predicate GoodPve(sc: Scenario)
    requires sc.changes != []
  {
    match sc.pve
    case None => sc.agentTests == [] && sc.changes[0].allStopped.Some?
    case Some(pve) =>
      && Pve.ValidConfig(pve)
      && (forall i :: 0 <= i < |sc.changes| ==> sc.changes[i].allStopped.None?)
      && forall i :: 0 <= i < |sc.agentTests| ==>
           && Within(sc.agentTests[i].atSeconds, sc.durationSeconds)
           && Pve.Known(Pve.Fresh(Pve.Normalized(pve)), sc.agentTests[i].guestId)
  }

  ghost predicate GoodExpectations(es: seq<Expected>, duration: int) {
    forall i :: 0 <= i < |es| ==> Within(es[i].atSeconds, duration) && es[i].known
  }

  ghost predicate ValidFile(f: ScenarioFile) {
    var sc := f.scenario;
    && f.name != "" && 0 <= sc.durationSeconds
    && sc.changes != [] && CompleteStart(sc.changes[0])
    && GoodPve(sc) && (sc.pve.None? ==> f.expectedEvents == [])
    && (forall i :: 0 <= i < |sc.changes| ==> GoodChange(sc.changes[i], sc.durationSeconds))
    && (forall i :: 0 <= i < |sc.restarts| ==> Within(sc.restarts[i], sc.durationSeconds))
    && GoodExpectations(f.expectedActions, sc.durationSeconds)
    && GoodExpectations(f.expectedEvents, sc.durationSeconds)
  }

  /** Every time within the duration, and every name one of the program's. */
  predicate TimesInFull(f: ScenarioFile) {
    var sc := f.scenario;
    var end := sc.durationSeconds;
    && (forall i :: 0 <= i < |sc.changes| ==>
          && 0 <= sc.changes[i].atSeconds <= end
          && (sc.changes[i].nut.None? || sc.changes[i].nut == Some(OL) || sc.changes[i].nut == Some(OB)
              || sc.changes[i].nut == Some(LB) || sc.changes[i].nut == Some(UNREACHABLE)))
    && (forall i :: 0 <= i < |sc.restarts| ==> 0 <= sc.restarts[i] <= end)
    && (forall i :: 0 <= i < |f.expectedActions| ==> 0 <= f.expectedActions[i].atSeconds <= end && f.expectedActions[i].known)
    && (forall i :: 0 <= i < |f.expectedEvents| ==> 0 <= f.expectedEvents[i].atSeconds <= end && f.expectedEvents[i].known)
  }

  /** Test i is within the duration and of a configured guest. */
  predicate TestInFull(sc: Scenario, i: nat)
    requires i < |sc.agentTests| && sc.pve.Some?
  {
    && 0 <= sc.agentTests[i].atSeconds <= sc.durationSeconds
    && exists k :: 0 <= k < |sc.pve.value.guests| && sc.pve.value.guests[k].id == sc.agentTests[i].guestId
  }

  /** The accepted files: a name; a duration; a complete first change at 0; with a PVE a valid one that alone decides
      whether guests are stopped, and tests of its own guests; without one the first change says it, and there are
      no tests and no expected events. */
  lemma AcceptedInFull(f: ScenarioFile)
    ensures var sc := f.scenario;
      ValidFile(f) <==>
        && |f.name| > 0 && sc.durationSeconds >= 0 && |sc.changes| > 0
        && sc.changes[0].atSeconds == 0 && sc.changes[0].nut.Some? && sc.changes[0].lan.Some? && sc.changes[0].wan.Some?
        && (sc.pve.None? ==> sc.changes[0].allStopped.Some? && |sc.agentTests| == 0 && |f.expectedEvents| == 0)
        && (sc.pve.Some? ==>
              && Pve.ValidConfig(sc.pve.value)
              && (forall i :: 0 <= i < |sc.changes| ==> sc.changes[i].allStopped == None)
              && forall i: nat :: i < |sc.agentTests| ==> TestInFull(sc, i))
        && TimesInFull(f)
  {
    var sc := f.scenario;
    if sc.pve.Some? {
      forall i: nat | i < |sc.agentTests|
        ensures TestInFull(sc, i) <==>
          && Within(sc.agentTests[i].atSeconds, sc.durationSeconds)
          && Pve.Known(Pve.Fresh(Pve.Normalized(sc.pve.value)), sc.agentTests[i].guestId)
      {
        KnownIffConfigured(sc.pve.value, sc.agentTests[i].guestId);
      }
    }
    NamesAndTimes(f);
  }

  lemma NamesAndTimes(f: ScenarioFile)
    ensures var sc := f.scenario;
      TimesInFull(f) <==>
        && (forall i :: 0 <= i < |sc.changes| ==> GoodChange(sc.changes[i], sc.durationSeconds))
        && (forall i :: 0 <= i < |sc.restarts| ==> Within(sc.restarts[i], sc.durationSeconds))
        && GoodExpectations(f.expectedActions, sc.durationSeconds) && GoodExpectations(f.expectedEvents, sc.durationSeconds)
  {
    var sc := f.scenario;
    forall i | 0 <= i < |sc.changes|
      ensures GoodChange(sc.changes[i], sc.durationSeconds) <==>
        && 0 <= sc.changes[i].atSeconds <= sc.durationSeconds
        && (sc.changes[i].nut.None? || sc.changes[i].nut == Some(OL) || sc.changes[i].nut == Some(OB)
            || sc.changes[i].nut == Some(LB) || sc.changes[i].nut == Some(UNREACHABLE))
    {
      GoodChangeInFull(sc.changes[i], sc.durationSeconds);
    }
  }

  lemma GoodChangeInFull(c: Change, end: int)
    ensures GoodChange(c, end) <==>
      && 0 <= c.atSeconds <= end
      && (c.nut.None? || c.nut == Some(OL) || c.nut == Some(OB) || c.nut == Some(LB) || c.nut == Some(UNREACHABLE))
  {}

  lemma KnownIffConfigured(c: Pve.PveConfig, id: int)
    ensures Pve.Known(Pve.Fresh(Pve.Normalized(c)), id) <==> exists k :: 0 <= k < |c.guests| && c.guests[k].id == id
  {
    var normal := Pve.Normalized(c);
    var p, sorted := Pve.Fresh(normal), Pve.ShutdownSequence(normal.guests);
    if Pve.Known(p, id) {
      var i :| 0 <= i < |p.guests| && p.guests[i].spec.id == id;
      var k :| 0 <= k < |normal.guests| && normal.guests[k] == p.guests[i].spec;
      assert c.guests[k].id == id;
    }
    if k :| 0 <= k < |c.guests| && c.guests[k].id == id {
      var keyed := Pve.ByOrder(normal.guests)[k];
      assert keyed in sorted;
      var i :| 0 <= i < |sorted| && sorted[i] == keyed;
      assert p.guests[i].spec == normal.guests[k];
    }
  }

  /** The error names the first check that fails, of those that come before the scripts are looked through. */
  predicate Blames(f: ScenarioFile, e: FileError) {
    var sc := f.scenario;
    if f.name == "" then e == NoName
    else if sc.durationSeconds < 0 then e == NegativeDuration
    else if sc.changes == [] || sc.changes[0].atSeconds != 0 then e == LateStart
    else if sc.changes[0].nut.None? || sc.changes[0].lan.None? || sc.changes[0].wan.None? then e == IncompleteStart
    else BlamesPve(sc, e) || (if sc.pve.None? && f.expectedEvents != [] then e == NoPve else BlamesScripts(e))
  }

  predicate BlamesScripts(e: FileError) {
    e.BadChange? || e.BadRestart? || e.BadExpectation?
  }

  predicate BlamesPve(sc: Scenario, e: FileError)
    requires sc.changes != []
  {
    if sc.pve.None? then
      if sc.changes[0].allStopped.None? then e == IncompleteStart else sc.agentTests != [] && e == NoPve
    else e.BadPve? || e.StoppedFlagWithPve? || e.BadTest?
  }

  method CheckPve(sc: Scenario) returns (error: Option<FileError>)
    requires sc.changes != []
    ensures error.None? <==> GoodPve(sc)
    ensures error.Some? ==> BlamesPve(sc, error.value)
  {
    if sc.pve.None? {
      if sc.changes[0].allStopped.None? {
        return Some(IncompleteStart);
      }
      return if sc.agentTests != [] then Some(NoPve) else None;
    }
    var made := Pve.New(sc.pve.value);
    if made.Err? {
      return Some(FileError.BadPve);
    }
    for i := 0 to |sc.changes|
      invariant forall k :: 0 <= k < i ==> sc.changes[k].allStopped.None?
    {
      if sc.changes[i].allStopped.Some? {
        return Some(StoppedFlagWithPve(i));
      }
    }
    error := CheckTests(made.value, sc.agentTests, sc.durationSeconds);
  }

  method CheckTests(executor: Pve.Executor, tests: seq<AgentTest>, duration: int) returns (error: Option<FileError>)
    modifies executor
    ensures error.None? <==> forall i :: 0 <= i < |tests| ==>
      Within(tests[i].atSeconds, duration) && Pve.Known(old(executor.Value()), tests[i].guestId)
    ensures error.Some? ==> error.value.BadTest?
  {
    ghost var p := executor.Value();
    for i := 0 to |tests|
      invariant executor.Value() == Tested(p, 0, tests, 0, i)
      invariant forall k :: 0 <= k < i ==> Within(tests[k].atSeconds, duration) && Pve.Known(p, tests[k].guestId)
    {
      if tests[i].atSeconds < 0 || tests[i].atSeconds > duration {
        return Some(BadTest(i));
      }
      var found := RunTest(executor, tests, 0, i, 0, p);
      if !found {
        return Some(BadTest(i));
      }
    }
    return None;
  }

  method CheckTimes(sc: Scenario) returns (error: Option<FileError>)
    ensures error.None? <==>
      && (forall i :: 0 <= i < |sc.changes| ==> GoodChange(sc.changes[i], sc.durationSeconds))
      && (forall i :: 0 <= i < |sc.restarts| ==> Within(sc.restarts[i], sc.durationSeconds))
    ensures error.Some? ==> BlamesScripts(error.value)
  {
    for i := 0 to |sc.changes|
      invariant forall k :: 0 <= k < i ==> GoodChange(sc.changes[k], sc.durationSeconds)
    {
      if !GoodChange(sc.changes[i], sc.durationSeconds) {
        return Some(BadChange(i));
      }
    }
    for i := 0 to |sc.restarts|
      invariant forall k :: 0 <= k < i ==> Within(sc.restarts[k], sc.durationSeconds)
    {
      if !Within(sc.restarts[i], sc.durationSeconds) {
        return Some(BadRestart(i));
      }
    }
    return None;
  }

  method CheckExpectations(es: seq<Expected>, duration: int) returns (error: Option<FileError>)
    ensures error.None? <==> GoodExpectations(es, duration)
    ensures error.Some? ==> error.value.BadExpectation?
  {
    for i := 0 to |es|
      invariant GoodExpectations(es[..i], duration)
    {
      if !Within(es[i].atSeconds, duration) || !es[i].known {
        return Some(BadExpectation(i));
      }
    }
    return None;
  }

  /** The checks after the scripts were sorted judge them as they would have before. */
  lemma ChangesArrangedAsGood(sc: Scenario)
    ensures (forall i :: 0 <= i < |sc.changes| ==> GoodChange(sc.changes[i], sc.durationSeconds)) <==>
            (forall k :: 0 <= k < |sc.changes| ==> GoodChange(Arranged(sc).changes[k], sc.durationSeconds))
  {
    var sorted, order := Arranged(sc).changes, ByTime(ChangeTimes(sc.changes));
    assert forall k :: 0 <= k < |sorted| ==> sorted[k] == sc.changes[order[k].item];
    forall i | 0 <= i < |sc.changes| ensures exists k :: 0 <= k < |sorted| && sorted[k] == sc.changes[i] {
      ByTimePermutes(ChangeTimes(sc.changes), i);
    }
  }

  lemma RestartsArrangedAsGood(sc: Scenario)
    ensures (forall i :: 0 <= i < |sc.restarts| ==> Within(sc.restarts[i], sc.durationSeconds)) <==>
            (forall k :: 0 <= k < |sc.restarts| ==> Within(Arranged(sc).restarts[k], sc.durationSeconds))
  {
    var sorted, order := Arranged(sc).restarts, ByTime(sc.restarts);
    assert forall k :: 0 <= k < |sorted| ==> sorted[k] == sc.restarts[order[k].item];
    forall i | 0 <= i < |sc.restarts| ensures exists k :: 0 <= k < |sorted| && sorted[k] == sc.restarts[i] {
      ByTimePermutes(sc.restarts, i);
    }
  }

  /** Checks a scenario file and sorts its scripts. */
  method Validate(f: ScenarioFile) returns (r: Result<Scenario, FileError>)
    ensures r.Ok? <==> ValidFile(f)
    ensures r.Ok? ==> r.value == Arranged(f.scenario)
    ensures r.Err? ==> Blames(f, r.error)
  {
    var sc := f.scenario;
    if f.name == "" {
      return Err(NoName);
    }
    if sc.durationSeconds < 0 {
      return Err(NegativeDuration);
    }
    if |sc.changes| == 0 || sc.changes[0].atSeconds != 0 {
      return Err(LateStart);
    }
    if sc.changes[0].nut.None? || sc.changes[0].lan.None? || sc.changes[0].wan.None? {
      return Err(IncompleteStart);
    }
    var error := CheckPve(sc);
    if error.Some? {
      return Err(error.value);
    }
    if sc.pve.None? && |f.expectedEvents| > 0 {
      return Err(NoPve);
    }
    var sorted := Arranged(sc);
    ChangesArrangedAsGood(sc);
    RestartsArrangedAsGood(sc);
    error := CheckTimes(sorted);
    if error.Some? {
      return Err(error.value);
    }
    error := CheckExpectations(f.expectedActions, sc.durationSeconds);
    if error.Some? {
      return Err(error.value);
    }
    error := CheckExpectations(f.expectedEvents, sc.durationSeconds);
    if error.Some? {
      return Err(error.value);
    }
    return Ok(sorted);
  }

  // ----- what validation is for -----

  /** A validated scenario never fails for a valid configuration: no tick meets an unknown guest. */
  lemma ValidatedNeverFails(f: ScenarioFile, c: Config, n: nat)
    requires ValidFile(f) && 0 < c.interval
    ensures Arranged(f.scenario).pve.Some? ==> Pve.ValidConfig(Arranged(f.scenario).pve.value)
    ensures TestsKnown(c, Arranged(f.scenario), n)
  {
    var sc, sorted := f.scenario, Arranged(f.scenario);
    if sorted.pve.Some? {
      var p := InitialPve(sorted).value;
      forall i | 0 <= i < TestsBefore(c, sorted, n) ensures Pve.Known(p, sorted.agentTests[i].guestId) {
        assert sorted.agentTests[i] == sc.agentTests[ByTime(TestTimes(sc.agentTests))[i].item];
      }
    }
  }

  lemma {:induction false} CompleteAfterFirst(f: ScenarioFile, blank: Snapshot, n: nat)
    requires ValidFile(f) && 0 < n <= |f.scenario.changes|
    ensures var changes := Arranged(f.scenario).changes;
      && !Changed(changes, n).nut.OtherNut?
      && (if f.scenario.pve.Some? then SameNetwork(ChangedFrom(blank, changes, n), Changed(changes, n))
          else ChangedFrom(blank, changes, n) == Changed(changes, n))
  {
    FirstStaysFirst(f);
    var sorted := Arranged(f.scenario).changes;
    if n > 1 {
      CompleteAfterFirst(f, blank, n - 1);
    }
    assert GoodChange(sorted[n - 1], f.scenario.durationSeconds);
    assert Changed(sorted, 0) == BLANK && ChangedFrom(blank, sorted, 0) == blank;
  }

  /** The snapshot after the first n changes, had the loop begun with another one. */
  function ChangedFrom(start: Snapshot, changes: seq<Change>, n: nat): Snapshot
    requires n <= |changes|
  {
    if n == 0 then start else ApplyChange(ChangedFrom(start, changes, n - 1), changes[n - 1])
  }

  lemma FirstStaysFirst(f: ScenarioFile)
    requires ValidFile(f)
    ensures Arranged(f.scenario).changes[0] == f.scenario.changes[0]
  {
    var times := ChangeTimes(f.scenario.changes);
    var order := ByTime(times);
    ByTimePermutes(times, 0);
    var k :| 0 <= k < |times| && order[k].item == 0;
    assert GoodChange(f.scenario.changes[order[0].item], f.scenario.durationSeconds);
    assert order[k].key == Key(0, 0, 0) && order[0].key.due >= 0 && order[0].key.id >= 0;
    var a, b := order[0].key, order[k].key;
    assert k > 0 ==> a.Less(b);
  }

  /** In a validated scenario every tick sees a known UPS status and a snapshot that owes nothing to the
      blank one the loop begins with; with a PVE, that is the part that the PVE does not fill in. */
  lemma ValidatedSnapshotsAreComplete(f: ScenarioFile, c: Config, blank: Snapshot, k: nat)
    requires ValidFile(f) && 0 < c.interval
    ensures var sc := Arranged(f.scenario);
      var n := ChangesBy(c, sc, k);
      && 0 < n && !Changed(sc.changes, n).nut.OtherNut?
      && (if sc.pve.Some? then SameNetwork(ChangedFrom(blank, sc.changes, n), Changed(sc.changes, n))
          else ChangedFrom(blank, sc.changes, n) == Changed(sc.changes, n))
  {
    var sc := Arranged(f.scenario);
    FirstStaysFirst(f);
    SecondsGrow(c, k);
    assert ChangeTimes(sc.changes)[0] == 0 <= SecondsAt(c, k);
    CompleteAfterFirst(f, blank, ChangesBy(c, sc, k));
  }
}
