/** Two runs of the guard from a host on which it never ran before. */
module GuardExamples {
  import opened Common
  import opened PowerCore
  import opened EngineHistory
  import opened PveExec
  import opened ForceStop
  import opened PveReader
  import opened GuardState
  import opened GuardLoop

  const CONFIG := GuardConfig(Config(15 * SECOND, 30 * SECOND, 30 * SECOND, 60 * SECOND, 20 * SECOND, 3), 45)
  const EMPTY := World("boot", None, None, [], [])
  const IDLE := Response(0, 0, StopOutcome(true, false, None), NO_FORCE, OffOutcome(true, None, false))

  // The guard is launched at instant 1, and its outage begins with its first sample.
  const LAUNCH := Launch(1, CONFIG, 0, RestoreIo(true, true))

  function TickAt(seconds: int, nut: NutStatus): Event {
    Tick(LoadFailed, 1, 1 + seconds * SECOND, Snapshot(nut, true, true, false))
  }

  /** A guard that has saved this memory and waits for the next sample. */
  function Waiting(m: Memory, effects: seq<Effect>, calls: seq<Call>): World {
    World("boot", Some(Record("boot", 1, 0, CONFIG.detection, m)), Some(Process(CONFIG, 0, 1, m, Looping)), effects, calls)
  }

  function MemoryAt(seconds: int, nutAt: Option<int>, recovery: int): Memory {
    Memory(Status(Confirming, Some(0), nutAt, None, recovery, false, false, false), Some(seconds * SECOND))
  }

  lemma OpeningStep()
    ensures Step(CONFIG.detection, INITIAL, 0, Snapshot(OB, true, true, false))
      == Ok(Outcome(MemoryAt(0, Some(0), 0), [Action(0, OutageCandidateStarted, NutReported)]))
  {
    var candidate := Action(0, OutageCandidateStarted, NutReported);
    assert [candidate] + [] == [candidate];
  }

  /** The first sample finds battery power. */
  lemma OpeningSample()
    ensures Replay(EMPTY, [LAUNCH, TickAt(0, OB)]) == World("boot", None,
      Some(Process(CONFIG, 0, 1, MemoryAt(0, Some(0), 0),
                   Acting(INITIAL, 0, Snapshot(OB, true, true, false), [], [Action(0, OutageCandidateStarted, NutReported)]))), [], [])
  {
    ReplayNext(EMPTY, [], LAUNCH);
    ReplayNext(EMPTY, [LAUNCH], TickAt(0, OB));
    assert [LAUNCH] + [TickAt(0, OB)] == [LAUNCH, TickAt(0, OB)];
    OpeningStep();
  }

  /** The open outage is saved. */
  lemma Opens()
    ensures Replay(EMPTY, [LAUNCH, TickAt(0, OB), Act(IDLE), Persist(Written)]) == Waiting(MemoryAt(0, Some(0), 0), [], [])
  {
    OpeningSample();
    ReplayNext(EMPTY, [LAUNCH, TickAt(0, OB)], Act(IDLE));
    ReplayNext(EMPTY, [LAUNCH, TickAt(0, OB), Act(IDLE)], Persist(Written));
    assert [LAUNCH, TickAt(0, OB)] + [Act(IDLE)] == [LAUNCH, TickAt(0, OB), Act(IDLE)];
    assert [LAUNCH, TickAt(0, OB), Act(IDLE)] + [Persist(Written)] == [LAUNCH, TickAt(0, OB), Act(IDLE), Persist(Written)];
  }

  /** A guard that carries out a sample's actions. */
  function Busy(before: Memory, m: Memory, seconds: int, nut: NutStatus, finished: seq<Action>, todo: seq<Action>,
                effects: seq<Effect>, calls: seq<Call>): World
  {
    World("boot", Some(Record("boot", 1, 0, CONFIG.detection, before)),
          Some(Process(CONFIG, 0, 1, m, Acting(before, seconds * SECOND, Snapshot(nut, true, true, false), finished, todo))),
          effects, calls)
  }

  lemma SampleTaken(events: seq<Event>, before: Memory, m: Memory, seconds: int, nut: NutStatus, actions: seq<Action>,
                    effects: seq<Effect>, calls: seq<Call>)
    requires Replay(EMPTY, events) == Waiting(before, effects, calls)
    requires Step(CONFIG.detection, before, seconds * SECOND, Snapshot(nut, true, true, false)) == Ok(Outcome(m, actions))
    ensures Replay(EMPTY, events + [TickAt(seconds, nut)]) == Busy(before, m, seconds, nut, [], actions, effects, calls)
  {
    ReplayNext(EMPTY, events, TickAt(seconds, nut));
  }

  lemma ActionDone(events: seq<Event>, before: Memory, m: Memory, seconds: int, finished: seq<Action>, todo: seq<Action>,
                   effects: seq<Effect>, calls: seq<Call>, r: Response)
    requires Replay(EMPTY, events) == Busy(before, m, seconds, OB, finished, todo, effects, calls) && todo != []
    ensures var d, outage := GuardDeadlines(1, CONFIG.detection, m.status), OutageOf(1, m.status);
      Execute(CONFIG, d, outage, todo[0].kind, r).0 ==>
        Replay(EMPTY, events + [Act(r)]) ==
          Busy(before, m, seconds, OB, finished + [todo[0]], todo[1..],
               effects + Execute(CONFIG, d, outage, todo[0].kind, r).1, calls + CallsMade(CONFIG, d, todo[0].kind, r))
  {
    ReplayNext(EMPTY, events, Act(r));
  }

  lemma TurnSaved(events: seq<Event>, before: Memory, m: Memory, seconds: int, nut: NutStatus, finished: seq<Action>,
                  effects: seq<Effect>, calls: seq<Call>)
    requires Replay(EMPTY, events) == Busy(before, m, seconds, nut, finished, [], effects, calls)
    requires m.status.state in {Confirming, ShuttingDown}
    ensures Replay(EMPTY, events + [Persist(Written)]) == Waiting(m, effects, calls)
  {
    ReplayNext(EMPTY, events, Persist(Written));
  }

  /** A sample that emits nothing, and its save. */
  lemma QuietTurn(events: seq<Event>, m: Memory, next: Memory, seconds: int, nut: NutStatus, effects: seq<Effect>, calls: seq<Call>)
    requires Replay(EMPTY, events) == Waiting(m, effects, calls)
    requires Step(CONFIG.detection, m, seconds * SECOND, Snapshot(nut, true, true, false)) == Ok(Outcome(next, []))
    requires next.status.state in {Confirming, ShuttingDown}
    ensures Replay(EMPTY, events + [TickAt(seconds, nut), Persist(Written)]) == Waiting(next, effects, calls)
  {
    SampleTaken(events, m, next, seconds, nut, [], effects, calls);
    TurnSaved(events + [TickAt(seconds, nut)], m, next, seconds, nut, [], effects, calls);
    assert events + [TickAt(seconds, nut)] + [Persist(Written)] == events + [TickAt(seconds, nut), Persist(Written)];
  }

  // ----- a confirmation after the emergency instant -----

  const FLAPPING := [LAUNCH, TickAt(0, OB), Act(IDLE), Persist(Written)]
    + [TickAt(15, OL), Persist(Written)] + [TickAt(30, OB), Persist(Written)] + [TickAt(45, OB), Persist(Written)]

  lemma FlappingSteps()
    ensures Step(CONFIG.detection, MemoryAt(0, Some(0), 0), 15 * SECOND, Snapshot(OL, true, true, false))
      == Ok(Outcome(MemoryAt(15, None, 1), []))
    ensures Step(CONFIG.detection, MemoryAt(15, None, 1), 30 * SECOND, Snapshot(OB, true, true, false))
      == Ok(Outcome(MemoryAt(30, Some(30 * SECOND), 0), []))
    ensures Step(CONFIG.detection, MemoryAt(30, Some(30 * SECOND), 0), 45 * SECOND, Snapshot(OB, true, true, false))
      == Ok(Outcome(MemoryAt(45, Some(30 * SECOND), 0), []))
  {
    var none: seq<Action> := [];
    assert none + none == none;
  }

  lemma FlappingIsOpen()
    ensures Replay(EMPTY, FLAPPING) == Waiting(MemoryAt(45, Some(30 * SECOND), 0), [], [])
  {
    var opening := [LAUNCH, TickAt(0, OB), Act(IDLE), Persist(Written)];
    Opens();
    FlappingSteps();
    QuietTurn(opening, MemoryAt(0, Some(0), 0), MemoryAt(15, None, 1), 15, OL, [], []);
    var recovering := opening + [TickAt(15, OL), Persist(Written)];
    QuietTurn(recovering, MemoryAt(15, None, 1), MemoryAt(30, Some(30 * SECOND), 0), 30, OB, [], []);
    var failing := recovering + [TickAt(30, OB), Persist(Written)];
    QuietTurn(failing, MemoryAt(30, Some(30 * SECOND), 0), MemoryAt(45, Some(30 * SECOND), 0), 45, OB, [], []);
  }

  const LATE := Memory(Status(PoweredOff, Some(0), Some(30 * SECOND), None, 0, true, true, true), Some(60 * SECOND))
  const LATE_ACTIONS := [
    Action(60 * SECOND, GracefulShutdown, NutRemainedActive),
    Action(60 * SECOND, EmergencyStopRemaining, ReserveReached),
    Action(60 * SECOND, HostPoweroffRequested, AfterEmergencyStop)]

  lemma LateStep()
    ensures Step(CONFIG.detection, MemoryAt(45, Some(30 * SECOND), 0), 60 * SECOND, Snapshot(OB, true, true, false))
      == Ok(Outcome(LATE, LATE_ACTIONS))
  {
    assert [] + ([LATE_ACTIONS[0]] + ([LATE_ACTIONS[1]] + [LATE_ACTIONS[2]])) == LATE_ACTIONS;
  }

  /** Battery power, mains power once, then battery power for good: the run from an empty host in which the
      confirmation comes 20 seconds after the emergency instant. The engine asks for the graceful stop, the
      forced stop and the poweroff at once; the first finds no time left, and the process ends without a single
      call to the node, leaving the record as it was. */
  lemma LateConfirmationExample(r: Response)
    requires r.second >= 1 + 60 * SECOND
    ensures var asked := Replay(EMPTY, FLAPPING + [TickAt(60, OB)]);
      && asked.process.Some? && asked.process.value.stage.Acting?
      && Kinds(asked.process.value.stage.todo) == [GracefulShutdown, EmergencyStopRemaining, HostPoweroffRequested]
    ensures var m := MemoryAt(45, Some(30 * SECOND), 0);
      Replay(EMPTY, FLAPPING + [TickAt(60, OB), Act(r)]) == Waiting(m, [], []).(process := None)
  {
    FlappingIsOpen();
    LateStep();
    var m := MemoryAt(45, Some(30 * SECOND), 0);
    SampleTaken(FLAPPING, m, LATE, 60, OB, LATE_ACTIONS, [], []);
    ReplayNext(EMPTY, FLAPPING + [TickAt(60, OB)], Act(r));
    assert FLAPPING + [TickAt(60, OB)] + [Act(r)] == FLAPPING + [TickAt(60, OB), Act(r)];
    var none: seq<Effect>, silent: seq<Call> := [], [];
    assert none + none == none && silent + silent == silent;
  }

  // ----- a node-wide stop that the node refuses -----

  const GUEST := Guest(100, Vm, "running", "pve", false)
  const STOPPED := Guest(100, Vm, "stopped", "pve", false)
  const TARGET := Target(100, "pve", false, 45 * SECOND)

  const FORCE_CALLS := [
    Listed(Some([GUEST])), Ran(GuestCommand(GUEST, 100, false, 45 * SECOND), true), Listed(Some([STOPPED])), Listed(Some([STOPPED]))]

  function AsThread(calls: seq<Call>): seq<ThreadCall> {
    seq(|calls|, k requires 0 <= k < |calls| => ThreadCall(0, calls[k]))
  }

  lemma {:induction false} OwnAsThread(calls: seq<Call>)
    ensures Own(AsThread(calls), 0) == calls
  {
    if calls != [] {
      var most := calls[..|calls| - 1];
      OwnAsThread(most);
      assert AsThread(calls)[..|calls| - 1] == AsThread(most);
    }
  }

  // The one remaining guest is looked up, stopped, seen stopped, and the guests are counted.
  const FORCED := ForceRun(
    Force([GUEST], "pve", 45 * SECOND, i => false, None),
    AsThread(FORCE_CALLS),
    [Listed(Some([GUEST]))],
    [Listed(Some([STOPPED]))])

  lemma ForcedIsDone()
    ensures PveExec.After(TARGET, FORCE_CALLS) == Some(Done(None))
  {
    var calls := FORCE_CALLS;
    assert Lookup([GUEST], 100, "pve") == Ok(GUEST) && Lookup([STOPPED], 100, "pve") == Ok(STOPPED);
    AfterNext(TARGET, [], calls[0]);
    assert [] + [calls[0]] == [calls[0]];
    assert PveExec.After(TARGET, [calls[0]]) == Some(Order(GUEST));
    AfterNext(TARGET, [calls[0]], calls[1]);
    assert [calls[0]] + [calls[1]] == [calls[0], calls[1]];
    assert PveExec.After(TARGET, [calls[0], calls[1]]) == Some(Check);
    AfterNext(TARGET, [calls[0], calls[1]], calls[2]);
    assert [calls[0], calls[1]] + [calls[2]] == [calls[0], calls[1], calls[2]];
    assert PveExec.After(TARGET, [calls[0], calls[1], calls[2]]) == Some(Count);
    AfterNext(TARGET, [calls[0], calls[1], calls[2]], calls[3]);
    assert [calls[0], calls[1], calls[2]] + [calls[3]] == calls;
  }

  lemma ForcedThread()
    ensures ThreadDone(FORCED.f, FORCED.threads, 0) && ThreadError(FORCED.f, FORCED.threads, 0).None?
  {
    OwnAsThread(FORCE_CALLS);
    ForcedIsDone();
    assert TargetOf(FORCED.f, 0) == TARGET;
  }

  lemma OneRemains()
    ensures Remaining([GUEST]) == [GUEST]
  {
    assert [GUEST][..0] == [];
    assert [] + [GUEST] == [GUEST];
  }

  /** There is a force-stop that succeeds and stops a guest. */
  lemma ForcedSucceeds()
    ensures Legal(FORCED) && Succeeds(FORCED) && HasCommand(AllCalls(FORCED))
  {
    ForcedThread();
    OneRemains();
    assert OnCourse(FORCED.f, FORCED.threads, 0);
    assert AllDone(FORCED.f, FORCED.threads);
    ForcedHasCommand();
  }

  lemma ForcedHasCommand()
    ensures HasCommand(AllCalls(FORCED))
  {
    assert AllCalls(FORCED)[2] == FORCE_CALLS[1];
    assert AllCalls(FORCED)[2] in AllCalls(FORCED);
  }

  const STOPPING := Memory(Status(ShuttingDown, Some(0), Some(0), None, 0, true, false, false), Some(30 * SECOND))

  // The node refuses the node-wide stop.
  const REFUSED := Response(1 + 30 * SECOND, 1 + 30 * SECOND, StopOutcome(false, false, None), NO_FORCE, OffOutcome(true, None, false))
  // Later it lets a guest be stopped and the host be powered off.
  function Carried(force: ForceRun, listing: seq<Guest>): Response {
    Response(1 + 45 * SECOND, 1 + 45 * SECOND, StopOutcome(true, false, None), force, OffOutcome(false, Some(listing), true))
  }

  const REFUSED_RUN := [LAUNCH, TickAt(0, OB), Act(IDLE), Persist(Written)] + [TickAt(30, OB), Act(REFUSED), Persist(Written)]

  const REFUSED_CALLS := [Ran(StopAllCommand(45 * SECOND), false)]

  lemma StoppingStep()
    ensures Step(CONFIG.detection, MemoryAt(0, Some(0), 0), 30 * SECOND, Snapshot(OB, true, true, false))
      == Ok(Outcome(STOPPING, [Action(30 * SECOND, GracefulShutdown, NutRemainedActive)]))
  {
    var graceful := [Action(30 * SECOND, GracefulShutdown, NutRemainedActive)];
    assert [] + (graceful + []) == graceful;
  }

  lemma RefusedAct()
    ensures Execute(CONFIG, Some(Deadlines(1 + 40 * SECOND, 1 + 60 * SECOND)), 1, GracefulShutdown, REFUSED) == (true, [StopAttempted(1)])
    ensures CallsMade(CONFIG, Some(Deadlines(1 + 40 * SECOND, 1 + 60 * SECOND)), GracefulShutdown, REFUSED) == REFUSED_CALLS
  {
    assert REFUSED_CALLS + [] == REFUSED_CALLS && [StopAttempted(1)] + [] == [StopAttempted(1)];
  }

  /** The failed try is saved as if it had worked. */
  lemma RefusedIsSaved()
    ensures Replay(EMPTY, REFUSED_RUN) == Waiting(STOPPING, [StopAttempted(1)], REFUSED_CALLS)
  {
    var opening := [LAUNCH, TickAt(0, OB), Act(IDLE), Persist(Written)];
    var before, graceful := MemoryAt(0, Some(0), 0), Action(30 * SECOND, GracefulShutdown, NutRemainedActive);
    Opens();
    StoppingStep();
    RefusedAct();
    SampleTaken(opening, before, STOPPING, 30, OB, [graceful], [], []);
    ActionDone(opening + [TickAt(30, OB)], before, STOPPING, 30, [], [graceful], [], [], REFUSED);
    assert [] + [graceful] == [graceful] && [graceful][1..] == [];
    assert [] + REFUSED_CALLS == REFUSED_CALLS && [] + [StopAttempted(1)] == [StopAttempted(1)];
    TurnSaved(opening + [TickAt(30, OB)] + [Act(REFUSED)], before, STOPPING, 30, OB, [graceful], [StopAttempted(1)], REFUSED_CALLS);
    assert opening + [TickAt(30, OB)] + [Act(REFUSED)] + [Persist(Written)] == REFUSED_RUN;
  }

  const ENDED := Memory(Status(PoweredOff, Some(0), Some(0), None, 0, true, true, true), Some(45 * SECOND))
  const EMERGENCY := Action(45 * SECOND, EmergencyStopRemaining, ReserveReached)
  const POWEROFF_REQUEST := Action(45 * SECOND, HostPoweroffRequested, AfterEmergencyStop)

  lemma EndingStep()
    ensures Step(CONFIG.detection, STOPPING, 45 * SECOND, Snapshot(OB, true, true, false)) == Ok(Outcome(
      ENDED,
      [EMERGENCY, POWEROFF_REQUEST]))
  {
    assert [EMERGENCY] + [POWEROFF_REQUEST] == [EMERGENCY, POWEROFF_REQUEST];
  }

  lemma CarriedActs(force: ForceRun, listing: seq<Guest>)
    requires Succeeds(force) && HasCommand(AllCalls(force)) && AllGuestsStopped(listing)
    ensures var d := Some(Deadlines(1 + 40 * SECOND, 1 + 60 * SECOND));
      && Execute(CONFIG, d, 1, EmergencyStopRemaining, Carried(force, listing)) == (true, [GuestsForced(1)])
      && Execute(CONFIG, d, 1, HostPoweroffRequested, Carried(force, listing)) == (true, [HostPoweredOff(1, listing)])
  {}

  lemma GuestIsForced(force: ForceRun, listing: seq<Guest>) returns (calls: seq<Call>)
    requires Succeeds(force) && HasCommand(AllCalls(force)) && AllGuestsStopped(listing)
    ensures Replay(EMPTY, REFUSED_RUN + [TickAt(45, OB)] + [Act(Carried(force, listing))]) ==
      Busy(STOPPING, ENDED, 45, OB, [EMERGENCY], [POWEROFF_REQUEST], [StopAttempted(1), GuestsForced(1)], calls)
  {
    RefusedIsSaved();
    EndingStep();
    var r, asked := Carried(force, listing), REFUSED_RUN + [TickAt(45, OB)];
    CarriedActs(force, listing);
    SampleTaken(REFUSED_RUN, STOPPING, ENDED, 45, OB, [EMERGENCY, POWEROFF_REQUEST], [StopAttempted(1)], REFUSED_CALLS);
    ActionDone(asked, STOPPING, ENDED, 45, [], [EMERGENCY, POWEROFF_REQUEST], [StopAttempted(1)], REFUSED_CALLS, r);
    assert [EMERGENCY, POWEROFF_REQUEST][1..] == [POWEROFF_REQUEST] && [] + [EMERGENCY] == [EMERGENCY];
    assert [StopAttempted(1)] + [GuestsForced(1)] == [StopAttempted(1), GuestsForced(1)];
    calls := REFUSED_CALLS + CallsMade(CONFIG, GuardDeadlines(1, CONFIG.detection, ENDED.status), EmergencyStopRemaining, r);
  }

  /** The run from an empty host in which the node refuses the node-wide stop. The engine goes on as if the
      guests had been told: at the reserve those that remain are forced and the host is powered off, and no guest
      was ever told to stop. */
  lemma UnheededStopExample(force: ForceRun, listing: seq<Guest>)
    requires Legal(force) && Succeeds(force) && HasCommand(AllCalls(force)) && AllGuestsStopped(listing)
    ensures var r := Carried(force, listing);
      Replay(EMPTY, REFUSED_RUN + [TickAt(45, OB)] + [Act(r)] + [Act(r)]).effects
        == [StopAttempted(1), GuestsForced(1), HostPoweredOff(1, listing)]
  {
    var r, effects := Carried(force, listing), [StopAttempted(1), GuestsForced(1)];
    var calls := GuestIsForced(force, listing);
    CarriedActs(force, listing);
    ActionDone(REFUSED_RUN + [TickAt(45, OB)] + [Act(r)], STOPPING, ENDED, 45, [EMERGENCY], [POWEROFF_REQUEST], effects, calls, r);
    assert effects + [HostPoweredOff(1, listing)] == [StopAttempted(1), GuestsForced(1), HostPoweredOff(1, listing)];
  }
}
