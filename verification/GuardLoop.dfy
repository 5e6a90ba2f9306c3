/** The guard on the PVE host: take a sample, carry out the actions, save, repeat. The process can be
    killed between any two of these and the host can be rebooted; only the saved record survives. */
module GuardLoop {
  import opened Common
  import opened PowerCore
  import opened EngineHistory
  import opened PveExec
  import opened ForceStop
  import opened PveReader
  import opened GuardState

  datatype GuardConfig = GuardConfig(detection: Config, guestTimeoutSeconds: int)

  /** What the configuration file holds when the guard looks at it. `otherwiseValid` stands for the
      checks of fields that the guard itself does not use. */
  datatype Stored = LoadFailed | Loaded(production: bool, revision: int, config: GuardConfig, otherwiseValid: bool)

  // What a process is about to do: take the next sample, or carry out the rest of a sample's actions
  // and then save. `before`, `at` and `seen` are that sample.
  datatype Stage =
    | Looping
    | Acting(before: Memory, at: int, seen: Snapshot, finished: seq<Action>, todo: seq<Action>)

  datatype Process = Process(config: GuardConfig, revision: int, started: int, memory: Memory, stage: Stage)

  // What was done to the host, tagged with the start of the outage it was for: the node-wide stop was tried,
  // its command was accepted, a stop command was given to some guest, the poweroff was accepted.
  datatype Effect =
    | StopAttempted(outage: int)
    | GuestsToldToStop(outage: int)
    | GuestsForced(outage: int)
    | HostPoweredOff(outage: int, listing: seq<Guest>)

  datatype World = World(boot: string, disk: Option<Record>, process: Option<Process>, effects: seq<Effect>, calls: seq<Call>)

  // How the executor's three actions went: whether it refused, what the node answered.
  datatype StopOutcome = StopOutcome(refused: bool, accepted: bool, after: Option<seq<Guest>>)
  datatype OffOutcome = OffOutcome(refused: bool, before: Option<seq<Guest>>, accepted: bool)

  /** What the environment answers to one action: two readings of the clock, and how each action would go. */
  datatype Response = Response(first: int, second: int, stop: StopOutcome, force: ForceRun, off: OffOutcome)

  datatype Event =
    | Launch(now: int, config: GuardConfig, revision: int, restore: RestoreIo)
    | Tick(stored: Stored, reloadedAt: int, now: int, snap: Snapshot)
    | Act(response: Response)
    | Cut(response: Response, made: nat)
    | Persist(save: SaveIo)
    | Crash
    | Reboot(boot: string)

  // ----- deadlines -----

  datatype Deadlines = Deadlines(emergency: int, total: int)

  function GuardDeadlines(origin: int, c: Config, st: Status): Option<Deadlines> {
    if st.outageAt.None? then None
    else Some(Deadlines(origin + st.outageAt.value + c.EmergencyAfter(), origin + st.outageAt.value + c.totalBudget))
  }

  /** The instant a command must be done by, unless the second look at the clock is already past it. */
  function BoundedContext(first: int, second: int, maximum: int, deadline: Option<int>): Option<int> {
    var target := if deadline.Some? && deadline.value < first + maximum then deadline.value else first + maximum;
    if target <= second then None else Some(target)
  }

  function EmergencyDeadline(d: Option<Deadlines>): Option<int> {
    if d.Some? then Some(d.value.emergency) else None
  }

  function TotalDeadline(d: Option<Deadlines>): Option<int> {
    if d.Some? then Some(d.value.total) else None
  }

  function ProcessDeadlines(p: Process): Option<Deadlines> {
    GuardDeadlines(p.started, p.config.detection, p.memory.status)
  }

  // ----- the steps -----

  /** In the normal state a new production configuration replaces the engine. */
  function Reload(p: Process, stored: Stored, now: int): Process {
    if p.memory.status.state != Normal || stored.LoadFailed? || !stored.production || stored.revision == p.revision
       || !stored.config.detection.Valid() || !stored.otherwiseValid
    then p
    else Process(stored.config, stored.revision, now, INITIAL, p.stage)
  }

  /** The instant an outage began, as a tag for the commands it causes. */
  function OutageOf(origin: int, st: Status): int {
    origin + if st.outageAt.Some? then st.outageAt.value else 0
  }

  function Outage(p: Process): int {
    OutageOf(p.started, p.memory.status)
  }

  function StopTimeout(config: GuardConfig): int {
    config.guestTimeoutSeconds * SECOND
  }

  /** The node-wide stop command was given and accepted. */
  predicate StopAccepted(config: GuardConfig, o: StopOutcome) {
    !o.refused && TimeoutInRange(StopTimeout(config)) && o.accepted
  }

  predicate PoweroffAccepted(o: OffOutcome) {
    !o.refused && o.before.Some? && AllGuestsStopped(o.before.value) && o.accepted
  }

  predicate HasCommand(calls: seq<Call>) {
    exists c :: c in calls && c.Ran?
  }

  function StopAllowance(config: GuardConfig, deadlines: Option<Deadlines>, r: Response): Option<int> {
    BoundedContext(r.first, r.second, (config.guestTimeoutSeconds + 20) * SECOND, EmergencyDeadline(deadlines))
  }

  function ForceAllowance(deadlines: Option<Deadlines>, r: Response): Option<int> {
    BoundedContext(r.first, r.second, 5 * SECOND, TotalDeadline(deadlines))
  }

  function PoweroffAllowance(deadlines: Option<Deadlines>, r: Response): Option<int> {
    BoundedContext(r.first, r.second, 10 * SECOND, TotalDeadline(deadlines))
  }

  /** In plain instants: with `started` the wall-clock origin of the process, a look at the clock comes too late for the
      graceful stop from the outage's start plus budget less reserve on, for the forced stop and the poweroff from
      its start plus budget on; and for each also when the time that the action itself is given has passed. */
  lemma AllowancesInFull(p: Process, r: Response)
    requires p.memory.status.outageAt.Some?
    ensures var budgetEnds := p.started + p.memory.status.outageAt.value + p.config.detection.totalBudget;
      var d := ProcessDeadlines(p);
      && (StopAllowance(p.config, d, r).None? <==>
            || r.second >= budgetEnds - p.config.detection.emergencyReserve
            || r.second >= r.first + (p.config.guestTimeoutSeconds + 20) * 1_000_000_000)
      && (ForceAllowance(d, r).None? <==> r.second >= budgetEnds || r.second >= r.first + 5 * 1_000_000_000)
      && (PoweroffAllowance(d, r).None? <==> r.second >= budgetEnds || r.second >= r.first + 10 * 1_000_000_000)
  {}


  /** Whether an action is carried out, and what that does to the host. A graceful stop that was tried counts as
      carried out, whatever came of it. */
  ghost function Execute(config: GuardConfig, deadlines: Option<Deadlines>, outage: int, kind: ActionKind, r: Response)
    : (bool, seq<Effect>)
  {
    match kind
    case OutageCandidateStarted => (true, [])
    case OutageCancelled => (true, [])
    case GracefulShutdown =>
      if StopAllowance(config, deadlines, r).None? then (false, [])
      else (true, [StopAttempted(outage)] + if StopAccepted(config, r.stop) then [GuestsToldToStop(outage)] else [])
    case EmergencyStopRemaining =>
      if ForceAllowance(deadlines, r).None? then (false, [])
      else (Succeeds(r.force), if HasCommand(AllCalls(r.force)) then [GuestsForced(outage)] else [])
    case HostPoweroffRequested =>
      if PoweroffAllowance(deadlines, r).None? || !PoweroffAccepted(r.off) then (false, [])
      else (true, [HostPoweredOff(outage, r.off.before.value)])
  }

  /** The calls that an action makes to the node. */
  function CallsMade(config: GuardConfig, deadlines: Option<Deadlines>, kind: ActionKind, r: Response): seq<Call> {
    match kind
    case OutageCandidateStarted => []
    case OutageCancelled => []
    case GracefulShutdown =>
      if StopAllowance(config, deadlines, r).None? || r.stop.refused || !TimeoutInRange(StopTimeout(config)) then []
      else CallsOf(All(StopTimeout(config), r.stop.accepted, r.stop.after))
    case EmergencyStopRemaining => if ForceAllowance(deadlines, r).None? then [] else AllCalls(r.force)
    case HostPoweroffRequested =>
      if PoweroffAllowance(deadlines, r).None? || r.off.refused then [] else CallsOf(Off(r.off.before, r.off.accepted))
  }

  function Prefix(calls: seq<Call>, n: nat): seq<Call> {
    if n < |calls| then calls[..n] else calls
  }

  /** What an action did to the host if its process is killed after this many of its calls. */
  function CutEffects(config: GuardConfig, deadlines: Option<Deadlines>, outage: int, kind: ActionKind, r: Response, made: nat): seq<Effect> {
    var calls := CallsMade(config, deadlines, kind, r);
    if calls == [] || made == 0 then []
    else
      match kind
      case OutageCandidateStarted => []
      case OutageCancelled => []
      case GracefulShutdown => [StopAttempted(outage)] + if StopAccepted(config, r.stop) then [GuestsToldToStop(outage)] else []
      case EmergencyStopRemaining => if HasCommand(Prefix(calls, made)) then [GuestsForced(outage)] else []
      case HostPoweroffRequested =>
        if PoweroffAccepted(r.off) && made >= |calls| then [HostPoweredOff(outage, r.off.before.value)] else []
  }

  function Launched(w: World, now: int, config: GuardConfig, revision: int, io: RestoreIo): World {
    var (outcome, disk) := Restoring(w.disk, w.boot, io);
    match outcome
    case Failed => w.(disk := disk)
    case Resumed(rec) =>
      w.(disk := disk, process := Some(Process(config.(detection := rec.detection), rec.revision, rec.origin, rec.memory, Looping)))
    case Fresh =>
      if !config.detection.Valid() then w.(disk := disk)
      else w.(disk := disk, process := Some(Process(config, revision, now, INITIAL, Looping)))
  }

  function Ticked(w: World, p: Process, now: int, snap: Snapshot): World {
    match Step(p.config.detection, p.memory, now - p.started, snap)
    case Err(_) => w.(process := None)
    case Ok(next) =>
      w.(process := Some(p.(memory := next.memory,
                            stage := Acting(p.memory, now - p.started, snap, [], next.actions))))
  }

  ghost function Acted(w: World, p: Process, r: Response): World
    requires p.stage.Acting? && p.stage.todo != []
  {
    var action := p.stage.todo[0];
    var (ok, effects) := Execute(p.config, ProcessDeadlines(p), Outage(p), action.kind, r);
    w.(effects := w.effects + effects,
       calls := w.calls + CallsMade(p.config, ProcessDeadlines(p), action.kind, r),
       process := if !ok then None
                  else Some(p.(stage := p.stage.(finished := p.stage.finished + [action], todo := p.stage.todo[1..]))))
  }

  /** The process is killed between two calls of an action, or after the last before anything else happens. */
  function CutOff(w: World, p: Process, r: Response, made: nat): World
    requires p.stage.Acting? && p.stage.todo != []
  {
    var kind, d := p.stage.todo[0].kind, ProcessDeadlines(p);
    w.(effects := w.effects + CutEffects(p.config, d, Outage(p), kind, r, made),
       calls := w.calls + Prefix(CallsMade(p.config, d, kind, r), made),
       process := None)
  }

  function Saved(w: World, p: Process, io: SaveIo): World {
    var (ok, disk) := Saving(w.disk, Record(w.boot, p.started, p.revision, p.config.detection, p.memory), io);
    w.(disk := disk, process := if ok then Some(p.(stage := Looping)) else None)
  }

  /** One step. An event that does not fit the state of the guard changes nothing. */
  ghost function Next(w: World, e: Event): World {
    match e
    case Launch(now, config, revision, io) =>
      if w.process.Some? || now <= ZERO_INSTANT then w else Launched(w, now, config, revision, io)
    case Tick(stored, reloadedAt, now, snap) =>
      if w.process.None? || !w.process.value.stage.Looping? || reloadedAt <= ZERO_INSTANT then w
      else Ticked(w, Reload(w.process.value, stored, reloadedAt), now, snap)
    case Act(response) =>
      if w.process.None? || !w.process.value.stage.Acting? || w.process.value.stage.todo == [] then w
      else Acted(w, w.process.value, response)
    case Cut(response, made) =>
      if w.process.None? || !w.process.value.stage.Acting? || w.process.value.stage.todo == [] then w
      else CutOff(w, w.process.value, response, made)
    case Persist(save) =>
      if w.process.None? || !w.process.value.stage.Acting? || w.process.value.stage.todo != [] then w
      else Saved(w, w.process.value, save)
    case Crash => w.(process := None)
    case Reboot(boot) => w.(boot := boot, process := None)
  }

  ghost predicate StepAt(ws: seq<World>, events: seq<Event>, k: nat)
    requires k < |events| && |ws| == |events| + 1
  {
    ws[k + 1] == Next(ws[k], events[k])
  }

  /** The worlds that a series of events leads through, one more than the events. */
  ghost predicate IsRun(ws: seq<World>, events: seq<Event>) {
    |ws| == |events| + 1 && forall k: nat :: k < |events| ==> StepAt(ws, events, k)
  }

  /** The world that a series of events leads to. */
  ghost function Replay(w: World, events: seq<Event>): World {
    if events == [] then w else Next(Replay(w, events[..|events| - 1]), events[|events| - 1])
  }

  lemma ReplayNext(w: World, events: seq<Event>, e: Event)
    ensures Replay(w, events + [e]) == Next(Replay(w, events), e)
  {
    assert (events + [e])[..|events|] == events;
  }

  /** A replay is a run, so every promise about runs is one about replays. */
  lemma {:induction false} ReplayIsRun(w: World, events: seq<Event>) returns (ws: seq<World>)
    ensures IsRun(ws, events) && ws[0] == w && ws[|events|] == Replay(w, events)
  {
    if events == [] {
      ws := [w];
    } else {
      var before := events[..|events| - 1];
      var shorter := ReplayIsRun(w, before);
      ws := shorter + [Replay(w, events)];
      forall k: nat | k < |events| ensures StepAt(ws, events, k) {
        assert k < |before| ==> StepAt(shorter, before, k);
      }
    }
  }

  // ----- what every run keeps -----

  ghost predicate GoodRecord(rec: Record) {
    && rec.detection.Valid() && rec.origin > ZERO_INSTANT
    && Reachable(rec.detection, rec.memory.status)
    && rec.memory.status.state in {Confirming, ShuttingDown}
  }

  ghost predicate GoodProcess(p: Process) {
    p.config.detection.Valid() && p.started > ZERO_INSTANT && Reachable(p.config.detection, p.memory.status)
  }

  /** The memory that the current iteration began with, which is what the disk holds. */
  function Base(p: Process): Memory {
    if p.stage.Looping? then p.memory else p.stage.before
  }

  /** The actions under way are those of the current sample, in order. */
  ghost predicate Consistent(p: Process) {
    p.stage.Acting? ==>
      && Reachable(p.config.detection, p.stage.before.status)
      && Step(p.config.detection, p.stage.before, p.stage.at, p.stage.seen)
         == Ok(Outcome(p.memory, p.stage.finished + p.stage.todo))
  }

  /** A running guard and the record it would resume from agree. */
  ghost predicate Agrees(w: World, p: Process) {
    if w.disk.Some? then
      && w.disk.value.boot == w.boot
      && w.disk.value.origin == p.started
      && w.disk.value.revision == p.revision
      && w.disk.value.detection == p.config.detection
      && w.disk.value.memory == Base(p)
    else Base(p).status.state in {Normal, PoweredOff}
  }

  /** A poweroff that counts as carried out did reach the host. */
  ghost predicate PoweroffHappened(w: World, p: Process) {
    p.stage.Acting? && HostPoweroffRequested in Kinds(p.stage.finished) ==>
      exists e :: e in w.effects && e.HostPoweredOff? && e.outage == Outage(p)
  }

  ghost predicate Sound(w: World) {
    && (w.disk.Some? ==> GoodRecord(w.disk.value))
    && (w.process.Some? ==>
          var p := w.process.value;
          GoodProcess(p) && Consistent(p) && Agrees(w, p) && PoweroffHappened(w, p))
    && (forall e :: e in w.effects && e.HostPoweredOff? ==> AllGuestsStopped(e.listing))
  }

  /** A host on which the guard has not run yet. */
  lemma NothingYetSound(boot: string)
    ensures Sound(World(boot, None, None, [], []))
  {}

  lemma LaunchSound(w: World, e: Event)
    requires Sound(w) && e.Launch?
    ensures Sound(Next(w, e))
  {}

  lemma TickSound(w: World, e: Event)
    requires Sound(w) && e.Tick?
    ensures Sound(Next(w, e))
  {
    if w.process.Some? && w.process.value.stage.Looping? && e.reloadedAt > ZERO_INSTANT {
      var p := Reload(w.process.value, e.stored, e.reloadedAt);
      if Step(p.config.detection, p.memory, e.now - p.started, e.snap).Ok? {
        StepKeepsReachable(p.config.detection, p.memory, e.now - p.started, e.snap);
        var actions := Step(p.config.detection, p.memory, e.now - p.started, e.snap).value.actions;
        assert [] + actions == actions;
      }
    }
  }

  lemma ActKeepsProcess(w: World, p: Process, r: Response)
    requires Sound(w) && w.process == Some(p) && p.stage.Acting? && p.stage.todo != []
    requires Acted(w, p, r).process.Some?
    ensures var q := Acted(w, p, r).process.value; GoodProcess(q) && Consistent(q) && Agrees(Acted(w, p, r), q)
  {
    var st := p.stage;
    assert st.finished + [st.todo[0]] + st.todo[1..] == st.finished + st.todo;
  }

  lemma ActKeepsPoweroff(w: World, p: Process, r: Response)
    requires Sound(w) && w.process == Some(p) && p.stage.Acting? && p.stage.todo != []
    requires Acted(w, p, r).process.Some?
    ensures PoweroffHappened(Acted(w, p, r), Acted(w, p, r).process.value)
  {
    var st := p.stage;
    assert Kinds(st.finished + [st.todo[0]]) == Kinds(st.finished) + [st.todo[0].kind];
    var effects := Execute(p.config, ProcessDeadlines(p), Outage(p), st.todo[0].kind, r).1;
    forall x | x in w.effects || x in effects ensures x in Acted(w, p, r).effects {}
    if st.todo[0].kind == HostPoweroffRequested {
      assert effects[0].HostPoweredOff? && effects[0] in effects;
    }
  }

  lemma ActSound(w: World, e: Event)
    requires Sound(w) && e.Act?
    ensures Sound(Next(w, e))
  {
    if w.process.Some? && w.process.value.stage.Acting? && w.process.value.stage.todo != [] {
      var p := w.process.value;
      if Acted(w, p, e.response).process.Some? {
        ActKeepsProcess(w, p, e.response);
        ActKeepsPoweroff(w, p, e.response);
      }
    }
  }

  lemma CutSound(w: World, e: Event)
    requires Sound(w) && e.Cut?
    ensures Sound(Next(w, e))
  {}

  lemma PersistSound(w: World, e: Event)
    requires Sound(w) && e.Persist?
    ensures Sound(Next(w, e))
  {}

  lemma NextSound(w: World, e: Event)
    requires Sound(w)
    ensures Sound(Next(w, e))
  {
    match e
    case Launch(_, _, _, _) => LaunchSound(w, e);
    case Tick(_, _, _, _) => TickSound(w, e);
    case Act(_) => ActSound(w, e);
    case Cut(_, _) => CutSound(w, e);
    case Persist(_) => PersistSound(w, e);
    case Crash =>
    case Reboot(_) =>
  }

  lemma {:induction false} RunSound(ws: seq<World>, events: seq<Event>, n: nat)
    requires IsRun(ws, events) && Sound(ws[0]) && n < |ws|
    ensures Sound(ws[n])
  {
    if n > 0 {
      RunSound(ws, events, n - 1);
      assert StepAt(ws, events, n - 1);
      NextSound(ws[n - 1], events[n - 1]);
    }
  }
}
