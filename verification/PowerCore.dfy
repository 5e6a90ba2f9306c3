/** The outage detector: a timed state machine that never executes host commands.
    `Step` gives one sample's effect as a function of values; class `Engine` is the object whose
    fields the program updates in place, proved to follow `Step`. */
module PowerCore {
  import opened Common

  datatype NutStatus = OL | OB | LB | UNREACHABLE | OtherNut(text: string) {
    predicate IsPowerLoss() {
      OB? || LB?
    }
  }

  datatype Snapshot = Snapshot(nut: NutStatus, lan: bool, wan: bool, allGuestsStopped: bool) {
    /** The UPS itself reports that mains power is gone. */
    predicate NutLoss() {
      nut.IsPowerLoss()
    }

    /** Nothing on the network answers any more. */
    predicate NetworkLoss() {
      nut == UNREACHABLE && !lan && !wan
    }

    predicate Loss() {
      NutLoss() || NetworkLoss()
    }
  }

  // The program's states are strings, and a restored status may hold any text.
  datatype State = Normal | Confirming | ShuttingDown | PoweredOff | OtherState(text: string)

  datatype ActionKind =
    | OutageCandidateStarted
    | OutageCancelled
    | GracefulShutdown
    | EmergencyStopRemaining
    | HostPoweroffRequested

  datatype Reason =
    | NutReported
    | NetworkUnreachable
    | RecoveryConfirmed
    | NutRemainedActive
    | NetworkRemainedActive
    | GuestsStoppedGracefully
    | ReserveReached
    | AfterEmergencyStop

  datatype Action = Action(at: int, kind: ActionKind, reason: Reason)

  datatype Status = Status(
    state: State,
    outageAt: Option<int>,
    nutAt: Option<int>,
    networkAt: Option<int>,
    recovery: int,
    graceful: bool,
    emergency: bool,
    poweroff: bool)

  const INITIAL_STATUS := Status(Normal, None, None, None, 0, false, false, false)

  datatype ConfigError =
    | BadInterval
    | BadNutConfirm
    | BadNetworkConfirm
    | BadTotalBudget
    | BadEmergencyReserve
    | BudgetWithinReserve
    | NutConfirmTooLong
    | NetworkConfirmTooLong
    | BadRecoveryCount

  datatype Config = Config(
    interval: int,
    nutConfirm: int,
    networkConfirm: int,
    totalBudget: int,
    emergencyReserve: int,
    recoveryCount: int)
  {
    /** The inequality that an error names is one that the configuration breaks. */
    predicate Breaks(e: ConfigError) {
      match e
      case BadInterval => interval <= 0
      case BadNutConfirm => nutConfirm <= 0
      case BadNetworkConfirm => networkConfirm <= 0
      case BadTotalBudget => totalBudget <= 0
      case BadEmergencyReserve => emergencyReserve <= 0
      case BudgetWithinReserve => 0 < totalBudget <= emergencyReserve
      case NutConfirmTooLong => 0 < totalBudget <= nutConfirm + emergencyReserve
      case NetworkConfirmTooLong => 0 < totalBudget <= networkConfirm + emergencyReserve
      case BadRecoveryCount => recoveryCount <= 0
    }

    /** The first inequality the configuration breaks, in the order the program tests them. */
    function Validate(): (error: Option<ConfigError>)
      ensures error == None <==>
        && 0 < interval && 0 < recoveryCount
        && 0 < nutConfirm < totalBudget - emergencyReserve
        && 0 < networkConfirm < totalBudget - emergencyReserve
        && 0 < emergencyReserve < totalBudget
      ensures error.Some? ==> Breaks(error.value)
    {
      if interval <= 0 then Some(BadInterval)
      else if nutConfirm <= 0 then Some(BadNutConfirm)
      else if networkConfirm <= 0 then Some(BadNetworkConfirm)
      else if totalBudget <= 0 then Some(BadTotalBudget)
      else if emergencyReserve <= 0 then Some(BadEmergencyReserve)
      else if totalBudget <= emergencyReserve then Some(BudgetWithinReserve)
      else if totalBudget - emergencyReserve <= nutConfirm then Some(NutConfirmTooLong)
      else if totalBudget - emergencyReserve <= networkConfirm then Some(NetworkConfirmTooLong)
      else if recoveryCount <= 0 then Some(BadRecoveryCount)
      else None
    }

    predicate Valid() {
      Validate() == None
    }

    /** How long after its start an outage leaves only the emergency reserve. */
    function EmergencyAfter(): int {
      totalBudget - emergencyReserve
    }
  }

  /** All that an engine remembers between samples. */
  datatype Memory = Memory(status: Status, lastAt: Option<int>)

  const INITIAL := Memory(INITIAL_STATUS, None)

  datatype EngineError = NegativeTime | NotLater | InvalidConfig(config: ConfigError) | EmptyState

  datatype Outcome = Outcome(memory: Memory, actions: seq<Action>)

  /** A sample is accepted iff its time is non-negative and later than the last accepted one. */
  function TimeError(lastAt: Option<int>, at: int): Option<EngineError> {
    if at < 0 then Some(NegativeTime)
    else if lastAt.Some? && at <= lastAt.value then Some(NotLater)
    else None
  }

  function Step(c: Config, m: Memory, at: int, s: Snapshot): Result<Outcome, EngineError> {
    if TimeError(m.lastAt, at).Some? then Err(TimeError(m.lastAt, at).value)
    else
      var (status, actions) := React(c, m.status, at, s);
      Ok(Outcome(Memory(status, Some(at)), actions))
  }

  function React(c: Config, st: Status, at: int, s: Snapshot): (Status, seq<Action>) {
    if st.state == PoweredOff then (st, [])
    else if st.state == ShuttingDown then Progress(c, st, at, s)
    else if s.Loss() then
      var (started, announced) := OpenCandidate(st, at, s);
      var (decided, requested) := Confirm(c, TrackEvidence(started, at, s), at, s);
      (decided, announced + requested)
    else Recover(c, st, at)
  }

  function OpenCandidate(st: Status, at: int, s: Snapshot): (Status, seq<Action>) {
    if st.outageAt.Some? then (st, [])
    else
      (st.(outageAt := Some(at), state := Confirming),
       [Action(at, OutageCandidateStarted, if s.NutLoss() then NutReported else NetworkUnreachable)])
  }

  /** Network evidence keeps an earlier UPS timer alive; UPS evidence drops the network timer. */
  function TrackEvidence(st: Status, at: int, s: Snapshot): Status {
    if s.NutLoss() then
      st.(nutAt := if st.nutAt.None? then Some(at) else st.nutAt, networkAt := None, recovery := 0)
    else
      st.(networkAt := if st.networkAt.None? then Some(at) else st.networkAt, recovery := 0)
  }

  /** A completed confirmation time starts the shutdown, which may finish in the same sample. */
  function Confirm(c: Config, st: Status, at: int, s: Snapshot): (Status, seq<Action>) {
    var confirmation := Confirmation(c, st, at, s);
    if confirmation.None? then (st, [])
    else
      var (stopped, requested) := Progress(c, st.(state := ShuttingDown, graceful := true), at, s);
      (stopped, [Action(at, GracefulShutdown, confirmation.value)] + requested)
  }

  function Confirmation(c: Config, st: Status, at: int, s: Snapshot): Option<Reason> {
    if st.nutAt.Some? && s.Loss() && at - st.nutAt.value >= c.nutConfirm then Some(NutRemainedActive)
    else if st.networkAt.Some? && s.NetworkLoss() && at - st.networkAt.value >= c.networkConfirm then
      Some(NetworkRemainedActive)
    else None
  }

  /** A healthy sample drops both timers; enough of them in a row drop the candidate. */
  function Recover(c: Config, st: Status, at: int): (Status, seq<Action>) {
    var quiet := st.(nutAt := None, networkAt := None);
    if st.outageAt.None? then (quiet.(state := Normal), [])
    else if st.recovery + 1 < c.recoveryCount then (quiet.(recovery := st.recovery + 1), [])
    else
      (quiet.(state := Normal, outageAt := None, recovery := 0),
       [Action(at, OutageCancelled, RecoveryConfirmed)])
  }

  function Progress(c: Config, st: Status, at: int, s: Snapshot): (Status, seq<Action>) {
    if st.poweroff then (st, [])
    else if s.allGuestsStopped then
      (st.(poweroff := true, state := PoweredOff),
       [Action(at, HostPoweroffRequested, GuestsStoppedGracefully)])
    else if st.outageAt.None? || at < st.outageAt.value + c.EmergencyAfter() then (st, [])
    else
      (st.(emergency := true, poweroff := true, state := PoweredOff),
       (if st.emergency then [] else [Action(at, EmergencyStopRemaining, ReserveReached)])
       + [Action(at, HostPoweroffRequested, AfterEmergencyStop)])
  }

  /** What every status an engine reaches from its initial one satisfies. */
  predicate Reachable(c: Config, st: Status) {
    && !st.state.OtherState?
    && (st.outageAt.None? <==> st.state == Normal)
    && (st.state == Normal ==> st.nutAt.None? && st.networkAt.None? && st.recovery == 0)
    && (st.state == Confirming ==> 0 <= st.recovery < c.recoveryCount)
    && (st.graceful <==> st.state in {ShuttingDown, PoweredOff})
    && (st.poweroff <==> st.state == PoweredOff)
    && (st.emergency ==> st.poweroff)
  }

  /** Every accepted sample keeps `Reachable`, and moves the engine only forward:
      the detection states, then shutting down, then powered off for good. */
  lemma StepKeepsReachable(c: Config, m: Memory, at: int, s: Snapshot)
    requires c.Valid() && Reachable(c, m.status) && Step(c, m, at, s).Ok?
    ensures var next := Step(c, m, at, s).value.memory;
      && Reachable(c, next.status) && next.lastAt == Some(at)
      && (m.status.graceful ==> next.status.graceful && next.status.outageAt == m.status.outageAt)
      && (m.status.poweroff ==> next.status == m.status)
  {}

  class Engine {
    const config: Config
    var status: Status
    var lastAt: Option<int>

    constructor Make(config: Config, status: Status, lastAt: Option<int>)
      ensures this.config == config && Remembers() == Memory(status, lastAt)
    {
      this.config := config;
      this.status := status;
      this.lastAt := lastAt;
    }

    function Remembers(): Memory
      reads this
    {
      Memory(status, lastAt)
    }

    /** Takes one sample. An ill-timed sample is refused and changes nothing. */
    method Sample(at: int, snapshot: Snapshot) returns (r: Result<seq<Action>, EngineError>)
      modifies this
      ensures match Step(config, old(Remembers()), at, snapshot)
        case Ok(next) => Remembers() == next.memory && r == Ok(next.actions)
        case Err(e) => Remembers() == old(Remembers()) && r == Err(e)
    {
      if at < 0 {
        return Err(NegativeTime);
      }
      if lastAt.Some? && at <= lastAt.value {
        return Err(NotLater);
      }
      lastAt := Some(at);

      if status.state == PoweredOff {
        return Ok([]);
      }
      if status.state == ShuttingDown {
        var progressed := ProgressShutdown(at, snapshot);
        return Ok(progressed);
      }
      var detected := Detect(at, snapshot);
      return Ok(detected);
    }

    /** The part of a sample that looks for an outage, before any shutdown has begun. */
    method Detect(at: int, snapshot: Snapshot) returns (actions: seq<Action>)
      requires status.state != PoweredOff && status.state != ShuttingDown
      modifies this`status
      ensures (status, actions) == React(config, old(status), at, snapshot)
    {
      var nutEvidence := snapshot.nut.IsPowerLoss();
      var networkEvidence := snapshot.nut == UNREACHABLE && !snapshot.lan && !snapshot.wan;

      actions := [];
      if status.outageAt.None? && (nutEvidence || networkEvidence) {
        status := status.(outageAt := Some(at), state := Confirming);
        actions := [Action(at, OutageCandidateStarted, if nutEvidence then NutReported else NetworkUnreachable)];
      }

      if nutEvidence || networkEvidence {
        NoteEvidence(at, nutEvidence);
      } else {
        var cancelled := NoteHealthy();
        if cancelled {
          actions := [Action(at, OutageCancelled, RecoveryConfirmed)];
          return actions;
        }
      }

      if status.outageAt.None? {
        status := status.(state := Normal);
        return actions;
      }
      var requested := ConfirmOutage(at, snapshot);
      actions := actions + requested;
      assert actions == React(config, old(status), at, snapshot).1;
    }

    method NoteEvidence(at: int, nutEvidence: bool)
      modifies this`status
      ensures forall s: Snapshot :: s.NutLoss() == nutEvidence ==> status == TrackEvidence(old(status), at, s)
    {
      if nutEvidence {
        if status.nutAt.None? {
          status := status.(nutAt := Some(at));
        }
        status := status.(networkAt := None);
      } else if status.networkAt.None? {
        status := status.(networkAt := Some(at));
      }
      status := status.(recovery := 0);
    }

    /** Drops the timers and, after enough healthy samples in a row, the candidate. */
    method NoteHealthy() returns (cancelled: bool)
      modifies this`status
      ensures cancelled <==> old(status.outageAt).Some? && old(status.recovery) + 1 >= config.recoveryCount
      ensures var quiet := old(status).(nutAt := None, networkAt := None);
        status == if cancelled then quiet.(state := Normal, outageAt := None, recovery := 0)
                  else if quiet.outageAt.Some? then quiet.(recovery := quiet.recovery + 1)
                  else quiet
    {
      status := status.(nutAt := None, networkAt := None);
      if status.outageAt.Some? {
        status := status.(recovery := status.recovery + 1);
        if status.recovery >= config.recoveryCount {
          ResetCandidate();
          return true;
        }
      }
      return false;
    }

    /** Starts the shutdown once a confirmation time is complete. */
    method ConfirmOutage(at: int, snapshot: Snapshot) returns (actions: seq<Action>)
      modifies this`status
      ensures (status, actions) == Confirm(config, old(status), at, snapshot)
    {
      var nutEvidence := snapshot.nut.IsPowerLoss();
      var networkEvidence := snapshot.nut == UNREACHABLE && !snapshot.lan && !snapshot.wan;
      var nutConfirmed := status.nutAt.Some? && (nutEvidence || networkEvidence)
                          && at - status.nutAt.value >= config.nutConfirm;
      var networkConfirmed := status.networkAt.Some? && networkEvidence
                              && at - status.networkAt.value >= config.networkConfirm;
      if !nutConfirmed && !networkConfirmed {
        return [];
      }
      status := status.(state := ShuttingDown, graceful := true);
      var reason := if nutConfirmed then NutRemainedActive else NetworkRemainedActive;
      var progressed := ProgressShutdown(at, snapshot);
      return [Action(at, GracefulShutdown, reason)] + progressed;
    }

    method ProgressShutdown(at: int, snapshot: Snapshot) returns (actions: seq<Action>)
      modifies this`status
      ensures (status, actions) == Progress(config, old(status), at, snapshot)
    {
      if status.poweroff {
        return [];
      }
      if snapshot.allGuestsStopped {
        status := status.(poweroff := true);
        status := status.(state := PoweredOff);
        return [Action(at, HostPoweroffRequested, GuestsStoppedGracefully)];
      }
      if status.outageAt.None? {
        return [];
      }
      var emergencyAt := status.outageAt.value + config.totalBudget - config.emergencyReserve;
      if at < emergencyAt {
        return [];
      }
      actions := [];
      if !status.emergency {
        status := status.(emergency := true);
        actions := actions + [Action(at, EmergencyStopRemaining, ReserveReached)];
      }
      status := status.(poweroff := true);
      status := status.(state := PoweredOff);
      actions := actions + [Action(at, HostPoweroffRequested, AfterEmergencyStop)];
      assert actions == Progress(config, old(status), at, snapshot).1;
    }

    /** A candidate that is given up leaves nothing behind: the status is a new engine's. */
    method ResetCandidate()
      modifies this`status
      ensures Reachable(config, old(status)) && old(status).state == Confirming ==> status == INITIAL_STATUS
      ensures status == old(status).(state := Normal, outageAt := None, nutAt := None, networkAt := None, recovery := 0)
    {
      status := status.(state := Normal);
      status := status.(outageAt := None);
      status := status.(nutAt := None);
      status := status.(networkAt := None);
      status := status.(recovery := 0);
    }
  }

  method NewEngine(config: Config) returns (r: Result<Engine, EngineError>)
    ensures r.Ok? <==> config.Valid()
    ensures r.Ok? ==> fresh(r.value) && r.value.config == config && r.value.Remembers() == INITIAL
    ensures r.Err? ==> r.error == InvalidConfig(config.Validate().value)
  {
    var invalid := config.Validate();
    if invalid.Some? {
      return Err(InvalidConfig(invalid.value));
    }
    var engine := new Engine.Make(config, INITIAL_STATUS, None);
    return Ok(engine);
  }

  /** An engine that continues where another one stopped. Only an empty state is refused. */
  function RestoreError(config: Config, status: Status): Option<EngineError> {
    if config.Validate().Some? then Some(InvalidConfig(config.Validate().value))
    else if status.state == OtherState("") then Some(EmptyState)
    else None
  }

  method RestoreEngine(config: Config, status: Status, lastAt: Option<int>) returns (r: Result<Engine, EngineError>)
    ensures match RestoreError(config, status)
      case Some(e) => r == Err(e)
      case None => r.Ok? && fresh(r.value) && r.value.config == config && r.value.Remembers() == Memory(status, lastAt)
  {
    var invalid := config.Validate();
    if invalid.Some? {
      return Err(InvalidConfig(invalid.value));
    }
    if status.state == OtherState("") {
      return Err(EmptyState);
    }
    var engine := new Engine.Make(config, status, lastAt);
    return Ok(engine);
  }
}
