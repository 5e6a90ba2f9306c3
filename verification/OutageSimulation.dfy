/** The stored outage configuration and the dry run shown before it is armed. */
module OutageSimulation {
  import opened Common
  import opened PowerCore
  import opened PveReader
  import EngineHistory
  import ForceStop

  datatype Mode = DryRun | Production | OtherMode(text: string)

  datatype OutageConfig = OutageConfig(
    mode: Mode,
    revision: int,
    intervalSeconds: int,
    nutConfirmSeconds: int,
    networkConfirmSeconds: int,
    totalBudgetSeconds: int,
    emergencyReserveSeconds: int,
    recoveryCount: int,
    guestTimeoutSeconds: int)
  {
    function Detection(): Config {
      Config(intervalSeconds * SECOND, nutConfirmSeconds * SECOND, networkConfirmSeconds * SECOND,
             totalBudgetSeconds * SECOND, emergencyReserveSeconds * SECOND, recoveryCount)
    }

    predicate Valid() {
      && !mode.OtherMode? && 0 <= revision
      && 5 <= intervalSeconds <= 60
      && 5 <= nutConfirmSeconds <= 600
      && 5 <= networkConfirmSeconds <= 600
      && 60 <= totalBudgetSeconds <= 3600
      && 10 <= emergencyReserveSeconds <= 900
      && 1 <= recoveryCount <= 20
      && 10 <= guestTimeoutSeconds <= 3600
      && Detection().Valid()
    }
  }

  datatype Scenario = NutOnBattery | NetworkLoss | OtherScenario(text: string)

  datatype WouldRun = StopAll(timeout: int) | QmStop(vmid: int) | PctStop(vmid: int) | SystemctlPoweroff

  datatype PlanStep = PlanStep(atSeconds: int, kind: ActionKind, reason: Reason, wouldRun: seq<WouldRun>)

  datatype Plan = Plan(steps: seq<PlanStep>, finishedAt: int)

  datatype SimulateError = BadConfig | BadScenario

  function ForceCommand(g: Guest): WouldRun {
    if g.guestType == Lxc then PctStop(g.vmid) else QmStop(g.vmid)
  }

  /** A stop for each guest that still runs; templates are passed over. */
  function EmergencyCommands(guests: seq<Guest>): seq<WouldRun> {
    if guests == [] then []
    else
      var rest, g := EmergencyCommands(guests[..|guests| - 1]), guests[|guests| - 1];
      if g.template || g.Stopped() then rest else rest + [ForceCommand(g)]
  }

  function ToStep(c: OutageConfig, guests: seq<Guest>, a: Action): PlanStep {
    PlanStep(a.at / SECOND, a.kind, a.reason,
      match a.kind
      case GracefulShutdown => [StopAll(c.guestTimeoutSeconds)]
      case EmergencyStopRemaining => EmergencyCommands(guests)
      case HostPoweroffRequested => [SystemctlPoweroff]
      case _ => [])
  }

  function ToSteps(c: OutageConfig, guests: seq<Guest>, actions: seq<Action>): seq<PlanStep> {
    seq(|actions|, i requires 0 <= i < |actions| => ToStep(c, guests, actions[i]))
  }

  function SimulatedSnapshot(scenario: Scenario, guests: seq<Guest>): Snapshot {
    if scenario == NetworkLoss then Snapshot(UNREACHABLE, false, false, AllGuestsStopped(guests))
    else Snapshot(OB, true, true, AllGuestsStopped(guests))
  }

  // ----- the closed form -----

  function ConfirmSeconds(c: OutageConfig, scenario: Scenario): int {
    if scenario == NetworkLoss then c.networkConfirmSeconds else c.nutConfirmSeconds
  }

  /** The ticks of the graceful stop and of the emergency. */
  function GracefulTick(c: OutageConfig, scenario: Scenario): nat
    requires c.Valid()
  {
    CeilDiv(ConfirmSeconds(c, scenario), c.intervalSeconds)
  }

  function EmergencyTick(c: OutageConfig): nat
    requires c.Valid()
  {
    CeilDiv(c.totalBudgetSeconds - c.emergencyReserveSeconds, c.intervalSeconds)
  }

  function Announcement(scenario: Scenario): PlanStep {
    PlanStep(0, OutageCandidateStarted, if scenario == NetworkLoss then NetworkUnreachable else NutReported, [])
  }

  function GracefulStep(c: OutageConfig, scenario: Scenario, at: int): PlanStep {
    PlanStep(at, GracefulShutdown, if scenario == NetworkLoss then NetworkRemainedActive else NutRemainedActive,
             [StopAll(c.guestTimeoutSeconds)])
  }

  function EmergencySteps(guests: seq<Guest>, at: int): seq<PlanStep> {
    [PlanStep(at, EmergencyStopRemaining, ReserveReached, EmergencyCommands(guests)),
     PlanStep(at, HostPoweroffRequested, AfterEmergencyStop, [SystemctlPoweroff])]
  }

  /** The steps of the plan that are taken before tick k. */
  function StepsBefore(c: OutageConfig, scenario: Scenario, guests: seq<Guest>, k: nat): seq<PlanStep>
    requires c.Valid()
  {
    var g, e := GracefulTick(c, scenario), EmergencyTick(c);
    (if 0 < k then [Announcement(scenario)] else [])
    + (if g < k then [GracefulStep(c, scenario, g * c.intervalSeconds)] else [])
    + (if g < k && AllGuestsStopped(guests) then
         [PlanStep(g * c.intervalSeconds, HostPoweroffRequested, GuestsStoppedGracefully, [SystemctlPoweroff])]
       else if e < k && !AllGuestsStopped(guests) then EmergencySteps(guests, e * c.intervalSeconds)
       else [])
  }

  function TickCount(c: OutageConfig): nat
    requires c.Valid()
  {
    CeilDiv(c.totalBudgetSeconds + 1, c.intervalSeconds)
  }

  function LastTime(steps: seq<PlanStep>): int {
    if steps == [] then 0 else steps[|steps| - 1].atSeconds
  }

  /** The plan in closed form: candidate at once, the graceful stop at the first tick that reaches the
      confirmation time, then either the poweroff with it, or emergency stop and poweroff at the first tick
      that leaves only the reserve. Whatever lies beyond the budget is missing. */
  function ClosedForm(c: OutageConfig, scenario: Scenario, guests: seq<Guest>): Plan
    requires c.Valid()
  {
    var steps := StepsBefore(c, scenario, guests, TickCount(c));
    Plan(steps, LastTime(steps))
  }

  /** The plan announces one stop command for each guest that a real force-stop would take on, in the same order
      and of the guest's own kind, and none for any other. */
  lemma {:induction false} EmergencyCommandsAreTheForced(guests: seq<Guest>, i: nat)
    requires i < |ForceStop.Remaining(guests)|
    ensures |EmergencyCommands(guests)| == |ForceStop.Remaining(guests)|
    ensures var g := ForceStop.Remaining(guests)[i];
      EmergencyCommands(guests)[i] == if g.guestType == Lxc then PctStop(g.vmid) else QmStop(g.vmid)
  {
    SameLength(guests);
    var most, last := guests[..|guests| - 1], guests[|guests| - 1];
    SameLength(most);
    if i < |ForceStop.Remaining(most)| {
      EmergencyCommandsAreTheForced(most, i);
    }
  }

  lemma {:induction false} SameLength(guests: seq<Guest>)
    ensures |EmergencyCommands(guests)| == |ForceStop.Remaining(guests)|
  {
    if guests != [] {
      SameLength(guests[..|guests| - 1]);
    }
  }

  lemma AnnouncedFor(guests: seq<Guest>, command: WouldRun)
    ensures command in EmergencyCommands(guests) <==>
      exists g :: g in guests && !g.template && g.status != "stopped" && command == if g.guestType == Lxc then PctStop(g.vmid) else QmStop(g.vmid)
  {
    var forced := ForceStop.Remaining(guests);
    SameLength(guests);
    forall i: nat | i < |forced| ensures EmergencyCommands(guests)[i] == ForceCommand(forced[i]) {
      EmergencyCommandsAreTheForced(guests, i);
    }
    forall g ensures g in forced <==> g in guests && !g.template && !g.Stopped() {
      ForceStop.RemainingAreRunning(guests, g);
    }
    if g :| g in guests && !g.template && !g.Stopped() && command == ForceCommand(g) {
      assert g in forced;
      var i :| 0 <= i < |forced| && forced[i] == g;
      assert EmergencyCommands(guests)[i] == command;
    }
    if command in EmergencyCommands(guests) {
      var i :| 0 <= i < |forced| && EmergencyCommands(guests)[i] == command;
      assert forced[i] in forced;
    }
  }

  /** A guest's stop is announced iff some guest of that number and kind still runs and is no template; and nothing but
      such stops is announced. */
  lemma AnnouncedIffRunning(guests: seq<Guest>, vmid: int)
    ensures PctStop(vmid) in EmergencyCommands(guests) <==>
      exists g :: g in guests && g.vmid == vmid && g.guestType == Lxc && !g.template && g.status != "stopped"
    ensures QmStop(vmid) in EmergencyCommands(guests) <==>
      exists g :: g in guests && g.vmid == vmid && g.guestType != Lxc && !g.template && g.status != "stopped"
    ensures forall command :: command in EmergencyCommands(guests) ==> command.PctStop? || command.QmStop?
  {
    AnnouncedFor(guests, PctStop(vmid));
    AnnouncedFor(guests, QmStop(vmid));
    forall command | command in EmergencyCommands(guests) ensures command.PctStop? || command.QmStop? {
      AnnouncedFor(guests, command);
    }
  }

  /** The stored configurations that are accepted, and what the engine is given of one. */
  lemma AcceptedInFull(c: OutageConfig)
    ensures c.Valid() <==>
      && (c.mode == DryRun || c.mode == Production) && c.revision >= 0
      && 5 <= c.intervalSeconds <= 60 && 5 <= c.nutConfirmSeconds <= 600 && 5 <= c.networkConfirmSeconds <= 600
      && 60 <= c.totalBudgetSeconds <= 3600 && 10 <= c.emergencyReserveSeconds <= 900
      && 1 <= c.recoveryCount <= 20 && 10 <= c.guestTimeoutSeconds <= 3600
      && c.nutConfirmSeconds + c.emergencyReserveSeconds < c.totalBudgetSeconds
      && c.networkConfirmSeconds + c.emergencyReserveSeconds < c.totalBudgetSeconds
    ensures var d := c.Detection();
      && d.interval == c.intervalSeconds * 1_000_000_000 && d.recoveryCount == c.recoveryCount
      && d.nutConfirm == c.nutConfirmSeconds * 1_000_000_000 && d.networkConfirm == c.networkConfirmSeconds * 1_000_000_000
      && d.totalBudget == c.totalBudgetSeconds * 1_000_000_000 && d.emergencyReserve == c.emergencyReserveSeconds * 1_000_000_000
  {}

  // ----- the engine under constant loss -----

  function Watching(scenario: Scenario): Status {
    var nut, network := if scenario == NetworkLoss then None else Some(0), if scenario == NetworkLoss then Some(0) else None;
    Status(Confirming, Some(0), nut, network, 0, false, false, false)
  }

  function StatusBefore(c: OutageConfig, scenario: Scenario, k: nat): Status
    requires c.Valid()
  {
    if k == 0 then INITIAL_STATUS
    else if k <= GracefulTick(c, scenario) then Watching(scenario)
    else Watching(scenario).(state := ShuttingDown, graceful := true)
  }

  predicate PoweredOffAt(c: OutageConfig, scenario: Scenario, guests: seq<Guest>, k: nat)
    requires c.Valid()
  {
    if AllGuestsStopped(guests) then k == GracefulTick(c, scenario) else k == EmergencyTick(c)
  }

  function Time(c: OutageConfig, k: nat): int {
    k * c.intervalSeconds * SECOND
  }

  lemma TicksOrdered(c: OutageConfig, scenario: Scenario, k: nat)
    requires c.Valid()
    ensures 0 < GracefulTick(c, scenario) <= EmergencyTick(c)
    ensures k < GracefulTick(c, scenario) <==> Time(c, k) < ConfirmSeconds(c, scenario) * SECOND
    ensures k < EmergencyTick(c) <==> Time(c, k) < c.Detection().EmergencyAfter()
    ensures Time(c, k) / SECOND == k * c.intervalSeconds && Time(c, k) >= 0
    ensures k < TickCount(c) <==> Time(c, k) <= c.totalBudgetSeconds * SECOND
  {
    CeilDivIsLeast(ConfirmSeconds(c, scenario), c.intervalSeconds, k);
    CeilDivIsLeast(c.totalBudgetSeconds - c.emergencyReserveSeconds, c.intervalSeconds, k);
    CeilDivIsLeast(c.totalBudgetSeconds + 1, c.intervalSeconds, k);
    CeilDivIsLeast(ConfirmSeconds(c, scenario), c.intervalSeconds, 0);
    CeilDivIsLeast(ConfirmSeconds(c, scenario), c.intervalSeconds, EmergencyTick(c));
    CeilDivIsLeast(c.totalBudgetSeconds - c.emergencyReserveSeconds, c.intervalSeconds, EmergencyTick(c));
  }

  predicate BeforeEnd(c: OutageConfig, scenario: Scenario, guests: seq<Guest>, k: nat)
    requires c.Valid()
  {
    !scenario.OtherScenario? && k <= if AllGuestsStopped(guests) then GracefulTick(c, scenario) else EmergencyTick(c)
  }

  function TickActions(c: OutageConfig, scenario: Scenario, guests: seq<Guest>, k: nat): seq<Action>
    requires c.Valid()
  {
    var at := Time(c, k);
    EngineHistory.OneIf(k == 0, Action(at, OutageCandidateStarted, Announcement(scenario).reason))
    + EngineHistory.OneIf(k == GracefulTick(c, scenario), Action(at, GracefulShutdown, GracefulStep(c, scenario, 0).reason))
    + EngineHistory.FinalActions(PoweredOffAt(c, scenario, guests, k), at, SimulatedSnapshot(scenario, guests))
  }

  /** Which of the engine's conditions hold at tick k. */
  lemma ConstantLossConditions(c: OutageConfig, scenario: Scenario, guests: seq<Guest>, k: nat)
    requires c.Valid() && BeforeEnd(c, scenario, guests, k)
    ensures var d, st, at, s := c.Detection(), StatusBefore(c, scenario, k), Time(c, k), SimulatedSnapshot(scenario, guests);
      && (EngineHistory.Starts(st, s) <==> k == 0)
      && !EngineHistory.Cancels(d, st, s)
      && (EngineHistory.Confirms(d, st, at, s) <==> k == GracefulTick(c, scenario))
      && (k == GracefulTick(c, scenario) ==>
            Confirmation(d, EngineHistory.WithEvidence(st, at, s), at, s) == Some(GracefulStep(c, scenario, 0).reason))
      && (EngineHistory.Ends(d, st, at, s) <==> PoweredOffAt(c, scenario, guests, k))
  {
    TicksOrdered(c, scenario, k);
  }

  lemma ConstantLossActions(c: OutageConfig, scenario: Scenario, guests: seq<Guest>, k: nat)
    requires c.Valid() && BeforeEnd(c, scenario, guests, k)
    ensures React(c.Detection(), StatusBefore(c, scenario, k), Time(c, k), SimulatedSnapshot(scenario, guests)).1 ==
      TickActions(c, scenario, guests, k)
  {
    ConstantLossConditions(c, scenario, guests, k);
    EngineHistory.ReactActions(c.Detection(), StatusBefore(c, scenario, k), Time(c, k), SimulatedSnapshot(scenario, guests));
  }

  lemma ConstantLossStatus(c: OutageConfig, scenario: Scenario, guests: seq<Guest>, k: nat)
    requires c.Valid() && BeforeEnd(c, scenario, guests, k)
    ensures var st := React(c.Detection(), StatusBefore(c, scenario, k), Time(c, k), SimulatedSnapshot(scenario, guests)).0;
      && (st.state == PoweredOff <==> PoweredOffAt(c, scenario, guests, k))
      && (st.state != PoweredOff ==> st == StatusBefore(c, scenario, k + 1))
  {
    TicksOrdered(c, scenario, k);
  }

  lemma StepsGrow(c: OutageConfig, scenario: Scenario, guests: seq<Guest>, k: nat)
    requires c.Valid() && BeforeEnd(c, scenario, guests, k)
    ensures StepsBefore(c, scenario, guests, k) + ToSteps(c, guests, TickActions(c, scenario, guests, k)) ==
      StepsBefore(c, scenario, guests, k + 1)
  {
    TicksOrdered(c, scenario, k);
    var at := Time(c, k);
    var first := EngineHistory.OneIf(k == 0, Action(at, OutageCandidateStarted, Announcement(scenario).reason));
    var second := EngineHistory.OneIf(k == GracefulTick(c, scenario), Action(at, GracefulShutdown, GracefulStep(c, scenario, 0).reason));
    var last := EngineHistory.FinalActions(PoweredOffAt(c, scenario, guests, k), at, SimulatedSnapshot(scenario, guests));
    ToStepsConcat(c, guests, first, second);
    ToStepsConcat(c, guests, first + second, last);
    FinalSteps(c, scenario, guests, k);
  }

  lemma FinalSteps(c: OutageConfig, scenario: Scenario, guests: seq<Guest>, k: nat)
    requires c.Valid()
    ensures ToSteps(c, guests, EngineHistory.FinalActions(PoweredOffAt(c, scenario, guests, k), Time(c, k), SimulatedSnapshot(scenario, guests))) ==
      if !PoweredOffAt(c, scenario, guests, k) then []
      else if AllGuestsStopped(guests) then [PlanStep(k * c.intervalSeconds, HostPoweroffRequested, GuestsStoppedGracefully, [SystemctlPoweroff])]
      else EmergencySteps(guests, k * c.intervalSeconds)
  {
    TicksOrdered(c, scenario, k);
  }

  lemma ToStepsConcat(c: OutageConfig, guests: seq<Guest>, a: seq<Action>, b: seq<Action>)
    ensures ToSteps(c, guests, a + b) == ToSteps(c, guests, a) + ToSteps(c, guests, b)
  {}

  // ----- the program -----

  method EmergencyCommandList(guests: seq<Guest>) returns (commands: seq<WouldRun>)
    ensures commands == EmergencyCommands(guests)
  {
    commands := [];
    for i := 0 to |guests|
      invariant commands == EmergencyCommands(guests[..i])
    {
      assert guests[..i + 1][..i] == guests[..i];
      if !guests[i].template && guests[i].status != "stopped" {
        commands := commands + [ForceCommand(guests[i])];
      }
    }
    assert guests[..|guests|] == guests;
  }

  method AppendSteps(config: OutageConfig, guests: seq<Guest>, steps: seq<PlanStep>, finishedAt: int, actions: seq<Action>)
    returns (steps': seq<PlanStep>, finishedAt': int)
    requires finishedAt == LastTime(steps)
    ensures steps' == steps + ToSteps(config, guests, actions) && finishedAt' == LastTime(steps')
  {
    steps', finishedAt' := steps, finishedAt;
    for i := 0 to |actions|
      invariant steps' == steps + ToSteps(config, guests, actions[..i]) && finishedAt' == LastTime(steps')
    {
      var action := actions[i];
      var wouldRun: seq<WouldRun> := [];
      match action.kind {
        case GracefulShutdown => wouldRun := [StopAll(config.guestTimeoutSeconds)];
        case EmergencyStopRemaining => wouldRun := EmergencyCommandList(guests);
        case HostPoweroffRequested => wouldRun := [SystemctlPoweroff];
        case _ =>
      }
      var step := PlanStep(action.at / SECOND, action.kind, action.reason, wouldRun);
      assert step == ToStep(config, guests, action);
      steps' := steps' + [step];
      finishedAt' := step.atSeconds;
    }
    assert actions[..|actions|] == actions;
  }

  /** Once the host is off nothing is added. */
  lemma StepsStayAfterEnd(c: OutageConfig, scenario: Scenario, guests: seq<Guest>, k: nat, n: nat)
    requires c.Valid() && PoweredOffAt(c, scenario, guests, k) && k < n
    ensures StepsBefore(c, scenario, guests, k + 1) == StepsBefore(c, scenario, guests, n)
  {
    TicksOrdered(c, scenario, k);
  }

  function LastBefore(c: OutageConfig, k: nat): Option<int> {
    if k == 0 then None else Some(Time(c, k - 1))
  }

  ghost predicate Stands(c: OutageConfig, scenario: Scenario, guests: seq<Guest>, engine: Engine, plan: Plan, k: nat)
    requires c.Valid()
    reads engine
  {
    && BeforeEnd(c, scenario, guests, k)
    && engine.config == c.Detection() && engine.Remembers() == Memory(StatusBefore(c, scenario, k), LastBefore(c, k))
    && plan.steps == StepsBefore(c, scenario, guests, k) && plan.finishedAt == LastTime(plan.steps)
  }

  lemma GridAccepts(c: OutageConfig, scenario: Scenario, k: nat)
    requires c.Valid()
    ensures TimeError(LastBefore(c, k), Time(c, k)).None?
  {
    TicksOrdered(c, scenario, k);
    assert k > 0 ==> Time(c, k - 1) == Time(c, k) - c.intervalSeconds * SECOND;
  }

  lemma StaysBeforeEnd(c: OutageConfig, scenario: Scenario, guests: seq<Guest>, k: nat)
    requires c.Valid() && BeforeEnd(c, scenario, guests, k)
    ensures !PoweredOffAt(c, scenario, guests, k) ==> BeforeEnd(c, scenario, guests, k + 1)
  {}

  /** What the engine's step at tick k of the grid does. */
  lemma TickStep(c: OutageConfig, scenario: Scenario, guests: seq<Guest>, k: nat)
    requires c.Valid() && BeforeEnd(c, scenario, guests, k)
    ensures var m := Memory(StatusBefore(c, scenario, k), LastBefore(c, k));
      var r := Step(c.Detection(), m, Time(c, k), SimulatedSnapshot(scenario, guests));
      && r.Ok? && r.value.actions == TickActions(c, scenario, guests, k)
      && r.value.memory.lastAt == LastBefore(c, k + 1)
      && (r.value.memory.status.state == PoweredOff <==> PoweredOffAt(c, scenario, guests, k))
      && (!PoweredOffAt(c, scenario, guests, k) ==> r.value.memory.status == StatusBefore(c, scenario, k + 1))
  {
    GridAccepts(c, scenario, k);
    ConstantLossActions(c, scenario, guests, k);
    ConstantLossStatus(c, scenario, guests, k);
  }

  /** One tick: sample, and turn the actions into steps. No tick of the grid is refused. */
  method SimulateTick(c: OutageConfig, scenario: Scenario, guests: seq<Guest>, engine: Engine, plan: Plan, at: int, snapshot: Snapshot, ghost k: nat)
    returns (plan': Plan)
    requires c.Valid() && at == Time(c, k) && snapshot == SimulatedSnapshot(scenario, guests)
    requires Stands(c, scenario, guests, engine, plan, k)
    modifies engine
    ensures engine.status.state == PoweredOff <==> PoweredOffAt(c, scenario, guests, k)
    ensures PoweredOffAt(c, scenario, guests, k) ==>
      plan'.steps == StepsBefore(c, scenario, guests, k + 1) && plan'.finishedAt == LastTime(plan'.steps)
    ensures !PoweredOffAt(c, scenario, guests, k) ==> Stands(c, scenario, guests, engine, plan', k + 1)
  {
    TickStep(c, scenario, guests, k);
    StepsGrow(c, scenario, guests, k);
    StaysBeforeEnd(c, scenario, guests, k);
    var sampled := engine.Sample(at, snapshot);
    var steps, finishedAt := AppendSteps(c, guests, plan.steps, plan.finishedAt, sampled.value);
    return Plan(steps, finishedAt);
  }

  lemma GridTime(c: OutageConfig, scenario: Scenario, k: nat)
    requires c.Valid()
    ensures Time(c, 0) == 0 && Time(c, k + 1) == Time(c, k) + c.intervalSeconds * SECOND
    ensures k < TickCount(c) <==> Time(c, k) <= c.totalBudgetSeconds * SECOND
  {
    WithinGrid(c, k);
    assert (k + 1) * c.intervalSeconds == k * c.intervalSeconds + c.intervalSeconds;
  }

  method RunGrid(c: OutageConfig, scenario: Scenario, guests: seq<Guest>, engine: Engine) returns (plan: Plan)
    requires c.Valid() && !scenario.OtherScenario? && engine.config == c.Detection() && engine.Remembers() == INITIAL
    modifies engine
    ensures plan == ClosedForm(c, scenario, guests)
  {
    plan := Plan([], 0);
    var at := 0;
    ghost var k: nat := 0;
    GridTime(c, scenario, 0);
    while at <= c.totalBudgetSeconds * SECOND
      invariant at == Time(c, k) && k <= TickCount(c) && Stands(c, scenario, guests, engine, plan, k)
      decreases c.totalBudgetSeconds * SECOND - at
    {
      GridTime(c, scenario, k);
      plan := SimulateTick(c, scenario, guests, engine, plan, at, SimulatedSnapshot(scenario, guests), k);
      if engine.status.state == PoweredOff {
        StepsStayAfterEnd(c, scenario, guests, k, TickCount(c));
        return;
      }
      at := at + c.intervalSeconds * SECOND;
      k := k + 1;
    }
    GridTime(c, scenario, k);
  }

  /** Steps the engine over the grid of intervals up to the budget. The result is the closed form. */
  method Simulate(config: OutageConfig, scenario: Scenario, guests: seq<Guest>) returns (r: Result<Plan, SimulateError>)
    ensures !config.Valid() ==> r == Err(BadConfig)
    ensures config.Valid() && scenario.OtherScenario? ==> r == Err(BadScenario)
    ensures config.Valid() && !scenario.OtherScenario? ==> r == Ok(ClosedForm(config, scenario, guests))
  {
    if !config.Valid() {
      return Err(BadConfig);
    }
    if scenario != NutOnBattery && scenario != NetworkLoss {
      return Err(BadScenario);
    }
    var made := NewEngine(config.Detection());
    var plan := RunGrid(config, scenario, guests, made.value);
    return Ok(plan);
  }

  // ----- whether the plan is complete -----

  ghost predicate Completes(p: Plan) {
    exists step :: step in p.steps && step.kind == HostPoweroffRequested
  }

  /** The plan powers the host off iff the tick that would do so lies within the budget. */
  lemma CompletesIffWithinBudget(c: OutageConfig, scenario: Scenario, guests: seq<Guest>)
    requires c.Valid()
    ensures Completes(ClosedForm(c, scenario, guests)) <==>
      c.intervalSeconds * (if AllGuestsStopped(guests) then GracefulTick(c, scenario) else EmergencyTick(c)) <= c.totalBudgetSeconds
  {
    var g, e := GracefulTick(c, scenario), EmergencyTick(c);
    WithinGrid(c, g);
    WithinGrid(c, e);
    ClosedFormEnds(c, scenario, guests);
  }

  lemma WithinGrid(c: OutageConfig, k: nat)
    requires c.Valid()
    ensures k < TickCount(c) <==> c.intervalSeconds * k <= c.totalBudgetSeconds
  {
    CeilDivIsLeast(c.totalBudgetSeconds + 1, c.intervalSeconds, k);
  }

  lemma ClosedFormEnds(c: OutageConfig, scenario: Scenario, guests: seq<Guest>)
    requires c.Valid()
    ensures Completes(ClosedForm(c, scenario, guests)) <==>
      (if AllGuestsStopped(guests) then GracefulTick(c, scenario) else EmergencyTick(c)) < TickCount(c)
  {
    var g, e := GracefulTick(c, scenario), EmergencyTick(c);
    TicksOrdered(c, scenario, 0);
    var steps := ClosedForm(c, scenario, guests).steps;
    if AllGuestsStopped(guests) && g < TickCount(c) {
      assert steps[2].kind == HostPoweroffRequested && steps[2] in steps;
    } else if !AllGuestsStopped(guests) && e < TickCount(c) {
      assert steps[3].kind == HostPoweroffRequested && steps[3] in steps;
    }
  }

  /** A reserve of at least one interval is enough: the plan then always ends with the poweroff, in budget. */
  lemma ReserveOfOneIntervalCompletes(c: OutageConfig, scenario: Scenario, guests: seq<Guest>)
    requires c.Valid() && c.intervalSeconds <= c.emergencyReserveSeconds
    ensures var p := ClosedForm(c, scenario, guests);
      Completes(p) && p.finishedAt <= c.totalBudgetSeconds && p.steps[|p.steps| - 1].kind == HostPoweroffRequested
  {
    var g, e := GracefulTick(c, scenario), EmergencyTick(c);
    TicksOrdered(c, scenario, g);
    assert g * c.intervalSeconds <= e * c.intervalSeconds < c.totalBudgetSeconds;
    TicksOrdered(c, scenario, e);
    CompletesIffWithinBudget(c, scenario, guests);
  }

  /** A valid configuration with a reserve below the interval, whose plan never powers the host off. */
  lemma PlanCutShort()
    ensures var c := OutageConfig(Production, 0, 60, 30, 30, 100, 10, 3, 45);
      c.Valid() && !Completes(ClosedForm(c, NutOnBattery, [Guest(100, Vm, "running", "node", false)]))
  {
    var c := OutageConfig(Production, 0, 60, 30, 30, 100, 10, 3, 45);
    var guests := [Guest(100, Vm, "running", "node", false)];
    assert guests[0] in guests;
    CompletesIffWithinBudget(c, NutOnBattery, guests);
  }
}
