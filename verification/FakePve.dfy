/** The in-memory stand-in for a PVE host: it only records the commands a real executor would run. */
module FakePve {
  import opened Common
  import opened ShutdownOrder

  datatype GuestKind = Vm | Lxc | OtherKind(text: string)
  datatype AgentProbe = ProbeUnset | ProbeSuccess | ProbeFailure | ProbeTimeout | ProbeDisabled | ProbeNotRelevant | OtherProbe(text: string)
  datatype GracefulResult = GracefulUnset | GracefulStops | GracefulStuck | GracefulFails | OtherGraceful(text: string)
  datatype ForceResult = ForceUnset | ForceStops | ForceFails | OtherForce(text: string)
  datatype CommandResult = ResultUnset | Success | Failure | Blocked | OtherResult(text: string)
  datatype GuestState = Running | Stopping | Stopped

  datatype Guest = Guest(
    id: int,
    name: string,
    kind: GuestKind,
    order: int,
    agentEnabled: bool,
    agentProbe: AgentProbe,
    graceful: GracefulResult,
    delaySeconds: int,
    force: ForceResult)

  datatype PveConfig = PveConfig(
    stopAll: CommandResult,
    stopAllTimeout: int,
    poweroff: CommandResult,
    guests: seq<Guest>)

  datatype EventKind = AgentTested | StopAllIssued | ShutdownRequested | GuestStopped | GuestForced | PoweroffIssued

  datatype Means = NoMeans | Acpi | GuestAgent | LxcShutdown | ForceStop

  datatype Command = NoCommand | PveNodeStopAll(timeout: int) | QmStop(id: int) | PctStop(id: int) | AgentPing(id: int) | SystemctlPoweroff

  datatype Event = Event(
    at: int,
    kind: EventKind,
    guestId: int,
    means: Means,
    command: Command,
    outcome: CommandResult,
    probe: AgentProbe)

  datatype AgentReport = AgentReport(at: int, probe: AgentProbe)

  datatype GuestRuntime = GuestRuntime(spec: Guest, state: GuestState, stopDue: Option<int>, lastTest: Option<AgentReport>) {
    predicate Due(at: int) {
      state == Stopping && stopDue.Some? && stopDue.value <= at
    }

    function StopKey(): Key
      requires stopDue.Some?
    {
      Key(stopDue.value, spec.order, spec.id)
    }
  }

  /** The value of an executor. */
  datatype Pve = Pve(config: PveConfig, guests: seq<GuestRuntime>, events: seq<Event>, gracefulStarted: bool) {
    predicate AllStopped() {
      forall g :: g in guests ==> g.state == Stopped
    }
  }

  // ----- configuration -----

  datatype PveError = UnknownStopAllResult | UnknownPoweroffResult | BadTimeout | BadGuest(index: nat) | DuplicateId(id: int)

  function WithDefaults(c: PveConfig): PveConfig {
    c.(stopAll := if c.stopAll == ResultUnset then Success else c.stopAll,
       stopAllTimeout := if c.stopAllTimeout == 0 then 180 else c.stopAllTimeout,
       poweroff := if c.poweroff == ResultUnset then Success else c.poweroff)
  }

  function NormalGuest(g: Guest): Guest {
    g.(graceful := if g.graceful == GracefulUnset then GracefulStops else g.graceful,
       force := if g.force == ForceUnset then ForceStops else g.force,
       agentProbe := if g.kind == Lxc then ProbeNotRelevant
                     else if !g.agentEnabled then ProbeDisabled
                     else if g.agentProbe == ProbeUnset then ProbeSuccess
                     else g.agentProbe)
  }

  predicate Acceptable(g: Guest) {
    && 0 < g.id && g.name != "" && g.kind in {Vm, Lxc} && 0 <= g.delaySeconds
    && !g.graceful.OtherGraceful? && !g.force.OtherForce?
    && (g.kind == Vm && g.agentEnabled ==> g.agentProbe in {ProbeUnset, ProbeSuccess, ProbeFailure, ProbeTimeout})
  }

  ghost predicate DistinctIds(guests: seq<Guest>) {
    forall i, j :: 0 <= i < j < |guests| ==> guests[i].id != guests[j].id
  }

  ghost predicate ValidConfig(c: PveConfig) {
    && WithDefaults(c).stopAll in {Success, Failure} && WithDefaults(c).poweroff in {Success, Failure}
    && 0 < WithDefaults(c).stopAllTimeout
    && (forall g :: g in c.guests ==> Acceptable(g)) && DistinctIds(c.guests)
  }

  function Normalized(c: PveConfig): PveConfig {
    WithDefaults(c).(guests := seq(|c.guests|, i requires 0 <= i < |c.guests| => NormalGuest(c.guests[i])))
  }

  /** An error about guests names one that is not acceptable, or a number that two of them have. */
  ghost predicate BlamesGuest(guests: seq<Guest>, e: PveError) {
    match e
    case BadGuest(i) => i < |guests| && !Acceptable(guests[i])
    case DuplicateId(id) => exists i, j :: 0 <= i < j < |guests| && guests[i].id == id && guests[j].id == id
    case _ => true
  }

  method NormalizeConfig(c: PveConfig) returns (r: Result<PveConfig, PveError>)
    ensures r.Ok? <==> ValidConfig(c)
    ensures r.Ok? ==> r.value == Normalized(c)
    ensures r == Err(UnknownStopAllResult) <==> c.stopAll !in {ResultUnset, Success, Failure}
    ensures r == Err(UnknownPoweroffResult) <==>
      c.stopAll in {ResultUnset, Success, Failure} && c.poweroff !in {ResultUnset, Success, Failure}
    ensures r == Err(BadTimeout) <==>
      && c.stopAll in {ResultUnset, Success, Failure} && c.poweroff in {ResultUnset, Success, Failure}
      && c.stopAllTimeout < 0
    ensures r.Err? ==> BlamesGuest(c.guests, r.error)
  {
    var config := WithDefaults(c);
    if config.stopAll != Success && config.stopAll != Failure {
      return Err(UnknownStopAllResult);
    }
    if config.poweroff != Success && config.poweroff != Failure {
      return Err(UnknownPoweroffResult);
    }
    if config.stopAllTimeout <= 0 {
      return Err(BadTimeout);
    }
    r := NormalizeGuests(c, config);
  }

  method NormalizeGuests(c: PveConfig, defaults: PveConfig) returns (r: Result<PveConfig, PveError>)
    requires defaults == WithDefaults(c)
    ensures r.Ok? <==> (forall g :: g in c.guests ==> Acceptable(g)) && DistinctIds(c.guests)
    ensures r.Ok? ==> r.value == Normalized(c)
    ensures r.Err? ==> (r.error.BadGuest? || r.error.DuplicateId?) && BlamesGuest(c.guests, r.error)
  {
    var config, seen: set<int> := defaults, {};
    var i := 0;
    while i < |config.guests|
      invariant 0 <= i <= |config.guests| == |c.guests|
      invariant seen == set k | 0 <= k < i :: c.guests[k].id
      invariant DistinctIds(c.guests[..i])
      invariant forall k :: 0 <= k < i ==> Acceptable(c.guests[k]) && config.guests[k] == NormalGuest(c.guests[k])
      invariant forall k :: i <= k < |c.guests| ==> config.guests[k] == c.guests[k]
      invariant config == WithDefaults(c).(guests := config.guests)
    {
      var guest := config.guests[i];
      if guest.id in seen {
        ghost var k :| 0 <= k < i && c.guests[k].id == guest.id;
        return Err(DuplicateId(guest.id));
      }
      if !Acceptable(guest) {
        assert c.guests[i] in c.guests;
        return Err(BadGuest(i));
      }
      seen := seen + {guest.id};
      config := config.(guests := config.guests[i := NormalGuest(guest)]);
      i := i + 1;
    }
    assert c.guests[..i] == c.guests;
    assert config.guests == Normalized(c).guests;
    return Ok(config);
  }

  // ----- the operations, as functions of values -----

  function ByOrder(guests: seq<Guest>): (r: seq<Keyed>)
    ensures |r| == |guests|
    ensures forall i :: 0 <= i < |r| ==> r[i] == Keyed(Key(0, guests[i].order, guests[i].id), i)
  {
    seq(|guests|, i requires 0 <= i < |guests| => Keyed(Key(0, guests[i].order, guests[i].id), i))
  }

  /** The positions of the guests in shutdown order. */
  function ShutdownSequence(guests: seq<Guest>): (r: seq<Keyed>)
    ensures |r| == |guests| && forall i :: 0 <= i < |r| ==> InRange(guests, r[i])
    ensures forall x :: x in r <==> x in ByOrder(guests)
  {
    SortSorts(ByOrder(guests));
    assert forall x :: x in ByOrder(guests) ==> InRange(guests, x);
    assert forall i :: 0 <= i < |guests| ==> Sort(ByOrder(guests))[i] in ByOrder(guests);
    Sort(ByOrder(guests))
  }

  predicate InRange(guests: seq<Guest>, x: Keyed) {
    x.item < |guests| && x.key == Key(0, guests[x.item].order, guests[x.item].id)
  }

  function Fresh(c: PveConfig): (p: Pve)
    ensures p.config == c && |p.guests| == |c.guests| && p.events == [] && !p.gracefulStarted
    ensures forall i :: 0 <= i < |p.guests| ==>
      p.guests[i].state == Running && p.guests[i].stopDue.None? && p.guests[i].spec in c.guests
  {
    var sorted := ShutdownSequence(c.guests);
    assert forall i :: 0 <= i < |sorted| ==> InRange(c.guests, sorted[i]);
    var guests := seq(|sorted|, i requires 0 <= i < |sorted| =>
      GuestRuntime(c.guests[sorted[i].item], Running, None, None));
    Pve(c, guests, [], false)
  }

  function StoppedIfDue(g: GuestRuntime, at: int): GuestRuntime {
    if g.Due(at) then g.(state := Stopped, stopDue := None) else g
  }

  function AllStoppedIfDue(gs: seq<GuestRuntime>, at: int): seq<GuestRuntime> {
    seq(|gs|, i requires 0 <= i < |gs| => StoppedIfDue(gs[i], at))
  }

  /** The indices of the first n guests whose stop is due, with their keys. */
  function Pending(gs: seq<GuestRuntime>, at: int, n: nat): (r: seq<Keyed>)
    requires n <= |gs|
    ensures forall x :: x in r <==> x.item < n && gs[x.item].Due(at) && x.key == gs[x.item].StopKey()
  {
    if n == 0 then []
    else Pending(gs, at, n - 1) + if gs[n - 1].Due(at) then [Keyed(gs[n - 1].StopKey(), n - 1)] else []
  }

  function StopEvent(g: GuestRuntime, at: int): Event {
    Event(at, GuestStopped, g.spec.id, NoMeans, NoCommand, Success, ProbeUnset)
  }

  function StopEvents(gs: seq<GuestRuntime>, order: seq<Keyed>, at: int): seq<Event>
    requires forall x :: x in order ==> x.item < |gs|
  {
    seq(|order|, k requires 0 <= k < |order| => assert order[k] in order; StopEvent(gs[order[k].item], at))
  }

  function StopOrder(gs: seq<GuestRuntime>, at: int): (r: seq<Keyed>)
    ensures forall x :: x in r <==> x in Pending(gs, at, |gs|)
  {
    SortSorts(Pending(gs, at, |gs|));
    Sort(Pending(gs, at, |gs|))
  }

  /** Guests whose graceful stop is due stop, in the order of due time, shutdown order and id. */
  function Advanced(p: Pve, at: int): Pve {
    p.(guests := AllStoppedIfDue(p.guests, at), events := p.events + StopEvents(p.guests, StopOrder(p.guests, at), at))
  }

  function ShutdownMeans(g: Guest): Means {
    if g.kind == Lxc then LxcShutdown else if g.agentEnabled then GuestAgent else Acpi
  }

  function ForceCommand(g: Guest): Command {
    if g.kind == Lxc then PctStop(g.id) else QmStop(g.id)
  }

  function AskedToStop(g: GuestRuntime, at: int): GuestRuntime {
    if g.state == Stopped then g
    else match g.spec.graceful
      case GracefulStops => g.(state := Stopping, stopDue := Some(at + g.spec.delaySeconds * SECOND))
      case GracefulStuck => g.(state := Stopping, stopDue := None)
      case GracefulFails => g.(state := Running)
      case _ => g
  }

  function AllAskedToStop(gs: seq<GuestRuntime>, at: int): seq<GuestRuntime> {
    seq(|gs|, i requires 0 <= i < |gs| => AskedToStop(gs[i], at))
  }

  function RequestEvent(g: Guest, at: int): Event {
    Event(at, ShutdownRequested, g.id, ShutdownMeans(g), NoCommand,
          if g.graceful == GracefulFails then Failure else Success, ProbeUnset)
  }

  function Requests(gs: seq<GuestRuntime>, at: int, n: nat): seq<Event>
    requires n <= |gs|
  {
    if n == 0 then []
    else if gs[n - 1].state == Stopped then Requests(gs, at, n - 1)
    else Requests(gs, at, n - 1) + [RequestEvent(gs[n - 1].spec, at)]
  }

  function StopAllEvent(c: PveConfig, at: int): Event {
    Event(at, StopAllIssued, 0, NoMeans, PveNodeStopAll(c.stopAllTimeout), c.stopAll, ProbeUnset)
  }

  function GracefullyStarted(p: Pve, at: int): Pve {
    if p.gracefulStarted then p
    else
      var issued := p.(gracefulStarted := true, events := p.events + [StopAllEvent(p.config, at)]);
      if p.config.stopAll == Failure then issued
      else Advanced(issued.(guests := AllAskedToStop(p.guests, at), events := issued.events + Requests(p.guests, at, |p.guests|)), at)
  }

  function Forced(g: GuestRuntime): GuestRuntime {
    if g.state != Stopped && g.spec.force != ForceFails then g.(state := Stopped, stopDue := None) else g
  }

  function AllForced(gs: seq<GuestRuntime>): seq<GuestRuntime> {
    seq(|gs|, i requires 0 <= i < |gs| => Forced(gs[i]))
  }

  function ForceEvent(g: Guest, at: int): Event {
    Event(at, GuestForced, g.id, ForceStop, ForceCommand(g),
          if g.force == ForceFails then Failure else Success, ProbeUnset)
  }

  function ForceEvents(gs: seq<GuestRuntime>, at: int, n: nat): seq<Event>
    requires n <= |gs|
  {
    if n == 0 then []
    else if gs[n - 1].state == Stopped then ForceEvents(gs, at, n - 1)
    else ForceEvents(gs, at, n - 1) + [ForceEvent(gs[n - 1].spec, at)]
  }

  function ForcedRemaining(p: Pve, at: int): Pve {
    p.(guests := AllForced(p.guests), events := p.events + ForceEvents(p.guests, at, |p.guests|))
  }

  function PoweroffResult(p: Pve): CommandResult {
    if p.AllStopped() then p.config.poweroff else Blocked
  }

  function PoweroffRequested(p: Pve, at: int): Pve {
    p.(events := p.events + [Event(at, PoweroffIssued, 0, NoMeans, SystemctlPoweroff, PoweroffResult(p), ProbeUnset)])
  }

  function Find(gs: seq<GuestRuntime>, id: int, from: nat): (r: Option<nat>)
    requires from <= |gs|
    ensures r.Some? ==> from <= r.value < |gs| && gs[r.value].spec.id == id
    ensures r.None? <==> forall i :: from <= i < |gs| ==> gs[i].spec.id != id
    decreases |gs| - from
  {
    if from == |gs| then None
    else if gs[from].spec.id == id then Some(from)
    else Find(gs, id, from + 1)
  }

  ghost predicate Known(p: Pve, id: int) {
    exists i :: 0 <= i < |p.guests| && p.guests[i].spec.id == id
  }

  function Probe(g: Guest): AgentProbe {
    if g.kind != Vm then ProbeNotRelevant else if !g.agentEnabled then ProbeDisabled else g.agentProbe
  }

  /** A probe of a known guest leaves a report and an event; an unknown guest changes nothing. */
  function AgentProbed(p: Pve, at: int, id: int): Pve {
    match Find(p.guests, id, 0)
    case None => p
    case Some(i) =>
      var g := p.guests[i];
      var command := if g.spec.kind == Vm && g.spec.agentEnabled then AgentPing(id) else NoCommand;
      p.(guests := p.guests[i := g.(lastTest := Some(AgentReport(at, Probe(g.spec))))],
         events := p.events + [Event(at, AgentTested, id, GuestAgent, command, ResultUnset, Probe(g.spec))])
  }

  class Executor {
    var config: PveConfig
    var guests: seq<GuestRuntime>
    var events: seq<Event>
    var gracefulStarted: bool

    constructor Of(p: Pve)
      ensures Value() == p
    {
      config, guests, events, gracefulStarted := p.config, p.guests, p.events, p.gracefulStarted;
    }

    function Value(): Pve
      reads this
    {
      Pve(config, guests, events, gracefulStarted)
    }

    method Advance(at: int)
      modifies this`guests, this`events
      ensures Value() == Advanced(old(Value()), at)
    {
      var pending: seq<Keyed> := [];
      for i := 0 to |guests|
        invariant pending == Pending(guests, at, i)
      {
        if guests[i].Due(at) {
          pending := pending + [Keyed(guests[i].StopKey(), i)];
        }
      }
      StopInOrder(Sort(pending), at);
    }

    method StopInOrder(order: seq<Keyed>, at: int)
      requires order == StopOrder(guests, at)
      modifies this`guests, this`events
      ensures guests == AllStoppedIfDue(old(guests), at)
      ensures events == old(events) + StopEvents(old(guests), order, at)
    {
      ghost var before := guests;
      ghost var stops := StopEvents(guests, order, at);
      var k := 0;
      while k < |order|
        invariant 0 <= k <= |order|
        invariant |guests| == |before|
        invariant events == old(events) + stops[..k]
        invariant forall i :: 0 <= i < |guests| ==> guests[i] == before[i] || guests[i] == StoppedIfDue(before[i], at)
        invariant forall l :: 0 <= l < k ==> guests[order[l].item] == StoppedIfDue(before[order[l].item], at)
      {
        assert order[k] in order;
        var i := order[k].item;
        guests := guests[i := guests[i].(state := Stopped, stopDue := None)];
        events := events + [StopEvent(guests[i], at)];
        assert stops[..k + 1] == stops[..k] + [stops[k]];
        k := k + 1;
      }
      assert stops[..k] == stops;
      forall i | 0 <= i < |guests| ensures guests[i] == StoppedIfDue(before[i], at) {
        if before[i].Due(at) {
          assert Keyed(before[i].StopKey(), i) in order;
        }
      }
    }

    method StartGracefulShutdown(at: int)
      modifies this`guests, this`events, this`gracefulStarted
      ensures Value() == GracefullyStarted(old(Value()), at)
    {
      if gracefulStarted {
        return;
      }
      gracefulStarted := true;
      events := events + [StopAllEvent(config, at)];
      if config.stopAll == Failure {
        return;
      }
      AskGuests(at);
      Advance(at);
    }

    method AskGuests(at: int)
      modifies this`guests, this`events
      ensures guests == AllAskedToStop(old(guests), at)
      ensures events == old(events) + Requests(old(guests), at, |old(guests)|)
    {
      ghost var before := guests;
      for i := 0 to |guests|
        invariant |guests| == |before|
        invariant events == old(events) + Requests(before, at, i)
        invariant forall k :: 0 <= k < i ==> guests[k] == AskedToStop(before[k], at)
        invariant forall k :: i <= k < |guests| ==> guests[k] == before[k]
      {
        var guest := guests[i];
        if guest.state != Stopped {
          var outcome := if guest.spec.graceful == GracefulFails then Failure else Success;
          events := events + [Event(at, ShutdownRequested, guest.spec.id, ShutdownMeans(guest.spec), NoCommand, outcome, ProbeUnset)];
          match guest.spec.graceful {
            case GracefulStops =>
              var due := at + guest.spec.delaySeconds * SECOND;
              guests := guests[i := guest.(state := Stopping, stopDue := Some(due))];
            case GracefulStuck =>
              guests := guests[i := guest.(state := Stopping, stopDue := None)];
            case GracefulFails =>
              guests := guests[i := guest.(state := Running)];
            case _ =>
          }
        }
      }
    }

    method ForceRemaining(at: int)
      modifies this`guests, this`events
      ensures Value() == ForcedRemaining(old(Value()), at)
    {
      ghost var before := guests;
      for i := 0 to |guests|
        invariant |guests| == |before|
        invariant events == old(events) + ForceEvents(before, at, i)
        invariant forall k :: 0 <= k < i ==> guests[k] == Forced(before[k])
        invariant forall k :: i <= k < |guests| ==> guests[k] == before[k]
      {
        var guest := guests[i];
        if guest.state != Stopped {
          var outcome := if guest.spec.force == ForceFails then Failure else Success;
          events := events + [Event(at, GuestForced, guest.spec.id, ForceStop, ForceCommand(guest.spec), outcome, ProbeUnset)];
          if outcome == Success {
            guests := guests[i := guest.(state := Stopped, stopDue := None)];
          }
        }
      }
      assert guests == AllForced(before);
    }

    method RequestHostPoweroff(at: int) returns (result: CommandResult)
      modifies this`events
      ensures Value() == PoweroffRequested(old(Value()), at) && result == PoweroffResult(old(Value()))
    {
      result := config.poweroff;
      var stopped := AllGuestsStopped();
      if !stopped {
        result := Blocked;
      }
      events := events + [Event(at, PoweroffIssued, 0, NoMeans, SystemctlPoweroff, result, ProbeUnset)];
    }

    method TestAgent(at: int, id: int) returns (found: bool)
      modifies this`guests, this`events
      ensures found <==> Known(old(Value()), id)
      ensures Value() == AgentProbed(old(Value()), at, id)
    {
      var index := Find(guests, id, 0);
      if index.None? {
        return false;
      }
      var guest := guests[index.value];
      assert guest in guests;
      var result := guest.spec.agentProbe;
      var command := NoCommand;
      if guest.spec.kind != Vm {
        result := ProbeNotRelevant;
      } else if !guest.spec.agentEnabled {
        result := ProbeDisabled;
      } else {
        command := AgentPing(guest.spec.id);
      }
      events := events + [Event(at, AgentTested, guest.spec.id, GuestAgent, command, ResultUnset, result)];
      guests := guests[index.value := guest.(lastTest := Some(AgentReport(at, result)))];
      return true;
    }

    method AllGuestsStopped() returns (stopped: bool)
      ensures stopped == Value().AllStopped()
    {
      for i := 0 to |guests|
        invariant forall k :: 0 <= k < i ==> guests[k].state == Stopped
      {
        if guests[i].state != Stopped {
          assert guests[i] in guests;
          return false;
        }
      }
      return true;
    }
  }

  method New(c: PveConfig) returns (r: Result<Executor, PveError>)
    ensures r.Ok? <==> ValidConfig(c)
    ensures r.Ok? ==> fresh(r.value) && r.value.Value() == Fresh(Normalized(c))
  {
    var normalized := NormalizeConfig(c);
    if normalized.Err? {
      return Err(normalized.error);
    }
    var executor := new Executor.Of(Fresh(normalized.value));
    return Ok(executor);
  }
}
