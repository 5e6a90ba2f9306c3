/** The calls that runs of the guard make to the node. */
module GuardCalls {
  import opened Common
  import opened PowerCore
  import opened PveExec
  import opened ForceStop
  import opened PveReader
  import opened GuardState
  import opened GuardLoop
  import GuardSafety

  ghost predicate LegalForce(e: Event) {
    e.Act? || e.Cut? ==> Legal(e.response.force)
  }

  /** Force-stops in these events went as some interleaving of their threads goes. */
  ghost predicate LegalForces(events: seq<Event>) {
    forall k: nat :: k < |events| ==> LegalForce(events[k])
  }

  /** How often a command of this program was accepted. */
  function Accepted(calls: seq<Call>, name: string): nat {
    if calls == [] then 0
    else
      var last := calls[|calls| - 1];
      Accepted(calls[..|calls| - 1], name) + (if last.Ran? && last.ok && last.command.name == name then 1 else 0)
  }

  lemma {:induction false} AcceptedJoins(a: seq<Call>, b: seq<Call>, name: string)
    ensures Accepted(a + b, name) == Accepted(a, name) + Accepted(b, name)
  {
    if b == [] {
      assert a + b == a;
    } else {
      assert (a + b)[..|a + b| - 1] == a + b[..|b| - 1];
      AcceptedJoins(a, b[..|b| - 1], name);
    }
  }

  lemma {:induction false} NoneAccepted(calls: seq<Call>, name: string)
    requires forall i :: 0 <= i < |calls| && calls[i].Ran? ==> calls[i].command.name != name
    ensures Accepted(calls, name) == 0
  {
    if calls != [] {
      NoneAccepted(calls[..|calls| - 1], name);
    }
  }

  /** How often the guests were told to stop, and how often the host was powered off. */
  function Tellings(effects: seq<Effect>): nat {
    if effects == [] then 0
    else Tellings(effects[..|effects| - 1]) + (if effects[|effects| - 1].GuestsToldToStop? then 1 else 0)
  }

  function Poweroffs(effects: seq<Effect>): nat {
    if effects == [] then 0
    else Poweroffs(effects[..|effects| - 1]) + (if effects[|effects| - 1].HostPoweredOff? then 1 else 0)
  }

  lemma {:induction false} EffectsJoin(a: seq<Effect>, b: seq<Effect>)
    ensures Tellings(a + b) == Tellings(a) + Tellings(b) && Poweroffs(a + b) == Poweroffs(a) + Poweroffs(b)
  {
    if b == [] {
      assert a + b == a;
    } else {
      assert (a + b)[..|a + b| - 1] == a + b[..|b| - 1];
      EffectsJoin(a, b[..|b| - 1]);
    }
  }

  lemma OneOrTwoEffects(x: Effect, y: Effect)
    ensures Tellings([x]) == (if x.GuestsToldToStop? then 1 else 0)
    ensures Poweroffs([x]) == (if x.HostPoweredOff? then 1 else 0)
    ensures Tellings([x, y]) == Tellings([x]) + Tellings([y]) && Poweroffs([x, y]) == Poweroffs([x]) + Poweroffs([y])
  {
    assert [x][..0] == [] && [y][..0] == [];
    assert [x, y] == [x] + [y];
    EffectsJoin([x], [y]);
  }

  /** The calls of one action are safe. */
  lemma ActionIsSafe(config: GuardConfig, d: Option<Deadlines>, kind: ActionKind, r: Response)
    requires Legal(r.force)
    ensures Safe(CallsMade(config, d, kind, r))
  {
    match kind
    case OutageCandidateStarted =>
    case OutageCancelled =>
    case GracefulShutdown =>
      if TimeoutInRange(StopTimeout(config)) {
        OperationIsSafe(All(StopTimeout(config), r.stop.accepted, r.stop.after));
      }
    case EmergencyStopRemaining => ForceCallsAreSafe(r.force);
    case HostPoweroffRequested => OperationIsSafe(Off(r.off.before, r.off.accepted));
  }

  lemma StopCallCounts(timeout: int, ok: bool, after: Option<seq<Guest>>)
    requires TimeoutInRange(timeout)
    ensures Accepted(CallsOf(All(timeout, ok, after)), "pvenode") == (if ok then 1 else 0)
    ensures Accepted(CallsOf(All(timeout, ok, after)), "systemctl") == 0
  {
    var command, rest := [Ran(StopAllCommand(timeout), ok)], if ok then [Listed(after)] else [];
    assert CallsOf(All(timeout, ok, after)) == command + rest;
    AcceptedJoins(command, rest, "pvenode");
    NoneAccepted(rest, "pvenode");
    NoneAccepted(command + rest, "systemctl");
    assert command[..0] == [];
  }

  lemma PoweroffCallCounts(before: Option<seq<Guest>>, ok: bool)
    ensures Accepted(CallsOf(Off(before, ok)), "systemctl") ==
      (if before.Some? && AllGuestsStopped(before.value) && ok then 1 else 0)
    ensures Accepted(CallsOf(Off(before, ok)), "pvenode") == 0
  {
    var calls := CallsOf(Off(before, ok));
    NoneAccepted(calls, "pvenode");
    NoneAccepted([Listed(before)], "systemctl");
    if before.Some? && AllGuestsStopped(before.value) {
      assert calls[..|calls| - 1] == [Listed(before)];
    } else {
      assert calls == [Listed(before)];
    }
  }

  lemma StopCounts(config: GuardConfig, d: Option<Deadlines>, outage: int, r: Response)
    ensures var calls, effects := CallsMade(config, d, GracefulShutdown, r), Execute(config, d, outage, GracefulShutdown, r).1;
      Accepted(calls, "pvenode") == Tellings(effects) && Accepted(calls, "systemctl") == Poweroffs(effects)
  {
    OneOrTwoEffects(StopAttempted(outage), GuestsToldToStop(outage));
    assert [StopAttempted(outage)] + [] == [StopAttempted(outage)];
    assert [StopAttempted(outage)] + [GuestsToldToStop(outage)] == [StopAttempted(outage), GuestsToldToStop(outage)];
    if TimeoutInRange(StopTimeout(config)) {
      StopCallCounts(StopTimeout(config), r.stop.accepted, r.stop.after);
    }
  }

  lemma ForceCounts(config: GuardConfig, d: Option<Deadlines>, outage: int, r: Response)
    requires Legal(r.force)
    ensures var calls, effects := CallsMade(config, d, EmergencyStopRemaining, r), Execute(config, d, outage, EmergencyStopRemaining, r).1;
      Accepted(calls, "pvenode") == Tellings(effects) && Accepted(calls, "systemctl") == Poweroffs(effects)
  {
    OneOrTwoEffects(GuestsForced(outage), GuestsForced(outage));
    ForceCallsAreSafe(r.force);
    NoneAccepted(AllCalls(r.force), "pvenode");
    NoneAccepted(AllCalls(r.force), "systemctl");
  }

  lemma PoweroffCounts(config: GuardConfig, d: Option<Deadlines>, outage: int, r: Response)
    ensures var calls, effects := CallsMade(config, d, HostPoweroffRequested, r), Execute(config, d, outage, HostPoweroffRequested, r).1;
      Accepted(calls, "pvenode") == Tellings(effects) && Accepted(calls, "systemctl") == Poweroffs(effects)
  {
    PoweroffCallCounts(r.off.before, r.off.accepted);
    if r.off.before.Some? {
      OneOrTwoEffects(HostPoweredOff(outage, r.off.before.value), GuestsForced(outage));
    }
  }

  /** An action's accepted commands are its effects. */
  lemma ActionCounts(config: GuardConfig, d: Option<Deadlines>, outage: int, kind: ActionKind, r: Response)
    requires Legal(r.force)
    ensures var calls, effects := CallsMade(config, d, kind, r), Execute(config, d, outage, kind, r).1;
      Accepted(calls, "pvenode") == Tellings(effects) && Accepted(calls, "systemctl") == Poweroffs(effects)
  {
    match kind
    case OutageCandidateStarted =>
    case OutageCancelled =>
    case GracefulShutdown => StopCounts(config, d, outage, r);
    case EmergencyStopRemaining => ForceCounts(config, d, outage, r);
    case HostPoweroffRequested => PoweroffCounts(config, d, outage, r);
  }

  lemma PrefixIsSafe(calls: seq<Call>, n: nat)
    requires Safe(calls)
    ensures Safe(Prefix(calls, n))
  {
    var some := Prefix(calls, n);
    forall i: nat | i < |some| ensures SafeAt(some, i) {
      assert SafeAt(calls, i);
    }
  }

  lemma CutStopCounts(config: GuardConfig, d: Option<Deadlines>, outage: int, r: Response, made: nat)
    ensures var calls, effects := Prefix(CallsMade(config, d, GracefulShutdown, r), made), CutEffects(config, d, outage, GracefulShutdown, r, made);
      Accepted(calls, "pvenode") == Tellings(effects) && Accepted(calls, "systemctl") == Poweroffs(effects)
  {
    var all := CallsMade(config, d, GracefulShutdown, r);
    OneOrTwoEffects(StopAttempted(outage), GuestsToldToStop(outage));
    assert [StopAttempted(outage)] + [] == [StopAttempted(outage)];
    assert [StopAttempted(outage)] + [GuestsToldToStop(outage)] == [StopAttempted(outage), GuestsToldToStop(outage)];
    if all != [] && made > 0 {
      var rest := Prefix(all, made)[1..];
      assert Prefix(all, made) == [all[0]] + rest;
      AcceptedJoins([all[0]], rest, "pvenode");
      AcceptedJoins([all[0]], rest, "systemctl");
      NoneAccepted(rest, "pvenode");
      NoneAccepted(rest, "systemctl");
      assert [all[0]][..0] == [];
    }
  }

  lemma CutForceCounts(config: GuardConfig, d: Option<Deadlines>, outage: int, r: Response, made: nat)
    requires Legal(r.force)
    ensures var calls, effects := Prefix(CallsMade(config, d, EmergencyStopRemaining, r), made), CutEffects(config, d, outage, EmergencyStopRemaining, r, made);
      Accepted(calls, "pvenode") == Tellings(effects) && Accepted(calls, "systemctl") == Poweroffs(effects)
  {
    var all := CallsMade(config, d, EmergencyStopRemaining, r);
    OneOrTwoEffects(GuestsForced(outage), GuestsForced(outage));
    ForceCallsAreSafe(r.force);
    NoneAccepted(Prefix(all, made), "pvenode");
    NoneAccepted(Prefix(all, made), "systemctl");
  }

  lemma CutPoweroffCounts(config: GuardConfig, d: Option<Deadlines>, outage: int, r: Response, made: nat)
    ensures var calls, effects := Prefix(CallsMade(config, d, HostPoweroffRequested, r), made), CutEffects(config, d, outage, HostPoweroffRequested, r, made);
      Accepted(calls, "pvenode") == Tellings(effects) && Accepted(calls, "systemctl") == Poweroffs(effects)
  {
    var all := CallsMade(config, d, HostPoweroffRequested, r);
    if made < |all| {
      NoneAccepted(Prefix(all, made), "pvenode");
      NoneAccepted(Prefix(all, made), "systemctl");
    } else {
      PoweroffCallCounts(r.off.before, r.off.accepted);
      if r.off.before.Some? {
        OneOrTwoEffects(HostPoweredOff(outage, r.off.before.value), GuestsForced(outage));
      }
    }
  }

  /** So are those of an action whose process is killed on the way. */
  lemma CutCounts(config: GuardConfig, d: Option<Deadlines>, outage: int, kind: ActionKind, r: Response, made: nat)
    requires Legal(r.force)
    ensures var calls, effects := Prefix(CallsMade(config, d, kind, r), made), CutEffects(config, d, outage, kind, r, made);
      Accepted(calls, "pvenode") == Tellings(effects) && Accepted(calls, "systemctl") == Poweroffs(effects)
  {
    match kind
    case OutageCandidateStarted =>
    case OutageCancelled =>
    case GracefulShutdown => CutStopCounts(config, d, outage, r, made);
    case EmergencyStopRemaining => CutForceCounts(config, d, outage, r, made);
    case HostPoweroffRequested => CutPoweroffCounts(config, d, outage, r, made);
  }

  ghost predicate Faithful(w: World) {
    && Safe(w.calls)
    && Accepted(w.calls, "pvenode") == Tellings(w.effects)
    && Accepted(w.calls, "systemctl") == Poweroffs(w.effects)
  }

  lemma AddsFaithfully(w: World, calls: seq<Call>, effects: seq<Effect>, next: World)
    requires Faithful(w) && Safe(calls) && next.calls == w.calls + calls && next.effects == w.effects + effects
    requires Accepted(calls, "pvenode") == Tellings(effects) && Accepted(calls, "systemctl") == Poweroffs(effects)
    ensures Faithful(next)
  {
    SafeJoins(w.calls, calls);
    AcceptedJoins(w.calls, calls, "pvenode");
    AcceptedJoins(w.calls, calls, "systemctl");
    EffectsJoin(w.effects, effects);
  }

  lemma NextFaithful(w: World, e: Event)
    requires Faithful(w) && LegalForce(e)
    ensures Faithful(Next(w, e))
  {
    if (e.Act? || e.Cut?) && w.process.Some? && w.process.value.stage.Acting? && w.process.value.stage.todo != [] {
      var p := w.process.value;
      var kind, d := p.stage.todo[0].kind, ProcessDeadlines(p);
      var calls := CallsMade(p.config, d, kind, e.response);
      ActionIsSafe(p.config, d, kind, e.response);
      if e.Act? {
        ActionCounts(p.config, d, Outage(p), kind, e.response);
        AddsFaithfully(w, calls, Execute(p.config, d, Outage(p), kind, e.response).1, Next(w, e));
      } else {
        PrefixIsSafe(calls, e.made);
        CutCounts(p.config, d, Outage(p), kind, e.response, e.made);
        AddsFaithfully(w, Prefix(calls, e.made), CutEffects(p.config, d, Outage(p), kind, e.response, e.made), Next(w, e));
      }
    } else {
      assert Next(w, e).calls == w.calls && Next(w, e).effects == w.effects;
    }
  }

  /** In every run of the guard, with crashes anywhere, also between two calls of one action, and any interleaving
      of its force-stops: every command on the node is on the allowlist, a poweroff directly follows a listing that
      shows every guest stopped, the guests were told to stop as often as a node-wide stop was accepted, and the
      host was powered off as often as a poweroff was. */
  lemma {:induction false} RunsAreFaithful(ws: seq<World>, events: seq<Event>, n: nat)
    requires IsRun(ws, events) && n < |ws| && Faithful(ws[0]) && LegalForces(events)
    ensures Faithful(ws[n])
  {
    if n > 0 {
      RunsAreFaithful(ws, events, n - 1);
      assert StepAt(ws, events, n - 1);
      NextFaithful(ws[n - 1], events[n - 1]);
    }
  }

  // ----- forced guests -----

  predicate StopsOne(c: Call) {
    c.Ran? && (c.command.name == "qm" || c.command.name == "pct")
  }

  predicate StopsSome(calls: seq<Call>) {
    exists i :: 0 <= i < |calls| && StopsOne(calls[i])
  }

  lemma OnlyForceStopsSome(config: GuardConfig, d: Option<Deadlines>, kind: ActionKind, r: Response, made: nat)
    requires Legal(r.force)
    ensures var calls := Prefix(CallsMade(config, d, kind, r), made);
      StopsSome(calls) <==> kind == EmergencyStopRemaining && HasCommand(calls)
  {
    var all := CallsMade(config, d, kind, r);
    var calls := Prefix(all, made);
    assert forall i :: 0 <= i < |calls| ==> calls[i] == all[i];
    if kind == EmergencyStopRemaining {
      ForceCallsAreSafe(r.force);
      assert HasCommand(calls) ==> exists i :: 0 <= i < |calls| && calls[i].Ran?;
      forall i | 0 <= i < |calls| && calls[i].Ran? ensures StopsOne(calls[i]) {}
    } else {
      forall i | 0 <= i < |calls| ensures !StopsOne(calls[i]) {}
    }
  }

  /** The step makes at least one guest stop, for this outage. */
  ghost predicate Forces(w: World, e: Event, outage: int) {
    && w.process.Some? && Outage(w.process.value) == outage
    && |w.calls| <= |Next(w, e).calls| && StopsSome(Next(w, e).calls[|w.calls|..])
  }

  lemma ActingForces(w: World, e: Event, outage: int)
    requires LegalForce(e) && (e.Act? || e.Cut?)
    requires w.process.Some? && w.process.value.stage.Acting? && w.process.value.stage.todo != []
    ensures GuestsForced(outage) in Next(w, e).effects <==> GuestsForced(outage) in w.effects || Forces(w, e, outage)
  {
    var p := w.process.value;
    var kind, d := p.stage.todo[0].kind, ProcessDeadlines(p);
    var calls := CallsMade(p.config, d, kind, e.response);
    var made := if e.Act? then |calls| else e.made;
    assert Prefix(calls, |calls|) == calls;
    OnlyForceStopsSome(p.config, d, kind, e.response, made);
    assert Next(w, e).calls[|w.calls|..] == Prefix(calls, made);
  }

  lemma NextForces(w: World, e: Event, outage: int)
    requires LegalForce(e)
    ensures GuestsForced(outage) in Next(w, e).effects <==> GuestsForced(outage) in w.effects || Forces(w, e, outage)
  {
    if (e.Act? || e.Cut?) && w.process.Some? && w.process.value.stage.Acting? && w.process.value.stage.todo != [] {
      ActingForces(w, e, outage);
    } else {
      assert Next(w, e).calls == w.calls && Next(w, e).effects == w.effects;
    }
  }

  ghost predicate ForcedBefore(ws: seq<World>, events: seq<Event>, n: nat, outage: int)
    requires n <= |events| < |ws|
  {
    exists k: nat :: k < n && Forces(ws[k], events[k], outage)
  }

  lemma ForcedBeforeNext(ws: seq<World>, events: seq<Event>, n: nat, outage: int)
    requires n < |events| < |ws|
    ensures ForcedBefore(ws, events, n + 1, outage) <==> ForcedBefore(ws, events, n, outage) || Forces(ws[n], events[n], outage)
  {}

  lemma ForcedNext(ws: seq<World>, events: seq<Event>, n: nat, outage: int)
    requires IsRun(ws, events) && n < |events| && LegalForce(events[n])
    ensures GuestsForced(outage) in ws[n + 1].effects <==> GuestsForced(outage) in ws[n].effects || Forces(ws[n], events[n], outage)
  {
    assert StepAt(ws, events, n);
    NextForces(ws[n], events[n], outage);
  }

  /** Over every run: guests were forced for an outage iff at some step a stop command of a single guest was given for
      it, also by a process that was killed on the way. */
  lemma {:induction false} ForcedIffCommanded(ws: seq<World>, events: seq<Event>, n: nat, outage: int)
    requires IsRun(ws, events) && n < |ws| && LegalForces(events)
    ensures GuestsForced(outage) in ws[n].effects <==> GuestsForced(outage) in ws[0].effects || ForcedBefore(ws, events, n, outage)
  {
    if n > 0 {
      var last := n - 1;
      ForcedIffCommanded(ws, events, last, outage);
      ForcedBeforeNext(ws, events, last, outage);
      assert LegalForce(events[last]);
      ForcedNext(ws, events, last, outage);
    }
  }

  /** All of it at once, for every run from a host on which the guard never ran. */
  lemma FromEmptyHost(boot: string, ws: seq<World>, events: seq<Event>, n: nat)
    requires IsRun(ws, events) && n < |ws| && ws[0] == World(boot, None, None, [], []) && LegalForces(events)
    ensures Sound(ws[n]) && Faithful(ws[n]) && GuardSafety.StopFirst(ws[n].effects)
  {
    NothingYetSound(boot);
    RunSound(ws, events, n);
    GuardSafety.StopAlwaysTriedFirst(ws, events, n);
    RunsAreFaithful(ws, events, n);
  }
}
