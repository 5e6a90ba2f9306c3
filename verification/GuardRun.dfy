/** The guard's own loop, driving the executor, proved to take the steps of the protocol. */
module GuardRun {
  import opened Common
  import opened PowerCore
  import opened PveExec
  import opened PveReader
  import opened Decimal
  import opened ForceStop
  import opened GuardState
  import opened GuardLoop
  import opened GuardCalls
  import opened GuardSafety

  // Two looks at the clock: one to set a deadline, one to see whether it has passed.
  datatype Looks = Looks(first: int, second: int)

  /** What the clock shows during one action: before it, before each thread of a force-stop, and before its last
      listing. */
  datatype Clock = Clock(start: Looks, thread: nat -> Looks, verify: Looks)

  /** What one turn of the loop is given: the stored configuration, the sample with its time, the clock during each
      action, and how the save goes. The node's answers are arbitrary. */
  datatype Turn = Turn(stored: Stored, reloadedAt: int, now: int, snap: Snapshot, clock: nat -> Clock, save: SaveIo)

  function TickOf(t: Turn): Event {
    Tick(t.stored, t.reloadedAt, t.now, t.snap)
  }

  function LateThreads(deadlines: Option<Deadlines>, clock: Clock): nat -> bool {
    (i: nat) => BoundedContext(clock.thread(i).first, clock.thread(i).second, 15 * SECOND, TotalDeadline(deadlines)).None?
  }

  function VerifiesLate(deadlines: Option<Deadlines>, clock: Clock): bool {
    BoundedContext(clock.verify.first, clock.verify.second, 5 * SECOND, TotalDeadline(deadlines)).None?
  }

  /** A thread is late iff its second look at the clock comes after the end of the budget or 15 seconds after its
      first; and so the last listing, with 5 seconds. */
  lemma LateInFull(p: Process, clock: Clock, i: nat)
    requires p.memory.status.outageAt.Some?
    ensures var budgetEnds := p.started + p.memory.status.outageAt.value + p.config.detection.totalBudget;
      && (LateThreads(ProcessDeadlines(p), clock)(i) <==>
            clock.thread(i).second >= budgetEnds || clock.thread(i).second >= clock.thread(i).first + 15 * 1_000_000_000)
      && (VerifiesLate(ProcessDeadlines(p), clock) <==>
            clock.verify.second >= budgetEnds || clock.verify.second >= clock.verify.first + 5 * 1_000_000_000)
  {}

  // ----- what a response owes to the clock and to the executor -----

  /** The response to an action is the one that this clock gives, and that an executor on this node with this
      timeout gives but for the node's own answers: it refuses what such an executor refuses, and a force-stop with
      time to begin goes through all its listings and threads. */
  ghost predicate Answers(node: string, localNode: string, timeout: int, config: GuardConfig, deadlines: Option<Deadlines>,
                          kind: ActionKind, clock: Clock, r: Response)
  {
    && r.first == clock.start.first && r.second == clock.start.second && Legal(r.force)
    && match kind
       case OutageCandidateStarted => true
       case OutageCancelled => true
       case GracefulShutdown => r.stop.refused <==> RefusalFor(node, localNode, StopTimeout(config)).Some?
       case EmergencyStopRemaining =>
         && r.force.f == Force(r.force.f.targets, node, timeout, LateThreads(deadlines, clock), RefusalFor(node, localNode, timeout))
         && (ForceAllowance(deadlines, r).Some? ==> GoesOn(r.force, InvalidFor(node, timeout), VerifiesLate(deadlines, clock)))
       case HostPoweroffRequested => r.off.refused <==> RefusalFor(node, localNode, timeout).Some?
  }

  /** This act answers the action that is next in this world. The executor's timeout is the one it was made with
      or that of the configuration in force. */
  ghost predicate ActFits(node: string, localNode: string, made: int, w: World, clock: Clock, r: Response) {
    && w.process.Some? && w.process.value.stage.Acting? && w.process.value.stage.todo != []
    && var p := w.process.value;
      exists timeout :: timeout in {made, StopTimeout(p.config)}
        && Answers(node, localNode, timeout, p.config, ProcessDeadlines(p), p.stage.todo[0].kind, clock, r)
  }

  /** These events, from this world on, are acts in the order of their clocks. */
  ghost predicate AreActs(node: string, localNode: string, made: int, w: World, clock: nat -> Clock, acts: seq<Event>) {
    forall k: nat :: k < |acts| ==> IsAct(node, localNode, made, w, clock, acts, k)
  }

  ghost predicate IsAct(node: string, localNode: string, made: int, w: World, clock: nat -> Clock, acts: seq<Event>, k: nat)
    requires k < |acts|
  {
    acts[k].Act? && ActFits(node, localNode, made, Replay(w, acts[..k]), clock(k), acts[k].response)
  }

  /** These events are the turn's: its own sample, an act for each action in order, and its own save, unless the
      process ended before. */
  ghost predicate IsTurn(node: string, localNode: string, made: int, w: World, t: Turn, acts: seq<Event>, saved: bool, events: seq<Event>) {
    && events == [TickOf(t)] + acts + (if saved then [Persist(t.save)] else [])
    && AreActs(node, localNode, made, Next(w, TickOf(t)), t.clock, acts)
    && (saved ==> var p := Replay(w, [TickOf(t)] + acts).process; p.Some? && p.value.stage.Acting? && p.value.stage.todo == [])
    && (!saved ==> Replay(w, events).process.None?)
  }

  /** With time left, the forced stop reaches every guest: on this host and with a timeout in range, a listing is taken
      if the budget has not ended; each guest that it shows neither stopped nor a template has a thread; and a
      thread that starts in time looks its guest up, and gives the stop command if that listing still shows it
      running. The last listing is taken as well, in time and if no thread failed. */
  lemma ForceReachesEveryGuest(node: string, localNode: string, timeout: int, p: Process, clock: Clock, r: Response)
    returns (listing: Option<seq<Guest>>)
    requires p.memory.status.outageAt.Some?
    requires Answers(node, localNode, timeout, p.config, ProcessDeadlines(p), EmergencyStopRemaining, clock, r)
    requires RefusalFor(node, localNode, timeout).None?
    requires InTime(p, clock.start, 5 * 1_000_000_000)
    ensures r.force.first == [Listed(listing)]
    ensures listing.Some? ==> forall g :: g in listing.value && !g.template && g.status != "stopped" && 100 <= g.vmid <= 999_999_999 ==>
      exists i: nat ::
        i < |r.force.f.targets| && r.force.f.targets[i] == g && (InTime(p, clock.thread(i), 15 * 1_000_000_000) ==> Reached(node, r.force, i))
    ensures listing.Some? && NoThreadFailed(r.force.f, r.force.threads) && InTime(p, clock.verify, 5 * 1_000_000_000) ==>
      r.force.last != []
  {
    AllowancesInFull(p, r);
    LateInFull(p, clock, 0);
    var f, threads := r.force.f, r.force.threads;
    listing := r.force.first[0].answer;
    if listing.Some? {
      forall g | g in listing.value && !g.template && g.status != "stopped" && 100 <= g.vmid <= 999_999_999
        ensures exists i: nat ::
          i < |f.targets| && f.targets[i] == g && (InTime(p, clock.thread(i), 15 * 1_000_000_000) ==> Reached(node, r.force, i))
      {
        RemainingAreRunning(listing.value, g);
        var i: nat :| i < |f.targets| && f.targets[i] == g;
        if InTime(p, clock.thread(i), 15 * 1_000_000_000) {
          LateInFull(p, clock, i);
          EveryThreadActs(f, threads, i);
        }
      }
    }
  }

  /** The second look at the clock comes before the budget of the outage ends, and soon enough after the first. */
  predicate InTime(p: Process, looks: Looks, maximum: int)
    requires p.memory.status.outageAt.Some?
  {
    && looks.second < p.started + p.memory.status.outageAt.value + p.config.detection.totalBudget
    && looks.second < looks.first + maximum
  }

  /** Thread i looked its guest up, and if this showed the guest running on this node, gave the command for its kind. */
  ghost predicate Reached(node: string, run: ForceRun, i: nat)
    requires i < |run.f.targets|
  {
    var vmid, own := run.f.targets[i].vmid, Own(run.threads, i);
    && 0 <= vmid && |own| > 0 && own[0].Listed?
    && (own[0].answer.Some? && Lookup(own[0].answer.value, vmid, node).Ok? && Lookup(own[0].answer.value, vmid, node).value.status != "stopped" ==>
          |own| > 1 && own[1].Ran?
          && own[1].command == Command(if Lookup(own[0].answer.value, vmid, node).value.guestType == Lxc then "pct" else "qm", ["stop", Itoa(vmid)]))
  }

  // ----- the methods -----

  /** Carries out one action with the executor; the response is what clock, executor and node answered. */
  method ExecuteGuardAction(e: Executor, kind: ActionKind, config: GuardConfig, deadlines: Option<Deadlines>, ghost outage: int,
                            clock: Clock)
    returns (ok: bool, ghost r: Response)
    modifies e, e.host
    ensures e.shutdownTimeout == if kind == GracefulShutdown then StopTimeout(config) else old(e.shutdownTimeout)
    ensures Answers(e.node, e.localNode, e.shutdownTimeout, config, deadlines, kind, clock, r)
    ensures ok == Execute(config, deadlines, outage, kind, r).0
    ensures e.host.trace == old(e.host.trace) + CallsMade(config, deadlines, kind, r)
  {
    var first, second := clock.start.first, clock.start.second;
    r := Response(first, second, StopOutcome(true, false, None), NO_FORCE, OffOutcome(true, None, false));
    NoForceIsLegal();
    match kind
    case OutageCandidateStarted => return true, r;
    case OutageCancelled => return true, r;
    case GracefulShutdown =>
      e.SetShutdownTimeout(config.guestTimeoutSeconds * SECOND);
      r := r.(stop := StopOutcome(e.Refusal().Some?, false, None));
      var ctx := BoundedContext(first, second, (config.guestTimeoutSeconds + 20) * SECOND, EmergencyDeadline(deadlines));
      if ctx.None? {
        return false, r;
      }
      var report, error, calls := e.StopAll();
      r := r.(stop := StopOutcome(e.Refusal().Some?, report.executed, if |calls| == 2 then calls[1].answer else None));
      return true, r;
    case EmergencyStopRemaining =>
      var ctx := BoundedContext(first, second, 5 * SECOND, TotalDeadline(deadlines));
      var error, run := ForceStopRemaining(e, ctx.None?, LateThreads(deadlines, clock), VerifiesLate(deadlines, clock));
      return error.None?, r.(force := run);
    case HostPoweroffRequested =>
      r := r.(off := OffOutcome(e.Refusal().Some?, None, false));
      var ctx := BoundedContext(first, second, 10 * SECOND, TotalDeadline(deadlines));
      if ctx.None? {
        return false, r;
      }
      var report, error, calls := e.PoweroffHost();
      r := r.(off := OffOutcome(e.Refusal().Some?, if calls != [] && calls[0].Listed? then calls[0].answer else None, report.executed));
      return error.None?, r;
  }

  ghost function ProcessOf(engine: Engine, config: GuardConfig, revision: int, started: int): Process
    reads engine
  {
    Process(config, revision, started, engine.Remembers(), Looping)
  }

  /** The loop's view of the protocol's world: same disk, same calls, this process. */
  ghost predicate Shows(store: Store, e: Executor, process: Option<Process>, w: World)
    reads store, e, e.host
  {
    w.boot == store.boot && w.disk == store.disk && w.calls == e.host.trace && w.process == process
  }

  predicate TimeoutKnown(e: Executor, made: int, config: GuardConfig)
    reads e
  {
    e.shutdownTimeout == made || e.shutdownTimeout == StopTimeout(config)
  }

  lemma ActsNext(node: string, localNode: string, made: int, w: World, clock: nat -> Clock, acts: seq<Event>, r: Response)
    requires AreActs(node, localNode, made, w, clock, acts) && ActFits(node, localNode, made, Replay(w, acts), clock(|acts|), r)
    ensures AreActs(node, localNode, made, w, clock, acts + [Act(r)]) && Replay(w, acts + [Act(r)]) == Next(Replay(w, acts), Act(r))
  {
    var more := acts + [Act(r)];
    ReplayNext(w, acts, Act(r));
    forall k: nat | k < |more| ensures IsAct(node, localNode, made, w, clock, more, k) {
      assert more[..k] == if k < |acts| then acts[..k] else acts;
      if k < |acts| {
        assert IsAct(node, localNode, made, w, clock, acts, k);
      }
    }
  }

  /** Carries out one sample's actions in order, until one fails. */
  method CarryOut(store: Store, e: Executor, ghost p: Process, actions: seq<Action>, config: GuardConfig,
                  deadlines: Option<Deadlines>, clock: nat -> Clock, ghost made: int, ghost w: World)
    returns (ok: bool, ghost acts: seq<Event>)
    requires p.stage.Acting? && p.stage.finished == [] && p.stage.todo == actions
    requires config == p.config && deadlines == ProcessDeadlines(p)
    requires Shows(store, e, Some(p), w) && TimeoutKnown(e, made, config)
    modifies e, e.host
    ensures TimeoutKnown(e, made, config) && AreActs(e.node, e.localNode, made, w, clock, acts)
    ensures if ok then |acts| == |actions| else 0 < |acts| <= |actions|
    ensures Shows(store, e, if ok then Some(p.(stage := p.stage.(finished := actions, todo := []))) else None, Replay(w, acts))
  {
    acts := [];
    ghost var now := p;
    for k := 0 to |actions|
      invariant now == p.(stage := p.stage.(finished := actions[..k], todo := actions[k..]))
      invariant |acts| == k && TimeoutKnown(e, made, config) && AreActs(e.node, e.localNode, made, w, clock, acts)
      invariant Shows(store, e, Some(now), Replay(w, acts))
    {
      ghost var r;
      ok, r := CarryOutNext(store, e, now, actions[k].kind, config, deadlines, clock(k), made, Replay(w, acts));
      ActsNext(e.node, e.localNode, made, w, clock, acts, r);
      acts := acts + [Act(r)];
      if !ok {
        return;
      }
      assert actions[..k] + [actions[k]] == actions[..k + 1] && actions[k..][1..] == actions[k + 1..];
      now := p.(stage := p.stage.(finished := actions[..k + 1], todo := actions[k + 1..]));
    }
    assert actions[..|actions|] == actions && actions[|actions|..] == [];
    ok := true;
  }

  method CarryOutNext(store: Store, e: Executor, ghost p: Process, kind: ActionKind, config: GuardConfig,
                      deadlines: Option<Deadlines>, clock: Clock, ghost made: int, ghost w: World)
    returns (ok: bool, ghost r: Response)
    requires p.stage.Acting? && p.stage.todo != [] && kind == p.stage.todo[0].kind
    requires config == p.config && deadlines == ProcessDeadlines(p)
    requires Shows(store, e, Some(p), w) && TimeoutKnown(e, made, config)
    modifies e, e.host
    ensures TimeoutKnown(e, made, config) && ActFits(e.node, e.localNode, made, w, clock, r)
    ensures Shows(store, e,
                  if ok then Some(p.(stage := p.stage.(finished := p.stage.finished + [p.stage.todo[0]], todo := p.stage.todo[1..])))
                  else None,
                  Next(w, Act(r)))
  {
    ok, r := ExecuteGuardAction(e, kind, config, deadlines, Outage(p), clock);
  }

  /** In the normal state, a changed and valid production configuration starts a new engine. */
  method ReloadConfig(e: Executor, engine: Engine, config: GuardConfig, revision: int, started: int, stored: Stored, now: int,
                      ghost made: int)
    returns (engine': Engine, config': GuardConfig, revision': int, started': int)
    requires engine.config == config.detection && TimeoutKnown(e, made, config)
    modifies e
    ensures TimeoutKnown(e, made, config')
    ensures engine' == engine || fresh(engine')
    ensures engine'.config == config'.detection
    ensures ProcessOf(engine', config', revision', started') == Reload(ProcessOf(engine, config, revision, started), stored, now)
  {
    engine', config', revision', started' := engine, config, revision, started;
    if engine.status.state == Normal {
      if stored.Loaded? && stored.production && stored.revision != revision
         && stored.config.detection.Valid() && stored.otherwiseValid
      {
        var fresher := NewEngine(stored.config.detection);
        e.SetShutdownTimeout(stored.config.guestTimeoutSeconds * SECOND);
        engine', config', revision', started' := fresher.value, stored.config, stored.revision, now;
      }
    }
  }

  /** One turn of the loop: reload, sample, act, save. */
  method TakeTurn(store: Store, e: Executor, engine: Engine, config: GuardConfig, revision: int, started: int, turn: Turn,
                  ghost made: int, ghost w: World)
    returns (ok: bool, engine': Engine, config': GuardConfig, revision': int, started': int,
             ghost acts: seq<Event>, ghost saved: bool, ghost events: seq<Event>)
    requires engine.config == config.detection && turn.reloadedAt > ZERO_INSTANT
    requires Shows(store, e, Some(ProcessOf(engine, config, revision, started)), w) && TimeoutKnown(e, made, config)
    modifies store, e, e.host, engine
    ensures (engine' == engine || fresh(engine')) && engine'.config == config'.detection && TimeoutKnown(e, made, config')
    ensures IsTurn(e.node, e.localNode, made, w, turn, acts, saved, events) && (ok ==> saved)
    ensures Shows(store, e, if ok then Some(ProcessOf(engine', config', revision', started')) else None, Replay(w, events))
  {
    engine', config', revision', started' :=
      ReloadConfig(e, engine, config, revision, started, turn.stored, turn.reloadedAt, made);
    var sampled;
    ghost var p, ticked := ProcessOf(engine, config, revision, started), Next(w, TickOf(turn));
    sampled, p := TakeSample(store, e, engine', p, config', revision', started', turn, w);
    acts, saved := [], false;
    if sampled.Err? {
      EndedTurn(e.node, e.localNode, made, w, turn, acts);
      ok, events := false, [TickOf(turn)] + acts + [];
      return;
    }
    var deadlines := GuardDeadlines(started', config'.detection, engine'.status);
    ok, acts := CarryOut(store, e, p, sampled.value, config', deadlines, turn.clock, made, ticked);
    if !ok {
      EndedTurn(e.node, e.localNode, made, w, turn, acts);
      events := [TickOf(turn)] + acts + [];
      return;
    }
    SavedTurn(e.node, e.localNode, made, w, turn, acts);
    saved, events := true, [TickOf(turn)] + acts + [Persist(turn.save)];
    ok := store.Save(started', revision', config'.detection, engine', turn.save);
  }

  lemma EndedTurn(node: string, localNode: string, made: int, w: World, t: Turn, acts: seq<Event>)
    requires AreActs(node, localNode, made, Next(w, TickOf(t)), t.clock, acts)
    requires Replay(Next(w, TickOf(t)), acts).process.None?
    ensures var events := [TickOf(t)] + acts + [];
      IsTurn(node, localNode, made, w, t, acts, false, events) && Replay(w, events) == Replay(Next(w, TickOf(t)), acts)
  {
    TurnReplays(w, t, acts);
    assert [TickOf(t)] + acts + [] == [TickOf(t)] + acts;
  }

  lemma SavedTurn(node: string, localNode: string, made: int, w: World, t: Turn, acts: seq<Event>)
    requires AreActs(node, localNode, made, Next(w, TickOf(t)), t.clock, acts)
    requires var p := Replay(Next(w, TickOf(t)), acts).process; p.Some? && p.value.stage.Acting? && p.value.stage.todo == []
    ensures var events := [TickOf(t)] + acts + [Persist(t.save)];
      && IsTurn(node, localNode, made, w, t, acts, true, events)
      && Replay(w, events) == Next(Replay(Next(w, TickOf(t)), acts), Persist(t.save))
  {
    TurnReplays(w, t, acts);
    ReplayNext(w, [TickOf(t)] + acts, Persist(t.save));
  }

  lemma OneEvent(w: World, e: Event)
    ensures Replay(w, [e]) == Next(w, e)
  {
    assert [e] == [] + [e];
    ReplayNext(w, [], e);
  }

  lemma TurnReplays(w: World, t: Turn, acts: seq<Event>)
    ensures Replay(w, [TickOf(t)] + acts) == Replay(Next(w, TickOf(t)), acts)
  {
    OneEvent(w, TickOf(t));
    ReplayJoins(w, [TickOf(t)], acts);
  }

  lemma ReplayJoinsNext(w: World, a: seq<Event>, b: seq<Event>, e: Event)
    requires Replay(w, a + b) == Replay(Replay(w, a), b)
    ensures Replay(w, a + (b + [e])) == Replay(Replay(w, a), b + [e])
  {
    ReplayNext(w, a + b, e);
    ReplayNext(Replay(w, a), b, e);
    assert a + b + [e] == a + (b + [e]);
  }

  lemma {:induction false} ReplayJoins(w: World, a: seq<Event>, b: seq<Event>)
    ensures Replay(w, a + b) == Replay(Replay(w, a), b)
  {
    if b == [] {
      assert a + b == a;
    } else {
      var most, last := b[..|b| - 1], b[|b| - 1];
      ReplayJoins(w, a, most);
      ReplayJoinsNext(w, a, most, last);
      assert b == most + [last];
    }
  }

  // The sample of a turn, after the reload of process `was`.
  method TakeSample(store: Store, e: Executor, engine: Engine, ghost was: Process, config: GuardConfig, revision: int,
                    started: int, turn: Turn, ghost w: World)
    returns (sampled: Result<seq<Action>, EngineError>, ghost p: Process)
    requires engine.config == config.detection && turn.reloadedAt > ZERO_INSTANT
    requires was.stage.Looping? && Shows(store, e, Some(was), w)
    requires ProcessOf(engine, config, revision, started) == Reload(was, turn.stored, turn.reloadedAt)
    modifies engine
    ensures sampled.Err? ==> Shows(store, e, None, Next(w, TickOf(turn)))
    ensures sampled.Ok? ==>
      && p.stage.Acting? && p.stage.finished == [] && p.stage.todo == sampled.value
      && p.(stage := Looping) == ProcessOf(engine, config, revision, started)
      && Shows(store, e, Some(p), Next(w, TickOf(turn)))
  {
    ghost var memory, at := engine.Remembers(), turn.now - started;
    sampled := engine.Sample(turn.now - started, turn.snap);
    p := if sampled.Err? then was
         else Process(config, revision, started, engine.Remembers(), Acting(memory, at, turn.snap, [], sampled.value));
  }

  /** Restores the saved engine or starts a new one. */
  method StartEngine(store: Store, e: Executor, launchedAt: int, configured: GuardConfig, configuredRevision: int, io: RestoreIo,
                     ghost w: World)
    returns (engine: Option<Engine>, config: GuardConfig, revision: int, started: int)
    requires launchedAt > ZERO_INSTANT && Shows(store, e, None, w)
    modifies store
    ensures engine.Some? ==> fresh(engine.value) && engine.value.config == config.detection
    ensures Shows(store, e, if engine.Some? then Some(ProcessOf(engine.value, config, revision, started)) else None,
                  Next(w, Launch(launchedAt, configured, configuredRevision, io)))
  {
    config, revision, started := configured, configuredRevision, launchedAt;
    var outcome, restored := store.Restore(io);
    match outcome
    case Failed => engine := None;
    case Resumed(rec) =>
      engine := restored;
      config, revision, started := config.(detection := rec.detection), rec.revision, rec.origin;
    case Fresh =>
      var made := NewEngine(config.detection);
      engine := if made.Ok? then Some(made.value) else None;
  }

  function Joined(turns: seq<seq<Event>>): seq<Event> {
    if turns == [] then [] else Joined(turns[..|turns| - 1]) + turns[|turns| - 1]
  }

  /** Turn i of the script, in the world that the turns before it led to. */
  ghost predicate IsTurnOf(node: string, localNode: string, made: int, w: World, script: seq<Turn>, turns: seq<seq<Event>>, i: nat)
    requires i < |turns| <= |script|
  {
    exists acts, saved :: IsTurn(node, localNode, made, Replay(w, Joined(turns[..i])), script[i], acts, saved, turns[i])
  }

  /** The events are the turns of the script, each as the executor, its clock and the node make it, up to the turn
      in which the process ended, or all of them. */
  ghost predicate FollowsScript(node: string, localNode: string, made: int, w: World, script: seq<Turn>, turns: seq<seq<Event>>) {
    && |turns| <= |script|
    && (forall i: nat :: i < |turns| ==> IsTurnOf(node, localNode, made, w, script, turns, i))
    && (|turns| < |script| ==> Replay(w, Joined(turns)).process.None?)
  }

  lemma TurnsNext(node: string, localNode: string, made: int, w: World, script: seq<Turn>, turns: seq<seq<Event>>,
                  acts: seq<Event>, saved: bool, events: seq<Event>)
    requires |turns| < |script| && forall i: nat :: i < |turns| ==> IsTurnOf(node, localNode, made, w, script, turns, i)
    requires IsTurn(node, localNode, made, Replay(w, Joined(turns)), script[|turns|], acts, saved, events)
    ensures forall i: nat :: i < |turns| + 1 ==> IsTurnOf(node, localNode, made, w, script, turns + [events], i)
    ensures Replay(w, Joined(turns + [events])) == Replay(Replay(w, Joined(turns)), events)
  {
    var more := turns + [events];
    assert more[..|turns|] == turns;
    ReplayJoins(w, Joined(turns), events);
    forall i: nat | i < |more| ensures IsTurnOf(node, localNode, made, w, script, more, i) {
      assert more[..i] == turns[..i];
      if i < |turns| {
        assert IsTurnOf(node, localNode, made, w, script, turns, i);
      } else {
        assert IsTurn(node, localNode, made, Replay(w, Joined(more[..i])), script[i], acts, saved, more[i]);
      }
    }
  }

  /** The loop: restore or start, then take the turns of the script until the first error. It goes as the protocol
      goes from the launch on with exactly the turns' samples, clocks and saves, and with an executor that refuses
      only what it must; disk and calls are those of the protocol at the end. */
  method RunAutoGuard(store: Store, e: Executor, launchedAt: int, configured: GuardConfig, configuredRevision: int,
                      io: RestoreIo, script: seq<Turn>, ghost w0: World)
    returns (ghost turns: seq<seq<Event>>)
    requires launchedAt > ZERO_INSTANT && forall i :: 0 <= i < |script| ==> script[i].reloadedAt > ZERO_INSTANT
    requires Shows(store, e, None, w0)
    modifies store, e, e.host
    ensures var w := Next(w0, Launch(launchedAt, configured, configuredRevision, io));
      && FollowsScript(e.node, e.localNode, old(e.shutdownTimeout), w, script, turns)
      && store.disk == Replay(w, Joined(turns)).disk && e.host.trace == Replay(w, Joined(turns)).calls
  {
    ghost var made, w := e.shutdownTimeout, Next(w0, Launch(launchedAt, configured, configuredRevision, io));
    turns := [];
    var started', config, revision, started := StartEngine(store, e, launchedAt, configured, configuredRevision, io, w0);
    if started'.None? {
      return;
    }
    var engine := started'.value;
    for i := 0 to |script|
      invariant engine.config == config.detection && fresh(engine) && TimeoutKnown(e, made, config)
      invariant |turns| == i && forall k: nat :: k < i ==> IsTurnOf(e.node, e.localNode, made, w, script, turns, k)
      invariant Shows(store, e, Some(ProcessOf(engine, config, revision, started)), Replay(w, Joined(turns)))
    {
      var ok;
      ghost var acts, saved, events;
      ok, engine, config, revision, started, acts, saved, events :=
        TakeTurn(store, e, engine, config, revision, started, script[i], made, Replay(w, Joined(turns)));
      TurnsNext(e.node, e.localNode, made, w, script, turns, acts, saved, events);
      turns := turns + [events];
      if !ok {
        return;
      }
    }
  }

  // ----- what the promises about runs say of the loop -----

  /** Every event of the turns stands in one of them. */
  lemma {:induction false} WhereInTurns(turns: seq<seq<Event>>, k: nat) returns (i: nat, j: nat)
    requires k < |Joined(turns)|
    ensures i < |turns| && j < |turns[i]| && turns[i][j] == Joined(turns)[k]
  {
    var most := turns[..|turns| - 1];
    if k < |Joined(most)| {
      i, j := WhereInTurns(most, k);
    } else {
      i, j := |turns| - 1, k - |Joined(most)|;
    }
  }

  /** An event of a turn is its sample, its save, or an act at its clock's readings with a legal force-stop. */
  ghost predicate OfTurn(t: Turn, e: Event) {
    || e == TickOf(t) || e == Persist(t.save)
    || (e.Act? && Legal(e.response.force) && exists k: nat :: e.response.second == t.clock(k).start.second)
  }

  lemma EventOfTurn(node: string, localNode: string, made: int, w: World, t: Turn, acts: seq<Event>, saved: bool, events: seq<Event>, j: nat)
    requires IsTurn(node, localNode, made, w, t, acts, saved, events) && j < |events|
    ensures OfTurn(t, events[j])
  {
    if 0 < j <= |acts| {
      var k := j - 1;
      assert events[j] == acts[k] && IsAct(node, localNode, made, Next(w, TickOf(t)), t.clock, acts, k);
      assert events[j].response.second == t.clock(k).start.second;
    }
  }

  lemma EventOfScript(node: string, localNode: string, made: int, w: World, script: seq<Turn>, turns: seq<seq<Event>>, k: nat)
    returns (i: nat)
    requires FollowsScript(node, localNode, made, w, script, turns) && k < |Joined(turns)|
    ensures i < |script| && OfTurn(script[i], Joined(turns)[k])
  {
    var j;
    i, j := WhereInTurns(turns, k);
    assert IsTurnOf(node, localNode, made, w, script, turns, i);
    var acts, saved :| IsTurn(node, localNode, made, Replay(w, Joined(turns[..i])), script[i], acts, saved, turns[i]);
    EventOfTurn(node, localNode, made, Replay(w, Joined(turns[..i])), script[i], acts, saved, turns[i], j);
  }

  /** The loop's commands are allowed, its poweroffs directly follow a listing that shows every guest stopped, and
      what it is said to have done is what the node accepted. */
  lemma LoopCallsAreSafe(node: string, localNode: string, made: int, w: World, script: seq<Turn>, turns: seq<seq<Event>>)
    requires FollowsScript(node, localNode, made, w, script, turns) && Faithful(w)
    ensures Faithful(Replay(w, Joined(turns)))
  {
    var events := Joined(turns);
    forall k: nat | k < |events| ensures LegalForce(events[k]) {
      var _ := EventOfScript(node, localNode, made, w, script, turns, k);
    }
    var ws := ReplayIsRun(w, events);
    RunsAreFaithful(ws, events, |events|);
  }

  /** A loop whose clock is past the total budget of the outage on disk makes no call while the record is kept. */
  lemma SpentLoopMakesNoCall(node: string, localNode: string, made: int, w: World, script: seq<Turn>, turns: seq<seq<Event>>)
    requires FollowsScript(node, localNode, made, w, script, turns) && Sound(w)
    requires w.disk.Some? && w.disk.value.boot == w.boot && RecordDeadlines(w.disk.value).Some?
    requires forall i: nat, k: nat :: i < |script| ==> script[i].clock(k).start.second >= RecordDeadlines(w.disk.value).value.total
    requires forall n: nat :: n <= |Joined(turns)| ==> Replay(w, Joined(turns)[..n]).disk.Some?
    ensures Replay(w, Joined(turns)).calls == w.calls
  {
    var events, total := Joined(turns), RecordDeadlines(w.disk.value).value.total;
    forall k: nat | k < |events| ensures NotBefore(events[k], total) && !events[k].Reboot? {
      var i := EventOfScript(node, localNode, made, w, script, turns, k);
      if events[k].Act? {
        var m: nat :| events[k].response.second == script[i].clock(m).start.second;
      }
    }
    var ws := ReplayIsRun(w, events);
    forall n: nat | n <= |events| ensures ws[n] == Replay(w, events[..n]) && ws[n].boot == w.boot {
      RunReplays(w, ws, events, n);
    }
    SpentBudgetNeverActs(ws, events, 0, |events|);
    assert events[..|events|] == events;
  }

  lemma BootKept(w: World, e: Event)
    requires !e.Reboot?
    ensures Next(w, e).boot == w.boot
  {}

  // What the step to the last of n events is, away from the run.
  lemma ReplaysOne(w: World, events: seq<Event>, n: nat, before: World, after: World)
    requires 0 < n <= |events| && before == Replay(w, events[..n - 1]) && after == Next(before, events[n - 1])
    ensures after == Replay(w, events[..n])
  {
    assert events[..n] == events[..n - 1] + [events[n - 1]];
    ReplayNext(w, events[..n - 1], events[n - 1]);
  }

  lemma {:induction false} RunReplays(w: World, ws: seq<World>, events: seq<Event>, n: nat)
    requires IsRun(ws, events) && ws[0] == w && n <= |events| && forall k: nat :: k < |events| ==> !events[k].Reboot?
    ensures ws[n] == Replay(w, events[..n]) && ws[n].boot == w.boot
  {
    if n > 0 {
      RunReplays(w, ws, events, n - 1);
      assert StepAt(ws, events, n - 1);
      BootKept(ws[n - 1], events[n - 1]);
      ReplaysOne(w, events, n, ws[n - 1], ws[n]);
    }
  }
}
