/** Promises about every run of the guard, with crashes and restarts anywhere. */
module GuardSafety {
  import opened Common
  import opened PowerCore
  import opened EngineHistory
  import opened PveExec
  import opened PveReader
  import opened GuardState
  import opened GuardLoop

  function RecordDeadlines(rec: Record): Option<Deadlines> {
    GuardDeadlines(rec.origin, rec.detection, rec.memory.status)
  }

  function RecordOutage(rec: Record): int {
    OutageOf(rec.origin, rec.memory.status)
  }

  /** The host is not rebooted between worlds i and j. */
  ghost predicate SameBoot(ws: seq<World>, events: seq<Event>, i: nat, j: nat)
    requires |ws| == |events| + 1 && i <= j < |ws|
  {
    forall k: nat :: i <= k <= j ==> ws[k].boot == ws[i].boot
  }

  /** A record stays on disk from world i to world j. */
  ghost predicate Held(ws: seq<World>, events: seq<Event>, i: nat, j: nat)
    requires |ws| == |events| + 1 && i <= j < |ws|
  {
    SameBoot(ws, events, i, j) && forall k: nat :: i <= k <= j ==> ws[k].disk.Some?
  }

  // ----- deadlines -----

  lemma OutageStartSticks(c: Config, m: Memory, at: int, s: Snapshot)
    requires c.Valid() && Reachable(c, m.status) && Step(c, m, at, s).Ok?
    requires m.status.outageAt.Some?
    ensures var next := Step(c, m, at, s).value.memory.status;
      if Cancels(c, m.status, s) then next.state == Normal else next.outageAt == m.status.outageAt
  {}

  /** One step on one boot that leaves a record on disk leaves its outage and timing alone. */
  lemma NextKeepsRecord(w: World, e: Event)
    requires Sound(w) && w.disk.Some? && w.disk.value.boot == w.boot
    requires Next(w, e).disk.Some?
    ensures var kept, rec := w.disk.value, Next(w, e).disk.value;
      && rec.boot == kept.boot && rec.origin == kept.origin && rec.revision == kept.revision
      && rec.detection == kept.detection
      && rec.memory.status.outageAt == kept.memory.status.outageAt
  {
    if e.Persist? && w.process.Some? && w.process.value.stage.Acting? {
      var p := w.process.value;
      OutageStartSticks(p.config.detection, p.stage.before, p.stage.at, p.stage.seen);
    }
  }

  /** A guard process and the record on disk give the same deadlines. */
  lemma ProcessUsesRecord(w: World)
    requires Sound(w) && w.disk.Some? && w.process.Some? && w.process.value.memory.status.outageAt.Some?
    ensures var p := w.process.value;
      ProcessDeadlines(p) == RecordDeadlines(w.disk.value)
  {
    var p := w.process.value;
    if p.stage.Acting? {
      OutageStartSticks(p.config.detection, p.stage.before, p.stage.at, p.stage.seen);
    }
  }

  ghost predicate SameOutage(a: Record, b: Record) {
    && a.origin == b.origin && a.detection == b.detection
    && a.memory.status.outageAt == b.memory.status.outageAt
  }

  lemma {:induction false} RecordSurvives(ws: seq<World>, events: seq<Event>, i: nat, j: nat)
    requires IsRun(ws, events) && Sound(ws[0]) && i <= j < |ws| && Held(ws, events, i, j)
    requires ws[i].disk.value.boot == ws[i].boot
    ensures var first, last := ws[i], ws[j];
      last.disk.value.boot == last.boot && SameOutage(first.disk.value, last.disk.value)
  {
    if i < j {
      assert Held(ws, events, i, j - 1);
      RecordSurvives(ws, events, i, j - 1);
      RunSound(ws, events, j - 1);
      assert StepAt(ws, events, j - 1);
      NextKeepsRecord(ws[j - 1], events[j - 1]);
    }
  }

  /** Once an outage is on disk its two deadlines are the same absolute instants after every crash and
      restart, for as long as the record is kept; and every guard process alive then uses exactly them. */
  lemma DeadlinesSurviveCrashes(ws: seq<World>, events: seq<Event>, i: nat, j: nat)
    requires IsRun(ws, events) && Sound(ws[0]) && i <= j < |ws| && Held(ws, events, i, j)
    requires ws[i].disk.value.boot == ws[i].boot
    ensures var first, last := ws[i], ws[j];
      && RecordDeadlines(first.disk.value).Some?
      && RecordDeadlines(last.disk.value) == RecordDeadlines(first.disk.value)
      && (last.process.Some? && last.process.value.memory.status.outageAt.Some? ==>
            var p := last.process.value;
            ProcessDeadlines(p) == RecordDeadlines(first.disk.value))
  {
    RecordSurvives(ws, events, i, j);
    RunSound(ws, events, i);
    RunSound(ws, events, j);
    var last := ws[j];
    if last.process.Some? && last.process.value.memory.status.outageAt.Some? {
      ProcessUsesRecord(last);
    }
  }

  /** What a restart on the same boot makes of a guard that was killed at any point: with a record on disk the
      process comes back as it was when its iteration began; without one nothing was open when the iteration
      began, and a new engine starts; and if the disk cannot be read there is no process and the record stays. */
  lemma CrashResumes(w: World, now: int, config: GuardConfig, revision: int, io: RestoreIo)
    requires Sound(w) && w.process.Some? && now > ZERO_INSTANT
    ensures var p, again := w.process.value, Next(Next(w, Crash), Launch(now, config, revision, io));
      && again.disk == w.disk && again.effects == w.effects && again.calls == w.calls
      && again.process == (
           if w.disk.Some? then
             if io.readOk
             then Some(Process(config.(detection := p.config.detection), p.revision, p.started, Base(p), Looping))
             else None
           else if config.detection.Valid() then Some(Process(config, revision, now, INITIAL, Looping))
           else None)
      && (w.disk.None? ==> Base(p).status.state in {Normal, PoweredOff})
  {}

  /** And what a reboot makes of it: a record of another boot is removed, and a new engine starts. */
  lemma RebootStartsAfresh(w: World, boot: string, now: int, config: GuardConfig, revision: int)
    requires Sound(w) && now > ZERO_INSTANT && config.detection.Valid()
    requires w.disk.Some? ==> w.disk.value.boot != boot
    ensures var again := Next(Next(w, Reboot(boot)), Launch(now, config, revision, RestoreIo(true, true)));
      && again.boot == boot && again.disk == None && again.effects == w.effects && again.calls == w.calls
      && again.process == Some(Process(config, revision, now, INITIAL, Looping))
  {}

  // ----- effect before forgetting -----

  ghost predicate PoweredOffFor(w: World, outage: int) {
    exists e :: e in w.effects && e.HostPoweredOff? && e.outage == outage && AllGuestsStopped(e.listing)
  }

  /** The event saves an iteration that cancelled the outage. */
  ghost predicate SavesCancellation(w: World, e: Event) {
    && e.Persist? && e.save.Written?
    && w.process.Some? && w.process.value.stage.Acting? && w.process.value.stage.todo == []
    && OutageCancelled in Kinds(w.process.value.stage.finished)
  }

  lemma ClearingStep(c: Config, m: Memory, at: int, s: Snapshot)
    requires c.Valid() && Reachable(c, m.status) && m.status.state in {Confirming, ShuttingDown}
    requires Step(c, m, at, s).Ok?
    ensures var next := Step(c, m, at, s).value;
      && (next.memory.status.state == Normal ==> OutageCancelled in Kinds(next.actions))
      && (next.memory.status.state == PoweredOff ==>
            HostPoweroffRequested in Kinds(next.actions) && next.memory.status.outageAt == m.status.outageAt)
  {
    ReactEmits(c, m.status, at, s);
  }

  /** On one boot a record is removed only by saving a cancellation, or after the host poweroff it calls
      for was accepted with every guest seen stopped. */
  lemma ForgettingNeedsEffect(w: World, e: Event)
    requires Sound(w) && w.disk.Some? && w.disk.value.boot == w.boot && Next(w, e).disk.None?
    ensures SavesCancellation(w, e) || PoweredOffFor(w, RecordOutage(w.disk.value))
  {
    assert e.Persist?;
    var p := w.process.value;
    assert p.stage.finished + p.stage.todo == p.stage.finished;
    ClearingStep(p.config.detection, p.stage.before, p.stage.at, p.stage.seen);
  }

  lemma EffectsGrow(w: World, e: Event)
    ensures w.effects <= Next(w, e).effects
  {}

  ghost predicate CancelledBetween(ws: seq<World>, events: seq<Event>, i: nat, j: nat)
    requires |ws| == |events| + 1 && i <= j < |ws|
  {
    exists k: nat :: i <= k < j && SavesCancellation(ws[k], events[k])
  }

  ghost predicate Accounted(w: World, outage: int) {
    || (w.disk.Some? && w.disk.value.boot == w.boot && RecordOutage(w.disk.value) == outage)
    || PoweredOffFor(w, outage)
  }

  lemma NextAccounts(w: World, e: Event, outage: int)
    requires Sound(w) && Accounted(w, outage) && Next(w, e).boot == w.boot
    ensures Accounted(Next(w, e), outage) || SavesCancellation(w, e)
  {
    EffectsGrow(w, e);
    if !PoweredOffFor(w, outage) {
      if Next(w, e).disk.Some? {
        NextKeepsRecord(w, e);
      } else {
        ForgettingNeedsEffect(w, e);
      }
    }
  }

  /** No crash, error or restart loses a saved outage: later on the same boot it is still on disk, or the
      host was powered off for it, or a cancellation was saved on the way. */
  lemma {:induction false} NeverForgotten(ws: seq<World>, events: seq<Event>, i: nat, j: nat)
    requires IsRun(ws, events) && Sound(ws[0]) && i <= j < |ws| && SameBoot(ws, events, i, j)
    requires ws[i].disk.Some? && ws[i].disk.value.boot == ws[i].boot
    ensures CancelledBetween(ws, events, i, j)
      || Accounted(ws[j], RecordOutage(ws[i].disk.value))
  {
    if i < j {
      assert SameBoot(ws, events, i, j - 1);
      NeverForgotten(ws, events, i, j - 1);
      if CancelledBetween(ws, events, i, j - 1) {
        var k: nat :| i <= k < j - 1 && SavesCancellation(ws[k], events[k]);
        assert CancelledBetween(ws, events, i, j);
      } else {
        RunSound(ws, events, j - 1);
        assert StepAt(ws, events, j - 1);
        NextAccounts(ws[j - 1], events[j - 1], RecordOutage(ws[i].disk.value));
      }
    }
  }

  // ----- a confirmation that comes too late -----

  /** The graceful stop is carried out iff the clock still reads before the emergency instant, and the
      two looks at the clock lie within the stop's own timeout. */
  lemma GracefulAcceptedIffInTime(p: Process, r: Response)
    requires GoodProcess(p) && p.memory.status.outageAt.Some?
    ensures Execute(p.config, ProcessDeadlines(p), Outage(p), GracefulShutdown, r).0 <==>
      && r.second < p.started + p.memory.status.outageAt.value + p.config.detection.EmergencyAfter()
      && r.second < r.first + (p.config.guestTimeoutSeconds + 20) * SECOND
  {}

  /** The stop of this outage's guests has not been tried: the saved state is still confirming, and no
      iteration under way has got past the request. */
  ghost predicate Pending(w: World) {
    && w.disk.Some? && w.disk.value.boot == w.boot
    && w.disk.value.memory.status.state == Confirming
    && (w.process.Some? && w.process.value.stage.Acting? ==>
          GracefulShutdown !in Kinds(w.process.value.stage.finished))
  }

  /** Clock readings of this event are at or past the instant. */
  ghost predicate NotBefore(e: Event, instant: int) {
    e.Act? || e.Cut? ==> e.response.second >= instant
  }

  /** What a sample of a confirming engine can lead to. */
  lemma ConfirmingActions(c: Config, m: Memory, at: int, s: Snapshot)
    requires c.Valid() && Reachable(c, m.status) && m.status.state == Confirming && Step(c, m, at, s).Ok?
    ensures var next := Step(c, m, at, s).value;
      var kinds := Kinds(next.actions);
      if Confirms(c, m.status, at, s) then
        |kinds| > 0 && kinds[0] == GracefulShutdown && next.memory.status.outageAt == m.status.outageAt
      else
        && (forall k :: k in kinds ==> k == OutageCancelled)
        && next.memory.status.state in {Normal, Confirming}
  {
    ReactKinds(c, m.status, at, s);
  }

  lemma LateActChangesNothing(w: World, e: Event)
    requires Sound(w) && Pending(w) && (e.Act? || e.Cut?)
    requires NotBefore(e, RecordDeadlines(w.disk.value).value.emergency)
    ensures Next(w, e).effects == w.effects && Next(w, e).calls == w.calls
    ensures Next(w, e).disk == w.disk && Pending(Next(w, e))
  {
    if w.process.Some? && w.process.value.stage.Acting? && w.process.value.stage.todo != [] {
      var p := w.process.value;
      var st := p.stage;
      ConfirmingActions(p.config.detection, st.before, st.at, st.seen);
      var actions := st.finished + st.todo;
      assert Kinds(st.finished + [st.todo[0]]) == Kinds(st.finished) + [st.todo[0].kind];
      if Confirms(p.config.detection, st.before.status, st.at, st.seen) {
        assert actions[0].kind == GracefulShutdown;
        assert st.finished == [];
        assert st.todo[0] == actions[0];
      } else {
        assert st.todo[0] == actions[|st.finished|];
        assert Kinds(actions)[|st.finished|] == st.todo[0].kind;
        assert w.effects + [] == w.effects && w.calls + [] == w.calls;
      }
    }
  }

  lemma NextStaysPending(w: World, e: Event)
    requires Sound(w) && Pending(w) && Next(w, e).disk.Some? && Next(w, e).boot == w.boot
    requires NotBefore(e, RecordDeadlines(w.disk.value).value.emergency)
    ensures Next(w, e).effects == w.effects && Next(w, e).calls == w.calls && Pending(Next(w, e))
  {
    if e.Act? || e.Cut? {
      LateActChangesNothing(w, e);
    } else if e.Persist? && w.process.Some? && w.process.value.stage.Acting? && w.process.value.stage.todo == [] {
      var p := w.process.value;
      assert p.stage.finished + p.stage.todo == p.stage.finished;
      ConfirmingActions(p.config.detection, p.stage.before, p.stage.at, p.stage.seen);
    }
  }

  /** If the emergency instant passes before the graceful stop was accepted, the guard never acts for that
      outage: while its record is kept, no restart makes a single call to the node. */
  lemma {:induction false} LateConfirmationNeverActs(ws: seq<World>, events: seq<Event>, i: nat, j: nat)
    requires IsRun(ws, events) && Sound(ws[0]) && i <= j < |ws| && Held(ws, events, i, j) && Pending(ws[i])
    requires RecordDeadlines(ws[i].disk.value).Some?
    requires forall k: nat :: i <= k < j ==>
      NotBefore(events[k], RecordDeadlines(ws[i].disk.value).value.emergency)
    ensures Pending(ws[j]) && ws[j].effects == ws[i].effects && ws[j].calls == ws[i].calls
  {
    if i < j {
      assert Held(ws, events, i, j - 1);
      LateConfirmationNeverActs(ws, events, i, j - 1);
      RunSound(ws, events, j - 1);
      assert StepAt(ws, events, j - 1);
      RecordSurvives(ws, events, i, j - 1);
      NextStaysPending(ws[j - 1], events[j - 1]);
    }
  }

  // ----- the graceful stop is tried first -----

  ghost predicate Tried(w: World, outage: int) {
    StopAttempted(outage) in w.effects
  }

  /** Everything else that is done for an outage comes after its graceful stop was tried. */
  ghost predicate StopFirst(effects: seq<Effect>) {
    forall k :: 0 <= k < |effects| && !effects[k].StopAttempted? ==> StopAttempted(effects[k].outage) in effects[..k]
  }

  ghost predicate Ordered(w: World) {
    && StopFirst(w.effects)
    && (w.disk.Some? && w.disk.value.memory.status.state == ShuttingDown ==> Tried(w, RecordOutage(w.disk.value)))
    && (w.process.Some? && w.process.value.stage.Acting? ==>
          GracefulShutdown in Kinds(w.process.value.stage.finished) ==> Tried(w, Outage(w.process.value)))
  }

  /** In one sample the request to the guests comes before anything stronger. */
  lemma GracefulComesFirst(c: Config, m: Memory, at: int, s: Snapshot, k: nat)
    requires c.Valid() && Reachable(c, m.status) && Step(c, m, at, s).Ok?
    requires k < |Step(c, m, at, s).value.actions|
    ensures var kinds := Kinds(Step(c, m, at, s).value.actions);
      kinds[k] in {EmergencyStopRemaining, HostPoweroffRequested} ==>
        m.status.state == ShuttingDown || GracefulShutdown in kinds[..k]
  {
    ReactKinds(c, m.status, at, s);
    var kinds := Kinds(Step(c, m, at, s).value.actions);
    if Confirms(c, m.status, at, s) {
      var g := if Starts(m.status, s) then 1 else 0;
      assert kinds[g] == GracefulShutdown;
      if g < k {
        assert kinds[..k][g] == GracefulShutdown;
      }
    }
  }

  lemma StrongActionsWereTried(w: World, p: Process)
    requires Sound(w) && Ordered(w) && w.process == Some(p) && p.stage.Acting? && p.stage.todo != []
    ensures p.stage.todo[0].kind in {EmergencyStopRemaining, HostPoweroffRequested} ==> Tried(w, Outage(p))
  {
    var st := p.stage;
    var actions := st.finished + st.todo;
    assert actions[|st.finished|] == st.todo[0];
    GracefulComesFirst(p.config.detection, st.before, st.at, st.seen, |st.finished|);
    assert Kinds(actions)[..|st.finished|] == Kinds(st.finished);
    if st.before.status.state == ShuttingDown {
      OutageStartSticks(p.config.detection, st.before, st.at, st.seen);
    }
  }

  lemma ActOrdered(w: World, e: Event)
    requires Sound(w) && Ordered(w) && e.Act?
    ensures Ordered(Next(w, e))
  {
    if w.process.Some? && w.process.value.stage.Acting? && w.process.value.stage.todo != [] {
      var p := w.process.value;
      var finished, action := p.stage.finished, p.stage.todo[0];
      StrongActionsWereTried(w, p);
      assert Kinds(finished + [action]) == Kinds(finished) + [action.kind];
      AppendOrdered(w, p, Execute(p.config, ProcessDeadlines(p), Outage(p), action.kind, e.response).1);
    }
  }

  lemma CutOrdered(w: World, e: Event)
    requires Sound(w) && Ordered(w) && e.Cut?
    ensures Ordered(Next(w, e))
  {
    if w.process.Some? && w.process.value.stage.Acting? && w.process.value.stage.todo != [] {
      var p := w.process.value;
      StrongActionsWereTried(w, p);
      AppendOrdered(w, p, CutEffects(p.config, ProcessDeadlines(p), Outage(p), p.stage.todo[0].kind, e.response, e.made));
    }
  }

  lemma AppendOrdered(w: World, p: Process, added: seq<Effect>)
    requires StopFirst(w.effects) && forall x :: x in added ==> x.outage == Outage(p)
    requires added != [] ==> added[0].StopAttempted? || Tried(w, Outage(p))
    ensures StopFirst(w.effects + added)
  {
    var all := w.effects + added;
    forall k | 0 <= k < |all| && !all[k].StopAttempted? ensures StopAttempted(all[k].outage) in all[..k] {
      if k < |w.effects| {
        assert all[..k] == w.effects[..k];
      } else {
        assert all[k] in added;
        assert w.effects == all[..k][..|w.effects|];
        assert added[0] == all[|w.effects|] && added[0] in added;
        if !Tried(w, Outage(p)) {
          assert all[..k][|w.effects|] == added[0];
        }
      }
    }
  }

  lemma PersistOrdered(w: World, e: Event)
    requires Sound(w) && Ordered(w) && e.Persist?
    ensures Ordered(Next(w, e))
  {
    if w.process.Some? && w.process.value.stage.Acting? && w.process.value.stage.todo == [] {
      var p := w.process.value;
      var st := p.stage;
      assert st.finished + st.todo == st.finished;
      if p.memory.status.state == ShuttingDown {
        GracefulOrAlready(p.config.detection, st.before, st.at, st.seen);
        if st.before.status.state == ShuttingDown {
          OutageStartSticks(p.config.detection, st.before, st.at, st.seen);
        }
      }
    }
  }

  lemma GracefulOrAlready(c: Config, m: Memory, at: int, s: Snapshot)
    requires c.Valid() && Reachable(c, m.status) && Step(c, m, at, s).Ok?
    requires Step(c, m, at, s).value.memory.status.state == ShuttingDown
    ensures m.status.state == ShuttingDown || GracefulShutdown in Kinds(Step(c, m, at, s).value.actions)
  {
    ReactEmits(c, m.status, at, s);
  }

  lemma NextOrdered(w: World, e: Event)
    requires Sound(w) && Ordered(w)
    ensures Ordered(Next(w, e))
  {
    match e
    case Act(_) => ActOrdered(w, e);
    case Cut(_, _) => CutOrdered(w, e);
    case Persist(_) => PersistOrdered(w, e);
    case Launch(_, _, _, _) =>
    case Tick(_, _, _, _) =>
    case Crash =>
    case Reboot(_) =>
  }

  /** In every run, whatever crashes and restarts happen, no guest is told to stop, none is forced and the host
      is not powered off for an outage whose graceful stop was not tried before. */
  lemma {:induction false} StopAlwaysTriedFirst(ws: seq<World>, events: seq<Event>, n: nat)
    requires IsRun(ws, events) && n < |ws| && Sound(ws[0]) && Ordered(ws[0])
    ensures Ordered(ws[n]) && StopFirst(ws[n].effects)
  {
    if n > 0 {
      StopAlwaysTriedFirst(ws, events, n - 1);
      RunSound(ws, events, n - 1);
      assert StepAt(ws, events, n - 1);
      NextOrdered(ws[n - 1], events[n - 1]);
    }
  }

  // ----- whether the guests were told -----

  /** The event carries out the graceful stop of this outage in time, if only up to the command, and the node
      accepts it. */
  ghost predicate TellsGuests(w: World, e: Event, outage: int) {
    && (e.Act? || (e.Cut? && e.made > 0))
    && w.process.Some? && w.process.value.stage.Acting? && w.process.value.stage.todo != []
    && var p := w.process.value;
      && p.stage.todo[0].kind == GracefulShutdown && Outage(p) == outage && p.memory.status.outageAt.Some?
      && e.response.second < p.started + p.memory.status.outageAt.value + p.config.detection.EmergencyAfter()
      && e.response.second < e.response.first + (p.config.guestTimeoutSeconds + 20) * SECOND
      && StopAccepted(p.config, e.response.stop)
  }

  lemma ActingGracefulIsOpen(w: World, p: Process)
    requires Sound(w) && w.process == Some(p) && p.stage.Acting? && p.stage.todo != []
    requires p.stage.todo[0].kind == GracefulShutdown
    ensures p.memory.status.outageAt.Some?
  {
    var st := p.stage;
    var actions := st.finished + st.todo;
    assert actions[|st.finished|] == st.todo[0];
    assert Kinds(actions)[|st.finished|] == GracefulShutdown;
    ReactEmits(p.config.detection, st.before.status, st.at, st.seen);
    ConfirmingState(p.config.detection, st.before.status, st.at, st.seen);
  }

  lemma NextTells(w: World, e: Event, outage: int)
    requires Sound(w)
    ensures GuestsToldToStop(outage) in Next(w, e).effects <==>
      GuestsToldToStop(outage) in w.effects || TellsGuests(w, e, outage)
  {
    if (e.Act? || e.Cut?) && w.process.Some? && w.process.value.stage.Acting? && w.process.value.stage.todo != [] {
      var p := w.process.value;
      var added := AddedEffects(p, e);
      assert Next(w, e).effects == w.effects + added;
      assert GuestsToldToStop(outage) in w.effects + added <==> GuestsToldToStop(outage) in w.effects || GuestsToldToStop(outage) in added;
      if p.stage.todo[0].kind == GracefulShutdown {
        ActingGracefulIsOpen(w, p);
        TellsInTime(p, e, outage);
      }
    }
  }

  /** What an act, whole or cut, adds to the effects. */
  ghost function AddedEffects(p: Process, e: Event): seq<Effect>
    requires (e.Act? || e.Cut?) && p.stage.Acting? && p.stage.todo != []
  {
    var kind, d := p.stage.todo[0].kind, ProcessDeadlines(p);
    if e.Act? then Execute(p.config, d, Outage(p), kind, e.response).1
    else CutEffects(p.config, d, Outage(p), kind, e.response, e.made)
  }

  lemma TellsInTime(p: Process, e: Event, outage: int)
    requires (e.Act? || e.Cut?) && p.stage.Acting? && p.stage.todo != [] && p.stage.todo[0].kind == GracefulShutdown
    requires GoodProcess(p) && p.memory.status.outageAt.Some?
    ensures GuestsToldToStop(outage) in AddedEffects(p, e) <==>
      && (e.Act? || e.made > 0) && Outage(p) == outage
      && e.response.second < p.started + p.memory.status.outageAt.value + p.config.detection.EmergencyAfter()
      && e.response.second < e.response.first + (p.config.guestTimeoutSeconds + 20) * SECOND
      && StopAccepted(p.config, e.response.stop)
  {
    GracefulAcceptedIffInTime(p, e.response);
  }

  /** Over every run: the guests were told to stop for an outage iff at some step its graceful stop was carried
      out in time and the node accepted the command. */
  lemma {:induction false} ToldIffAccepted(ws: seq<World>, events: seq<Event>, n: nat, outage: int)
    requires IsRun(ws, events) && n < |ws| && Sound(ws[0])
    ensures GuestsToldToStop(outage) in ws[n].effects <==>
      || GuestsToldToStop(outage) in ws[0].effects
      || exists k: nat :: k < n && TellsGuests(ws[k], events[k], outage)
  {
    if n > 0 {
      ToldIffAccepted(ws, events, n - 1, outage);
      RunSound(ws, events, n - 1);
      assert StepAt(ws, events, n - 1);
      NextTells(ws[n - 1], events[n - 1], outage);
    }
  }

  // ----- whether the host was powered off -----

  /** The event carries out the poweroff of this outage in time, on a listing with every guest stopped, and the
      node accepts it; its process may be killed right after. */
  ghost predicate PowersOff(w: World, e: Event, outage: int, listing: seq<Guest>) {
    && (e.Act? || (e.Cut? && e.made >= 2))
    && w.process.Some? && w.process.value.stage.Acting? && w.process.value.stage.todo != []
    && var p := w.process.value;
      && p.stage.todo[0].kind == HostPoweroffRequested && Outage(p) == outage && p.memory.status.outageAt.Some?
      && e.response.second < p.started + p.memory.status.outageAt.value + p.config.detection.totalBudget
      && e.response.second < e.response.first + 10 * SECOND
      && PoweroffAccepted(e.response.off) && e.response.off.before == Some(listing)
  }

  lemma ActingPoweroffIsOpen(w: World, p: Process)
    requires Sound(w) && w.process == Some(p) && p.stage.Acting? && p.stage.todo != []
    requires p.stage.todo[0].kind == HostPoweroffRequested
    ensures p.memory.status.outageAt.Some?
  {
    var st := p.stage;
    var actions := st.finished + st.todo;
    assert actions[|st.finished|] == st.todo[0];
    assert Kinds(actions)[|st.finished|] == HostPoweroffRequested;
    ReactEmits(p.config.detection, st.before.status, st.at, st.seen);
    if !st.before.status.graceful {
      ConfirmingState(p.config.detection, st.before.status, st.at, st.seen);
    }
  }

  lemma PowersOffInTime(p: Process, e: Event, outage: int, listing: seq<Guest>)
    requires (e.Act? || e.Cut?) && p.stage.Acting? && p.stage.todo != [] && p.stage.todo[0].kind == HostPoweroffRequested
    requires GoodProcess(p) && p.memory.status.outageAt.Some?
    ensures HostPoweredOff(outage, listing) in AddedEffects(p, e) <==>
      && (e.Act? || e.made >= 2) && Outage(p) == outage
      && e.response.second < p.started + p.memory.status.outageAt.value + p.config.detection.totalBudget
      && e.response.second < e.response.first + 10 * SECOND
      && PoweroffAccepted(e.response.off) && e.response.off.before == Some(listing)
  {}

  lemma NextPowersOff(w: World, e: Event, outage: int, listing: seq<Guest>)
    requires Sound(w)
    ensures HostPoweredOff(outage, listing) in Next(w, e).effects <==>
      HostPoweredOff(outage, listing) in w.effects || PowersOff(w, e, outage, listing)
  {
    if (e.Act? || e.Cut?) && w.process.Some? && w.process.value.stage.Acting? && w.process.value.stage.todo != [] {
      var p := w.process.value;
      var x, added := HostPoweredOff(outage, listing), AddedEffects(p, e);
      assert Next(w, e).effects == w.effects + added;
      assert x in w.effects + added <==> x in w.effects || x in added;
      if p.stage.todo[0].kind == HostPoweroffRequested {
        ActingPoweroffIsOpen(w, p);
        PowersOffInTime(p, e, outage, listing);
      }
    }
  }

  /** Over every run: the host was powered off for an outage iff at some step the poweroff asked for it came
      before the end of the total budget, on a listing with every guest stopped, and was accepted. */
  lemma {:induction false} PoweredOffIffAccepted(ws: seq<World>, events: seq<Event>, n: nat, outage: int, listing: seq<Guest>)
    requires IsRun(ws, events) && n < |ws| && Sound(ws[0])
    ensures HostPoweredOff(outage, listing) in ws[n].effects <==>
      || HostPoweredOff(outage, listing) in ws[0].effects
      || exists k: nat :: k < n && PowersOff(ws[k], events[k], outage, listing)
  {
    if n > 0 {
      PoweredOffIffAccepted(ws, events, n - 1, outage, listing);
      RunSound(ws, events, n - 1);
      assert StepAt(ws, events, n - 1);
      NextPowersOff(ws[n - 1], events[n - 1], outage, listing);
    }
  }

  // ----- when the budget is used up -----

  /** A process with an outage on disk that acts after the total budget of that outage makes no call. */
  lemma SpentActChangesNothing(w: World, e: Event)
    requires Sound(w) && w.disk.Some? && w.disk.value.boot == w.boot && (e.Act? || e.Cut?)
    requires RecordDeadlines(w.disk.value).Some? && e.response.second >= RecordDeadlines(w.disk.value).value.total
    ensures Next(w, e).effects == w.effects && Next(w, e).calls == w.calls
  {
    if w.process.Some? && w.process.value.stage.Acting? && w.process.value.stage.todo != [] {
      var p := w.process.value;
      var kind := p.stage.todo[0].kind;
      assert w.effects + [] == w.effects && w.calls + [] == w.calls;
      if kind == GracefulShutdown {
        ActingGracefulIsOpen(w, p);
        ProcessUsesRecord(w);
      } else if kind == HostPoweroffRequested {
        ActingPoweroffIsOpen(w, p);
        ProcessUsesRecord(w);
      } else if kind == EmergencyStopRemaining {
        ActingEmergencyIsOpen(w, p);
        ProcessUsesRecord(w);
      }
    }
  }

  lemma ActingEmergencyIsOpen(w: World, p: Process)
    requires Sound(w) && w.process == Some(p) && p.stage.Acting? && p.stage.todo != []
    requires p.stage.todo[0].kind == EmergencyStopRemaining
    ensures p.memory.status.outageAt.Some?
  {
    var st := p.stage;
    var actions := st.finished + st.todo;
    assert actions[|st.finished|] == st.todo[0];
    assert Kinds(actions)[|st.finished|] == EmergencyStopRemaining;
    ReactEmits(p.config.detection, st.before.status, st.at, st.seen);
    if !st.before.status.graceful {
      ConfirmingState(p.config.detection, st.before.status, st.at, st.seen);
    }
  }

  /** Once the total budget of a saved outage is used up, the guard is disarmed for it in whatever state: while
      the record is kept no restart makes a call to the node, even with all guests stopped and only the poweroff
      left to do. */
  lemma {:induction false} SpentBudgetNeverActs(ws: seq<World>, events: seq<Event>, i: nat, j: nat)
    requires IsRun(ws, events) && Sound(ws[0]) && i <= j < |ws| && Held(ws, events, i, j)
    requires ws[i].disk.value.boot == ws[i].boot && RecordDeadlines(ws[i].disk.value).Some?
    requires forall k: nat :: i <= k < j ==> NotBefore(events[k], RecordDeadlines(ws[i].disk.value).value.total)
    ensures ws[j].effects == ws[i].effects && ws[j].calls == ws[i].calls
  {
    if i < j {
      assert Held(ws, events, i, j - 1);
      SpentBudgetNeverActs(ws, events, i, j - 1);
      RunSound(ws, events, j - 1);
      assert StepAt(ws, events, j - 1);
      RecordSurvives(ws, events, i, j - 1);
      var e := events[j - 1];
      if e.Act? || e.Cut? {
        SpentActChangesNothing(ws[j - 1], e);
      }
    }
  }
}
