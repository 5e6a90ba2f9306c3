/** What the guard decides, in terms of the samples that its saved iterations took, across crashes and restarts. */
module GuardHistory {
  import opened Common
  import opened PowerCore
  import opened EngineHistory
  import opened GuardState
  import opened GuardLoop

  /** The samples behind the record on disk, and those behind the running process: of all iterations that were
      saved since the engine was new. */
  datatype Histories = Histories(disk: seq<Sample>, process: seq<Sample>)

  predicate Reloads(p: Process, stored: Stored) {
    && p.memory.status.state == Normal && stored.Loaded? && stored.production && stored.revision != p.revision
    && stored.config.detection.Valid() && stored.otherwiseValid
  }

  function Saves(h: seq<Sample>, p: Process): seq<Sample>
    requires p.stage.Acting?
  {
    h + [Sample(p.stage.at, p.stage.seen)]
  }

  /** An engine that is new starts an empty history, one that is restored continues that of the record, and a save
      adds the iteration's sample. Nothing else matters: an iteration that was not saved leaves no trace. */
  function NextHistories(w: World, hs: Histories, e: Event): Histories {
    match e
    case Launch(_, _, _, io) =>
      if w.process.Some? then hs
      else hs.(process := if Restoring(w.disk, w.boot, io).0.Resumed? then hs.disk else [])
    case Tick(stored, reloadedAt, _, _) =>
      if w.process.Some? && w.process.value.stage.Looping? && reloadedAt > ZERO_INSTANT && Reloads(w.process.value, stored) then hs.(process := []) else hs
    case Persist(save) =>
      if w.process.None? || !w.process.value.stage.Acting? || w.process.value.stage.todo != [] then hs
      else
        var h, open := Saves(hs.process, w.process.value), w.process.value.memory.status.state !in {Normal, PoweredOff};
        Histories(if open && !save.FailedBefore? then h else hs.disk, h)
    case _ => hs
  }

  ghost function HistoriesAt(ws: seq<World>, events: seq<Event>, n: nat): Histories
    requires IsRun(ws, events) && n < |ws|
  {
    if n == 0 then Histories([], []) else NextHistories(ws[n - 1], HistoriesAt(ws, events, n - 1), events[n - 1])
  }

  /** A new engine that takes these samples ends with this memory. */
  ghost predicate Tells(c: Config, h: seq<Sample>, m: Memory) {
    WellTimed(h) && After(c, h, |h|) == m
  }

  ghost predicate Told(w: World, hs: Histories) {
    && (w.disk.Some? ==> Tells(w.disk.value.detection, hs.disk, w.disk.value.memory))
    && (w.process.Some? ==> Tells(w.process.value.config.detection, hs.process, Base(w.process.value)))
  }

  lemma {:induction false} AfterOfPrefix(c: Config, h: seq<Sample>, more: seq<Sample>, n: nat)
    requires WellTimed(h) && WellTimed(more) && h <= more && n <= |h|
    ensures After(c, h, n) == After(c, more, n)
  {
    if n > 0 {
      AfterOfPrefix(c, h, more, n - 1);
      assert h[n - 1] == more[n - 1];
      SameTaken(c, h, more, n - 1);
    }
  }

  lemma SameTaken(c: Config, h: seq<Sample>, more: seq<Sample>, n: nat)
    requires WellTimed(h) && WellTimed(more) && n < |h| && n < |more| && h[n] == more[n] && After(c, h, n) == After(c, more, n)
    ensures Taken(c, h, n) == Taken(c, more, n)
  {}

  /** One more sample that the engine accepts. */
  lemma TellsNext(c: Config, h: seq<Sample>, m: Memory, at: int, s: Snapshot)
    requires Tells(c, h, m) && Step(c, m, at, s).Ok?
    ensures var more := h + [Sample(at, s)];
      WellTimed(more) && Taken(c, more, |h|) == Step(c, m, at, s).value && Tells(c, more, Step(c, m, at, s).value.memory)
  {
    var more := h + [Sample(at, s)];
    assert m.lastAt == if |h| == 0 then None else Some(h[|h| - 1].at);
    assert WellTimed(more);
    AfterOfPrefix(c, h, more, |h|);
    assert more[|h|] == Sample(at, s);
    assert After(c, more, |more|) == Taken(c, more, |h|).memory;
  }

  lemma SaveTells(p: Process, past: seq<Sample>)
    requires Consistent(p) && p.stage.Acting? && Tells(p.config.detection, past, p.stage.before)
    ensures Tells(p.config.detection, Saves(past, p), p.memory)
  {
    TellsNext(p.config.detection, past, p.stage.before, p.stage.at, p.stage.seen);
  }

  lemma SavedRecord(w: World, p: Process, io: SaveIo)
    requires p.stage.Acting?
    ensures var next, open := Saved(w, p, io), p.memory.status.state !in {Normal, PoweredOff};
      && (next.process.Some? ==> next.process == Some(p.(stage := Looping)))
      && (next.disk.Some? ==> if open && !io.FailedBefore? then
            next.disk.value.detection == p.config.detection && next.disk.value.memory == p.memory
          else next.disk == w.disk)
  {}

  lemma PersistTells(w: World, hs: Histories, e: Event)
    requires Sound(w) && Told(w, hs) && e.Persist?
    ensures Told(Next(w, e), NextHistories(w, hs, e))
  {
    if w.process.Some? && w.process.value.stage.Acting? && w.process.value.stage.todo == [] {
      SaveTells(w.process.value, hs.process);
      SavedRecord(w, w.process.value, e.save);
    }
  }

  lemma NewEngineTells(c: Config)
    ensures Tells(c, [], INITIAL)
  {}

  lemma NextTold(w: World, hs: Histories, e: Event)
    requires Sound(w) && Told(w, hs)
    ensures Told(Next(w, e), NextHistories(w, hs, e))
  {
    match e
    case Launch(_, config, _, _) => NewEngineTells(config.detection);
    case Tick(stored, _, _, _) =>
      if stored.Loaded? {
        NewEngineTells(stored.config.detection);
      }
    case Persist(_) => PersistTells(w, hs, e);
    case Act(_) =>
    case Cut(_, _) =>
    case Crash =>
    case Reboot(_) =>
  }

  /** In every run from a host on which the guard never ran, with crashes and restarts anywhere, the record on disk
      and the memory of every process are those of an engine that took the saved samples without interruption. */
  lemma {:induction false} RunTells(boot: string, ws: seq<World>, events: seq<Event>, n: nat)
    requires IsRun(ws, events) && n < |ws| && ws[0] == World(boot, None, None, [], [])
    ensures Told(ws[n], HistoriesAt(ws, events, n))
  {
    if n > 0 {
      RunTells(boot, ws, events, n - 1);
      NothingYetSound(boot);
      RunSound(ws, events, n - 1);
      assert StepAt(ws, events, n - 1);
      NextTold(ws[n - 1], HistoriesAt(ws, events, n - 1), events[n - 1]);
    }
  }

  /** The sample under way is taken by the engine that the saved samples tell of. */
  lemma UnderWay(boot: string, ws: seq<World>, events: seq<Event>, n: nat)
    requires IsRun(ws, events) && n < |ws| && ws[0] == World(boot, None, None, [], [])
    requires ws[n].process.Some? && ws[n].process.value.stage.Acting?
    ensures var p, past := ws[n].process.value, HistoriesAt(ws, events, n).process;
      && p.config.detection.Valid() && WellTimed(Saves(past, p))
      && Taken(p.config.detection, Saves(past, p), |past|).actions == p.stage.finished + p.stage.todo
  {
    RunTells(boot, ws, events, n);
    NothingYetSound(boot);
    RunSound(ws, events, n);
    var p, past := ws[n].process.value, HistoriesAt(ws, events, n).process;
    TellsNext(p.config.detection, past, p.stage.before, p.stage.at, p.stage.seen);
  }

  /** So the guard decides as the history theorems say: whatever crashes came before, the sample under way asks for
      the graceful stop iff, after the saved samples, it is the first that completes a confirmation time. */
  lemma GuardStopsIffFirstConfirmed(boot: string, ws: seq<World>, events: seq<Event>, n: nat)
    requires IsRun(ws, events) && n < |ws| && ws[0] == World(boot, None, None, [], [])
    requires ws[n].process.Some? && ws[n].process.value.stage.Acting?
    ensures var p := ws[n].process.value; var h := Saves(HistoriesAt(ws, events, n).process, p);
      && WellTimed(h)
      && (GracefulShutdown in Kinds(p.stage.finished + p.stage.todo) <==> FirstConfirmed(p.config.detection, h, |h| - 1))
  {
    UnderWay(boot, ws, events, n);
    var p, past := ws[n].process.value, HistoriesAt(ws, events, n).process;
    GracefulIffFirstConfirmed(p.config.detection, Saves(past, p), |past|);
  }

  /** And the host's poweroff is asked for iff the saved samples with this one contain a plan that ends here. */
  lemma GuardPowersOffIffPlanned(boot: string, ws: seq<World>, events: seq<Event>, n: nat)
    requires IsRun(ws, events) && n < |ws| && ws[0] == World(boot, None, None, [], [])
    requires ws[n].process.Some? && ws[n].process.value.stage.Acting?
    ensures var p, past := ws[n].process.value, HistoriesAt(ws, events, n).process;
      var h, last := Saves(past, p), |past|;
      && p.config.detection.Valid() && WellTimed(h)
      && (HostPoweroffRequested in Kinds(p.stage.finished + p.stage.todo) <==>
            exists g: nat, j: nat :: PoweroffPlan(p.config.detection, h, g, j, last))
  {
    UnderWay(boot, ws, events, n);
    var p, past := ws[n].process.value, HistoriesAt(ws, events, n).process;
    PoweroffIffPlanned(p.config.detection, Saves(past, p), |past|);
  }
}
