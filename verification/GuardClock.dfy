/** The guard's times against the wall clock: what its relative times and its deadlines count from, across crashes
    and restarts. */
module GuardClock {
  import opened Common
  import opened PowerCore
  import opened EngineHistory
  import opened EngineInFull
  import opened GuardState
  import opened GuardLoop
  import opened GuardHistory
  import opened GuardSafety

  /** One of these events is a tick that read this instant off the wall clock and took this sample. */
  ghost predicate Sampled(past: seq<Event>, now: int, snap: Snapshot) {
    exists k :: 0 <= k < |past| && past[k].Tick? && past[k].now == now && past[k].snap == snap
  }

  /** One of these events is the launch or the reload that made a new engine at this instant, of these settings. */
  ghost predicate Made(past: seq<Event>, now: int, detection: Config, revision: int) {
    exists k :: 0 <= k < |past| && MadeBy(past[k], now, detection, revision)
  }

  predicate MadeBy(e: Event, now: int, detection: Config, revision: int) {
    match e
    case Launch(at, config, number, _) => at == now && config.detection == detection && number == revision
    case Tick(stored, reloadedAt, _, _) =>
      && stored.Loaded? && stored.production && stored.otherwiseValid
      && reloadedAt == now && stored.config.detection == detection && stored.revision == revision
    case _ => false
  }

  ghost predicate Clocked(past: seq<Event>, started: int, h: seq<Sample>) {
    forall i :: 0 <= i < |h| ==> Sampled(past, started + h[i].at, h[i].snap)
  }

  ghost predicate OnClock(past: seq<Event>, w: World, hs: Histories) {
    && (w.disk.Some? ==>
          Made(past, w.disk.value.origin, w.disk.value.detection, w.disk.value.revision) && Clocked(past, w.disk.value.origin, hs.disk))
    && (w.process.Some? ==> ProcessOnClock(past, w.process.value, hs.process))
  }

  ghost predicate ProcessOnClock(past: seq<Event>, p: Process, h: seq<Sample>) {
    && Made(past, p.started, p.config.detection, p.revision) && Clocked(past, p.started, h)
    && (p.stage.Acting? ==> Sampled(past, p.started + p.stage.at, p.stage.seen))
  }

  lemma SampledLater(past: seq<Event>, e: Event, now: int, snap: Snapshot)
    requires Sampled(past, now, snap)
    ensures Sampled(past + [e], now, snap)
  {
    var k :| 0 <= k < |past| && past[k].Tick? && past[k].now == now && past[k].snap == snap;
    assert (past + [e])[k] == past[k];
  }

  lemma ClockedLater(past: seq<Event>, e: Event, started: int, h: seq<Sample>)
    requires Clocked(past, started, h)
    ensures Clocked(past + [e], started, h)
  {
    forall i | 0 <= i < |h| ensures Sampled(past + [e], started + h[i].at, h[i].snap) {
      SampledLater(past, e, started + h[i].at, h[i].snap);
    }
  }

  lemma MadeLater(past: seq<Event>, e: Event, now: int, detection: Config, revision: int)
    requires Made(past, now, detection, revision) || MadeBy(e, now, detection, revision)
    ensures Made(past + [e], now, detection, revision)
  {
    if MadeBy(e, now, detection, revision) {
      assert (past + [e])[|past|] == e;
    } else {
      var k :| 0 <= k < |past| && MadeBy(past[k], now, detection, revision);
      assert (past + [e])[k] == past[k];
    }
  }

  lemma Later(past: seq<Event>, e: Event, w: World, hs: Histories)
    requires OnClock(past, w, hs)
    ensures OnClock(past + [e], w, hs)
  {
    if w.disk.Some? {
      var rec := w.disk.value;
      MadeLater(past, e, rec.origin, rec.detection, rec.revision);
      ClockedLater(past, e, rec.origin, hs.disk);
    }
    if w.process.Some? {
      var p := w.process.value;
      MadeLater(past, e, p.started, p.config.detection, p.revision);
      ClockedLater(past, e, p.started, hs.process);
      if p.stage.Acting? {
        SampledLater(past, e, p.started + p.stage.at, p.stage.seen);
      }
    }
  }

  lemma LaunchOnClock(past: seq<Event>, w: World, hs: Histories, e: Event)
    requires OnClock(past, w, hs) && e.Launch?
    ensures OnClock(past + [e], Next(w, e), NextHistories(w, hs, e))
  {
    Later(past, e, w, hs);
    MadeLater(past, e, e.now, e.config.detection, e.revision);
  }

  lemma TickOnClock(past: seq<Event>, w: World, hs: Histories, e: Event)
    requires OnClock(past, w, hs) && e.Tick?
    ensures OnClock(past + [e], Next(w, e), NextHistories(w, hs, e))
  {
    Later(past, e, w, hs);
    assert (past + [e])[|past|] == e;
    var next, after := Next(w, e), NextHistories(w, hs, e);
    if next.process.Some? && next.process != w.process {
      var p := next.process.value;
      assert Sampled(past + [e], e.now, e.snap);
      assert p.started + p.stage.at == e.now && p.stage.seen == e.snap;
      if Reloads(w.process.value, e.stored) {
        assert MadeBy(e, p.started, p.config.detection, p.revision);
      }
    }
  }

  lemma PersistOnClock(past: seq<Event>, w: World, hs: Histories, e: Event)
    requires OnClock(past, w, hs) && e.Persist?
    ensures OnClock(past + [e], Next(w, e), NextHistories(w, hs, e))
  {
    Later(past, e, w, hs);
  }

  lemma NextOnClock(past: seq<Event>, w: World, hs: Histories, e: Event)
    requires OnClock(past, w, hs)
    ensures OnClock(past + [e], Next(w, e), NextHistories(w, hs, e))
  {
    if e.Launch? {
      LaunchOnClock(past, w, hs, e);
    } else if e.Tick? {
      TickOnClock(past, w, hs, e);
    } else if e.Persist? {
      PersistOnClock(past, w, hs, e);
    } else {
      Later(past, e, w, hs);
    }
  }

  /** In every run from a host on which the guard never ran: record and process date from the launch or reload whose
      settings they have, and their relative times are wall-clock readings of the ticks less that instant. */
  lemma {:induction false} TimesAreClock(boot: string, ws: seq<World>, events: seq<Event>, n: nat)
    requires IsRun(ws, events) && n < |ws| && ws[0] == World(boot, None, None, [], [])
    ensures OnClock(events[..n], ws[n], HistoriesAt(ws, events, n))
  {
    if n > 0 {
      TimesAreClock(boot, ws, events, n - 1);
      assert StepAt(ws, events, n - 1);
      NextOnClock(events[..n - 1], ws[n - 1], HistoriesAt(ws, events, n - 1), events[n - 1]);
      assert events[..n] == events[..n - 1] + [events[n - 1]];
    }
  }

  // What an outage that is open counts from, on the clock.
  lemma OpenOnClock(past: seq<Event>, c: Config, started: int, h: seq<Sample>) returns (k: nat)
    requires c.Valid() && WellTimed(h) && Clocked(past, started, h) && After(c, h, |h|).status.outageAt.Some?
    ensures k < |past| && LossSeen(past[k], started + After(c, h, |h|).status.outageAt.value)
  {
    var j := CountsFromCandidate(c, h, |h|);
    CandidateIffNothingOpen(c, h, j);
    assert Sampled(past, started + h[j].at, h[j].snap);
    k :| k < |past| && past[k].Tick? && past[k].now == started + h[j].at && past[k].snap == h[j].snap;
    assert h[j].Loss();
  }

  /** A tick that read this instant and saw the UPS on battery or low, or UPS and networks out of reach. */
  predicate LossSeen(e: Event, instant: int) {
    && e.Tick? && e.now == instant
    && (e.snap.nut == OB || e.snap.nut == LB || (e.snap.nut == UNREACHABLE && !e.snap.lan && !e.snap.wan))
  }

  /** The deadlines on disk, after whatever crashes and restarts, are the wall-clock reading of one tick that saw a
      loss, plus the budget less the reserve, and plus the budget. */
  lemma SavedDeadlinesInFull(boot: string, ws: seq<World>, events: seq<Event>, n: nat) returns (k: nat)
    requires IsRun(ws, events) && n < |ws| && ws[0] == World(boot, None, None, [], [])
    requires ws[n].disk.Some?
    ensures var c := ws[n].disk.value.detection;
      && k < n && events[k].Tick? && LossSeen(events[k], events[k].now)
      && RecordDeadlines(ws[n].disk.value) == Some(Deadlines(events[k].now + c.totalBudget - c.emergencyReserve, events[k].now + c.totalBudget))
  {
    TimesAreClock(boot, ws, events, n);
    RunTells(boot, ws, events, n);
    NothingYetSound(boot);
    RunSound(ws, events, n);
    var rec, h := ws[n].disk.value, HistoriesAt(ws, events, n).disk;
    k := OpenOnClock(events[..n], rec.detection, rec.origin, h);
    assert events[..n][k] == events[k];
  }

  /** And so are those of a process that acts in an outage, saved or not yet. */
  lemma ActingDeadlinesInFull(boot: string, ws: seq<World>, events: seq<Event>, n: nat) returns (k: nat)
    requires IsRun(ws, events) && n < |ws| && ws[0] == World(boot, None, None, [], [])
    requires ws[n].process.Some? && ws[n].process.value.stage.Acting? && ws[n].process.value.memory.status.outageAt.Some?
    ensures var p := ws[n].process.value; var c := p.config.detection;
      && k < n && events[k].Tick? && LossSeen(events[k], events[k].now)
      && ProcessDeadlines(p) == Some(Deadlines(events[k].now + c.totalBudget - c.emergencyReserve, events[k].now + c.totalBudget))
  {
    TimesAreClock(boot, ws, events, n);
    UnderWay(boot, ws, events, n);
    RunTells(boot, ws, events, n);
    NothingYetSound(boot);
    RunSound(ws, events, n);
    var p, past := ws[n].process.value, HistoriesAt(ws, events, n).process;
    TellsNext(p.config.detection, past, p.stage.before, p.stage.at, p.stage.seen);
    k := OpenOnClock(events[..n], p.config.detection, p.started, Saves(past, p));
    assert events[..n][k] == events[k];
  }
}
