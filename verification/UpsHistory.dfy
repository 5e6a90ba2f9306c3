/** The UPS history: a window of samples in memory, an append-only log of it on disk, and its charts. */
module UpsHistory {
  import opened Common

  // Times are in nanoseconds; loads, charges and voltages are exact numbers.
  datatype Sample = Sample(checkedAt: int, connected: bool, load: Option<real>, charge: Option<real>, runtime: Option<int>)

  // A mean, kept as the exact fraction whose value the chart shows.
  datatype Mean = Mean(total: real, count: nat) {
    function Value(): real
      requires count > 0
    {
      total / count as real
    }
  }

  datatype Point = Point(
    checkedAt: int,
    connected: bool,
    load: Option<Mean>,
    loadMax: Option<real>,
    charge: Option<real>,
    runtime: Option<int>)

  // ----- windows -----

  /** The samples that are not before the cutoff, in order. */
  function Since(samples: seq<Sample>, cutoff: int): seq<Sample> {
    if samples == [] then []
    else
      var last := samples[|samples| - 1];
      Since(samples[..|samples| - 1], cutoff) + (if last.checkedAt < cutoff then [] else [last])
  }

  // The samples from the first one that is not before the cutoff; later ones are kept whatever their time.
  function Pruned(samples: seq<Sample>, cutoff: int): seq<Sample> {
    if samples != [] && samples[0].checkedAt < cutoff then Pruned(samples[1..], cutoff) else samples
  }

  lemma {:induction false} SinceJoins(a: seq<Sample>, b: seq<Sample>, cutoff: int)
    ensures Since(a + b, cutoff) == Since(a, cutoff) + Since(b, cutoff)
  {
    if b == [] {
      assert a + b == a;
    } else {
      assert (a + b)[..|a + b| - 1] == a + b[..|b| - 1];
      SinceJoins(a, b[..|b| - 1], cutoff);
    }
  }

  /** Pruning removes nothing that any later window would show. */
  lemma {:induction false} PruningIsInvisible(samples: seq<Sample>, pruneAt: int, cutoff: int)
    requires pruneAt <= cutoff
    ensures Since(Pruned(samples, pruneAt), cutoff) == Since(samples, cutoff)
  {
    if samples != [] && samples[0].checkedAt < pruneAt {
      PruningIsInvisible(samples[1..], pruneAt, cutoff);
      SinceJoins(samples[..1], samples[1..], cutoff);
      assert samples == samples[..1] + samples[1..];
      assert Since(samples[..1], cutoff) == [];
    }
  }

  /** A later window of a window is the later window of the whole. */
  lemma {:induction false} SinceTwice(samples: seq<Sample>, loadedAt: int, cutoff: int)
    requires loadedAt <= cutoff
    ensures Since(Since(samples, loadedAt), cutoff) == Since(samples, cutoff)
  {
    if samples != [] {
      var most, last := samples[..|samples| - 1], samples[|samples| - 1];
      SinceTwice(most, loadedAt, cutoff);
      SinceJoins(Since(most, loadedAt), if last.checkedAt < loadedAt then [] else [last], cutoff);
    }
  }

  /** What a window holds. */
  lemma {:induction false} SinceHolds(samples: seq<Sample>, cutoff: int, s: Sample)
    ensures s in Since(samples, cutoff) <==> s in samples && s.checkedAt >= cutoff
  {
    if samples != [] {
      SinceHolds(samples[..|samples| - 1], cutoff, s);
      assert samples == samples[..|samples| - 1] + [samples[|samples| - 1]];
    }
  }

  // ----- the collector -----

  const COMPACT_EVERY := 120

  /** The window in memory, the writes of this process, and the log on disk. */
  datatype History = History(samples: seq<Sample>, writes: nat, file: seq<Sample>)

  /** One sample taken: `appended` and `compacted` say whether the disk accepted the write. */
  function Taken(h: History, s: Sample, cutoff: int, appended: bool, compacted: bool): History {
    var samples := Pruned(h.samples + [s], cutoff);
    var writes := h.writes + 1;
    var file :=
      if !appended then h.file
      else if writes % COMPACT_EVERY == 0 && compacted then samples
      else h.file + [s];
    History(samples, writes, file)
  }

  function Loaded(h: History, cutoff: int): History {
    History(Since(h.file, cutoff), 0, h.file)
  }

  class Collector {
    const retention: int
    var samples: seq<Sample>
    var writes: nat
    var file: seq<Sample>
    var persistFailed: bool

    ghost function State(): History
      reads this
    {
      History(samples, writes, file)
    }

    /** A collector that finds the given log on disk. */
    constructor (retention: int, log: seq<Sample>, now: int)
      ensures this.retention == (if retention <= 0 then 86_400 * SECOND else retention)
      ensures State() == Loaded(History([], 0, log), now - this.retention)
      ensures !persistFailed
    {
      this.retention := if retention <= 0 then 86_400 * SECOND else retention;
      samples := [];
      writes := 0;
      file := log;
      persistFailed := false;
      new;
      Load(now);
    }

    method Load(now: int)
      requires samples == []
      modifies this
      ensures samples == Since(file, now - retention)
      ensures file == old(file) && writes == old(writes) && persistFailed == old(persistFailed)
    {
      var cutoff := now - retention;
      for i := 0 to |file|
        invariant file == old(file) && writes == old(writes) && persistFailed == old(persistFailed)
        invariant samples == Since(file[..i], cutoff)
      {
        if file[i].checkedAt >= cutoff {
          samples := samples + [file[i]];
        }
        assert file[..i + 1][..i] == file[..i];
      }
      assert file[..|file|] == file;
    }

    method Prune(cutoff: int)
      modifies this`samples
      ensures samples == Pruned(old(samples), cutoff)
    {
      var first := 0;
      while first < |samples| && samples[first].checkedAt < cutoff
        invariant first <= |samples|
        invariant Pruned(samples[first..], cutoff) == Pruned(samples, cutoff)
      {
        assert samples[first..][1..] == samples[first + 1..];
        first := first + 1;
      }
      if first > 0 {
        samples := samples[first..];
      }
    }

    /** Takes a sample into memory, appends it to the log, and every 120th time rewrites the log. */
    method Take(s: Sample, now: int, appended: bool, compacted: bool)
      modifies this
      ensures State() == Taken(old(State()), s, now - retention, appended, compacted)
      ensures persistFailed ==
        (old(persistFailed) || !appended || (old(writes + 1) % COMPACT_EVERY == 0 && !compacted))
    {
      samples := samples + [s];
      Prune(now - retention);
      writes := writes + 1;
      var compact := writes % COMPACT_EVERY == 0;
      if !appended {
        persistFailed := true;
      } else {
        file := file + [s];
        if compact {
          if compacted {
            file := samples;
          } else {
            persistFailed := true;
          }
        }
      }
    }

    /** The chart of the samples since a time, with between 10 and 2000 points at most. */
    method Report(since: int, maxPoints: int) returns (points: seq<Point>)
      ensures var m := if maxPoints < 10 then 10 else if maxPoints > 2000 then 2000 else maxPoints;
        var shown := Since(samples, since);
        && points == Points(shown, BucketSize(|shown|, m))
        && |points| <= m
    {
      var m := if maxPoints < 10 then 10 else if maxPoints > 2000 then 2000 else maxPoints;
      var filtered: seq<Sample> := [];
      for i := 0 to |samples|
        invariant filtered == Since(samples[..i], since)
      {
        if samples[i].checkedAt >= since {
          filtered := filtered + [samples[i]];
        }
        assert samples[..i + 1][..i] == samples[..i];
      }
      assert samples[..|samples|] == samples;
      points := Downsample(filtered, m);
    }
  }

  // ----- whole runs: samples and restarts -----

  datatype Event =
    | Take(sample: Sample, cutoff: int, appended: bool, compacted: bool)
    | Restart(cutoff: int)

  const EMPTY := History([], 0, [])

  function Next(h: History, e: Event): History {
    match e
    case Take(s, cutoff, appended, compacted) => Taken(h, s, cutoff, appended, compacted)
    case Restart(cutoff) => Loaded(h, cutoff)
  }

  function After(events: seq<Event>): History {
    if events == [] then EMPTY else Next(After(events[..|events| - 1]), events[|events| - 1])
  }

  /** Every sample ever taken. */
  function Ever(events: seq<Event>): seq<Sample> {
    if events == [] then []
    else
      var last := events[|events| - 1];
      Ever(events[..|events| - 1]) + (if last.Take? then [last.sample] else [])
  }

  /** The samples that memory took and the log missed: their appends failed, and neither a rewrite of the log nor
      a restart came since. */
  function Missing(events: seq<Event>): seq<Sample> {
    if events == [] then []
    else NextMissing(After(events[..|events| - 1]), Missing(events[..|events| - 1]), events[|events| - 1])
  }

  function NextMissing(h: History, missing: seq<Sample>, e: Event): seq<Sample> {
    match e
    case Restart(_) => []
    case Take(s, _, appended, compacted) =>
      if !appended then missing + [s] else if compacted && (h.writes + 1) % COMPACT_EVERY == 0 then [] else missing
  }

  ghost predicate CutoffsUpTo(events: seq<Event>, cutoff: int) {
    forall i :: 0 <= i < |events| ==> events[i].cutoff <= cutoff
  }

  /** Memory shows what the log shows and the missing samples, each as often. */
  ghost predicate Splits(h: History, missing: seq<Sample>, cutoff: int) {
    && multiset(Since(h.samples, cutoff)) == multiset(Since(h.file, cutoff)) + multiset(Since(missing, cutoff))
    && (Since(missing, cutoff) == [] ==> Since(h.samples, cutoff) == Since(h.file, cutoff))
  }

  lemma TakenWindow(h: History, s: Sample, at: int, cutoff: int)
    requires at <= cutoff
    ensures Since(Pruned(h.samples + [s], at), cutoff) == Since(h.samples, cutoff) + Since([s], cutoff)
    ensures Since(h.file + [s], cutoff) == Since(h.file, cutoff) + Since([s], cutoff)
  {
    PruningIsInvisible(h.samples + [s], at, cutoff);
    SinceJoins(h.samples, [s], cutoff);
    SinceJoins(h.file, [s], cutoff);
  }

  lemma MissedSplits(h: History, missing: seq<Sample>, s: Sample, at: int, compacted: bool, cutoff: int)
    requires at <= cutoff && Splits(h, missing, cutoff)
    ensures Splits(Taken(h, s, at, false, compacted), missing + [s], cutoff)
  {
    TakenWindow(h, s, at, cutoff);
    SinceJoins(missing, [s], cutoff);
    var memory, log, lost, shown := Since(h.samples, cutoff), Since(h.file, cutoff), Since(missing, cutoff), Since([s], cutoff);
    assert Taken(h, s, at, false, compacted).file == h.file;
    MemoryGrows(memory, log, lost, shown);
  }

  lemma MemoryGrows(memory: seq<Sample>, log: seq<Sample>, lost: seq<Sample>, shown: seq<Sample>)
    requires multiset(memory) == multiset(log) + multiset(lost) && (lost == [] ==> memory == log)
    ensures multiset(memory + shown) == multiset(log) + multiset(lost + shown) && (lost + shown == [] ==> memory + shown == log)
  {
    assert multiset(memory + shown) == multiset(memory) + multiset(shown);
    assert multiset(lost + shown) == multiset(lost) + multiset(shown);
    if lost + shown == [] {
      assert memory + shown == memory;
    }
  }

  predicate Rewrites(h: History, compacted: bool) {
    compacted && (h.writes + 1) % COMPACT_EVERY == 0
  }

  lemma RewrittenSplits(h: History, s: Sample, at: int, compacted: bool, cutoff: int)
    requires Rewrites(h, compacted)
    ensures Splits(Taken(h, s, at, true, compacted), [], cutoff)
  {
    var window := Since(Pruned(h.samples + [s], at), cutoff);
    assert multiset(window) + multiset([]) == multiset(window);
  }

  lemma AppendedSplits(h: History, missing: seq<Sample>, s: Sample, at: int, compacted: bool, cutoff: int)
    requires at <= cutoff && Splits(h, missing, cutoff) && !Rewrites(h, compacted)
    ensures Splits(Taken(h, s, at, true, compacted), missing, cutoff)
  {
    TakenWindow(h, s, at, cutoff);
    var memory, log, lost, shown := Since(h.samples, cutoff), Since(h.file, cutoff), Since(missing, cutoff), Since([s], cutoff);
    assert Taken(h, s, at, true, compacted).file == h.file + [s];
    BothGrow(memory, log, lost, shown);
  }

  lemma BothGrow(memory: seq<Sample>, log: seq<Sample>, lost: seq<Sample>, shown: seq<Sample>)
    requires multiset(memory) == multiset(log) + multiset(lost)
    ensures multiset(memory + shown) == multiset(log + shown) + multiset(lost)
  {
    assert multiset(memory + shown) == multiset(memory) + multiset(shown);
    assert multiset(log + shown) == multiset(log) + multiset(shown);
  }

  lemma ReloadedSplits(h: History, at: int, cutoff: int)
    requires at <= cutoff
    ensures Splits(Loaded(h, at), [], cutoff)
  {
    SinceTwice(h.file, at, cutoff);
    var window := Since(h.file, cutoff);
    assert multiset(window) + multiset([]) == multiset(window);
  }

  lemma NextSplits(h: History, missing: seq<Sample>, e: Event, cutoff: int)
    requires Splits(h, missing, cutoff) && e.cutoff <= cutoff
    ensures Splits(Next(h, e), NextMissing(h, missing, e), cutoff)
  {
    match e
    case Restart(at) => ReloadedSplits(h, at, cutoff);
    case Take(s, at, appended, compacted) =>
      if !appended {
        MissedSplits(h, missing, s, at, compacted, cutoff);
      } else if Rewrites(h, compacted) {
        RewrittenSplits(h, s, at, compacted, cutoff);
      } else {
        AppendedSplits(h, missing, s, at, compacted, cutoff);
      }
  }

  /** For every window that starts at or after all past cutoffs, and whatever mixture of samples, prunes, rewrites,
      failed writes and restarts led there: memory shows what the log shows and the missing samples, each as often. */
  lemma {:induction false} MemoryIsLogAndMissing(events: seq<Event>, cutoff: int)
    requires CutoffsUpTo(events, cutoff)
    ensures Splits(After(events), Missing(events), cutoff)
  {
    if events != [] {
      var before, last := events[..|events| - 1], events[|events| - 1];
      assert last.cutoff <= cutoff;
      MemoryIsLogAndMissing(before, cutoff);
      NextSplits(After(before), Missing(before), last, cutoff);
    }
  }

  /** Log and memory agree on a window exactly when no missing sample falls into it. */
  lemma LogAgreesWithMemory(events: seq<Event>, cutoff: int)
    requires CutoffsUpTo(events, cutoff)
    ensures Since(After(events).samples, cutoff) == Since(After(events).file, cutoff) <==> Since(Missing(events), cutoff) == []
  {
    MemoryIsLogAndMissing(events, cutoff);
    var missing := Since(Missing(events), cutoff);
    if missing != [] {
      assert multiset(missing)[missing[0]] > 0;
    }
  }

  /** A restart brings back exactly the window that the process before it would have shown iff no missing sample
      falls into it; and it loses the missing ones, each as often as it is missing. */
  lemma RestartKeepsWindow(events: seq<Event>, now: int)
    requires CutoffsUpTo(events, now)
    ensures var restarted := After(events + [Restart(now)]).samples;
      && (restarted == Since(After(events).samples, now) <==> Since(Missing(events), now) == [])
      && multiset(Since(After(events).samples, now)) == multiset(restarted) + multiset(Since(Missing(events), now))
  {
    LogAgreesWithMemory(events, now);
    MemoryIsLogAndMissing(events, now);
    assert (events + [Restart(now)])[..|events|] == events;
  }

  ghost predicate AllAppended(events: seq<Event>) {
    forall i :: 0 <= i < |events| && events[i].Take? ==> events[i].appended
  }

  /** While every append succeeds nothing is lost: log and memory both show every sample ever taken. */
  lemma {:induction false} NothingIsLost(events: seq<Event>, cutoff: int)
    requires CutoffsUpTo(events, cutoff) && AllAppended(events)
    ensures Missing(events) == []
    ensures Since(After(events).samples, cutoff) == Since(Ever(events), cutoff)
    ensures Since(After(events).file, cutoff) == Since(Ever(events), cutoff)
  {
    if events != [] {
      var before, last := events[..|events| - 1], events[|events| - 1];
      assert last.cutoff <= cutoff;
      NothingIsLost(before, cutoff);
      if last.Take? {
        SinceJoins(Ever(before), [last.sample], cutoff);
        SinceJoins(After(before).samples, [last.sample], cutoff);
        PruningIsInvisible(After(before).samples + [last.sample], last.cutoff, cutoff);
      } else {
        SinceTwice(After(before).file, last.cutoff, cutoff);
        assert Ever(events) == Ever(before);
      }
      LogAgreesWithMemory(events, cutoff);
    }
  }

  /** No process lives to its 120th sample. */
  predicate ShortLives(events: seq<Event>) {
    After(events).writes < COMPACT_EVERY && (events == [] || ShortLives(events[..|events| - 1]))
  }

  lemma OnlyAppended(h: History, e: Event)
    requires Next(h, e).writes < COMPACT_EVERY && (e.Take? ==> e.appended)
    ensures Next(h, e).file == h.file + (if e.Take? then [e.sample] else [])
  {
    assert h.file + [] == h.file;
  }

  /** The log is only rewritten by a process that reaches its 120th sample: under shorter lives it keeps every
      sample ever taken, however old, since a restart does not rewrite it. */
  lemma {:induction false} ShortLivesNeverCompact(events: seq<Event>)
    requires AllAppended(events) && ShortLives(events)
    ensures After(events).file == Ever(events)
  {
    if events != [] {
      ShortLivesNeverCompact(events[..|events| - 1]);
      OnlyAppended(After(events[..|events| - 1]), events[|events| - 1]);
    }
  }

  /** A process counts its own samples: all since the last restart. */
  lemma {:induction false} CountsSinceRestart(events: seq<Event>, r: nat)
    requires r <= |events| && (r > 0 ==> events[r - 1].Restart?) && forall i :: r <= i < |events| ==> events[i].Take?
    ensures After(events).writes == |events| - r
  {
    if r < |events| {
      CountsSinceRestart(events[..|events| - 1], r);
    }
  }

  /** What one more sample does, the nth of its process: nothing to the log if it cannot be appended; it is added at
      the end, unless it is the 120th, the 240th and so on, and the log can be rewritten: then the log is what
      memory still holds, this sample included. */
  predicate TakesInFull(h: History, e: Event, nth: nat, next: History)
    requires e.Take?
  {
    && next.samples == Pruned(h.samples + [e.sample], e.cutoff)
    && next.file == if !e.appended then h.file else if nth % 120 == 0 && e.compacted then next.samples else h.file + [e.sample]
  }

  lemma TakenInFull(h: History, e: Event, nth: nat)
    requires e.Take? && nth == h.writes + 1
    ensures TakesInFull(h, e, nth, Next(h, e))
  {}

  lemma LogInFull(events: seq<Event>, r: nat, nth: nat)
    requires r < |events| && (r > 0 ==> events[r - 1].Restart?) && forall i :: r <= i < |events| ==> events[i].Take?
    requires nth == |events| - r
    ensures TakesInFull(After(events[..|events| - 1]), events[|events| - 1], nth, After(events))
  {
    var before := events[..|events| - 1];
    assert r > 0 ==> before[r - 1] == events[r - 1];
    assert forall i :: r <= i < |before| ==> before[i] == events[i];
    CountsSinceRestart(before, r);
    LastStep(events, nth);
  }

  lemma LastStep(events: seq<Event>, nth: nat)
    requires events != [] && events[|events| - 1].Take? && nth == After(events[..|events| - 1]).writes + 1
    ensures TakesInFull(After(events[..|events| - 1]), events[|events| - 1], nth, After(events))
  {
    TakenInFull(After(events[..|events| - 1]), events[|events| - 1], nth);
  }

  // ----- charts -----

  /** The loads that were measured. */
  function Loads(samples: seq<Sample>): seq<real> {
    if samples == [] then []
    else
      var last := samples[|samples| - 1];
      Loads(samples[..|samples| - 1]) + (if last.load.None? then [] else [last.load.value])
  }

  function Sum(values: seq<real>): real {
    if values == [] then 0.0 else Sum(values[..|values| - 1]) + values[|values| - 1]
  }

  function Peak(values: seq<real>): real
    requires values != []
  {
    var most, last := values[..|values| - 1], values[|values| - 1];
    if most == [] || last > Peak(most) then last else Peak(most)
  }

  lemma {:induction false} PeakIsGreatest(values: seq<real>)
    requires values != []
    ensures Peak(values) in values && forall x :: x in values ==> x <= Peak(values)
  {
    var most, last := values[..|values| - 1], values[|values| - 1];
    assert forall x :: x in values <==> x in most || x == last;
    if most != [] {
      PeakIsGreatest(most);
    }
  }

  // How many loads were measured, their sum, and the greatest of them (0 if none).
  datatype Measured = Measured(count: nat, total: real, peak: real)

  function Measure(samples: seq<Sample>): Measured {
    if samples == [] then Measured(0, 0.0, 0.0)
    else
      var before, load := Measure(samples[..|samples| - 1]), samples[|samples| - 1].load;
      if load.None? then before
      else Measured(before.count + 1, before.total + load.value,
                    if before.count == 0 || load.value > before.peak then load.value else before.peak)
  }

  lemma SumAndPeakNext(values: seq<real>, x: real)
    ensures Sum(values + [x]) == Sum(values) + x
    ensures Peak(values + [x]) == if values == [] || x > Peak(values) then x else Peak(values)
  {
    assert (values + [x])[..|values|] == values;
  }

  lemma {:induction false} MeasureMeans(samples: seq<Sample>)
    ensures Measure(samples).count == |Loads(samples)| && Measure(samples).total == Sum(Loads(samples))
    ensures Loads(samples) != [] ==> Measure(samples).peak == Peak(Loads(samples))
  {
    if samples != [] {
      var before, load := samples[..|samples| - 1], samples[|samples| - 1].load;
      MeasureMeans(before);
      if load.Some? {
        SumAndPeakNext(Loads(before), load.value);
      } else {
        assert Loads(samples) == Loads(before);
      }
    }
  }

  /** What one point shows of its samples: the last one's readings, and the mean and the peak load. */
  function Aggregated(samples: seq<Sample>): Point
    requires samples != []
  {
    var last, m := samples[|samples| - 1], Measure(samples);
    Point(last.checkedAt, last.connected,
          if m.count == 0 then None else Some(Mean(m.total, m.count)),
          if m.count == 0 then None else Some(m.peak),
          last.charge, last.runtime)
  }

  method Aggregate(samples: seq<Sample>) returns (point: Point)
    requires samples != []
    ensures point == Aggregated(samples)
  {
    var last := samples[|samples| - 1];
    point := Point(last.checkedAt, last.connected, None, None, last.charge, last.runtime);
    var total, maximum, count := 0.0, 0.0, 0;
    for i := 0 to |samples|
      invariant Measure(samples[..i]) == Measured(count, total, maximum)
    {
      assert samples[..i + 1][..i] == samples[..i];
      if samples[i].load.Some? {
        var load := samples[i].load.value;
        total := total + load;
        if count == 0 || load > maximum {
          maximum := load;
        }
        count := count + 1;
      }
    }
    assert samples[..|samples|] == samples;
    if count > 0 {
      point := point.(load := Some(Mean(total, count)), loadMax := Some(maximum));
    }
  }

  function BucketSize(samples: nat, maxPoints: nat): (size: nat)
    requires maxPoints > 0
    ensures samples > 0 ==> size > 0
  {
    CeilDivIsLeast(samples, maxPoints, 0);
    CeilDiv(samples, maxPoints)
  }

  // The first bucket, and what is left for the others.
  function First(samples: seq<Sample>, size: nat): seq<Sample> {
    if |samples| <= size then samples else samples[..size]
  }

  function Rest(samples: seq<Sample>, size: nat): seq<Sample> {
    if |samples| <= size then [] else samples[size..]
  }

  /** The samples cut into runs of the given size, the last one possibly shorter. */
  function Buckets(samples: seq<Sample>, size: nat): seq<seq<Sample>>
    requires samples != [] ==> size > 0
    decreases |samples|
  {
    if samples == [] then [] else [First(samples, size)] + Buckets(Rest(samples, size), size)
  }

  lemma {:induction false} BucketsHoldSamples(samples: seq<Sample>, size: nat)
    requires samples != [] ==> size > 0
    ensures forall i :: 0 <= i < |Buckets(samples, size)| ==> Buckets(samples, size)[i] != []
    decreases |samples|
  {
    if samples != [] {
      BucketsHoldSamples(Rest(samples, size), size);
    }
  }

  /** One point for each bucket. */
  function Points(samples: seq<Sample>, size: nat): (points: seq<Point>)
    requires samples != [] ==> size > 0
    ensures |points| == |Buckets(samples, size)|
  {
    BucketsHoldSamples(samples, size);
    var buckets := Buckets(samples, size);
    seq(|buckets|, i requires 0 <= i < |buckets| => Aggregated(buckets[i]))
  }

  method Downsample(samples: seq<Sample>, maxPoints: nat) returns (points: seq<Point>)
    requires maxPoints > 0
    ensures points == Points(samples, BucketSize(|samples|, maxPoints))
    ensures |points| <= maxPoints
  {
    if |samples| == 0 {
      return [];
    }
    points := Chart(samples, BucketSize(|samples|, maxPoints));
    PointsAreFew(samples, maxPoints);
  }

  function From(samples: seq<Sample>, start: nat): seq<Sample> {
    if start < |samples| then samples[start..] else []
  }

  lemma PointsNext(samples: seq<Sample>, size: nat)
    requires 0 < size && samples != []
    ensures Points(samples, size) == [Aggregated(First(samples, size))] + Points(Rest(samples, size), size)
  {
    var rest := Buckets(Rest(samples, size), size);
    assert Buckets(samples, size) == [First(samples, size)] + rest;
    assert forall i :: 0 < i < |Buckets(samples, size)| ==> Buckets(samples, size)[i] == rest[i - 1];
  }

  // The loop of Downsample.
  method Chart(samples: seq<Sample>, size: nat) returns (points: seq<Point>)
    requires size > 0
    ensures points == Points(samples, size)
  {
    points := [];
    var start := 0;
    assert From(samples, 0) == samples;
    while start < |samples|
      invariant 0 <= start && Points(samples, size) == points + Points(From(samples, start), size)
      decreases |samples| - start
    {
      var point := NextPoint(samples, size, start);
      Shift(points, point, Points(From(samples, start + size), size));
      points := points + [point];
      start := start + size;
    }
  }

  lemma Shift(a: seq<Point>, p: Point, b: seq<Point>)
    ensures a + ([p] + b) == a + [p] + b
  {
  }

  method NextPoint(samples: seq<Sample>, size: nat, start: nat) returns (point: Point)
    requires 0 < size && start < |samples|
    ensures Points(From(samples, start), size) == [point] + Points(From(samples, start + size), size)
  {
    var end := start + size;
    if end > |samples| {
      end := |samples|;
    }
    point := Aggregate(samples[start..end]);
    assert First(From(samples, start), size) == samples[start..end];
    assert Rest(From(samples, start), size) == From(samples, start + size);
    PointsNext(From(samples, start), size);
  }

  lemma OneStepLess(a: int, b: int)
    requires 0 < b && 0 < a
    ensures CeilDiv(a, b) == 1 + if a <= b then 0 else CeilDiv(a - b, b)
  {
    var k := CeilDiv(a, b);
    if a > b {
      var j := CeilDiv(a - b, b);
      CeilDivIsLeast(a, b, j);
      CeilDivIsLeast(a, b, j + 1);
    } else {
      CeilDivIsLeast(a, b, 0);
      CeilDivIsLeast(a, b, 1);
    }
  }

  lemma {:induction false} BucketCount(samples: seq<Sample>, size: nat)
    requires size > 0
    ensures |Buckets(samples, size)| == CeilDiv(|samples|, size)
    decreases |samples|
  {
    if samples != [] {
      BucketCount(Rest(samples, size), size);
      OneStepLess(|samples|, size);
    }
  }

  /** A chart never has more points than it was asked for. */
  lemma PointsAreFew(samples: seq<Sample>, maxPoints: nat)
    requires maxPoints > 0
    ensures var size := BucketSize(|samples|, maxPoints);
      && |Points(samples, size)| <= maxPoints
      && (samples != [] ==> |Points(samples, size)| == CeilDiv(|samples|, size))
  {
    if samples != [] {
      var size := BucketSize(|samples|, maxPoints);
      BucketCount(samples, size);
      CeilDivIsLeast(|samples|, size, maxPoints);
    }
  }

  function Joined(buckets: seq<seq<Sample>>): seq<Sample> {
    if buckets == [] then [] else buckets[0] + Joined(buckets[1..])
  }

  lemma FirstAndRest(samples: seq<Sample>, size: nat)
    requires samples != [] && size > 0
    ensures First(samples, size) + Rest(samples, size) == samples
    ensures First(samples, size) != [] && |Rest(samples, size)| < |samples|
    ensures Buckets(samples, size) == [First(samples, size)] + Buckets(Rest(samples, size), size)
  {
  }

  /** Every sample is in exactly one bucket, in its place. */
  lemma {:induction false} BucketsPartition(samples: seq<Sample>, size: nat)
    requires size > 0
    ensures Joined(Buckets(samples, size)) == samples
    decreases |samples|
  {
    if samples != [] {
      FirstAndRest(samples, size);
      BucketsPartition(Rest(samples, size), size);
      assert Buckets(samples, size)[1..] == Buckets(Rest(samples, size), size);
    }
  }

  /** All buckets but the last have the full size. */
  lemma {:induction false} BucketsAreFull(samples: seq<Sample>, size: nat, i: nat)
    requires size > 0 && i < |Buckets(samples, size)|
    ensures 0 < |Buckets(samples, size)[i]| <= size
    ensures i < |Buckets(samples, size)| - 1 ==> |Buckets(samples, size)[i]| == size
    decreases |samples|
  {
    FirstAndRest(samples, size);
    if i > 0 {
      BucketsAreFull(Rest(samples, size), size, i - 1);
    }
  }

  lemma {:induction false} LoadsJoin(a: seq<Sample>, b: seq<Sample>)
    ensures Loads(a + b) == Loads(a) + Loads(b)
  {
    if b == [] {
      assert a + b == a;
    } else {
      assert (a + b)[..|a + b| - 1] == a + b[..|b| - 1];
      LoadsJoin(a, b[..|b| - 1]);
    }
  }

  lemma {:induction false} SumJoins(a: seq<real>, b: seq<real>)
    ensures Sum(a + b) == Sum(a) + Sum(b)
  {
    if b == [] {
      assert a + b == a;
    } else {
      assert (a + b)[..|a + b| - 1] == a + b[..|b| - 1];
      SumJoins(a, b[..|b| - 1]);
    }
  }

  /** The total of the measured loads, bucket by bucket. */
  function BucketTotals(buckets: seq<seq<Sample>>): real {
    if buckets == [] then 0.0 else Sum(Loads(buckets[0])) + BucketTotals(buckets[1..])
  }

  lemma {:induction false} BucketTotalsAddUp(samples: seq<Sample>, size: nat)
    requires size > 0
    ensures BucketTotals(Buckets(samples, size)) == Sum(Loads(samples))
    decreases |samples|
  {
    if samples != [] {
      FirstAndRest(samples, size);
      BucketTotalsAddUp(Rest(samples, size), size);
      LoadsJoin(First(samples, size), Rest(samples, size));
      SumJoins(Loads(First(samples, size)), Loads(Rest(samples, size)));
      assert Buckets(samples, size)[1..] == Buckets(Rest(samples, size), size);
    }
  }

  /** The value of a mean, times its count, is its total. */
  lemma MeanTimesCount(m: Mean)
    requires m.count > 0
    ensures m.Value() * m.count as real == m.total
  {
  }

  // The mean loads of the points, each times its count.
  function Totals(points: seq<Point>): real {
    if points == [] then 0.0
    else (if points[0].load.Some? then points[0].load.value.total else 0.0) + Totals(points[1..])
  }

  /** What a point says of the loads in its bucket. */
  lemma PointShowsLoads(samples: seq<Sample>, size: nat, i: nat)
    requires size > 0 && i < |Buckets(samples, size)|
    ensures var loads := Loads(Buckets(samples, size)[i]); var p := Points(samples, size)[i];
      if loads == [] then p.load.None? && p.loadMax.None?
      else p.load == Some(Mean(Sum(loads), |loads|)) && p.loadMax == Some(Peak(loads))
  {
    MeasureMeans(Buckets(samples, size)[i]);
  }

  // Where a bucket ends.
  function End(samples: nat, size: nat, i: nat): nat {
    if (i + 1) * size < samples then (i + 1) * size else samples
  }

  lemma EndAfterFirst(samples: nat, size: nat, i: nat)
    requires 0 < size < samples && 0 < i
    ensures End(samples, size, i) == End(samples - size, size, i - 1) + size
    ensures i * size == (i - 1) * size + size
  {
    assert (i + 1) * size == i * size + size;
  }

  lemma LaterBucket(samples: seq<Sample>, size: nat, i: nat)
    requires size > 0 && 0 < i < |Buckets(samples, size)|
    ensures size < |samples| && Rest(samples, size) == samples[size..] && i - 1 < |Buckets(samples[size..], size)|
    ensures Buckets(samples, size)[i] == Buckets(samples[size..], size)[i - 1]
  {
    FirstAndRest(samples, size);
  }

  lemma SliceOfRest(samples: seq<Sample>, size: nat, from: nat, to: nat)
    requires size <= |samples| && from <= to <= |samples| - size
    ensures samples[size..][from..to] == samples[from + size..to + size]
  {}

  lemma {:induction false} BucketInPlace(samples: seq<Sample>, size: nat, i: nat) returns (from: nat, to: nat)
    requires size > 0 && i < |Buckets(samples, size)|
    ensures from == i * size && to == End(|samples|, size, i) && from < to <= |samples|
    ensures Buckets(samples, size)[i] == samples[from..to]
    decreases |samples|
  {
    if i == 0 {
      from, to := 0, |Buckets(samples, size)[0]|;
    } else {
      LaterBucket(samples, size, i);
      from, to := BucketInPlace(samples[size..], size, i - 1);
      SliceOfRest(samples, size, from, to);
      EndAfterFirst(|samples|, size, i);
      from, to := from + size, to + size;
    }
  }

  /** What a point shows of the samples behind it: time, state, charge and runtime of the last, the mean of those loads
      that were measured, and one of them that none exceeds. */
  predicate ShowsInFull(p: Point, samples: seq<Sample>, from: nat, to: nat)
    requires from < to <= |samples|
  {
    var last, loads := samples[to - 1], Loads(samples[from..to]);
    && p.checkedAt == last.checkedAt && p.connected == last.connected && p.charge == last.charge && p.runtime == last.runtime
    && (p.load.None? <==> forall k :: from <= k < to ==> samples[k].load.None?)
    && (p.loadMax.None? <==> forall k :: from <= k < to ==> samples[k].load.None?)
    && (p.load.Some? ==> loads != [] && p.load.value.count > 0 && p.load.value.Value() == Sum(loads) / |loads| as real)
    && (p.loadMax.Some? ==>
          && (exists k :: from <= k < to && samples[k].load == p.loadMax)
          && (forall k :: from <= k < to && samples[k].load.Some? ==> samples[k].load.value <= p.loadMax.value))
  }

  lemma LoadsOfSlice(samples: seq<Sample>, from: nat, to: nat)
    requires from < to <= |samples|
    ensures forall k :: from <= k < to && samples[k].load.Some? ==> samples[k].load.value in Loads(samples[from..to])
    ensures forall x :: x in Loads(samples[from..to]) ==> exists k :: from <= k < to && samples[k].load == Some(x)
  {
    var slice := samples[from..to];
    LoadsInFull(slice);
    forall k | from <= k < to && samples[k].load.Some? ensures samples[k].load.value in Loads(slice) {
      assert slice[k - from] == samples[k];
    }
    forall x | x in Loads(slice) ensures exists k :: from <= k < to && samples[k].load == Some(x) {
      var k :| 0 <= k < |slice| && slice[k].load == Some(x);
      assert samples[from + k] == slice[k];
    }
  }

  lemma NoLoads(samples: seq<Sample>, from: nat, to: nat)
    requires from < to <= |samples|
    ensures Loads(samples[from..to]) == [] <==> forall k :: from <= k < to ==> samples[k].load.None?
  {
    LoadsOfSlice(samples, from, to);
    var loads := Loads(samples[from..to]);
    if loads != [] {
      var x := loads[0];
      assert x in Loads(samples[from..to]);
      assert exists k :: from <= k < to && samples[k].load == Some(x);
    }
  }

  lemma PeakOfSlice(samples: seq<Sample>, from: nat, to: nat)
    requires from < to <= |samples| && Loads(samples[from..to]) != []
    ensures var peak := Peak(Loads(samples[from..to]));
      && (exists k :: from <= k < to && samples[k].load == Some(peak))
      && (forall k :: from <= k < to && samples[k].load.Some? ==> samples[k].load.value <= peak)
  {
    LoadsOfSlice(samples, from, to);
    PeakIsGreatest(Loads(samples[from..to]));
  }

  lemma AggregatedInFull(samples: seq<Sample>, from: nat, to: nat)
    requires from < to <= |samples|
    ensures ShowsInFull(Aggregated(samples[from..to]), samples, from, to)
  {
    MeasureMeans(samples[from..to]);
    NoLoads(samples, from, to);
    if Loads(samples[from..to]) != [] {
      PeakOfSlice(samples, from, to);
    }
  }

  /** Point i of a chart stands for the samples i * size, i * size + 1, and so on, up to size of them. */
  lemma PointInFull(samples: seq<Sample>, size: nat, i: nat)
    requires size > 0 && i < |Points(samples, size)|
    ensures var from, to := i * size, if (i + 1) * size < |samples| then (i + 1) * size else |samples|;
      from < to && ShowsInFull(Points(samples, size)[i], samples, from, to)
  {
    var from, to := BucketInPlace(samples, size, i);
    AggregatedInFull(samples, from, to);
  }

  lemma {:induction false} LoadsInFull(samples: seq<Sample>)
    ensures forall k :: 0 <= k < |samples| && samples[k].load.Some? ==> samples[k].load.value in Loads(samples)
    ensures forall x :: x in Loads(samples) ==> exists k :: 0 <= k < |samples| && samples[k].load == Some(x)
  {
    if samples != [] {
      var before := samples[..|samples| - 1];
      LoadsInFull(before);
      assert forall k :: 0 <= k < |before| ==> before[k] == samples[k];
    }
  }

  lemma {:induction false} TotalsAddUp(points: seq<Point>, buckets: seq<seq<Sample>>)
    requires |points| == |buckets|
    requires forall i :: 0 <= i < |points| ==>
      Sum(Loads(buckets[i])) == if points[i].load.Some? then points[i].load.value.total else 0.0
    ensures Totals(points) == BucketTotals(buckets)
  {
    if points != [] {
      var p, b := points[1..], buckets[1..];
      assert forall i :: 0 <= i < |p| ==> p[i] == points[i + 1] && b[i] == buckets[i + 1];
      TotalsAddUp(p, b);
    }
  }

  /** Charting conserves the total load: the means, times their counts, add up to it. */
  lemma ChartKeepsTotalLoad(samples: seq<Sample>, size: nat)
    requires size > 0
    ensures Totals(Points(samples, size)) == Sum(Loads(samples))
  {
    BucketTotalsAddUp(samples, size);
    var points, buckets := Points(samples, size), Buckets(samples, size);
    forall i | 0 <= i < |points|
      ensures Sum(Loads(buckets[i])) == if points[i].load.Some? then points[i].load.value.total else 0.0
    {
      PointShowsLoads(samples, size, i);
    }
    TotalsAddUp(points, buckets);
  }

  lemma {:induction false} BucketOfLoad(samples: seq<Sample>, size: nat, load: real) returns (i: nat)
    requires size > 0 && load in Loads(samples)
    ensures i < |Buckets(samples, size)| && load in Loads(Buckets(samples, size)[i])
    decreases |samples|
  {
    FirstAndRest(samples, size);
    LoadsJoin(First(samples, size), Rest(samples, size));
    if load in Loads(First(samples, size)) {
      i := 0;
    } else {
      i := BucketOfLoad(Rest(samples, size), size, load);
      i := i + 1;
    }
  }

  lemma {:induction false} LoadsOfBucket(samples: seq<Sample>, size: nat, i: nat, load: real)
    requires size > 0 && i < |Buckets(samples, size)| && load in Loads(Buckets(samples, size)[i])
    ensures load in Loads(samples)
    decreases |samples|
  {
    FirstAndRest(samples, size);
    LoadsJoin(First(samples, size), Rest(samples, size));
    if i > 0 {
      LoadsOfBucket(Rest(samples, size), size, i - 1, load);
    }
  }

  /** No point shows a peak that was not measured. */
  lemma PeaksAreMeasured(samples: seq<Sample>, size: nat, i: nat)
    requires size > 0 && i < |Points(samples, size)| && Points(samples, size)[i].loadMax.Some?
    ensures Points(samples, size)[i].loadMax.value in Loads(samples)
    ensures Points(samples, size)[i].loadMax.value <= Peak(Loads(samples))
  {
    PointShowsLoads(samples, size, i);
    var loads := Loads(Buckets(samples, size)[i]);
    PeakIsGreatest(loads);
    LoadsOfBucket(samples, size, i, Peak(loads));
    PeakIsGreatest(Loads(samples));
  }

  lemma PeakOfBucket(samples: seq<Sample>, size: nat, i: nat)
    requires size > 0 && Loads(samples) != [] && i < |Buckets(samples, size)|
    requires Peak(Loads(samples)) in Loads(Buckets(samples, size)[i])
    ensures Peak(Loads(Buckets(samples, size)[i])) == Peak(Loads(samples))
  {
    var loads := Loads(Buckets(samples, size)[i]);
    PeakIsGreatest(loads);
    LoadsOfBucket(samples, size, i, Peak(loads));
    PeakIsGreatest(Loads(samples));
  }

  /** Some point shows the greatest load of all: a chart never hides the peak. */
  lemma ChartKeepsPeak(samples: seq<Sample>, size: nat) returns (i: nat)
    requires size > 0 && Loads(samples) != []
    ensures i < |Points(samples, size)| && Points(samples, size)[i].loadMax == Some(Peak(Loads(samples)))
  {
    PeakIsGreatest(Loads(samples));
    i := BucketOfLoad(samples, size, Peak(Loads(samples)));
    PeakOfBucket(samples, size, i);
    PointShowsLoads(samples, size, i);
  }
}
