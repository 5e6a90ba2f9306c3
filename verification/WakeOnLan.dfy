/** Waking devices over the network: each request starts a worker that sends packets on a schedule. */
module WakeOnLan {
  import opened Common

  // ----- the schedule -----

  /** The multiples of the interval in [0, duration). */
  function Offsets(duration: int, interval: int): (r: seq<int>)
    requires 0 < duration && 0 < interval
    ensures |r| == CeilDiv(duration, interval)
  {
    seq(CeilDiv(duration, interval), k requires 0 <= k < CeilDiv(duration, interval) => k * interval)
  }

  datatype ScheduleError = BadDuration | BadInterval

  method SendOffsets(duration: int, interval: int) returns (r: Result<seq<int>, ScheduleError>)
    ensures r.Ok? <==> 0 < duration && 0 < interval
    ensures r.Ok? ==> r.value == Offsets(duration, interval)
    ensures r == Err(BadDuration) <==> duration <= 0
  {
    if duration <= 0 {
      return Err(BadDuration);
    }
    if interval <= 0 {
      return Err(BadInterval);
    }
    var offsets: seq<int>, at := [], 0;
    while at < duration
      invariant at == |offsets| * interval && |offsets| <= CeilDiv(duration, interval)
      invariant forall k :: 0 <= k < |offsets| ==> offsets[k] == k * interval
      decreases duration - at
    {
      CeilDivIsLeast(duration, interval, |offsets|);
      offsets := offsets + [at];
      at := at + interval;
    }
    CeilDivIsLeast(duration, interval, |offsets|);
    assert offsets == Offsets(duration, interval);
    return Ok(offsets);
  }

  /** The schedule holds exactly the multiples of the interval before the duration, in order. */
  lemma OffsetsAreMultiples(duration: int, interval: int, k: nat)
    requires 0 < duration && 0 < interval
    ensures k < |Offsets(duration, interval)| <==> k * interval < duration
    ensures k < |Offsets(duration, interval)| ==> Offsets(duration, interval)[k] == k * interval
  {
    CeilDivIsLeast(duration, interval, k);
  }

  // ----- the configuration -----

  // `wellFormed` stands for the checks of addresses, names and port.
  datatype Device = Device(id: string, enabled: bool, wellFormed: bool)

  datatype Config = Config(durationSeconds: int, intervalSeconds: int, devices: seq<Device>)

  const MAX_SENDS := 20

  function WithDefaults(c: Config): Config {
    c.(durationSeconds := if c.durationSeconds == 0 then 120 else c.durationSeconds,
       intervalSeconds := if c.intervalSeconds == 0 then 30 else c.intervalSeconds)
  }

  predicate SafeId(id: string) {
    && 0 < |id| <= 64
    && forall ch :: ch in id ==> 'a' <= ch <= 'z' || 'A' <= ch <= 'Z' || '0' <= ch <= '9' || ch in {'.', '-', '_'}
  }

  ghost predicate DistinctIds(devices: seq<Device>) {
    forall i, j :: 0 <= i < j < |devices| ==> devices[i].id != devices[j].id
  }

  ghost predicate ValidConfig(c: Config) {
    && 1 <= c.durationSeconds <= 600 && 1 <= c.intervalSeconds <= 600
    && CeilDiv(c.durationSeconds, c.intervalSeconds) <= MAX_SENDS
    && 0 < |c.devices| && DistinctIds(c.devices)
    && forall d :: d in c.devices ==> SafeId(d.id) && d.wellFormed
  }

  datatype ConfigError = DurationRange | IntervalRange | TooManySends | NoDevices | BadDevice(index: nat) | DuplicateId(index: nat)

  /** The error names the first check that fails. */
  ghost predicate Blames(c: Config, e: ConfigError) {
    if !(1 <= c.durationSeconds <= 600) then e == DurationRange
    else if !(1 <= c.intervalSeconds <= 600) then e == IntervalRange
    else if CeilDiv(c.durationSeconds, c.intervalSeconds) > MAX_SENDS then e == TooManySends
    else if |c.devices| == 0 then e == NoDevices
    else match e
      case BadDevice(i) => i < |c.devices| && !(SafeId(c.devices[i].id) && c.devices[i].wellFormed)
      case DuplicateId(i) => i < |c.devices| && exists k :: 0 <= k < i && c.devices[k].id == c.devices[i].id
      case _ => false
  }

  method Validate(config: Config) returns (r: Result<Config, ConfigError>)
    ensures r.Ok? <==> ValidConfig(WithDefaults(config))
    ensures r.Ok? ==> r.value == WithDefaults(config)
    ensures r.Err? ==> Blames(WithDefaults(config), r.error)
  {
    var c := WithDefaults(config);
    if c.durationSeconds < 1 || c.durationSeconds > 600 {
      return Err(DurationRange);
    }
    if c.intervalSeconds < 1 || c.intervalSeconds > 600 {
      return Err(IntervalRange);
    }
    SecondsCancel(c.durationSeconds, c.intervalSeconds);
    var offsets := SendOffsets(c.durationSeconds * SECOND, c.intervalSeconds * SECOND);
    if |offsets.value| > MAX_SENDS {
      return Err(TooManySends);
    }
    if |c.devices| == 0 {
      return Err(NoDevices);
    }
    var seen: set<string> := {};
    for i := 0 to |c.devices|
      invariant seen == set k | 0 <= k < i :: c.devices[k].id
      invariant DistinctIds(c.devices[..i])
      invariant forall k :: 0 <= k < i ==> SafeId(c.devices[k].id) && c.devices[k].wellFormed
    {
      if !SafeId(c.devices[i].id) || !c.devices[i].wellFormed {
        assert c.devices[i] in c.devices;
        return Err(BadDevice(i));
      }
      if c.devices[i].id in seen {
        return Err(DuplicateId(i));
      }
      seen := seen + {c.devices[i].id};
    }
    assert c.devices[..|c.devices|] == c.devices;
    return Ok(c);
  }

  /** The accepted configurations: with 120 and 30 seconds where none are given, times from 1 to 600 seconds, no more
      than 20 sends, and at least one device, each with a short plain id of its own. */
  lemma AcceptedInFull(c: Config)
    ensures var duration, interval := WithDefaults(c).durationSeconds, WithDefaults(c).intervalSeconds;
      && duration == (if c.durationSeconds == 0 then 120 else c.durationSeconds)
      && interval == (if c.intervalSeconds == 0 then 30 else c.intervalSeconds)
      && WithDefaults(c).devices == c.devices
      && (ValidConfig(WithDefaults(c)) <==>
            && 1 <= duration <= 600 && 1 <= interval <= 600 && duration <= 20 * interval && |c.devices| >= 1
            && (forall i, j :: 0 <= i < j < |c.devices| ==> c.devices[i].id != c.devices[j].id)
            && forall d :: d in c.devices ==>
                 && d.wellFormed && 1 <= |d.id| <= 64
                 && forall k :: 0 <= k < |d.id| ==>
                      || 'a' <= d.id[k] <= 'z' || 'A' <= d.id[k] <= 'Z' || '0' <= d.id[k] <= '9'
                      || d.id[k] == '.' || d.id[k] == '-' || d.id[k] == '_')
  {
    var d := WithDefaults(c);
    if 1 <= d.durationSeconds && 1 <= d.intervalSeconds {
      CeilDivIsLeast(d.durationSeconds, d.intervalSeconds, 20);
    }
    forall device | device in c.devices
      ensures SafeId(device.id) <==>
        && 1 <= |device.id| <= 64
        && forall k :: 0 <= k < |device.id| ==>
             || 'a' <= device.id[k] <= 'z' || 'A' <= device.id[k] <= 'Z' || '0' <= device.id[k] <= '9'
             || device.id[k] == '.' || device.id[k] == '-' || device.id[k] == '_'
    {
      PlainId(device.id);
    }
  }

  lemma PlainId(id: string)
    ensures SafeId(id) <==>
      && 1 <= |id| <= 64
      && forall k :: 0 <= k < |id| ==>
           || 'a' <= id[k] <= 'z' || 'A' <= id[k] <= 'Z' || '0' <= id[k] <= '9'
           || id[k] == '.' || id[k] == '-' || id[k] == '_'
  {
    if SafeId(id) {
      forall k | 0 <= k < |id|
        ensures 'a' <= id[k] <= 'z' || 'A' <= id[k] <= 'Z' || '0' <= id[k] <= '9' || id[k] == '.' || id[k] == '-' || id[k] == '_'
      {
        assert id[k] in id;
      }
    }
  }

  /** Counting intervals in nanoseconds or in seconds is the same. */
  lemma SecondsCancel(duration: int, interval: int)
    requires 0 < duration && 0 < interval
    ensures CeilDiv(duration * SECOND, interval * SECOND) == CeilDiv(duration, interval)
  {
    var a, b := CeilDiv(duration * SECOND, interval * SECOND), CeilDiv(duration, interval);
    CeilDivIsLeast(duration, interval, a);
    CeilDivIsLeast(duration * SECOND, interval * SECOND, b);
    assert b * (interval * SECOND) == b * interval * SECOND;
    assert a * (interval * SECOND) == a * interval * SECOND;
  }

  function TotalSends(c: Config): (n: nat)
    requires ValidConfig(c)
    ensures 1 <= n <= MAX_SENDS
  {
    CeilDivIsLeast(c.durationSeconds, c.intervalSeconds, 0);
    CeilDiv(c.durationSeconds, c.intervalSeconds)
  }

  /** A worker sends as often as the interval fits into the duration, the first time at once. */
  lemma TotalInFull(c: Config)
    requires ValidConfig(c)
    ensures (TotalSends(c) - 1) * c.intervalSeconds < c.durationSeconds <= TotalSends(c) * c.intervalSeconds
  {
    assert (TotalSends(c) - 1) * c.intervalSeconds == TotalSends(c) * c.intervalSeconds - c.intervalSeconds;
  }

  // ----- jobs, as the mutex protects them -----

  datatype JobState = NoState | Running | Completed | Failed | Cancelled

  datatype Job = Job(state: JobState, attempts: nat, packets: nat, total: nat, failing: bool)

  const NO_JOB := Job(NoState, 0, 0, 0, false)

  datatype WakeError = DeviceNotFound | DeviceDisabled | JobRunning

  function FindDevice(devices: seq<Device>, id: string): Option<Device> {
    if devices == [] then None
    else if devices[0].id == id then Some(devices[0])
    else FindDevice(devices[1..], id)
  }

  function WakeRefused(c: Config, jobs: map<string, Job>, id: string): Option<WakeError> {
    var device := FindDevice(c.devices, id);
    if device.None? then Some(DeviceNotFound)
    else if !device.value.enabled then Some(DeviceDisabled)
    else if id in jobs && jobs[id].state == Running then Some(JobRunning)
    else None
  }

  function JobOf(jobs: map<string, Job>, id: string): Job {
    if id in jobs then jobs[id] else NO_JOB
  }

  function Recorded(job: Job, sent: bool): Job {
    job.(attempts := job.attempts + 1,
         packets := if sent then job.packets + 1 else job.packets,
         failing := !sent || job.failing)
  }

  function Finished(job: Job): Job {
    job.(state := if job.packets > 0 then Completed else Failed)
  }

  // The sends that got through.
  function Through(sends: seq<bool>): (n: nat)
    ensures n <= |sends|
  {
    if sends == [] then 0 else Through(sends[..|sends| - 1]) + (if sends[|sends| - 1] then 1 else 0)
  }

  lemma {:induction false} SomeThrough(sends: seq<bool>)
    ensures Through(sends) > 0 <==> true in sends
  {
    if sends != [] {
      SomeThrough(sends[..|sends| - 1]);
      assert sends == sends[..|sends| - 1] + [sends[|sends| - 1]];
    }
  }

  /** The job of an undisturbed worker after some of its sends. */
  function Progressed(total: nat, sends: seq<bool>): Job {
    Job(Running, |sends|, Through(sends), total, false in sends)
  }

  class Manager {
    const config: Config
    var jobs: map<string, Job>

    constructor (config: Config)
      requires ValidConfig(config)
      ensures this.config == config && jobs == map[]
    {
      this.config := config;
      jobs := map[];
    }

    /** Starts a job unless the device is unknown, disabled or already being woken. */
    method Wake(id: string) returns (r: Result<Job, WakeError>)
      requires ValidConfig(config)
      modifies this
      ensures match WakeRefused(config, old(jobs), id)
        case Some(e) => r == Err(e) && jobs == old(jobs)
        case None => r == Ok(Job(Running, 0, 0, TotalSends(config), false)) && jobs == old(jobs)[id := r.value]
    {
      var device := FindDevice(config.devices, id);
      if device.None? {
        return Err(DeviceNotFound);
      }
      if !device.value.enabled {
        return Err(DeviceDisabled);
      }
      if id in jobs && jobs[id].state == Running {
        return Err(JobRunning);
      }
      SecondsCancel(config.durationSeconds, config.intervalSeconds);
      var offsets := SendOffsets(config.durationSeconds * SECOND, config.intervalSeconds * SECOND);
      var job := Job(Running, 0, 0, |offsets.value|, false);
      jobs := jobs[id := job];
      return Ok(job);
    }

    method RecordAttempt(id: string, sent: bool)
      modifies this
      ensures jobs == old(jobs)[id := Recorded(JobOf(old(jobs), id), sent)]
      ensures id !in old(jobs) ==> jobs[id] == Job(NoState, 1, if sent then 1 else 0, 0, !sent)
    {
      var job := if id in jobs then jobs[id] else NO_JOB;
      job := job.(attempts := job.attempts + 1);
      if sent {
        job := job.(packets := job.packets + 1);
      } else {
        job := job.(failing := true);
      }
      jobs := jobs[id := job];
    }

    method Finish(id: string)
      modifies this
      ensures jobs == old(jobs)[id := Finished(JobOf(old(jobs), id))]
    {
      var job := if id in jobs then jobs[id] else NO_JOB;
      if job.packets > 0 {
        job := job.(state := Completed);
      } else {
        job := job.(state := Failed);
      }
      jobs := jobs[id := job];
    }

    method FinishCancelled(id: string)
      modifies this
      ensures jobs == old(jobs)[id := JobOf(old(jobs), id).(state := Cancelled, failing := true)]
    {
      var job := if id in jobs then jobs[id] else NO_JOB;
      jobs := jobs[id := job.(state := Cancelled, failing := true)];
    }

    /** A whole worker while no other thread runs: `sends` are the outcomes of its sends, and the context is
        cancelled in the wait before send number `cancelledAt`, or too late to matter. */
    method Run(id: string, offsets: seq<int>, sends: seq<bool>, cancelledAt: nat)
      requires |sends| == |offsets|
      requires id in jobs && jobs[id] == Job(Running, 0, 0, |offsets|, false)
      modifies this
      ensures jobs.Keys == old(jobs).Keys && forall other :: other in jobs && other != id ==> jobs[other] == old(jobs)[other]
      ensures var made := if 0 < cancelledAt < |offsets| then sends[..cancelledAt] else sends;
        && jobs[id].attempts == |made| && jobs[id].packets == Through(made) && jobs[id].total == |offsets|
        && jobs[id].state == (if 0 < cancelledAt < |offsets| then Cancelled else if true in made then Completed else Failed)
        && (jobs[id].failing <==> 0 < cancelledAt < |offsets| || false in made)
    {
      for i := 0 to |offsets|
        invariant cancelledAt == 0 || cancelledAt >= |offsets| || i <= cancelledAt
        invariant jobs == old(jobs)[id := Progressed(|offsets|, sends[..i])]
      {
        if i > 0 && i == cancelledAt {
          FinishCancelled(id);
          return;
        }
        RecordAttempt(id, sends[i]);
        assert sends[..i + 1] == sends[..i] + [sends[i]];
      }
      assert sends[..|offsets|] == sends;
      Finish(id);
      SomeThrough(sends);
    }

    /** Each configured device with its latest job, in the configured order. */
    method Status() returns (devices: seq<(Device, Option<Job>)>)
      ensures |devices| == |config.devices|
      ensures forall i :: 0 <= i < |devices| ==>
        && devices[i].0 == config.devices[i]
        && devices[i].1 == if config.devices[i].id in jobs then Some(jobs[config.devices[i].id]) else None
    {
      devices := [];
      for i := 0 to |config.devices|
        invariant |devices| == i
        invariant forall k :: 0 <= k < i ==>
          && devices[k].0 == config.devices[k]
          && devices[k].1 == if config.devices[k].id in jobs then Some(jobs[config.devices[k].id]) else None
      {
        var id := config.devices[i].id;
        var job := if id in jobs then Some(jobs[id]) else None;
        devices := devices + [(config.devices[i], job)];
      }
    }
  }

  // ----- all interleavings -----

  // A running worker: how many attempts it has recorded, of how many.
  datatype Worker = Worker(device: string, done: nat, total: nat)

  // A recorded attempt, with the worker that made it.
  datatype Attempt = Attempt(worker: nat, sent: bool)

  /** The jobs, the live workers by number, the worker that each device's job belongs to, the devices in the
      order of their wakes (worker n is the n-th), and all recorded attempts. */
  datatype World = World(
    jobs: map<string, Job>,
    workers: map<nat, Worker>,
    owner: map<string, nat>,
    launched: seq<string>,
    attempts: seq<Attempt>)

  const EMPTY := World(map[], map[], map[], [], [])

  datatype Event = Wake(id: string) | Send(worker: nat, sent: bool) | Cancel(worker: nat) | Finish(worker: nat)

  /** One critical section of some thread. A worker sends while attempts remain, can only be cancelled in
      the wait between two attempts, and finishes after the last. */
  function Next(c: Config, w: World, e: Event): World
    requires ValidConfig(c)
  {
    match e
    case Wake(id) =>
      if WakeRefused(c, w.jobs, id).Some? then w
      else World(w.jobs[id := Job(Running, 0, 0, TotalSends(c), false)],
                 w.workers[|w.launched| := Worker(id, 0, TotalSends(c))],
                 w.owner[id := |w.launched|], w.launched + [id], w.attempts)
    case Send(n, sent) =>
      if n !in w.workers || w.workers[n].done == w.workers[n].total then w
      else
        var k := w.workers[n];
        w.(jobs := w.jobs[k.device := Recorded(JobOf(w.jobs, k.device), sent)],
           workers := w.workers[n := k.(done := k.done + 1)],
           attempts := w.attempts + [Attempt(n, sent)])
    case Cancel(n) =>
      if n !in w.workers || w.workers[n].done == 0 || w.workers[n].done == w.workers[n].total then w
      else
        var id := w.workers[n].device;
        w.(jobs := w.jobs[id := JobOf(w.jobs, id).(state := Cancelled, failing := true)], workers := w.workers - {n})
    case Finish(n) =>
      if n !in w.workers || w.workers[n].done != w.workers[n].total then w
      else
        var id := w.workers[n].device;
        w.(jobs := w.jobs[id := Finished(JobOf(w.jobs, id))], workers := w.workers - {n})
  }

  // The attempts of one worker, and those of them that got through.
  function MadeBy(attempts: seq<Attempt>, worker: nat): nat {
    if attempts == [] then 0
    else
      var last := attempts[|attempts| - 1];
      MadeBy(attempts[..|attempts| - 1], worker) + (if last.worker == worker then 1 else 0)
  }

  function SentBy(attempts: seq<Attempt>, worker: nat): nat {
    if attempts == [] then 0
    else
      var last := attempts[|attempts| - 1];
      SentBy(attempts[..|attempts| - 1], worker) + (if last.worker == worker && last.sent then 1 else 0)
  }

  /** A job's figures are its own worker's, and fit its state. */
  ghost predicate SoundJob(c: Config, w: World, id: string)
    requires ValidConfig(c) && id in w.jobs
  {
    var job := w.jobs[id];
    && id in w.owner && w.owner[id] < |w.launched| && w.launched[w.owner[id]] == id
    && job.total == TotalSends(c)
    && job.attempts == MadeBy(w.attempts, w.owner[id])
    && job.packets == SentBy(w.attempts, w.owner[id])
    && job.packets <= job.attempts <= job.total
    && match job.state
       case NoState => false
       case Running => w.owner[id] in w.workers
       case Completed => job.attempts == job.total && job.packets > 0
       case Failed => job.attempts == job.total && job.packets == 0
       case Cancelled => 1 <= job.attempts < job.total
  }

  /** A live worker owns a running job that has recorded exactly its attempts. */
  ghost predicate SoundWorker(c: Config, w: World, n: nat)
    requires ValidConfig(c) && n in w.workers
  {
    var k := w.workers[n];
    && n < |w.launched| && w.launched[n] == k.device
    && k.device in w.owner && w.owner[k.device] == n
    && k.device in w.jobs && w.jobs[k.device].state == Running
    && w.jobs[k.device].attempts == k.done && k.total == TotalSends(c)
  }

  ghost predicate Sound(c: Config, w: World)
    requires ValidConfig(c)
  {
    && (forall id :: id in w.jobs ==> SoundJob(c, w, id))
    && (forall n :: n in w.workers ==> SoundWorker(c, w, n))
    && (forall i :: 0 <= i < |w.attempts| ==> w.attempts[i].worker < |w.launched|)
  }

  lemma MadeByNext(attempts: seq<Attempt>, a: Attempt, worker: nat)
    ensures MadeBy(attempts + [a], worker) == MadeBy(attempts, worker) + (if a.worker == worker then 1 else 0)
    ensures SentBy(attempts + [a], worker) == SentBy(attempts, worker) + (if a.worker == worker && a.sent then 1 else 0)
  {
    assert (attempts + [a])[..|attempts|] == attempts;
  }

  /** A worker that was never launched has made no attempt. */
  lemma {:induction false} NothingMade(attempts: seq<Attempt>, worker: nat)
    requires forall i :: 0 <= i < |attempts| ==> attempts[i].worker < worker
    ensures MadeBy(attempts, worker) == 0 && SentBy(attempts, worker) == 0
  {
    if attempts != [] {
      assert attempts[|attempts| - 1].worker < worker;
      NothingMade(attempts[..|attempts| - 1], worker);
    }
  }

  lemma WakeSound(c: Config, w: World, id: string)
    requires ValidConfig(c) && Sound(c, w)
    ensures Sound(c, Next(c, w, Wake(id)))
  {
    var after := Next(c, w, Wake(id));
    NothingMade(w.attempts, |w.launched|);
    if WakeRefused(c, w.jobs, id).None? {
      forall other | other in after.jobs ensures SoundJob(c, after, other) {
        if other != id {
          assert SoundJob(c, w, other);
        }
      }
      forall n | n in after.workers ensures SoundWorker(c, after, n) {
        if n != |w.launched| {
          assert SoundWorker(c, w, n);
        }
      }
    }
  }

  lemma SendKeepsJob(c: Config, w: World, n: nat, sent: bool, id: string)
    requires ValidConfig(c) && Sound(c, w) && id in w.jobs
    ensures SoundJob(c, Next(c, w, Send(n, sent)), id)
  {
    assert SoundJob(c, w, id);
    if n in w.workers && w.workers[n].done != w.workers[n].total {
      assert SoundWorker(c, w, n);
      MadeByNext(w.attempts, Attempt(n, sent), w.owner[id]);
    }
  }

  lemma SendSound(c: Config, w: World, n: nat, sent: bool)
    requires ValidConfig(c) && Sound(c, w)
    ensures Sound(c, Next(c, w, Send(n, sent)))
  {
    var after := Next(c, w, Send(n, sent));
    if n in w.workers && w.workers[n].done != w.workers[n].total {
      assert SoundWorker(c, w, n);
      forall id | id in after.jobs ensures SoundJob(c, after, id) {
        SendKeepsJob(c, w, n, sent, id);
      }
      forall m | m in after.workers ensures SoundWorker(c, after, m) {
        assert SoundWorker(c, w, m);
      }
    }
  }

  lemma EndKeepsJob(c: Config, w: World, n: nat, e: Event, id: string)
    requires ValidConfig(c) && Sound(c, w) && (e == Cancel(n) || e == Finish(n)) && id in w.jobs
    ensures SoundJob(c, Next(c, w, e), id)
  {
    assert SoundJob(c, w, id);
    if n in w.workers {
      assert SoundWorker(c, w, n);
    }
  }

  lemma EndSound(c: Config, w: World, n: nat, e: Event)
    requires ValidConfig(c) && Sound(c, w) && (e == Cancel(n) || e == Finish(n))
    ensures Sound(c, Next(c, w, e))
  {
    var after := Next(c, w, e);
    if n in w.workers {
      assert SoundWorker(c, w, n);
      forall id | id in after.jobs ensures SoundJob(c, after, id) {
        EndKeepsJob(c, w, n, e, id);
      }
      forall m | m in after.workers ensures SoundWorker(c, after, m) {
        assert SoundWorker(c, w, m);
      }
    }
  }

  lemma NextSound(c: Config, w: World, e: Event)
    requires ValidConfig(c) && Sound(c, w)
    ensures Sound(c, Next(c, w, e))
  {
    match e
    case Wake(id) => WakeSound(c, w, id);
    case Send(n, sent) => SendSound(c, w, n, sent);
    case Cancel(n) => EndSound(c, w, n, e);
    case Finish(n) => EndSound(c, w, n, e);
  }

  /** The manager after any sequence of critical sections of any threads. */
  function After(c: Config, events: seq<Event>): World
    requires ValidConfig(c)
  {
    if events == [] then EMPTY else Next(c, After(c, events[..|events| - 1]), events[|events| - 1])
  }

  lemma {:induction false} AfterSound(c: Config, events: seq<Event>)
    requires ValidConfig(c)
    ensures Sound(c, After(c, events))
  {
    if events != [] {
      AfterSound(c, events[..|events| - 1]);
      NextSound(c, After(c, events[..|events| - 1]), events[|events| - 1]);
    }
  }

  /** Under every interleaving a device's job is running exactly while a live worker is waking that device,
      that worker is the only one, and it is the one the job belongs to. */
  lemma OneLiveJobPerDevice(c: Config, events: seq<Event>, id: string)
    requires ValidConfig(c)
    ensures var w := After(c, events);
      && (id in w.jobs && w.jobs[id].state == Running <==> exists n :: n in w.workers && w.workers[n].device == id)
      && forall n :: n in w.workers && w.workers[n].device == id ==> id in w.owner && n == w.owner[id]
  {
    AfterSound(c, events);
    var w := After(c, events);
    if id in w.jobs {
      assert SoundJob(c, w, id);
    }
    forall n | n in w.workers && w.workers[n].device == id
      ensures id in w.owner && n == w.owner[id] && id in w.jobs && w.jobs[id].state == Running
    {
      assert SoundWorker(c, w, n);
    }
  }

  /** The figures of a job count the attempts of its own worker and of no other, and its state says how that
      worker ended. */
  lemma JobFigures(c: Config, events: seq<Event>, id: string)
    requires ValidConfig(c) && id in After(c, events).jobs
    ensures id in After(c, events).owner
    ensures var w := After(c, events); var job := w.jobs[id];
      && job.attempts == MadeBy(w.attempts, w.owner[id]) && job.packets == SentBy(w.attempts, w.owner[id])
      && job.packets <= job.attempts <= job.total == TotalSends(c) <= MAX_SENDS
      && (job.state == Completed ==> job.attempts == job.total && job.packets > 0)
      && (job.state == Failed ==> job.attempts == job.total && job.packets == 0)
      && (job.state == Cancelled ==> 1 <= job.attempts < job.total)
      && job.state != NoState
  {
    AfterSound(c, events);
    assert SoundJob(c, After(c, events), id);
  }

  /** What a live worker does to its device's job, in every world that an interleaving leads to: while attempts remain
      each send adds one, and a packet iff it got through, and between two of them it can be cancelled; after the
      last one it ends the job as completed iff any packet got through. */
  lemma WorkerInFull(c: Config, w: World, n: nat, sent: bool)
    requires ValidConfig(c) && Sound(c, w) && n in w.workers
    ensures var id := w.workers[n].device;
      && id in w.jobs && w.jobs[id].state == Running
      && var job := w.jobs[id];
        && (job.attempts < job.total ==>
              && Next(c, w, Finish(n)) == w
              && n in Next(c, w, Send(n, sent)).workers
              && Next(c, w, Send(n, sent)).jobs ==
                 w.jobs[id := Job(Running, job.attempts + 1, job.packets + if sent then 1 else 0, job.total, job.failing || !sent)])
        && (0 < job.attempts < job.total ==>
              && n !in Next(c, w, Cancel(n)).workers
              && Next(c, w, Cancel(n)).jobs == w.jobs[id := Job(Cancelled, job.attempts, job.packets, job.total, true)])
        && (job.attempts == job.total ==>
              && Next(c, w, Send(n, sent)) == w && Next(c, w, Cancel(n)) == w
              && n !in Next(c, w, Finish(n)).workers
              && Next(c, w, Finish(n)).jobs ==
                 w.jobs[id := Job(if job.packets > 0 then Completed else Failed, job.attempts, job.packets, job.total, job.failing)])
  {
    assert SoundWorker(c, w, n) && SoundJob(c, w, w.workers[n].device);
  }

  /** And what a wake does that is not refused: one new job and one new worker that owns it. */
  lemma WakeInFull(c: Config, w: World, id: string)
    requires ValidConfig(c) && Sound(c, w) && WakeRefused(c, w.jobs, id).None?
    ensures var next := Next(c, w, Wake(id)); var total := TotalSends(c);
      && next.jobs == w.jobs[id := Job(Running, 0, 0, total, false)]
      && |next.launched| == |w.launched| + 1 && next.launched == w.launched + [id]
      && next.owner == w.owner[id := |w.launched|] && next.attempts == w.attempts
      && |w.launched| !in w.workers && next.workers == w.workers[|w.launched| := Worker(id, 0, total)]
  {
    forall n | n in w.workers ensures n < |w.launched| {
      assert SoundWorker(c, w, n);
    }
  }

  /** A job that is over stays as it is until its device is woken again: no late worker adds to it. */
  lemma EndedJobsStand(c: Config, events: seq<Event>, e: Event, id: string)
    requires ValidConfig(c) && id in After(c, events).jobs && After(c, events).jobs[id].state != Running && e != Wake(id)
    ensures id in After(c, events + [e]).jobs && After(c, events + [e]).jobs[id] == After(c, events).jobs[id]
  {
    AfterSound(c, events);
    var w := After(c, events);
    assert (events + [e])[..|events|] == events;
    if !e.Wake? && e.worker in w.workers {
      assert SoundWorker(c, w, e.worker);
    }
  }

  /** A wake is refused exactly for an unknown device, a disabled one, or one that a live worker is waking, and says
      which of them it is. */
  lemma RefusedIffBusy(c: Config, events: seq<Event>, id: string)
    requires ValidConfig(c)
    ensures var w := After(c, events); var refused := WakeRefused(c, w.jobs, id);
      && (refused == Some(DeviceNotFound) <==> forall d :: d in c.devices ==> d.id != id)
      && (refused == Some(DeviceDisabled) <==> exists d :: d in c.devices && d.id == id && !d.enabled)
      && (refused == Some(JobRunning) <==>
            && (exists d :: d in c.devices && d.id == id && d.enabled)
            && (exists n :: n in w.workers && w.workers[n].device == id))
  {
    OneLiveJobPerDevice(c, events, id);
    FindsTheDevice(c.devices, id);
  }

  lemma {:induction false} FindsTheDevice(devices: seq<Device>, id: string)
    requires DistinctIds(devices)
    ensures FindDevice(devices, id).None? <==> forall d :: d in devices ==> d.id != id
    ensures FindDevice(devices, id).Some? ==>
      FindDevice(devices, id).value in devices && forall d :: d in devices && d.id == id ==> d == FindDevice(devices, id).value
  {
    if devices != [] {
      var rest := devices[1..];
      assert forall i, j :: 0 <= i < j < |rest| ==> rest[i] == devices[i + 1] && rest[j] == devices[j + 1];
      FindsTheDevice(rest, id);
      assert forall d :: d in devices <==> d == devices[0] || d in rest;
      if devices[0].id == id {
        forall d | d in rest ensures d.id != id {
          var i :| 0 <= i < |rest| && rest[i] == d;
          assert devices[i + 1] == d;
        }
      }
    }
  }
}
