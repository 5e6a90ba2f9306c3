/** What the engine's few timers mean: every action of a run is characterised by the samples taken so
    far, without mentioning the engine's state. */
module EngineHistory {
  import opened Common
  import opened PowerCore

  datatype Sample = Sample(at: int, snap: Snapshot) {
    predicate Loss() {
      snap.Loss()
    }
  }

  /** Sample times that an engine accepts one after the other. */
  ghost predicate WellTimed(h: seq<Sample>) {
    && (forall i :: 0 <= i < |h| ==> 0 <= h[i].at)
    && (forall i, j :: 0 <= i < j < |h| ==> h[i].at < h[j].at)
  }

  /** The memory of a new engine after the first n samples. */
  ghost function After(c: Config, h: seq<Sample>, n: nat): (m: Memory)
    requires WellTimed(h) && n <= |h|
    ensures m.lastAt == if n == 0 then None else Some(h[n - 1].at)
    decreases n, 0
  {
    if n == 0 then INITIAL else Taken(c, h, n - 1).memory
  }

  /** What sample n does. */
  ghost function Taken(c: Config, h: seq<Sample>, n: nat): (o: Outcome)
    requires WellTimed(h) && n < |h|
    ensures o.memory.lastAt == Some(h[n].at)
    decreases n, 1
  {
    Step(c, After(c, h, n), h[n].at, h[n].snap).value
  }

  function Kinds(actions: seq<Action>): (r: seq<ActionKind>)
    ensures |r| == |actions| && forall i :: 0 <= i < |r| ==> r[i] == actions[i].kind
  {
    seq(|actions|, i requires 0 <= i < |actions| => actions[i].kind)
  }

  ghost function KindsAt(c: Config, h: seq<Sample>, n: nat): seq<ActionKind>
    requires WellTimed(h) && n < |h|
  {
    Kinds(Taken(c, h, n).actions)
  }

  ghost predicate Emits(c: Config, h: seq<Sample>, n: nat, kind: ActionKind)
    requires WellTimed(h) && n < |h|
  {
    kind in KindsAt(c, h, n)
  }

  // ----- the reference reading of a history -----

  ghost predicate LossRun(h: seq<Sample>, i: nat, n: nat)
    requires n <= |h|
  {
    forall k :: i <= k < n ==> h[k].Loss()
  }

  ghost predicate HealthyRun(h: seq<Sample>, i: nat, n: nat)
    requires n <= |h|
  {
    forall k :: i <= k < n ==> !h[k].Loss()
  }

  /** A UPS loss at i, and no healthy sample from there to before n. */
  ghost predicate NutSince(h: seq<Sample>, i: nat, n: nat)
    requires n <= |h|
  {
    i < n && h[i].snap.NutLoss() && LossRun(h, i, n)
  }

  /** Nothing but network loss from i to before n. */
  ghost predicate NetworkSince(h: seq<Sample>, i: nat, n: nat)
    requires n <= |h|
  {
    i < n && forall k :: i <= k < n ==> h[k].snap.NetworkLoss()
  }

  /** The window [k, k + r) lies before n and is healthy throughout. */
  ghost predicate Recovered(h: seq<Sample>, r: nat, k: nat, n: nat)
    requires n <= |h|
  {
    k + r <= n && HealthyRun(h, k, k + r)
  }

  /** A loss at i that no r healthy samples in a row have followed before n. */
  ghost predicate OpenSince(h: seq<Sample>, r: nat, i: nat, n: nat)
    requires n <= |h|
  {
    i < n && h[i].Loss() && forall k: nat :: i <= k < n ==> !Recovered(h, r, k, n)
  }

  ghost predicate NutConfirmed(c: Config, h: seq<Sample>, n: nat)
    requires n < |h|
  {
    exists i: nat :: NutSince(h, i, n + 1) && h[n].at - h[i].at >= c.nutConfirm
  }

  ghost predicate NetworkConfirmed(c: Config, h: seq<Sample>, n: nat)
    requires n < |h|
  {
    exists i: nat :: NetworkSince(h, i, n + 1) && h[n].at - h[i].at >= c.networkConfirm
  }

  ghost predicate Confirmed(c: Config, h: seq<Sample>, n: nat)
    requires n < |h|
  {
    NutConfirmed(c, h, n) || NetworkConfirmed(c, h, n)
  }

  /** No sample before n completes a confirmation time. */
  ghost predicate Undecided(c: Config, h: seq<Sample>, n: nat)
    requires n <= |h|
  {
    forall m: nat :: m < n ==> !Confirmed(c, h, m)
  }

  ghost predicate FirstConfirmed(c: Config, h: seq<Sample>, g: nat)
    requires g < |h|
  {
    Confirmed(c, h, g) && Undecided(c, h, g)
  }

  /** Sample j is where the outage that is open before n began. */
  ghost predicate OutageStart(h: seq<Sample>, r: nat, j: nat, n: nat)
    requires n <= |h|
  {
    OpenSince(h, r, j, n) && forall i: nat :: i < j ==> !OpenSince(h, r, i, n)
  }

  /** A sample that ends a shutdown which began with the outage of sample j. */
  ghost predicate Releases(c: Config, h: seq<Sample>, j: nat, n: nat)
    requires j < |h| && n < |h|
  {
    h[n].snap.allGuestsStopped || h[n].at >= h[j].at + c.EmergencyAfter()
  }

  /** Confirmed at g for the outage of sample j, n is the first sample from g on that ends the shutdown. */
  ghost predicate PoweroffPlan(c: Config, h: seq<Sample>, g: nat, j: nat, n: nat)
    requires c.Valid() && n < |h|
  {
    && g <= n && FirstConfirmed(c, h, g)
    && j <= g && OutageStart(h, c.recoveryCount, j, g + 1)
    && Releases(c, h, j, n)
    && forall k: nat :: g <= k < n ==> !Releases(c, h, j, k)
  }

  // ----- the timers hold what the reference reading says -----

  ghost predicate NutTimer(h: seq<Sample>, n: nat, t: Option<int>)
    requires n <= |h|
  {
    && (forall i: nat :: NutSince(h, i, n) ==> t.Some? && t.value <= h[i].at)
    && (t.Some? ==> exists i: nat :: NutSince(h, i, n) && h[i].at == t.value)
  }

  ghost predicate NetworkTimer(h: seq<Sample>, n: nat, t: Option<int>)
    requires n <= |h|
  {
    && (forall i: nat :: NetworkSince(h, i, n) ==> t.Some? && t.value <= h[i].at)
    && (t.Some? ==> exists i: nat :: NetworkSince(h, i, n) && h[i].at == t.value)
  }

  ghost predicate OutageTimer(h: seq<Sample>, r: nat, n: nat, t: Option<int>)
    requires n <= |h|
  {
    && (forall i: nat :: OpenSince(h, r, i, n) ==> t.Some? && t.value <= h[i].at)
    && (t.Some? ==> exists i: nat :: OpenSince(h, r, i, n) && h[i].at == t.value)
  }

  /** With an open outage the counter is the number of healthy samples at the end. */
  ghost predicate RecoveryCounter(h: seq<Sample>, n: nat, st: Status)
    requires n <= |h|
  {
    st.outageAt.Some? ==>
      0 <= st.recovery < n && h[n - 1 - st.recovery].Loss() && HealthyRun(h, n - st.recovery, n)
  }

  ghost predicate Tracks(c: Config, h: seq<Sample>, n: nat, st: Status)
    requires c.Valid() && n <= |h|
  {
    && Reachable(c, st) && st.state in {Normal, Confirming}
    && NutTimer(h, n, st.nutAt)
    && NetworkTimer(h, n, st.networkAt)
    && OutageTimer(h, c.recoveryCount, n, st.outageAt)
    && RecoveryCounter(h, n, st)
  }

  lemma NutSinceNext(h: seq<Sample>, i: nat, n: nat)
    requires i <= n < |h|
    ensures NutSince(h, i, n + 1) <==>
      h[n].Loss() && if i == n then h[n].snap.NutLoss() else NutSince(h, i, n)
  {
    if h[n].Loss() && i < n && LossRun(h, i, n) {
      assert LossRun(h, i, n + 1);
    }
    if LossRun(h, i, n + 1) {
      assert LossRun(h, i, n) && h[n].Loss();
    }
  }

  lemma NetworkSinceNext(h: seq<Sample>, i: nat, n: nat)
    requires i <= n < |h|
    ensures NetworkSince(h, i, n + 1) <==> h[n].snap.NetworkLoss() && (i == n || NetworkSince(h, i, n))
  {}

  lemma OpenSinceNext(h: seq<Sample>, r: nat, i: nat, n: nat)
    requires 0 < r && i <= n < |h|
    ensures OpenSince(h, r, i, n + 1) <==>
      if i == n then h[n].Loss()
      else OpenSince(h, r, i, n) && !(i + r <= n + 1 && HealthyRun(h, n + 1 - r, n + 1))
  {
    forall k: nat | i <= k < n ensures Recovered(h, r, k, n) ==> Recovered(h, r, k, n + 1) {}
    if i + r <= n + 1 && HealthyRun(h, n + 1 - r, n + 1) {
      assert Recovered(h, r, n + 1 - r, n + 1);
    } else if i < n && OpenSince(h, r, i, n) {
      var end := n + 1;
      forall k: nat | i <= k < end ensures !Recovered(h, r, k, end) {
        if k + r <= n {
          assert !Recovered(h, r, k, n);
        } else if k + r == n + 1 {
          assert k == n + 1 - r;
        }
      }
    } else if i == n && h[n].Loss() {
      assert !Recovered(h, r, n, n + 1);
    }
  }

  lemma NutTimerNext(h: seq<Sample>, n: nat, t: Option<int>)
    requires WellTimed(h) && n < |h| && NutTimer(h, n, t)
    ensures NutTimer(h, n + 1,
      if !h[n].Loss() then None else if h[n].snap.NutLoss() && t.None? then Some(h[n].at) else t)
  {
    forall i: nat | i <= n ensures NutSince(h, i, n + 1) <==>
      h[n].Loss() && if i == n then h[n].snap.NutLoss() else NutSince(h, i, n)
    {
      NutSinceNext(h, i, n);
    }
    if h[n].Loss() && h[n].snap.NutLoss() && t.None? {
      assert NutSince(h, n, n + 1);
    }
    if h[n].Loss() && t.Some? {
      var i: nat :| NutSince(h, i, n) && h[i].at == t.value;
      assert NutSince(h, i, n + 1);
    }
  }

  lemma NetworkTimerNext(h: seq<Sample>, n: nat, t: Option<int>)
    requires WellTimed(h) && n < |h| && NetworkTimer(h, n, t)
    ensures NetworkTimer(h, n + 1,
      if !h[n].snap.NetworkLoss() then None else if t.None? then Some(h[n].at) else t)
  {
    forall i: nat | i <= n ensures NetworkSince(h, i, n + 1) <==>
      h[n].snap.NetworkLoss() && (i == n || NetworkSince(h, i, n))
    {
      NetworkSinceNext(h, i, n);
    }
    if h[n].snap.NetworkLoss() && t.None? {
      assert NetworkSince(h, n, n + 1);
    }
    if h[n].snap.NetworkLoss() && t.Some? {
      var i: nat :| NetworkSince(h, i, n) && h[i].at == t.value;
      assert NetworkSince(h, i, n + 1);
    }
  }

  lemma LossKeepsOutage(h: seq<Sample>, r: nat, n: nat, t: Option<int>)
    requires WellTimed(h) && 0 < r && n < |h| && OutageTimer(h, r, n, t) && h[n].Loss()
    ensures OutageTimer(h, r, n + 1, if t.None? then Some(h[n].at) else t)
  {
    forall i: nat | i <= n ensures OpenSince(h, r, i, n + 1) <==> i == n || OpenSince(h, r, i, n) {
      OpenSinceNext(h, r, i, n);
    }
    assert OpenSince(h, r, n, n + 1);
    if t.Some? {
      var i: nat :| OpenSince(h, r, i, n) && h[i].at == t.value;
      assert OpenSince(h, r, i, n + 1);
    }
  }

  /** A healthy sample ends the outage iff it is the r-th in a row. */
  lemma HealthyMovesOutage(h: seq<Sample>, r: nat, n: nat, st: Status)
    requires WellTimed(h) && 0 < r && n < |h| && OutageTimer(h, r, n, st.outageAt) && !h[n].Loss()
    requires RecoveryCounter(h, n, st)
    ensures OutageTimer(h, r, n + 1, if st.recovery + 1 < r then st.outageAt else None)
  {
    forall i: nat | i < n ensures OpenSince(h, r, i, n + 1) <==> OpenSince(h, r, i, n) && st.recovery + 1 < r {
      OpenSinceNext(h, r, i, n);
      if OpenSince(h, r, i, n) {
        assert st.outageAt.Some?;
        var last := n - 1 - st.recovery;
        if st.recovery + 1 < r {
          assert i + r <= n + 1 ==> !HealthyRun(h, n + 1 - r, n + 1) by {
            assert h[last].Loss();
          }
        } else {
          assert i <= last;
          assert HealthyRun(h, n + 1 - r, n + 1);
        }
      }
    }
    var t := if st.recovery + 1 < r then st.outageAt else None;
    forall i: nat | OpenSince(h, r, i, n + 1) ensures t.Some? && t.value <= h[i].at {
      assert i < n;
      assert OpenSince(h, r, i, n);
    }
    if st.outageAt.Some? && st.recovery + 1 < r {
      var i: nat :| OpenSince(h, r, i, n) && h[i].at == st.outageAt.value;
      assert OpenSince(h, r, i, n + 1);
    }
  }

  /** One sample keeps the timers in step with the history, or begins the shutdown. */
  lemma TracksNext(c: Config, h: seq<Sample>, n: nat, st: Status)
    requires c.Valid() && WellTimed(h) && n < |h| && Tracks(c, h, n, st)
    ensures var next := React(c, st, h[n].at, h[n].snap).0;
      if Confirmed(c, h, n) then next.graceful && OutageTimer(h, c.recoveryCount, n + 1, next.outageAt)
      else Tracks(c, h, n + 1, next)
  {
    var at, s := h[n].at, h[n].snap;
    if s.Loss() {
      EvidenceTracks(c, h, n, st);
      var tracked := TrackEvidence(OpenCandidate(st, at, s).0, at, s);
      ConfirmedByTimers(c, h, n, tracked);
      ProgressKeepsOutage(c, tracked.(state := ShuttingDown, graceful := true), at, s);
    } else {
      HealthyTracks(c, h, n, st);
      HealthyNeverConfirms(c, h, n);
    }
  }

  lemma EvidenceTracks(c: Config, h: seq<Sample>, n: nat, st: Status)
    requires c.Valid() && WellTimed(h) && n < |h| && Tracks(c, h, n, st) && h[n].Loss()
    ensures Tracks(c, h, n + 1, TrackEvidence(OpenCandidate(st, h[n].at, h[n].snap).0, h[n].at, h[n].snap))
  {
    NutTimerNext(h, n, st.nutAt);
    NetworkTimerNext(h, n, st.networkAt);
    LossKeepsOutage(h, c.recoveryCount, n, st.outageAt);
    assert RecoveryCounter(h, n + 1, WithEvidence(st, h[n].at, h[n].snap));
  }

  lemma HealthyTracks(c: Config, h: seq<Sample>, n: nat, st: Status)
    requires c.Valid() && WellTimed(h) && n < |h| && Tracks(c, h, n, st) && !h[n].Loss()
    ensures Tracks(c, h, n + 1, Recover(c, st, h[n].at).0)
  {
    NutTimerNext(h, n, st.nutAt);
    NetworkTimerNext(h, n, st.networkAt);
    HealthyMovesOutage(h, c.recoveryCount, n, st);
    RecoveryCounterNext(c, h, n, st);
  }

  lemma RecoveryCounterNext(c: Config, h: seq<Sample>, n: nat, st: Status)
    requires n < |h| && RecoveryCounter(h, n, st) && !h[n].Loss()
    ensures RecoveryCounter(h, n + 1, Recover(c, st, h[n].at).0)
  {
    if st.outageAt.Some? {
      assert HealthyRun(h, n - st.recovery, n + 1);
    }
  }

  lemma ProgressKeepsOutage(c: Config, st: Status, at: int, s: Snapshot)
    ensures var next := Progress(c, st, at, s).0; next.outageAt == st.outageAt && next.graceful == st.graceful
  {}

  lemma HealthyNeverConfirms(c: Config, h: seq<Sample>, n: nat)
    requires n < |h| && !h[n].Loss()
    ensures !Confirmed(c, h, n)
  {
    var end := n + 1;
    forall i: nat | i <= n ensures !NutSince(h, i, end) {
      assert !LossRun(h, i, end);
    }
  }

  lemma ConfirmedByTimers(c: Config, h: seq<Sample>, n: nat, st: Status)
    requires n < |h| && h[n].Loss() && NutTimer(h, n + 1, st.nutAt) && NetworkTimer(h, n + 1, st.networkAt)
    ensures Confirmation(c, st, h[n].at, h[n].snap) ==
      if NutConfirmed(c, h, n) then Some(NutRemainedActive)
      else if NetworkConfirmed(c, h, n) then Some(NetworkRemainedActive)
      else None
  {
    if st.nutAt.Some? {
      var i: nat :| NutSince(h, i, n + 1) && h[i].at == st.nutAt.value;
    }
    if st.networkAt.Some? {
      var i: nat :| NetworkSince(h, i, n + 1) && h[i].at == st.networkAt.value;
    }
  }

  // ----- what one sample emits -----

  function OneIf<T>(emitted: bool, x: T): seq<T> {
    if emitted then [x] else []
  }

  predicate Finishes(c: Config, st: Status, at: int, s: Snapshot) {
    !st.poweroff && (s.allGuestsStopped || (st.outageAt.Some? && at >= st.outageAt.value + c.EmergencyAfter()))
  }

  function FinalActions(finished: bool, at: int, s: Snapshot): seq<Action> {
    OneIf(finished && !s.allGuestsStopped, Action(at, EmergencyStopRemaining, ReserveReached))
    + OneIf(finished, Action(at, HostPoweroffRequested,
      if s.allGuestsStopped then GuestsStoppedGracefully else AfterEmergencyStop))
  }

  lemma ProgressActions(c: Config, st: Status, at: int, s: Snapshot)
    requires st.emergency ==> st.poweroff
    ensures Progress(c, st, at, s).1 == FinalActions(Finishes(c, st, at, s), at, s)
  {}

  predicate Starts(st: Status, s: Snapshot) {
    !st.graceful && s.Loss() && st.outageAt.None?
  }

  predicate Cancels(c: Config, st: Status, s: Snapshot) {
    !st.graceful && !s.Loss() && st.outageAt.Some? && st.recovery + 1 >= c.recoveryCount
  }

  function WithEvidence(st: Status, at: int, s: Snapshot): Status {
    TrackEvidence(OpenCandidate(st, at, s).0, at, s)
  }

  predicate Confirms(c: Config, st: Status, at: int, s: Snapshot) {
    !st.graceful && s.Loss() && Confirmation(c, WithEvidence(st, at, s), at, s).Some?
  }

  predicate Ends(c: Config, st: Status, at: int, s: Snapshot) {
    if st.graceful then Finishes(c, st, at, s)
    else Confirms(c, st, at, s) && Finishes(c, WithEvidence(st, at, s), at, s)
  }

  function GracefulActions(c: Config, st: Status, at: int, s: Snapshot): seq<Action> {
    var why := Confirmation(c, WithEvidence(st, at, s), at, s);
    OneIf(Confirms(c, st, at, s), Action(at, GracefulShutdown, if why.Some? then why.value else NutRemainedActive))
  }

  /** The actions a sample can emit come in one fixed order. */
  lemma ReactActions(c: Config, st: Status, at: int, s: Snapshot)
    requires Reachable(c, st)
    ensures React(c, st, at, s).1 ==
      OneIf(Starts(st, s), Action(at, OutageCandidateStarted, if s.NutLoss() then NutReported else NetworkUnreachable))
      + OneIf(Cancels(c, st, s), Action(at, OutageCancelled, RecoveryConfirmed))
      + GracefulActions(c, st, at, s)
      + FinalActions(Ends(c, st, at, s), at, s)
  {
    if !st.graceful && s.Loss() {
      ProgressActions(c, WithEvidence(st, at, s).(state := ShuttingDown, graceful := true), at, s);
    } else if st.graceful {
      ProgressActions(c, st, at, s);
    }
  }

  lemma ReactKinds(c: Config, st: Status, at: int, s: Snapshot)
    requires Reachable(c, st)
    ensures Kinds(React(c, st, at, s).1) ==
      OneIf(Starts(st, s), OutageCandidateStarted)
      + OneIf(Cancels(c, st, s), OutageCancelled)
      + OneIf(Confirms(c, st, at, s), GracefulShutdown)
      + OneIf(Ends(c, st, at, s) && !s.allGuestsStopped, EmergencyStopRemaining)
      + OneIf(Ends(c, st, at, s), HostPoweroffRequested)
  {
    ReactActions(c, st, at, s);
  }

  lemma ReactEmits(c: Config, st: Status, at: int, s: Snapshot)
    requires Reachable(c, st)
    ensures var kinds := Kinds(React(c, st, at, s).1);
      && (OutageCandidateStarted in kinds <==> Starts(st, s))
      && (OutageCancelled in kinds <==> Cancels(c, st, s))
      && (GracefulShutdown in kinds <==> Confirms(c, st, at, s))
      && (EmergencyStopRemaining in kinds <==> Ends(c, st, at, s) && !s.allGuestsStopped)
      && (HostPoweroffRequested in kinds <==> Ends(c, st, at, s))
  {
    ReactKinds(c, st, at, s);
  }

  // ----- whole runs -----

  ghost predicate InPhase(c: Config, h: seq<Sample>, n: nat, st: Status)
    requires c.Valid() && n <= |h|
  {
    && Reachable(c, st)
    && (Undecided(c, h, n) ==> Tracks(c, h, n, st))
    && (st.graceful <==> !Undecided(c, h, n))
  }

  lemma UndecidedNext(c: Config, h: seq<Sample>, n: nat)
    requires n < |h|
    ensures Undecided(c, h, n + 1) <==> Undecided(c, h, n) && !Confirmed(c, h, n)
  {}

  lemma ReactKeepsReachable(c: Config, st: Status, at: int, s: Snapshot)
    requires c.Valid() && Reachable(c, st)
    ensures var next := React(c, st, at, s).0;
      Reachable(c, next) && (st.graceful ==> next.graceful && next.outageAt == st.outageAt)
  {}

  lemma InPhaseNext(c: Config, h: seq<Sample>, n: nat, st: Status)
    requires c.Valid() && WellTimed(h) && n < |h| && InPhase(c, h, n, st)
    ensures InPhase(c, h, n + 1, React(c, st, h[n].at, h[n].snap).0)
  {
    var next := React(c, st, h[n].at, h[n].snap).0;
    ReactKeepsReachable(c, st, h[n].at, h[n].snap);
    UndecidedNext(c, h, n);
    if st.graceful {
      assert next.graceful && !Undecided(c, h, n + 1);
    } else {
      TracksNext(c, h, n, st);
      TracksUndecided(c, h, n + 1, next);
    }
  }

  lemma TracksUndecided(c: Config, h: seq<Sample>, n: nat, st: Status)
    requires c.Valid() && n <= |h|
    ensures Tracks(c, h, n, st) ==> Reachable(c, st) && !st.graceful
  {}

  lemma AfterIsReact(c: Config, h: seq<Sample>, n: nat)
    requires WellTimed(h) && n < |h|
    ensures After(c, h, n + 1).status == React(c, After(c, h, n).status, h[n].at, h[n].snap).0
  {
    assert After(c, h, n + 1) == Taken(c, h, n).memory;
  }

  lemma InitialTracks(c: Config, h: seq<Sample>)
    requires c.Valid()
    ensures InPhase(c, h, 0, INITIAL_STATUS)
  {
    assert Tracks(c, h, 0, INITIAL_STATUS);
  }

  /** Until a confirmation the engine's timers read off the history; after it the engine is shutting down. */
  lemma {:induction false} RunPhase(c: Config, h: seq<Sample>, n: nat)
    requires c.Valid() && WellTimed(h) && n <= |h|
    ensures InPhase(c, h, n, After(c, h, n).status)
  {
    if n == 0 {
      InitialTracks(c, h);
    } else {
      RunPhase(c, h, n - 1);
      AfterIsReact(c, h, n - 1);
      InPhaseNext(c, h, n - 1, After(c, h, n - 1).status);
    }
  }

  /** Before the shutdown, a sample confirms iff the history says so, and for the reason it says. */
  lemma ConfirmsIffConfirmed(c: Config, h: seq<Sample>, n: nat, st: Status)
    requires c.Valid() && WellTimed(h) && n < |h| && Tracks(c, h, n, st)
    ensures Confirms(c, st, h[n].at, h[n].snap) <==> Confirmed(c, h, n)
    ensures Confirmed(c, h, n) ==>
      Confirmation(c, WithEvidence(st, h[n].at, h[n].snap), h[n].at, h[n].snap)
        == Some(if NutConfirmed(c, h, n) then NutRemainedActive else NetworkRemainedActive)
  {
    if h[n].Loss() {
      EvidenceTracks(c, h, n, st);
      ConfirmedByTimers(c, h, n, WithEvidence(st, h[n].at, h[n].snap));
    } else {
      HealthyNeverConfirms(c, h, n);
    }
  }

  lemma ConfirmingActs(c: Config, st: Status, at: int, s: Snapshot)
    requires Reachable(c, st) && Confirms(c, st, at, s)
    ensures Action(at, GracefulShutdown, Confirmation(c, WithEvidence(st, at, s), at, s).value) in React(c, st, at, s).1
  {
    ReactActions(c, st, at, s);
    assert GracefulActions(c, st, at, s)[0] in GracefulActions(c, st, at, s);
  }

  /** The shutdown begins at the first sample that completes a confirmation time, and only there;
      the reason it gives names the completed time, the UPS's first. */
  lemma GracefulIffFirstConfirmed(c: Config, h: seq<Sample>, n: nat)
    requires c.Valid() && WellTimed(h) && n < |h|
    ensures Emits(c, h, n, GracefulShutdown) <==> FirstConfirmed(c, h, n)
    ensures FirstConfirmed(c, h, n) ==>
      Action(h[n].at, GracefulShutdown, if NutConfirmed(c, h, n) then NutRemainedActive else NetworkRemainedActive)
        in Taken(c, h, n).actions
  {
    RunPhase(c, h, n);
    var st, at, s := After(c, h, n).status, h[n].at, h[n].snap;
    ReactEmits(c, st, at, s);
    if Undecided(c, h, n) {
      ConfirmsIffConfirmed(c, h, n, st);
      if Confirmed(c, h, n) {
        ConfirmingActs(c, st, at, s);
      }
    }
  }

  /** A candidate starts at a loss sample iff no outage is open, as the history alone tells. */
  lemma CandidateIffNothingOpen(c: Config, h: seq<Sample>, n: nat)
    requires c.Valid() && WellTimed(h) && n < |h|
    ensures Emits(c, h, n, OutageCandidateStarted) <==>
      && Undecided(c, h, n) && h[n].Loss()
      && forall i: nat :: i < n ==> !OpenSince(h, c.recoveryCount, i, n)
  {
    RunPhase(c, h, n);
    ReactEmits(c, After(c, h, n).status, h[n].at, h[n].snap);
  }

  lemma RecoveredNow(h: seq<Sample>, r: nat, n: nat, st: Status)
    requires 0 < r && n < |h| && OutageTimer(h, r, n, st.outageAt) && RecoveryCounter(h, n, st)
    requires st.outageAt.Some? ==> st.recovery < r
    ensures !h[n].Loss() && st.outageAt.Some? && st.recovery + 1 >= r <==>
      r <= n && h[n - r].Loss() && HealthyRun(h, n + 1 - r, n + 1)
  {
    if r <= n && h[n - r].Loss() && HealthyRun(h, n + 1 - r, n + 1) {
      LastLossOpen(h, r, n);
      assert st.outageAt.Some? && !h[n].Loss();
      var last := n - 1 - st.recovery;
      assert last <= n - r by {
        assert h[last].Loss();
      }
    }
  }

  lemma LastLossOpen(h: seq<Sample>, r: nat, n: nat)
    requires 0 < r <= n < |h| && h[n - r].Loss()
    ensures OpenSince(h, r, n - r, n)
  {
    forall k: nat | n - r <= k < n ensures !Recovered(h, r, k, n) {
      assert k + r <= n ==> k == n - r;
    }
  }

  lemma CancelsNow(c: Config, h: seq<Sample>, n: nat, st: Status)
    requires c.Valid() && n < |h| && OutageTimer(h, c.recoveryCount, n, st.outageAt) && RecoveryCounter(h, n, st)
    requires Reachable(c, st) && !st.graceful
    ensures Cancels(c, st, h[n].snap) <==>
      c.recoveryCount <= n && h[n - c.recoveryCount].Loss() && HealthyRun(h, n + 1 - c.recoveryCount, n + 1)
  {
    RecoveredNow(h, c.recoveryCount, n, st);
  }

  /** A candidate is cancelled exactly at the recoveryCount-th healthy sample after its latest loss. */
  lemma CancelledIffRecovered(c: Config, h: seq<Sample>, n: nat)
    requires c.Valid() && WellTimed(h) && n < |h|
    ensures Emits(c, h, n, OutageCancelled) <==>
      && Undecided(c, h, n)
      && c.recoveryCount <= n && h[n - c.recoveryCount].Loss()
      && HealthyRun(h, n + 1 - c.recoveryCount, n + 1)
  {
    RunPhase(c, h, n);
    var st := After(c, h, n).status;
    if Undecided(c, h, n) {
      CancelsNow(c, h, n, st);
    }
    ReactEmits(c, st, h[n].at, h[n].snap);
  }

  /** A cancellation forgets the outage altogether: from there on the engine is a new one that has seen a sample. */
  lemma CancelledStartsAfresh(c: Config, h: seq<Sample>, n: nat)
    requires c.Valid() && WellTimed(h) && n < |h| && Emits(c, h, n, OutageCancelled)
    ensures After(c, h, n + 1) == Memory(INITIAL_STATUS, Some(h[n].at))
  {
    RunPhase(c, h, n);
    var st := After(c, h, n).status;
    ReactEmits(c, st, h[n].at, h[n].snap);
    assert After(c, h, n + 1) == Taken(c, h, n).memory;
    assert Cancels(c, st, h[n].snap) && st.state == Confirming;
  }

  /** The remembered start of the outage is the first loss that no recovery has cancelled since. */
  lemma OutageClock(c: Config, h: seq<Sample>, j: nat, n: nat)
    requires c.Valid() && WellTimed(h) && n <= |h| && Undecided(c, h, n)
    ensures var started := After(c, h, n).status.outageAt;
      if OutageStart(h, c.recoveryCount, j, n) then started == Some(h[j].at)
      else (forall i: nat :: i < n ==> !OpenSince(h, c.recoveryCount, i, n)) ==> started == None
  {
    RunPhase(c, h, n);
    var started := After(c, h, n).status.outageAt;
    if OutageStart(h, c.recoveryCount, j, n) {
      TimerIsStart(h, c.recoveryCount, j, n, started);
    }
  }

  lemma TimerIsStart(h: seq<Sample>, r: nat, j: nat, n: nat, t: Option<int>)
    requires WellTimed(h) && n <= |h| && OutageTimer(h, r, n, t) && OutageStart(h, r, j, n)
    ensures t == Some(h[j].at)
  {
    var i: nat :| OpenSince(h, r, i, n) && h[i].at == t.value;
    assert j <= i;
  }

  lemma {:induction false} StartExists(h: seq<Sample>, r: nat, i: nat, n: nat) returns (j: nat)
    requires n <= |h| && OpenSince(h, r, i, n)
    ensures j <= i && OutageStart(h, r, j, n)
  {
    j := i;
    if !OutageStart(h, r, i, n) {
      var k: nat :| k < i && OpenSince(h, r, k, n);
      j := StartExists(h, r, k, n);
    }
  }

  lemma ConfirmedStart(c: Config, h: seq<Sample>, g: nat) returns (j: nat)
    requires c.Valid() && WellTimed(h) && g < |h| && FirstConfirmed(c, h, g)
    ensures j <= g && OutageStart(h, c.recoveryCount, j, g + 1)
  {
    if !h[g].Loss() {
      HealthyNeverConfirms(c, h, g);
    }
    OpenSinceNext(h, c.recoveryCount, g, g);
    j := StartExists(h, c.recoveryCount, g, g + 1);
  }

  ghost predicate ReleasedBefore(c: Config, h: seq<Sample>, g: nat, j: nat, n: nat)
    requires j < |h| && n <= |h|
  {
    exists k: nat :: g <= k < n && Releases(c, h, j, k)
  }

  lemma ConfirmingState(c: Config, st: Status, at: int, s: Snapshot)
    requires Reachable(c, st) && Confirms(c, st, at, s)
    ensures var next := React(c, st, at, s).0;
      && next.graceful && next.outageAt.Some?
      && (next.poweroff <==> s.allGuestsStopped || at >= next.outageAt.value + c.EmergencyAfter())
      && (Ends(c, st, at, s) <==> next.poweroff)
  {}

  /** Sample g confirms: the shutdown starts with the outage of sample j, and ends at once if g releases it. */
  lemma ShutdownBegins(c: Config, h: seq<Sample>, g: nat, j: nat)
    requires c.Valid() && WellTimed(h) && g < |h| && FirstConfirmed(c, h, g)
    requires OutageStart(h, c.recoveryCount, j, g + 1)
    ensures var st := Taken(c, h, g).memory.status;
      st.graceful && st.outageAt == Some(h[j].at) && (st.poweroff <==> Releases(c, h, j, g))
    ensures Emits(c, h, g, HostPoweroffRequested) <==> Releases(c, h, j, g)
  {
    TracksUntilDecided(c, h, g);
    BeginsFrom(c, h, g, j, After(c, h, g).status);
    AfterIsReact(c, h, g);
    PoweroffIffEnds(c, h, g);
  }

  lemma TracksUntilDecided(c: Config, h: seq<Sample>, n: nat)
    requires c.Valid() && WellTimed(h) && n <= |h| && Undecided(c, h, n)
    ensures Tracks(c, h, n, After(c, h, n).status)
  {
    RunPhase(c, h, n);
  }

  lemma PoweroffIffEnds(c: Config, h: seq<Sample>, n: nat)
    requires c.Valid() && WellTimed(h) && n < |h|
    ensures Emits(c, h, n, HostPoweroffRequested) <==> Ends(c, After(c, h, n).status, h[n].at, h[n].snap)
  {
    RunPhase(c, h, n);
    ReactEmits(c, After(c, h, n).status, h[n].at, h[n].snap);
  }

  lemma StartIsKept(c: Config, h: seq<Sample>, g: nat, j: nat, st: Status)
    requires c.Valid() && WellTimed(h) && g < |h| && Confirmed(c, h, g) && Tracks(c, h, g, st)
    requires OutageStart(h, c.recoveryCount, j, g + 1)
    ensures React(c, st, h[g].at, h[g].snap).0.outageAt == Some(h[j].at)
  {
    TracksNext(c, h, g, st);
    TimerIsStart(h, c.recoveryCount, j, g + 1, React(c, st, h[g].at, h[g].snap).0.outageAt);
  }

  lemma BeginsWith(c: Config, st: Status, at: int, s: Snapshot, start: int)
    requires Reachable(c, st) && Confirms(c, st, at, s) && React(c, st, at, s).0.outageAt == Some(start)
    ensures var next, released := React(c, st, at, s).0, s.allGuestsStopped || at >= start + c.EmergencyAfter();
      next.graceful && (next.poweroff <==> released) && (Ends(c, st, at, s) <==> released)
  {
    ConfirmingState(c, st, at, s);
  }

  lemma BeginsFrom(c: Config, h: seq<Sample>, g: nat, j: nat, st: Status)
    requires c.Valid() && WellTimed(h) && g < |h| && FirstConfirmed(c, h, g) && Tracks(c, h, g, st)
    requires OutageStart(h, c.recoveryCount, j, g + 1)
    ensures var next := React(c, st, h[g].at, h[g].snap).0;
      && next.graceful && next.outageAt == Some(h[j].at) && (next.poweroff <==> Releases(c, h, j, g))
      && (Ends(c, st, h[g].at, h[g].snap) <==> Releases(c, h, j, g))
  {
    StartIsKept(c, h, g, j, st);
    ConfirmsIffConfirmed(c, h, g, st);
    BeginsWith(c, st, h[g].at, h[g].snap, h[j].at);
  }

  lemma {:induction false} ShutdownState(c: Config, h: seq<Sample>, g: nat, j: nat, n: nat)
    requires c.Valid() && WellTimed(h) && g < n <= |h| && FirstConfirmed(c, h, g)
    requires OutageStart(h, c.recoveryCount, j, g + 1)
    ensures var st := After(c, h, n).status;
      && Reachable(c, st) && st.graceful && st.outageAt == Some(h[j].at)
      && (st.poweroff <==> ReleasedBefore(c, h, g, j, n))
  {
    RunPhase(c, h, n);
    if n == g + 1 {
      ShutdownBegins(c, h, g, j);
    } else {
      ShutdownState(c, h, g, j, n - 1);
      assert ReleasedBefore(c, h, g, j, n) <==> ReleasedBefore(c, h, g, j, n - 1) || Releases(c, h, j, n - 1);
    }
  }

  /** From the confirmation on, the first sample that finds all guests stopped or the reserve reached
      powers the host off; no other sample does. */
  lemma ShutdownEnds(c: Config, h: seq<Sample>, g: nat, j: nat, n: nat)
    requires c.Valid() && WellTimed(h) && g <= n < |h| && FirstConfirmed(c, h, g)
    requires OutageStart(h, c.recoveryCount, j, g + 1)
    ensures Emits(c, h, n, HostPoweroffRequested) <==> Releases(c, h, j, n) && !ReleasedBefore(c, h, g, j, n)
  {
    if n == g {
      ShutdownBegins(c, h, g, j);
    } else {
      ShutdownState(c, h, g, j, n);
      ReactEmits(c, After(c, h, n).status, h[n].at, h[n].snap);
    }
  }

  lemma {:induction false} DecidedHasFirst(c: Config, h: seq<Sample>, n: nat) returns (g: nat)
    requires n <= |h| && !Undecided(c, h, n)
    ensures g < n && FirstConfirmed(c, h, g)
  {
    var m: nat :| m < n && Confirmed(c, h, m);
    if Undecided(c, h, m) {
      g := m;
    } else {
      g := DecidedHasFirst(c, h, m);
    }
  }

  /** Host poweroff is requested at n iff the history contains a plan that ends at n. */
  lemma PoweroffIffPlanned(c: Config, h: seq<Sample>, n: nat)
    requires c.Valid() && WellTimed(h) && n < |h|
    ensures Emits(c, h, n, HostPoweroffRequested) <==> exists g: nat, j: nat :: PoweroffPlan(c, h, g, j, n)
  {
    if exists g: nat, j: nat :: PoweroffPlan(c, h, g, j, n) {
      var g: nat, j: nat :| PoweroffPlan(c, h, g, j, n);
      ShutdownEnds(c, h, g, j, n);
    } else if Emits(c, h, n, HostPoweroffRequested) {
      RunPhase(c, h, n);
      ReactEmits(c, After(c, h, n).status, h[n].at, h[n].snap);
      GracefulIffFirstConfirmed(c, h, n);
      var g := n;
      if !Undecided(c, h, n) {
        g := DecidedHasFirst(c, h, n);
      }
      var j := ConfirmedStart(c, h, g);
      ShutdownEnds(c, h, g, j, n);
      assert PoweroffPlan(c, h, g, j, n);
      assert false;
    }
  }

  /** Guests are force-stopped only by the sample that requests the poweroff, and iff some still run. */
  lemma EmergencyIffGuestsRun(c: Config, h: seq<Sample>, n: nat)
    requires c.Valid() && WellTimed(h) && n < |h|
    ensures Emits(c, h, n, EmergencyStopRemaining) <==>
      Emits(c, h, n, HostPoweroffRequested) && !h[n].snap.allGuestsStopped
  {
    RunPhase(c, h, n);
    ReactEmits(c, After(c, h, n).status, h[n].at, h[n].snap);
  }
}
