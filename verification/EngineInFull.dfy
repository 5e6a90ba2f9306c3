/** What the engine does, with every notion of the reference reading written out: UPS states, probes, times and
    counts of samples, and nothing else. */
module EngineInFull {
  import opened Common
  import opened PowerCore
  import opened EngineHistory

  /** A sample of a normal engine opens a candidate iff the UPS runs on battery or is low, or is out of reach
      together with both networks. */
  lemma CandidateInFull(c: Config, st: Status, at: int, s: Snapshot)
    requires c.Valid() && Reachable(c, st) && st.state == Normal
    ensures OutageCandidateStarted in Kinds(React(c, st, at, s).1) <==>
      s.nut == OB || s.nut == LB || (s.nut == UNREACHABLE && !s.lan && !s.wan)
    ensures forall a :: a in React(c, st, at, s).1 && a.kind == OutageCandidateStarted ==>
      a == Action(at, OutageCandidateStarted, if s.nut == OB || s.nut == LB then NutReported else NetworkUnreachable)
  {
    ReactEmits(c, st, at, s);
    ReactActions(c, st, at, s);
  }

  /** A sample that no status of an open outage can misread: it counts towards the recovery iff it is none of these. */
  lemma HealthInFull(c: Config, st: Status, at: int, s: Snapshot)
    requires c.Valid() && Reachable(c, st) && st.state == Confirming
    ensures var next := React(c, st, at, s).0;
      if s.nut == OB || s.nut == LB || (s.nut == UNREACHABLE && !s.lan && !s.wan) then
        next.recovery == 0 && next.outageAt == st.outageAt
      else if st.recovery + 1 == c.recoveryCount then next == INITIAL_STATUS
      else next == st.(nutAt := None, networkAt := None, recovery := st.recovery + 1)
  {}

  /** A UPS that reported battery or low battery at sample i, with no healthy sample since, is believed after the
      confirmation time: the graceful stop comes at n or came before. */
  lemma BatteryIsConfirmed(c: Config, h: seq<Sample>, i: nat, n: nat) returns (g: nat)
    requires c.Valid() && WellTimed(h) && i <= n < |h|
    requires h[i].snap.nut == OB || h[i].snap.nut == LB
    requires forall k: nat :: i <= k <= n ==>
      h[k].snap.nut == OB || h[k].snap.nut == LB || (h[k].snap.nut == UNREACHABLE && !h[k].snap.lan && !h[k].snap.wan)
    requires h[n].at - h[i].at >= c.nutConfirm
    ensures g <= n && GracefulShutdown in Kinds(Taken(c, h, g).actions)
  {
    assert NutSince(h, i, n + 1);
    assert Confirmed(c, h, n);
    assert !Undecided(c, h, n + 1);
    g := DecidedHasFirst(c, h, n + 1);
    GracefulIffFirstConfirmed(c, h, g);
  }

  /** A UPS and two networks that are out of reach for their confirmation time are believed as well. */
  lemma SilenceIsConfirmed(c: Config, h: seq<Sample>, i: nat, n: nat) returns (g: nat)
    requires c.Valid() && WellTimed(h) && i <= n < |h|
    requires forall k: nat :: i <= k <= n ==> h[k].snap.nut == UNREACHABLE && !h[k].snap.lan && !h[k].snap.wan
    requires h[n].at - h[i].at >= c.networkConfirm
    ensures g <= n && GracefulShutdown in Kinds(Taken(c, h, g).actions)
  {
    assert NetworkSince(h, i, n + 1);
    assert Confirmed(c, h, n);
    assert !Undecided(c, h, n + 1);
    g := DecidedHasFirst(c, h, n + 1);
    GracefulIffFirstConfirmed(c, h, g);
  }

  /** And nothing else is: the graceful stop comes once, and needs one of the two at some sample i. */
  lemma StopNeedsLoss(c: Config, h: seq<Sample>, n: nat) returns (i: nat)
    requires c.Valid() && WellTimed(h) && n < |h| && GracefulShutdown in Kinds(Taken(c, h, n).actions)
    ensures i <= n
    ensures forall k: nat :: i <= k <= n ==>
      h[k].snap.nut == OB || h[k].snap.nut == LB || (h[k].snap.nut == UNREACHABLE && !h[k].snap.lan && !h[k].snap.wan)
    ensures
      || ((h[i].snap.nut == OB || h[i].snap.nut == LB) && h[n].at - h[i].at >= c.nutConfirm
          && Action(h[n].at, GracefulShutdown, NutRemainedActive) in Taken(c, h, n).actions)
      || ((forall k: nat :: i <= k <= n ==> h[k].snap.nut == UNREACHABLE) && h[n].at - h[i].at >= c.networkConfirm
          && Action(h[n].at, GracefulShutdown, NetworkRemainedActive) in Taken(c, h, n).actions)
    ensures forall m: nat :: m < n ==> GracefulShutdown !in Kinds(Taken(c, h, m).actions)
  {
    GracefulIffFirstConfirmed(c, h, n);
    if NutConfirmed(c, h, n) {
      i :| NutSince(h, i, n + 1) && h[n].at - h[i].at >= c.nutConfirm;
    } else {
      i :| NetworkSince(h, i, n + 1) && h[n].at - h[i].at >= c.networkConfirm;
    }
    forall k: nat | i <= k <= n
      ensures h[k].snap.nut == OB || h[k].snap.nut == LB || (h[k].snap.nut == UNREACHABLE && !h[k].snap.lan && !h[k].snap.wan)
    {
      assert h[k].snap.NetworkLoss() || h[k].Loss();
    }
    forall m: nat | m < n ensures GracefulShutdown !in Kinds(Taken(c, h, m).actions) {
      GracefulIffFirstConfirmed(c, h, m);
    }
  }

  lemma StartOrKept(c: Config, st: Status, at: int, s: Snapshot)
    requires Reachable(c, st) && React(c, st, at, s).0.outageAt.Some?
    ensures if OutageCandidateStarted in Kinds(React(c, st, at, s).1) then React(c, st, at, s).0.outageAt == Some(at)
            else React(c, st, at, s).0.outageAt == st.outageAt
  {
    ReactEmits(c, st, at, s);
  }

  lemma OpenAfter(c: Config, h: seq<Sample>, n: nat)
    requires c.Valid() && WellTimed(h) && n < |h| && After(c, h, n + 1).status.outageAt.Some?
    ensures After(c, h, n + 1).status.outageAt ==
      if Emits(c, h, n, OutageCandidateStarted) then Some(h[n].at) else After(c, h, n).status.outageAt
  {
    RunPhase(c, h, n);
    AfterIsReact(c, h, n);
    StartOrKept(c, After(c, h, n).status, h[n].at, h[n].snap);
  }

  ghost predicate LatestCandidate(c: Config, h: seq<Sample>, j: nat, n: nat)
    requires WellTimed(h) && n <= |h|
  {
    && j < n && Emits(c, h, j, OutageCandidateStarted)
    && forall k: nat :: j < k < n ==> !Emits(c, h, k, OutageCandidateStarted)
  }

  lemma LatestOneLater(c: Config, h: seq<Sample>, j: nat, n: nat)
    requires WellTimed(h) && n < |h|
    requires LatestCandidate(c, h, j, n) && !Emits(c, h, n, OutageCandidateStarted)
    ensures LatestCandidate(c, h, j, n + 1)
  {}

  lemma LatestHere(c: Config, h: seq<Sample>, n: nat)
    requires WellTimed(h) && n < |h| && Emits(c, h, n, OutageCandidateStarted)
    ensures LatestCandidate(c, h, n, n + 1)
  {}

  /** An outage that is open counts from the latest sample that opened a candidate. */
  lemma {:induction false} CountsFromCandidate(c: Config, h: seq<Sample>, n: nat) returns (j: nat)
    requires c.Valid() && WellTimed(h) && n <= |h| && After(c, h, n).status.outageAt.Some?
    ensures LatestCandidate(c, h, j, n) && After(c, h, n).status.outageAt == Some(h[j].at)
  {
    if n > 0 {
      var last := n - 1;
      OpenAfter(c, h, last);
      if Emits(c, h, last, OutageCandidateStarted) {
        LatestHere(c, h, last);
        j := last;
      } else {
        j := CountsFromCandidate(c, h, last);
        LatestOneLater(c, h, j, last);
      }
    }
  }

  lemma StartIsCandidate(c: Config, h: seq<Sample>, g: nat) returns (s: nat, j: nat)
    requires c.Valid() && WellTimed(h) && g < |h| && FirstConfirmed(c, h, g)
    ensures s <= g && OutageStart(h, c.recoveryCount, s, g + 1) && LatestCandidate(c, h, j, g + 1) && h[s].at == h[j].at
  {
    s := ConfirmedStart(c, h, g);
    ShutdownBegins(c, h, g, s);
    assert After(c, h, g + 1) == Taken(c, h, g).memory;
    j := CountsFromCandidate(c, h, g + 1);
  }

  /** Where the guests are told to stop at sample g, the latest candidate j of then counts: the host's poweroff is
      requested at n iff n is the first sample from g on that finds all guests stopped, or the budget less the
      reserve over since j. */
  lemma PoweroffInFull(c: Config, h: seq<Sample>, g: nat, n: nat) returns (j: nat)
    requires c.Valid() && WellTimed(h) && g <= n < |h| && GracefulShutdown in Kinds(Taken(c, h, g).actions)
    ensures LatestCandidate(c, h, j, g + 1)
    ensures HostPoweroffRequested in Kinds(Taken(c, h, n).actions) <==>
      && (h[n].snap.allGuestsStopped || h[n].at - h[j].at >= c.totalBudget - c.emergencyReserve)
      && forall k: nat :: g <= k < n ==>
           !h[k].snap.allGuestsStopped && h[k].at - h[j].at < c.totalBudget - c.emergencyReserve
  {
    GracefulIffFirstConfirmed(c, h, g);
    var s;
    s, j := StartIsCandidate(c, h, g);
    ShutdownEnds(c, h, g, s, n);
    forall k: nat | k <= n
      ensures Releases(c, h, s, k) <==> h[k].snap.allGuestsStopped || h[k].at - h[j].at >= c.totalBudget - c.emergencyReserve
    {}
  }

  /** And no poweroff is requested before the guests were told to stop. */
  lemma StopComesFirst(c: Config, h: seq<Sample>, n: nat) returns (g: nat)
    requires c.Valid() && WellTimed(h) && n < |h| && HostPoweroffRequested in Kinds(Taken(c, h, n).actions)
    ensures g <= n && GracefulShutdown in Kinds(Taken(c, h, g).actions)
  {
    PoweroffIffPlanned(c, h, n);
    var j: nat;
    g, j :| PoweroffPlan(c, h, g, j, n);
    GracefulIffFirstConfirmed(c, h, g);
  }

  /** Whether an action of this kind was emitted before sample n. */
  ghost predicate EmittedBefore(c: Config, h: seq<Sample>, n: nat, kind: ActionKind)
    requires WellTimed(h) && n <= |h|
  {
    exists k: nat :: k < n && Emits(c, h, k, kind)
  }

  lemma EmittedNext(c: Config, h: seq<Sample>, n: nat, kind: ActionKind)
    requires WellTimed(h) && n < |h|
    ensures EmittedBefore(c, h, n + 1, kind) <==> EmittedBefore(c, h, n, kind) || Emits(c, h, n, kind)
  {}

  lemma FlagsNext(c: Config, st: Status, at: int, s: Snapshot)
    requires c.Valid() && Reachable(c, st)
    ensures var (next, kinds) := (React(c, st, at, s).0, Kinds(React(c, st, at, s).1));
      && (next.graceful <==> st.graceful || GracefulShutdown in kinds)
      && (next.emergency <==> st.emergency || EmergencyStopRemaining in kinds)
      && (next.poweroff <==> st.poweroff || HostPoweroffRequested in kinds)
  {
    ReactEmits(c, st, at, s);
  }

  lemma FlagsAfter(c: Config, h: seq<Sample>, n: nat)
    requires c.Valid() && WellTimed(h) && n < |h|
    ensures var before, after := After(c, h, n).status, After(c, h, n + 1).status;
      && (after.graceful <==> before.graceful || Emits(c, h, n, GracefulShutdown))
      && (after.emergency <==> before.emergency || Emits(c, h, n, EmergencyStopRemaining))
      && (after.poweroff <==> before.poweroff || Emits(c, h, n, HostPoweroffRequested))
  {
    RunPhase(c, h, n);
    AfterIsReact(c, h, n);
    FlagsNext(c, After(c, h, n).status, h[n].at, h[n].snap);
  }

  /** The three flags of the status say which actions were issued. */
  lemma {:induction false} FlagsInFull(c: Config, h: seq<Sample>, n: nat)
    requires c.Valid() && WellTimed(h) && n <= |h|
    ensures var st := After(c, h, n).status;
      && (st.graceful <==> EmittedBefore(c, h, n, GracefulShutdown))
      && (st.emergency <==> EmittedBefore(c, h, n, EmergencyStopRemaining))
      && (st.poweroff <==> EmittedBefore(c, h, n, HostPoweroffRequested))
  {
    if n > 0 {
      var last := n - 1;
      FlagsInFull(c, h, last);
      FlagsAfter(c, h, last);
      EmittedNext(c, h, last, GracefulShutdown);
      EmittedNext(c, h, last, EmergencyStopRemaining);
      EmittedNext(c, h, last, HostPoweroffRequested);
    }
  }
}
