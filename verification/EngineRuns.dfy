/** Promises about whole runs of the engine: the order of its actions and the time budget. */
module EngineRuns {
  import opened Common
  import opened PowerCore
  import opened EngineHistory

  // ----- the order of actions -----

  /** The kinds of all actions of the first n samples. */
  ghost function Log(c: Config, h: seq<Sample>, n: nat): seq<ActionKind>
    requires WellTimed(h) && n <= |h|
  {
    if n == 0 then [] else Log(c, h, n - 1) + KindsAt(c, h, n - 1)
  }

  /** r outages that were started and cancelled. */
  ghost function FalseAlarms(r: nat): seq<ActionKind> {
    if r == 0 then [] else FalseAlarms(r - 1) + [OutageCandidateStarted, OutageCancelled]
  }

  /** What the current outage has led to. */
  ghost function Current(st: Status): seq<ActionKind> {
    match st.state
    case Confirming => [OutageCandidateStarted]
    case ShuttingDown => [OutageCandidateStarted, GracefulShutdown]
    case PoweredOff =>
      [OutageCandidateStarted, GracefulShutdown] + OneIf(st.emergency, EmergencyStopRemaining) + [HostPoweroffRequested]
    case _ => []
  }

  ghost predicate Leads(c: Config, st: Status, at: int, s: Snapshot) {
    var (next, kinds) := (React(c, st, at, s).0, Kinds(React(c, st, at, s).1));
    Current(st) + kinds ==
      OneIf(Cancels(c, st, s), OutageCandidateStarted) + OneIf(Cancels(c, st, s), OutageCancelled) + Current(next)
  }

  lemma LeadsInShutdown(c: Config, st: Status, at: int, s: Snapshot)
    requires c.Valid() && Reachable(c, st) && st.graceful
    ensures Leads(c, st, at, s)
  {
    ReactKinds(c, st, at, s);
  }

  lemma LeadsInLoss(c: Config, st: Status, at: int, s: Snapshot)
    requires c.Valid() && Reachable(c, st) && !st.graceful && s.Loss()
    ensures Leads(c, st, at, s)
  {
    ReactKinds(c, st, at, s);
  }

  lemma LeadsInHealth(c: Config, st: Status, at: int, s: Snapshot)
    requires c.Valid() && Reachable(c, st) && !st.graceful && !s.Loss()
    ensures Leads(c, st, at, s)
  {
    ReactKinds(c, st, at, s);
  }

  lemma CurrentNext(c: Config, m: Memory, at: int, s: Snapshot)
    requires c.Valid() && Reachable(c, m.status) && Step(c, m, at, s).Ok?
    ensures var next := Step(c, m, at, s).value;
      Current(m.status) + Kinds(next.actions) ==
        OneIf(Cancels(c, m.status, s), OutageCandidateStarted) + OneIf(Cancels(c, m.status, s), OutageCancelled)
        + Current(next.memory.status)
  {
    if m.status.graceful {
      LeadsInShutdown(c, m.status, at, s);
    } else if s.Loss() {
      LeadsInLoss(c, m.status, at, s);
    } else {
      LeadsInHealth(c, m.status, at, s);
    }
  }

  lemma {:induction false} LogNext(c: Config, h: seq<Sample>, n: nat, r: nat) returns (next: nat)
    requires c.Valid() && WellTimed(h) && n < |h|
    requires Log(c, h, n) == FalseAlarms(r) + Current(After(c, h, n).status)
    ensures Log(c, h, n + 1) == FalseAlarms(next) + Current(Taken(c, h, n).memory.status)
  {
    var before, sample := After(c, h, n), h[n];
    RunPhase(c, h, n);
    CurrentNext(c, before, sample.at, sample.snap);
    var cancelled := Cancels(c, before.status, sample.snap);
    AppendCurrent(r, Current(before.status), KindsAt(c, h, n), cancelled, Current(Taken(c, h, n).memory.status));
    next := if cancelled then r + 1 else r;
  }

  /** Every run is a series of false alarms followed by one shutdown, as far as it got: candidate,
      graceful shutdown, emergency stop if needed, host poweroff, and then silence. */
  lemma {:induction false} ActionOrder(c: Config, h: seq<Sample>, n: nat) returns (r: nat)
    requires c.Valid() && WellTimed(h) && n <= |h|
    ensures Log(c, h, n) == FalseAlarms(r) + Current(After(c, h, n).status)
  {
    r := 0;
    if n > 0 {
      r := ActionOrder(c, h, n - 1);
      r := LogNext(c, h, n - 1, r);
    }
  }

  lemma AppendCurrent(r: nat, current: seq<ActionKind>, kinds: seq<ActionKind>, cancelled: bool, next: seq<ActionKind>)
    requires current + kinds == OneIf(cancelled, OutageCandidateStarted) + OneIf(cancelled, OutageCancelled) + next
    ensures FalseAlarms(r) + current + kinds == FalseAlarms(if cancelled then r + 1 else r) + next
  {
    assert FalseAlarms(r) + current + kinds == FalseAlarms(r) + (current + kinds);
  }

  // ----- the time budget -----

  ghost predicate GapsWithin(h: seq<Sample>, s: nat, gap: int) {
    forall k, l :: s <= k && l == k + 1 < |h| ==> h[l].at - h[k].at <= gap
  }

  /** The confirmation time that applies to an outage beginning at sample s. */
  ghost function ConfirmTime(c: Config, h: seq<Sample>, s: nat): int
    requires s < |h|
  {
    if h[s].snap.NutLoss() then c.nutConfirm else c.networkConfirm
  }

  lemma {:induction false} FirstAtOrAfter(h: seq<Sample>, s: nat, t: int) returns (n: nat)
    requires WellTimed(h) && s < |h| && h[|h| - 1].at >= t && h[s].at < t
    ensures s < n < |h| && h[n].at >= t && h[n - 1].at < t
    decreases |h| - s
  {
    if h[s + 1].at >= t {
      n := s + 1;
    } else {
      n := FirstAtOrAfter(h, s + 1, t);
    }
  }

  lemma {:induction false} FirstRelease(c: Config, h: seq<Sample>, g: nat, s: nat, last: nat) returns (p: nat)
    requires s < |h| && g <= last < |h| && Releases(c, h, s, last)
    ensures g <= p <= last && Releases(c, h, s, p) && !ReleasedBefore(c, h, g, s, p)
    decreases last
  {
    if k: nat :| g <= k < last && Releases(c, h, s, k) {
      p := FirstRelease(c, h, g, s, k);
    } else {
      p := last;
    }
  }

  lemma OpenBackwards(h: seq<Sample>, r: nat, i: nat, n: nat, later: nat)
    requires i < n <= later <= |h| && OpenSince(h, r, i, later)
    ensures OpenSince(h, r, i, n)
  {
    forall k: nat | i <= k < n ensures !Recovered(h, r, k, n) {
      assert !Recovered(h, r, k, later);
    }
  }

  /** A loss that nothing interrupts keeps its start. */
  lemma UnbrokenStart(h: seq<Sample>, r: nat, s: nat, n: nat)
    requires 0 < r && s < n <= |h| && LossRun(h, s, n)
    requires forall i: nat :: i < s ==> !OpenSince(h, r, i, s)
    ensures OutageStart(h, r, s, n)
  {
    forall k: nat | s <= k < n ensures !Recovered(h, r, k, n) {
      assert h[k].Loss();
    }
    forall i: nat | i < s ensures !OpenSince(h, r, i, n) {
      if OpenSince(h, r, i, n) {
        OpenBackwards(h, r, i, s, n);
      }
    }
  }

  /** Unbroken loss from s on is confirmed at most one gap after ConfirmTime has passed. */
  lemma ConfirmedInTime(c: Config, h: seq<Sample>, s: nat, gap: int) returns (g: nat)
    requires c.Valid() && WellTimed(h) && s < |h| && Undecided(c, h, s) && LossRun(h, s, |h|)
    requires h[s].snap.NutLoss() || NetworkSince(h, s, |h|)
    requires GapsWithin(h, s, gap)
    requires h[|h| - 1].at >= h[s].at + ConfirmTime(c, h, s)
    ensures s <= g < |h| && FirstConfirmed(c, h, g) && h[g].at < h[s].at + ConfirmTime(c, h, s) + gap
  {
    var n := FirstAtOrAfter(h, s, h[s].at + ConfirmTime(c, h, s));
    assert h[s].snap.NutLoss() ==> NutSince(h, s, n + 1);
    assert !h[s].snap.NutLoss() ==> NetworkSince(h, s, n + 1);
    assert Confirmed(c, h, n);
    assert !Undecided(c, h, n + 1);
    g := DecidedHasFirst(c, h, n + 1);
    assert h[n].at - h[n - 1].at <= gap;
  }

  lemma ReleaseInTime(c: Config, h: seq<Sample>, g: nat, s: nat, p: nat, gap: int)
    requires WellTimed(h) && s <= g <= p < |h| && GapsWithin(h, s, gap)
    requires !ReleasedBefore(c, h, g, s, p) && h[g].at < h[s].at + c.EmergencyAfter() + gap
    ensures h[p].at < h[s].at + c.EmergencyAfter() + gap
  {
    if g < p {
      assert !Releases(c, h, s, p - 1);
      assert h[p].at - h[p - 1].at <= gap;
    }
  }

  /** If power stays away from the first sample of an outage on, and samples are at most `gap` apart,
      the guests are told to stop within the confirmation time and the host is powered off within the
      budget less the reserve, each plus at most one gap. */
  lemma BudgetBound(c: Config, h: seq<Sample>, s: nat, gap: int) returns (g: nat, p: nat)
    requires c.Valid() && WellTimed(h) && s < |h|
    requires Emits(c, h, s, OutageCandidateStarted) && LossRun(h, s, |h|)
    requires h[s].snap.NutLoss() || NetworkSince(h, s, |h|)
    requires GapsWithin(h, s, gap)
    requires h[|h| - 1].at >= h[s].at + c.EmergencyAfter()
    ensures s <= g <= p < |h|
    ensures Emits(c, h, g, GracefulShutdown) && h[g].at < h[s].at + ConfirmTime(c, h, s) + gap
    ensures Emits(c, h, p, HostPoweroffRequested) && h[p].at < h[s].at + c.EmergencyAfter() + gap
    ensures gap <= c.emergencyReserve ==> h[p].at < h[s].at + c.totalBudget
    ensures Emits(c, h, p, EmergencyStopRemaining) ==> h[p].at >= h[s].at + c.EmergencyAfter()
  {
    CandidateIffNothingOpen(c, h, s);
    g := ConfirmedInTime(c, h, s, gap);
    GracefulIffFirstConfirmed(c, h, g);
    UnbrokenStart(h, c.recoveryCount, s, g + 1);
    p := FirstRelease(c, h, g, s, |h| - 1);
    ShutdownEnds(c, h, g, s, p);
    EmergencyIffGuestsRun(c, h, p);
    ReleaseInTime(c, h, g, s, p, gap);
  }
}
