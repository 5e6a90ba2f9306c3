/** Promises about any series of operations on the in-memory PVE. */
module FakePveRuns {
  import opened Common
  import opened ShutdownOrder
  import opened FakePve

  datatype Op = AdvanceTo(at: int) | Start(at: int) | Force(at: int) | Poweroff(at: int) | Test(at: int, id: int)

  function Apply(p: Pve, op: Op): Pve {
    match op
    case AdvanceTo(at) => Advanced(p, at)
    case Start(at) => GracefullyStarted(p, at)
    case Force(at) => ForcedRemaining(p, at)
    case Poweroff(at) => PoweroffRequested(p, at)
    case Test(at, id) => AgentProbed(p, at, id)
  }

  function ApplyAll(p: Pve, ops: seq<Op>): Pve {
    if ops == [] then p else Apply(ApplyAll(p, ops[..|ops| - 1]), ops[|ops| - 1])
  }

  ghost predicate InShutdownOrder(gs: seq<GuestRuntime>) {
    forall i, j :: 0 <= i < j < |gs| ==>
      Key(0, gs[i].spec.order, gs[i].spec.id).Less(Key(0, gs[j].spec.order, gs[j].spec.id))
      && gs[i].spec.id != gs[j].spec.id
  }

  ghost predicate SoundGuest(g: GuestRuntime, gracefulStarted: bool) {
    && 0 <= g.spec.delaySeconds
    && g.spec.graceful in {GracefulStops, GracefulStuck, GracefulFails}
    && g.spec.force in {ForceStops, ForceFails}
    && (g.stopDue.Some? ==> g.state == Stopping)
    && (g.state == Stopping ==> gracefulStarted)
  }

  ghost predicate Sound(p: Pve) {
    && InShutdownOrder(p.guests)
    && p.config.stopAll in {Success, Failure} && p.config.poweroff in {Success, Failure}
    && forall i :: 0 <= i < |p.guests| ==> SoundGuest(p.guests[i], p.gracefulStarted)
  }

  /** A guest is still the same one, and one that has stopped stays stopped. */
  ghost predicate Continues(before: seq<GuestRuntime>, after: seq<GuestRuntime>) {
    && |after| == |before|
    && forall i :: 0 <= i < |before| ==>
         after[i].spec == before[i].spec && (before[i].state == Stopped ==> after[i].state == Stopped)
  }

  // ----- a new executor -----

  lemma FreshSound(c: PveConfig)
    requires ValidConfig(c)
    ensures Sound(Fresh(Normalized(c)))
  {
    var normal := Normalized(c);
    var p := Fresh(normal);
    forall i | 0 <= i < |p.guests| ensures SoundGuest(p.guests[i], false) {
      var k :| 0 <= k < |normal.guests| && normal.guests[k] == p.guests[i].spec;
      assert c.guests[k] in c.guests;
      assert normal.guests[k] == NormalGuest(c.guests[k]);
    }
    var keys := ByOrder(normal.guests);
    forall i, j | 0 <= i < j < |keys| ensures keys[i].key != keys[j].key {
      assert c.guests[i].id != c.guests[j].id;
    }
    SortSorts(keys);
    var sorted := ShutdownSequence(normal.guests);
    assert StrictlySorted(sorted);
    forall i, j | 0 <= i < j < |p.guests|
      ensures Key(0, p.guests[i].spec.order, p.guests[i].spec.id).Less(Key(0, p.guests[j].spec.order, p.guests[j].spec.id))
      ensures p.guests[i].spec.id != p.guests[j].spec.id
    {
      assert InRange(normal.guests, sorted[i]) && InRange(normal.guests, sorted[j]);
      assert sorted[i].key.Less(sorted[j].key);
      var a, b := sorted[i].item, sorted[j].item;
      assert c.guests[a].id == p.guests[i].spec.id && c.guests[b].id == p.guests[j].spec.id;
    }
  }

  // ----- stop counts -----

  function StillUp(gs: seq<GuestRuntime>, n: nat): nat
    requires n <= |gs|
  {
    if n == 0 then 0 else StillUp(gs, n - 1) + if gs[n - 1].state == Stopped then 0 else 1
  }

  predicate IsStop(e: Event) {
    e.kind == GuestStopped || (e.kind == GuestForced && e.outcome == Success)
  }

  function Stops(events: seq<Event>): nat {
    if events == [] then 0 else Stops(events[..|events| - 1]) + if IsStop(events[|events| - 1]) then 1 else 0
  }

  lemma {:induction false} StopsConcat(a: seq<Event>, b: seq<Event>)
    ensures Stops(a + b) == Stops(a) + Stops(b)
  {
    if b == [] {
      assert a + b == a;
    } else {
      StopsConcat(a, b[..|b| - 1]);
      assert (a + b)[..|a + b| - 1] == a + b[..|b| - 1];
    }
  }

  lemma {:induction false} AllStops(events: seq<Event>)
    requires forall i :: 0 <= i < |events| ==> IsStop(events[i])
    ensures Stops(events) == |events|
  {
    if events != [] {
      AllStops(events[..|events| - 1]);
    }
  }

  lemma {:induction false} NoStops(events: seq<Event>)
    requires forall i :: 0 <= i < |events| ==> !IsStop(events[i])
    ensures Stops(events) == 0
  {
    if events != [] {
      NoStops(events[..|events| - 1]);
    }
  }

  lemma {:induction false} AdvanceCounts(gs: seq<GuestRuntime>, at: int, n: nat)
    requires n <= |gs|
    ensures StillUp(AllStoppedIfDue(gs, at), n) + |Pending(gs, at, n)| == StillUp(gs, n)
  {
    if n > 0 {
      AdvanceCounts(gs, at, n - 1);
    }
  }

  lemma OneMoreEvent(events: seq<Event>, e: Event)
    ensures Stops(events + [e]) == Stops(events) + if IsStop(e) then 1 else 0
  {
    assert (events + [e])[..|events|] == events;
  }

  /** How many of the first n guests a force stops. */
  function Yielding(gs: seq<GuestRuntime>, n: nat): nat
    requires n <= |gs|
  {
    if n == 0 then 0
    else Yielding(gs, n - 1) + (if gs[n - 1].state == Stopped || gs[n - 1].spec.force == ForceFails then 0 else 1)
  }

  lemma {:induction false} YieldingStop(gs: seq<GuestRuntime>, n: nat)
    requires n <= |gs|
    ensures StillUp(AllForced(gs), n) + Yielding(gs, n) == StillUp(gs, n)
  {
    if n > 0 {
      YieldingStop(gs, n - 1);
    }
  }

  lemma ReportedOnce(before: seq<Event>, g: GuestRuntime, at: int)
    ensures Stops(before + [ForceEvent(g.spec, at)]) == Stops(before) + (if g.spec.force == ForceFails then 0 else 1)
  {
    OneMoreEvent(before, ForceEvent(g.spec, at));
  }

  lemma {:induction false} YieldingAreReported(gs: seq<GuestRuntime>, at: int, n: nat)
    requires n <= |gs|
    ensures Stops(ForceEvents(gs, at, n)) == Yielding(gs, n)
  {
    if n > 0 {
      YieldingAreReported(gs, at, n - 1);
      var before, g := ForceEvents(gs, at, n - 1), gs[n - 1];
      if g.state == Stopped {
        assert ForceEvents(gs, at, n) == before;
      } else {
        assert ForceEvents(gs, at, n) == before + [ForceEvent(g.spec, at)];
        ReportedOnce(before, g, at);
      }
    }
  }

  lemma ForceCounts(gs: seq<GuestRuntime>, at: int, n: nat)
    requires n <= |gs|
    ensures StillUp(AllForced(gs), n) + Stops(ForceEvents(gs, at, n)) == StillUp(gs, n)
  {
    YieldingStop(gs, n);
    YieldingAreReported(gs, at, n);
  }

  lemma {:induction false} AskingStopsNobody(gs: seq<GuestRuntime>, at: int, n: nat)
    requires n <= |gs|
    ensures StillUp(AllAskedToStop(gs, at), n) == StillUp(gs, n)
    ensures forall i :: 0 <= i < |Requests(gs, at, n)| ==> !IsStop(Requests(gs, at, n)[i])
  {
    if n > 0 {
      AskingStopsNobody(gs, at, n - 1);
    }
  }

  lemma {:induction false} SameStatesSameCount(a: seq<GuestRuntime>, b: seq<GuestRuntime>, n: nat)
    requires n <= |a| == |b| && forall i :: 0 <= i < n ==> a[i].state == b[i].state
    ensures StillUp(a, n) == StillUp(b, n)
  {
    if n > 0 {
      SameStatesSameCount(a, b, n - 1);
    }
  }

  function Accounted(p: Pve): nat {
    StillUp(p.guests, |p.guests|) + Stops(p.events)
  }

  lemma StopEventsCount(gs: seq<GuestRuntime>, at: int)
    ensures Stops(StopEvents(gs, StopOrder(gs, at), at)) == |Pending(gs, at, |gs|)|
  {
    SortSorts(Pending(gs, at, |gs|));
    AllStops(StopEvents(gs, StopOrder(gs, at), at));
  }

  lemma AdvanceAccounts(p: Pve, at: int)
    ensures Accounted(Advanced(p, at)) == Accounted(p)
    ensures Continues(p.guests, Advanced(p, at).guests)
  {
    AdvanceCounts(p.guests, at, |p.guests|);
    StopEventsCount(p.guests, at);
    StopsConcat(p.events, StopEvents(p.guests, StopOrder(p.guests, at), at));
  }

  function Asked(p: Pve, at: int): Pve {
    Pve(p.config, AllAskedToStop(p.guests, at),
        p.events + [StopAllEvent(p.config, at)] + Requests(p.guests, at, |p.guests|), true)
  }

  lemma AskedAccounts(p: Pve, at: int)
    ensures Accounted(Asked(p, at)) == Accounted(p)
    ensures Continues(p.guests, Asked(p, at).guests)
    ensures Stops(p.events + [StopAllEvent(p.config, at)]) == Stops(p.events)
  {
    var issued, requests := [StopAllEvent(p.config, at)], Requests(p.guests, at, |p.guests|);
    StopsConcat(p.events, issued);
    NoStops(issued);
    AskingStopsNobody(p.guests, at, |p.guests|);
    NoStops(requests);
    StopsConcat(p.events + issued, requests);
  }

  lemma StartAccounts(p: Pve, at: int)
    ensures Accounted(GracefullyStarted(p, at)) == Accounted(p)
    ensures Continues(p.guests, GracefullyStarted(p, at).guests)
  {
    AskedAccounts(p, at);
    AdvanceAccounts(Asked(p, at), at);
  }

  lemma ForceAccounts(p: Pve, at: int)
    ensures Accounted(ForcedRemaining(p, at)) == Accounted(p)
    ensures Continues(p.guests, ForcedRemaining(p, at).guests)
  {
    ForceCounts(p.guests, at, |p.guests|);
    StopsConcat(p.events, ForceEvents(p.guests, at, |p.guests|));
  }

  lemma PoweroffAccounts(p: Pve, at: int)
    ensures Accounted(PoweroffRequested(p, at)) == Accounted(p)
    ensures Continues(p.guests, PoweroffRequested(p, at).guests)
  {
    var next := PoweroffRequested(p, at);
    var issued := Event(at, PoweroffIssued, 0, NoMeans, SystemctlPoweroff, PoweroffResult(p), ProbeUnset);
    assert next.guests == p.guests && next.events == p.events + [issued];
    QuietEvent(p.events, issued);
  }

  lemma QuietEvent(events: seq<Event>, e: Event)
    requires !IsStop(e)
    ensures Stops(events + [e]) == Stops(events)
  {
    OneMoreEvent(events, e);
  }

  lemma TestAccounts(p: Pve, at: int, id: int)
    ensures Accounted(AgentProbed(p, at, id)) == Accounted(p)
    ensures Continues(p.guests, AgentProbed(p, at, id).guests)
  {
    var next := AgentProbed(p, at, id);
    if Find(p.guests, id, 0).Some? {
      QuietEvent(p.events, next.events[|p.events|]);
    }
    SameStatesSameCount(p.guests, next.guests, |p.guests|);
  }

  /** Whatever is done, each guest is either up or accounted for by exactly one stop event, and stopped
      guests stay stopped. */
  lemma ApplyAccounts(p: Pve, op: Op)
    ensures Accounted(Apply(p, op)) == Accounted(p)
    ensures Continues(p.guests, Apply(p, op).guests)
  {
    match op
    case AdvanceTo(at) => AdvanceAccounts(p, at);
    case Start(at) => StartAccounts(p, at);
    case Force(at) => ForceAccounts(p, at);
    case Poweroff(at) => PoweroffAccounts(p, at);
    case Test(at, id) => TestAccounts(p, at, id);
  }

  lemma OrderStays(before: seq<GuestRuntime>, after: seq<GuestRuntime>)
    requires InShutdownOrder(before) && Continues(before, after)
    ensures InShutdownOrder(after)
  {
    forall i, j | 0 <= i < j < |after|
      ensures Key(0, after[i].spec.order, after[i].spec.id).Less(Key(0, after[j].spec.order, after[j].spec.id))
      ensures after[i].spec.id != after[j].spec.id
    {
      assert after[i].spec == before[i].spec && after[j].spec == before[j].spec;
    }
  }

  lemma GuestStaysSound(p: Pve, op: Op, i: nat)
    requires Sound(p) && i < |p.guests| && Continues(p.guests, Apply(p, op).guests)
    ensures SoundGuest(Apply(p, op).guests[i], Apply(p, op).gracefulStarted)
  {
    assert SoundGuest(p.guests[i], p.gracefulStarted);
  }

  lemma ApplySound(p: Pve, op: Op)
    requires Sound(p)
    ensures Sound(Apply(p, op))
  {
    ApplyAccounts(p, op);
    OrderStays(p.guests, Apply(p, op).guests);
    forall i: nat | i < |p.guests| ensures SoundGuest(Apply(p, op).guests[i], Apply(p, op).gracefulStarted) {
      GuestStaysSound(p, op, i);
    }
  }

  /** Over any series of operations on a new executor, guests still up and stop events add up to all guests. */
  lemma {:induction false} GuestsConserved(c: PveConfig, ops: seq<Op>)
    requires ValidConfig(c)
    ensures var p := ApplyAll(Fresh(Normalized(c)), ops);
      Sound(p) && StillUp(p.guests, |p.guests|) + Stops(p.events) == |c.guests|
  {
    if ops == [] {
      FreshSound(c);
      FreshAllUp(Fresh(Normalized(c)), |c.guests|);
    } else {
      GuestsConserved(c, ops[..|ops| - 1]);
      var before := ApplyAll(Fresh(Normalized(c)), ops[..|ops| - 1]);
      ApplySound(before, ops[|ops| - 1]);
      ApplyAccounts(before, ops[|ops| - 1]);
    }
  }

  lemma {:induction false} FreshAllUp(p: Pve, n: nat)
    requires n <= |p.guests| && forall i :: 0 <= i < |p.guests| ==> p.guests[i].state == Running
    ensures StillUp(p.guests, n) == n
  {
    if n > 0 {
      FreshAllUp(p, n - 1);
    }
  }

  /** A poweroff that is not blocked finds every guest stopped, and none ever runs again. */
  lemma {:induction false} PoweroffIsFinal(p: Pve, ops: seq<Op>)
    requires Sound(p) && PoweroffResult(p) != Blocked
    ensures ApplyAll(p, ops).AllStopped() && PoweroffResult(ApplyAll(p, ops)) == PoweroffResult(p)
  {
    if ops != [] {
      PoweroffIsFinal(p, ops[..|ops| - 1]);
      ApplyAccounts(ApplyAll(p, ops[..|ops| - 1]), ops[|ops| - 1]);
    }
  }

  // ----- advancing in one go or in steps -----

  lemma PendingSplits(gs: seq<GuestRuntime>, t1: int, t2: int, x: Keyed)
    requires t1 <= t2
    ensures x in Pending(gs, t2, |gs|) <==>
      x in Pending(gs, t1, |gs|) || x in Pending(AllStoppedIfDue(gs, t1), t2, |gs|)
  {}

  lemma {:induction false} PendingDistinct(gs: seq<GuestRuntime>, at: int, n: nat)
    requires InShutdownOrder(gs) && n <= |gs|
    ensures DistinctKeys(Pending(gs, at, n))
  {
    if n > 0 {
      PendingDistinct(gs, at, n - 1);
      var rest := Pending(gs, at, n - 1);
      forall i | 0 <= i < |rest| && gs[n - 1].Due(at) ensures rest[i].key != gs[n - 1].StopKey() {
        assert rest[i] in rest;
        assert gs[rest[i].item].spec.id != gs[n - 1].spec.id;
      }
    }
  }

  lemma StopOrderSorted(gs: seq<GuestRuntime>, at: int)
    requires InShutdownOrder(gs)
    ensures StrictlySorted(StopOrder(gs, at))
  {
    PendingDistinct(gs, at, |gs|);
    SortSorts(Pending(gs, at, |gs|));
  }

  /** What is due by t2 is what is due by t1, in its order, followed by what becomes due after. */
  lemma StopOrderSplits(gs: seq<GuestRuntime>, t1: int, t2: int)
    requires InShutdownOrder(gs) && t1 <= t2
    ensures StopOrder(gs, t2) == StopOrder(gs, t1) + StopOrder(AllStoppedIfDue(gs, t1), t2)
  {
    var next := AllStoppedIfDue(gs, t1);
    var early, late, all := StopOrder(gs, t1), StopOrder(next, t2), StopOrder(gs, t2);
    StopOrderSorted(gs, t1);
    StopOrderSorted(gs, t2);
    assert InShutdownOrder(next);
    StopOrderSorted(next, t2);
    EarlyThenLate(gs, t1, t2);
    forall x ensures x in all <==> x in early + late {
      PendingSplits(gs, t1, t2, x);
    }
    SortedUnique(all, early + late);
  }

  lemma EarlyThenLate(gs: seq<GuestRuntime>, t1: int, t2: int)
    requires StrictlySorted(StopOrder(gs, t1)) && StrictlySorted(StopOrder(AllStoppedIfDue(gs, t1), t2))
    ensures StrictlySorted(StopOrder(gs, t1) + StopOrder(AllStoppedIfDue(gs, t1), t2))
  {
    var early, late := StopOrder(gs, t1), StopOrder(AllStoppedIfDue(gs, t1), t2);
    forall i, j | 0 <= i < |early| && 0 <= j < |late| ensures early[i].key.Less(late[j].key) {
      assert early[i] in early && late[j] in late;
    }
  }

  /** Events without their times. */
  function Untimed(events: seq<Event>): seq<Event> {
    seq(|events|, k requires 0 <= k < |events| => events[k].(at := 0))
  }

  lemma StopEventsSplit(gs: seq<GuestRuntime>, t1: int, t2: int)
    requires InShutdownOrder(gs) && t1 <= t2
    ensures var next := AllStoppedIfDue(gs, t1);
      Untimed(StopEvents(gs, StopOrder(gs, t2), t2)) ==
        Untimed(StopEvents(gs, StopOrder(gs, t1), t1)) + Untimed(StopEvents(next, StopOrder(next, t2), t2))
  {
    StopOrderSplits(gs, t1, t2);
    EventsOfParts(gs, AllStoppedIfDue(gs, t1), StopOrder(gs, t1), StopOrder(AllStoppedIfDue(gs, t1), t2), t1, t2);
  }

  lemma EventsOfParts(gs: seq<GuestRuntime>, next: seq<GuestRuntime>, early: seq<Keyed>, late: seq<Keyed>, t1: int, t2: int)
    requires |next| == |gs| && forall i :: 0 <= i < |gs| ==> next[i].spec == gs[i].spec
    requires (forall x :: x in early ==> x.item < |gs|) && (forall x :: x in late ==> x.item < |gs|)
    ensures forall x :: x in early + late ==> x.item < |gs|
    ensures Untimed(StopEvents(gs, early + late, t2)) == Untimed(StopEvents(gs, early, t1)) + Untimed(StopEvents(next, late, t2))
  {
    forall k | 0 <= k < |late| ensures late[k].item < |next| && next[late[k].item].spec == gs[late[k].item].spec {
      assert late[k] in late;
    }
  }

  /** Advancing to t1 and then to t2 leaves the guests as advancing to t2 at once does, and reports the same
      stops in the same order; only the times on the events can differ. */
  lemma AdvanceInSteps(p: Pve, t1: int, t2: int)
    requires Sound(p) && t1 <= t2
    ensures var twice, once := Advanced(Advanced(p, t1), t2), Advanced(p, t2);
      twice.guests == once.guests && Untimed(twice.events) == Untimed(once.events)
  {
    var next := AllStoppedIfDue(p.guests, t1);
    assert AllStoppedIfDue(next, t2) == AllStoppedIfDue(p.guests, t2);
    StopEventsSplit(p.guests, t1, t2);
    AppendInSteps(p.events, StopEvents(p.guests, StopOrder(p.guests, t1), t1),
                  StopEvents(next, StopOrder(next, t2), t2), StopEvents(p.guests, StopOrder(p.guests, t2), t2));
  }

  lemma AppendInSteps(a: seq<Event>, first: seq<Event>, second: seq<Event>, once: seq<Event>)
    requires Untimed(once) == Untimed(first) + Untimed(second)
    ensures Untimed(a + first + second) == Untimed(a + once)
  {
    UntimedConcat(a, once);
    UntimedConcat(a, first);
    UntimedConcat(a + first, second);
    assert Untimed(a) + (Untimed(first) + Untimed(second)) == Untimed(a) + Untimed(first) + Untimed(second);
  }

  lemma UntimedConcat(a: seq<Event>, b: seq<Event>)
    ensures Untimed(a + b) == Untimed(a) + Untimed(b)
  {}
}
