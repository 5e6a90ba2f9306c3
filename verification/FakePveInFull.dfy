/** What the in-memory PVE does, with every notion written out: the guests' own fields, plain numbers, and the
    events one by one. */
module FakePveInFull {
  import opened Common
  import opened ShutdownOrder
  import opened FakePve
  import opened FakePveRuns

  // ----- configuration -----

  /** What a guest of a configuration becomes: only fields that were left open are filled in, and the agent's answer
      is what its kind and its agent allow. */
  predicate Becomes(g: Guest, h: Guest) {
    && h.id == g.id && h.name == g.name && h.kind == g.kind && h.order == g.order
    && h.agentEnabled == g.agentEnabled && h.delaySeconds == g.delaySeconds
    && h.graceful == (if g.graceful == GracefulUnset then GracefulStops else g.graceful)
    && h.force == (if g.force == ForceUnset then ForceStops else g.force)
    && (g.kind == Lxc ==> h.agentProbe == ProbeNotRelevant)
    && (g.kind == Vm && !g.agentEnabled ==> h.agentProbe == ProbeDisabled)
    && (g.kind == Vm && g.agentEnabled ==> h.agentProbe == if g.agentProbe == ProbeUnset then ProbeSuccess else g.agentProbe)
  }

  /** Which configurations are accepted. */
  lemma AcceptedInFull(c: PveConfig)
    ensures ValidConfig(c) <==>
      && (c.stopAll == ResultUnset || c.stopAll == Success || c.stopAll == Failure)
      && (c.poweroff == ResultUnset || c.poweroff == Success || c.poweroff == Failure)
      && 0 <= c.stopAllTimeout
      && (forall i, j :: 0 <= i < j < |c.guests| ==> c.guests[i].id != c.guests[j].id)
      && (forall g :: g in c.guests ==>
            && g.id >= 1 && |g.name| > 0 && (g.kind == Vm || g.kind == Lxc) && g.delaySeconds >= 0
            && (g.graceful == GracefulUnset || g.graceful == GracefulStops || g.graceful == GracefulStuck || g.graceful == GracefulFails)
            && (g.force == ForceUnset || g.force == ForceStops || g.force == ForceFails)
            && (g.kind == Lxc || !g.agentEnabled || g.agentProbe == ProbeUnset || g.agentProbe == ProbeSuccess
                || g.agentProbe == ProbeFailure || g.agentProbe == ProbeTimeout))
  {}

  lemma NormalBecomes(c: PveConfig, k: nat)
    requires ValidConfig(c) && k < |c.guests|
    ensures k < |Normalized(c).guests| && Becomes(c.guests[k], Normalized(c).guests[k])
  {
    assert Acceptable(c.guests[k]);
    assert Normalized(c).guests[k] == NormalGuest(c.guests[k]);
  }

  /** A new executor's guests are the configured ones, all of them and no others, running and untested. */
  lemma FreshHoldsAll(c: PveConfig)
    requires ValidConfig(c)
    ensures var p := Fresh(Normalized(c));
      && |p.guests| == |c.guests|
      && (forall i :: 0 <= i < |p.guests| ==>
            && p.guests[i].state == Running && p.guests[i].stopDue == None && p.guests[i].lastTest == None
            && exists g :: g in c.guests && Becomes(g, p.guests[i].spec))
      && (forall g :: g in c.guests ==> exists i :: 0 <= i < |p.guests| && Becomes(g, p.guests[i].spec))
  {
    var normal := Normalized(c);
    var p, sorted := Fresh(normal), ShutdownSequence(normal.guests);
    forall i | 0 <= i < |p.guests| ensures exists g :: g in c.guests && Becomes(g, p.guests[i].spec) {
      assert InRange(normal.guests, sorted[i]);
      NormalBecomes(c, sorted[i].item);
      assert c.guests[sorted[i].item] in c.guests;
    }
    forall g | g in c.guests ensures exists i :: 0 <= i < |p.guests| && Becomes(g, p.guests[i].spec) {
      var k :| 0 <= k < |c.guests| && c.guests[k] == g;
      NormalBecomes(c, k);
      var keyed := ByOrder(normal.guests)[k];
      assert keyed in sorted;
      var i :| 0 <= i < |sorted| && sorted[i] == keyed;
      assert p.guests[i].spec == normal.guests[k];
    }
  }

  /** They stand by shutdown order, the lowest first, and then by number; nothing has happened, and the answers of the
      node are filled in. */
  lemma FreshInOrder(c: PveConfig)
    requires ValidConfig(c)
    ensures var p := Fresh(Normalized(c));
      && p.events == [] && !p.gracefulStarted
      && p.config.stopAll == (if c.stopAll == ResultUnset then Success else c.stopAll)
      && p.config.poweroff == (if c.poweroff == ResultUnset then Success else c.poweroff)
      && p.config.stopAllTimeout == (if c.stopAllTimeout == 0 then 180 else c.stopAllTimeout)
      && (forall i, j :: 0 <= i < j < |p.guests| ==>
            || p.guests[i].spec.order < p.guests[j].spec.order
            || (p.guests[i].spec.order == p.guests[j].spec.order && p.guests[i].spec.id < p.guests[j].spec.id))
  {
    FreshSound(c);
    KeysInFull(Fresh(Normalized(c)).guests);
  }

  lemma KeysInFull(gs: seq<GuestRuntime>)
    requires InShutdownOrder(gs)
    ensures forall i, j :: 0 <= i < j < |gs| ==>
      gs[i].spec.order < gs[j].spec.order || (gs[i].spec.order == gs[j].spec.order && gs[i].spec.id < gs[j].spec.id)
  {
    forall i, j | 0 <= i < j < |gs|
      ensures gs[i].spec.order < gs[j].spec.order || (gs[i].spec.order == gs[j].spec.order && gs[i].spec.id < gs[j].spec.id)
    {
      assert Key(0, gs[i].spec.order, gs[i].spec.id).Less(Key(0, gs[j].spec.order, gs[j].spec.id));
    }
  }

  // ----- asking and forcing -----

  lemma AskedGuest(p: Pve, at: int, i: nat)
    requires Sound(p) && !p.gracefulStarted && p.config.stopAll != Failure && i < |p.guests|
    ensures |GracefullyStarted(p, at).guests| == |p.guests| && AskedInFull(p.guests[i], GracefullyStarted(p, at).guests[i], at)
  {
    assert SoundGuest(p.guests[i], false);
  }

  lemma StartedEvents(p: Pve, at: int) returns (stopped: seq<Event>)
    requires !p.gracefulStarted && p.config.stopAll != Failure
    ensures GracefullyStarted(p, at).events == p.events + [StopAllEvent(p.config, at)] + Requests(p.guests, at, |p.guests|) + stopped
    ensures forall e :: e in stopped ==> e.kind == GuestStopped
  {
    var guests := AllAskedToStop(p.guests, at);
    stopped := StopEvents(guests, StopOrder(guests, at), at);
  }

  /** The graceful stop, on its first request: the node-wide command, and unless it fails one request to every guest
      that is up, in the executor's order, then the stops that are due at once. */
  lemma StartInFull(p: Pve, at: int) returns (asked: seq<Event>, stopped: seq<Event>)
    requires Sound(p) && !p.gracefulStarted
    ensures var q := GracefullyStarted(p, at);
      && q.gracefulStarted && q.config == p.config && |q.guests| == |p.guests|
      && q.events == p.events
           + [Event(at, StopAllIssued, 0, NoMeans, PveNodeStopAll(p.config.stopAllTimeout), p.config.stopAll, ProbeUnset)]
           + asked + stopped
      && (p.config.stopAll == Failure ==> asked == [] && stopped == [] && q.guests == p.guests)
      && (p.config.stopAll != Failure ==>
            && |asked| == StillUp(p.guests, |p.guests|)
            && (forall e :: e in stopped ==> e.kind == GuestStopped)
            && forall i: nat :: i < |p.guests| ==> RequestedInFull(p.guests, asked, at, i) && AskedInFull(p.guests[i], q.guests[i], at))
  {
    asked, stopped := [], [];
    if p.config.stopAll != Failure {
      asked := Requests(p.guests, at, |p.guests|);
      stopped := StartedEvents(p, at);
      forall i: nat | i < |p.guests| ensures RequestedInFull(p.guests, asked, at, i) && AskedInFull(p.guests[i], GracefullyStarted(p, at).guests[i], at) {
        RequestsInFull(p.guests, at, i, |p.guests|);
        AskedGuest(p, at, i);
      }
      RequestsCount(p.guests, at, |p.guests|);
    }
  }

  lemma NewGuestAsked(c: PveConfig, at: int, k: nat)
    requires ValidConfig(c) && k < |Fresh(Normalized(c)).guests|
    ensures var gs := Fresh(Normalized(c)).guests;
      k < |Requests(gs, at, |gs|)| == |gs| && Requests(gs, at, |gs|)[k] == RequestEvent(gs[k].spec, at)
  {
    var gs := Fresh(Normalized(c)).guests;
    FreshAllUp(Fresh(Normalized(c)), k);
    FreshAllUp(Fresh(Normalized(c)), |gs|);
    RequestsInFull(gs, at, k, |gs|);
  }

  /** So the first thing that a new executor does on a graceful stop is to ask all its guests, the lowest shutdown
      order first, and then the lowest number. */
  lemma NewGuestsAskedInOrder(c: PveConfig, at: int) returns (asked: seq<Event>, rest: seq<Event>)
    requires ValidConfig(c) && c.stopAll != Failure
    ensures var p := Fresh(Normalized(c));
      && GracefullyStarted(p, at).events == [StopAllEvent(p.config, at)] + asked + rest && |asked| == |p.guests|
      && (forall k :: 0 <= k < |asked| ==> asked[k].kind == ShutdownRequested && asked[k].guestId == p.guests[k].spec.id)
      && (forall k, l :: 0 <= k < l < |asked| ==>
            || p.guests[k].spec.order < p.guests[l].spec.order
            || (p.guests[k].spec.order == p.guests[l].spec.order && asked[k].guestId < asked[l].guestId))
  {
    var p := Fresh(Normalized(c));
    FreshInOrder(c);
    asked, rest := FirstEvents(p, at);
    forall k: nat | k < |asked| ensures asked[k].kind == ShutdownRequested && asked[k].guestId == p.guests[k].spec.id {
      NewGuestAsked(c, at, k);
    }
  }

  lemma FirstEvents(p: Pve, at: int) returns (asked: seq<Event>, rest: seq<Event>)
    requires p.events == [] && !p.gracefulStarted && p.config.stopAll != Failure
    requires forall i :: 0 <= i < |p.guests| ==> p.guests[i].state == Running
    ensures asked == Requests(p.guests, at, |p.guests|) && |asked| == |p.guests|
    ensures GracefullyStarted(p, at).events == [StopAllEvent(p.config, at)] + asked + rest
  {
    asked := Requests(p.guests, at, |p.guests|);
    rest := StartedEvents(p, at);
    RequestsCount(p.guests, at, |p.guests|);
    FreshAllUp(p, |p.guests|);
    assert p.events + [StopAllEvent(p.config, at)] == [StopAllEvent(p.config, at)];
  }

  /** Guest i's request, at its place among those to the guests that are up. */
  predicate RequestedInFull(gs: seq<GuestRuntime>, asked: seq<Event>, at: int, i: nat)
    requires i < |gs|
  {
    var g := gs[i].spec;
    gs[i].state != Stopped ==>
      && StillUp(gs, i) < |asked|
      && asked[StillUp(gs, i)] ==
         Event(at, ShutdownRequested, g.id, if g.kind == Lxc then LxcShutdown else if g.agentEnabled then GuestAgent else Acpi,
               NoCommand, if g.graceful == GracefulFails then Failure else Success, ProbeUnset)
  }

  /** A guest that stops on its own is due after its delay; a stuck one never is, and one that fails stays up. */
  predicate AskedInFull(g: GuestRuntime, h: GuestRuntime, at: int) {
    if g.state == Stopped then h == g
    else
      && (g.spec.graceful == GracefulStops && g.spec.delaySeconds == 0 ==> h == g.(state := Stopped, stopDue := None))
      && (g.spec.graceful == GracefulStops && g.spec.delaySeconds > 0 ==>
            h == g.(state := Stopping, stopDue := Some(at + g.spec.delaySeconds * 1_000_000_000)))
      && (g.spec.graceful == GracefulStuck ==> h == g.(state := Stopping, stopDue := None))
      && (g.spec.graceful == GracefulFails ==> h == g.(state := Running))
  }

  lemma {:induction false} RequestsInFull(gs: seq<GuestRuntime>, at: int, i: nat, n: nat)
    requires i < n <= |gs|
    ensures |Requests(gs, at, n)| == StillUp(gs, n)
    ensures gs[i].state != Stopped ==> StillUp(gs, i) < StillUp(gs, n) && Requests(gs, at, n)[StillUp(gs, i)] == RequestEvent(gs[i].spec, at)
  {
    if i < n - 1 {
      RequestsInFull(gs, at, i, n - 1);
    } else {
      RequestsCount(gs, at, i);
    }
  }

  lemma {:induction false} RequestsCount(gs: seq<GuestRuntime>, at: int, n: nat)
    requires n <= |gs|
    ensures |Requests(gs, at, n)| == StillUp(gs, n)
  {
    if n > 0 {
      RequestsCount(gs, at, n - 1);
    }
  }

  /** The forced stop: one command for every guest that is not stopped, in the executor's order and of the guest's kind;
      those whose command works are stopped, the others stay as they are. */
  lemma ForceInFull(p: Pve, at: int) returns (forced: seq<Event>)
    requires Sound(p)
    ensures var q := ForcedRemaining(p, at);
      && q.events == p.events + forced && q.config == p.config && q.gracefulStarted == p.gracefulStarted
      && |q.guests| == |p.guests| && |forced| == StillUp(p.guests, |p.guests|)
      && forall i: nat :: i < |p.guests| ==>
           && CommandedInFull(p.guests, forced, at, i)
           && q.guests[i] == if p.guests[i].state != Stopped && p.guests[i].spec.force == ForceStops
                             then p.guests[i].(state := Stopped, stopDue := None) else p.guests[i]
  {
    forced := ForceEvents(p.guests, at, |p.guests|);
    ForcesCount(p.guests, at, |p.guests|);
    forall i: nat | i < |p.guests| ensures CommandedInFull(p.guests, forced, at, i) {
      ForcesInFull(p.guests, at, i, |p.guests|);
    }
  }

  predicate CommandedInFull(gs: seq<GuestRuntime>, forced: seq<Event>, at: int, i: nat)
    requires i < |gs|
  {
    var g := gs[i].spec;
    gs[i].state != Stopped ==>
      && StillUp(gs, i) < |forced|
      && forced[StillUp(gs, i)] ==
         Event(at, GuestForced, g.id, FakePve.ForceStop, if g.kind == Lxc then PctStop(g.id) else QmStop(g.id),
               if g.force == ForceFails then Failure else Success, ProbeUnset)
  }

  lemma {:induction false} ForcesInFull(gs: seq<GuestRuntime>, at: int, i: nat, n: nat)
    requires i < n <= |gs|
    ensures |ForceEvents(gs, at, n)| == StillUp(gs, n)
    ensures gs[i].state != Stopped ==> StillUp(gs, i) < StillUp(gs, n) && ForceEvents(gs, at, n)[StillUp(gs, i)] == ForceEvent(gs[i].spec, at)
  {
    if i < n - 1 {
      ForcesInFull(gs, at, i, n - 1);
    } else {
      ForcesCount(gs, at, i);
    }
  }

  lemma {:induction false} ForcesCount(gs: seq<GuestRuntime>, at: int, n: nat)
    requires n <= |gs|
    ensures |ForceEvents(gs, at, n)| == StillUp(gs, n)
  {
    if n > 0 {
      ForcesCount(gs, at, n - 1);
    }
  }

  /** The host's poweroff is blocked iff some guest is not stopped, and changes no guest. */
  lemma PoweroffInFull(p: Pve, at: int)
    ensures PoweroffRequested(p, at) == p.(events := p.events + [Event(at, PoweroffIssued, 0, NoMeans, SystemctlPoweroff,
      if exists i :: 0 <= i < |p.guests| && p.guests[i].state != Stopped then Blocked else p.config.poweroff, ProbeUnset)])
  {}

  /** A test of a guest's agent: only VMs with an agent are pinged, and the report is kept with that guest. */
  lemma TestInFull(p: Pve, at: int, i: nat)
    requires InShutdownOrder(p.guests) && i < |p.guests|
    ensures var g := p.guests[i].spec;
      var probe := if g.kind != Vm then ProbeNotRelevant else if !g.agentEnabled then ProbeDisabled else g.agentProbe;
      AgentProbed(p, at, g.id) == p.(
        guests := p.guests[i := p.guests[i].(lastTest := Some(AgentReport(at, probe)))],
        events := p.events + [Event(at, AgentTested, g.id, GuestAgent,
                                    if g.kind == Vm && g.agentEnabled then AgentPing(g.id) else NoCommand, ResultUnset, probe)])
  {
    var found := Find(p.guests, p.guests[i].spec.id, 0);
    assert found == Some(i);
  }

  // ----- advancing -----

  /** Advancing stops exactly the guests that are stopping with a due time that has come, reports each once, and in
      the order of due time, then shutdown order, then number. */
  lemma AdvanceInFull(p: Pve, at: int) returns (stops: seq<nat>, reports: seq<Event>)
    requires Sound(p)
    ensures forall k :: 0 <= k < |stops| ==> stops[k] < |p.guests| && p.guests[stops[k]].stopDue.Some?
    ensures forall k, l :: 0 <= k < l < |stops| ==>
      var g, h := p.guests[stops[k]], p.guests[stops[l]];
      || g.stopDue.value < h.stopDue.value
      || (g.stopDue.value == h.stopDue.value && g.spec.order < h.spec.order)
      || (g.stopDue.value == h.stopDue.value && g.spec.order == h.spec.order && g.spec.id < h.spec.id)
    ensures forall i: nat :: i in stops <==>
      i < |p.guests| && p.guests[i].state == Stopping && p.guests[i].stopDue.Some? && p.guests[i].stopDue.value <= at
    ensures |reports| == |stops| && forall k :: 0 <= k < |stops| ==>
      reports[k] == Event(at, GuestStopped, p.guests[stops[k]].spec.id, NoMeans, NoCommand, Success, ProbeUnset)
    ensures var q := Advanced(p, at);
      && q.config == p.config && q.gracefulStarted == p.gracefulStarted && q.events == p.events + reports
      && |q.guests| == |p.guests|
      && forall i: nat :: i < |p.guests| ==>
           q.guests[i] == if i in stops then p.guests[i].(state := Stopped, stopDue := None) else p.guests[i]
  {
    var order := StopOrder(p.guests, at);
    stops, reports := ItemsOf(order), StopEvents(p.guests, order, at);
    OrderInFull(p.guests, at, order, stops);
  }

  lemma OrderInFull(gs: seq<GuestRuntime>, at: int, order: seq<Keyed>, stops: seq<nat>)
    requires InShutdownOrder(gs) && order == StopOrder(gs, at) && stops == ItemsOf(order)
    ensures forall k :: 0 <= k < |stops| ==> stops[k] < |gs| && gs[stops[k]].stopDue.Some?
    ensures forall k, l :: 0 <= k < l < |stops| ==>
      var g, h := gs[stops[k]], gs[stops[l]];
      || g.stopDue.value < h.stopDue.value
      || (g.stopDue.value == h.stopDue.value && g.spec.order < h.spec.order)
      || (g.stopDue.value == h.stopDue.value && g.spec.order == h.spec.order && g.spec.id < h.spec.id)
    ensures forall i: nat :: i in stops <==>
      i < |gs| && gs[i].state == Stopping && gs[i].stopDue.Some? && gs[i].stopDue.value <= at
  {
    StopOrderSorted(gs, at);
    forall k | 0 <= k < |order| ensures order[k].item < |gs| && order[k].key == gs[order[k].item].StopKey() && gs[order[k].item].Due(at) {
      assert order[k] in order;
    }
    forall k, l | 0 <= k < l < |order| ensures order[k].key.Less(order[l].key) {}
    forall i: nat ensures i in stops <==> i < |gs| && gs[i].Due(at) {
      if i < |gs| && gs[i].Due(at) {
        assert Keyed(gs[i].StopKey(), i) in order;
        var k :| 0 <= k < |order| && order[k] == Keyed(gs[i].StopKey(), i);
        assert stops[k] == i;
      }
    }
  }

  function ItemsOf(order: seq<Keyed>): (items: seq<nat>)
    ensures |items| == |order| && forall k :: 0 <= k < |order| ==> items[k] == order[k].item
  {
    seq(|order|, k requires 0 <= k < |order| => order[k].item)
  }
}
