/** The concurrent force-stop of the remaining guests. */
module ForceStop {
  import opened Common
  import opened Decimal
  import opened PveExec
  import opened PveReader

  // ----- the remaining guests -----

  /** The guests that are neither templates nor stopped, in the order of the listing. */
  function Remaining(guests: seq<Guest>): seq<Guest> {
    if guests == [] then []
    else
      var last := guests[|guests| - 1];
      Remaining(guests[..|guests| - 1]) + (if last.template || last.Stopped() then [] else [last])
  }

  lemma {:induction false} RemainingAreRunning(guests: seq<Guest>, g: Guest)
    ensures g in Remaining(guests) <==> g in guests && !g.template && !g.Stopped()
  {
    if guests != [] {
      RemainingAreRunning(guests[..|guests| - 1], g);
      assert guests == guests[..|guests| - 1] + [guests[|guests| - 1]];
    }
  }

  // ----- threads -----

  // A call with the number of the thread that made it; thread i stops remaining guest i.
  datatype ThreadCall = ThreadCall(thread: nat, call: Call)

  function Own(trace: seq<ThreadCall>, thread: nat): seq<Call> {
    if trace == [] then []
    else
      var last := trace[|trace| - 1];
      Own(trace[..|trace| - 1], thread) + (if last.thread == thread then [last.call] else [])
  }

  // `late` tells the threads that found the deadline passed before they started; `refusal` is the executor's, if
  // it refuses all power actions.
  datatype Force = Force(targets: seq<Guest>, node: string, timeout: int, late: nat -> bool, refusal: Option<Error>)

  function TargetOf(f: Force, thread: nat): Target
    requires thread < |f.targets|
  {
    Target(f.targets[thread].vmid, f.node, false, f.timeout)
  }

  predicate Silent(f: Force, thread: nat) {
    f.late(thread) || f.refusal.Some?
  }

  predicate OnCourse(f: Force, trace: seq<ThreadCall>, thread: nat)
    requires thread < |f.targets|
  {
    if Silent(f, thread) then Own(trace, thread) == [] else After(TargetOf(f, thread), Own(trace, thread)).Some?
  }

  /** Any interleaving of the threads' calls: each thread, seen alone, is on a course of its action. */
  ghost predicate Interleaving(f: Force, trace: seq<ThreadCall>) {
    && (f.refusal.None? ==> TimeoutInRange(f.timeout))
    && (forall k :: 0 <= k < |trace| ==> trace[k].thread < |f.targets|)
    && (forall i: nat :: i < |f.targets| ==> OnCourse(f, trace, i))
  }

  /** Where the k-th call of a trace stands in its thread. */
  lemma {:induction false} OwnIndex(trace: seq<ThreadCall>, k: nat)
    requires k < |trace|
    ensures |Own(trace[..k], trace[k].thread)| < |Own(trace, trace[k].thread)|
    ensures Own(trace, trace[k].thread)[|Own(trace[..k], trace[k].thread)|] == trace[k].call
    decreases |trace|
  {
    if k < |trace| - 1 {
      OwnIndex(trace[..|trace| - 1], k);
      assert trace[..|trace| - 1][..k] == trace[..k];
    }
  }

  lemma {:induction false} OwnGrows(trace: seq<ThreadCall>, j: nat, k: nat)
    requires j < k <= |trace|
    ensures |Own(trace[..j + 1], trace[j].thread)| <= |Own(trace[..k], trace[j].thread)|
    ensures |Own(trace[..j + 1], trace[j].thread)| == |Own(trace[..j], trace[j].thread)| + 1
    decreases k
  {
    assert trace[..j + 1][..j] == trace[..j];
    if k > j + 1 {
      OwnGrows(trace, j, k - 1);
      assert trace[..k][..k - 1] == trace[..k - 1];
    }
  }

  /** Under every interleaving a command only ever stops a remaining guest, with the program of its kind, is on the
      allowlist, and follows a listing of the same thread that shows this guest running. */
  lemma OnlyRemainingAreForced(f: Force, trace: seq<ThreadCall>, k: nat)
    requires Interleaving(f, trace) && k < |trace| && trace[k].call.Ran?
    ensures var i := trace[k].thread;
      var command := trace[k].call.command;
      && VmidInRange(f.targets[i].vmid) && Allowed(command)
      && |Own(trace[..k], i)| == 1 && |Own(trace, i)| > 1 && ShowsRunning(TargetOf(f, i), Own(trace, i)[0])
      && command == Command(if Found(TargetOf(f, i), Own(trace, i)[0]).value.guestType == Lxc then "pct" else "qm",
                            ["stop", Itoa(f.targets[i].vmid)])
  {
    var i := trace[k].thread;
    assert OnCourse(f, trace, i);
    OwnIndex(trace, k);
    CourseIsSafe(TargetOf(f, i), Own(trace, i));
  }

  /** No guest is forced twice. */
  lemma ForcedAtMostOnce(f: Force, trace: seq<ThreadCall>, j: nat, k: nat)
    requires Interleaving(f, trace) && j < k < |trace| && trace[j].call.Ran? && trace[k].call.Ran?
    requires forall a, b :: 0 <= a < b < |f.targets| ==> f.targets[a].vmid != f.targets[b].vmid
    ensures trace[j].thread != trace[k].thread
    ensures trace[j].call.command.args != trace[k].call.command.args
  {
    OnlyRemainingAreForced(f, trace, j);
    OnlyRemainingAreForced(f, trace, k);
    OwnGrows(trace, j, k);
    var a, b := f.targets[trace[j].thread].vmid, f.targets[trace[k].thread].vmid;
    RoundTrip(a);
    RoundTrip(b);
    assert trace[j].thread != trace[k].thread;
    assert trace[j].call.command.args[1] == Itoa(a) && trace[k].call.command.args[1] == Itoa(b);
  }

  /** And every thread that goes on gets there: it looks its guest up, and if that listing shows the guest running
      on this node its command follows. */
  lemma EveryThreadActs(f: Force, trace: seq<ThreadCall>, i: nat)
    requires AllDone(f, trace) && i < |f.targets| && !f.late(i) && f.refusal.None? && 100 <= f.targets[i].vmid <= 999_999_999
    ensures var own := Own(trace, i);
      && |own| > 0 && own[0].Listed?
      && (ShowsRunning(TargetOf(f, i), own[0]) ==>
            |own| > 1 && own[1].Ran?
            && own[1].command == Command(if Found(TargetOf(f, i), own[0]).value.guestType == Lxc then "pct" else "qm",
                                         ["stop", Itoa(f.targets[i].vmid)]))
  {
    assert ThreadDone(f, trace, i);
    CourseIsSafe(TargetOf(f, i), Own(trace, i));
  }

  // ----- the verdict -----

  datatype ForceError = OutOfTime | ReadFailed(error: Error) | GuestFailed(error: Error) | StillUp

  function AsFailure(error: Option<Error>): Option<ForceError> {
    if error.None? then None else Some(GuestFailed(error.value))
  }

  predicate ThreadDone(f: Force, trace: seq<ThreadCall>, thread: nat)
    requires thread < |f.targets|
  {
    && OnCourse(f, trace, thread)
    && (Silent(f, thread) || After(TargetOf(f, thread), Own(trace, thread)).value.Done?)
  }

  function ThreadError(f: Force, trace: seq<ThreadCall>, thread: nat): Option<ForceError>
    requires thread < |f.targets| && ThreadDone(f, trace, thread)
  {
    if f.late(thread) then Some(OutOfTime)
    else if f.refusal.Some? then AsFailure(f.refusal)
    else AsFailure(After(TargetOf(f, thread), Own(trace, thread)).value.error)
  }

  ghost predicate AllDone(f: Force, trace: seq<ThreadCall>) {
    Interleaving(f, trace) && forall i: nat :: i < |f.targets| ==> ThreadDone(f, trace, i)
  }

  ghost predicate NoThreadFailed(f: Force, trace: seq<ThreadCall>)
    requires AllDone(f, trace)
  {
    forall i: nat :: i < |f.targets| ==> ThreadDone(f, trace, i) && ThreadError(f, trace, i).None?
  }

  /** Under every interleaving, a thread that ends without an error last saw its guest stopped on this node, and
      either its own command was accepted before that or the guest had stopped already. */
  lemma SuccessMeansStopped(f: Force, trace: seq<ThreadCall>, i: nat)
    requires AllDone(f, trace) && i < |f.targets| && ThreadDone(f, trace, i) && ThreadError(f, trace, i).None?
    ensures !f.late(i) && f.refusal.None?
    ensures var calls := Own(trace, i);
      || (|calls| == 4 && calls[1].Ran? && calls[1].ok && ShowsStopped(TargetOf(f, i), calls[2]))
      || (|calls| == 2 && ShowsStopped(TargetOf(f, i), calls[0]))
  {
    CourseIsSafe(TargetOf(f, i), Own(trace, i));
  }

  /** The verdict depends on what each thread saw and did, not on the order in which the threads went. */
  lemma VerdictIgnoresOrder(f: Force, a: seq<ThreadCall>, b: seq<ThreadCall>)
    requires AllDone(f, a) && AllDone(f, b)
    requires forall i: nat :: i < |f.targets| ==> Own(a, i) == Own(b, i)
    ensures NoThreadFailed(f, a) <==> NoThreadFailed(f, b)
  {
    forall i: nat | i < |f.targets| ensures ThreadError(f, a, i) == ThreadError(f, b, i) {
      assert ThreadDone(f, a, i) && ThreadDone(f, b, i);
      assert Own(a, i) == Own(b, i);
    }
  }

  function Calls(threads: seq<ThreadCall>): seq<Call> {
    seq(|threads|, k requires 0 <= k < |threads| => threads[k].call)
  }

  /** A whole force-stop: the listing at the start and the one at the end, if they were made, and the threads'
      calls in between. */
  datatype ForceRun = ForceRun(f: Force, threads: seq<ThreadCall>, first: seq<Call>, last: seq<Call>)

  function AllCalls(r: ForceRun): seq<Call> {
    r.first + Calls(r.threads) + r.last
  }

  function Listing(calls: seq<Call>): Option<seq<Guest>> {
    if calls != [] && calls[0].Listed? then calls[0].answer else None
  }

  ghost predicate Legal(r: ForceRun) {
    && AllDone(r.f, r.threads) && |r.first| <= 1 && |r.last| <= 1
    && (r.first != [] ==> r.first[0].Listed?) && (r.last != [] ==> r.last[0].Listed?)
    && r.f.targets == if Listing(r.first).Some? then Remaining(Listing(r.first).value) else []
  }

  /** A force-stop with time to begin looks at the guests if the executor can, and looks again if it saw them, no
      thread failed and there is time. */
  ghost predicate GoesOn(r: ForceRun, invalid: Option<Error>, verifyLate: bool) {
    && AllDone(r.f, r.threads)
    && (r.first == [] <==> invalid.Some?)
    && (r.last != [] <==> Listing(r.first).Some? && NoThreadFailed(r.f, r.threads) && !verifyLate)
  }

  ghost predicate Succeeds(r: ForceRun) {
    && AllDone(r.f, r.threads) && NoThreadFailed(r.f, r.threads)
    && Listing(r.first).Some? && Listing(r.last).Some? && AllGuestsStopped(Listing(r.last).value)
  }

  /** The calls of a force-stop are safe, and none of them stops the whole node or powers the host off. */
  lemma ForceCallsAreSafe(r: ForceRun)
    requires Legal(r)
    ensures Safe(AllCalls(r))
    ensures forall i :: 0 <= i < |AllCalls(r)| && AllCalls(r)[i].Ran? ==>
      AllCalls(r)[i].command.name == "qm" || AllCalls(r)[i].command.name == "pct"
  {
    var calls := AllCalls(r);
    forall i: nat | i < |calls| && calls[i].Ran?
      ensures Allowed(calls[i].command) && (calls[i].command.name == "qm" || calls[i].command.name == "pct")
    {
      var k := i - |r.first|;
      assert 0 <= k < |r.threads| && calls[i] == Calls(r.threads)[k];
      OnlyRemainingAreForced(r.f, r.threads, k);
    }
    forall i: nat | i < |calls| ensures SafeAt(calls, i) {}
  }

  // A force-stop that made no call.
  const NO_FORCE := ForceRun(Force([], "", 0, i => false, Some(NotConfigured)), [], [], [])

  lemma NoForceIsLegal()
    ensures Legal(NO_FORCE)
  {}

  // ----- running the threads -----

  lemma OwnNext(trace: seq<ThreadCall>, t: ThreadCall, i: nat)
    ensures Own(trace + [t], i) == if t.thread == i then Own(trace, i) + [t.call] else Own(trace, i)
  {
    assert (trace + [t])[..|trace|] == trace;
  }

  // How many more calls a phase can lead to.
  function Rank(p: Phase): nat {
    match p
    case Find => 4
    case Order(_) => 3
    case Check => 2
    case Count => 1
    case Recount => 1
    case Done(_) => 0
  }

  function Ranks(phases: seq<Phase>): nat {
    if phases == [] then 0 else Rank(phases[0]) + Ranks(phases[1..])
  }

  lemma {:induction false} RanksFall(phases: seq<Phase>, i: nat, p: Phase)
    requires i < |phases| && Rank(p) < Rank(phases[i])
    ensures Ranks(phases[i := p]) < Ranks(phases)
  {
    if i == 0 {
      assert phases[0 := p][1..] == phases[1..];
    } else {
      assert phases[i := p][1..] == phases[1..][i - 1 := p];
      RanksFall(phases[1..], i - 1, p);
    }
  }

  lemma AdvanceFalls(t: Target, phases: seq<Phase>, i: nat, call: Call)
    requires i < |phases| && Expects(t, phases[i], call)
    ensures Ranks(phases[i := Advance(t, phases[i], call)]) < Ranks(phases)
  {
    RanksFall(phases, i, Advance(t, phases[i], call));
  }

  /** The next call of a thread. */
  method MakeCall(host: Host, t: Target, p: Phase) returns (call: Call)
    requires TimeoutInRange(t.timeout) && VmidInRange(t.vmid) && !p.Done?
    modifies host
    ensures Expects(t, p, call) && host.trace == old(host.trace) + [call]
  {
    if p.Order? {
      CommandsAllowed(p.guest, t.vmid, t.graceful, t.timeout);
      var command := GuestCommand(p.guest, t.vmid, t.graceful, t.timeout);
      var ok := host.Run(command);
      return Ran(command, ok);
    }
    var answer := host.ListGuests();
    return Listed(answer);
  }

  lemma CallsNext(threads: seq<ThreadCall>, t: ThreadCall)
    ensures Calls(threads + [t]) == Calls(threads) + [t.call]
  {}

  // Where every thread stands.
  ghost predicate StandAt(f: Force, threads: seq<ThreadCall>, phases: seq<Phase>) {
    && |phases| == |f.targets| && (f.refusal.None? ==> TimeoutInRange(f.timeout))
    && (forall k :: 0 <= k < |threads| ==> threads[k].thread < |f.targets|)
    && (forall i: nat :: i < |f.targets| ==> StandsAt(f, threads, i, phases[i]))
  }

  ghost predicate StandsAt(f: Force, threads: seq<ThreadCall>, i: nat, p: Phase)
    requires i < |f.targets|
  {
    && (!p.Done? ==> VmidInRange(f.targets[i].vmid))
    && (if Silent(f, i) then p.Done? && Own(threads, i) == [] else After(TargetOf(f, i), Own(threads, i)) == Some(p))
  }

  lemma NextStands(f: Force, threads: seq<ThreadCall>, phases: seq<Phase>, i: nat, call: Call)
    requires StandAt(f, threads, phases) && i < |phases| && !phases[i].Done?
    requires Expects(TargetOf(f, i), phases[i], call)
    ensures StandAt(f, threads + [ThreadCall(i, call)], phases[i := Advance(TargetOf(f, i), phases[i], call)])
  {
    var t, after := TargetOf(f, i), threads + [ThreadCall(i, call)];
    var moved := phases[i := Advance(t, phases[i], call)];
    assert StandsAt(f, threads, i, phases[i]);
    forall j: nat | j < |f.targets| ensures StandsAt(f, after, j, moved[j]) {
      assert StandsAt(f, threads, j, phases[j]);
      OwnNext(threads, ThreadCall(i, call), j);
      if j == i {
        AfterNext(t, Own(threads, i), call);
      }
    }
  }

  lemma NoneStarted(f: Force, phases: seq<Phase>)
    requires |phases| == |f.targets| && (f.refusal.None? ==> TimeoutInRange(f.timeout))
    requires forall i: nat :: i < |f.targets| ==> phases[i] == if Silent(f, i) then Done(None) else Start(TargetOf(f, i))
    ensures StandAt(f, [], phases)
  {
    forall i: nat | i < |f.targets| ensures StandsAt(f, [], i, phases[i]) {
      assert Own([], i) == [];
    }
  }

  /** All threads until they end, under an arbitrary schedule: any thread that has not ended may make the next call. */
  method RunThreads(e: Executor, guests: seq<Guest>, late: nat -> bool) returns (phases: seq<Phase>, ghost threads: seq<ThreadCall>)
    modifies e.host
    ensures e.host.trace == old(e.host.trace) + Calls(threads)
    ensures var f := Force(guests, e.node, e.shutdownTimeout, late, e.Refusal());
      StandAt(f, threads, phases) && AllDone(f, threads) && forall p :: p in phases ==> p.Done?
  {
    ghost var f := Force(guests, e.node, e.shutdownTimeout, late, e.Refusal());
    var node, timeout, refused := e.node, e.shutdownTimeout, e.Refusal().Some?;
    phases := seq(|guests|, i requires 0 <= i < |guests| =>
      if late(i) || refused then Done(None) else Start(Target(guests[i].vmid, node, false, timeout)));
    threads := [];
    NoneStarted(f, phases);
    while exists i :: 0 <= i < |phases| && !phases[i].Done?
      invariant f == Force(guests, e.node, e.shutdownTimeout, late, e.Refusal())
      invariant e.host.trace == old(e.host.trace) + Calls(threads) && StandAt(f, threads, phases)
      decreases Ranks(phases)
    {
      var i: nat :| i < |phases| && !phases[i].Done?;
      assert StandsAt(f, threads, i, phases[i]);
      var t := Target(guests[i].vmid, node, false, timeout);
      var call := MakeCall(e.host, t, phases[i]);
      NextStands(f, threads, phases, i, call);
      AdvanceFalls(t, phases, i, call);
      CallsNext(threads, ThreadCall(i, call));
      threads := threads + [ThreadCall(i, call)];
      phases := phases[i := Advance(t, phases[i], call)];
    }
    AllHaveEnded(f, threads, phases);
  }

  lemma AllHaveEnded(f: Force, threads: seq<ThreadCall>, phases: seq<Phase>)
    requires StandAt(f, threads, phases) && forall i :: 0 <= i < |phases| ==> phases[i].Done?
    ensures AllDone(f, threads)
  {
    forall i: nat | i < |f.targets| ensures OnCourse(f, threads, i) && ThreadDone(f, threads, i) {
      assert StandsAt(f, threads, i, phases[i]);
    }
  }

  /** Runs the threads and collects the errors; which of several is reported is left open. */
  method ForceAll(e: Executor, guests: seq<Guest>, late: nat -> bool)
    returns (error: Option<ForceError>, ghost threads: seq<ThreadCall>)
    modifies e.host
    ensures e.host.trace == old(e.host.trace) + Calls(threads)
    ensures var f := Force(guests, e.node, e.shutdownTimeout, late, e.Refusal());
      && AllDone(f, threads)
      && (error.None? <==> NoThreadFailed(f, threads))
      && (error.Some? ==> exists i: nat :: i < |guests| && ThreadDone(f, threads, i) && ThreadError(f, threads, i) == error)
  {
    ghost var f := Force(guests, e.node, e.shutdownTimeout, late, e.Refusal());
    var phases;
    phases, threads := RunThreads(e, guests, late);
    var refusal := e.Refusal();
    error := None;
    for i := 0 to |guests|
      invariant error.None? <==> forall k: nat :: k < i ==> ThreadDone(f, threads, k) && ThreadError(f, threads, k).None?
      invariant error.Some? ==> exists k: nat :: k < |guests| && ThreadDone(f, threads, k) && ThreadError(f, threads, k) == error
    {
      assert ThreadDone(f, threads, i) && StandsAt(f, threads, i, phases[i]) && phases[i] in phases;
      var failure := if late(i) then Some(OutOfTime) else if refusal.Some? then AsFailure(refusal) else AsFailure(phases[i].error);
      assert failure == ThreadError(f, threads, i);
      if failure.Some? {
        var replace: bool := *;
        error := if error.None? || replace then failure else error;
      }
    }
  }

  /** Forces the remaining guests, under any schedule of the threads. It succeeds exactly when there was time to
      look, no thread failed, and a listing taken after all threads shows every guest stopped. */
  method ForceStopRemaining(e: Executor, statusLate: bool, late: nat -> bool, verifyLate: bool)
    returns (error: Option<ForceError>, ghost r: ForceRun)
    modifies e.host
    ensures e.host.trace == old(e.host.trace) + AllCalls(r)
    ensures Legal(r) && r.f == Force(r.f.targets, e.node, e.shutdownTimeout, late, e.Refusal())
    ensures error.None? <==> Succeeds(r)
    ensures statusLate ==> error == Some(OutOfTime) && AllCalls(r) == []
    ensures !statusLate ==> GoesOn(r, e.Invalid(), verifyLate)
    ensures !statusLate && Listing(r.first).Some? && NoThreadFailed(r.f, r.threads) && verifyLate ==> error == Some(OutOfTime)
    ensures error == Some(StillUp) <==> Listing(r.last).Some? && !AllGuestsStopped(Listing(r.last).value)
  {
    r := ForceRun(Force([], e.node, e.shutdownTimeout, late, e.Refusal()), [], [], []);
    if statusLate {
      return Some(OutOfTime), r;
    }
    var status := e.Status();
    r := r.(first := if e.Invalid().Some? then [] else [Listed(if status.Ok? then Some(status.value) else None)]);
    if status.Err? {
      return Some(ReadFailed(status.error)), r;
    }
    var guests := RemainingOf(status.value);
    ghost var threads;
    error, threads := ForceAll(e, guests, late);
    r := r.(f := r.f.(targets := guests), threads := threads);
    if error.Some? {
      return;
    }
    if verifyLate {
      error := Some(OutOfTime);
      return;
    }
    var verified := e.Status();
    r := r.(last := [Listed(if verified.Ok? then Some(verified.value) else None)]);
    if verified.Err? {
      error := Some(ReadFailed(verified.error));
      return;
    }
    if !AllGuestsStopped(verified.value) {
      error := Some(StillUp);
    }
  }

  method RemainingOf(status: seq<Guest>) returns (guests: seq<Guest>)
    ensures guests == Remaining(status)
  {
    guests := [];
    for i := 0 to |status|
      invariant guests == Remaining(status[..i])
    {
      assert status[..i + 1][..i] == status[..i];
      if !status[i].template && status[i].status != "stopped" {
        guests := guests + [status[i]];
      }
    }
    assert status[..|status|] == status;
  }
}
