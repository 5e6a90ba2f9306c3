/** The power commands of a PVE node: which are ever issued, and what must be seen before and after them. */
module PveExec {
  import opened Common
  import opened Decimal
  import opened PveReader

  // ----- the allowlist -----

  datatype Command = Command(name: string, args: seq<string>)

  const POWEROFF := Command("systemctl", ["poweroff"])

  predicate ValidVmid(raw: string) {
    Atoi(raw).Some? && 100 <= Atoi(raw).value <= 999_999_999
  }

  predicate ValidTimeout(raw: string) {
    Atoi(raw).Some? && 1 <= Atoi(raw).value <= 3600
  }

  predicate Allowed(c: Command) {
    var a := c.args;
    if c.name == "pvenode" then |a| == 5 && a[..4] == ["stopall", "--force-stop", "0", "--timeout"] && ValidTimeout(a[4])
    else if c.name == "qm" || c.name == "pct" then
      || (|a| == 4 && a[0] == "shutdown" && ValidVmid(a[1]) && a[2] == "--timeout" && ValidTimeout(a[3]))
      || (|a| == 2 && a[0] == "stop" && ValidVmid(a[1]))
    else c.name == "systemctl" && a == ["poweroff"]
  }

  // ----- the commands -----

  function TimeoutSeconds(timeout: int): int
    requires timeout >= 0
  {
    CeilDiv(timeout, SECOND)
  }

  function StopAllCommand(timeout: int): Command
    requires SECOND <= timeout
  {
    Command("pvenode", ["stopall", "--force-stop", "0", "--timeout", Itoa(TimeoutSeconds(timeout))])
  }

  function GuestCommand(g: Guest, vmid: int, graceful: bool, timeout: int): Command
    requires SECOND <= timeout && VmidInRange(vmid)
  {
    Command(if g.guestType == Lxc then "pct" else "qm",
            if graceful then ["shutdown", Itoa(vmid), "--timeout", Itoa(TimeoutSeconds(timeout))]
            else ["stop", Itoa(vmid)])
  }

  predicate TimeoutInRange(timeout: int) {
    SECOND <= timeout <= 3600 * SECOND
  }

  predicate VmidInRange(vmid: int) {
    100 <= vmid <= 999_999_999
  }

  lemma TimeoutIsValid(timeout: int)
    requires TimeoutInRange(timeout)
    ensures ValidTimeout(Itoa(TimeoutSeconds(timeout)))
    ensures (TimeoutSeconds(timeout) - 1) * 1_000_000_000 < timeout <= TimeoutSeconds(timeout) * 1_000_000_000
  {
    CeilDivIsLeast(timeout, SECOND, 0);
    CeilDivIsLeast(timeout, SECOND, 3600);
    RoundTrip(TimeoutSeconds(timeout));
  }

  /** Every command that can be composed is one the allowlist accepts. */
  lemma CommandsAllowed(g: Guest, vmid: int, graceful: bool, timeout: int)
    requires TimeoutInRange(timeout) && VmidInRange(vmid)
    ensures Allowed(StopAllCommand(timeout)) && Allowed(POWEROFF)
    ensures Allowed(GuestCommand(g, vmid, graceful, timeout))
  {
    TimeoutIsValid(timeout);
    RoundTrip(vmid);
  }

  /** The commands word by word: the program is that of the guest's kind, the numbers read back as the guest's own
      and as the least number of seconds that is long enough. */
  lemma CommandsInFull(g: Guest, vmid: int, timeout: int)
    requires TimeoutInRange(timeout) && VmidInRange(vmid)
    ensures var shutdown := GuestCommand(g, vmid, true, timeout);
      && shutdown.name == (if g.guestType == Lxc then "pct" else "qm")
      && |shutdown.args| == 4 && shutdown.args[0] == "shutdown" && Atoi(shutdown.args[1]) == Some(vmid)
      && shutdown.args[2] == "--timeout" && InSeconds(timeout, Atoi(shutdown.args[3]))
    ensures var stop := GuestCommand(g, vmid, false, timeout);
      && stop.name == (if g.guestType == Lxc then "pct" else "qm")
      && |stop.args| == 2 && stop.args[0] == "stop" && Atoi(stop.args[1]) == Some(vmid)
    ensures var all := StopAllCommand(timeout);
      && all.name == "pvenode" && |all.args| == 5 && all.args[..4] == ["stopall", "--force-stop", "0", "--timeout"]
      && InSeconds(timeout, Atoi(all.args[4]))
  {
    TimeoutIsValid(timeout);
    RoundTrip(TimeoutSeconds(timeout));
    RoundTrip(vmid);
  }

  predicate InSeconds(timeout: int, seconds: Option<int>) {
    seconds.Some? && (seconds.value - 1) * 1_000_000_000 < timeout <= seconds.value * 1_000_000_000
  }

  /** What the allowlist lets through: the host's poweroff, the node-wide stop that never forces, and the shutdown or
      the stop of one guest with a number of three to nine digits; timeouts up to an hour. */
  lemma AllowlistInFull(c: Command)
    ensures Allowed(c) <==>
      || c == Command("systemctl", ["poweroff"])
      || (exists t: string, n: int :: c == Command("pvenode", ["stopall", "--force-stop", "0", "--timeout", t]) && Atoi(t) == Some(n) && 1 <= n <= 3600)
      || ((c.name == "qm" || c.name == "pct")
          && ((exists v: string, n: int :: c.args == ["stop", v] && Atoi(v) == Some(n) && 100 <= n <= 999_999_999)
              || (exists v: string, n: int, t: string, m: int :: c.args == ["shutdown", v, "--timeout", t]
                    && Atoi(v) == Some(n) && 100 <= n <= 999_999_999 && Atoi(t) == Some(m) && 1 <= m <= 3600)))
  {
    var a := c.args;
    if Allowed(c) {
      if c.name == "pvenode" {
        assert a == ["stopall", "--force-stop", "0", "--timeout", a[4]] && Atoi(a[4]) == Some(Atoi(a[4]).value);
      } else if c.name == "qm" || c.name == "pct" {
        if |a| == 4 {
          assert a == ["shutdown", a[1], "--timeout", a[3]] && Atoi(a[1]) == Some(Atoi(a[1]).value) && Atoi(a[3]) == Some(Atoi(a[3]).value);
        } else {
          assert a == ["stop", a[1]] && Atoi(a[1]) == Some(Atoi(a[1]).value);
        }
      }
    }
  }

  // ----- looking a guest up -----

  datatype Error =
    | NotConfigured
    | TimeoutRange
    | NoLocalNode
    | OtherHost
    | InvalidVmid
    | ListFailed
    | IsTemplate
    | OtherNode
    | NotFound
    | CommandFailed
    | StillRunning
    | Blocked

  /** The first guest with the number decides. */
  function Lookup(guests: seq<Guest>, vmid: int, node: string): (r: Result<Guest, Error>)
    ensures r.Err? ==> r.error in {NotFound, IsTemplate, OtherNode}
  {
    if guests == [] then Err(NotFound)
    else if guests[0].vmid != vmid then Lookup(guests[1..], vmid, node)
    else if guests[0].template then Err(IsTemplate)
    else if guests[0].node != "" && guests[0].node != node then Err(OtherNode)
    else Ok(guests[0])
  }

  lemma {:induction false} LookupFinds(guests: seq<Guest>, vmid: int, node: string)
    ensures Lookup(guests, vmid, node) == Err(NotFound) <==> forall g :: g in guests ==> g.vmid != vmid
    ensures Lookup(guests, vmid, node).Ok? ==>
      var g := Lookup(guests, vmid, node).value;
      g in guests && g.vmid == vmid && !g.template && (g.node == "" || g.node == node)
  {
    if guests != [] {
      LookupFinds(guests[1..], vmid, node);
      assert forall g :: g in guests <==> g == guests[0] || g in guests[1..];
    }
  }

  /** The first guest with the number decides, and how. */
  lemma {:induction false} FirstDecides(guests: seq<Guest>, vmid: int, node: string, i: nat)
    requires i < |guests| && guests[i].vmid == vmid && forall k :: 0 <= k < i ==> guests[k].vmid != vmid
    ensures Lookup(guests, vmid, node) ==
      if guests[i].template then Err(IsTemplate)
      else if guests[i].node != "" && guests[i].node != node then Err(OtherNode)
      else Ok(guests[i])
  {
    if i > 0 {
      FirstDecides(guests[1..], vmid, node, i - 1);
    }
  }

  // ----- one action on a guest, call by call -----

  // What the node was asked, with its answer.
  datatype Call = Listed(answer: Option<seq<Guest>>) | Ran(command: Command, ok: bool)

  datatype Target = Target(vmid: int, node: string, graceful: bool, timeout: int)

  // Looking the guest up; about to stop it; looking again; counting the others; the same for a guest that was
  // already stopped; finished.
  datatype Phase = Find | Order(guest: Guest) | Check | Count | Recount | Done(error: Option<Error>)

  function Start(t: Target): Phase {
    if VmidInRange(t.vmid) then Find else Done(Some(InvalidVmid))
  }

  predicate Expects(t: Target, p: Phase, c: Call) {
    match p
    case Order(g) => TimeoutInRange(t.timeout) && VmidInRange(t.vmid) && c.Ran? && c.command == GuestCommand(g, t.vmid, t.graceful, t.timeout)
    case Done(_) => false
    case _ => c.Listed?
  }

  function Found(t: Target, c: Call): Result<Guest, Error>
    requires c.Listed?
  {
    if c.answer.None? then Err(ListFailed) else Lookup(c.answer.value, t.vmid, t.node)
  }

  function Advance(t: Target, p: Phase, c: Call): Phase
    requires Expects(t, p, c)
  {
    match p
    case Find =>
      var found := Found(t, c);
      if found.Err? then Done(Some(found.error)) else if found.value.Stopped() then Recount else Order(found.value)
    case Order(_) => if c.ok then Check else Done(Some(CommandFailed))
    case Check =>
      var found := Found(t, c);
      if found.Err? then Done(Some(found.error)) else if found.value.Stopped() then Count else Done(Some(StillRunning))
    case Count => Done(if c.answer.None? then Some(ListFailed) else None)
    case Recount => Done(None)
  }

  /** The phase after these calls, if they are a course that the action can take. */
  function After(t: Target, calls: seq<Call>): Option<Phase> {
    if calls == [] then Some(Start(t))
    else
      var before, last := After(t, calls[..|calls| - 1]), calls[|calls| - 1];
      if before.Some? && Expects(t, before.value, last) then Some(Advance(t, before.value, last)) else None
  }

  lemma AfterNext(t: Target, calls: seq<Call>, c: Call)
    requires After(t, calls).Some? && Expects(t, After(t, calls).value, c)
    ensures After(t, calls + [c]) == Some(Advance(t, After(t, calls).value, c))
  {
    assert (calls + [c])[..|calls|] == calls;
  }

  predicate ShowsStopped(t: Target, c: Call) {
    c.Listed? && Found(t, c).Ok? && Found(t, c).value.Stopped()
  }

  predicate ShowsRunning(t: Target, c: Call) {
    c.Listed? && Found(t, c).Ok? && !Found(t, c).value.Stopped()
  }

  /** The guest was running and its command was given: what its kind and the action ask for. */
  predicate Ordered(t: Target, calls: seq<Call>) {
    && |calls| >= 2 && TimeoutInRange(t.timeout) && VmidInRange(t.vmid) && ShowsRunning(t, calls[0])
    && calls[1].Ran? && calls[1].command == GuestCommand(Found(t, calls[0]).value, t.vmid, t.graceful, t.timeout)
  }

  /** The calls that lead to each phase. An action ends with a bad number; no listing or no such guest; stopped
      already, whatever the second listing brings; a refused command; or lost, still running or stopped after the
      command, where it fails only if the last listing does. Other guests never matter. */
  predicate Course(t: Target, calls: seq<Call>, p: Phase) {
    match p
    case Find => |calls| == 0 && VmidInRange(t.vmid)
    case Order(g) => |calls| == 1 && VmidInRange(t.vmid) && ShowsRunning(t, calls[0]) && g == Found(t, calls[0]).value
    case Check => |calls| == 2 && Ordered(t, calls) && calls[1].ok
    case Count => |calls| == 3 && Ordered(t, calls) && calls[1].ok && ShowsStopped(t, calls[2])
    case Recount => |calls| == 1 && VmidInRange(t.vmid) && ShowsStopped(t, calls[0])
    case Done(error) => EndsAs(t, calls, error)
  }

  predicate EndsAs(t: Target, calls: seq<Call>, error: Option<Error>) {
    if |calls| == 0 then !VmidInRange(t.vmid) && error == Some(InvalidVmid)
    else if |calls| == 1 then
      VmidInRange(t.vmid) && calls[0].Listed? && Found(t, calls[0]).Err? && error == Some(Found(t, calls[0]).error)
    else if |calls| == 2 then
      || (VmidInRange(t.vmid) && ShowsStopped(t, calls[0]) && calls[1].Listed? && error == None)
      || (Ordered(t, calls) && !calls[1].ok && error == Some(CommandFailed))
    else if |calls| == 3 then
      && Ordered(t, calls) && calls[1].ok && calls[2].Listed? && !ShowsStopped(t, calls[2])
      && error == Some(if Found(t, calls[2]).Err? then Found(t, calls[2]).error else StillRunning)
    else
      && |calls| == 4 && Ordered(t, calls) && calls[1].ok && ShowsStopped(t, calls[2]) && calls[3].Listed?
      && error == (if calls[3].answer.None? then Some(ListFailed) else None)
  }

  lemma CourseNext(t: Target, before: seq<Call>, p: Phase, c: Call)
    requires Course(t, before, p) && Expects(t, p, c)
    ensures Course(t, before + [c], Advance(t, p, c))
  {}

  lemma CourseBack(t: Target, before: seq<Call>, c: Call, p: Phase) returns (q: Phase)
    requires TimeoutInRange(t.timeout) && Course(t, before + [c], p)
    ensures Course(t, before, q) && Expects(t, q, c) && Advance(t, q, c) == p
  {
    var calls := before + [c];
    assert forall i :: 0 <= i < |before| ==> before[i] == calls[i];
    assert calls[|before|] == c;
    if |before| == 0 {
      q := Find;
    } else if |before| == 1 {
      q := if ShowsStopped(t, calls[0]) then Recount else Order(Found(t, calls[0]).value);
    } else if |before| == 2 {
      q := Check;
    } else {
      q := Count;
    }
  }

  lemma {:induction false} LeadsOnCourse(t: Target, calls: seq<Call>)
    requires After(t, calls).Some?
    ensures Course(t, calls, After(t, calls).value)
  {
    if calls != [] {
      var before, last := calls[..|calls| - 1], calls[|calls| - 1];
      LeadsOnCourse(t, before);
      CourseNext(t, before, After(t, before).value, last);
      assert calls == before + [last];
    }
  }

  lemma {:induction false} CourseLeads(t: Target, calls: seq<Call>, p: Phase)
    requires TimeoutInRange(t.timeout) && Course(t, calls, p)
    ensures After(t, calls) == Some(p)
  {
    if calls != [] {
      var before, last := calls[..|calls| - 1], calls[|calls| - 1];
      assert calls == before + [last];
      var q := CourseBack(t, before, last, p);
      CourseLeads(t, before, q);
      AfterNext(t, before, last);
    }
  }

  /** The calls of an action are a course to a phase iff they are this one. */
  lemma CourseIsExact(t: Target, calls: seq<Call>, p: Phase)
    requires TimeoutInRange(t.timeout)
    ensures After(t, calls) == Some(p) <==> Course(t, calls, p)
  {
    if After(t, calls) == Some(p) {
      LeadsOnCourse(t, calls);
    }
    if Course(t, calls, p) {
      CourseLeads(t, calls, p);
    }
  }

  /** The command, word by word: the program of the guest's kind, its number, and for a shutdown the timeout in the
      least number of seconds that is long enough. */
  predicate StopsGuest(t: Target, g: Guest, c: Command) {
    && c.name == (if g.guestType == Lxc then "pct" else "qm") && 100 <= t.vmid <= 999_999_999
    && if t.graceful then |c.args| == 4 && c.args == ["shutdown", Itoa(t.vmid), "--timeout", c.args[3]] && InSeconds(t.timeout, Atoi(c.args[3]))
       else c.args == ["stop", Itoa(t.vmid)]
  }

  lemma OrderStopsGuest(t: Target, g: Guest)
    requires TimeoutInRange(t.timeout) && VmidInRange(t.vmid)
    ensures var c := GuestCommand(g, t.vmid, t.graceful, t.timeout); StopsGuest(t, g, c) && Allowed(c)
  {
    CommandsAllowed(g, t.vmid, t.graceful, t.timeout);
    CommandsInFull(g, t.vmid, t.timeout);
  }

  /** What any course of an action guarantees: only one call can be a command, the second one; it is on the allowlist,
      stops this guest with the program for its kind, and is given only when the listing just taken shows the guest
      running on this node; and the action succeeds only on a listing that shows the guest stopped. */
  lemma CourseIsSafe(t: Target, calls: seq<Call>)
    requires TimeoutInRange(t.timeout) && After(t, calls).Some?
    ensures Course(t, calls, After(t, calls).value)
    ensures forall i :: 0 <= i < |calls| && calls[i].Ran? ==>
      i == 1 && ShowsRunning(t, calls[0]) && StopsGuest(t, Found(t, calls[0]).value, calls[i].command) && Allowed(calls[i].command)
  {
    LeadsOnCourse(t, calls);
    if |calls| > 1 && calls[1].Ran? {
      OrderStopsGuest(t, Found(t, calls[0]).value);
    }
  }

  // ----- whole runs of actions -----

  datatype Operation =
    | Look(answer: Option<seq<Guest>>)
    | Stop(target: Target, calls: seq<Call>)
    | All(timeout: int, ok: bool, after: Option<seq<Guest>>)
    | Off(before: Option<seq<Guest>>, ok: bool)

  // The courses that the executor's methods can take.
  predicate Performed(o: Operation) {
    match o
    case Look(_) => true
    case Stop(t, calls) => TimeoutInRange(t.timeout) && After(t, calls).Some?
    case All(timeout, _, _) => TimeoutInRange(timeout)
    case Off(_, _) => true
  }

  function CallsOf(o: Operation): seq<Call>
    requires Performed(o)
  {
    match o
    case Look(answer) => [Listed(answer)]
    case Stop(_, calls) => calls
    case All(timeout, ok, after) => [Ran(StopAllCommand(timeout), ok)] + (if ok then [Listed(after)] else [])
    case Off(before, ok) =>
      [Listed(before)] + (if before.Some? && AllGuestsStopped(before.value) then [Ran(POWEROFF, ok)] else [])
  }

  function Trace(run: seq<Operation>): seq<Call>
    requires forall o :: o in run ==> Performed(o)
  {
    if run == [] then [] else Trace(run[..|run| - 1]) + CallsOf(run[|run| - 1])
  }

  predicate ShowsAllStopped(c: Call) {
    c.Listed? && c.answer.Some? && AllGuestsStopped(c.answer.value)
  }

  /** A listing that shows every guest stopped, templates apart. */
  predicate StoppedInFull(c: Call) {
    c.Listed? && c.answer.Some? && forall g :: g in c.answer.value ==> g.template || g.status == "stopped"
  }

  // A command is on the allowlist, and a poweroff directly follows a listing with all guests stopped.
  predicate SafeAt(trace: seq<Call>, i: nat)
    requires i < |trace|
  {
    trace[i].Ran? ==>
      && Allowed(trace[i].command)
      && (trace[i].command == POWEROFF ==> i > 0 && ShowsAllStopped(trace[i - 1]))
  }

  ghost predicate Safe(trace: seq<Call>) {
    forall i: nat :: i < |trace| ==> SafeAt(trace, i)
  }

  lemma OperationIsSafe(o: Operation)
    requires Performed(o)
    ensures Safe(CallsOf(o))
  {
    match o
    case Look(_) =>
    case Stop(t, calls) => CourseIsSafe(t, calls);
    case All(timeout, _, _) => CommandsAllowed(Guest(100, Vm, "", "", false), 100, true, timeout);
    case Off(_, _) => assert Allowed(POWEROFF);
  }

  lemma SafeJoins(a: seq<Call>, b: seq<Call>)
    requires Safe(a) && Safe(b)
    ensures Safe(a + b)
  {
    forall i: nat | i < |a + b| ensures SafeAt(a + b, i) {
      if i < |a| {
        assert SafeAt(a, i);
      } else {
        assert SafeAt(b, i - |a|);
      }
    }
  }

  /** No run of listings, guest stops, whole-node stops and poweroffs ever issues another command, or a poweroff
      without having just seen every guest stopped. */
  lemma {:induction false} EveryRunIsSafe(run: seq<Operation>)
    requires forall o :: o in run ==> Performed(o)
    ensures Safe(Trace(run))
  {
    if run != [] {
      var before, last := run[..|run| - 1], run[|run| - 1];
      EveryRunIsSafe(before);
      OperationIsSafe(last);
      SafeJoins(Trace(before), CallsOf(last));
    }
  }

  /** So any command to power the host off stands directly after such a listing. */
  lemma PoweroffNeedsAllStopped(run: seq<Operation>, i: nat)
    requires (forall o :: o in run ==> Performed(o)) && i < |Trace(run)|
    requires Trace(run)[i].Ran? && Trace(run)[i].command.name == "systemctl"
    ensures Trace(run)[i].command.args == ["poweroff"] && i > 0 && StoppedInFull(Trace(run)[i - 1])
  {
    EveryRunIsSafe(run);
    assert SafeAt(Trace(run), i);
  }

  // ----- the node and its executor -----

  /** The node answers as it likes; every question and answer is kept. */
  class Host {
    var trace: seq<Call>

    constructor ()
      ensures trace == []
    {
      trace := [];
    }

    method ListGuests() returns (answer: Option<seq<Guest>>)
      modifies this
      ensures trace == old(trace) + [Listed(answer)]
    {
      answer := *;
      trace := trace + [Listed(answer)];
    }

    /** Only commands on the allowlist reach the node. */
    method Run(c: Command) returns (ok: bool)
      modifies this
      ensures Allowed(c) ==> trace == old(trace) + [Ran(c, ok)]
      ensures !Allowed(c) ==> !ok && trace == old(trace)
    {
      if !Allowed(c) {
        return false;
      }
      ok := *;
      trace := trace + [Ran(c, ok)];
    }
  }

  function Lower(s: string): string {
    seq(|s|, i requires 0 <= i < |s| => if 'A' <= s[i] <= 'Z' then (s[i] as int + 32) as char else s[i])
  }

  // The part before the first dot.
  function BeforeDot(s: string): string {
    if s == "" || s[0] == '.' then "" else [s[0]] + BeforeDot(s[1..])
  }

  /** Host names are compared by their short form, whatever the case; surrounding blanks are already cut. */
  function CanonicalNode(name: string): string {
    Lower(BeforeDot(name))
  }

  /** The host name up to its first dot, k, in lower case. */
  lemma {:induction false} CanonicalInFull(name: string, k: nat)
    requires k <= |name| && (forall i :: 0 <= i < k ==> name[i] != '.') && (k < |name| ==> name[k] == '.')
    ensures |CanonicalNode(name)| == k
    ensures forall i :: 0 <= i < k ==>
      var ch := CanonicalNode(name)[i];
      if 'A' <= name[i] <= 'Z' then 'a' <= ch <= 'z' && ch as int - 'a' as int == name[i] as int - 'A' as int else ch == name[i]
  {
    if k > 0 {
      CanonicalInFull(name[1..], k - 1);
      assert BeforeDot(name) == [name[0]] + BeforeDot(name[1..]);
      assert forall i :: 0 < i < k ==> CanonicalNode(name)[i] == CanonicalNode(name[1..])[i - 1];
    }
  }

  /** Domains never tell two hosts apart. */
  lemma DomainIsIgnored(host: string, domain: string)
    requires '.' !in host
    ensures CanonicalNode(host + "." + domain) == CanonicalNode(host)
  {
    var full := host + "." + domain;
    CanonicalInFull(full, |host|);
    CanonicalInFull(host, |host|);
    assert forall i :: 0 <= i < |host| ==> full[i] == host[i];
  }

  function InvalidFor(node: string, timeout: int): (r: Option<Error>)
    ensures r.None? <==> node != "" && 1_000_000_000 <= timeout <= 3600 * 1_000_000_000
    ensures r.Some? ==> r.value == if node == "" then NotConfigured else TimeoutRange
  {
    if node == "" then Some(NotConfigured)
    else if timeout < SECOND || timeout > 3600 * SECOND then Some(TimeoutRange)
    else None
  }

  /** Power commands are only given on the host that was confirmed. */
  function RefusalFor(node: string, localNode: string, timeout: int): (r: Option<Error>)
    ensures r.None? <==> node != "" && TimeoutInRange(timeout) && CanonicalNode(node) == CanonicalNode(localNode) != ""
    ensures r.Some? && node != "" && TimeoutInRange(timeout) ==>
      r.value == if CanonicalNode(localNode) == "" then NoLocalNode else OtherHost
  {
    if InvalidFor(node, timeout).Some? then InvalidFor(node, timeout)
    else if CanonicalNode(localNode) == "" then Some(NoLocalNode)
    else if CanonicalNode(node) != CanonicalNode(localNode) then Some(OtherHost)
    else None
  }

  datatype Report = Report(executed: bool, command: Option<Command>, guest: Option<Guest>, allStopped: bool)

  const NO_REPORT := Report(false, None, None, false)

  class Executor {
    const host: Host
    const node: string
    const localNode: string
    var shutdownTimeout: int

    constructor (host: Host, node: string, localNode: string, shutdownTimeout: int)
      ensures this.host == host && this.node == node && this.localNode == localNode
      ensures this.shutdownTimeout == shutdownTimeout
    {
      this.host, this.node, this.localNode, this.shutdownTimeout := host, node, localNode, shutdownTimeout;
    }

    method SetShutdownTimeout(timeout: int)
      modifies this
      ensures shutdownTimeout == timeout
    {
      shutdownTimeout := timeout;
    }

    function Invalid(): Option<Error>
      reads this
    {
      InvalidFor(node, shutdownTimeout)
    }

    function Refusal(): Option<Error>
      reads this
    {
      RefusalFor(node, localNode, shutdownTimeout)
    }

    method Status() returns (r: Result<seq<Guest>, Error>)
      modifies host
      ensures match Invalid()
        case Some(e) => r == Err(e) && host.trace == old(host.trace)
        case None =>
          |host.trace| == |old(host.trace)| + 1
          && host.trace == old(host.trace) + [Listed(if r.Ok? then Some(r.value) else None)]
          && (r.Err? ==> r.error == ListFailed)
    {
      if Invalid().Some? {
        return Err(Invalid().value);
      }
      var answer := host.ListGuests();
      r := if answer.None? then Err(ListFailed) else Ok(answer.value);
    }

    method FindGuest(vmid: int) returns (r: Result<Guest, Error>, ghost call: Call)
      modifies host
      ensures !VmidInRange(vmid) ==> r == Err(InvalidVmid) && host.trace == old(host.trace)
      ensures VmidInRange(vmid) ==> host.trace == old(host.trace) + [call] && call.Listed?
      ensures VmidInRange(vmid) ==>
        r == (if call.answer.None? then Err(ListFailed) else Lookup(call.answer.value, vmid, node))
    {
      call := Listed(None);
      if vmid < 100 || vmid > 999_999_999 {
        return Err(InvalidVmid), call;
      }
      var answer := host.ListGuests();
      call := Listed(answer);
      if answer.None? {
        return Err(ListFailed), call;
      }
      var guests := answer.value;
      for i := 0 to |guests|
        invariant Lookup(guests, vmid, node) == Lookup(guests[i..], vmid, node)
        invariant host.trace == old(host.trace) + [call]
      {
        assert guests[i..][1..] == guests[i + 1..];
        if guests[i].vmid == vmid {
          if guests[i].template {
            return Err(IsTemplate), call;
          }
          if guests[i].node != "" && guests[i].node != node {
            return Err(OtherNode), call;
          }
          return Ok(guests[i]), call;
        }
      }
      return Err(NotFound), call;
    }

    ghost function ToStop(vmid: int, graceful: bool): Target
      reads this
    {
      Target(vmid, node, graceful, shutdownTimeout)
    }

    /** Shuts a guest down, or stops it at once: `calls` is the course taken, and it ended with this error. */
    method StopGuest(vmid: int, graceful: bool) returns (report: Report, error: Option<Error>, ghost calls: seq<Call>)
      modifies host
      ensures host.trace == old(host.trace) + calls
      ensures Refusal().Some? ==> calls == [] && error == Refusal()
      ensures Refusal().None? ==> After(ToStop(vmid, graceful), calls) == Some(Done(error))
      ensures report.executed <==> |calls| > 1 && calls[1].Ran? && calls[1].ok
      ensures |calls| > 1 && calls[1].Ran? ==> report.command == Some(calls[1].command)
      ensures error.None? ==> report.guest.Some? && report.guest.value.Stopped()
      ensures error.None? && report.executed ==>
        |calls| == 4 && calls[3].Listed? && calls[3].answer.Some? && report.allStopped == AllGuestsStopped(calls[3].answer.value)
    {
      report, calls, error := NO_REPORT, [], Refusal();
      if error.Some? {
        return;
      }
      ghost var t := ToStop(vmid, graceful);
      var found, call := FindGuest(vmid);
      if VmidInRange(vmid) {
        calls := [call];
        AfterNext(t, [], call);
        assert After(t, calls) == Some(Advance(t, Find, call));
      }
      if found.Err? {
        return report, Some(found.error), calls;
      }
      var guest := found.value;
      report := report.(guest := Some(guest));
      if guest.status == "stopped" {
        var guests := host.ListGuests();
        report := report.(allStopped := guests.Some? && AllGuestsStopped(guests.value));
        AfterNext(t, calls, Listed(guests));
        calls := calls + [Listed(guests)];
        return;
      }
      report, error, calls := OrderStop(vmid, graceful, guest, calls);
    }

    method Issue(vmid: int, graceful: bool, guest: Guest) returns (command: Command, ok: bool)
      requires VmidInRange(vmid) && TimeoutInRange(shutdownTimeout)
      modifies host
      ensures command == GuestCommand(guest, vmid, graceful, shutdownTimeout)
      ensures host.trace == old(host.trace) + [Ran(command, ok)]
    {
      var program := if guest.guestType == Lxc then "pct" else "qm";
      var args := if graceful then ["shutdown", Itoa(vmid), "--timeout", Itoa(TimeoutSeconds(shutdownTimeout))]
                  else ["stop", Itoa(vmid)];
      CommandsAllowed(guest, vmid, graceful, shutdownTimeout);
      command := Command(program, args);
      ok := host.Run(command);
    }

    // The rest of it for a guest that is still running.
    method OrderStop(vmid: int, graceful: bool, guest: Guest, ghost before: seq<Call>)
      returns (report: Report, error: Option<Error>, ghost calls: seq<Call>)
      requires VmidInRange(vmid) && TimeoutInRange(shutdownTimeout)
      requires |before| == 1 && After(ToStop(vmid, graceful), before) == Some(Order(guest))
      modifies host
      ensures before <= calls && host.trace == old(host.trace) + calls[1..]
      ensures After(ToStop(vmid, graceful), calls) == Some(Done(error))
      ensures |calls| > 1 && calls[1] == Ran(GuestCommand(guest, vmid, graceful, shutdownTimeout), report.executed)
      ensures report.command == Some(calls[1].command)
      ensures error.None? ==>
        && report.guest.Some? && report.guest.value.Stopped()
        && |calls| == 4 && calls[3].Listed? && calls[3].answer.Some? && report.allStopped == AllGuestsStopped(calls[3].answer.value)
    {
      var command, ok := Issue(vmid, graceful, guest);
      report, error := Report(false, Some(command), Some(guest), false), None;
      AfterNext(ToStop(vmid, graceful), before, Ran(command, ok));
      calls := before + [Ran(command, ok)];
      if !ok {
        error := Some(CommandFailed);
        return;
      }
      var guestNow, allStopped;
      guestNow, allStopped, error, calls := VerifyStopped(vmid, graceful, calls);
      report := Report(true, Some(command), if guestNow.Some? then guestNow else Some(guest), allStopped);
    }

    // The last part, once the command was accepted.
    method VerifyStopped(vmid: int, graceful: bool, ghost before: seq<Call>)
      returns (guest: Option<Guest>, allStopped: bool, error: Option<Error>, ghost calls: seq<Call>)
      requires VmidInRange(vmid) && |before| == 2 && After(ToStop(vmid, graceful), before) == Some(Check)
      modifies host
      ensures before <= calls && host.trace == old(host.trace) + calls[2..]
      ensures After(ToStop(vmid, graceful), calls) == Some(Done(error))
      ensures error.None? ==>
        && guest.Some? && guest.value.Stopped()
        && |calls| == 4 && calls[3].Listed? && calls[3].answer.Some? && allStopped == AllGuestsStopped(calls[3].answer.value)
    {
      ghost var t := ToStop(vmid, graceful);
      guest, allStopped, error := None, false, None;
      var found, call := FindGuest(vmid);
      AfterNext(t, before, call);
      calls := before + [call];
      if found.Err? {
        error := Some(found.error);
        return;
      }
      guest := Some(found.value);
      if found.value.status != "stopped" {
        error := Some(StillRunning);
        return;
      }
      var guests := host.ListGuests();
      AfterNext(t, calls, Listed(guests));
      calls := calls + [Listed(guests)];
      if guests.None? {
        error := Some(ListFailed);
        return;
      }
      allStopped := AllGuestsStopped(guests.value);
    }

    /** Asks the node to shut all guests down, and succeeds only when the listing afterwards shows that they are. */
    method StopAll() returns (report: Report, error: Option<Error>, ghost calls: seq<Call>)
      modifies host
      ensures host.trace == old(host.trace) + calls
      ensures Refusal().Some? ==> calls == [] && error == Refusal()
      ensures |calls| == 2 ==> calls[1].Listed?
      ensures Refusal().None? ==>
        calls == CallsOf(All(shutdownTimeout, report.executed, if |calls| == 2 then calls[1].answer else None))
      ensures error.None? <==> |calls| == 2 && StoppedInFull(calls[1])
      ensures report.allStopped == error.None?
    {
      report, calls, error := NO_REPORT, [], Refusal();
      if error.Some? {
        return;
      }
      CommandsAllowed(Guest(100, Vm, "", "", false), 100, true, shutdownTimeout);
      var command := Command("pvenode", ["stopall", "--force-stop", "0", "--timeout", Itoa(TimeoutSeconds(shutdownTimeout))]);
      report := report.(command := Some(command));
      var ok := host.Run(command);
      calls := [Ran(command, ok)];
      if !ok {
        error := Some(CommandFailed);
        return;
      }
      report := report.(executed := true);
      var guests := host.ListGuests();
      calls := calls + [Listed(guests)];
      if guests.None? {
        error := Some(ListFailed);
        return;
      }
      report := report.(allStopped := AllGuestsStopped(guests.value));
      if !report.allStopped {
        error := Some(StillRunning);
      }
    }

    /** Powers the host off exactly when the listing just taken shows every guest stopped. */
    method PoweroffHost() returns (report: Report, error: Option<Error>, ghost calls: seq<Call>)
      modifies host
      ensures host.trace == old(host.trace) + calls
      ensures Refusal().Some? ==> calls == [] && error == Refusal()
      ensures Refusal().None? ==> calls != [] && calls[0].Listed? && calls == CallsOf(Off(calls[0].answer, report.executed))
      ensures |calls| == 1 ==> error == Some(if calls[0].answer.None? then ListFailed else Blocked)
      ensures Refusal().None? ==> (|calls| == 2 <==> StoppedInFull(calls[0]))
      ensures |calls| == 2 ==> calls[1].Ran? && calls[1].command == Command("systemctl", ["poweroff"])
      ensures report.executed <==> error.None?
      ensures error.None? ==> |calls| == 2
    {
      report, calls, error := NO_REPORT, [], Refusal();
      if error.Some? {
        return;
      }
      var guests := host.ListGuests();
      calls := [Listed(guests)];
      if guests.None? {
        error := Some(ListFailed);
        return;
      }
      report := report.(command := Some(POWEROFF), allStopped := AllGuestsStopped(guests.value));
      if !report.allStopped {
        error := Some(Blocked);
        return;
      }
      var ok := host.Run(POWEROFF);
      calls := calls + [Ran(POWEROFF, ok)];
      if !ok {
        error := Some(CommandFailed);
        return;
      }
      report := report.(executed := true);
    }
  }
}
