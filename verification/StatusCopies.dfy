/** The engine's timers as the program stores them: pointers. The engine hands out and takes in deep
    copies, so whatever a caller later writes through its own pointers, the engine goes on as the
    one of `PowerCore`, which remembers values. */
module StatusCopies {
  import opened Common
  import opened PowerCore

  /** A duration that is pointed to. */
  class Cell {
    var value: int

    constructor (value: int)
      ensures this.value == value
    {
      this.value := value;
    }
  }

  function CellsOf(cell: Cell?): set<Cell> {
    if cell == null then {} else {cell}
  }

  function ValueOf(cell: Cell?): Option<int>
    reads CellsOf(cell)
  {
    if cell == null then None else Some(cell.value)
  }

  /** A status with its three timers behind pointers, which may be shared with other statuses. */
  datatype PointedStatus = PointedStatus(
    state: State,
    outageAt: Cell?,
    nutAt: Cell?,
    networkAt: Cell?,
    recovery: int,
    graceful: bool,
    emergency: bool,
    poweroff: bool)
  {
    function Cells(): set<Cell> {
      CellsOf(outageAt) + CellsOf(nutAt) + CellsOf(networkAt)
    }

    function Value(): Status
      reads Cells()
    {
      Status(state, ValueOf(outageAt), ValueOf(nutAt), ValueOf(networkAt), recovery, graceful, emergency, poweroff)
    }
  }

  method CloneDuration(cell: Cell?) returns (copy: Cell?)
    ensures fresh(CellsOf(copy)) && ValueOf(copy) == ValueOf(cell)
  {
    if cell == null {
      return null;
    }
    copy := new Cell(cell.value);
  }

  method CloneStatus(status: PointedStatus) returns (copy: PointedStatus)
    ensures fresh(copy.Cells()) && copy.Value() == status.Value()
  {
    var outageAt := CloneDuration(status.outageAt);
    var nutAt := CloneDuration(status.nutAt);
    var networkAt := CloneDuration(status.networkAt);
    copy := status.(outageAt := outageAt, nutAt := nutAt, networkAt := networkAt);
  }

  /** A timer that keeps its value keeps its pointer; any other gets a new one. */
  method Repoint(cell: Cell?, value: Option<int>) returns (next: Cell?)
    ensures fresh(CellsOf(next) - CellsOf(cell)) && ValueOf(next) == value
  {
    if value == ValueOf(cell) {
      return cell;
    }
    next := null;
    if value.Some? {
      next := new Cell(value.value);
    }
  }

  class PointerEngine {
    const config: Config
    var status: PointedStatus
    var lastAt: Cell?

    constructor Make(config: Config, status: PointedStatus, lastAt: Cell?)
      ensures this.config == config && this.status == status && this.lastAt == lastAt
    {
      this.config := config;
      this.status := status;
      this.lastAt := lastAt;
    }

    function Cells(): set<Cell>
      reads this
    {
      status.Cells() + CellsOf(lastAt)
    }

    function Remembers(): Memory
      reads this, Cells()
    {
      Memory(status.Value(), ValueOf(lastAt))
    }

    /** The caller's copy shares no pointer with the engine. */
    method Status() returns (copy: PointedStatus)
      ensures fresh(copy.Cells()) && copy.Value() == Remembers().status
    {
      copy := CloneStatus(status);
    }

    method LastAt() returns (copy: Cell?)
      ensures fresh(CellsOf(copy)) && ValueOf(copy) == Remembers().lastAt
    {
      copy := CloneDuration(lastAt);
    }

    /** Takes one sample. Timers are pointed elsewhere and never written through. */
    method Sample(at: int, snapshot: Snapshot) returns (r: Result<seq<Action>, EngineError>)
      modifies this
      ensures fresh(Cells() - old(Cells()))
      ensures match Step(config, old(Remembers()), at, snapshot)
        case Ok(next) => Remembers() == next.memory && r == Ok(next.actions)
        case Err(e) => Remembers() == old(Remembers()) && r == Err(e)
    {
      var step := Step(config, Remembers(), at, snapshot);
      if step.Err? {
        return Err(step.error);
      }
      var next := step.value.memory;
      var outageAt := Repoint(status.outageAt, next.status.outageAt);
      var nutAt := Repoint(status.nutAt, next.status.nutAt);
      var networkAt := Repoint(status.networkAt, next.status.networkAt);
      lastAt := Repoint(lastAt, next.lastAt);
      status := PointedStatus(next.status.state, outageAt, nutAt, networkAt, next.status.recovery,
                              next.status.graceful, next.status.emergency, next.status.poweroff);
      return Ok(step.value.actions);
    }
  }

  /** The restored engine shares no pointer with the status and the time it was given. */
  method RestorePointers(config: Config, status: PointedStatus, lastAt: Cell?)
    returns (r: Result<PointerEngine, EngineError>)
    ensures match RestoreError(config, status.Value())
      case Some(e) => r == Err(e)
      case None =>
        && r.Ok? && fresh(r.value) && fresh(r.value.Cells())
        && r.value.config == config && r.value.Remembers() == Memory(status.Value(), ValueOf(lastAt))
  {
    var invalid := config.Validate();
    if invalid.Some? {
      return Err(InvalidConfig(invalid.value));
    }
    if status.state == OtherState("") {
      return Err(EmptyState);
    }
    var copy := CloneStatus(status);
    var time := CloneDuration(lastAt);
    var engine := new PointerEngine.Make(config, copy, time);
    return Ok(engine);
  }

  // ---------------------------------------------------------------- callers that write what they hold

  /** What a caller does: ask for the status or the time, give a sample, restart the engine from
      copies that it keeps, or write into any duration it ever got. */
  datatype Move =
    | AskStatus
    | AskLastAt
    | Give(at: int, snapshot: Snapshot)
    | Restart
    | Scribble(cell: nat, value: int)
  {
    predicate IsCall() {
      AskStatus? || AskLastAt? || Give?
    }
  }

  datatype Reply =
    | StatusIs(status: Status)
    | LastAtIs(lastAt: Option<int>)
    | Answer(r: Result<seq<Action>, EngineError>)

  /** What an engine remembers and has replied. */
  datatype Desk = Desk(memory: Memory, replies: seq<Reply>)

  /** One move at an engine of values, which nothing but a sample changes. */
  function Served(c: Config, d: Desk, move: Move): Desk {
    match move
    case AskStatus => d.(replies := d.replies + [StatusIs(d.memory.status)])
    case AskLastAt => d.(replies := d.replies + [LastAtIs(d.memory.lastAt)])
    case Give(at, snapshot) =>
      (match Step(c, d.memory, at, snapshot)
       case Ok(next) => Desk(next.memory, d.replies + [Answer(Ok(next.actions))])
       case Err(e) => d.(replies := d.replies + [Answer(Err(e))]))
    case Restart => d
    case Scribble(_, _) => d
  }

  function Serves(c: Config, d: Desk, moves: seq<Move>): Desk {
    if moves == [] then d
    else Served(c, Serves(c, d, moves[..|moves| - 1]), moves[|moves| - 1])
  }

  function Listed(cell: Cell?): seq<Cell> {
    if cell == null then [] else [cell]
  }

  /** The caller's copy of the status, and the durations it gets with it. */
  method Ask(e: PointerEngine) returns (status: PointedStatus, got: seq<Cell>)
    ensures fresh(status.Cells()) && status.Value() == e.Remembers().status
    ensures forall cell <- got :: fresh(cell)
    ensures forall cell <- status.Cells() :: cell in got
  {
    status := e.Status();
    got := Listed(status.outageAt) + Listed(status.nutAt) + Listed(status.networkAt);
  }

  /** A new engine from the given copies of what this one remembers, where that is not refused. */
  method RestartFrom(e: PointerEngine, status: PointedStatus, lastAt: Cell?) returns (next: PointerEngine)
    requires Memory(status.Value(), ValueOf(lastAt)) == e.Remembers()
    ensures if RestoreError(e.config, e.Remembers().status) == None then fresh(next) && fresh(next.Cells())
            else next == e
    ensures next.config == e.config && next.Remembers() == e.Remembers()
  {
    next := e;
    var r := RestorePointers(e.config, status, lastAt);
    if r.Ok? {
      next := r.value;
    }
  }

  /** Restarts an engine from copies that the caller keeps. */
  method RestartKeeping(e: PointerEngine) returns (next: PointerEngine, got: seq<Cell>)
    ensures if RestoreError(e.config, e.Remembers().status) == None then fresh(next) && fresh(next.Cells())
            else next == e
    ensures next.config == e.config && next.Remembers() == e.Remembers()
    ensures forall cell <- got :: fresh(cell) && cell !in next.Cells()
  {
    var status, mine := Ask(e);
    var lastAt := e.LastAt();
    next := RestartFrom(e, status, lastAt);
    got := mine + Listed(lastAt);
  }

  /** Carries out one move of a caller that holds the durations `held`, none of them the engine's.
      It holds them ever after, with the new ones, and still none is the engine's. */
  method Serve(e: PointerEngine, held: seq<Cell>, replies: seq<Reply>, move: Move)
    returns (next: PointerEngine, known: seq<Cell>, replied: seq<Reply>)
    requires forall cell <- held :: cell !in e.Cells()
    modifies e, set cell <- held
    ensures next == e || fresh(next)
    ensures move.Restart? && RestoreError(e.config, old(e.Remembers()).status) == None ==> fresh(next)
    ensures held <= known
    ensures forall cell <- known :: cell !in next.Cells() && (cell in held || fresh(cell))
    ensures move.Scribble? && move.cell < |held| ==> held[move.cell].value == move.value
    ensures next.config == e.config
    ensures Desk(next.Remembers(), replied) == Served(e.config, Desk(old(e.Remembers()), replies), move)
  {
    next, known, replied := e, held, replies;
    match move {
      case AskStatus =>
        var status, got := Ask(e);
        known, replied := held + got, replies + [StatusIs(status.Value())];
      case AskLastAt =>
        var lastAt := e.LastAt();
        known, replied := held + Listed(lastAt), replies + [LastAtIs(ValueOf(lastAt))];
      case Give(at, snapshot) =>
        var r := e.Sample(at, snapshot);
        replied := replies + [Answer(r)];
      case Restart =>
        var got;
        next, got := RestartKeeping(e);
        known := held + got;
      case Scribble(k, value) =>
        if k < |held| {
          held[k].value := value;
        }
    }
  }

  /** Over any series of moves, whatever the caller writes, the engine replies and remembers as one of
      values does. */
  method ServeAll(e: PointerEngine, moves: seq<Move>) returns (last: PointerEngine, replies: seq<Reply>)
    modifies e
    ensures Desk(last.Remembers(), replies) == Serves(e.config, Desk(old(e.Remembers()), []), moves)
  {
    ghost var start := Desk(e.Remembers(), []);
    var held: seq<Cell> := [];
    last, replies := e, [];
    for i := 0 to |moves|
      invariant last == e || fresh(last)
      invariant forall cell <- held :: cell !in last.Cells() && fresh(cell)
      invariant last.config == e.config
      invariant Desk(last.Remembers(), replies) == Serves(e.config, start, moves[..i])
    {
      assert moves[..i + 1][..i] == moves[..i];
      last, held, replies := Serve(last, held, replies, moves[i]);
    }
    assert moves[..|moves|] == moves;
  }

  function Calls(moves: seq<Move>): seq<Move> {
    if moves == [] then []
    else Calls(moves[..|moves| - 1]) + if moves[|moves| - 1].IsCall() then [moves[|moves| - 1]] else []
  }

  /** Writing into copies and restarting from them changes no reply and nothing the engine remembers. */
  lemma {:induction false} OnlyCallsMatter(c: Config, d: Desk, moves: seq<Move>)
    ensures Serves(c, d, moves) == Serves(c, d, Calls(moves))
  {
    if moves != [] {
      var front, last := moves[..|moves| - 1], moves[|moves| - 1];
      OnlyCallsMatter(c, d, front);
      if last.IsCall() {
        assert Calls(moves) == Calls(front) + [last];
        assert (Calls(front) + [last])[..|Calls(front)|] == Calls(front);
      } else {
        assert Calls(moves) == Calls(front);
      }
    }
  }
}
