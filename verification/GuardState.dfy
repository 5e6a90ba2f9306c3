/** The record that lets a guard continue after its process was restarted on the same boot. */
module GuardState {
  import opened Common
  import opened PowerCore

  // Instants are counted from the zero value of the program's clock type.
  const ZERO_INSTANT: int := 0

  datatype Record = Record(
    boot: string,
    origin: int,
    revision: int,
    detection: Config,
    memory: Memory)

  predicate Resumable(rec: Record, boot: string) {
    rec.boot == boot && rec.origin != ZERO_INSTANT && rec.memory.status.state in {Confirming, ShuttingDown}
  }

  // What the file system answers. A failed replacement may leave the old record or the new one.
  datatype RestoreIo = RestoreIo(readOk: bool, clearOk: bool)
  datatype SaveIo = Written | FailedBefore | FailedAfter

  datatype Restored = Fresh | Resumed(rec: Record) | Failed

  function Restoring(disk: Option<Record>, boot: string, io: RestoreIo): (Restored, Option<Record>) {
    if disk.None? then (Fresh, None)
    else if !io.readOk then (Failed, disk)
    else if !Resumable(disk.value, boot) then
      if io.clearOk then (Fresh, None) else (Failed, disk)
    else if RestoreError(disk.value.detection, disk.value.memory.status).Some? then (Failed, disk)
    else (Resumed(disk.value), disk)
  }

  function Saving(disk: Option<Record>, rec: Record, io: SaveIo): (bool, Option<Record>) {
    if rec.memory.status.state in {Normal, PoweredOff} then
      if io.Written? then (true, None) else (false, disk)
    else
      match io
      case Written => (true, Some(rec))
      case FailedBefore => (false, disk)
      case FailedAfter => (false, Some(rec))
  }

  /** What comes of the record on disk: it is continued iff it can be read, is of this boot, has an origin, is in a
      confirmation or a shutdown, and its detection settings are valid; a readable one that is of another boot, has no
      origin or is in another state is removed; and in every other case it stays, and the guard does not start. */
  lemma RestoreInFull(rec: Record, boot: string, io: RestoreIo)
    ensures Restoring(None, boot, io) == (Fresh, None)
    ensures var (outcome, disk) := Restoring(Some(rec), boot, io);
      var st := rec.memory.status.state;
      && (outcome == Resumed(rec) <==>
            io.readOk && rec.boot == boot && rec.origin != 0 && (st == Confirming || st == ShuttingDown) && rec.detection.Valid())
      && (outcome == Fresh <==>
            io.readOk && io.clearOk && (rec.boot != boot || rec.origin == 0 || (st != Confirming && st != ShuttingDown)))
      && (outcome == Resumed(rec) || outcome == Fresh || outcome == Failed)
      && disk == if outcome == Fresh then None else Some(rec)
  {}

  /** What was saved in an outage is what a restart on the same boot continues with, and what a reboot removes; and after
      the outage a save leaves nothing to continue. */
  lemma SavedIsRestored(disk: Option<Record>, rec: Record, io: SaveIo, boot: string, again: RestoreIo)
    requires rec.origin != 0 && rec.detection.Valid() && again.readOk && again.clearOk
    ensures var (ok, saved) := Saving(disk, rec, io);
      && (ok <==> io.Written?)
      && (io.FailedBefore? ==> saved == disk)
      && (rec.memory.status.state == Confirming || rec.memory.status.state == ShuttingDown ==>
            !io.FailedBefore? ==> Restoring(saved, boot, again) == if boot == rec.boot then (Resumed(rec), Some(rec)) else (Fresh, None))
      && (rec.memory.status.state == Normal || rec.memory.status.state == PoweredOff ==>
            saved == (if io.Written? then None else disk) && (io.Written? ==> Restoring(saved, boot, again) == (Fresh, None)))
  {}

  class Store {
    const boot: string
    var disk: Option<Record>

    constructor (boot: string, disk: Option<Record>)
      ensures this.boot == boot && this.disk == disk
    {
      this.boot := boot;
      this.disk := disk;
    }

    /** The engine to continue with, if the disk holds a resumable record. Any other record is removed. */
    method Restore(io: RestoreIo) returns (outcome: Restored, engine: Option<Engine>)
      modifies this
      ensures (outcome, disk) == Restoring(old(disk), boot, io)
      ensures engine.Some? <==> outcome.Resumed?
      ensures engine.Some? ==>
        && fresh(engine.value) && engine.value.config == outcome.rec.detection
        && engine.value.Remembers() == outcome.rec.memory
    {
      if disk.None? {
        return Fresh, None;
      }
      if !io.readOk {
        return Failed, None;
      }
      var snapshot := disk.value;
      if snapshot.boot != boot || snapshot.origin == ZERO_INSTANT
         || (snapshot.memory.status.state != Confirming && snapshot.memory.status.state != ShuttingDown)
      {
        var cleared := Clear(io.clearOk);
        if !cleared {
          return Failed, None;
        }
        return Fresh, None;
      }
      var restored := RestoreEngine(snapshot.detection, snapshot.memory.status, snapshot.memory.lastAt);
      if restored.Err? {
        return Failed, None;
      }
      return Resumed(snapshot), Some(restored.value);
    }

    /** Replaces the record by the engine's state, or removes it when there is nothing to continue. */
    method Save(origin: int, revision: int, detection: Config, engine: Engine, io: SaveIo) returns (ok: bool)
      modifies this
      ensures (ok, disk) == Saving(old(disk), Record(boot, origin, revision, detection, engine.Remembers()), io)
    {
      var status := engine.status;
      if status.state == Normal || status.state == PoweredOff {
        ok := Clear(io.Written?);
        return;
      }
      if io.FailedBefore? {
        return false;
      }
      disk := Some(Record(boot, origin, revision, detection, Memory(status, engine.lastAt)));
      return io.Written?;
    }

    method Clear(removed: bool) returns (ok: bool)
      modifies this
      ensures ok == removed && disk == if removed then None else old(disk)
    {
      if removed {
        disk := None;
      }
      return removed;
    }
  }
}
