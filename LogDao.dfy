/**
 * The `activity_logs` table (data/local/entity/LogEntity.kt,
 * data/local/dao/LogDao.kt). The primary key is auto-generated: an entity
 * whose `id` is 0 is stored under a fresh id. Room declares such a key
 * `AUTOINCREMENT`, so SQLite keeps the largest id ever used (`sequence`
 * below) and never hands out an id again, not even after the table is
 * emptied.
 */
module LogTable {
  import opened Wrappers
  import StableSort

  datatype LogEventType = ENTRY | EXIT | SYSTEM

  /** One row; `id` 0 means "let the database choose". */
  datatype LogEntity = LogEntity(id: int, targetName: string, eventType: LogEventType, timestamp: int, message: string)

  /** `LogEntity(targetName = …, eventType = …, timestamp = …, message = …)`, with the default id 0. */
  function NewLog(targetName: string, eventType: LogEventType, timestamp: int, message: string): LogEntity {
    LogEntity(0, targetName, eventType, timestamp, message)
  }

  /** The rows in insertion order, and the table's AUTOINCREMENT counter. */
  datatype Table = Table(rows: seq<LogEntity>, sequence: int)

  predicate HasId(rows: seq<LogEntity>, id: int) {
    exists i | 0 <= i < |rows| :: rows[i].id == id
  }

  /** Ids are unique, and none exceeds the counter. */
  predicate Valid(t: Table) {
    0 <= t.sequence &&
    (forall i, j :: 0 <= i < j < |t.rows| ==> t.rows[i].id != t.rows[j].id) &&
    (forall i :: 0 <= i < |t.rows| ==> t.rows[i].id <= t.sequence)
  }

  /** The id the row is stored under: the next counter value for 0, the given id otherwise. */
  function AssignedId(t: Table, log: LogEntity): int {
    if log.id == 0 then t.sequence + 1 else log.id
  }

  /**
   * `@Insert` (conflict strategy ABORT): None when the id is already taken,
   * which Room reports by throwing; otherwise the table with the row added.
   */
  function Insert(t: Table, log: LogEntity): (r: Option<Table>)
    ensures Valid(t) && r.Some? ==> Valid(r.value)
    ensures r.Some? <==> !HasId(t.rows, AssignedId(t, log))
    ensures r.Some? ==> multiset(r.value.rows) == multiset(t.rows) + multiset{log.(id := AssignedId(t, log))}
  {
    var id := AssignedId(t, log);
    if HasId(t.rows, id) then None
    else
      Some(Table(t.rows + [log.(id := id)], if id > t.sequence then id else t.sequence))
  }

  /** `DELETE FROM activity_logs`: every row goes, the counter stays. */
  function Clear(t: Table): (r: Table)
    ensures Valid(t) ==> Valid(r)
    ensures r.rows == []
  {
    Table([], t.sequence)
  }

  /** The order of `ORDER BY timestamp DESC`: `a` may stand before `b` when it is not older. */
  function NewerFirst(a: LogEntity, b: LogEntity): bool {
    a.timestamp >= b.timestamp
  }

  lemma NewerFirstIsPreorder()
    ensures StableSort.TotalPreorder(NewerFirst)
  {
  }

  /** `SELECT * FROM activity_logs ORDER BY timestamp DESC` */
  function View(t: Table): (r: seq<LogEntity>)
    ensures multiset(r) == multiset(t.rows)
    ensures forall i, j :: 0 <= i < j < |r| ==> r[i].timestamp >= r[j].timestamp
  {
    NewerFirstIsPreorder();
    StableSort.SortSorted(t.rows, NewerFirst);
    StableSort.Sort(t.rows, NewerFirst)
  }

  /** A row with id 0 is always accepted, under an id no current row has; exactly one row is added. */
  lemma AutoIdFresh(t: Table, log: LogEntity)
    requires Valid(t) && log.id == 0
    ensures !HasId(t.rows, t.sequence + 1)
    ensures Insert(t, log).Some?
    ensures |Insert(t, log).value.rows| == |t.rows| + 1
    ensures Insert(t, log).value.rows[|t.rows|] == log.(id := t.sequence + 1)
  {
  }

  /** After a clear the table reads as empty. */
  lemma ClearThenView(t: Table)
    ensures View(Clear(t)) == []
  {
  }

  /**
   * Inserting after a clear leaves exactly one row, and its id is larger
   * than every id the table held before the clear.
   */
  lemma InsertAfterClear(t: Table, log: LogEntity)
    requires Valid(t) && log.id == 0
    ensures Insert(Clear(t), log).Some?
    ensures Insert(Clear(t), log).value.rows == [log.(id := t.sequence + 1)]
    ensures forall i :: 0 <= i < |t.rows| ==> t.rows[i].id < Insert(Clear(t), log).value.rows[0].id
  {
  }

  /** `LogDao` over the `activity_logs` table. */
  class LogDao {
    var rows: seq<LogEntity>
    var sequence: int

    function Contents(): Table
      reads this
    {
      Table(rows, sequence)
    }

    constructor ()
      ensures Valid(Contents()) && rows == []
    {
      rows := [];
      sequence := 0;
    }

    /** `getAllLogs` (one emission of the flow). */
    function GetAllLogs(): (r: seq<LogEntity>)
      reads this
      ensures r == View(Contents())
    {
      View(Contents())
    }

    /** `insertLog`; `ok` is false where Room throws a constraint violation and the table is unchanged. */
    method InsertLog(log: LogEntity) returns (ok: bool)
      requires Valid(Contents())
      modifies this
      ensures ok <==> Insert(old(Contents()), log).Some?
      ensures ok ==> Contents() == Insert(old(Contents()), log).value
      ensures !ok ==> Contents() == old(Contents())
      ensures Valid(Contents())
    {
      var id := if log.id == 0 then sequence + 1 else log.id;
      var i := 0;
      while i < |rows|
        invariant 0 <= i <= |rows|
        invariant forall j :: 0 <= j < i ==> rows[j].id != id
      {
        if rows[i].id == id {
          return false;
        }
        i := i + 1;
      }
      rows := rows + [log.(id := id)];
      if id > sequence {
        sequence := id;
      }
      ok := true;
    }

    /** `clearLogs` */
    method ClearLogs()
      requires Valid(Contents())
      modifies this
      ensures Contents() == Clear(old(Contents()))
      ensures Valid(Contents())
    {
      rows := [];
    }
  }
}
