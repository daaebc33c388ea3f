/**
 * The `targets` table of the Room database (data/local/AppDatabase.kt): the
 * entity, its mappers to and from the domain record, and the DAO's SQL
 * statements as operations on a table keyed by the primary key `id`.
 */
module AppDatabase {
  import opened Wrappers
  import opened TargetModel

  /** One row of `targets`; `id` is the primary key. */
  datatype TargetEntity = TargetEntity(
    id: string,
    name: string,
    latitude: real,
    longitude: real,
    radiusMeters: int,
    isActive: bool,
    lastTriggered: int)

  /** A row built without `lastTriggered` takes the column default 0. */
  function NewEntity(id: string, name: string, latitude: real, longitude: real, radiusMeters: int, isActive: bool): TargetEntity {
    TargetEntity(id, name, latitude, longitude, radiusMeters, isActive, 0)
  }

  /** `TargetEntity.toDomain()` */
  function ToDomain(e: TargetEntity): TargetLocation {
    TargetLocation(e.id, e.name, e.latitude, e.longitude, e.radiusMeters, e.isActive, e.lastTriggered)
  }

  /** `TargetLocation.toEntity()` */
  function ToEntity(t: TargetLocation): TargetEntity {
    TargetEntity(t.id, t.name, t.latitude, t.longitude, t.radiusMeters, t.isActive, t.lastTriggered)
  }

  /** The entity's column default and the domain record's defaults agree: a new target maps to a row with `lastTriggered` 0. */
  lemma DefaultsAgree(id: string, name: string, latitude: real, longitude: real, radiusMeters: int)
    ensures ToEntity(NewTarget(id, name, latitude, longitude, radiusMeters)) == NewEntity(id, name, latitude, longitude, radiusMeters, true)
    ensures ToDomain(NewEntity(id, name, latitude, longitude, radiusMeters, true)) == NewTarget(id, name, latitude, longitude, radiusMeters)
  {
  }

  /** The two mappers are inverses: every field is carried across unchanged. */
  lemma MappersInverse(e: TargetEntity, t: TargetLocation)
    ensures ToEntity(ToDomain(e)) == e
    ensures ToDomain(ToEntity(t)) == t
  {
  }

  /** The table contents: primary key to row. */
  type Table = map<string, TargetEntity>

  /** Every row is stored under its own primary key, so there is one row per id. */
  predicate KeyedById(table: Table) {
    forall id :: id in table ==> table[id].id == id
  }

  /** `SELECT * FROM targets WHERE id = :id`: the row with that id, or null. */
  function Lookup(table: Table, id: string): (r: Option<TargetEntity>)
    ensures r.Some? <==> id in table
    ensures KeyedById(table) && r.Some? ==> r.value.id == id
  {
    if id in table then Some(table[id]) else None
  }

  /** `@Insert(onConflict = REPLACE)`: the row under its id is the new one, no other row changes. */
  function Upsert(table: Table, e: TargetEntity): (r: Table)
    ensures KeyedById(table) ==> KeyedById(r)
    ensures Lookup(r, e.id) == Some(e)
    ensures forall id :: id != e.id ==> Lookup(r, id) == Lookup(table, id)
  {
    table[e.id := e]
  }

  /** `DELETE FROM targets WHERE id = :id`: only that row goes; an absent id changes nothing. */
  function Delete(table: Table, id: string): (r: Table)
    ensures KeyedById(table) ==> KeyedById(r)
    ensures Lookup(r, id) == None
    ensures forall other :: other != id ==> Lookup(r, other) == Lookup(table, other)
    ensures id !in table ==> r == table
  {
    table - {id}
  }

  /**
   * `UPDATE targets SET isActive = :isActive WHERE id = :id`: only the
   * `isActive` column of the matching row changes; an absent id changes nothing.
   */
  function SetActive(table: Table, id: string, isActive: bool): (r: Table)
    ensures KeyedById(table) ==> KeyedById(r)
    ensures id in table ==> Lookup(r, id) == Some(table[id].(isActive := isActive))
    ensures forall other :: other != id ==> Lookup(r, other) == Lookup(table, other)
    ensures id !in table ==> r == table
  {
    if id in table then table[id := table[id].(isActive := isActive)] else table
  }

  /** Replacing with the same row twice is the same as once; deleting twice is the same as once. */
  lemma UpsertDeleteIdempotent(table: Table, e: TargetEntity, id: string)
    ensures Upsert(Upsert(table, e), e) == Upsert(table, e)
    ensures Delete(Delete(table, id), id) == Delete(table, id)
  {
  }

  /** An insert followed by a delete of the same id leaves the table as it was without that id. */
  lemma {:induction false} DeleteAfterUpsert(table: Table, e: TargetEntity)
    ensures Delete(Upsert(table, e), e.id) == Delete(table, e.id)
  {
    assert Delete(Upsert(table, e), e.id).Keys == Delete(table, e.id).Keys;
  }

  /** `TargetDao` over the `targets` table. */
  class TargetDao {
    var rows: Table

    ghost predicate Valid()
      reads this
    {
      KeyedById(rows)
    }

    constructor ()
      ensures Valid() && rows == map[]
    {
      rows := map[];
    }

    /** `getTargetById` */
    function GetTargetById(id: string): (r: Option<TargetEntity>)
      reads this
      requires Valid()
      ensures r.Some? <==> id in rows
      ensures r.Some? ==> r.value.id == id && r.value == rows[id]
    {
      Lookup(rows, id)
    }

    /**
     * `getAllTargetsOneShot` (and one emission of `getAllTargetsFlow`):
     * every row exactly once, in an order SQL leaves unspecified.
     */
    method GetAllTargetsOneShot() returns (r: seq<TargetEntity>)
      requires Valid()
      ensures |r| == |rows|
      ensures forall i :: 0 <= i < |r| ==> r[i].id in rows && rows[r[i].id] == r[i]
      ensures forall id :: id in rows ==> exists i :: 0 <= i < |r| && r[i].id == id
      ensures forall i, j :: 0 <= i < j < |r| ==> r[i].id != r[j].id
    {
      r := [];
      var pending := rows.Keys;
      while pending != {}
        invariant pending <= rows.Keys
        invariant |r| + |pending| == |rows.Keys|
        invariant forall i :: 0 <= i < |r| ==> r[i].id in rows && rows[r[i].id] == r[i] && r[i].id !in pending
        invariant forall id :: id in rows && id !in pending ==> exists i :: 0 <= i < |r| && r[i].id == id
        invariant forall i, j :: 0 <= i < j < |r| ==> r[i].id != r[j].id
        decreases |pending|
      {
        var id :| id in pending;
        ghost var before := r;
        r := r + [rows[id]];
        forall other | other in rows && other !in pending - {id}
          ensures exists i :: 0 <= i < |r| && r[i].id == other
        {
          if other == id {
            assert r[|r| - 1].id == other;
          } else {
            var i :| 0 <= i < |before| && before[i].id == other;
            assert r[i].id == other;
          }
        }
        pending := pending - {id};
      }
    }

    /** `insertTarget` (REPLACE on conflict). */
    method InsertTarget(e: TargetEntity)
      requires Valid()
      modifies this
      ensures Valid()
      ensures rows == Upsert(old(rows), e)
    {
      rows := rows[e.id := e];
    }

    /** `deleteTarget` */
    method DeleteTarget(id: string)
      requires Valid()
      modifies this
      ensures Valid()
      ensures rows == Delete(old(rows), id)
    {
      rows := rows - {id};
    }

    /** `updateTargetStatus` */
    method UpdateTargetStatus(id: string, isActive: bool)
      requires Valid()
      modifies this
      ensures Valid()
      ensures rows == SetActive(old(rows), id, isActive)
    {
      if id in rows {
        rows := rows[id := rows[id].(isActive := isActive)];
      }
    }
  }
}
