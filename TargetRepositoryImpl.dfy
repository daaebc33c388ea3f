/**
 * The target repository over the DAO (data/repository/TargetRepositoryImpl.kt):
 * each operation maps between the domain record and the entity with the
 * repository's own private mappers and hands over to the DAO.
 */
module TargetRepository {
  import opened Wrappers
  import opened TargetModel
  import opened AppDatabase

  /** The private `TargetEntity.toDomain()` of the repository. */
  function EntityToDomain(e: TargetEntity): TargetLocation {
    TargetLocation(e.id, e.name, e.latitude, e.longitude, e.radiusMeters, e.isActive, e.lastTriggered)
  }

  /** The private `TargetLocation.toEntity()` of the repository. */
  function DomainToEntity(t: TargetLocation): TargetEntity {
    TargetEntity(t.id, t.name, t.latitude, t.longitude, t.radiusMeters, t.isActive, t.lastTriggered)
  }

  /** The private mappers are inverses of each other and agree with the database module's. */
  lemma PrivateMappers(e: TargetEntity, t: TargetLocation)
    ensures DomainToEntity(EntityToDomain(e)) == e
    ensures EntityToDomain(DomainToEntity(t)) == t
    ensures EntityToDomain(e) == ToDomain(e) && DomainToEntity(t) == ToEntity(t)
  {
  }

  /** `entities.map { it.toDomain() }` */
  function MapToDomain(entities: seq<TargetEntity>): (r: seq<TargetLocation>)
    ensures |r| == |entities|
    ensures forall i :: 0 <= i < |r| ==> r[i].id == entities[i].id && DomainToEntity(r[i]) == entities[i]
  {
    seq(|entities|, i requires 0 <= i < |entities| => EntityToDomain(entities[i]))
  }

  /** The domain record stored under `id`, as `dao.getTargetById(id)?.toDomain()` yields it. */
  function Find(table: Table, id: string): (r: Option<TargetLocation>)
    ensures r.Some? <==> id in table
    ensures r.Some? ==> DomainToEntity(r.value) == table[id]
  {
    match Lookup(table, id)
    case Some(e) => Some(EntityToDomain(e))
    case None => None
  }

  /** Inserting a target and reading its id back gives that target. */
  lemma InsertThenFind(table: Table, t: TargetLocation)
    ensures Find(Upsert(table, DomainToEntity(t)), t.id) == Some(t)
  {
  }

  /** Deleting an id and reading it back gives null. */
  lemma DeleteThenFind(table: Table, id: string)
    ensures Find(Delete(table, id), id) == None
  {
  }

  /** After `updateTargetStatus(id, b)` the target reads back with `isActive == b` and every other field as before. */
  lemma UpdateThenFind(table: Table, id: string, isActive: bool)
    ensures Find(table, id).Some? ==> Find(SetActive(table, id, isActive), id) == Some(Find(table, id).value.(isActive := isActive))
    ensures Find(table, id).None? ==> Find(SetActive(table, id, isActive), id).None?
  {
  }

  class TargetRepositoryImpl {
    const dao: TargetDao

    constructor (dao: TargetDao)
      ensures this.dao == dao
    {
      this.dao := dao;
    }

    /** `getAllTargets`: every stored row once, as a domain record. */
    method GetAllTargets() returns (r: seq<TargetLocation>)
      requires dao.Valid()
      ensures |r| == |dao.rows|
      ensures forall i :: 0 <= i < |r| ==> r[i].id in dao.rows && DomainToEntity(r[i]) == dao.rows[r[i].id]
      ensures forall id :: id in dao.rows ==> exists i :: 0 <= i < |r| && r[i].id == id
      ensures DistinctIds(r)
    {
      var entities := dao.GetAllTargetsOneShot();
      r := MapToDomain(entities);
    }

    /** `getTargetById` */
    function GetTargetById(id: string): (r: Option<TargetLocation>)
      reads dao
      requires dao.Valid()
      ensures r.Some? <==> id in dao.rows
      ensures r.Some? ==> r.value.id == id && DomainToEntity(r.value) == dao.rows[id]
    {
      Find(dao.rows, id)
    }

    /** `insertTarget` */
    method InsertTarget(t: TargetLocation)
      requires dao.Valid()
      modifies dao
      ensures dao.Valid()
      ensures dao.rows == Upsert(old(dao.rows), DomainToEntity(t))
      ensures GetTargetById(t.id) == Some(t)
    {
      dao.InsertTarget(DomainToEntity(t));
    }

    /** `deleteTarget` */
    method DeleteTarget(id: string)
      requires dao.Valid()
      modifies dao
      ensures dao.Valid()
      ensures dao.rows == Delete(old(dao.rows), id)
      ensures GetTargetById(id) == None
    {
      dao.DeleteTarget(id);
    }

    /** `updateTargetStatus` */
    method UpdateTargetStatus(id: string, isActive: bool)
      requires dao.Valid()
      modifies dao
      ensures dao.Valid()
      ensures dao.rows == SetActive(old(dao.rows), id, isActive)
    {
      dao.UpdateTargetStatus(id, isActive);
    }
  }
}
