/**
 * The domain record of one geofence target (domain/model/TargetLocation.kt).
 */
module TargetModel {

  /** A distance in metres, as `Location.distanceBetween` reports it (never negative). */
  type Distance = d: real | 0.0 <= d

  /**
   * `id` is the primary key; `latitude`/`longitude` are degrees (a Kotlin
   * `Double`, only ever copied); `radiusMeters` is a Kotlin `Int`;
   * `lastTriggered` is epoch milliseconds, a Kotlin `Long`.
   */
  datatype TargetLocation = TargetLocation(
    id: string,
    name: string,
    latitude: real,
    longitude: real,
    radiusMeters: int,
    isActive: bool,
    lastTriggered: int)

  /**
   * `TargetLocation(id, name, latitude, longitude, radiusMeters)` with the
   * data class defaults for the other fields: active, never triggered.
   */
  function NewTarget(id: string, name: string, latitude: real, longitude: real, radiusMeters: int): TargetLocation {
    TargetLocation(id, name, latitude, longitude, radiusMeters, true, 0)
  }

  /** No two targets of the list share an id. */
  predicate DistinctIds(targets: seq<TargetLocation>) {
    forall i, j :: 0 <= i < j < |targets| ==> targets[i].id != targets[j].id
  }
}
