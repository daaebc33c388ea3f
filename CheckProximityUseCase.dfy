/**
 * The proximity filter (domain/usecase/CheckProximityUseCase.kt): the
 * targets within their radius of the current location whose last trigger
 * lies more than five minutes back. The distance from the current location
 * to a target is given by `distanceTo`; the clock is `now` (milliseconds).
 */
module ProximityUseCase {
  import opened TargetModel
  import StableSort

  /** Five minutes in milliseconds. */
  const CooldownMillis: int := 5 * 60 * 1000

  /** `distance <= target.radiusMeters`: the boundary counts as inside. */
  predicate InRange(t: TargetLocation, distance: Distance) {
    distance <= t.radiusMeters as real
  }

  /** `now - lastTriggered > 5 * 60 * 1000`: strictly more than five minutes. */
  predicate CooledDown(t: TargetLocation, now: int) {
    now - t.lastTriggered > CooldownMillis
  }

  /** The filter's test; `isActive` plays no part in it. */
  function IsDue(distanceTo: TargetLocation -> Distance, now: int): TargetLocation -> bool {
    t => InRange(t, distanceTo(t)) && CooledDown(t, now)
  }

  /** `invoke(currentLocation, targets)` */
  function CheckProximity(targets: seq<TargetLocation>, distanceTo: TargetLocation -> Distance, now: int): (r: seq<TargetLocation>)
    ensures |r| <= |targets|
  {
    StableSort.Filter(targets, IsDue(distanceTo, now))
  }

  /** The result keeps the input order and adds nothing. */
  lemma ResultIsSubsequence(targets: seq<TargetLocation>, distanceTo: TargetLocation -> Distance, now: int)
    ensures StableSort.IsSubsequence(CheckProximity(targets, distanceTo, now), targets)
  {
    StableSort.FilterSubsequence(targets, IsDue(distanceTo, now));
  }

  /** A target is returned iff it is in range and past the cooldown — active or not. */
  lemma KeptIff(targets: seq<TargetLocation>, distanceTo: TargetLocation -> Distance, now: int, t: TargetLocation)
    ensures t in CheckProximity(targets, distanceTo, now) <==>
            t in targets && distanceTo(t) <= t.radiusMeters as real && now - t.lastTriggered > CooldownMillis
  {
    var r := CheckProximity(targets, distanceTo, now);
    if t in r {
      var i :| 0 <= i < |r| && r[i] == t;
    }
    if t in targets && IsDue(distanceTo, now)(t) {
      var i :| 0 <= i < |targets| && targets[i] == t;
    }
  }

  /** At the same instant, filtering the result again changes nothing. */
  lemma Idempotent(targets: seq<TargetLocation>, distanceTo: TargetLocation -> Distance, now: int)
    ensures CheckProximity(CheckProximity(targets, distanceTo, now), distanceTo, now) == CheckProximity(targets, distanceTo, now)
  {
    StableSort.FilterIdempotent(targets, IsDue(distanceTo, now));
  }

  /** A target never triggered (`lastTriggered` 0) is past the cooldown whenever `now > 300000`. */
  lemma NeverTriggeredCooledDown(t: TargetLocation, now: int)
    requires t.lastTriggered == 0
    ensures CooledDown(t, now) <==> now > 300000
  {
  }

  /** A distance equal to the radius is inside; exactly five minutes is not past the cooldown, one millisecond more is. */
  lemma Boundaries(t: TargetLocation)
    requires 0 <= t.radiusMeters
    ensures InRange(t, t.radiusMeters as real)
    ensures !CooledDown(t, t.lastTriggered + 300000)
    ensures CooledDown(t, t.lastTriggered + 300001)
  {
  }
}
