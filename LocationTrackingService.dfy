/**
 * The alert engine of the foreground tracking service
 * (data/service/LocationTrackingService.kt). For each location fix the
 * service walks the active targets: a target inside its radius, not yet in
 * `alertedTargets` and past the five-minute cooldown raises an alert and
 * joins the set; a target outside its radius leaves the set, which re-arms
 * it. `lastTriggered` is never written, so the cooldown only ever measures
 * from the value stored with the target.
 */
module TrackingService {
  import opened Wrappers
  import opened TargetModel
  import opened ProximityUseCase
  import StableSort
  import TargetRepository

  /** The outcome of one target's step: the new set, and whether an alert was raised. */
  datatype StepResult = StepResult(alerted: set<string>, fired: bool)

  /** The body of the `forEach` for one target; an inactive target is skipped, as `filter { it.isActive }` does. */
  function Step(alerted: set<string>, t: TargetLocation, distance: Distance, now: int): (r: StepResult)
    ensures forall id :: id != t.id ==> (id in r.alerted <==> id in alerted)
  {
    if !t.isActive then StepResult(alerted, false)
    else if InRange(t, distance) then
      if t.id !in alerted && CooledDown(t, now) then StepResult(alerted + {t.id}, true)
      else StepResult(alerted, false)
    else StepResult(alerted - {t.id}, false)
  }

  /** The set after one fix, and the targets alerted on, in walking order. */
  datatype SweepResult = SweepResult(alerted: set<string>, fired: seq<TargetLocation>)

  /** One whole `checkProximity` pass: `Step` applied to each target in turn. */
  function Sweep(alerted: set<string>, targets: seq<TargetLocation>, distanceTo: TargetLocation -> Distance, now: int): SweepResult
  {
    if targets == [] then SweepResult(alerted, [])
    else
      var prev := Sweep(alerted, targets[..|targets| - 1], distanceTo, now);
      var t := targets[|targets| - 1];
      var s := Step(prev.alerted, t, distanceTo(t), now);
      SweepResult(s.alerted, prev.fired + if s.fired then [t] else [])
  }

  /** An alert fires iff the target is active, in range, not already alerted and past the cooldown. */
  lemma StepFiresIff(alerted: set<string>, t: TargetLocation, distance: Distance, now: int)
    ensures Step(alerted, t, distance, now).fired <==>
            t.isActive && distance <= t.radiusMeters as real && t.id !in alerted && now - t.lastTriggered > 300000
  {
  }

  /** An inactive target neither alerts nor changes the set. */
  lemma InactiveUntouched(alerted: set<string>, t: TargetLocation, distance: Distance, now: int)
    requires !t.isActive
    ensures Step(alerted, t, distance, now) == StepResult(alerted, false)
  {
  }

  /** After an alert the id is in the set, so no later fix inside the radius alerts again. */
  lemma NoRepeatWhileInside(alerted: set<string>, t: TargetLocation, d1: Distance, now1: int, d2: Distance, now2: int)
    requires Step(alerted, t, d1, now1).fired
    requires InRange(t, d2)
    ensures t.id in Step(alerted, t, d1, now1).alerted
    ensures Step(Step(alerted, t, d1, now1).alerted, t, d2, now2) == StepResult(Step(alerted, t, d1, now1).alerted, false)
  {
  }

  /** An active target's fix strictly outside the radius drops its id from the set. */
  lemma OutsideRearms(alerted: set<string>, t: TargetLocation, distance: Distance, now: int)
    requires t.isActive && !InRange(t, distance)
    ensures Step(alerted, t, distance, now) == StepResult(alerted - {t.id}, false)
  {
  }

  /**
   * Inside the radius before the cooldown has passed: no alert and the set
   * unchanged, so a later fix past the cooldown still alerts.
   */
  lemma CooldownDefers(alerted: set<string>, t: TargetLocation, d1: Distance, now1: int, d2: Distance, now2: int)
    requires t.isActive && t.id !in alerted
    requires InRange(t, d1) && !CooledDown(t, now1)
    requires InRange(t, d2) && CooledDown(t, now2)
    ensures Step(alerted, t, d1, now1) == StepResult(alerted, false)
    ensures Step(Step(alerted, t, d1, now1).alerted, t, d2, now2).fired
  {
  }

  /** A step's membership of the target's own id depends only on whether it was a member before. */
  lemma StepLocal(a1: set<string>, a2: set<string>, t: TargetLocation, distance: Distance, now: int)
    requires t.id in a1 <==> t.id in a2
    ensures Step(a1, t, distance, now).fired == Step(a2, t, distance, now).fired
    ensures t.id in Step(a1, t, distance, now).alerted <==> t.id in Step(a2, t, distance, now).alerted
  {
  }

  /** The test "this target alerts when walked first from `alerted`". */
  function FiresFrom(alerted: set<string>, distanceTo: TargetLocation -> Distance, now: int): TargetLocation -> bool {
    t => Step(alerted, t, distanceTo(t), now).fired
  }

  /**
   * When the ids are distinct the targets do not interfere: the pass alerts
   * on exactly the targets that would alert on their own, in list order;
   * a listed id ends up in the set as its own step leaves it; any other id
   * keeps its membership.
   */
  lemma {:induction false} SweepIndependent(alerted: set<string>, targets: seq<TargetLocation>, distanceTo: TargetLocation -> Distance, now: int)
    requires DistinctIds(targets)
    ensures Sweep(alerted, targets, distanceTo, now).fired == StableSort.Filter(targets, FiresFrom(alerted, distanceTo, now))
    ensures forall i :: 0 <= i < |targets| ==>
              (targets[i].id in Sweep(alerted, targets, distanceTo, now).alerted <==>
               targets[i].id in Step(alerted, targets[i], distanceTo(targets[i]), now).alerted)
    ensures forall id :: (forall i :: 0 <= i < |targets| ==> targets[i].id != id) ==>
              (id in Sweep(alerted, targets, distanceTo, now).alerted <==> id in alerted)
  {
    if targets != [] {
      var init, t := targets[..|targets| - 1], targets[|targets| - 1];
      assert targets == init + [t];
      SweepIndependent(alerted, init, distanceTo, now);
      var prev := Sweep(alerted, init, distanceTo, now);
      assert forall i :: 0 <= i < |init| ==> init[i].id != t.id;
      StepLocal(prev.alerted, alerted, t, distanceTo(t), now);
      StableSort.FilterAppend(init, [t], FiresFrom(alerted, distanceTo, now));
      var r := Sweep(alerted, targets, distanceTo, now);
      forall i | 0 <= i < |targets|
        ensures targets[i].id in r.alerted <==> targets[i].id in Step(alerted, targets[i], distanceTo(targets[i]), now).alerted
      {
        if i < |init| {
          assert targets[i] == init[i];
        }
      }
    }
  }

  /** `ACTION_START` / `ACTION_STOP` of the companion object. */
  const ActionStart: string := "ACTION_START"
  const ActionStop: string := "ACTION_STOP"

  /** Android's `Service.START_STICKY`. */
  const StartSticky: int := 1

  datatype Command = Start | Stop | Ignore

  /** `when (intent?.action)`: a null intent or any other action does nothing. */
  function CommandFor(action: Option<string>): (c: Command)
    ensures c == Start <==> action == Some(ActionStart)
    ensures c == Stop <==> action == Some(ActionStop)
  {
    if action == Some(ActionStart) then Start
    else if action == Some(ActionStop) then Stop
    else Ignore
  }

  class LocationTrackingService {
    /** The ids alerted on and not yet left, kept in memory only. */
    var alertedTargets: set<string>
    /** Whether location updates are registered and the foreground notification is up. */
    var tracking: bool
    const repository: TargetRepository.TargetRepositoryImpl

    constructor (repository: TargetRepository.TargetRepositoryImpl)
      ensures alertedTargets == {} && !tracking && this.repository == repository
    {
      alertedTargets := {};
      tracking := false;
      this.repository := repository;
    }

    /**
     * `onStartCommand`: START brings up tracking, STOP tears it down, any
     * other intent leaves it; the alert set is not touched; the answer is
     * always START_STICKY.
     */
    method OnStartCommand(action: Option<string>) returns (result: int)
      modifies this
      ensures result == StartSticky
      ensures tracking == match CommandFor(action) case Start => true case Stop => false case Ignore => old(tracking)
      ensures alertedTargets == old(alertedTargets)
    {
      match CommandFor(action) {
        case Start => tracking := true;
        case Stop => tracking := false;
        case Ignore =>
      }
      result := StartSticky;
    }

    /**
     * `checkProximity` for one fix: reads every stored target, walks the
     * active ones, and returns the snapshot read and the targets an alert
     * (notification and speech) was raised for. Nothing in the store is
     * written.
     */
    method CheckProximity(distanceTo: TargetLocation -> Distance, now: int) returns (targets: seq<TargetLocation>, alerts: seq<TargetLocation>)
      requires repository.dao.Valid()
      modifies this
      ensures |targets| == |repository.dao.rows| && DistinctIds(targets)
      ensures forall i :: 0 <= i < |targets| ==> targets[i].id in repository.dao.rows
      ensures forall i :: 0 <= i < |targets| ==> TargetRepository.DomainToEntity(targets[i]) == repository.dao.rows[targets[i].id]
      ensures SweepResult(alertedTargets, alerts) == Sweep(old(alertedTargets), targets, distanceTo, now)
      ensures tracking == old(tracking)
    {
      targets := repository.GetAllTargets();
      alerts := [];
      var i := 0;
      while i < |targets|
        invariant 0 <= i <= |targets|
        invariant tracking == old(tracking)
        invariant SweepResult(alertedTargets, alerts) == Sweep(old(alertedTargets), targets[..i], distanceTo, now)
      {
        var t := targets[i];
        assert targets[..i + 1][..i] == targets[..i];
        if t.isActive {
          var distance := distanceTo(t);
          if distance <= t.radiusMeters as real {
            if t.id !in alertedTargets && now - t.lastTriggered > CooldownMillis {
              alerts := alerts + [t];
              alertedTargets := alertedTargets + {t.id};
            }
          } else {
            alertedTargets := alertedTargets - {t.id};
          }
        }
        i := i + 1;
      }
      assert targets[..i] == targets;
    }
  }

  /**
   * Because `lastTriggered` stays 0, a target alerts again on re-entry one
   * second after its first alert: leaving and re-entering is the only
   * guard.
   */
  lemma ReentryAlertsAgain()
    ensures var t := TargetLocation("t", "Ev", 0.0, 0.0, 100, true, 0);
            var first := Step({}, t, 50.0, 1000000);
            var away := Step(first.alerted, t, 500.0, 1000500);
            var back := Step(away.alerted, t, 50.0, 1001000);
            first.fired && !away.fired && back.fired
  {
  }
}
