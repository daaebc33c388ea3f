/**
 * The shared view model (ui/home/HomeViewModel.kt): UI state fields and the
 * operations that change them or hand over to the repositories. The
 * coroutine launches are modelled as completing at once; the random UUID
 * of a new target and the clock of a log record are parameters.
 */
module Home {
  import opened Wrappers
  import opened TargetModel
  import opened MapStyles
  import opened ThemePreferences
  import opened AppDatabase
  import opened TargetRepository
  import opened LogTable
  import opened LogRepository
  import opened TrackingService

  /** `Build.VERSION_CODES.O`, the first release with `startForegroundService`. */
  const SdkO: int := 26

  /** The intent `toggleTracking` sends, and whether it goes through `startForegroundService`. */
  datatype ServiceIntent = ServiceIntent(action: string, foreground: bool)

  function TrackingIntent(enable: bool, sdkInt: int): (r: ServiceIntent)
    ensures r.action == ActionStart <==> enable
    ensures r.action == ActionStop <==> !enable
    ensures r.foreground <==> enable && sdkInt >= SdkO
  {
    ServiceIntent(if enable then ActionStart else ActionStop, enable && sdkInt >= SdkO)
  }

  /** The intent sent by `toggleTracking(enable)` makes the service start exactly when `enable`. */
  lemma TrackingIntentReachesService(enable: bool, sdkInt: int)
    ensures CommandFor(Some(TrackingIntent(enable, sdkInt).action)) == if enable then Start else Stop
  {
  }

  /** The test log `addTestLog` writes. */
  const TestLogName: string := "Test Hedef"
  const TestLogMessage: string := "Simülasyon Girişi"

  class HomeViewModel {
    const repository: TargetRepositoryImpl
    const logRepository: LogRepositoryImpl
    const themeManager: ThemePreferenceManager

    var targets: seq<TargetLocation>
    var isTracking: bool
    var navigationTarget: Option<TargetLocation>
    var currentMapStyle: MapStyleConfig
    var notificationSound: bool

    constructor (repository: TargetRepositoryImpl, logRepository: LogRepositoryImpl, themeManager: ThemePreferenceManager)
      ensures this.repository == repository && this.logRepository == logRepository && this.themeManager == themeManager
      ensures targets == [] && !isTracking && navigationTarget == None
      ensures currentMapStyle == STANDARD && notificationSound
    {
      this.repository := repository;
      this.logRepository := logRepository;
      this.themeManager := themeManager;
      targets := [];
      isTracking := false;
      navigationTarget := None;
      currentMapStyle := STANDARD;
      notificationSound := true;
    }

    /** One emission of `repository.getTargets()` reaching `_targets`: every stored target once. */
    method FetchTargets()
      requires repository.dao.Valid()
      modifies this
      ensures |targets| == |repository.dao.rows| && DistinctIds(targets)
      ensures forall i :: 0 <= i < |targets| ==> targets[i].id in repository.dao.rows && DomainToEntity(targets[i]) == repository.dao.rows[targets[i].id]
      ensures forall id :: id in repository.dao.rows ==> exists i :: 0 <= i < |targets| && targets[i].id == id
      ensures isTracking == old(isTracking) && navigationTarget == old(navigationTarget)
      ensures currentMapStyle == old(currentMapStyle) && notificationSound == old(notificationSound)
    {
      targets := repository.GetAllTargets();
    }

    /** One emission of `themeManager.mapStyleFlow` reaching `_currentMapStyle`. */
    method OnMapStyleLoaded()
      modifies this
      ensures currentMapStyle == ReadMapStyle(themeManager.preferences)
      ensures targets == old(targets) && isTracking == old(isTracking) && navigationTarget == old(navigationTarget)
      ensures notificationSound == old(notificationSound)
    {
      currentMapStyle := themeManager.MapStyle();
    }

    /** `updateMapStyle`: shows the style at once and persists it. */
    method UpdateMapStyle(newStyle: MapStyleConfig)
      modifies this, themeManager
      ensures currentMapStyle == newStyle
      ensures themeManager.preferences == Saved(old(themeManager.preferences), newStyle)
      ensures themeManager.MapStyle() == newStyle
      ensures targets == old(targets) && isTracking == old(isTracking) && navigationTarget == old(navigationTarget)
      ensures notificationSound == old(notificationSound)
    {
      currentMapStyle := newStyle;
      themeManager.SaveMapStyle(newStyle);
    }

    /** `clearLogs` */
    method ClearLogs()
      requires Valid(logRepository.dao.Contents())
      modifies logRepository.dao
      ensures Valid(logRepository.dao.Contents())
      ensures logRepository.dao.rows == []
    {
      logRepository.ClearAll();
    }

    /** `addTestLog`: one ENTRY record for "Test Hedef", stamped `now`. */
    method AddTestLog(now: int)
      requires Valid(logRepository.dao.Contents())
      modifies logRepository.dao
      ensures Valid(logRepository.dao.Contents())
      ensures logRepository.dao.rows == old(logRepository.dao.rows) + [LogEntity(old(logRepository.dao.sequence) + 1, TestLogName, ENTRY, now, TestLogMessage)]
    {
      logRepository.LogEvent(TestLogName, ENTRY, TestLogMessage, now);
    }

    /** `toggleTargetActive`: handed to the repository unchanged. */
    method ToggleTargetActive(id: string, isActive: bool)
      requires repository.dao.Valid()
      modifies repository.dao
      ensures repository.dao.Valid()
      ensures repository.dao.rows == SetActive(old(repository.dao.rows), id, isActive)
    {
      repository.UpdateTargetStatus(id, isActive);
    }

    /**
     * `addTarget`: stores a new active, never-triggered target under the
     * fresh id `newId` with the given name, position and radius.
     */
    method AddTarget(name: string, lat: real, lng: real, radius: int, newId: string)
      requires repository.dao.Valid()
      modifies repository.dao
      ensures repository.dao.Valid()
      ensures repository.dao.rows == Upsert(old(repository.dao.rows), DomainToEntity(NewTarget(newId, name, lat, lng, radius)))
      ensures repository.GetTargetById(newId) == Some(TargetLocation(newId, name, lat, lng, radius, true, 0))
      ensures newId !in old(repository.dao.rows) ==> repository.dao.rows.Keys == old(repository.dao.rows).Keys + {newId}
    {
      var newTarget := NewTarget(newId, name, lat, lng, radius);
      repository.InsertTarget(newTarget);
    }

    /** `deleteTarget`: handed to the repository unchanged. */
    method DeleteTarget(id: string)
      requires repository.dao.Valid()
      modifies repository.dao
      ensures repository.dao.Valid()
      ensures repository.dao.rows == Delete(old(repository.dao.rows), id)
    {
      repository.DeleteTarget(id);
    }

    /** `startNavigation` */
    method StartNavigation(target: TargetLocation)
      modifies this
      ensures navigationTarget == Some(target)
      ensures targets == old(targets) && isTracking == old(isTracking)
      ensures currentMapStyle == old(currentMapStyle) && notificationSound == old(notificationSound)
    {
      navigationTarget := Some(target);
    }

    /** `stopNavigation` */
    method StopNavigation()
      modifies this
      ensures navigationTarget == None
      ensures targets == old(targets) && isTracking == old(isTracking)
      ensures currentMapStyle == old(currentMapStyle) && notificationSound == old(notificationSound)
    {
      navigationTarget := None;
    }

    /**
     * `toggleTracking(enable)`: records the new state and returns the intent
     * sent to the tracking service (START iff `enable`; through
     * `startForegroundService` iff starting on API 26 or later).
     */
    method ToggleTracking(enable: bool, sdkInt: int) returns (intent: ServiceIntent)
      modifies this
      ensures isTracking == enable
      ensures intent == TrackingIntent(enable, sdkInt)
      ensures targets == old(targets) && navigationTarget == old(navigationTarget)
      ensures currentMapStyle == old(currentMapStyle) && notificationSound == old(notificationSound)
    {
      isTracking := enable;
      var action := if enable then ActionStart else ActionStop;
      if enable {
        if sdkInt >= SdkO {
          intent := ServiceIntent(action, true);
        } else {
          intent := ServiceIntent(action, false);
        }
      } else {
        intent := ServiceIntent(action, false);
      }
    }

    /** The settings screen's sound switch assigning `notificationSound`. */
    method SetNotificationSound(enabled: bool)
      modifies this
      ensures notificationSound == enabled
      ensures targets == old(targets) && isTracking == old(isTracking) && navigationTarget == old(navigationTarget)
      ensures currentMapStyle == old(currentMapStyle)
    {
      notificationSound := enabled;
    }
  }
}
