/**
 * The permission helper `rememberPermissionAction` (utils/Extensions.kt):
 * the trigger that decides which request to launch or whether to run
 * `onGranted`, the two launcher callbacks, and the "go to settings" dialog.
 * Platform queries (held permissions, `shouldShowRequestPermissionRationale`,
 * the API level) are parameters.
 */
module Permissions {
  import opened Wrappers

  /** `Build.VERSION_CODES.TIRAMISU`: runtime notification permission exists from here on. */
  const SdkTiramisu: int := 33

  /** `Settings.ACTION_APP_NOTIFICATION_SETTINGS` */
  const ActionAppNotificationSettings: string := "android.settings.APP_NOTIFICATION_SETTINGS"
  /** `Settings.ACTION_APPLICATION_DETAILS_SETTINGS` */
  const ActionApplicationDetailsSettings: string := "android.settings.APPLICATION_DETAILS_SETTINGS"

  datatype PermissionType = NOTIFICATION | LOCATION {
    function Title(): string {
      match this
      case NOTIFICATION => "Bildirim İzni Gerekli"
      case LOCATION => "Konum İzni Gerekli"
    }

    /** The settings screen the dialog opens for this permission. */
    function Action(): (a: string)
      ensures a == ActionAppNotificationSettings <==> this == NOTIFICATION
    {
      match this
      case NOTIFICATION => ActionAppNotificationSettings
      case LOCATION => ActionApplicationDetailsSettings
    }
  }

  /** What a callback does next. */
  datatype Effect = RunGranted | LaunchNotificationRequest | LaunchLocationRequest | NoEffect

  /** The permissions the app holds at the moment of the call. */
  datatype Held = Held(notification: bool, fineLocation: bool)

  /** Notification is asked for only when required and the platform has the runtime permission. */
  predicate NotificationApplies(notificationRequired: bool, sdkInt: int) {
    notificationRequired && sdkInt >= SdkTiramisu
  }

  /** The returned trigger lambda: notification first, then location, then `onGranted`. */
  function Trigger(notificationRequired: bool, locationRequired: bool, sdkInt: int, held: Held): (e: Effect)
    ensures e != NoEffect
  {
    if NotificationApplies(notificationRequired, sdkInt) then
      if !held.notification then LaunchNotificationRequest
      else if locationRequired then
        if !held.fineLocation then LaunchLocationRequest else RunGranted
      else RunGranted
    else if locationRequired then
      if !held.fineLocation then LaunchLocationRequest else RunGranted
    else RunGranted
  }

  /** `onGranted` runs at once iff every permission that applies is already held. */
  lemma TriggerGrantedIff(notificationRequired: bool, locationRequired: bool, sdkInt: int, held: Held)
    ensures Trigger(notificationRequired, locationRequired, sdkInt, held) == RunGranted <==>
            (NotificationApplies(notificationRequired, sdkInt) ==> held.notification) &&
            (locationRequired ==> held.fineLocation)
  {
  }

  /** A missing notification permission is asked for first, and alone. */
  lemma TriggerNotificationFirst(notificationRequired: bool, locationRequired: bool, sdkInt: int, held: Held)
    ensures Trigger(notificationRequired, locationRequired, sdkInt, held) == LaunchNotificationRequest <==>
            NotificationApplies(notificationRequired, sdkInt) && !held.notification
  {
  }

  /** Location is asked for iff notification is settled and a required location permission is missing. */
  lemma TriggerLocationNext(notificationRequired: bool, locationRequired: bool, sdkInt: int, held: Held)
    ensures Trigger(notificationRequired, locationRequired, sdkInt, held) == LaunchLocationRequest <==>
            (NotificationApplies(notificationRequired, sdkInt) ==> held.notification) &&
            locationRequired && !held.fineLocation
  {
  }

  /** With nothing required, or below API 33 with only notification required, `onGranted` runs. */
  lemma NothingRequiredRuns(sdkInt: int, held: Held)
    ensures Trigger(false, false, sdkInt, held) == RunGranted
    ensures sdkInt < SdkTiramisu ==> Trigger(true, false, sdkInt, held) == RunGranted
  {
  }

  /** `permissions.values.all { it }` */
  predicate AllGranted(results: map<string, bool>) {
    forall p :: p in results ==> results[p]
  }

  /** An empty result (a cancelled request) counts as all granted. */
  lemma EmptyResultCountsAsGranted()
    ensures AllGranted(map[])
    ensures !AllGranted(map["android.permission.ACCESS_FINE_LOCATION" := false])
  {
    assert map["android.permission.ACCESS_FINE_LOCATION" := false]["android.permission.ACCESS_FINE_LOCATION"] == false;
  }

  /** The helper's `showSettingsDialog`. */
  class PermissionDialogState {
    var showSettingsDialog: Option<PermissionType>

    constructor ()
      ensures showSettingsDialog == None
    {
      showSettingsDialog := None;
    }

    /**
     * The location launcher's callback: runs `onGranted` iff every result is
     * granted; otherwise, when no rationale is due (permanently denied),
     * sets the LOCATION dialog.
     */
    method OnLocationResult(results: map<string, bool>, fineRationale: bool) returns (e: Effect)
      modifies this
      ensures e == RunGranted <==> AllGranted(results)
      ensures e == RunGranted || e == NoEffect
      ensures showSettingsDialog == if !AllGranted(results) && !fineRationale then Some(LOCATION) else old(showSettingsDialog)
    {
      if AllGranted(results) {
        e := RunGranted;
      } else {
        e := NoEffect;
        if !fineRationale {
          showSettingsDialog := Some(LOCATION);
        }
      }
    }

    /**
     * The notification launcher's callback: on grant, continues to the
     * location request when location is required and missing, otherwise
     * runs `onGranted`; on denial on API 33+ with no rationale due, sets the
     * NOTIFICATION dialog.
     */
    method OnNotificationResult(isGranted: bool, locationRequired: bool, held: Held, sdkInt: int, notificationRationale: bool) returns (e: Effect)
      modifies this
      ensures isGranted ==> e == (if locationRequired && !held.fineLocation then LaunchLocationRequest else RunGranted)
      ensures isGranted ==> showSettingsDialog == old(showSettingsDialog)
      ensures !isGranted ==> e == NoEffect
      ensures !isGranted ==> showSettingsDialog == if sdkInt >= SdkTiramisu && !notificationRationale then Some(NOTIFICATION) else old(showSettingsDialog)
    {
      if isGranted {
        if locationRequired {
          if held.fineLocation {
            e := RunGranted;
          } else {
            e := LaunchLocationRequest;
          }
        } else {
          e := RunGranted;
        }
      } else {
        e := NoEffect;
        if sdkInt >= SdkTiramisu {
          if !notificationRationale {
            showSettingsDialog := Some(NOTIFICATION);
          }
        }
      }
    }

    /** "AYARLARI AÇ": closes the dialog and opens the settings screen for its type. */
    method OnConfirm() returns (settingsAction: string)
      requires showSettingsDialog.Some?
      modifies this
      ensures showSettingsDialog == None
      ensures settingsAction == old(showSettingsDialog).value.Action()
    {
      settingsAction := showSettingsDialog.value.Action();
      showSettingsDialog := None;
    }

    /** "İPTAL" or a dismiss: closes the dialog. */
    method OnDismiss()
      modifies this
      ensures showSettingsDialog == None
    {
      showSettingsDialog := None;
    }
  }
}
