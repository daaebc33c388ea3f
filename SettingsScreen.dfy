/**
 * The settings screen's permission switches (ui/features/settings/SettingsScreen.kt):
 * a switch on a granted permission only explains how to turn it off in the
 * system settings; on a missing one it requests, unless a request was
 * already made this session and no rationale is due, which is read as
 * "permanently denied" and answered with a redirect dialog. The dialog's
 * confirm picks the settings screen by looking for "Bildirim" in its text.
 */
module Settings {
  import opened Wrappers
  import opened Text
  import opened Permissions
  import opened Home

  /** Shown when the location switch is turned off while granted. */
  const LocationGrantedMessage: string :=
    "Konum iznini kapatmak " + "uygulamanın çalışmasını " + "durduracaktır. " +
    "Ayarlardan kapatmak " + "istiyor musunuz?"

  /** Shown when location looks permanently denied. */
  const LocationDeniedMessage: string :=
    "Konum izni kalıcı olarak " + "reddedilmiş görünüyor. " + "Kullanabilmek için " +
    "ayarlardan manuel izin " + "vermelisiniz."

  /** Shown when the notification switch is turned off while granted. */
  const NotificationGrantedMessage: string :=
    "Bildirimleri kapatmak " + "için ayarlara gitmeniz " + "gerekmektedir."

  /** Shown when notification looks permanently denied. */
  const NotificationDeniedMessage: string :=
    "Bildirim izni vermeniz " + "gerekmektedir. Ayarlara " + "giderek izni " + "açabilirsiniz."

  /** The outcome of a permission switch: the dialog text, whether a request is launched, the session flag. */
  datatype ToggleResult = ToggleResult(dialog: Option<string>, launch: bool, requested: bool)

  /** One switch's rule, for either permission. */
  function PermissionToggle(granted: bool, shouldShowRationale: bool, requested: bool, dialog: Option<string>,
                            grantedMessage: string, deniedMessage: string): (r: ToggleResult)
    ensures r.launch ==> !granted && r.requested
    ensures r.launch <==> !granted && (shouldShowRationale || !requested)
    ensures !r.launch ==> r.requested == requested
  {
    if granted then ToggleResult(Some(grantedMessage), false, requested)
    else if !shouldShowRationale && requested then ToggleResult(Some(deniedMessage), false, requested)
    else ToggleResult(dialog, true, true)
  }

  /** A granted permission's switch never requests; it opens the redirect dialog. */
  lemma GrantedOnlyRedirects(rationale: bool, requested: bool, dialog: Option<string>, gm: string, dm: string)
    ensures PermissionToggle(true, rationale, requested, dialog, gm, dm) == ToggleResult(Some(gm), false, requested)
  {
  }

  /** Asked before in this session, still missing and no rationale due: the "permanently denied" dialog, no request. */
  lemma PermanentDenialDetected(dialog: Option<string>, gm: string, dm: string)
    ensures PermissionToggle(false, false, true, dialog, gm, dm) == ToggleResult(Some(dm), false, true)
  {
  }

  /** The first attempt in a session, and every attempt while a rationale is due, launch the request. */
  lemma OtherwiseRequests(rationale: bool, requested: bool, dialog: Option<string>, gm: string, dm: string)
    requires rationale || !requested
    ensures PermissionToggle(false, rationale, requested, dialog, gm, dm) == ToggleResult(dialog, true, true)
  {
  }

  /** `status.isGranted` and `status.shouldShowRationale` of the notification permission state. */
  datatype PermissionStatus = PermissionStatus(isGranted: bool, shouldShowRationale: bool)

  /** `notificationPermissionState?.status?.isGranted ?: true`: below API 33 there is no state, read as granted. */
  function NotificationShownGranted(state: Option<PermissionStatus>): (granted: bool) {
    match state
    case Some(s) => s.isGranted
    case None => true
  }

  /** The confirm button's choice of settings screen. */
  function ConfirmAction(message: string): (a: string)
    ensures a == ActionAppNotificationSettings <==> Contains(message, "Bildirim", false)
    ensures a == ActionAppNotificationSettings || a == ActionApplicationDetailsSettings
  {
    if Contains(message, "Bildirim", false) then ActionAppNotificationSettings else ActionApplicationDetailsSettings
  }

  /** Each dialog leads to the right screen: location texts to the app's details, notification texts to its notification settings. */
  lemma DialogsRouteCorrectly()
    ensures ConfirmAction(LocationGrantedMessage) == ActionApplicationDetailsSettings
    ensures ConfirmAction(LocationDeniedMessage) == ActionApplicationDetailsSettings
    ensures ConfirmAction(NotificationGrantedMessage) == ActionAppNotificationSettings
    ensures ConfirmAction(NotificationDeniedMessage) == ActionAppNotificationSettings
  {
    NotContainsWithoutFirstChar(LocationGrantedMessage, "Bildirim");
    NotContainsWithoutFirstChar(LocationDeniedMessage, "Bildirim");
    assert NotificationGrantedMessage[0..8] == "Bildirim";
    ContainsPrefix(NotificationGrantedMessage, "Bildirim", 0);
    assert NotificationDeniedMessage[0..8] == "Bildirim";
    ContainsPrefix(NotificationDeniedMessage, "Bildirim", 0);
  }

  class SettingsState {
    var showSettingsRedirectDialog: Option<string>
    var hasRequestedLocationInThisSession: bool
    var hasRequestedNotificationInThisSession: bool

    constructor ()
      ensures showSettingsRedirectDialog == None
      ensures !hasRequestedLocationInThisSession && !hasRequestedNotificationInThisSession
    {
      showSettingsRedirectDialog := None;
      hasRequestedLocationInThisSession := false;
      hasRequestedNotificationInThisSession := false;
    }

    /** The location switch; `launch` is whether the system permission request is shown. */
    method OnLocationToggle(granted: bool, shouldShowRationale: bool) returns (launch: bool)
      modifies this
      ensures ToggleResult(showSettingsRedirectDialog, launch, hasRequestedLocationInThisSession) ==
              PermissionToggle(granted, shouldShowRationale, old(hasRequestedLocationInThisSession), old(showSettingsRedirectDialog),
                               LocationGrantedMessage, LocationDeniedMessage)
      ensures hasRequestedNotificationInThisSession == old(hasRequestedNotificationInThisSession)
    {
      launch := false;
      if granted {
        showSettingsRedirectDialog := Some(LocationGrantedMessage);
      } else if !shouldShowRationale && hasRequestedLocationInThisSession {
        showSettingsRedirectDialog := Some(LocationDeniedMessage);
      } else {
        launch := true;
        hasRequestedLocationInThisSession := true;
      }
    }

    /**
     * The notification switch: the same rule on API 33+, where the state
     * exists; below that it does nothing.
     */
    method OnNotificationToggle(state: Option<PermissionStatus>) returns (launch: bool)
      modifies this
      ensures state.None? ==> !launch && showSettingsRedirectDialog == old(showSettingsRedirectDialog) &&
                              hasRequestedNotificationInThisSession == old(hasRequestedNotificationInThisSession)
      ensures state.Some? ==>
              ToggleResult(showSettingsRedirectDialog, launch, hasRequestedNotificationInThisSession) ==
              PermissionToggle(state.value.isGranted, state.value.shouldShowRationale, old(hasRequestedNotificationInThisSession),
                               old(showSettingsRedirectDialog), NotificationGrantedMessage, NotificationDeniedMessage)
      ensures hasRequestedLocationInThisSession == old(hasRequestedLocationInThisSession)
    {
      launch := false;
      if state.Some? {
        if state.value.isGranted {
          showSettingsRedirectDialog := Some(NotificationGrantedMessage);
        } else if !state.value.shouldShowRationale && hasRequestedNotificationInThisSession {
          showSettingsRedirectDialog := Some(NotificationDeniedMessage);
        } else {
          launch := true;
          hasRequestedNotificationInThisSession := true;
        }
      }
    }

    /** "AYARLARA GİT": opens the chosen settings screen and closes the dialog. */
    method OnConfirm() returns (settingsAction: string)
      requires showSettingsRedirectDialog.Some?
      modifies this
      ensures settingsAction == ConfirmAction(old(showSettingsRedirectDialog).value)
      ensures showSettingsRedirectDialog == None
      ensures hasRequestedLocationInThisSession == old(hasRequestedLocationInThisSession)
      ensures hasRequestedNotificationInThisSession == old(hasRequestedNotificationInThisSession)
    {
      settingsAction := ConfirmAction(showSettingsRedirectDialog.value);
      showSettingsRedirectDialog := None;
    }

    /** Dismissing the dialog. */
    method OnDismiss()
      modifies this
      ensures showSettingsRedirectDialog == None
      ensures hasRequestedLocationInThisSession == old(hasRequestedLocationInThisSession)
      ensures hasRequestedNotificationInThisSession == old(hasRequestedNotificationInThisSession)
    {
      showSettingsRedirectDialog := None;
    }
  }

  /** The sound switch: `viewModel.notificationSound.value = it`. */
  method OnSoundToggle(vm: HomeViewModel, enabled: bool)
    modifies vm
    ensures vm.notificationSound == enabled
    ensures vm.isTracking == old(vm.isTracking) && vm.targets == old(vm.targets)
  {
    vm.SetNotificationSound(enabled);
  }
}
