/**
 * The map screen's own logic (ui/features/map/MapScreen.kt): the location
 * button's permission state machine with its one-time "first click" flag,
 * the settings dialog, the copy of the distance label, the active/total
 * counter, and the handlers handed to the view model.
 */
module MapScreen {
  import opened Wrappers
  import opened Text
  import opened TargetModel
  import StableSort
  import opened AppDatabase
  import opened CompactItem
  import opened Permissions
  import opened Home

  /** What a click on the location button does. */
  datatype Click = AnimateToUser | NoAction | RequestPermission | OpenDialog

  /** The state after a click: the effect and the two flags. */
  datatype ButtonResult = ButtonResult(click: Click, isFirstPermissionClick: bool, showSettingsDialog: bool)

  /** The button's decision for the given grant and rationale state. */
  function LocationButton(granted: bool, shouldShowRationale: bool, hasUserLocation: bool, isFirst: bool, showDialog: bool): (r: ButtonResult)
    ensures r.isFirstPermissionClick ==> isFirst
    ensures showDialog ==> r.showSettingsDialog
  {
    if granted then ButtonResult(if hasUserLocation then AnimateToUser else NoAction, isFirst, showDialog)
    else if shouldShowRationale then ButtonResult(RequestPermission, isFirst, showDialog)
    else if isFirst then ButtonResult(RequestPermission, false, showDialog)
    else ButtonResult(OpenDialog, isFirst, true)
  }

  /** Denied with no rationale: the first click requests and clears the flag; later clicks open the dialog. */
  lemma BlockedClicks(hasUserLocation: bool, showDialog: bool)
    ensures LocationButton(false, false, hasUserLocation, true, showDialog) == ButtonResult(RequestPermission, false, showDialog)
    ensures LocationButton(false, false, hasUserLocation, false, showDialog) == ButtonResult(OpenDialog, false, true)
  {
  }

  /** The rationale branch requests without touching the flag; the granted branch changes neither flag. */
  lemma RationaleAndGrantedKeepFlags(rationale: bool, hasUserLocation: bool, isFirst: bool, showDialog: bool)
    ensures var r := LocationButton(false, true, hasUserLocation, isFirst, showDialog);
            r.click == RequestPermission && r.isFirstPermissionClick == isFirst && r.showSettingsDialog == showDialog
    ensures var r := LocationButton(true, rationale, hasUserLocation, isFirst, showDialog);
            r.click != RequestPermission && r.isFirstPermissionClick == isFirst && r.showSettingsDialog == showDialog
  {
  }

  /** The number of permission requests over `n` clicks while denied with no rationale. */
  function BlockedRequests(isFirst: bool, n: nat): (count: nat) {
    if n == 0 then 0
    else
      var r := LocationButton(false, false, false, isFirst, false);
      (if r.click == RequestPermission then 1 else 0) + BlockedRequests(r.isFirstPermissionClick, n - 1)
  }

  /** However often the user taps while blocked, at most one request is launched (none once the flag is cleared). */
  lemma {:induction false} AtMostOneBlockedRequest(isFirst: bool, n: nat)
    ensures BlockedRequests(isFirst, n) <= (if isFirst && n > 0 then 1 else 0)
  {
    if n > 0 {
      AtMostOneBlockedRequest(false, n - 1);
    }
  }

  /** The map's label shows "CALC..." until a user location is known. */
  function MapItemLabel(distance: Option<Distance>, formatKm: int -> string): (s: string)
    ensures distance.None? ==> s == "CALC..."
    ensures distance.Some? ==> s == ItemLabel(distance, formatKm)
  {
    DistanceLabel(distance, "CALC...", formatKm)
  }

  /** The counter's numbers: the active targets, and all targets. */
  function Counter(targets: seq<TargetLocation>): (r: (nat, nat))
    ensures r.0 == |set i | 0 <= i < |targets| && targets[i].isActive|
    ensures r.1 == |targets| && r.0 <= r.1
  {
    OnlineCount(targets);
    (|StableSort.Filter(targets, Online)|, |targets|)
  }

  /** The `it.isActive` of `targets.count { it.isActive }`. */
  function Online(t: TargetLocation): bool {
    t.isActive
  }

  /** The counted actives are the active positions. */
  lemma OnlineCount(targets: seq<TargetLocation>)
    ensures |StableSort.Filter(targets, Online)| == |set i | 0 <= i < |targets| && targets[i].isActive|
  {
    var p: TargetLocation -> bool := Online;
    StableSort.FilterCount(targets, p);
    assert StableSort.Positions(targets, p) == (set i | 0 <= i < |targets| && targets[i].isActive);
  }

  /** The counter `"${active} / ${total} ONLINE"`. */
  function CounterText(targets: seq<TargetLocation>): (s: string)
    ensures s == NatToString(|set i | 0 <= i < |targets| && targets[i].isActive|) + " / " + NatToString(|targets|) + " ONLINE"
  {
    var (active, total) := Counter(targets);
    NatToString(active) + " / " + NatToString(total) + " ONLINE"
  }

  class MapScreenState {
    var isFirstPermissionClick: bool
    var showSettingsDialog: bool

    constructor ()
      ensures isFirstPermissionClick && !showSettingsDialog
    {
      isFirstPermissionClick := true;
      showSettingsDialog := false;
    }

    /** The location button's `onClick`. */
    method OnLocationButton(granted: bool, shouldShowRationale: bool, hasUserLocation: bool) returns (click: Click)
      modifies this
      ensures ButtonResult(click, isFirstPermissionClick, showSettingsDialog) ==
              LocationButton(granted, shouldShowRationale, hasUserLocation, old(isFirstPermissionClick), old(showSettingsDialog))
    {
      if granted {
        click := if hasUserLocation then AnimateToUser else NoAction;
      } else {
        if shouldShowRationale {
          click := RequestPermission;
        } else {
          if isFirstPermissionClick {
            click := RequestPermission;
            isFirstPermissionClick := false;
          } else {
            click := OpenDialog;
            showSettingsDialog := true;
          }
        }
      }
    }

    /** The dialog's confirm: closes it and opens the app's details settings. */
    method OnDialogConfirm() returns (settingsAction: string)
      modifies this
      ensures !showSettingsDialog && isFirstPermissionClick == old(isFirstPermissionClick)
      ensures settingsAction == ActionApplicationDetailsSettings
    {
      showSettingsDialog := false;
      settingsAction := ActionApplicationDetailsSettings;
    }

    /** The dialog's dismiss. */
    method OnDialogDismiss()
      modifies this
      ensures !showSettingsDialog && isFirstPermissionClick == old(isFirstPermissionClick)
    {
      showSettingsDialog := false;
    }
  }

  /** The play/stop button: `toggleTracking(!isTracking)`. */
  method OnPlayButton(vm: HomeViewModel, sdkInt: int) returns (intent: ServiceIntent)
    modifies vm
    ensures vm.isTracking == !old(vm.isTracking)
    ensures intent == TrackingIntent(!old(vm.isTracking), sdkInt)
    ensures vm.targets == old(vm.targets) && vm.navigationTarget == old(vm.navigationTarget)
  {
    intent := vm.ToggleTracking(!vm.isTracking, sdkInt);
  }

  /** A row's switch: `toggleTargetActive(target.id, !target.isActive)`. */
  method OnTargetSwitch(vm: HomeViewModel, target: TargetLocation)
    requires vm.repository.dao.Valid()
    modifies vm.repository.dao
    ensures vm.repository.dao.Valid()
    ensures vm.repository.dao.rows == SetActive(old(vm.repository.dao.rows), target.id, !target.isActive)
  {
    vm.ToggleTargetActive(target.id, !target.isActive);
  }
}
