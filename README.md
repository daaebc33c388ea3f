# TargetPing core, modelled in Dafny

TargetPing is an Android app that raises an alert when the device enters
the radius of a stored geofence target. This project models the app's
rule-bearing core and proves properties about it.

- **Alert engine.** The foreground tracking service walks the stored targets on every location fix. It alerts on an active target that is inside its radius, not yet in the in-memory `alertedTargets` set and past a five-minute cooldown. It removes a target from that set when a fix falls outside the radius. A separate stateless use case applies the same in-radius and cooldown filter.
- **Storage.**
  - The Room `targets` table: insert-or-replace, delete by id, update `isActive`, read.
  - Its mappers to and from the domain record, and the repository on top.
  - The `activity_logs` table: auto-increment ids, a newest-first read, clear.
  - Its repository.
  - The DataStore entry holding the chosen map style, and the map style table with its key lookup.
- **Screen state.**
  - The shared view model.
  - The target list: filter, sort and swipe-to-delete with undo.
  - The distance label.
  - The map screen's location-button state machine.
  - The two copies of the target editor.
  - The calculator lock screen of stealth mode.
  - The permission-request helper.
  - The settings screen's permission switches.

## Representation

- One Dafny module per Kotlin file:
  - `TrackingService`, `ProximityUseCase`, `AppDatabase`, `TargetRepository`
  - `LogTable`, `LogRepository`, `Home`, `TargetsList`, `CompactItem`
  - `MapScreen`, `AddEdit`, `HomeEditor`, `Calculator`, `Permissions`
  - `Settings`, `MapStyles`, `ThemePreferences`
- Supporting modules:
  - `Wrappers` (`Option`), `TargetModel` (the domain record).
  - `Text`: Kotlin's `Int.toString`, `toIntOrNull`, `isBlank`, case-insensitive `contains` and string order.
  - `StableSort`: `filter` and a stable `sortedWith`, with sortedness, permutation and stability proved.
- Objects whose fields the code reassigns are classes. Each method's `ensures` gives the whole new state as a function of the old one:
  - DAOs, repositories, the view model and the service;
  - screen state held in `remember { mutableStateOf(..) }`.
- Pure rules are functions with lemmas.
- Inputs that come from the platform are parameters:
  - distance (`Location.distanceBetween`), a non-negative `real`, as the source keeps it in a `Float`;
  - the clock (`now`), the random UUID of a new target (`newId`), the API level (`sdkInt`);
  - held permissions and `shouldShowRequestPermissionRationale`.
- Every coroutine `launch` is modelled as completing before the next event.

## Model

| member | source | states |
|---|---|---|
| MapStyles.MapStyleConfig.Type | app/src/main/java/com/vahitkeskin/targetping/domain/model/MapStyleConfig.kt:13-25 | the map type is HYBRID exactly for the HYBRID entry, NORMAL for the six others |
| MapStyles.Find | app/src/main/java/com/vahitkeskin/targetping/domain/model/MapStyleConfig.kt:30 | a found entry is one of the listed entries and carries the key searched for |
| MapStyles.EntriesComplete | app/src/main/java/com/vahitkeskin/targetping/domain/model/MapStyleConfig.kt:15-26 | every style is in `entries`, each exactly once |
| MapStyles.StorageKeysDistinct | app/src/main/java/com/vahitkeskin/targetping/domain/model/MapStyleConfig.kt:15-25 | two styles with the same storage key are the same style |
| MapStyles.FindPresent | app/src/main/java/com/vahitkeskin/targetping/domain/model/MapStyleConfig.kt:30 | searching any list holding a style for that style's key finds that style |
| MapStyles.FindAbsent | app/src/main/java/com/vahitkeskin/targetping/domain/model/MapStyleConfig.kt:30 | a string that is no style's key is found in no list |
| MapStyles.FromKeyRoundTrip | app/src/main/java/com/vahitkeskin/targetping/domain/model/MapStyleConfig.kt:29-31 | `fromKey(s.storageKey) == s` for every style |
| MapStyles.FromKeyUnknown | app/src/main/java/com/vahitkeskin/targetping/domain/model/MapStyleConfig.kt:30 | an unknown key gives STANDARD |
| MapStyles.FromKeyCharacterized | app/src/main/java/com/vahitkeskin/targetping/domain/model/MapStyleConfig.kt:29-31 | `fromKey(key) == s` iff key is s's storage key, or s is STANDARD and the key is unknown |
| MapStyles.JsonStyleExactlyForStyled | app/src/main/java/com/vahitkeskin/targetping/domain/model/MapStyleConfig.kt:15-25 | exactly HYBRID and STANDARD have no JSON style resource |
| ThemePreferences.ReadDefault | app/src/main/java/com/vahitkeskin/targetping/data/local/ThemePreferenceManager.kt:23-24 | with no stored `map_style_config` entry the read gives HYBRID |
| ThemePreferences.ReadUnknown | app/src/main/java/com/vahitkeskin/targetping/data/local/ThemePreferenceManager.kt:24 | a stored string that is no style's key reads as STANDARD |
| ThemePreferences.Saved | app/src/main/java/com/vahitkeskin/targetping/data/local/ThemePreferenceManager.kt:28-32 | saving sets `map_style_config` to the style's key; every other entry keeps its presence and value |
| ThemePreferences.SaveThenRead | app/src/main/java/com/vahitkeskin/targetping/data/local/ThemePreferenceManager.kt:21-32 | reading after saving a style gives that style |
| ThemePreferences.SaveIdempotent | app/src/main/java/com/vahitkeskin/targetping/data/local/ThemePreferenceManager.kt:28-32 | saving the same style twice equals saving it once |
| ThemePreferences.ThemePreferenceManager.SaveMapStyle | app/src/main/java/com/vahitkeskin/targetping/data/local/ThemePreferenceManager.kt:28-32 | the preference map becomes `Saved(old, style)` and then reads back as the style |
| ProximityUseCase.CheckProximity | app/src/main/java/com/vahitkeskin/targetping/domain/usecase/CheckProximityUseCase.kt:10-22 | the result is never longer than the input |
| ProximityUseCase.ResultIsSubsequence | app/src/main/java/com/vahitkeskin/targetping/domain/usecase/CheckProximityUseCase.kt:10 | the result is a subsequence of the input: order kept, nothing added |
| ProximityUseCase.KeptIff | app/src/main/java/com/vahitkeskin/targetping/domain/usecase/CheckProximityUseCase.kt:20-21 | a target is returned iff it is in the input, `distance <= radiusMeters` and `now - lastTriggered > 300000`; `isActive` plays no part |
| ProximityUseCase.Idempotent | app/src/main/java/com/vahitkeskin/targetping/domain/usecase/CheckProximityUseCase.kt:10-22 | at the same `now`, filtering the result again returns it unchanged |
| ProximityUseCase.NeverTriggeredCooledDown | app/src/main/java/com/vahitkeskin/targetping/domain/usecase/CheckProximityUseCase.kt:19-21 | with `lastTriggered == 0` the cooldown has passed iff `now > 300000` |
| ProximityUseCase.Boundaries | app/src/main/java/com/vahitkeskin/targetping/domain/usecase/CheckProximityUseCase.kt:20-21 | a distance equal to the radius is inside; exactly 300000 ms elapsed is not past the cooldown, 300001 ms is |
| AppDatabase.DefaultsAgree | app/src/main/java/com/vahitkeskin/targetping/data/local/AppDatabase.kt:25 | a new domain target maps to a row whose `lastTriggered` takes the column default 0, and back |
| AppDatabase.MappersInverse | app/src/main/java/com/vahitkeskin/targetping/data/local/AppDatabase.kt:27-39 | `toEntity(toDomain(e)) == e` and `toDomain(toEntity(t)) == t` |
| AppDatabase.Lookup | app/src/main/java/com/vahitkeskin/targetping/data/local/AppDatabase.kt:50-51 | a row is found iff its id is a key; in a table keyed by id, the row found carries that id |
| AppDatabase.Upsert | app/src/main/java/com/vahitkeskin/targetping/data/local/AppDatabase.kt:53-54 | REPLACE insert: the new row is the one under its id, every other id looks up as before, the table stays keyed by id |
| AppDatabase.Delete | app/src/main/java/com/vahitkeskin/targetping/data/local/AppDatabase.kt:56-57 | the id is gone, every other id looks up as before, an absent id leaves the table unchanged |
| AppDatabase.SetActive | app/src/main/java/com/vahitkeskin/targetping/data/local/AppDatabase.kt:59-60 | only `isActive` of the matching row changes; other rows are unchanged; an absent id is a no-op |
| AppDatabase.UpsertDeleteIdempotent | app/src/main/java/com/vahitkeskin/targetping/data/local/AppDatabase.kt:53-57 | inserting the same row twice, or deleting the same id twice, equals doing it once |
| AppDatabase.DeleteAfterUpsert | app/src/main/java/com/vahitkeskin/targetping/data/local/AppDatabase.kt:53-57 | inserting a row and then deleting its id equals just deleting the id |
| AppDatabase.TargetDao.GetTargetById | app/src/main/java/com/vahitkeskin/targetping/data/local/AppDatabase.kt:50-51 | returns the row stored under the id, or null iff there is none |
| AppDatabase.TargetDao.GetAllTargetsOneShot | app/src/main/java/com/vahitkeskin/targetping/data/local/AppDatabase.kt:47-48 | returns every stored row exactly once, with distinct ids, as many rows as the table holds |
| AppDatabase.TargetDao.InsertTarget | app/src/main/java/com/vahitkeskin/targetping/data/local/AppDatabase.kt:53-54 | the table becomes `Upsert(old, row)` and stays keyed by id |
| AppDatabase.TargetDao.DeleteTarget | app/src/main/java/com/vahitkeskin/targetping/data/local/AppDatabase.kt:56-57 | the table becomes `Delete(old, id)` and stays keyed by id |
| AppDatabase.TargetDao.UpdateTargetStatus | app/src/main/java/com/vahitkeskin/targetping/data/local/AppDatabase.kt:59-60 | the table becomes `SetActive(old, id, isActive)` and stays keyed by id |
| TargetRepository.PrivateMappers | app/src/main/java/com/vahitkeskin/targetping/data/repository/TargetRepositoryImpl.kt:50-72 | the repository's private mappers are mutual inverses and agree with the entity's public ones |
| TargetRepository.MapToDomain | app/src/main/java/com/vahitkeskin/targetping/data/repository/TargetRepositoryImpl.kt:24 | same length; each target has its row's id and maps back to that row |
| TargetRepository.Find | app/src/main/java/com/vahitkeskin/targetping/data/repository/TargetRepositoryImpl.kt:28-30 | a target is found iff its id is stored, and it maps back to the stored row |
| TargetRepository.InsertThenFind | app/src/main/java/com/vahitkeskin/targetping/data/repository/TargetRepositoryImpl.kt:33-35 | after `insertTarget(t)`, `getTargetById(t.id)` returns `t` |
| TargetRepository.DeleteThenFind | app/src/main/java/com/vahitkeskin/targetping/data/repository/TargetRepositoryImpl.kt:38-40 | after `deleteTarget(id)`, `getTargetById(id)` returns null |
| TargetRepository.UpdateThenFind | app/src/main/java/com/vahitkeskin/targetping/data/repository/TargetRepositoryImpl.kt:43-45 | after `updateTargetStatus(id, b)` the target reads back with `isActive == b` and every other field unchanged; an absent id stays absent |
| TargetRepository.TargetRepositoryImpl.GetAllTargets | app/src/main/java/com/vahitkeskin/targetping/data/repository/TargetRepositoryImpl.kt:23-25 | every stored row once, mapped to the domain, as many as there are rows, ids distinct |
| TargetRepository.TargetRepositoryImpl.GetTargetById | app/src/main/java/com/vahitkeskin/targetping/data/repository/TargetRepositoryImpl.kt:28-30 | the stored row under the id, mapped, or null iff none |
| TargetRepository.TargetRepositoryImpl.InsertTarget | app/src/main/java/com/vahitkeskin/targetping/data/repository/TargetRepositoryImpl.kt:33-35 | the table becomes `Upsert(old, toEntity(t))` and `getTargetById(t.id)` then returns `t` |
| TargetRepository.TargetRepositoryImpl.DeleteTarget | app/src/main/java/com/vahitkeskin/targetping/data/repository/TargetRepositoryImpl.kt:38-40 | the table becomes `Delete(old, id)` and `getTargetById(id)` then returns null |
| TargetRepository.TargetRepositoryImpl.UpdateTargetStatus | app/src/main/java/com/vahitkeskin/targetping/data/repository/TargetRepositoryImpl.kt:43-45 | the table becomes `SetActive(old, id, isActive)` |
| LogTable.Insert | app/src/main/java/com/vahitkeskin/targetping/data/local/dao/LogDao.kt:14-15 | the row is added, with id 0 replaced by the next sequence value, iff its id is free (a plain `@Insert` aborts on a taken key); the rows gain exactly that one record; ids stay distinct |
| LogTable.Clear | app/src/main/java/com/vahitkeskin/targetping/data/local/dao/LogDao.kt:17-18 | the table is empty, and the table's invariant is kept |
| LogTable.NewerFirstIsPreorder | app/src/main/java/com/vahitkeskin/targetping/data/local/dao/LogDao.kt:11 | `ORDER BY timestamp DESC` is a total preorder on records |
| LogTable.View | app/src/main/java/com/vahitkeskin/targetping/data/local/dao/LogDao.kt:11-12 | the read holds exactly the stored rows, timestamps non-increasing |
| LogTable.AutoIdFresh | app/src/main/java/com/vahitkeskin/targetping/data/local/dao/LogDao.kt:14-15 | a record with id 0 gets an id no current row has, and is always inserted, as one more row |
| LogTable.ClearThenView | app/src/main/java/com/vahitkeskin/targetping/data/local/dao/LogDao.kt:11-18 | after `clearLogs` the read is empty |
| LogTable.InsertAfterClear | app/src/main/java/com/vahitkeskin/targetping/data/local/dao/LogDao.kt:14-18 | insert after clear leaves exactly one row, whose id exceeds every id the table held before |
| LogTable.LogDao.GetAllLogs | app/src/main/java/com/vahitkeskin/targetping/data/local/dao/LogDao.kt:11-12 | the stored rows ordered newest first |
| LogTable.LogDao.InsertLog | app/src/main/java/com/vahitkeskin/targetping/data/local/dao/LogDao.kt:14-15 | the table becomes `Insert(old, log)` when that succeeds and is unchanged otherwise; `ok` tells which |
| LogTable.LogDao.ClearLogs | app/src/main/java/com/vahitkeskin/targetping/data/local/dao/LogDao.kt:17-18 | the table becomes `Clear(old)` |
| LogRepository.LogRepositoryImpl.GetAllLogs | app/src/main/java/com/vahitkeskin/targetping/data/repository/LogRepositoryImpl.kt:14 | exactly the stored rows, timestamps non-increasing |
| LogRepository.LogRepositoryImpl.LogEvent | app/src/main/java/com/vahitkeskin/targetping/data/repository/LogRepositoryImpl.kt:16-24 | exactly one record is appended: the given name, type and message, `timestamp = now`, the next auto id |
| LogRepository.LogRepositoryImpl.ClearAll | app/src/main/java/com/vahitkeskin/targetping/data/repository/LogRepositoryImpl.kt:26 | the log is empty; the id sequence is kept |
| TrackingService.Step | app/src/main/java/com/vahitkeskin/targetping/data/service/LocationTrackingService.kt:109-137 | one target's step changes set membership of no other id |
| TrackingService.StepFiresIff | app/src/main/java/com/vahitkeskin/targetping/data/service/LocationTrackingService.kt:109-124 | an alert fires iff the target is active, `distance <= radiusMeters`, its id is not in `alertedTargets`, and `now - lastTriggered > 300000` |
| TrackingService.InactiveUntouched | app/src/main/java/com/vahitkeskin/targetping/data/service/LocationTrackingService.kt:109 | an inactive target never alerts and its membership is left unchanged |
| TrackingService.NoRepeatWhileInside | app/src/main/java/com/vahitkeskin/targetping/data/service/LocationTrackingService.kt:124-133 | after an alert the id is in the set, and a later fix inside the radius neither alerts nor changes the set |
| TrackingService.OutsideRearms | app/src/main/java/com/vahitkeskin/targetping/data/service/LocationTrackingService.kt:135-137 | a fix strictly outside the radius removes the id, with no alert |
| TrackingService.CooldownDefers | app/src/main/java/com/vahitkeskin/targetping/data/service/LocationTrackingService.kt:122-134 | inside the radius before the cooldown: no alert, set unchanged, and a later fix past the cooldown alerts |
| TrackingService.StepLocal | app/src/main/java/com/vahitkeskin/targetping/data/service/LocationTrackingService.kt:122-137 | a step reads the set only at its own id |
| TrackingService.SweepIndependent | app/src/main/java/com/vahitkeskin/targetping/data/service/LocationTrackingService.kt:105-140 | with distinct ids, a whole pass alerts exactly on the targets that would alert alone, in list order; each id ends up as its own step leaves it; ids not listed keep their membership |
| TrackingService.ReentryAlertsAgain | app/src/main/java/com/vahitkeskin/targetping/data/service/LocationTrackingService.kt:129-133 | since `lastTriggered` is never written, entering, leaving and re-entering a second later alerts twice |
| TrackingService.CommandFor | app/src/main/java/com/vahitkeskin/targetping/data/service/LocationTrackingService.kt:63-66 | START iff the action is `ACTION_START`, STOP iff it is `ACTION_STOP`, otherwise nothing |
| TrackingService.LocationTrackingService.OnStartCommand | app/src/main/java/com/vahitkeskin/targetping/data/service/LocationTrackingService.kt:62-68 | START starts tracking, STOP stops it, anything else leaves it; the alert set is untouched; the result is always START_STICKY |
| TrackingService.LocationTrackingService.CheckProximity | app/src/main/java/com/vahitkeskin/targetping/data/service/LocationTrackingService.kt:105-140 | reads every stored target once, each snapshot record equal in every field to its stored row (so `isActive`, radius and `lastTriggered` are the stored ones); the new set and the alerts raised equal `Sweep` of the old set over that snapshot; nothing is written to the store |
| Home.TrackingIntent | app/src/main/java/com/vahitkeskin/targetping/ui/home/HomeViewModel.kt:159-171 | the action is ACTION_START iff enabling (ACTION_STOP otherwise); the intent goes through `startForegroundService` iff enabling on API 26+ |
| Home.TrackingIntentReachesService | app/src/main/java/com/vahitkeskin/targetping/ui/home/HomeViewModel.kt:157-161 | the service decodes the intent of `toggleTracking(enable)` as START iff `enable`, otherwise STOP |
| Home.HomeViewModel.constructor | app/src/main/java/com/vahitkeskin/targetping/ui/home/HomeViewModel.kt:38-88 | no targets, not tracking, no navigation target, STANDARD map style, sound on |
| Home.HomeViewModel.FetchTargets | app/src/main/java/com/vahitkeskin/targetping/ui/home/HomeViewModel.kt:111-117 | the list becomes every stored target once; the other fields are unchanged |
| Home.HomeViewModel.OnMapStyleLoaded | app/src/main/java/com/vahitkeskin/targetping/ui/home/HomeViewModel.kt:78-83 | the current style becomes the one the preferences read as |
| Home.HomeViewModel.UpdateMapStyle | app/src/main/java/com/vahitkeskin/targetping/ui/home/HomeViewModel.kt:90-95 | `currentMapStyle = s` and `s` is persisted so it reads back as `s` |
| Home.HomeViewModel.ClearLogs | app/src/main/java/com/vahitkeskin/targetping/ui/home/HomeViewModel.kt:98-102 | the log table is empty |
| Home.HomeViewModel.AddTestLog | app/src/main/java/com/vahitkeskin/targetping/ui/home/HomeViewModel.kt:105-109 | one ENTRY record "Test Hedef" / "Simülasyon Girişi" stamped `now` is appended |
| Home.HomeViewModel.ToggleTargetActive | app/src/main/java/com/vahitkeskin/targetping/ui/home/HomeViewModel.kt:119-123 | the table becomes `SetActive(old, id, isActive)`: delegated unchanged |
| Home.HomeViewModel.AddTarget | app/src/main/java/com/vahitkeskin/targetping/ui/home/HomeViewModel.kt:125-137 | a target with the fresh id, the given name, lat, lng and radius, `isActive = true` and `lastTriggered = 0` is stored and read back; a fresh id adds exactly one key |
| Home.HomeViewModel.DeleteTarget | app/src/main/java/com/vahitkeskin/targetping/ui/home/HomeViewModel.kt:139-143 | the table becomes `Delete(old, id)`: delegated unchanged |
| Home.HomeViewModel.StartNavigation | app/src/main/java/com/vahitkeskin/targetping/ui/home/HomeViewModel.kt:149-151 | `navigationTarget = t`; the rest unchanged |
| Home.HomeViewModel.StopNavigation | app/src/main/java/com/vahitkeskin/targetping/ui/home/HomeViewModel.kt:153-155 | `navigationTarget = null`; the rest unchanged |
| Home.HomeViewModel.ToggleTracking | app/src/main/java/com/vahitkeskin/targetping/ui/home/HomeViewModel.kt:157-172 | `isTracking = enable`; the intent sent is `TrackingIntent(enable, sdkInt)`; the rest unchanged |
| Home.HomeViewModel.SetNotificationSound | app/src/main/java/com/vahitkeskin/targetping/ui/home/HomeViewModel.kt:75 | `notificationSound` takes the new value; the rest unchanged |
| StableSort.SortStable | app/src/main/java/com/vahitkeskin/targetping/ui/features/targets/TargetsListScreen.kt:90-96 | `sortedWith` is stable: the elements of each equivalence class keep their relative order |
| TargetsList.OrderIsPreorder | app/src/main/java/com/vahitkeskin/targetping/ui/features/targets/TargetsListScreen.kt:91-95 | each of the three comparators is a total preorder |
| TargetsList.FilteredTargets | app/src/main/java/com/vahitkeskin/targetping/ui/features/targets/TargetsListScreen.kt:87-97 | the list is a permutation of the matching targets: nothing dropped or duplicated |
| TargetsList.ListedIff | app/src/main/java/com/vahitkeskin/targetping/ui/features/targets/TargetsListScreen.kt:88-89 | a target is listed iff it is stored and its name contains the query, ignoring case |
| TargetsList.EmptyQueryListsAll | app/src/main/java/com/vahitkeskin/targetping/ui/features/targets/TargetsListScreen.kt:88-89 | the empty query lists every target, each as often as stored |
| TargetsList.SortedByOption | app/src/main/java/com/vahitkeskin/targetping/ui/features/targets/TargetsListScreen.kt:90-96 | NAME gives ascending names, ACTIVE puts active before inactive, RADIUS gives non-increasing radius |
| TargetsList.ActiveSortIsPartition | app/src/main/java/com/vahitkeskin/targetping/ui/features/targets/TargetsListScreen.kt:93 | by status, the list is the active matches in stored order followed by the inactive matches in stored order |
| TargetsList.HeaderCounts | app/src/main/java/com/vahitkeskin/targetping/ui/features/targets/TargetsListScreen.kt:169 | the listed count is the number of targets whose name contains the query ignoring case, for every sort option; the active count is the number of active targets among ALL targets, not only the listed ones |
| TargetsList.HeaderText | app/src/main/java/com/vahitkeskin/targetping/ui/features/targets/TargetsListScreen.kt:169 | the header is the matching count, then ` SONUÇ ` and a bar, then the active count over all targets and ` AKTİF`; both counts are defined by the targets' names and flags rather than by the list shown |
| TargetsList.TargetsListState.constructor | app/src/main/java/com/vahitkeskin/targetping/ui/features/targets/TargetsListScreen.kt:82-84 | empty query, sort by NAME, menu closed |
| TargetsList.TargetsListState.OnQueryChange | app/src/main/java/com/vahitkeskin/targetping/ui/features/targets/TargetsListScreen.kt:178 | the query becomes the text typed; the rest unchanged |
| TargetsList.TargetsListState.OnClearQuery | app/src/main/java/com/vahitkeskin/targetping/ui/features/targets/TargetsListScreen.kt:186 | the query becomes empty |
| TargetsList.TargetsListState.OnSortButton | app/src/main/java/com/vahitkeskin/targetping/ui/features/targets/TargetsListScreen.kt:140 | the menu opens |
| TargetsList.TargetsListState.OnSortMenuDismiss | app/src/main/java/com/vahitkeskin/targetping/ui/features/targets/TargetsListScreen.kt:146 | the menu closes |
| TargetsList.TargetsListState.OnSortSelected | app/src/main/java/com/vahitkeskin/targetping/ui/features/targets/TargetsListScreen.kt:153-156 | the option is selected and the menu closes |
| TargetsList.OnSwipe | app/src/main/java/com/vahitkeskin/targetping/ui/features/targets/TargetsListScreen.kt:227-247 | accepted iff the swipe is EndToStart, which deletes the target; any other value changes nothing |
| TargetsList.OnUndo | app/src/main/java/com/vahitkeskin/targetping/ui/features/targets/TargetsListScreen.kt:237-244 | undo adds a new target with the old name, lat, lng and radius via `addTarget` |
| TargetsList.UndoRestoresWithNewId | app/src/main/java/com/vahitkeskin/targetping/ui/features/targets/TargetsListScreen.kt:228-247 | delete then undo leaves the target under the new id, active and with `lastTriggered` 0; the old id is gone |
| TargetsList.OnToggle | app/src/main/java/com/vahitkeskin/targetping/ui/features/targets/TargetsListScreen.kt:274-279 | the switch stores `!isActive` for that id |
| CompactItem.ToIntTruncated | app/src/main/java/com/vahitkeskin/targetping/ui/components/CompactTargetItem.kt:47 | `Float.toInt()` on a non-negative distance: the largest whole number not above it, capped at `Int.MAX_VALUE` |
| CompactItem.NoLocationPlaceholder | app/src/main/java/com/vahitkeskin/targetping/ui/components/CompactTargetItem.kt:37 | with no user location the label is "---" |
| CompactItem.LabelByThreshold | app/src/main/java/com/vahitkeskin/targetping/ui/components/CompactTargetItem.kt:47-48 | up to 1000 whole metres the label is the decimal number, which parses back to the truncated distance, followed by " M"; above 1000 it ends in " KM" |
| CompactItem.MetresIff | app/src/main/java/com/vahitkeskin/targetping/ui/components/CompactTargetItem.kt:47-48 | the label ends in " M" iff the distance is below 1001 m |
| CompactItem.ThousandMetres | app/src/main/java/com/vahitkeskin/targetping/ui/components/CompactTargetItem.kt:48 | 1000 m and 1000.9 m both read "1000 M" |
| CompactItem.ShownDistance | app/src/main/java/com/vahitkeskin/targetping/ui/components/CompactTargetItem.kt:92-102 | the distance text is shown iff a user location is known, so "---" never reaches the screen |
| MapScreen.LocationButton | app/src/main/java/com/vahitkeskin/targetping/ui/features/map/MapScreen.kt:329-348 | the first-click flag can only go from true to false, and an open dialog stays open |
| MapScreen.BlockedClicks | app/src/main/java/com/vahitkeskin/targetping/ui/features/map/MapScreen.kt:340-345 | denied with no rationale: the first click requests and clears the flag; a later click opens the settings dialog |
| MapScreen.RationaleAndGrantedKeepFlags | app/src/main/java/com/vahitkeskin/targetping/ui/features/map/MapScreen.kt:330-339 | the rationale branch requests without changing the flag; the granted branch changes neither flag nor dialog |
| MapScreen.AtMostOneBlockedRequest | app/src/main/java/com/vahitkeskin/targetping/ui/features/map/MapScreen.kt:340-342 | any number of blocked clicks launch at most one request, none once the flag is cleared |
| MapScreen.MapItemLabel | app/src/main/java/com/vahitkeskin/targetping/ui/features/map/MapScreen.kt:368-376 | "CALC..." without a location; otherwise the same M/KM label as the list item |
| MapScreen.Counter | app/src/main/java/com/vahitkeskin/targetping/ui/features/map/MapScreen.kt:151 | the active count is the number of active targets, the total is the number of targets, and active never exceeds total |
| MapScreen.CounterText | app/src/main/java/com/vahitkeskin/targetping/ui/features/map/MapScreen.kt:151 | the text reads `<active targets> / <all targets> ONLINE` |
| MapScreen.MapScreenState.constructor | app/src/main/java/com/vahitkeskin/targetping/ui/features/map/MapScreen.kt:87-88 | the dialog is closed and the first-click flag is set |
| MapScreen.MapScreenState.OnLocationButton | app/src/main/java/com/vahitkeskin/targetping/ui/features/map/MapScreen.kt:329-348 | the click's effect and both flags become `LocationButton` of the old flags |
| MapScreen.MapScreenState.OnDialogConfirm | app/src/main/java/com/vahitkeskin/targetping/ui/features/map/MapScreen.kt:113-119 | the dialog closes and the app details settings screen opens |
| MapScreen.MapScreenState.OnDialogDismiss | app/src/main/java/com/vahitkeskin/targetping/ui/features/map/MapScreen.kt:120 | the dialog closes |
| MapScreen.OnPlayButton | app/src/main/java/com/vahitkeskin/targetping/ui/features/map/MapScreen.kt:306 | calls `toggleTracking(!isTracking)`: tracking flips and the matching intent is sent |
| MapScreen.OnTargetSwitch | app/src/main/java/com/vahitkeskin/targetping/ui/features/map/MapScreen.kt:185 | calls `toggleTargetActive(id, !isActive)` |
| Permissions.PermissionType.Action | app/src/main/java/com/vahitkeskin/targetping/utils/Extensions.kt:171-182 | the notification-settings action iff the type is NOTIFICATION |
| Permissions.Trigger | app/src/main/java/com/vahitkeskin/targetping/utils/Extensions.kt:128-168 | the trigger always does something: it runs `onGranted` or launches one request |
| Permissions.TriggerGrantedIff | app/src/main/java/com/vahitkeskin/targetping/utils/Extensions.kt:128-168 | `onGranted` runs at once iff every required permission is held; notification counts only on API 33+ |
| Permissions.TriggerNotificationFirst | app/src/main/java/com/vahitkeskin/targetping/utils/Extensions.kt:130-132 | the notification request is launched iff notification is required on API 33+ and missing |
| Permissions.TriggerLocationNext | app/src/main/java/com/vahitkeskin/targetping/utils/Extensions.kt:135-159 | the location request is launched iff notification is held or does not apply, and location is required and missing |
| Permissions.NothingRequiredRuns | app/src/main/java/com/vahitkeskin/targetping/utils/Extensions.kt:164-167 | with nothing required, or only notification below API 33, `onGranted` runs |
| Permissions.EmptyResultCountsAsGranted | app/src/main/java/com/vahitkeskin/targetping/utils/Extensions.kt:59 | `values.all { it }` holds of an empty result and fails on a denial |
| Permissions.PermissionDialogState.constructor | app/src/main/java/com/vahitkeskin/targetping/utils/Extensions.kt:37 | no dialog |
| Permissions.PermissionDialogState.OnLocationResult | app/src/main/java/com/vahitkeskin/targetping/utils/Extensions.kt:58-67 | `onGranted` runs iff all results are granted; otherwise, with no rationale due, the LOCATION dialog is set |
| Permissions.PermissionDialogState.OnNotificationResult | app/src/main/java/com/vahitkeskin/targetping/utils/Extensions.kt:73-97 | granted: location is requested if required and missing, else `onGranted` runs; denied on API 33+ with no rationale: the NOTIFICATION dialog is set |
| Permissions.PermissionDialogState.OnConfirm | app/src/main/java/com/vahitkeskin/targetping/utils/Extensions.kt:108-111 | the dialog clears and settings open with its type's action |
| Permissions.PermissionDialogState.OnDismiss | app/src/main/java/com/vahitkeskin/targetping/utils/Extensions.kt:104 | the dialog clears |
| Settings.PermissionToggle | app/src/main/java/com/vahitkeskin/targetping/ui/features/settings/SettingsScreen.kt:101-118 | a request is launched iff not granted and (rationale due or not yet requested); a launch sets the session flag; otherwise the flag is unchanged |
| Settings.GrantedOnlyRedirects | app/src/main/java/com/vahitkeskin/targetping/ui/features/settings/SettingsScreen.kt:102-104 | a granted switch only opens the redirect dialog and never requests |
| Settings.PermanentDenialDetected | app/src/main/java/com/vahitkeskin/targetping/ui/features/settings/SettingsScreen.kt:111-112 | not granted, no rationale and already requested: the "permanently denied" dialog, no request |
| Settings.OtherwiseRequests | app/src/main/java/com/vahitkeskin/targetping/ui/features/settings/SettingsScreen.kt:113-117 | otherwise the request is launched and the session flag becomes true |
| Settings.ConfirmAction | app/src/main/java/com/vahitkeskin/targetping/ui/features/settings/SettingsScreen.kt:187-191 | the notification-settings action iff the message contains "Bildirim", the app details action otherwise |
| Settings.DialogsRouteCorrectly | app/src/main/java/com/vahitkeskin/targetping/ui/features/settings/SettingsScreen.kt:104-191 | the two location messages lead to the app details screen and the two notification messages to the notification settings |
| Settings.SettingsState.constructor | app/src/main/java/com/vahitkeskin/targetping/ui/features/settings/SettingsScreen.kt:49-54 | no dialog; neither permission requested in this session |
| Settings.SettingsState.OnLocationToggle | app/src/main/java/com/vahitkeskin/targetping/ui/features/settings/SettingsScreen.kt:101-119 | dialog, launch and location flag follow `PermissionToggle` with the location messages |
| Settings.SettingsState.OnNotificationToggle | app/src/main/java/com/vahitkeskin/targetping/ui/features/settings/SettingsScreen.kt:132-151 | with a permission state (API 33+) the same rule with the notification messages; without one, nothing changes |
| Settings.SettingsState.OnConfirm | app/src/main/java/com/vahitkeskin/targetping/ui/features/settings/SettingsScreen.kt:185-194 | opens `ConfirmAction(message)` and clears the dialog |
| Settings.SettingsState.OnDismiss | app/src/main/java/com/vahitkeskin/targetping/ui/features/settings/SettingsScreen.kt:181 | the dialog clears |
| Settings.OnSoundToggle | app/src/main/java/com/vahitkeskin/targetping/ui/features/settings/SettingsScreen.kt:163 | `notificationSound` takes the switch's new value |
| Calculator.Press | app/src/main/java/com/vahitkeskin/targetping/ui/features/stealth/CalculatorScreen.kt:66-79 | a key unlocks iff it is "=" on the display "1234" |
| Calculator.PressNeverEmpties | app/src/main/java/com/vahitkeskin/targetping/ui/features/stealth/CalculatorScreen.kt:66-79 | no key press leaves the display empty |
| Calculator.RunNeverEmpties | app/src/main/java/com/vahitkeskin/targetping/ui/features/stealth/CalculatorScreen.kt:66-79 | from a non-empty display, no run of key presses empties it |
| Calculator.EqualsKey | app/src/main/java/com/vahitkeskin/targetping/ui/features/stealth/CalculatorScreen.kt:68-74 | "=" on "1234" unlocks and leaves the display; otherwise it shows "Error" |
| Calculator.OtherKeys | app/src/main/java/com/vahitkeskin/targetping/ui/features/stealth/CalculatorScreen.kt:75-78 | any other key, operators included, replaces "0" or "Error" and is appended to anything else, without unlocking |
| Calculator.ClearAndCodeUnlock | app/src/main/java/com/vahitkeskin/targetping/ui/features/stealth/CalculatorScreen.kt:67-74 | from any display, C 1 2 3 4 = unlocks |
| Calculator.OperatorsSpoilTheCode | app/src/main/java/com/vahitkeskin/targetping/ui/features/stealth/CalculatorScreen.kt:68-78 | "12+34=" shows "Error" and does not unlock |
| Calculator.CalculatorState.constructor | app/src/main/java/com/vahitkeskin/targetping/ui/features/stealth/CalculatorScreen.kt:22 | the display starts as "0" |
| Calculator.CalculatorState.OnClick | app/src/main/java/com/vahitkeskin/targetping/ui/features/stealth/CalculatorScreen.kt:66-79 | the new display and the unlock call are `Press(old display, key)` |
| AddEdit.FindTarget | app/src/main/java/com/vahitkeskin/targetping/ui/features/add_edit/AddEditScreen.kt:72 | a found target is the FIRST listed target with the requested id; none is found iff no listed id matches (a null id matches none) |
| AddEdit.AddEditInitialCenter | app/src/main/java/com/vahitkeskin/targetping/ui/features/add_edit/AddEditScreen.kt:86 | the camera opens on the edited target, otherwise on (0, 0) |
| AddEdit.RadiusValueOfDigits | app/src/main/java/com/vahitkeskin/targetping/ui/features/add_edit/AddEditScreen.kt:168 | a digit text reads as its value when that fits an `Int`, and as 100 when empty or too large |
| AddEdit.InitialRadiusRoundTrip | app/src/main/java/com/vahitkeskin/targetping/ui/features/add_edit/AddEditScreen.kt:74-75 | the initial radius text reads back as the edited target's radius, or as 100 for a new target |
| AddEdit.AcceptRadiusEdit | app/src/main/java/com/vahitkeskin/targetping/ui/features/add_edit/AddEditScreen.kt:282 | an edit is taken iff every character is a digit (the empty text included); a digit text stays a digit text |
| AddEdit.CrosshairTeal | app/src/main/java/com/vahitkeskin/targetping/ui/features/add_edit/AddEditScreen.kt:201 | teal iff the radius read is positive |
| AddEdit.CrosshairExamples | app/src/main/java/com/vahitkeskin/targetping/ui/features/add_edit/AddEditScreen.kt:168-201 | an empty radius field reads 100 and shows teal; "0" shows red |
| AddEdit.EditorForm.constructor | app/src/main/java/com/vahitkeskin/targetping/ui/features/add_edit/AddEditScreen.kt:72-75 | the form opens on the found target's name and radius text, otherwise "" and "100" |
| AddEdit.EditorForm.OnNameChange | app/src/main/java/com/vahitkeskin/targetping/ui/features/add_edit/AddEditScreen.kt:275 | the name becomes the text typed |
| AddEdit.EditorForm.OnRadiusChange | app/src/main/java/com/vahitkeskin/targetping/ui/features/add_edit/AddEditScreen.kt:282 | the radius text becomes `AcceptRadiusEdit(old, typed)` |
| AddEdit.EditorForm.Save | app/src/main/java/com/vahitkeskin/targetping/ui/features/add_edit/AddEditScreen.kt:290-296 | saves iff the name is not blank: deletes the target that `targetId` finds in the view model's list current at the click (not the one found at opening), then adds a new target at the centre with the radius read (no positivity check); a blank name changes nothing |
| AddEdit.LateListStillReplaces | app/src/main/java/com/vahitkeskin/targetping/ui/features/add_edit/AddEditScreen.kt:72 | a form opened on an empty list finds nothing, yet a save after the list brings the target deletes that target |
| AddEdit.EditReplacesId | app/src/main/java/com/vahitkeskin/targetping/ui/features/add_edit/AddEditScreen.kt:292-293 | after an edit the old id is gone and the new id holds an active, never-triggered target with the form's values; a radius of 0 is stored as 0 |
| HomeEditor.HomeInitialCenter | app/src/main/java/com/vahitkeskin/targetping/ui/home/HomeScreen.kt:92-93 | the camera opens on the edited target, otherwise on Istanbul (41.0082, 28.9784) |
| HomeEditor.OpenEditor | app/src/main/java/com/vahitkeskin/targetping/ui/home/HomeScreen.kt:76-81 | the form opens on the found target's name and a radius text reading back as its radius, otherwise "" and 100 |
| HomeEditor.EditedRadiusInRange | app/src/main/java/com/vahitkeskin/targetping/ui/home/HomeScreen.kt:328 | after any run of edits the radius text is still all digits, so the radius read (line 157) lies between 0 and `Int.MAX_VALUE` |
| HomeEditor.ResaveResetsTarget | app/src/main/java/com/vahitkeskin/targetping/ui/home/HomeScreen.kt:339-350 | opening a target and saving it untouched moves it to the new id with its name, position and radius, active and with `lastTriggered` 0 |

## Left out

- Geodesy: `Location.distanceBetween`, `bearingTo` and the compass overlay work on floats. The distance is an oracle parameter. It is a non-negative `real` rather than whole metres, because the source compares the `Float` itself with the radius. The conversion of the `Int` radius to `Float` in that comparison is taken as exact; it loses precision only above 2^24 m.
- CompactItem.DistanceLabel: the kilometre text `String.format("%.1f", dist / 1000f)` is float formatting. It is the parameter `formatKm`, and only the M/KM branch and the " KM" suffix are stated.
- Concurrency: `checkProximity` launches a coroutine per fix on `Dispatchers.IO`, so passes over `alertedTargets` could interleave. Fixes are modelled as processed one at a time.
- Clock reads: each target reads `System.currentTimeMillis()` separately. One `now` per pass is used instead.
- Flow and StateFlow plumbing (`stateIn`, `collect`, `viewModelScope`): a single emission is modelled by `FetchTargets` and `OnMapStyleLoaded`. The view model's `logs` flow is the `LogRepository` read.
- Android services and I/O are outside the model. This covers:
  - notifications, text-to-speech, `startForeground`/`stopForeground`, `stopSelf` and the `LocationRequest` settings;
  - the Geocoder address lookups of both editors;
  - intents sent through `openAppSettings`/`startActivity`. Only the settings action chosen is returned.
  - biometrics and the stealth-mode setting (`setStealthMode`, the DataStore-backed settings repository).
- Sample data: the view model's hard-coded sample activity list is display data.
- Resources: the map styles' raw JSON and drawable resources are given by their resource names.
- Not modelled, for these reasons:
  - LocationRepositoryImpl calls DAO methods that `TargetDao` does not declare, so it cannot be modelled against this DAO.
  - The list screen's icons, colours, animations and navigation are display only.
- Text: `Char.isDigit` and `toIntOrNull` also accept non-ASCII decimal digits; the model accepts only the ASCII ones. `isWhitespace` is modelled in full (the JVM's `Character.isWhitespace` or `isSpaceChar`). Case-insensitive `contains` folds Basic Latin, Latin-1 except the micro sign µ (which Kotlin maps to the Greek capital Mu), and the Turkish letters ı/İ, ğ/Ğ, ş/Ş; no other character is folded. Strings are sequences of code points, so `compareBy { it.name }` is modelled as code-point order rather than UTF-16 order.
- Integer widths: `radiusMeters` is an unbounded `int`, and `now - lastTriggered` is taken as exact (a `Long` subtraction cannot overflow for real clock values). The log id sequence is unbounded.
- LogTable.View: SQL leaves the order of equal timestamps unspecified. The model fixes one order, a stable sort of the insertion order, and states only what every order satisfies: the same rows, timestamps non-increasing. `SELECT * FROM targets` is likewise unordered; `GetAllTargetsOneShot` states which rows come back, not their order.
- Service lifetime: the service instance and its in-memory set are modelled as living for the whole run.
- First composition: the name and radius fields are initialised once, from the target list as it is when the screen opens, and a later change of the list does not reset them; the model does the same. The edited target itself is looked up again in the list current at the save click (`AddEdit.EditorForm.Save`), as `remember(targetId, targets)` re-derives it; the recompositions in between are not modelled.

## Notes on behaviour

The engine does less than an idealised geofencer, and the model keeps it that way:

- The tracking service never writes `lastTriggered`; only the in-memory set prevents repeats (`ReentryAlertsAgain`).
- It writes no ENTRY/EXIT log records.
- Deactivating a target leaves its membership of `alertedTargets` unchanged.
- `CheckProximityUseCase` does not look at `isActive`.
- The service skips inactive targets with `filter { it.isActive }` before its `forEach`. The model's `Step` skips them in place, which gives the same result.
