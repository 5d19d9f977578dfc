# R3 foreground monitor and disruption overlay, modelled in Dafny

R3 watches which app is in the foreground of an Android device and interrupts
the user with a full-screen overlay when they open an app on their watch-list.
This project models the two small state machines behind that and proves
properties of them:

* **MainActivity's monitoring controller.** `startMonitoring` checks usage
  access first and overlay access second. If both are granted, it replaces the
  watch-list and installs a fresh self-reposting runnable on the main-thread
  handler. `stopMonitoring` cancels the runnable. Each run of the runnable
  samples the foreground app and acts only when the sample differs from
  `lastForegroundApp`. The sampler (`getForegroundApp`) picks the most recent
  usage record of a 5000 ms window. `getInstalledApps` lists the non-system
  apps sorted by name. The channel handler dispatches on the method name.
* **OverlayService's lifecycle.** It is a two-state machine on `overlayView`.
  `showDisruptionOverlay` does nothing while a view is held.
  `hideDisruptionOverlay` is idempotent and always stops the service.
  `onStartCommand` dispatches on the intent's action. The two buttons hide the
  overlay, and "Learn" first opens the learning screen.

Each component has two layers. The first is a pure value with one function per
operation (`MonitorSpec`, `OverlaySpec`). The second is a class
(`Activity.MainActivity`, `Overlay.OverlayService`) whose methods change its
fields exactly as the functions say. The class holds the source's own fields
(`appsToMonitor`, `lastForegroundApp`, `monitoringRunnable`, `overlayView`).
It also holds state that exists only in the model and stands for the platform:
* the handler queue (`handlerQueue`);
* counters that hand out fresh runnables and views (`nextRunnable`, `nextView`);
* the attached views of the window manager (`attachedViews`);
* the logs of outbound calls (`events`, `effects`). Lemmas about runs of
several operations are in `MonitorProperties` and `OverlayProperties`.

The host is given to the model as inputs (`MonitorSpec.Host`):
* the two usage queries, as sequences of `(packageName, lastTimeUsed)` records;
* the clock `now`;
* the SDK level and `canDrawOverlays`;
* the label lookup, as a map where a missing key means the lookup throws;
* the installed-application list.

Whether the window manager accepts `addView` or `removeView` is a boolean
parameter. Outbound calls are appended to an event log:
* channel calls (`onForegroundAppUpdate`, `onDistraction`);
* service starts (`SHOW_DISRUPTION`);
* settings and activity launches;
* `stopSelf`.

The main-thread handler is a queue of `Posted(runnable, delayMs)` messages.
Delivering its head message is one tick.

In several places the code does something a reader might not expect, and the
model follows the code:
* The runnable never suspends after a detection. It always reposts itself
  after 2000 ms (`MonitorProperties.MonitoringKeepsPolling`).
* `startMonitoring` does not clear `lastForegroundApp`
  (`MonitorProperties.RestartKeepsLastForegroundApp`).
* A change to "no foreground app" is recorded and reported too.
* A failed `addView` leaves `overlayView` set, so later shows are no-ops until
  a hide (`OverlayProperties.ShowsAfterShowDoNothing`).
* Usage access is inferred from a non-empty one-day query.
* The service does not check overlay permission before showing.

## Model

| member | source | states |
|---|---|---|
| `UsageStats.HasUsageStatsPermission` | android/app/src/main/kotlin/com/example/r3/MainActivity.kt:206-215 | usage access counts as granted iff the one-day daily query returns at least one record |
| `UsageStats.CheckOverlayPermission` | android/app/src/main/kotlin/com/example/r3/MainActivity.kt:222-228 | overlay access is refused iff the SDK level is 23 or more and `canDrawOverlays` is false; below 23 it is always granted |
| `UsageStats.SortedByDescendingTime` | android/app/src/main/kotlin/com/example/r3/MainActivity.kt:195 | the sorted usage list is a permutation of the query result, ordered by non-increasing `lastTimeUsed` |
| `UsageStats.MostRecentIndex` | android/app/src/main/kotlin/com/example/r3/MainActivity.kt:195-196 | for a non-empty result, an index whose entry is at least as recent as every entry and strictly more recent than every earlier entry |
| `UsageStats.SortedHeadIsMostRecent` | android/app/src/main/kotlin/com/example/r3/MainActivity.kt:195-196 | the first element of the stable descending sort (`firstOrNull`) is the earliest of the most recent entries |
| `UsageStats.ForegroundApp` | android/app/src/main/kotlin/com/example/r3/MainActivity.kt:185-204 | a package is returned iff some entry's `lastTimeUsed` is strictly after `now - 5000`; then it is the package of the earliest most recent entry; an empty result gives none |
| `InstalledApps.UserEntries` | android/app/src/main/kotlin/com/example/r3/MainActivity.kt:83-95 | the collected list has at most one entry per installed app |
| `InstalledApps.UserEntriesMembers` | android/app/src/main/kotlin/com/example/r3/MainActivity.kt:83-95 | an entry is collected iff some installed app without `FLAG_SYSTEM` yields it (label, package, icon) |
| `InstalledApps.NameLeTotal` | android/app/src/main/kotlin/com/example/r3/MainActivity.kt:97 | any two names are comparable under the string order used by `sortedBy` |
| `InstalledApps.NameLeTransitive` | android/app/src/main/kotlin/com/example/r3/MainActivity.kt:97 | the string order used by `sortedBy` is transitive |
| `InstalledApps.SortByName` | android/app/src/main/kotlin/com/example/r3/MainActivity.kt:97 | sorting by name yields a permutation of its input, ordered by name |
| `InstalledApps.GetInstalledApps` | android/app/src/main/kotlin/com/example/r3/MainActivity.kt:77-98 | the result is sorted by name; it holds each non-system app's entry exactly as often as the app is listed; every entry comes from a non-system app and every non-system app is present |
| `MonitorSpec.RemoveCallbacks` | android/app/src/main/kotlin/com/example/r3/MainActivity.kt:132 | `removeCallbacks` never lengthens the queue |
| `MonitorSpec.RemoveCallbacksCounts` | android/app/src/main/kotlin/com/example/r3/MainActivity.kt:132 | every posting of the given runnable is dropped; every other posting is kept exactly as often as it was queued, and with no runnable nothing is dropped; as a consequence a posting remains iff it was queued and is not of that runnable |
| `MonitorSpec.RemoveCallbacksDistributes` | android/app/src/main/kotlin/com/example/r3/MainActivity.kt:132 | removal from a concatenation is the concatenation of the removals, so the kept postings stay in queue order |
| `MonitorSpec.RemoveCallbacksWhole` | android/app/src/main/kotlin/com/example/r3/MainActivity.kt:132 | a queue holding only postings of the runnable becomes empty; a queue holding none of them, or a removal with no runnable, leaves the queue unchanged |
| `MonitorSpec.GetAppName` | android/app/src/main/kotlin/com/example/r3/MainActivity.kt:176-183 | the app's label when the lookup succeeds, `"the app"` when it throws |
| `MonitorSpec.Start` | android/app/src/main/kotlin/com/example/r3/MainActivity.kt:120-143 | an empty one-day query gives `PERMISSION_REQUIRED`, logs the usage-settings launch and changes nothing else. Otherwise, missing overlay access (SDK ≥ 23 only) gives `OVERLAY_PERMISSION_REQUIRED` and no change at all. Success happens iff both are granted; it replaces the watch-list, keeps `lastForegroundApp`, installs a fresh runnable and leaves exactly one posting, of that runnable with no delay. The handler invariant is kept |
| `MonitorSpec.Stop` | android/app/src/main/kotlin/com/example/r3/MainActivity.kt:145-148 | afterwards no runnable is installed; from a valid state the queue is empty and nothing else changes |
| `MonitorSpec.Check` | android/app/src/main/kotlin/com/example/r3/MainActivity.kt:150-165 | a sample equal to `lastForegroundApp` (both none included) changes nothing. A different sample is stored, and exactly one foreground update for it is logged, even for none. If it is a watched package, the overlay request with its name and then the distraction follow. Watch-list and scheduling are untouched |
| `MonitorSpec.Tick` | android/app/src/main/kotlin/com/example/r3/MainActivity.kt:134-138 | with nothing posted nothing happens. Otherwise the runnable runs the check on the sampled app and reposts itself with a 2000 ms delay, so the same runnable stays installed with exactly one posting |
| `Activity.MainActivity.constructor` | android/app/src/main/kotlin/com/example/r3/MainActivity.kt:28-31 | empty watch-list, no last app, no runnable, empty handler queue |
| `Activity.MainActivity.RequestUsageStatsPermission` | android/app/src/main/kotlin/com/example/r3/MainActivity.kt:217-220 | logs one launch of the usage-access settings |
| `Activity.MainActivity.RequestOverlayPermission` | android/app/src/main/kotlin/com/example/r3/MainActivity.kt:230-238 | logs the overlay-permission settings launch only from SDK 23 on |
| `Activity.MainActivity.StartMonitoring` | android/app/src/main/kotlin/com/example/r3/MainActivity.kt:120-143 | the fields and the returned string are exactly those of `MonitorSpec.Start` |
| `Activity.MainActivity.StopMonitoring` | android/app/src/main/kotlin/com/example/r3/MainActivity.kt:145-148 | the fields become those of `MonitorSpec.Stop` |
| `Activity.MainActivity.ShowDisruptionOverlay` | android/app/src/main/kotlin/com/example/r3/MainActivity.kt:167-174 | logs one `SHOW_DISRUPTION` service start carrying the package's display name (or `"the app"`) |
| `Activity.MainActivity.CheckForegroundApp` | android/app/src/main/kotlin/com/example/r3/MainActivity.kt:150-165 | the fields become those of `MonitorSpec.Check` on the sampler's answer |
| `Activity.MainActivity.RunPendingCallback` | android/app/src/main/kotlin/com/example/r3/MainActivity.kt:134-138 | the fields become those of `MonitorSpec.Tick` |
| `Activity.MainActivity.OnMethodCall` | android/app/src/main/kotlin/com/example/r3/MainActivity.kt:37-62 | each of the five method names gives its action and reply: the sorted app list, the start message (a missing argument is an empty list), `"STOPPED"`, the overlay check (true below SDK 23), or null. Any other name is `notImplemented` and changes nothing |
| `MonitorProperties.ReactionCounts` | android/app/src/main/kotlin/com/example/r3/MainActivity.kt:153-163 | one change logs exactly one foreground update, and one distraction iff it enters a watched app |
| `MonitorProperties.RepeatedSamplesChangeNothing` | android/app/src/main/kotlin/com/example/r3/MainActivity.kt:150-153 | any run of samples equal to the last seen app leaves the whole state unchanged |
| `MonitorProperties.CheckAllReports` | android/app/src/main/kotlin/com/example/r3/MainActivity.kt:150-165 | over a run of samples, one update is logged per change and one distraction per change into a watched app. The last sample is remembered and nothing else changes |
| `MonitorProperties.MonitoringKeepsPolling` | android/app/src/main/kotlin/com/example/r3/MainActivity.kt:134-138 | however many ticks run, detections included, the same runnable stays installed with exactly one 2000 ms posting and the watch-list is kept |
| `MonitorProperties.NothingRunsAfterStop` | android/app/src/main/kotlin/com/example/r3/MainActivity.kt:145-148 | after `stopMonitoring`, any number of handler deliveries change nothing and log nothing |
| `MonitorProperties.StopIdempotent` | android/app/src/main/kotlin/com/example/r3/MainActivity.kt:145-148 | stopping twice is stopping once |
| `MonitorProperties.RestartKeepsLastForegroundApp` | android/app/src/main/kotlin/com/example/r3/MainActivity.kt:130-141 | after a successful restart, a first tick that samples the previously seen app logs nothing |
| `MonitorProperties.WatchedAppScenario` | android/app/src/main/kotlin/com/example/r3/MainActivity.kt:150-165 | watch-list {com.game}, samples none, browser, browser, game: the log is update(browser), update(game), overlay(game), distraction(game), and the runnable is still posted |
| `OverlaySpec.Subtitle` | android/app/src/main/kotlin/com/example/r3/OverlayService.kt:94 | the subtitle is "You've opened ", then the app name, then ". Choose a better reward.", 39 characters longer than the name |
| `OverlaySpec.Show` | android/app/src/main/kotlin/com/example/r3/OverlayService.kt:40-68 | a no-op while a view is held. Otherwise a fresh view with subtitle "You've opened <name>. Choose a better reward." is held even if `addView` fails, and is attached iff `addView` succeeds. Keeps the single-overlay invariant |
| `OverlaySpec.RemoveView` | android/app/src/main/kotlin/com/example/r3/OverlayService.kt:151 | an accepted removal detaches every copy of that view and keeps each other view exactly as often as it was attached; a refused one, or one of a view not attached, changes nothing |
| `OverlaySpec.RemoveViewDistributes` | android/app/src/main/kotlin/com/example/r3/OverlayService.kt:151 | removal from a concatenation is the concatenation of the removals, so the remaining views keep their order |
| `OverlaySpec.Hide` | android/app/src/main/kotlin/com/example/r3/OverlayService.kt:148-158 | always ends with no view held and one more `stopSelf`. When a view is held, the attached views become exactly `RemoveView`'s result: on success every copy of the held view is detached and the other views keep their count and order; otherwise the attached views are unchanged. From a single-overlay state with removal succeeding, nothing stays attached |
| `OverlaySpec.StartCommand` | android/app/src/main/kotlin/com/example/r3/OverlayService.kt:27-38 | `SHOW_DISRUPTION` shows, with `"a distracting app"` when the extra is missing. `HIDE_DISRUPTION` hides. Any other or missing action or intent changes nothing. The result is always `START_NOT_STICKY` (2) |
| `OverlaySpec.Learn` | android/app/src/main/kotlin/com/example/r3/OverlayService.kt:110-114 | logs the learning-activity launch and then `stopSelf`, hides the overlay, and allocates no view |
| `Overlay.OverlayService.constructor` | android/app/src/main/kotlin/com/example/r3/OverlayService.kt:22-25 | no view held, nothing attached |
| `Overlay.OverlayService.OnStartCommand` | android/app/src/main/kotlin/com/example/r3/OverlayService.kt:27-38 | fields and result are those of `OverlaySpec.StartCommand` |
| `Overlay.OverlayService.ShowDisruptionOverlay` | android/app/src/main/kotlin/com/example/r3/OverlayService.kt:40-68 | fields become those of `OverlaySpec.Show` |
| `Overlay.OverlayService.CreateOverlayView` | android/app/src/main/kotlin/com/example/r3/OverlayService.kt:92-100 | a fresh view whose subtitle is exactly "You've opened " + name + ". Choose a better reward." |
| `Overlay.OverlayService.HideDisruptionOverlay` | android/app/src/main/kotlin/com/example/r3/OverlayService.kt:148-158 | fields become those of `OverlaySpec.Hide` |
| `Overlay.OverlayService.OpenLearningActivity` | android/app/src/main/kotlin/com/example/r3/OverlayService.kt:140-146 | logs one learning-activity launch |
| `Overlay.OverlayService.OnLearnClicked` | android/app/src/main/kotlin/com/example/r3/OverlayService.kt:110-114 | fields become those of `OverlaySpec.Learn` |
| `Overlay.OverlayService.OnContinueClicked` | android/app/src/main/kotlin/com/example/r3/OverlayService.kt:126-128 | fields become those of a hide, and nothing is launched |
| `Overlay.OverlayService.OnDestroy` | android/app/src/main/kotlin/com/example/r3/OverlayService.kt:160-163 | hides, leaving no view held |
| `OverlayProperties.ShowTwiceAddsOneView` | android/app/src/main/kotlin/com/example/r3/OverlayService.kt:40-41 | a second show without a hide is a no-op, so at most one view is added |
| `OverlayProperties.ShowsAfterShowDoNothing` | android/app/src/main/kotlin/com/example/r3/OverlayService.kt:40-44 | after one show, any number of further shows change nothing, even when the first `addView` failed |
| `OverlayProperties.HideIdempotent` | android/app/src/main/kotlin/com/example/r3/OverlayService.kt:148-158 | a second hide changes no view state and only adds one more `stopSelf` |
| `OverlayProperties.OneOverlayAtATime` | android/app/src/main/kotlin/com/example/r3/OverlayService.kt:27-41 | under any sequence of intents, button presses and destroys in which removals succeed, at most one view is attached, and it is the held one |
| `OverlayProperties.RefusedRemovalLeavesTwoViews` | android/app/src/main/kotlin/com/example/r3/OverlayService.kt:148-158 | show, hide with a refused removal, then show attaches a second, different view beside the first |
| `OverlayProperties.DetectionShowsAppName` | android/app/src/main/kotlin/com/example/r3/MainActivity.kt:167-174 | the overlay for a detection names the app's label, or `"the app"`; never the service's own fallback |

## Left out

- Icon extraction and `drawableToByteArray` (bitmap drawing, PNG compression) are left out. Icons are opaque byte sequences supplied with each installed app.
- The Flutter method-channel transport and engine set-up are left out. Only the method-name dispatch and the replies are modelled (`OnMethodCall`), and outbound channel calls are log entries.
- `onCreate`'s 500 ms delayed `openLearningScreen` call is UI timing and is not modelled.
- Real time is not modelled. Handler delays are recorded on each posting but never elapse: a tick delivers the head posting whatever its delay. `System.currentTimeMillis` is the `now` input.
- Layout parameters, view construction and styling are not modelled: window type, flags, title, button texts, alpha, text sizes. Only the subtitle and the button actions are.
- `onBind` (always null) is not modelled, and neither is a null `windowManager` before `onCreate`. The constructor stands for creation plus `onCreate`.
- Activity and service launches are modelled only as log entries, not as their effects; a `SHOW_DISRUPTION` start is not delivered to the service automatically (`OverlayProperties.DetectionShowsAppName` relates the two by hand).
- InstalledApps.NameLe: orders names by Dafny characters (Unicode scalar values). Kotlin compares UTF-16 code units, so names with characters outside the Basic Multilingual Plane can be ordered differently.
- InstalledApps.SortByName: proves the result sorted and a permutation, but not that equal names keep their installation order, although the insertion used is stable.
- UsageStats.SortedByDescendingTime: stability is captured only through `SortedHeadIsMostRecent`, not as a general property.
- OverlayProperties.OneOverlayAtATime: holds only while the window manager accepts removals; `RefusedRemovalLeavesTwoViews` shows the code breaks it otherwise.
- `getApplicationLabel` inside `getInstalledApps` is taken to succeed, as the code has no fallback there.
