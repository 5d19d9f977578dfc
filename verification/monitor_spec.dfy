/**
 * The monitoring state of MainActivity as a value, with one function per
 * operation: `startMonitoring`, `stopMonitoring`, `checkForegroundApp` and one
 * run of the self-reposting monitoring runnable by the main-thread handler.
 * The class in module Activity updates its fields exactly as these functions
 * say; the lemmas in MonitorProperties relate several steps.
 */
module MonitorSpec {
  import opened Wrappers
  import opened UsageStats
  import opened InstalledApps

  /** Delay with which the monitoring runnable reposts itself, in milliseconds. */
  const TickPeriodMs: nat := 2000
  /** Name used in the overlay when the label lookup fails. */
  const UnknownAppName := "the app"

  /** What the host reports to MainActivity: query results, clock, SDK level, permissions. */
  datatype Host = Host(
    dailyStats: seq<UsageRecord>,     // usage query over the last day
    recentStats: seq<UsageRecord>,    // usage query over the last WindowMs
    now: int,                         // System.currentTimeMillis()
    sdkInt: int,                      // Build.VERSION.SDK_INT
    canDrawOverlays: bool,            // Settings.canDrawOverlays
    labels: map<string, string>,      // package -> label; a missing key makes the lookup throw
    installed: seq<AppInfo>)          // getInstalledApplications

  /** Calls MainActivity makes to the outside, in the order it makes them. */
  datatype Event =
    | ForegroundUpdate(app: Option<string>)             // channel: onForegroundAppUpdate
    | ShowOverlay(packageName: string, appName: string) // startService(SHOW_DISRUPTION, app_name)
    | Distraction(packageName: string)                  // channel: onDistraction
    | OpenUsageAccessSettings                           // startActivity(ACTION_USAGE_ACCESS_SETTINGS)
    | OpenOverlayPermissionSettings                     // startActivity(ACTION_MANAGE_OVERLAY_PERMISSION)

  /** A message in the handler's queue: which runnable, posted with which delay. */
  datatype Posted = Posted(runnable: nat, delayMs: nat)

  datatype StartResult = MonitoringStarted | PermissionRequired | OverlayPermissionRequired
  {
    /** The string handed back over the channel. */
    function Message(): string
    {
      match this
      case MonitoringStarted => "MONITORING_STARTED"
      case PermissionRequired => "PERMISSION_REQUIRED"
      case OverlayPermissionRequired => "OVERLAY_PERMISSION_REQUIRED"
    }
  }

  /**
   * MainActivity's fields `appsToMonitor`, `lastForegroundApp` and
   * `monitoringRunnable`, the handler's queue, the supply of fresh runnable
   * identities and the log of outbound calls.
   */
  datatype Monitor = Monitor(
    appsToMonitor: seq<string>,
    lastForegroundApp: Option<string>,
    monitoringRunnable: Option<nat>,
    queue: seq<Posted>,
    nextRunnable: nat,
    events: seq<Event>)

  /** A new activity: empty watch-list, nothing seen, nothing scheduled. */
  function Initial(): Monitor
  {
    Monitor([], None, None, [], 0, [])
  }

  /**
   * The handler holds a posting exactly when a monitoring runnable is
   * installed, and then exactly one, of that runnable; runnable identities
   * handed out so far are below `nextRunnable`.
   */
  predicate Valid(m: Monitor)
  {
    match m.monitoringRunnable
    case None => m.queue == []
    case Some(r) => |m.queue| == 1 && m.queue[0].runnable == r && r < m.nextRunnable
  }

  /** `handler.removeCallbacks(r)` for the installed runnable, if any. */
  function RemoveCallbacks(queue: seq<Posted>, r: Option<nat>): (q: seq<Posted>)
    ensures |q| <= |queue|
  {
    if r.None? || queue == [] then queue
    else
      assert queue == [queue[0]] + queue[1..];
      if queue[0].runnable == r.value then RemoveCallbacks(queue[1..], r)
      else [queue[0]] + RemoveCallbacks(queue[1..], r)
  }

  /**
   * Removal works posting by posting: removing from a concatenation is
   * concatenating the removals, so the postings kept stay in queue order.
   */
  lemma {:induction false} RemoveCallbacksDistributes(a: seq<Posted>, b: seq<Posted>, r: Option<nat>)
    ensures RemoveCallbacks(a + b, r) == RemoveCallbacks(a, r) + RemoveCallbacks(b, r)
  {
    if a == [] {
      assert a + b == b;
    } else if r.Some? {
      assert a + b == [a[0]] + (a[1..] + b);
      RemoveCallbacksHead(a[0], a[1..] + b, r.value);
      RemoveCallbacksDistributes(a[1..], b, r);
      assert a == [a[0]] + a[1..];
      RemoveCallbacksHead(a[0], a[1..], r.value);
    }
  }

  /**
   * Each posting of another runnable is kept as often as it was posted, and
   * none of `r`'s is.
   */
  lemma {:induction false} RemoveCallbacksCounts(queue: seq<Posted>, r: Option<nat>)
    ensures forall p ::
      multiset(RemoveCallbacks(queue, r))[p] == (if r.Some? && p.runnable == r.value then 0 else multiset(queue)[p])
    ensures forall p :: p in RemoveCallbacks(queue, r) <==> p in queue && (r.None? || p.runnable != r.value)
  {
    if r.Some? && queue != [] {
      RemoveCallbacksCounts(queue[1..], r);
      RemoveCallbacksHead(queue[0], queue[1..], r.value);
      assert queue == [queue[0]] + queue[1..];
    }
    forall p ensures p in RemoveCallbacks(queue, r) <==> p in queue && (r.None? || p.runnable != r.value) {
      assert p in RemoveCallbacks(queue, r) <==> multiset(RemoveCallbacks(queue, r))[p] > 0;
    }
  }

  /**
   * Removing every posting empties the queue; removing a runnable that was
   * never posted leaves it as it was.
   */
  lemma {:induction false} RemoveCallbacksWhole(queue: seq<Posted>, r: Option<nat>)
    ensures r.Some? && (forall i :: 0 <= i < |queue| ==> queue[i].runnable == r.value) ==> RemoveCallbacks(queue, r) == []
    ensures (r.None? || forall p :: p in queue ==> p.runnable != r.value) ==> RemoveCallbacks(queue, r) == queue
  {
    if r.Some? && queue != [] {
      RemoveCallbacksWhole(queue[1..], r);
      assert queue[0] in queue;
      assert queue == [queue[0]] + queue[1..];
      if forall p :: p in queue ==> p.runnable != r.value {
        assert forall p :: p in queue[1..] ==> p in queue;
      }
    }
  }

  lemma RemoveCallbacksHead(p: Posted, rest: seq<Posted>, r: nat)
    ensures RemoveCallbacks([p] + rest, Some(r))
      == (if p.runnable == r then [] else [p]) + RemoveCallbacks(rest, Some(r))
  {
    assert ([p] + rest)[0] == p && ([p] + rest)[1..] == rest;
  }

  /** `getAppName`: the label, or "the app" when the lookup fails. */
  function GetAppName(labels: map<string, string>, packageName: string): (name: string)
    ensures packageName in labels ==> name == labels[packageName]
    ensures packageName !in labels ==> name == UnknownAppName
  {
    if packageName in labels then labels[packageName] else UnknownAppName
  }

  /**
   * `startMonitoring(apps)`: usage access is checked first, overlay access
   * second; only when both are present is the watch-list replaced and a fresh
   * runnable posted in place of the old one.
   */
  function Start(m: Monitor, apps: seq<string>, host: Host): (r: (Monitor, StartResult))
    ensures host.dailyStats == [] ==>
      r.1 == PermissionRequired && r.0 == m.(events := m.events + [OpenUsageAccessSettings])
    ensures host.dailyStats != [] && host.sdkInt >= SdkM && !host.canDrawOverlays ==>
      r.1 == OverlayPermissionRequired && r.0 == m
    ensures r.1 == MonitoringStarted <==>
      host.dailyStats != [] && (host.sdkInt < SdkM || host.canDrawOverlays)
    ensures r.1 == MonitoringStarted ==>
      && r.0.appsToMonitor == apps
      && r.0.lastForegroundApp == m.lastForegroundApp
      && r.0.monitoringRunnable == Some(m.nextRunnable)
      && r.0.nextRunnable == m.nextRunnable + 1
      && r.0.events == m.events
      && (Valid(m) ==> r.0.queue == [Posted(m.nextRunnable, 0)])
    ensures Valid(m) ==> Valid(r.0)
  {
    if !HasUsageStatsPermission(host.dailyStats) then
      (m.(events := m.events + [OpenUsageAccessSettings]), PermissionRequired)
    else if !CheckOverlayPermission(host.sdkInt, host.canDrawOverlays) then
      (m, OverlayPermissionRequired)
    else
      var queue := RemoveCallbacks(m.queue, m.monitoringRunnable);
      var r := m.nextRunnable;
      (m.(appsToMonitor := apps,
          monitoringRunnable := Some(r),
          nextRunnable := r + 1,
          queue := queue + [Posted(r, 0)]),
       MonitoringStarted)
  }

  /** `stopMonitoring`: cancel the installed runnable's postings and forget it. */
  function Stop(m: Monitor): (r: Monitor)
    ensures r.monitoringRunnable.None?
    ensures Valid(m) ==> Valid(r) && r == m.(monitoringRunnable := None, queue := [])
  {
    m.(queue := RemoveCallbacks(m.queue, m.monitoringRunnable), monitoringRunnable := None)
  }

  /** What one observed change of foreground app emits, in order. */
  function Reaction(sample: Option<string>, apps: seq<string>, labels: map<string, string>): seq<Event>
  {
    [ForegroundUpdate(sample)] +
    if sample.Some? && sample.value in apps then
      [ShowOverlay(sample.value, GetAppName(labels, sample.value)), Distraction(sample.value)]
    else []
  }

  /**
   * `checkForegroundApp` given the sampled app: nothing happens unless the
   * sample differs from `lastForegroundApp`; a change (to `None` too) is
   * recorded and reported, and a change to a watched app also requests the
   * overlay and then reports the distraction.
   */
  function Check(m: Monitor, sample: Option<string>, labels: map<string, string>): (r: Monitor)
    ensures sample == m.lastForegroundApp ==> r == m
    ensures sample != m.lastForegroundApp ==>
      && r.lastForegroundApp == sample
      && r.events == m.events + Reaction(sample, m.appsToMonitor, labels)
      && r.(lastForegroundApp := m.lastForegroundApp, events := m.events) == m
    ensures Valid(m) ==> Valid(r)
  {
    if sample != m.lastForegroundApp then
      var m1 := m.(lastForegroundApp := sample, events := m.events + [ForegroundUpdate(sample)]);
      if sample.Some? && sample.value in m.appsToMonitor then
        m1.(events := m1.events + [ShowOverlay(sample.value, GetAppName(labels, sample.value)),
                                   Distraction(sample.value)])
      else m1
    else m
  }

  /**
   * The handler delivers the posting at the head of its queue: the runnable
   * checks the foreground app and reposts itself after `TickPeriodMs`,
   * whatever the check found. With nothing posted, nothing happens.
   */
  function Tick(m: Monitor, host: Host): (r: Monitor)
    ensures m.queue == [] ==> r == m
    ensures Valid(m) ==> Valid(r)
    ensures Valid(m) && m.monitoringRunnable.Some? ==>
      && r.monitoringRunnable == m.monitoringRunnable
      && r.queue == [Posted(m.monitoringRunnable.value, TickPeriodMs)]
      && r.(queue := m.queue) == Check(m, ForegroundApp(host.recentStats, host.now), host.labels)
  {
    if m.queue == [] then m
    else
      var posted := m.queue[0];
      var m1 := Check(m.(queue := m.queue[1..]), ForegroundApp(host.recentStats, host.now), host.labels);
      m1.(queue := m1.queue + [Posted(posted.runnable, TickPeriodMs)])
  }
}
