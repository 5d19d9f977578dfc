/**
 * MainActivity's monitoring controller as a class over its own fields. Each
 * mutator changes the fields exactly as the matching MonitorSpec function
 * says; the channel handler dispatches on the method name.
 */
module Activity {
  import opened Wrappers
  import opened UsageStats
  import opened InstalledApps
  import opened MonitorSpec

  /** An incoming channel call: its method name and its "appsToMonitor" argument. */
  datatype MethodCall = MethodCall(name: string, appsToMonitor: Option<seq<string>>)

  datatype ReplyValue = Text(text: string) | Flag(flag: bool) | AppList(apps: seq<AppEntry>) | Null

  /** `result.success(value)` or `result.notImplemented()`. */
  datatype Reply = Success(value: ReplyValue) | NotImplemented

  class MainActivity {
    var appsToMonitor: seq<string>
    var lastForegroundApp: Option<string>
    var monitoringRunnable: Option<nat>
    /** The main-thread handler's pending messages. */
    var handlerQueue: seq<Posted>
    /** Identity of the next runnable object to be allocated. */
    var nextRunnable: nat
    /** Outbound channel calls and activity/service launches, oldest first. */
    var events: seq<Event>

    function State(): Monitor
      reads this
    {
      Monitor(appsToMonitor, lastForegroundApp, monitoringRunnable, handlerQueue, nextRunnable, events)
    }

    constructor ()
      ensures State() == Initial() && Valid(State())
    {
      appsToMonitor := [];
      lastForegroundApp := None;
      monitoringRunnable := None;
      handlerQueue := [];
      nextRunnable := 0;
      events := [];
    }

    method RequestUsageStatsPermission()
      modifies this`events
      ensures events == old(events) + [OpenUsageAccessSettings]
    {
      events := events + [OpenUsageAccessSettings];
    }

    method RequestOverlayPermission(sdkInt: int)
      modifies this`events
      ensures events == old(events) + if sdkInt >= SdkM then [OpenOverlayPermissionSettings] else []
    {
      if sdkInt >= SdkM {
        events := events + [OpenOverlayPermissionSettings];
      }
    }

    method StartMonitoring(apps: seq<string>, host: Host) returns (message: string)
      modifies this
      ensures State() == Start(old(State()), apps, host).0
      ensures message == Start(old(State()), apps, host).1.Message()
    {
      if !HasUsageStatsPermission(host.dailyStats) {
        RequestUsageStatsPermission();
        return "PERMISSION_REQUIRED";
      }
      if !CheckOverlayPermission(host.sdkInt, host.canDrawOverlays) {
        return "OVERLAY_PERMISSION_REQUIRED";
      }
      appsToMonitor := apps;
      if monitoringRunnable.Some? {
        handlerQueue := RemoveCallbacks(handlerQueue, monitoringRunnable);
      }
      var runnable := nextRunnable;
      nextRunnable := nextRunnable + 1;
      monitoringRunnable := Some(runnable);
      handlerQueue := handlerQueue + [Posted(runnable, 0)];
      return "MONITORING_STARTED";
    }

    method StopMonitoring()
      modifies this
      ensures State() == Stop(old(State()))
    {
      if monitoringRunnable.Some? {
        handlerQueue := RemoveCallbacks(handlerQueue, monitoringRunnable);
      }
      monitoringRunnable := None;
    }

    /** Starts the overlay service with the SHOW_DISRUPTION action and the app's name. */
    method ShowDisruptionOverlay(packageName: string, labels: map<string, string>)
      modifies this`events
      ensures events == old(events) + [ShowOverlay(packageName, GetAppName(labels, packageName))]
    {
      var appName := GetAppName(labels, packageName);
      events := events + [ShowOverlay(packageName, appName)];
    }

    method CheckForegroundApp(host: Host)
      modifies this
      ensures State() == Check(old(State()), ForegroundApp(host.recentStats, host.now), host.labels)
    {
      var foregroundApp := ForegroundApp(host.recentStats, host.now);
      if foregroundApp != lastForegroundApp {
        lastForegroundApp := foregroundApp;
        events := events + [ForegroundUpdate(foregroundApp)];
        if foregroundApp.Some? && foregroundApp.value in appsToMonitor {
          ShowDisruptionOverlay(foregroundApp.value, host.labels);
          events := events + [Distraction(foregroundApp.value)];
        }
      }
    }

    /**
     * The handler runs the message at the head of its queue: the monitoring
     * runnable checks the foreground app and posts itself again.
     */
    method RunPendingCallback(host: Host)
      modifies this
      ensures State() == Tick(old(State()), host)
    {
      if handlerQueue == [] {
        return;
      }
      var posted := handlerQueue[0];
      handlerQueue := handlerQueue[1..];
      CheckForegroundApp(host);
      handlerQueue := handlerQueue + [Posted(posted.runnable, TickPeriodMs)];
    }

    /** The channel's method-call handler. */
    method OnMethodCall(call: MethodCall, host: Host) returns (reply: Reply)
      modifies this
      ensures call.name == "getInstalledApps" ==>
        && State() == old(State())
        && reply.Success? && reply.value.AppList?
        && SortedByName(reply.value.apps)
        && multiset(reply.value.apps) == multiset(UserEntries(host.installed))
      ensures call.name == "startMonitoring" ==>
        var apps := if call.appsToMonitor.Some? then call.appsToMonitor.value else [];
        && State() == Start(old(State()), apps, host).0
        && reply == Success(Text(Start(old(State()), apps, host).1.Message()))
      ensures call.name == "stopMonitoring" ==>
        State() == Stop(old(State())) && reply == Success(Text("STOPPED"))
      ensures call.name == "checkOverlayPermission" ==>
        && State() == old(State())
        && reply == Success(Flag(host.sdkInt < SdkM || host.canDrawOverlays))
      ensures call.name == "requestOverlayPermission" ==>
        && State() == old(State()).(events := old(events) +
             if host.sdkInt >= SdkM then [OpenOverlayPermissionSettings] else [])
        && reply == Success(Null)
      ensures call.name !in {"getInstalledApps", "startMonitoring", "stopMonitoring",
                             "checkOverlayPermission", "requestOverlayPermission"} ==>
        State() == old(State()) && reply == NotImplemented
    {
      match call.name
      case "getInstalledApps" =>
        var apps := GetInstalledApps(host.installed);
        reply := Success(AppList(apps));
      case "startMonitoring" =>
        var apps := if call.appsToMonitor.Some? then call.appsToMonitor.value else [];
        var message := StartMonitoring(apps, host);
        reply := Success(Text(message));
      case "stopMonitoring" =>
        StopMonitoring();
        reply := Success(Text("STOPPED"));
      case "checkOverlayPermission" =>
        reply := Success(Flag(CheckOverlayPermission(host.sdkInt, host.canDrawOverlays)));
      case "requestOverlayPermission" =>
        RequestOverlayPermission(host.sdkInt);
        reply := Success(Null);
      case _ =>
        reply := NotImplemented;
    }
  }
}
