/**
 * Properties of runs of the monitoring controller: debounce over a run of
 * samples, how many updates and distractions a run reports, that the
 * runnable keeps polling after a detection, and that nothing runs after a
 * stop.
 */
module MonitorProperties {
  import opened Wrappers
  import opened UsageStats
  import opened MonitorSpec

  /** `checkForegroundApp` applied to each sample in turn. */
  function CheckAll(m: Monitor, samples: seq<Option<string>>, labels: map<string, string>): Monitor
    decreases |samples|
  {
    if samples == [] then m else CheckAll(Check(m, samples[0], labels), samples[1..], labels)
  }

  /** The handler delivering one message per host snapshot. */
  function TickAll(m: Monitor, hosts: seq<Host>): Monitor
    decreases |hosts|
  {
    if hosts == [] then m else TickAll(Tick(m, hosts[0]), hosts[1..])
  }

  /** How many samples differ from the sample before them (the first from `prev`). */
  function Changes(prev: Option<string>, samples: seq<Option<string>>): nat
    decreases |samples|
  {
    if samples == [] then 0
    else (if samples[0] != prev then 1 else 0) + Changes(samples[0], samples[1..])
  }

  /** How many samples are a change into a watched app. */
  function Entries(prev: Option<string>, samples: seq<Option<string>>, apps: seq<string>): nat
    decreases |samples|
  {
    if samples == [] then 0
    else
      (if samples[0] != prev && samples[0].Some? && samples[0].value in apps then 1 else 0)
      + Entries(samples[0], samples[1..], apps)
  }

  function CountUpdates(events: seq<Event>): nat
  {
    if events == [] then 0 else (if events[0].ForegroundUpdate? then 1 else 0) + CountUpdates(events[1..])
  }

  function CountDistractions(events: seq<Event>): nat
  {
    if events == [] then 0 else (if events[0].Distraction? then 1 else 0) + CountDistractions(events[1..])
  }

  lemma {:induction false} CountsAppend(a: seq<Event>, b: seq<Event>)
    ensures CountUpdates(a + b) == CountUpdates(a) + CountUpdates(b)
    ensures CountDistractions(a + b) == CountDistractions(a) + CountDistractions(b)
  {
    if a == [] {
      assert a + b == b;
    } else {
      assert (a + b)[1..] == a[1..] + b;
      CountsAppend(a[1..], b);
    }
  }

  /** One change reports one update, and one distraction when it enters a watched app. */
  lemma ReactionCounts(sample: Option<string>, apps: seq<string>, labels: map<string, string>)
    ensures CountUpdates(Reaction(sample, apps, labels)) == 1
    ensures CountDistractions(Reaction(sample, apps, labels)) == if sample.Some? && sample.value in apps then 1 else 0
  {
    var reaction := Reaction(sample, apps, labels);
    if sample.Some? && sample.value in apps {
      var show := ShowOverlay(sample.value, GetAppName(labels, sample.value));
      assert reaction == [ForegroundUpdate(sample), show, Distraction(sample.value)];
      assert reaction[1..] == [show, Distraction(sample.value)];
      assert reaction[1..][1..] == [Distraction(sample.value)];
      assert reaction[1..][1..][1..] == [];
      assert CountUpdates(reaction[1..][1..]) == 0 && CountDistractions(reaction[1..][1..]) == 1;
      assert CountUpdates(reaction[1..]) == 0 && CountDistractions(reaction[1..]) == 1;
    } else {
      assert reaction[1..] == [];
    }
  }

  /** Debounce: samples that all repeat the last seen app change nothing and report nothing. */
  lemma {:induction false} RepeatedSamplesChangeNothing(m: Monitor, samples: seq<Option<string>>, labels: map<string, string>)
    requires forall i :: 0 <= i < |samples| ==> samples[i] == m.lastForegroundApp
    ensures CheckAll(m, samples, labels) == m
    decreases |samples|
  {
    if samples != [] {
      RepeatedSamplesChangeNothing(Check(m, samples[0], labels), samples[1..], labels);
    }
  }

  /**
   * A run of checks reports one foreground update per change of sample and
   * one distraction per change into a watched app; the watch-list and the
   * scheduling state are untouched, and the last sample is remembered.
   */
  lemma {:induction false} CheckAllReports(m: Monitor, samples: seq<Option<string>>, labels: map<string, string>)
    ensures var r := CheckAll(m, samples, labels);
      && CountUpdates(r.events) == CountUpdates(m.events) + Changes(m.lastForegroundApp, samples)
      && CountDistractions(r.events) == CountDistractions(m.events) + Entries(m.lastForegroundApp, samples, m.appsToMonitor)
      && r.lastForegroundApp == (if samples == [] then m.lastForegroundApp else samples[|samples| - 1])
      && r.(lastForegroundApp := m.lastForegroundApp, events := m.events) == m
    decreases |samples|
  {
    if samples != [] {
      var m1 := Check(m, samples[0], labels);
      CheckAllReports(m1, samples[1..], labels);
      if samples[0] != m.lastForegroundApp {
        var reaction := Reaction(samples[0], m.appsToMonitor, labels);
        CountsAppend(m.events, reaction);
        ReactionCounts(samples[0], m.appsToMonitor, labels);
      }
      if |samples| > 1 {
        assert samples[1..][|samples[1..]| - 1] == samples[|samples| - 1];
      }
    }
  }

  /**
   * The runnable never suspends itself: however many messages the handler
   * delivers, detections included, the same runnable stays installed with
   * exactly one posting, and the watch-list is kept.
   */
  lemma {:induction false} MonitoringKeepsPolling(m: Monitor, hosts: seq<Host>)
    requires Valid(m) && m.monitoringRunnable.Some?
    ensures var r := TickAll(m, hosts);
      && Valid(r)
      && r.monitoringRunnable == m.monitoringRunnable
      && r.appsToMonitor == m.appsToMonitor
      && r.queue == if hosts == [] then m.queue else [Posted(m.monitoringRunnable.value, TickPeriodMs)]
    decreases |hosts|
  {
    if hosts != [] {
      MonitoringKeepsPolling(Tick(m, hosts[0]), hosts[1..]);
    }
  }

  /** After `stopMonitoring` no delivery reports anything or changes any state. */
  lemma {:induction false} NothingRunsAfterStop(m: Monitor, hosts: seq<Host>)
    requires Valid(m)
    ensures TickAll(Stop(m), hosts) == Stop(m)
    decreases |hosts|
  {
    if hosts != [] {
      assert Tick(Stop(m), hosts[0]) == Stop(m);
      NothingRunsAfterStop(m, hosts[1..]);
    }
  }

  /** `stopMonitoring` is idempotent. */
  lemma StopIdempotent(m: Monitor)
    ensures Stop(Stop(m)) == Stop(m)
  {
  }

  /**
   * Restarting does not forget the last foreground app: if the first check
   * after a successful restart samples that same app, nothing is reported,
   * even when it is on the new watch-list.
   */
  lemma RestartKeepsLastForegroundApp(m: Monitor, apps: seq<string>, host: Host, tickHost: Host)
    requires Valid(m)
    requires Start(m, apps, host).1 == MonitoringStarted
    requires ForegroundApp(tickHost.recentStats, tickHost.now) == m.lastForegroundApp
    ensures Tick(Start(m, apps, host).0, tickHost).events == m.events
  {
  }

  function HostAt(pkg: Option<string>, now: int): Host
  {
    Host([UsageRecord("com.example.r3", now)],
         if pkg.Some? then [UsageRecord(pkg.value, now)] else [],
         now, 33, true, map["com.game" := "Game"], [])
  }

  /**
   * The scenario: watch-list {"com.game"}, foreground samples none, browser,
   * browser, game. The browser is reported once, the game is reported, the
   * overlay is requested for it and the distraction follows; the runnable
   * is still installed afterwards.
   */
  lemma WatchedAppScenario()
    ensures var started := Start(Initial(), ["com.game"], HostAt(None, 0)).0;
      var r := TickAll(started, [HostAt(None, 0), HostAt(Some("com.browser"), 2000),
                                 HostAt(Some("com.browser"), 4000), HostAt(Some("com.game"), 6000)]);
      && r.events == [ForegroundUpdate(Some("com.browser")), ForegroundUpdate(Some("com.game")),
                      ShowOverlay("com.game", "Game"), Distraction("com.game")]
      && r.monitoringRunnable == Some(0)
      && r.queue == [Posted(0, TickPeriodMs)]
  {
    var s0 := Start(Initial(), ["com.game"], HostAt(None, 0)).0;
    assert ForegroundApp([], 0) == None;
    assert ForegroundApp([UsageRecord("com.browser", 2000)], 2000) == Some("com.browser");
    assert ForegroundApp([UsageRecord("com.browser", 4000)], 4000) == Some("com.browser");
    assert ForegroundApp([UsageRecord("com.game", 6000)], 6000) == Some("com.game");
    var s1 := Tick(s0, HostAt(None, 0));
    var s2 := Tick(s1, HostAt(Some("com.browser"), 2000));
    var s3 := Tick(s2, HostAt(Some("com.browser"), 4000));
    var s4 := Tick(s3, HostAt(Some("com.game"), 6000));
    assert s4.events == [ForegroundUpdate(Some("com.browser")), ForegroundUpdate(Some("com.game")),
                         ShowOverlay("com.game", "Game"), Distraction("com.game")];
  }
}
