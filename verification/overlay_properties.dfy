/**
 * Properties of the overlay lifecycle over several calls: repeated shows,
 * repeated hides, the single-overlay invariant, and what the overlay shows
 * for a detection reported by MainActivity.
 */
module OverlayProperties {
  import opened Wrappers
  import opened OverlaySpec
  import MonitorSpec

  /** Two shows without a hide in between: the second does nothing, so at most one view is added. */
  lemma ShowTwiceAddsOneView(o: Overlay, first: string, firstOk: bool, second: string, secondOk: bool)
    ensures Show(Show(o, first, firstOk), second, secondOk) == Show(o, first, firstOk)
    ensures |Show(Show(o, first, firstOk), second, secondOk).attached| <= |o.attached| + 1
  {
  }

  /** Show requests, each with the name it carries and whether `addView` would succeed. */
  function ShowAll(o: Overlay, requests: seq<(string, bool)>): Overlay
    decreases |requests|
  {
    if requests == [] then o else ShowAll(Show(o, requests[0].0, requests[0].1), requests[1..])
  }

  /**
   * Once a show has run, every later show is a no-op until a hide, also when
   * the window manager refused the first view and nothing is on screen.
   */
  lemma {:induction false} ShowsAfterShowDoNothing(o: Overlay, appName: string, addOk: bool, later: seq<(string, bool)>)
    ensures ShowAll(Show(o, appName, addOk), later) == Show(o, appName, addOk)
    decreases |later|
  {
    if later != [] {
      ShowsAfterShowDoNothing(o, appName, addOk, later[1..]);
    }
  }

  /** A second hide changes no view state; it only stops the service once more. */
  lemma HideIdempotent(o: Overlay, firstOk: bool, secondOk: bool)
    ensures var h := Hide(o, firstOk);
      Hide(h, secondOk) == h.(effects := h.effects + [StopSelf])
  {
  }

  /** What can happen to the service: an intent, a button press, destruction. */
  datatype Step =
    | Command(intent: Option<Intent>, addOk: bool)
    | LearnClicked
    | ContinueClicked
    | Destroyed

  /** One step, with every `removeView` accepted by the window manager. */
  function Apply(o: Overlay, step: Step): Overlay
  {
    match step
    case Command(intent, addOk) => StartCommand(o, intent, addOk, true).0
    case LearnClicked => Learn(o, true)
    case ContinueClicked => Hide(o, true)
    case Destroyed => Hide(o, true)
  }

  function Run(o: Overlay, steps: seq<Step>): Overlay
    decreases |steps|
  {
    if steps == [] then o else Run(Apply(o, steps[0]), steps[1..])
  }

  /**
   * While removals succeed, at most one overlay is ever on screen and it is
   * the one the service holds, whatever intents and clicks arrive.
   */
  lemma {:induction false} OneOverlayAtATime(o: Overlay, steps: seq<Step>)
    requires Valid(o) && SingleOverlay(o)
    ensures Valid(Run(o, steps)) && SingleOverlay(Run(o, steps))
    decreases |steps|
  {
    if steps != [] {
      var o1 := Apply(o, steps[0]);
      assert Valid(o1) && SingleOverlay(o1);
      OneOverlayAtATime(o1, steps[1..]);
    }
  }

  /**
   * A refused removal drops the held view anyway, so the next show attaches
   * a second view beside the one left on screen.
   */
  lemma RefusedRemovalLeavesTwoViews()
    ensures var o := Show(Hide(Show(Initial(), "Game", true), false), "Video", true);
      && |o.attached| == 2
      && o.overlayView == Some(o.attached[1])
      && o.attached[0] != o.attached[1]
  {
  }

  /** The intent MainActivity starts the service with for a detected app. */
  function ShowIntent(event: MonitorSpec.Event): Intent
    requires event.ShowOverlay?
  {
    Intent(Some(ActionShow), Some(event.appName))
  }

  /**
   * A detection reported by MainActivity always carries a name, so the
   * overlay names the app's label (or "the app"), never the service's own
   * fallback "a distracting app".
   */
  lemma DetectionShowsAppName(o: Overlay, m: MonitorSpec.Monitor, pkg: string, labels: map<string, string>, addOk: bool)
    requires o.overlayView.None?
    requires pkg in m.appsToMonitor && m.lastForegroundApp != Some(pkg)
    ensures var events := MonitorSpec.Check(m, Some(pkg), labels).events;
      var show := events[|events| - 2];
      && show == MonitorSpec.ShowOverlay(pkg, MonitorSpec.GetAppName(labels, pkg))
      && StartCommand(o, Some(ShowIntent(show)), addOk, true).0.overlayView
         == Some(View(o.nextView, Subtitle(if pkg in labels then labels[pkg] else "the app")))
  {
  }
}
