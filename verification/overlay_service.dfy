/**
 * OverlayService as a class over its `overlayView` field. The window
 * manager's attached views are kept in `attachedViews`; `addOk` and
 * `removeOk` say whether the window manager accepts a call. Each method
 * changes the fields exactly as the matching OverlaySpec function says.
 */
module Overlay {
  import opened Wrappers
  import opened OverlaySpec

  class OverlayService {
    var overlayView: Option<View>
    /** The views the window manager currently shows for this service. */
    var attachedViews: seq<View>
    /** Identity of the next view object to be created. */
    var nextView: nat
    /** Activity launches and `stopSelf` calls, oldest first. */
    var effects: seq<Effect>

    function State(): Overlay
      reads this
    {
      Overlay(overlayView, attachedViews, nextView, effects)
    }

    /** Service creation and `onCreate`. */
    constructor ()
      ensures State() == Initial() && Valid(State()) && SingleOverlay(State())
    {
      overlayView := None;
      attachedViews := [];
      nextView := 0;
      effects := [];
    }

    method OnStartCommand(intent: Option<Intent>, addOk: bool, removeOk: bool) returns (result: int)
      modifies this
      ensures State() == StartCommand(old(State()), intent, addOk, removeOk).0
      ensures result == StartCommand(old(State()), intent, addOk, removeOk).1
    {
      var action := if intent.Some? then intent.value.action else None;
      if action == Some(ActionShow) {
        var appName := if intent.value.appName.Some? then intent.value.appName.value else DefaultAppName;
        ShowDisruptionOverlay(appName, addOk);
      } else if action == Some(ActionHide) {
        HideDisruptionOverlay(removeOk);
      }
      return StartNotSticky;
    }

    method ShowDisruptionOverlay(appName: string, addOk: bool)
      modifies this
      ensures State() == Show(old(State()), appName, addOk)
    {
      if overlayView.Some? {
        return;
      }
      var view := CreateOverlayView(appName);
      overlayView := Some(view);
      if addOk {
        attachedViews := attachedViews + [view];
      }
    }

    /** Builds a new view; only its identity and its subtitle are modelled. */
    method CreateOverlayView(appName: string) returns (view: View)
      modifies this`nextView
      ensures view == View(old(nextView), "You've opened " + appName + ". Choose a better reward.")
      ensures nextView == old(nextView) + 1
    {
      view := View(nextView, Subtitle(appName));
      nextView := nextView + 1;
    }

    method HideDisruptionOverlay(removeOk: bool)
      modifies this
      ensures State() == Hide(old(State()), removeOk)
    {
      if overlayView.Some? {
        attachedViews := RemoveView(attachedViews, overlayView.value, removeOk);
        overlayView := None;
      }
      effects := effects + [StopSelf];
    }

    method OpenLearningActivity()
      modifies this`effects
      ensures effects == old(effects) + [LaunchLearningActivity]
    {
      effects := effects + [LaunchLearningActivity];
    }

    method OnLearnClicked(removeOk: bool)
      modifies this
      ensures State() == Learn(old(State()), removeOk)
    {
      OpenLearningActivity();
      HideDisruptionOverlay(removeOk);
    }

    method OnContinueClicked(removeOk: bool)
      modifies this
      ensures State() == Hide(old(State()), removeOk)
    {
      HideDisruptionOverlay(removeOk);
    }

    method OnDestroy(removeOk: bool)
      modifies this
      ensures State() == Hide(old(State()), removeOk)
      ensures overlayView.None?
    {
      HideDisruptionOverlay(removeOk);
    }
  }
}
