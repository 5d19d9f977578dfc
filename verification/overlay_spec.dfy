/**
 * The overlay service's lifecycle as a value: the held `overlayView`, the
 * views the window manager has attached, the supply of fresh view
 * identities and the log of launches and self-stops. Whether the window
 * manager accepts `addView` or `removeView` is a parameter.
 */
module OverlaySpec {
  import opened Wrappers

  const ActionShow := "SHOW_DISRUPTION"
  const ActionHide := "HIDE_DISRUPTION"
  /** Name shown when the SHOW_DISRUPTION intent carries no "app_name" extra. */
  const DefaultAppName := "a distracting app"
  /** Service.START_NOT_STICKY. */
  const StartNotSticky: int := 2

  /** A created overlay view: its identity and its subtitle text. */
  datatype View = View(id: nat, subtitle: string)

  /** The intent delivered to `onStartCommand`: its action and its "app_name" extra. */
  datatype Intent = Intent(action: Option<string>, appName: Option<string>)

  /** Calls the service makes outside the window manager. */
  datatype Effect = StopSelf | LaunchLearningActivity

  datatype Overlay = Overlay(
    overlayView: Option<View>,
    attached: seq<View>,
    nextView: nat,
    effects: seq<Effect>)

  function Initial(): Overlay
  {
    Overlay(None, [], 0, [])
  }

  /** The overlay's subtitle: a fixed opening, the app's name, a fixed closing. */
  function Subtitle(appName: string): (s: string)
    ensures |s| == |appName| + 39
    ensures s[..14] == "You've opened " && s[14..14 + |appName|] == appName
    ensures s[14 + |appName|..] == ". Choose a better reward."
  {
    "You've opened " + appName + ". Choose a better reward."
  }

  /** Every view created so far has an identity below `nextView`. */
  predicate Valid(o: Overlay)
  {
    && (o.overlayView.Some? ==> o.overlayView.value.id < o.nextView)
    && (forall v :: v in o.attached ==> v.id < o.nextView)
  }

  /** At most one view is on screen, and it is the one the service holds. */
  predicate SingleOverlay(o: Overlay)
  {
    && |o.attached| <= 1
    && (o.attached != [] ==> o.overlayView == Some(o.attached[0]))
  }

  /**
   * `showDisruptionOverlay`: does nothing while a view is held; otherwise
   * creates a fresh view, holds it, and asks the window manager to attach it.
   * A refused `addView` is swallowed and the view stays held.
   */
  function Show(o: Overlay, appName: string, addOk: bool): (r: Overlay)
    ensures o.overlayView.Some? ==> r == o
    ensures o.overlayView.None? ==>
      var v := View(o.nextView, "You've opened " + appName + ". Choose a better reward.");
      && r.overlayView == Some(v)
      && r.attached == o.attached + (if addOk then [v] else [])
      && r.nextView == o.nextView + 1
      && r.effects == o.effects
    ensures Valid(o) ==> Valid(r)
    ensures Valid(o) && SingleOverlay(o) ==> SingleOverlay(r)
  {
    if o.overlayView.Some? then o
    else
      var v := View(o.nextView, Subtitle(appName));
      o.(overlayView := Some(v),
         nextView := o.nextView + 1,
         attached := if addOk then o.attached + [v] else o.attached)
  }

  /**
   * `windowManager.removeView(v)`: detaches `v` when the window manager
   * accepts; a view that is not attached makes it throw, which changes nothing.
   */
  function RemoveView(attached: seq<View>, v: View, removeOk: bool): (r: seq<View>)
    ensures !removeOk ==> r == attached
    ensures removeOk ==> forall w :: w in r <==> w in attached && w != v
    ensures |r| <= |attached|
    ensures removeOk && v !in attached ==> r == attached
    ensures removeOk ==> forall w :: multiset(r)[w] == if w == v then 0 else multiset(attached)[w]
  {
    if !removeOk || attached == [] then attached
    else
      assert attached == [attached[0]] + attached[1..];
      if attached[0] == v then RemoveView(attached[1..], v, removeOk)
      else [attached[0]] + RemoveView(attached[1..], v, removeOk)
  }

  /**
   * Removal works view by view: removing from a concatenation is
   * concatenating the removals, so the views kept stay in attachment order.
   */
  lemma {:induction false} RemoveViewDistributes(a: seq<View>, b: seq<View>, v: View, removeOk: bool)
    ensures RemoveView(a + b, v, removeOk) == RemoveView(a, v, removeOk) + RemoveView(b, v, removeOk)
  {
    if removeOk && a != [] {
      assert (a + b)[1..] == a[1..] + b;
      RemoveViewDistributes(a[1..], b, v, removeOk);
    } else if a == [] {
      assert a + b == b;
    }
  }

  /**
   * `hideDisruptionOverlay`: removes and drops the held view, if any, and
   * always stops the service. A refused removal is swallowed; the view is
   * dropped all the same.
   */
  function Hide(o: Overlay, removeOk: bool): (r: Overlay)
    ensures r.overlayView.None?
    ensures r.effects == o.effects + [StopSelf]
    ensures r.nextView == o.nextView
    ensures o.overlayView.None? || !removeOk ==> r.attached == o.attached
    ensures o.overlayView.Some? && removeOk ==>
      forall w :: w in r.attached <==> w in o.attached && w != o.overlayView.value
    ensures o.overlayView.Some? ==> r.attached == RemoveView(o.attached, o.overlayView.value, removeOk)
    ensures Valid(o) ==> Valid(r)
    ensures SingleOverlay(o) && removeOk ==> r.attached == []
  {
    var o1 := if o.overlayView.Some?
      then o.(attached := RemoveView(o.attached, o.overlayView.value, removeOk), overlayView := None)
      else o;
    o1.(effects := o1.effects + [StopSelf])
  }

  /**
   * `onStartCommand`: SHOW_DISRUPTION shows (with a default name when the
   * extra is missing), HIDE_DISRUPTION hides, anything else does nothing;
   * the answer is always START_NOT_STICKY.
   */
  function StartCommand(o: Overlay, intent: Option<Intent>, addOk: bool, removeOk: bool): (r: (Overlay, int))
    ensures r.1 == StartNotSticky
    ensures intent.Some? && intent.value.action == Some(ActionShow) ==>
      r.0 == Show(o, if intent.value.appName.Some? then intent.value.appName.value else DefaultAppName, addOk)
    ensures intent.Some? && intent.value.action == Some(ActionHide) ==> r.0 == Hide(o, removeOk)
    ensures intent.None? || intent.value.action !in {Some(ActionShow), Some(ActionHide)} ==> r.0 == o
  {
    var action := if intent.Some? then intent.value.action else None;
    if action == Some(ActionShow) then
      var appName := if intent.value.appName.Some? then intent.value.appName.value else DefaultAppName;
      (Show(o, appName, addOk), StartNotSticky)
    else if action == Some(ActionHide) then
      (Hide(o, removeOk), StartNotSticky)
    else
      (o, StartNotSticky)
  }

  /** The "Learn Something New" button: open the learning activity, then hide. */
  function Learn(o: Overlay, removeOk: bool): (r: Overlay)
    ensures r.overlayView.None?
    ensures r.effects == o.effects + [LaunchLearningActivity, StopSelf]
    ensures r.nextView == o.nextView
    ensures r.attached == Hide(o, removeOk).attached
  {
    Hide(o.(effects := o.effects + [LaunchLearningActivity]), removeOk)
  }
}
