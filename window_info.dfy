/**
 * The active-window lookup and the coordinate conversion of WindowInfo:
 * the operating system's window list becomes an input sequence of records
 * whose entries may be missing (a dictionary key that is absent or holds a
 * value of the wrong type), and the frontmost application's process id
 * becomes an optional input.
 */
module WindowInfo {
  import opened Geometry

  /** The window layer the Dock uses for Launchpad. */
  const LaunchpadLayer: int := 27

  /** Windows at or below this width or height are hover windows and tooltips. */
  const MinWindowSide: real := 150.0

  /** Windows at or below this alpha are not treated as opaque. */
  const MinWindowAlpha: real := 0.9

  /** The "kCGWindowBounds" dictionary, each key optional. */
  datatype Bounds = Bounds(x: Option<real>, y: Option<real>, width: Option<real>, height: Option<real>)

  /** One entry of the window list. */
  datatype WindowRecord = WindowRecord(
    ownerPID: Option<int>,
    ownerName: Option<string>,
    layer: Option<int>,
    bounds: Option<Bounds>,
    alpha: Option<real>,
    isOnscreen: Option<bool>)

  /** True when every bounds key is present. */
  predicate HasFullBounds(w: WindowRecord)
  {
    w.bounds.Some? && w.bounds.value.x.Some? && w.bounds.value.y.Some? &&
    w.bounds.value.width.Some? && w.bounds.value.height.Some?
  }

  function BoundsRect(w: WindowRecord): Rect
    requires HasFullBounds(w)
  {
    var b := w.bounds.value;
    Rect(b.x.value, b.y.value, b.width.value, b.height.value)
  }

  /** A missing alpha counts as fully opaque. */
  function EffectiveAlpha(w: WindowRecord): real
  {
    if w.alpha.Some? then w.alpha.value else 1.0
  }

  /** The conditions a window must meet to be reported as the active window. */
  ghost predicate Qualifies(w: WindowRecord, activePID: int)
  {
    w.ownerPID == Some(activePID) &&
    w.layer == Some(0) &&
    HasFullBounds(w) &&
    BoundsRect(w).width > MinWindowSide && BoundsRect(w).height > MinWindowSide &&
    EffectiveAlpha(w) > MinWindowAlpha &&
    w.isOnscreen == Some(true)
  }

  /** Index i holds the first qualifying window of the list. */
  ghost predicate FirstQualifyingAt(list: seq<WindowRecord>, activePID: int, i: int)
  {
    0 <= i < |list| && Qualifies(list[i], activePID) &&
    forall j :: 0 <= j < i ==> !Qualifies(list[j], activePID)
  }

  ghost predicate IsLaunchpadWindow(w: WindowRecord)
  {
    w.ownerName == Some("Dock") && w.layer == Some(LaunchpadLayer)
  }

  /**
   * isLaunchpadVisible: scans the window list (an absent list reads as
   * empty) for a Dock window at the Launchpad layer.
   */
  method IsLaunchpadVisible(windowList: Option<seq<WindowRecord>>) returns (visible: bool)
    ensures visible <==> windowList.Some? &&
                         exists i :: 0 <= i < |windowList.value| && IsLaunchpadWindow(windowList.value[i])
  {
    var list := if windowList.Some? then windowList.value else [];
    var i := 0;
    while i < |list|
      invariant 0 <= i <= |list|
      invariant forall j :: 0 <= j < i ==> !IsLaunchpadWindow(list[j])
    {
      var window := list[i];
      if window.ownerName.Some? && window.ownerName.value == "Dock" && window.layer.Some? {
        if window.layer.value == LaunchpadLayer {
          return true;
        }
      }
      i := i + 1;
    }
    return false;
  }

  /**
   * getActiveWindowRect.  It enumerates the windows twice: once
   * inside isLaunchpadVisible (launchpadList) and once for the search
   * itself (windowList); either enumeration may fail (None).
   */
  method GetActiveWindowRect(
    frontmostPID: Option<int>,
    launchpadList: Option<seq<WindowRecord>>,
    windowList: Option<seq<WindowRecord>>)
    returns (rect: Option<Rect>)
    ensures frontmostPID.None? ==> rect.None?
    ensures launchpadList.Some? &&
            (exists i :: 0 <= i < |launchpadList.value| && IsLaunchpadWindow(launchpadList.value[i])) ==>
              rect.None?
    ensures windowList.None? ==> rect.None?
    ensures rect.Some? ==>
              frontmostPID.Some? && windowList.Some? &&
              exists i :: FirstQualifyingAt(windowList.value, frontmostPID.value, i) &&
                          rect.value == BoundsRect(windowList.value[i])
    ensures frontmostPID.Some? && windowList.Some? &&
            (launchpadList.None? ||
             forall i :: 0 <= i < |launchpadList.value| ==> !IsLaunchpadWindow(launchpadList.value[i])) ==>
              (rect.None? <==> forall i :: 0 <= i < |windowList.value| ==> !Qualifies(windowList.value[i], frontmostPID.value))
  {
    if frontmostPID.None? {
      return None;
    }
    var launchpad := IsLaunchpadVisible(launchpadList);
    if launchpad {
      return None;
    }
    var activePID := frontmostPID.value;
    if windowList.None? {
      return None;
    }
    var list := windowList.value;
    var i := 0;
    while i < |list|
      invariant 0 <= i <= |list|
      invariant forall j :: 0 <= j < i ==> !Qualifies(list[j], activePID)
    {
      var window := list[i];
      i := i + 1;
      if window.ownerPID.None? || window.ownerPID.value != activePID { continue; }
      if window.layer.None? || window.layer.value != 0 { continue; }
      if window.bounds.None? { continue; }
      var bounds := window.bounds.value;
      if bounds.x.None? || bounds.y.None? || bounds.width.None? || bounds.height.None? { continue; }
      var width, height := bounds.width.value, bounds.height.value;
      if !(width > MinWindowSide && height > MinWindowSide) { continue; }
      var alpha := if window.alpha.Some? then window.alpha.value else 1.0;
      if !(alpha > MinWindowAlpha) { continue; }
      if window.isOnscreen != Some(true) { continue; }
      assert Qualifies(list[i - 1], activePID);
      return Some(Rect(bounds.x.value, bounds.y.value, width, height));
    }
    return None;
  }

  /** The offset Cast subtracts, on each axis: the screen's top-left corner, measured down from the global top. */
  function CastOffset(global: Rect, local: Rect): Point
  {
    Point(local.x, global.Height() - local.y - local.Height())
  }

  /**
   * cast: moves a point from the global space (the union of all screens)
   * into the space of the screen whose frame is `local`.  Sizes are those
   * of the standardized rectangles, as CGRect.width and height are.
   */
  function Cast(global: Rect, local: Rect, point: Point): (r: Point)
    ensures r.x + CastOffset(global, local).x == point.x
    ensures r.y + CastOffset(global, local).y == point.y
    ensures point == CastOffset(global, local) ==> r == Point(0.0, 0.0)
  {
    Point(point.x - local.x, point.y - (global.Height() - (local.y + local.Height())))
  }

  /** The converse of Cast: from the screen's space back to the global one. */
  function Uncast(global: Rect, local: Rect, point: Point): Point
  {
    var d := CastOffset(global, local);
    Point(point.x + d.x, point.y + d.y)
  }

  /** Each axis of Cast depends only on the same axis of the point. */
  lemma CastIsTranslation(global: Rect, local: Rect, p: Point, q: Point)
    ensures p.y == q.y ==> Cast(global, local, p).y == Cast(global, local, q).y
    ensures p.x == q.x ==> Cast(global, local, p).x == Cast(global, local, q).x
  {
  }

  lemma CastRoundTrip(global: Rect, local: Rect, p: Point)
    ensures Uncast(global, local, Cast(global, local, p)) == p
    ensures Cast(global, local, Uncast(global, local, p)) == p
  {
  }

  /** A screen that is the whole global rectangle at (0, 0) sees global points unchanged. */
  lemma CastIdentity(global: Rect, p: Point)
    requires global.x == 0.0 && global.y == 0.0
    ensures Cast(global, global, p) == p
  {
  }
}
