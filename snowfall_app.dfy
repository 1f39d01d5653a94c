/**
 * AppDelegate.setupSnowWindows: the bounding rectangle of all screens, the
 * screens chosen for snow, and the rebuilt list of overlay windows.  The
 * screens are an input, in NSScreen.screens order.
 */
module SnowfallApp {
  import opened Geometry
  import AppSettings

  /** An NSScreen: its localized name and its frame. */
  datatype Screen = Screen(localizedName: string, frame: Rect)

  /** The overlay window created for one screen. */
  class SnowWindow {
    /** The screen frame the window covers (its renderer's screenRect). */
    const screenRect: Rect
    /** The bounding rectangle its renderer converts from. */
    const globalRect: Rect
    var isOpen: bool

    /** createSnowWindow: a window on the screen's frame, ordered front. */
    constructor (screenRect: Rect, globalRect: Rect)
      ensures this.screenRect == screenRect && this.globalRect == globalRect && isOpen
    {
      this.screenRect := screenRect;
      this.globalRect := globalRect;
      isOpen := true;
    }

    method Close()
      modifies this
      ensures !isOpen
    {
      isOpen := false;
    }
  }

  /** The filter of setupSnowWindows. */
  predicate IsSelected(mode: AppSettings.DisplayMode, monitors: set<string>, screen: Screen)
  {
    mode == AppSettings.AllMonitors || screen.localizedName in monitors
  }

  /** The running maximum of maxX, left to right, from leastNormalMagnitude. */
  function FoldMaxX(screens: seq<Screen>): real
  {
    if screens == [] then LeastNormalMagnitude
    else Max(FoldMaxX(screens[..|screens| - 1]), screens[|screens| - 1].frame.MaxX())
  }

  /** The running maximum of maxY, left to right, from leastNormalMagnitude. */
  function FoldMaxY(screens: seq<Screen>): real
  {
    if screens == [] then LeastNormalMagnitude
    else Max(FoldMaxY(screens[..|screens| - 1]), screens[|screens| - 1].frame.MaxY())
  }

  /** The global rectangle every renderer converts from. */
  function GlobalRect(screens: seq<Screen>): Rect
  {
    Rect(0.0, 0.0, FoldMaxX(screens), FoldMaxY(screens))
  }

  /** The selected screens, in screen order. */
  function SelectedScreens(screens: seq<Screen>, mode: AppSettings.DisplayMode, monitors: set<string>): seq<Screen>
  {
    if screens == [] then []
    else
      var rest := SelectedScreens(screens[..|screens| - 1], mode, monitors);
      if IsSelected(mode, monitors, screens[|screens| - 1]) then rest + [screens[|screens| - 1]] else rest
  }

  /**
   * The fold is an upper bound of every screen's maxX and maxY (selected or
   * not), never below leastNormalMagnitude, and is attained: it is either
   * leastNormalMagnitude or the maxX (maxY) of some screen.
   */
  lemma {:induction false} GlobalRectBounds(screens: seq<Screen>)
    ensures LeastNormalMagnitude <= FoldMaxX(screens) && LeastNormalMagnitude <= FoldMaxY(screens)
    ensures forall i :: 0 <= i < |screens| ==>
              screens[i].frame.MaxX() <= FoldMaxX(screens) && screens[i].frame.MaxY() <= FoldMaxY(screens)
    ensures FoldMaxX(screens) == LeastNormalMagnitude ||
            exists i :: 0 <= i < |screens| && FoldMaxX(screens) == screens[i].frame.MaxX()
    ensures FoldMaxY(screens) == LeastNormalMagnitude ||
            exists i :: 0 <= i < |screens| && FoldMaxY(screens) == screens[i].frame.MaxY()
  {
    if screens != [] {
      var init := screens[..|screens| - 1];
      GlobalRectBounds(init);
      assert forall i :: 0 <= i < |init| ==> init[i] == screens[i];
    }
  }

  /** With no screens the global rectangle keeps its starting size. */
  lemma NoScreensGlobalRect()
    ensures GlobalRect([]) == Rect(0.0, 0.0, LeastNormalMagnitude, LeastNormalMagnitude)
  {
  }

  /**
   * A screen is in the selection exactly when it is one of the screens and
   * passes the filter; with all monitors chosen the selection is the whole
   * list, in order.
   */
  lemma {:induction false} SelectedScreensMeaning(screens: seq<Screen>, mode: AppSettings.DisplayMode, monitors: set<string>)
    ensures forall s :: s in SelectedScreens(screens, mode, monitors) <==> s in screens && IsSelected(mode, monitors, s)
    ensures |SelectedScreens(screens, mode, monitors)| <= |screens|
    ensures mode == AppSettings.AllMonitors ==> SelectedScreens(screens, mode, monitors) == screens
  {
    if screens != [] {
      var init := screens[..|screens| - 1];
      SelectedScreensMeaning(init, mode, monitors);
      assert screens == init + [screens[|screens| - 1]];
    }
  }

  /** Selection distributes over concatenation, so it keeps the screens' order. */
  lemma {:induction false} SelectedScreensAppend(a: seq<Screen>, b: seq<Screen>, mode: AppSettings.DisplayMode, monitors: set<string>)
    ensures SelectedScreens(a + b, mode, monitors) == SelectedScreens(a, mode, monitors) + SelectedScreens(b, mode, monitors)
  {
    if b == [] {
      assert a + b == a;
    } else {
      var init := b[..|b| - 1];
      SelectedScreensAppend(a, init, mode, monitors);
      assert (a + b)[..|a + b| - 1] == a + init;
    }
  }

  /** Every selected screen lies within the global rectangle's width and height. */
  lemma SelectedWithinGlobal(screens: seq<Screen>, mode: AppSettings.DisplayMode, monitors: set<string>)
    ensures forall s :: s in SelectedScreens(screens, mode, monitors) ==>
              s.frame.MaxX() <= GlobalRect(screens).width && s.frame.MaxY() <= GlobalRect(screens).height
  {
    SelectedScreensMeaning(screens, mode, monitors);
    GlobalRectBounds(screens);
  }

  /** The loop of setupSnowWindows over the screens. */
  method ComputeTopology(screens: seq<Screen>, mode: AppSettings.DisplayMode, monitors: set<string>)
    returns (globalRect: Rect, selected: seq<Screen>)
    ensures globalRect == GlobalRect(screens)
    ensures selected == SelectedScreens(screens, mode, monitors)
  {
    var maxX := LeastNormalMagnitude;
    var maxY := LeastNormalMagnitude;
    selected := [];
    for i := 0 to |screens|
      invariant maxX == FoldMaxX(screens[..i]) && maxY == FoldMaxY(screens[..i])
      invariant selected == SelectedScreens(screens[..i], mode, monitors)
    {
      assert screens[..i + 1][..i] == screens[..i];
      var f := screens[i].frame;
      maxX := Max(maxX, f.MaxX());
      maxY := Max(maxY, f.MaxY());
      if !(mode == AppSettings.AllMonitors || screens[i].localizedName in monitors) {
        continue;
      }
      selected := selected + [screens[i]];
    }
    assert screens[..|screens|] == screens;
    globalRect := Rect(0.0, 0.0, maxX, maxY);
  }

  class AppDelegate {
    var snowWindows: seq<SnowWindow>

    constructor ()
      ensures snowWindows == []
    {
      snowWindows := [];
    }

    /**
     * setupSnowWindows: close and drop every window, then create one window
     * per selected screen, in order, all sharing the global rectangle.
     */
    method SetupSnowWindows(screens: seq<Screen>, mode: AppSettings.DisplayMode, monitors: set<string>)
      modifies this, snowWindows
      ensures forall w :: w in old(snowWindows) ==> !w.isOpen
      ensures var selected := SelectedScreens(screens, mode, monitors);
        |snowWindows| == |selected| &&
        forall i :: 0 <= i < |snowWindows| ==>
          fresh(snowWindows[i]) && snowWindows[i].isOpen &&
          snowWindows[i].screenRect == selected[i].frame &&
          snowWindows[i].globalRect == GlobalRect(screens)
    {
      var old_windows := snowWindows;
      for i := 0 to |old_windows|
        invariant forall j :: 0 <= j < i ==> !old_windows[j].isOpen
      {
        old_windows[i].Close();
      }
      snowWindows := [];

      var globalRect, selected := ComputeTopology(screens, mode, monitors);

      for i := 0 to |selected|
        invariant |snowWindows| == i
        invariant forall j :: 0 <= j < i ==>
                    fresh(snowWindows[j]) && snowWindows[j].isOpen &&
                    snowWindows[j].screenRect == selected[j].frame && snowWindows[j].globalRect == globalRect
        invariant forall w :: w in old_windows ==> !w.isOpen
      {
        CreateSnowWindow(selected[i], globalRect);
      }
    }

    /** createSnowWindow: appends a new open window for the screen. */
    method CreateSnowWindow(screen: Screen, globalRect: Rect)
      modifies this
      ensures |snowWindows| == |old(snowWindows)| + 1
      ensures snowWindows[..|old(snowWindows)|] == old(snowWindows)
      ensures var w := snowWindows[|old(snowWindows)|];
        fresh(w) && w.isOpen && w.screenRect == screen.frame && w.globalRect == globalRect
    {
      var window := new SnowWindow(screen.frame, globalRect);
      snowWindows := snowWindows + [window];
    }
  }
}
