/**
 * The monitor manager's own placements: nudging one window onto a monitor,
 * and splitting the external monitor between TablePlus (left) and Postman
 * (right). Both act on one window per app, chosen as in every placement.
 */
module MonitorPlacement {
  import opened Sequences
  import opened Options
  import opened Geometry
  import opened Windows
  import opened Displays
  import opened WindowServer

  /** The point 100 right and 100 down from the monitor's origin. */
  function NudgedOrigin(monitor: MonitorInfo): Point
  {
    Point(monitor.frame.x + 100.0, monitor.frame.y + 100.0)
  }

  /** Moving an app's window to a monitor sets only the chosen window's position. */
  function MoveToMonitorEffects(w: World, space: int, pid: AppId, monitor: MonitorInfo): seq<Effect>
  {
    match ChooseWindow(w.FocusedOf(space, pid), w.WindowsOf(space, pid))
    case Some(win) => [SetPosition(win, NudgedOrigin(monitor))]
    case None => []
  }

  method MoveWindowToMonitor(desk: Desktop, pid: AppId, monitor: MonitorInfo)
    modifies desk`trace
    ensures desk.trace == old(desk.trace) + MoveToMonitorEffects(desk.world, desk.space, pid, monitor)
  {
    var window: Option<WindowId> := None;
    var focused := desk.world.FocusedOf(desk.space, pid);
    if focused.Some? {
      window := focused;
    }
    if window.None? {
      var windows := desk.world.WindowsOf(desk.space, pid);
      if |windows| > 0 {
        window := Some(windows[0].id);
      }
    }
    if window.None? {
      return;
    }
    desk.SetWindowPosition(window.value, NudgedOrigin(monitor));
  }

  /**
   * After the move the chosen window's origin is the monitor's origin plus
   * (100, 100) and its size is unchanged; every other window keeps its frame.
   */
  lemma MoveToMonitorKeepsSize(frames: map<WindowId, Rect>, w: World, space: int, pid: AppId, monitor: MonitorInfo)
    ensures var after := Replay(frames, MoveToMonitorEffects(w, space, pid, monitor));
      && after.Keys == frames.Keys
      && (forall win :: win in frames && Some(win) != ChooseWindow(w.FocusedOf(space, pid), w.WindowsOf(space, pid)) ==>
            after[win] == frames[win])
      && match ChooseWindow(w.FocusedOf(space, pid), w.WindowsOf(space, pid))
         case Some(win) =>
           win in frames ==>
             after[win] == Rect(monitor.frame.x + 100.0, monitor.frame.y + 100.0, frames[win].width, frames[win].height)
         case None => after == frames
  {
    var effects := MoveToMonitorEffects(w, space, pid, monitor);
    ReplayKeepsWindows(frames, effects);
    if effects != [] {
      assert effects[..0] == [];
    }
  }

  /**
   * Splitting the external monitor: nothing without an external monitor;
   * otherwise TablePlus, if given, is positioned at the left half of the
   * monitor's frame and then Postman, if given, at the right half.
   */
  function ArrangeOnExternalEffects(w: World, space: int, tablePlus: Option<AppId>, postman: Option<AppId>): seq<Effect>
  {
    match ExternalMonitor(w.displays)
    case None => []
    case Some(monitor) =>
      (match tablePlus
       case Some(pid) => PositionEffects(w, space, pid, FrameForPlacement(Left, monitor.frame))
       case None => [])
      + (match postman
         case Some(pid) => PositionEffects(w, space, pid, FrameForPlacement(Right, monitor.frame))
         case None => [])
  }

  method ArrangeAppsOnExternalMonitor(desk: Desktop, tablePlusApp: Option<AppId>, postmanApp: Option<AppId>)
    modifies desk`trace
    ensures desk.trace == old(desk.trace) + ArrangeOnExternalEffects(desk.world, desk.space, tablePlusApp, postmanApp)
  {
    var monitors := DetectMonitors(desk.world.displays);
    var monitor := FirstNonMain(monitors);
    if monitor.None? {
      return;
    }
    var frame := monitor.value.frame;
    var leftFrame := FrameForPlacement(Left, frame);
    var rightFrame := FrameForPlacement(Right, frame);
    if tablePlusApp.Some? {
      PositionWindow(desk, tablePlusApp.value, leftFrame);
    }
    if postmanApp.Some? {
      PositionWindow(desk, postmanApp.value, rightFrame);
    }
  }

  /**
   * When both apps have a window to place and the two windows differ,
   * TablePlus's window ends on the left half and Postman's on the right
   * half of the external monitor, the two halves tiling it.
   */
  lemma ArrangeSplitsExternal(frames: map<WindowId, Rect>, w: World, space: int, tablePlus: AppId, postman: AppId)
    requires ExternalMonitor(w.displays).Some?
    requires var a, b := ChooseWindow(w.FocusedOf(space, tablePlus), w.WindowsOf(space, tablePlus)),
                         ChooseWindow(w.FocusedOf(space, postman), w.WindowsOf(space, postman));
      a.Some? && b.Some? && a.value != b.value && a.value in frames && b.value in frames
    ensures var m := ExternalMonitor(w.displays).value.frame;
      var a, b := ChooseWindow(w.FocusedOf(space, tablePlus), w.WindowsOf(space, tablePlus)).value,
                  ChooseWindow(w.FocusedOf(space, postman), w.WindowsOf(space, postman)).value;
      var after := Replay(frames, ArrangeOnExternalEffects(w, space, Some(tablePlus), Some(postman)));
      && a in after && b in after
      && after[a] == FrameForPlacement(Left, m) && after[b] == FrameForPlacement(Right, m)
      && after[a].MaxX() == after[b].x && after[a].x == m.x && after[b].MaxX() == m.MaxX()
  {
    var m := ExternalMonitor(w.displays).value.frame;
    var a := ChooseWindow(w.FocusedOf(space, tablePlus), w.WindowsOf(space, tablePlus)).value;
    var b := ChooseWindow(w.FocusedOf(space, postman), w.WindowsOf(space, postman)).value;
    var effects := [SetFrame(a, FrameForPlacement(Left, m)), SetFrame(b, FrameForPlacement(Right, m))];
    assert ArrangeOnExternalEffects(w, space, Some(tablePlus), Some(postman)) == effects;
    ReplayLastFrame(frames, effects, 0);
    ReplayLastFrame(frames, effects, 1);
    HalvesTileScreen(m);
  }

  /** Without an external monitor nothing is positioned; a missing app is skipped. */
  lemma ArrangeSkipsMissing(w: World, space: int, tablePlus: Option<AppId>, postman: Option<AppId>)
    ensures ExternalMonitor(w.displays).None? ==> ArrangeOnExternalEffects(w, space, tablePlus, postman) == []
    ensures tablePlus.None? && postman.None? ==> ArrangeOnExternalEffects(w, space, tablePlus, postman) == []
    ensures |ArrangeOnExternalEffects(w, space, tablePlus, postman)| <= 2
  {
    if ExternalMonitor(w.displays).Some? {
      var m := ExternalMonitor(w.displays).value.frame;
      if tablePlus.Some? {
        PositionTouchesChosenOnly(w, space, tablePlus.value, FrameForPlacement(Left, m));
      }
      if postman.Some? {
        PositionTouchesChosenOnly(w, space, postman.value, FrameForPlacement(Right, m));
      }
    }
  }
}
