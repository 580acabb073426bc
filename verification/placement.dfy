/**
 * The placement phase: put the apps of a placement config on the main
 * display (one window per app, at its half or the whole screen) or on the
 * external monitor (every visible window, cascaded per side).
 */
module Placement {
  import opened Sequences
  import opened Options
  import opened Geometry
  import opened Windows
  import opened Displays
  import opened WindowServer

  datatype DisplayType = MainDisplay | ExternalDisplay

  /** Where to place which app; `displayName` only labels messages. */
  datatype PlacementConfig = PlacementConfig(
    targetSpace: int,
    appPlacements: map<string, WindowSide>,
    displayType: DisplayType,
    displayName: string)

  /** `order` lists every name of `keys` exactly once: the order in which a dictionary with those keys is iterated. */
  ghost predicate Enumerates(order: seq<string>, keys: set<string>)
  {
    && (forall i, j :: 0 <= i < j < |order| ==> order[i] != order[j])
    && (forall n :: n in order <==> n in keys)
  }

  // ---------------------------------------------------------------------
  // The external-monitor engine
  // ---------------------------------------------------------------------

  /** The side counters and the effects so far of one pass over the apps. */
  datatype SidePass = SidePass(left: nat, right: nat, effects: seq<Effect>)

  /** Every window of an app gets its cascaded frame, in window order. */
  function CascadeEffects(windows: seq<Window>, area: Rect, appIndex: nat): seq<Effect>
  {
    seq(|windows|, j requires 0 <= j < |windows| => SetFrame(windows[j].id, CascadedFrame(area, appIndex, j)))
  }

  /** The app named `name` is placed: it is running and has a placement. */
  predicate Resolved(running: map<string, AppId>, placements: map<string, WindowSide>, name: string)
  {
    name in running && name in placements
  }

  /**
   * One app of the pass. An unresolved app changes nothing. A resolved app
   * takes its side's counter as its index (0 on the full frame), places
   * all its visible windows and is activated twice (once to bring it
   * forward, once to pin it to the space); then its side's counter grows
   * by one.
   */
  function ExternalStep(w: World, space: int, frame: Rect, running: map<string, AppId>,
                        placements: map<string, WindowSide>, pass: SidePass, name: string): SidePass
  {
    if !Resolved(running, placements, name) then pass
    else
      var pid := running[name];
      var side := placements[name];
      var index := match side case Left => pass.left case Right => pass.right case Full => 0;
      var windows := VisibleWindows(w.WindowsOf(space, pid));
      var effects := pass.effects + CascadeEffects(windows, FrameForPlacement(side, frame), index)
                     + [ActivateApp(pid), ActivateApp(pid)];
      SidePass(if side == Left then pass.left + 1 else pass.left,
               if side == Right then pass.right + 1 else pass.right,
               effects)
  }

  /** The pass over the apps in `order`. */
  function ExternalPass(w: World, space: int, frame: Rect, running: map<string, AppId>,
                        placements: map<string, WindowSide>, order: seq<string>): SidePass
    decreases |order|
  {
    if order == [] then SidePass(0, 0, [])
    else ExternalStep(w, space, frame, running, placements,
                      ExternalPass(w, space, frame, running, placements, order[..|order| - 1]),
                      order[|order| - 1])
  }

  /** Gives each window its cascaded frame, in window order. */
  method CascadeWindows(desk: Desktop, windows: seq<Window>, area: Rect, appIndex: nat)
    modifies desk`trace
    ensures desk.trace == old(desk.trace) + CascadeEffects(windows, area, appIndex)
  {
    for subIndex := 0 to |windows|
      invariant desk.trace == old(desk.trace) + CascadeEffects(windows[..subIndex], area, appIndex)
    {
      desk.SetWindowFrame(windows[subIndex].id, CascadedFrame(area, appIndex, subIndex));
      assert CascadeEffects(windows[..subIndex + 1], area, appIndex)
             == CascadeEffects(windows[..subIndex], area, appIndex)
                + [SetFrame(windows[subIndex].id, CascadedFrame(area, appIndex, subIndex))];
    }
    assert windows[..|windows|] == windows;
  }

  /** Cascades the app's windows, then activates it twice. */
  method PlaceAppWindows(desk: Desktop, pid: AppId, windows: seq<Window>, area: Rect, appIndex: nat)
    modifies desk`trace
    ensures desk.trace == old(desk.trace) + (CascadeEffects(windows, area, appIndex) + [ActivateApp(pid), ActivateApp(pid)])
  {
    CascadeWindows(desk, windows, area, appIndex);
    desk.Activate(pid);
    desk.Activate(pid);
    AppendAssociates(old(desk.trace), CascadeEffects(windows, area, appIndex), [ActivateApp(pid), ActivateApp(pid)]);
  }

  /** The pass over one more app is one more step. */
  lemma ExternalPassExtend(w: World, space: int, frame: Rect, running: map<string, AppId>,
                           placements: map<string, WindowSide>, order: seq<string>, i: nat)
    requires i < |order|
    ensures ExternalPass(w, space, frame, running, placements, order[..i + 1])
            == ExternalStep(w, space, frame, running, placements,
                            ExternalPass(w, space, frame, running, placements, order[..i]), order[i])
  {
    assert order[..i + 1][..i] == order[..i];
  }

  /** Moves every visible window of every placed app onto the external monitor, cascaded per side. */
  method MoveAllWindowsToExternalMonitor(desk: Desktop, monitor: MonitorInfo, running: map<string, AppId>,
                                         order: seq<string>, placements: map<string, WindowSide>)
    modifies desk`trace
    ensures desk.trace == old(desk.trace)
                          + ExternalPass(desk.world, desk.space, monitor.frame, running, placements, order).effects
  {
    var frame := monitor.frame;
    var leftArea := FrameForPlacement(Left, frame);
    var rightArea := FrameForPlacement(Right, frame);
    var leftWindowCount: nat, rightWindowCount: nat := 0, 0;
    ghost var w, space, t0 := desk.world, desk.space, desk.trace;
    for i := 0 to |order|
      invariant leftWindowCount == ExternalPass(w, space, frame, running, placements, order[..i]).left
      invariant rightWindowCount == ExternalPass(w, space, frame, running, placements, order[..i]).right
      invariant desk.trace == t0 + ExternalPass(w, space, frame, running, placements, order[..i]).effects
    {
      ghost var pass := ExternalPass(w, space, frame, running, placements, order[..i]);
      ghost var trace := desk.trace;
      ExternalPassExtend(w, space, frame, running, placements, order, i);
      var name := order[i];
      if name !in running || name !in placements {
        continue;
      }
      var pid := running[name];
      var side := placements[name];
      var area: Rect;
      var windowIndex: nat;
      match side {
        case Left =>
          area := leftArea;
          windowIndex := leftWindowCount;
          leftWindowCount := leftWindowCount + 1;
        case Right =>
          area := rightArea;
          windowIndex := rightWindowCount;
          rightWindowCount := rightWindowCount + 1;
        case Full =>
          area := frame;
          windowIndex := 0;
      }
      var windows := VisibleWindows(desk.world.WindowsOf(desk.space, pid));
      ghost var placed := CascadeEffects(windows, area, windowIndex) + [ActivateApp(pid), ActivateApp(pid)];
      PlaceAppWindows(desk, pid, windows, area, windowIndex);
      assert area == FrameForPlacement(side, frame);
      assert windowIndex == match side case Left => pass.left case Right => pass.right case Full => 0;
      AppendAssociates(pass.effects, CascadeEffects(windows, area, windowIndex), [ActivateApp(pid), ActivateApp(pid)]);
      AppendAssociates(t0, pass.effects, placed);
      assert ExternalStep(w, space, frame, running, placements, pass, name).effects == pass.effects + placed;
    }
    assert order[..|order|] == order;
  }

  /** The number of apps in `order` that are placed on `side`. */
  function SideCount(running: map<string, AppId>, placements: map<string, WindowSide>,
                     order: seq<string>, side: WindowSide): nat
    decreases |order|
  {
    if order == [] then 0
    else
      var name := order[|order| - 1];
      SideCount(running, placements, order[..|order| - 1], side)
      + (if Resolved(running, placements, name) && placements[name] == side then 1 else 0)
  }

  /**
   * Each side counter ends at the number of placed apps on that side:
   * one per app, however many windows it has; full-screen apps and
   * unresolved apps move neither counter.
   */
  lemma {:induction false} ExternalCountsApps(w: World, space: int, frame: Rect, running: map<string, AppId>,
                                              placements: map<string, WindowSide>, order: seq<string>)
    ensures ExternalPass(w, space, frame, running, placements, order).left == SideCount(running, placements, order, Left)
    ensures ExternalPass(w, space, frame, running, placements, order).right == SideCount(running, placements, order, Right)
    decreases |order|
  {
    if order != [] {
      ExternalCountsApps(w, space, frame, running, placements, order[..|order| - 1]);
    }
  }

  /** The index an app placed on `side` gets after the apps `before` it. */
  function SideIndex(running: map<string, AppId>, placements: map<string, WindowSide>,
                     before: seq<string>, side: WindowSide): nat
  {
    if side == Full then 0 else SideCount(running, placements, before, side)
  }

  /**
   * For every app order: the app at position `i`, if placed, adds exactly
   * the cascade of its visible windows, with the index of its side equal
   * to the number of earlier apps on that side (0 when full screen), and
   * its two activations.
   */
  lemma ExternalAppBlock(w: World, space: int, frame: Rect, running: map<string, AppId>,
                         placements: map<string, WindowSide>, order: seq<string>, i: nat)
    requires i < |order| && Resolved(running, placements, order[i])
    ensures var pid, side := running[order[i]], placements[order[i]];
      ExternalPass(w, space, frame, running, placements, order[..i + 1]).effects
      == ExternalPass(w, space, frame, running, placements, order[..i]).effects
         + CascadeEffects(VisibleWindows(w.WindowsOf(space, pid)), FrameForPlacement(side, frame),
                          SideIndex(running, placements, order[..i], side))
         + [ActivateApp(pid), ActivateApp(pid)]
  {
    assert order[..i + 1][..i] == order[..i];
    ExternalCountsApps(w, space, frame, running, placements, order[..i]);
  }

  /** An app that is not running or has no placement is skipped: the pass is as if it were absent. */
  lemma ExternalSkipsUnresolved(w: World, space: int, frame: Rect, running: map<string, AppId>,
                                placements: map<string, WindowSide>, order: seq<string>, i: nat)
    requires i < |order| && !Resolved(running, placements, order[i])
    ensures ExternalPass(w, space, frame, running, placements, order[..i + 1])
            == ExternalPass(w, space, frame, running, placements, order[..i])
  {
    assert order[..i + 1][..i] == order[..i];
  }

  /** `win` is a visible window, on `space`, of some app the pass places. */
  predicate PlacedWindow(w: World, space: int, running: map<string, AppId>, placements: map<string, WindowSide>,
                         order: seq<string>, win: WindowId)
  {
    exists i, j :: 0 <= i < |order| && Resolved(running, placements, order[i])
      && 0 <= j < |VisibleWindows(w.WindowsOf(space, running[order[i]]))|
      && VisibleWindows(w.WindowsOf(space, running[order[i]]))[j].id == win
  }

  /** Only visible windows of placed apps are moved; every other window keeps its frame. */
  lemma {:induction false} ExternalMovesOnlyPlacedWindows(w: World, space: int, frame: Rect, running: map<string, AppId>,
                                                          placements: map<string, WindowSide>, order: seq<string>, win: WindowId)
    requires !PlacedWindow(w, space, running, placements, order, win)
    ensures forall k :: 0 <= k < |ExternalPass(w, space, frame, running, placements, order).effects| ==>
      !Moves(ExternalPass(w, space, frame, running, placements, order).effects[k], win)
    decreases |order|
  {
    if order != [] {
      var n := |order| - 1;
      var prefix := order[..n];
      assert !PlacedWindow(w, space, running, placements, prefix, win);
      ExternalMovesOnlyPlacedWindows(w, space, frame, running, placements, prefix, win);
      var name := order[n];
      if Resolved(running, placements, name) {
        var windows := VisibleWindows(w.WindowsOf(space, running[name]));
        forall j | 0 <= j < |windows|
          ensures windows[j].id != win
        {
          if windows[j].id == win {
            assert PlacedWindow(w, space, running, placements, order, win);
          }
        }
      }
    }
  }

  /** Two apps both on the left, one window each: the second window sits strictly inside the first. */
  lemma TwoLeftAppsNest(w: World, space: int, frame: Rect, a: string, b: string, pa: AppId, pb: AppId, wa: Window, wb: Window)
    requires a != b
    requires !IsWindowMinimized(wa) && !IsWindowMinimized(wb)
    requires w.WindowsOf(space, pa) == [wa] && w.WindowsOf(space, pb) == [wb]
    ensures var pass := ExternalPass(w, space, frame, map[a := pa, b := pb], map[a := Left, b := Left], [a, b]);
      var l := FrameForPlacement(Left, frame);
      && pass.left == 2 && pass.right == 0
      && pass.effects == [SetFrame(wa.id, CascadedFrame(l, 0, 0)), ActivateApp(pa), ActivateApp(pa),
                          SetFrame(wb.id, CascadedFrame(l, 1, 0)), ActivateApp(pb), ActivateApp(pb)]
      && CascadedFrame(l, 0, 0) == l && l.Encloses(CascadedFrame(l, 1, 0))
      && l.x < CascadedFrame(l, 1, 0).x
  {
    var running, placements := map[a := pa, b := pb], map[a := Left, b := Left];
    var l := FrameForPlacement(Left, frame);
    assert [a, b][..1] == [a];
    assert [a][..0] == [];
    assert VisibleWindows([wa]) == [wa];
    assert VisibleWindows([wb]) == [wb];
    var p1 := ExternalPass(w, space, frame, running, placements, [a]);
    assert CascadeEffects([wa], l, 0) == [SetFrame(wa.id, CascadedFrame(l, 0, 0))];
    assert CascadeEffects([wb], l, 1) == [SetFrame(wb.id, CascadedFrame(l, 1, 0))];
    assert ExternalPass(w, space, frame, running, placements, []) == SidePass(0, 0, []);
    assert p1 == ExternalStep(w, space, frame, running, placements, SidePass(0, 0, []), a);
    assert p1 == SidePass(1, 0, [SetFrame(wa.id, CascadedFrame(l, 0, 0)), ActivateApp(pa), ActivateApp(pa)]);
    CascadeStartsAtArea(l);
    CascadeNests(l, 0, 0, 1, 0);
  }

  // ---------------------------------------------------------------------
  // placeApps
  // ---------------------------------------------------------------------

  /** How a placement call ends. */
  datatype PlaceOutcome = Placed | NoAppsToPlace | NoMainDisplay | NoExternalMonitor | ExternalNotIdentified | NoTargetDisplay

  datatype PlaceRun = PlaceRun(outcome: PlaceOutcome, effects: seq<Effect>)

  /** One app on the main display: its side (full if it has none) of the display frame, then its activation. */
  function MainStep(w: World, space: int, frame: Rect, running: map<string, AppId>,
                    placements: map<string, WindowSide>, name: string): seq<Effect>
  {
    if name !in running then []
    else PositionEffects(w, space, running[name], FrameForPlacement(SideOf(placements, name), frame)) + [ActivateApp(running[name])]
  }

  /** The side an app is placed on: its entry, or the whole frame when it has none. */
  function SideOf(placements: map<string, WindowSide>, name: string): WindowSide
  {
    if name in placements then placements[name] else Full
  }

  /** The window positioning picks for app `pid` on `space`: its focused window, else its first one. */
  function ChosenWindow(w: World, space: int, pid: AppId): Option<WindowId>
  {
    ChooseWindow(w.FocusedOf(space, pid), w.WindowsOf(space, pid))
  }

  function MainPass(w: World, space: int, frame: Rect, running: map<string, AppId>,
                    placements: map<string, WindowSide>, order: seq<string>): seq<Effect>
    decreases |order|
  {
    if order == [] then []
    else MainPass(w, space, frame, running, placements, order[..|order| - 1])
         + MainStep(w, space, frame, running, placements, order[|order| - 1])
  }

  /** The first screen whose origin is the given frame's origin. */
  function ScreenAt(screens: seq<Screen>, frame: Rect): Option<Screen>
  {
    if screens == [] then None
    else if screens[0].frame.x == frame.x && screens[0].frame.y == frame.y then Some(screens[0])
    else ScreenAt(screens[1..], frame)
  }

  /** Placing on the main display once on the target space: the main screen's frame, then one window per app. */
  function MainTargetRun(w: World, space: int, running: map<string, AppId>,
                         placements: map<string, WindowSide>, appOrder: seq<string>): PlaceRun
  {
    match w.displays.MainFrame()
    case None => PlaceRun(NoMainDisplay, [])
    case Some(frame) => PlaceRun(Placed, MainPass(w, space, frame, running, placements, appOrder))
  }

  /**
   * Placing on the external display once on the target space: find the
   * external monitor and its screen, focus it by moving the pointer to its
   * centre and switching to the space again, then cascade every window.
   */
  function ExternalTargetRun(w: World, space: int, running: map<string, AppId>,
                             placements: map<string, WindowSide>, appOrder: seq<string>): PlaceRun
  {
    var monitors := Monitors(w.displays);
    if |monitors| <= 1 then PlaceRun(NoExternalMonitor, [])
    else
      match FirstNonMain(monitors)
      case None => PlaceRun(ExternalNotIdentified, [])
      case Some(ext) =>
        if ScreenAt(w.displays.screens, ext.frame).None? then PlaceRun(NoTargetDisplay, [])
        else PlaceRun(Placed, [MovePointer(Centre(ext.frame)), SwitchSpace(space)]
                              + ExternalPass(w, space, ext.frame, running, placements, appOrder).effects)
  }

  /** What placing `config` does, apps iterated in `placeOrder` while looked up and in `appOrder` while placed. */
  function PlaceRunOf(w: World, config: PlacementConfig, placeOrder: seq<string>, appOrder: seq<string>): PlaceRun
  {
    var running := ResolveNames(placeOrder, w.found);
    var lookups := LookupEffects(placeOrder, w.found);
    var space := config.targetSpace;
    if running == map[] then PlaceRun(NoAppsToPlace, lookups)
    else
      var target := match config.displayType
        case MainDisplay => MainTargetRun(w, space, running, config.appPlacements, appOrder)
        case ExternalDisplay => ExternalTargetRun(w, space, running, config.appPlacements, appOrder);
      PlaceRun(target.outcome, lookups + [SwitchSpace(space)] + target.effects)
  }

  /** Positions one window of the app at its side of the main display frame, then activates it. */
  method PlaceOnMain(desk: Desktop, frame: Rect, running: map<string, AppId>,
                     placements: map<string, WindowSide>, name: string)
    requires name in running
    modifies desk`trace
    ensures desk.trace == old(desk.trace) + MainStep(desk.world, desk.space, frame, running, placements, name)
  {
    var app := running[name];
    var side := if name in placements then placements[name] else Full;
    PositionWindow(desk, app, FrameForPlacement(side, frame));
    desk.Activate(app);
    AppendAssociates(old(desk.trace), PositionEffects(desk.world, desk.space, app, FrameForPlacement(side, frame)), [ActivateApp(app)]);
  }

  /** Positions one window of each app at its side of the main display frame, then activates the app. */
  method PlaceOnMainDisplay(desk: Desktop, frame: Rect, running: map<string, AppId>,
                            placements: map<string, WindowSide>, order: seq<string>)
    requires forall n :: n in order ==> n in running
    modifies desk`trace
    ensures desk.trace == old(desk.trace) + MainPass(desk.world, desk.space, frame, running, placements, order)
  {
    for i := 0 to |order|
      invariant desk.trace == old(desk.trace) + MainPass(desk.world, desk.space, frame, running, placements, order[..i])
    {
      assert order[..i + 1][..i] == order[..i];
      AppendAssociates(old(desk.trace), MainPass(desk.world, desk.space, frame, running, placements, order[..i]),
                       MainStep(desk.world, desk.space, frame, running, placements, order[i]));
      PlaceOnMain(desk, frame, running, placements, order[i]);
    }
    assert order[..|order|] == order;
  }

  method PlaceOnMainTarget(desk: Desktop, running: map<string, AppId>,
                           placements: map<string, WindowSide>, appOrder: seq<string>) returns (outcome: PlaceOutcome)
    requires forall n :: n in appOrder ==> n in running
    modifies desk`trace
    ensures var run := MainTargetRun(desk.world, desk.space, running, placements, appOrder);
      outcome == run.outcome && desk.trace == old(desk.trace) + run.effects
  {
    var display := desk.world.displays.MainFrame();
    if display.None? {
      return NoMainDisplay;
    }
    PlaceOnMainDisplay(desk, display.value, running, placements, appOrder);
    outcome := Placed;
  }

  method PlaceOnExternalTarget(desk: Desktop, running: map<string, AppId>,
                               placements: map<string, WindowSide>, appOrder: seq<string>) returns (outcome: PlaceOutcome)
    requires CanSwitchTo(desk.space)
    modifies desk`trace, desk`space
    ensures desk.space == old(desk.space)
    ensures var run := ExternalTargetRun(desk.world, desk.space, running, placements, appOrder);
      outcome == run.outcome && desk.trace == old(desk.trace) + run.effects
  {
    var w, space := desk.world, desk.space;
    var monitors := DetectMonitors(w.displays);
    if |monitors| <= 1 {
      return NoExternalMonitor;
    }
    var ext := FirstNonMain(monitors);
    if ext.None? {
      return ExternalNotIdentified;
    }
    var display := ScreenAt(w.displays.screens, ext.value.frame);
    if display.None? {
      return NoTargetDisplay;
    }
    desk.MovePointerTo(Centre(ext.value.frame));
    desk.SwitchToSpace(space);
    ghost var focus := [MovePointer(Centre(ext.value.frame)), SwitchSpace(space)];
    assert desk.trace == old(desk.trace) + focus;
    MoveAllWindowsToExternalMonitor(desk, ext.value, running, appOrder, placements);
    AppendAssociates(old(desk.trace), focus, ExternalPass(w, space, ext.value.frame, running, placements, appOrder).effects);
    outcome := Placed;
  }

  /**
   * Places the apps of `config`: look up and activate each, stop if none
   * was found, switch to the target space, resolve the display and place
   * them on it.
   */
  method PlaceApps(desk: Desktop, config: PlacementConfig, placeOrder: seq<string>, appOrder: seq<string>)
    returns (outcome: PlaceOutcome)
    requires Enumerates(placeOrder, config.appPlacements.Keys)
    requires Enumerates(appOrder, ResolveNames(placeOrder, desk.world.found).Keys)
    requires CanSwitchTo(config.targetSpace)
    modifies desk`trace, desk`space
    ensures var run := PlaceRunOf(desk.world, config, placeOrder, appOrder);
      outcome == run.outcome && desk.trace == old(desk.trace) + run.effects
    ensures desk.space == if outcome == NoAppsToPlace then old(desk.space) else config.targetSpace
  {
    var running := LookUpApps(desk, placeOrder);
    if running == map[] {
      return NoAppsToPlace;
    }
    ghost var lookups := LookupEffects(placeOrder, desk.world.found);
    desk.SwitchToSpace(config.targetSpace);
    ghost var switched := desk.trace;
    if config.displayType == MainDisplay {
      outcome := PlaceOnMainTarget(desk, running, config.appPlacements, appOrder);
    } else {
      outcome := PlaceOnExternalTarget(desk, running, config.appPlacements, appOrder);
    }
    ghost var run := PlaceRunOf(desk.world, config, placeOrder, appOrder);
    ghost var target := desk.trace[|switched|..];
    assert desk.trace == switched + target;
    AppendAssociates(old(desk.trace), lookups, [SwitchSpace(config.targetSpace)]);
    AppendAssociates(old(desk.trace), lookups + [SwitchSpace(config.targetSpace)], target);
  }

  /** If no app of the config can be found or launched, nothing happens beyond the lookups: no space switch and no window moves. */
  lemma NoAppsStopsBeforeSwitching(w: World, config: PlacementConfig, placeOrder: seq<string>, appOrder: seq<string>)
    requires forall n :: n in placeOrder ==> n !in w.found
    ensures var run := PlaceRunOf(w, config, placeOrder, appOrder);
      run.outcome == NoAppsToPlace && Switches(run.effects) == [] && FrameChanges(run.effects) == []
  {
    assert ResolveNames(placeOrder, w.found) == map[];
    LookupsOnlyActivate(placeOrder, w.found);
  }

  /**
   * Placing on the external display with at most one screen fails with
   * "no external monitor" after switching to the target space, and no
   * window is moved.
   */
  lemma ExternalNeedsSecondScreen(w: World, config: PlacementConfig, placeOrder: seq<string>, appOrder: seq<string>)
    requires config.displayType == ExternalDisplay && |w.displays.screens| <= 1
    ensures var run := PlaceRunOf(w, config, placeOrder, appOrder);
      run.outcome in {NoAppsToPlace, NoExternalMonitor} && FrameChanges(run.effects) == []
  {
    var lookups := LookupEffects(placeOrder, w.found);
    LookupsOnlyActivate(placeOrder, w.found);
    FrameChangesConcat(lookups, [SwitchSpace(config.targetSpace)]);
    assert [SwitchSpace(config.targetSpace)][1..] == [];
    assert FrameChanges([SwitchSpace(config.targetSpace)]) == [];
    assert |Monitors(w.displays)| <= 1;
    assert lookups + [SwitchSpace(config.targetSpace)] + [] == lookups + [SwitchSpace(config.targetSpace)];
  }

  /** Once there is more than one screen, the external placement never fails to identify the monitor or its screen. */
  lemma ExternalIdentifiedWhenSeveral(w: World, config: PlacementConfig, placeOrder: seq<string>, appOrder: seq<string>)
    requires config.displayType == ExternalDisplay && |w.displays.screens| > 1
    ensures PlaceRunOf(w, config, placeOrder, appOrder).outcome in {NoAppsToPlace, Placed}
  {
    ExternalExistsWhenSeveral(w.displays);
    var ext := ExternalMonitor(w.displays).value;
    ScreenAtFindsScreen(w.displays.screens, ext.index, ext.frame);
  }

  /** A frame that is some screen's frame always finds a screen at its origin. */
  lemma {:induction false} ScreenAtFindsScreen(screens: seq<Screen>, i: nat, frame: Rect)
    requires i < |screens| && screens[i].frame == frame
    ensures ScreenAt(screens, frame).Some?
  {
    if i > 0 && !(screens[0].frame.x == frame.x && screens[0].frame.y == frame.y) {
      ScreenAtFindsScreen(screens[1..], i - 1, frame);
    }
  }

  /** `e` moves the chosen window of the app `name` to the app's side of `frame`. */
  predicate MovesChosenToSide(w: World, space: int, frame: Rect, running: map<string, AppId>,
                              placements: map<string, WindowSide>, name: string, e: Effect)
  {
    && name in running
    && ChosenWindow(w, space, running[name]).Some?
    && e == SetFrame(ChosenWindow(w, space, running[name]).value, FrameForPlacement(SideOf(placements, name), frame))
  }

  /**
   * One app on the main display moves at most one window: the chosen one,
   * to the app's side of the display frame. It moves one exactly when the
   * app was found and has a window to choose.
   */
  lemma MainStepMovesChosen(w: World, space: int, frame: Rect, running: map<string, AppId>,
                            placements: map<string, WindowSide>, name: string)
    ensures |FrameChanges(MainStep(w, space, frame, running, placements, name))| <= 1
    ensures FrameChanges(MainStep(w, space, frame, running, placements, name)) != []
            <==> name in running && ChosenWindow(w, space, running[name]).Some?
    ensures forall e :: e in FrameChanges(MainStep(w, space, frame, running, placements, name)) ==>
      MovesChosenToSide(w, space, frame, running, placements, name, e)
  {
    if name in running {
      var pid := running[name];
      var pos := PositionEffects(w, space, pid, FrameForPlacement(SideOf(placements, name), frame));
      PositionIsFrameChange(w, space, pid, FrameForPlacement(SideOf(placements, name), frame));
      PositionTouchesChosenOnly(w, space, pid, FrameForPlacement(SideOf(placements, name), frame));
      FrameChangesConcat(pos, [ActivateApp(pid)]);
      assert [ActivateApp(pid)][1..] == [];
      assert FrameChanges([ActivateApp(pid)]) == [];
      assert pos + [] == pos;
    }
  }

  /**
   * On the main display every window that moves is the chosen window of
   * one of the apps, moved to that app's side of the display frame (the
   * whole frame when it has no side), and no more windows move than there
   * are apps.
   */
  lemma {:induction false} MainPassOneWindowPerApp(w: World, space: int, frame: Rect, running: map<string, AppId>,
                                                   placements: map<string, WindowSide>, order: seq<string>)
    ensures |FrameChanges(MainPass(w, space, frame, running, placements, order))| <= |order|
    ensures forall e :: e in FrameChanges(MainPass(w, space, frame, running, placements, order)) ==>
      exists i :: 0 <= i < |order| && MovesChosenToSide(w, space, frame, running, placements, order[i], e)
    decreases |order|
  {
    if order != [] {
      var n := |order| - 1;
      var prefix := order[..n];
      MainPassOneWindowPerApp(w, space, frame, running, placements, prefix);
      MainStepMovesChosen(w, space, frame, running, placements, order[n]);
      FrameChangesConcat(MainPass(w, space, frame, running, placements, prefix),
                         MainStep(w, space, frame, running, placements, order[n]));
      forall e | e in FrameChanges(MainPass(w, space, frame, running, placements, order))
        ensures exists i :: 0 <= i < |order| && MovesChosenToSide(w, space, frame, running, placements, order[i], e)
      {
        if e in FrameChanges(MainPass(w, space, frame, running, placements, prefix)) {
          var i :| 0 <= i < |prefix| && MovesChosenToSide(w, space, frame, running, placements, prefix[i], e);
          assert order[i] == prefix[i];
        } else {
          assert MovesChosenToSide(w, space, frame, running, placements, order[n], e);
        }
      }
    }
  }

  /** An app without a placement entry is positioned at the whole display frame. */
  lemma MainDefaultsToFull(w: World, space: int, frame: Rect, running: map<string, AppId>,
                           placements: map<string, WindowSide>, name: string)
    requires name in running && name !in placements
    ensures MainStep(w, space, frame, running, placements, name)
            == PositionEffects(w, space, running[name], frame) + [ActivateApp(running[name])]
  {
  }
}
