/**
 * Gathering every user app from spaces 2 to 4 onto space 1, then placing
 * the fixed set of apps on their spaces.
 *
 * An app is "active" on a space when it is a regular app that is not a
 * system app and lists a window that reports itself as not minimised.
 * Every active app found on a swept space is activated from space 1 and
 * all its windows are stacked there, 30 apart.
 */
module SpaceAll {
  import opened Sequences
  import opened Options
  import opened Geometry
  import opened Windows
  import opened Displays
  import opened WindowServer
  import opened Placement

  /** Bundle IDs of system apps that are never gathered. */
  const SystemBundleIds: seq<string> := [
    "com.apple.finder",
    "com.apple.dock",
    "com.apple.systemuiserver",
    "com.apple.controlcenter",
    "com.apple.notificationcenterui",
    "com.apple.WindowManager",
    "com.apple.loginwindow",
    "com.apple.spotlight",
    "com.apple.Safari.SocialHelper",
    "com.apple.Safari.History",
    "com.apple.Safari.GeolocationService"
  ]

  // ---------------------------------------------------------------------
  // Which apps are active
  // ---------------------------------------------------------------------

  /**
   * Some window reports that it is not minimised. A window whose minimised
   * attribute cannot be read does not count here.
   */
  predicate HasVisibleWindows(ws: seq<Window>)
  {
    exists i :: 0 <= i < |ws| && ws[i].minimized == Reported(false)
  }

  /** Scans the app's windows on the current space and stops at the first one reported as not minimised. */
  method CheckVisibleWindows(desk: Desktop, pid: AppId) returns (visible: bool)
    ensures visible == HasVisibleWindows(desk.world.WindowsOf(desk.space, pid))
  {
    var windows := desk.world.WindowsOf(desk.space, pid);
    for i := 0 to |windows|
      invariant forall k :: 0 <= k < i ==> windows[k].minimized != Reported(false)
    {
      if windows[i].minimized == Reported(false) {
        return true;
      }
    }
    return false;
  }

  /**
   * The gathering test is stricter than the visible-window filter used when
   * placing: every app it accepts has a visible window, but a window whose
   * minimised attribute is unreadable is visible to the placement and not
   * to this test.
   */
  lemma VisibilityTestsDiffer(ws: seq<Window>, id: WindowId)
    ensures HasVisibleWindows(ws) ==> VisibleWindows(ws) != []
    ensures VisibleWindows([Window(id, Unreadable)]) != [] && !HasVisibleWindows([Window(id, Unreadable)])
  {
    if HasVisibleWindows(ws) {
      var i :| 0 <= i < |ws| && ws[i].minimized == Reported(false);
      VisibleWindowsMembers(ws);
      assert ws[i] in ws;
    }
    UnreadableIsVisible(id);
  }

  /** An app that is gathered: named, with a bundle ID that is not a system one, regular, and with a visible window. */
  predicate IsActiveApp(w: World, space: int, app: RunningApp)
  {
    && app.bundleId.Some? && app.name.Some?
    && app.bundleId.value !in SystemBundleIds
    && app.policy == Regular
    && HasVisibleWindows(w.WindowsOf(space, app.pid))
  }

  /** The names of the active apps, in the order the apps are listed (a name repeats if two apps share it). */
  function ActiveAppNames(w: World, space: int, apps: seq<RunningApp>): (names: seq<string>)
    ensures |names| <= |apps|
    decreases |apps|
  {
    if apps == [] then []
    else
      var k := |apps| - 1;
      var app := apps[k];
      ActiveAppNames(w, space, apps[..k]) + (if IsActiveApp(w, space, app) then [app.name.value] else [])
  }

  /** A name is listed exactly when some listed app with that name is active. */
  lemma {:induction false} ActiveAppNamesMembers(w: World, space: int, apps: seq<RunningApp>)
    ensures forall n :: n in ActiveAppNames(w, space, apps) <==>
      exists i :: 0 <= i < |apps| && IsActiveApp(w, space, apps[i]) && apps[i].name == Some(n)
    decreases |apps|
  {
    if apps != [] {
      var k := |apps| - 1;
      ActiveAppNamesMembers(w, space, apps[..k]);
      assert forall i :: 0 <= i < k ==> apps[..k][i] == apps[i];
    }
  }

  /** Lists the names of the running apps that are active on the current space. */
  method GetAllActiveAppNames(desk: Desktop) returns (names: seq<string>)
    ensures names == ActiveAppNames(desk.world, desk.space, desk.world.running)
  {
    var apps := desk.world.running;
    names := [];
    for i := 0 to |apps|
      invariant names == ActiveAppNames(desk.world, desk.space, apps[..i])
    {
      assert apps[..i + 1][..i] == apps[..i];
      var app := apps[i];
      if app.bundleId.Some? && app.name.Some? && app.bundleId.value !in SystemBundleIds {
        if app.policy == Regular {
          var visible := CheckVisibleWindows(desk, app.pid);
          if visible {
            names := names + [app.name.value];
          }
        }
      }
    }
    assert apps[..|apps|] == apps;
  }

  /** The first running app with the given name, if any. */
  function FirstNamed(apps: seq<RunningApp>, name: string): (r: Option<RunningApp>)
    ensures r.None? <==> forall i :: 0 <= i < |apps| ==> apps[i].name != Some(name)
    ensures r.Some? ==> exists i :: 0 <= i < |apps| && apps[i] == r.value && apps[i].name == Some(name)
                          && forall k :: 0 <= k < i ==> apps[k].name != Some(name)
  {
    if apps == [] then None
    else if apps[0].name == Some(name) then Some(apps[0])
    else
      var r := FirstNamed(apps[1..], name);
      if r.Some? then
        ghost var i :| 0 <= i < |apps[1..]| && apps[1..][i] == r.value && apps[1..][i].name == Some(name)
                        && forall k :: 0 <= k < i ==> apps[1..][k].name != Some(name);
        assert apps[i + 1] == r.value;
        r
      else r
  }

  // ---------------------------------------------------------------------
  // Moving the active apps to space 1
  // ---------------------------------------------------------------------

  /** Every window of the list, minimised or not, gets the stacked frame of its position. */
  function StackEffects(windows: seq<Window>): seq<Effect>
    decreases |windows|
  {
    if windows == [] then []
    else
      var k := |windows| - 1;
      StackEffects(windows[..k]) + [SetFrame(windows[k].id, StackedFrame(k))]
  }

  /** Window `i` of the list, and only it, gets the stacked frame of position `i`. */
  lemma {:induction false} StackEffectsAt(windows: seq<Window>)
    ensures |StackEffects(windows)| == |windows|
    ensures forall i :: 0 <= i < |windows| ==> StackEffects(windows)[i] == SetFrame(windows[i].id, StackedFrame(i))
    decreases |windows|
  {
    if windows != [] {
      var k := |windows| - 1;
      StackEffectsAt(windows[..k]);
      assert forall i :: 0 <= i < k ==> windows[..k][i] == windows[i];
    }
  }

  /** Stacks every window the app lists on the current space. */
  method StackWindows(desk: Desktop, pid: AppId)
    modifies desk`trace
    ensures desk.trace == old(desk.trace) + StackEffects(desk.world.WindowsOf(desk.space, pid))
  {
    var windows := desk.world.WindowsOf(desk.space, pid);
    for i := 0 to |windows|
      invariant desk.trace == old(desk.trace) + StackEffects(windows[..i])
    {
      assert windows[..i + 1][..i] == windows[..i];
      desk.SetWindowFrame(windows[i].id, StackedFrame(i));
    }
    assert windows[..|windows|] == windows;
  }

  /** The windows, on space 1, of the first app carrying the name; none if no app does. */
  function StackedWindows(w: World, name: string): seq<Window>
  {
    match FirstNamed(w.running, name)
    case Some(app) => w.WindowsOf(1, app.pid)
    case None => []
  }

  /** One name from space 1: activate the first app so named and stack its windows. */
  function MoveStep(w: World, name: string): seq<Effect>
  {
    match FirstNamed(w.running, name)
    case Some(app) => [ActivateApp(app.pid)] + StackEffects(w.WindowsOf(1, app.pid))
    case None => []
  }

  function ActiveMoves(w: World, names: seq<string>): seq<Effect>
    decreases |names|
  {
    if names == [] then []
    else ActiveMoves(w, names[..|names| - 1]) + MoveStep(w, names[|names| - 1])
  }

  /** Sweeping one space: nothing if no app is active there, otherwise go to space 1 and move every active app. */
  function MoveActiveEffects(w: World, space: int): seq<Effect>
  {
    var names := ActiveAppNames(w, space, w.running);
    if names == [] then [] else [SwitchSpace(1)] + ActiveMoves(w, names)
  }

  /** Activates the first app carrying the name, if any, and stacks its windows. */
  method MoveNamedApp(desk: Desktop, name: string)
    requires desk.space == 1
    modifies desk`trace
    ensures desk.trace == old(desk.trace) + MoveStep(desk.world, name)
  {
    var app := FirstNamed(desk.world.running, name);
    if app.Some? {
      desk.Activate(app.value.pid);
      StackWindows(desk, app.value.pid);
    }
  }

  method MoveNamedApps(desk: Desktop, names: seq<string>)
    requires desk.space == 1
    modifies desk`trace
    ensures desk.trace == old(desk.trace) + ActiveMoves(desk.world, names)
  {
    for i := 0 to |names|
      invariant desk.trace == old(desk.trace) + ActiveMoves(desk.world, names[..i])
    {
      assert names[..i + 1][..i] == names[..i];
      AppendAssociates(old(desk.trace), ActiveMoves(desk.world, names[..i]), MoveStep(desk.world, names[i]));
      MoveNamedApp(desk, names[i]);
    }
    assert names[..|names|] == names;
  }

  /** Moves the apps active on the current space to space 1. */
  method MoveActiveAppsToSpace1FromCurrentSpace(desk: Desktop)
    modifies desk`trace, desk`space
    ensures desk.trace == old(desk.trace) + MoveActiveEffects(desk.world, old(desk.space))
    ensures desk.space == if ActiveAppNames(desk.world, old(desk.space), desk.world.running) == [] then old(desk.space) else 1
  {
    var activeApps := GetAllActiveAppNames(desk);
    if activeApps == [] {
      return;
    }
    desk.SwitchToSpace(1);
    MoveNamedApps(desk, activeApps);
    AppendAssociates(old(desk.trace), [SwitchSpace(1)], ActiveMoves(desk.world, activeApps));
  }

  /** One name's step activates an app and sets the stacked frame of exactly its windows on space 1. */
  lemma MoveStepStacks(w: World, name: string)
    ensures forall i :: 0 <= i < |StackedWindows(w, name)| ==>
      SetFrame(StackedWindows(w, name)[i].id, StackedFrame(i)) in MoveStep(w, name)
    ensures forall e :: e in MoveStep(w, name) ==>
      e.ActivateApp? || exists i :: 0 <= i < |StackedWindows(w, name)| && e == SetFrame(StackedWindows(w, name)[i].id, StackedFrame(i))
  {
    var ws := StackedWindows(w, name);
    if FirstNamed(w.running, name).Some? {
      var app := FirstNamed(w.running, name).value;
      var stack := StackEffects(ws);
      StackEffectsAt(ws);
      assert MoveStep(w, name) == [ActivateApp(app.pid)] + stack;
      forall i | 0 <= i < |ws|
        ensures SetFrame(ws[i].id, StackedFrame(i)) in MoveStep(w, name)
      {
        assert MoveStep(w, name)[i + 1] == stack[i];
      }
      forall e | e in MoveStep(w, name) && !e.ActivateApp?
        ensures exists i :: 0 <= i < |ws| && e == SetFrame(ws[i].id, StackedFrame(i))
      {
        var j :| 0 <= j < |stack| && stack[j] == e;
      }
    }
  }

  /**
   * Moving active apps activates apps and sets frames, and nothing else:
   * it sets the frames of exactly the windows, on space 1, of the first
   * app carrying each name, window `i` of that list getting the stacked
   * frame `i`, minimised or not.
   */
  lemma {:induction false} ActiveMovesStack(w: World, names: seq<string>)
    ensures forall n, i :: n in names && 0 <= i < |StackedWindows(w, n)| ==>
      SetFrame(StackedWindows(w, n)[i].id, StackedFrame(i)) in ActiveMoves(w, names)
    ensures forall e :: e in ActiveMoves(w, names) ==>
      e.ActivateApp? || exists n, i :: n in names && 0 <= i < |StackedWindows(w, n)| && e == SetFrame(StackedWindows(w, n)[i].id, StackedFrame(i))
    decreases |names|
  {
    if names != [] {
      var k := |names| - 1;
      var prefix, name := names[..k], names[k];
      ActiveMovesStack(w, prefix);
      MoveStepStacks(w, name);
      assert names == prefix + [name];
    }
  }

  /** Moving active apps to space 1 never switches spaces. */
  lemma ActiveMovesStay(w: World, names: seq<string>)
    ensures Switches(ActiveMoves(w, names)) == []
  {
    ActiveMovesStack(w, names);
    var moves := ActiveMoves(w, names);
    assert forall i :: 0 <= i < |moves| ==> moves[i] in moves;
    NoSwitchInTrace(moves);
  }

  // ---------------------------------------------------------------------
  // Sweeping spaces 2 to 4
  // ---------------------------------------------------------------------

  /** Visiting one space: the pointer first if given, then the switch, then moving its active apps. */
  function SpaceVisit(w: World, pointer: Option<Point>, space: int): seq<Effect>
  {
    (if pointer.Some? then [MovePointer(pointer.value)] else []) + [SwitchSpace(space)] + MoveActiveEffects(w, space)
  }

  /** Visiting spaces 2 to `last` in increasing order. */
  function SpaceSweep(w: World, pointer: Option<Point>, last: int): seq<Effect>
    decreases last
  {
    if last < 2 then [] else SpaceSweep(w, pointer, last - 1) + SpaceVisit(w, pointer, last)
  }

  /** The space current after visiting `space`: space 1 if some app was active there, else `space` itself. */
  function SpaceAfterVisit(w: World, space: int): int
  {
    if ActiveAppNames(w, space, w.running) == [] then space else 1
  }

  /** Visits one space: moves the pointer if given, switches to the space and moves its active apps to space 1. */
  method VisitSpace(desk: Desktop, pointer: Option<Point>, space: int)
    requires CanSwitchTo(space)
    modifies desk`trace, desk`space
    ensures desk.trace == old(desk.trace) + SpaceVisit(desk.world, pointer, space)
    ensures desk.space == SpaceAfterVisit(desk.world, space)
  {
    var head := if pointer.Some? then [MovePointer(pointer.value)] else [];
    if pointer.Some? {
      desk.MovePointerTo(pointer.value);
    }
    assert desk.trace == old(desk.trace) + head;
    desk.SwitchToSpace(space);
    AppendAssociates(old(desk.trace), head, [SwitchSpace(space)]);
    ghost var switched := desk.trace;
    MoveActiveAppsToSpace1FromCurrentSpace(desk);
    AppendAssociates(old(desk.trace), head + [SwitchSpace(space)], MoveActiveEffects(desk.world, space));
  }

  /** Sweeps spaces 2 to 4, moving the pointer to `pointer` before each switch if given. */
  method SweepSpaces(desk: Desktop, pointer: Option<Point>)
    modifies desk`trace, desk`space
    ensures desk.trace == old(desk.trace) + SpaceSweep(desk.world, pointer, 4)
    ensures desk.space == SpaceAfterVisit(desk.world, 4)
  {
    for space := 2 to 5
      invariant desk.trace == old(desk.trace) + SpaceSweep(desk.world, pointer, space - 1)
      invariant space > 2 ==> desk.space == SpaceAfterVisit(desk.world, space - 1)
    {
      AppendAssociates(old(desk.trace), SpaceSweep(desk.world, pointer, space - 1), SpaceVisit(desk.world, pointer, space));
      VisitSpace(desk, pointer, space);
    }
  }

  /**
   * Gathering with an external monitor: spaces 2 to 4 with the pointer on
   * the first non-main monitor's centre, then spaces 2 to 4 again without
   * moving the pointer; nothing if every monitor is main.
   */
  function CollectFromExternal(w: World): seq<Effect>
  {
    match FirstNonMain(Monitors(w.displays))
    case None => []
    case Some(ext) => SpaceSweep(w, Some(Centre(ext.frame)), 4) + SpaceSweep(w, None, 4)
  }

  method CollectFromExternalMonitorSpaces(desk: Desktop)
    modifies desk`trace, desk`space
    ensures desk.trace == old(desk.trace) + CollectFromExternal(desk.world)
    ensures FirstNonMain(Monitors(desk.world.displays)).None? ==> desk.space == old(desk.space)
    ensures FirstNonMain(Monitors(desk.world.displays)).Some? ==> desk.space == SpaceAfterVisit(desk.world, 4)
  {
    var monitors := DetectMonitors(desk.world.displays);
    var external := FirstNonMain(monitors);
    if external.None? {
      return;
    }
    SweepSpaces(desk, Some(Centre(external.value.frame)));
    SweepSpaces(desk, None);
    AppendAssociates(old(desk.trace), SpaceSweep(desk.world, Some(Centre(external.value.frame)), 4),
                     SpaceSweep(desk.world, None, 4));
  }

  method CollectFromMainDisplaySpaces(desk: Desktop)
    modifies desk`trace, desk`space
    ensures desk.trace == old(desk.trace) + SpaceSweep(desk.world, None, 4)
    ensures desk.space == SpaceAfterVisit(desk.world, 4)
  {
    SweepSpaces(desk, None);
  }

  /** The gathering phase: both monitors' sweeps when there are several screens, the main one otherwise. */
  function CollectEffects(w: World): seq<Effect>
  {
    if |Monitors(w.displays)| > 1 then CollectFromExternal(w) else SpaceSweep(w, None, 4)
  }

  /**
   * The spaces a sweep switches to, computed from which apps are active
   * alone: each space in turn, followed by space 1 when something is active
   * there.
   */
  function SweepSwitches(w: World, last: int): seq<int>
    decreases last
  {
    if last < 2 then []
    else SweepSwitches(w, last - 1) + [last] + (if ActiveAppNames(w, last, w.running) != [] then [1] else [])
  }

  /** Moving a space's active apps switches to space 1 first, if anything is active, and to no other space. */
  lemma MoveActiveSwitches(w: World, space: int)
    ensures Switches(MoveActiveEffects(w, space)) == if ActiveAppNames(w, space, w.running) != [] then [1] else []
  {
    var names := ActiveAppNames(w, space, w.running);
    if names != [] {
      ActiveMovesStay(w, names);
      SwitchesConcat([SwitchSpace(1)], ActiveMoves(w, names));
      assert [SwitchSpace(1)][1..] == [];
    }
  }

  /** Visiting a space switches to it, then to space 1 when something is active there. */
  lemma VisitSwitches(w: World, pointer: Option<Point>, space: int)
    ensures Switches(SpaceVisit(w, pointer, space))
         == [space] + (if ActiveAppNames(w, space, w.running) != [] then [1] else [])
  {
    var head := (if pointer.Some? then [MovePointer(pointer.value)] else []) + [SwitchSpace(space)];
    assert Switches(head) == [space] by {
      assert [SwitchSpace(space)][1..] == [];
      assert Switches([SwitchSpace(space)]) == [space];
      if pointer.Some? {
        assert head[1..] == [SwitchSpace(space)];
      } else {
        assert head == [SwitchSpace(space)];
      }
    }
    MoveActiveSwitches(w, space);
    SwitchesConcat(head, MoveActiveEffects(w, space));
  }

  /** A sweep switches to exactly the spaces `SweepSwitches` lists, whatever the windows and the pointer. */
  lemma {:induction false} SweepSwitchOrder(w: World, pointer: Option<Point>, last: int)
    ensures Switches(SpaceSweep(w, pointer, last)) == SweepSwitches(w, last)
    decreases last
  {
    if last >= 2 {
      SweepSwitchOrder(w, pointer, last - 1);
      VisitSwitches(w, pointer, last);
      SwitchesConcat(SpaceSweep(w, pointer, last - 1), SpaceVisit(w, pointer, last));
    }
  }

  /** A sweep's last switch is to the space `SweepSpaces` ends on: space 1 if something was active on space 4, else space 4. */
  lemma SweepEndsOnLastSwitch(w: World, pointer: Option<Point>)
    ensures var switches := Switches(SpaceSweep(w, pointer, 4));
      |switches| > 0 && switches[|switches| - 1] == SpaceAfterVisit(w, 4)
  {
    SweepSwitchOrder(w, pointer, 4);
    assert SweepSwitches(w, 4) == SweepSwitches(w, 3) + [4] + (if ActiveAppNames(w, 4, w.running) != [] then [1] else []);
  }

  /**
   * With more than one screen the gathering sweeps spaces 2 to 4 twice
   * (once with the pointer on the external monitor, once without); with a
   * single screen it sweeps them once.
   */
  lemma CollectSwitches(w: World)
    ensures Switches(CollectEffects(w)) ==
      if |w.displays.screens| > 1 then SweepSwitches(w, 4) + SweepSwitches(w, 4) else SweepSwitches(w, 4)
  {
    MonitorsDescribeScreens(w.displays);
    SweepSwitchOrder(w, None, 4);
    if |w.displays.screens| > 1 {
      ExternalExistsWhenSeveral(w.displays);
      var ext := FirstNonMain(Monitors(w.displays)).value;
      SweepSwitchOrder(w, Some(Centre(ext.frame)), 4);
      SwitchesConcat(SpaceSweep(w, Some(Centre(ext.frame)), 4), SpaceSweep(w, None, 4));
    }
  }

  // ---------------------------------------------------------------------
  // Placing the fixed set of apps
  // ---------------------------------------------------------------------

  const SlackPlacement: PlacementConfig :=
    PlacementConfig(1, map["Slack" := Full], MainDisplay, "Main Display")
  const DatabasePlacement: PlacementConfig :=
    PlacementConfig(2, map["TablePlus" := Left, "Postman" := Right], ExternalDisplay, "External Monitor")
  const TerminalPlacement: PlacementConfig :=
    PlacementConfig(3, map["iTerm" := Left, "Cursor" := Right, "Kiro" := Right], ExternalDisplay, "External Monitor")
  const BrowserPlacement: PlacementConfig :=
    PlacementConfig(4, map["Google Chrome" := Full], ExternalDisplay, "External Monitor")

  /** The four placements, applied in this order. */
  const Placements: seq<PlacementConfig> := [SlackPlacement, DatabasePlacement, TerminalPlacement, BrowserPlacement]

  /** The iteration orders of one placement's two dictionaries. */
  datatype Orders = Orders(placeOrder: seq<string>, appOrder: seq<string>)

  ghost predicate OrdersFit(w: World, config: PlacementConfig, orders: Orders)
  {
    && Enumerates(orders.placeOrder, config.appPlacements.Keys)
    && Enumerates(orders.appOrder, ResolveNames(orders.placeOrder, w.found).Keys)
  }

  /** The effects of the first `k` placements. */
  function PlacementEffects(w: World, orders: seq<Orders>, k: nat): seq<Effect>
    requires k <= |orders| && k <= |Placements|
  {
    if k == 0 then []
    else PlacementEffects(w, orders, k - 1)
         + PlaceRunOf(w, Placements[k - 1], orders[k - 1].placeOrder, orders[k - 1].appOrder).effects
  }

  /**
   * The space current after the first `k` placements, started on `start`:
   * the target space of the last of them that found an app, else `start`.
   */
  function PlacementSpace(w: World, orders: seq<Orders>, k: nat, start: int): int
    requires k <= |orders| && k <= |Placements|
  {
    if k == 0 then start
    else if PlaceRunOf(w, Placements[k - 1], orders[k - 1].placeOrder, orders[k - 1].appOrder).outcome == NoAppsToPlace
    then PlacementSpace(w, orders, k - 1, start)
    else Placements[k - 1].targetSpace
  }

  method MoveAppsToSpace(desk: Desktop, orders: seq<Orders>)
    requires |orders| == |Placements|
    requires forall i :: 0 <= i < |Placements| ==> OrdersFit(desk.world, Placements[i], orders[i])
    modifies desk`trace, desk`space
    ensures desk.trace == old(desk.trace) + PlacementEffects(desk.world, orders, |Placements|)
    ensures desk.space == PlacementSpace(desk.world, orders, |Placements|, old(desk.space))
  {
    for i := 0 to |Placements|
      invariant desk.trace == old(desk.trace) + PlacementEffects(desk.world, orders, i)
      invariant desk.space == PlacementSpace(desk.world, orders, i, old(desk.space))
    {
      var config, order := Placements[i], orders[i];
      ghost var run := PlaceRunOf(desk.world, config, order.placeOrder, order.appOrder);
      assert PlacementEffects(desk.world, orders, i + 1) == PlacementEffects(desk.world, orders, i) + run.effects;
      AppendAssociates(old(desk.trace), PlacementEffects(desk.world, orders, i), run.effects);
      var outcome := PlaceApps(desk, config, order.placeOrder, order.appOrder);
    }
  }

  /** The whole run: nothing without the accessibility permission; otherwise gather, return to space 1, then place. */
  function ArrangeRun(w: World, orders: seq<Orders>): seq<Effect>
    requires |orders| == |Placements|
  {
    if !w.trusted then []
    else CollectEffects(w) + [SwitchSpace(1)] + PlacementEffects(w, orders, |Placements|)
  }

  method ArrangeAllApps(desk: Desktop, orders: seq<Orders>)
    requires |orders| == |Placements|
    requires forall i :: 0 <= i < |Placements| ==> OrdersFit(desk.world, Placements[i], orders[i])
    modifies desk`trace, desk`space
    ensures desk.trace == old(desk.trace) + ArrangeRun(desk.world, orders)
    ensures !desk.world.trusted ==> desk.space == old(desk.space)
    ensures desk.world.trusted ==> desk.space == PlacementSpace(desk.world, orders, |Placements|, 1)
  {
    if !desk.world.trusted {
      return;
    }
    var monitors := DetectMonitors(desk.world.displays);
    if |monitors| > 1 {
      CollectFromExternalMonitorSpaces(desk);
    } else {
      CollectFromMainDisplaySpaces(desk);
    }
    ghost var collected := desk.trace;
    desk.SwitchToSpace(1);
    MoveAppsToSpace(desk, orders);
    ghost var placements := PlacementEffects(desk.world, orders, |Placements|);
    AppendAssociates(collected, [SwitchSpace(1)], placements);
    AppendAssociates(old(desk.trace), CollectEffects(desk.world), [SwitchSpace(1)] + placements);
    AppendAssociates(CollectEffects(desk.world), [SwitchSpace(1)], placements);
  }

  /**
   * Without the permission nothing happens. With it, the run first switches
   * to the spaces of the gathering sweeps, then to space 1, before any
   * placement switches.
   */
  lemma ArrangeSwitchOrder(w: World, orders: seq<Orders>)
    requires |orders| == |Placements|
    ensures !w.trusted ==> ArrangeRun(w, orders) == []
    ensures w.trusted ==>
      var sweeps := if |w.displays.screens| > 1 then SweepSwitches(w, 4) + SweepSwitches(w, 4) else SweepSwitches(w, 4);
      Switches(ArrangeRun(w, orders)) == sweeps + [1] + Switches(PlacementEffects(w, orders, |Placements|))
  {
    if w.trusted {
      var collect, placing := CollectEffects(w), PlacementEffects(w, orders, |Placements|);
      CollectSwitches(w);
      SwitchesConcat(collect + [SwitchSpace(1)], placing);
      SwitchesConcat(collect, [SwitchSpace(1)]);
      assert Switches([SwitchSpace(1)]) == [1] by {
        assert [SwitchSpace(1)][1..] == [];
      }
    }
  }

  /**
   * With a single screen the three external placements move no window:
   * every window the placing phase moves is moved by the Slack placement.
   */
  lemma SingleScreenOnlySlackMoves(w: World, orders: seq<Orders>)
    requires |orders| == |Placements| && |w.displays.screens| <= 1
    ensures FrameChanges(PlacementEffects(w, orders, |Placements|))
         == FrameChanges(PlaceRunOf(w, SlackPlacement, orders[0].placeOrder, orders[0].appOrder).effects)
  {
    assert PlacementEffects(w, orders, 1) == PlaceRunOf(w, SlackPlacement, orders[0].placeOrder, orders[0].appOrder).effects by {
      assert Placements[0] == SlackPlacement;
      assert PlacementEffects(w, orders, 0) == [];
    }
    for k := 1 to |Placements|
      invariant FrameChanges(PlacementEffects(w, orders, k))
             == FrameChanges(PlaceRunOf(w, SlackPlacement, orders[0].placeOrder, orders[0].appOrder).effects)
    {
      ExternalStepKeepsFrames(w, orders, k);
    }
  }

  /** With a single screen, an external placement adds no frame change. */
  lemma ExternalStepKeepsFrames(w: World, orders: seq<Orders>, k: nat)
    requires |orders| == |Placements| && |w.displays.screens| <= 1 && 1 <= k < |Placements|
    ensures FrameChanges(PlacementEffects(w, orders, k + 1)) == FrameChanges(PlacementEffects(w, orders, k))
  {
    var run := PlaceRunOf(w, Placements[k], orders[k].placeOrder, orders[k].appOrder);
    ExternalNeedsSecondScreen(w, Placements[k], orders[k].placeOrder, orders[k].appOrder);
    FrameChangesConcat(PlacementEffects(w, orders, k), run.effects);
  }
}
