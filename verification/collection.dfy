/**
 * The collection phase: bring the target apps to space 1, either one
 * window per app (centred, stepped per app) or every visible window found
 * on spaces 1 to 4, each put into a staging slot of its app.
 */
module Collection {
  import opened Sequences
  import opened Options
  import opened Geometry
  import opened Windows
  import opened Displays
  import opened WindowServer

  /** Which apps to collect, and whether to gather all their windows from every space. */
  datatype CollectionConfig = CollectionConfig(targetApps: seq<string>, collectAllWindows: bool)

  // ---------------------------------------------------------------------
  // moveAppsToSpace1
  // ---------------------------------------------------------------------

  /**
   * The target at position `index`, once on space 1: if it can be found,
   * activate it and, when there is a main screen, give one of its windows
   * the centred frame for that index.
   */
  function MoveToSpace1Step(w: World, name: string, index: nat): seq<Effect>
  {
    if name !in w.found then []
    else
      var pid := w.found[name];
      [ActivateApp(pid)]
      + match w.displays.MainFrame()
        case None => []
        case Some(screen) => PositionEffects(w, 1, pid, CentredFrame(screen, index))
  }

  function MoveToSpace1Steps(w: World, apps: seq<string>): seq<Effect>
    decreases |apps|
  {
    if apps == [] then []
    else MoveToSpace1Steps(w, apps[..|apps| - 1]) + MoveToSpace1Step(w, apps[|apps| - 1], |apps| - 1)
  }

  /** Activates the target, if found, and positions its window at the centred frame of its position. */
  method MoveAppToSpace1(desk: Desktop, appName: string, index: nat)
    requires desk.space == 1
    modifies desk`trace
    ensures desk.trace == old(desk.trace) + MoveToSpace1Step(desk.world, appName, index)
  {
    if appName in desk.world.found {
      var app := desk.world.found[appName];
      desk.Activate(app);
      var screen := desk.world.displays.MainFrame();
      if screen.Some? {
        PositionWindow(desk, app, CentredFrame(screen.value, index));
        AppendAssociates(old(desk.trace), [ActivateApp(app)], PositionEffects(desk.world, 1, app, CentredFrame(screen.value, index)));
      }
    }
  }

  /** Switches to space 1, then activates and positions each target in turn. */
  method MoveAppsToSpace1(desk: Desktop, targetApps: seq<string>)
    modifies desk`trace, desk`space
    ensures desk.space == 1
    ensures desk.trace == old(desk.trace) + [SwitchSpace(1)] + MoveToSpace1Steps(desk.world, targetApps)
  {
    desk.SwitchToSpace(1);
    ghost var t0 := desk.trace;
    for index := 0 to |targetApps|
      invariant desk.space == 1
      invariant desk.trace == t0 + MoveToSpace1Steps(desk.world, targetApps[..index])
    {
      assert targetApps[..index + 1][..index] == targetApps[..index];
      AppendAssociates(t0, MoveToSpace1Steps(desk.world, targetApps[..index]),
                       MoveToSpace1Step(desk.world, targetApps[index], index));
      MoveAppToSpace1(desk, targetApps[index], index);
    }
    assert targetApps[..|targetApps|] == targetApps;
  }

  /**
   * Bringing apps to space 1 this way never switches spaces again, moves at
   * most one window per target, and moves none without a main screen.
   */
  lemma {:induction false} MoveToSpace1OneWindowPerApp(w: World, apps: seq<string>)
    ensures Switches(MoveToSpace1Steps(w, apps)) == []
    ensures |FrameChanges(MoveToSpace1Steps(w, apps))| <= |apps|
    ensures w.displays.MainFrame().None? ==> FrameChanges(MoveToSpace1Steps(w, apps)) == []
    decreases |apps|
  {
    if apps != [] {
      var n := |apps| - 1;
      var prefix := MoveToSpace1Steps(w, apps[..n]);
      var step := MoveToSpace1Step(w, apps[n], n);
      MoveToSpace1OneWindowPerApp(w, apps[..n]);
      SwitchesConcat(prefix, step);
      FrameChangesConcat(prefix, step);
      if apps[n] in w.found {
        var pid := w.found[apps[n]];
        var position := match w.displays.MainFrame()
          case None => []
          case Some(screen) => PositionEffects(w, 1, pid, CentredFrame(screen, n));
        assert step == [ActivateApp(pid)] + position;
        SwitchesConcat([ActivateApp(pid)], position);
        FrameChangesConcat([ActivateApp(pid)], position);
        assert [ActivateApp(pid)][1..] == [];
        if w.displays.MainFrame().Some? {
          PositionIsFrameChange(w, 1, pid, CentredFrame(w.displays.MainFrame().value, n));
          PositionTouchesChosenOnly(w, 1, pid, CentredFrame(w.displays.MainFrame().value, n));
        }
      }
    }
  }

  // ---------------------------------------------------------------------
  // Staging slots of collectAllAppsToSpace1
  // ---------------------------------------------------------------------

  /** Every target name with no slot yet. */
  function NoSlots(apps: seq<string>): map<string, seq<Point>>
  {
    map n | n in apps :: []
  }

  /** Appends, to each target's entry, the row of slots for its position among `appCount` targets. */
  function AddRows(table: map<string, seq<Point>>, screen: Rect, apps: seq<string>, appCount: nat): (r: map<string, seq<Point>>)
    ensures forall n :: n in r <==> n in table || n in apps
    decreases |apps|
  {
    if apps == [] then table
    else
      var t := AddRows(table, screen, apps[..|apps| - 1], appCount);
      var name := apps[|apps| - 1];
      t[name := (if name in t then t[name] else []) + StagingRow(screen, |apps| - 1, appCount)]
  }

  /** The staging slots of every target: none without a main screen. */
  function SlotTable(screen: Option<Rect>, apps: seq<string>): map<string, seq<Point>>
  {
    match screen
    case None => NoSlots(apps)
    case Some(s) => AddRows(NoSlots(apps), s, apps, |apps|)
  }

  /** Appends the ten slots of position `index` to the entry of `name`. */
  method AppendRow(table: map<string, seq<Point>>, screen: Rect, name: string, index: nat, appCount: nat)
    returns (r: map<string, seq<Point>>)
    requires name in table
    ensures r == table[name := table[name] + StagingRow(screen, index, appCount)]
  {
    r := table;
    for i := 0 to StagingSlotCount
      invariant name in r && r[name] == table[name] + StagingRow(screen, index, appCount)[..i]
      invariant forall n :: n in r <==> n in table
      invariant forall n :: n in r && n != name ==> r[n] == table[n]
    {
      assert StagingRow(screen, index, appCount)[..i + 1]
             == StagingRow(screen, index, appCount)[..i] + [StagingSlot(screen, index, appCount, i)];
      r := r[name := r[name] + [StagingSlot(screen, index, appCount, i)]];
    }
    assert StagingRow(screen, index, appCount)[..StagingSlotCount] == StagingRow(screen, index, appCount);
  }

  /** Builds the slot table: an empty entry per target, then ten slots per target position. */
  method PrepareSlots(screen: Option<Rect>, apps: seq<string>) returns (table: map<string, seq<Point>>)
    ensures table == SlotTable(screen, apps)
  {
    table := map[];
    for i := 0 to |apps|
      invariant table == NoSlots(apps[..i])
    {
      assert apps[..i + 1] == apps[..i] + [apps[i]];
      table := table[apps[i] := []];
    }
    assert apps[..|apps|] == apps;
    if screen.Some? {
      var s := screen.value;
      ghost var empty := table;
      for index := 0 to |apps|
        invariant table == AddRows(empty, s, apps[..index], |apps|)
      {
        assert apps[..index + 1][..index] == apps[..index];
        assert apps[index] in table;
        table := AppendRow(table, s, apps[index], index, |apps|);
      }
    }
  }

  /** With distinct targets, each target's slots are exactly the ten slots of its own position. */
  lemma {:induction false} AddRowsDistinct(table: map<string, seq<Point>>, screen: Rect, apps: seq<string>, appCount: nat)
    requires forall i, j :: 0 <= i < j < |apps| ==> apps[i] != apps[j]
    requires forall n :: n in apps ==> n in table && table[n] == []
    ensures forall i :: 0 <= i < |apps| ==> AddRows(table, screen, apps, appCount)[apps[i]] == StagingRow(screen, i, appCount)
    ensures forall n :: n in table && n !in apps ==> AddRows(table, screen, apps, appCount)[n] == table[n]
    decreases |apps|
  {
    if apps != [] {
      var k := |apps| - 1;
      var prefix := apps[..k];
      AddRowsDistinct(table, screen, prefix, appCount);
      assert apps[k] !in prefix;
      forall i | 0 <= i < k
        ensures AddRows(table, screen, apps, appCount)[apps[i]] == StagingRow(screen, i, appCount)
      {
        assert apps[i] == prefix[i];
      }
    }
  }

  /** With a main screen and distinct targets, target `i` gets the ten slots of position `i`. */
  lemma SlotTableRows(screen: Rect, apps: seq<string>)
    requires forall i, j :: 0 <= i < j < |apps| ==> apps[i] != apps[j]
    ensures forall i :: 0 <= i < |apps| ==>
      apps[i] in SlotTable(Some(screen), apps) && SlotTable(Some(screen), apps)[apps[i]] == StagingRow(screen, i, |apps|)
  {
    AddRowsDistinct(NoSlots(apps), screen, apps, |apps|);
  }

  /** The effects for one window placed into a slot: set its frame, then raise it if asked. */
  function SlotStep(window: WindowId, frame: Rect, raise: bool): seq<Effect>
  {
    [SetFrame(window, frame)] + (if raise then [RaiseWindow(window)] else [])
  }

  /**
   * Window `k` of `windows` goes to slot `start + k` while slots remain;
   * with `raise` each placed window is also raised. Windows beyond the last
   * slot are left where they are.
   */
  function PlaceInSlots(windows: seq<Window>, slots: seq<Point>, start: nat, raise: bool): seq<Effect>
    decreases |windows|
  {
    if windows == [] then []
    else
      var k := |windows| - 1;
      PlaceInSlots(windows[..k], slots, start, raise)
      + (if start + k < |slots| then SlotStep(windows[k].id, StagingFrame(slots[start + k]), raise) else [])
  }

  method PlaceWindowsInSlots(desk: Desktop, windows: seq<Window>, slots: seq<Point>, start: nat, raise: bool)
    modifies desk`trace
    ensures desk.trace == old(desk.trace) + PlaceInSlots(windows, slots, start, raise)
  {
    for index := 0 to |windows|
      invariant desk.trace == old(desk.trace) + PlaceInSlots(windows[..index], slots, start, raise)
    {
      assert windows[..index + 1][..index] == windows[..index];
      if start + index < |slots| {
        var pos := slots[start + index];
        ghost var set_ := [SetFrame(windows[index].id, StagingFrame(pos))];
        ghost var raised := if raise then [RaiseWindow(windows[index].id)] else [];
        assert SlotStep(windows[index].id, StagingFrame(pos), raise) == set_ + raised;
        AppendAssociates(old(desk.trace), PlaceInSlots(windows[..index], slots, start, raise), set_ + raised);
        ghost var t := desk.trace;
        desk.SetWindowFrame(windows[index].id, StagingFrame(pos));
        if raise {
          desk.Raise(windows[index].id);
        }
        AppendAssociates(t, set_, raised);
      }
    }
    assert windows[..|windows|] == windows;
  }

  /** How many windows fit in the slots from `start` on. */
  function SlotsLeft(count: nat, slots: seq<Point>, start: nat): nat
  {
    if start >= |slots| then 0 else if count < |slots| - start then count else |slots| - start
  }

  /** One window's slot step sets its frame and switches no space. */
  lemma SlotStepChanges(window: WindowId, frame: Rect, raise: bool)
    ensures FrameChanges(SlotStep(window, frame, raise)) == [SetFrame(window, frame)]
    ensures Switches(SlotStep(window, frame, raise)) == []
  {
    var step := SlotStep(window, frame, raise);
    assert step[0] == SetFrame(window, frame);
    if raise {
      var raised := [RaiseWindow(window)];
      assert raised[1..] == [];
      assert FrameChanges(raised) == [] && Switches(raised) == [];
      assert step[1..] == raised;
    } else {
      assert step[1..] == [];
    }
  }

  /** Appending one slot step to a trace appends that step's one frame change. */
  lemma AfterSlotStepChanges(trace: seq<Effect>, window: WindowId, frame: Rect, raise: bool)
    ensures FrameChanges(trace + SlotStep(window, frame, raise)) == FrameChanges(trace) + [SetFrame(window, frame)]
  {
    FrameChangesConcat(trace, SlotStep(window, frame, raise));
    SlotStepChanges(window, frame, raise);
  }

  /** The frames placing into slots sets: window `k` at the frame of slot `start + k`, while slots remain. */
  function SlotFrames(windows: seq<Window>, slots: seq<Point>, start: nat): seq<Effect>
    decreases |windows|
  {
    if windows == [] then []
    else
      var k := |windows| - 1;
      SlotFrames(windows[..k], slots, start)
      + (if start + k < |slots| then [SetFrame(windows[k].id, StagingFrame(slots[start + k]))] else [])
  }

  lemma {:induction false} PlaceInSlotsChanges(windows: seq<Window>, slots: seq<Point>, start: nat, raise: bool)
    ensures FrameChanges(PlaceInSlots(windows, slots, start, raise)) == SlotFrames(windows, slots, start)
    decreases |windows|
  {
    if windows != [] {
      var k := |windows| - 1;
      var prefix := PlaceInSlots(windows[..k], slots, start, raise);
      PlaceInSlotsChanges(windows[..k], slots, start, raise);
      if start + k < |slots| {
        AfterSlotStepChanges(prefix, windows[k].id, StagingFrame(slots[start + k]), raise);
      } else {
        FrameChangesConcat(prefix, []);
      }
    }
  }

  lemma {:induction false} SlotFramesAt(windows: seq<Window>, slots: seq<Point>, start: nat)
    ensures var frames := SlotFrames(windows, slots, start);
      && |frames| == SlotsLeft(|windows|, slots, start)
      && forall k :: 0 <= k < |frames| ==> frames[k] == SetFrame(windows[k].id, StagingFrame(slots[start + k]))
    decreases |windows|
  {
    if windows != [] {
      var k := |windows| - 1;
      SlotFramesAt(windows[..k], slots, start);
      assert forall j :: 0 <= j < k ==> windows[..k][j] == windows[j];
    }
  }

  /**
   * The frame changes of placing into slots are exactly: the first windows,
   * as many as slots remain, each at the 800 by 600 frame of its slot.
   */
  lemma PlaceInSlotsFrames(windows: seq<Window>, slots: seq<Point>, start: nat, raise: bool)
    ensures var changes := FrameChanges(PlaceInSlots(windows, slots, start, raise));
      && |changes| == SlotsLeft(|windows|, slots, start)
      && forall k :: 0 <= k < |changes| ==> changes[k] == SetFrame(windows[k].id, StagingFrame(slots[start + k]))
  {
    PlaceInSlotsChanges(windows, slots, start, raise);
    SlotFramesAt(windows, slots, start);
  }

  /** Placing into slots never switches spaces. */
  lemma {:induction false} PlaceInSlotsStays(windows: seq<Window>, slots: seq<Point>, start: nat, raise: bool)
    ensures Switches(PlaceInSlots(windows, slots, start, raise)) == []
    decreases |windows|
  {
    if windows != [] {
      var k := |windows| - 1;
      var prefix := PlaceInSlots(windows[..k], slots, start, raise);
      PlaceInSlotsStays(windows[..k], slots, start, raise);
      if start + k < |slots| {
        var step := SlotStep(windows[k].id, StagingFrame(slots[start + k]), raise);
        assert PlaceInSlots(windows, slots, start, raise) == prefix + step;
        SwitchesConcat(prefix, step);
        SlotStepChanges(windows[k].id, StagingFrame(slots[start + k]), raise);
      } else {
        assert PlaceInSlots(windows, slots, start, raise) == prefix + [];
        assert prefix + [] == prefix;
      }
    }
  }

  // ---------------------------------------------------------------------
  // The sweep of collectAllAppsToSpace1
  // ---------------------------------------------------------------------

  /** The windows collected per target, the current space, and the effects so far. */
  datatype SweepState = SweepState(collected: map<string, nat>, current: int, effects: seq<Effect>)

  /**
   * One target during the check of space `spaceNumber`, with `current` the
   * space actually current. A target that was not found is skipped.
   * Otherwise it is activated and its visible windows on the current space
   * are read; if there are any, they go into its slots after those already
   * used, and its count grows by their number. On space 1 they are placed
   * where they are. On a later space the sweep switches to space 1,
   * activates the app again, places and raises each window, and switches
   * back to `spaceNumber` — except, when `returnFromLast` is false, after
   * space 4, where it stays on space 1. The result holds this visit's
   * effects only.
   */
  function Visit(w: World, running: map<string, AppId>, slots: map<string, seq<Point>>, spaceNumber: int,
                 returnFromLast: bool, collected: map<string, nat>, current: int, name: string): SweepState
  {
    if name !in running then SweepState(collected, current, [])
    else
      var pid := running[name];
      var windows := VisibleWindows(w.WindowsOf(current, pid));
      if |windows| == 0 then SweepState(collected, current, [ActivateApp(pid)])
      else
        var currentCollected := if name in collected then collected[name] else 0;
        var positions := if name in slots then slots[name] else [];
        SweepState(collected[name := currentCollected + |windows|],
                   SpaceAfterMove(spaceNumber, returnFromLast, current),
                   [ActivateApp(pid)] + MoveFound(pid, windows, positions, currentCollected, spaceNumber, returnFromLast))
  }

  /** Whether the sweep switches back to the space being checked after moving windows from it. */
  predicate ReturnsTo(spaceNumber: int, returnFromLast: bool)
  {
    spaceNumber < 4 || returnFromLast
  }

  /** The switch back to the space being checked, when the sweep returns to it. */
  function ReturnSwitch(spaceNumber: int, returnFromLast: bool): seq<Effect>
  {
    if ReturnsTo(spaceNumber, returnFromLast) then [SwitchSpace(spaceNumber)] else []
  }

  /** The space current after fetching windows to space 1 while checking `spaceNumber`. */
  function FetchEndSpace(spaceNumber: int, returnFromLast: bool): int
  {
    if ReturnsTo(spaceNumber, returnFromLast) then spaceNumber else 1
  }

  /** The space current after moving a target's windows found while checking `spaceNumber`. */
  function SpaceAfterMove(spaceNumber: int, returnFromLast: bool, current: int): int
  {
    if spaceNumber == 1 then current else FetchEndSpace(spaceNumber, returnFromLast)
  }

  /** Fetching a target's windows to space 1: switch, activate, place and raise, then maybe switch back. */
  function Fetch(pid: AppId, windows: seq<Window>, positions: seq<Point>, start: nat, spaceNumber: int,
                 returnFromLast: bool): seq<Effect>
  {
    [SwitchSpace(1), ActivateApp(pid)] + PlaceInSlots(windows, positions, start, true) + ReturnSwitch(spaceNumber, returnFromLast)
  }

  /** Moving the windows of a target found while checking `spaceNumber` into its slots. */
  function MoveFound(pid: AppId, windows: seq<Window>, positions: seq<Point>, start: nat, spaceNumber: int,
                     returnFromLast: bool): seq<Effect>
  {
    if spaceNumber == 1 then PlaceInSlots(windows, positions, start, false)
    else Fetch(pid, windows, positions, start, spaceNumber, returnFromLast)
  }

  /**
   * Moving found windows switches no space on space 1; from a later space
   * it switches to space 1 and then back to the space being checked,
   * unless that is space 4 and the sweep does not return from it.
   */
  lemma MoveFoundSwitches(pid: AppId, windows: seq<Window>, positions: seq<Point>, start: nat, spaceNumber: int,
                          returnFromLast: bool)
    ensures Switches(MoveFound(pid, windows, positions, start, spaceNumber, returnFromLast))
         == if spaceNumber == 1 then [] else [1] + if ReturnsTo(spaceNumber, returnFromLast) then [spaceNumber] else []
  {
    PlaceInSlotsStays(windows, positions, start, spaceNumber != 1);
    if spaceNumber != 1 {
      var head := [SwitchSpace(1), ActivateApp(pid)];
      var body := PlaceInSlots(windows, positions, start, true);
      var back := ReturnSwitch(spaceNumber, returnFromLast);
      SwitchesConcat(head + body, back);
      SwitchesConcat(head, body);
      assert Switches(head) == [1] by {
        assert head[1..][1..] == [];
      }
      assert Switches(back) == if ReturnsTo(spaceNumber, returnFromLast) then [spaceNumber] else [] by {
        if back != [] {
          assert back[1..] == [];
        }
      }
    }
  }

  /** The targets `apps`, visited in order during the check of space `spaceNumber`. */
  function SpacePass(w: World, running: map<string, AppId>, slots: map<string, seq<Point>>, spaceNumber: int,
                     returnFromLast: bool, s: SweepState, apps: seq<string>): SweepState
    decreases |apps|
  {
    if apps == [] then s
    else
      var t := SpacePass(w, running, slots, spaceNumber, returnFromLast, s, apps[..|apps| - 1]);
      var v := Visit(w, running, slots, spaceNumber, returnFromLast, t.collected, t.current, apps[|apps| - 1]);
      SweepState(v.collected, v.current, t.effects + v.effects)
  }

  /** Spaces 1 to `m`, each switched to and then checked for every target. */
  function SweepSpaces(w: World, running: map<string, AppId>, slots: map<string, seq<Point>>,
                       returnFromLast: bool, apps: seq<string>, start: SweepState, m: nat): SweepState
  {
    if m == 0 then start
    else
      var s := SweepSpaces(w, running, slots, returnFromLast, apps, start, m - 1);
      var t := SpacePass(w, running, slots, m, returnFromLast, SweepState(s.collected, m, [SwitchSpace(m)]), apps);
      SweepState(t.collected, t.current, s.effects + t.effects)
  }

  /** Every target's count set to zero. */
  function NoneCollected(apps: seq<string>): map<string, nat>
  {
    map n | n in apps :: 0
  }

  /**
   * The whole gathering from `startSpace`: the sweep of spaces 1 to 4, the
   * final switch to space 1 and one more activation of every target found.
   */
  function CollectAll(w: World, apps: seq<string>, startSpace: int, returnFromLast: bool): SweepState
  {
    var running := ResolveNames(apps, w.found);
    var slots := SlotTable(w.displays.MainFrame(), apps);
    var sweep := SweepSpaces(w, running, slots, returnFromLast, apps, SweepState(NoneCollected(apps), startSpace, []), 4);
    SweepState(sweep.collected, 1, sweep.effects + [SwitchSpace(1)] + LookupEffects(apps, running))
  }

  /** Finds each target by name, without activating it. */
  method FindApps(w: World, names: seq<string>) returns (running: map<string, AppId>)
    ensures running == ResolveNames(names, w.found)
  {
    running := map[];
    for i := 0 to |names|
      invariant running == ResolveNames(names[..i], w.found)
    {
      assert names[..i + 1] == names[..i] + [names[i]];
      if names[i] in w.found {
        running := running[names[i] := w.found[names[i]]];
      }
    }
    assert names[..|names|] == names;
  }

  /**
   * Visits one target during the check of space `spaceNumber`. With
   * `returnFromLast` false it is the program as written, which does not
   * switch back after fetching from space 4; with it true, the corrected
   * visit, which always switches back.
   */
  method VisitApp(desk: Desktop, running: map<string, AppId>, slots: map<string, seq<Point>>, spaceNumber: int,
                  returnFromLast: bool, collected: map<string, nat>, name: string) returns (newCollected: map<string, nat>)
    requires CanSwitchTo(spaceNumber)
    modifies desk`trace, desk`space
    ensures var v := Visit(desk.world, running, slots, spaceNumber, returnFromLast, collected, old(desk.space), name);
      newCollected == v.collected && desk.space == v.current && desk.trace == old(desk.trace) + v.effects
  {
    newCollected := collected;
    if name !in running {
      return;
    }
    var app := running[name];
    desk.Activate(app);
    var windows := VisibleWindows(desk.world.WindowsOf(desk.space, app));
    if |windows| > 0 {
      var currentCollected := if name in collected then collected[name] else 0;
      var positions := if name in slots then slots[name] else [];
      PlaceFoundWindows(desk, app, windows, positions, currentCollected, spaceNumber, returnFromLast);
      newCollected := collected[name := currentCollected + |windows|];
      AppendAssociates(old(desk.trace), [ActivateApp(app)],
                       MoveFound(app, windows, positions, currentCollected, spaceNumber, returnFromLast));
    }
  }

  /**
   * Places a target's windows into its slots from the space being checked:
   * in place on space 1, otherwise by fetching them to space 1.
   */
  method PlaceFoundWindows(desk: Desktop, app: AppId, windows: seq<Window>, positions: seq<Point>, start: nat,
                           spaceNumber: int, returnFromLast: bool)
    requires CanSwitchTo(spaceNumber)
    modifies desk`trace, desk`space
    ensures desk.space == SpaceAfterMove(spaceNumber, returnFromLast, old(desk.space))
    ensures desk.trace == old(desk.trace) + MoveFound(app, windows, positions, start, spaceNumber, returnFromLast)
  {
    if spaceNumber == 1 {
      PlaceWindowsInSlots(desk, windows, positions, start, false);
    } else {
      FetchToSpace1(desk, app, windows, positions, start, spaceNumber, returnFromLast);
    }
  }

  /**
   * Goes to space 1, activates the app, moves its windows into their slots
   * and raises each, then returns to space `spaceNumber` — below space 4
   * always, from space 4 only when `returnFromLast` holds.
   */
  method FetchToSpace1(desk: Desktop, app: AppId, windows: seq<Window>, positions: seq<Point>, start: nat, spaceNumber: int,
                       returnFromLast: bool)
    requires CanSwitchTo(spaceNumber)
    modifies desk`trace, desk`space
    ensures desk.space == FetchEndSpace(spaceNumber, returnFromLast)
    ensures desk.trace == old(desk.trace) + Fetch(app, windows, positions, start, spaceNumber, returnFromLast)
  {
    desk.SwitchToSpace(1);
    desk.Activate(app);
    PlaceWindowsInSlots(desk, windows, positions, start, true);
    AppendAssociates(old(desk.trace), [SwitchSpace(1), ActivateApp(app)], PlaceInSlots(windows, positions, start, true));
    if ReturnsTo(spaceNumber, returnFromLast) {
      desk.SwitchToSpace(spaceNumber);
    }
  }

  /** Switches to space `spaceNumber` and visits every target. */
  method CheckSpace(desk: Desktop, running: map<string, AppId>, slots: map<string, seq<Point>>, spaceNumber: int,
                    returnFromLast: bool, apps: seq<string>, collected: map<string, nat>) returns (newCollected: map<string, nat>)
    requires CanSwitchTo(spaceNumber)
    modifies desk`trace, desk`space
    ensures var t := SpacePass(desk.world, running, slots, spaceNumber, returnFromLast,
                               SweepState(collected, spaceNumber, [SwitchSpace(spaceNumber)]), apps);
      newCollected == t.collected && desk.space == t.current && desk.trace == old(desk.trace) + t.effects
  {
    desk.SwitchToSpace(spaceNumber);
    newCollected := collected;
    ghost var start := SweepState(collected, spaceNumber, [SwitchSpace(spaceNumber)]);
    for a := 0 to |apps|
      invariant var t := SpacePass(desk.world, running, slots, spaceNumber, returnFromLast, start, apps[..a]);
        newCollected == t.collected && desk.space == t.current && desk.trace == old(desk.trace) + t.effects
    {
      assert apps[..a + 1][..a] == apps[..a];
      ghost var t := SpacePass(desk.world, running, slots, spaceNumber, returnFromLast, start, apps[..a]);
      ghost var v := Visit(desk.world, running, slots, spaceNumber, returnFromLast, t.collected, t.current, apps[a]);
      AppendAssociates(old(desk.trace), t.effects, v.effects);
      newCollected := VisitApp(desk, running, slots, spaceNumber, returnFromLast, newCollected, apps[a]);
    }
    assert apps[..|apps|] == apps;
  }

  /** Checks spaces 1 to 4 in turn for every target. */
  method SweepAllSpaces(desk: Desktop, runningApps: map<string, AppId>, appPositions: map<string, seq<Point>>,
                        returnFromLast: bool, targetApps: seq<string>, collected: map<string, nat>) returns (windowsCollected: map<string, nat>)
    modifies desk`trace, desk`space
    ensures var s := SweepSpaces(desk.world, runningApps, appPositions, returnFromLast, targetApps,
                                 SweepState(collected, old(desk.space), []), 4);
      windowsCollected == s.collected && desk.space == s.current && desk.trace == old(desk.trace) + s.effects
  {
    var w := desk.world;
    windowsCollected := collected;
    ghost var start := SweepState(collected, desk.space, []);
    ghost var t0 := desk.trace;
    for spaceNumber := 1 to 5
      invariant var s := SweepSpaces(w, runningApps, appPositions, returnFromLast, targetApps, start, spaceNumber - 1);
        windowsCollected == s.collected && desk.space == s.current && desk.trace == t0 + s.effects
    {
      ghost var s := SweepSpaces(w, runningApps, appPositions, returnFromLast, targetApps, start, spaceNumber - 1);
      ghost var t := desk.trace;
      windowsCollected := CheckSpace(desk, runningApps, appPositions, spaceNumber, returnFromLast, targetApps, windowsCollected);
      ghost var u := SpacePass(w, runningApps, appPositions, spaceNumber, returnFromLast,
                               SweepState(s.collected, spaceNumber, [SwitchSpace(spaceNumber)]), targetApps);
      assert SweepSpaces(w, runningApps, appPositions, returnFromLast, targetApps, start, spaceNumber)
             == SweepState(u.collected, u.current, s.effects + u.effects);
      AppendAssociates(t0, s.effects, u.effects);
    }
  }

  /** A zero count for every target. */
  method ZeroCounts(apps: seq<string>) returns (counts: map<string, nat>)
    ensures counts == NoneCollected(apps)
  {
    counts := map[];
    for i := 0 to |apps|
      invariant counts == NoneCollected(apps[..i])
    {
      assert apps[..i + 1] == apps[..i] + [apps[i]];
      counts := counts[apps[i] := 0];
    }
    assert apps[..|apps|] == apps;
  }

  /** Activates, in order, every target that was found. */
  method ActivateTargets(desk: Desktop, apps: seq<string>, running: map<string, AppId>)
    modifies desk`trace
    ensures desk.trace == old(desk.trace) + LookupEffects(apps, running)
  {
    for i := 0 to |apps|
      invariant desk.trace == old(desk.trace) + LookupEffects(apps[..i], running)
    {
      assert apps[..i + 1][..i] == apps[..i];
      if apps[i] in running {
        desk.Activate(running[apps[i]]);
      }
    }
    assert apps[..|apps|] == apps;
  }

  /**
   * Gathers every visible window of the targets from spaces 1 to 4 into
   * their staging slots on space 1 and returns how many were found per
   * target. Windows found on spaces 2 and 3 are followed by a switch back
   * to the space being checked; after space 4 only when `returnFromLast`
   * holds (false is the program as written, true the corrected sweep).
   */
  method CollectAllAppsToSpace1(desk: Desktop, targetApps: seq<string>, returnFromLast: bool)
    returns (windowsCollected: map<string, nat>)
    modifies desk`trace, desk`space
    ensures var run := CollectAll(desk.world, targetApps, old(desk.space), returnFromLast);
      windowsCollected == run.collected && desk.space == 1 && desk.trace == old(desk.trace) + run.effects
  {
    var w := desk.world;
    var runningApps := FindApps(w, targetApps);
    windowsCollected := ZeroCounts(targetApps);
    var appPositions := PrepareSlots(w.displays.MainFrame(), targetApps);
    ghost var sweep := SweepSpaces(w, runningApps, appPositions, returnFromLast, targetApps,
                                   SweepState(windowsCollected, desk.space, []), 4);
    windowsCollected := SweepAllSpaces(desk, runningApps, appPositions, returnFromLast, targetApps, windowsCollected);
    desk.SwitchToSpace(1);
    ActivateTargets(desk, targetApps, runningApps);
    ghost var lookups := LookupEffects(targetApps, runningApps);
    AppendAssociates(old(desk.trace), sweep.effects, [SwitchSpace(1)]);
    AppendAssociates(old(desk.trace), sweep.effects + [SwitchSpace(1)], lookups);
    assert CollectAll(w, targetApps, old(desk.space), returnFromLast)
           == SweepState(sweep.collected, 1, sweep.effects + [SwitchSpace(1)] + lookups);
  }

  // ---------------------------------------------------------------------
  // What the sweep counts
  // ---------------------------------------------------------------------

  /** The visible windows app `pid` lists on spaces 1 to `m`. */
  function SpaceTotal(w: World, pid: AppId, m: nat): nat
  {
    if m == 0 then 0 else SpaceTotal(w, pid, m - 1) + |VisibleWindows(w.WindowsOf(m, pid))|
  }

  /**
   * Visiting a target counts its visible windows on the space actually
   * current; when the sweep switches back and is on the space being
   * checked, it ends there too.
   */
  lemma VisitCounts(w: World, running: map<string, AppId>, slots: map<string, seq<Point>>, sp: int, returnFromLast: bool,
                    collected: map<string, nat>, current: int, name: string)
    requires name in collected
    ensures var v := Visit(w, running, slots, sp, returnFromLast, collected, current, name);
      v.collected == if name in running
                     then collected[name := collected[name] + |VisibleWindows(w.WindowsOf(current, running[name]))|]
                     else collected
    ensures returnFromLast && current == sp ==> Visit(w, running, slots, sp, returnFromLast, collected, current, name).current == sp
  {
    if name in running && |VisibleWindows(w.WindowsOf(current, running[name]))| == 0 {
      assert collected[name := collected[name] + 0] == collected;
    }
  }

  /**
   * With distinct targets, checking space `sp` adds to each target's count
   * exactly its visible windows on `sp` and ends on `sp`.
   */
  lemma {:induction false} SpacePassCounts(w: World, running: map<string, AppId>, slots: map<string, seq<Point>>, sp: int,
                                           s: SweepState, apps: seq<string>)
    requires forall i, j :: 0 <= i < j < |apps| ==> apps[i] != apps[j]
    requires s.current == sp
    requires forall n :: n in apps ==> n in s.collected
    ensures var t := SpacePass(w, running, slots, sp, true, s, apps);
      && t.current == sp
      && (forall n :: n in t.collected <==> n in s.collected)
      && forall n :: n in s.collected ==>
           t.collected[n] == s.collected[n]
                             + if n in apps && n in running then |VisibleWindows(w.WindowsOf(sp, running[n]))| else 0
    decreases |apps|
  {
    if apps != [] {
      var k := |apps| - 1;
      var prefix := apps[..k];
      SpacePassCounts(w, running, slots, sp, s, prefix);
      var t := SpacePass(w, running, slots, sp, true, s, prefix);
      VisitCounts(w, running, slots, sp, true, t.collected, sp, apps[k]);
      assert apps[k] !in prefix;
      forall n | n in apps
        ensures n in prefix || n == apps[k]
      {
        var i :| 0 <= i < |apps| && apps[i] == n;
        if i < k {
          assert prefix[i] == n;
        }
      }
    }
  }

  /** With distinct targets, after spaces 1 to `m` each target's count is its visible windows over those spaces. */
  lemma {:induction false} SweepCounts(w: World, running: map<string, AppId>, slots: map<string, seq<Point>>,
                                       apps: seq<string>, start: SweepState, m: nat)
    requires forall i, j :: 0 <= i < j < |apps| ==> apps[i] != apps[j]
    requires start.collected == NoneCollected(apps)
    ensures var s := SweepSpaces(w, running, slots, true, apps, start, m);
      && (forall n :: n in s.collected <==> n in apps)
      && forall n :: n in apps ==> s.collected[n] == if n in running then SpaceTotal(w, running[n], m) else 0
  {
    if m > 0 {
      SweepCounts(w, running, slots, apps, start, m - 1);
      var s := SweepSpaces(w, running, slots, true, apps, start, m - 1);
      SpacePassCounts(w, running, slots, m, SweepState(s.collected, m, [SwitchSpace(m)]), apps);
    }
  }

  /**
   * Gathering with the switch back after every space: for distinct
   * targets, the count reported for each target is the number of its
   * visible windows over spaces 1 to 4, and zero for a target not found.
   */
  lemma CollectAllCountsEveryWindow(w: World, apps: seq<string>, startSpace: int)
    requires forall i, j :: 0 <= i < j < |apps| ==> apps[i] != apps[j]
    ensures var run := CollectAll(w, apps, startSpace, true);
      && (forall n :: n in run.collected <==> n in apps)
      && forall n :: n in apps ==> run.collected[n] == if n in w.found then SpaceTotal(w, w.found[n], 4) else 0
  {
    var running := ResolveNames(apps, w.found);
    SweepCounts(w, running, SlotTable(w.displays.MainFrame(), apps), apps,
                SweepState(NoneCollected(apps), startSpace, []), 4);
  }

  /** Two targets, each with one visible window, on space 4 only: the second target's window is on space 4. */
  function Space4World(): World
  {
    World(true, DisplayState([], None, 0), [], map["A" := 1, "B" := 2],
          map[(4, 1) := [Window(10, Reported(false))], (4, 2) := [Window(20, Reported(false))]], map[])
  }

  /** Before space 4 the sweep as written and the sweep that always switches back do the same. */
  lemma {:induction false} SpacePassBefore4(w: World, running: map<string, AppId>, slots: map<string, seq<Point>>, sp: int,
                                            s: SweepState, apps: seq<string>)
    requires sp < 4
    ensures SpacePass(w, running, slots, sp, false, s, apps) == SpacePass(w, running, slots, sp, true, s, apps)
    decreases |apps|
  {
    if apps != [] {
      SpacePassBefore4(w, running, slots, sp, s, apps[..|apps| - 1]);
    }
  }

  lemma {:induction false} SweepBefore4(w: World, running: map<string, AppId>, slots: map<string, seq<Point>>,
                                        apps: seq<string>, start: SweepState, m: nat)
    requires m < 4
    ensures SweepSpaces(w, running, slots, false, apps, start, m) == SweepSpaces(w, running, slots, true, apps, start, m)
  {
    if m > 0 {
      SweepBefore4(w, running, slots, apps, start, m - 1);
      var s := SweepSpaces(w, running, slots, true, apps, start, m - 1);
      SpacePassBefore4(w, running, slots, m, SweepState(s.collected, m, [SwitchSpace(m)]), apps);
    }
  }

  /** As written, a target whose windows are moved from space 4 leaves the sweep on space 1. */
  lemma AsWrittenStaysOnSpace1(w: World, running: map<string, AppId>, slots: map<string, seq<Point>>,
                               collected: map<string, nat>, name: string)
    requires name in running && |VisibleWindows(w.WindowsOf(4, running[name]))| > 0
    ensures Visit(w, running, slots, 4, false, collected, 4, name).current == 1
  {
  }

  /**
   * The sweep as written stays on space 1 after moving a target's windows
   * from space 4, so the next target is read on space 1: its count is its
   * windows on spaces 1 to 3 plus, once more, those on space 1, and its
   * windows on space 4 are missed.
   */
  lemma AsWrittenReadsSpace1(w: World, a: string, b: string, startSpace: int)
    requires a != b && a in w.found && b in w.found
    requires |VisibleWindows(w.WindowsOf(4, w.found[a]))| > 0
    ensures b in CollectAll(w, [a, b], startSpace, false).collected
    ensures CollectAll(w, [a, b], startSpace, false).collected[b]
            == SpaceTotal(w, w.found[b], 3) + |VisibleWindows(w.WindowsOf(1, w.found[b]))|
  {
    var apps := [a, b];
    var running := ResolveNames(apps, w.found);
    assert a in apps && b in apps;
    assert running[a] == w.found[a] && running[b] == w.found[b];
    var slots := SlotTable(w.displays.MainFrame(), apps);
    var start := SweepState(NoneCollected(apps), startSpace, []);
    SweepBefore4(w, running, slots, apps, start, 3);
    SweepCounts(w, running, slots, apps, start, 3);
    var s3 := SweepSpaces(w, running, slots, false, apps, start, 3);
    AsWrittenPassOn4(w, running, slots, s3.collected, a, b);
  }

  /** As written, checking space 4 for `a` then `b`, where `a` has windows there, adds to `b` its windows on space 1. */
  lemma AsWrittenPassOn4(w: World, running: map<string, AppId>, slots: map<string, seq<Point>>,
                         collected: map<string, nat>, a: string, b: string)
    requires a != b && a in running && b in running && a in collected && b in collected
    requires |VisibleWindows(w.WindowsOf(4, running[a]))| > 0
    ensures var pass := SpacePass(w, running, slots, 4, false, SweepState(collected, 4, [SwitchSpace(4)]), [a, b]);
      b in pass.collected && pass.collected[b] == collected[b] + |VisibleWindows(w.WindowsOf(1, running[b]))|
  {
    var begin := SweepState(collected, 4, [SwitchSpace(4)]);
    var v := Visit(w, running, slots, 4, false, collected, 4, a);
    AsWrittenStaysOnSpace1(w, running, slots, collected, a);
    VisitCounts(w, running, slots, 4, false, collected, 4, a);
    assert [a, b][..1] == [a] && [a][..0] == [];
    assert SpacePass(w, running, slots, 4, false, begin, [a]).current == 1;
    VisitCounts(w, running, slots, 4, false, v.collected, 1, b);
  }

  /**
   * A concrete case: two targets, one window each, both on space 4 only.
   * As written, the second target's window is not counted; with the switch
   * back after space 4, it is.
   */
  lemma AsWrittenMissesSpace4(w: World, apps: seq<string>)
    requires w == Space4World() && apps == ["A", "B"]
    ensures SpaceTotal(w, 2, 4) == 1
    ensures "B" in CollectAll(w, apps, 1, false).collected && CollectAll(w, apps, 1, false).collected["B"] == 0
    ensures "B" in CollectAll(w, apps, 1, true).collected && CollectAll(w, apps, 1, true).collected["B"] == 1
  {
    var win := Window(10, Reported(false));
    assert VisibleWindows([win]) == [win];
    assert w.WindowsOf(1, 2) == [] && w.WindowsOf(2, 2) == [] && w.WindowsOf(3, 2) == [];
    assert VisibleWindows(w.WindowsOf(4, 2)) == [Window(20, Reported(false))];
    assert SpaceTotal(w, 2, 3) == 0;
    assert w.found["A"] == 1 && w.found["B"] == 2;
    assert VisibleWindows(w.WindowsOf(4, 1)) == [win];
    AsWrittenReadsSpace1(w, "A", "B", 1);
    CollectAllCountsEveryWindow(w, apps, 1);
  }

  // ---------------------------------------------------------------------
  // collectApps
  // ---------------------------------------------------------------------

  /** The apps collected, by name, and every effect of collecting them. */
  datatype Collected = Collected(apps: map<string, AppId>, effects: seq<Effect>)

  /**
   * Collecting from `startSpace`: nothing without the accessibility
   * permission. Otherwise either look up every target and gather all
   * their windows, or look up and activate every target and bring one
   * window of each to space 1; either step is skipped when there are no
   * targets. `returnFromLast` chooses the sweep, as in `CollectAll`.
   */
  function CollectRun(w: World, config: CollectionConfig, startSpace: int, returnFromLast: bool): Collected
  {
    if !w.trusted then Collected(map[], [])
    else
      var apps := ResolveNames(config.targetApps, w.found);
      if config.collectAllWindows then
        Collected(apps, if config.targetApps == [] then [] else CollectAll(w, config.targetApps, startSpace, returnFromLast).effects)
      else
        Collected(apps, LookupEffects(config.targetApps, w.found)
                        + if config.targetApps == [] then [] else [SwitchSpace(1)] + MoveToSpace1Steps(w, config.targetApps))
  }

  /**
   * The collection phase: returns the targets that were found, by name.
   * With `returnFromLast` false it gathers as the program is written; with
   * it true it uses the corrected sweep.
   */
  method CollectApps(desk: Desktop, config: CollectionConfig, returnFromLast: bool) returns (runningApps: map<string, AppId>)
    modifies desk`trace, desk`space
    ensures var run := CollectRun(desk.world, config, old(desk.space), returnFromLast);
      runningApps == run.apps && desk.trace == old(desk.trace) + run.effects
    ensures desk.space == if desk.world.trusted && config.targetApps != [] then 1 else old(desk.space)
  {
    if !desk.world.trusted {
      return map[];
    }
    if config.collectAllWindows {
      runningApps := FindApps(desk.world, config.targetApps);
      if config.targetApps != [] {
        var _ := CollectAllAppsToSpace1(desk, config.targetApps, returnFromLast);
      }
    } else {
      runningApps := LookUpApps(desk, config.targetApps);
      if config.targetApps != [] {
        MoveAppsToSpace1(desk, config.targetApps);
      }
    }
  }

  /**
   * With the permission and at least one target, collecting ends by
   * switching to space 1; bringing one window per app switches exactly
   * once, to space 1.
   */
  lemma CollectEndsOnSpace1(w: World, config: CollectionConfig, startSpace: int, returnFromLast: bool)
    requires w.trusted && config.targetApps != []
    ensures var switches := Switches(CollectRun(w, config, startSpace, returnFromLast).effects);
      |switches| > 0 && switches[|switches| - 1] == 1
    ensures !config.collectAllWindows ==> Switches(CollectRun(w, config, startSpace, returnFromLast).effects) == [1]
  {
    var apps := config.targetApps;
    if config.collectAllWindows {
      var running := ResolveNames(apps, w.found);
      var sweep := SweepSpaces(w, running, SlotTable(w.displays.MainFrame(), apps), returnFromLast, apps,
                               SweepState(NoneCollected(apps), startSpace, []), 4);
      LookupsOnlyActivate(apps, running);
      SwitchesConcat(sweep.effects + [SwitchSpace(1)], LookupEffects(apps, running));
      SwitchesConcat(sweep.effects, [SwitchSpace(1)]);
      assert [SwitchSpace(1)][1..] == [];
    } else {
      LookupsOnlyActivate(apps, w.found);
      MoveToSpace1OneWindowPerApp(w, apps);
      SwitchesConcat(LookupEffects(apps, w.found), [SwitchSpace(1)] + MoveToSpace1Steps(w, apps));
      SwitchesConcat([SwitchSpace(1)], MoveToSpace1Steps(w, apps));
      assert [SwitchSpace(1)][1..] == [];
    }
  }
}
