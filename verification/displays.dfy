/**
 * Monitor detection: one descriptor per screen, the main one tagged, and
 * the external monitor resolved as the first screen that is not main.
 */
module Displays {
  import opened Options
  import opened Geometry

  /** A screen as the display enumeration reports it. */
  datatype Screen = Screen(displayId: nat, frame: Rect)

  /**
   * What the display service answers: the screens in order, which of them
   * (by position) is the main screen, if any, and the main display's ID,
   * which names the built-in display.
   */
  datatype DisplayState = DisplayState(screens: seq<Screen>, mainScreen: Option<nat>, mainDisplayId: nat)
  {
    /** The main screen's frame, when there is a main screen. */
    function MainFrame(): Option<Rect>
    {
      if mainScreen.Some? && mainScreen.value < |screens| then Some(screens[mainScreen.value].frame) else None
    }
  }

  datatype MonitorInfo = MonitorInfo(displayId: nat, name: string, isMain: bool, frame: Rect, index: nat)

  const BuiltInName: string := "Built-in Display"
  const ExternalName: string := "External Display"

  /** The display name: built-in for the main display ID, external for every other. */
  function DisplayName(displayId: nat, mainDisplayId: nat): (r: Option<string>)
    ensures r.Some?
    ensures r.value == BuiltInName <==> displayId == mainDisplayId
  {
    if displayId == mainDisplayId then Some(BuiltInName) else Some(ExternalName)
  }

  /** Decimal digits of a natural number. */
  function NatToString(n: nat): (s: string)
    ensures |s| > 0
    decreases n
  {
    var digit := ["0", "1", "2", "3", "4", "5", "6", "7", "8", "9"][n % 10];
    if n < 10 then digit else NatToString(n / 10) + digit
  }

  /** The name used when no display name is found: "Display <position + 1>". */
  function FallbackName(index: nat): string
  {
    "Display " + NatToString(index + 1)
  }

  /** The descriptor of screen `i`; its name falls back to the numbered name if no name is found. */
  function MonitorAt(d: DisplayState, i: nat): MonitorInfo
    requires i < |d.screens|
  {
    var screen := d.screens[i];
    var name := match DisplayName(screen.displayId, d.mainDisplayId)
      case Some(n) => n
      case None => FallbackName(i);
    MonitorInfo(screen.displayId, name, d.mainScreen == Some(i), screen.frame, i)
  }

  /** The detected monitors, one per screen in screen order. */
  function Monitors(d: DisplayState): seq<MonitorInfo>
  {
    seq(|d.screens|, i requires 0 <= i < |d.screens| => MonitorAt(d, i))
  }

  /** Builds the monitor list one screen at a time. */
  method DetectMonitors(d: DisplayState) returns (monitors: seq<MonitorInfo>)
    ensures monitors == Monitors(d)
  {
    monitors := [];
    for i: nat := 0 to |d.screens|
      invariant |monitors| == i
      invariant forall k :: 0 <= k < i ==> monitors[k] == MonitorAt(d, k)
    {
      var screen := d.screens[i];
      var isMain := d.mainScreen == Some(i);
      var found := DisplayName(screen.displayId, d.mainDisplayId);
      var name := if found.Some? then found.value else FallbackName(i);
      monitors := monitors + [MonitorInfo(screen.displayId, name, isMain, screen.frame, i)];
    }
  }

  /**
   * One entry per screen, in order, whose index is its position and whose
   * frame is the screen's; it is main exactly when it is the main screen,
   * and its name is never the numbered fallback.
   */
  lemma MonitorsDescribeScreens(d: DisplayState)
    ensures |Monitors(d)| == |d.screens|
    ensures forall i :: 0 <= i < |d.screens| ==>
      var m := Monitors(d)[i];
      && m.index == i && m.frame == d.screens[i].frame && m.displayId == d.screens[i].displayId
      && (m.isMain <==> d.mainScreen == Some(i))
      && (m.name == BuiltInName || m.name == ExternalName)
  {
  }

  /** At most one detected monitor is main. */
  lemma AtMostOneMain(d: DisplayState, i: nat, j: nat)
    requires i < |Monitors(d)| && j < |Monitors(d)|
    requires Monitors(d)[i].isMain && Monitors(d)[j].isMain
    ensures i == j
  {
  }

  /** The first monitor that is not main, if any. */
  function FirstNonMain(ms: seq<MonitorInfo>): (r: Option<MonitorInfo>)
    ensures r.None? <==> forall i :: 0 <= i < |ms| ==> ms[i].isMain
    ensures r.Some? ==> exists i :: 0 <= i < |ms| && ms[i] == r.value && !ms[i].isMain
                          && forall k :: 0 <= k < i ==> ms[k].isMain
  {
    if ms == [] then None
    else if !ms[0].isMain then Some(ms[0])
    else
      var r := FirstNonMain(ms[1..]);
      if r.Some? then
        ghost var i :| 0 <= i < |ms[1..]| && ms[1..][i] == r.value && !ms[1..][i].isMain
                        && forall k :: 0 <= k < i ==> ms[1..][k].isMain;
        assert ms[i + 1] == r.value;
        r
      else r
  }

  /** The external monitor: the first detected monitor that is not main. */
  function ExternalMonitor(d: DisplayState): Option<MonitorInfo>
  {
    FirstNonMain(Monitors(d))
  }

  /**
   * With more than one screen an external monitor always exists, because
   * at most one screen is main; the "could not identify external monitor"
   * exits after a count check of more than one are unreachable.
   */
  lemma {:induction false} ExternalExistsWhenSeveral(d: DisplayState)
    requires |d.screens| > 1
    ensures ExternalMonitor(d).Some?
    ensures ExternalMonitor(d).value.index < |d.screens|
    ensures ExternalMonitor(d).value == MonitorAt(d, ExternalMonitor(d).value.index)
  {
    var ms := Monitors(d);
    if ExternalMonitor(d).None? {
      assert ms[0].isMain && ms[1].isMain;
      AtMostOneMain(d, 0, 1);
      assert false;
    }
  }

  /** Without a second screen there is no external monitor unless the only screen is not the main one. */
  lemma SingleMainScreenHasNoExternal(d: DisplayState)
    requires |d.screens| == 1 && d.mainScreen == Some(0)
    ensures ExternalMonitor(d).None?
  {
  }
}
