/**
 * Applications and windows as the Accessibility API reports them.
 *
 * A window is an opaque handle plus the answer to "is it minimised?",
 * which may be unreadable. A windows list that cannot be read is the
 * empty list: every caller treats a failed read and an empty list alike.
 */
module Windows {
  import opened Sequences
  import opened Options

  /** An Accessibility window handle. */
  type WindowId = nat

  /** A process identifier. */
  type AppId = nat

  /** The minimised attribute: unreadable, or the Boolean the window reports. */
  datatype Minimized = Unreadable | Reported(minimized: bool)

  datatype Window = Window(id: WindowId, minimized: Minimized)

  datatype ActivationPolicy = Regular | Accessory | Prohibited

  /** A running application with the metadata the workspace gives. */
  datatype RunningApp = RunningApp(pid: AppId, name: Option<string>, bundleId: Option<string>, policy: ActivationPolicy)

  /** A window counts as minimised only when it reports so; an unreadable attribute counts as not minimised. */
  predicate IsWindowMinimized(w: Window)
  {
    match w.minimized
    case Reported(m) => m
    case Unreadable => false
  }

  /** The non-minimised windows, in their original order. */
  function VisibleWindows(ws: seq<Window>): (r: seq<Window>)
    ensures |r| <= |ws|
  {
    if ws == [] then []
    else (if IsWindowMinimized(ws[0]) then [] else [ws[0]]) + VisibleWindows(ws[1..])
  }

  /** The visible windows are exactly the listed windows that are not minimised. */
  lemma {:induction false} VisibleWindowsMembers(ws: seq<Window>)
    ensures forall w :: w in VisibleWindows(ws) <==> w in ws && !IsWindowMinimized(w)
  {
    if ws != [] {
      VisibleWindowsMembers(ws[1..]);
      assert ws == [ws[0]] + ws[1..];
    }
  }

  /** Filtering distributes over concatenation, so the visible windows keep their relative order. */
  lemma {:induction false} VisibleWindowsConcat(a: seq<Window>, b: seq<Window>)
    ensures VisibleWindows(a + b) == VisibleWindows(a) + VisibleWindows(b)
  {
    if a == [] {
      assert a + b == b;
    } else {
      assert (a + b)[0] == a[0];
      assert (a + b)[1..] == a[1..] + b;
      VisibleWindowsConcat(a[1..], b);
      AppendAssociates(if IsWindowMinimized(a[0]) then [] else [a[0]], VisibleWindows(a[1..]), VisibleWindows(b));
    }
  }

  /** A window whose minimised attribute cannot be read is kept. */
  lemma UnreadableIsVisible(id: WindowId)
    ensures VisibleWindows([Window(id, Unreadable)]) == [Window(id, Unreadable)]
  {
  }

  /** With no window minimised, nothing is filtered out. */
  lemma {:induction false} NothingMinimizedKeepsAll(ws: seq<Window>)
    requires forall i :: 0 <= i < |ws| ==> !IsWindowMinimized(ws[i])
    ensures VisibleWindows(ws) == ws
  {
    if ws != [] {
      NothingMinimizedKeepsAll(ws[1..]);
    }
  }

  /**
   * The window a single-window placement acts on: the focused window if
   * the app reports one, otherwise the first of its windows, otherwise none.
   */
  function ChooseWindow(focused: Option<WindowId>, windows: seq<Window>): (r: Option<WindowId>)
    ensures r.None? <==> focused.None? && windows == []
    ensures r.Some? ==> r == focused || (focused.None? && r.value == windows[0].id)
  {
    if focused.Some? then focused
    else if |windows| > 0 then Some(windows[0].id)
    else None
  }
}
