/**
 * The operating system as the planner sees it.
 *
 * `World` holds what the OS answers and the planner never changes: the
 * permission flag, the displays, the running applications, what looking up
 * or launching an app by name yields, and, for each space and process, the
 * windows it lists and the window it reports as focused while that space is
 * current. `Desktop` holds what the planner changes: the current space and
 * the trace of every side effect it has caused, in order. Window frames are
 * not stored: they are the initial frames with the trace replayed on them.
 */
module WindowServer {
  import opened Sequences
  import opened Options
  import opened Geometry
  import opened Windows
  import opened Displays

  datatype World = World(
    trusted: bool,
    displays: DisplayState,
    running: seq<RunningApp>,
    found: map<string, AppId>,
    windows: map<(int, AppId), seq<Window>>,
    focused: map<(int, AppId), WindowId>)
  {
    /** The windows process `pid` lists while `space` is current; nothing if the list cannot be read. */
    function WindowsOf(space: int, pid: AppId): seq<Window>
    {
      if (space, pid) in windows then windows[(space, pid)] else []
    }

    /** The window process `pid` reports as focused while `space` is current. */
    function FocusedOf(space: int, pid: AppId): Option<WindowId>
    {
      if (space, pid) in focused then Some(focused[(space, pid)]) else None
    }
  }

  /** One side effect on the OS. */
  datatype Effect =
    | SwitchSpace(space: int)                    // Control + the space's key, pressed and released
    | ActivateApp(pid: AppId)
    | SetFrame(window: WindowId, frame: Rect)     // position, then size
    | SetPosition(window: WindowId, origin: Point)
    | RaiseWindow(window: WindowId)
    | MovePointer(to: Point)

  /** The key code must fit the 16-bit CGKeyCode the space number is converted to. */
  predicate CanSwitchTo(space: int)
  {
    0 <= 18 + space - 1 < 0x1_0000
  }

  /** The virtual key code pressed, with Control, to switch to `space`. */
  function SpaceKeyCode(space: int): (code: int)
    requires CanSwitchTo(space)
    ensures 0 <= code < 0x1_0000
  {
    18 + space - 1
  }

  /** Spaces 1 to 4 are the digit keys 1 to 4 (key codes 18 to 21), and distinct spaces use distinct keys. */
  lemma SpaceKeyCodes()
    ensures SpaceKeyCode(1) == 18 && SpaceKeyCode(2) == 19 && SpaceKeyCode(3) == 20 && SpaceKeyCode(4) == 21
    ensures forall m, n :: CanSwitchTo(m) && CanSwitchTo(n) && SpaceKeyCode(m) == SpaceKeyCode(n) ==> m == n
  {
  }

  /** `e` changes the frame of window `w`. */
  predicate Moves(e: Effect, w: WindowId)
  {
    (e.SetFrame? || e.SetPosition?) && e.window == w
  }

  /**
   * The frames after one effect. Setting the position keeps the size. A
   * handle with no frame is stale: the Accessibility call fails and the
   * system ignores the failure, so nothing changes.
   */
  function ApplyEffect(frames: map<WindowId, Rect>, e: Effect): map<WindowId, Rect>
  {
    match e
    case SetFrame(w, r) => if w in frames then frames[w := r] else frames
    case SetPosition(w, p) => if w in frames then frames[w := frames[w].(x := p.x, y := p.y)] else frames
    case _ => frames
  }

  /** The frames after a whole trace of effects. */
  function Replay(frames: map<WindowId, Rect>, trace: seq<Effect>): map<WindowId, Rect>
    decreases |trace|
  {
    if trace == [] then frames
    else ApplyEffect(Replay(frames, trace[..|trace| - 1]), trace[|trace| - 1])
  }

  lemma {:induction false} ReplayConcat(frames: map<WindowId, Rect>, a: seq<Effect>, b: seq<Effect>)
    ensures Replay(frames, a + b) == Replay(Replay(frames, a), b)
    decreases |b|
  {
    if b == [] {
      assert a + b == a;
    } else {
      assert (a + b)[..|a + b| - 1] == a + b[..|b| - 1];
      ReplayConcat(frames, a, b[..|b| - 1]);
    }
  }

  /** No window appears or disappears: the set of known windows is fixed. */
  lemma {:induction false} ReplayKeepsWindows(frames: map<WindowId, Rect>, trace: seq<Effect>)
    ensures Replay(frames, trace).Keys == frames.Keys
    decreases |trace|
  {
    if trace != [] {
      ReplayKeepsWindows(frames, trace[..|trace| - 1]);
    }
  }

  /** A window no effect of the trace moves keeps its frame. */
  lemma {:induction false} ReplayUntouched(frames: map<WindowId, Rect>, trace: seq<Effect>, w: WindowId)
    requires forall i :: 0 <= i < |trace| ==> !Moves(trace[i], w)
    ensures w in frames <==> w in Replay(frames, trace)
    ensures w in frames ==> Replay(frames, trace)[w] == frames[w]
    decreases |trace|
  {
    if trace != [] {
      ReplayUntouched(frames, trace[..|trace| - 1], w);
    }
  }

  /** A known window ends with the frame of the last effect that sets its whole frame, if no later effect moves it. */
  lemma {:induction false} ReplayLastFrame(frames: map<WindowId, Rect>, trace: seq<Effect>, i: nat)
    requires i < |trace| && trace[i].SetFrame? && trace[i].window in frames
    requires forall k :: i < k < |trace| ==> !Moves(trace[k], trace[i].window)
    ensures trace[i].window in Replay(frames, trace)
    ensures Replay(frames, trace)[trace[i].window] == trace[i].frame
    decreases |trace|
  {
    var w := trace[i].window;
    if i < |trace| - 1 {
      ReplayLastFrame(frames, trace[..|trace| - 1], i);
      ReplayKeepsWindows(frames, trace[..|trace| - 1]);
    } else {
      ReplayKeepsWindows(frames, trace[..|trace| - 1]);
    }
  }

  /** The spaces switched to, in order. */
  function Switches(trace: seq<Effect>): seq<int>
  {
    if trace == [] then []
    else (if trace[0].SwitchSpace? then [trace[0].space] else []) + Switches(trace[1..])
  }

  lemma {:induction false} SwitchesConcat(a: seq<Effect>, b: seq<Effect>)
    ensures Switches(a + b) == Switches(a) + Switches(b)
  {
    if a == [] {
      assert a + b == b;
    } else {
      assert (a + b)[0] == a[0];
      assert (a + b)[1..] == a[1..] + b;
      SwitchesConcat(a[1..], b);
      AppendAssociates(if a[0].SwitchSpace? then [a[0].space] else [], Switches(a[1..]), Switches(b));
    }
  }

  /** A trace with no space switch in it switches to no space. */
  lemma {:induction false} NoSwitchInTrace(trace: seq<Effect>)
    requires forall i :: 0 <= i < |trace| ==> !trace[i].SwitchSpace?
    ensures Switches(trace) == []
  {
    if trace != [] {
      assert trace[0] == trace[..][0];
      NoSwitchInTrace(trace[1..]);
    }
  }

  /** The frame changes of a trace: every effect that moves some window, in order. */
  function FrameChanges(trace: seq<Effect>): seq<Effect>
  {
    if trace == [] then []
    else (if trace[0].SetFrame? || trace[0].SetPosition? then [trace[0]] else []) + FrameChanges(trace[1..])
  }

  lemma {:induction false} FrameChangesConcat(a: seq<Effect>, b: seq<Effect>)
    ensures FrameChanges(a + b) == FrameChanges(a) + FrameChanges(b)
  {
    if a == [] {
      assert a + b == b;
    } else {
      assert (a + b)[0] == a[0];
      assert (a + b)[1..] == a[1..] + b;
      FrameChangesConcat(a[1..], b);
      AppendAssociates(if a[0].SetFrame? || a[0].SetPosition? then [a[0]] else [], FrameChanges(a[1..]), FrameChanges(b));
    }
  }

  /** A trace with no frame change leaves every frame as it was. */
  lemma {:induction false} NoFrameChangeKeepsFrames(frames: map<WindowId, Rect>, trace: seq<Effect>)
    requires FrameChanges(trace) == []
    ensures Replay(frames, trace) == frames
    decreases |trace|
  {
    if trace != [] {
      var n := |trace| - 1;
      assert trace == trace[..n] + [trace[n]];
      FrameChangesConcat(trace[..n], [trace[n]]);
      assert [trace[n]][1..] == [];
      assert FrameChanges([trace[n]]) == [];
      NoFrameChangeKeepsFrames(frames, trace[..n]);
    }
  }

  /** The OS during one run of the planner. */
  class Desktop {
    const world: World
    const initialFrames: map<WindowId, Rect>
    var space: int
    var trace: seq<Effect>

    constructor (world: World, space: int, frames: map<WindowId, Rect>)
      ensures this.world == world && this.space == space && initialFrames == frames && trace == []
    {
      this.world := world;
      this.space := space;
      this.initialFrames := frames;
      trace := [];
    }

    /** The frame of every known window now. */
    ghost function Frames(): map<WindowId, Rect>
      reads this
    {
      Replay(initialFrames, trace)
    }

    /** Press and release Control with the space's key; the space becomes current. */
    method SwitchToSpace(n: int)
      requires CanSwitchTo(n)
      modifies this`space, this`trace
      ensures space == n && trace == old(trace) + [SwitchSpace(n)]
    {
      var keyCode := SpaceKeyCode(n);
      trace := trace + [SwitchSpace(n)];
      space := n;
    }

    method Activate(pid: AppId)
      modifies this`trace
      ensures trace == old(trace) + [ActivateApp(pid)]
    {
      trace := trace + [ActivateApp(pid)];
    }

    /** Set a window's position and then its size. */
    method SetWindowFrame(w: WindowId, frame: Rect)
      modifies this`trace
      ensures trace == old(trace) + [SetFrame(w, frame)]
      ensures Frames() == ApplyEffect(old(Frames()), SetFrame(w, frame))
    {
      trace := trace + [SetFrame(w, frame)];
      assert trace[..|trace| - 1] == old(trace);
    }

    /** Set a window's position only; its size is unchanged. */
    method SetWindowPosition(w: WindowId, origin: Point)
      modifies this`trace
      ensures trace == old(trace) + [SetPosition(w, origin)]
      ensures Frames() == ApplyEffect(old(Frames()), SetPosition(w, origin))
    {
      trace := trace + [SetPosition(w, origin)];
      assert trace[..|trace| - 1] == old(trace);
    }

    method Raise(w: WindowId)
      modifies this`trace
      ensures trace == old(trace) + [RaiseWindow(w)]
    {
      trace := trace + [RaiseWindow(w)];
    }

    method MovePointerTo(p: Point)
      modifies this`trace
      ensures trace == old(trace) + [MovePointer(p)]
    {
      trace := trace + [MovePointer(p)];
    }
  }

  /** What positioning one app's window at `frame` does: set the chosen window's frame, or nothing if there is none. */
  function PositionEffects(w: World, space: int, pid: AppId, frame: Rect): seq<Effect>
  {
    match ChooseWindow(w.FocusedOf(space, pid), w.WindowsOf(space, pid))
    case Some(win) => [SetFrame(win, frame)]
    case None => []
  }

  /**
   * Positions one window of the app: the focused one, else the first one
   * listed on the current space, else none.
   */
  method PositionWindow(desk: Desktop, pid: AppId, frame: Rect)
    modifies desk`trace
    ensures desk.trace == old(desk.trace) + PositionEffects(desk.world, desk.space, pid, frame)
  {
    var window: Option<WindowId> := None;
    var focused := desk.world.FocusedOf(desk.space, pid);
    if focused.Some? {
      window := focused;
    }
    if window.None? {
      var windows := desk.world.WindowsOf(desk.space, pid);
      if |windows| > 0 {
        window := Some(windows[0].id);
      }
    }
    if window.Some? {
      desk.SetWindowFrame(window.value, frame);
    }
  }

  /** Positioning touches at most one window, and only the chosen one. */
  lemma PositionTouchesChosenOnly(w: World, space: int, pid: AppId, frame: Rect)
    ensures |PositionEffects(w, space, pid, frame)| <= 1
    ensures forall e :: e in PositionEffects(w, space, pid, frame) ==>
      e == SetFrame(ChooseWindow(w.FocusedOf(space, pid), w.WindowsOf(space, pid)).value, frame)
  {
  }

  /** Positioning is a frame change or nothing: it never switches spaces. */
  lemma PositionIsFrameChange(w: World, space: int, pid: AppId, frame: Rect)
    ensures FrameChanges(PositionEffects(w, space, pid, frame)) == PositionEffects(w, space, pid, frame)
    ensures Switches(PositionEffects(w, space, pid, frame)) == []
  {
    var p := PositionEffects(w, space, pid, frame);
    if p != [] {
      assert p[1..] == [];
    }
  }

  /** The apps of `names` that could be found or launched, by name. */
  function ResolveNames(names: seq<string>, found: map<string, AppId>): map<string, AppId>
  {
    map n | n in names && n in found :: found[n]
  }

  /** Looking up each name in turn activates every app that was found, in that order. */
  function LookupEffects(names: seq<string>, found: map<string, AppId>): seq<Effect>
    decreases |names|
  {
    if names == [] then []
    else
      var name := names[|names| - 1];
      LookupEffects(names[..|names| - 1], found) + (if name in found then [ActivateApp(found[name])] else [])
  }

  /** Looks up (finding or launching) each app by name, activating each one found. */
  method LookUpApps(desk: Desktop, names: seq<string>) returns (running: map<string, AppId>)
    modifies desk`trace
    ensures running == ResolveNames(names, desk.world.found)
    ensures desk.trace == old(desk.trace) + LookupEffects(names, desk.world.found)
  {
    running := map[];
    for i := 0 to |names|
      invariant running == ResolveNames(names[..i], desk.world.found)
      invariant desk.trace == old(desk.trace) + LookupEffects(names[..i], desk.world.found)
    {
      assert names[..i + 1][..i] == names[..i];
      assert names[..i + 1] == names[..i] + [names[i]];
      var name := names[i];
      if name in desk.world.found {
        var app := desk.world.found[name];
        running := running[name := app];
        desk.Activate(app);
      }
    }
    assert names[..|names|] == names;
  }

  /** Lookups only activate apps: they neither switch spaces nor move windows. */
  lemma {:induction false} LookupsOnlyActivate(names: seq<string>, found: map<string, AppId>)
    ensures Switches(LookupEffects(names, found)) == []
    ensures FrameChanges(LookupEffects(names, found)) == []
    decreases |names|
  {
    if names != [] {
      var n := |names| - 1;
      LookupsOnlyActivate(names[..n], found);
      var tail := if names[n] in found then [ActivateApp(found[names[n]])] else [];
      SwitchesConcat(LookupEffects(names[..n], found), tail);
      FrameChangesConcat(LookupEffects(names[..n], found), tail);
    }
  }
}
