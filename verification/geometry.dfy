/**
 * Screen geometry of the window-layout planner.
 *
 * Coordinates are CGFloat in the system; here they are `real`. The planner
 * only halves, adds and multiplies by small integers, which real arithmetic
 * does exactly, so no rounding is modelled.
 */
module Geometry {

  datatype Point = Point(x: real, y: real)

  datatype Rect = Rect(x: real, y: real, width: real, height: real)
  {
    function MaxX(): real { x + width }
    function MaxY(): real { y + height }

    /** `inner` lies within this rectangle (edges may touch). */
    predicate Encloses(inner: Rect) {
      x <= inner.x && y <= inner.y && inner.MaxX() <= MaxX() && inner.MaxY() <= MaxY()
    }
  }

  /** Where an application goes on its display. */
  datatype WindowSide = Left | Right | Full

  /** The left half, the right half or the whole of a display frame. */
  function FrameForPlacement(side: WindowSide, screen: Rect): Rect
  {
    match side
    case Left => Rect(screen.x, screen.y, screen.width / 2.0, screen.height)
    case Right => Rect(screen.x + screen.width / 2.0, screen.y, screen.width / 2.0, screen.height)
    case Full => screen
  }

  lemma FullPlacementIsScreen(screen: Rect)
    ensures FrameForPlacement(Full, screen) == screen
  {
  }

  /**
   * The two halves share the screen's y and height, each is half as wide,
   * the right one starts where the left one ends, and together they span
   * exactly the screen's width.
   */
  lemma HalvesTileScreen(screen: Rect)
    ensures var l, r := FrameForPlacement(Left, screen), FrameForPlacement(Right, screen);
      && l.y == r.y == screen.y && l.height == r.height == screen.height
      && l.width == r.width && l.width + r.width == screen.width
      && l.x == screen.x && r.x == l.MaxX() && r.MaxX() == screen.MaxX()
  {
  }

  /** For a screen of non-negative size both halves lie inside it; for a positive width their interiors do not meet. */
  lemma HalvesInsideScreen(screen: Rect)
    requires screen.width >= 0.0 && screen.height >= 0.0
    ensures screen.Encloses(FrameForPlacement(Left, screen))
    ensures screen.Encloses(FrameForPlacement(Right, screen))
    ensures screen.width > 0.0 ==> FrameForPlacement(Left, screen).x < FrameForPlacement(Right, screen).x
  {
  }

  /** The inset applied to window `windowIndex` of the app with side index `appIndex`. */
  function CascadeInset(appIndex: nat, windowIndex: nat): real
  {
    (appIndex * 50) as real + (windowIndex * 30) as real
  }

  /**
   * The cascaded frame on the external monitor: the area inset by
   * 50 per app index plus 30 per window index on every side. Sizes that
   * become zero or negative are not guarded against.
   */
  function CascadedFrame(area: Rect, appIndex: nat, windowIndex: nat): Rect
  {
    var appOffset := (appIndex * 50) as real;
    var windowOffset := (windowIndex * 30) as real;
    Rect(area.x + appOffset + windowOffset,
         area.y + appOffset + windowOffset,
         area.width - (appOffset + windowOffset) * 2.0,
         area.height - (appOffset + windowOffset) * 2.0)
  }

  /** The first window of the first app on a side fills the whole area. */
  lemma CascadeStartsAtArea(area: Rect)
    ensures CascadedFrame(area, 0, 0) == area
  {
  }

  /**
   * Every cascaded frame is the area shrunk by the same inset on all four
   * sides: its centre is the area's centre.
   */
  lemma CascadeKeepsCentre(area: Rect, appIndex: nat, windowIndex: nat)
    ensures var r, d := CascadedFrame(area, appIndex, windowIndex), CascadeInset(appIndex, windowIndex);
      && r.x == area.x + d && r.y == area.y + d
      && r.MaxX() == area.MaxX() - d && r.MaxY() == area.MaxY() - d
      && r.x + r.width / 2.0 == area.x + area.width / 2.0
      && r.y + r.height / 2.0 == area.y + area.height / 2.0
  {
  }

  /** Later apps and later windows are nested inside earlier ones, strictly when either index grows. */
  lemma CascadeNests(area: Rect, i: nat, j: nat, i': nat, j': nat)
    requires i <= i' && j <= j'
    ensures CascadedFrame(area, i, j).Encloses(CascadedFrame(area, i', j'))
    ensures (i < i' || j < j') ==> CascadedFrame(area, i, j).x < CascadedFrame(area, i', j').x
  {
  }

  /**
   * Cascaded frames do not all differ: the fourth app on a side (index 3)
   * gets exactly the frame of the sixth window (index 5) of the first app.
   */
  lemma CascadeCollides(area: Rect)
    ensures CascadedFrame(area, 3, 0) == CascadedFrame(area, 0, 5)
  {
  }

  /** Nothing stops the cascade from producing a non-positive size once the inset reaches half the area. */
  lemma CascadeMayDegenerate(area: Rect, appIndex: nat, windowIndex: nat)
    requires 2.0 * CascadeInset(appIndex, windowIndex) >= area.width
    ensures CascadedFrame(area, appIndex, windowIndex).width <= 0.0
  {
  }

  /** Number of staging slots prepared per application when gathering onto space 1. */
  const StagingSlotCount: nat := 10

  /**
   * Staging slot `slot` of the app at index `appIndex` among `appCount`
   * target apps: the apps are spread across the main screen's width and
   * each slot steps 30 right and 30 down.
   */
  function StagingSlot(screen: Rect, appIndex: nat, appCount: nat, slot: nat): Point
  {
    var baseX := screen.width * ((appIndex + 1) as real) / ((appCount + 1) as real) - 300.0;
    Point(baseX + (slot * 30) as real, screen.height / 2.0 - 300.0 + (slot * 30) as real)
  }

  /** The ten slots of one app, in slot order. */
  function StagingRow(screen: Rect, appIndex: nat, appCount: nat): (row: seq<Point>)
    ensures |row| == StagingSlotCount
    ensures forall i :: 0 <= i < |row| ==> row[i] == StagingSlot(screen, appIndex, appCount, i)
  {
    seq(StagingSlotCount, i requires 0 <= i => StagingSlot(screen, appIndex, appCount, i))
  }

  /**
   * Slots of one app step by (30, 30); the columns of consecutive apps
   * are one (n+1)-th of the screen width apart.
   */
  lemma StagingSlotSpacing(screen: Rect, appIndex: nat, appCount: nat, slot: nat)
    ensures var p, q := StagingSlot(screen, appIndex, appCount, slot), StagingSlot(screen, appIndex, appCount, slot + 1);
      q.x == p.x + 30.0 && q.y == p.y + 30.0
    ensures StagingSlot(screen, appIndex + 1, appCount, slot).x - StagingSlot(screen, appIndex, appCount, slot).x
            == screen.width / ((appCount + 1) as real)
  {
    var n := (appCount + 1) as real;
    var a := (appIndex + 1) as real;
    assert screen.width * (a + 1.0) / n == screen.width * a / n + screen.width / n;
    assert ((appIndex + 1 + 1) as real) == a + 1.0;
  }

  /** A staging slot becomes an 800 by 600 frame. */
  function StagingFrame(p: Point): Rect
  {
    Rect(p.x, p.y, 800.0, 600.0)
  }

  /**
   * The 800 by 600 frame used when an app is brought to space 1 one window
   * at a time: centred on the main screen and stepped 50 per app.
   */
  function CentredFrame(screen: Rect, index: nat): Rect
  {
    Rect(screen.width / 2.0 - 400.0 + (index * 50) as real,
         screen.height / 2.0 - 300.0 + (index * 50) as real,
         800.0, 600.0)
  }

  /**
   * The first centred frame is centred on the point half the screen's
   * width and height from the origin (the screen's own origin is not
   * added), and each further app's frame is the previous one moved 50 right
   * and 50 down.
   */
  lemma CentredFrameSteps(screen: Rect, index: nat)
    ensures Centre(CentredFrame(screen, 0)) == Point(screen.width / 2.0, screen.height / 2.0)
    ensures var r, s := CentredFrame(screen, index), CentredFrame(screen, index + 1);
      s == Rect(r.x + 50.0, r.y + 50.0, r.width, r.height)
  {
  }

  /** The 1200 by 800 frame of window `index` when active apps are stacked on space 1. */
  function StackedFrame(index: nat): Rect
  {
    var offset := (index * 30) as real;
    Rect(100.0 + offset, 100.0 + offset, 1200.0, 800.0)
  }

  /** The centre of a display frame, where the pointer is moved to focus that display. */
  function Centre(frame: Rect): Point
  {
    Point(frame.x + frame.width / 2.0, frame.y + frame.height / 2.0)
  }
}
