/**
 * The view state of the 2D canvas viewer (the module-level variables of
 * viewer.js) and one transition function per event handler. These
 * functions are the specification of the methods of `Viewer.Viewer`.
 */
module View {
  import opened Wrappers
  import opened Geometry

  /**
   * `image` is `currentImage`; `volumes` says whether the Niivue instance
   * holds at least one volume; `scale`, `panX`, `panY` are `imageScale`,
   * `imageX`, `imageY`; `dragging`, `lastX`, `lastY` are `isDragging`,
   * `lastMouseX`, `lastMouseY`; `coordinates` is the content of the
   * coordinate readout (None when cleared).
   */
  datatype ViewState = ViewState(
    image: Option<Image>,
    volumes: bool,
    scale: real,
    panX: real,
    panY: real,
    dragging: bool,
    lastX: real,
    lastY: real,
    coordinates: Option<Pixel>)

  /** A pointer position in canvas pixels. */
  datatype Point = Point(x: real, y: real)

  const MinScale: real := 0.1
  const MaxScale: real := 10.0
  const ZoomOutFactor: real := 0.9
  const ZoomInFactor: real := 1.1

  /** The state at page load: no image, 100% zoom, no pan, not dragging. */
  function Initial(): (s: ViewState)
    ensures s.image.None? && !s.volumes && !s.dragging && s.coordinates.None?
    ensures s.scale == 1.0 && InZoomRange(s.scale) && s.panX == 0.0 && s.panY == 0.0
    ensures WellFormed(s)
  {
    ViewState(None, false, 1.0, 0.0, 0.0, false, 0.0, 0.0, None)
  }

  /** What every handler relies on: a positive scale and an image with positive dimensions. */
  predicate WellFormed(s: ViewState) {
    s.scale > 0.0 && (s.image.Some? ==> ValidImage(s.image.value))
  }

  predicate InZoomRange(scale: real) {
    MinScale <= scale <= MaxScale
  }

  /** A wheel step scrolling down (positive deltaY) zooms out; any other, zero included, zooms in. */
  function ZoomFactor(deltaY: real): (f: real)
    ensures deltaY > 0.0 ==> f < 1.0
    ensures deltaY <= 0.0 ==> f > 1.0
  {
    if deltaY > 0.0 then ZoomOutFactor else ZoomInFactor
  }

  /**
   * The wheel handler: the zoomed scale is committed only when it lies in
   * [0.1, 10]; otherwise the step is rejected (not clamped).
   */
  function Wheel(s: ViewState, deltaY: real): (r: ViewState)
    ensures r == s.(scale := r.scale)
    ensures InZoomRange(s.scale * ZoomFactor(deltaY)) ==> r.scale == s.scale * ZoomFactor(deltaY)
    ensures !InZoomRange(s.scale * ZoomFactor(deltaY)) ==> r.scale == s.scale
    ensures InZoomRange(s.scale) ==> InZoomRange(r.scale)
    ensures WellFormed(s) ==> WellFormed(r)
  {
    var newScale := s.scale * ZoomFactor(deltaY);
    if MinScale <= newScale <= MaxScale then s.(scale := newScale) else s
  }

  /** A run of wheel steps: only the scale ever changes, and it stays positive. */
  function WheelSteps(s: ViewState, deltas: seq<real>): (r: ViewState)
    ensures r == s.(scale := r.scale)
    ensures s.scale > 0.0 ==> r.scale > 0.0
    decreases |deltas|
  {
    if deltas == [] then s else WheelSteps(Wheel(s, deltas[0]), deltas[1..])
  }

  /** However many wheel steps, a scale in [0.1, 10] stays there and nothing but the scale changes. */
  lemma {:induction false} WheelStepsStayInRange(s: ViewState, deltas: seq<real>)
    requires InZoomRange(s.scale)
    ensures var r := WheelSteps(s, deltas);
      InZoomRange(r.scale) && r == s.(scale := r.scale)
    decreases |deltas|
  {
    if deltas != [] {
      WheelStepsStayInRange(Wheel(s, deltas[0]), deltas[1..]);
    }
  }

  /** From 9.5, every zoom-in step is rejected at once: the scale never exceeds 10. */
  lemma ZoomInAtTopIsRejected(s: ViewState, deltaY: real)
    requires s.scale == 9.5 && deltaY <= 0.0
    ensures Wheel(s, deltaY) == s
  {
  }

  /**
   * Below 0.1/1.1 every wheel step is rejected: zooming in does not reach
   * 0.1 and zooming out falls further below it.
   */
  lemma WheelStuckBelowRange(s: ViewState, deltaY: real)
    requires s.scale > 0.0 && s.scale * ZoomInFactor < MinScale
    ensures Wheel(s, deltaY) == s
  {
  }

  /** The mousedown handler: start dragging and record the press position. */
  function MouseDown(s: ViewState, x: real, y: real): (r: ViewState)
    ensures r.dragging && r.lastX == x && r.lastY == y
    ensures r.(dragging := s.dragging, lastX := s.lastX, lastY := s.lastY) == s
  {
    s.(dragging := true, lastX := x, lastY := y)
  }

  /**
   * The mousemove handler: first the readout is refreshed against the view
   * as it is (only when an image is loaded), then, while dragging, the
   * pointer's movement since the last event is added to the pan.
   */
  function MouseMove(s: ViewState, c: Canvas, x: real, y: real): (r: ViewState)
    requires s.scale > 0.0
    ensures r.image == s.image && r.volumes == s.volumes && r.scale == s.scale && r.dragging == s.dragging
    ensures s.dragging ==> r.panX - s.panX == x - s.lastX && r.panY - s.panY == y - s.lastY
    ensures s.dragging ==> r.lastX == x && r.lastY == y
    ensures !s.dragging ==> r.panX == s.panX && r.panY == s.panY && r.lastX == s.lastX && r.lastY == s.lastY
    ensures s.image.None? ==> r.coordinates == s.coordinates
    ensures s.image.Some? ==>
      (r.coordinates.Some? <==> Contains(Place(s.image.value, c, s.scale, s.panX, s.panY), x, y))
    ensures s.image.Some? ==> r.coordinates == Readout(s.image.value, c, s.scale, s.panX, s.panY, x, y)
  {
    var coords := if s.image.Some? then Readout(s.image.value, c, s.scale, s.panX, s.panY, x, y) else s.coordinates;
    if s.dragging then
      s.(coordinates := coords, panX := s.panX + (x - s.lastX), panY := s.panY + (y - s.lastY), lastX := x, lastY := y)
    else
      s.(coordinates := coords)
  }

  /** The mouseup handler: the drag ends. */
  function MouseUp(s: ViewState): (r: ViewState)
    ensures !r.dragging && r.(dragging := s.dragging) == s
  {
    s.(dragging := false)
  }

  /** The mouseleave handler: the drag ends and the readout is cleared. */
  function MouseLeave(s: ViewState): (r: ViewState)
    ensures !r.dragging && r.coordinates.None?
    ensures r.(dragging := s.dragging, coordinates := s.coordinates) == s
  {
    s.(dragging := false, coordinates := None)
  }

  /** A run of mousemove events. */
  function Moves(s: ViewState, c: Canvas, pts: seq<Point>): (r: ViewState)
    requires s.scale > 0.0
    ensures r.scale == s.scale && r.dragging == s.dragging && r.image == s.image
    decreases |pts|
  {
    if pts == [] then s else Moves(MouseMove(s, c, pts[0].x, pts[0].y), c, pts[1..])
  }

  /** While dragging, a run of moves pans by the distance from the last recorded position to the final pointer. */
  lemma {:induction false} MovesWhileDragging(s: ViewState, c: Canvas, pts: seq<Point>)
    requires s.scale > 0.0 && s.dragging && pts != []
    ensures var r := Moves(s, c, pts);
      r.panX == s.panX + (pts[|pts| - 1].x - s.lastX) &&
      r.panY == s.panY + (pts[|pts| - 1].y - s.lastY) &&
      r.lastX == pts[|pts| - 1].x && r.lastY == pts[|pts| - 1].y
    decreases |pts|
  {
    if |pts| > 1 {
      MovesWhileDragging(MouseMove(s, c, pts[0].x, pts[0].y), c, pts[1..]);
    }
  }

  /** Moves without a pressed button never pan. */
  lemma {:induction false} MovesWithoutDragKeepPan(s: ViewState, c: Canvas, pts: seq<Point>)
    requires s.scale > 0.0 && !s.dragging
    ensures var r := Moves(s, c, pts); r.panX == s.panX && r.panY == s.panY
    decreases |pts|
  {
    if pts != [] {
      MovesWithoutDragKeepPan(MouseMove(s, c, pts[0].x, pts[0].y), c, pts[1..]);
    }
  }

  /**
   * Press at (x0, y0), then move: the total pan change is the final pointer
   * position minus the press position, and the scale is untouched.
   */
  lemma DragPansByPointerTravel(s: ViewState, c: Canvas, x0: real, y0: real, pts: seq<Point>)
    requires s.scale > 0.0 && pts != []
    ensures var r := Moves(MouseDown(s, x0, y0), c, pts);
      r.panX - s.panX == pts[|pts| - 1].x - x0 &&
      r.panY - s.panY == pts[|pts| - 1].y - y0 &&
      r.scale == s.scale
  {
    MovesWhileDragging(MouseDown(s, x0, y0), c, pts);
  }

  /** Releasing or leaving always ends the drag, and neither touches scale or pan. */
  lemma EndingDragStopsPanning(s: ViewState, c: Canvas, pts: seq<Point>)
    requires s.scale > 0.0
    ensures !MouseUp(s).dragging && !MouseLeave(s).dragging
    ensures MouseLeave(s).coordinates == None
    ensures Moves(MouseUp(s), c, pts).panX == s.panX && Moves(MouseUp(s), c, pts).panY == s.panY
    ensures Moves(MouseLeave(s), c, pts).panX == s.panX && Moves(MouseLeave(s), c, pts).panY == s.panY
  {
    MovesWithoutDragKeepPan(MouseUp(s), c, pts);
    MovesWithoutDragKeepPan(MouseLeave(s), c, pts);
  }

  function Min(a: real, b: real): real {
    if a <= b then a else b
  }

  lemma ScaleMonotone(a: real, b: real, w: real)
    requires a <= b && 0.0 <= w
    ensures a * w <= b * w
  {
    assert (b - a) * w >= 0.0;
  }

  /**
   * The scale the reset picks: the smaller of the two 80%-fit scales, and
   * never above 100%.
   */
  function FitScale(img: Image, c: Canvas): (k: real)
    requires ValidImage(img)
    ensures k <= 1.0
    ensures k * img.width as real <= 0.8 * c.width as real
    ensures k * img.height as real <= 0.8 * c.height as real
    ensures k == 1.0 || k == c.width as real * 0.8 / img.width as real || k == c.height as real * 0.8 / img.height as real
    ensures ValidCanvas(c) ==> k > 0.0
  {
    var scaleX := c.width as real * 0.8 / img.width as real;
    var scaleY := c.height as real * 0.8 / img.height as real;
    var k := Min(Min(scaleX, scaleY), 1.0);
    assert scaleX * img.width as real == 0.8 * c.width as real;
    assert scaleY * img.height as real == 0.8 * c.height as real;
    ScaleMonotone(k, scaleX, img.width as real);
    ScaleMonotone(k, scaleY, img.height as real);
    k
  }

  /**
   * `resetView` as last declared: when Niivue shows a volume the Niivue
   * camera is reset and the canvas state is untouched; otherwise, when an
   * image is loaded, the scale is refitted and the pan cleared; otherwise
   * nothing happens.
   */
  function ResetView(s: ViewState, c: Canvas): (r: ViewState)
    requires s.image.Some? ==> ValidImage(s.image.value)
    ensures !s.volumes && s.image.Some? ==>
      r == s.(scale := FitScale(s.image.value, c), panX := 0.0, panY := 0.0)
    ensures s.volumes || s.image.None? ==> r == s
  {
    if s.volumes then s
    else if s.image.Some? then s.(scale := FitScale(s.image.value, c), panX := 0.0, panY := 0.0)
    else s
  }

  /** Resetting twice is resetting once. */
  lemma ResetViewIdempotent(s: ViewState, c: Canvas)
    requires s.image.Some? ==> ValidImage(s.image.value)
    ensures ResetView(ResetView(s, c), c) == ResetView(s, c)
  {
  }

  /**
   * After a canvas reset the image, drawn unpanned at a scale of at most
   * 100%, lies within the middle 80% of the canvas on both axes.
   */
  lemma ResetViewFitsImage(s: ViewState, c: Canvas)
    requires s.image.Some? && ValidImage(s.image.value) && !s.volumes
    ensures var r := ResetView(s, c); var p := Place(s.image.value, c, r.scale, r.panX, r.panY);
      r.scale <= 1.0 &&
      0.1 * c.width as real <= p.left && p.left + p.width <= 0.9 * c.width as real &&
      0.1 * c.height as real <= p.top && p.top + p.height <= 0.9 * c.height as real
  {
  }

  /** A reset keeps a well-formed state well-formed on a canvas of positive size. */
  lemma ResetViewWellFormed(s: ViewState, c: Canvas)
    requires WellFormed(s) && ValidCanvas(c)
    ensures WellFormed(ResetView(s, c))
  {
  }

  /**
   * A reset can leave the scale below the wheel's lower bound: a
   * 10000x10000 image on a 1000x760 canvas is fitted at 0.0608, and from
   * there every wheel step is rejected.
   */
  lemma ResetCanLeaveZoomRange(s: ViewState, deltaY: real)
    requires s.image == Some(Image(10000, 10000)) && !s.volumes
    ensures var r := ResetView(s, Canvas(1000, 760));
      r.scale == 0.0608 && !InZoomRange(r.scale) && Wheel(r, deltaY) == r
  {
    var r := ResetView(s, Canvas(1000, 760));
    assert r.scale == Min(Min(0.08, 0.0608), 1.0);
    WheelStuckBelowRange(r, deltaY);
  }

  /**
   * The zoom percentage of the info line, shown only when an image is
   * loaded. The info line is rewritten only when an image is loaded
   * (viewer.js lines 126 and 423), not by a wheel step, so after zooming it
   * still shows the percentage at load time; this is the value it would
   * show if rewritten for the state `s`.
   */
  function InfoZoomPercent(s: ViewState): (pct: Option<int>)
    ensures pct.Some? <==> s.image.Some?
    ensures pct.Some? && InZoomRange(s.scale) ==> 10 <= pct.value <= 1000
  {
    if s.image.None? then None
    else
      var pct := ZoomPercent(s.scale);
      assert InZoomRange(s.scale) ==> 10 <= pct <= 1000 by {
        if InZoomRange(s.scale) { ZoomPercentRange(s.scale); }
      }
      Some(pct)
  }
}
