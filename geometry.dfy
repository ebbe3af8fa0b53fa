/**
 * Placement and coordinate-readout geometry of the 2D canvas viewer
 * (viewer.js, `drawImage` and `updateCoordinates`).
 *
 * Screen positions, the zoom scale and the pan offset are `real`s; the
 * browser's IEEE doubles are not modelled.
 */
module Geometry {
  import opened Wrappers

  /** A decoded raster image, known only by its pixel dimensions. */
  datatype Image = Image(width: nat, height: nat)

  /** The drawing surface, known only by its pixel dimensions. */
  datatype Canvas = Canvas(width: int, height: int)

  /** An axis-aligned rectangle on the canvas. */
  datatype Rect = Rect(left: real, top: real, width: real, height: real)

  /** An integer image-space coordinate, as shown in the readout. */
  datatype Pixel = Pixel(x: int, y: int)

  predicate ValidImage(img: Image) {
    img.width > 0 && img.height > 0
  }

  predicate ValidCanvas(c: Canvas) {
    c.width > 0 && c.height > 0
  }

  /** JavaScript's `Math.round`: the nearest integer, with halves rounded up. */
  function Round(x: real): (n: int)
    ensures x - 0.5 < n as real <= x + 0.5
  {
    (x + 0.5).Floor
  }

  lemma RoundOfInt(n: int)
    ensures Round(n as real) == n
  {
  }

  lemma RoundMonotone(x: real, y: real)
    requires x <= y
    ensures Round(x) <= Round(y)
  {
  }

  /**
   * Where the image is drawn: scaled by `scale`, centred on the canvas and
   * then moved by the pan offset (panX, panY).
   */
  function Place(img: Image, c: Canvas, scale: real, panX: real, panY: real): (r: Rect)
    ensures r.width == img.width as real * scale && r.height == img.height as real * scale
    ensures r.left + r.width / 2.0 == c.width as real / 2.0 + panX
    ensures r.top + r.height / 2.0 == c.height as real / 2.0 + panY
  {
    var w := img.width as real * scale;
    var h := img.height as real * scale;
    Rect(panX + (c.width as real - w) / 2.0, panY + (c.height as real - h) / 2.0, w, h)
  }

  /** With no pan, the margins left and right (and above and below) of the image are equal. */
  lemma PlaceUnpannedIsCentred(img: Image, c: Canvas, scale: real)
    ensures var r := Place(img, c, scale, 0.0, 0.0);
      r.left == c.width as real - (r.left + r.width) &&
      r.top == c.height as real - (r.top + r.height)
  {
  }

  /** Panning moves the drawn rectangle by exactly the pan change and leaves its size alone. */
  lemma PlacePanShifts(img: Image, c: Canvas, scale: real, panX: real, panY: real, dx: real, dy: real)
    ensures var r := Place(img, c, scale, panX, panY);
      Place(img, c, scale, panX + dx, panY + dy) == Rect(r.left + dx, r.top + dy, r.width, r.height)
  {
  }

  /** The closed-rectangle hit test: edges count as inside. */
  predicate Contains(r: Rect, x: real, y: real) {
    r.left <= x <= r.left + r.width && r.top <= y <= r.top + r.height
  }

  lemma ScaledOffsetBounds(d: real, n: nat, scale: real)
    requires scale > 0.0
    requires 0.0 <= d <= n as real * scale
    ensures 0.0 <= d / scale <= n as real
  {
    var q := d / scale;
    assert q * scale == d;
    assert (n as real - q) * scale == n as real * scale - d;
  }

  /** Rounding a value of [0, n] stays in [0, n]. */
  lemma RoundWithin(t: real, n: nat)
    requires 0.0 <= t <= n as real
    ensures 0 <= Round(t) <= n
  {
    RoundOfInt(0);
    RoundOfInt(n);
    RoundMonotone(0.0, t);
    RoundMonotone(t, n as real);
  }

  /**
   * The coordinate readout for a pointer at (mx, my): the image pixel under
   * it when it lies on the drawn image, and no readout (a cleared text
   * field) otherwise.
   */
  function Readout(img: Image, c: Canvas, scale: real, panX: real, panY: real, mx: real, my: real): (p: Option<Pixel>)
    requires scale > 0.0
    ensures p.Some? <==> Contains(Place(img, c, scale, panX, panY), mx, my)
    ensures p.Some? ==> 0 <= p.value.x <= img.width && 0 <= p.value.y <= img.height
    ensures p.Some? ==> var r := Place(img, c, scale, panX, panY);
      (mx - r.left) / scale - 0.5 < p.value.x as real <= (mx - r.left) / scale + 0.5 &&
      (my - r.top) / scale - 0.5 < p.value.y as real <= (my - r.top) / scale + 0.5
  {
    var r := Place(img, c, scale, panX, panY);
    if Contains(r, mx, my) then
      ScaledOffsetBounds(mx - r.left, img.width, scale);
      ScaledOffsetBounds(my - r.top, img.height, scale);
      RoundWithin((mx - r.left) / scale, img.width);
      RoundWithin((my - r.top) / scale, img.height);
      Some(Pixel(Round((mx - r.left) / scale), Round((my - r.top) / scale)))
    else
      None
  }

  /** On one axis: the screen position of pixel p, mapped back to image space and rounded, is p. */
  lemma AxisRoundTrip(origin: real, scale: real, p: int)
    requires scale > 0.0
    ensures Round(((origin + p as real * scale) - origin) / scale) == p
  {
    assert ((origin + p as real * scale) - origin) / scale == p as real;
    RoundOfInt(p);
  }

  /** An image pixel drawn on screen at its scaled position reads back as exactly that pixel. */
  lemma ReadoutRoundTrip(img: Image, c: Canvas, scale: real, panX: real, panY: real, px: int, py: int)
    requires scale > 0.0
    requires 0 <= px <= img.width && 0 <= py <= img.height
    ensures var r := Place(img, c, scale, panX, panY);
      Readout(img, c, scale, panX, panY, r.left + px as real * scale, r.top + py as real * scale) == Some(Pixel(px, py))
  {
    var r := Place(img, c, scale, panX, panY);
    assert px as real * scale <= img.width as real * scale;
    assert py as real * scale <= img.height as real * scale;
    AxisRoundTrip(r.left, scale, px);
    AxisRoundTrip(r.top, scale, py);
  }

  /** Moving the pan and the pointer by the same amount leaves the readout unchanged. */
  lemma ReadoutPanInvariant(img: Image, c: Canvas, scale: real, panX: real, panY: real, mx: real, my: real, dx: real, dy: real)
    requires scale > 0.0
    ensures Readout(img, c, scale, panX + dx, panY + dy, mx + dx, my + dy) == Readout(img, c, scale, panX, panY, mx, my)
  {
    PlacePanShifts(img, c, scale, panX, panY, dx, dy);
  }

  /** The zoom percentage shown in the status and info text. */
  function ZoomPercent(scale: real): (pct: int)
    ensures scale * 100.0 - 0.5 < pct as real <= scale * 100.0 + 0.5
  {
    Round(scale * 100.0)
  }

  /** Within the wheel's zoom range the percentage lies between 10 and 1000. */
  lemma ZoomPercentRange(scale: real)
    requires 0.1 <= scale <= 10.0
    ensures 10 <= ZoomPercent(scale) <= 1000
  {
    RoundOfInt(10);
    RoundOfInt(1000);
    RoundMonotone(10.0, scale * 100.0);
    RoundMonotone(scale * 100.0, 1000.0);
  }
}
