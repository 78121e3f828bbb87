/**
 * The crop engine of the photo customizer: the initial crop rectangle for a
 * print format, the drag that moves it, and the mapping of the rectangle from
 * the displayed image to the image's natural pixels. Coordinates are exact
 * reals; the browser's floating point is not modelled.
 */
module CropGeometry {

  /** A point or offset, in display (CSS) pixels. */
  datatype Point = Point(x: real, y: real)

  /** The size of an image, either as displayed or in natural pixels. */
  datatype Size = Size(width: real, height: real)

  /** A rectangle whose top-left corner is (x, y). */
  datatype Rect = Rect(x: real, y: real, width: real, height: real)

  predicate Positive(s: Size) {
    s.width > 0.0 && s.height > 0.0
  }

  /** The rectangle lies inside [0, w] x [0, h]. */
  predicate Within(r: Rect, w: real, h: real) {
    0.0 <= r.x && 0.0 <= r.y && r.x + r.width <= w && r.y + r.height <= h
  }

  function Max(a: real, b: real): real {
    if a >= b then a else b
  }

  function Min(a: real, b: real): real {
    if a <= b then a else b
  }

  /**
   * The rectangle `initCropRect` sets for a displayed image and a format of
   * `targetW` by `targetH`: of the format's aspect ratio, spanning the full
   * display along one side, and centred along the other.
   */
  function InitialRect(display: Size, targetW: real, targetH: real): (r: Rect)
    requires Positive(display) && targetW > 0.0 && targetH > 0.0
    ensures r.height > 0.0 && r.width == r.height * (targetW / targetH)
    ensures r.width / r.height == targetW / targetH
    ensures Within(r, display.width, display.height)
    ensures r.width == display.width || r.height == display.height
    ensures r.x == (display.width - r.width) / 2.0 && r.y == (display.height - r.height) / 2.0
  {
    var targetRatio := targetW / targetH;
    PositiveQuotient(targetW, targetH);
    var imgRatio := display.width / display.height;
    var (rectW, rectH) := (
      if imgRatio > targetRatio then
        FullHeight(display.width, display.height, targetRatio);
        (display.height * targetRatio, display.height)
      else
        FullWidth(display.width, display.height, targetRatio);
        (display.width, display.width / targetRatio));
    Rect((display.width - rectW) / 2.0, (display.height - rectH) / 2.0, rectW, rectH)
  }

  lemma PositiveQuotient(a: real, b: real)
    requires a > 0.0 && b > 0.0
    ensures a / b > 0.0
  {
  }

  lemma QuotientCompare(a: real, b: real, t: real)
    requires b > 0.0
    ensures a / b > t <==> a > b * t
  {
    assert a == (a / b) * b;
  }

  lemma QuotientBound(a: real, t: real, h: real)
    requires t > 0.0 && a <= h * t
    ensures a / t <= h
  {
    assert a == (a / t) * t;
  }

  lemma ProductQuotient(t: real, h: real)
    requires h > 0.0
    ensures (h * t) / h == t
  {
  }

  lemma QuotientProduct(w: real, t: real)
    requires w > 0.0 && t > 0.0
    ensures (w / t) * t == w && w / (w / t) == t
  {
    assert (w / t) * t == w;
  }

  /** A display wider than the target ratio: full height, and the width
      that ratio gives fits. */
  lemma FullHeight(w: real, h: real, t: real)
    requires w > 0.0 && h > 0.0 && t > 0.0 && w / h > t
    ensures 0.0 < h * t <= w && (h * t) / h == t
  {
    QuotientCompare(w, h, t);
    ProductQuotient(t, h);
  }

  /** A display no wider than the target ratio: full width, and the height
      that ratio gives fits. */
  lemma FullWidth(w: real, h: real, t: real)
    requires w > 0.0 && h > 0.0 && t > 0.0 && !(w / h > t)
    ensures 0.0 < w / t <= h && w == (w / t) * t && w / (w / t) == t
  {
    QuotientCompare(w, h, t);
    QuotientBound(w, t, h);
    PositiveQuotient(w, t);
    QuotientProduct(w, t);
  }

  /**
   * The initial rectangle is the largest of its aspect ratio that fits: any
   * rectangle of that ratio inside the display is no wider and no taller.
   */
  lemma InitialRectIsLargest(display: Size, targetW: real, targetH: real, w: real, h: real)
    requires Positive(display) && targetW > 0.0 && targetH > 0.0
    requires h > 0.0 && w == h * (targetW / targetH)
    requires w <= display.width && h <= display.height
    ensures w <= InitialRect(display, targetW, targetH).width
    ensures h <= InitialRect(display, targetW, targetH).height
  {
    var r := InitialRect(display, targetW, targetH);
    var t := targetW / targetH;
    assert t > 0.0;
    if r.height == display.height {
      assert w == h * t && r.width == r.height * t;
      assert h * t <= r.height * t;
    } else {
      assert r.width == display.width;
      assert w == h * t && r.width == r.height * t;
      assert h * t <= r.height * t;
    }
  }

  lemma Cancel(a: real, b: real, c: real)
    requires c > 0.0 && a * c == b * c
    ensures a == b
  {
  }

  /** `Math.max(0, Math.min(v, hi))`, the clamp `handleMouseMove` applies. */
  function Clamp(v: real, hi: real): (c: real)
    ensures 0.0 <= c <= Max(0.0, hi)
    ensures 0.0 <= v <= hi ==> c == v
    ensures v < 0.0 ==> c == 0.0
    ensures v > hi ==> c == Max(0.0, hi)
  {
    Max(0.0, Min(v, hi))
  }

  /** The offset `handleMouseDown` records: the pointer relative to the
      rectangle's corner. */
  function Grab(r: Rect, client: Point): Point {
    Point(client.x - r.x, client.y - r.y)
  }

  /**
   * The rectangle after `handleMouseMove` with the pointer at `client`,
   * `start` being the offset recorded when the drag began: it moves with the
   * pointer, is clamped to the display, and keeps its size.
   */
  function Drag(r: Rect, start: Point, client: Point, display: Size): (d: Rect)
    ensures d.width == r.width && d.height == r.height
    ensures 0.0 <= d.x <= Max(0.0, display.width - r.width)
    ensures 0.0 <= d.y <= Max(0.0, display.height - r.height)
    ensures r.width <= display.width && r.height <= display.height ==> Within(d, display.width, display.height)
    ensures 0.0 <= client.x - start.x <= display.width - r.width ==> d.x == client.x - start.x
    ensures 0.0 <= client.y - start.y <= display.height - r.height ==> d.y == client.y - start.y
  {
    var maxX := display.width - r.width;
    var maxY := display.height - r.height;
    r.(x := Clamp(client.x - start.x, maxX), y := Clamp(client.y - start.y, maxY))
  }

  /** Pressing and moving without displacement leaves a rectangle that is
      inside the display where it was. */
  lemma DragWithoutMotionKeepsRect(r: Rect, client: Point, display: Size)
    requires Within(r, display.width, display.height) && r.width >= 0.0 && r.height >= 0.0
    ensures Drag(r, Grab(r, client), client, display) == r
  {
  }

  /** A drag is a clamped translation by the pointer's displacement. */
  lemma DragIsClampedTranslation(r: Rect, down: Point, client: Point, display: Size)
    ensures Drag(r, Grab(r, down), client, display).x == Clamp(r.x + (client.x - down.x), display.width - r.width)
    ensures Drag(r, Grab(r, down), client, display).y == Clamp(r.y + (client.y - down.y), display.height - r.height)
  {
  }

  /**
   * The source region `handleApplyCrop` copies: the display rectangle scaled
   * per axis by natural size over display size. It stays inside the natural
   * image and keeps the rectangle's relative position and extent.
   */
  function NaturalRegion(r: Rect, natural: Size, display: Size): (s: Rect)
    requires Positive(display)
    ensures natural.width >= 0.0 && natural.height >= 0.0 && Within(r, display.width, display.height)
            ==> Within(s, natural.width, natural.height)
    ensures s.x * display.width == r.x * natural.width && s.y * display.height == r.y * natural.height
    ensures s.width * display.width == r.width * natural.width
    ensures s.height * display.height == r.height * natural.height
  {
    var scaleX := natural.width / display.width;
    var scaleY := natural.height / display.height;
    var s := Rect(r.x * scaleX, r.y * scaleY, r.width * scaleX, r.height * scaleY);
    assert natural.width == scaleX * display.width && natural.height == scaleY * display.height;
    assert natural.width >= 0.0 ==> scaleX >= 0.0;
    assert natural.height >= 0.0 ==> scaleY >= 0.0;
    ScaledWithin(r.x, r.width, display.width, scaleX);
    ScaledWithin(r.y, r.height, display.height, scaleY);
    s
  }

  /** One axis of `NaturalRegion`: scaling by a non-negative factor keeps an
      interval inside the scaled bound. */
  lemma ScaledWithin(pos: real, extent: real, bound: real, scale: real)
    ensures scale >= 0.0 && 0.0 <= pos && pos + extent <= bound ==> 0.0 <= pos * scale && pos * scale + extent * scale <= bound * scale
  {
    if scale >= 0.0 && 0.0 <= pos && pos + extent <= bound {
      assert pos * scale + extent * scale == (pos + extent) * scale;
    }
  }

  /** Under the uniform scale of an image displayed without distortion, the
      copied region has the crop rectangle's aspect ratio. */
  lemma NaturalRegionKeepsAspect(r: Rect, natural: Size, display: Size)
    requires Positive(display) && Positive(natural)
    requires natural.width * display.height == natural.height * display.width
    ensures NaturalRegion(r, natural, display).width * r.height == NaturalRegion(r, natural, display).height * r.width
  {
    var s := NaturalRegion(r, natural, display);
    var k := natural.width / display.width;
    assert natural.width == k * display.width;
    assert natural.height * display.width == (k * display.height) * display.width;
    Cancel(natural.height, k * display.height, display.width);
    assert natural.height / display.height == k;
    assert s.width == r.width * k && s.height == r.height * k;
  }
}
