/** Points of the plane, and the CSS transform that the map layer is drawn
    through: `translate(panX, panY) scale(scale)` with `transform-origin: 0 0`. */
module Plane {

  datatype Point = Point(x: real, y: real)

  const ORIGIN := Point(0.0, 0.0)

  function Add(a: Point, b: Point): Point {
    Point(a.x + b.x, a.y + b.y)
  }

  function Sub(a: Point, b: Point): Point {
    Point(a.x - b.x, a.y - b.y)
  }

  /** One function of a CSS `transform` list. */
  datatype TransformFunction = Translate(offset: Point) | Scale(factor: real)

  function ApplyFunction(f: TransformFunction, p: Point): Point {
    match f
    case Translate(offset) => Add(p, offset)
    case Scale(k) => Point(k * p.x, k * p.y)
  }

  /** A CSS transform list acts on a point from right to left: the last
      function listed is applied first. */
  function ApplyList(fs: seq<TransformFunction>, p: Point): Point
    decreases |fs|
  {
    if fs == [] then p else ApplyFunction(fs[0], ApplyList(fs[1..], p))
  }

  /** The list is applied in a frame whose origin is the `transform-origin`. */
  function ApplyTransform(origin: Point, fs: seq<TransformFunction>, p: Point): Point {
    Add(ApplyList(fs, Sub(p, origin)), origin)
  }

  /** The affine map of the viewport: scene point s is shown at pan + scale * s. */
  function ToScreen(pan: Point, scale: real, s: Point): Point {
    Point(pan.x + scale * s.x, pan.y + scale * s.y)
  }

  /** The transform `translate(pan) scale(scale)` about the origin (0, 0) is
      the affine map ToScreen: scale first, then translate. */
  lemma CssTransformIsAffine(pan: Point, scale: real, s: Point)
    ensures ApplyTransform(ORIGIN, [Translate(pan), Scale(scale)], s) == ToScreen(pan, scale, s)
  {
    var fs := [Translate(pan), Scale(scale)];
    assert fs[1..] == [Scale(scale)];
    assert fs[1..][1..] == [];
    assert ApplyList(fs[1..], s) == ApplyFunction(Scale(scale), ApplyList([], s));
    assert ApplyList(fs, s) == ApplyFunction(Translate(pan), ApplyList(fs[1..], s));
    assert Sub(s, ORIGIN) == s;
  }

  /** The scene point under screen point q; the inverse of ToScreen. */
  function FromScreen(pan: Point, scale: real, q: Point): (s: Point)
    requires scale != 0.0
    ensures ToScreen(pan, scale, s) == q
  {
    Point((q.x - pan.x) / scale, (q.y - pan.y) / scale)
  }

  /** Reading back the scene point of a drawn point gives the point itself. */
  lemma ScreenRoundTrip(pan: Point, scale: real, s: Point)
    requires scale != 0.0
    ensures FromScreen(pan, scale, ToScreen(pan, scale, s)) == s
  {
    var q := ToScreen(pan, scale, s);
    assert (q.x - pan.x) / scale == s.x by {
      assert q.x - pan.x == scale * s.x;
    }
    assert (q.y - pan.y) / scale == s.y by {
      assert q.y - pan.y == scale * s.y;
    }
  }

  /** The scene origin is the fixed point of zooming: it is always drawn at pan. */
  lemma OriginDrawnAtPan(pan: Point, scale: real)
    ensures ToScreen(pan, scale, ORIGIN) == pan
  {
  }

  /** The map is affine: the screen distance between two scene points is the
      scene distance times the scale, whatever the pan. */
  lemma ScreenDistance(pan: Point, scale: real, a: Point, b: Point)
    ensures Sub(ToScreen(pan, scale, a), ToScreen(pan, scale, b))
         == Point(scale * (a.x - b.x), scale * (a.y - b.y))
  {
  }

  /** Re-anchored panning: after a drag that starts at pointer p (anchor
      p - pan) and reaches pointer q, every scene point is drawn shifted by
      exactly q - p. */
  lemma DragShiftsEveryPoint(pan: Point, scale: real, p: Point, q: Point, s: Point)
    ensures ToScreen(Sub(q, Sub(p, pan)), scale, s) == Add(ToScreen(pan, scale, s), Sub(q, p))
  {
  }
}
