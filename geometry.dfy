// Geometry shared by the node canvas: points, sizes, the two clamp shapes the
// views use, the minimum-size floor and the inclusive rectangle overlap test.
// Coordinates are exact reals; there is no rounding anywhere in this model.
module Geometry {

  /** A point; for a node it is the node's centre. */
  datatype Point = Point(x: real, y: real)

  /** A width/height pair; also used for translations and offsets. */
  datatype Size = Size(width: real, height: real)

  const ZeroSize := Size(0.0, 0.0)

  function Max(a: real, b: real): (r: real)
    ensures r >= a && r >= b
    ensures r == a || r == b
  {
    if a >= b then a else b
  }

  function Min(a: real, b: real): (r: real)
    ensures r <= a && r <= b
    ensures r == a || r == b
  {
    if a <= b then a else b
  }

  function Abs(a: real): real {
    if a < 0.0 then -a else a
  }

  /** The point moved by a translation. */
  function Offset(p: Point, d: Size): Point {
    Point(p.x + d.width, p.y + d.height)
  }

  /** The translation leading from `from` to `to`. */
  function Displacement(from: Point, to: Point): (d: Size)
    ensures Offset(from, d) == to
  {
    Size(to.x - from.x, to.y - from.y)
  }

  function Grow(s: Size, d: Size): Size {
    Size(s.width + d.width, s.height + d.height)
  }

  /** Both dimensions of `s` reach those of `m`. */
  predicate AtLeast(s: Size, m: Size) {
    s.width >= m.width && s.height >= m.height
  }

  // ---------------------------------------------------------------------
  // Clamping one coordinate into [lo, hi]

  /** `max(lo, min(v, hi))`: the lower bound is applied last, so it wins
      when the interval is empty. */
  function ClampLowWins(v: real, lo: real, hi: real): (r: real)
    ensures r >= lo
    ensures lo <= hi ==> r <= hi
    ensures hi < lo ==> r == lo
    ensures lo <= v <= hi ==> r == v
    ensures lo <= hi && v < lo ==> r == lo
    ensures lo <= hi && hi < v ==> r == hi
  {
    Max(lo, Min(v, hi))
  }

  /** `min(max(v, lo), hi)`: the upper bound is applied last, so it wins
      when the interval is empty. */
  function ClampHighWins(v: real, lo: real, hi: real): (r: real)
    ensures r <= hi
    ensures lo <= hi ==> r >= lo
    ensures hi < lo ==> r == hi
    ensures lo <= v <= hi ==> r == v
  {
    Min(Max(v, lo), hi)
  }

  lemma ClampLowWinsIdempotent(v: real, lo: real, hi: real)
    ensures ClampLowWins(ClampLowWins(v, lo, hi), lo, hi) == ClampLowWins(v, lo, hi)
  {
  }

  /** The two clamp orders agree exactly when the interval is not empty. */
  lemma ClampOrdersAgree(v: real, lo: real, hi: real)
    ensures lo <= hi ==> ClampHighWins(v, lo, hi) == ClampLowWins(v, lo, hi)
    ensures hi < lo ==> ClampHighWins(v, lo, hi) != ClampLowWins(v, lo, hi)
  {
  }

  // ---------------------------------------------------------------------
  // Minimum-size floor

  /** Each dimension of `s` raised to at least the matching minimum. */
  function FloorSize(s: Size, min: Size): (r: Size)
    ensures AtLeast(r, min)
    ensures AtLeast(s, min) ==> r == s
    ensures r.width == s.width || r.width == min.width
    ensures r.height == s.height || r.height == min.height
    ensures s.width < min.width ==> r.width == min.width
    ensures s.height < min.height ==> r.height == min.height
  {
    Size(Max(s.width, min.width), Max(s.height, min.height))
  }

  lemma FloorSizeIdempotent(s: Size, min: Size)
    ensures FloorSize(FloorSize(s, min), min) == FloorSize(s, min)
  {
  }

  // ---------------------------------------------------------------------
  // Rectangles given by centre and size

  /** The inclusive test of the node view: the rectangles (edges at centre
      plus or minus half the size) are apart only when one lies strictly to
      one side of the other on some axis; equivalently, the centres are at
      most half the summed extents apart on both axes. */
  predicate NodesOverlap(p1: Point, s1: Size, p2: Point, s2: Size): (b: bool)
    ensures b <==> Abs(p1.x - p2.x) <= (s1.width + s2.width) / 2.0 &&
                   Abs(p1.y - p2.y) <= (s1.height + s2.height) / 2.0
  {
    var left1 := p1.x - s1.width / 2.0;
    var right1 := p1.x + s1.width / 2.0;
    var top1 := p1.y - s1.height / 2.0;
    var bottom1 := p1.y + s1.height / 2.0;
    var left2 := p2.x - s2.width / 2.0;
    var right2 := p2.x + s2.width / 2.0;
    var top2 := p2.y - s2.height / 2.0;
    var bottom2 := p2.y + s2.height / 2.0;
    !(left1 > right2 || right1 < left2 || top1 > bottom2 || bottom1 < top2)
  }

  /** `q` lies in the closed rectangle centred at `p` with size `s`. */
  predicate InRect(q: Point, p: Point, s: Size) {
    p.x - s.width / 2.0 <= q.x <= p.x + s.width / 2.0 &&
    p.y - s.height / 2.0 <= q.y <= p.y + s.height / 2.0
  }

  lemma NodesOverlapSymmetric(p1: Point, s1: Size, p2: Point, s2: Size)
    ensures NodesOverlap(p1, s1, p2, s2) == NodesOverlap(p2, s2, p1, s1)
  {
  }

  /** For rectangles of non-negative size the edge test means exactly that
      some point lies in both closed rectangles; touching edges share a point. */
  lemma NodesOverlapIffCommonPoint(p1: Point, s1: Size, p2: Point, s2: Size)
    requires AtLeast(s1, ZeroSize) && AtLeast(s2, ZeroSize)
    ensures NodesOverlap(p1, s1, p2, s2) <==> exists q :: InRect(q, p1, s1) && InRect(q, p2, s2)
  {
    if NodesOverlap(p1, s1, p2, s2) {
      var q := Point(Max(p1.x - s1.width / 2.0, p2.x - s2.width / 2.0),
                     Max(p1.y - s1.height / 2.0, p2.y - s2.height / 2.0));
      assert InRect(q, p1, s1) && InRect(q, p2, s2);
    }
  }

  lemma NodesOverlapExamples()
    ensures NodesOverlap(Point(200.0, 200.0), Size(150.0, 75.0), Point(220.0, 200.0), Size(150.0, 75.0))
    ensures !NodesOverlap(Point(100.0, 100.0), Size(150.0, 75.0), Point(400.0, 400.0), Size(150.0, 75.0))
    ensures NodesOverlap(Point(0.0, 0.0), Size(150.0, 75.0), Point(150.0, 75.0), Size(150.0, 75.0))
  {
  }
}
