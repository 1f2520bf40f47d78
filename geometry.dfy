/** Points of the plane and the primitives every hull builder shares:
    the lexicographic point order, the strict orientation test, the
    bounding-quadrilateral test and the separating lines y = k*x + n. */
module Geometry {

  /** A point with exact real coordinates (the source uses float pairs). */
  datatype Point = Point(x: real, y: real)

  /** Python's tuple order on points: by x, then by y. */
  predicate LexLe(p: Point, q: Point) {
    p.x < q.x || (p.x == q.x && p.y <= q.y)
  }

  predicate LexLt(p: Point, q: Point) {
    p.x < q.x || (p.x == q.x && p.y < q.y)
  }

  /** The term added to every slope denominator, so that two endpoints with
      the same x never divide by zero. */
  const EPS: real := 0.000000000001

  function Min(a: real, b: real): real { if a <= b then a else b }
  function Max(a: real, b: real): real { if a <= b then b else a }

  /** The cross product of q - p and r - p: positive for a counter-clockwise
      turn p -> q -> r, negative for a clockwise one, zero when collinear. */
  function Cross(p: Point, q: Point, r: Point): real {
    (q.x - p.x) * (r.y - p.y) - (r.x - p.x) * (q.y - p.y)
  }

  /** `is_left_turn`: the strict counter-clockwise test. A triple with a
      repeated point is never a left turn. */
  function IsLeftTurn(p: Point, q: Point, r: Point): (b: bool)
    ensures b <==> Cross(p, q, r) > 0.0
    ensures p == q || q == r || p == r ==> !b
  {
    (q.x - p.x) * (r.y - p.y) > (r.x - p.x) * (q.y - p.y)
  }

  /** Any point on the line through p and q, at parameter t, is collinear
      with them, so it is not a left turn whatever t is. */
  lemma CollinearIsNotLeftTurn(p: Point, q: Point, t: real)
    ensures !IsLeftTurn(p, q, Point(p.x + t * (q.x - p.x), p.y + t * (q.y - p.y)))
  {
    var r := Point(p.x + t * (q.x - p.x), p.y + t * (q.y - p.y));
    var dx, dy := q.x - p.x, q.y - p.y;
    assert r.x - p.x == t * dx && r.y - p.y == t * dy;
    assert dx * (t * dy) == (t * dx) * dy;
  }

  /** Walking a triple backwards turns the other way: r -> q -> p is a left
      turn exactly when p -> q -> r is a strict right turn. This is why the
      two-pass builder can reuse the upper chain's rule on the reversed list. */
  lemma ReversedTurn(p: Point, q: Point, r: Point)
    ensures IsLeftTurn(r, q, p) <==> Cross(p, q, r) < 0.0
    ensures IsLeftTurn(p, q, r) ==> !IsLeftTurn(r, q, p)
  {
    assert Cross(r, q, p) == - Cross(p, q, r) by {
      var a, b, c, d := q.x - p.x, q.y - p.y, r.x - p.x, r.y - p.y;
      assert q.x - r.x == a - c && q.y - r.y == b - d;
      assert Cross(r, q, p) == (a - c) * (- d) - (- c) * (b - d);
      assert (a - c) * (- d) == - a * d + c * d;
      assert (- c) * (b - d) == - c * b + c * d;
    }
  }

  /** `not_inside(p, a, c, b, d)`: true when p must be kept, i.e. p is one of
      the four corners or fails at least one of the four edge tests
      a -> b, b -> c, c -> d, d -> a. */
  function NotInside(p: Point, a: Point, c: Point, b: Point, d: Point): (keep: bool)
    ensures p == a || p == b || p == c || p == d ==> keep
    ensures !keep ==> IsLeftTurn(a, b, p) && IsLeftTurn(b, c, p) && IsLeftTurn(c, d, p) && IsLeftTurn(d, a, p)
    ensures Cross(a, b, p) <= 0.0 || Cross(b, c, p) <= 0.0 || Cross(c, d, p) <= 0.0 || Cross(d, a, p) <= 0.0 ==> keep
    ensures (p != a && p != b && p != c && p != d
      && IsLeftTurn(a, b, p) && IsLeftTurn(b, c, p) && IsLeftTurn(c, d, p) && IsLeftTurn(d, a, p)) ==> !keep
  {
    if p == a || p == b || p == c || p == d then true
    else !(IsLeftTurn(a, b, p) && IsLeftTurn(b, c, p) && IsLeftTurn(c, d, p) && IsLeftTurn(d, a, p))
  }

  /** A point on the line of an edge of the quadrilateral is kept. */
  lemma OnEdgeIsKept(a: Point, c: Point, b: Point, d: Point, t: real)
    ensures NotInside(Point(a.x + t * (b.x - a.x), a.y + t * (b.y - a.y)), a, c, b, d)
    ensures NotInside(Point(b.x + t * (c.x - b.x), b.y + t * (c.y - b.y)), a, c, b, d)
    ensures NotInside(Point(c.x + t * (d.x - c.x), c.y + t * (d.y - c.y)), a, c, b, d)
    ensures NotInside(Point(d.x + t * (a.x - d.x), d.y + t * (a.y - d.y)), a, c, b, d)
  {
    CollinearIsNotLeftTurn(a, b, t);
    CollinearIsNotLeftTurn(b, c, t);
    CollinearIsNotLeftTurn(c, d, t);
    CollinearIsNotLeftTurn(d, a, t);
  }

  /** A separating line y = k*x + n. */
  datatype Line = Line(k: real, n: real) {
    function At(x: real): real { k * x + n }
  }

  /** The line the builders compute from a point p and the right endpoint
      pn: slope (pn.y - p.y) / (pn.x - p.x + EPS), through p. At pn.x it
      lies between p.y and pn.y; because of EPS it misses pn unless
      p.y == pn.y (LineMissesEnd). */
  function LineThrough(p: Point, pn: Point): (l: Line)
    requires p.x <= pn.x
    ensures l.At(p.x) == p.y
    ensures Min(p.y, pn.y) <= l.At(pn.x) <= Max(p.y, pn.y)
  {
    var k := (pn.y - p.y) / (pn.x - p.x + EPS);
    var l := Line(k, p.y - k * p.x);
    LineStaysInRange(p, pn, k, pn.x);
    l
  }

  /** The line reaches pn exactly when it is level: with p.y != pn.y the
      EPS in the denominator keeps it strictly short of pn.y at pn.x. */
  lemma LineMissesEnd(p: Point, pn: Point)
    requires p.x <= pn.x
    ensures LineThrough(p, pn).At(pn.x) == pn.y <==> p.y == pn.y
  {
    var den := pn.x - p.x + EPS;
    var dy := pn.y - p.y;
    var t := pn.x - p.x;
    var k := dy / den;
    assert LineThrough(p, pn).At(pn.x) == p.y + k * t;
    if dy != 0.0 {
      assert k * t != dy by {
        assert k * den == dy;
        assert 0.0 <= t < den;
      }
    }
  }

  /** Between p.x and pn.x the line from p with slope k stays within the
      y-range of the two points. */
  lemma LineStaysInRange(p: Point, pn: Point, k: real, x: real)
    requires p.x <= x <= pn.x
    requires k == (pn.y - p.y) / (pn.x - p.x + EPS)
    ensures Min(p.y, pn.y) <= k * x + (p.y - k * p.x) <= Max(p.y, pn.y)
  {
    var den := pn.x - p.x + EPS;
    var dy := pn.y - p.y;
    var t := x - p.x;
    var f := t / den;
    assert 0.0 <= f < 1.0 by {
      assert 0.0 <= t < den;
      assert f * den == t;
    }
    assert k * t == dy * f by {
      assert k * den == dy;
      assert f * den == t;
      assert (k * t) * den == (k * den) * t == dy * t == dy * (f * den) == (dy * f) * den;
    }
    assert k * x + (p.y - k * p.x) == p.y + k * t;
    ScaleWithinRange(dy, f);
  }

  /** Scaling by a factor in [0, 1] keeps a number between 0 and itself. */
  lemma ScaleWithinRange(a: real, f: real)
    requires 0.0 <= f <= 1.0
    ensures Min(0.0, a) <= a * f <= Max(0.0, a)
  {
    if a >= 0.0 {
      assert a * f <= a * 1.0;
    } else {
      assert a * f >= a * 1.0;
    }
  }
}
