/** Points on the canvas and the cubic Bézier evaluator the game uses to
    place the ball on a lane. Coordinates are exact reals. */
module Geometry {

  datatype Point = Point(x: real, y: real)

  /** One coordinate of the cubic Bézier curve with control values a, b, c, d
      at parameter t, in the Bernstein form the game evaluates. */
  function Cubic(t: real, a: real, b: real, c: real, d: real): (v: real)
    ensures t == 0.0 ==> v == a
    ensures t == 1.0 ==> v == d
  {
    var mt := 1.0 - t;
    var mt2 := mt * mt;
    var t2 := t * t;
    mt2 * mt * a + 3.0 * mt2 * t * b + 3.0 * mt * t2 * c + t2 * t * d
  }

  /** The point at parameter t of the cubic Bézier curve p0, p1, p2, p3,
      evaluated axis by axis. It starts at p0 and ends at p3. */
  function BezierPoint(t: real, p0: Point, p1: Point, p2: Point, p3: Point): (p: Point)
    ensures t == 0.0 ==> p == p0
    ensures t == 1.0 ==> p == p3
  {
    Point(Cubic(t, p0.x, p1.x, p2.x, p3.x), Cubic(t, p0.y, p1.y, p2.y, p3.y))
  }

  /** The four Bernstein weights, grouped as Cubic groups them, are
      non-negative on [0, 1] and sum to one. */
  lemma BernsteinWeights(t: real)
    requires 0.0 <= t <= 1.0
    ensures var mt := 1.0 - t; var mt2 := mt * mt; var t2 := t * t;
      mt2 * mt >= 0.0 && 3.0 * mt2 * t >= 0.0 && 3.0 * mt * t2 >= 0.0 && t2 * t >= 0.0
    ensures var mt := 1.0 - t; var mt2 := mt * mt; var t2 := t * t;
      mt2 * mt + 3.0 * mt2 * t + 3.0 * mt * t2 + t2 * t == 1.0
  {
    var mt := 1.0 - t;
    var mt2 := mt * mt;
    var t2 := t * t;
    ProductNonNegative(mt, mt);
    ProductNonNegative(t, t);
    ProductNonNegative(mt2, mt);
    ProductNonNegative(3.0 * mt2, t);
    ProductNonNegative(3.0 * mt, t2);
    ProductNonNegative(t2, t);
    assert mt2 * mt + 3.0 * mt2 * t + 3.0 * mt * t2 + t2 * t == (mt + t) * (mt + t) * (mt + t);
  }

  lemma ProductNonNegative(a: real, b: real)
    requires a >= 0.0 && b >= 0.0
    ensures a * b >= 0.0
  {
  }

  /** A curve whose control values all coincide is constant. */
  lemma CubicConstant(t: real, a: real)
    ensures Cubic(t, a, a, a, a) == a
  {
    var mt := 1.0 - t;
    assert mt * mt * mt + 3.0 * mt * mt * t + 3.0 * mt * t * t + t * t * t
        == (mt + t) * (mt + t) * (mt + t);
    assert Cubic(t, a, a, a, a)
        == (mt * mt * mt + 3.0 * mt * mt * t + 3.0 * mt * t * t + t * t * t) * a;
  }

  /** Traversing the control values backwards traces the same curve in reverse. */
  lemma CubicReversed(t: real, a: real, b: real, c: real, d: real)
    ensures Cubic(1.0 - t, d, c, b, a) == Cubic(t, a, b, c, d)
  {
  }

  /** Convex hull: on [0, 1] the curve stays between the least and the
      greatest of its control values. */
  lemma CubicBounded(t: real, a: real, b: real, c: real, d: real, lo: real, hi: real)
    requires 0.0 <= t <= 1.0
    requires lo <= a <= hi && lo <= b <= hi && lo <= c <= hi && lo <= d <= hi
    ensures lo <= Cubic(t, a, b, c, d) <= hi
  {
    BernsteinWeights(t);
    var mt := 1.0 - t;
    var mt2 := mt * mt;
    var t2 := t * t;
    var w0, w1, w2, w3 := mt2 * mt, 3.0 * mt2 * t, 3.0 * mt * t2, t2 * t;
    WeightedBetween(w0, w1, w2, w3, a, b, c, d, lo, hi);
  }

  /** A convex combination of values in [lo, hi] lies in [lo, hi]. */
  lemma WeightedBetween(w0: real, w1: real, w2: real, w3: real,
                        a: real, b: real, c: real, d: real, lo: real, hi: real)
    requires w0 >= 0.0 && w1 >= 0.0 && w2 >= 0.0 && w3 >= 0.0
    requires w0 + w1 + w2 + w3 == 1.0
    requires lo <= a <= hi && lo <= b <= hi && lo <= c <= hi && lo <= d <= hi
    ensures lo <= w0 * a + w1 * b + w2 * c + w3 * d <= hi
  {
    var sum := w0 + w1 + w2 + w3;
    WeightedAtLeast(w0, w1, w2, w3, a, b, c, d, lo);
    WeightedAtLeast(w0, w1, w2, w3, -a, -b, -c, -d, -hi);
    assert w0 * -a + w1 * -b + w2 * -c + w3 * -d == -(w0 * a + w1 * b + w2 * c + w3 * d);
    assert sum * -hi == -(sum * hi);
    UnitScale(sum, lo);
    UnitScale(sum, hi);
  }

  /** With non-negative weights, the weighted sum dominates the weights' total times a lower bound. */
  lemma WeightedAtLeast(w0: real, w1: real, w2: real, w3: real,
                        a: real, b: real, c: real, d: real, lo: real)
    requires w0 >= 0.0 && w1 >= 0.0 && w2 >= 0.0 && w3 >= 0.0
    requires lo <= a && lo <= b && lo <= c && lo <= d
    ensures (w0 + w1 + w2 + w3) * lo <= w0 * a + w1 * b + w2 * c + w3 * d
  {
    assert w0 * (a - lo) + w1 * (b - lo) + w2 * (c - lo) + w3 * (d - lo) >= 0.0 by {
      ProductNonNegative(w0, a - lo);
      ProductNonNegative(w1, b - lo);
      ProductNonNegative(w2, c - lo);
      ProductNonNegative(w3, d - lo);
    }
  }

  lemma UnitScale(s: real, x: real)
    requires s == 1.0
    ensures s * x == x
  {
  }

  /** The Bézier point of a reversed control polygon, at 1 - t, is the point at t. */
  lemma BezierReversed(t: real, p0: Point, p1: Point, p2: Point, p3: Point)
    ensures BezierPoint(1.0 - t, p3, p2, p1, p0) == BezierPoint(t, p0, p1, p2, p3)
  {
    CubicReversed(t, p0.x, p1.x, p2.x, p3.x);
    CubicReversed(t, p0.y, p1.y, p2.y, p3.y);
  }

  /** A degenerate curve whose control points coincide stays at that point. */
  lemma BezierConstant(t: real, p: Point)
    ensures BezierPoint(t, p, p, p, p) == p
  {
    CubicConstant(t, p.x);
    CubicConstant(t, p.y);
  }

  /** The axis-aligned box [xlo, xhi] x [ylo, yhi]. */
  predicate InBox(p: Point, xlo: real, xhi: real, ylo: real, yhi: real)
  {
    xlo <= p.x <= xhi && ylo <= p.y <= yhi
  }

  /** On [0, 1] the curve stays inside any box that holds its four control points. */
  lemma BezierInBox(t: real, p0: Point, p1: Point, p2: Point, p3: Point,
                    xlo: real, xhi: real, ylo: real, yhi: real)
    requires 0.0 <= t <= 1.0
    requires InBox(p0, xlo, xhi, ylo, yhi) && InBox(p1, xlo, xhi, ylo, yhi)
    requires InBox(p2, xlo, xhi, ylo, yhi) && InBox(p3, xlo, xhi, ylo, yhi)
    ensures InBox(BezierPoint(t, p0, p1, p2, p3), xlo, xhi, ylo, yhi)
  {
    CubicBounded(t, p0.x, p1.x, p2.x, p3.x, xlo, xhi);
    CubicBounded(t, p0.y, p1.y, p2.y, p3.y, ylo, yhi);
  }
}
