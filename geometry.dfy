/**
  Planar points and directed segments of `supervision.geometry.core`:
  the cross product that tells on which side of a segment's line a point
  lies, and the segment's Euclidean length.

  Coordinates are integers, as in every case the library's tests pin down;
  results are exact. The library computes with floating point; rounding,
  NaN and infinities are not modelled.
*/
module Geometry {

  /** A point of the plane, with the y axis pointing "up" (counter-clockwise is positive). */
  datatype Point = Point(x: int, y: int)

  /** A directed segment from `start` to `end`; `start == end` is allowed. */
  datatype Vector = Vector(start: Point, end: Point)

  /** Horizontal component of the direction of travel. */
  function Dx(v: Vector): int { v.end.x - v.start.x }

  /** Vertical component of the direction of travel. */
  function Dy(v: Vector): int { v.end.y - v.start.y }

  /** The same segment travelled the other way. */
  function Reverse(v: Vector): Vector { Vector(v.end, v.start) }

  /** Moves a point by `(dx, dy)`. */
  function Shift(p: Point, dx: int, dy: int): Point { Point(p.x + dx, p.y + dy) }

  /** Moves both ends of a segment by `(dx, dy)`. */
  function ShiftVector(v: Vector, dx: int, dy: int): Vector
  {
    Vector(Shift(v.start, dx, dy), Shift(v.end, dx, dy))
  }

  /**
    `Vector.cross_product(point)`: the scalar cross product of the direction
    of travel `end - start` with `point - start`. It vanishes when the point
    is the start point and when the segment is degenerate.
  */
  function CrossProduct(v: Vector, p: Point): (r: int)
    ensures p == v.start ==> r == 0
    ensures v.start == v.end ==> r == 0
  {
    Dx(v) * (p.y - v.start.y) - Dy(v) * (p.x - v.start.x)
  }

  /** The dot product of the direction of travel with `point - start`. */
  function Along(v: Vector, p: Point): int
  {
    Dx(v) * (p.x - v.start.x) + Dy(v) * (p.y - v.start.y)
  }

  /**
    The squared Euclidean length of the segment, `dx^2 + dy^2`: never
    negative, and zero exactly for a degenerate segment.
  */
  function SqMagnitude(v: Vector): (q: int)
    ensures q >= 0
    ensures q == 0 <==> v.start == v.end
  {
    var dx, dy := Dx(v), Dy(v);
    assert dx != 0 ==> dx * dx > 0;
    assert dy != 0 ==> dy * dy > 0;
    dx * dx + dy * dy
  }

  /**
    `Vector.magnitude`: `m` is the magnitude of `v` when it is the
    non-negative real square root of the squared length. A magnitude is
    zero exactly for a degenerate segment.
  */
  ghost predicate IsMagnitude(v: Vector, m: real): (b: bool)
    ensures b ==> (m == 0.0 <==> v.start == v.end)
  {
    RootZero(m, SqMagnitude(v));
    m >= 0.0 && m * m == SqMagnitude(v) as real
  }

  // ---------------------------------------------------------------------
  // Polynomial identities behind the cross-product lemmas
  // ---------------------------------------------------------------------

  /** The cross product of `a*d + b*left(d)` with `d` is `b * |d|^2`. */
  lemma FrameIdentity(dx: int, dy: int, a: int, b: int)
    ensures dx * (a * dy + b * dx) - dy * (a * dx - b * dy) == b * (dx * dx + dy * dy)
  {
  }

  /** `|d|^2 * u == (d . u) * d + (d x u) * left(d)`, component by component. */
  lemma ProjectionIdentity(dx: int, dy: int, ux: int, uy: int)
    ensures (dx * ux + dy * uy) * dx - (dx * uy - dy * ux) * dy == (dx * dx + dy * dy) * ux
    ensures (dx * ux + dy * uy) * dy + (dx * uy - dy * ux) * dx == (dx * dx + dy * dy) * uy
  {
  }

  /** Lagrange's identity in the plane: `(d x u)^2 + (d . u)^2 == |d|^2 * |u|^2`. */
  lemma LagrangeIdentity(dx: int, dy: int, ux: int, uy: int)
    ensures (dx * uy - dy * ux) * (dx * uy - dy * ux) + (dx * ux + dy * uy) * (dx * ux + dy * uy)
         == (dx * dx + dy * dy) * (ux * ux + uy * uy)
  {
  }

  // ---------------------------------------------------------------------
  // Cross product
  // ---------------------------------------------------------------------

  /**
    `p` lies, seen from `v.start`, `a / k` times the direction of travel
    ahead and `b / k` times that direction turned a quarter turn to the left
    (counter-clockwise). `b > 0` is the left side of the line, `b < 0` the
    right side, `b == 0` the line itself; `a == 0` is abreast of the start
    point and `a > k` lies beyond the end.
  */
  ghost predicate InFrame(v: Vector, p: Point, k: int, a: int, b: int)
  {
    && k > 0
    && k * (p.x - v.start.x) == a * Dx(v) - b * Dy(v)
    && k * (p.y - v.start.y) == a * Dy(v) + b * Dx(v)
  }

  /** The cross product of a point is its left coordinate, scaled by the squared length. */
  lemma CrossProductScaled(v: Vector, p: Point, k: int, a: int, b: int)
    requires InFrame(v, p, k, a, b)
    ensures k * CrossProduct(v, p) == b * SqMagnitude(v)
  {
    var dx, dy := Dx(v), Dy(v);
    var ux, uy := p.x - v.start.x, p.y - v.start.y;
    assert k * (dx * uy - dy * ux) == dx * (k * uy) - dy * (k * ux);
    FrameIdentity(dx, dy, a, b);
  }

  /**
    Every point has frame coordinates: with the squared length as the scale,
    the coordinate along the direction of travel is the dot product and the
    coordinate to its left is the cross product.
  */
  lemma FrameCoordinates(v: Vector, p: Point)
    requires v.start != v.end
    ensures InFrame(v, p, SqMagnitude(v), Along(v, p), CrossProduct(v, p))
  {
    ProjectionIdentity(Dx(v), Dy(v), p.x - v.start.x, p.y - v.start.y);
  }

  /**
    Sign matches side: for a non-degenerate segment the cross product is
    positive exactly for points on the left of the direction of travel,
    negative exactly on the right and zero exactly on the line.
  */
  lemma CrossProductSign(v: Vector, p: Point, k: int, a: int, b: int)
    requires v.start != v.end
    requires InFrame(v, p, k, a, b)
    ensures CrossProduct(v, p) > 0 <==> b > 0
    ensures CrossProduct(v, p) < 0 <==> b < 0
    ensures CrossProduct(v, p) == 0 <==> b == 0
  {
    CrossProductScaled(v, p, k, a, b);
    var c, q := CrossProduct(v, p), SqMagnitude(v);
    assert c > 0 ==> k * c > 0;
    assert c < 0 ==> k * c < 0;
    assert b > 0 ==> b * q > 0;
    assert b < 0 ==> b * q < 0;
  }

  /**
    Collinear points give zero: for a non-degenerate segment the cross
    product vanishes exactly when `point - start` is a multiple of the
    direction of travel, i.e. for the start point, the points between the
    ends and the points beyond either end of the infinite line.
  */
  lemma CrossProductZeroIffCollinear(v: Vector, p: Point)
    requires v.start != v.end
    ensures CrossProduct(v, p) == 0 <==> exists k, a :: InFrame(v, p, k, a, 0)
  {
    FrameCoordinates(v, p);
    if CrossProduct(v, p) != 0 {
      forall k, a | InFrame(v, p, k, a, 0)
        ensures false
      {
        CrossProductSign(v, p, k, a, 0);
      }
    }
  }

  /** Reversal negates: travelling the segment backwards negates the cross product. */
  lemma CrossProductReversal(v: Vector, p: Point)
    ensures CrossProduct(Reverse(v), p) == -CrossProduct(v, p)
  {
    var ux, uy := p.x - v.start.x, p.y - v.start.y;
    assert p.y - v.end.y == uy - Dy(v) && p.x - v.end.x == ux - Dx(v);
    assert (-Dx(v)) * (uy - Dy(v)) - (-Dy(v)) * (ux - Dx(v)) == -(Dx(v) * uy - Dy(v) * ux);
  }

  /** Moving the segment and the point together leaves the cross product unchanged. */
  lemma CrossProductTranslation(v: Vector, p: Point, dx: int, dy: int)
    ensures CrossProduct(ShiftVector(v, dx, dy), Shift(p, dx, dy)) == CrossProduct(v, p)
  {
  }

  /**
    The cross product is at most the product of the lengths of its two arms,
    `end - start` and `point - start`.
  */
  lemma CrossProductBound(v: Vector, p: Point)
    ensures CrossProduct(v, p) * CrossProduct(v, p) <= SqMagnitude(v) * SqMagnitude(Vector(v.start, p))
  {
    var d := Along(v, p);
    LagrangeIdentity(Dx(v), Dy(v), p.x - v.start.x, p.y - v.start.y);
    assert d * d >= 0;
  }

  /** For the diagonal segment `(0,0) -> (5,5)` and its reverse, the cross product is `±5 * (y - x)`. */
  lemma CrossProductOfDiagonal(p: Point)
    ensures CrossProduct(Vector(Point(0, 0), Point(5, 5)), p) == 5 * (p.y - p.x)
    ensures CrossProduct(Vector(Point(5, 5), Point(0, 0)), p) == -5 * (p.y - p.x)
  {
  }

  /** Cross-product rows for the diagonal segment, both ways (test/geometry/test_core.py:9-14). */
  lemma CrossProductTableDiagonal()
    ensures CrossProduct(Vector(Point(0, 0), Point(5, 5)), Point(-1, 1)) == 10
    ensures CrossProduct(Vector(Point(0, 0), Point(5, 5)), Point(6, 6)) == 0
    ensures CrossProduct(Vector(Point(0, 0), Point(5, 5)), Point(3, 6)) == 15
    ensures CrossProduct(Vector(Point(5, 5), Point(0, 0)), Point(-1, 1)) == -10
    ensures CrossProduct(Vector(Point(5, 5), Point(0, 0)), Point(6, 6)) == 0
    ensures CrossProduct(Vector(Point(5, 5), Point(0, 0)), Point(3, 6)) == -15
  {
    CrossProductOfDiagonal(Point(-1, 1));
    CrossProductOfDiagonal(Point(6, 6));
    CrossProductOfDiagonal(Point(3, 6));
  }

  /** For the unit segment `(0,0) -> (1,0)` and its reverse, the cross product is `±y`. */
  lemma CrossProductOfHorizontal(p: Point)
    ensures CrossProduct(Vector(Point(0, 0), Point(1, 0)), p) == p.y
    ensures CrossProduct(Vector(Point(1, 0), Point(0, 0)), p) == -p.y
  {
  }

  /** Cross-product rows for the horizontal unit segment, both ways (test/geometry/test_core.py:15-20). */
  lemma CrossProductTableHorizontal()
    ensures CrossProduct(Vector(Point(0, 0), Point(1, 0)), Point(0, 0)) == 0
    ensures CrossProduct(Vector(Point(0, 0), Point(1, 0)), Point(0, -1)) == -1
    ensures CrossProduct(Vector(Point(0, 0), Point(1, 0)), Point(0, 1)) == 1
    ensures CrossProduct(Vector(Point(1, 0), Point(0, 0)), Point(0, 0)) == 0
    ensures CrossProduct(Vector(Point(1, 0), Point(0, 0)), Point(0, -1)) == 1
    ensures CrossProduct(Vector(Point(1, 0), Point(0, 0)), Point(0, 1)) == -1
  {
    CrossProductOfHorizontal(Point(0, 0));
    CrossProductOfHorizontal(Point(0, -1));
    CrossProductOfHorizontal(Point(0, 1));
  }

  /** For the vertical segment `(1,1) -> (1,3)` and its reverse, the cross product is `∓2 * (x - 1)`. */
  lemma CrossProductOfVertical(p: Point)
    ensures CrossProduct(Vector(Point(1, 1), Point(1, 3)), p) == -2 * (p.x - 1)
    ensures CrossProduct(Vector(Point(1, 3), Point(1, 1)), p) == 2 * (p.x - 1)
  {
  }

  /** Cross-product rows for the vertical segment, both ways (test/geometry/test_core.py:21-26). */
  lemma CrossProductTableVertical()
    ensures CrossProduct(Vector(Point(1, 1), Point(1, 3)), Point(0, 0)) == 2
    ensures CrossProduct(Vector(Point(1, 1), Point(1, 3)), Point(1, 4)) == 0
    ensures CrossProduct(Vector(Point(1, 1), Point(1, 3)), Point(2, 4)) == -2
    ensures CrossProduct(Vector(Point(1, 3), Point(1, 1)), Point(0, 0)) == -2
    ensures CrossProduct(Vector(Point(1, 3), Point(1, 1)), Point(1, 4)) == 0
    ensures CrossProduct(Vector(Point(1, 3), Point(1, 1)), Point(2, 4)) == 2
  {
    CrossProductOfVertical(Point(0, 0));
    CrossProductOfVertical(Point(1, 4));
    CrossProductOfVertical(Point(2, 4));
  }

  // ---------------------------------------------------------------------
  // Magnitude
  // ---------------------------------------------------------------------

  /** Squares of non-negative reals are strictly increasing. */
  lemma SquareIncreasing(m: real, n: real)
    requires 0.0 <= m < n
    ensures m * m < n * n
  {
    var d := n - m;
    assert n * n == (m + d) * (m + d) == m * m + 2.0 * m * d + d * d;
    assert m * d >= 0.0;
    assert d * d > 0.0;
  }

  /** A segment has at most one magnitude: the non-negative square root is unique. */
  lemma MagnitudeUnique(v: Vector, m: real, m': real)
    requires IsMagnitude(v, m) && IsMagnitude(v, m')
    ensures m == m'
  {
    if m < m' {
      SquareIncreasing(m, m');
    } else if m' < m {
      SquareIncreasing(m', m);
    }
  }

  /** The non-negative square root of an integer is zero exactly when the integer is. */
  lemma RootZero(m: real, q: int)
    ensures m >= 0.0 && m * m == q as real ==> (m == 0.0 <==> q == 0)
  {
    if m > 0.0 {
      SquareIncreasing(0.0, m);
    }
  }

  /** Two components of the same size, possibly of opposite sign. */
  predicate SameSize(a: int, b: int) { a == b || a == -b }

  /**
    The magnitude depends only on the sizes of the two components of the
    direction of travel, in either order: reversing the segment, flipping
    the sign of a component, swapping the axes or moving the segment keeps it.
  */
  lemma MagnitudeSymmetry(v: Vector, w: Vector, m: real)
    requires || (SameSize(Dx(w), Dx(v)) && SameSize(Dy(w), Dy(v)))
             || (SameSize(Dx(w), Dy(v)) && SameSize(Dy(w), Dx(v)))
    ensures SqMagnitude(w) == SqMagnitude(v)
    ensures IsMagnitude(v, m) <==> IsMagnitude(w, m)
  {
  }

  /** Reversing a segment keeps its magnitude. */
  lemma MagnitudeReversal(v: Vector, m: real)
    ensures IsMagnitude(v, m) <==> IsMagnitude(Reverse(v), m)
  {
    MagnitudeSymmetry(v, Reverse(v), m);
  }

  /** The rows of the magnitude table (test/geometry/test_core.py:39-54). */
  lemma MagnitudeTable()
    ensures IsMagnitude(Vector(Point(0, 0), Point(0, 0)), 0.0)
    ensures IsMagnitude(Vector(Point(1, 0), Point(0, 0)), 1.0)
    ensures IsMagnitude(Vector(Point(0, 1), Point(0, 0)), 1.0)
    ensures IsMagnitude(Vector(Point(0, 0), Point(1, 0)), 1.0)
    ensures IsMagnitude(Vector(Point(0, 0), Point(0, 1)), 1.0)
    ensures IsMagnitude(Vector(Point(-1, 0), Point(0, 0)), 1.0)
    ensures IsMagnitude(Vector(Point(0, -1), Point(0, 0)), 1.0)
    ensures IsMagnitude(Vector(Point(0, 0), Point(-1, 0)), 1.0)
    ensures IsMagnitude(Vector(Point(0, 0), Point(0, -1)), 1.0)
    ensures IsMagnitude(Vector(Point(0, 0), Point(3, 4)), 5.0)
    ensures IsMagnitude(Vector(Point(0, 0), Point(-3, 4)), 5.0)
    ensures IsMagnitude(Vector(Point(0, 0), Point(3, -4)), 5.0)
    ensures IsMagnitude(Vector(Point(0, 0), Point(-3, -4)), 5.0)
    ensures IsMagnitude(Vector(Point(0, 0), Point(4, 3)), 5.0)
    ensures IsMagnitude(Vector(Point(3, 4), Point(0, 0)), 5.0)
    ensures IsMagnitude(Vector(Point(4, 3), Point(0, 0)), 5.0)
  {
  }
}
