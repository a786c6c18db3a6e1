/**
  The four-vector `Vec4` of `supervision.geometry.core`: an event `(t, x, y, z)`
  of a (1+3)-dimensional space with the Minkowski metric of signature
  (+, -, -, -), its squared norm, the timelike / spacelike / lightlike
  classification by the sign of that norm, and the inner product that the
  library exposes as `lhs * rhs`.

  Components are integers, as in every case the library's tests pin down;
  results are exact. The library computes with floating point; rounding,
  NaN and infinities are not modelled.
*/
module FourVector {

  /** An event: time component `t` and spatial components `x`, `y`, `z`. */
  datatype Vec4 = Vec4(t: int, x: int, y: int, z: int)

  /** The squared Euclidean length of the spatial part. */
  function SpatialSq(v: Vec4): int
  {
    v.x * v.x + v.y * v.y + v.z * v.z
  }

  /**
    `Vec4.minkowski`: the squared Minkowski norm `t^2 - x^2 - y^2 - z^2`.
    A purely spatial vector (`t == 0`) is never positive, a vector at rest
    (no spatial part) is never negative.
  */
  function Minkowski(v: Vec4): (m: int)
    ensures v.t == 0 ==> m <= 0
    ensures v.x == 0 && v.y == 0 && v.z == 0 ==> m >= 0
  {
    v.t * v.t - v.x * v.x - v.y * v.y - v.z * v.z
  }

  /** `Vec4.timelike`: the norm is positive, i.e. the time part outweighs the spatial part. */
  predicate Timelike(v: Vec4): (b: bool)
    ensures b <==> v.t * v.t > SpatialSq(v)
  {
    Minkowski(v) > 0
  }

  /** `Vec4.spacelike`: the norm is negative, i.e. the spatial part outweighs the time part. */
  predicate Spacelike(v: Vec4): (b: bool)
    ensures b <==> v.t * v.t < SpatialSq(v)
  {
    Minkowski(v) < 0
  }

  /** `Vec4.lightlike`: the norm is zero, i.e. the vector lies on the light cone. */
  predicate Lightlike(v: Vec4): (b: bool)
    ensures b <==> v.t * v.t == SpatialSq(v)
  {
    Minkowski(v) == 0
  }

  /**
    `lhs * rhs`: the Minkowski inner product
    `t*t' - x*x' - y*y' - z*z'`. A vector multiplied by itself gives its norm.
  */
  function Mul(lhs: Vec4, rhs: Vec4): (r: int)
    ensures lhs == rhs ==> r == Minkowski(lhs)
  {
    lhs.t * rhs.t - lhs.x * rhs.x - lhs.y * rhs.y - lhs.z * rhs.z
  }

  /** Component-wise sum. */
  function Add(a: Vec4, b: Vec4): Vec4
  {
    Vec4(a.t + b.t, a.x + b.x, a.y + b.y, a.z + b.z)
  }

  /** Multiplication of every component by `k`. */
  function Scale(k: int, v: Vec4): Vec4
  {
    Vec4(k * v.t, k * v.x, k * v.y, k * v.z)
  }

  // ---------------------------------------------------------------------
  // Polynomial facts used by the proofs
  // ---------------------------------------------------------------------

  /** Squares are never negative. */
  lemma Square(a: int)
    ensures a * a >= 0
  {
  }

  /** `(k a)^2 == k^2 a^2`. */
  lemma SquareScale(k: int, a: int)
    ensures (k * a) * (k * a) == k * k * (a * a)
  {
  }

  /** Products of four factors may be regrouped. */
  lemma Regroup(a: int, b: int, c: int, d: int)
    ensures (a * b) * (c * d) == (a * c) * (b * d)
  {
  }

  /** The square of a sum of three terms. */
  lemma SumSquare(a: int, b: int, c: int)
    ensures (a + b + c) * (a + b + c) == a * a + b * b + c * c + 2 * (a * b) + 2 * (a * c) + 2 * (b * c)
  {
  }

  /** The square of a difference. */
  lemma DiffSquare(a: int, b: int)
    ensures (a - b) * (a - b) == a * a + b * b - 2 * (a * b)
  {
  }

  /** The product of two sums of three terms, multiplied out. */
  lemma SumProduct(a: int, b: int, c: int, d: int, e: int, f: int)
    ensures (a + b + c) * (d + e + f) == a * d + a * e + a * f + b * d + b * e + b * f + c * d + c * e + c * f
  {
  }

  /** Lagrange's identity in three dimensions: `|a|^2 |w|^2 == (a . w)^2 + |a x w|^2`. */
  lemma Lagrange3(ax: int, ay: int, az: int, wx: int, wy: int, wz: int)
    ensures (ax * ax + ay * ay + az * az) * (wx * wx + wy * wy + wz * wz)
         == (ax * wx + ay * wy + az * wz) * (ax * wx + ay * wy + az * wz)
          + (ax * wy - ay * wx) * (ax * wy - ay * wx)
          + (ax * wz - az * wx) * (ax * wz - az * wx)
          + (ay * wz - az * wy) * (ay * wz - az * wy)
  {
    var pxx, pyy, pzz := ax * wx, ay * wy, az * wz;
    var pxy, pyx, pxz, pzx, pyz, pzy := ax * wy, ay * wx, ax * wz, az * wx, ay * wz, az * wy;
    SumProduct(ax * ax, ay * ay, az * az, wx * wx, wy * wy, wz * wz);
    Regroup(ax, ax, wx, wx);
    Regroup(ax, ax, wy, wy);
    Regroup(ax, ax, wz, wz);
    Regroup(ay, ay, wx, wx);
    Regroup(ay, ay, wy, wy);
    Regroup(ay, ay, wz, wz);
    Regroup(az, az, wx, wx);
    Regroup(az, az, wy, wy);
    Regroup(az, az, wz, wz);
    SumSquare(pxx, pyy, pzz);
    DiffSquare(pxy, pyx);
    DiffSquare(pxz, pzx);
    DiffSquare(pyz, pzy);
    Regroup(ax, wx, ay, wy);
    Regroup(ax, wy, ay, wx);
    Regroup(ax, wx, az, wz);
    Regroup(ax, wz, az, wx);
    Regroup(ay, wy, az, wz);
    Regroup(ay, wz, az, wy);
    assert pxx * pyy == pxy * pyx;
    assert pxx * pzz == pxz * pzx;
    assert pyy * pzz == pyz * pzy;
  }

  /** Cauchy-Schwarz for the spatial parts: `(a . w)^2 <= |a|^2 |w|^2`. */
  lemma SpatialCauchySchwarz(a: Vec4, w: Vec4)
    ensures (a.x * w.x + a.y * w.y + a.z * w.z) * (a.x * w.x + a.y * w.y + a.z * w.z)
         <= SpatialSq(a) * SpatialSq(w)
  {
    Lagrange3(a.x, a.y, a.z, w.x, w.y, w.z);
    Square(a.x * w.y - a.y * w.x);
    Square(a.x * w.z - a.z * w.x);
    Square(a.y * w.z - a.z * w.y);
  }

  /** Strict inequalities between non-negative numbers multiply. */
  lemma StrictProduct(p: int, q: int, r: int, s: int)
    requires 0 <= p < q && 0 <= r < s
    ensures p * r < q * s
  {
    assert p * r <= q * r;
    assert q * r < q * s;
  }

  // ---------------------------------------------------------------------
  // Classification
  // ---------------------------------------------------------------------

  /** Exactly one of timelike, spacelike and lightlike holds for every four-vector. */
  lemma ClassificationExclusive(v: Vec4)
    ensures Timelike(v) || Spacelike(v) || Lightlike(v)
    ensures !(Timelike(v) && Spacelike(v))
    ensures !(Timelike(v) && Lightlike(v))
    ensures !(Spacelike(v) && Lightlike(v))
  {
  }

  /** Scaling by `k` scales the norm by `k^2`. */
  lemma MinkowskiScale(k: int, v: Vec4)
    ensures Minkowski(Scale(k, v)) == k * k * Minkowski(v)
  {
    SquareScale(k, v.t);
    SquareScale(k, v.x);
    SquareScale(k, v.y);
    SquareScale(k, v.z);
  }

  /** Scaling by a non-zero factor, including reversing the direction, keeps the class. */
  lemma ClassificationScaleInvariant(k: int, v: Vec4)
    requires k != 0
    ensures Timelike(Scale(k, v)) <==> Timelike(v)
    ensures Spacelike(Scale(k, v)) <==> Spacelike(v)
    ensures Lightlike(Scale(k, v)) <==> Lightlike(v)
  {
    MinkowskiScale(k, v);
    var kk, m := k * k, Minkowski(v);
    assert kk > 0;
    assert m > 0 ==> kk * m > 0;
    assert m < 0 ==> kk * m < 0;
  }

  // ---------------------------------------------------------------------
  // Inner product
  // ---------------------------------------------------------------------

  /** The inner product is symmetric. */
  lemma MulSymmetric(a: Vec4, b: Vec4)
    ensures Mul(a, b) == Mul(b, a)
  {
  }

  /** The inner product is additive in its left argument. */
  lemma MulAdd(a: Vec4, b: Vec4, c: Vec4)
    ensures Mul(Add(a, b), c) == Mul(a, c) + Mul(b, c)
  {
    assert (a.t + b.t) * c.t == a.t * c.t + b.t * c.t;
    assert (a.x + b.x) * c.x == a.x * c.x + b.x * c.x;
    assert (a.y + b.y) * c.y == a.y * c.y + b.y * c.y;
    assert (a.z + b.z) * c.z == a.z * c.z + b.z * c.z;
  }

  /** The inner product is homogeneous in its left argument. */
  lemma MulScale(k: int, a: Vec4, b: Vec4)
    ensures Mul(Scale(k, a), b) == k * Mul(a, b)
  {
    assert (k * a.t) * b.t == k * (a.t * b.t);
    assert (k * a.x) * b.x == k * (a.x * b.x);
    assert (k * a.y) * b.y == k * (a.y * b.y);
    assert (k * a.z) * b.z == k * (a.z * b.z);
  }

  /**
    Polarization: the inner product is determined by the norm alone,
    `2 (a * b) == |a + b|^2 - |a|^2 - |b|^2`.
  */
  lemma Polarization(a: Vec4, b: Vec4)
    ensures 2 * Mul(a, b) == Minkowski(Add(a, b)) - Minkowski(a) - Minkowski(b)
  {
    var s := Add(a, b);
    MulAdd(a, b, s);
    MulSymmetric(a, s);
    MulSymmetric(b, s);
    MulAdd(a, b, a);
    MulAdd(a, b, b);
    MulSymmetric(a, b);
  }

  /** The inner product is linear in its left argument. */
  lemma MulCombination(j: int, u: Vec4, k: int, v: Vec4, c: Vec4)
    ensures Mul(Add(Scale(j, u), Scale(k, v)), c) == j * Mul(u, c) + k * Mul(v, c)
  {
    MulAdd(Scale(j, u), Scale(k, v), c);
    MulScale(j, u, c);
    MulScale(k, v, c);
  }

  // ---------------------------------------------------------------------
  // Consequences of the classification for the inner product
  // ---------------------------------------------------------------------

  /** A vector orthogonal to a timelike vector is spacelike or lightlike, never timelike. */
  lemma OrthogonalToTimelike(a: Vec4, w: Vec4)
    requires Timelike(a) && Mul(a, w) == 0
    ensures !Timelike(w)
  {
    var s := a.x * w.x + a.y * w.y + a.z * w.z;
    assert a.t * w.t == s;
    SpatialCauchySchwarz(a, w);
    if Timelike(w) {
      Square(a.x); Square(a.y); Square(a.z);
      Square(w.x); Square(w.y); Square(w.z);
      StrictProduct(SpatialSq(a), a.t * a.t, SpatialSq(w), w.t * w.t);
      Regroup(a.t, a.t, w.t, w.t);
      assert false;
    }
  }

  /** The part of `b` orthogonal to `a`, scaled by the norm of `a` to stay integral. */
  function Reject(a: Vec4, b: Vec4): Vec4
  {
    Add(Scale(Minkowski(a), b), Scale(-Mul(a, b), a))
  }

  /** `Reject(a, b)` is orthogonal to `a`. */
  lemma RejectOrthogonal(a: Vec4, b: Vec4)
    ensures Mul(a, Reject(a, b)) == 0
  {
    var A, P := Minkowski(a), Mul(a, b);
    MulCombination(A, b, -P, a, a);
    MulSymmetric(b, a);
    MulSymmetric(Reject(a, b), a);
  }

  /** The norm of `Reject(a, b)` is `|a|^2 (|a|^2 |b|^2 - (a * b)^2)`. */
  lemma RejectNorm(a: Vec4, b: Vec4)
    ensures Minkowski(Reject(a, b))
         == Minkowski(a) * (Minkowski(a) * Minkowski(b) - Mul(a, b) * Mul(a, b))
  {
    var A, B, P, w := Minkowski(a), Minkowski(b), Mul(a, b), Reject(a, b);
    RejectOrthogonal(a, b);
    MulSymmetric(w, a);
    MulCombination(A, b, -P, a, b);
    MulCombination(A, b, -P, a, w);
    MulSymmetric(b, w);
    assert Mul(w, w) == A * (A * B + (-P) * P) + (-P) * 0;
  }

  /**
    The reversed Cauchy-Schwarz inequality: against a timelike vector `a`,
    `(a * b)^2 >= |a|^2 |b|^2` for every `b`.
  */
  lemma ReversedCauchySchwarz(a: Vec4, b: Vec4)
    requires Timelike(a)
    ensures Mul(a, b) * Mul(a, b) >= Minkowski(a) * Minkowski(b)
  {
    RejectOrthogonal(a, b);
    RejectNorm(a, b);
    OrthogonalToTimelike(a, Reject(a, b));
    var d := Minkowski(a) * Minkowski(b) - Mul(a, b) * Mul(a, b);
    assert d > 0 ==> Minkowski(a) * d > 0;
  }

  /** Two timelike vectors are never orthogonal. */
  lemma TimelikeNotOrthogonal(a: Vec4, b: Vec4)
    requires Timelike(a) && Timelike(b)
    ensures Mul(a, b) != 0
  {
    ReversedCauchySchwarz(a, b);
    assert Minkowski(a) * Minkowski(b) > 0;
  }

  // ---------------------------------------------------------------------
  // Rows of the library's tests
  // ---------------------------------------------------------------------

  /** What the tests state about the purely spatial vector `(0, 1, 1, 0)` (test/geometry/test_core.py, lines 65, 78, 91 and 104). */
  lemma RowsOf0110()
    ensures Minkowski(Vec4(0, 1, 1, 0)) == -2
    ensures !Timelike(Vec4(0, 1, 1, 0)) && Spacelike(Vec4(0, 1, 1, 0)) && !Lightlike(Vec4(0, 1, 1, 0))
  {
    var v := Vec4(0, 1, 1, 0);
    assert v.t * v.t == 0 && v.x * v.x == 1 && v.y * v.y == 1 && v.z * v.z == 0;
  }

  /** What the tests state about `(1, 1, 1, 0)` (test/geometry/test_core.py, lines 66, 79 and 92). */
  lemma RowsOf1110()
    ensures Minkowski(Vec4(1, 1, 1, 0)) == -1
    ensures !Timelike(Vec4(1, 1, 1, 0)) && Spacelike(Vec4(1, 1, 1, 0))
  {
    var v := Vec4(1, 1, 1, 0);
    assert v.t * v.t == 1 && v.x * v.x == 1 && v.y * v.y == 1 && v.z * v.z == 0;
  }

  /** What the tests state about `(1, 0, 1, 0)` (test/geometry/test_core.py, lines 67, 80, 93 and 106). */
  lemma RowsOf1010()
    ensures Minkowski(Vec4(1, 0, 1, 0)) == 0
    ensures !Timelike(Vec4(1, 0, 1, 0)) && !Spacelike(Vec4(1, 0, 1, 0)) && Lightlike(Vec4(1, 0, 1, 0))
  {
    var v := Vec4(1, 0, 1, 0);
    assert v.t * v.t == 1 && v.x * v.x == 0 && v.y * v.y == 1 && v.z * v.z == 0;
  }

  /** What the tests state about `(2, 0, 1, 0)` (test/geometry/test_core.py, lines 68, 81, 94 and 107). */
  lemma RowsOf2010()
    ensures Minkowski(Vec4(2, 0, 1, 0)) == 3
    ensures Timelike(Vec4(2, 0, 1, 0)) && !Spacelike(Vec4(2, 0, 1, 0)) && !Lightlike(Vec4(2, 0, 1, 0))
  {
    var v := Vec4(2, 0, 1, 0);
    assert v.t * v.t == 4 && v.x * v.x == 0 && v.y * v.y == 1 && v.z * v.z == 0;
  }

  /** What the tests state about `(2, 2, 0, 0)` (test/geometry/test_core.py, line 105). */
  lemma RowsOf2200()
    ensures Minkowski(Vec4(2, 2, 0, 0)) == 0
    ensures Lightlike(Vec4(2, 2, 0, 0))
  {
    var v := Vec4(2, 2, 0, 0);
    assert v.t * v.t == 4 && v.x * v.x == 4 && v.y * v.y == 0 && v.z * v.z == 0;
  }

  /** `lhs * rhs` rows (test/geometry/test_core.py:117-120). */
  lemma MulTable()
    ensures Mul(Vec4(0, 1, 1, 0), Vec4(0, 1, 1, 0)) == -2
    ensures Mul(Vec4(1, 1, 1, 0), Vec4(0, 1, 1, 0)) == -2
    ensures Mul(Vec4(2, 1, 1, 0), Vec4(1, 1, 1, 0)) == 0
    ensures Mul(Vec4(2, 1, 1, 1), Vec4(2, 1, 1, 0)) == 2
  {
    var a, b, c, d := Vec4(0, 1, 1, 0), Vec4(1, 1, 1, 0), Vec4(2, 1, 1, 0), Vec4(2, 1, 1, 1);
    assert a.t * a.t == 0 && a.x * a.x == 1 && a.y * a.y == 1 && a.z * a.z == 0;
    assert b.t * a.t == 0 && b.x * a.x == 1 && b.y * a.y == 1 && b.z * a.z == 0;
    assert c.t * b.t == 2 && c.x * b.x == 1 && c.y * b.y == 1 && c.z * b.z == 0;
    assert d.t * c.t == 4 && d.x * c.x == 1 && d.y * c.y == 1 && d.z * c.z == 0;
  }
}
