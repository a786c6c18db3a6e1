# supervision geometry core, in Dafny

This project models the geometric value types of `supervision.geometry.core`
and proves properties about them.

- **`Point`** and **`Vector`** (module `Geometry`, file `geometry.dfy`):
  - a `Vector` is a directed segment from `start` to `end`;
  - `Vector.cross_product(point)` is the scalar cross product of `end - start`
    with `point - start`, and its sign tells on which side of the segment's
    line the point lies;
  - `Vector.magnitude` is the segment's Euclidean length.
- **`Vec4`** (module `FourVector`, file `four_vector.dfy`) is an event `(t, x, y, z)`
  in a (1+3)-dimensional space with a Minkowski metric:
  - `minkowski` is its squared norm;
  - `timelike`, `spacelike` and `lightlike` classify a vector by the sign of
    that norm;
  - `lhs * rhs` is the Minkowski inner product.

Coordinates are integers, the way every case in the library's tests writes
them, and arithmetic is exact. The library's floating-point magnitude, a square
root, is modelled as a relation: `IsMagnitude(v, m)` holds when `m` is the
non-negative real whose square is the squared length.

The tests fix the metric signature (+, −, −, −). The norm values tell it
apart from the opposite convention (−, +, +, +), which would flip their signs:
- `Vec4(t=0, x=1, y=1, z=0).minkowski == -2` (`test/geometry/test_core.py:65`);
- `Vec4(t=1, x=1, y=1, z=0).minkowski == -1` (`:66`);
- `Vec4(t=2, x=0, y=1, z=0).minkowski == 3` (`:68`).

With the signature fixed, the classification rows fix the thresholds.
`(2, 0, 1, 0)` with norm 3 is timelike (`:81`), so timelike means norm > 0.
`(0, 1, 1, 0)` with norm −2 is spacelike (`:91`), so spacelike means norm < 0.

The inner-product row `Vec4(0,1,1,0) * Vec4(0,1,1,0) == -2` (`:117`) agrees
with this, but only as intent: that test returns the comparison instead of
asserting it. The model uses the norm `t² − x² − y² − z²`. A vector is
timelike when the norm is positive and spacelike when it is negative, and
the inner product is `t·t' − x·x' − y·y' − z·z'`.

## Model

| member | source | states |
|---|---|---|
| Geometry.CrossProduct | test/geometry/test_core.py:29-33 | the cross product is zero when the point is the start point and when the segment is degenerate |
| Geometry.CrossProductSign | test/geometry/test_core.py:9-26 | for a non-degenerate segment, the cross product is positive exactly for points left of the direction of travel, negative exactly right of it, and zero exactly on its line (sides given by frame coordinates) |
| Geometry.CrossProductZeroIffCollinear | test/geometry/test_core.py:10-25 | for a non-degenerate segment, the cross product is zero if and only if `point - start` is a rational multiple of `end - start` (the start point, points between the ends, points beyond either end) |
| Geometry.CrossProductScaled | test/geometry/test_core.py:9-26 | a point `b/k` segment-lengths to the left of the line has cross product `b/k` times the squared length |
| Geometry.FrameCoordinates | test/geometry/test_core.py:9-26 | every point, seen from a non-degenerate segment, has coordinates along and left of the direction of travel; these are the dot product and the cross product, scaled by the squared length |
| Geometry.CrossProductReversal | test/geometry/test_core.py:9-26 | swapping start and end negates the cross product for every point, as each reversed row of the table shows |
| Geometry.CrossProductTranslation | test/geometry/test_core.py:21-26 | moving the segment and the point together leaves the cross product unchanged (a consequence of the formula, not stated by the tests) |
| Geometry.CrossProductBound | test/geometry/test_core.py:9-26 | the square of the cross product is at most the product of the squared lengths of `end - start` and `point - start` (a consequence of the formula, not stated by the tests) |
| Geometry.CrossProductTableDiagonal | test/geometry/test_core.py:9-14 | the six rows of the diagonal segment `(0,0)-(5,5)` and its reverse: 10, 0, 15, −10, 0, −15 |
| Geometry.CrossProductTableHorizontal | test/geometry/test_core.py:15-20 | the six rows of the unit segment `(0,0)-(1,0)` and its reverse: 0, −1, 1, 0, 1, −1 |
| Geometry.CrossProductTableVertical | test/geometry/test_core.py:21-26 | the six rows of the segment `(1,1)-(1,3)` and its reverse: 2, 0, −2, −2, 0, 2 |
| Geometry.SqMagnitude | test/geometry/test_core.py:39-59 | the squared length is never negative, and it is zero if and only if start equals end |
| Geometry.IsMagnitude | test/geometry/test_core.py:39-59 | `m` is the magnitude of a segment when it is the non-negative real whose square is `SqMagnitude`; a magnitude is zero if and only if start equals end (row 39 against rows 40-54) |
| Geometry.MagnitudeUnique | test/geometry/test_core.py:57-59 | a segment has at most one magnitude, so `magnitude` is a function of the segment |
| Geometry.MagnitudeSymmetry | test/geometry/test_core.py:40-54 | sign flips of the components, swapping the axes and moving the segment keep the squared length and the magnitude |
| Geometry.MagnitudeReversal | test/geometry/test_core.py:40-54 | reversing a segment keeps its magnitude (rows 40/42, 41/43, 48/53, 52/54) |
| Geometry.MagnitudeTable | test/geometry/test_core.py:39-54 | the sixteen rows: magnitude 0 for the degenerate segment, 1 for the unit segments, 5 for the 3-4 segments |
| FourVector.Minkowski | test/geometry/test_core.py:62-72 | the norm is never positive for a purely spatial vector and never negative for a vector with no spatial part |
| FourVector.ClassificationExclusive | test/geometry/test_core.py:75-111 | every four-vector is exactly one of timelike, spacelike and lightlike |
| FourVector.Timelike | test/geometry/test_core.py:84-85 | timelike: the norm is positive, i.e. `t²` exceeds the squared spatial length |
| FourVector.Spacelike | test/geometry/test_core.py:97-98 | spacelike: the norm is negative, i.e. `t²` is less than the squared spatial length |
| FourVector.Lightlike | test/geometry/test_core.py:110-111 | lightlike: the norm is zero, i.e. `t²` equals the squared spatial length |
| FourVector.MinkowskiScale | test/geometry/test_core.py:62-72 | scaling a vector by `k` scales its norm by `k²` |
| FourVector.ClassificationScaleInvariant | test/geometry/test_core.py:75-111 | scaling by a non-zero factor, including negation, keeps the class |
| FourVector.RowsOf0110 | test/geometry/test_core.py:65-104 | `(0,1,1,0)`: norm −2, spacelike, not timelike, not lightlike |
| FourVector.RowsOf1110 | test/geometry/test_core.py:66-92 | `(1,1,1,0)`: norm −1, spacelike, not timelike |
| FourVector.RowsOf1010 | test/geometry/test_core.py:67-106 | `(1,0,1,0)`: norm 0, lightlike, neither timelike nor spacelike |
| FourVector.RowsOf2010 | test/geometry/test_core.py:68-107 | `(2,0,1,0)`: norm 3, timelike, neither spacelike nor lightlike |
| FourVector.RowsOf2200 | test/geometry/test_core.py:105 | `(2,2,0,0)`: norm 0, lightlike |
| FourVector.Mul | test/geometry/test_core.py:117 | a vector multiplied by itself gives its Minkowski norm |
| FourVector.MulSymmetric | test/geometry/test_core.py:114-126 | the inner product is symmetric |
| FourVector.MulAdd | test/geometry/test_core.py:114-126 | the inner product is additive in its left argument |
| FourVector.MulScale | test/geometry/test_core.py:114-126 | the inner product is homogeneous in its left argument |
| FourVector.MulCombination | test/geometry/test_core.py:114-126 | the inner product is linear in its left argument |
| FourVector.Polarization | test/geometry/test_core.py:62-126 | the inner product is determined by the norm: `2(a·b) == |a+b|² − |a|² − |b|²` (a consequence of the formula, not stated by the tests) |
| FourVector.OrthogonalToTimelike | test/geometry/test_core.py:75-126 | a vector whose inner product with a timelike vector is zero is not timelike (a consequence of the formula, not stated by the tests) |
| FourVector.RejectOrthogonal | test/geometry/test_core.py:114-126 | `|a|² b − (a·b) a` is orthogonal to `a` (a consequence of the formula, not stated by the tests) |
| FourVector.RejectNorm | test/geometry/test_core.py:62-126 | the norm of `|a|² b − (a·b) a` is `|a|² (|a|²|b|² − (a·b)²)` (a consequence of the formula, not stated by the tests) |
| FourVector.ReversedCauchySchwarz | test/geometry/test_core.py:75-126 | for a timelike `a` and any `b`, `(a·b)² >= |a|² |b|²` (a consequence of the formula, not stated by the tests) |
| FourVector.TimelikeNotOrthogonal | test/geometry/test_core.py:75-126 | two timelike vectors never have a zero inner product (a consequence of the formula, not stated by the tests) |
| FourVector.MulTable | test/geometry/test_core.py:117-120 | the four inner-product rows: −2, −2, 0, 2 |

## Left out

- The library's implementation file, `supervision/geometry/core.py`, is not part of this model. Its behaviour is reconstructed from the test file `test/geometry/test_core.py`.
- Floating point is not modelled: coordinates are unbounded integers and arithmetic is exact, so rounding, NaN, infinities and overflow do not arise.
- Geometry.CrossProduct and FourVector.Minkowski: non-integer coordinates are not modelled. The library accepts any float; every test case uses whole numbers.
- Geometry.IsMagnitude: `magnitude` is a floating-point square root. The model states which real number is the magnitude (`MagnitudeUnique`, `MagnitudeTable`) but does not compute it, because Dafny has no real square root.
- The inner-product test at `test/geometry/test_core.py:123-126` returns the comparison instead of asserting it, so the test never checks the value. `FourVector.MulTable` states the four rows as evidently intended, and they hold under the (+, −, −, −) signature.
- The rest of the `supervision` library (detection, annotation, tracking) is outside this core.
- The pytest parametrization machinery is test scaffolding and is not modelled.
