/** Geometry shared by the canvas and the shape classes: the Euclidean distance of
    `Utils.distance`, the proximity thresholds built on it, and the pivot-to-cursor
    bounding box that both the canvas and `Rectangle.preview` compute. */
module Geometry {

  function Sq(a: real): real { a * a }

  /** The squared Euclidean distance between (x0, y0) and (x1, y1). */
  function SqDist(x0: real, y0: real, x1: real, y1: real): (s: real)
    ensures 0.0 <= s
  {
    Sq(x0 - x1) + Sq(y0 - y1)
  }

  /** `sqrt` behaves as `Math.sqrt` does over the reals: it returns the
      non-negative square root of every non-negative argument. */
  ghost predicate IsSqrt(sqrt: real -> real)
  {
    forall s :: 0.0 <= s ==> 0.0 <= sqrt(s) && sqrt(s) * sqrt(s) == s
  }

  /** `Utils.distance`: the square root of the sum of the squared coordinate
      differences. The square root routine is a parameter. */
  function Distance(sqrt: real -> real, x0: real, y0: real, x1: real, y1: real): (d: real)
    requires IsSqrt(sqrt)
    ensures 0.0 <= d && d * d == SqDist(x0, y0, x1, y1)
  {
    sqrt(Sq(x0 - x1) + Sq(y0 - y1))
  }

  /** Two non-negative reals with the same square are equal. */
  lemma RootUnique(a: real, b: real)
    requires 0.0 <= a && 0.0 <= b && a * a == b * b
    ensures a == b
  {
    assert (a - b) * (a + b) == a * a - b * b;
    if a + b == 0.0 {
    } else {
      assert a - b == 0.0;
    }
  }

  /** Squaring is strictly increasing on the non-negative reals. */
  lemma SquareLess(a: real, b: real)
    requires 0.0 <= a < b
    ensures a * a < b * b
  {
    var aa, ab, bb := a * a, a * b, b * b;
    assert aa <= ab by { assert ab - aa == a * (b - a); }
    assert ab < bb by { assert bb - ab == b * (b - a); assert 0.0 < b * (b - a); }
  }

  /** Comparing two non-negative reals is comparing their squares. */
  lemma SquareMonotone(a: real, b: real)
    requires 0.0 <= a && 0.0 <= b
    ensures a <= b <==> a * a <= b * b
    ensures a < b <==> a * a < b * b
  {
    if a < b {
      SquareLess(a, b);
    } else if b < a {
      SquareLess(b, a);
    }
  }

  lemma SquareZero(a: real)
    requires Sq(a) <= 0.0
    ensures a == 0.0
  {
    if 0.0 < a {
      SquareMonotone(0.0, a);
    } else if a < 0.0 {
      SquareMonotone(0.0, -a);
    }
  }

  lemma DistanceSymmetric(sqrt: real -> real, x0: real, y0: real, x1: real, y1: real)
    requires IsSqrt(sqrt)
    ensures Distance(sqrt, x0, y0, x1, y1) == Distance(sqrt, x1, y1, x0, y0)
  {
    assert Sq(x0 - x1) == Sq(x1 - x0);
    assert Sq(y0 - y1) == Sq(y1 - y0);
  }

  /** The distance is zero exactly when the two points coincide. */
  lemma DistanceZeroIff(sqrt: real -> real, x0: real, y0: real, x1: real, y1: real)
    requires IsSqrt(sqrt)
    ensures Distance(sqrt, x0, y0, x1, y1) == 0.0 <==> x0 == x1 && y0 == y1
  {
    var d := Distance(sqrt, x0, y0, x1, y1);
    if d == 0.0 {
      assert SqDist(x0, y0, x1, y1) == 0.0;
      assert 0.0 <= Sq(x0 - x1) && 0.0 <= Sq(y0 - y1);
      SquareZero(x0 - x1);
      SquareZero(y0 - y1);
    }
    if x0 == x1 && y0 == y1 {
      assert d * d == 0.0 * 0.0;
      RootUnique(d, 0.0);
    }
  }

  /** The canvas closes a polygon when the distance to its first vertex is at
      most `limit`; this is the same as comparing squared distances. */
  lemma WithinIff(sqrt: real -> real, x0: real, y0: real, x1: real, y1: real, limit: real)
    requires IsSqrt(sqrt) && 0.0 <= limit
    ensures Distance(sqrt, x0, y0, x1, y1) <= limit <==> SqDist(x0, y0, x1, y1) <= limit * limit
    ensures Distance(sqrt, x0, y0, x1, y1) < limit <==> SqDist(x0, y0, x1, y1) < limit * limit
  {
    SquareMonotone(Distance(sqrt, x0, y0, x1, y1), limit);
  }

  function Min(a: real, b: real): real { if a <= b then a else b }

  function Max(a: real, b: real): real { if a >= b then a else b }

  function Abs(a: real): real { if a < 0.0 then -a else a }

  /** An axis-aligned rectangle: its top-left corner, width and height. */
  datatype Box = Box(x: real, y: real, width: real, height: real)

  /** The box spanned by the fixed pivot and the cursor, computed as the
      rectangle preview does it: the corner first, then the extents measured
      from the larger of the new corner and the pivot. Its two vertical edges
      are exactly the pivot's and the cursor's abscissas, and likewise for the
      horizontal edges. */
  function PreviewBox(pivotX: real, pivotY: real, cx: real, cy: real): (b: Box)
    ensures 0.0 <= b.width && {b.x, b.x + b.width} == {pivotX, cx}
    ensures 0.0 <= b.height && {b.y, b.y + b.height} == {pivotY, cy}
  {
    var x := Min(pivotX, cx);
    var y := Min(pivotY, cy);
    Box(x, y, Abs(cx - Max(x, pivotX)), Abs(cy - Max(y, pivotY)))
  }
}
