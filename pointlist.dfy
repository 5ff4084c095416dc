/** Flat point lists `x0, y0, x1, y1, ...`, the representation a polygon keeps
    its vertices in, and the operations the polygon code performs on them. */
module PointList {

  /** Every abscissa is followed by its ordinate. */
  predicate IsPointList(ps: seq<real>)
  {
    |ps| % 2 == 0
  }

  function VertexCount(ps: seq<real>): nat
  {
    |ps| / 2
  }

  /** The list with its last vertex overwritten by (x, y): what a polygon
      preview does with the cursor. */
  function WithLastVertex(ps: seq<real>, x: real, y: real): (r: seq<real>)
    requires 2 <= |ps|
    ensures |r| == |ps| && r[..|ps| - 2] == ps[..|ps| - 2]
    ensures r[|r| - 2] == x && r[|r| - 1] == y
  {
    ps[|ps| - 2 := x][|ps| - 1 := y]
  }

  /** Every vertex shifted by (dx, dy), one vertex at a time. */
  function Translated(ps: seq<real>, dx: real, dy: real): (r: seq<real>)
    requires IsPointList(ps)
    ensures |r| == |ps| && IsPointList(r)
    ensures forall k :: 0 <= k < |ps| && k % 2 == 0 ==> r[k] == ps[k] + dx
    ensures forall k :: 0 <= k < |ps| && k % 2 == 1 ==> r[k] == ps[k] + dy
    decreases |ps|
  {
    if ps == [] then []
    else Translated(ps[..|ps| - 2], dx, dy) + [ps[|ps| - 2] + dx, ps[|ps| - 1] + dy]
  }

  /** Translating back by the opposite offset restores the list. */
  lemma TranslatedInverse(ps: seq<real>, dx: real, dy: real)
    requires IsPointList(ps)
    ensures Translated(Translated(ps, dx, dy), -dx, -dy) == ps
  {
    var back := Translated(Translated(ps, dx, dy), -dx, -dy);
    forall k | 0 <= k < |ps|
      ensures back[k] == ps[k]
    {
      if k % 2 == 0 {
      } else {
      }
    }
  }

  /** The sum of the abscissas of all vertices. */
  function SumX(ps: seq<real>): real
    requires IsPointList(ps)
    decreases |ps|
  {
    if ps == [] then 0.0 else SumX(ps[..|ps| - 2]) + ps[|ps| - 2]
  }

  /** The sum of the ordinates of all vertices. */
  function SumY(ps: seq<real>): real
    requires IsPointList(ps)
    decreases |ps|
  {
    if ps == [] then 0.0 else SumY(ps[..|ps| - 2]) + ps[|ps| - 1]
  }

  /** Extending a prefix by one vertex adds that vertex to both sums: the step
      of a loop that accumulates the sums front to back. */
  lemma SumsExtend(ps: seq<real>, i: nat)
    requires IsPointList(ps) && i % 2 == 0 && i + 2 <= |ps|
    ensures SumX(ps[..i + 2]) == SumX(ps[..i]) + ps[i]
    ensures SumY(ps[..i + 2]) == SumY(ps[..i]) + ps[i + 1]
  {
    assert ps[..i + 2][..i] == ps[..i];
  }

  /** The centroid's abscissa: the arithmetic mean of the vertices' abscissas. */
  function MeanX(ps: seq<real>): real
    requires IsPointList(ps) && 0 < VertexCount(ps)
  {
    SumX(ps) / VertexCount(ps) as real
  }

  /** The centroid's ordinate: the arithmetic mean of the vertices' ordinates. */
  function MeanY(ps: seq<real>): real
    requires IsPointList(ps) && 0 < VertexCount(ps)
  {
    SumY(ps) / VertexCount(ps) as real
  }

  /** n copies of d added up. */
  function Repeat(n: nat, d: real): real
  {
    if n == 0 then 0.0 else Repeat(n - 1, d) + d
  }

  lemma {:induction false} RepeatIsProduct(n: nat, d: real)
    ensures Repeat(n, d) == n as real * d
  {
    if n > 0 {
      RepeatIsProduct(n - 1, d);
      assert n as real * d == (n - 1) as real * d + d;
    }
  }

  /** Translation of a non-empty list is the translation of all but its last
      vertex, followed by the translated last vertex. */
  lemma TranslatedStep(ps: seq<real>, dx: real, dy: real)
    requires IsPointList(ps) && ps != []
    ensures Translated(ps, dx, dy)[..|ps| - 2] == Translated(ps[..|ps| - 2], dx, dy)
    ensures Translated(ps, dx, dy)[|ps| - 2] == ps[|ps| - 2] + dx
    ensures Translated(ps, dx, dy)[|ps| - 1] == ps[|ps| - 1] + dy
  {
    var ti := Translated(ps[..|ps| - 2], dx, dy);
    assert (ti + [ps[|ps| - 2] + dx, ps[|ps| - 1] + dy])[..|ti|] == ti;
  }

  /** Translating every vertex adds one offset per vertex to the sum of the
      abscissas. */
  lemma {:induction false} SumXTranslated(ps: seq<real>, dx: real, dy: real)
    requires IsPointList(ps)
    ensures SumX(Translated(ps, dx, dy)) == SumX(ps) + Repeat(VertexCount(ps), dx)
    decreases |ps|
  {
    if ps != [] {
      TranslatedStep(ps, dx, dy);
      SumXTranslated(ps[..|ps| - 2], dx, dy);
    }
  }

  /** Translating every vertex adds one offset per vertex to the sum of the
      ordinates. */
  lemma {:induction false} SumYTranslated(ps: seq<real>, dx: real, dy: real)
    requires IsPointList(ps)
    ensures SumY(Translated(ps, dx, dy)) == SumY(ps) + Repeat(VertexCount(ps), dy)
    decreases |ps|
  {
    if ps != [] {
      TranslatedStep(ps, dx, dy);
      SumYTranslated(ps[..|ps| - 2], dx, dy);
    }
  }

  /** Adding n offsets to a sum of n terms adds one offset to their mean. */
  lemma MeanShift(sum: real, n: nat, d: real)
    requires 0 < n
    ensures (sum + Repeat(n, d)) / n as real == sum / n as real + d
  {
    RepeatIsProduct(n, d);
    var r: real := n as real;
    assert (sum / r + d) * r == sum + r * d;
  }

  /** The centroid moves with the polygon: translating the vertices by
      (dx, dy) moves the mean abscissa by dx ... */
  lemma MeanXTranslated(ps: seq<real>, dx: real, dy: real)
    requires IsPointList(ps) && 0 < VertexCount(ps)
    ensures MeanX(Translated(ps, dx, dy)) == MeanX(ps) + dx
  {
    SumXTranslated(ps, dx, dy);
    MeanShift(SumX(ps), VertexCount(ps), dx);
  }

  /** ... and the mean ordinate by dy. */
  lemma MeanYTranslated(ps: seq<real>, dx: real, dy: real)
    requires IsPointList(ps) && 0 < VertexCount(ps)
    ensures MeanY(Translated(ps, dx, dy)) == MeanY(ps) + dy
  {
    SumYTranslated(ps, dx, dy);
    MeanShift(SumY(ps), VertexCount(ps), dy);
  }

  /** A single vertex is its own centroid. */
  lemma MeanOfOneVertex(x: real, y: real)
    ensures MeanX([x, y]) == x && MeanY([x, y]) == y
  {
    assert [x, y][..0] == [];
    assert SumX([x, y]) == x && SumY([x, y]) == y;
    assert VertexCount([x, y]) == 1;
  }
}
