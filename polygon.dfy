/** The polygon shape of `Polygon.java`: a flat point list whose last vertex
    follows the cursor while the polygon is being drawn, and a centre that
    `Finish` sets to the centroid of the vertices. */
module PolygonShape {
  import opened Geometry
  import opened PointList

  /** The fixed proximity radius for closing a polygon. */
  const NearLimit: real := 10.0

  class Polygon {
    var points: seq<real>
    var centerX: real
    var centerY: real

    ghost predicate Valid()
      reads this
    {
      IsPointList(points)
    }

    /** Two copies of the press point: the start vertex and the vertex that
        follows the cursor. The centre starts at the origin. */
    constructor (x: real, y: real)
      ensures Valid() && points == [x, y, x, y]
      ensures centerX == 0.0 && centerY == 0.0
    {
      points := [x, y, x, y];
      centerX, centerY := 0.0, 0.0;
    }

    /** Shifts every vertex by the offset from the current centre to (x, y),
        which becomes the centre. */
    method Move(x: real, y: real)
      requires Valid()
      modifies this
      ensures Valid()
      ensures points == Translated(old(points), x - old(centerX), y - old(centerY))
      ensures centerX == x && centerY == y
    {
      var dx := x - centerX;
      var dy := y - centerY;
      centerX := centerX + dx;
      centerY := centerY + dy;
      var i := 0;
      while i < |points|
        invariant 0 <= i <= |points| == |old(points)| && i % 2 == 0
        invariant forall k :: 0 <= k < i && k % 2 == 0 ==> points[k] == old(points)[k] + dx
        invariant forall k :: 0 <= k < i && k % 2 == 1 ==> points[k] == old(points)[k] + dy
        invariant points[i..] == old(points)[i..]
        invariant centerX == x && centerY == y
      {
        points := points[i := points[i] + dx];
        points := points[i + 1 := points[i + 1] + dy];
        i := i + 2;
      }
      var moved := Translated(old(points), dx, dy);
      forall k | 0 <= k < |points|
        ensures points[k] == moved[k]
      {
        if k % 2 == 0 {
        } else {
        }
      }
    }

    /** Resizing a polygon does nothing. */
    method Resize(amount: real)
      ensures points == old(points)
      ensures centerX == old(centerX) && centerY == old(centerY)
    {
    }

    /** The last vertex goes to (x, y); every other vertex and the centre
        stay. */
    method Preview(x: real, y: real)
      requires Valid() && 2 <= |points|
      modifies this
      ensures Valid() && points == WithLastVertex(old(points), x, y)
      ensures centerX == old(centerX) && centerY == old(centerY)
    {
      points := points[|points| - 2 := x];
      points := points[|points| - 1 := y];
    }

    /** Whether (x, y) lies strictly within `NearLimit` of the start vertex. */
    function IsNearStartPoint(sqrt: real -> real, x: real, y: real): (near: bool)
      reads this
      requires IsSqrt(sqrt) && 2 <= |points|
      ensures near <==> SqDist(x, y, points[0], points[1]) < NearLimit * NearLimit
    {
      WithinIff(sqrt, x, y, points[0], points[1], NearLimit);
      Distance(sqrt, x, y, points[0], points[1]) < NearLimit
    }

    /** Drops the trailing (cursor) vertex, adds every remaining vertex to
        the centre and divides by the number of vertices. From the initial
        centre at the origin this is the centroid of the remaining vertices. */
    method Finish()
      requires Valid() && 4 <= |points|
      modifies this
      ensures Valid() && points == old(points)[..|old(points)| - 2]
      ensures centerX == (old(centerX) + SumX(points)) / VertexCount(points) as real
      ensures centerY == (old(centerY) + SumY(points)) / VertexCount(points) as real
      ensures old(centerX) == 0.0 && old(centerY) == 0.0 ==>
                centerX == MeanX(points) && centerY == MeanY(points)
    {
      points := points[..|points| - 1];
      points := points[..|points| - 1];
      var i := 0;
      while i < |points|
        invariant points == old(points)[..|old(points)| - 2]
        invariant 0 <= i <= |points| && i % 2 == 0
        invariant centerX == old(centerX) + SumX(points[..i])
        invariant centerY == old(centerY) + SumY(points[..i])
      {
        SumsExtend(points, i);
        centerX := centerX + points[i];
        centerY := centerY + points[i + 1];
        i := i + 2;
      }
      assert points[..i] == points;
      HalfCount(centerX, |points|);
      HalfCount(centerY, |points|);
      centerX := centerX / |points| as real * 2.0;
      centerY := centerY / |points| as real * 2.0;
    }
  }

  /** A finished polygon whose centre is its centroid keeps it so under
      every move: the vertices are shifted by exactly the offset the centre
      moves by. */
  method MoveKeepsCentroid(p: Polygon, x: real, y: real)
    requires p.Valid() && 2 <= |p.points|
    requires p.centerX == MeanX(p.points) && p.centerY == MeanY(p.points)
    modifies p
    ensures p.Valid() && 2 <= |p.points| && p.centerX == x && p.centerY == y
    ensures p.centerX == MeanX(p.points) && p.centerY == MeanY(p.points)
  {
    ghost var before := p.points;
    ghost var dx, dy := x - p.centerX, y - p.centerY;
    p.Move(x, y);
    MeanXTranslated(before, dx, dy);
    MeanYTranslated(before, dx, dy);
  }

  /** Dividing by the length of a point list and doubling is dividing by its
      number of vertices. */
  lemma HalfCount(c: real, len: nat)
    requires 0 < len && len % 2 == 0
    ensures c / len as real * 2.0 == c / (len / 2) as real
  {
    var h: real := (len / 2) as real;
    assert len as real == 2.0 * h;
  }
}
