/** The drawing surface of `Utils.Canvas`: an ordered list of child shapes
    (draw order), an optional preview shape that is still being sized by the
    pointer, and the last known cursor position. Pointer events drive a
    create / preview / commit-or-cancel cycle for circles, rectangles and
    polygons, and in edit mode a secondary press recolours the topmost shape
    under the cursor. */
module Canvas {
  import opened Geometry
  import opened PointList
  import opened Wrappers

  /** A fill colour; the canvas only stores and compares colours. */
  type Color(==)

  /** The nodes the canvas creates: a circle, a rectangle that remembers its
      creation point (the pivot), and a polygon with a flat point list. */
  datatype Shape =
    | Circle(centerX: real, centerY: real, radius: real, fill: Color)
    | PivotingRectangle(bounds: Box, pivotX: real, pivotY: real, fill: Color)
    | Polygon(points: seq<real>, fill: Color)
  {
    /** Sizes are never negative and a polygon keeps at least one vertex. */
    predicate WellFormed()
    {
      match this
      case Circle(_, _, radius, _) => 0.0 <= radius
      case PivotingRectangle(b, _, _, _) => 0.0 <= b.width && 0.0 <= b.height
      case Polygon(ps, _) => IsPointList(ps) && 2 <= |ps|
    }
  }

  /** The tool codes the canvas dispatches on. */
  const CircleTool: int := 0
  const RectangleTool: int := 1
  const PolygonTool: int := 2
  const EditTool: int := 3

  /** A polygon closes when a press lands at most this far from its start. */
  const CloseLimit: real := 10.0

  predicate IsCreateTool(tool: int)
  {
    CircleTool <= tool <= PolygonTool
  }

  /** Whether a shape is of the kind the tool creates. */
  predicate KindMatches(tool: int, s: Shape)
  {
    || (tool == CircleTool && s.Circle?)
    || (tool == RectangleTool && s.PivotingRectangle?)
    || (tool == PolygonTool && s.Polygon?)
  }

  /** A preview shape is well formed, and a polygon in preview has its start
      vertex and the vertex that follows the cursor. */
  predicate PreviewShape(s: Shape)
  {
    s.WellFormed() && (s.Polygon? ==> 4 <= |s.points|)
  }

  /** A shape re-sized for the cursor at (x, y): a circle gets the radius
      that reaches the cursor, a rectangle the box from its pivot to the
      cursor, a polygon has its last vertex moved to the cursor. Kind, fill and
      well-formedness are kept. */
  function Previewed(sqrt: real -> real, s: Shape, x: real, y: real): (r: Shape)
    requires IsSqrt(sqrt) && PreviewShape(s)
    ensures PreviewShape(r) && r.fill == s.fill
    ensures r.Circle? == s.Circle? && r.Polygon? == s.Polygon?
  {
    match s
    case Circle(cx, cy, _, fill) => Circle(cx, cy, Distance(sqrt, cx, cy, x, y), fill)
    case PivotingRectangle(_, px, py, fill) => PivotingRectangle(PreviewBox(px, py, x, y), px, py, fill)
    case Polygon(ps, fill) => Polygon(WithLastVertex(ps, x, y), fill)
  }

  /** The index of the last shape (the topmost in draw order) that contains
      (x, y), if any shape does. */
  function TopmostHit(shapes: seq<Shape>, contains: (Shape, real, real) -> bool, x: real, y: real): (r: Option<nat>)
    ensures r.Some? ==> r.value < |shapes| && contains(shapes[r.value], x, y)
    ensures r.Some? ==> forall j :: r.value < j < |shapes| ==> !contains(shapes[j], x, y)
    ensures r.None? <==> forall j :: 0 <= j < |shapes| ==> !contains(shapes[j], x, y)
    decreases |shapes|
  {
    if shapes == [] then None
    else if contains(shapes[|shapes| - 1], x, y) then Some(|shapes| - 1)
    else TopmostHit(shapes[..|shapes| - 1], contains, x, y)
  }

  class Canvas {
    /** The child shapes in draw order. */
    var children: seq<Shape>
    /** `shapePreview`: the shape being sized, if any. */
    var preview: Option<Shape>
    /** The last cursor position, (-1, -1) once the pointer has left. */
    var mouseX: real
    var mouseY: real

    /** Every child is well formed, and the preview, when there is one, is the
        last child: it is always appended and always removed from the end. */
    ghost predicate Valid()
      reads this
    {
      && (forall i :: 0 <= i < |children| ==> children[i].WellFormed())
      && (preview.Some? ==>
            && 0 < |children|
            && children[|children| - 1] == preview.value
            && PreviewShape(preview.value))
    }

    /** An empty canvas; the cursor position is whatever the shared
        coordinates hold. */
    constructor (x: real, y: real)
      ensures Valid() && children == [] && preview == None
      ensures mouseX == x && mouseY == y
    {
      children, preview := [], None;
      mouseX, mouseY := x, y;
    }

    /** `getChildren().add(s)` of a new preview shape. */
    method AddPreview(s: Shape)
      requires Valid() && preview.None? && PreviewShape(s)
      modifies this
      ensures Valid() && preview == Some(s) && children == old(children) + [s]
      ensures mouseX == old(mouseX) && mouseY == old(mouseY)
    {
      preview := Some(s);
      children := children + [s];
    }

    /** Changes the preview shape; it is the last child, so that child changes
        with it. */
    method UpdatePreview(s: Shape)
      requires Valid() && preview.Some? && PreviewShape(s)
      modifies this
      ensures Valid() && preview == Some(s)
      ensures children == old(children)[|old(children)| - 1 := s]
      ensures mouseX == old(mouseX) && mouseY == old(mouseY)
    {
      children := children[|children| - 1 := s];
      preview := Some(s);
    }

    /** `getChildren().removeLast(); shapePreview = null`. */
    method DiscardPreview()
      requires Valid() && preview.Some?
      modifies this
      ensures Valid() && preview == None
      ensures children == old(children)[..|old(children)| - 1]
      ensures mouseX == old(mouseX) && mouseY == old(mouseY)
    {
      children := children[..|children| - 1];
      preview := None;
    }

    /** Pointer moved or dragged to (x, y) with tool `tool` selected. The cursor
        is always recorded. A preview of the tool's kind follows the cursor
        (only the preview, the last child, changes); a preview of another kind
        under a drawing tool is discarded; in every other case nothing else
        changes. */
    method PointerMoved(sqrt: real -> real, tool: int, x: real, y: real)
      requires Valid() && IsSqrt(sqrt)
      modifies this
      ensures Valid() && mouseX == x && mouseY == y
      ensures old(preview).None? || !IsCreateTool(tool) ==>
                children == old(children) && preview == old(preview)
      ensures old(preview).Some? && KindMatches(tool, old(preview).value) ==>
                && preview == Some(Previewed(sqrt, old(preview).value, x, y))
                && children == old(children)[|old(children)| - 1 := preview.value]
      ensures old(preview).Some? && IsCreateTool(tool) && !KindMatches(tool, old(preview).value) ==>
                preview == None && children == old(children)[..|old(children)| - 1]
    {
      mouseX := x;
      mouseY := y;
      if preview.Some? {
        var s := preview.value;
        if tool == CircleTool {
          if s.Circle? {
            UpdatePreview(s.(radius := Distance(sqrt, s.centerX, s.centerY, mouseX, mouseY)));
          } else {
            DiscardPreview();
          }
        } else if tool == RectangleTool {
          if s.PivotingRectangle? {
            UpdatePreview(s.(bounds := PreviewBox(s.pivotX, s.pivotY, x, y)));
          } else {
            DiscardPreview();
          }
        } else if tool == PolygonTool {
          if s.Polygon? {
            var ps := s.points;
            ps := ps[|ps| - 2 := x];
            ps := ps[|ps| - 1 := y];
            UpdatePreview(s.(points := ps));
          } else {
            DiscardPreview();
          }
        }
      }
    }

    /** Pointer left the canvas: the cursor becomes (-1, -1), nothing else
        changes. */
    method PointerExited()
      requires Valid()
      modifies this
      ensures Valid() && mouseX == -1.0 && mouseY == -1.0
      ensures children == old(children) && preview == old(preview)
    {
      mouseX := -1.0;
      mouseY := -1.0;
    }

    /** Primary button pressed at (x, y) with fill colour `fill`.
        Circle and rectangle tools: with no preview, a zero-size shape at the
        press point is appended and becomes the preview; with one, the preview
        is committed (it stays where it is and stops being the preview).
        Polygon tool: with no preview, a polygon with two copies of the press
        point is appended as the preview; with one, a press at most
        `CloseLimit` from the start vertex drops the cursor vertex and commits
        the polygon, any other press appends a vertex. A polygon press while a
        preview of another kind is pending fails on the cast before anything
        changes (`thrown`). The cursor position is not touched. */
    method PrimaryPressed(sqrt: real -> real, tool: int, x: real, y: real, fill: Color)
      returns (thrown: bool)
      requires Valid() && IsSqrt(sqrt)
      modifies this
      ensures Valid() && mouseX == old(mouseX) && mouseY == old(mouseY)
      ensures thrown <==> tool == PolygonTool && old(preview).Some? && !old(preview).value.Polygon?
      ensures thrown || !IsCreateTool(tool) ==>
                children == old(children) && preview == old(preview)
      ensures (tool == CircleTool || tool == RectangleTool) && old(preview).Some? ==>
                children == old(children) && preview == None
      ensures tool == CircleTool && old(preview).None? ==>
                && preview == Some(Circle(x, y, 0.0, fill))
                && children == old(children) + [preview.value]
      ensures tool == RectangleTool && old(preview).None? ==>
                && preview == Some(PivotingRectangle(Box(x, y, 0.0, 0.0), x, y, fill))
                && children == old(children) + [preview.value]
      ensures tool == PolygonTool && old(preview).None? ==>
                && preview == Some(Polygon([x, y, x, y], fill))
                && children == old(children) + [preview.value]
      ensures tool == PolygonTool && old(preview).Some? && old(preview).value.Polygon? ==>
                var ps := old(preview).value.points;
                if SqDist(x, y, ps[0], ps[1]) <= CloseLimit * CloseLimit then
                  && preview == None
                  && children == old(children)[|old(children)| - 1 := old(preview).value.(points := ps[..|ps| - 2])]
                else
                  && preview == Some(old(preview).value.(points := ps + [x, y]))
                  && children == old(children)[|old(children)| - 1 := preview.value]
    {
      thrown := false;
      if tool == CircleTool {
        if preview.None? {
          AddPreview(Circle(x, y, 0.0, fill));
        } else {
          preview := None;
        }
      } else if tool == RectangleTool {
        if preview.None? {
          AddPreview(PivotingRectangle(Box(x, y, 0.0, 0.0), x, y, fill));
        } else {
          preview := None;
        }
      } else if tool == PolygonTool {
        if preview.None? {
          AddPreview(Polygon([x, y, x, y], fill));
        } else if !preview.value.Polygon? {
          thrown := true;
        } else {
          var s := preview.value;
          var ps := s.points;
          WithinIff(sqrt, x, y, ps[0], ps[1], CloseLimit);
          if Distance(sqrt, x, y, ps[0], ps[1]) <= CloseLimit {
            ps := ps[..|ps| - 1];
            ps := ps[..|ps| - 1];
            assert |ps| == |s.points| - 2 && forall k :: 0 <= k < |ps| ==> ps[k] == s.points[k];
            assert ps == s.points[..|s.points| - 2];
            children := children[|children| - 1 := s.(points := ps)];
            preview := None;
          } else {
            UpdatePreview(s.(points := ps + [x, y]));
          }
        }
      }
    }

    /** Secondary button pressed at (x, y) with fill colour `fill`; `contains`
        is the shapes' hit test. Under a drawing tool a pending preview is
        cancelled (removed from the end); without one nothing happens. Under
        the edit tool the children are scanned from the last (topmost) down
        and the first one containing the point, if any, gets the fill colour;
        no other child changes. If that child is the preview, the preview is
        the same shape and shows the new colour too. */
    method SecondaryPressed(tool: int, x: real, y: real, fill: Color, contains: (Shape, real, real) -> bool)
      requires Valid()
      modifies this
      ensures Valid() && mouseX == old(mouseX) && mouseY == old(mouseY)
      ensures IsCreateTool(tool) && old(preview).Some? ==>
                preview == None && children == old(children)[..|old(children)| - 1]
      ensures (IsCreateTool(tool) && old(preview).None?) || !(IsCreateTool(tool) || tool == EditTool) ==>
                children == old(children) && preview == old(preview)
      ensures tool == EditTool ==>
                match TopmostHit(old(children), contains, x, y)
                case None => children == old(children) && preview == old(preview)
                case Some(k) =>
                  && children == old(children)[k := old(children)[k].(fill := fill)]
                  && preview == (if old(preview).Some? && k == |children| - 1 then Some(children[k]) else old(preview))
    {
      if IsCreateTool(tool) {
        if preview.Some? {
          DiscardPreview();
        }
      } else if tool == EditTool {
        var i := |children| - 1;
        while i >= 0
          invariant -1 <= i < |children|
          invariant children == old(children) && preview == old(preview)
          invariant forall j :: i < j < |children| ==> !contains(children[j], x, y)
          decreases i + 1
        {
          if contains(children[i], x, y) {
            Recolour(i, fill);
            return;
          }
          i := i - 1;
        }
      }
    }

    /** `shape.setFill(fill)` on child i; the preview is the last child, so it
        shows the colour when i is the last index. */
    method Recolour(i: nat, fill: Color)
      requires Valid() && i < |children|
      modifies this
      ensures Valid() && mouseX == old(mouseX) && mouseY == old(mouseY)
      ensures children == old(children)[i := old(children)[i].(fill := fill)]
      ensures preview == if old(preview).Some? && i == |children| - 1 then Some(children[i]) else old(preview)
    {
      children := children[i := children[i].(fill := fill)];
      if preview.Some? && i == |children| - 1 {
        preview := Some(children[i]);
      }
    }
  }

  /** Starting a shape with any drawing tool and cancelling it with the
      secondary button leaves the children as they were. */
  method StartThenCancel(c: Canvas, sqrt: real -> real, tool: int, x: real, y: real, fill: Color)
    requires c.Valid() && IsSqrt(sqrt) && IsCreateTool(tool) && c.preview.None?
    modifies c
    ensures c.Valid() && c.children == old(c.children) && c.preview == None
  {
    var thrown := c.PrimaryPressed(sqrt, tool, x, y, fill);
    c.SecondaryPressed(tool, x, y, fill, (s: Shape, px: real, py: real) => false);
  }

  /** Press at (10, 10), move to (13, 14), press again: one committed circle
      of radius 5 centred on the first press. */
  method DrawCircle(sqrt: real -> real, fill: Color) returns (kids: seq<Shape>, pending: Option<Shape>)
    requires IsSqrt(sqrt)
    ensures kids == [Circle(10.0, 10.0, 5.0, fill)] && pending == None
  {
    var c := new Canvas(0.0, 0.0);
    var thrown := c.PrimaryPressed(sqrt, CircleTool, 10.0, 10.0, fill);
    c.PointerMoved(sqrt, CircleTool, 13.0, 14.0);
    RootUnique(Distance(sqrt, 10.0, 10.0, 13.0, 14.0), 5.0);
    thrown := c.PrimaryPressed(sqrt, CircleTool, 13.0, 14.0, fill);
    kids, pending := c.children, c.preview;
  }

  /** Press at (20, 10), drag up and left to the origin, press again: the
      committed rectangle spans the two points with its corner at the origin,
      and still remembers the first press as its pivot. */
  method DrawRectangleBackwards(sqrt: real -> real, fill: Color) returns (kids: seq<Shape>, pending: Option<Shape>)
    requires IsSqrt(sqrt)
    ensures kids == [PivotingRectangle(Box(0.0, 0.0, 20.0, 10.0), 20.0, 10.0, fill)] && pending == None
  {
    var c := new Canvas(0.0, 0.0);
    var thrown := c.PrimaryPressed(sqrt, RectangleTool, 20.0, 10.0, fill);
    c.PointerMoved(sqrt, RectangleTool, 0.0, 0.0);
    thrown := c.PrimaryPressed(sqrt, RectangleTool, 0.0, 0.0, fill);
    kids, pending := c.children, c.preview;
  }

  /** A triangle: press at the origin, then at (30, 0) and (0, 30), each far
      from the start, then near the start at (2, 1). The cursor vertex is
      dropped and the three pressed vertices remain. */
  method DrawTriangle(sqrt: real -> real, fill: Color) returns (kids: seq<Shape>, pending: Option<Shape>)
    requires IsSqrt(sqrt)
    ensures kids == [Polygon([0.0, 0.0, 30.0, 0.0, 0.0, 30.0], fill)] && pending == None
  {
    var c := new Canvas(0.0, 0.0);
    var thrown := c.PrimaryPressed(sqrt, PolygonTool, 0.0, 0.0, fill);
    c.PointerMoved(sqrt, PolygonTool, 30.0, 0.0);
    assert c.preview.value.points == [0.0, 0.0, 30.0, 0.0];
    thrown := c.PrimaryPressed(sqrt, PolygonTool, 30.0, 0.0, fill);
    c.PointerMoved(sqrt, PolygonTool, 0.0, 30.0);
    assert c.preview.value.points == [0.0, 0.0, 30.0, 0.0, 0.0, 30.0];
    thrown := c.PrimaryPressed(sqrt, PolygonTool, 0.0, 30.0, fill);
    c.PointerMoved(sqrt, PolygonTool, 2.0, 1.0);
    assert c.preview.value.points == [0.0, 0.0, 30.0, 0.0, 0.0, 30.0, 2.0, 1.0];
    thrown := c.PrimaryPressed(sqrt, PolygonTool, 2.0, 1.0, fill);
    kids, pending := c.children, c.preview;
  }

  /** A second polygon press close to the start commits a polygon with a
      single vertex. */
  method OneVertexPolygon(sqrt: real -> real, fill: Color) returns (kids: seq<Shape>, pending: Option<Shape>)
    requires IsSqrt(sqrt)
    ensures kids == [Polygon([0.0, 0.0], fill)] && pending == None
  {
    var c := new Canvas(0.0, 0.0);
    var thrown := c.PrimaryPressed(sqrt, PolygonTool, 0.0, 0.0, fill);
    c.PointerMoved(sqrt, PolygonTool, 3.0, 4.0);
    assert c.preview.value.points == [0.0, 0.0, 3.0, 4.0];
    thrown := c.PrimaryPressed(sqrt, PolygonTool, 3.0, 4.0, fill);
    assert [0.0, 0.0, 3.0, 4.0][..2] == [0.0, 0.0];
    kids, pending := c.children, c.preview;
  }

  /** Switching from the circle tool to the polygon tool while a circle is in
      preview: the press fails on the cast and the circle stays in preview. */
  method PolygonPressOverCircle(sqrt: real -> real, fill: Color) returns (thrown: bool, kids: seq<Shape>, pending: Option<Shape>)
    requires IsSqrt(sqrt)
    ensures thrown && kids == [Circle(0.0, 0.0, 0.0, fill)] && pending == Some(kids[0])
  {
    var c := new Canvas(0.0, 0.0);
    thrown := c.PrimaryPressed(sqrt, CircleTool, 0.0, 0.0, fill);
    thrown := c.PrimaryPressed(sqrt, PolygonTool, 5.0, 5.0, fill);
    kids, pending := c.children, c.preview;
  }
}
