/** The rectangle shape of `Rectangle.java`: it remembers the point it was
    created at (the pivot) and previews the box from that pivot to the cursor. */
module RectangleShape {
  import opened Geometry

  class Rectangle {
    var x: real
    var y: real
    var width: real
    var height: real
    /** The rotation reference point; nothing but `Move` sets it. */
    var centerX: real
    var centerY: real
    /** The creation point, fixed for the life of the rectangle. */
    const pivotX: real
    const pivotY: real

    /** The bounds as a box. */
    function Bounds(): Box
      reads this
    {
      Box(x, y, width, height)
    }

    /** An empty rectangle whose corner and pivot are the press point; the
        rotation reference starts at the origin. */
    constructor (x0: real, y0: real)
      ensures Bounds() == Box(x0, y0, 0.0, 0.0)
      ensures pivotX == x0 && pivotY == y0
      ensures centerX == 0.0 && centerY == 0.0
    {
      x, y, width, height := x0, y0, 0.0, 0.0;
      pivotX, pivotY := x0, y0;
      centerX, centerY := 0.0, 0.0;
    }

    /** Moves the rectangle so that its centre lands on (tx, ty), keeping its
        size, and records (tx, ty) as the rotation reference. */
    method Move(tx: real, ty: real)
      modifies this
      ensures x + width / 2.0 == tx && y + height / 2.0 == ty
      ensures width == old(width) && height == old(height)
      ensures centerX == tx && centerY == ty
    {
      x := tx - width / 2.0;
      y := ty - height / 2.0;
      centerX := tx;
      centerY := ty;
    }

    /** Grows both sides by a tenth of the amount and shifts the corner by half
        of that, so the centre of the box does not move. Nothing is clamped:
        a large negative amount makes the sides negative. */
    method Resize(amount: real)
      modifies this
      ensures width == old(width) + amount * 0.1 && height == old(height) + amount * 0.1
      ensures x + width / 2.0 == old(x + width / 2.0)
      ensures y + height / 2.0 == old(y + height / 2.0)
      ensures centerX == old(centerX) && centerY == old(centerY)
    {
      width := width + amount * 0.1;
      height := height + amount * 0.1;
      x := x - amount * 0.05;
      y := y - amount * 0.05;
    }

    /** The bounds become the box spanned by the pivot and (px, py); they
        depend on nothing else, so previewing again at the same point changes
        nothing. The rotation reference is left alone. */
    method Preview(px: real, py: real)
      modifies this
      ensures Bounds() == PreviewBox(pivotX, pivotY, px, py)
      ensures centerX == old(centerX) && centerY == old(centerY)
    {
      x := Min(pivotX, px);
      y := Min(pivotY, py);
      width := Abs(px - Max(x, pivotX));
      height := Abs(py - Max(y, pivotY));
    }
  }
}
