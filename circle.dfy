/** The circle shape of `Circle.java`: movable, resizable and previewable
    (it is deliberately not rotatable). */
module CircleShape {
  import opened Geometry

  class Circle {
    var centerX: real
    var centerY: real
    var radius: real

    /** A circle of radius zero centred on the press point. */
    constructor (x: real, y: real)
      ensures centerX == x && centerY == y && radius == 0.0
    {
      centerX, centerY, radius := x, y, 0.0;
    }

    /** The centre goes to the target; the radius stays. */
    method Move(x: real, y: real)
      modifies this
      ensures centerX == x && centerY == y && radius == old(radius)
    {
      centerX := x;
      centerY := y;
    }

    /** The radius grows by a tenth of the amount (shrinks when it is
        negative); there is no clamping at zero. */
    method Resize(amount: real)
      modifies this
      ensures radius == old(radius) + amount * 0.1
      ensures centerX == old(centerX) && centerY == old(centerY)
    {
      radius := radius + amount * 0.1;
    }

    /** The circle through the cursor: the radius becomes the distance from
        the unchanged centre to (x, y), whatever it was before. */
    method Preview(sqrt: real -> real, x: real, y: real)
      requires IsSqrt(sqrt)
      modifies this
      ensures radius == Distance(sqrt, centerX, centerY, x, y)
      ensures centerX == old(centerX) && centerY == old(centerY)
    {
      radius := Distance(sqrt, centerX, centerY, x, y);
    }
  }

  /** Resizing by an amount and then by its opposite restores the circle. */
  method ResizeRoundTrip(c: Circle, amount: real)
    modifies c
    ensures c.radius == old(c.radius)
    ensures c.centerX == old(c.centerX) && c.centerY == old(c.centerY)
  {
    c.Resize(amount);
    c.Resize(-amount);
  }

  /** Previewing at the centre collapses the circle to radius zero. */
  method PreviewAtCentre(c: Circle, sqrt: real -> real)
    requires IsSqrt(sqrt)
    modifies c
    ensures c.radius == 0.0
    ensures c.centerX == old(c.centerX) && c.centerY == old(c.centerY)
  {
    c.Preview(sqrt, c.centerX, c.centerY);
    DistanceZeroIff(sqrt, c.centerX, c.centerY, c.centerX, c.centerY);
  }

  /** Previewing twice at the same point is the same as previewing once: the
      radius depends only on the centre and the cursor. */
  method PreviewTwice(c: Circle, sqrt: real -> real, x: real, y: real) returns (once: real, twice: real)
    requires IsSqrt(sqrt)
    modifies c
    ensures once == twice && twice == c.radius
    ensures c.centerX == old(c.centerX) && c.centerY == old(c.centerY)
  {
    c.Preview(sqrt, x, y);
    once := c.radius;
    c.Preview(sqrt, x, y);
    twice := c.radius;
  }
}
