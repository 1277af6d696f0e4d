/**
 * A mutable two-dimensional point whose coordinates are either
 * (longitude, latitude) in radians or (easting, northing) in a length
 * unit, according to the caller. Doubles are modelled as reals.
 */
module Points {

  class DPoint {
    var x: real
    var y: real

    /** A point with exactly the given coordinates. */
    constructor (x0: real, y0: real)
      ensures x == x0 && y == y0
    {
      x := x0;
      y := y0;
    }

    /** The default point is the origin. */
    constructor Origin()
      ensures x == 0.0 && y == 0.0
    {
      x := 0.0;
      y := 0.0;
    }

    function GetX(): real
      reads this
    {
      x
    }

    function GetY(): real
      reads this
    {
      y
    }

    /** The vector from p to this point, as a new point; neither operand changes. */
    method OffsetFrom(p: DPoint) returns (d: DPoint)
      ensures fresh(d)
      ensures d.x == x - p.x && d.y == y - p.y
      ensures d != this && d != p
    {
      d := new DPoint(x - p.GetX(), y - p.GetY());
    }

    /** The square of the distance to p, the quantity whose square root distanceFrom returns. */
    function SquaredDistanceFrom(p: DPoint): (d2: real)
      reads this, p
      ensures d2 >= 0.0
      ensures x == p.x && y == p.y ==> d2 == 0.0
    {
      SquaredLength(x - p.GetX(), y - p.GetY())
    }

    /** Multiplies both coordinates by r, in place. */
    method ScaleBy(r: real)
      modifies this
      ensures x == old(x) * r && y == old(y) * r
    {
      x := x * r;
      y := y * r;
    }

    /** Translates this point by the vector v, in place; when v is this point both coordinates double. */
    method OffsetBy(v: DPoint)
      modifies this
      ensures x == old(x) + old(v.x) && y == old(y) + old(v.y)
      ensures v != this ==> v.x == old(v.x) && v.y == old(v.y)
      ensures v == this ==> x == 2.0 * old(x) && y == 2.0 * old(y)
    {
      x := x + v.GetX();
      y := y + v.GetY();
    }
  }

  /** dx*dx + dy*dy. */
  function SquaredLength(dx: real, dy: real): (s: real)
    ensures s >= 0.0
    ensures dx == 0.0 && dy == 0.0 ==> s == 0.0
  {
    dx * dx + dy * dy
  }

  /** The squared distance does not depend on the order of the two points. */
  lemma SquaredDistanceSymmetric(p: DPoint, q: DPoint)
    ensures p.SquaredDistanceFrom(q) == q.SquaredDistanceFrom(p)
  {
    assert (p.x - q.x) * (p.x - q.x) == (q.x - p.x) * (q.x - p.x);
    assert (p.y - q.y) * (p.y - q.y) == (q.y - p.y) * (q.y - p.y);
  }

  /**
   * Translating p by v and then measuring it against a copy of its old
   * position recovers v.
   */
  method OffsetThenMeasure(p: DPoint, v: DPoint) returns (q: DPoint, d: DPoint)
    requires p != v
    modifies p
    ensures fresh(q) && fresh(d)
    ensures q.x == old(p.x) && q.y == old(p.y)
    ensures d.x == v.x && d.y == v.y
    ensures p.x == old(p.x) + v.x && p.y == old(p.y) + v.y
  {
    q := new DPoint(p.x, p.y);
    p.OffsetBy(v);
    d := p.OffsetFrom(q);
  }
}
