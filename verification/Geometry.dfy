// Plane geometry over exact reals, stated with squared distances only, so that
// no square root is ever needed.
module Geometry {

  datatype Point = Point(x: real, y: real)

  function Square(r: real): real {
    r * r
  }

  function DistanceSquared(a: Point, b: Point): real {
    Square(a.x - b.x) + Square(a.y - b.y)
  }

  lemma DistanceIsSymmetric(a: Point, b: Point)
    ensures DistanceSquared(a, b) == DistanceSquared(b, a)
  {
  }

  lemma DistanceToSelf(a: Point)
    ensures DistanceSquared(a, a) == 0.0
  {
  }

  lemma SquareIsNonNegative(r: real)
    ensures Square(r) >= 0.0
  {
  }

  lemma PositiveProduct(a: real, b: real, product: real)
    requires 0.0 < a && 0.0 < b && product == a * b
    ensures 0.0 < product
  {
  }

  lemma PositiveSquare(r: real)
    requires 0.0 < r
    ensures 0.0 < Square(r)
  {
    PositiveProduct(r, r, Square(r));
  }

  lemma NonNegativeProduct(a: real, b: real)
    requires 0.0 <= a && 0.0 <= b
    ensures 0.0 <= a * b
  {
  }

  lemma SquareMonotone(a: real, b: real)
    requires 0.0 <= a <= b
    ensures Square(a) <= Square(b)
  {
    NonNegativeProduct(b - a, b + a);
    assert (b - a) * (b + a) == b * b - a * a;
  }

  lemma SquareRootMonotone(a: real, b: real)
    requires 0.0 <= b && Square(a) <= Square(b)
    ensures a <= b
  {
    assert (a - b) * (a + b) == Square(a) - Square(b);
    if a > b {
      PositiveProduct(a - b, a + b, Square(a) - Square(b));
    }
  }

  // Cauchy-Schwarz in the plane, by Lagrange's identity.
  lemma CauchySchwarz(ux: real, uy: real, vx: real, vy: real)
    ensures Square(ux * vx + uy * vy) <= (Square(ux) + Square(uy)) * (Square(vx) + Square(vy))
  {
    SquareIsNonNegative(ux * vy - uy * vx);
    assert (Square(ux) + Square(uy)) * (Square(vx) + Square(vy))
        == Square(ux * vx + uy * vy) + Square(ux * vy - uy * vx);
  }

  // |u| <= r and |v| <= s give u . v <= r * s.
  lemma DotProductBound(ux: real, uy: real, vx: real, vy: real, r: real, s: real)
    requires 0.0 <= r && 0.0 <= s
    requires Square(ux) + Square(uy) <= Square(r)
    requires Square(vx) + Square(vy) <= Square(s)
    ensures ux * vx + uy * vy <= r * s
  {
    CauchySchwarz(ux, uy, vx, vy);
    SquareIsNonNegative(ux);
    SquareIsNonNegative(uy);
    SquareIsNonNegative(vx);
    SquareIsNonNegative(vy);
    ProductMonotone(Square(ux) + Square(uy), Square(r), Square(vx) + Square(vy), Square(s));
    assert Square(r) * Square(s) == Square(r * s);
    NonNegativeProduct(r, s);
    SquareRootMonotone(ux * vx + uy * vy, r * s);
  }

  lemma ProductMonotone(a: real, b: real, c: real, d: real)
    requires 0.0 <= a <= b && 0.0 <= c <= d
    ensures a * c <= b * d
  {
    NonNegativeProduct(b - a, c);
    NonNegativeProduct(b, d - c);
    assert b * d - a * c == (b - a) * c + b * (d - c);
  }

  // The Euclidean triangle inequality.
  lemma TriangleWithin(a: Point, b: Point, c: Point, r: real, s: real)
    requires 0.0 <= r && 0.0 <= s
    requires DistanceSquared(a, b) <= Square(r)
    requires DistanceSquared(b, c) <= Square(s)
    ensures DistanceSquared(a, c) <= Square(r + s)
  {
    var ux, uy, vx, vy := a.x - b.x, a.y - b.y, b.x - c.x, b.y - c.y;
    DotProductBound(ux, uy, vx, vy, r, s);
    assert a.x - c.x == ux + vx && a.y - c.y == uy + vy;
    assert Square(ux + vx) == Square(ux) + 2.0 * (ux * vx) + Square(vx);
    assert Square(uy + vy) == Square(uy) + 2.0 * (uy * vy) + Square(vy);
    assert Square(r + s) == Square(r) + 2.0 * (r * s) + Square(s);
  }

  // Its reverse form: moving one end of a segment longer than r + t by at most
  // r leaves it longer than t.
  lemma TriangleBeyond(a: Point, b: Point, c: Point, r: real, t: real)
    requires 0.0 <= r && 0.0 <= t
    requires DistanceSquared(a, b) <= Square(r)
    requires DistanceSquared(a, c) > Square(r + t)
    ensures DistanceSquared(b, c) > Square(t)
  {
    if DistanceSquared(b, c) <= Square(t) {
      TriangleWithin(a, b, c, r, t);
    }
  }

  // Both ends moved by at most r.
  lemma BothEndsMoved(a: Point, a': Point, b: Point, b': Point, r: real, t: real)
    requires 0.0 <= r && 0.0 <= t
    requires DistanceSquared(a, a') <= Square(r)
    requires DistanceSquared(b, b') <= Square(r)
    requires DistanceSquared(a, b) > Square(r + (r + t))
    ensures DistanceSquared(a', b') > Square(t)
  {
    TriangleBeyond(a, a', b, r, r + t);
    DistanceIsSymmetric(a', b);
    TriangleBeyond(b, b', a', r, t);
    DistanceIsSymmetric(b', a');
  }

  // A coordinate difference is bounded by the distance.
  lemma CoordinateBound(a: Point, b: Point, r: real)
    requires 0.0 <= r
    requires DistanceSquared(a, b) <= Square(r)
    ensures -r <= a.x - b.x <= r
    ensures -r <= a.y - b.y <= r
  {
    var dx, dy := a.x - b.x, a.y - b.y;
    SquareIsNonNegative(dx);
    SquareIsNonNegative(dy);
    SquareRootMonotone(dx, r);
    SquareRootMonotone(dy, r);
    assert Square(-dx) == Square(dx) && Square(-dy) == Square(dy);
    SquareRootMonotone(-dx, r);
    SquareRootMonotone(-dy, r);
  }

  // The nine-cell argument: coordinates no more than one cell width apart fall
  // in the same or in neighbouring cells.
  lemma AdjacentFloors(x: real, y: real, width: real)
    requires 0.0 < width
    requires -width <= x - y <= width
    ensures -1 <= (x / width).Floor - (y / width).Floor <= 1
  {
    QuotientGap(x, y, width);
    QuotientGap(y, x, width);
  }

  lemma QuotientGap(x: real, y: real, width: real)
    requires 0.0 < width
    requires x - y <= width
    ensures x / width - y / width <= 1.0
  {
    var gap := x / width - y / width;
    assert gap * width == x - y;
    assert (gap - 1.0) * width == x - y - width;
    if gap > 1.0 {
      PositiveProduct(gap - 1.0, width, x - y - width);
    }
  }
}
