/** Plane geometry and colours shared by both game variants.
    Coordinates are reals; the source's `sqrt(dx^2 + dy^2) <= r` hit tests are
    stated here on squared distances, which is the same test for r >= 0
    (lemma SqrtComparison). */
module Geometry {

  /** A point or a displacement on the canvas (Compose's `Offset`). */
  datatype Offset = Offset(x: real, y: real) {
    function Plus(o: Offset): Offset {
      Offset(x + o.x, y + o.y)
    }
  }

  const Zero := Offset(0.0, 0.0)

  /** An RGB colour built from three integer channels. */
  datatype Color = Color(red: int, green: int, blue: int)

  const Red := Color(255, 0, 0)

  /** A channel value that `Random.nextInt(256)` can produce. */
  predicate ValidChannel(c: int) {
    0 <= c < 256
  }

  predicate ValidColor(c: Color) {
    ValidChannel(c.red) && ValidChannel(c.green) && ValidChannel(c.blue)
  }

  /** Squared Euclidean distance between two points. */
  function DistanceSquared(a: Offset, b: Offset): (d: real)
    ensures d >= 0.0
    ensures a == b ==> d == 0.0
  {
    var dx, dy := a.x - b.x, a.y - b.y;
    SquareFacts(dx);
    SquareFacts(dy);
    dx * dx + dy * dy
  }

  lemma SquareFacts(v: real)
    ensures v * v >= 0.0
    ensures v == 0.0 ==> v * v == 0.0
  {
    if v < 0.0 {
      assert v * v == (-v) * (-v);
      PositiveProduct(-v, -v);
    } else if v > 0.0 {
      PositiveProduct(v, v);
    }
  }

  lemma PositiveProduct(a: real, b: real)
    requires a > 0.0 && b > 0.0
    ensures a * b > 0.0
  {
  }

  lemma NonNegativeProduct(a: real, b: real)
    requires a >= 0.0 && b >= 0.0
    ensures a * b >= 0.0
  {
    if a > 0.0 && b > 0.0 {
      PositiveProduct(a, b);
    } else if a == 0.0 {
      assert a * b == 0.0 * b;
    } else {
      assert a * b == a * 0.0;
    }
  }

  /** The hit test of both variants: `p` lies in the closed disc of the given
      radius around `center` (the boundary counts as inside). */
  predicate Within(center: Offset, p: Offset, radius: real) {
    DistanceSquared(center, p) <= radius * radius
  }

  /** Comparing a non-negative distance with a non-negative radius is the same
      as comparing their squares, which justifies stating the hit tests on
      squared distances. */
  lemma SqrtComparison(d: real, r: real)
    requires d >= 0.0 && r >= 0.0
    ensures d <= r <==> d * d <= r * r
  {
    if d <= r {
      NonNegativeProduct(r - d, d);
      assert (r - d) * d == r * d - d * d;
      NonNegativeProduct(r - d, r);
      assert (r - d) * r == r * r - d * r;
    } else {
      NonNegativeProduct(d - r, r);
      assert (d - r) * r == d * r - r * r;
      PositiveProduct(d - r, d);
      assert (d - r) * d == d * d - r * d;
    }
  }

  /** The boundary of the disc counts as a hit, anything farther along an axis
      does not. */
  lemma WithinIsBoundaryInclusive(center: Offset, radius: real, eps: real)
    requires radius >= 0.0 && eps > 0.0
    ensures Within(center, center, radius)
    ensures Within(center, Offset(center.x + radius, center.y), radius)
    ensures !Within(center, Offset(center.x + radius + eps, center.y), radius)
  {
    var far := Offset(center.x + radius + eps, center.y);
    assert DistanceSquared(center, far) == (radius + eps) * (radius + eps);
    SqrtComparison(radius + eps, radius);
  }
}
