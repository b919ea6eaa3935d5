/** Exact plane geometry shared by the canvas effects: points, the functions the
    source takes from `Math`, and powers of a real used to state convergence. */
module Plane {

  /** A position in CSS pixels. Coordinates are exact reals; IEEE rounding is not modelled. */
  datatype Point = Point(x: real, y: real)

  /** The transcendental part of one particle/mouse interaction, supplied from outside:
      `dist(p, q)` stands for `Math.sqrt(dx*dx + dy*dy)` with `(dx, dy) = p - q`,
      `away(p, q)` for `(cos(a), sin(a))` with `a = Math.atan2(dy, dx)`, and
      `swirl(p, q)` for the same direction turned by `Math.PI * 0.3`. */
  datatype Geometry = Geometry(
    dist: (Point, Point) -> real,
    away: (Point, Point) -> Point,
    swirl: (Point, Point) -> Point)

  /** The only fact the model relies on: a distance is never negative. */
  ghost predicate ValidGeometry(geo: Geometry) {
    forall p: Point, q: Point :: geo.dist(p, q) >= 0.0
  }

  function Abs(r: real): real {
    if r < 0.0 then -r else r
  }

  function Min(a: real, b: real): real {
    if a <= b then a else b
  }

  function Max(a: real, b: real): real {
    if a >= b then a else b
  }

  /** `v` lies on the closed segment between `a` and `b` (in either order). */
  predicate Between(a: real, v: real, b: real) {
    (a <= v <= b) || (b <= v <= a)
  }

  /** Growing a positive size by a fraction `f` in (0, 1] of `k` lands in (b, b * (1 + k)]. */
  lemma ScaleBand(b: real, f: real, k: real)
    ensures b > 0.0 && 0.0 < f <= 1.0 && k > 0.0 ==> b < b * (1.0 + f * k) <= b * (1.0 + k)
  {
    if b > 0.0 && 0.0 < f <= 1.0 && k > 0.0 {
      assert 0.0 < b * (f * k) <= b * (1.0 * k);
      assert b * (1.0 + f * k) == b + b * (f * k);
      assert b * (1.0 + k) == b + b * k;
    }
  }

  function Pow(b: real, n: nat): real {
    if n == 0 then 1.0 else b * Pow(b, n - 1)
  }

  lemma {:induction false} PowUnit(b: real, n: nat)
    requires 0.0 <= b <= 1.0
    ensures 0.0 <= Pow(b, n) <= 1.0
  {
    if n > 0 {
      PowUnit(b, n - 1);
      Shrink(b, Pow(b, n - 1));
    }
  }

  /** Multiplying by a factor in [0, 1] keeps a non-negative value in [0, value]. */
  lemma Shrink(b: real, p: real)
    requires 0.0 <= b <= 1.0 && 0.0 <= p
    ensures 0.0 <= b * p <= p
  {
    assert b * p <= 1.0 * p;
  }

  /** A smaller base gives a smaller power: this is why the faster lerp is always closer. */
  lemma {:induction false} PowMonotone(a: real, b: real, n: nat)
    requires 0.0 <= a <= b
    ensures 0.0 <= Pow(a, n) <= Pow(b, n)
  {
    if n > 0 {
      PowMonotone(a, b, n - 1);
      assert a * Pow(a, n - 1) <= b * Pow(a, n - 1) <= b * Pow(b, n - 1);
    }
  }

  /** A base in (0, 1) gives strictly shrinking, still positive powers. */
  lemma {:induction false} PowShrinks(b: real, n: nat)
    requires 0.0 < b < 1.0
    ensures 0.0 < Pow(b, n + 1) < Pow(b, n)
  {
    if n > 0 {
      PowShrinks(b, n - 1);
    }
    var p := Pow(b, n);
    assert Pow(b, n + 1) == b * p;
    assert 0.0 < b * p < 1.0 * p;
  }
}
