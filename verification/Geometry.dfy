/** Plane geometry in exact reals, as the planner uses it.
    `math.hypot` is a parameter: any function that yields the non-negative root of `x*x + y*y`. */
module Geometry {

  datatype Point = Point(x: real, y: real)

  ghost predicate IsHypot(hyp: (real, real) -> real) {
    forall x: real, y: real :: hyp(x, y) >= 0.0 && hyp(x, y) * hyp(x, y) == x * x + y * y
  }

  /** `math.dist` */
  function Dist(hyp: (real, real) -> real, p: Point, q: Point): real {
    hyp(p.x - q.x, p.y - q.y)
  }

  lemma SquareGrows(y: real, x: real)
    requires 0.0 <= y < x
    ensures y * y < x * x
  {
    var d := x - y;
    assert x * x == y * y + d * (x + y);
    assert d * (x + y) > 0.0;
  }

  lemma RootOrder(x: real, y: real)
    requires y >= 0.0 && x * x <= y * y
    ensures x <= y
  {
    if x > y {
      SquareGrows(y, x);
    }
  }

  lemma RootUnique(x: real, y: real)
    requires x >= 0.0 && y >= 0.0 && x * x == y * y
    ensures x == y
  {
    RootOrder(x, y);
    RootOrder(y, x);
  }

  /** Cauchy-Schwarz in the plane. */
  lemma DotBound(hyp: (real, real) -> real, a: real, b: real, c: real, d: real)
    requires IsHypot(hyp)
    ensures a * c + b * d <= hyp(a, b) * hyp(c, d)
  {
    var p, q, dot := hyp(a, b), hyp(c, d), a * c + b * d;
    var cross := a * d - b * c;
    assert dot * dot + cross * cross == (a * a + b * b) * (c * c + d * d);
    assert (p * q) * (p * q) == (p * p) * (q * q);
    assert cross * cross >= 0.0;
    assert p * q >= 0.0;
    RootOrder(dot, p * q);
  }

  lemma Triangle(hyp: (real, real) -> real, a: real, b: real, c: real, d: real)
    requires IsHypot(hyp)
    ensures hyp(a + c, b + d) <= hyp(a, b) + hyp(c, d)
  {
    var p, q, s := hyp(a, b), hyp(c, d), hyp(a + c, b + d);
    DotBound(hyp, a, b, c, d);
    assert (p + q) * (p + q) == p * p + 2.0 * (p * q) + q * q;
    assert s * s == (a * a + b * b) + 2.0 * (a * c + b * d) + (c * c + d * d);
    RootOrder(s, p + q);
  }

  lemma HypotSign(hyp: (real, real) -> real, x: real, y: real)
    requires IsHypot(hyp)
    ensures hyp(-x, y) == hyp(x, y) == hyp(x, -y) == hyp(-x, -y)
  {
    RootUnique(hyp(-x, y), hyp(x, y));
    RootUnique(hyp(x, -y), hyp(x, y));
    RootUnique(hyp(-x, -y), hyp(x, y));
  }

  lemma HypotAxis(hyp: (real, real) -> real, x: real)
    requires IsHypot(hyp) && x >= 0.0
    ensures hyp(x, 0.0) == x && hyp(0.0, x) == x
  {
    RootUnique(hyp(x, 0.0), x);
    RootUnique(hyp(0.0, x), x);
  }

  lemma LegBound(hyp: (real, real) -> real, x: real, y: real)
    requires IsHypot(hyp)
    ensures -hyp(x, y) <= x <= hyp(x, y) && -hyp(x, y) <= y <= hyp(x, y)
  {
    assert x * x >= 0.0 && y * y >= 0.0;
    RootOrder(x, hyp(x, y));
    RootOrder(-x, hyp(x, y));
    RootOrder(y, hyp(x, y));
    RootOrder(-y, hyp(x, y));
  }

  lemma HypotPositive(hyp: (real, real) -> real, x: real, y: real)
    requires IsHypot(hyp) && (x != 0.0 || y != 0.0)
    ensures hyp(x, y) > 0.0
  {
    LegBound(hyp, x, y);
  }

  /** Enlarging both legs enlarges the hypotenuse. */
  lemma HypotMonotone(hyp: (real, real) -> real, x: real, y: real, u: real, v: real)
    requires IsHypot(hyp) && 0.0 <= x <= u && 0.0 <= y <= v
    ensures hyp(x, y) <= hyp(u, v)
  {
    assert x * x <= u * u && y * y <= v * v;
    RootOrder(hyp(x, y), hyp(u, v));
  }
}
