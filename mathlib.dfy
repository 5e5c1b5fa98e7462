// cos, sin and sqrt from <math.h>, and the constant pi.
//
// The model has no transcendental functions of its own, so the caller supplies them as a
// record of function values. `Lawful` is the little the proofs need of them:
// cos^2 + sin^2 = 1, sqrt is non-negative, and sqrt(x)^2 = x for x >= 0.
// Every lemma that relies on these facts takes `Lawful(m)` as a precondition.

module MathLib {
  import opened Vectors

  datatype Libm = Libm(cos: real -> real, sin: real -> real, sqrt: real -> real, pi: real)

  ghost predicate Lawful(m: Libm)
  {
    && m.pi > 0.0
    && (forall x :: m.cos(x) * m.cos(x) + m.sin(x) * m.sin(x) == 1.0)
    && (forall x :: m.sqrt(x) >= 0.0)
    && (forall x :: x >= 0.0 ==> m.sqrt(x) * m.sqrt(x) == x)
  }

  /** `norm2(v)`: the squared length of a vec2. */
  function Norm2(v: Vec2): (r: real)
    ensures r >= 0.0
  {
    SquareNonNegative(v.x);
    SquareNonNegative(v.y);
    v.x * v.x + v.y * v.y
  }

  lemma SquareNonNegative(x: real)
    ensures x * x >= 0.0
  {
  }

  /** `norm(v)`: the length of a vec2. */
  function Norm(m: Libm, v: Vec2): real
  {
    m.sqrt(Norm2(v))
  }

  /**
   * `normalize(v)`: `v` divided by its length. The zero vector, which the source would
   * divide by zero, is mapped to itself here.
   */
  function Normalize(m: Libm, v: Vec2): Vec2
  {
    var n := Norm(m, v);
    if n == 0.0 then v else DivScalar2(v, n)
  }

  /** The point at distance `radius` and angle `angle` from the origin. */
  function PolarPoint(m: Libm, radius: real, angle: real): Vec2
  {
    Vec2(radius * m.cos(angle), radius * m.sin(angle))
  }

  /** Two non-negative numbers with the same square are equal. */
  lemma {:induction false} SquareRootUnique(s: real, t: real)
    requires s >= 0.0 && t >= 0.0 && s * s == t * t
    ensures s == t
  {
    if s < t {
      SquareStrictlyMonotone(s, t);
    } else if t < s {
      SquareStrictlyMonotone(t, s);
    }
  }

  lemma SquareStrictlyMonotone(s: real, t: real)
    requires 0.0 <= s < t
    ensures s * s < t * t
  {
    var a, b, c := s * s, s * t, t * t;
    assert a <= b;
    assert b < c;
  }

  /** sqrt(x * x) == |x| */
  lemma {:induction false} SqrtOfSquare(m: Libm, x: real)
    requires Lawful(m)
    ensures m.sqrt(x * x) == (if x < 0.0 then -x else x)
  {
    SquareNonNegative(x);
    var a := if x < 0.0 then -x else x;
    assert a * a == x * x;
    SquareRootUnique(m.sqrt(x * x), a);
  }

  /** A length is never negative, and is zero exactly when the squared length is. */
  lemma {:induction false} NormZero(m: Libm, v: Vec2)
    requires Lawful(m)
    ensures Norm(m, v) >= 0.0
    ensures Norm(m, v) == 0.0 <==> Norm2(v) == 0.0
  {
    var n := Norm(m, v);
    assert n >= 0.0 && n * n == Norm2(v);
    if Norm2(v) == 0.0 {
      SquareRootUnique(n, 0.0);
    }
  }

  /** Scaling by a non-negative factor scales the length by that factor. */
  lemma {:induction false} NormScale(m: Libm, v: Vec2, k: real)
    requires Lawful(m) && k >= 0.0
    ensures Norm(m, Scale2(v, k)) == k * Norm(m, v)
  {
    var n := Norm(m, v);
    var s := Norm(m, Scale2(v, k));
    assert Norm2(Scale2(v, k)) == k * k * Norm2(v);
    assert n * n == Norm2(v);
    assert s * s == Norm2(Scale2(v, k));
    assert (k * n) * (k * n) == k * k * (n * n);
    SquareRootUnique(s, k * n);
  }

  /** A polar point lies at distance |radius| from the origin. */
  lemma {:induction false} PolarPointLength(m: Libm, radius: real, angle: real)
    requires Lawful(m)
    ensures Norm2(PolarPoint(m, radius, angle)) == radius * radius
    ensures Norm(m, PolarPoint(m, radius, angle)) == (if radius < 0.0 then -radius else radius)
  {
    var c := m.cos(angle);
    var s := m.sin(angle);
    assert c * c + s * s == 1.0;
    calc {
      Norm2(PolarPoint(m, radius, angle));
      (radius * c) * (radius * c) + (radius * s) * (radius * s);
      radius * radius * (c * c + s * s);
      radius * radius;
    }
    SqrtOfSquare(m, radius);
  }

  /** A normalized vector of nonzero length has length 1 and points the same way. */
  lemma {:induction false} NormalizeUnit(m: Libm, v: Vec2)
    requires Lawful(m) && Norm2(v) != 0.0
    ensures Norm(m, Normalize(m, v)) == 1.0
    ensures Normalize(m, v) == Scale2(v, 1.0 / Norm(m, v))
  {
    NormZero(m, v);
    var n := Norm(m, v);
    assert Normalize(m, v) == Scale2(v, 1.0 / n);
    NormScale(m, v, 1.0 / n);
  }
}
