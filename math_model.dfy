/** The host math routines the simulation relies on.
    `Math.pow` with a non-integer exponent and `Math.sqrt` are not defined by
    the model; they are supplied by the environment as a `MathLib` value, and
    `Sound` states the only facts about them that the model uses. Powers with
    the integer exponents 3 and 5 are written out as products. */
module MathModel {

  datatype MathLib = MathLib(pow: (real, real) -> real, sqrt: real -> real)

  /** A square root that is a non-negative root of its (non-negative)
      argument, and a power function that is positive on a positive base. */
  ghost predicate Sound(m: MathLib)
  {
    (forall a: real :: a >= 0.0 ==> m.sqrt(a) >= 0.0 && m.sqrt(a) * m.sqrt(a) == a) &&
    (forall b: real, e: real :: b > 0.0 ==> m.pow(b, e) > 0.0)
  }

  /** The square root of a perfect square `a * a` (a >= 0) is `a`. */
  lemma SqrtOfSquare(m: MathLib, a: real)
    requires Sound(m)
    requires a >= 0.0
    ensures m.sqrt(a * a) == a
  {
    SquareSign(a);
    var s := m.sqrt(a * a);
    assert s >= 0.0 && s * s == a * a;
    SquareInjective(s, a);
  }

  /** Two non-negative reals with the same square are equal. */
  lemma SquareInjective(s: real, a: real)
    requires s >= 0.0 && a >= 0.0 && s * s == a * a
    ensures s == a
  {
    var d, t := s - a, s + a;
    assert d * t == s * s - a * a;
    ProductSign(d, t);
  }

  lemma SquareSign(x: real)
    ensures x * x >= 0.0
    ensures x != 0.0 ==> x * x > 0.0
  {
    if x < 0.0 {
      assert x * x == (-x) * (-x);
    }
  }

  /** The sign of `k * a * a` is the sign of `k` (or zero when `a` is). */
  lemma TermSign(k: real, a: real)
    ensures k > 0.0 ==> (k * a) * a >= 0.0
    ensures k < 0.0 ==> (k * a) * a <= 0.0
    ensures k > 0.0 && a != 0.0 ==> (k * a) * a > 0.0
    ensures k < 0.0 && a != 0.0 ==> (k * a) * a < 0.0
    ensures k == 0.0 ==> (k * a) * a == 0.0
  {
    if a < 0.0 {
      assert (k * a) * a == (k * (-a)) * (-a);
    }
    if k < 0.0 {
      assert (k * a) * a == -(((-k) * a) * a);
    }
  }

  /** The sign of a product follows the signs of its factors. */
  lemma ProductSign(a: real, b: real)
    ensures a > 0.0 && b > 0.0 ==> a * b > 0.0
    ensures a < 0.0 && b > 0.0 ==> a * b < 0.0
    ensures a > 0.0 && b < 0.0 ==> a * b < 0.0
    ensures a < 0.0 && b < 0.0 ==> a * b > 0.0
    ensures a == 0.0 || b == 0.0 ==> a * b == 0.0
  {
    if a < 0.0 && b > 0.0 {
      assert a * b == -((-a) * b);
    } else if a > 0.0 && b < 0.0 {
      assert a * b == -(a * (-b));
    } else if a < 0.0 && b < 0.0 {
      assert a * b == (-a) * (-b);
    }
  }
}
