/**
 * The transcendental functions the rating engines call (10^x, square root,
 * tanh, and x^y) are not computed here. Each engine receives them as
 * function-typed parameters, and these predicates state the few facts about
 * them that the proofs rely on.
 */
module RealMath {

  /** Python's `math.pi` and `math.sqrt(3)`, as the doubles the source uses. */
  const Pi: real := 3.141592653589793
  const Sqrt3: real := 1.7320508075688772

  /**
   * A product whose contract carries its sign. Squares are written through it
   * so that their sign is available wherever they appear inside a function.
   */
  function Mul(x: real, y: real): (r: real)
    ensures 0.0 < x && 0.0 < y ==> 0.0 < r
    ensures x < 0.0 && y < 0.0 ==> 0.0 < r
    ensures x == 0.0 || y == 0.0 ==> r == 0.0
  {
    x * y
  }

  /** `x ** 2`: never negative, and positive away from zero. */
  function Square(x: real): (r: real)
    ensures 0.0 <= r
    ensures x != 0.0 <==> 0.0 < r
  {
    Mul(x, x)
  }

  /** What the ELO engine relies on about `10 ** x`. */
  ghost predicate IsPow10(pow10: real -> real) {
    && (forall x :: 0.0 < pow10(x))
    && (forall x, y :: x + y == 0.0 ==> pow10(x) * pow10(y) == 1.0)
    && (forall x :: 0.0 < x ==> 1.0 < pow10(x))
  }

  /** 10^0 is 1, from the facts above alone. */
  lemma Pow10Zero(pow10: real -> real)
    requires IsPow10(pow10)
    ensures pow10(0.0) == 1.0
  {
    var y := pow10(0.0);
    assert -0.0 == 0.0;
    assert y * y == 1.0;
    assert y < 1.0 ==> y * y < y;
    assert y > 1.0 ==> y * y > y;
  }

  /** 10^x is below 1 for negative x. */
  lemma Pow10BelowOne(pow10: real -> real, x: real)
    requires IsPow10(pow10)
    requires x < 0.0
    ensures pow10(x) < 1.0
  {
    var y, z := pow10(x), pow10(-x);
    assert -(-x) == x;
    assert y * z == 1.0;
  }

  /**
   * The square root, the hyperbolic tangent and the real power `x ** y` used
   * by the MMR engine. Only `sqrt` and `pow` carry facts; `tanh` is left free.
   */
  datatype Numerics = Numerics(sqrt: real -> real, tanh: real -> real, pow: (real, real) -> real) {

    ghost predicate Valid() {
      && (forall y :: 0.0 <= y ==> 0.0 <= sqrt(y) && sqrt(y) * sqrt(y) == y)
      && (forall x, y :: 0.0 < x <= 1.0 && 0.0 <= y ==> 0.0 < pow(x, y) <= 1.0)
    }
  }

  /** The square root of a positive number is positive. */
  lemma SqrtPositive(fns: Numerics, y: real)
    requires fns.Valid()
    requires 0.0 < y
    ensures 0.0 < fns.sqrt(y)
    ensures fns.sqrt(y) * fns.sqrt(y) == y
  {
  }
}
