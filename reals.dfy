/** Exact real arithmetic shared by the price, reserve and loss formulas:
    integer powers (what `Big.pow` and `Math.pow(1.0001, tick)` compute,
    taken exactly) and the square root that `Big.sqrt` and `** 0.5` compute.

    Dafny cannot construct a real square root, so the square root is not
    defined here: it is a parameter `sqrt: real -> real` of every formula that
    uses one, and `IsSqrt(sqrt)` is the property such a parameter must have. */
module Reals {

  /** `sqrt` returns the non-negative square root of every non-negative real. */
  ghost predicate IsSqrt(sqrt: real -> real) {
    forall x :: x >= 0.0 ==> sqrt(x) >= 0.0 && sqrt(x) * sqrt(x) == x
  }

  /** b to the power n for a natural n. */
  function NatPow(b: real, n: nat): (r: real)
    ensures b > 0.0 ==> r > 0.0
    ensures b >= 1.0 ==> r >= 1.0
  {
    if n == 0 then 1.0 else b * NatPow(b, n - 1)
  }

  /** b to the power n for any integer n; a negative n gives the reciprocal. */
  function Pow(b: real, n: int): (r: real)
    requires b > 0.0
    ensures r > 0.0
  {
    if n >= 0 then NatPow(b, n) else 1.0 / NatPow(b, -n)
  }

  /** One more factor of b: the step from n to n + 1, for negative n too. */
  lemma PowSucc(b: real, n: int)
    requires b > 0.0
    ensures Pow(b, n + 1) == b * Pow(b, n)
  {
    if n < -1 {
      var q := NatPow(b, -n - 1);
      assert NatPow(b, -n) == b * q;
      assert q > 0.0;
      calc {
        b * Pow(b, n);
        b * (1.0 / (b * q));
        1.0 / q;
        Pow(b, n + 1);
      }
    }
  }

  /** A negative exponent is the reciprocal of the positive one. */
  lemma PowNeg(b: real, n: int)
    requires b > 0.0
    ensures Pow(b, -n) == 1.0 / Pow(b, n)
  {
    if n < 0 {
      assert Pow(b, n) == 1.0 / NatPow(b, -n);
      assert NatPow(b, -n) > 0.0;
    }
  }

  /** For a base above one, each step up in the exponent makes the power larger. */
  lemma PowSuccGreater(b: real, m: int)
    requires b > 1.0
    ensures Pow(b, m) < Pow(b, m + 1)
  {
    PowSucc(b, m);
    var p, q := Pow(b, m), Pow(b, m + 1);
    ScaleLess(1.0, b, p, p, q);
  }

  /** For a base above one, the power is strictly increasing in the exponent. */
  lemma {:induction false} PowStrictlyIncreasing(b: real, m: int, n: int)
    requires b > 1.0 && m < n
    ensures Pow(b, m) < Pow(b, n)
    decreases n - m
  {
    PowSuccGreater(b, m);
    if m + 1 < n {
      PowStrictlyIncreasing(b, m + 1, n);
    }
  }

  /** Comparing powers of a base above one is comparing their exponents. */
  lemma PowLess(b: real, m: int, n: int)
    requires b > 1.0
    ensures Pow(b, m) < Pow(b, n) <==> m < n
  {
    if m < n {
      PowStrictlyIncreasing(b, m, n);
    } else if n < m {
      PowStrictlyIncreasing(b, n, m);
    }
  }

  /** There is only one non-negative square root. */
  lemma SqrtUnique(sqrt: real -> real, x: real, r: real)
    requires IsSqrt(sqrt)
    requires x >= 0.0 && r >= 0.0 && r * r == x
    ensures sqrt(x) == r
  {
    var s := sqrt(x);
    assert s >= 0.0 && s * s == x;
    assert (s - r) * (s + r) == 0.0;
    if s + r == 0.0 {
      assert s == 0.0 && r == 0.0;
    } else {
      assert s - r == 0.0;
    }
  }

  lemma SqrtOfOne(sqrt: real -> real)
    requires IsSqrt(sqrt)
    ensures sqrt(1.0) == 1.0
  {
    SqrtUnique(sqrt, 1.0, 1.0);
  }

  lemma SqrtPositive(sqrt: real -> real, x: real)
    requires IsSqrt(sqrt) && x > 0.0
    ensures sqrt(x) > 0.0
  {
    assert sqrt(x) * sqrt(x) == x;
  }

  /** The square root is strictly increasing on the non-negative reals. */
  lemma SqrtStrictlyIncreasing(sqrt: real -> real, x: real, y: real)
    requires IsSqrt(sqrt) && 0.0 <= x < y
    ensures sqrt(x) < sqrt(y)
  {
    var a, b := sqrt(x), sqrt(y);
    assert a >= 0.0 && a * a == x;
    assert b >= 0.0 && b * b == y;
    assert (b - a) * (b + a) == y - x;
  }

  /** Monotonicity, in the non-strict form the reserve bounds use. */
  lemma SqrtMonotone(sqrt: real -> real, x: real, y: real)
    requires IsSqrt(sqrt) && 0.0 <= x <= y
    ensures sqrt(x) <= sqrt(y)
  {
    if x < y {
      SqrtStrictlyIncreasing(sqrt, x, y);
    }
  }

  lemma SqrtBelowOne(sqrt: real -> real, x: real)
    requires IsSqrt(sqrt) && 0.0 <= x < 1.0
    ensures sqrt(x) < 1.0
  {
    SqrtStrictlyIncreasing(sqrt, x, 1.0);
    SqrtOfOne(sqrt);
  }

  // ---------------------------------------------------------------------
  // Products, quotients and reciprocals

  /** Multiplying by a positive factor keeps the order. */
  lemma ScaleLess(x: real, y: real, c: real, xc: real, yc: real)
    requires c > 0.0 && xc == x * c && yc == y * c
    ensures xc < yc <==> x < y
  {
    assert yc - xc == (y - x) * c;
  }

  /** A non-zero factor cancels. */
  lemma CancelFactor(x: real, y: real, c: real)
    requires c != 0.0 && x * c == y * c
    ensures x == y
  {
    assert (x - y) * c == 0.0;
  }

  lemma ProductNonNegative(a: real, b: real)
    requires a >= 0.0 && b >= 0.0
    ensures a * b >= 0.0
  {
  }

  lemma ProductPositive(a: real, b: real)
    requires a > 0.0 && b > 0.0
    ensures a * b > 0.0
  {
  }

  /** Dividing by a positive number keeps the sign. */
  lemma QuotientSign(a: real, b: real)
    requires b > 0.0
    ensures a >= 0.0 ==> a / b >= 0.0
    ensures a > 0.0 ==> a / b > 0.0
    ensures a <= 0.0 ==> a / b <= 0.0
  {
    assert a / b * b == a;
  }

  /** A larger positive number has a smaller reciprocal. */
  lemma ReciprocalAntitone(x: real, y: real)
    requires 0.0 < x <= y
    ensures 0.0 < 1.0 / y <= 1.0 / x
    ensures x < y ==> 1.0 / y < 1.0 / x
  {
    var a, b := 1.0 / x, 1.0 / y;
    assert a * x == 1.0 && b * y == 1.0;
    QuotientSign(1.0, x);
    QuotientSign(1.0, y);
    assert b * y * a == a;
    assert a * x * b == b;
    assert a - b == a * b * (y - x);
    assert a * b > 0.0;
  }
}
