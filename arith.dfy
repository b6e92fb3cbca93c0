/**
  Sign facts about products of reals, stated over plain variables so that
  each proof about the generators' formulas needs only their instances.
 */
module RealArith {

  lemma MulPos(a: real, b: real)
    requires a > 0.0 && b > 0.0
    ensures a * b > 0.0
  {
  }

  lemma MulNonneg(a: real, b: real)
    requires a >= 0.0 && b >= 0.0
    ensures a * b >= 0.0
  {
  }

  /** A square is never negative, and positive unless its root is zero. */
  lemma SquareSign(a: real)
    ensures a * a >= 0.0
    ensures a != 0.0 ==> a * a > 0.0
  {
    if a > 0.0 {
      MulPos(a, a);
    } else if a < 0.0 {
      MulPos(-a, -a);
    }
  }

  /** Multiplying by a positive square keeps strict order both ways. */
  lemma SquareScaledOrder(h: real, a: real, b: real, c: real)
    requires h > 0.0
    ensures (h * h) * a + (h * h) * b < (h * h) * c <==> a + b < c
  {
    if a + b < c {
      assert (h * h) * (c - a - b) > 0.0;
    } else {
      assert (h * h) * (a + b - c) >= 0.0;
    }
  }

  /** Squaring is monotone on non-negative reals. */
  lemma SquareMonotone(a: real, b: real)
    requires 0.0 <= a <= b
    ensures a * a <= b * b
  {
    MulNonneg(b - a, b + a);
  }
}
