/**
  Small facts of real arithmetic that the solver does not find on its own
  once they sit inside a larger proof. Each is stated over bare reals.
 */
module RealArith {

  lemma MulPos(x: real, y: real)
    requires x > 0.0 && y > 0.0
    ensures x * y > 0.0
  {
  }

  /** Multiplying by a non-negative factor preserves order. */
  lemma MulMono(x: real, y: real, c: real)
    requires x <= y && c >= 0.0
    ensures x * c <= y * c
  {
  }

  /** A factor in [-1, 1] times a non-negative amount stays within that amount of zero. */
  lemma ScaledUnit(n: real, q: real)
    ensures -1.0 <= n <= 1.0 && q >= 0.0 ==> -q <= n * q <= q
  {
    if -1.0 <= n <= 1.0 && q >= 0.0 {
      MulMono(n, 1.0, q);
      MulMono(-1.0, n, q);
    }
  }

  /** A fraction in [0, 1] of a non-negative amount lies between zero and that amount. */
  lemma FractionOf(t: real, d: real)
    requires 0.0 <= t <= 1.0 && d >= 0.0
    ensures 0.0 <= t * d && t * d <= d
  {
  }

  lemma FractionOfNonpositive(t: real, d: real)
    requires 0.0 <= t <= 1.0 && d <= 0.0
    ensures d <= t * d && t * d <= 0.0
  {
  }

  /** A quotient of a non-negative number by a larger one lies in [0, 1]. */
  lemma QuotientUnit(a: real, b: real)
    requires 0.0 <= a <= b && b > 0.0
    ensures 0.0 <= a / b <= 1.0
  {
  }

  /** Dividing a product is multiplying by a quotient. */
  lemma ProductQuotient(a: real, d: real, s: real)
    requires s != 0.0
    ensures a * d / s == (a / s) * d
  {
  }

  /** Squaring is strictly increasing on the non-negative reals. */
  lemma SquareStrictlyMonotone(a: real, b: real)
    requires 0.0 <= a < b
    ensures a * a < b * b
  {
    MulPos(b - a, b + a);
    assert (b - a) * (b + a) == b * b - a * a;
  }

  /**
    Linear interpolation stays between its endpoints: a value between `a`
    and `b` is carried by the line through (a, c) and (b, d) to a value
    between `c` and `d`.
   */
  lemma InterpolationBetween(num: real, a: real, b: real, c: real, d: real)
    requires a != b
    requires a <= num <= b || b <= num <= a
    ensures var r := (num - a) * (d - c) / (b - a) + c;
      (c <= r <= d) || (d <= r <= c)
  {
    var t := (num - a) / (b - a);
    UnitFraction(num, a, b);
    ProductQuotient(num - a, d - c, b - a);
    assert (num - a) * (d - c) / (b - a) == t * (d - c);
    AffineBetween(t, c, d - c);
  }

  /** The position of `num` between `a` and `b`, as a fraction of the way from `a`. */
  lemma UnitFraction(num: real, a: real, b: real)
    requires a != b
    requires a <= num <= b || b <= num <= a
    ensures 0.0 <= (num - a) / (b - a) <= 1.0
  {
    if a < b {
      QuotientUnit(num - a, b - a);
    } else {
      QuotientUnit(a - num, a - b);
      assert (a - num) / (a - b) == (num - a) / (b - a);
    }
  }

  /** Going a fraction `t` of the signed distance `k` from `c` stays between `c` and `c + k`. */
  lemma AffineBetween(t: real, c: real, k: real)
    requires 0.0 <= t <= 1.0
    ensures (c <= t * k + c <= c + k) || (c + k <= t * k + c <= c)
  {
    if k >= 0.0 {
      FractionOf(t, k);
    } else {
      FractionOfNonpositive(t, k);
    }
  }

  /** The line through (a, c) and (b, d) followed by the line through (c, a) and (d, b) is the identity. */
  lemma InverseAffine(x: real, a: real, b: real, c: real, d: real)
    requires a != b && c != d
    ensures ((x - a) * (d - c) / (b - a) + c - c) * (b - a) / (d - c) + a == x
  {
    var y := (x - a) * (d - c) / (b - a);
    assert y * (b - a) == (x - a) * (d - c);
    assert y * (b - a) / (d - c) == x - a;
  }
}
