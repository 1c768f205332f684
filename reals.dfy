/**
 * Real-number helpers. Products go through `Mul` and squares through `Sq`,
 * whose contracts carry the sign rules of multiplication, so that those
 * facts are available wherever a product occurs.
 */
module Reals {

  /** The product a * b, with the sign rules of real multiplication. */
  function Mul(a: real, b: real): (r: real)
    ensures a >= 0.0 && b >= 0.0 ==> r >= 0.0
    ensures a > 0.0 && b > 0.0 ==> r > 0.0
    ensures a <= 0.0 && b <= 0.0 ==> r >= 0.0
    ensures a < 0.0 && b < 0.0 ==> r > 0.0
    ensures a >= 0.0 && b <= 0.0 ==> r <= 0.0
    ensures a <= 0.0 && b >= 0.0 ==> r <= 0.0
    ensures a != 0.0 && b != 0.0 ==> r != 0.0
  {
    a * b
  }

  /** The square a * a: never negative, and zero only for zero. */
  function Sq(a: real): (r: real)
    ensures r >= 0.0
    ensures a != 0.0 ==> r > 0.0
  {
    Mul(a, a)
  }

  /** Squaring is strictly increasing on the non-negative reals. */
  lemma SqLess(r: real, s: real)
    requires 0.0 <= r < s
    ensures Sq(r) < Sq(s)
  {
    var d := s - r;
    assert Sq(s) == Sq(r) + 2.0 * Mul(r, d) + Sq(d);
  }

  /** Two non-negative reals with the same square are equal. */
  lemma SqInjective(r: real, s: real)
    requires 0.0 <= r && 0.0 <= s && Sq(r) == Sq(s)
    ensures r == s
  {
    if r < s {
      SqLess(r, s);
    } else if s < r {
      SqLess(s, r);
    }
  }

  /** A non-negative number is above a non-negative bound exactly when its square is. */
  lemma SqCompare(m: real, b: real)
    requires m >= 0.0 && b >= 0.0
    ensures m > b <==> Sq(m) > Sq(b)
    ensures m < b <==> Sq(m) < Sq(b)
  {
    if m > b {
      SqLess(b, m);
    } else if m < b {
      SqLess(m, b);
    }
  }

  /** The only factor that leaves a non-zero number unchanged is 1. */
  lemma MulOne(x: real, s: real)
    requires s != 0.0 && Mul(x, s) == s
    ensures x == 1.0
  {
    var d := x - 1.0;
    assert Mul(x, s) == Mul(d, s) + s;
  }

  /** Negation does not change a square. */
  lemma SqNegate(a: real)
    ensures Sq(-a) == Sq(a)
  {
  }

  /** In a sum a * c + b * c == (a + b) * c the factor can be pulled out. */
  lemma MulSplit(a: real, b: real, c: real)
    ensures Mul(a, c) + Mul(b, c) == Mul(a + b, c)
  {
  }
}
