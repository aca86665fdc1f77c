/** Facts about real multiplication that the statistics rely on, proved from
    small steps the solver can take on its own. */
module RealArith {

  /** x^2, the building block of the variance. */
  function Square(x: real): real {
    x * x
  }

  /** A square is never negative. */
  lemma SquareNonNegative(x: real)
    ensures Square(x) >= 0.0
  {
  }

  /** Dividing a square by its non-zero root gives the root back. */
  lemma SquareDivides(x: real)
    requires x != 0.0
    ensures Square(x) / x == x
  {
  }

  /** Only zero squares to zero. */
  lemma SquareZero(x: real)
    requires Square(x) == 0.0
    ensures x == 0.0
  {
    if x != 0.0 {
      SquareDivides(x);
    }
  }

  /** Multiplying and dividing by a non-zero real cancel. */
  lemma MulDivCancel(a: real, b: real)
    requires b != 0.0
    ensures (a * b) / b == a
  {
  }

  /** A product with a non-zero factor is zero only when the other factor is. */
  lemma ZeroFactor(a: real, b: real)
    requires b != 0.0 && a * b == 0.0
    ensures a == 0.0
  {
    MulDivCancel(a, b);
  }

  /** Multiplying by a positive real preserves strict order. */
  lemma MulStrict(a: real, b: real, c: real)
    requires a < b && c > 0.0
    ensures a * c < b * c
  {
  }

  /** Multiplying by a non-negative real preserves order. */
  lemma MulWeak(a: real, b: real, c: real)
    requires a <= b && c >= 0.0
    ensures a * c <= b * c
  {
  }

  /** A product with a positive factor keeps the sign of the other factor. */
  lemma NonNegativeFactor(a: real, k: real)
    requires k > 0.0 && a * k >= 0.0
    ensures a >= 0.0
  {
    if a < 0.0 {
      MulStrict(a, 0.0, k);
    }
  }

  /** Dividing and multiplying back by a non-zero real cancel. */
  lemma DivMulCancel(a: real, k: real)
    requires k != 0.0
    ensures (a / k) * k == a
  {
  }

  /** A non-negative real divided by a positive one stays non-negative. */
  lemma DivNonNegative(a: real, k: real)
    requires a >= 0.0 && k > 0.0
    ensures a / k >= 0.0
  {
    DivMulCancel(a, k);
    NonNegativeFactor(a / k, k);
  }

  /** A quotient of a non-negative real multiplies back to it, and stays
      non-negative unless the divisor is negative and the dividend non-zero. */
  lemma QuotientNonNegative(a: real, k: real)
    requires a >= 0.0 && k != 0.0 && (k < 0.0 ==> a == 0.0)
    ensures (a / k) * k == a
    ensures a / k >= 0.0
  {
    DivMulCancel(a, k);
    if k > 0.0 {
      DivNonNegative(a, k);
    }
  }

  /** A positive multiple of a square is non-negative, and zero only at zero. */
  lemma ScaledSquare(n: real, x: real)
    requires n > 0.0
    ensures n * Square(x) >= 0.0
    ensures n * Square(x) == 0.0 <==> x == 0.0
  {
    SquareNonNegative(x);
    MulWeak(0.0, Square(x), n);
    assert Square(x) * n == n * Square(x);
    if n * Square(x) == 0.0 {
      ZeroFactor(Square(x), n);
      SquareZero(x);
    }
  }

  /** Dividing by the same k > 0 keeps the order of two sums sc >= sm, and
      the quotients are equal exactly when the sums are. */
  lemma QuotientOrder(vc: real, vm: real, k: real, sc: real, sm: real)
    requires k > 0.0 && vc * k == sc && vm * k == sm && sc >= sm
    ensures vc >= vm
    ensures vc == vm <==> sc == sm
  {
    assert (vc - vm) * k == sc - sm;
    NonNegativeFactor(vc - vm, k);
    if sc == sm {
      ZeroFactor(vc - vm, k);
    }
  }

  /** A sum s >= 0 divided by n - 1 is at least the same sum divided by n
      (for n > 1), with equality exactly when s is zero. */
  lemma BesselGap(s: real, n: real, vs: real, vp: real)
    requires n > 1.0 && s >= 0.0 && vs * (n - 1.0) == s && vp * n == s
    ensures vs >= vp
    ensures vs == vp <==> s == 0.0
  {
    NonNegativeFactor(vs, n - 1.0);
    assert vs * (n - 1.0) == vs * n - vs;
    assert (vs - vp) * n == vs;
    NonNegativeFactor(vs - vp, n);
    if vs == vp {
      assert vs == 0.0;
    }
    if s == 0.0 {
      ZeroFactor(vs, n - 1.0);
      ZeroFactor(vp, n);
    }
  }

  /** Square is monotone on the non-negative reals. */
  lemma SquareMonotone(s: real, t: real)
    requires 0.0 <= s <= t
    ensures Square(s) <= Square(t)
  {
    MulWeak(s, t, s);
    MulWeak(s, t, t);
    assert t * s == s * t;
  }

  /** Two non-negative reals with the same square are equal. */
  lemma SquareRootUnique(s: real, t: real)
    requires s >= 0.0 && t >= 0.0 && Square(s) == Square(t)
    ensures s == t
  {
    if s != t {
      assert (s - t) * (s + t) == Square(s) - Square(t);
      ZeroFactor(s - t, s + t);
    }
  }

  /** (x - c)^2 = (x - m)^2 + 2 (m - c)(x - m) + (m - c)^2. */
  lemma SquareRecentre(x: real, c: real, m: real)
    ensures Square(x - c) == Square(x - m) + 2.0 * (m - c) * (x - m) + Square(m - c)
  {
    var u, v := x - m, m - c;
    assert x - c == u + v;
    assert (u + v) * (u + v) == u * u + 2.0 * v * u + v * v;
  }

  /** One inductive step of summing a * u + q over a list: the head term
      added to a tail sum already in closed form. */
  lemma ShiftCons(u: real, a: real, q: real, rest: real, sd: real, n: real,
                  whole: real, sdWhole: real, n1: real)
    requires rest == a * sd + n * q
    requires whole == a * u + q + rest && sdWhole == u + sd && n1 == n + 1.0
    ensures whole == a * sdWhole + n1 * q
  {
    assert a * (u + sd) == a * u + a * sd;
    assert (n + 1.0) * q == n * q + q;
  }
}
