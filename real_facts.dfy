/** Small facts about real multiplication that the solver does not find on its own. */
module RealFacts {

  function Abs(x: real): real {
    if x < 0.0 then -x else x
  }

  function MinReal(a: real, b: real): (m: real)
    ensures m <= a && m <= b && (m == a || m == b)
  {
    if a <= b then a else b
  }

  lemma MulNonneg(a: real, b: real)
    requires a >= 0.0 && b >= 0.0
    ensures a * b >= 0.0
  {
  }

  lemma MulPos(a: real, b: real)
    requires a > 0.0 && b > 0.0
    ensures a * b > 0.0
  {
  }

  /** A quotient by a positive denominator has the sign of its numerator. */
  lemma QuotientSigns(a: real, b: real)
    requires a >= 0.0 && b > 0.0
    ensures a / b >= 0.0
    ensures a > 0.0 ==> a / b > 0.0
  {
    assert a / b * b == a;
  }

  /** Squaring is monotone on the non-negative reals. */
  lemma SquareMono(a: real, b: real)
    requires 0.0 <= a <= b
    ensures a * a <= b * b
  {
    MulNonneg(b - a, b + a);
    assert (b - a) * (b + a) == b * b - a * a;
  }

  /** Squaring is strictly monotone on the non-negative reals. */
  lemma SquareStrict(a: real, b: real)
    requires 0.0 <= a < b
    ensures a * a < b * b
  {
    MulPos(b - a, b + a);
    assert (b - a) * (b + a) == b * b - a * a;
  }

  /** Multiplying by a factor strictly between -1 and 1 does not increase a magnitude, and strictly decreases a non-zero one. */
  lemma ShrinkMagnitude(x: real, s: real)
    requires -1.0 < s < 1.0
    ensures Abs(x * s) <= Abs(x)
    ensures x != 0.0 ==> Abs(x * s) < Abs(x)
  {
    var m := Abs(s);
    assert Abs(x * s) == Abs(x) * m;
    MulNonneg(Abs(x), 1.0 - m);
    if x != 0.0 {
      MulPos(Abs(x), 1.0 - m);
    }
  }

  /** The square of a non-zero real is positive. */
  lemma SquarePos(r: real)
    requires r != 0.0
    ensures r * r > 0.0
  {
    if r > 0.0 {
      MulPos(r, r);
    } else {
      MulPos(-r, -r);
      assert (-r) * (-r) == r * r;
    }
  }

  /** A non-negative square root of a positive number is positive. */
  lemma RootPos(c: real, x: real)
    requires c >= 0.0 && c * c == x && x > 0.0
    ensures c > 0.0
  {
    if c == 0.0 { assert false; }
  }

  /** A value whose square is below one lies strictly between -1 and 1. */
  lemma SquareBelowOne(q: real)
    requires q * q < 1.0
    ensures -1.0 < q < 1.0
  {
  }

  /**
   * For a non-negative root c of lhs > r * r > 0, the quotient r / c is a
   * non-zero factor strictly between -1 and 1 with the sign of r.
   */
  lemma QuotientByRoot(r: real, lhs: real, c: real)
    requires c >= 0.0 && c * c == lhs && lhs > r * r && r * r > 0.0
    ensures c > 0.0
    ensures (r / c) * c == r
    ensures -1.0 < r / c < 1.0 && r / c != 0.0
    ensures r / c > 0.0 <==> r > 0.0
  {
    RootPos(c, lhs);
    var q := r / c;
    assert q * c == r;
    if q * q >= 1.0 { assert false; }
    SquareBelowOne(q);
    if q == 0.0 { assert false; }
  }

  /** Squaring s * c == r with c * c == x gives s * s * x == r * r. */
  lemma SquareOfProduct(s: real, c: real, r: real, x: real)
    requires s * c == r && c * c == x
    ensures s * s * x == r * r
  {
    assert (s * c) * (s * c) == s * s * (c * c);
  }

  /**
   * Shrinking the parts b and a of a corner (b + t, a + r) by 0 < s < 1
   * while keeping t >= 0 and r > 0 leaves it strictly farther out than
   * s times the original corner.
   */
  lemma ShrunkCornerOutside(s: real, a: real, r: real, b: real, t: real, rr: real, lhs: real)
    requires 0.0 < s < 1.0 && a >= 0.0 && r > 0.0 && b >= 0.0 && t >= 0.0
    requires lhs == (b + t) * (b + t) + (a + r) * (a + r)
    requires s * s * lhs == rr
    ensures (s * b + t) * (s * b + t) + (s * a + r) * (s * a + r) > rr
  {
    var h, k := s * (b + t), s * (a + r);
    MulNonneg(s, b + t);
    MulNonneg(1.0 - s, t);
    assert h <= s * b + t;
    SquareMono(h, s * b + t);
    MulNonneg(s, a + r);
    MulPos(1.0 - s, r);
    assert k < s * a + r;
    SquareStrict(k, s * a + r);
    assert h * h + k * k == s * s * lhs;
  }
}
