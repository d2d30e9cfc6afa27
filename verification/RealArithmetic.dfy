/** Products and quotients of reals, one small fact at a time. */
module RealArithmetic {
  /** Multiplication under a name, so that a proof can treat a product as one number. */
  function Times(a: real, b: real): real {
    a * b
  }

  lemma TimesSigns(a: real, b: real)
    ensures a >= 0.0 && b >= 0.0 ==> Times(a, b) >= 0.0
    ensures a > 0.0 && b > 0.0 ==> Times(a, b) > 0.0
    ensures Times(a, b) == Times(b, a)
  {
  }

  lemma TimesMonotone(a: real, b: real, f: real)
    requires a <= b && f >= 0.0
    ensures Times(a, f) <= Times(b, f)
    ensures a < b && f > 0.0 ==> Times(a, f) < Times(b, f)
  {
    TimesSigns(b - a, f);
    assert Times(b - a, f) == Times(b, f) - Times(a, f);
  }

  lemma SquaresOrder(x: real, y: real)
    requires y >= 0.0 && Times(x, x) <= Times(y, y)
    ensures x <= y
  {
    assert Times(x - y, x + y) == Times(x, x) - Times(y, y);
    if x > y { TimesSigns(x - y, x + y); }
  }

  lemma Quotient(a: real, b: real)
    requires a >= 0.0 && b > 0.0
    ensures a / b >= 0.0
    ensures a / b == 0.0 <==> a == 0.0
    ensures a / b < 1.0 <==> a < b
    ensures a == b ==> a / b == 1.0
  {
    var q := a / b;
    assert Times(q, b) == a && Times(1.0, b) == b && Times(0.0, b) == 0.0;
    hide Times;
    if q < 0.0 { TimesMonotone(q, 0.0, b); }
    if q > 0.0 { TimesMonotone(0.0, q, b); }
    if q > 1.0 { TimesMonotone(1.0, q, b); }
    if q < 1.0 { TimesMonotone(q, 1.0, b); }
  }

  lemma CappedRatio(a: real, b: real)
    requires b > 0.0
    ensures a / b < 1.0 <==> a < b
  {
    var q := a / b;
    assert Times(q, b) == a && Times(1.0, b) == b;
    hide Times;
    if q > 1.0 { TimesMonotone(1.0, q, b); }
    if q < 1.0 { TimesMonotone(q, 1.0, b); }
  }

  lemma QuotientFalls(t: real, p: real, q: real)
    requires t > 0.0 && 0.0 < q < p
    ensures 0.0 < t / p < t / q
  {
    var x, y := t / p, t / q;
    assert Times(x, p) == t && Times(y, q) == t;
    Quotient(t, p);
    Quotient(t, q);
    hide Times;
    if y <= x {
      TimesMonotone(y, x, q);
      TimesMonotone(q, p, x);
      TimesSigns(q, x);
      TimesSigns(p, x);
    }
  }

  lemma SquareOfProduct(d: real, c: real)
    ensures Times(Times(d, c), Times(d, c)) == Times(Times(d, d), Times(c, c))
  {
  }

  lemma SwapFactors(p: real, q: real, a: real, b: real)
    ensures Times(Times(p, q), Times(Times(a, b), Times(a, b))) == Times(Times(p, Times(b, b)), Times(q, Times(a, a)))
  {
  }

  lemma SquareOfSum(u: real, v: real)
    ensures Times(u + v, u + v) == Times(u - v, u - v) + 4.0 * Times(u, v)
  {
  }

  lemma SquareOfDouble(e: real)
    ensures Times(2.0 * e, 2.0 * e) == 4.0 * Times(e, e)
  {
  }

  lemma SquareIsNonNegative(x: real)
    ensures Times(x, x) >= 0.0
  {
  }

  lemma CrossTerm(d: real, p: real, q: real, a: real, b: real)
    requires p >= 0.0 && q >= 0.0 && Times(d, d) <= Times(p, q)
    ensures 2.0 * Times(d, Times(a, b)) <= Times(p, Times(b, b)) + Times(q, Times(a, a))
  {
    hide Times;
    var c, e, u, v := Times(a, b), Times(d, Times(a, b)), Times(p, Times(b, b)), Times(q, Times(a, a));
    SquareOfProduct(d, c);
    SwapFactors(p, q, a, b);
    SquareOfSum(u, v);
    SquareOfDouble(e);
    SquareIsNonNegative(a);
    SquareIsNonNegative(b);
    SquareIsNonNegative(c);
    SquareIsNonNegative(u - v);
    TimesSigns(p, Times(b, b));
    TimesSigns(q, Times(a, a));
    TimesMonotone(Times(d, d), Times(p, q), Times(c, c));
    SquaresOrder(2.0 * e, u + v);
  }

  lemma Expand(d: real, p: real, q: real, a: real, b: real)
    ensures var d1, p1, q1 := d + Times(a, b), p + Times(a, a), q + Times(b, b);
      Times(p1, q1) - Times(d1, d1)
        == Times(p, q) - Times(d, d) + Times(p, Times(b, b)) + Times(q, Times(a, a)) - 2.0 * Times(d, Times(a, b))
  {
  }

  /** One more coordinate in the Cauchy-Schwarz inequality. */
  lemma CauchySchwarzStep(d: real, p: real, q: real, a: real, b: real)
    requires p >= 0.0 && q >= 0.0 && Times(d, d) <= Times(p, q)
    ensures var d1, p1, q1 := d + Times(a, b), p + Times(a, a), q + Times(b, b);
      p1 >= 0.0 && q1 >= 0.0 && Times(d1, d1) <= Times(p1, q1)
  {
    hide Times;
    CrossTerm(d, p, q, a, b);
    Expand(d, p, q, a, b);
    SquareIsNonNegative(a);
    SquareIsNonNegative(b);
  }
}
