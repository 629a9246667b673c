/** Facts about real multiplication and division that the solver does not find unaided. */
module RealArith {

  /** Multiplying by a positive factor keeps a strict order. */
  lemma MulStrict(k: real, x: real, y: real)
    requires k > 0.0 && x < y
    ensures k * x < k * y
  {
    assert k * y - k * x == k * (y - x);
  }

  /** Multiplying by a non-negative factor keeps an order. */
  lemma MulWeak(k: real, x: real, y: real)
    requires k >= 0.0 && x <= y
    ensures k * x <= k * y
  {
    assert k * y - k * x == k * (y - x);
  }

  /** Two quotients with positive denominators compare as their cross products. */
  lemma DivStrict(a: real, b: real, c: real, d: real)
    requires b > 0.0 && d > 0.0 && a * d < c * b
    ensures a / b < c / d
  {
    var u, v := a / b, c / d;
    assert u * b == a;
    assert v * d == c;
    assert (u * b) * d < (v * d) * b;
    assert u * (b * d) < v * (b * d);
    if u >= v {
      MulWeak(b * d, v, u);
      assert false;
    }
  }

  /** `k x / d == k (x / d)`. */
  lemma MulDiv(k: real, x: real, d: real)
    requires d != 0.0
    ensures k * x / d == k * (x / d)
  {
    var y := x / d;
    assert y * d == x;
    assert (k * y) * d == k * x;
  }

  /** `k x / d * m == k (m x / d)`. */
  lemma MulDivTimes(k: real, x: real, d: real, m: real)
    requires d != 0.0
    ensures k * x / d * m == k * (m * x / d)
  {
    var y := x / d;
    var z := m * x / d;
    assert y * d == x;
    assert z * d == m * x;
    assert (k * y * m) * d == (k * z) * d;
  }
}
