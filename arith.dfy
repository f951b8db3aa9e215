/**
 * Small facts of real arithmetic that the solver does not find on its own
 * once products of variables are involved.  Each is stated on its
 * parameters only, so a caller pays for one multiplication at a time.
 */
module RealArith {
  lemma MulMonotone(k: real, a: real, b: real)
    requires k >= 0.0 && a <= b
    ensures k * a <= k * b
  {
    assert k * (b - a) >= 0.0;
  }

  lemma MulStrict(k: real, a: real, b: real)
    requires k > 0.0 && a < b
    ensures k * a < k * b
  {
    assert k * (b - a) > 0.0;
  }

  lemma MulDistributes(k: real, a: real, b: real)
    ensures k * (a + b) == k * a + k * b
  {
  }

  lemma MulNonnegative(a: real, b: real)
    requires a >= 0.0 && b >= 0.0
    ensures a * b >= 0.0
  {
  }

  lemma ScaleSign(q: real, r: real)
    requires q > 0.0
    ensures q * r < 0.0 <==> r < 0.0
  {
    if r < 0.0 {
      assert q * (0.0 - r) > 0.0;
    } else {
      assert q * r >= 0.0;
    }
  }

  lemma CancelDivision(a: real, b: real, q: real)
    requires a != 0.0 && q == b / a
    ensures a * q == b
  {
  }

  lemma ScaledAtMost(b: real, s: real)
    requires b >= 0.0 && s <= 1.0
    ensures b * s <= b
  {
    assert b * (1.0 - s) >= 0.0;
  }

  lemma CancelFactor(k: real, a: real, b: real)
    requires k != 0.0 && k * a == k * b
    ensures a == b
  {
    assert a == (k * a) / k;
    assert b == (k * b) / k;
  }
}
