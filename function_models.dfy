/** The three stateless curves that turn a distance into a packet-loss
    probability (`functionmodels.sigmoid`, `exponential` and `lineal`). */
module FunctionModels {
  import opened Numerics

  /** 1 / (1 + e^(-a(x - b))): a logistic curve of slope a centred on b. It
      stays strictly between 0 and 1 whatever its arguments. */
  function Sigmoid(m: MathLib, x: real, a: real, b: real): (r: real)
    ensures 0.0 < r < 1.0
  {
    1.0 / (1.0 + m.exp(-a * (x - b)))
  }

  /** a * e^(b x): it has the sign of a, and it is exactly 0 when a is. */
  function Exponential(m: MathLib, x: real, a: real, b: real): (r: real)
    ensures a > 0.0 ==> r > 0.0
    ensures a < 0.0 ==> r < 0.0
    ensures a == 0.0 ==> r == 0.0
  {
    a * m.exp(b * x)
  }

  /** a x + b: with a = 0 the curve is the constant b. */
  function Lineal(x: real, a: real, b: real): (r: real)
    ensures a == 0.0 ==> r == b
    ensures a > 0.0 ==> (r > b <==> x > 0.0)
  {
    a * x + b
  }

  /** At its centre the sigmoid is exactly one half. */
  lemma SigmoidAtCentre(m: MathLib, a: real, b: real)
    requires m.exp(0.0) == 1.0
    ensures Sigmoid(m, b, a, b) == 0.5
  {
    assert -a * (b - b) == 0.0;
  }

  /** With b = 0 the exponential is the constant a. */
  lemma ExponentialFlat(m: MathLib, x: real, a: real)
    requires m.exp(0.0) == 1.0
    ensures Exponential(m, x, a, 0.0) == a
  {
    assert 0.0 * x == 0.0;
  }

  /** The sigmoid climbs with the distance when a > 0, given an exponential
      that is increasing. */
  lemma SigmoidMonotone(m: MathLib, x1: real, x2: real, a: real, b: real)
    requires forall u, v :: u < v ==> m.exp(u) < m.exp(v)
    requires a > 0.0 && x1 < x2
    ensures Sigmoid(m, x1, a, b) < Sigmoid(m, x2, a, b)
  {
    var u1, u2 := -a * (x1 - b), -a * (x2 - b);
    assert u2 < u1 by {
      assert u1 - u2 == a * (x2 - x1);
      assert a * (x2 - x1) > 0.0;
    }
    var e1, e2 := m.exp(u1), m.exp(u2);
    assert e2 < e1;
    var d1, d2 := 1.0 + e1, 1.0 + e2;
    assert 1.0 / d1 < 1.0 / d2 by {
      assert 0.0 < d2 < d1;
    }
  }
}
