/** The two-state Kalman filter in matrix form: prediction F P F' + Q, and the posterior of any gain
    K, (I - K H) P (I - K H)' + K R K'. The filter's closed formulas are measured against these. */
module KalmanTheory {
  import opened Reals

  datatype Matrix = Matrix(m00: real, m01: real, m10: real, m11: real)

  function Times(a: Matrix, b: Matrix): Matrix {
    Matrix(a.m00 * b.m00 + a.m01 * b.m10, a.m00 * b.m01 + a.m01 * b.m11,
           a.m10 * b.m00 + a.m11 * b.m10, a.m10 * b.m01 + a.m11 * b.m11)
  }

  function Plus(a: Matrix, b: Matrix): Matrix {
    Matrix(a.m00 + b.m00, a.m01 + b.m01, a.m10 + b.m10, a.m11 + b.m11)
  }

  function Transposed(a: Matrix): Matrix {
    Matrix(a.m00, a.m10, a.m01, a.m11)
  }

  /** A symmetric 2x2 covariance, stored as three numbers. */
  datatype Cov = Cov(p00: real, p01: real, p11: real) {
    function ToMatrix(): Matrix {
      Matrix(p00, p01, p01, p11)
    }

    function Determinant(): real {
      p00 * p11 - p01 * p01
    }

    predicate PositiveDefinite() {
      p00 > 0.0 && p11 > 0.0 && Determinant() > 0.0
    }
  }

  /** Prediction over dt with transition F = [[1, dt], [0, 1]] and noise Q = diag(q0, q1). */
  function Predicted(p: Cov, dt: real, q0: real, q1: real): Matrix {
    var f := Matrix(1.0, dt, 0.0, 1.0);
    Plus(Times(Times(f, p.ToMatrix()), Transposed(f)), Matrix(q0, 0.0, 0.0, q1))
  }

  /** Error covariance after correcting with gain (k0, k1) a level measured with noise r. */
  function Posterior(p: Cov, k0: real, k1: real, r: real): Matrix {
    var a := Matrix(1.0 - k0, 0.0, -k1, 1.0);
    Plus(Times(Times(a, p.ToMatrix()), Transposed(a)), Matrix(r * k0 * k0, r * k0 * k1, r * k1 * k0, r * k1 * k1))
  }

  // ---- the closed formulas of the filter ----

  function PredictedCov(p: Cov, dt: real, q0: real, q1: real): Cov {
    Cov(p.p00 + 2.0 * dt * p.p01 + dt * dt * p.p11 + q0, p.p01 + dt * p.p11, p.p11 + q1)
  }

  function Gain0(p: Cov, r: real): real
    requires p.p00 + r != 0.0
  {
    p.p00 / (p.p00 + r)
  }

  function Gain1(p: Cov, r: real): real
    requires p.p00 + r != 0.0
  {
    p.p01 / (p.p00 + r)
  }

  function CorrectedCov(p: Cov, r: real): Cov
    requires p.p00 + r != 0.0
  {
    var k0, k1 := Gain0(p, r), Gain1(p, r);
    Cov((1.0 - k0) * p.p00, (1.0 - k0) * p.p01, -k1 * p.p01 + p.p11)
  }

  lemma PredictionMatches(p: Cov, dt: real, q0: real, q1: real)
    ensures PredictedCov(p, dt, q0, q1).ToMatrix() == Predicted(p, dt, q0, q1)
  {
    var a, b, c := p.p00, p.p01, p.p11;
    var m := Predicted(p, dt, q0, q1);
    assert m.m00 == (1.0 * a + dt * b) * 1.0 + (1.0 * b + dt * c) * dt + q0;
    assert (b + dt * c) * dt == dt * b + dt * dt * c;
    assert m.m01 == (1.0 * a + dt * b) * 0.0 + (1.0 * b + dt * c) * 1.0 + 0.0;
    assert m.m10 == (0.0 * a + 1.0 * b) * 1.0 + (0.0 * b + 1.0 * c) * dt + 0.0;
    assert m.m11 == (0.0 * a + 1.0 * b) * 0.0 + (0.0 * b + 1.0 * c) * 1.0 + q1;
  }

  lemma Gains(p: Cov, r: real)
    requires p.p00 + r != 0.0
    ensures Gain0(p, r) * (p.p00 + r) == p.p00
    ensures Gain1(p, r) * (p.p00 + r) == p.p01
  {
  }

  /** (1 - k0) p00 = r k0 and (1 - k0) p01 = r k1: what the gains are chosen for. */
  lemma GainBalance(p: Cov, k0: real, k1: real, r: real)
    requires k0 * (p.p00 + r) == p.p00 && k1 * (p.p00 + r) == p.p01
    ensures (1.0 - k0) * p.p00 == r * k0
    ensures (p.p00 + r != 0.0) ==> (1.0 - k0) * p.p01 == r * k1 && k1 * p.p00 == k0 * p.p01
  {
    assert (1.0 - k0) * p.p00 == p.p00 - k0 * p.p00;
    if p.p00 + r != 0.0 {
      var s := p.p00 + r;
      assert k1 * p.p00 == k1 * (k0 * s);
      assert k0 * p.p01 == k0 * (k1 * s);
      assert k1 * (k0 * s) == k0 * (k1 * s);
      assert (1.0 - k0) * p.p01 == p.p01 - k0 * p.p01;
      assert p.p01 == k1 * p.p00 + k1 * r;
    }
  }

  /** The filter's short update equals the general posterior at its own gain. */
  lemma CorrectionMatches(p: Cov, r: real)
    requires p.p00 + r != 0.0
    ensures CorrectedCov(p, r).ToMatrix() == Posterior(p, Gain0(p, r), Gain1(p, r), r)
  {
    var k0, k1 := Gain0(p, r), Gain1(p, r);
    Gains(p, r);
    GainBalance(p, k0, k1, r);
    hide Gain0, Gain1;
    Expanded(p, k0, k1, r);
  }

  lemma Expanded(p: Cov, k0: real, k1: real, r: real)
    requires (1.0 - k0) * p.p00 == r * k0 && (1.0 - k0) * p.p01 == r * k1 && k1 * p.p00 == k0 * p.p01
    ensures Posterior(p, k0, k1, r)
         == Matrix((1.0 - k0) * p.p00, (1.0 - k0) * p.p01, (1.0 - k0) * p.p01, -k1 * p.p01 + p.p11)
  {
    var a, b, c, u := p.p00, p.p01, p.p11, 1.0 - k0;
    var m := Posterior(p, k0, k1, r);
    assert m.m00 == u * a * u + r * k0 * k0;
    assert u * a * u == r * k0 * u;
    assert r * k0 * u + r * k0 * k0 == r * k0;
    assert m.m01 == u * a * (-k1) + u * b + r * k0 * k1;
    assert u * a * (-k1) == -(r * k0 * k1);
    assert m.m10 == (-k1 * a + b) * u + r * k1 * k0;
    assert (-k1 * a + b) * u == -(k1 * (u * a)) + b * u;
    assert k1 * (u * a) == k1 * (r * k0);
    assert m.m11 == (-k1 * a + b) * (-k1) + (-k1 * b + c) + r * k1 * k1;
    assert (-k1 * a + b) * (-k1) == k1 * (k1 * a) - k1 * b;
    assert k1 * (k1 * a) == k1 * (k0 * b) == k0 * (k1 * b);
    assert k1 * b - k0 * (k1 * b) == k1 * (u * b) == k1 * (r * k1);
  }

  /** No gain does better: the error variance of both states is at least that of the filter, and equal
      only at the filter's gain. */
  lemma GainIsOptimal(p: Cov, k0: real, k1: real, r: real)
    requires p.p00 + r > 0.0
    ensures Posterior(p, k0, k1, r).m00 >= CorrectedCov(p, r).p00
    ensures Posterior(p, k0, k1, r).m11 >= CorrectedCov(p, r).p11
    ensures Posterior(p, k0, k1, r).m00 == CorrectedCov(p, r).p00 <==> k0 == Gain0(p, r)
    ensures Posterior(p, k0, k1, r).m11 == CorrectedCov(p, r).p11 <==> k1 == Gain1(p, r)
  {
    Gains(p, r);
    hide Posterior;
    LevelExcess(p, k0, k1, Gain0(p, r), r);
    DriftExcess(p, k0, k1, Gain1(p, r), r);
  }

  lemma LevelExcess(p: Cov, k0: real, k1: real, g: real, r: real)
    requires p.p00 + r > 0.0 && g * (p.p00 + r) == p.p00
    ensures Posterior(p, k0, k1, r).m00 >= (1.0 - g) * p.p00
    ensures Posterior(p, k0, k1, r).m00 == (1.0 - g) * p.p00 <==> k0 == g
  {
    var d := k0 - g;
    var square := d * d;
    var excess := (p.p00 + r) * square;
    SquareExcess(p.p00 + r, d, square, excess);
    Excess0(p, k0, k1, g, r, d, square, excess);
  }

  lemma DriftExcess(p: Cov, k0: real, k1: real, g: real, r: real)
    requires p.p00 + r > 0.0 && g * (p.p00 + r) == p.p01
    ensures Posterior(p, k0, k1, r).m11 >= -g * p.p01 + p.p11
    ensures Posterior(p, k0, k1, r).m11 == -g * p.p01 + p.p11 <==> k1 == g
  {
    var d := k1 - g;
    var square := d * d;
    var excess := (p.p00 + r) * square;
    SquareExcess(p.p00 + r, d, square, excess);
    Excess1(p, k0, k1, g, r, d, square, excess);
  }

  lemma SquareExcess(s: real, d: real, square: real, excess: real)
    requires s > 0.0 && square == d * d && excess == s * square
    ensures excess >= 0.0 && (excess == 0.0 <==> d == 0.0)
  {
    if d != 0.0 {
      NonZeroSquare(d, square);
      PositiveProduct(s, square);
    }
  }

  lemma NonZeroSquare(d: real, square: real)
    requires d != 0.0 && square == d * d
    ensures square > 0.0
  {
    if d < 0.0 {
      ProductIsPositive(-d, -d, square);
    } else {
      ProductIsPositive(d, d, square);
    }
  }

  lemma ProductIsPositive(x: real, y: real, product: real)
    requires x > 0.0 && y > 0.0 && product == x * y
    ensures product > 0.0
  {
  }

  lemma Excess0(p: Cov, k0: real, k1: real, g: real, r: real, d: real, square: real, excess: real)
    requires g * (p.p00 + r) == p.p00
    requires d == k0 - g && square == d * d && excess == (p.p00 + r) * square
    ensures Posterior(p, k0, k1, r).m00 == (1.0 - g) * p.p00 + excess
  {
    Completed(p.p00, g, p.p00 + r, d, square, excess);
    var a := p.p00;
    assert Posterior(p, k0, k1, r).m00 == (1.0 - k0) * a * (1.0 - k0) + r * k0 * k0;
    assert (1.0 - k0) * a * (1.0 - k0) == a - 2.0 * (k0 * a) + k0 * k0 * a;
    assert k0 * k0 * a + r * k0 * k0 == (a + r) * (k0 * k0);
  }

  lemma Excess1(p: Cov, k0: real, k1: real, g: real, r: real, d: real, square: real, excess: real)
    requires g * (p.p00 + r) == p.p01
    requires d == k1 - g && square == d * d && excess == (p.p00 + r) * square
    ensures Posterior(p, k0, k1, r).m11 == -g * p.p01 + p.p11 + excess
  {
    Completed(p.p01, g, p.p00 + r, d, square, excess);
    var a, b, c := p.p00, p.p01, p.p11;
    assert Posterior(p, k0, k1, r).m11 == (-k1 * a + b) * (-k1) + (-k1 * b + c) + r * k1 * k1;
    assert (-k1 * a + b) * (-k1) == k1 * k1 * a - k1 * b;
    assert k1 * k1 * a + r * k1 * k1 == (a + r) * (k1 * k1);
  }

  /** Completing the square: -2 k b + k^2 s = -g b + s (k - g)^2 for g s = b and k = g + d. */
  lemma Completed(b: real, g: real, s: real, d: real, square: real, excess: real)
    requires g * s == b && square == d * d && excess == s * square
    ensures s * ((g + d) * (g + d)) - 2.0 * ((g + d) * b) == -(g * b) + excess
  {
    assert (g + d) * (g + d) == g * g + 2.0 * (g * d) + square;
    assert s * (g * g + 2.0 * (g * d) + square) == g * (g * s) + 2.0 * (d * (g * s)) + s * square;
  }

  // ---- positive definiteness ----

  lemma PredictionStaysPositive(p: Cov, dt: real, q0: real, q1: real)
    requires p.PositiveDefinite() && q0 >= 0.0 && q1 >= 0.0
    ensures PredictedCov(p, dt, q0, q1).PositiveDefinite()
    ensures p.p01 >= 0.0 && dt > 0.0 ==> PredictedCov(p, dt, q0, q1).p01 > 0.0
  {
    var a, b, c := p.p00, p.p01, p.p11;
    var spread := a + 2.0 * dt * b + dt * dt * c;
    var cross := b + dt * c;
    assert c * spread == cross * cross + (a * c - b * b);
    Square(cross);
    PositiveFactor(c, spread);
    var n := PredictedCov(p, dt, q0, q1);
    assert n.Determinant() == (spread + q0) * (c + q1) - cross * cross;
    assert (spread + q0) * (c + q1) == c * spread + spread * q1 + q0 * (c + q1);
    NonNegative(spread, q1);
    NonNegative(q0, c + q1);
    if b >= 0.0 && dt > 0.0 {
      assert dt * c > 0.0;
    }
  }

  lemma Square(x: real)
    ensures x * x >= 0.0
  {
  }

  lemma PositiveFactor(c: real, x: real)
    requires c > 0.0 && c * x > 0.0
    ensures x > 0.0
  {
  }

  lemma PositiveProduct(x: real, y: real)
    requires x > 0.0 && y > 0.0
    ensures x * y > 0.0
  {
  }

  /** Correcting with measurement noise r > 0: the gain on the level lies strictly between 0 and 1, the
      covariance stays positive definite, and the level variance falls below both the predicted one
      and the measurement noise. */
  lemma CorrectionStaysPositive(p: Cov, r: real)
    requires p.PositiveDefinite() && r > 0.0
    ensures 0.0 < Gain0(p, r) < 1.0
    ensures CorrectedCov(p, r).PositiveDefinite()
    ensures CorrectedCov(p, r).p00 < p.p00 && CorrectedCov(p, r).p00 < r
    ensures p.p01 > 0.0 ==> CorrectedCov(p, r).p01 > 0.0 && Gain1(p, r) > 0.0
  {
    Gains(p, r);
    CorrectionCore(p, Gain0(p, r), Gain1(p, r), r, CorrectedCov(p, r));
  }

  lemma CorrectionCore(p: Cov, k0: real, k1: real, r: real, n: Cov)
    requires p.PositiveDefinite() && r > 0.0
    requires k0 * (p.p00 + r) == p.p00 && k1 * (p.p00 + r) == p.p01
    requires n == Cov((1.0 - k0) * p.p00, (1.0 - k0) * p.p01, -k1 * p.p01 + p.p11)
    ensures 0.0 < k0 < 1.0 && n.PositiveDefinite()
    ensures n.p00 < p.p00 && n.p00 < r
    ensures p.p01 > 0.0 ==> n.p01 > 0.0 && k1 > 0.0
  {
    GainInside(p, k0, r);
    GainBalance(p, k0, k1, r);
    LevelVarianceShrinks(p, k0, r);
    DeterminantShrinks(p, k0, k1, r, n);
    ProductIsPositive(1.0 - k0, p.Determinant(), n.Determinant());
    SecondDiagonal(n);
    if p.p01 > 0.0 {
      ProductIsPositive(1.0 - k0, p.p01, n.p01);
      FactorIsPositive(p.p00 + r, k1, p.p01);
    }
  }

  lemma FactorIsPositive(s: real, k: real, product: real)
    requires s > 0.0 && product > 0.0 && k * s == product
    ensures k > 0.0
  {
    PositiveFactor(s, k);
  }

  lemma GainInside(p: Cov, k0: real, r: real)
    requires p.p00 > 0.0 && r > 0.0 && k0 * (p.p00 + r) == p.p00
    ensures 0.0 < k0 < 1.0
  {
    var s := p.p00 + r;
    PositiveFactor(s, k0);
    assert s * (1.0 - k0) == r;
    PositiveFactor(s, 1.0 - k0);
  }

  lemma LevelVarianceShrinks(p: Cov, k0: real, r: real)
    requires p.p00 > 0.0 && r > 0.0 && 0.0 < k0 < 1.0 && (1.0 - k0) * p.p00 == r * k0
    ensures 0.0 < (1.0 - k0) * p.p00 < p.p00 && (1.0 - k0) * p.p00 < r
  {
    PositiveProduct(r, 1.0 - k0);
    PositiveProduct(k0, p.p00);
    PositiveProduct(r, k0);
    assert r * k0 == r - r * (1.0 - k0);
    assert (1.0 - k0) * p.p00 == p.p00 - k0 * p.p00;
  }

  lemma SecondDiagonal(n: Cov)
    requires n.p00 > 0.0 && n.Determinant() > 0.0
    ensures n.p11 > 0.0
  {
    Square(n.p01);
    PositiveFactor(n.p00, n.p11);
  }

  /** The determinant is multiplied by 1 - k0. */
  lemma DeterminantShrinks(p: Cov, k0: real, k1: real, r: real, n: Cov)
    requires n == Cov((1.0 - k0) * p.p00, (1.0 - k0) * p.p01, -k1 * p.p01 + p.p11)
    requires k1 * p.p00 == k0 * p.p01
    ensures n.Determinant() == (1.0 - k0) * p.Determinant()
  {
    var a, b, c, u := p.p00, p.p01, p.p11, 1.0 - k0;
    assert n.Determinant() == u * a * (-k1 * b + c) - u * b * (u * b);
    assert u * a * (-k1 * b + c) == u * (a * c) - u * (b * (k1 * a));
    assert b * (k1 * a) == b * (k0 * b) == k0 * (b * b);
    assert u * b * (u * b) == u * (b * b) - u * (k0 * (b * b));
  }
}
