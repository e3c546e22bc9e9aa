/** The vertical Kalman filter of sw/airborne/alt_vfilter.c: state (z, zdot, bias),
    covariance updated in place by predict, update_z and update_vz. */
module AltVfilter {
  import opened LinearAlgebra3

  const INIT_PXX := 10.0
  const Q_ZZ := 0.001
  const Q_ZDOT_ZDOT := 0.001
  const Q_BIAS_BIAS := 0.00001
  const R := 2.0 // measurement noise
  const GRAVITY := 9.81

  // ---------- The textbook filter ----------

  /** State and covariance. */
  datatype Estimate = Estimate(x: Vec, p: Mat)

  const PROCESS_NOISE := Mat(Q_ZZ, 0.0, 0.0, 0.0, Q_ZDOT_ZDOT, 0.0, 0.0, 0.0, Q_BIAS_BIAS)
  const OBSERVE_Z := Vec(1.0, 0.0, 0.0)
  const OBSERVE_ZDOT := Vec(0.0, 1.0, 0.0)

  function Transition(dt: real): Mat {
    Mat(1.0, dt, 0.0,
        0.0, 1.0, -dt,
        0.0, 0.0, 1.0)
  }

  function Predict(e: Estimate, dt: real, accel: real): Estimate {
    var f := Transition(dt);
    Estimate(VecAdd(MatVec(f, e.x), Vec(0.0, dt * (accel + GRAVITY), 0.0)),
             MatAdd(MatMul(MatMul(f, e.p), Transpose(f)), PROCESS_NOISE))
  }

  /** Covariance of the residual, h*P*h' + R. */
  function ResidualVariance(p: Mat, h: Vec): real {
    Quad(p, h) + R
  }

  function Gain(p: Mat, h: Vec): Vec
    requires ResidualVariance(p, h) != 0.0
  {
    VecScale(MatVec(p, h), 1.0 / ResidualVariance(p, h))
  }

  function Update(e: Estimate, h: Vec, measured: real): Estimate
    requires ResidualVariance(e.p, h) != 0.0
  {
    var k := Gain(e.p, h);
    Estimate(VecAdd(e.x, VecScale(k, measured - Dot(h, e.x))),
             MatSub(e.p, Outer(k, MatVec(Transpose(e.p), h))))
  }

  ghost predicate Sound(e: Estimate) {
    Symmetric(e.p) && PositiveDefinite(e.p)
  }

  /** Every residual variance is at least R. */
  lemma ResidualVarianceAtLeastR(e: Estimate, h: Vec)
    requires Sound(e)
    ensures ResidualVariance(e.p, h) >= R
  {
    hide Quad;
    QuadNonNegative(e.p, h);
  }

  // ---------- What a step keeps ----------

  lemma ScaledNoisePositive(x: Vec)
    requires x != ZERO
    ensures Quad(PROCESS_NOISE, x) > 0.0
  {
    assert Quad(PROCESS_NOISE, x) == Q_ZZ * (x.x * x.x) + Q_ZDOT_ZDOT * (x.y * x.y) + Q_BIAS_BIAS * (x.z * x.z);
    if x.x != 0.0 {
      assert x.x * x.x > 0.0;
    } else if x.y != 0.0 {
      assert x.y * x.y > 0.0;
    } else {
      assert x.z * x.z > 0.0;
    }
  }

  lemma PredictKeepsSound(e: Estimate, dt: real, accel: real)
    requires Sound(e)
    ensures Sound(Predict(e, dt, accel))
  {
    hide Quad, MatMul, Transition, MatVec;
    var f := Transition(dt);
    var fpf := MatMul(MatMul(f, e.p), Transpose(f));
    CongruenceSymmetric(f, e.p);
    forall x: Vec | x != ZERO
      ensures Quad(Predict(e, dt, accel).p, x) > 0.0
    {
      QuadAdd(fpf, PROCESS_NOISE, x);
      QuadCongruence(f, e.p, x);
      QuadNonNegative(e.p, MatVec(Transpose(f), x));
      ScaledNoisePositive(x);
    }
  }

  /** A measurement takes from the variance along `x` what it explains of it. */
  lemma QuadOfUpdate(e: Estimate, h: Vec, measured: real, x: Vec)
    requires Sound(e) && ResidualVariance(e.p, h) != 0.0
    ensures var s, b := ResidualVariance(e.p, h), Bilinear(e.p, x, h);
            Quad(Update(e, h, measured).p, x) == Quad(e.p, x) - b * b / s
  {
    hide Quad, MatVec, Outer, Dot, VecScale, MatSub;
    var s, ph := ResidualVariance(e.p, h), MatVec(e.p, h);
    var k := Gain(e.p, h);
    QuadAdd(e.p, Outer(k, ph), x);
    QuadOuter(k, ph, x);
    DotScale(x, ph, 1.0 / s);
  }

  lemma OuterScaledSymmetric(a: Vec, t: real)
    ensures Symmetric(Outer(VecScale(a, t), a))
  {
  }

  lemma UpdateKeepsSymmetric(e: Estimate, h: Vec, measured: real)
    requires Sound(e) && ResidualVariance(e.p, h) != 0.0
    ensures Symmetric(Update(e, h, measured).p)
  {
    hide MatVec, Outer, VecScale, PositiveDefinite;
    OuterScaledSymmetric(MatVec(e.p, h), 1.0 / ResidualVariance(e.p, h));
  }

  lemma DivideBelow(a: real, q: real, s: real)
    requires s > 0.0
    ensures a / s < q <==> a < q * s
    ensures a / s <= q <==> a <= q * s
  {
    var d := a / s;
    assert (q - d) * s == q * s - a;
  }

  lemma UpdateKeepsSound(e: Estimate, h: Vec, measured: real)
    requires Sound(e)
    ensures ResidualVariance(e.p, h) >= R
    ensures Sound(Update(e, h, measured))
  {
    hide Quad, Bilinear, Update;
    ResidualVarianceAtLeastR(e, h);
    UpdateKeepsSymmetric(e, h, measured);
    var s := ResidualVariance(e.p, h);
    forall x: Vec | x != ZERO
      ensures Quad(Update(e, h, measured).p, x) > 0.0
    {
      var b, q := Bilinear(e.p, x, h), Quad(e.p, x);
      QuadOfUpdate(e, h, measured, x);
      CauchySchwarz(e.p, x, h);
      assert q * (s - R) == q * s - q * R;
      DivideBelow(b * b, q, s);
    }
  }

  /** No measurement makes the filter less certain in any direction, so no
      diagonal entry grows. */
  lemma UpdateNeverLosesCertainty(e: Estimate, h: Vec, measured: real)
    requires Sound(e) && ResidualVariance(e.p, h) != 0.0
    ensures Dominates(e.p, Update(e, h, measured).p)
    ensures DiagonalAtMost(Update(e, h, measured).p, e.p)
  {
    hide Quad, Bilinear, Update, DiagonalAtMost;
    ResidualVarianceAtLeastR(e, h);
    forall x: Vec
      ensures Quad(e.p, x) >= Quad(Update(e, h, measured).p, x)
    {
      QuadOfUpdate(e, h, measured, x);
      var b := Bilinear(e.p, x, h);
      assert b * b >= 0.0;
      DivideBelow(-(b * b), 0.0, ResidualVariance(e.p, h));
    }
    DominatesDiagonal(e.p, Update(e, h, measured).p);
  }

  predicate DiagonalAtMost(a: Mat, b: Mat) {
    a.m00 <= b.m00 && a.m11 <= b.m11 && a.m22 <= b.m22
  }

  lemma DominatesDiagonal(a: Mat, b: Mat)
    requires Dominates(a, b)
    ensures DiagonalAtMost(b, a)
  {
    assert Quad(a, Vec(1.0, 0.0, 0.0)) >= Quad(b, Vec(1.0, 0.0, 0.0));
    assert Quad(a, Vec(0.0, 1.0, 0.0)) >= Quad(b, Vec(0.0, 1.0, 0.0));
    assert Quad(a, Vec(0.0, 0.0, 1.0)) >= Quad(b, Vec(0.0, 0.0, 1.0));
  }

  lemma ExplainedVariance(q: real)
    requires q >= 0.0
    ensures q - q * q / (q + R) < R
  {
    assert (q + R) * (q + R) == q * q + 2.0 * R * q + R * R;
    assert (q - R) * (q + R) == q * q - R * R;
    DivideBelow(-(q * q), R - q, q + R);
    assert -(q * q) / (q + R) == -(q * q / (q + R));
  }

  /** After a measurement the observed quantity is known better than the sensor
      alone knows it. */
  lemma UpdateBeatsSensor(e: Estimate, h: Vec, measured: real)
    requires Sound(e) && ResidualVariance(e.p, h) != 0.0
    ensures Quad(Update(e, h, measured).p, h) < R
  {
    hide Quad, Update;
    QuadNonNegative(e.p, h);
    QuadOfUpdate(e, h, measured, h);
    ExplainedVariance(Quad(e.p, h));
    assert Bilinear(e.p, h, h) == Quad(e.p, h) by {
      QuadIsBilinear(e.p, h);
    }
  }

  lemma QuadIsBilinear(p: Mat, h: Vec)
    ensures Bilinear(p, h, h) == Quad(p, h)
  {
  }

  // ---------- The gain is optimal ----------

  /** Covariance after a measurement used with any gain `k`. */
  function Joseph(p: Mat, h: Vec, k: Vec): Mat {
    var a := MatSub(IDENTITY, Outer(k, h));
    MatAdd(MatMul(MatMul(a, p), Transpose(a)), Outer(VecScale(k, R), k))
  }

  lemma JosephDirection(h: Vec, k: Vec, x: Vec)
    ensures MatVec(Transpose(MatSub(IDENTITY, Outer(k, h))), x) == VecAdd(x, VecScale(h, -Dot(k, x)))
  {
    hide Dot, MatVec, Outer, MatSub, Transpose;
    IdentityMinusOuterTransposed(k, h);
    MatVecSub(IDENTITY, Outer(h, k), x);
    IdentityVec(x);
    OuterVec(h, k, x);
    DotSymmetric(x, k);
  }

  lemma QuadOfJoseph(e: Estimate, h: Vec, k: Vec, x: Vec)
    requires Sound(e)
    ensures var t, b := Dot(k, x), Bilinear(e.p, x, h);
            Quad(Joseph(e.p, h, k), x) == Quad(e.p, x) - 2.0 * t * b + t * t * ResidualVariance(e.p, h)
  {
    hide Quad, Bilinear, MatMul, Transpose, Outer, MatSub, VecScale, VecAdd, MatAdd, MatVec, Dot;
    var t := Dot(k, x);
    var a := MatSub(IDENTITY, Outer(k, h));
    QuadAdd(MatMul(MatMul(a, e.p), Transpose(a)), Outer(VecScale(k, R), k), x);
    QuadCongruence(a, e.p, x);
    JosephDirection(h, k, x);
    QuadExpand(e.p, x, h, -t);
    QuadOuter(VecScale(k, R), k, x);
    DotScale(x, k, R);
    DotSymmetric(x, k);
  }

  /** Excess of the variance with gain component `t` over the one with `b / s`. */
  lemma ExcessIsSquare(t: real, b: real, s: real)
    requires s > 0.0
    ensures t * t * s - 2.0 * t * b + b * b / s == s * ((t - b / s) * (t - b / s)) >= 0.0
  {
    var g := b / s;
    assert g * s == b && b * b / s == g * b;
    var d := t - g;
    assert d * d >= 0.0;
    assert s * (d * d) == t * t * s - 2.0 * t * (g * s) + g * (g * s);
  }

  lemma GainAlong(p: Mat, h: Vec, x: Vec)
    requires ResidualVariance(p, h) != 0.0
    ensures Dot(Gain(p, h), x) == Bilinear(p, x, h) / ResidualVariance(p, h)
  {
    hide Dot, MatVec, VecScale;
    DotScale(x, MatVec(p, h), 1.0 / ResidualVariance(p, h));
  }

  /** For every other gain the resulting covariance dominates the code's, and the
      code's gain attains it. */
  lemma GainIsOptimal(e: Estimate, h: Vec, measured: real, k: Vec)
    requires Sound(e) && ResidualVariance(e.p, h) != 0.0
    ensures Dominates(Joseph(e.p, h, k), Update(e, h, measured).p)
    ensures k == Gain(e.p, h) ==> Dominates(Update(e, h, measured).p, Joseph(e.p, h, k))
  {
    hide Quad, Bilinear, Joseph, Update, Gain, Dot;
    var s := ResidualVariance(e.p, h);
    ResidualVarianceAtLeastR(e, h);
    forall x: Vec
      ensures Quad(Joseph(e.p, h, k), x) >= Quad(Update(e, h, measured).p, x)
      ensures k == Gain(e.p, h) ==> Quad(Update(e, h, measured).p, x) >= Quad(Joseph(e.p, h, k), x)
    {
      QuadOfJoseph(e, h, k, x);
      QuadOfUpdate(e, h, measured, x);
      ExcessIsSquare(Dot(k, x), Bilinear(e.p, x, h), s);
      GainAlong(e.p, h, x);
    }
  }

  // ---------- Errors follow the same equations ----------

  function VecSub(a: Vec, b: Vec): Vec {
    Vec(a.x - b.x, a.y - b.y, a.z - b.z)
  }

  /** If the true state moves by the model, prediction carries the error by the very matrix it
      carries the covariance by. */
  lemma PredictCarriesError(e: Estimate, truth: Vec, dt: real, accel: real)
    ensures var moved := VecAdd(MatVec(Transition(dt), truth), Vec(0.0, dt * (accel + GRAVITY), 0.0));
            VecSub(moved, Predict(e, dt, accel).x) == MatVec(Transition(dt), VecSub(truth, e.x))
  {
    hide MatMul, MatAdd;
    Products(dt, truth.y, e.x.y);
    Products(dt, truth.z, e.x.z);
  }

  lemma Products(dt: real, a: real, b: real)
    ensures dt * (a - b) == dt * a - dt * b
    ensures -dt * (a - b) == -dt * a + dt * b
  {
  }

  /** A noise-free measurement shrinks the error in what it observes by exactly R over the
      residual variance. */
  lemma ExactMeasurementShrinksError(e: Estimate, h: Vec, truth: Vec)
    requires Sound(e) && ResidualVariance(e.p, h) != 0.0
    ensures var e' := Update(e, h, Dot(h, truth));
            Dot(h, VecSub(truth, e'.x)) * ResidualVariance(e.p, h) == R * Dot(h, VecSub(truth, e.x))
  {
    hide Update, Gain, ResidualVariance, VecAdd, VecScale, VecSub, Dot, Sound;
    UpdatedState(e, h, Dot(h, truth));
    DotOfDifference(h, truth, e.x);
    Shrinks(e.p, h, truth, e.x, Update(e, h, Dot(h, truth)).x);
  }

  lemma Shrinks(p: Mat, h: Vec, truth: Vec, x: Vec, x': Vec)
    requires ResidualVariance(p, h) != 0.0
    requires x' == VecAdd(x, VecScale(Gain(p, h), Dot(h, VecSub(truth, x))))
    ensures Dot(h, VecSub(truth, x')) * ResidualVariance(p, h) == R * Dot(h, VecSub(truth, x))
  {
    hide Gain, ResidualVariance, VecAdd, VecScale, VecSub, Dot;
    GainObserved(p, h);
    ErrorAfter(h, x, truth, Gain(p, h), x');
    Shrunk(ResidualVariance(p, h), Dot(h, Gain(p, h)), Dot(h, VecSub(truth, x)), Dot(h, VecSub(truth, x')));
  }

  lemma UpdatedState(e: Estimate, h: Vec, measured: real)
    requires ResidualVariance(e.p, h) != 0.0
    ensures Update(e, h, measured).x == VecAdd(e.x, VecScale(Gain(e.p, h), measured - Dot(h, e.x)))
  {
    hide Gain, VecAdd, VecScale, Dot, MatSub, MatVec, Outer, Transpose, ResidualVariance;
  }

  lemma GainObserved(p: Mat, h: Vec)
    requires ResidualVariance(p, h) != 0.0
    ensures Dot(h, Gain(p, h)) * ResidualVariance(p, h) == ResidualVariance(p, h) - R
  {
    var v, s := MatVec(p, h), ResidualVariance(p, h);
    assert Dot(h, v) == s - R by { DotSymmetric(h, v); }
    hide Dot, MatVec, ResidualVariance;
    DotScale(h, v, 1.0 / s);
  }

  lemma ErrorAfter(h: Vec, x: Vec, truth: Vec, k: Vec, x': Vec)
    requires x' == VecAdd(x, VecScale(k, Dot(h, VecSub(truth, x))))
    ensures Dot(h, VecSub(truth, x')) == Dot(h, VecSub(truth, x)) - Dot(h, VecSub(truth, x)) * Dot(h, k)
  {
    hide Dot, VecSub, VecAdd, VecScale;
    var y := Dot(h, VecSub(truth, x));
    DotOfDifference(h, truth, x);
    DotOfDifference(h, truth, x');
    DotOfSum(h, x, VecScale(k, y));
    DotScale(h, k, y);
  }

  lemma DotOfDifference(h: Vec, a: Vec, b: Vec)
    ensures Dot(h, VecSub(a, b)) == Dot(h, a) - Dot(h, b)
  {
  }

  lemma DotOfSum(h: Vec, a: Vec, b: Vec)
    ensures Dot(h, VecAdd(a, b)) == Dot(h, a) + Dot(h, b)
  {
  }

  lemma Shrunk(s: real, hk: real, err: real, left: real)
    requires hk * s == s - R && left == err - err * hk
    ensures left * s == R * err
  {
    assert left * s == err * s - err * (hk * s);
  }

  // ---------- Whole runs ----------

  datatype Event = Predicted(accel: real) | MeasuredZ(z: real) | MeasuredVz(vz: real)

  function Initial(z: real, zdot: real, bias: real): Estimate {
    Estimate(Vec(z, zdot, bias), Mat(INIT_PXX, 0.0, 0.0, 0.0, INIT_PXX, 0.0, 0.0, 0.0, INIT_PXX))
  }

  ghost function Step(e: Estimate, dt: real, event: Event): (e': Estimate)
    requires Sound(e)
    ensures Sound(e')
  {
    match event
    case Predicted(accel) =>
      PredictKeepsSound(e, dt, accel);
      Predict(e, dt, accel)
    case MeasuredZ(z) =>
      UpdateKeepsSound(e, OBSERVE_Z, z);
      Update(e, OBSERVE_Z, z)
    case MeasuredVz(vz) =>
      UpdateKeepsSound(e, OBSERVE_ZDOT, vz);
      Update(e, OBSERVE_ZDOT, vz)
  }

  lemma InitialSound(z: real, zdot: real, bias: real)
    ensures Sound(Initial(z, zdot, bias))
  {
    var p := Initial(z, zdot, bias).p;
    forall x: Vec | x != ZERO
      ensures Quad(p, x) > 0.0
    {
      assert Quad(p, x) == INIT_PXX * (x.x * x.x + x.y * x.y + x.z * x.z);
      if x.x != 0.0 {
        assert x.x * x.x > 0.0;
      } else if x.y != 0.0 {
        assert x.y * x.y > 0.0;
      } else {
        assert x.z * x.z > 0.0;
      }
    }
  }

  /** The estimate after any events in any order; symmetric and positive definite. */
  ghost function Run(start: Estimate, dt: real, events: seq<Event>): (e: Estimate)
    requires Sound(start)
    ensures Sound(e)
  {
    if events == [] then start
    else Step(Run(start, dt, events[..|events| - 1]), dt, events[|events| - 1])
  }

  // ---------- The code ----------

  // One multiplication by the transition matrix adds a multiple of one entry to another, two
  // nest; `P` and `M` in a name are the signs along rows and along columns.

  function Plus(t: real, a: real, b: real): real { a + t * b }
  function Minus(t: real, a: real, b: real): real { a - t * b }
  function NestedPP(t: real, a: real, b: real, c: real, d: real): real { a + t * (b + c + t * d) }
  function NestedPM(t: real, a: real, b: real, c: real, d: real): real { a + t * (b - c - t * d) }
  function NestedMP(t: real, a: real, b: real, c: real, d: real): real { a + t * (-b + c - t * d) }
  function NestedMM(t: real, a: real, b: real, c: real, d: real): real { a + t * (-b - c + t * d) }
  function PlusMinus(t: real, a: real, b: real): real { a + t * (-b) }

  lemma Nesting(t: real, a: real, b: real, c: real, d: real)
    ensures Plus(t, Plus(t, a, b), Plus(t, c, d)) == NestedPP(t, a, b, c, d)
    ensures Minus(t, Plus(t, a, b), Plus(t, c, d)) == NestedPM(t, a, b, c, d)
    ensures Plus(t, Minus(t, a, b), Minus(t, c, d)) == NestedMP(t, a, b, c, d)
    ensures Minus(t, Minus(t, a, b), Minus(t, c, d)) == NestedMM(t, a, b, c, d)
    ensures Minus(t, a, b) == PlusMinus(t, a, b)
  {
    var td := t * d;
    assert t * (b + c + td) == t * b + t * c + t * td;
    assert t * (c + td) == t * c + t * td;
    assert t * (b - c - td) == t * b - t * c - t * td;
    assert t * (c - td) == t * c - t * td;
    assert t * (-b + c - td) == -(t * b) + t * c - t * td;
    assert t * (-b - c + td) == -(t * b) - t * c + t * td;
  }

  lemma LeftTransition(dt: real, p: Mat)
    ensures MatMul(Transition(dt), p)
         == Mat(Plus(dt, p.m00, p.m10), Plus(dt, p.m01, p.m11), Plus(dt, p.m02, p.m12),
                Minus(dt, p.m10, p.m20), Minus(dt, p.m11, p.m21), Minus(dt, p.m12, p.m22),
                p.m20, p.m21, p.m22)
  {
  }

  lemma RightTransition(dt: real, p: Mat)
    ensures MatMul(p, Transpose(Transition(dt)))
         == Mat(Plus(dt, p.m00, p.m01), Minus(dt, p.m01, p.m02), p.m02,
                Plus(dt, p.m10, p.m11), Minus(dt, p.m11, p.m12), p.m12,
                Plus(dt, p.m20, p.m21), Minus(dt, p.m21, p.m22), p.m22)
  {
  }

  lemma PredictNested(p: Mat, dt: real)
    ensures MatMul(MatMul(Transition(dt), p), Transpose(Transition(dt)))
         == Mat(NestedPP(dt, p.m00, p.m10, p.m01, p.m11), NestedPM(dt, p.m01, p.m11, p.m02, p.m12),
                Plus(dt, p.m02, p.m12),
                NestedMP(dt, p.m10, p.m20, p.m11, p.m21), NestedMM(dt, p.m11, p.m21, p.m12, p.m22),
                PlusMinus(dt, p.m12, p.m22),
                Plus(dt, p.m20, p.m21), PlusMinus(dt, p.m21, p.m22), p.m22)
  {
    hide MatMul, Transition, Transpose, Plus, Minus, PlusMinus, NestedPP, NestedPM, NestedMP, NestedMM;
    LeftTransition(dt, p);
    RightTransition(dt, MatMul(Transition(dt), p));
    Nesting(dt, p.m00, p.m10, p.m01, p.m11);
    Nesting(dt, p.m01, p.m11, p.m02, p.m12);
    Nesting(dt, p.m10, p.m20, p.m11, p.m21);
    Nesting(dt, p.m11, p.m21, p.m12, p.m22);
    Nesting(dt, p.m12, p.m22, p.m12, p.m22);
    Nesting(dt, p.m21, p.m22, p.m21, p.m22);
  }

  lemma Unnested(dt: real, p00: real, p01: real, p02: real, p10: real, p11: real, p12: real,
                 p20: real, p21: real, p22: real)
    ensures Mat(NestedPP(dt, p00, p10, p01, p11), NestedPM(dt, p01, p11, p02, p12), Plus(dt, p02, p12),
                NestedMP(dt, p10, p20, p11, p21), NestedMM(dt, p11, p21, p12, p22), PlusMinus(dt, p12, p22),
                Plus(dt, p20, p21), PlusMinus(dt, p21, p22), p22)
         == Mat(p00 + dt * (p10 + p01 + dt * p11),
                p01 + dt * (p11 - p02 - dt * p12),
                p02 + dt * p12,
                p10 + dt * (-p20 + p11 - dt * p21),
                p11 + dt * (-p21 - p12 + dt * p22),
                p12 + dt * (-p22),
                p20 + dt * p21,
                p21 + dt * (-p22),
                p22)
  {
  }

  /** The nine expressions of the code are the matrix product. */
  lemma PredictByEntries(p: Mat, dt: real)
    ensures MatMul(MatMul(Transition(dt), p), Transpose(Transition(dt)))
         == Mat(p.m00 + dt * (p.m10 + p.m01 + dt * p.m11),
                p.m01 + dt * (p.m11 - p.m02 - dt * p.m12),
                p.m02 + dt * p.m12,
                p.m10 + dt * (-p.m20 + p.m11 - dt * p.m21),
                p.m11 + dt * (-p.m21 - p.m12 + dt * p.m22),
                p.m12 + dt * (-p.m22),
                p.m20 + dt * p.m21,
                p.m21 + dt * (-p.m22),
                p.m22)
  {
    hide *;
    PredictNested(p, dt);
    Unnested(dt, p.m00, p.m01, p.m02, p.m10, p.m11, p.m12, p.m20, p.m21, p.m22);
  }

  lemma GainOfZ(p: Mat)
    requires p.m00 + R > 0.0
    ensures ResidualVariance(p, OBSERVE_Z) == p.m00 + R
    ensures Gain(p, OBSERVE_Z) == Vec(p.m00 * 1.0 / (p.m00 + R), p.m10 * 1.0 / (p.m00 + R), p.m20 * 1.0 / (p.m00 + R))
    ensures MatVec(Transpose(p), OBSERVE_Z) == Row0(p)
  {
    assert MatVec(p, OBSERVE_Z) == Vec(p.m00, p.m10, p.m20);
  }

  lemma GainOfVz(p: Mat)
    requires p.m11 + R > 0.0
    ensures ResidualVariance(p, OBSERVE_ZDOT) == p.m11 + R
    ensures Gain(p, OBSERVE_ZDOT)
         == Vec(p.m01 * 1.0 / (p.m11 + R), p.m11 * 1.0 / (p.m11 + R), p.m21 * 1.0 / (p.m11 + R))
    ensures MatVec(Transpose(p), OBSERVE_ZDOT) == Row1(p)
  {
    assert MatVec(p, OBSERVE_ZDOT) == Vec(p.m01, p.m11, p.m21);
  }

  lemma OuterEntries(a: real, b: real, c: real, x: real, y: real, z: real)
    ensures Outer(Vec(a, b, c), Vec(x, y, z))
         == Mat(a * x, a * y, a * z, b * x, b * y, b * z, c * x, c * y, c * z)
  {
  }

  lemma Remaining(k: real, a0: real, a1: real, a2: real, b0: real, b1: real, b2: real)
    ensures (1.0 - k) * a0 == a0 - k * a0 && (1.0 - k) * a1 == a1 - k * a1 && (1.0 - k) * a2 == a2 - k * a2
    ensures -k * a0 + b0 == b0 - k * a0 && -k * a1 + b1 == b1 - k * a1 && -k * a2 + b2 == b2 - k * a2
  {
  }

  lemma CorrectionZByEntries(p00: real, p01: real, p02: real, p10: real, p11: real, p12: real,
                             p20: real, p21: real, p22: real, k1: real, k2: real, k3: real)
    ensures MatSub(Mat(p00, p01, p02, p10, p11, p12, p20, p21, p22), Outer(Vec(k1, k2, k3), Vec(p00, p01, p02)))
         == Mat((1.0 - k1) * p00, (1.0 - k1) * p01, (1.0 - k1) * p02,
                -k2 * p00 + p10, -k2 * p01 + p11, -k2 * p02 + p12,
                -k3 * p00 + p20, -k3 * p01 + p21, -k3 * p02 + p22)
  {
    Remaining(k1, p00, p01, p02, p00, p01, p02);
    Remaining(k2, p00, p01, p02, p10, p11, p12);
    Remaining(k3, p00, p01, p02, p20, p21, p22);
    OuterEntries(k1, k2, k3, p00, p01, p02);
    hide Outer;
  }

  lemma CorrectionVzByEntries(p00: real, p01: real, p02: real, p10: real, p11: real, p12: real,
                              p20: real, p21: real, p22: real, k1: real, k2: real, k3: real)
    ensures MatSub(Mat(p00, p01, p02, p10, p11, p12, p20, p21, p22), Outer(Vec(k1, k2, k3), Vec(p10, p11, p12)))
         == Mat(-k1 * p10 + p00, -k1 * p11 + p01, -k1 * p12 + p02,
                (1.0 - k2) * p10, (1.0 - k2) * p11, (1.0 - k2) * p12,
                -k3 * p10 + p20, -k3 * p11 + p21, -k3 * p12 + p22)
  {
    Remaining(k1, p10, p11, p12, p00, p01, p02);
    Remaining(k2, p10, p11, p12, p10, p11, p12);
    Remaining(k3, p10, p11, p12, p20, p21, p22);
    OuterEntries(k1, k2, k3, p10, p11, p12);
    hide Outer;
  }

  lemma DotObserve(x: Vec)
    ensures Dot(OBSERVE_Z, x) == x.x && Dot(OBSERVE_ZDOT, x) == x.y
  {
  }

  lemma DiagonalNonNegative(e: Estimate)
    requires Sound(e)
    ensures e.p.m00 >= 0.0 && e.p.m11 >= 0.0
  {
    QuadNonNegative(e.p, OBSERVE_Z);
    QuadNonNegative(e.p, OBSERVE_ZDOT);
  }

  class Filter {
    const dt: real
    var z: real
    var zdot: real
    var bias: real
    var zMeas: real
    const p: array2<real>

    ghost predicate Valid()
      reads this, p
    {
      p.Length0 == 3 && p.Length1 == 3 && Sound(Value())
    }

    ghost function Covariance(): Mat
      requires p.Length0 == 3 && p.Length1 == 3
      reads p
    {
      Mat(p[0, 0], p[0, 1], p[0, 2], p[1, 0], p[1, 1], p[1, 2], p[2, 0], p[2, 1], p[2, 2])
    }

    ghost function Value(): Estimate
      requires p.Length0 == 3 && p.Length1 == 3
      reads this, p
    {
      Estimate(Vec(z, zdot, bias), Covariance())
    }

    constructor (dt: real, initZ: real, initZdot: real, initBias: real)
      ensures Valid() && fresh(p) && this.dt == dt
      ensures Value() == Initial(initZ, initZdot, initBias)
    {
      this.dt := dt;
      z, zdot, bias, zMeas := initZ, initZdot, initBias, 0.0;
      p := new real[3, 3];
      new;
      InitCovariance();
      InitialSound(initZ, initZdot, initBias);
    }

    method InitCovariance()
      requires p.Length0 == 3 && p.Length1 == 3
      modifies p
      ensures Covariance() == Initial(0.0, 0.0, 0.0).p
    {
      for i := 0 to 3
        invariant forall r, c | 0 <= r < i && 0 <= c < 3 :: p[r, c] == if r == c then INIT_PXX else 0.0
      {
        for j := 0 to 3
          invariant forall r, c | 0 <= r < i && 0 <= c < 3 :: p[r, c] == if r == c then INIT_PXX else 0.0
          invariant forall c | 0 <= c < j :: p[i, c] == 0.0
        {
          p[i, j] := 0.0;
        }
        p[i, i] := INIT_PXX;
      }
    }

    method AltVfPredict(accel: real)
      requires Valid()
      modifies this, p
      ensures Valid() && zMeas == old(zMeas)
      ensures Value() == Predict(old(Value()), dt, accel)
    {
      hide Quad, MatMul, Symmetric;
      ghost var before := Value();
      PredictKeepsSound(before, dt, accel);
      // update state
      var u := accel + GRAVITY;
      z := z + dt * zdot;
      zdot := zdot + dt * (u - bias);
      PredictCovariance();
      assert Value() == Predict(before, dt, accel);
    }

    method PredictCovariance()
      requires p.Length0 == 3 && p.Length1 == 3
      modifies p
      ensures Covariance()
           == MatAdd(MatMul(MatMul(Transition(dt), old(Covariance())), Transpose(Transition(dt))), PROCESS_NOISE)
    {
      hide MatMul, Transition;
      PredictByEntries(Covariance(), dt);
      var fpf00 := p[0, 0] + dt * (p[1, 0] + p[0, 1] + dt * p[1, 1]);
      var fpf01 := p[0, 1] + dt * (p[1, 1] - p[0, 2] - dt * p[1, 2]);
      var fpf02 := p[0, 2] + dt * p[1, 2];
      var fpf10 := p[1, 0] + dt * (-p[2, 0] + p[1, 1] - dt * p[2, 1]);
      var fpf11 := p[1, 1] + dt * (-p[2, 1] - p[1, 2] + dt * p[2, 2]);
      var fpf12 := p[1, 2] + dt * (-p[2, 2]);
      var fpf20 := p[2, 0] + dt * p[2, 1];
      var fpf21 := p[2, 1] + dt * (-p[2, 2]);
      var fpf22 := p[2, 2];
      StoreCovariance(fpf00 + Q_ZZ, fpf01, fpf02, fpf10, fpf11 + Q_ZDOT_ZDOT, fpf12, fpf20, fpf21, fpf22 + Q_BIAS_BIAS);
    }

    method AltVfUpdateZ(meas: real)
      requires Valid()
      modifies this, p
      ensures Valid() && zMeas == meas
      ensures Value() == Update(old(Value()), OBSERVE_Z, meas)
    {
      hide Quad, Symmetric, Gain, MatVec, Dot, Outer;
      ghost var before := Value();
      UpdateKeepsSound(before, OBSERVE_Z, meas);
      DiagonalNonNegative(before);
      GainOfZ(before.p);
      DotObserve(before.x);
      zMeas := meas;
      var y := meas - z;
      var s := p[0, 0] + R;
      var k1 := p[0, 0] * 1.0 / s;
      var k2 := p[1, 0] * 1.0 / s;
      var k3 := p[2, 0] * 1.0 / s;
      CorrectState(k1, k2, k3, y);
      CorrectCovarianceZ(k1, k2, k3);
    }

    method AltVfUpdateVz(vz: real)
      requires Valid()
      modifies this, p
      ensures Valid() && zMeas == old(zMeas)
      ensures Value() == Update(old(Value()), OBSERVE_ZDOT, vz)
    {
      hide Quad, Symmetric, Gain, MatVec, Dot, Outer;
      ghost var before := Value();
      UpdateKeepsSound(before, OBSERVE_ZDOT, vz);
      DiagonalNonNegative(before);
      GainOfVz(before.p);
      DotObserve(before.x);
      var yd := vz - zdot;
      var s := p[1, 1] + R;
      var k1 := p[0, 1] * 1.0 / s;
      var k2 := p[1, 1] * 1.0 / s;
      var k3 := p[2, 1] * 1.0 / s;
      CorrectState(k1, k2, k3, yd);
      CorrectCovarianceVz(k1, k2, k3);
    }

    method CorrectState(k1: real, k2: real, k3: real, y: real)
      modifies `z, `zdot, `bias
      ensures Vec(z, zdot, bias) == VecAdd(old(Vec(z, zdot, bias)), VecScale(Vec(k1, k2, k3), y))
    {
      z := z + k1 * y;
      zdot := zdot + k2 * y;
      bias := bias + k3 * y;
    }

    method CorrectCovarianceZ(k1: real, k2: real, k3: real)
      requires p.Length0 == 3 && p.Length1 == 3
      modifies p
      ensures Covariance() == MatSub(old(Covariance()), Outer(Vec(k1, k2, k3), Row0(old(Covariance()))))
    {
      hide Outer, MatSub;
      CorrectionZByEntries(p[0, 0], p[0, 1], p[0, 2], p[1, 0], p[1, 1], p[1, 2], p[2, 0], p[2, 1], p[2, 2], k1, k2, k3);
      ghost var corrected := MatSub(Covariance(), Outer(Vec(k1, k2, k3), Row0(Covariance())));
      assert Row0(Covariance()) == Vec(p[0, 0], p[0, 1], p[0, 2]);
      var p11 := (1.0 - k1) * p[0, 0];
      var p12 := (1.0 - k1) * p[0, 1];
      var p13 := (1.0 - k1) * p[0, 2];
      var p21 := -k2 * p[0, 0] + p[1, 0];
      var p22 := -k2 * p[0, 1] + p[1, 1];
      var p23 := -k2 * p[0, 2] + p[1, 2];
      var p31 := -k3 * p[0, 0] + p[2, 0];
      var p32 := -k3 * p[0, 1] + p[2, 1];
      var p33 := -k3 * p[0, 2] + p[2, 2];
      assert corrected.m00 == p11 && corrected.m01 == p12 && corrected.m02 == p13;
      assert corrected.m10 == p21 && corrected.m11 == p22 && corrected.m12 == p23;
      assert corrected.m20 == p31 && corrected.m21 == p32 && corrected.m22 == p33;
      StoreCovariance(p11, p12, p13, p21, p22, p23, p31, p32, p33);
    }

    method CorrectCovarianceVz(k1: real, k2: real, k3: real)
      requires p.Length0 == 3 && p.Length1 == 3
      modifies p
      ensures Covariance() == MatSub(old(Covariance()), Outer(Vec(k1, k2, k3), Row1(old(Covariance()))))
    {
      hide Outer, MatSub;
      CorrectionVzByEntries(p[0, 0], p[0, 1], p[0, 2], p[1, 0], p[1, 1], p[1, 2], p[2, 0], p[2, 1], p[2, 2],
                            k1, k2, k3);
      ghost var corrected := MatSub(Covariance(), Outer(Vec(k1, k2, k3), Row1(Covariance())));
      assert Row1(Covariance()) == Vec(p[1, 0], p[1, 1], p[1, 2]);
      var p11 := -k1 * p[1, 0] + p[0, 0];
      var p12 := -k1 * p[1, 1] + p[0, 1];
      var p13 := -k1 * p[1, 2] + p[0, 2];
      var p21 := (1.0 - k2) * p[1, 0];
      var p22 := (1.0 - k2) * p[1, 1];
      var p23 := (1.0 - k2) * p[1, 2];
      var p31 := -k3 * p[1, 0] + p[2, 0];
      var p32 := -k3 * p[1, 1] + p[2, 1];
      var p33 := -k3 * p[1, 2] + p[2, 2];
      assert corrected.m00 == p11 && corrected.m01 == p12 && corrected.m02 == p13;
      assert corrected.m10 == p21 && corrected.m11 == p22 && corrected.m12 == p23;
      assert corrected.m20 == p31 && corrected.m21 == p32 && corrected.m22 == p33;
      StoreCovariance(p11, p12, p13, p21, p22, p23, p31, p32, p33);
    }

    /** The nine assignments that close every operation. */
    method StoreCovariance(p11: real, p12: real, p13: real, p21: real, p22: real, p23: real,
                           p31: real, p32: real, p33: real)
      requires p.Length0 == 3 && p.Length1 == 3
      modifies p
      ensures Covariance() == Mat(p11, p12, p13, p21, p22, p23, p31, p32, p33)
    {
      p[0, 0], p[0, 1], p[0, 2] := p11, p12, p13;
      p[1, 0], p[1, 1], p[1, 2] := p21, p22, p23;
      p[2, 0], p[2, 1], p[2, 2] := p31, p32, p33;
    }
  }
}
