/** Vectors and matrices of dimension three over the reals. */
module LinearAlgebra3 {
  datatype Vec = Vec(x: real, y: real, z: real)

  datatype Mat = Mat(m00: real, m01: real, m02: real,
                     m10: real, m11: real, m12: real,
                     m20: real, m21: real, m22: real)

  const ZERO := Vec(0.0, 0.0, 0.0)
  const IDENTITY := Mat(1.0, 0.0, 0.0, 0.0, 1.0, 0.0, 0.0, 0.0, 1.0)

  function Dot(a: Vec, b: Vec): real {
    a.x * b.x + a.y * b.y + a.z * b.z
  }

  function VecAdd(a: Vec, b: Vec): Vec {
    Vec(a.x + b.x, a.y + b.y, a.z + b.z)
  }

  function VecScale(a: Vec, s: real): Vec {
    Vec(a.x * s, a.y * s, a.z * s)
  }

  function MatAdd(a: Mat, b: Mat): Mat {
    Mat(a.m00 + b.m00, a.m01 + b.m01, a.m02 + b.m02,
        a.m10 + b.m10, a.m11 + b.m11, a.m12 + b.m12,
        a.m20 + b.m20, a.m21 + b.m21, a.m22 + b.m22)
  }

  function MatSub(a: Mat, b: Mat): Mat {
    Mat(a.m00 - b.m00, a.m01 - b.m01, a.m02 - b.m02,
        a.m10 - b.m10, a.m11 - b.m11, a.m12 - b.m12,
        a.m20 - b.m20, a.m21 - b.m21, a.m22 - b.m22)
  }

  function Row0(a: Mat): Vec { Vec(a.m00, a.m01, a.m02) }
  function Row1(a: Mat): Vec { Vec(a.m10, a.m11, a.m12) }
  function Row2(a: Mat): Vec { Vec(a.m20, a.m21, a.m22) }

  function Transpose(a: Mat): Mat {
    Mat(a.m00, a.m10, a.m20, a.m01, a.m11, a.m21, a.m02, a.m12, a.m22)
  }

  function MatVec(a: Mat, v: Vec): Vec {
    Vec(Dot(Row0(a), v), Dot(Row1(a), v), Dot(Row2(a), v))
  }

  function MatMul(a: Mat, b: Mat): Mat {
    var t := Transpose(b);
    Mat(Dot(Row0(a), Row0(t)), Dot(Row0(a), Row1(t)), Dot(Row0(a), Row2(t)),
        Dot(Row1(a), Row0(t)), Dot(Row1(a), Row1(t)), Dot(Row1(a), Row2(t)),
        Dot(Row2(a), Row0(t)), Dot(Row2(a), Row1(t)), Dot(Row2(a), Row2(t)))
  }

  /** a * transpose(b) */
  function Outer(a: Vec, b: Vec): Mat {
    Mat(a.x * b.x, a.x * b.y, a.x * b.z,
        a.y * b.x, a.y * b.y, a.y * b.z,
        a.z * b.x, a.z * b.y, a.z * b.z)
  }

  /** transpose(x) * a * y */
  function Bilinear(a: Mat, x: Vec, y: Vec): real {
    Dot(x, MatVec(a, y))
  }

  function Quad(a: Mat, x: Vec): real {
    Bilinear(a, x, x)
  }

  predicate Symmetric(a: Mat) {
    a == Transpose(a)
  }

  ghost predicate PositiveDefinite(a: Mat) {
    forall x: Vec :: x != ZERO ==> Quad(a, x) > 0.0
  }

  /** `a` dominates `b` as a quadratic form. */
  ghost predicate Dominates(a: Mat, b: Mat) {
    forall x: Vec :: Quad(a, x) >= Quad(b, x)
  }

  lemma MatVecDistributes(a: Mat, x: Vec, y: Vec, s: real)
    ensures MatVec(a, VecAdd(x, VecScale(y, s))) == VecAdd(MatVec(a, x), VecScale(MatVec(a, y), s))
  {
  }

  lemma DotDistributes(x: Vec, y: Vec, s: real, v: Vec)
    ensures Dot(VecAdd(x, VecScale(y, s)), v) == Dot(x, v) + s * Dot(y, v)
    ensures Dot(v, VecAdd(x, VecScale(y, s))) == Dot(v, x) + s * Dot(v, y)
  {
  }

  lemma DotTranspose(a: Mat, x: Vec, y: Vec)
    ensures Dot(x, MatVec(a, y)) == Dot(MatVec(Transpose(a), x), y)
  {
  }

  lemma MatVecMul(a: Mat, b: Mat, x: Vec)
    ensures MatVec(MatMul(a, b), x) == MatVec(a, MatVec(b, x))
  {
    assert MatVec(MatMul(a, b), x).x == MatVec(a, MatVec(b, x)).x;
    assert MatVec(MatMul(a, b), x).y == MatVec(a, MatVec(b, x)).y;
    assert MatVec(MatMul(a, b), x).z == MatVec(a, MatVec(b, x)).z;
  }

  lemma QuadAdd(a: Mat, b: Mat, x: Vec)
    ensures Quad(MatAdd(a, b), x) == Quad(a, x) + Quad(b, x)
    ensures Quad(MatSub(a, b), x) == Quad(a, x) - Quad(b, x)
  {
  }

  lemma DotScale(x: Vec, a: Vec, t: real)
    ensures Dot(x, VecScale(a, t)) == t * Dot(x, a) && Dot(VecScale(a, t), x) == t * Dot(x, a)
  {
  }

  lemma DotSymmetric(a: Vec, b: Vec)
    ensures Dot(a, b) == Dot(b, a)
  {
  }

  lemma OuterRows(a: Vec, b: Vec)
    ensures Row0(Outer(a, b)) == VecScale(b, a.x)
    ensures Row1(Outer(a, b)) == VecScale(b, a.y)
    ensures Row2(Outer(a, b)) == VecScale(b, a.z)
  {
  }

  lemma OuterVec(a: Vec, b: Vec, x: Vec)
    ensures MatVec(Outer(a, b), x) == VecScale(a, Dot(x, b))
  {
    hide Dot, Outer, Row0, Row1, Row2;
    OuterRows(a, b);
    DotScale(x, b, a.x);
    DotScale(x, b, a.y);
    DotScale(x, b, a.z);
  }

  lemma MatVecSub(a: Mat, b: Mat, x: Vec)
    ensures MatVec(MatSub(a, b), x) == VecAdd(MatVec(a, x), VecScale(MatVec(b, x), -1.0))
  {
  }

  lemma IdentityVec(x: Vec)
    ensures MatVec(IDENTITY, x) == x
  {
  }

  lemma IdentityMinusOuterTransposed(k: Vec, h: Vec)
    ensures Transpose(MatSub(IDENTITY, Outer(k, h))) == MatSub(IDENTITY, Outer(h, k))
  {
  }

  lemma QuadOuter(a: Vec, b: Vec, x: Vec)
    ensures Quad(Outer(a, b), x) == Dot(x, a) * Dot(x, b)
  {
    hide Dot, MatVec, Outer;
    OuterVec(a, b, x);
    DotScale(x, a, Dot(x, b));
  }

  lemma BilinearSymmetric(a: Mat, x: Vec, y: Vec)
    requires Symmetric(a)
    ensures Bilinear(a, x, y) == Bilinear(a, y, x)
  {
    DotTranspose(a, x, y);
  }

  /** Quad(a, x + s*y), as a polynomial in s. */
  lemma QuadExpand(a: Mat, x: Vec, y: Vec, s: real)
    requires Symmetric(a)
    ensures Quad(a, VecAdd(x, VecScale(y, s))) == Quad(a, x) + 2.0 * s * Bilinear(a, x, y) + s * s * Quad(a, y)
  {
    var v := VecAdd(x, VecScale(y, s));
    MatVecDistributes(a, x, y, s);
    DotDistributes(MatVec(a, x), MatVec(a, y), s, v);
    DotDistributes(x, y, s, MatVec(a, x));
    DotDistributes(x, y, s, MatVec(a, y));
    BilinearSymmetric(a, x, y);
  }

  lemma MatVecZero(a: Mat)
    ensures MatVec(a, ZERO) == ZERO
  {
  }

  lemma DotZero(v: Vec)
    ensures Dot(v, ZERO) == 0.0 && Dot(ZERO, v) == 0.0
  {
  }

  lemma QuadZero(a: Mat, v: Vec)
    ensures Quad(a, ZERO) == 0.0 && Bilinear(a, v, ZERO) == 0.0 && Bilinear(a, ZERO, v) == 0.0
  {
    hide MatVec, Dot;
    MatVecZero(a);
    DotZero(v);
    DotZero(ZERO);
    DotZero(MatVec(a, v));
  }

  lemma QuadNonNegative(a: Mat, v: Vec)
    requires PositiveDefinite(a)
    ensures Quad(a, v) >= 0.0
  {
    hide Quad;
    QuadZero(a, v);
  }

  /** A quadratic `qx + 2 s b + s^2 qy` that is not negative at `s = -b / qy`. */
  lemma Discriminant(qx: real, b: real, qy: real, s: real)
    requires qy > 0.0 && s * qy == -b
    requires qx + 2.0 * s * b + s * s * qy >= 0.0
    ensures b * b <= qx * qy
  {
    assert s * s * qy == s * (s * qy) == -(s * b);
    assert 0.0 <= qy * (qx + s * b) == qx * qy + (s * qy) * b;
  }

  lemma CauchySchwarz(a: Mat, x: Vec, y: Vec)
    requires Symmetric(a) && PositiveDefinite(a)
    ensures Bilinear(a, x, y) * Bilinear(a, x, y) <= Quad(a, x) * Quad(a, y)
  {
    hide Quad, Bilinear;
    QuadZero(a, x);
    if y != ZERO {
      var b, q := Bilinear(a, x, y), Quad(a, y);
      var s := -b / q;
      QuadExpand(a, x, y, s);
      QuadNonNegative(a, VecAdd(x, VecScale(y, s)));
      Discriminant(Quad(a, x), b, q, s);
    }
  }

  /** transpose(x) * (m a transpose(m)) * x */
  lemma QuadCongruence(m: Mat, a: Mat, x: Vec)
    ensures Quad(MatMul(MatMul(m, a), Transpose(m)), x) == Quad(a, MatVec(Transpose(m), x))
  {
    var t := Transpose(m);
    MatVecMul(MatMul(m, a), t, x);
    MatVecMul(m, a, MatVec(t, x));
    DotTranspose(m, x, MatVec(a, MatVec(t, x)));
  }

  lemma MulTranspose(a: Mat, b: Mat)
    ensures Transpose(MatMul(a, b)) == MatMul(Transpose(b), Transpose(a))
  {
  }

  lemma MulAssociative(a: Mat, b: Mat, c: Mat)
    ensures MatMul(MatMul(a, b), c) == MatMul(a, MatMul(b, c))
  {
    var t := Transpose(c);
    MatVecMul(a, b, Row0(t));
    MatVecMul(a, b, Row1(t));
    MatVecMul(a, b, Row2(t));
  }

  lemma CongruenceSymmetric(m: Mat, a: Mat)
    requires Symmetric(a)
    ensures Symmetric(MatMul(MatMul(m, a), Transpose(m)))
  {
    var t := Transpose(m);
    MulTranspose(MatMul(m, a), t);
    MulTranspose(m, a);
    MulAssociative(m, a, t);
  }
}
