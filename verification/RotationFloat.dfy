/** Rotation quaternions and matrices of sw/airborne/math/pprz_algebra_float.h,
    over the reals. The macros work component by component; each is modelled by
    functions of the components, wrapped for quaternions, vectors and matrices. */
module RotationFloat {
  import opened LinearAlgebra3

  datatype Quat = Quat(qi: real, qx: real, qy: real, qz: real)

  function Square4(i: real, x: real, y: real, z: real): real {
    i * i + x * x + y * y + z * z
  }

  function Norm2(q: Quat): real {
    Square4(q.qi, q.qx, q.qy, q.qz)
  }

  predicate Unit(q: Quat) {
    Norm2(q) == 1.0
  }

  // ---------- FLOAT_QUAT_COMP and FLOAT_QUAT_COMP_INV ----------

  function CompI(i1: real, x1: real, y1: real, z1: real, i2: real, x2: real, y2: real, z2: real): real {
    i1 * i2 - x1 * x2 - y1 * y2 - z1 * z2
  }

  function CompX(i1: real, x1: real, y1: real, z1: real, i2: real, x2: real, y2: real, z2: real): real {
    i1 * x2 + x1 * i2 + y1 * z2 - z1 * y2
  }

  function CompY(i1: real, x1: real, y1: real, z1: real, i2: real, x2: real, y2: real, z2: real): real {
    i1 * y2 - x1 * z2 + y1 * i2 + z1 * x2
  }

  function CompZ(i1: real, x1: real, y1: real, z1: real, i2: real, x2: real, y2: real, z2: real): real {
    i1 * z2 + x1 * y2 - y1 * x2 + z1 * i2
  }

  function QuatComp(a2b: Quat, b2c: Quat): Quat {
    Quat(CompI(a2b.qi, a2b.qx, a2b.qy, a2b.qz, b2c.qi, b2c.qx, b2c.qy, b2c.qz),
         CompX(a2b.qi, a2b.qx, a2b.qy, a2b.qz, b2c.qi, b2c.qx, b2c.qy, b2c.qz),
         CompY(a2b.qi, a2b.qx, a2b.qy, a2b.qz, b2c.qi, b2c.qx, b2c.qy, b2c.qz),
         CompZ(a2b.qi, a2b.qx, a2b.qy, a2b.qz, b2c.qi, b2c.qx, b2c.qy, b2c.qz))
  }

  function CompInvComponents(i1: real, x1: real, y1: real, z1: real, i2: real, x2: real, y2: real, z2: real): Quat {
    Quat(i1 * i2 + x1 * x2 + y1 * y2 + z1 * z2,
         -i1 * x2 + x1 * i2 - y1 * z2 + z1 * y2,
         -i1 * y2 + x1 * z2 + y1 * i2 - z1 * x2,
         -i1 * z2 - x1 * y2 + y1 * x2 + z1 * i2)
  }

  function QuatCompInv(a2c: Quat, b2c: Quat): Quat {
    CompInvComponents(a2c.qi, a2c.qx, a2c.qy, a2c.qz, b2c.qi, b2c.qx, b2c.qy, b2c.qz)
  }

  // ---------- FLOAT_RMAT_COMP and FLOAT_RMAT_OF_QUAT ----------

  function RMatComp(a2b: Mat, b2c: Mat): Mat {
    MatMul(b2c, a2b)
  }

  function SlowMatrix(i: real, x: real, y: real, z: real): Mat {
    var qx2, qy2, qz2 := x * x, y * y, z * z;
    var qiqx, qiqy, qiqz := i * x, i * y, i * z;
    var qxqy, qxqz, qyqz := x * y, x * z, y * z;
    Mat(1.0 - 2.0 * (qy2 + qz2), 2.0 * (qxqy + qiqz), 2.0 * (qxqz - qiqy),
        2.0 * (qxqy - qiqz), 1.0 - 2.0 * (qx2 + qz2), 2.0 * (qyqz + qiqx),
        2.0 * (qxqz + qiqy), 2.0 * (qyqz - qiqx), 1.0 - 2.0 * (qx2 + qy2))
  }

  function MatrixOfProducts(aa: real, bb: real, cc: real, dd: real, ab: real, ac: real, ad: real,
                            bc: real, bd: real, cd: real): Mat {
    var a2_1 := aa - 1.0;
    Mat(a2_1 + bb, bc + ad, bd - ac,
        bc - ad, a2_1 + cc, cd + ab,
        bd + ac, cd - ab, a2_1 + dd)
  }

  /** The default form; `sqrt2` is the square root of two. */
  function FastMatrix(i: real, x: real, y: real, z: real, sqrt2: real): Mat {
    var a, b, c, d := sqrt2 * i, sqrt2 * x, sqrt2 * y, sqrt2 * z;
    MatrixOfProducts(a * a, b * b, c * c, d * d, a * b, a * c, a * d, b * c, b * d, c * d)
  }

  function RMatOfQuatSlow(q: Quat): Mat {
    SlowMatrix(q.qi, q.qx, q.qy, q.qz)
  }

  function RMatOfQuat(q: Quat, sqrt2: real): Mat {
    FastMatrix(q.qi, q.qx, q.qy, q.qz, sqrt2)
  }

  // ---------- FLOAT_QUAT_VMULT ----------

  function Row(a: real, b: real, c: real, vx: real, vy: real, vz: real): real {
    a * vx + b * vy + c * vz
  }

  function SlowRotate(i: real, x: real, y: real, z: real, vx: real, vy: real, vz: real): Vec {
    var qi2, qx2, qy2, qz2 := i * i, x * x, y * y, z * z;
    var qiqx, qiqy, qiqz := i * x, i * y, i * z;
    var qxqy, qxqz, qyqz := x * y, x * z, y * z;
    var m00, m01, m02 := qi2 + qx2 - qy2 - qz2, 2.0 * (qxqy + qiqz), 2.0 * (qxqz - qiqy);
    var m10, m11, m12 := 2.0 * (qxqy - qiqz), qi2 - qx2 + qy2 - qz2, 2.0 * (qyqz + qiqx);
    var m20, m21, m22 := 2.0 * (qxqz + qiqy), 2.0 * (qyqz - qiqx), qi2 - qx2 - qy2 + qz2;
    Vec(Row(m00, m01, m02, vx, vy, vz),
        Row(m10, m11, m12, vx, vy, vz),
        Row(m20, m21, m22, vx, vy, vz))
  }

  function FastRotate(i: real, x: real, y: real, z: real, vx: real, vy: real, vz: real): Vec {
    var qi2_M1_2 := i * i - 0.5;
    var qiqx, qiqy, qiqz := i * x, i * y, i * z;
    var qxqy, qxqz, qyqz := x * y, x * z, y * z;
    var m00, m10, m20, m21 := qi2_M1_2 + x * x, qxqy - qiqz, qxqz + qiqy, qyqz - qiqx;
    var m01, m02, m12 := qxqy + qiqz, qxqz - qiqy, qyqz + qiqx;
    var m11, m22 := qi2_M1_2 + y * y, qi2_M1_2 + z * z;
    Vec(2.0 * Row(m00, m01, m02, vx, vy, vz),
        2.0 * Row(m10, m11, m12, vx, vy, vz),
        2.0 * Row(m20, m21, m22, vx, vy, vz))
  }

  function QuatVmultSlow(q: Quat, v: Vec): Vec {
    SlowRotate(q.qi, q.qx, q.qy, q.qz, v.x, v.y, v.z)
  }

  function QuatVmult(q: Quat, v: Vec): Vec {
    FastRotate(q.qi, q.qx, q.qy, q.qz, v.x, v.y, v.z)
  }

  // ---------- Quaternion algebra ----------

  function Conj(q: Quat): Quat {
    Quat(q.qi, -q.qx, -q.qy, -q.qz)
  }

  function Scalar(s: real): Quat {
    Quat(s, 0.0, 0.0, 0.0)
  }

  function Pure(v: Vec): Quat {
    Quat(0.0, v.x, v.y, v.z)
  }

  function Negate(q: Quat): Quat {
    Quat(-q.qi, -q.qx, -q.qy, -q.qz)
  }

  lemma CompIAssociative(i1: real, x1: real, y1: real, z1: real, i2: real, x2: real, y2: real, z2: real,
                         i3: real, x3: real, y3: real, z3: real)
    ensures CompI(CompI(i1, x1, y1, z1, i2, x2, y2, z2), CompX(i1, x1, y1, z1, i2, x2, y2, z2),
                  CompY(i1, x1, y1, z1, i2, x2, y2, z2), CompZ(i1, x1, y1, z1, i2, x2, y2, z2), i3, x3, y3, z3)
         == CompI(i1, x1, y1, z1, CompI(i2, x2, y2, z2, i3, x3, y3, z3), CompX(i2, x2, y2, z2, i3, x3, y3, z3),
                  CompY(i2, x2, y2, z2, i3, x3, y3, z3), CompZ(i2, x2, y2, z2, i3, x3, y3, z3))
  {
  }

  lemma CompXAssociative(i1: real, x1: real, y1: real, z1: real, i2: real, x2: real, y2: real, z2: real,
                         i3: real, x3: real, y3: real, z3: real)
    ensures CompX(CompI(i1, x1, y1, z1, i2, x2, y2, z2), CompX(i1, x1, y1, z1, i2, x2, y2, z2),
                  CompY(i1, x1, y1, z1, i2, x2, y2, z2), CompZ(i1, x1, y1, z1, i2, x2, y2, z2), i3, x3, y3, z3)
         == CompX(i1, x1, y1, z1, CompI(i2, x2, y2, z2, i3, x3, y3, z3), CompX(i2, x2, y2, z2, i3, x3, y3, z3),
                  CompY(i2, x2, y2, z2, i3, x3, y3, z3), CompZ(i2, x2, y2, z2, i3, x3, y3, z3))
  {
  }

  lemma CompYAssociative(i1: real, x1: real, y1: real, z1: real, i2: real, x2: real, y2: real, z2: real,
                         i3: real, x3: real, y3: real, z3: real)
    ensures CompY(CompI(i1, x1, y1, z1, i2, x2, y2, z2), CompX(i1, x1, y1, z1, i2, x2, y2, z2),
                  CompY(i1, x1, y1, z1, i2, x2, y2, z2), CompZ(i1, x1, y1, z1, i2, x2, y2, z2), i3, x3, y3, z3)
         == CompY(i1, x1, y1, z1, CompI(i2, x2, y2, z2, i3, x3, y3, z3), CompX(i2, x2, y2, z2, i3, x3, y3, z3),
                  CompY(i2, x2, y2, z2, i3, x3, y3, z3), CompZ(i2, x2, y2, z2, i3, x3, y3, z3))
  {
  }

  lemma CompZAssociative(i1: real, x1: real, y1: real, z1: real, i2: real, x2: real, y2: real, z2: real,
                         i3: real, x3: real, y3: real, z3: real)
    ensures CompZ(CompI(i1, x1, y1, z1, i2, x2, y2, z2), CompX(i1, x1, y1, z1, i2, x2, y2, z2),
                  CompY(i1, x1, y1, z1, i2, x2, y2, z2), CompZ(i1, x1, y1, z1, i2, x2, y2, z2), i3, x3, y3, z3)
         == CompZ(i1, x1, y1, z1, CompI(i2, x2, y2, z2, i3, x3, y3, z3), CompX(i2, x2, y2, z2, i3, x3, y3, z3),
                  CompY(i2, x2, y2, z2, i3, x3, y3, z3), CompZ(i2, x2, y2, z2, i3, x3, y3, z3))
  {
  }

  lemma CompAssociative(a: Quat, b: Quat, c: Quat)
    ensures QuatComp(QuatComp(a, b), c) == QuatComp(a, QuatComp(b, c))
  {
    hide CompI, CompX, CompY, CompZ;
    CompIAssociative(a.qi, a.qx, a.qy, a.qz, b.qi, b.qx, b.qy, b.qz, c.qi, c.qx, c.qy, c.qz);
    CompXAssociative(a.qi, a.qx, a.qy, a.qz, b.qi, b.qx, b.qy, b.qz, c.qi, c.qx, c.qy, c.qz);
    CompYAssociative(a.qi, a.qx, a.qy, a.qz, b.qi, b.qx, b.qy, b.qz, c.qi, c.qx, c.qy, c.qz);
    CompZAssociative(a.qi, a.qx, a.qy, a.qz, b.qi, b.qx, b.qy, b.qz, c.qi, c.qx, c.qy, c.qz);
  }

  lemma CompConj(a: Quat, b: Quat)
    ensures Conj(QuatComp(a, b)) == QuatComp(Conj(b), Conj(a))
  {
  }

  lemma CompWithConj(q: Quat)
    ensures QuatComp(q, Conj(q)) == Scalar(Norm2(q)) == QuatComp(Conj(q), q)
  {
  }

  lemma CompScalar(s: real, q: Quat)
    ensures QuatComp(Scalar(s), q) == QuatComp(q, Scalar(s)) == Quat(s * q.qi, s * q.qx, s * q.qy, s * q.qz)
  {
  }

  lemma CompInvIsCompConj(c: Quat, b: Quat)
    ensures QuatCompInv(c, b) == QuatComp(c, Conj(b))
  {
    CompInvOfConj(c.qi, c.qx, c.qy, c.qz, b.qi, b.qx, b.qy, b.qz);
    hide CompI, CompX, CompY, CompZ, CompInvComponents;
  }

  lemma CompInvOfConj(i1: real, x1: real, y1: real, z1: real, i2: real, x2: real, y2: real, z2: real)
    ensures CompInvComponents(i1, x1, y1, z1, i2, x2, y2, z2)
         == Quat(CompI(i1, x1, y1, z1, i2, -x2, -y2, -z2), CompX(i1, x1, y1, z1, i2, -x2, -y2, -z2),
                 CompY(i1, x1, y1, z1, i2, -x2, -y2, -z2), CompZ(i1, x1, y1, z1, i2, -x2, -y2, -z2))
  {
  }

  /** Norms multiply, so unit quaternions compose to unit quaternions. */
  lemma NormMultiplicative(a: Quat, b: Quat)
    ensures Norm2(QuatComp(a, b)) == Norm2(a) * Norm2(b)
  {
    hide CompI, CompX, CompY, CompZ, Norm2;
    var ab := QuatComp(a, b);
    CompWithConj(ab);
    CompConj(a, b);
    CompAssociative(a, b, QuatComp(Conj(b), Conj(a)));
    CompAssociative(b, Conj(b), Conj(a));
    CompWithConj(b);
    CompScalar(Norm2(b), Conj(a));
    CompScalar(Norm2(b), a);
    CompAssociative(a, Scalar(Norm2(b)), Conj(a));
    CompAssociative(Scalar(Norm2(b)), a, Conj(a));
    CompWithConj(a);
    CompScalar(Norm2(b), Scalar(Norm2(a)));
  }

  /** Composing and composing with the inverse gives back the first rotation. */
  lemma CompInvUndoesComp(a: Quat, b: Quat)
    requires Unit(b)
    ensures QuatCompInv(QuatComp(a, b), b) == a
    ensures QuatComp(QuatCompInv(a, b), b) == a
  {
    hide CompI, CompX, CompY, CompZ, Norm2, CompInvComponents;
    CompInvIsCompConj(QuatComp(a, b), b);
    CompInvIsCompConj(a, b);
    CompAssociative(a, b, Conj(b));
    CompAssociative(a, Conj(b), b);
    CompWithConj(b);
    CompScalar(1.0, a);
  }

  // ---------- Rotating a vector ----------

  // First conj(q) * v, then the components of that times q.

  lemma ConjTimes(i: real, x: real, y: real, z: real, vx: real, vy: real, vz: real)
    ensures CompI(i, -x, -y, -z, 0.0, vx, vy, vz) == x * vx + y * vy + z * vz
    ensures CompX(i, -x, -y, -z, 0.0, vx, vy, vz) == i * vx - y * vz + z * vy
    ensures CompY(i, -x, -y, -z, 0.0, vx, vy, vz) == i * vy + x * vz - z * vx
    ensures CompZ(i, -x, -y, -z, 0.0, vx, vy, vz) == i * vz - x * vy + y * vx
  {
  }

  lemma HalfI(i: real, x: real, y: real, z: real, vx: real, vy: real, vz: real)
    ensures CompI(x * vx + y * vy + z * vz, i * vx - y * vz + z * vy,
                  i * vy + x * vz - z * vx, i * vz - x * vy + y * vx, i, x, y, z)
         == 0.0
  {
    assert (x * vx + y * vy + z * vz) * i == (x * i) * vx + (y * i) * vy + (z * i) * vz;
    assert (i * vx - y * vz + z * vy) * x == (i * x) * vx - (y * x) * vz + (z * x) * vy;
    assert (i * vy + x * vz - z * vx) * y == (i * y) * vy + (x * y) * vz - (z * y) * vx;
    assert (i * vz - x * vy + y * vx) * z == (i * z) * vz - (x * z) * vy + (y * z) * vx;
  }

  lemma HalfX(i: real, x: real, y: real, z: real, vx: real, vy: real, vz: real)
    ensures CompX(x * vx + y * vy + z * vz, i * vx - y * vz + z * vy,
                  i * vy + x * vz - z * vx, i * vz - x * vy + y * vx, i, x, y, z)
         == Row(i * i + x * x - y * y - z * z, 2.0 * (x * y + i * z), 2.0 * (x * z - i * y), vx, vy, vz)
  {
    assert (x * vx + y * vy + z * vz) * x == (x * x) * vx + (y * x) * vy + (z * x) * vz;
    assert (i * vx - y * vz + z * vy) * i == (i * i) * vx - (y * i) * vz + (z * i) * vy;
    assert (i * vy + x * vz - z * vx) * z == (i * z) * vy + (x * z) * vz - (z * z) * vx;
    assert (i * vz - x * vy + y * vx) * y == (i * y) * vz - (x * y) * vy + (y * y) * vx;
    assert (i * i + x * x - y * y - z * z) * vx == (i * i) * vx + (x * x) * vx - (y * y) * vx - (z * z) * vx;
    assert (2.0 * (x * y + i * z)) * vy == 2.0 * ((x * y) * vy + (i * z) * vy);
    assert (2.0 * (x * z - i * y)) * vz == 2.0 * ((x * z) * vz - (i * y) * vz);
  }

  lemma HalfY(i: real, x: real, y: real, z: real, vx: real, vy: real, vz: real)
    ensures CompY(x * vx + y * vy + z * vz, i * vx - y * vz + z * vy,
                  i * vy + x * vz - z * vx, i * vz - x * vy + y * vx, i, x, y, z)
         == Row(2.0 * (x * y - i * z), i * i - x * x + y * y - z * z, 2.0 * (y * z + i * x), vx, vy, vz)
  {
    assert (x * vx + y * vy + z * vz) * y == (x * y) * vx + (y * y) * vy + (z * y) * vz;
    assert (i * vx - y * vz + z * vy) * z == (i * z) * vx - (y * z) * vz + (z * z) * vy;
    assert (i * vy + x * vz - z * vx) * i == (i * i) * vy + (x * i) * vz - (z * i) * vx;
    assert (i * vz - x * vy + y * vx) * x == (i * x) * vz - (x * x) * vy + (y * x) * vx;
    assert (i * i - x * x + y * y - z * z) * vy == (i * i) * vy - (x * x) * vy + (y * y) * vy - (z * z) * vy;
    assert (2.0 * (x * y - i * z)) * vx == 2.0 * ((x * y) * vx - (i * z) * vx);
    assert (2.0 * (y * z + i * x)) * vz == 2.0 * ((y * z) * vz + (i * x) * vz);
  }

  lemma HalfZ(i: real, x: real, y: real, z: real, vx: real, vy: real, vz: real)
    ensures CompZ(x * vx + y * vy + z * vz, i * vx - y * vz + z * vy,
                  i * vy + x * vz - z * vx, i * vz - x * vy + y * vx, i, x, y, z)
         == Row(2.0 * (x * z + i * y), 2.0 * (y * z - i * x), i * i - x * x - y * y + z * z, vx, vy, vz)
  {
    assert (x * vx + y * vy + z * vz) * z == (x * z) * vx + (y * z) * vy + (z * z) * vz;
    assert (i * vx - y * vz + z * vy) * y == (i * y) * vx - (y * y) * vz + (z * y) * vy;
    assert (i * vy + x * vz - z * vx) * x == (i * x) * vy + (x * x) * vz - (z * x) * vx;
    assert (i * vz - x * vy + y * vx) * i == (i * i) * vz - (x * i) * vy + (y * i) * vx;
    assert (i * i - x * x - y * y + z * z) * vz == (i * i) * vz - (x * x) * vz - (y * y) * vz + (z * z) * vz;
    assert (2.0 * (x * z + i * y)) * vx == 2.0 * ((x * z) * vx + (i * y) * vx);
    assert (2.0 * (y * z - i * x)) * vy == 2.0 * ((y * z) * vy - (i * x) * vy);
  }

  lemma SandwichI(i: real, x: real, y: real, z: real, vx: real, vy: real, vz: real)
    ensures CompI(CompI(i, -x, -y, -z, 0.0, vx, vy, vz), CompX(i, -x, -y, -z, 0.0, vx, vy, vz),
                  CompY(i, -x, -y, -z, 0.0, vx, vy, vz), CompZ(i, -x, -y, -z, 0.0, vx, vy, vz), i, x, y, z)
         == 0.0
  {
    hide CompI, CompX, CompY, CompZ, Row;
    ConjTimes(i, x, y, z, vx, vy, vz);
    HalfI(i, x, y, z, vx, vy, vz);
  }

  lemma SandwichX(i: real, x: real, y: real, z: real, vx: real, vy: real, vz: real)
    ensures CompX(CompI(i, -x, -y, -z, 0.0, vx, vy, vz), CompX(i, -x, -y, -z, 0.0, vx, vy, vz),
                  CompY(i, -x, -y, -z, 0.0, vx, vy, vz), CompZ(i, -x, -y, -z, 0.0, vx, vy, vz), i, x, y, z)
         == SlowRotate(i, x, y, z, vx, vy, vz).x
  {
    hide CompI, CompX, CompY, CompZ, Row;
    ConjTimes(i, x, y, z, vx, vy, vz);
    HalfX(i, x, y, z, vx, vy, vz);
  }

  lemma SandwichY(i: real, x: real, y: real, z: real, vx: real, vy: real, vz: real)
    ensures CompY(CompI(i, -x, -y, -z, 0.0, vx, vy, vz), CompX(i, -x, -y, -z, 0.0, vx, vy, vz),
                  CompY(i, -x, -y, -z, 0.0, vx, vy, vz), CompZ(i, -x, -y, -z, 0.0, vx, vy, vz), i, x, y, z)
         == SlowRotate(i, x, y, z, vx, vy, vz).y
  {
    hide CompI, CompX, CompY, CompZ, Row;
    ConjTimes(i, x, y, z, vx, vy, vz);
    HalfY(i, x, y, z, vx, vy, vz);
  }

  lemma SandwichZ(i: real, x: real, y: real, z: real, vx: real, vy: real, vz: real)
    ensures CompZ(CompI(i, -x, -y, -z, 0.0, vx, vy, vz), CompX(i, -x, -y, -z, 0.0, vx, vy, vz),
                  CompY(i, -x, -y, -z, 0.0, vx, vy, vz), CompZ(i, -x, -y, -z, 0.0, vx, vy, vz), i, x, y, z)
         == SlowRotate(i, x, y, z, vx, vy, vz).z
  {
    hide CompI, CompX, CompY, CompZ, Row;
    ConjTimes(i, x, y, z, vx, vy, vz);
    HalfZ(i, x, y, z, vx, vy, vz);
  }

  /** The slow rotation is conj(q) * v * q, for every quaternion. */
  lemma RotateIsSandwich(q: Quat, v: Vec)
    ensures Pure(QuatVmultSlow(q, v)) == QuatComp(QuatComp(Conj(q), Pure(v)), q)
  {
    hide CompI, CompX, CompY, CompZ, SlowRotate;
    SandwichI(q.qi, q.qx, q.qy, q.qz, v.x, v.y, v.z);
    SandwichX(q.qi, q.qx, q.qy, q.qz, v.x, v.y, v.z);
    SandwichY(q.qi, q.qx, q.qy, q.qz, v.x, v.y, v.z);
    SandwichZ(q.qi, q.qx, q.qy, q.qz, v.x, v.y, v.z);
  }

  lemma SlowRotateCompose(a: Quat, b: Quat, v: Vec)
    ensures QuatVmultSlow(QuatComp(a, b), v) == QuatVmultSlow(b, QuatVmultSlow(a, v))
  {
    hide QuatComp, Conj, QuatVmultSlow;
    var ab, w := QuatComp(a, b), QuatVmultSlow(a, v);
    RotateIsSandwich(ab, v);
    RotateIsSandwich(a, v);
    RotateIsSandwich(b, w);
    CompConj(a, b);
    CompAssociative(Conj(b), Conj(a), Pure(v));
    var av := QuatComp(Conj(a), Pure(v));
    CompAssociative(QuatComp(Conj(b), av), a, b);
    CompAssociative(Conj(b), av, a);
  }

  /** Vectors keep their length. */
  lemma RotateKeepsLength(q: Quat, v: Vec)
    requires Unit(q)
    ensures Dot(QuatVmult(q, v), QuatVmult(q, v)) == Dot(v, v)
  {
    hide QuatComp, QuatVmultSlow, QuatVmult;
    FastRotateIfUnit(q, v);
    RotateIsSandwich(q, v);
    NormMultiplicative(QuatComp(Conj(q), Pure(v)), q);
    NormMultiplicative(Conj(q), Pure(v));
    assert Norm2(Conj(q)) == 1.0;
    assert Norm2(Pure(v)) == Dot(v, v);
    var w := QuatVmultSlow(q, v);
    assert Norm2(Pure(w)) == Dot(w, w);
  }

  // ---------- Fast forms against slow ones ----------

  /** Rows of the fast and the slow rotation, the diagonal entry in each place. */
  lemma FastRotateRows(ii: real, aa: real, bb: real, cc: real, p: real, q: real, u: real, v: real, w: real)
    requires ii + aa + bb + cc == 1.0
    ensures 2.0 * Row(ii - 0.5 + aa, p, q, u, v, w) == Row(ii + aa - bb - cc, 2.0 * p, 2.0 * q, u, v, w)
    ensures 2.0 * Row(p, ii - 0.5 + bb, q, u, v, w) == Row(2.0 * p, ii - aa + bb - cc, 2.0 * q, u, v, w)
    ensures 2.0 * Row(p, q, ii - 0.5 + cc, u, v, w) == Row(2.0 * p, 2.0 * q, ii - aa - bb + cc, u, v, w)
  {
    assert 2.0 * (ii - 0.5 + aa) == ii + aa - bb - cc;
    assert 2.0 * (ii - 0.5 + bb) == ii - aa + bb - cc;
    assert 2.0 * (ii - 0.5 + cc) == ii - aa - bb + cc;
    assert (2.0 * (ii - 0.5 + aa)) * u == 2.0 * ((ii - 0.5 + aa) * u);
    assert (2.0 * (ii - 0.5 + bb)) * v == 2.0 * ((ii - 0.5 + bb) * v);
    assert (2.0 * (ii - 0.5 + cc)) * w == 2.0 * ((ii - 0.5 + cc) * w);
  }

  lemma FastRotateComponents(i: real, x: real, y: real, z: real, vx: real, vy: real, vz: real)
    requires Square4(i, x, y, z) == 1.0
    ensures FastRotate(i, x, y, z, vx, vy, vz) == SlowRotate(i, x, y, z, vx, vy, vz)
  {
    hide Row;
    FastRotateRows(i * i, x * x, y * y, z * z, x * y + i * z, x * z - i * y, vx, vy, vz);
    FastRotateRows(i * i, x * x, y * y, z * z, x * y - i * z, y * z + i * x, vx, vy, vz);
    FastRotateRows(i * i, x * x, y * y, z * z, x * z + i * y, y * z - i * x, vx, vy, vz);
  }

  lemma FastRotateIfUnit(q: Quat, v: Vec)
    requires Unit(q)
    ensures QuatVmult(q, v) == QuatVmultSlow(q, v)
  {
    hide FastRotate, SlowRotate;
    FastRotateComponents(q.qi, q.qx, q.qy, q.qz, v.x, v.y, v.z);
  }

  /** The two vector forms agree on every vector exactly for unit quaternions. */
  lemma FastRotateIffUnit(q: Quat)
    ensures (forall v: Vec :: QuatVmult(q, v) == QuatVmultSlow(q, v)) <==> Unit(q)
  {
    if Unit(q) {
      forall v: Vec
        ensures QuatVmult(q, v) == QuatVmultSlow(q, v)
      {
        FastRotateIfUnit(q, v);
      }
    } else {
      FastRotateX(q.qi, q.qx, q.qy, q.qz);
      assert QuatVmult(q, Vec(1.0, 0.0, 0.0)) != QuatVmultSlow(q, Vec(1.0, 0.0, 0.0)) by {
        hide FastRotate, SlowRotate;
      }
    }
  }

  lemma FastRotateX(i: real, x: real, y: real, z: real)
    requires Square4(i, x, y, z) != 1.0
    ensures FastRotate(i, x, y, z, 1.0, 0.0, 0.0) != SlowRotate(i, x, y, z, 1.0, 0.0, 0.0)
  {
    assert FastRotate(i, x, y, z, 1.0, 0.0, 0.0).x == 2.0 * (i * i + x * x) - 1.0;
    assert SlowRotate(i, x, y, z, 1.0, 0.0, 0.0).x == i * i + x * x - y * y - z * z;
  }

  lemma ScaledProduct(s: real, x: real, y: real)
    requires s * s == 2.0
    ensures (s * x) * (s * y) == 2.0 * (x * y)
  {
    assert (s * x) * (s * y) == (s * s) * (x * y);
  }

  lemma FastMatrixEntries(i: real, x: real, y: real, z: real, sqrt2: real)
    requires sqrt2 * sqrt2 == 2.0
    ensures FastMatrix(i, x, y, z, sqrt2)
         == MatrixOfProducts(2.0 * (i * i), 2.0 * (x * x), 2.0 * (y * y), 2.0 * (z * z), 2.0 * (i * x), 2.0 * (i * y),
                             2.0 * (i * z), 2.0 * (x * y), 2.0 * (x * z), 2.0 * (y * z))
  {
    hide MatrixOfProducts;
    ScaledProduct(sqrt2, i, i);
    ScaledProduct(sqrt2, i, x);
    ScaledProduct(sqrt2, i, y);
    ScaledProduct(sqrt2, i, z);
    ScaledProduct(sqrt2, x, x);
    ScaledProduct(sqrt2, x, y);
    ScaledProduct(sqrt2, x, z);
    ScaledProduct(sqrt2, y, y);
    ScaledProduct(sqrt2, y, z);
    ScaledProduct(sqrt2, z, z);
    SameProducts((sqrt2 * i) * (sqrt2 * i), (sqrt2 * x) * (sqrt2 * x),
                 (sqrt2 * y) * (sqrt2 * y), (sqrt2 * z) * (sqrt2 * z),
                 (sqrt2 * i) * (sqrt2 * x), (sqrt2 * i) * (sqrt2 * y), (sqrt2 * i) * (sqrt2 * z),
                 (sqrt2 * x) * (sqrt2 * y), (sqrt2 * x) * (sqrt2 * z), (sqrt2 * y) * (sqrt2 * z),
                 i * i, x * x, y * y, z * z, i * x, i * y, i * z, x * y, x * z, y * z);
  }

  lemma SameProducts(aa: real, bb: real, cc: real, dd: real, ab: real, ac: real, ad: real, bc: real, bd: real, cd: real,
                     ii: real, xx: real, yy: real, zz: real, ix: real, iy: real, iz: real, xy: real, xz: real, yz: real)
    requires aa == 2.0 * ii && bb == 2.0 * xx && cc == 2.0 * yy && dd == 2.0 * zz
    requires ab == 2.0 * ix && ac == 2.0 * iy && ad == 2.0 * iz && bc == 2.0 * xy && bd == 2.0 * xz && cd == 2.0 * yz
    ensures MatrixOfProducts(aa, bb, cc, dd, ab, ac, ad, bc, bd, cd)
         == MatrixOfProducts(2.0 * ii, 2.0 * xx, 2.0 * yy, 2.0 * zz,
                             2.0 * ix, 2.0 * iy, 2.0 * iz, 2.0 * xy, 2.0 * xz, 2.0 * yz)
  {
  }

  lemma FastMatrixComponents(i: real, x: real, y: real, z: real, sqrt2: real)
    requires sqrt2 * sqrt2 == 2.0
    ensures FastMatrix(i, x, y, z, sqrt2) == SlowMatrix(i, x, y, z) <==> Square4(i, x, y, z) == 1.0
  {
    hide FastMatrix;
    FastMatrixEntries(i, x, y, z, sqrt2);
  }

  /** The two matrix forms agree exactly on unit quaternions. */
  lemma FastMatrixIffUnit(q: Quat, sqrt2: real)
    requires sqrt2 * sqrt2 == 2.0
    ensures RMatOfQuat(q, sqrt2) == RMatOfQuatSlow(q) <==> Unit(q)
  {
    hide FastMatrix, SlowMatrix, Square4;
    FastMatrixComponents(q.qi, q.qx, q.qy, q.qz, sqrt2);
  }

  lemma DoubledRow(a: real, b: real, c: real, vx: real, vy: real, vz: real, a2: real, b2: real, c2: real)
    requires a2 == 2.0 * a && b2 == 2.0 * b && c2 == 2.0 * c
    ensures Row(a2, b2, c2, vx, vy, vz) == 2.0 * Row(a, b, c, vx, vy, vz)
  {
    assert a2 * vx == 2.0 * (a * vx) && b2 * vy == 2.0 * (b * vy) && c2 * vz == 2.0 * (c * vz);
  }

  lemma MatVecRows(m: Mat, vx: real, vy: real, vz: real)
    ensures MatVec(m, Vec(vx, vy, vz))
         == Vec(Row(m.m00, m.m01, m.m02, vx, vy, vz),
                Row(m.m10, m.m11, m.m12, vx, vy, vz),
                Row(m.m20, m.m21, m.m22, vx, vy, vz))
  {
  }

  lemma MatrixRotates(i: real, x: real, y: real, z: real, sqrt2: real, vx: real, vy: real, vz: real)
    requires sqrt2 * sqrt2 == 2.0
    ensures MatVec(FastMatrix(i, x, y, z, sqrt2), Vec(vx, vy, vz)) == FastRotate(i, x, y, z, vx, vy, vz)
  {
    hide FastMatrix, Row, MatVec;
    FastMatrixEntries(i, x, y, z, sqrt2);
    var m := FastMatrix(i, x, y, z, sqrt2);
    MatVecRows(m, vx, vy, vz);
    DoubledRow(i * i - 0.5 + x * x, x * y + i * z, x * z - i * y, vx, vy, vz, m.m00, m.m01, m.m02);
    DoubledRow(x * y - i * z, i * i - 0.5 + y * y, y * z + i * x, vx, vy, vz, m.m10, m.m11, m.m12);
    DoubledRow(x * z + i * y, y * z - i * x, i * i - 0.5 + z * z, vx, vy, vz, m.m20, m.m21, m.m22);
  }

  /** Rotating by the quaternion is multiplying by its matrix. */
  lemma VmultIsMatrixProduct(q: Quat, sqrt2: real, v: Vec)
    requires sqrt2 * sqrt2 == 2.0
    ensures QuatVmult(q, v) == MatVec(RMatOfQuat(q, sqrt2), v)
  {
    hide FastMatrix, FastRotate;
    MatrixRotates(q.qi, q.qx, q.qy, q.qz, sqrt2, v.x, v.y, v.z);
  }

  // ---------- Matrices form a homomorphic image ----------

  lemma Columns(m: Mat)
    ensures MatVec(m, Vec(1.0, 0.0, 0.0)) == Vec(m.m00, m.m10, m.m20)
    ensures MatVec(m, Vec(0.0, 1.0, 0.0)) == Vec(m.m01, m.m11, m.m21)
    ensures MatVec(m, Vec(0.0, 0.0, 1.0)) == Vec(m.m02, m.m12, m.m22)
  {
  }

  lemma SameAction(a: Mat, b: Mat)
    requires forall v: Vec :: MatVec(a, v) == MatVec(b, v)
    ensures a == b
  {
    hide MatVec;
    Columns(a);
    Columns(b);
    assert MatVec(a, Vec(1.0, 0.0, 0.0)) == MatVec(b, Vec(1.0, 0.0, 0.0));
    assert MatVec(a, Vec(0.0, 1.0, 0.0)) == MatVec(b, Vec(0.0, 1.0, 0.0));
    assert MatVec(a, Vec(0.0, 0.0, 1.0)) == MatVec(b, Vec(0.0, 0.0, 1.0));
  }

  /** The matrix of a composition is the composition of the matrices. */
  lemma MatrixOfComp(a: Quat, b: Quat, sqrt2: real)
    requires Unit(a) && Unit(b) && sqrt2 * sqrt2 == 2.0
    ensures RMatOfQuat(QuatComp(a, b), sqrt2) == RMatComp(RMatOfQuat(a, sqrt2), RMatOfQuat(b, sqrt2))
  {
    hide QuatComp, Norm2, MatVec, MatMul, RMatOfQuat, QuatVmult, QuatVmultSlow;
    var ab := QuatComp(a, b);
    NormMultiplicative(a, b);
    var ra, rb := RMatOfQuat(a, sqrt2), RMatOfQuat(b, sqrt2);
    forall v: Vec
      ensures MatVec(RMatOfQuat(ab, sqrt2), v) == MatVec(RMatComp(ra, rb), v)
    {
      VmultIsMatrixProduct(ab, sqrt2, v);
      FastRotateIfUnit(ab, v);
      SlowRotateCompose(a, b, v);
      FastRotateIfUnit(a, v);
      VmultIsMatrixProduct(a, sqrt2, v);
      var w := QuatVmultSlow(a, v);
      FastRotateIfUnit(b, w);
      VmultIsMatrixProduct(b, sqrt2, w);
      MatVecMul(rb, ra, v);
    }
    SameAction(RMatOfQuat(ab, sqrt2), RMatComp(ra, rb));
  }

  lemma ConjMatrixComponents(i: real, x: real, y: real, z: real, sqrt2: real)
    ensures FastMatrix(i, -x, -y, -z, sqrt2) == Transpose(FastMatrix(i, x, y, z, sqrt2))
  {
  }

  lemma UnitMatrix(sqrt2: real)
    requires sqrt2 * sqrt2 == 2.0
    ensures RMatOfQuat(Scalar(1.0), sqrt2) == IDENTITY
  {
    hide FastMatrix;
    FastMatrixEntries(1.0, 0.0, 0.0, 0.0, sqrt2);
  }

  /** The matrix of a unit quaternion is orthogonal. */
  lemma MatrixOrthogonal(q: Quat, sqrt2: real)
    requires Unit(q) && sqrt2 * sqrt2 == 2.0
    ensures var m := RMatOfQuat(q, sqrt2);
            MatMul(Transpose(m), m) == IDENTITY == MatMul(m, Transpose(m))
  {
    hide QuatComp, MatMul, FastMatrix, Transpose;
    assert Unit(Conj(q));
    ConjMatrixComponents(q.qi, q.qx, q.qy, q.qz, sqrt2);
    MatrixOfComp(q, Conj(q), sqrt2);
    MatrixOfComp(Conj(q), q, sqrt2);
    CompWithConj(q);
    UnitMatrix(sqrt2);
  }

  // ---------- FLOAT_QUAT_OF_RMAT ----------

  function Trace(m: Mat): real {
    m.m00 + m.m11 + m.m22
  }

  datatype Largest = LargestTrace | Largest00 | Largest11 | Largest22

  /** Which of the four branches a matrix takes. */
  function Branch(m: Mat): Largest {
    if Trace(m) > 0.0 then LargestTrace
    else if m.m00 > m.m11 && m.m00 > m.m22 then Largest00
    else if m.m11 > m.m22 then Largest11
    else Largest22
  }

  /** What that branch takes the square root of. */
  function Radicand(m: Mat): real {
    match Branch(m)
    case LargestTrace => 1.0 + Trace(m)
    case Largest00 => m.m00 - m.m11 - m.m22 + 1.0
    case Largest11 => m.m11 - m.m00 - m.m22 + 1.0
    case Largest22 => m.m22 - m.m00 - m.m11 + 1.0
  }

  predicate IsSqrt(root: real, a: real) {
    root >= 0.0 && root * root == a
  }

  /** No branch takes the root of less than one, whatever the matrix. */
  lemma RadicandAtLeastOne(m: Mat)
    ensures Radicand(m) >= 1.0
  {
  }

  lemma FactorNonNegative(a: real, b: real)
    requires b > 0.0 && a * b >= 0.0
    ensures a >= 0.0
  {
  }

  lemma RootAtLeastOne(root: real, a: real)
    requires IsSqrt(root, a) && a >= 1.0
    ensures root >= 1.0
  {
    assert (root - 1.0) * (root + 1.0) == root * root - 1.0;
    FactorNonNegative(root - 1.0, root + 1.0);
  }

  function OverFour(t: real, root: real): real
    requires root != 0.0
  {
    t / (2.0 * root)
  }

  /** `root` is the result of sqrtf in the branch taken. No branch divides by zero. */
  function QuatOfRMat(m: Mat, root: real): Quat
    requires IsSqrt(root, Radicand(m))
  {
    RadicandAtLeastOne(m);
    RootAtLeastOne(root, Radicand(m));
    match Branch(m)
    case LargestTrace =>
      Quat(0.5 * root, OverFour(m.m12 - m.m21, root), OverFour(m.m20 - m.m02, root), OverFour(m.m01 - m.m10, root))
    case Largest00 =>
      Quat(OverFour(m.m12 - m.m21, root), 0.5 * root, OverFour(m.m01 + m.m10, root), OverFour(m.m20 + m.m02, root))
    case Largest11 =>
      Quat(OverFour(m.m20 - m.m02, root), OverFour(m.m01 + m.m10, root), 0.5 * root, OverFour(m.m12 + m.m21, root))
    case Largest22 =>
      Quat(OverFour(m.m01 - m.m10, root), OverFour(m.m20 + m.m02, root), OverFour(m.m12 + m.m21, root), 0.5 * root)
  }

  lemma RadicandFromDiagonal(m: Mat, ii: real, xx: real, yy: real, zz: real)
    requires ii + xx + yy + zz == 1.0
    requires m.m00 == 1.0 - 2.0 * (yy + zz) && m.m11 == 1.0 - 2.0 * (xx + zz) && m.m22 == 1.0 - 2.0 * (xx + yy)
    ensures Radicand(m)
         == 4.0 * match Branch(m)
                  case LargestTrace => ii case Largest00 => xx case Largest11 => yy case Largest22 => zz
  {
  }

  /** Each branch divides by four times the component whose square it measures. */
  lemma RadicandOfUnit(i: real, x: real, y: real, z: real)
    requires Square4(i, x, y, z) == 1.0
    ensures Radicand(SlowMatrix(i, x, y, z))
         == 4.0 * match Branch(SlowMatrix(i, x, y, z))
                  case LargestTrace => i * i case Largest00 => x * x case Largest11 => y * y case Largest22 => z * z
  {
    hide Radicand, Branch;
    RadicandFromDiagonal(SlowMatrix(i, x, y, z), i * i, x * x, y * y, z * z);
  }

  lemma SquareRoots(root: real, a: real)
    requires root >= 0.0 && root * root == 4.0 * (a * a)
    ensures root == 2.0 * a || root == -2.0 * a
  {
    assert (root - 2.0 * a) * (root + 2.0 * a) == 0.0;
  }

  lemma Quotient(a: real, b: real, root: real, t: real)
    requires root != 0.0 && t == 4.0 * (a * b)
    ensures root == 2.0 * a ==> OverFour(t, root) == b
    ensures root == -2.0 * a ==> OverFour(t, root) == -b
  {
    if root == 2.0 * a {
      assert b * (2.0 * root) == t;
    }
    if root == -2.0 * a {
      assert -b * (2.0 * root) == t;
    }
  }

  /** Half the root and the three quotients are the components, or all their negatives. */
  lemma Quotients(a: real, b: real, c: real, d: real, root: real, tb: real, tc: real, td: real)
    requires root > 0.0 && root * root == 4.0 * (a * a)
    requires tb == 4.0 * (a * b) && tc == 4.0 * (a * c) && td == 4.0 * (a * d)
    ensures
      || (0.5 * root == a && OverFour(tb, root) == b && OverFour(tc, root) == c && OverFour(td, root) == d)
      || (0.5 * root == -a && OverFour(tb, root) == -b && OverFour(tc, root) == -c && OverFour(td, root) == -d)
  {
    hide OverFour;
    SquareRoots(root, a);
    Quotient(a, b, root, tb);
    Quotient(a, c, root, tc);
    Quotient(a, d, root, td);
  }

  /** Sums and differences across the diagonal are four times the products. */
  ghost predicate HasProducts(m: Mat, i: real, x: real, y: real, z: real) {
    && m.m12 - m.m21 == 4.0 * (i * x) && m.m20 - m.m02 == 4.0 * (i * y) && m.m01 - m.m10 == 4.0 * (i * z)
    && m.m01 + m.m10 == 4.0 * (x * y) && m.m20 + m.m02 == 4.0 * (x * z) && m.m12 + m.m21 == 4.0 * (y * z)
  }

  lemma SlowMatrixProducts(i: real, x: real, y: real, z: real)
    ensures HasProducts(SlowMatrix(i, x, y, z), i, x, y, z)
  {
  }

  lemma TraceBranch(m: Mat, i: real, x: real, y: real, z: real, root: real)
    requires Branch(m) == LargestTrace && HasProducts(m, i, x, y, z)
    requires IsSqrt(root, Radicand(m)) && root > 0.0 && Radicand(m) == 4.0 * (i * i)
    ensures QuatOfRMat(m, root) == Quat(i, x, y, z) || QuatOfRMat(m, root) == Quat(-i, -x, -y, -z)
  {
    hide Radicand, OverFour, Branch;
    Quotients(i, x, y, z, root, m.m12 - m.m21, m.m20 - m.m02, m.m01 - m.m10);
  }

  lemma XBranch(m: Mat, i: real, x: real, y: real, z: real, root: real)
    requires Branch(m) == Largest00 && HasProducts(m, i, x, y, z)
    requires IsSqrt(root, Radicand(m)) && root > 0.0 && Radicand(m) == 4.0 * (x * x)
    ensures QuatOfRMat(m, root) == Quat(i, x, y, z) || QuatOfRMat(m, root) == Quat(-i, -x, -y, -z)
  {
    hide Radicand, OverFour, Branch;
    Quotients(x, i, y, z, root, m.m12 - m.m21, m.m01 + m.m10, m.m20 + m.m02);
  }

  lemma YBranch(m: Mat, i: real, x: real, y: real, z: real, root: real)
    requires Branch(m) == Largest11 && HasProducts(m, i, x, y, z)
    requires IsSqrt(root, Radicand(m)) && root > 0.0 && Radicand(m) == 4.0 * (y * y)
    ensures QuatOfRMat(m, root) == Quat(i, x, y, z) || QuatOfRMat(m, root) == Quat(-i, -x, -y, -z)
  {
    hide Radicand, OverFour, Branch;
    Quotients(y, i, x, z, root, m.m20 - m.m02, m.m01 + m.m10, m.m12 + m.m21);
  }

  lemma ZBranch(m: Mat, i: real, x: real, y: real, z: real, root: real)
    requires Branch(m) == Largest22 && HasProducts(m, i, x, y, z)
    requires IsSqrt(root, Radicand(m)) && root > 0.0 && Radicand(m) == 4.0 * (z * z)
    ensures QuatOfRMat(m, root) == Quat(i, x, y, z) || QuatOfRMat(m, root) == Quat(-i, -x, -y, -z)
  {
    hide Radicand, OverFour, Branch;
    Quotients(z, i, x, y, root, m.m01 - m.m10, m.m20 + m.m02, m.m12 + m.m21);
  }

  lemma RoundTripComponents(i: real, x: real, y: real, z: real, root: real)
    requires Square4(i, x, y, z) == 1.0
    requires IsSqrt(root, Radicand(SlowMatrix(i, x, y, z)))
    ensures var q' := QuatOfRMat(SlowMatrix(i, x, y, z), root); q' == Quat(i, x, y, z) || q' == Quat(-i, -x, -y, -z)
  {
    hide Radicand, SlowMatrix, Square4, QuatOfRMat, HasProducts, Branch;
    RadicandOfUnit(i, x, y, z);
    SlowMatrixProducts(i, x, y, z);
    var m := SlowMatrix(i, x, y, z);
    RadicandAtLeastOne(m);
    RootAtLeastOne(root, Radicand(m));
    match Branch(m) {
      case LargestTrace => TraceBranch(m, i, x, y, z, root);
      case Largest00 => XBranch(m, i, x, y, z, root);
      case Largest11 => YBranch(m, i, x, y, z, root);
      case Largest22 => ZBranch(m, i, x, y, z, root);
    }
  }

  /** Back from the matrix of a unit quaternion: the same rotation, q or -q,
      whatever branch is taken. */
  lemma QuatOfRMatRoundTrip(q: Quat, sqrt2: real, root: real)
    requires Unit(q) && sqrt2 * sqrt2 == 2.0
    requires IsSqrt(root, Radicand(RMatOfQuat(q, sqrt2)))
    ensures var q' := QuatOfRMat(RMatOfQuat(q, sqrt2), root); q' == q || q' == Negate(q)
  {
    hide FastMatrix, SlowMatrix, Square4, Radicand, QuatOfRMat;
    FastMatrixIffUnit(q, sqrt2);
    RoundTripComponents(q.qi, q.qx, q.qy, q.qz, root);
  }
}
