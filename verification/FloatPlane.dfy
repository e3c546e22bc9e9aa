/** The float tangent plane that stateSetLocalOrigin_i of sw/airborne/state.h derives from the integer
    one, and the conversions through it of sw/airborne/math/pprz_geodetic_float.c, over the reals.

    The integer matrix has 20 fractional bits (HIGH_RES_TRIG_FRAC); the derivation takes it to have
    14 (INT32_TRIG_FRAC). */
module FloatPlane {
  import opened LinearAlgebra3
  import G = GeodeticInt

  /** Origin in metres and matrix from earth-centred to local coordinates. */
  datatype Plane = Plane(ecef: Vec, m: Mat)

  function Entries(m: G.Rmat): Mat {
    Mat(m.m0 as real, m.m1 as real, 0.0,
        m.m3 as real, m.m4 as real, m.m5 as real,
        m.m6 as real, m.m7 as real, m.m8 as real)
  }

  function MatDiv(m: Mat, one: real): Mat
    requires one != 0.0
  {
    Mat(m.m00 / one, m.m01 / one, m.m02 / one,
        m.m10 / one, m.m11 / one, m.m12 / one,
        m.m20 / one, m.m21 / one, m.m22 / one)
  }

  function Metres(p: G.Vect): Vec {
    Vec(p.x as real / 100.0, p.y as real / 100.0, p.z as real / 100.0)
  }

  /** RMAT_FLOAT_OF_BFP and ECEF_FLOAT_OF_BFP. */
  function DerivedPlane(def: G.LtpDef): Plane {
    Plane(Metres(def.ecef), MatDiv(Entries(def.m), 16384.0))
  }

  /** The plane that the integer conversions compute with. */
  function IntegerPlane(def: G.LtpDef): Plane {
    Plane(Metres(def.ecef), MatDiv(Entries(def.m), 1048576.0))
  }

  function VecSub(a: Vec, b: Vec): Vec {
    Vec(a.x - b.x, a.y - b.y, a.z - b.z)
  }

  function EnuOfEcefPoint(d: Plane, p: Vec): Vec {
    MatVec(d.m, VecSub(p, d.ecef))
  }

  function EcefOfEnuPoint(d: Plane, e: Vec): Vec {
    VecAdd(MatVec(Transpose(d.m), e), d.ecef)
  }

  function NedOfEnu(e: Vec): Vec {
    Vec(e.y, e.x, -e.z)
  }

  // ---------- Sixty-four times too large ----------

  function GrownMatrix(m: Mat): Mat {
    Mat(64.0 * m.m00, 64.0 * m.m01, 64.0 * m.m02,
        64.0 * m.m10, 64.0 * m.m11, 64.0 * m.m12,
        64.0 * m.m20, 64.0 * m.m21, 64.0 * m.m22)
  }

  /** The same origin, the matrix 64 times as large. */
  function Grown(d: Plane): Plane {
    Plane(d.ecef, GrownMatrix(d.m))
  }

  /** What the derivation makes of a plane. */
  lemma DerivedIsGrown(def: G.LtpDef)
    ensures DerivedPlane(def) == Grown(IntegerPlane(def))
  {
  }

  lemma MatVecGrown(m: Mat, v: Vec)
    ensures MatVec(GrownMatrix(m), v) == VecScale(MatVec(m, v), 64.0)
    ensures Transpose(GrownMatrix(m)) == GrownMatrix(Transpose(m))
  {
    RowGrown(m.m00, m.m01, m.m02, v.x, v.y, v.z);
    RowGrown(m.m10, m.m11, m.m12, v.x, v.y, v.z);
    RowGrown(m.m20, m.m21, m.m22, v.x, v.y, v.z);
  }

  lemma RowGrown(a: real, b: real, c: real, x: real, y: real, z: real)
    ensures (64.0 * a) * x + (64.0 * b) * y + (64.0 * c) * z == (a * x + b * y + c * z) * 64.0
  {
    assert (64.0 * a) * x == 64.0 * (a * x) && (64.0 * b) * y == 64.0 * (b * y) && (64.0 * c) * z == 64.0 * (c * z);
  }

  /** Into the grown plane every offset comes out 64 times as large. */
  lemma EnuGrows(d: Plane, p: Vec)
    ensures EnuOfEcefPoint(Grown(d), p) == VecScale(EnuOfEcefPoint(d, p), 64.0)
    ensures NedOfEnu(EnuOfEcefPoint(Grown(d), p)) == VecScale(NedOfEnu(EnuOfEcefPoint(d, p)), 64.0)
  {
    MatVecGrown(d.m, VecSub(p, d.ecef));
    hide MatVec, GrownMatrix;
  }

  /** And so it does out of it. */
  lemma EcefGrows(d: Plane, e: Vec)
    ensures VecSub(EcefOfEnuPoint(Grown(d), e), d.ecef) == VecScale(VecSub(EcefOfEnuPoint(d, e), d.ecef), 64.0)
  {
    MatVecGrown(Transpose(d.m), e);
    MatVecGrown(d.m, e);
    hide MatVec, GrownMatrix, Transpose;
  }

  lemma EcefOfScaled(d: Plane, e: Vec, s: real)
    ensures VecSub(EcefOfEnuPoint(d, VecScale(e, s)), d.ecef) == VecScale(VecSub(EcefOfEnuPoint(d, e), d.ecef), s)
  {
    var t := Transpose(d.m);
    MatVecDistributes(t, ZERO, e, s);
    MatVecZero(t);
    assert VecAdd(ZERO, VecScale(e, s)) == VecScale(e, s);
    hide MatVec, Transpose;
  }

  /** Into the derived plane every offset comes out 64 times as large as in the integer one. */
  lemma EnuIs64Times(def: G.LtpDef, p: Vec)
    ensures EnuOfEcefPoint(DerivedPlane(def), p) == VecScale(EnuOfEcefPoint(IntegerPlane(def), p), 64.0)
    ensures NedOfEnu(EnuOfEcefPoint(DerivedPlane(def), p))
         == VecScale(NedOfEnu(EnuOfEcefPoint(IntegerPlane(def), p)), 64.0)
  {
    DerivedIsGrown(def);
    hide DerivedPlane, IntegerPlane, Grown, EnuOfEcefPoint, NedOfEnu;
    EnuGrows(IntegerPlane(def), p);
  }

  /** And so it does out of it. */
  lemma EcefIs64Times(def: G.LtpDef, e: Vec)
    ensures VecSub(EcefOfEnuPoint(DerivedPlane(def), e), Metres(def.ecef))
         == VecScale(VecSub(EcefOfEnuPoint(IntegerPlane(def), e), Metres(def.ecef)), 64.0)
  {
    DerivedIsGrown(def);
    assert IntegerPlane(def).ecef == Metres(def.ecef);
    hide DerivedPlane, IntegerPlane, Grown, EcefOfEnuPoint, Metres;
    EcefGrows(IntegerPlane(def), e);
  }

  /** There and back through the derived plane, the offset grows 4096 times over what the integer
      plane makes of it. */
  lemma RoundTripIs4096Times(def: G.LtpDef, p: Vec)
    ensures var d, i := DerivedPlane(def), IntegerPlane(def);
      VecSub(EcefOfEnuPoint(d, EnuOfEcefPoint(d, p)), Metres(def.ecef))
      == VecScale(VecSub(EcefOfEnuPoint(i, EnuOfEcefPoint(i, p)), Metres(def.ecef)), 4096.0)
  {
    var d, i := DerivedPlane(def), IntegerPlane(def);
    EnuIs64Times(def, p);
    var e := EnuOfEcefPoint(i, p);
    EcefIs64Times(def, VecScale(e, 64.0));
    EcefOfScaled(i, e, 64.0);
    assert i.ecef == Metres(def.ecef);
    hide DerivedPlane, IntegerPlane, EnuOfEcefPoint, EcefOfEnuPoint, Metres;
  }

  // ---------- Where the two planes agree ----------

  /** The two conversions into the plane agree on a point exactly if the matrix takes its offset to 0. */
  lemma AgreeIffTakenToZero(def: G.LtpDef, p: Vec)
    ensures EnuOfEcefPoint(DerivedPlane(def), p) == EnuOfEcefPoint(IntegerPlane(def), p)
       <==> MatVec(Entries(def.m), VecSub(p, Metres(def.ecef))) == ZERO
  {
    EnuIs64Times(def, p);
    var v := VecSub(p, Metres(def.ecef));
    MatVecOfDiv(Entries(def.m), v);
    hide MatVec, MatDiv, Entries, Metres, DerivedPlane;
    assert EnuOfEcefPoint(IntegerPlane(def), p) == MatVec(MatDiv(Entries(def.m), 1048576.0), v);
  }

  /** And those out of it exactly if the transposed matrix takes the coordinates to 0. */
  lemma AgreeBackIffTakenToZero(def: G.LtpDef, e: Vec)
    ensures EcefOfEnuPoint(DerivedPlane(def), e) == EcefOfEnuPoint(IntegerPlane(def), e)
       <==> MatVec(Transpose(Entries(def.m)), e) == ZERO
  {
    EcefIs64Times(def, e);
    var t := Transpose(Entries(def.m));
    MatVecOfDiv(t, e);
    TransposeDiv(Entries(def.m), 1048576.0);
    var o := MatVec(MatDiv(t, 1048576.0), e);
    assert DerivedPlane(def).ecef == IntegerPlane(def).ecef == Metres(def.ecef);
    assert EcefOfEnuPoint(IntegerPlane(def), e) == VecAdd(o, Metres(def.ecef));
    hide MatVec, MatDiv, Entries, Metres, DerivedPlane, IntegerPlane, EcefOfEnuPoint, Transpose;
  }

  lemma TransposeDiv(m: Mat, one: real)
    requires one != 0.0
    ensures Transpose(MatDiv(m, one)) == MatDiv(Transpose(m), one)
  {
  }

  lemma MatVecOfDiv(m: Mat, v: Vec)
    ensures MatVec(m, v) == VecScale(MatVec(MatDiv(m, 1048576.0), v), 1048576.0)
  {
    RowOfDiv(m.m00, m.m01, m.m02, v.x, v.y, v.z);
    RowOfDiv(m.m10, m.m11, m.m12, v.x, v.y, v.z);
    RowOfDiv(m.m20, m.m21, m.m22, v.x, v.y, v.z);
  }

  lemma RowOfDiv(a: real, b: real, c: real, x: real, y: real, z: real)
    ensures a * x + b * y + c * z
         == ((a / 1048576.0) * x + (b / 1048576.0) * y + (c / 1048576.0) * z) * 1048576.0
  {
    var a', b', c' := a / 1048576.0, b / 1048576.0, c / 1048576.0;
    assert a * x == 1048576.0 * (a' * x) && b * y == 1048576.0 * (b' * y) && c * z == 1048576.0 * (c' * z);
  }

  function Times(a: real, b: real): real {
    a * b
  }

  lemma ProductNonNegative(a: real, b: real)
    requires a >= 0.0 && b >= 0.0
    ensures a * b >= 0.0
  {
  }

  lemma SquareNonNegative(x: real)
    ensures x * x >= 0.0
  {
  }

  lemma SquareOfSum(x: real, y: real)
    ensures (x + y) * (x + y) == x * x + y * y + 2.0 * (x * y)
  {
  }

  /** `2 g p` is at least `-eps s`, if `s` is at least `2 p` and `-2 p`. */
  lemma BoundedTerm(g: real, eps: real, p: real, s: real)
    requires -eps <= g <= eps && s >= 2.0 * p && s >= -2.0 * p
    ensures 2.0 * (g * p) >= -(eps * s)
  {
    ProductNonNegative(eps - g, s - 2.0 * p);
    ProductNonNegative(eps + g, s + 2.0 * p);
    assert (eps - g) * (s - 2.0 * p) == eps * s - g * s - 2.0 * (eps * p) + 2.0 * (g * p);
    assert (eps + g) * (s + 2.0 * p) == eps * s + g * s + 2.0 * (eps * p) + 2.0 * (g * p);
  }

  lemma CrossTerm(g: real, eps: real, x: real, y: real)
    requires -eps <= g <= eps
    ensures 2.0 * Times(g, Times(x, y)) >= -Times(eps, Times(x, x)) - Times(eps, Times(y, y))
  {
    SquareNonNegative(x + y);
    SquareNonNegative(x + -y);
    SquareOfSum(x, y);
    SquareOfSum(x, -y);
    assert x * -y == -(x * y) && -y * -y == y * y;
    BoundedTerm(g, eps, x * y, x * x + y * y);
    assert eps * (x * x + y * y) == eps * (x * x) + eps * (y * y);
  }

  lemma NegatedSquare(x: real)
    ensures Times(-x, -x) == Times(x, x) && Times(0.0, 0.0) == 0.0
  {
  }

  lemma SquarePositive(x: real)
    ensures Times(x, x) >= 0.0 && (x != 0.0 ==> Times(x, x) > 0.0)
  {
    hide Times;
    NegatedSquare(x);
    if x > 0.0 {
      TimesSign(x, x);
    } else if x < 0.0 {
      TimesSign(-x, -x);
    }
  }

  lemma TimesSign(d: real, s: real)
    requires d > 0.0
    ensures s >= 0.0 ==> Times(d, s) >= 0.0
    ensures s > 0.0 ==> Times(d, s) > 0.0
  {
  }

  lemma TimesLess(g: real, eps: real, s: real)
    ensures Times(g - 2.0 * eps, s) == Times(g, s) - 2.0 * Times(eps, s)
  {
  }

  /** A diagonal term, less twice the `eps` that the cross terms can take from it, is not negative,
      and is 0 only at 0. */
  lemma DiagonalTerm(g: real, one: real, eps: real, x: real)
    requires g >= one - eps && 3.0 * eps < one
    ensures Times(g, Times(x, x)) >= 2.0 * Times(eps, Times(x, x))
    ensures Times(g, Times(x, x)) == 2.0 * Times(eps, Times(x, x)) ==> x == 0.0
  {
    hide Times;
    SquarePositive(x);
    TimesSign(g - 2.0 * eps, Times(x, x));
    TimesLess(g, eps, Times(x, x));
  }

  /** A quadratic form within `eps` of `one` times the identity is 0 only at 0. */
  lemma NearIdentityIsDefinite(g00: real, g11: real, g22: real, g01: real, g02: real, g12: real,
      one: real, eps: real, x: real, y: real, z: real)
    requires g00 >= one - eps && g11 >= one - eps && g22 >= one - eps && 3.0 * eps < one
    requires -eps <= g01 <= eps && -eps <= g02 <= eps && -eps <= g12 <= eps
    requires Times(g00, Times(x, x)) + Times(g11, Times(y, y)) + Times(g22, Times(z, z))
           + 2.0 * Times(g01, Times(x, y)) + 2.0 * Times(g02, Times(x, z)) + 2.0 * Times(g12, Times(y, z)) == 0.0
    ensures x == 0.0 && y == 0.0 && z == 0.0
  {
    hide Times;
    DiagonalTerm(g00, one, eps, x);
    DiagonalTerm(g11, one, eps, y);
    DiagonalTerm(g22, one, eps, z);
    CrossTerm(g01, eps, x, y);
    CrossTerm(g02, eps, x, z);
    CrossTerm(g12, eps, y, z);
  }

  /** The products of the matrix's columns, as reals. */
  lemma GramEntries(m: G.Rmat)
    ensures var g := MatMul(Transpose(Entries(m)), Entries(m));
      && g.m00 == G.Dot(m.m0, m.m3, m.m6, m.m0, m.m3, m.m6) as real
      && g.m11 == G.Dot(m.m1, m.m4, m.m7, m.m1, m.m4, m.m7) as real
      && g.m22 == G.Dot(0, m.m5, m.m8, 0, m.m5, m.m8) as real
      && g.m01 == g.m10 == G.Dot(m.m0, m.m3, m.m6, m.m1, m.m4, m.m7) as real
      && g.m02 == g.m20 == G.Dot(m.m0, m.m3, m.m6, 0, m.m5, m.m8) as real
      && g.m12 == g.m21 == G.Dot(m.m1, m.m4, m.m7, 0, m.m5, m.m8) as real
  {
    RealDot(m.m0, m.m3, m.m6, m.m0, m.m3, m.m6);
    RealDot(m.m1, m.m4, m.m7, m.m1, m.m4, m.m7);
    RealDot(0, m.m5, m.m8, 0, m.m5, m.m8);
    RealDot(m.m0, m.m3, m.m6, m.m1, m.m4, m.m7);
    RealDot(m.m0, m.m3, m.m6, 0, m.m5, m.m8);
    RealDot(m.m1, m.m4, m.m7, 0, m.m5, m.m8);
    DotSymmetric(Column(m.m0, m.m3, m.m6), Column(m.m1, m.m4, m.m7));
    DotSymmetric(Column(m.m0, m.m3, m.m6), Column(0, m.m5, m.m8));
    DotSymmetric(Column(m.m1, m.m4, m.m7), Column(0, m.m5, m.m8));
    hide Dot, G.Dot;
  }

  function Column(a: int, b: int, c: int): Vec {
    Vec(a as real, b as real, c as real)
  }

  lemma RealDot(a: int, b: int, c: int, x: int, y: int, z: int)
    ensures Dot(Column(a, b, c), Column(x, y, z)) == G.Dot(a, b, c, x, y, z) as real
  {
    RealProduct(a, x);
    RealProduct(b, y);
    RealProduct(c, z);
  }

  lemma RealProduct(a: int, x: int)
    ensures a as real * x as real == (a * x) as real
  {
  }

  lemma QuadByEntries(g: Mat, v: Vec)
    requires g.m01 == g.m10 && g.m02 == g.m20 && g.m12 == g.m21
    ensures Quad(g, v) == Times(g.m00, Times(v.x, v.x)) + Times(g.m11, Times(v.y, v.y)) + Times(g.m22, Times(v.z, v.z))
      + 2.0 * Times(g.m01, Times(v.x, v.y)) + 2.0 * Times(g.m02, Times(v.x, v.z)) + 2.0 * Times(g.m12, Times(v.y, v.z))
  {
    RowTerm(v.x, g.m00, g.m01, g.m02, v.x, v.y, v.z);
    RowTerm(v.y, g.m10, g.m11, g.m12, v.x, v.y, v.z);
    RowTerm(v.z, g.m20, g.m21, g.m22, v.x, v.y, v.z);
    Swap(v.x, v.y);
    Swap(v.x, v.z);
    Swap(v.y, v.z);
    QuadOfRows(g, v);
    hide Quad, Times;
  }

  function Row(a: real, b: real, c: real, x: real, y: real, z: real): real {
    a * x + b * y + c * z
  }

  lemma RowTerm(u: real, a: real, b: real, c: real, x: real, y: real, z: real)
    ensures Times(u, Row(a, b, c, x, y, z)) == Times(a, Times(u, x)) + Times(b, Times(u, y)) + Times(c, Times(u, z))
  {
    assert u * (a * x + b * y + c * z) == u * (a * x) + u * (b * y) + u * (c * z);
    assert u * (a * x) == a * (u * x) && u * (b * y) == b * (u * y) && u * (c * z) == c * (u * z);
  }

  lemma Swap(x: real, y: real)
    ensures Times(x, y) == Times(y, x)
  {
  }

  lemma QuadOfRows(g: Mat, v: Vec)
    ensures Quad(g, v) == Times(v.x, Row(g.m00, g.m01, g.m02, v.x, v.y, v.z))
                        + Times(v.y, Row(g.m10, g.m11, g.m12, v.x, v.y, v.z))
                        + Times(v.z, Row(g.m20, g.m21, g.m22, v.x, v.y, v.z))
  {
    RowIsDot(Row0(g), v);
    RowIsDot(Row1(g), v);
    RowIsDot(Row2(g), v);
    DotIsTimes(v, MatVec(g, v));
    hide Row, Times, Dot;
  }

  lemma RowIsDot(r: Vec, v: Vec)
    ensures Dot(r, v) == Row(r.x, r.y, r.z, v.x, v.y, v.z)
  {
  }

  lemma DotIsTimes(a: Vec, b: Vec)
    ensures Dot(a, b) == Times(a.x, b.x) + Times(a.y, b.y) + Times(a.z, b.z)
  {
  }

  /** A nearly orthogonal matrix takes nothing but 0 to 0. */
  lemma NearlyOrthogonalIsOneToOne(m: G.Rmat, eps: nat, v: Vec)
    requires G.NearlyOrthogonal(m, eps) && 3 * eps < G.ONE2
    requires MatVec(Entries(m), v) == ZERO
    ensures v == ZERO
  {
    var n := Entries(m);
    var g := MatMul(Transpose(n), n);
    QuadOfGram(n, v);
    GramEntries(m);
    hide MatMul, Transpose, MatVec, G.Dot, Times, Quad, Entries;
    QuadByEntries(g, v);
    NearIdentityIsDefinite(g.m00, g.m11, g.m22, g.m01, g.m02, g.m12, G.ONE2 as real, eps as real, v.x, v.y, v.z);
  }

  lemma QuadOfGram(n: Mat, v: Vec)
    requires MatVec(n, v) == ZERO
    ensures Quad(MatMul(Transpose(n), n), v) == 0.0
  {
    MatVecMul(Transpose(n), n, v);
    MatVecZero(Transpose(n));
    DotZero(v);
    hide MatMul, Transpose, MatVec, Dot;
  }

  /** So they agree at the origin of the plane and nowhere else. */
  lemma AgreeIffAtOrigin(def: G.LtpDef, p: Vec, eps: nat)
    requires G.NearlyOrthogonal(def.m, eps) && 3 * eps < G.ONE2
    ensures EnuOfEcefPoint(DerivedPlane(def), p) == EnuOfEcefPoint(IntegerPlane(def), p) <==> p == Metres(def.ecef)
  {
    AgreeIffTakenToZero(def, p);
    var v := VecSub(p, Metres(def.ecef));
    MatVecZero(Entries(def.m));
    hide MatVec, Entries, G.NearlyOrthogonal, EnuOfEcefPoint, DerivedPlane, IntegerPlane, Metres;
    if MatVec(Entries(def.m), v) == ZERO {
      NearlyOrthogonalIsOneToOne(def.m, eps, v);
    }
    if p == Metres(def.ecef) {
      assert v == ZERO;
    }
  }

  // ---------- If a matrix is one to one, so is its transpose ----------

  ghost predicate OneToOne(n: Mat) {
    forall v: Vec :: MatVec(n, v) == ZERO ==> v == ZERO
  }

  function Cross(a: Vec, b: Vec): Vec {
    Vec(a.y * b.z - a.z * b.y, a.z * b.x - a.x * b.z, a.x * b.y - a.y * b.x)
  }

  function Determinant(n: Mat): real {
    Dot(Row0(n), Cross(Row1(n), Row2(n)))
  }

  function Triple(a: Vec, b: Vec, c: Vec): real {
    Times(a.x, Times(b.y, c.z)) - Times(a.x, Times(b.z, c.y))
    + Times(a.y, Times(b.z, c.x)) - Times(a.y, Times(b.x, c.z))
    + Times(a.z, Times(b.x, c.y)) - Times(a.z, Times(b.y, c.x))
  }

  lemma TimesDifference(x: real, y: real, p: real, q: real)
    requires y == p - q
    ensures Times(x, y) == Times(x, p) - Times(x, q)
  {
  }

  lemma CrossByTimes(b: Vec, c: Vec)
    ensures var y := Cross(b, c);
      && y.x == Times(b.y, c.z) - Times(b.z, c.y)
      && y.y == Times(b.z, c.x) - Times(b.x, c.z)
      && y.z == Times(b.x, c.y) - Times(b.y, c.x)
  {
  }

  lemma DotOfCross(a: Vec, b: Vec, c: Vec)
    ensures Dot(a, Cross(b, c)) == Triple(a, b, c)
  {
    var y := Cross(b, c);
    CrossByTimes(b, c);
    DotIsTimes(a, y);
    hide Dot, Cross, Times;
    TimesDifference(a.x, y.x, Times(b.y, c.z), Times(b.z, c.y));
    TimesDifference(a.y, y.y, Times(b.z, c.x), Times(b.x, c.z));
    TimesDifference(a.z, y.z, Times(b.x, c.y), Times(b.y, c.x));
  }

  /** The order of three factors does not matter. */
  lemma Rotated(x: real, y: real, z: real)
    ensures Times(x, Times(y, z)) == Times(y, Times(z, x)) == Times(z, Times(x, y))
    ensures Times(x, Times(y, z)) == Times(x, Times(z, y))
  {
  }

  lemma CrossIsPerpendicular(a: Vec, b: Vec)
    ensures Dot(a, Cross(a, b)) == 0.0 && Dot(b, Cross(a, b)) == 0.0
  {
    DotOfCross(a, a, b);
    DotOfCross(b, a, b);
    Rotated(a.x, a.y, b.z);
    Rotated(a.x, a.z, b.y);
    Rotated(a.y, a.z, b.x);
    Rotated(b.x, a.y, b.z);
    Rotated(b.x, a.z, b.y);
    Rotated(b.y, a.x, b.z);
    Rotated(b.y, a.z, b.x);
    Rotated(b.z, a.x, b.y);
    Rotated(b.z, a.y, b.x);
    Rotated(a.y, a.x, b.z);
    Rotated(a.z, a.x, b.y);
    Rotated(a.z, a.y, b.x);
    hide Dot, Cross, Times;
  }

  lemma CrossTurns(a: Vec, b: Vec, c: Vec)
    ensures Dot(a, Cross(b, c)) == Dot(b, Cross(c, a)) == Dot(c, Cross(a, b))
  {
    DotOfCross(a, b, c);
    DotOfCross(b, c, a);
    DotOfCross(c, a, b);
    Rotated(a.x, b.y, c.z);
    Rotated(a.x, b.z, c.y);
    Rotated(a.y, b.z, c.x);
    Rotated(a.y, b.x, c.z);
    Rotated(a.z, b.x, c.y);
    Rotated(a.z, b.y, c.x);
    Rotated(a.x, c.y, b.z);
    Rotated(a.y, c.z, b.x);
    Rotated(a.z, c.x, b.y);
    Rotated(a.x, c.z, b.y);
    Rotated(a.y, c.x, b.z);
    Rotated(a.z, c.y, b.x);
    hide Dot, Cross, Times;
  }

  /** The cross products of the rows, through the matrix. */
  lemma CrossesThrough(n: Mat)
    ensures MatVec(n, Cross(Row1(n), Row2(n))) == Vec(Determinant(n), 0.0, 0.0)
    ensures MatVec(n, Cross(Row2(n), Row0(n))) == Vec(0.0, Determinant(n), 0.0)
    ensures MatVec(n, Cross(Row0(n), Row1(n))) == Vec(0.0, 0.0, Determinant(n))
  {
    CrossIsPerpendicular(Row0(n), Row1(n));
    CrossIsPerpendicular(Row1(n), Row2(n));
    CrossIsPerpendicular(Row2(n), Row0(n));
    CrossTurns(Row0(n), Row1(n), Row2(n));
    hide Dot, Cross, Row0, Row1, Row2;
  }

  /** Two vectors perpendicular to `r`. */
  function Beside(r: Vec): Vec {
    Vec(r.y, -r.x, 0.0)
  }

  function Across(r: Vec): Vec {
    Vec(0.0, r.z, -r.y)
  }

  lemma ParallelIsPerpendicular(r: Vec, a: Vec)
    requires Cross(r, a) == ZERO
    ensures Dot(a, Beside(r)) == 0.0 && Dot(a, Across(r)) == 0.0
  {
    assert a.x * r.y == r.y * a.x && a.y * -r.x == -(r.x * a.y);
    assert a.y * r.z == r.z * a.y && a.z * -r.y == -(r.y * a.z);
  }

  lemma ParallelToAllIsZero(n: Mat, r: Vec)
    requires OneToOne(n)
    requires Cross(r, Row0(n)) == ZERO && Cross(r, Row1(n)) == ZERO && Cross(r, Row2(n)) == ZERO
    ensures r == ZERO
  {
    ParallelIsPerpendicular(r, Row0(n));
    ParallelIsPerpendicular(r, Row1(n));
    ParallelIsPerpendicular(r, Row2(n));
    hide Dot, Cross, Row0, Row1, Row2;
    assert MatVec(n, Beside(r)) == ZERO && MatVec(n, Across(r)) == ZERO;
  }

  lemma CrossSwapped(a: Vec, b: Vec)
    ensures Cross(a, b) == ZERO ==> Cross(b, a) == ZERO
    ensures Cross(a, a) == ZERO
  {
  }

  lemma ZeroRows(n: Mat, v: Vec)
    requires Row0(n) == ZERO && Row1(n) == ZERO && Row2(n) == ZERO
    ensures MatVec(n, v) == ZERO
  {
  }

  lemma OneToOneHasDeterminant(n: Mat)
    requires OneToOne(n)
    ensures Determinant(n) != 0.0
  {
    CrossesThrough(n);
    CrossSwapped(Row0(n), Row1(n));
    CrossSwapped(Row1(n), Row2(n));
    CrossSwapped(Row2(n), Row0(n));
    hide Cross, MatVec, Determinant, Row0, Row1, Row2;
    if Determinant(n) == 0.0 {
      ParallelToAllIsZero(n, Row0(n));
      ParallelToAllIsZero(n, Row1(n));
      ParallelToAllIsZero(n, Row2(n));
      ZeroRows(n, Vec(1.0, 0.0, 0.0));
      assert false;
    }
  }

  lemma TransposedIsOneToOne(n: Mat, e: Vec)
    requires OneToOne(n) && MatVec(Transpose(n), e) == ZERO
    ensures e == ZERO
  {
    OneToOneHasDeterminant(n);
    CrossesThrough(n);
    ThroughTransposed(n, e, Cross(Row1(n), Row2(n)));
    ThroughTransposed(n, e, Cross(Row2(n), Row0(n)));
    ThroughTransposed(n, e, Cross(Row0(n), Row1(n)));
    var d := Determinant(n);
    assert Dot(e, Vec(d, 0.0, 0.0)) == e.x * d && Dot(e, Vec(0.0, d, 0.0)) == e.y * d;
    assert Dot(e, Vec(0.0, 0.0, d)) == e.z * d;
    hide Cross, MatVec, Determinant, Dot, Row0, Row1, Row2;
    NoFactor(e.x, d);
    NoFactor(e.y, d);
    NoFactor(e.z, d);
  }

  lemma ThroughTransposed(n: Mat, e: Vec, y: Vec)
    requires MatVec(Transpose(n), e) == ZERO
    ensures Dot(e, MatVec(n, y)) == 0.0
  {
    DotTranspose(n, e, y);
    DotZero(y);
    hide Dot, MatVec, Transpose;
  }

  lemma NoFactor(x: real, d: real)
    requires d != 0.0 && x * d == 0.0
    ensures x == 0.0
  {
  }

  /** Out of it, they agree on the local coordinates 0 only. */
  lemma AgreeBackIffAtOrigin(def: G.LtpDef, e: Vec, eps: nat)
    requires G.NearlyOrthogonal(def.m, eps) && 3 * eps < G.ONE2
    ensures EcefOfEnuPoint(DerivedPlane(def), e) == EcefOfEnuPoint(IntegerPlane(def), e) <==> e == ZERO
  {
    AgreeBackIffTakenToZero(def, e);
    var n := Entries(def.m);
    MatVecZero(Transpose(n));
    hide MatVec, Transpose, Entries, G.NearlyOrthogonal, EcefOfEnuPoint, DerivedPlane, IntegerPlane;
    if MatVec(Transpose(n), e) == ZERO {
      forall v: Vec | MatVec(n, v) == ZERO
        ensures v == ZERO
      {
        NearlyOrthogonalIsOneToOne(def.m, eps, v);
      }
      TransposedIsOneToOne(n, e);
    }
  }

  /** At every latitude and longitude. */
  lemma AgreeIffAtOriginAnywhere(def: G.LtpDef, p: Vec, sinLat: int, cosLat: int, sinLon: int, cosLon: int)
    requires G.TrigPair(sinLat, cosLat) && G.TrigPair(sinLon, cosLon)
    requires def.m == G.MatrixOf(sinLat, cosLat, sinLon, cosLon)
    ensures EnuOfEcefPoint(DerivedPlane(def), p) == EnuOfEcefPoint(IntegerPlane(def), p) <==> p == Metres(def.ecef)
  {
    G.MatrixIsNearlyOrthogonal(sinLat, cosLat, sinLon, cosLon);
    AgreeIffAtOrigin(def, p, G.MATRIX_EPS);
  }

  lemma AgreeBackIffAtOriginAnywhere(def: G.LtpDef, e: Vec, sinLat: int, cosLat: int, sinLon: int, cosLon: int)
    requires G.TrigPair(sinLat, cosLat) && G.TrigPair(sinLon, cosLon)
    requires def.m == G.MatrixOf(sinLat, cosLat, sinLon, cosLon)
    ensures EcefOfEnuPoint(DerivedPlane(def), e) == EcefOfEnuPoint(IntegerPlane(def), e) <==> e == ZERO
  {
    G.MatrixIsNearlyOrthogonal(sinLat, cosLat, sinLon, cosLon);
    AgreeBackIffAtOrigin(def, e, G.MATRIX_EPS);
  }

  // ---------- The integer plane is the one the integer code uses ----------

  predicate RoundsTo(n: int, x: real) {
    n as real <= x < (n + 1) as real
  }

  lemma RowRounds(a: int, b: int, c: int, x: int, y: int, z: int)
    ensures RoundsTo(G.Dot(a, b, c, x, y, z) / G.ONE,
                     100.0 * ((a as real / 1048576.0) * (x as real / 100.0)
                              + (b as real / 1048576.0) * (y as real / 100.0)
                              + (c as real / 1048576.0) * (z as real / 100.0)))
  {
    var n := G.Dot(a, b, c, x, y, z);
    RealOfProduct(a, x);
    RealOfProduct(b, y);
    RealOfProduct(c, z);
    var q := n / G.ONE;
    assert q * G.ONE <= n < (q + 1) * G.ONE;
  }

  lemma RealOfProduct(a: int, x: int)
    ensures 100.0 * ((a as real / 1048576.0) * (x as real / 100.0)) == (a * x) as real / 1048576.0
  {
  }

  /** The integer conversion of a point gives, in centimetres, the local coordinates in the integer
      plane, rounded down. */
  lemma IntegerPlaneIsItsOwn(def: G.LtpDef, p: G.Vect)
    ensures var e, x := G.EnuOfEcefPoint(def, p), EnuOfEcefPoint(IntegerPlane(def), Metres(p));
      RoundsTo(e.x, 100.0 * x.x) && RoundsTo(e.y, 100.0 * x.y) && RoundsTo(e.z, 100.0 * x.z)
  {
    var d := G.Diff(p, def.ecef);
    RowRounds(def.m.m0, def.m.m1, 0, d.x, d.y, d.z);
    RowRounds(def.m.m3, def.m.m4, def.m.m5, d.x, d.y, d.z);
    RowRounds(def.m.m6, def.m.m7, def.m.m8, d.x, d.y, d.z);
    assert VecSub(Metres(p), Metres(def.ecef)) == Metres(d);
    hide G.Dot, RoundsTo;
  }
}
