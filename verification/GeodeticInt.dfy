/** Fixed-point conversions between earth-centred and local coordinates, of
    sw/airborne/math/pprz_geodetic_int.c. Shifts right round down; `/` in C rounds to zero. */
module GeodeticInt {
  const ONE := 0x10_0000 // 1.0 with HIGH_RES_TRIG_FRAC
  const ONE2 := 0x100_0000_0000 // its square

  datatype Vect = Vect(x: int, y: int, z: int)

  /** The matrix ltp_of_ecef; its third element is 0 and never read. */
  datatype Rmat = Rmat(m0: int, m1: int, m3: int, m4: int, m5: int, m6: int, m7: int, m8: int)

  datatype LtpDef = LtpDef(ecef: Vect, m: Rmat)

  function Dot(a: int, b: int, c: int, x: int, y: int, z: int): int {
    a * x + b * y + c * z
  }

  // ---------- The conversions ----------

  function EnuOfEcefVect(m: Rmat, v: Vect): Vect {
    Vect(Dot(m.m0, m.m1, 0, v.x, v.y, v.z) / ONE,
         Dot(m.m3, m.m4, m.m5, v.x, v.y, v.z) / ONE,
         Dot(m.m6, m.m7, m.m8, v.x, v.y, v.z) / ONE)
  }

  function EcefOfEnuVect(m: Rmat, e: Vect): Vect {
    Vect(Dot(m.m0, m.m3, m.m6, e.x, e.y, e.z) / ONE,
         Dot(m.m1, m.m4, m.m7, e.x, e.y, e.z) / ONE,
         Dot(0, m.m5, m.m8, e.x, e.y, e.z) / ONE)
  }

  function Sum(a: Vect, b: Vect): Vect {
    Vect(a.x + b.x, a.y + b.y, a.z + b.z)
  }

  function Diff(a: Vect, b: Vect): Vect {
    Vect(a.x - b.x, a.y - b.y, a.z - b.z)
  }

  /** Points in centimetres. */
  function EnuOfEcefPoint(def: LtpDef, p: Vect): Vect {
    EnuOfEcefVect(def.m, Diff(p, def.ecef))
  }

  function EcefOfEnuPoint(def: LtpDef, e: Vect): Vect {
    Sum(EcefOfEnuVect(def.m, e), def.ecef)
  }

  /** Division by 25 as C does it. */
  function SDiv25(n: int): int {
    if n >= 0 then n / 25 else -(-n / 25)
  }

  /** Centimetres to metres with INT32_POS_FRAC bits, and back. */
  function PosOfCm(c: int): int {
    SDiv25(c * 64)
  }

  function CmOfPos(q: int): int {
    q * 25 / 64
  }

  /** Local positions in metres with INT32_POS_FRAC bits. */
  function EnuOfEcefPos(def: LtpDef, p: Vect): Vect {
    var e := EnuOfEcefPoint(def, p);
    Vect(PosOfCm(e.x), PosOfCm(e.y), PosOfCm(e.z))
  }

  function EcefOfEnuPos(def: LtpDef, e: Vect): Vect {
    Sum(EcefOfEnuVect(def.m, Vect(CmOfPos(e.x), CmOfPos(e.y), CmOfPos(e.z))), def.ecef)
  }

  function NedOfEnu(v: Vect): Vect {
    Vect(v.y, v.x, -v.z)
  }

  function NedOfEcefPos(def: LtpDef, p: Vect): Vect {
    NedOfEnu(EnuOfEcefPos(def, p))
  }

  function EcefOfNedPos(def: LtpDef, n: Vect): Vect {
    EcefOfEnuPos(def, NedOfEnu(n))
  }

  function NedOfEcefPoint(def: LtpDef, p: Vect): Vect {
    NedOfEnu(EnuOfEcefPoint(def, p))
  }

  function EcefOfNedPoint(def: LtpDef, n: Vect): Vect {
    EcefOfEnuPoint(def, NedOfEnu(n))
  }

  // ---------- Centimetres to Q8 metres and back ----------

  /** The scaling keeps negative lengths and whole quarter metres, and takes a centimetre off
      any other. */
  lemma CmRoundTrip(c: int)
    ensures CmOfPos(PosOfCm(c)) == if c <= 0 || c % 25 == 0 then c else c - 1
  {
    if c >= 0 {
      var q := PosOfCm(c);
      Quotient(64 * c, 25, q);
      if c % 25 == 0 {
        Multiple25(c);
        DividesTo(q * 25, 64, c);
      } else {
        NotMultiple25(c);
        DividesTo(q * 25, 64, c - 1);
      }
    } else {
      var q := -64 * c / 25;
      Quotient(-64 * c, 25, q);
      DividesTo(-q * 25, 64, c);
    }
  }

  lemma Quotient(n: int, d: int, q: int)
    requires d == 25 && q == n / d
    ensures d * q <= n < d * q + d && (n % d == 0 <==> d * q == n)
  {
  }

  lemma DividesTo(n: int, d: int, q: int)
    requires d == 64 && d * q <= n < d * q + d
    ensures n / d == q
  {
  }

  lemma Multiple25(c: int)
    requires c % 25 == 0
    ensures (64 * c) % 25 == 0
  {
  }

  lemma NotMultiple25(c: int)
    requires c % 25 != 0
    ensures (64 * c) % 25 != 0
  {
  }

  // ---------- There and back through the matrix ----------

  function Abs(x: int): int {
    if x < 0 then -x else x
  }

  predicate Near(g: int, target: int, eps: int) {
    Abs(g - target) <= eps
  }

  /** The transposed matrix times the matrix is within `eps` of the identity, entry by entry. */
  predicate NearlyOrthogonal(m: Rmat, eps: int) {
    && Near(Dot(m.m0, m.m3, m.m6, m.m0, m.m3, m.m6), ONE2, eps)
    && Near(Dot(m.m1, m.m4, m.m7, m.m1, m.m4, m.m7), ONE2, eps)
    && Near(Dot(0, m.m5, m.m8, 0, m.m5, m.m8), ONE2, eps)
    && Near(Dot(m.m0, m.m3, m.m6, m.m1, m.m4, m.m7), 0, eps)
    && Near(Dot(m.m0, m.m3, m.m6, 0, m.m5, m.m8), 0, eps)
    && Near(Dot(m.m1, m.m4, m.m7, 0, m.m5, m.m8), 0, eps)
  }

  function Taxicab(v: Vect): int {
    Abs(v.x) + Abs(v.y) + Abs(v.z)
  }

  lemma Transposed(a: int, b: int, c: int, p1: int, q1: int, s1: int, p2: int, q2: int, s2: int,
      p3: int, q3: int, s3: int, x: int, y: int, z: int)
    ensures Dot(a, b, c, Dot(p1, q1, s1, x, y, z), Dot(p2, q2, s2, x, y, z), Dot(p3, q3, s3, x, y, z))
         == Dot(Dot(a, b, c, p1, p2, p3), Dot(a, b, c, q1, q2, q3), Dot(a, b, c, s1, s2, s3), x, y, z)
  {
    Distribute(a, p1, q1, s1, x, y, z);
    Distribute(b, p2, q2, s2, x, y, z);
    Distribute(c, p3, q3, s3, x, y, z);
    Collect(a * p1, b * p2, c * p3, x);
    Collect(a * q1, b * q2, c * q3, y);
    Collect(a * s1, b * s2, c * s3, z);
  }

  lemma Distribute(a: int, p: int, q: int, s: int, x: int, y: int, z: int)
    ensures a * Dot(p, q, s, x, y, z) == (a * p) * x + (a * q) * y + (a * s) * z
  {
    Factor(a, p, x);
    Factor(a, q, y);
    Factor(a, s, z);
    Sum3(a, p * x, q * y, s * z);
  }

  lemma Factor(a: int, p: int, x: int)
    ensures a * (p * x) == (a * p) * x
  {
  }

  lemma Sum3(a: int, p: int, q: int, s: int)
    ensures a * (p + q + s) == a * p + a * q + a * s
  {
  }

  lemma Collect(p: int, q: int, s: int, x: int)
    ensures (p + q + s) * x == p * x + q * x + s * x
  {
  }

  /** The absolute values of a column add up to less than twice its length. */
  lemma ColumnSum(a: int, b: int, c: int, eps: int)
    requires Near(Dot(a, b, c, a, b, c), ONE2, eps) && 3 * eps < ONE2
    ensures Abs(a) + Abs(b) + Abs(c) < 2 * ONE
  {
    var u, v, w := Abs(a), Abs(b), Abs(c);
    SquareOfAbs(a);
    SquareOfAbs(b);
    SquareOfAbs(c);
    var t := u + v + w;
    MeanSquares(u, v, w);
    assert t * t < 4 * ONE2;
    if t >= 2 * ONE {
      Monotone(2 * ONE, t);
    }
  }

  lemma SquareOfAbs(x: int)
    ensures Abs(x) * Abs(x) == x * x
  {
  }

  lemma MeanSquares(u: int, v: int, w: int)
    ensures (u + v + w) * (u + v + w) <= 3 * (u * u + v * v + w * w)
  {
    TwiceProduct(u, v);
    TwiceProduct(v, w);
    TwiceProduct(u, w);
    assert (u + v + w) * (u + v + w) == u * u + v * v + w * w + 2 * (u * v) + 2 * (v * w) + 2 * (u * w) by {
      SquareOfSum(u, v, w);
    }
  }

  lemma SquareOfSum(u: int, v: int, w: int)
    ensures (u + v + w) * (u + v + w) == u * u + v * v + w * w + 2 * (u * v) + 2 * (v * w) + 2 * (u * w)
  {
    Collect(u, v, w, u + v + w);
    Sum3(u, u, v, w);
    Sum3(v, u, v, w);
    Sum3(w, u, v, w);
  }

  lemma TwiceProduct(u: int, v: int)
    ensures 2 * (u * v) <= u * u + v * v
  {
    var d := u - v;
    assert d * d == u * u - 2 * (u * v) + v * v;
    assert d * d >= 0;
  }

  lemma Monotone(x: int, y: int)
    requires 0 <= x <= y
    ensures x * x <= y * y
  {
  }

  lemma ProductBound(x: int, y: int, m: int)
    requires Abs(y) <= m
    ensures Abs(x * y) <= Abs(x) * m
  {
    AbsOfProduct(x, y);
    MonotoneProduct(Abs(x), Abs(y), m);
  }

  lemma AbsOfProduct(x: int, y: int)
    ensures Abs(x * y) == Abs(x) * Abs(y)
  {
  }

  lemma MonotoneProduct(k: int, x: int, y: int)
    requires k >= 0 && x <= y
    ensures k * x <= k * y
  {
  }

  /** One row of the product with the nearly identical matrix. */
  lemma RowError(g0: int, g1: int, g2: int, x: int, y: int, z: int, eps: int, target: int)
    requires Abs(g0) <= eps && Abs(g1) <= eps && Abs(g2) <= eps
    requires target == Dot(g0, g1, g2, x, y, z)
    ensures Abs(target) <= eps * (Abs(x) + Abs(y) + Abs(z))
  {
    ProductBound(x, g0, eps);
    ProductBound(y, g1, eps);
    ProductBound(z, g2, eps);
    Sum3(eps, Abs(x), Abs(y), Abs(z));
  }

  /** Rounding: `t` are the exact products before each shift, off from the rounded `e` by less
      than `k` units; `g` is the column applied to the exact ones. */
  lemma BackError(a: int, b: int, c: int, e1: int, e2: int, e3: int, t1: int, t2: int, t3: int,
      k: int, g: int, w: int, err: int)
    requires Abs(a) + Abs(b) + Abs(c) <= 2 * ONE && k >= 0
    requires 0 <= t1 - ONE * e1 <= k * ONE && 0 <= t2 - ONE * e2 <= k * ONE && 0 <= t3 - ONE * e3 <= k * ONE
    requires g == Dot(a, b, c, t1, t2, t3) && Abs(g - ONE2 * w) <= err
    ensures ONE2 * Abs(Dot(a, b, c, e1, e2, e3) / ONE - w) < (2 * k + 1) * ONE2 + err
  {
    var r1, r2, r3 := t1 - ONE * e1, t2 - ONE * e2, t3 - ONE * e3;
    RestBound(a, b, c, r1, r2, r3, k * ONE);
    ExpandDot(a, b, c, e1, e2, e3, t1, t2, t3, r1, r2, r3);
    hide Dot;
    Assembled(Dot(a, b, c, e1, e2, e3), Dot(a, b, c, r1, r2, r3), g, k, w, err);
  }

  lemma Assembled(d: int, rest: int, g: int, k: int, w: int, err: int)
    requires g == ONE * d + rest && Abs(rest) <= 2 * ONE * (k * ONE) && Abs(g - ONE2 * w) <= err
    ensures ONE2 * Abs(d / ONE - w) < (2 * k + 1) * ONE2 + err
  {
    var v := d / ONE;
    assert ONE * v <= d < ONE * v + ONE;
    assert Abs(ONE2 * v - ONE2 * w) < 2 * k * ONE2 + ONE2 + err;
  }

  lemma ExpandDot(a: int, b: int, c: int, e1: int, e2: int, e3: int, t1: int, t2: int, t3: int,
      r1: int, r2: int, r3: int)
    requires r1 == t1 - ONE * e1 && r2 == t2 - ONE * e2 && r3 == t3 - ONE * e3
    ensures Dot(a, b, c, t1, t2, t3) == ONE * Dot(a, b, c, e1, e2, e3) + Dot(a, b, c, r1, r2, r3)
  {
    Expand(a, e1, t1, r1);
    Expand(b, e2, t2, r2);
    Expand(c, e3, t3, r3);
  }

  lemma RestBound(a: int, b: int, c: int, r1: int, r2: int, r3: int, m: int)
    requires Abs(a) + Abs(b) + Abs(c) <= 2 * ONE
    requires 0 <= r1 <= m && 0 <= r2 <= m && 0 <= r3 <= m
    ensures Abs(Dot(a, b, c, r1, r2, r3)) <= 2 * ONE * m
  {
    ProductBound(a, r1, m);
    ProductBound(b, r2, m);
    ProductBound(c, r3, m);
    SumBound(a * r1, b * r2, c * r3, Abs(a), Abs(b), Abs(c), m);
  }

  lemma SumBound(x: int, y: int, z: int, u: int, v: int, w: int, m: int)
    requires Abs(x) <= u * m && Abs(y) <= v * m && Abs(z) <= w * m
    requires u + v + w <= 2 * ONE && m >= 0
    ensures Abs(x + y + z) <= 2 * ONE * m
  {
    Collect(u, v, w, m);
    MonotoneProduct(m, u + v + w, 2 * ONE);
    assert Abs(x + y + z) <= Abs(x) + Abs(y) + Abs(z);
  }

  lemma Expand(a: int, e: int, t: int, r: int)
    requires r == t - ONE * e
    ensures a * t == ONE * (a * e) + a * r
  {
  }

  /** The exact products before the shifts of enu_of_ecef_vect_i. */
  function Exact(m: Rmat, v: Vect): Vect {
    Vect(Dot(m.m0, m.m1, 0, v.x, v.y, v.z),
         Dot(m.m3, m.m4, m.m5, v.x, v.y, v.z),
         Dot(m.m6, m.m7, m.m8, v.x, v.y, v.z))
  }

  predicate RoundedWithin(e: int, t: int, k: int) {
    0 <= t - ONE * e <= k * ONE
  }

  /** Coming back from local coordinates that lie below the exact ones by at most `k` units. */
  predicate CloseTo(m: Rmat, e: Vect, v: Vect, eps: int, k: int) {
    var back := EcefOfEnuVect(m, e);
    var bound := (2 * k + 1) * ONE2 + eps * Taxicab(v);
    && ONE2 * Abs(back.x - v.x) < bound
    && ONE2 * Abs(back.y - v.y) < bound
    && ONE2 * Abs(back.z - v.z) < bound
  }

  lemma BackFromRounded(m: Rmat, e: Vect, v: Vect, eps: int, k: int)
    requires NearlyOrthogonal(m, eps) && 3 * eps < ONE2 && k >= 0
    requires var t := Exact(m, v);
      RoundedWithin(e.x, t.x, k) && RoundedWithin(e.y, t.y, k) && RoundedWithin(e.z, t.z, k)
    ensures CloseTo(m, e, v, eps, k)
  {
    var t := Exact(m, v);
    BackX(m, e, v, t, eps, k);
    BackY(m, e, v, t, eps, k);
    BackZ(m, e, v, t, eps, k);
  }

  lemma DotCommutes(a: int, b: int, c: int, p: int, q: int, s: int)
    ensures Dot(a, b, c, p, q, s) == Dot(p, q, s, a, b, c)
  {
  }

  lemma MinusIdentity(g0: int, g1: int, g2: int, v: Vect)
    ensures Dot(g0 - ONE2, g1, g2, v.x, v.y, v.z) == Dot(g0, g1, g2, v.x, v.y, v.z) - ONE2 * v.x
    ensures Dot(g0, g1 - ONE2, g2, v.x, v.y, v.z) == Dot(g0, g1, g2, v.x, v.y, v.z) - ONE2 * v.y
    ensures Dot(g0, g1, g2 - ONE2, v.x, v.y, v.z) == Dot(g0, g1, g2, v.x, v.y, v.z) - ONE2 * v.z
  {
  }

  lemma BackX(m: Rmat, e: Vect, v: Vect, t: Vect, eps: int, k: int)
    requires NearlyOrthogonal(m, eps) && 3 * eps < ONE2 && k >= 0 && t == Exact(m, v)
    requires RoundedWithin(e.x, t.x, k) && RoundedWithin(e.y, t.y, k) && RoundedWithin(e.z, t.z, k)
    ensures ONE2 * Abs(EcefOfEnuVect(m, e).x - v.x) < (2 * k + 1) * ONE2 + eps * Taxicab(v)
  {
    var g0 := Dot(m.m0, m.m3, m.m6, m.m0, m.m3, m.m6);
    var g1 := Dot(m.m0, m.m3, m.m6, m.m1, m.m4, m.m7);
    var g2 := Dot(m.m0, m.m3, m.m6, 0, m.m5, m.m8);
    ColumnSum(m.m0, m.m3, m.m6, eps);
    hide Dot;
    Transposed(m.m0, m.m3, m.m6, m.m0, m.m1, 0, m.m3, m.m4, m.m5, m.m6, m.m7, m.m8, v.x, v.y, v.z);
    MinusIdentity(g0, g1, g2, v);
    var g := Dot(g0, g1, g2, v.x, v.y, v.z);
    RowError(g0 - ONE2, g1, g2, v.x, v.y, v.z, eps, g - ONE2 * v.x);
    BackError(m.m0, m.m3, m.m6, e.x, e.y, e.z, t.x, t.y, t.z, k, g, v.x, eps * Taxicab(v));
  }

  lemma BackY(m: Rmat, e: Vect, v: Vect, t: Vect, eps: int, k: int)
    requires NearlyOrthogonal(m, eps) && 3 * eps < ONE2 && k >= 0 && t == Exact(m, v)
    requires RoundedWithin(e.x, t.x, k) && RoundedWithin(e.y, t.y, k) && RoundedWithin(e.z, t.z, k)
    ensures ONE2 * Abs(EcefOfEnuVect(m, e).y - v.y) < (2 * k + 1) * ONE2 + eps * Taxicab(v)
  {
    var g0 := Dot(m.m1, m.m4, m.m7, m.m0, m.m3, m.m6);
    var g1 := Dot(m.m1, m.m4, m.m7, m.m1, m.m4, m.m7);
    var g2 := Dot(m.m1, m.m4, m.m7, 0, m.m5, m.m8);
    ColumnSum(m.m1, m.m4, m.m7, eps);
    DotCommutes(m.m0, m.m3, m.m6, m.m1, m.m4, m.m7);
    hide Dot;
    Transposed(m.m1, m.m4, m.m7, m.m0, m.m1, 0, m.m3, m.m4, m.m5, m.m6, m.m7, m.m8, v.x, v.y, v.z);
    MinusIdentity(g0, g1, g2, v);
    var g := Dot(g0, g1, g2, v.x, v.y, v.z);
    RowError(g0, g1 - ONE2, g2, v.x, v.y, v.z, eps, g - ONE2 * v.y);
    BackError(m.m1, m.m4, m.m7, e.x, e.y, e.z, t.x, t.y, t.z, k, g, v.y, eps * Taxicab(v));
  }

  lemma BackZ(m: Rmat, e: Vect, v: Vect, t: Vect, eps: int, k: int)
    requires NearlyOrthogonal(m, eps) && 3 * eps < ONE2 && k >= 0 && t == Exact(m, v)
    requires RoundedWithin(e.x, t.x, k) && RoundedWithin(e.y, t.y, k) && RoundedWithin(e.z, t.z, k)
    ensures ONE2 * Abs(EcefOfEnuVect(m, e).z - v.z) < (2 * k + 1) * ONE2 + eps * Taxicab(v)
  {
    var g0 := Dot(0, m.m5, m.m8, m.m0, m.m3, m.m6);
    var g1 := Dot(0, m.m5, m.m8, m.m1, m.m4, m.m7);
    var g2 := Dot(0, m.m5, m.m8, 0, m.m5, m.m8);
    ColumnSum(0, m.m5, m.m8, eps);
    DotCommutes(m.m0, m.m3, m.m6, 0, m.m5, m.m8);
    DotCommutes(m.m1, m.m4, m.m7, 0, m.m5, m.m8);
    hide Dot;
    Transposed(0, m.m5, m.m8, m.m0, m.m1, 0, m.m3, m.m4, m.m5, m.m6, m.m7, m.m8, v.x, v.y, v.z);
    MinusIdentity(g0, g1, g2, v);
    var g := Dot(g0, g1, g2, v.x, v.y, v.z);
    RowError(g0, g1, g2 - ONE2, v.x, v.y, v.z, eps, g - ONE2 * v.z);
    BackError(0, m.m5, m.m8, e.x, e.y, e.z, t.x, t.y, t.z, k, g, v.z, eps * Taxicab(v));
  }

  // ---------- The round trips ----------

  lemma Rounds(t: int)
    ensures RoundedWithin(t / ONE, t, 1)
  {
  }

  /** A vector to local coordinates and back changes by less than 3 units, plus what the matrix
      is off from an orthogonal one. */
  lemma VectRoundTrip(m: Rmat, v: Vect, eps: int)
    requires NearlyOrthogonal(m, eps) && 3 * eps < ONE2
    ensures CloseTo(m, EnuOfEcefVect(m, v), v, eps, 1)
  {
    var t := Exact(m, v);
    Rounds(t.x);
    Rounds(t.y);
    Rounds(t.z);
    hide Dot, RoundedWithin, NearlyOrthogonal, CloseTo;
    BackFromRounded(m, EnuOfEcefVect(m, v), v, eps, 1);
  }

  /** Each coordinate of `q` is less than `bound` away from that of `p`, in units of ONE2. */
  predicate Within(p: Vect, q: Vect, bound: int) {
    ONE2 * Abs(q.x - p.x) < bound && ONE2 * Abs(q.y - p.y) < bound && ONE2 * Abs(q.z - p.z) < bound
  }

  lemma PointRoundTrip(def: LtpDef, p: Vect, eps: int)
    requires NearlyOrthogonal(def.m, eps) && 3 * eps < ONE2
    ensures Within(p, EcefOfEnuPoint(def, EnuOfEcefPoint(def, p)), 3 * ONE2 + eps * Taxicab(Diff(p, def.ecef)))
    ensures EcefOfNedPoint(def, NedOfEcefPoint(def, p)) == EcefOfEnuPoint(def, EnuOfEcefPoint(def, p))
  {
    VectRoundTrip(def.m, Diff(p, def.ecef), eps);
    hide NearlyOrthogonal, EnuOfEcefVect, EcefOfEnuVect, Taxicab;
  }

  /** Through metres with eight fractional bits the centimetre lost in scaling adds 2 units. */
  lemma PosRoundTrip(def: LtpDef, p: Vect, eps: int)
    requires NearlyOrthogonal(def.m, eps) && 3 * eps < ONE2
    ensures Within(p, EcefOfEnuPos(def, EnuOfEcefPos(def, p)), 5 * ONE2 + eps * Taxicab(Diff(p, def.ecef)))
    ensures EcefOfNedPos(def, NedOfEcefPos(def, p)) == EcefOfEnuPos(def, EnuOfEcefPos(def, p))
  {
    var v := Diff(p, def.ecef);
    var t, e := Exact(def.m, v), EnuOfEcefVect(def.m, v);
    CmRounds(t.x);
    CmRounds(t.y);
    CmRounds(t.z);
    var e' := Vect(CmOfPos(PosOfCm(e.x)), CmOfPos(PosOfCm(e.y)), CmOfPos(PosOfCm(e.z)));
    hide Dot, RoundedWithin, NearlyOrthogonal, CmOfPos, PosOfCm;
    BackFromRounded(def.m, e', v, eps, 2);
    hide EcefOfEnuVect, Taxicab;
  }

  lemma CmRounds(t: int)
    ensures RoundedWithin(CmOfPos(PosOfCm(t / ONE)), t, 2)
  {
    CmRoundTrip(t / ONE);
    hide CmOfPos, PosOfCm;
  }

  // ---------- The matrix from four rounded sines and cosines ----------

  /** The matrix both ltp_def functions build, from Q20 sines and cosines. */
  function MatrixOf(sinLat: int, cosLat: int, sinLon: int, cosLon: int): Rmat {
    Rmat(-sinLon, cosLon,
         -sinLat * cosLon / ONE, -sinLat * sinLon / ONE, cosLat,
         cosLat * cosLon / ONE, cosLat * sinLon / ONE, sinLat)
  }

  /** A sine and cosine pair as rounding leaves it: each at most 1, their squares almost adding
      up to it. */
  predicate TrigPair(s: int, c: int) {
    Abs(s) <= ONE && Abs(c) <= ONE && Near(s * s + c * c, ONE2, 2 * ONE)
  }

  const MATRIX_EPS := 9 * 0x10_0000

  /** Bound on a product of two magnitudes. */
  lemma Bound(x: int, y: int, mx: int, my: int)
    requires Abs(x) <= mx && Abs(y) <= my
    ensures Abs(x * y) <= mx * my
  {
    ProductBound(x, y, my);
    MonotoneProduct(my, Abs(x), mx);
  }

  lemma FloorParts(n: int, p: int) returns (f: int)
    requires p == n / ONE
    ensures ONE * p == n - f && 0 <= f < ONE
  {
    f := n - ONE * p;
  }

  lemma FloorMagnitude(x: int, y: int, p: int)
    requires Abs(x) <= ONE && Abs(y) <= ONE && p == x * y / ONE
    ensures Abs(p) <= ONE
  {
    Bound(x, y, ONE, ONE);
  }

  /** A rounded direction, seen along the unrounded one. */
  lemma Along(a: int, b: int, w: int, p: int, q: int, n: int)
    requires Abs(a) <= ONE && Abs(b) <= ONE && p == a * w / ONE && q == b * w / ONE && n == a * a + b * b
    ensures Abs(ONE * (a * p + b * q) - w * n) <= 2 * ONE2
  {
    var f := FloorParts(a * w, p);
    var g := FloorParts(b * w, q);
    ScaledPart(a, w, p, f);
    ScaledPart(b, w, q, g);
    Bound(a, f, ONE, ONE);
    Bound(b, g, ONE, ONE);
    assert w * n == w * (a * a) + w * (b * b) by { Sum3(w, a * a, b * b, 0); }
  }

  lemma ScaledPart(a: int, w: int, p: int, f: int)
    requires ONE * p == a * w - f
    ensures ONE * (a * p) == w * (a * a) - a * f
  {
    assert a * (ONE * p) == a * (a * w) - a * f;
    Factor(w, a, a);
    assert a * (a * w) == w * (a * a);
  }

  /** Two rounded directions multiplied: `along` is what the first gives by Along. */
  lemma Across(a: int, b: int, u: int, w: int, p: int, q: int, p': int, q': int, n: int, along: int)
    requires Abs(a) <= ONE && Abs(b) <= ONE && Abs(u) <= ONE && Abs(p) <= ONE && Abs(q) <= ONE
    requires p' == a * u / ONE && q' == b * u / ONE
    requires along == a * p + b * q && Abs(ONE * along - w * n) <= 2 * ONE2
    ensures Abs(ONE2 * (p * p' + q * q') - u * (w * n)) <= 4 * ONE * ONE2
  {
    var f := FloorParts(a * u, p');
    var g := FloorParts(b * u, q');
    ScaledCross(p, a, u, p', f);
    ScaledCross(q, b, u, q', g);
    Bound(p, f, ONE, ONE);
    Bound(q, g, ONE, ONE);
    assert u * along == u * (a * p) + u * (b * q) by { Sum3(u, a * p, b * q, 0); }
    var rest := p * f + q * g;
    assert ONE * (p * p' + q * q') == u * along - rest;
    Bound(u, ONE * along - w * n, ONE, 2 * ONE2);
    Subtract(u, along, w * n);
    hide Abs;
    Combine(p * p' + q * q', u * along, rest, u * (w * n), u * (ONE * along - w * n));
  }

  lemma ScaledCross(p: int, a: int, u: int, p': int, f: int)
    requires ONE * p' == a * u - f
    ensures ONE * (p * p') == u * (a * p) - p * f
  {
    assert p * (ONE * p') == p * (a * u) - p * f;
    Factor(u, a, p);
    Factor(p, a, u);
    assert p * (a * u) == u * (a * p);
  }

  lemma Subtract(u: int, along: int, wn: int)
    ensures u * (ONE * along - wn) == ONE * (u * along) - u * wn
  {
  }

  lemma Combine(pp: int, ualong: int, rest: int, uwn: int, slack: int)
    requires ONE * pp == ualong - rest && Abs(rest) <= 2 * ONE2
    requires slack == ONE * ualong - uwn && Abs(slack) <= 2 * ONE * ONE2
    ensures Abs(ONE2 * pp - uwn) <= 4 * ONE * ONE2
  {
  }

  /** A product of two rounded columns, for one sine and cosine pair `a`, `b` of latitude. */
  lemma RoundedProduct(a: int, b: int, u: int, w: int)
    requires TrigPair(a, b) && Abs(u) <= ONE && Abs(w) <= ONE
    ensures Abs(ONE2 * ((a * w / ONE) * (a * u / ONE) + (b * w / ONE) * (b * u / ONE) - u * w)) <= 6 * ONE * ONE2
  {
    var n := a * a + b * b;
    var p, q, p', q' := a * w / ONE, b * w / ONE, a * u / ONE, b * u / ONE;
    Along(a, b, w, p, q, n);
    FloorMagnitude(a, w, p);
    FloorMagnitude(b, w, q);
    Across(a, b, u, w, p, q, p', q', n, a * p + b * q);
    Bound(u, w, ONE, ONE);
    Bound(u * w, n - ONE2, ONE2, 2 * ONE);
    Factor(u, w, n);
    Nearly(p * p' + q * q', u * w, n, u * (w * n), (u * w) * (n - ONE2));
  }

  lemma Nearly(pp: int, uw: int, n: int, uwn: int, slack: int)
    requires uwn == uw * n && slack == uw * (n - ONE2)
    requires Abs(slack) <= ONE2 * (2 * ONE) && Abs(ONE2 * pp - uwn) <= 4 * ONE * ONE2
    ensures Abs(ONE2 * (pp - uw)) <= 6 * ONE * ONE2
  {
    assert slack == uwn - ONE2 * uw;
  }

  /** A rounded column against the third one. */
  lemma RoundedAgainstThird(a: int, b: int, w: int)
    requires Abs(a) <= ONE && Abs(b) <= ONE
    ensures Abs((a * w / ONE) * b - (b * w / ONE) * a) <= 2 * ONE
  {
    var p, q := a * w / ONE, b * w / ONE;
    var f := FloorParts(a * w, p);
    var g := FloorParts(b * w, q);
    Bound(b, f, ONE, ONE);
    Bound(a, g, ONE, ONE);
    TimesPart(p, a, w, f, b);
    TimesPart(q, b, w, g, a);
    Factor(b, a, w);
    Factor(a, b, w);
    assert b * a == a * b;
    assert ONE * (p * b - q * a) == a * g - b * f;
  }

  lemma TimesPart(p: int, a: int, w: int, f: int, b: int)
    requires ONE * p == a * w - f
    ensures ONE * (p * b) == b * (a * w) - b * f
  {
    assert b * (ONE * p) == b * (a * w) - b * f;
  }

  /** Whatever the latitude and longitude, the matrix built from their rounded sines and cosines
      is within 9 * 2^20 of an orthogonal one: the round trips above apply to it. */
  lemma MatrixIsNearlyOrthogonal(sinLat: int, cosLat: int, sinLon: int, cosLon: int)
    requires TrigPair(sinLat, cosLat) && TrigPair(sinLon, cosLon)
    ensures NearlyOrthogonal(MatrixOf(sinLat, cosLat, sinLon, cosLon), MATRIX_EPS) && 3 * MATRIX_EPS < ONE2
  {
    var a, b, u, w := -sinLat, cosLat, sinLon, cosLon;
    assert TrigPair(a, b) by { assert a * a == sinLat * sinLat; }
    RoundedProduct(a, b, w, w);
    RoundedProduct(a, b, u, u);
    RoundedProduct(a, b, u, w);
    RoundedAgainstThird(a, b, w);
    RoundedAgainstThird(a, b, u);
    EntriesNear(a * w / ONE, b * w / ONE, a * u / ONE, b * u / ONE, a, b, u, w);
    assert MatrixOf(sinLat, cosLat, sinLon, cosLon)
        == Rmat(-u, w, a * w / ONE, a * u / ONE, b, b * w / ONE, b * u / ONE, -a);
  }

  lemma EntriesNear(p: int, q: int, p': int, q': int, a: int, b: int, u: int, w: int)
    requires Near(a * a + b * b, ONE2, 2 * ONE) && Near(u * u + w * w, ONE2, 2 * ONE)
    requires Abs(ONE2 * (p * p + q * q - w * w)) <= 6 * ONE * ONE2
    requires Abs(ONE2 * (p' * p' + q' * q' - u * u)) <= 6 * ONE * ONE2
    requires Abs(ONE2 * (p * p' + q * q' - u * w)) <= 6 * ONE * ONE2
    requires Abs(p * b - q * a) <= 2 * ONE && Abs(p' * b - q' * a) <= 2 * ONE
    ensures NearlyOrthogonal(Rmat(-u, w, p, p', b, q, q', -a), MATRIX_EPS)
  {
    assert (-u) * (-u) == u * u && (-u) * w == -(u * w);
    assert (-a) * (-a) == a * a && q * (-a) == -(q * a) && q' * (-a) == -(q' * a);
  }

  /** Which way the axes point: where the equator meets the prime meridian, a quarter turn east
      of there, and at the north pole, the conversion is a plain renaming of axes. */
  lemma AxesPointEastNorthUp(v: Vect)
    ensures EnuOfEcefVect(MatrixOf(0, ONE, 0, ONE), v) == Vect(v.y, v.z, v.x)
    ensures EnuOfEcefVect(MatrixOf(0, ONE, ONE, 0), v) == Vect(-v.x, v.z, v.y)
    ensures EnuOfEcefVect(MatrixOf(ONE, 0, 0, ONE), v) == Vect(v.y, -v.x, v.z)
  {
    assert MatrixOf(0, ONE, 0, ONE) == Rmat(0, ONE, 0, 0, ONE, ONE, 0, 0);
    assert MatrixOf(0, ONE, ONE, 0) == Rmat(-ONE, 0, 0, 0, ONE, 0, ONE, 0);
    assert MatrixOf(ONE, 0, 0, ONE) == Rmat(0, ONE, -ONE, 0, 0, 0, 0, ONE);
  }

  // ---------- Which way the axes point, anywhere ----------

  predicate Around(v: Vect, target: Vect, bound: int) {
    Abs(v.x - target.x) <= bound && Abs(v.y - target.y) <= bound && Abs(v.z - target.z) <= bound
  }

  /** What a row of the matrix that belongs to `a` (-sinLat for north, cosLat for up) sees of a
      longitude's direction. */
  lemma RowAlong(a: int, u: int, w: int)
    requires Abs(a) <= ONE && TrigPair(u, w)
    ensures Abs(ONE * (w * (a * w / ONE) + u * (a * u / ONE)) - a * (w * w + u * u)) <= 2 * ONE2
  {
    assert w * a == a * w && u * a == a * u;
    Along(w, u, a, a * w / ONE, a * u / ONE, w * w + u * u);
  }

  lemma Tilted(alpha: int, a: int, rest: int, h: int, n: int)
    requires Abs(alpha) <= ONE && Abs(a) <= ONE && Near(n, ONE2, 2 * ONE)
    requires Abs(ONE * h - a * n) <= 2 * ONE2
    ensures Abs(alpha * h + rest * ONE - ONE * (alpha * a + rest)) <= 4 * ONE2
  {
    Bound(alpha, ONE * h - a * n, ONE, 2 * ONE2);
    Subtract(alpha, h, a * n);
    Factor(alpha, a, n);
    Bound(alpha, a, ONE, ONE);
    Bound(alpha * a, n - ONE2, ONE2, 2 * ONE);
    TiltedSum(alpha * h, alpha * a, n, alpha * (a * n), (alpha * a) * (n - ONE2), rest);
  }

  lemma TiltedSum(ah: int, aa: int, n: int, aan: int, slack: int, rest: int)
    requires aan == aa * n && slack == aa * (n - ONE2) && Abs(slack) <= ONE2 * (2 * ONE)
    requires Abs(ONE * ah - aan) <= ONE * (2 * ONE2)
    ensures Abs(ah + rest * ONE - ONE * (aa + rest)) <= 4 * ONE2
  {
    assert slack == aan - ONE2 * aa;
  }

  lemma RowSum(p: int, p': int, b: int, alpha: int, beta: int, u: int, w: int)
    ensures Dot(p, p', b, alpha * w, alpha * u, beta * ONE) == alpha * (w * p + u * p') + (b * beta) * ONE
  {
    Factor(p, alpha, w);
    Factor(p', alpha, u);
    Factor(alpha, w, p);
    Factor(alpha, u, p');
    Swap(p, alpha, w);
    Swap(p', alpha, u);
    Sum3(alpha, w * p, u * p', 0);
    Factor(b, beta, ONE);
  }

  lemma Swap(p: int, alpha: int, w: int)
    ensures (p * alpha) * w == (alpha * w) * p
  {
  }

  lemma DividedNear(sum: int, target: int, bound: int)
    requires Abs(sum - ONE * target) <= ONE * bound
    ensures Abs(sum / ONE - target) <= bound
  {
  }

  /** The rows for north and up, on a vector in the meridian plane. */
  lemma MeridianRow(a: int, b: int, alpha: int, beta: int, u: int, w: int, target: int, bound: int)
    requires Abs(a) <= ONE && Abs(alpha) <= ONE && TrigPair(u, w) && bound >= 0
    requires Abs(alpha * a + b * beta - target) <= ONE * bound
    ensures Abs(Dot(a * w / ONE, a * u / ONE, b, alpha * w, alpha * u, beta * ONE) / ONE - target) <= (4 + bound) * ONE
  {
    var p, p' := a * w / ONE, a * u / ONE;
    RowSum(p, p', b, alpha, beta, u, w);
    RowAlong(a, u, w);
    Tilted(alpha, a, b * beta, w * p + u * p', w * w + u * u);
    hide Dot, Abs;
    MeridianSum(Dot(p, p', b, alpha * w, alpha * u, beta * ONE), alpha * a + b * beta, target, bound);
  }

  lemma MeridianSum(sum: int, tilt: int, target: int, bound: int)
    requires Abs(sum - ONE * tilt) <= 4 * ONE2 && Abs(tilt - target) <= ONE * bound && bound >= 0
    ensures Abs(sum / ONE - target) <= (4 + bound) * ONE
  {
    DividedNear(sum, target, (4 + bound) * ONE);
  }

  /** East of the meridian plane nothing is seen of a vector in it. */
  lemma MeridianEast(u: int, w: int, alpha: int, beta: int)
    ensures Dot(-u, w, 0, alpha * w, alpha * u, beta * ONE) == 0
  {
    Factor(u, alpha, w);
    Factor(w, alpha, u);
    assert -u * (alpha * w) == -(u * (alpha * w));
    Swap(u, alpha, w);
    Swap(w, alpha, u);
    Swap2(alpha, w, u);
  }

  lemma Swap2(alpha: int, w: int, u: int)
    ensures (alpha * w) * u == (alpha * u) * w
  {
  }

  /** At every latitude and longitude the direction of the zenith goes to up, with a length of 2^40
      to within 6 parts in 2^20, and not at all to the east. */
  lemma ZenithIsUp(sinLat: int, cosLat: int, sinLon: int, cosLon: int)
    requires TrigPair(sinLat, cosLat) && TrigPair(sinLon, cosLon)
    ensures var e := EnuOfEcefVect(MatrixOf(sinLat, cosLat, sinLon, cosLon),
                                   Vect(cosLat * cosLon, cosLat * sinLon, sinLat * ONE));
      e.x == 0 && Around(e, Vect(0, 0, ONE2), 6 * ONE)
  {
    var a := -sinLat;
    assert cosLat * a + cosLat * sinLat == 0;
    assert cosLat * cosLat + sinLat * sinLat == sinLat * sinLat + cosLat * cosLat;
    hide Dot;
    MeridianEast(sinLon, cosLon, cosLat, sinLat);
    MeridianRow(a, cosLat, cosLat, sinLat, sinLon, cosLon, 0, 0);
    MeridianRow(cosLat, sinLat, cosLat, sinLat, sinLon, cosLon, ONE2, 2);
  }

  /** The direction along the meridian goes to north. */
  lemma MeridianIsNorth(sinLat: int, cosLat: int, sinLon: int, cosLon: int)
    requires TrigPair(sinLat, cosLat) && TrigPair(sinLon, cosLon)
    ensures var e := EnuOfEcefVect(MatrixOf(sinLat, cosLat, sinLon, cosLon),
                                   Vect(-sinLat * cosLon, -sinLat * sinLon, cosLat * ONE));
      e.x == 0 && Around(e, Vect(0, ONE2, 0), 6 * ONE)
  {
    var a := -sinLat;
    assert a * a + cosLat * cosLat == sinLat * sinLat + cosLat * cosLat;
    assert a * cosLat + sinLat * cosLat == 0;
    hide Dot;
    MeridianEast(sinLon, cosLon, a, cosLat);
    MeridianRow(a, cosLat, a, cosLat, sinLon, cosLon, ONE2, 2);
    MeridianRow(cosLat, sinLat, a, cosLat, sinLon, cosLon, 0, 0);
  }

  lemma CrossRow(a: int, u: int, w: int)
    requires Abs(a) <= ONE && Abs(u) <= ONE && Abs(w) <= ONE
    ensures Abs((a * u / ONE) * w - (a * w / ONE) * u) <= 2 * ONE
  {
    assert u * a == a * u && w * a == a * w;
    RoundedAgainstThird(u, w, a);
  }

  /** And the direction along the parallel goes to east. */
  lemma ParallelIsEast(sinLat: int, cosLat: int, sinLon: int, cosLon: int)
    requires TrigPair(sinLat, cosLat) && TrigPair(sinLon, cosLon)
    ensures Around(EnuOfEcefVect(MatrixOf(sinLat, cosLat, sinLon, cosLon), Vect(-sinLon * ONE, cosLon * ONE, 0)),
                   Vect(ONE2, 0, 0), 2 * ONE)
  {
    var a, b, u, w := -sinLat, cosLat, sinLon, cosLon;
    CrossRow(a, u, w);
    CrossRow(b, u, w);
    ParallelRow(a * w / ONE, a * u / ONE, cosLat, u, w);
    ParallelRow(b * w / ONE, b * u / ONE, sinLat, u, w);
    assert Dot(-u, w, 0, -u * ONE, w * ONE, 0) == ONE * (u * u + w * w);
    hide Dot;
  }

  lemma ParallelRow(p: int, p': int, b: int, u: int, w: int)
    ensures Dot(p, p', b, -u * ONE, w * ONE, 0) == ONE * (p' * w - p * u)
  {
  }

  // ---------- Points in centimetres are not positions ----------

  /** A centimetre count is its own Q8 metre count only for 0. */
  lemma CmIsPosIff(c: int)
    ensures PosOfCm(c) == c <==> c == 0
  {
  }

  /** The conversions of a point, which the state cache applies to integer LLA where it needs a
      position, give the position at the origin of the plane and nowhere else. */
  lemma PointIsPosIff(def: LtpDef, p: Vect)
    ensures EnuOfEcefPoint(def, p) == EnuOfEcefPos(def, p) <==> EnuOfEcefPoint(def, p) == Vect(0, 0, 0)
    ensures NedOfEcefPoint(def, p) == NedOfEcefPos(def, p) <==> NedOfEcefPoint(def, p) == Vect(0, 0, 0)
  {
    var e := EnuOfEcefPoint(def, p);
    hide EnuOfEcefPoint, PosOfCm;
    CmIsPosIff(e.x);
    CmIsPosIff(e.y);
    CmIsPosIff(e.z);
  }

  // ---------- The whole conversion, anywhere ----------

  /** For any such matrix, a local position within `s` centimetres of the origin, along the
      axes together, comes back within 5 centimetres and 9 more for each 2^20 of `s`. */
  lemma PosRoundTripAnywhere(def: LtpDef, p: Vect, sinLat: int, cosLat: int, sinLon: int, cosLon: int)
    requires TrigPair(sinLat, cosLat) && TrigPair(sinLon, cosLon)
    requires def.m == MatrixOf(sinLat, cosLat, sinLon, cosLon)
    ensures var s := Taxicab(Diff(p, def.ecef));
      Within(p, EcefOfEnuPos(def, EnuOfEcefPos(def, p)), 5 * ONE2 + 9 * ONE * s)
  {
    MatrixIsNearlyOrthogonal(sinLat, cosLat, sinLon, cosLon);
    PosRoundTrip(def, p, MATRIX_EPS);
  }
}
