/** Fixed-point quaternions of sw/airborne/math/pprz_algebra_int.h, over the
    integers: composition with its shifts, and integration with carried remainder. */
module RotationInt {
  datatype IntQuat = IntQuat(qi: int, qx: int, qy: int, qz: int)

  const ONE := 0x8000 // 1.0 with INT32_QUAT_FRAC
  const RATE_ONE := 0x1000 // 1.0 with INT32_RATE_FRAC

  function Norm2(q: IntQuat): int {
    q.qi * q.qi + q.qx * q.qx + q.qy * q.qy + q.qz * q.qz
  }

  // ---------- INT32_QUAT_COMP and INT32_QUAT_COMP_INV ----------

  function CompI(i1: int, x1: int, y1: int, z1: int, i2: int, x2: int, y2: int, z2: int): int {
    i1 * i2 - x1 * x2 - y1 * y2 - z1 * z2
  }

  function CompX(i1: int, x1: int, y1: int, z1: int, i2: int, x2: int, y2: int, z2: int): int {
    i1 * x2 + x1 * i2 + y1 * z2 - z1 * y2
  }

  function CompY(i1: int, x1: int, y1: int, z1: int, i2: int, x2: int, y2: int, z2: int): int {
    i1 * y2 - x1 * z2 + y1 * i2 + z1 * x2
  }

  function CompZ(i1: int, x1: int, y1: int, z1: int, i2: int, x2: int, y2: int, z2: int): int {
    i1 * z2 + x1 * y2 - y1 * x2 + z1 * i2
  }

  /** Four products with the signs of one component of the inverse composition. */
  function Dot4(i: int, x: int, y: int, z: int, a: int, b: int, c: int, d: int): int {
    i * a + x * b + y * c + z * d
  }

  /** Exact composition, before the shift. */
  function ExactComp(a: IntQuat, b: IntQuat): IntQuat {
    IntQuat(CompI(a.qi, a.qx, a.qy, a.qz, b.qi, b.qx, b.qy, b.qz),
            CompX(a.qi, a.qx, a.qy, a.qz, b.qi, b.qx, b.qy, b.qz),
            CompY(a.qi, a.qx, a.qy, a.qz, b.qi, b.qx, b.qy, b.qz),
            CompZ(a.qi, a.qx, a.qy, a.qz, b.qi, b.qx, b.qy, b.qz))
  }

  function ExactCompInv(c: IntQuat, b: IntQuat): IntQuat {
    IntQuat(Dot4(c.qi, c.qx, c.qy, c.qz, b.qi, b.qx, b.qy, b.qz),
            Dot4(c.qi, c.qx, c.qy, c.qz, -b.qx, b.qi, -b.qz, b.qy),
            Dot4(c.qi, c.qx, c.qy, c.qz, -b.qy, b.qz, b.qi, -b.qx),
            Dot4(c.qi, c.qx, c.qy, c.qz, -b.qz, -b.qy, b.qx, b.qi))
  }

  /** Arithmetic shift right by INT32_QUAT_FRAC: division rounding down. */
  function Shift(q: IntQuat): IntQuat {
    IntQuat(q.qi / ONE, q.qx / ONE, q.qy / ONE, q.qz / ONE)
  }

  function QuatComp(a2b: IntQuat, b2c: IntQuat): IntQuat {
    Shift(ExactComp(a2b, b2c))
  }

  function QuatCompInv(a2c: IntQuat, b2c: IntQuat): IntQuat {
    Shift(ExactCompInv(a2c, b2c))
  }

  // ---------- The round trip ----------

  /** Composing and composing with the inverse multiplies by the squared norm. */
  lemma ExactRoundTrip(ai: int, ax: int, ay: int, az: int, bi: int, bx: int, by1: int, bz: int)
    ensures var i, x := CompI(ai, ax, ay, az, bi, bx, by1, bz), CompX(ai, ax, ay, az, bi, bx, by1, bz);
            var y, z := CompY(ai, ax, ay, az, bi, bx, by1, bz), CompZ(ai, ax, ay, az, bi, bx, by1, bz);
            var n := bi * bi + bx * bx + by1 * by1 + bz * bz;
            && Dot4(i, x, y, z, bi, bx, by1, bz) == n * ai
            && Dot4(i, x, y, z, -bx, bi, -bz, by1) == n * ax
            && Dot4(i, x, y, z, -by1, bz, bi, -bx) == n * ay
            && Dot4(i, x, y, z, -bz, -by1, bx, bi) == n * az
  {
  }

  function Abs(x: int): (r: int)
    ensures r >= 0
  {
    if x < 0 then -x else x
  }

  function SumAbs(a: int, b: int, c: int, d: int): int {
    Abs(a) + Abs(b) + Abs(c) + Abs(d)
  }

  lemma PairSquares(a: int, b: int)
    ensures (a + b) * (a + b) <= 2 * (a * a + b * b)
  {
    assert (a - b) * (a - b) >= 0;
    assert (a - b) * (a - b) + (a + b) * (a + b) == 2 * (a * a + b * b);
  }

  lemma SquaresOfSum(a: int, b: int, c: int, d: int)
    ensures (a + b + c + d) * (a + b + c + d) <= 4 * (a * a + b * b + c * c + d * d)
  {
    PairSquares(a, b);
    PairSquares(c, d);
    PairSquares(a + b, c + d);
    assert (a + b) + (c + d) == a + b + c + d;
  }

  lemma ProductMonotone(a: int, b: int, c: int, d: int)
    requires 0 <= a <= c && 0 <= b <= d
    ensures a * b <= c * d
  {
    assert a * b <= c * b <= c * d;
  }

  lemma SquareBelow(s: int, t: int)
    requires 0 <= s && 0 <= t && s * s <= t * t
    ensures s <= t
  {
    assert (t + 1) * (t + 1) == t * t + 2 * t + 1;
    if s > t {
      ProductMonotone(t + 1, t + 1, s, s);
    }
  }

  lemma AbsSquare(x: int)
    ensures Abs(x) * Abs(x) == x * x
  {
    assert (-x) * (-x) == x * x;
  }

  /** The components of a unit quaternion add up to at most two in absolute value. */
  lemma UnitSumAbs(a: int, b: int, c: int, d: int)
    requires a * a + b * b + c * c + d * d == ONE * ONE
    ensures SumAbs(a, b, c, d) <= 2 * ONE
  {
    hide Abs;
    AbsSquare(a);
    AbsSquare(b);
    AbsSquare(c);
    AbsSquare(d);
    SquaresOfSum(Abs(a), Abs(b), Abs(c), Abs(d));
    SquareBelow(SumAbs(a, b, c, d), 2 * ONE);
  }

  lemma ProductBound(d: int, b: int)
    requires 0 <= d < ONE
    ensures Abs(d * b) <= (ONE - 1) * Abs(b)
  {
    ProductMonotone(d, Abs(b), ONE - 1, Abs(b));
    AbsProduct(d, b);
  }

  lemma AbsProduct(d: int, b: int)
    requires d >= 0
    ensures Abs(d * b) == d * Abs(b)
  {
    if b >= 0 {
      assert d * b >= 0;
    } else {
      assert d * (-b) >= 0;
      assert d * (-b) == -(d * b);
    }
  }

  /** What the first shift drops changes the second sum by less than two. */
  lemma RemainderBound(i: int, x: int, y: int, z: int, a: int, b: int, c: int, d: int)
    requires 0 <= i < ONE && 0 <= x < ONE && 0 <= y < ONE && 0 <= z < ONE
    requires SumAbs(a, b, c, d) <= 2 * ONE
    ensures Abs(Dot4(i, x, y, z, a, b, c, d)) < 2 * ONE * ONE
  {
    ProductBound(i, a);
    ProductBound(x, b);
    ProductBound(y, c);
    ProductBound(z, d);
  }

  lemma DotSplit(i: int, x: int, y: int, z: int, i1: int, x1: int, y1: int, z1: int, a: int, b: int, c: int, d: int)
    ensures Dot4(ONE * i + i1, ONE * x + x1, ONE * y + y1, ONE * z + z1, a, b, c, d)
         == ONE * Dot4(i, x, y, z, a, b, c, d) + Dot4(i1, x1, y1, z1, a, b, c, d)
  {
    SplitProduct(i, i1, a);
    SplitProduct(x, x1, b);
    SplitProduct(y, y1, c);
    SplitProduct(z, z1, d);
  }

  lemma SplitProduct(q: int, r: int, a: int)
    ensures (ONE * q + r) * a == ONE * (q * a) + r * a
  {
  }

  lemma FloorNear(e: int, g: int, v: int)
    requires ONE * e + g == ONE * ONE * v && Abs(g) < 2 * ONE * ONE
    ensures v - 2 <= e / ONE <= v + 1
  {
  }

  /** One component: an exact value times one, shifted down twice, is at most two off. */
  lemma RecoverComponent(i: int, x: int, y: int, z: int, a: int, b: int, c: int, d: int, v: int)
    requires SumAbs(a, b, c, d) <= 2 * ONE
    requires Dot4(i, x, y, z, a, b, c, d) == ONE * ONE * v
    ensures v - 2 <= Dot4(i / ONE, x / ONE, y / ONE, z / ONE, a, b, c, d) / ONE <= v + 1
  {
    hide Dot4, SumAbs;
    DotSplit(i / ONE, x / ONE, y / ONE, z / ONE, i % ONE, x % ONE, y % ONE, z % ONE, a, b, c, d);
    RemainderBound(i % ONE, x % ONE, y % ONE, z % ONE, a, b, c, d);
    FloorNear(Dot4(i / ONE, x / ONE, y / ONE, z / ONE, a, b, c, d),
              Dot4(i % ONE, x % ONE, y % ONE, z % ONE, a, b, c, d), v);
  }

  predicate Within(v: int, w: int) {
    v - 2 <= w <= v + 1
  }

  /** Composing with a unit quaternion and then with its inverse gives back every
      component, at most two below or one above, both shifts included. */
  lemma CompInvUndoesComp(a: IntQuat, b: IntQuat)
    requires Norm2(b) == ONE * ONE
    ensures var r := QuatCompInv(QuatComp(a, b), b);
            Within(a.qi, r.qi) && Within(a.qx, r.qx) && Within(a.qy, r.qy) && Within(a.qz, r.qz)
  {
    hide Dot4, CompI, CompX, CompY, CompZ, Norm2;
    RoundTripComponents(a.qi, a.qx, a.qy, a.qz, b.qi, b.qx, b.qy, b.qz) by {
      NormIsSum(b);
    }
  }

  lemma NormIsSum(b: IntQuat)
    ensures Norm2(b) == b.qi * b.qi + b.qx * b.qx + b.qy * b.qy + b.qz * b.qz
  {
  }

  lemma RoundTripComponents(ai: int, ax: int, ay: int, az: int, bi: int, bx: int, by1: int, bz: int)
    requires bi * bi + bx * bx + by1 * by1 + bz * bz == ONE * ONE
    ensures var i, x := CompI(ai, ax, ay, az, bi, bx, by1, bz) / ONE, CompX(ai, ax, ay, az, bi, bx, by1, bz) / ONE;
            var y, z := CompY(ai, ax, ay, az, bi, bx, by1, bz) / ONE, CompZ(ai, ax, ay, az, bi, bx, by1, bz) / ONE;
            && Within(ai, Dot4(i, x, y, z, bi, bx, by1, bz) / ONE)
            && Within(ax, Dot4(i, x, y, z, -bx, bi, -bz, by1) / ONE)
            && Within(ay, Dot4(i, x, y, z, -by1, bz, bi, -bx) / ONE)
            && Within(az, Dot4(i, x, y, z, -bz, -by1, bx, bi) / ONE)
  {
    hide Dot4, CompI, CompX, CompY, CompZ;
    var i, x := CompI(ai, ax, ay, az, bi, bx, by1, bz), CompX(ai, ax, ay, az, bi, bx, by1, bz);
    var y, z := CompY(ai, ax, ay, az, bi, bx, by1, bz), CompZ(ai, ax, ay, az, bi, bx, by1, bz);
    ExactRoundTrip(ai, ax, ay, az, bi, bx, by1, bz);
    UnitSumAbs(bi, bx, by1, bz);
    RecoverComponent(i, x, y, z, bi, bx, by1, bz, ai);
    RecoverComponent(i, x, y, z, -bx, bi, -bz, by1, ax);
    RecoverComponent(i, x, y, z, -by1, bz, bi, -bx, ay);
    RecoverComponent(i, x, y, z, -bz, -by1, bx, bi, az);
  }

  lemma TwiceProduct(p: int, q: int)
    ensures 2 * Abs(p * q) <= p * p + q * q
  {
    assert (p - q) * (p - q) >= 0 && (p + q) * (p + q) >= 0;
    assert (p - q) * (p - q) == p * p - 2 * (p * q) + q * q && (p + q) * (p + q) == p * p + 2 * (p * q) + q * q;
  }

  /** For quaternions of norm at most one no partial sum of a component leaves the
      32-bit range, whatever the signs and the order. */
  lemma SumOfProductsFits(a: IntQuat, b: IntQuat)
    requires Norm2(a) <= ONE * ONE && Norm2(b) <= ONE * ONE
    ensures SumAbs(a.qi * b.qi, a.qx * b.qx, a.qy * b.qy, a.qz * b.qz) < 0x8000_0000
    ensures SumAbs(a.qi * b.qx, a.qx * b.qi, a.qy * b.qz, a.qz * b.qy) < 0x8000_0000
    ensures SumAbs(a.qi * b.qy, a.qx * b.qz, a.qy * b.qi, a.qz * b.qx) < 0x8000_0000
    ensures SumAbs(a.qi * b.qz, a.qx * b.qy, a.qy * b.qx, a.qz * b.qi) < 0x8000_0000
  {
    FourProducts(a.qi, a.qx, a.qy, a.qz, b.qi, b.qx, b.qy, b.qz);
    FourProducts(a.qi, a.qx, a.qy, a.qz, b.qx, b.qi, b.qz, b.qy);
    FourProducts(a.qi, a.qx, a.qy, a.qz, b.qy, b.qz, b.qi, b.qx);
    FourProducts(a.qi, a.qx, a.qy, a.qz, b.qz, b.qy, b.qx, b.qi);
  }

  lemma FourProducts(a: int, b: int, c: int, d: int, p: int, q: int, r: int, s: int)
    ensures 2 * SumAbs(a * p, b * q, c * r, d * s)
         <= (a * a + b * b + c * c + d * d) + (p * p + q * q + r * r + s * s)
  {
    TwiceProduct(a, p);
    TwiceProduct(b, q);
    TwiceProduct(c, r);
    TwiceProduct(d, s);
  }

  // ---------- INT32_QUAT_INTEGRATE_FI ----------

  datatype Rates = Rates(p: int, q: int, r: int)

  /** ldiv: quotient rounded towards zero. */
  function TruncQuot(a: int, d: int): int
    requires d > 0
  {
    if a >= 0 then a / d else -((-a) / d)
  }

  function TruncRem(a: int, d: int): int
    requires d > 0
  {
    a - TruncQuot(a, d) * d
  }

  /** `ldiv(sum, d)`: what the quotient and the remainder amount to. */
  lemma TruncDivision(sum: int, d: int)
    requires d > 0
    ensures d * TruncQuot(sum, d) + TruncRem(sum, d) == sum
    ensures Abs(TruncRem(sum, d)) < d
    ensures TruncRem(sum, d) != 0 ==> (TruncRem(sum, d) > 0 <==> sum > 0)
  {
    if sum >= 0 {
      QuotientRemainder(sum, d);
    } else {
      QuotientRemainder(-sum, d);
    }
  }

  lemma QuotientRemainder(a: nat, d: nat)
    requires d > 0
    ensures (a / d) * d + a % d == a && 0 <= a % d < d && d * (a / d) == (a / d) * d
  {
  }

  function Rate(omega: Rates): IntQuat {
    IntQuat(0, omega.p, omega.q, omega.r)
  }

  /** One component carries: no part of the increment is lost, and what is kept
      back is less than a unit and on the side of the whole. */
  predicate Carries(d: int, q: int, hr: int, increment: int, q': int, hr': int) {
    && d * q' + hr' == d * q + hr + increment
    && Abs(hr') < d
    && (hr' != 0 ==> (hr' > 0 <==> hr + increment > 0))
  }

  function Divisor(f: int): int {
    RATE_ONE * f * 2
  }

  /** The attitude quaternion and its high-resolution remainder. */
  class Integrator {
    var q: IntQuat
    var hr: IntQuat

    constructor (q0: IntQuat, hr0: IntQuat)
      ensures q == q0 && hr == hr0
    {
      q, hr := q0, hr0;
    }

    method IntegrateFi(omega: Rates, f: int)
      requires f > 0
      modifies this
      ensures (q, hr) == Next(old(q), old(hr), omega, f)
    {
      hide CompI, CompX, CompY, CompZ, TruncQuot, TruncRem;
      IncrementParts(q, omega);
      hr := IntQuat(hr.qi + (-omega.p * q.qx - omega.q * q.qy - omega.r * q.qz),
                    hr.qx + (omega.p * q.qi + omega.r * q.qy - omega.q * q.qz),
                    hr.qy + (omega.q * q.qi - omega.r * q.qx + omega.p * q.qz),
                    hr.qz + (omega.r * q.qi + omega.q * q.qx - omega.p * q.qy));
      var d := RATE_ONE * f * 2;
      q, hr := q.(qi := q.qi + TruncQuot(hr.qi, d)), hr.(qi := TruncRem(hr.qi, d));
      q, hr := q.(qx := q.qx + TruncQuot(hr.qx, d)), hr.(qx := TruncRem(hr.qx, d));
      q, hr := q.(qy := q.qy + TruncQuot(hr.qy, d)), hr.(qy := TruncRem(hr.qy, d));
      q, hr := q.(qz := q.qz + TruncQuot(hr.qz, d)), hr.(qz := TruncRem(hr.qz, d));
    }
  }

  /** What is added to the remainder is q composed with the rates, unshifted. */
  lemma IncrementParts(q: IntQuat, omega: Rates)
    ensures ExactComp(q, Rate(omega))
         == IntQuat(-omega.p * q.qx - omega.q * q.qy - omega.r * q.qz,
                    omega.p * q.qi + omega.r * q.qy - omega.q * q.qz,
                    omega.q * q.qi - omega.r * q.qx + omega.p * q.qz,
                    omega.r * q.qi + omega.q * q.qx - omega.p * q.qy)
  {
  }

  function Carry(q: int, hr: int, increment: int, d: int): (int, int)
    requires d > 0
  {
    (q + TruncQuot(hr + increment, d), TruncRem(hr + increment, d))
  }

  /** Quaternion and remainder after one integration step. */
  function Next(q: IntQuat, hr: IntQuat, omega: Rates, f: int): (IntQuat, IntQuat)
    requires f > 0
  {
    var inc, d := ExactComp(q, Rate(omega)), Divisor(f);
    var i, x := Carry(q.qi, hr.qi, inc.qi, d), Carry(q.qx, hr.qx, inc.qx, d);
    var y, z := Carry(q.qy, hr.qy, inc.qy, d), Carry(q.qz, hr.qz, inc.qz, d);
    (IntQuat(i.0, x.0, y.0, z.0), IntQuat(i.1, x.1, y.1, z.1))
  }

  lemma CarryCarries(q: int, hr: int, increment: int, d: int)
    requires d > 0
    ensures Carries(d, q, hr, increment, Carry(q, hr, increment, d).0, Carry(q, hr, increment, d).1)
  {
    TruncDivision(hr + increment, d);
    var quot := TruncQuot(hr + increment, d);
    assert d * (q + quot) == d * q + d * quot;
  }

  lemma NextCarries(q: IntQuat, hr: IntQuat, omega: Rates, f: int)
    requires f > 0
    ensures var inc, d := ExactComp(q, Rate(omega)), Divisor(f);
            var (q', hr') := Next(q, hr, omega, f);
            && Carries(d, q.qi, hr.qi, inc.qi, q'.qi, hr'.qi) && Carries(d, q.qx, hr.qx, inc.qx, q'.qx, hr'.qx)
            && Carries(d, q.qy, hr.qy, inc.qy, q'.qy, hr'.qy) && Carries(d, q.qz, hr.qz, inc.qz, q'.qz, hr'.qz)
  {
    hide Carries, Carry, ExactComp;
    var inc, d := ExactComp(q, Rate(omega)), Divisor(f);
    CarryCarries(q.qi, hr.qi, inc.qi, d);
    CarryCarries(q.qx, hr.qx, inc.qx, d);
    CarryCarries(q.qy, hr.qy, inc.qy, d);
    CarryCarries(q.qz, hr.qz, inc.qz, d);
  }

  function Add(a: IntQuat, b: IntQuat): IntQuat {
    IntQuat(a.qi + b.qi, a.qx + b.qx, a.qy + b.qy, a.qz + b.qz)
  }

  /** The exact attitude, in units of 1/d: d*q + hr. */
  function Exact(q: IntQuat, hr: IntQuat, d: int): IntQuat {
    IntQuat(d * q.qi + hr.qi, d * q.qx + hr.qx, d * q.qy + hr.qy, d * q.qz + hr.qz)
  }

  predicate Small(hr: IntQuat, d: int) {
    Abs(hr.qi) < d && Abs(hr.qx) < d && Abs(hr.qy) < d && Abs(hr.qz) < d
  }

  /** The state after a run of rates. */
  function Run(q: IntQuat, hr: IntQuat, rates: seq<Rates>, f: int): (IntQuat, IntQuat)
    requires f > 0
  {
    if rates == [] then (q, hr)
    else
      var before := Run(q, hr, rates[..|rates| - 1], f);
      Next(before.0, before.1, rates[|rates| - 1], f)
  }

  /** The sum of the exact increments along that run. */
  function TotalIncrement(q: IntQuat, hr: IntQuat, rates: seq<Rates>, f: int): IntQuat
    requires f > 0
  {
    if rates == [] then IntQuat(0, 0, 0, 0)
    else
      var before := rates[..|rates| - 1];
      Add(TotalIncrement(q, hr, before, f), ExactComp(Run(q, hr, before, f).0, Rate(rates[|rates| - 1])))
  }

  /** No run loses anything: the exact attitude is the initial one plus all exact
      increments, and after a step the remainder is less than a unit. */
  lemma {:induction false} IntegrationLosesNothing(q: IntQuat, hr: IntQuat, rates: seq<Rates>, f: int)
    requires f > 0
    ensures var (q', hr') := Run(q, hr, rates, f);
            && Exact(q', hr', Divisor(f)) == Add(Exact(q, hr, Divisor(f)), TotalIncrement(q, hr, rates, f))
            && (rates != [] ==> Small(hr', Divisor(f)))
  {
    hide Next, ExactComp, Rate;
    if rates != [] {
      var before := rates[..|rates| - 1];
      IntegrationLosesNothing(q, hr, before, f);
      NextCarries(Run(q, hr, before, f).0, Run(q, hr, before, f).1, rates[|rates| - 1], f);
    }
  }
}
