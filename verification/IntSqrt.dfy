/** The Newton integer square root INT32_SQRT of sw/airborne/math/pprz_algebra_int.h. */
module IntSqrt {
  const MAX_ITER := 40
  const INT32_LIMIT := 0x8000_0000
  const UINT32_LIMIT := 0x1_0000_0000

  /** The integer square root: the largest r with r*r <= n. */
  ghost function Floor(n: nat): (r: nat)
    ensures r * r <= n < (r + 1) * (r + 1)
  {
    if n == 0 then 0
    else
      var r := Floor(n - 1);
      if (r + 1) * (r + 1) <= n then r + 1 else r
  }

  ghost function Pow2(k: nat): (p: nat)
    ensures p >= 1
  {
    if k == 0 then 1 else 2 * Pow2(k - 1)
  }

  // ---------- One Newton step ----------

  lemma FourTimesProduct(s: nat, q: nat)
    ensures (s + q + 1) * (s + q + 1) >= 4 * (s * (q + 1))
  {
    var p := q + 1;
    assert (s + p) * (s + p) == s * s + 2 * (s * p) + p * p;
    assert (s - p) * (s - p) == s * s - 2 * (s * p) + p * p;
  }

  lemma SquareMonotone(a: nat, b: nat)
    requires a <= b
    ensures a * a <= b * b
  {
  }

  lemma ProductMonotone(a: nat, b: nat, c: nat, d: nat)
    requires a <= c && b <= d
    ensures a * b <= c * d
  {
    assert a * b <= c * b <= c * d;
  }

  function Newton(n: nat, s: nat): nat
    requires s > 0
  {
    (n / s + s) / 2
  }

  lemma Quotient(n: nat, s: nat)
    requires s > 0
    ensures (n / s) * s <= n < (n / s + 1) * s
  {
  }

  lemma FourSquares(r: nat)
    ensures (2 * r) * (2 * r) == 4 * (r * r)
  {
  }

  lemma RootBelowMean(n: nat, s: nat, r: nat, q: nat)
    requires r * r <= n < (q + 1) * s
    ensures q + s >= 2 * r
  {
    if s + q + 1 <= 2 * r {
      FourTimesProduct(s, q);
      FourSquares(r);
      SquareMonotone(s + q + 1, 2 * r);
    }
  }

  lemma RootBelowQuotientMean(n: nat, s: nat, r: nat, q: nat)
    requires s > 0 && q == n / s && r * r <= n
    ensures q + s >= 2 * r
  {
    Quotient(n, s);
    assert n < (q + 1) * s;
    RootBelowMean(n, s, r, q);
  }

  /** A Newton step never falls below the root. */
  lemma NewtonAbove(n: nat, s: nat, r: nat)
    requires s > 0 && r * r <= n
    ensures Newton(n, s) >= r
  {
    RootBelowQuotientMean(n, s, r, n / s);
  }

  /** From above the root, a step at least halves the distance to it. */
  lemma NewtonHalves(n: nat, s: nat, r: nat)
    requires s > r && r * r <= n < (r + 1) * (r + 1)
    ensures r <= Newton(n, s) < s && 2 * (Newton(n, s) - r) <= s - r
  {
    NewtonAbove(n, s, r);
    Quotient(n, s);
    if n / s >= r + 1 {
      ProductMonotone(r + 1, r + 1, n / s, s);
    }
  }

  /** From the root itself, a step stays or goes one up. */
  lemma NewtonAtRoot(n: nat, r: nat)
    requires r > 0 && r * r <= n < (r + 1) * (r + 1)
    ensures r <= Newton(n, r) <= r + 1
  {
    NewtonAbove(n, r, r);
    Quotient(n, r);
    assert (r + 3) * r == r * r + 3 * r && (r + 1) * (r + 1) == r * r + 2 * r + 1;
    if n / r >= r + 3 {
      ProductMonotone(r + 3, r, n / r, r);
    }
  }

  /** A step that goes down by one ends within one of the exact root. */
  lemma NewtonDownByOne(n: nat, t: nat)
    requires Newton(n, t + 1) == t
    ensures t * t <= n + 1 && n < (t + 1) * (t + 1)
  {
    var q := n / (t + 1);
    Quotient(n, t + 1);
    assert t - 1 <= q <= t;
    ProductMonotone(q + 1, t + 1, t + 1, t + 1);
    if t > 0 {
      ProductMonotone(t - 1, t + 1, q, t + 1);
      assert (t - 1) * (t + 1) == t * t - 1;
    }
  }

  // ---------- The loop ----------

  /** Within one of the exact root and never below it. */
  predicate NearRoot(n: int, out: int) {
    0 <= out && out * out <= n + 1 && n < (out + 1) * (out + 1)
  }

  /** `s` after `iter` steps: close enough to the root `r` for the iterations made,
      or, late, one above it. */
  ghost predicate Converging(s: nat, r: nat, iter: nat) {
    || (r <= s && (s - r) * Pow2(iter) < INT32_LIMIT && iter <= 32)
    || (s == r + 1 && iter <= 33)
  }

  lemma Pow2AtLeast(k: nat)
    requires k >= 31
    ensures Pow2(k) >= INT32_LIMIT
    decreases k
  {
    if k > 31 {
      Pow2AtLeast(k - 1);
    } else {
      Pow2Values();
    }
  }

  lemma Pow2Values()
    ensures Pow2(31) == INT32_LIMIT
  {
    assert Pow2(8) == 0x100 by {
      assert Pow2(4) == 0x10;
    }
    assert Pow2(16) == 0x1_0000 by {
      assert Pow2(12) == 0x1000;
    }
    assert Pow2(24) == 0x100_0000 by {
      assert Pow2(20) == 0x10_0000;
    }
    assert Pow2(28) == 0x1000_0000;
  }

  lemma HalfTimesPow2(e: nat, e': nat, iter: nat)
    requires 2 * e' <= e
    ensures e' * Pow2(iter + 1) <= e * Pow2(iter)
  {
    assert e' * Pow2(iter + 1) == (2 * e') * Pow2(iter);
    ProductMonotone(2 * e', Pow2(iter), e, Pow2(iter));
  }

  /** Late in the loop the distance to the root is zero. */
  lemma LateIsExact(e: nat, iter: nat)
    requires e * Pow2(iter) < INT32_LIMIT && iter >= 31
    ensures e == 0
  {
    Pow2AtLeast(iter);
    if e >= 1 {
      ProductMonotone(1, Pow2(iter), e, Pow2(iter));
    }
  }

  /** One turn of the loop: either it may stop, with a good result, or it goes on
      and is still converging. */
  lemma Turn(n: nat, s: nat, r: nat, iter: nat)
    requires 0 < r && r * r <= n < (r + 1) * (r + 1) && Converging(s, r, iter)
    ensures s > 0
    ensures var t := Newton(n, s);
            if t <= s <= t + 1 then iter + 1 <= 34 && NearRoot(n, t)
            else Converging(t, r, iter + 1) && iter + 1 < MAX_ITER
  {
    var t := Newton(n, s);
    if s > r {
      NewtonHalves(n, s, r);
      if s == t + 1 {
        NewtonDownByOne(n, t);
      }
      if (s - r) * Pow2(iter) < INT32_LIMIT {
        HalfTimesPow2(s - r, t - r, iter);
        if iter >= 31 {
          LateIsExact(s - r, iter);
        }
      }
    } else {
      NewtonAtRoot(n, r);
    }
  }

  lemma UnsignedDifference(a: int, b: int)
    requires 0 <= a < INT32_LIMIT && 0 <= b < INT32_LIMIT
    ensures (a - b) % UINT32_LIMIT <= 1 <==> b <= a <= b + 1
  {
  }

  lemma FactorAtMost(q: nat, s: nat, n: nat)
    requires s > 0 && q * s <= n
    ensures q <= n
  {
    ProductMonotone(q, 1, q, s);
  }

  /** The sum fits 32 bits, and the test on the unsigned difference is the test
      whether the step went down by at most one. */
  lemma NoOverflow(n: nat, s: nat)
    requires 0 < s < INT32_LIMIT && n < INT32_LIMIT
    ensures (n / s + s) % UINT32_LIMIT == n / s + s
    ensures Newton(n, s) < INT32_LIMIT
    ensures (s - Newton(n, s)) % UINT32_LIMIT <= 1 <==> Newton(n, s) <= s <= Newton(n, s) + 1
  {
    Quotient(n, s);
    FactorAtMost(n / s, s, n);
    UnsignedDifference(s, Newton(n, s));
  }

  lemma Start(n: nat)
    requires 0 < n < INT32_LIMIT
    ensures Floor(n) > 0 && Converging(n, Floor(n), 0)
  {
    var r := Floor(n);
    if r > n {
      ProductMonotone(r, 1, r, r);
    }
    assert Pow2(0) == 1;
  }

  /** For every non-negative 32-bit input the loop stops by itself, after at most
      34 of its 40 turns, within one of the exact root and never below it. */
  method Int32Sqrt(n: int) returns (out: int, iter: nat)
    requires 0 <= n < INT32_LIMIT
    ensures NearRoot(n, out)
    ensures iter <= 34 < MAX_ITER
  {
    hide NearRoot, Converging, Floor;
    iter := 0;
    if n == 0 {
      out := 0;
      assert NearRoot(0, 0) by {
        ZeroIsRoot();
      }
    } else {
      var s1, s2 := 0, n;
      ghost var r := Floor(n);
      Start(n);
      FloorIsRoot(n);
      var more := true;
      while more
        invariant 0 <= s2 < INT32_LIMIT
        invariant if more then Converging(s2, r, iter) && iter < MAX_ITER else iter <= 34 && NearRoot(n, s2)
        decreases more, MAX_ITER - iter
      {
        Turn(n, s2, r, iter);
        NoOverflow(n, s2);
        s1 := s2;
        s2 := n / s1;
        s2 := (s2 + s1) % UINT32_LIMIT;
        s2 := s2 / 2;
        iter := iter + 1;
        more := (s1 - s2) % UINT32_LIMIT > 1 && iter < MAX_ITER;
      }
      out := s2;
    }
  }

  lemma ZeroIsRoot()
    ensures NearRoot(0, 0)
  {
  }

  lemma FloorIsRoot(n: nat)
    ensures Floor(n) * Floor(n) <= n < (Floor(n) + 1) * (Floor(n) + 1)
  {
  }

  /** What that means: the exact root, or one more when n + 1 is the square of that. */
  lemma NearRootIsRoot(n: nat, out: nat)
    ensures NearRoot(n, out) <==> out == Floor(n) || (out == Floor(n) + 1 && n + 1 == out * out)
  {
    var r := Floor(n);
    assert (r + 1) * (r + 1) == r * r + 2 * r + 1 && (r + 2) * (r + 2) == (r + 1) * (r + 1) + 2 * r + 3;
    if out + 1 <= r {
      SquareMonotone(out + 1, r);
    }
    if out >= r + 2 {
      SquareMonotone(r + 2, out);
    }
  }
}
