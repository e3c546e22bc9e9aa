/** The other round trip: FLOAT_QUAT_OF_RMAT and back again on every rotation matrix. */
module RotationOfMatrix {
  import opened LinearAlgebra3
  import opened RotationFloat

  /** Three orthonormal rows with determinant one. */
  ghost predicate RotationRows(a0: real, a1: real, a2: real, b0: real, b1: real, b2: real,
                               c0: real, c1: real, c2: real) {
    && a0 * a0 + a1 * a1 + a2 * a2 == 1.0
    && b0 * b0 + b1 * b1 + b2 * b2 == 1.0
    && c0 * c0 + c1 * c1 + c2 * c2 == 1.0
    && a0 * b0 + a1 * b1 + a2 * b2 == 0.0
    && a0 * c0 + a1 * c1 + a2 * c2 == 0.0
    && b0 * c0 + b1 * c1 + b2 * c2 == 0.0
    && a0 * (b1 * c2 - b2 * c1) + a1 * (b2 * c0 - b0 * c2) + a2 * (b0 * c1 - b1 * c0) == 1.0
  }

  ghost predicate IsRotation(m: Mat) {
    RotationRows(m.m00, m.m01, m.m02, m.m10, m.m11, m.m12, m.m20, m.m21, m.m22)
  }

  // ---------- Each row is the cross product of the two others ----------

  /** One entry of adjugate(m) * m * transpose(m) == determinant(m) * transpose(m). */
  lemma Adjugate(a0: real, a1: real, a2: real, b0: real, b1: real, b2: real, c0: real, c1: real, c2: real)
    ensures (b1 * c2 - b2 * c1) * (a0 * a0 + a1 * a1 + a2 * a2)
            + (c1 * a2 - c2 * a1) * (a0 * b0 + a1 * b1 + a2 * b2)
            + (a1 * b2 - a2 * b1) * (a0 * c0 + a1 * c1 + a2 * c2)
         == a0 * (a0 * (b1 * c2 - b2 * c1) + a1 * (b2 * c0 - b0 * c2) + a2 * (b0 * c1 - b1 * c0))
  {
  }

  lemma AdjugateOf(a0: real, a1: real, a2: real, b0: real, b1: real, b2: real, c0: real, c1: real, c2: real,
                   aa: real, ab: real, ac: real, det: real)
    requires aa == a0 * a0 + a1 * a1 + a2 * a2
    requires ab == a0 * b0 + a1 * b1 + a2 * b2
    requires ac == a0 * c0 + a1 * c1 + a2 * c2
    requires det == a0 * (b1 * c2 - b2 * c1) + a1 * (b2 * c0 - b0 * c2) + a2 * (b0 * c1 - b1 * c0)
    ensures (b1 * c2 - b2 * c1) * aa + (c1 * a2 - c2 * a1) * ab + (a1 * b2 - a2 * b1) * ac == a0 * det
  {
    Adjugate(a0, a1, a2, b0, b1, b2, c0, c1, c2);
  }

  lemma FirstEntryIsCofactor(a0: real, a1: real, a2: real, b0: real, b1: real, b2: real, c0: real, c1: real, c2: real)
    requires RotationRows(a0, a1, a2, b0, b1, b2, c0, c1, c2)
    ensures a0 == b1 * c2 - b2 * c1
  {
    AdjugateOf(a0, a1, a2, b0, b1, b2, c0, c1, c2, 1.0, 0.0, 0.0, 1.0);
  }

  lemma TurnColumns(a0: real, a1: real, a2: real, b0: real, b1: real, b2: real, c0: real, c1: real, c2: real)
    requires RotationRows(a0, a1, a2, b0, b1, b2, c0, c1, c2)
    ensures RotationRows(a1, a2, a0, b1, b2, b0, c1, c2, c0)
  {
  }

  lemma FirstRowIsCross(a0: real, a1: real, a2: real, b0: real, b1: real, b2: real, c0: real, c1: real, c2: real)
    requires RotationRows(a0, a1, a2, b0, b1, b2, c0, c1, c2)
    ensures a0 == b1 * c2 - b2 * c1 && a1 == b2 * c0 - b0 * c2 && a2 == b0 * c1 - b1 * c0
  {
    hide RotationRows;
    FirstEntryIsCofactor(a0, a1, a2, b0, b1, b2, c0, c1, c2);
    TurnColumns(a0, a1, a2, b0, b1, b2, c0, c1, c2);
    FirstEntryIsCofactor(a1, a2, a0, b1, b2, b0, c1, c2, c0);
    TurnColumns(a1, a2, a0, b1, b2, b0, c1, c2, c0);
    FirstEntryIsCofactor(a2, a0, a1, b2, b0, b1, c2, c0, c1);
  }

  lemma RotateRows(a0: real, a1: real, a2: real, b0: real, b1: real, b2: real, c0: real, c1: real, c2: real)
    requires RotationRows(a0, a1, a2, b0, b1, b2, c0, c1, c2)
    ensures RotationRows(b0, b1, b2, c0, c1, c2, a0, a1, a2)
  {
    assert b0 * (c1 * a2 - c2 * a1) + b1 * (c2 * a0 - c0 * a2) + b2 * (c0 * a1 - c1 * a0)
        == a0 * (b1 * c2 - b2 * c1) + a1 * (b2 * c0 - b0 * c2) + a2 * (b0 * c1 - b1 * c0);
  }

  ghost predicate Cofactors(a0: real, a1: real, a2: real, b0: real, b1: real, b2: real, c0: real, c1: real, c2: real) {
    && a0 == b1 * c2 - b2 * c1 && a1 == b2 * c0 - b0 * c2 && a2 == b0 * c1 - b1 * c0
    && b0 == c1 * a2 - c2 * a1 && b1 == c2 * a0 - c0 * a2 && b2 == c0 * a1 - c1 * a0
    && c0 == a1 * b2 - a2 * b1 && c1 == a2 * b0 - a0 * b2 && c2 == a0 * b1 - a1 * b0
  }

  lemma RotationCofactors(a0: real, a1: real, a2: real, b0: real, b1: real, b2: real, c0: real, c1: real, c2: real)
    requires RotationRows(a0, a1, a2, b0, b1, b2, c0, c1, c2)
    ensures Cofactors(a0, a1, a2, b0, b1, b2, c0, c1, c2)
  {
    hide RotationRows;
    FirstRowIsCross(a0, a1, a2, b0, b1, b2, c0, c1, c2);
    RotateRows(a0, a1, a2, b0, b1, b2, c0, c1, c2);
    FirstRowIsCross(b0, b1, b2, c0, c1, c2, a0, a1, a2);
    RotateRows(b0, b1, b2, c0, c1, c2, a0, a1, a2);
    FirstRowIsCross(c0, c1, c2, a0, a1, a2, b0, b1, b2);
  }

  /** The columns are orthonormal too. */
  ghost predicate Columns(a0: real, a1: real, a2: real, b0: real, b1: real, b2: real, c0: real, c1: real, c2: real) {
    && a0 * a0 + b0 * b0 + c0 * c0 == 1.0
    && a1 * a1 + b1 * b1 + c1 * c1 == 1.0
    && a2 * a2 + b2 * b2 + c2 * c2 == 1.0
    && a0 * a1 + b0 * b1 + c0 * c1 == 0.0
    && a0 * a2 + b0 * b2 + c0 * c2 == 0.0
    && a1 * a2 + b1 * b2 + c1 * c2 == 0.0
  }

  lemma TimesCofactor(x: real, p: real, v: real, w: real, r: real, q: real)
    requires p == v * w - r * q
    ensures x * p == x * (v * w) - x * (r * q)
  {
  }

  lemma RotationColumns(a0: real, a1: real, a2: real, b0: real, b1: real, b2: real, c0: real, c1: real, c2: real)
    requires RotationRows(a0, a1, a2, b0, b1, b2, c0, c1, c2)
    requires Cofactors(a0, a1, a2, b0, b1, b2, c0, c1, c2)
    ensures Columns(a0, a1, a2, b0, b1, b2, c0, c1, c2)
  {
    ColumnNorms(a0, a1, a2, b0, b1, b2, c0, c1, c2);
    ColumnDots(a0, a1, a2, b0, b1, b2, c0, c1, c2);
  }

  lemma ColumnNorms(a0: real, a1: real, a2: real, b0: real, b1: real, b2: real, c0: real, c1: real, c2: real)
    requires Cofactors(a0, a1, a2, b0, b1, b2, c0, c1, c2)
    requires a0 * (b1 * c2 - b2 * c1) + a1 * (b2 * c0 - b0 * c2) + a2 * (b0 * c1 - b1 * c0) == 1.0
    ensures a0 * a0 + b0 * b0 + c0 * c0 == 1.0
    ensures a1 * a1 + b1 * b1 + c1 * c1 == 1.0
    ensures a2 * a2 + b2 * b2 + c2 * c2 == 1.0
  {
    TimesCofactor(a0, a0, b1, c2, b2, c1);
    TimesCofactor(b0, b0, c1, a2, c2, a1);
    TimesCofactor(c0, c0, a1, b2, a2, b1);
    TimesCofactor(a1, a1, b2, c0, b0, c2);
    TimesCofactor(b1, b1, c2, a0, c0, a2);
    TimesCofactor(c1, c1, a2, b0, a0, b2);
    TimesCofactor(a2, a2, b0, c1, b1, c0);
    TimesCofactor(b2, b2, c0, a1, c1, a0);
    TimesCofactor(c2, c2, a0, b1, a1, b0);
  }

  lemma ColumnDots(a0: real, a1: real, a2: real, b0: real, b1: real, b2: real, c0: real, c1: real, c2: real)
    requires Cofactors(a0, a1, a2, b0, b1, b2, c0, c1, c2)
    ensures a0 * a1 + b0 * b1 + c0 * c1 == 0.0
    ensures a0 * a2 + b0 * b2 + c0 * c2 == 0.0
    ensures a1 * a2 + b1 * b2 + c1 * c2 == 0.0
  {
    TimesCofactor(a1, a0, b1, c2, b2, c1);
    TimesCofactor(b1, b0, c1, a2, c2, a1);
    TimesCofactor(c1, c0, a1, b2, a2, b1);
    TimesCofactor(a2, a0, b1, c2, b2, c1);
    TimesCofactor(b2, b0, c1, a2, c2, a1);
    TimesCofactor(c2, c0, a1, b2, a2, b1);
    TimesCofactor(a2, a1, b2, c0, b0, c2);
    TimesCofactor(b2, b1, c2, a0, c0, a2);
    TimesCofactor(c2, c1, a2, b0, a0, b2);
  }

  // ---------- The four squared components and their six products ----------

  /** A first row p, u, v, w of a symmetric matrix of rank one gives all its other
      entries: each is the product of two of them divided by p. */
  ghost predicate RowProducts(p: real, u: real, v: real, w: real,
                              uu: real, vv: real, ww: real, uv: real, uw: real, vw: real) {
    && u * u == p * uu && v * v == p * vv && w * w == p * ww
    && u * v == p * uv && u * w == p * uw && v * w == p * vw
  }

  /** Four times the products of the components of a unit quaternion, read off its
      matrix, form such a matrix; its first row starts with 1 + trace. */
  ghost predicate TraceRow(a0: real, a1: real, a2: real, b0: real, b1: real, b2: real, c0: real, c1: real, c2: real) {
    RowProducts(1.0 + a0 + b1 + c2, b2 - c1, c0 - a2, a1 - b0,
                1.0 + a0 - b1 - c2, 1.0 - a0 + b1 - c2, 1.0 - a0 - b1 + c2, a1 + b0, c0 + a2, b2 + c1)
  }

  lemma TraceSquares(a0: real, a1: real, a2: real, b0: real, b1: real, b2: real, c0: real, c1: real, c2: real)
    requires RotationRows(a0, a1, a2, b0, b1, b2, c0, c1, c2)
    requires Cofactors(a0, a1, a2, b0, b1, b2, c0, c1, c2)
    requires Columns(a0, a1, a2, b0, b1, b2, c0, c1, c2)
    ensures (b2 - c1) * (b2 - c1) == (1.0 + a0 + b1 + c2) * (1.0 + a0 - b1 - c2)
    ensures (c0 - a2) * (c0 - a2) == (1.0 + a0 + b1 + c2) * (1.0 - a0 + b1 - c2)
    ensures (a1 - b0) * (a1 - b0) == (1.0 + a0 + b1 + c2) * (1.0 - a0 - b1 + c2)
  {
    assert (b2 - c1) * (b2 - c1) == b2 * b2 + c1 * c1 - 2.0 * (b2 * c1);
    assert (c0 - a2) * (c0 - a2) == c0 * c0 + a2 * a2 - 2.0 * (a2 * c0);
    assert (a1 - b0) * (a1 - b0) == a1 * a1 + b0 * b0 - 2.0 * (a1 * b0);
  }

  lemma TraceCrossProducts(a0: real, a1: real, a2: real, b0: real, b1: real, b2: real, c0: real, c1: real, c2: real)
    requires RotationRows(a0, a1, a2, b0, b1, b2, c0, c1, c2)
    requires Cofactors(a0, a1, a2, b0, b1, b2, c0, c1, c2)
    requires Columns(a0, a1, a2, b0, b1, b2, c0, c1, c2)
    ensures (b2 - c1) * (c0 - a2) == (1.0 + a0 + b1 + c2) * (a1 + b0)
    ensures (b2 - c1) * (a1 - b0) == (1.0 + a0 + b1 + c2) * (c0 + a2)
    ensures (c0 - a2) * (a1 - b0) == (1.0 + a0 + b1 + c2) * (b2 + c1)
  {
    assert (b2 - c1) * (c0 - a2) == b2 * c0 - b2 * a2 - c1 * c0 + c1 * a2;
    assert (b2 - c1) * (a1 - b0) == b2 * a1 - b2 * b0 - c1 * a1 + c1 * b0;
    assert (c0 - a2) * (a1 - b0) == c0 * a1 - c0 * b0 - a2 * a1 + a2 * b0;
  }

  lemma RotationTraceRow(a0: real, a1: real, a2: real, b0: real, b1: real, b2: real, c0: real, c1: real, c2: real)
    requires RotationRows(a0, a1, a2, b0, b1, b2, c0, c1, c2)
    ensures TraceRow(a0, a1, a2, b0, b1, b2, c0, c1, c2)
  {
    RotationCofactors(a0, a1, a2, b0, b1, b2, c0, c1, c2);
    hide RotationRows, Cofactors, Columns;
    RotationColumns(a0, a1, a2, b0, b1, b2, c0, c1, c2);
    TraceSquares(a0, a1, a2, b0, b1, b2, c0, c1, c2);
    TraceCrossProducts(a0, a1, a2, b0, b1, b2, c0, c1, c2);
  }

  // ---------- From the ten products to the matrix ----------

  ghost predicate TenProducts(p: real, u: real, v: real, w: real,
                              uu: real, vv: real, ww: real, uv: real, uw: real, vw: real,
                              i: real, x: real, y: real, z: real) {
    && 4.0 * (i * i) == p && 4.0 * (i * x) == u && 4.0 * (i * y) == v && 4.0 * (i * z) == w
    && 4.0 * (x * x) == uu && 4.0 * (y * y) == vv && 4.0 * (z * z) == ww
    && 4.0 * (x * y) == uv && 4.0 * (x * z) == uw && 4.0 * (y * z) == vw
  }

  /** The ten products of the components of a quaternion, as sums of entries. */
  ghost predicate AllProducts(a0: real, a1: real, a2: real, b0: real, b1: real, b2: real, c0: real, c1: real, c2: real,
                              i: real, x: real, y: real, z: real) {
    TenProducts(1.0 + a0 + b1 + c2, b2 - c1, c0 - a2, a1 - b0,
                1.0 + a0 - b1 - c2, 1.0 - a0 + b1 - c2, 1.0 - a0 - b1 + c2, a1 + b0, c0 + a2, b2 + c1,
                i, x, y, z)
  }

  /** A quaternion with these products is a unit, and the matrix is its matrix. */
  lemma ProductsDetermineMatrix(a0: real, a1: real, a2: real, b0: real, b1: real, b2: real,
                                c0: real, c1: real, c2: real,
                                i: real, x: real, y: real, z: real)
    requires AllProducts(a0, a1, a2, b0, b1, b2, c0, c1, c2, i, x, y, z)
    ensures Square4(i, x, y, z) == 1.0 && SlowMatrix(i, x, y, z) == Mat(a0, a1, a2, b0, b1, b2, c0, c1, c2)
  {
  }

  lemma PivotSquare(root: real, p: real, u: real)
    requires root > 0.0 && root * root == p
    ensures 4.0 * ((0.5 * root) * (0.5 * root)) == p
    ensures 4.0 * ((0.5 * root) * OverFour(u, root)) == u
  {
    assert OverFour(u, root) * (2.0 * root) == u;
  }

  lemma PivotProduct(root: real, p: real, u: real, v: real, uv: real)
    requires root > 0.0 && p > 0.0 && root * root == p && u * v == p * uv
    ensures 4.0 * (OverFour(u, root) * OverFour(v, root)) == uv
  {
    var b, c := OverFour(u, root), OverFour(v, root);
    assert b * (2.0 * root) == u && c * (2.0 * root) == v;
    assert (2.0 * (b * root)) * (2.0 * (c * root)) == u * v;
    assert p * (4.0 * (b * c)) == (root * root) * (4.0 * (b * c)) == (2.0 * (b * root)) * (2.0 * (c * root));
    assert p * (4.0 * (b * c) - uv) == 0.0;
  }

  /** Half a root of the pivot and the quotients of its row have the ten products. */
  lemma PivotRow(root: real, p: real, u: real, v: real, w: real,
                 uu: real, vv: real, ww: real, uv: real, uw: real, vw: real)
    requires root > 0.0 && p > 0.0 && root * root == p && RowProducts(p, u, v, w, uu, vv, ww, uv, uw, vw)
    ensures TenProducts(p, u, v, w, uu, vv, ww, uv, uw, vw,
                        0.5 * root, OverFour(u, root), OverFour(v, root), OverFour(w, root))
  {
    hide OverFour;
    PivotSquare(root, p, u);
    PivotSquare(root, p, v);
    PivotSquare(root, p, w);
    PivotProduct(root, p, u, u, uu);
    PivotProduct(root, p, v, v, vv);
    PivotProduct(root, p, w, w, ww);
    PivotProduct(root, p, u, v, uv);
    PivotProduct(root, p, u, w, uw);
    PivotProduct(root, p, v, w, vw);
  }

  /** A rotation whose trace is not minus one comes from its trace branch. */
  lemma TracePivot(a0: real, a1: real, a2: real, b0: real, b1: real, b2: real, c0: real, c1: real, c2: real, root: real)
    requires RotationRows(a0, a1, a2, b0, b1, b2, c0, c1, c2)
    requires root > 0.0 && 1.0 + a0 + b1 + c2 > 0.0 && root * root == 1.0 + a0 + b1 + c2
    ensures AllProducts(a0, a1, a2, b0, b1, b2, c0, c1, c2,
                        0.5 * root, OverFour(b2 - c1, root), OverFour(c0 - a2, root), OverFour(a1 - b0, root))
  {
    hide OverFour, RowProducts, TenProducts, RotationRows;
    RotationTraceRow(a0, a1, a2, b0, b1, b2, c0, c1, c2);
    PivotRow(root, 1.0 + a0 + b1 + c2, b2 - c1, c0 - a2, a1 - b0,
             1.0 + a0 - b1 - c2, 1.0 - a0 + b1 - c2, 1.0 - a0 - b1 + c2, a1 + b0, c0 + a2, b2 + c1);
  }

  // ---------- The other three pivots, by turning the frame half a turn ----------

  lemma OverFourNegate(t: real, root: real)
    requires root != 0.0
    ensures OverFour(-t, root) == -OverFour(t, root)
  {
  }

  lemma HalfTurnX(a0: real, a1: real, a2: real, b0: real, b1: real, b2: real, c0: real, c1: real, c2: real)
    requires RotationRows(a0, a1, a2, b0, b1, b2, c0, c1, c2)
    ensures RotationRows(a0, -a1, -a2, b0, -b1, -b2, c0, -c1, -c2)
  {
  }

  lemma TurnProductsX(a0: real, a1: real, a2: real, b0: real, b1: real, b2: real, c0: real, c1: real, c2: real,
                      i: real, x: real, y: real, z: real)
    requires AllProducts(a0, -a1, -a2, b0, -b1, -b2, c0, -c1, -c2, i, x, y, z)
    ensures AllProducts(a0, a1, a2, b0, b1, b2, c0, c1, c2, -x, i, -z, y)
  {
  }

  lemma PivotX(a0: real, a1: real, a2: real, b0: real, b1: real, b2: real, c0: real, c1: real, c2: real, root: real)
    requires RotationRows(a0, a1, a2, b0, b1, b2, c0, c1, c2)
    requires root > 0.0 && 1.0 + a0 - b1 - c2 > 0.0 && root * root == 1.0 + a0 - b1 - c2
    ensures AllProducts(a0, a1, a2, b0, b1, b2, c0, c1, c2,
                        OverFour(b2 - c1, root), 0.5 * root, OverFour(a1 + b0, root), OverFour(c0 + a2, root))
  {
    hide OverFour, AllProducts, RotationRows;
    HalfTurnX(a0, a1, a2, b0, b1, b2, c0, c1, c2);
    TracePivot(a0, -a1, -a2, b0, -b1, -b2, c0, -c1, -c2, root);
    TurnProductsX(a0, a1, a2, b0, b1, b2, c0, c1, c2,
                  0.5 * root, OverFour(-b2 - -c1, root), OverFour(c0 - -a2, root), OverFour(-a1 - b0, root));
    OverFourNegate(b2 - c1, root);
    OverFourNegate(a1 + b0, root);
  }

  lemma HalfTurnY(a0: real, a1: real, a2: real, b0: real, b1: real, b2: real, c0: real, c1: real, c2: real)
    requires RotationRows(a0, a1, a2, b0, b1, b2, c0, c1, c2)
    ensures RotationRows(-a0, a1, -a2, -b0, b1, -b2, -c0, c1, -c2)
  {
  }

  lemma TurnProductsY(a0: real, a1: real, a2: real, b0: real, b1: real, b2: real, c0: real, c1: real, c2: real,
                      i: real, x: real, y: real, z: real)
    requires AllProducts(-a0, a1, -a2, -b0, b1, -b2, -c0, c1, -c2, i, x, y, z)
    ensures AllProducts(a0, a1, a2, b0, b1, b2, c0, c1, c2, -y, z, i, -x)
  {
  }

  lemma PivotY(a0: real, a1: real, a2: real, b0: real, b1: real, b2: real, c0: real, c1: real, c2: real, root: real)
    requires RotationRows(a0, a1, a2, b0, b1, b2, c0, c1, c2)
    requires root > 0.0 && 1.0 - a0 + b1 - c2 > 0.0 && root * root == 1.0 - a0 + b1 - c2
    ensures AllProducts(a0, a1, a2, b0, b1, b2, c0, c1, c2,
                        OverFour(c0 - a2, root), OverFour(a1 + b0, root), 0.5 * root, OverFour(b2 + c1, root))
  {
    hide OverFour, AllProducts, RotationRows;
    HalfTurnY(a0, a1, a2, b0, b1, b2, c0, c1, c2);
    TracePivot(-a0, a1, -a2, -b0, b1, -b2, -c0, c1, -c2, root);
    TurnProductsY(a0, a1, a2, b0, b1, b2, c0, c1, c2,
                  0.5 * root, OverFour(-b2 - c1, root), OverFour(-c0 - -a2, root), OverFour(a1 - -b0, root));
    OverFourNegate(c0 - a2, root);
    OverFourNegate(b2 + c1, root);
  }

  lemma HalfTurnZ(a0: real, a1: real, a2: real, b0: real, b1: real, b2: real, c0: real, c1: real, c2: real)
    requires RotationRows(a0, a1, a2, b0, b1, b2, c0, c1, c2)
    ensures RotationRows(-a0, -a1, a2, -b0, -b1, b2, -c0, -c1, c2)
  {
  }

  lemma TurnProductsZ(a0: real, a1: real, a2: real, b0: real, b1: real, b2: real, c0: real, c1: real, c2: real,
                      i: real, x: real, y: real, z: real)
    requires AllProducts(-a0, -a1, a2, -b0, -b1, b2, -c0, -c1, c2, i, x, y, z)
    ensures AllProducts(a0, a1, a2, b0, b1, b2, c0, c1, c2, -z, -y, x, i)
  {
  }

  lemma PivotZ(a0: real, a1: real, a2: real, b0: real, b1: real, b2: real, c0: real, c1: real, c2: real, root: real)
    requires RotationRows(a0, a1, a2, b0, b1, b2, c0, c1, c2)
    requires root > 0.0 && 1.0 - a0 - b1 + c2 > 0.0 && root * root == 1.0 - a0 - b1 + c2
    ensures AllProducts(a0, a1, a2, b0, b1, b2, c0, c1, c2,
                        OverFour(a1 - b0, root), OverFour(c0 + a2, root), OverFour(b2 + c1, root), 0.5 * root)
  {
    hide OverFour, AllProducts, RotationRows;
    HalfTurnZ(a0, a1, a2, b0, b1, b2, c0, c1, c2);
    TracePivot(-a0, -a1, a2, -b0, -b1, b2, -c0, -c1, c2, root);
    TurnProductsZ(a0, a1, a2, b0, b1, b2, c0, c1, c2,
                  0.5 * root, OverFour(b2 - -c1, root), OverFour(-c0 - a2, root), OverFour(-a1 - -b0, root));
    OverFourNegate(a1 - b0, root);
    OverFourNegate(c0 + a2, root);
  }

  // ---------- The round trip ----------

  lemma PivotOfBranch(m: Mat, root: real)
    requires IsRotation(m) && IsSqrt(root, Radicand(m))
    ensures var q := QuatOfRMat(m, root);
            AllProducts(m.m00, m.m01, m.m02, m.m10, m.m11, m.m12, m.m20, m.m21, m.m22, q.qi, q.qx, q.qy, q.qz)
  {
    RadicandAtLeastOne(m);
    RootAtLeastOne(root, Radicand(m));
    hide OverFour, AllProducts, RotationRows;
    match Branch(m) {
      case LargestTrace => TracePivot(m.m00, m.m01, m.m02, m.m10, m.m11, m.m12, m.m20, m.m21, m.m22, root);
      case Largest00 => PivotX(m.m00, m.m01, m.m02, m.m10, m.m11, m.m12, m.m20, m.m21, m.m22, root);
      case Largest11 => PivotY(m.m00, m.m01, m.m02, m.m10, m.m11, m.m12, m.m20, m.m21, m.m22, root);
      case Largest22 => PivotZ(m.m00, m.m01, m.m02, m.m10, m.m11, m.m12, m.m20, m.m21, m.m22, root);
    }
  }

  /** For every rotation matrix and in every branch, the quaternion computed is a
      unit quaternion and its matrix is the matrix it was computed from. */
  lemma RMatOfQuatOfRMat(m: Mat, root: real, sqrt2: real)
    requires IsRotation(m) && IsSqrt(root, Radicand(m)) && sqrt2 * sqrt2 == 2.0
    ensures var q := QuatOfRMat(m, root); Unit(q) && RMatOfQuat(q, sqrt2) == m
  {
    hide AllProducts, QuatOfRMat, Radicand, RotationRows, SlowMatrix, FastMatrix, Square4;
    var q := QuatOfRMat(m, root);
    PivotOfBranch(m, root);
    ProductsDetermineMatrix(m.m00, m.m01, m.m02, m.m10, m.m11, m.m12, m.m20, m.m21, m.m22, q.qi, q.qx, q.qy, q.qz);
    FastMatrixIffUnit(q, sqrt2);
  }

  // ---------- Unit quaternions give rotation matrices ----------

  /** The first row is the cross product of the two others. */
  ghost predicate FirstIsCross(a0: real, a1: real, a2: real, b0: real, b1: real, b2: real,
                               c0: real, c1: real, c2: real) {
    a0 == b1 * c2 - b2 * c1 && a1 == b2 * c0 - b0 * c2 && a2 == b0 * c1 - b1 * c0
  }

  ghost predicate Orthonormal(a0: real, a1: real, a2: real, b0: real, b1: real, b2: real,
                              c0: real, c1: real, c2: real) {
    && a0 * a0 + a1 * a1 + a2 * a2 == 1.0
    && b0 * b0 + b1 * b1 + b2 * b2 == 1.0
    && c0 * c0 + c1 * c1 + c2 * c2 == 1.0
    && a0 * b0 + a1 * b1 + a2 * b2 == 0.0
    && a0 * c0 + a1 * c1 + a2 * c2 == 0.0
    && b0 * c0 + b1 * c1 + b2 * c2 == 0.0
  }

  lemma OrthonormalCross(a0: real, a1: real, a2: real, b0: real, b1: real, b2: real, c0: real, c1: real, c2: real)
    requires Orthonormal(a0, a1, a2, b0, b1, b2, c0, c1, c2) && FirstIsCross(a0, a1, a2, b0, b1, b2, c0, c1, c2)
    ensures RotationRows(a0, a1, a2, b0, b1, b2, c0, c1, c2)
  {
    assert a0 * (b1 * c2 - b2 * c1) == a0 * a0;
    assert a1 * (b2 * c0 - b0 * c2) == a1 * a1;
    assert a2 * (b0 * c1 - b1 * c0) == a2 * a2;
  }

  lemma RowsOfProduct(a0: real, a1: real, a2: real, b0: real, b1: real, b2: real, c0: real, c1: real, c2: real)
    requires var m := Mat(a0, a1, a2, b0, b1, b2, c0, c1, c2); MatMul(m, Transpose(m)) == IDENTITY
    ensures Orthonormal(a0, a1, a2, b0, b1, b2, c0, c1, c2)
  {
  }

  lemma Conjugate(u: real, v: real)
    ensures (u + v) * (u - v) == u * u - v * v
  {
  }

  // The cofactors of the first row, for a unit quaternion.

  lemma DiagonalCofactor(i: real, x: real, y: real, z: real)
    requires Square4(i, x, y, z) == 1.0
    ensures (1.0 - 2.0 * (x * x + z * z)) * (1.0 - 2.0 * (x * x + y * y))
            - (2.0 * (y * z + i * x)) * (2.0 * (y * z - i * x))
         == 1.0 - 2.0 * (y * y + z * z)
  {
    var ii, xx, yy, zz, yz, ix := i * i, x * x, y * y, z * z, y * z, i * x;
    assert yz * yz == yy * zz && ix * ix == ii * xx;
    Conjugate(yz, ix);
    assert ii == 1.0 - xx - yy - zz;
    assert ii * xx == xx - xx * xx - yy * xx - zz * xx;
  }

  lemma Balance(p: real, q: real, s: real, t: real)
    requires s + t == 1.0
    ensures 4.0 * (p * t + q * s) - (2.0 * (p - q)) * (1.0 - 2.0 * s) == 2.0 * (p + q)
    ensures 4.0 * (p * t - q * s) - (1.0 - 2.0 * s) * (2.0 * (p + q)) == 2.0 * (p - q)
  {
    assert p * t == p - p * s;
    assert (p - q) * s == p * s - q * s && (p + q) * s == p * s + q * s;
  }

  lemma OtherCofactors(i: real, x: real, y: real, z: real)
    requires Square4(i, x, y, z) == 1.0
    ensures (2.0 * (y * z + i * x)) * (2.0 * (x * z + i * y)) - (2.0 * (x * y - i * z)) * (1.0 - 2.0 * (x * x + y * y))
         == 2.0 * (x * y + i * z)
    ensures (2.0 * (x * y - i * z)) * (2.0 * (y * z - i * x)) - (1.0 - 2.0 * (x * x + z * z)) * (2.0 * (x * z + i * y))
         == 2.0 * (x * z - i * y)
  {
    assert (y * z + i * x) * (x * z + i * y) == (x * y) * (z * z + i * i) + (i * z) * (x * x + y * y);
    Balance(x * y, i * z, x * x + y * y, z * z + i * i);
    assert (x * y - i * z) * (y * z - i * x) == (x * z) * (y * y + i * i) - (i * y) * (x * x + z * z);
    Balance(x * z, i * y, x * x + z * z, y * y + i * i);
  }

  lemma EntriesCross(i: real, x: real, y: real, z: real)
    requires Square4(i, x, y, z) == 1.0
    ensures FirstIsCross(1.0 - 2.0 * (y * y + z * z), 2.0 * (x * y + i * z), 2.0 * (x * z - i * y),
                         2.0 * (x * y - i * z), 1.0 - 2.0 * (x * x + z * z), 2.0 * (y * z + i * x),
                         2.0 * (x * z + i * y), 2.0 * (y * z - i * x), 1.0 - 2.0 * (x * x + y * y))
  {
    DiagonalCofactor(i, x, y, z);
    OtherCofactors(i, x, y, z);
    hide Square4;
  }

  lemma UnitFirstIsCross(i: real, x: real, y: real, z: real)
    requires Square4(i, x, y, z) == 1.0
    ensures var m := SlowMatrix(i, x, y, z);
      FirstIsCross(m.m00, m.m01, m.m02, m.m10, m.m11, m.m12, m.m20, m.m21, m.m22)
  {
    hide FirstIsCross, Square4;
    EntriesCross(i, x, y, z);
  }

  /** The matrix of a unit quaternion is a rotation: orthonormal rows, determinant one. */
  lemma MatrixOfUnitIsRotation(q: Quat, sqrt2: real)
    requires Unit(q) && sqrt2 * sqrt2 == 2.0
    ensures IsRotation(RMatOfQuat(q, sqrt2))
  {
    hide FastMatrix, SlowMatrix, Square4, RotationRows, Orthonormal, FirstIsCross, MatMul;
    FastMatrixIffUnit(q, sqrt2);
    MatrixOrthogonal(q, sqrt2);
    var m := RMatOfQuat(q, sqrt2);
    UnitFirstIsCross(q.qi, q.qx, q.qy, q.qz);
    RowsOfProduct(m.m00, m.m01, m.m02, m.m10, m.m11, m.m12, m.m20, m.m21, m.m22);
    OrthonormalCross(m.m00, m.m01, m.m02, m.m10, m.m11, m.m12, m.m20, m.m21, m.m22);
  }
}
