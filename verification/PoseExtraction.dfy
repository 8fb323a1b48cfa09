/** Reading position and quaternion off a homogeneous matrix, with four numerically safe branches
    (dexfull/control/session.py, `_matrix_to_xyz_wxyz`). */
module PoseExtraction {
  import opened Arithmetic
  import opened LinearAlgebra
  import opened Wrappers

  datatype ExtractionError = DivisionByZero | InvalidNorm

  /** The seven numbers [x, y, z, qw, qx, qy, qz], or the exception that is raised. */
  datatype Extracted = XyzWxyz(pos: Vec3, quat: Quat) | Failed(error: ExtractionError)

  function Max0(x: real): real { if x > 0.0 then x else 0.0 }

  /** The quaternion before the final normalisation; `None` stands for a division by zero. */
  function BranchQuat(sqrt: real -> real, m: Mat3): Option<Quat> {
    var trace := m.m00 + m.m11 + m.m22;
    if trace > 0.0 then
      var s := sqrt(trace + 1.0) * 2.0;
      if s == 0.0 then None
      else Some(Quat(0.25 * s, (m.m21 - m.m12) / s, (m.m02 - m.m20) / s, (m.m10 - m.m01) / s))
    else if m.m00 > m.m11 && m.m00 > m.m22 then
      var s := sqrt(Max0(1.0 + m.m00 - m.m11 - m.m22)) * 2.0;
      if s == 0.0 then None
      else Some(Quat((m.m21 - m.m12) / s, 0.25 * s, (m.m01 + m.m10) / s, (m.m02 + m.m20) / s))
    else if m.m11 > m.m22 then
      var s := sqrt(Max0(1.0 + m.m11 - m.m00 - m.m22)) * 2.0;
      if s == 0.0 then None
      else Some(Quat((m.m02 - m.m20) / s, (m.m01 + m.m10) / s, 0.25 * s, (m.m12 + m.m21) / s))
    else
      var s := sqrt(Max0(1.0 + m.m22 - m.m00 - m.m11)) * 2.0;
      if s == 0.0 then None
      else Some(Quat((m.m10 - m.m01) / s, (m.m02 + m.m20) / s, (m.m12 + m.m21) / s, 0.25 * s))
  }

  function MatrixToXyzWxyz(sqrt: real -> real, m: Pose): Extracted {
    match BranchQuat(sqrt, m.rot)
    case None => Failed(DivisionByZero)
    case Some(q) =>
      var norm := sqrt(q.NormSq());
      if norm <= 0.0 then Failed(InvalidNorm)
      else XyzWxyz(m.pos, Quat(q.w / norm, q.x / norm, q.y / norm, q.z / norm))
  }

  // ------------------------------------------------------------------------------------------
  // A rotation matrix determines the pairwise products of the components of its quaternion.

  predicate Ratio(e: real, f: real, k: real, g: real) { e * f == k * g }

  /** Around the first axis, from one cofactor and the lengths of two rows and a column. */
  lemma AxisSquares(a: real, b: real, c: real, e: real, f: real, g: real, h: real)
    requires Dot3(e, b, f, e, b, f) == 1.0 && Dot3(h, g, c, h, g, c) == 1.0 && Dot3(a, e, h, a, e, h) == 1.0
    requires Minor(b, g, f, c) == a
    ensures SquareRelations(a, b, c, f, g)
  {
  }

  predicate SquareRelations(a: real, b: real, c: real, f: real, g: real) {
    && Ratio(g - f, g - f, 1.0 + a + b + c, 1.0 + a - b - c)
    && Ratio(f + g, f + g, 1.0 + b - a - c, 1.0 + c - a - b)
  }

  /** For the entries `d`, `e` facing each other across the diagonal, from two cofactors and two
      orthogonality relations. */
  lemma AxisProducts(a: real, b: real, c: real, d: real, e: real, f: real, g: real, h: real, k: real)
    requires Minor(g, d, c, k) == e && Minor(f, c, e, h) == d
    requires Dot3(a, e, h, d, b, g) == 0.0 && Dot3(a, d, k, e, b, f) == 0.0
    ensures ProductRelations(a, b, c, d, e, f, g, h, k)
  {
    AxisProductsExpanded(a, b, c, d, e, f, g, h, k);
  }

  predicate ProductRelations(a: real, b: real, c: real, d: real, e: real, f: real, g: real, h: real, k: real) {
    && Ratio(g - f, k - h, 1.0 + a + b + c, d + e)
    && Ratio(k + h, f + g, 1.0 + c - a - b, d + e)
    && Ratio(g - f, k + h, 1.0 + a - b - c, e - d)
    && Ratio(k - h, f + g, 1.0 + b - a - c, e - d)
  }

  lemma AxisProductsExpanded(a: real, b: real, c: real, d: real, e: real, f: real, g: real, h: real, k: real)
    requires g * k == e + d * c && f * h == d + c * e
    requires h * g == -(a * d + e * b) && k * f == -(a * e + d * b)
    ensures ProductRelations(a, b, c, d, e, f, g, h, k)
  {
  }

  /** The relations between the entries of a rotation around its first axis. */
  predicate AxisRelations(m: Mat3) {
    && SquareRelations(m.m00, m.m11, m.m22, m.m12, m.m21)
    && ProductRelations(m.m00, m.m11, m.m22, m.m01, m.m10, m.m12, m.m21, m.m20, m.m02)
  }

  lemma RotationAxis(m: Mat3)
    requires m.IsRotation()
    ensures AxisRelations(m)
  {
    hide Dot3, Minor, SquareRelations, ProductRelations;
    RotationFrame(m);
    RotationRows(m);
    AxisSquares(m.m00, m.m11, m.m22, m.m10, m.m12, m.m21, m.m20);
    AxisProducts(m.m00, m.m11, m.m22, m.m01, m.m10, m.m12, m.m21, m.m20, m.m02);
  }

  /** Renaming the axes cyclically. */
  function Cycle(m: Mat3): Mat3 {
    Mat3(m.m11, m.m12, m.m10, m.m21, m.m22, m.m20, m.m01, m.m02, m.m00)
  }

  lemma Dot3Cycle(a: real, b: real, c: real, d: real, e: real, f: real)
    ensures Dot3(b, c, a, e, f, d) == Dot3(a, b, c, d, e, f)
  {
  }

  lemma CycleIsRotation(m: Mat3)
    requires m.IsRotation()
    ensures Cycle(m).IsRotation()
  {
    hide Dot3, Minor;
    RotationFrame(m);
    Dot3Cycle(m.m01, m.m11, m.m21, m.m01, m.m11, m.m21);
    Dot3Cycle(m.m02, m.m12, m.m22, m.m02, m.m12, m.m22);
    Dot3Cycle(m.m01, m.m11, m.m21, m.m02, m.m12, m.m22);
  }

  /** The rows of the symmetric table with these entries are proportional. */
  predicate Proportional(ww: real, xx: real, yy: real, zz: real,
                         wx: real, wy: real, wz: real, xy: real, xz: real, yz: real)
  {
    && Ratio(wx, wx, ww, xx) && Ratio(wy, wy, ww, yy) && Ratio(wz, wz, ww, zz)
    && Ratio(wx, wy, ww, xy) && Ratio(wx, wz, ww, xz) && Ratio(wy, wz, ww, yz)
    && Ratio(wx, wx, xx, ww) && Ratio(xy, xy, xx, yy) && Ratio(xz, xz, xx, zz)
    && Ratio(wx, xy, xx, wy) && Ratio(wx, xz, xx, wz) && Ratio(xy, xz, xx, yz)
    && Ratio(wy, wy, yy, ww) && Ratio(xy, xy, yy, xx) && Ratio(yz, yz, yy, zz)
    && Ratio(wy, xy, yy, wx) && Ratio(wy, yz, yy, wz) && Ratio(xy, yz, yy, xz)
    && Ratio(wz, wz, zz, ww) && Ratio(xz, xz, zz, xx) && Ratio(yz, yz, zz, yy)
    && Ratio(wz, xz, zz, wx) && Ratio(wz, yz, zz, wy) && Ratio(xz, yz, zz, xy)
  }

  lemma RatioFlip(e: real, f: real, k: real, g: real)
    ensures Ratio(e, f, k, g) == Ratio(f, e, k, g) == Ratio(e, f, g, k)
  {
  }

  /** For a rotation, four times the products of the quaternion components can be read off the
      entries: ten linear forms with proportional rows. */
  lemma RotationTable(m: Mat3)
    requires m.IsRotation()
    ensures Proportional(1.0 + m.m00 + m.m11 + m.m22, 1.0 + m.m00 - m.m11 - m.m22,
                         1.0 + m.m11 - m.m00 - m.m22, 1.0 + m.m22 - m.m00 - m.m11,
                         m.m21 - m.m12, m.m02 - m.m20, m.m10 - m.m01, m.m01 + m.m10, m.m02 + m.m20, m.m12 + m.m21)
  {
    hide Mat3.IsRotation, Ratio;
    CycleIsRotation(m);
    CycleIsRotation(Cycle(m));
    RotationAxis(m);
    RotationAxis(Cycle(m));
    RotationAxis(Cycle(Cycle(m)));
    forall e, f, k, g ensures Ratio(e, f, k, g) == Ratio(f, e, k, g) == Ratio(e, f, g, k) {
      RatioFlip(e, f, k, g);
    }
  }

  // ------------------------------------------------------------------------------------------
  // One branch: from the square of one component and its products with the others.

  /** With pivot square `k` (times four) and products `e1`, `e2`, `e3`, the branch computes a
      quadruple with exactly these products, and the others follow from proportionality. */
  lemma PivotProducts(k: real, r: real, e1: real, e2: real, e3: real,
                      k11: real, k22: real, k33: real, k12: real, k13: real, k23: real)
    requires k > 0.0 && r >= 0.0 && r * r == k
    requires Ratio(e1, e1, k, k11) && Ratio(e2, e2, k, k22) && Ratio(e3, e3, k, k33)
    requires Ratio(e1, e2, k, k12) && Ratio(e1, e3, k, k13) && Ratio(e2, e3, k, k23)
    ensures r * 2.0 != 0.0
    ensures var s := r * 2.0; var p, a, b, c := 0.25 * s, e1 / s, e2 / s, e3 / s;
         && 4.0 * Prod(p, p) == k && 4.0 * Prod(p, a) == e1 && 4.0 * Prod(p, b) == e2 && 4.0 * Prod(p, c) == e3
         && 4.0 * Prod(a, a) == k11 && 4.0 * Prod(b, b) == k22 && 4.0 * Prod(c, c) == k33
         && 4.0 * Prod(a, b) == k12 && 4.0 * Prod(a, c) == k13 && 4.0 * Prod(b, c) == k23
  {
    assert r > 0.0;
    hide Prod, Ratio;
    Quotients(k, r, e1, e1, k11);
    Quotients(k, r, e2, e2, k22);
    Quotients(k, r, e3, e3, k33);
    Quotients(k, r, e1, e2, k12);
    Quotients(k, r, e1, e3, k13);
    Quotients(k, r, e2, e3, k23);
  }

  lemma Quotients(k: real, r: real, e: real, f: real, kef: real)
    requires k > 0.0 && r > 0.0 && r * r == k
    requires Ratio(e, f, k, kef)
    ensures r * 2.0 != 0.0
    ensures var s := r * 2.0;
         && 4.0 * Prod(e / s, f / s) == kef && 4.0 * Prod(0.25 * s, e / s) == e && 4.0 * Prod(0.25 * s, 0.25 * s) == k
  {
    var s := r * 2.0;
    var a, b := e / s, f / s;
    assert a * s == e && b * s == f;
    assert s * s == 4.0 * k;
    assert (a * s) * (b * s) == (a * b) * (s * s);
    assert k * (4.0 * (a * b)) == k * kef;
  }

  // ------------------------------------------------------------------------------------------
  // The four branches together.

  /** Ten products determine matrix and norm. */
  lemma FromProducts(w: real, x: real, y: real, z: real, m: Mat3)
    requires 4.0 * Prod(w, w) == 1.0 + m.m00 + m.m11 + m.m22 && 4.0 * Prod(x, x) == 1.0 + m.m00 - m.m11 - m.m22
    requires 4.0 * Prod(y, y) == 1.0 + m.m11 - m.m00 - m.m22 && 4.0 * Prod(z, z) == 1.0 + m.m22 - m.m00 - m.m11
    requires 4.0 * Prod(w, x) == m.m21 - m.m12 && 4.0 * Prod(w, y) == m.m02 - m.m20 && 4.0 * Prod(w, z) == m.m10 - m.m01
    requires 4.0 * Prod(x, y) == m.m01 + m.m10 && 4.0 * Prod(x, z) == m.m02 + m.m20 && 4.0 * Prod(y, z) == m.m12 + m.m21
    ensures Quat(w, x, y, z).IsUnit() && Quat(w, x, y, z).ToMatrix() == m
  {
    hide Prod, Norm4, Diag, TwiceSum, TwiceDiff;
    QuatEntries(w, x, y, z);
  }

  lemma ProdSymmetric(a: real, b: real)
    ensures Prod(a, b) == Prod(b, a)
  {
  }

  /** The branch taken computes a unit quaternion of the rotation. */
  ghost predicate BranchOk(sqrt: real -> real, m: Mat3) {
    var b := BranchQuat(sqrt, m);
    b.Some? && b.value.IsUnit() && b.value.ToMatrix() == m
  }

  lemma TraceBranch(sqrt: real -> real, m: Mat3)
    requires IsSqrt(sqrt) && m.IsRotation()
    requires m.m00 + m.m11 + m.m22 > 0.0
    ensures BranchOk(sqrt, m)
  {
    RotationTable(m);
    hide Mat3.IsRotation, Quat.IsUnit, Quat.ToMatrix, Prod, Ratio;
    var ww, xx := 1.0 + m.m00 + m.m11 + m.m22, 1.0 + m.m00 - m.m11 - m.m22;
    var yy, zz := 1.0 + m.m11 - m.m00 - m.m22, 1.0 + m.m22 - m.m00 - m.m11;
    var wx, wy, wz := m.m21 - m.m12, m.m02 - m.m20, m.m10 - m.m01;
    var xy, xz, yz := m.m01 + m.m10, m.m02 + m.m20, m.m12 + m.m21;
    var s := sqrt(ww) * 2.0;
    PivotProducts(ww, sqrt(ww), wx, wy, wz, xx, yy, zz, xy, xz, yz);
    FromProducts(0.25 * s, wx / s, wy / s, wz / s, m);
  }

  lemma XBranch(sqrt: real -> real, m: Mat3)
    requires IsSqrt(sqrt) && m.IsRotation()
    requires m.m00 + m.m11 + m.m22 <= 0.0 && m.m00 > m.m11 && m.m00 > m.m22
    ensures BranchOk(sqrt, m)
  {
    RotationTable(m);
    hide Mat3.IsRotation, Quat.IsUnit, Quat.ToMatrix, Prod, Ratio;
    var ww, xx := 1.0 + m.m00 + m.m11 + m.m22, 1.0 + m.m00 - m.m11 - m.m22;
    var yy, zz := 1.0 + m.m11 - m.m00 - m.m22, 1.0 + m.m22 - m.m00 - m.m11;
    var wx, wy, wz := m.m21 - m.m12, m.m02 - m.m20, m.m10 - m.m01;
    var xy, xz, yz := m.m01 + m.m10, m.m02 + m.m20, m.m12 + m.m21;
    var s := sqrt(xx) * 2.0;
    PivotProducts(xx, sqrt(xx), wx, xy, xz, ww, yy, zz, wy, wz, yz);
    ProdSymmetric(wx / s, 0.25 * s);
    FromProducts(wx / s, 0.25 * s, xy / s, xz / s, m);
  }

  lemma YBranch(sqrt: real -> real, m: Mat3)
    requires IsSqrt(sqrt) && m.IsRotation()
    requires m.m00 + m.m11 + m.m22 <= 0.0 && !(m.m00 > m.m11 && m.m00 > m.m22) && m.m11 > m.m22
    ensures BranchOk(sqrt, m)
  {
    RotationTable(m);
    hide Mat3.IsRotation, Quat.IsUnit, Quat.ToMatrix, Prod, Ratio;
    var ww, xx := 1.0 + m.m00 + m.m11 + m.m22, 1.0 + m.m00 - m.m11 - m.m22;
    var yy, zz := 1.0 + m.m11 - m.m00 - m.m22, 1.0 + m.m22 - m.m00 - m.m11;
    var wx, wy, wz := m.m21 - m.m12, m.m02 - m.m20, m.m10 - m.m01;
    var xy, xz, yz := m.m01 + m.m10, m.m02 + m.m20, m.m12 + m.m21;
    var s := sqrt(yy) * 2.0;
    PivotProducts(yy, sqrt(yy), wy, xy, yz, ww, xx, zz, wx, wz, xz);
    ProdSymmetric(wy / s, 0.25 * s);
    ProdSymmetric(xy / s, 0.25 * s);
    FromProducts(wy / s, xy / s, 0.25 * s, yz / s, m);
  }

  lemma ZBranch(sqrt: real -> real, m: Mat3)
    requires IsSqrt(sqrt) && m.IsRotation()
    requires m.m00 + m.m11 + m.m22 <= 0.0 && !(m.m00 > m.m11 && m.m00 > m.m22) && m.m11 <= m.m22
    ensures BranchOk(sqrt, m)
  {
    RotationTable(m);
    hide Mat3.IsRotation, Quat.IsUnit, Quat.ToMatrix, Prod, Ratio;
    var ww, xx := 1.0 + m.m00 + m.m11 + m.m22, 1.0 + m.m00 - m.m11 - m.m22;
    var yy, zz := 1.0 + m.m11 - m.m00 - m.m22, 1.0 + m.m22 - m.m00 - m.m11;
    var wx, wy, wz := m.m21 - m.m12, m.m02 - m.m20, m.m10 - m.m01;
    var xy, xz, yz := m.m01 + m.m10, m.m02 + m.m20, m.m12 + m.m21;
    var s := sqrt(zz) * 2.0;
    PivotProducts(zz, sqrt(zz), wz, xz, yz, ww, xx, yy, wx, wy, xy);
    ProdSymmetric(wz / s, 0.25 * s);
    ProdSymmetric(xz / s, 0.25 * s);
    ProdSymmetric(yz / s, 0.25 * s);
    FromProducts(wz / s, xz / s, yz / s, 0.25 * s, m);
  }

  lemma BranchCorrect(sqrt: real -> real, m: Mat3)
    requires IsSqrt(sqrt) && m.IsRotation()
    ensures BranchOk(sqrt, m)
  {
    hide BranchOk, Mat3.IsRotation;
    if m.m00 + m.m11 + m.m22 > 0.0 {
      TraceBranch(sqrt, m);
    } else if m.m00 > m.m11 && m.m00 > m.m22 {
      XBranch(sqrt, m);
    } else if m.m11 > m.m22 {
      YBranch(sqrt, m);
    } else {
      ZBranch(sqrt, m);
    }
  }

  // ------------------------------------------------------------------------------------------
  // The result after normalisation.

  /** No input divides by zero: the pivot of the branch taken is positive, for every matrix. */
  lemma BranchTotal(sqrt: real -> real, m: Mat3)
    requires IsSqrt(sqrt)
    ensures var b := BranchQuat(sqrt, m); b.Some? && b.value.NormSq() > 0.0
  {
    var p := if m.m00 + m.m11 + m.m22 > 0.0 then m.m00 + m.m11 + m.m22 + 1.0
             else if m.m00 > m.m11 && m.m00 > m.m22 then 1.0 + m.m00 - m.m11 - m.m22
             else if m.m11 > m.m22 then 1.0 + m.m11 - m.m00 - m.m22
             else 1.0 + m.m22 - m.m00 - m.m11;
    assert p >= 1.0;
    assert sqrt(p) > 0.0;
    var b := BranchQuat(sqrt, m);
    assert b.Some?;
    PositivePivot(b.value.w, b.value.x, b.value.y, b.value.z);
  }

  lemma PositivePivot(w: real, x: real, y: real, z: real)
    requires w > 0.0 || x > 0.0 || y > 0.0 || z > 0.0
    ensures Norm4(w, x, y, z) > 0.0
  {
    hide Norm4, Prod;
    QuatEntries(w, x, y, z);
    SquareNonNegative(w); SquareNonNegative(x); SquareNonNegative(y); SquareNonNegative(z);
    if w > 0.0 {
      ProdPositive(w, w);
    } else if x > 0.0 {
      ProdPositive(x, x);
    } else if y > 0.0 {
      ProdPositive(y, y);
    } else {
      ProdPositive(z, z);
    }
  }

  /** On every matrix, rotation or not, extraction succeeds with a unit quaternion. */
  lemma ExtractionTotal(sqrt: real -> real, m: Pose)
    requires IsSqrt(sqrt)
    ensures var r := MatrixToXyzWxyz(sqrt, m); r.XyzWxyz? && r.pos == m.pos && r.quat.IsUnit()
  {
    BranchTotal(sqrt, m.rot);
    var q := BranchQuat(sqrt, m.rot).value;
    var n := sqrt(q.NormSq());
    assert n > 0.0 && n * n == q.NormSq();
    hide Norm4;
    Normalised(q.w, q.x, q.y, q.z, n);
  }

  /** The quaternion extracted stands for the given matrix exactly when that matrix is a rotation. */
  lemma ExtractionCorrect(sqrt: real -> real, m: Pose)
    requires IsSqrt(sqrt)
    ensures var r := MatrixToXyzWxyz(sqrt, m);
         && r.XyzWxyz? && r.pos == m.pos && r.quat.IsUnit()
         && (r.quat.ToMatrix() == m.rot <==> m.rot.IsRotation())
  {
    ExtractionTotal(sqrt, m);
    hide Mat3.IsRotation, Quat.ToMatrix, Quat.NormSq, MatrixToXyzWxyz;
    QuatMatrixIsRotation(MatrixToXyzWxyz(sqrt, m).quat);
    if m.rot.IsRotation() {
      RotationExtracted(sqrt, m);
    }
  }

  lemma RotationExtracted(sqrt: real -> real, m: Pose)
    requires IsSqrt(sqrt) && m.rot.IsRotation()
    ensures var r := MatrixToXyzWxyz(sqrt, m); r.XyzWxyz? && r.quat.ToMatrix() == m.rot
  {
    BranchCorrect(sqrt, m.rot);
    SqrtOne(sqrt);
    hide Mat3.IsRotation, Quat.ToMatrix, BranchQuat, IsSqrt;
  }

  /** Converting a unit quaternion to a matrix and back gives it back up to sign. */
  lemma ExtractionRoundTrip(sqrt: real -> real, q: Quat, p: Vec3)
    requires IsSqrt(sqrt) && q.IsUnit()
    ensures MatrixToXyzWxyz(sqrt, Pose(q.ToMatrix(), p)) in {XyzWxyz(p, q), XyzWxyz(p, q.Neg())}
  {
    hide Mat3.IsRotation, Quat.ToMatrix, Quat.NormSq, BranchQuat, MatrixToXyzWxyz;
    QuatMatrixIsRotation(q);
    ExtractionCorrect(sqrt, Pose(q.ToMatrix(), p));
    QuatUniqueUpToSign(MatrixToXyzWxyz(sqrt, Pose(q.ToMatrix(), p)).quat, q);
  }
}
