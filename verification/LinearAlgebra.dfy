/** Exact real-number geometry shared by the pose modules: vectors, 3x3 matrices, quaternions and
    rigid poses.

    Floating-point numbers are modelled by `real`.  The square root of the numeric library is a
    parameter that satisfies `IsSqrt`, its mathematical specification.

    Proof style: the polynomial identities are lemmas about plain numbers; lemmas about vectors and
    matrices hide `Prod`, `Dot3`, `Minor` and only combine them. */
module LinearAlgebra {
  import opened Arithmetic

  /** What the pose code relies on about the square root. */
  ghost predicate IsSqrt(sqrt: real -> real) {
    forall x: real :: 0.0 <= x ==> 0.0 <= sqrt(x) && sqrt(x) * sqrt(x) == x
  }

  function Dot3(a: real, b: real, c: real, d: real, e: real, f: real): real { a * d + b * e + c * f }

  function Minor(a: real, b: real, c: real, d: real): real { a * d - b * c }

  datatype Vec3 = Vec3(x: real, y: real, z: real) {
    function Plus(v: Vec3): Vec3 { Vec3(x + v.x, y + v.y, z + v.z) }
    function Minus(v: Vec3): Vec3 { Vec3(x - v.x, y - v.y, z - v.z) }
    function Dot(v: Vec3): real { Dot3(x, y, z, v.x, v.y, v.z) }
    function Cross(v: Vec3): Vec3 { Vec3(Minor(y, z, v.y, v.z), Minor(z, x, v.z, v.x), Minor(x, y, v.x, v.y)) }
  }

  /** A 3x3 matrix; `m10` is row 1, column 0. */
  datatype Mat3 = Mat3(m00: real, m01: real, m02: real,
                       m10: real, m11: real, m12: real,
                       m20: real, m21: real, m22: real) {
    function Col0(): Vec3 { Vec3(m00, m10, m20) }
    function Col1(): Vec3 { Vec3(m01, m11, m21) }
    function Col2(): Vec3 { Vec3(m02, m12, m22) }
    function Row0(): Vec3 { Vec3(m00, m01, m02) }
    function Row1(): Vec3 { Vec3(m10, m11, m12) }
    function Row2(): Vec3 { Vec3(m20, m21, m22) }

    function Transpose(): Mat3 { Mat3(m00, m10, m20, m01, m11, m21, m02, m12, m22) }
    function Apply(v: Vec3): Vec3 { Vec3(Row0().Dot(v), Row1().Dot(v), Row2().Dot(v)) }
    function Mul(n: Mat3): Mat3 { FromColumns(Apply(n.Col0()), Apply(n.Col1()), Apply(n.Col2())) }
    function Det(): real { Col0().Dot(Col1().Cross(Col2())) }

    /** A rotation: its columns are a right-handed orthonormal frame. */
    predicate IsRotation() {
      && Col0().Dot(Col0()) == 1.0
      && Col1().Dot(Col1()) == 1.0
      && Col0().Dot(Col1()) == 0.0
      && Col0().Cross(Col1()) == Col2()
    }
  }

  function FromColumns(a: Vec3, b: Vec3, c: Vec3): Mat3 {
    Mat3(a.x, b.x, c.x, a.y, b.y, c.y, a.z, b.z, c.z)
  }

  const IDENTITY := Mat3(1.0, 0.0, 0.0, 0.0, 1.0, 0.0, 0.0, 0.0, 1.0)

  /** A 4x4 homogeneous matrix with bottom row (0, 0, 0, 1). */
  datatype Pose = Pose(rot: Mat3, pos: Vec3) {
    function Mul(p: Pose): Pose { Pose(rot.Mul(p.rot), rot.Apply(p.pos).Plus(pos)) }
    function Apply(v: Vec3): Vec3 { rot.Apply(v).Plus(pos) }
    predicate IsRigid() { rot.IsRotation() }
  }

  datatype Quat = Quat(w: real, x: real, y: real, z: real) {
    function NormSq(): real { Norm4(w, x, y, z) }
    function Dot(q: Quat): real { w * q.w + x * q.x + y * q.y + z * q.z }
    function Conj(): Quat { Quat(w, -x, -y, -z) }
    function Neg(): Quat { Quat(-w, -x, -y, -z) }
    function Mul(r: Quat): Quat {
      Quat(MulW(w, x, y, z, r.w, r.x, r.y, r.z), MulX(w, x, y, z, r.w, r.x, r.y, r.z),
           MulY(w, x, y, z, r.w, r.x, r.y, r.z), MulZ(w, x, y, z, r.w, r.x, r.y, r.z))
    }
    predicate IsUnit() { NormSq() == 1.0 }

    /** The rotation matrix a unit quaternion stands for. */
    function ToMatrix(): Mat3 {
      Mat3(Diag(w, x, y, z), TwiceDiff(x, y, w, z), TwiceSum(x, z, w, y),
           TwiceSum(x, y, w, z), Diag(w, y, x, z), TwiceDiff(y, z, w, x),
           TwiceDiff(x, z, w, y), TwiceSum(y, z, w, x), Diag(w, z, x, y))
    }
  }

  // Components of a quaternion product.
  function MulW(lw: real, lx: real, ly: real, lz: real, rw: real, rx: real, ry: real, rz: real): real {
    lw * rw - lx * rx - ly * ry - lz * rz
  }
  function MulX(lw: real, lx: real, ly: real, lz: real, rw: real, rx: real, ry: real, rz: real): real {
    lw * rx + lx * rw + ly * rz - lz * ry
  }
  function MulY(lw: real, lx: real, ly: real, lz: real, rw: real, rx: real, ry: real, rz: real): real {
    lw * ry - lx * rz + ly * rw + lz * rx
  }
  function MulZ(lw: real, lx: real, ly: real, lz: real, rw: real, rx: real, ry: real, rz: real): real {
    lw * rz + lx * ry - ly * rx + lz * rw
  }

  // Entries of the matrix of a quaternion.
  function Norm4(a: real, b: real, c: real, d: real): real { a * a + b * b + c * c + d * d }
  function Diag(a: real, b: real, c: real, d: real): real { a * a + b * b - c * c - d * d }
  function TwiceSum(a: real, b: real, c: real, d: real): real { a * b + c * d + (a * b + c * d) }
  function TwiceDiff(a: real, b: real, c: real, d: real): real { a * b - c * d + (a * b - c * d) }

  // ------------------------------------------------------------------------------------------
  // Signs of products, and the square root.

  lemma ProdPositive(a: real, b: real)
    requires a > 0.0 && b > 0.0
    ensures Prod(a, b) > 0.0
  {
  }

  lemma SquareNonNegative(a: real)
    ensures Prod(a, a) >= 0.0
  {
  }

  lemma SqrtOne(sqrt: real -> real)
    requires IsSqrt(sqrt)
    ensures sqrt(1.0) == 1.0
  {
    var r := sqrt(1.0);
    SameSquare(r, 1.0);
  }

  // ------------------------------------------------------------------------------------------
  // Vectors: linearity of the products, Lagrange's rule, and symmetry.

  lemma Dot3Linear(a: real, b: real, c: real, d: real, e: real, f: real, g: real, h: real, i: real)
    ensures Dot3(a, b, c, d + g, e + h, f + i) == Dot3(a, b, c, d, e, f) + Dot3(a, b, c, g, h, i)
    ensures Dot3(a, b, c, d - g, e - h, f - i) == Dot3(a, b, c, d, e, f) - Dot3(a, b, c, g, h, i)
  {
  }

  /** Grouping a double sum by rows or by columns. */
  lemma Dot3Swap(a: Vec3, p: Vec3, q: Vec3, r: Vec3, v: Vec3)
    ensures Dot3(a.x, a.y, a.z, p.Dot(v), q.Dot(v), r.Dot(v))
         == Dot3(Dot3(a.x, a.y, a.z, p.x, q.x, r.x), Dot3(a.x, a.y, a.z, p.y, q.y, r.y), Dot3(a.x, a.y, a.z, p.z, q.z, r.z),
                 v.x, v.y, v.z)
  {
  }

  lemma DotSymmetric(a: Vec3, b: Vec3)
    ensures a.Dot(b) == b.Dot(a)
  {
  }

  /** Lagrange's rule a x (b x c) = b (a.c) - c (a.b). */
  lemma TripleCross(a: Vec3, b: Vec3, c: Vec3)
    ensures a.Cross(b.Cross(c)).x == b.x * a.Dot(c) - c.x * a.Dot(b)
    ensures a.Cross(b.Cross(c)).y == b.y * a.Dot(c) - c.y * a.Dot(b)
    ensures a.Cross(b.Cross(c)).z == b.z * a.Dot(c) - c.z * a.Dot(b)
  {
  }

  lemma CrossNorm(a: Vec3, b: Vec3)
    ensures a.Cross(b).Dot(a.Cross(b)) == a.Dot(a) * b.Dot(b) - a.Dot(b) * a.Dot(b)
    ensures a.Dot(a.Cross(b)) == 0.0 && b.Dot(a.Cross(b)) == 0.0
  {
  }

  lemma CrossFlip(a: Vec3, b: Vec3)
    ensures var c, d := a.Cross(b), b.Cross(a); c.x == -d.x && c.y == -d.y && c.z == -d.z
  {
  }

  /** One component of (m u) x (m v) as a combination of two-by-two minors. */
  lemma CrossMinors(p: Vec3, q: Vec3, u: Vec3, v: Vec3)
    ensures Minor(p.Dot(u), q.Dot(u), p.Dot(v), q.Dot(v)) == p.Cross(q).Dot(u.Cross(v))
  {
  }

  // ------------------------------------------------------------------------------------------
  // Matrices.

  lemma ApplyPlus(m: Mat3, u: Vec3, v: Vec3)
    ensures m.Apply(u.Plus(v)) == m.Apply(u).Plus(m.Apply(v))
    ensures m.Apply(u.Minus(v)) == m.Apply(u).Minus(m.Apply(v))
  {
    hide Dot3;
    Dot3Linear(m.m00, m.m01, m.m02, u.x, u.y, u.z, v.x, v.y, v.z);
    Dot3Linear(m.m10, m.m11, m.m12, u.x, u.y, u.z, v.x, v.y, v.z);
    Dot3Linear(m.m20, m.m21, m.m22, u.x, u.y, u.z, v.x, v.y, v.z);
  }

  lemma ApplyMul(a: Mat3, b: Mat3, v: Vec3)
    ensures a.Mul(b).Apply(v) == a.Apply(b.Apply(v))
  {
    hide Dot3;
    Dot3Swap(a.Row0(), b.Row0(), b.Row1(), b.Row2(), v);
    Dot3Swap(a.Row1(), b.Row0(), b.Row1(), b.Row2(), v);
    Dot3Swap(a.Row2(), b.Row0(), b.Row1(), b.Row2(), v);
  }

  lemma MulAssociative(a: Mat3, b: Mat3, c: Mat3)
    ensures a.Mul(b).Mul(c) == a.Mul(b.Mul(c))
  {
    hide Dot3, Mat3.Apply;
    ApplyMul(a, b, c.Col0());
    ApplyMul(a, b, c.Col1());
    ApplyMul(a, b, c.Col2());
    assert b.Mul(c).Col0() == b.Apply(c.Col0()) && b.Mul(c).Col1() == b.Apply(c.Col1())
        && b.Mul(c).Col2() == b.Apply(c.Col2());
  }

  lemma TransposeMul(a: Mat3, b: Mat3)
    ensures a.Mul(b).Transpose() == b.Transpose().Mul(a.Transpose())
  {
    hide Dot3;
    DotSymmetric(a.Row0(), b.Col0()); DotSymmetric(a.Row0(), b.Col1()); DotSymmetric(a.Row0(), b.Col2());
    DotSymmetric(a.Row1(), b.Col0()); DotSymmetric(a.Row1(), b.Col1()); DotSymmetric(a.Row1(), b.Col2());
    DotSymmetric(a.Row2(), b.Col0()); DotSymmetric(a.Row2(), b.Col1()); DotSymmetric(a.Row2(), b.Col2());
  }

  lemma ApplyIdentity(v: Vec3)
    ensures IDENTITY.Apply(v) == v
  {
  }

  lemma MulIdentity(m: Mat3)
    ensures m.Mul(IDENTITY) == m && IDENTITY.Mul(m) == m
  {
  }

  lemma PoseMulAssociative(a: Pose, b: Pose, c: Pose)
    ensures a.Mul(b).Mul(c) == a.Mul(b.Mul(c))
  {
    hide Mat3.Apply, Mat3.Mul;
    MulAssociative(a.rot, b.rot, c.rot);
    ApplyMul(a.rot, b.rot, c.pos);
    ApplyPlus(a.rot, b.rot.Apply(c.pos), b.pos);
  }

  lemma PoseApplyMul(a: Pose, b: Pose, v: Vec3)
    ensures a.Mul(b).Apply(v) == a.Apply(b.Apply(v))
  {
    hide Mat3.Apply, Mat3.Mul;
    ApplyMul(a.rot, b.rot, v);
    ApplyPlus(a.rot, b.rot.Apply(v), b.pos);
  }

  // ------------------------------------------------------------------------------------------
  // Rotations.

  /** The frame of a rotation is cyclically right-handed, so every entry is its own cofactor. */
  lemma RotationFrame(m: Mat3)
    requires m.IsRotation()
    ensures m.Col1().Cross(m.Col2()) == m.Col0() && m.Col2().Cross(m.Col0()) == m.Col1()
    ensures m.Col2().Dot(m.Col2()) == 1.0 && m.Col0().Dot(m.Col2()) == 0.0 && m.Col1().Dot(m.Col2()) == 0.0
    ensures m.Det() == 1.0
  {
    hide Dot3, Minor;
    var a, b, c := m.Col0(), m.Col1(), m.Col2();
    TripleCross(b, a, b);
    TripleCross(a, a, b);
    CrossFlip(c, a);
    CrossNorm(a, b);
    DotSymmetric(a, b);
  }

  /** The rows of a rotation are a right-handed orthonormal frame too. */
  lemma RotationRows(m: Mat3)
    requires m.IsRotation()
    ensures m.Row1().Cross(m.Row2()) == m.Row0() && m.Row2().Cross(m.Row0()) == m.Row1()
    ensures m.Row0().Cross(m.Row1()) == m.Row2()
    ensures m.Row0().Dot(m.Row0()) == 1.0 && m.Row1().Dot(m.Row1()) == 1.0 && m.Row2().Dot(m.Row2()) == 1.0
    ensures m.Row0().Dot(m.Row1()) == 0.0 && m.Row0().Dot(m.Row2()) == 0.0 && m.Row1().Dot(m.Row2()) == 0.0
  {
    RotationRowCross(m);
    RotationFrame(m);
    hide Dot3, Minor;
    var a, b, c := m.Row0(), m.Row1(), m.Row2();
    RowDet(m);
    CrossNorm(b, c);
    CrossNorm(c, a);
    CrossNorm(a, b);
    DotSymmetric(a, b); DotSymmetric(a, c); DotSymmetric(b, c);
  }

  lemma RotationRowCross(m: Mat3)
    requires m.IsRotation()
    ensures m.Row1().Cross(m.Row2()) == m.Row0() && m.Row2().Cross(m.Row0()) == m.Row1()
    ensures m.Row0().Cross(m.Row1()) == m.Row2()
  {
    RotationFrame(m);
    hide Dot3, Minor;
    MinorTranspose(m.m11, m.m12, m.m21, m.m22); MinorTranspose(m.m12, m.m10, m.m22, m.m20);
    MinorTranspose(m.m10, m.m11, m.m20, m.m21); MinorTranspose(m.m21, m.m22, m.m01, m.m02);
    MinorTranspose(m.m22, m.m20, m.m02, m.m00); MinorTranspose(m.m20, m.m21, m.m00, m.m01);
    MinorTranspose(m.m01, m.m02, m.m11, m.m12); MinorTranspose(m.m02, m.m00, m.m12, m.m10);
    MinorTranspose(m.m00, m.m01, m.m10, m.m11);
  }

  lemma MinorTranspose(a: real, b: real, c: real, d: real)
    ensures Minor(a, b, c, d) == Minor(a, c, b, d)
  {
  }

  /** The determinant, expanded along each row. */
  lemma RowDet(m: Mat3)
    ensures m.Row0().Dot(m.Row1().Cross(m.Row2())) == m.Det()
    ensures m.Row1().Dot(m.Row2().Cross(m.Row0())) == m.Det()
    ensures m.Row2().Dot(m.Row0().Cross(m.Row1())) == m.Det()
  {
    hide Dot3, Minor;
    DetAlongRow0(m.m00, m.m01, m.m02, m.m10, m.m11, m.m12, m.m20, m.m21, m.m22);
    DetAlongRow1(m.m00, m.m01, m.m02, m.m10, m.m11, m.m12, m.m20, m.m21, m.m22);
    DetAlongRow2(m.m00, m.m01, m.m02, m.m10, m.m11, m.m12, m.m20, m.m21, m.m22);
  }

  lemma DetAlongRow0(a: real, b: real, c: real, d: real, e: real, f: real, g: real, h: real, i: real)
    ensures Dot3(a, b, c, Minor(e, f, h, i), Minor(f, d, i, g), Minor(d, e, g, h)) == Dot3(a, d, g, Minor(e, h, f, i), Minor(h, b, i, c), Minor(b, e, c, f))
  {
  }

  lemma DetAlongRow1(a: real, b: real, c: real, d: real, e: real, f: real, g: real, h: real, i: real)
    ensures Dot3(d, e, f, Minor(h, i, b, c), Minor(i, g, c, a), Minor(g, h, a, b)) == Dot3(a, d, g, Minor(e, h, f, i), Minor(h, b, i, c), Minor(b, e, c, f))
  {
  }

  lemma DetAlongRow2(a: real, b: real, c: real, d: real, e: real, f: real, g: real, h: real, i: real)
    ensures Dot3(g, h, i, Minor(b, c, e, f), Minor(c, a, f, d), Minor(a, b, d, e)) == Dot3(a, d, g, Minor(e, h, f, i), Minor(h, b, i, c), Minor(b, e, c, f))
  {
  }

  lemma RotationInverse(m: Mat3)
    requires m.IsRotation()
    ensures m.Transpose().Mul(m) == IDENTITY
    ensures m.Mul(m.Transpose()) == IDENTITY
    ensures m.Transpose().IsRotation()
  {
    RotationFrame(m);
    RotationRows(m);
    hide Dot3, Minor;
    DotSymmetric(m.Col0(), m.Col1()); DotSymmetric(m.Col0(), m.Col2()); DotSymmetric(m.Col1(), m.Col2());
    DotSymmetric(m.Row0(), m.Row1()); DotSymmetric(m.Row0(), m.Row2()); DotSymmetric(m.Row1(), m.Row2());
  }

  /** Rotations preserve dot products. */
  lemma RotationDot(m: Mat3, u: Vec3, v: Vec3)
    requires m.IsRotation()
    ensures m.Apply(u).Dot(m.Apply(v)) == u.Dot(v)
  {
    RotationInverse(m);
    ApplyMul(m.Transpose(), m, u);
    ApplyIdentity(u);
    hide Dot3, Minor;
    var n := m.Apply(u);
    Dot3Swap(n, m.Row0(), m.Row1(), m.Row2(), v);
    DotSymmetric(n, m.Col0()); DotSymmetric(n, m.Col1()); DotSymmetric(n, m.Col2());
  }

  /** Rotations preserve cross products. */
  lemma RotationCross(m: Mat3, u: Vec3, v: Vec3)
    requires m.IsRotation()
    ensures m.Apply(u).Cross(m.Apply(v)) == m.Apply(u.Cross(v))
  {
    RotationRows(m);
    hide Dot3, Minor;
    CrossMinors(m.Row1(), m.Row2(), u, v);
    CrossMinors(m.Row2(), m.Row0(), u, v);
    CrossMinors(m.Row0(), m.Row1(), u, v);
  }

  lemma RotationMul(a: Mat3, b: Mat3)
    requires a.IsRotation() && b.IsRotation()
    ensures a.Mul(b).IsRotation()
  {
    hide Dot3, Minor, Mat3.Apply;
    RotationDot(a, b.Col0(), b.Col0());
    RotationDot(a, b.Col1(), b.Col1());
    RotationDot(a, b.Col0(), b.Col1());
    RotationCross(a, b.Col0(), b.Col1());
    var ab := a.Mul(b);
    assert ab.Col0() == a.Apply(b.Col0()) && ab.Col1() == a.Apply(b.Col1()) && ab.Col2() == a.Apply(b.Col2());
  }

  // ------------------------------------------------------------------------------------------
  // Quaternions and rotations.

  /** The columns of a quaternion matrix are orthogonal and as long as its squared norm `n` ... */
  lemma QuatColumnsExpanded(w: real, x: real, y: real, z: real, n: real)
    requires n == w * w + x * x + y * y + z * z
    ensures Dot3(w * w + x * x - y * y - z * z, x * y + w * z + (x * y + w * z), x * z - w * y + (x * z - w * y),
                 w * w + x * x - y * y - z * z, x * y + w * z + (x * y + w * z), x * z - w * y + (x * z - w * y)) == n * n
    ensures Dot3(x * y - w * z + (x * y - w * z), w * w + y * y - x * x - z * z, y * z + w * x + (y * z + w * x),
                 x * y - w * z + (x * y - w * z), w * w + y * y - x * x - z * z, y * z + w * x + (y * z + w * x)) == n * n
    ensures Dot3(w * w + x * x - y * y - z * z, x * y + w * z + (x * y + w * z), x * z - w * y + (x * z - w * y),
                 x * y - w * z + (x * y - w * z), w * w + y * y - x * x - z * z, y * z + w * x + (y * z + w * x)) == 0.0
  {
  }

  /** ... and the third is the cross product of the others, up to `n`. */
  lemma QuatCrossExpanded(w: real, x: real, y: real, z: real, n: real)
    requires n == w * w + x * x + y * y + z * z
    ensures Minor(x * y + w * z + (x * y + w * z), x * z - w * y + (x * z - w * y), w * w + y * y - x * x - z * z, y * z + w * x + (y * z + w * x))
         == (x * z + w * y + (x * z + w * y)) * n
    ensures Minor(x * z - w * y + (x * z - w * y), w * w + x * x - y * y - z * z, y * z + w * x + (y * z + w * x), x * y - w * z + (x * y - w * z))
         == (y * z - w * x + (y * z - w * x)) * n
    ensures Minor(w * w + x * x - y * y - z * z, x * y + w * z + (x * y + w * z), x * y - w * z + (x * y - w * z), w * w + y * y - x * x - z * z)
         == (w * w + z * z - x * x - y * y) * n
  {
  }

  lemma QuatColumns(w: real, x: real, y: real, z: real, n: real)
    requires n == Norm4(w, x, y, z)
    ensures Dot3(Diag(w, x, y, z), TwiceSum(x, y, w, z), TwiceDiff(x, z, w, y),
                 Diag(w, x, y, z), TwiceSum(x, y, w, z), TwiceDiff(x, z, w, y)) == n * n
    ensures Dot3(TwiceDiff(x, y, w, z), Diag(w, y, x, z), TwiceSum(y, z, w, x),
                 TwiceDiff(x, y, w, z), Diag(w, y, x, z), TwiceSum(y, z, w, x)) == n * n
    ensures Dot3(Diag(w, x, y, z), TwiceSum(x, y, w, z), TwiceDiff(x, z, w, y),
                 TwiceDiff(x, y, w, z), Diag(w, y, x, z), TwiceSum(y, z, w, x)) == 0.0
  {
    hide Dot3;
    QuatColumnsExpanded(w, x, y, z, n);
  }

  lemma QuatCross(w: real, x: real, y: real, z: real, n: real)
    requires n == Norm4(w, x, y, z)
    ensures Minor(TwiceSum(x, y, w, z), TwiceDiff(x, z, w, y), Diag(w, y, x, z), TwiceSum(y, z, w, x)) == TwiceSum(x, z, w, y) * n
    ensures Minor(TwiceDiff(x, z, w, y), Diag(w, x, y, z), TwiceSum(y, z, w, x), TwiceDiff(x, y, w, z)) == TwiceDiff(y, z, w, x) * n
    ensures Minor(Diag(w, x, y, z), TwiceSum(x, y, w, z), TwiceDiff(x, y, w, z), Diag(w, y, x, z)) == Diag(w, z, x, y) * n
  {
    hide Minor;
    QuatCrossExpanded(w, x, y, z, n);
  }

  /** Every unit quaternion stands for a rotation. */
  lemma QuatMatrixIsRotation(q: Quat)
    requires q.IsUnit()
    ensures q.ToMatrix().IsRotation()
  {
    hide Dot3, Minor, Norm4, Diag, TwiceSum, TwiceDiff;
    QuatColumns(q.w, q.x, q.y, q.z, 1.0);
    QuatCross(q.w, q.x, q.y, q.z, 1.0);
  }

  lemma QuatEntries(w: real, x: real, y: real, z: real)
    ensures Norm4(w, x, y, z) == Prod(w, w) + Prod(x, x) + Prod(y, y) + Prod(z, z)
    ensures Diag(w, x, y, z) == Prod(w, w) + Prod(x, x) - Prod(y, y) - Prod(z, z)
    ensures Diag(w, y, x, z) == Prod(w, w) + Prod(y, y) - Prod(x, x) - Prod(z, z)
    ensures Diag(w, z, x, y) == Prod(w, w) + Prod(z, z) - Prod(x, x) - Prod(y, y)
    ensures TwiceSum(x, y, w, z) == Prod(x, y) + Prod(w, z) + (Prod(x, y) + Prod(w, z))
    ensures TwiceSum(x, z, w, y) == Prod(x, z) + Prod(w, y) + (Prod(x, z) + Prod(w, y))
    ensures TwiceSum(y, z, w, x) == Prod(y, z) + Prod(w, x) + (Prod(y, z) + Prod(w, x))
    ensures TwiceDiff(x, y, w, z) == Prod(x, y) - Prod(w, z) + (Prod(x, y) - Prod(w, z))
    ensures TwiceDiff(x, z, w, y) == Prod(x, z) - Prod(w, y) + (Prod(x, z) - Prod(w, y))
    ensures TwiceDiff(y, z, w, x) == Prod(y, z) - Prod(w, x) + (Prod(y, z) - Prod(w, x))
  {
  }

  lemma SameSquare(a: real, b: real)
    requires Prod(a, a) == Prod(b, b)
    ensures a == b || a == -b
  {
    assert (a - b) * (a + b) == 0.0;
  }

  lemma SamePair(a: real, b: real, a': real, b': real)
    requires Prod(a, a) == Prod(a', a') && Prod(b, b) == Prod(b', b') && Prod(a, b) == Prod(a', b')
    ensures (a == a' && b == b') || (a == -a' && b == -b')
  {
    SameSquare(a, a');
    SameSquare(b, b');
    if a == a' && b == -b' {
      assert a * (b - b') == 0.0;
    } else if a == -a' && b == b' {
      assert b * (a - a') == 0.0;
    }
  }

  /** Two unit quaternions stand for the same rotation only if they agree up to sign. */
  lemma QuatUniqueUpToSign(q: Quat, r: Quat)
    requires q.IsUnit() && r.IsUnit() && q.ToMatrix() == r.ToMatrix()
    ensures q == r || q == r.Neg()
  {
    hide Prod, Norm4, Diag, TwiceSum, TwiceDiff;
    QuatEntries(q.w, q.x, q.y, q.z);
    QuatEntries(r.w, r.x, r.y, r.z);
    assert Prod(q.w, q.w) == Prod(r.w, r.w) && Prod(q.x, q.x) == Prod(r.x, r.x)
        && Prod(q.y, q.y) == Prod(r.y, r.y) && Prod(q.z, q.z) == Prod(r.z, r.z);
    assert Prod(q.w, q.x) == Prod(r.w, r.x) && Prod(q.w, q.y) == Prod(r.w, r.y) && Prod(q.w, q.z) == Prod(r.w, r.z)
        && Prod(q.x, q.y) == Prod(r.x, r.y) && Prod(q.x, q.z) == Prod(r.x, r.z) && Prod(q.y, q.z) == Prod(r.y, r.z);
    EqualProducts(q.w, q.x, q.y, q.z, r.w, r.x, r.y, r.z);
  }

  /** Pairwise products determine four numbers up to a common sign. */
  lemma EqualProducts(w: real, x: real, y: real, z: real, w': real, x': real, y': real, z': real)
    requires Prod(w, w) == Prod(w', w') && Prod(x, x) == Prod(x', x') && Prod(y, y) == Prod(y', y') && Prod(z, z) == Prod(z', z')
    requires Prod(w, x) == Prod(w', x') && Prod(w, y) == Prod(w', y') && Prod(w, z) == Prod(w', z')
    requires Prod(x, y) == Prod(x', y') && Prod(x, z) == Prod(x', z') && Prod(y, z) == Prod(y', z')
    ensures (w == w' && x == x' && y == y' && z == z') || (w == -w' && x == -x' && y == -y' && z == -z')
  {
    hide Prod;
    SamePair(w, x, w', x'); SamePair(w, y, w', y'); SamePair(w, z, w', z');
    SamePair(x, y, x', y'); SamePair(x, z, x', z'); SamePair(y, z, y', z');
  }

  /** The norm is multiplicative (Euler's four-square identity). */
  lemma FourSquares(a: real, b: real, c: real, d: real, e: real, f: real, g: real, h: real)
    ensures Prod(Norm4(a, b, c, d), Norm4(e, f, g, h))
         == Norm4(a * e - b * f - c * g - d * h, a * f + b * e + c * h - d * g,
                  a * g - b * h + c * e + d * f, a * h + b * g - c * f + d * e)
  {
  }

  lemma Components(a: real, b: real, c: real, d: real, e: real, f: real, g: real, h: real)
    ensures MulW(a, b, c, d, e, f, g, h) == a * e - b * f - c * g - d * h
    ensures MulX(a, b, c, d, e, f, g, h) == a * f + b * e + c * h - d * g
    ensures MulY(a, b, c, d, e, f, g, h) == a * g - b * h + c * e + d * f
    ensures MulZ(a, b, c, d, e, f, g, h) == a * h + b * g - c * f + d * e
  {
  }

  lemma QuatNormMul(q: Quat, r: Quat)
    ensures q.Mul(r).NormSq() == Prod(q.NormSq(), r.NormSq())
  {
    hide Norm4, Prod, MulW, MulX, MulY, MulZ;
    FourSquares(q.w, q.x, q.y, q.z, r.w, r.x, r.y, r.z);
    Components(q.w, q.x, q.y, q.z, r.w, r.x, r.y, r.z);
  }

  lemma AssociativeW(a: real, b: real, c: real, d: real, e: real, f: real, g: real, h: real, i: real, j: real, k: real, l: real)
    ensures MulW(MulW(a, b, c, d, e, f, g, h), MulX(a, b, c, d, e, f, g, h), MulY(a, b, c, d, e, f, g, h),
                 MulZ(a, b, c, d, e, f, g, h), i, j, k, l)
         == MulW(a, b, c, d, MulW(e, f, g, h, i, j, k, l), MulX(e, f, g, h, i, j, k, l), MulY(e, f, g, h, i, j, k, l),
                 MulZ(e, f, g, h, i, j, k, l))
  {
  }

  lemma AssociativeX(a: real, b: real, c: real, d: real, e: real, f: real, g: real, h: real, i: real, j: real, k: real, l: real)
    ensures MulX(MulW(a, b, c, d, e, f, g, h), MulX(a, b, c, d, e, f, g, h), MulY(a, b, c, d, e, f, g, h),
                 MulZ(a, b, c, d, e, f, g, h), i, j, k, l)
         == MulX(a, b, c, d, MulW(e, f, g, h, i, j, k, l), MulX(e, f, g, h, i, j, k, l), MulY(e, f, g, h, i, j, k, l),
                 MulZ(e, f, g, h, i, j, k, l))
  {
  }

  lemma AssociativeY(a: real, b: real, c: real, d: real, e: real, f: real, g: real, h: real, i: real, j: real, k: real, l: real)
    ensures MulY(MulW(a, b, c, d, e, f, g, h), MulX(a, b, c, d, e, f, g, h), MulY(a, b, c, d, e, f, g, h),
                 MulZ(a, b, c, d, e, f, g, h), i, j, k, l)
         == MulY(a, b, c, d, MulW(e, f, g, h, i, j, k, l), MulX(e, f, g, h, i, j, k, l), MulY(e, f, g, h, i, j, k, l),
                 MulZ(e, f, g, h, i, j, k, l))
  {
  }

  lemma AssociativeZ(a: real, b: real, c: real, d: real, e: real, f: real, g: real, h: real, i: real, j: real, k: real, l: real)
    ensures MulZ(MulW(a, b, c, d, e, f, g, h), MulX(a, b, c, d, e, f, g, h), MulY(a, b, c, d, e, f, g, h),
                 MulZ(a, b, c, d, e, f, g, h), i, j, k, l)
         == MulZ(a, b, c, d, MulW(e, f, g, h, i, j, k, l), MulX(e, f, g, h, i, j, k, l), MulY(e, f, g, h, i, j, k, l),
                 MulZ(e, f, g, h, i, j, k, l))
  {
  }

  lemma QuatMulAssociative(a: Quat, b: Quat, c: Quat)
    ensures a.Mul(b).Mul(c) == a.Mul(b.Mul(c))
  {
    hide MulW, MulX, MulY, MulZ;
    AssociativeW(a.w, a.x, a.y, a.z, b.w, b.x, b.y, b.z, c.w, c.x, c.y, c.z);
    AssociativeX(a.w, a.x, a.y, a.z, b.w, b.x, b.y, b.z, c.w, c.x, c.y, c.z);
    AssociativeY(a.w, a.x, a.y, a.z, b.w, b.x, b.y, b.z, c.w, c.x, c.y, c.z);
    AssociativeZ(a.w, a.x, a.y, a.z, b.w, b.x, b.y, b.z, c.w, c.x, c.y, c.z);
  }

  lemma NormSigns(w: real, x: real, y: real, z: real)
    ensures Norm4(w, -x, -y, -z) == Norm4(w, x, y, z) && Norm4(-w, -x, -y, -z) == Norm4(w, x, y, z)
    ensures Norm4(w, -y, -x, -z) == Norm4(w, x, y, z)
  {
  }

  // ------------------------------------------------------------------------------------------
  // Normalisation.

  lemma DivSquare(a: real, n: real)
    requires n > 0.0
    ensures Prod(Prod(a / n, a / n), Prod(n, n)) == Prod(a, a)
  {
    var b := a / n;
    assert a == b * n;
    assert (b * n) * (b * n) == (b * b) * (n * n);
  }

  lemma SumScaled(p: real, q: real, r: real, t: real, k: real)
    requires Prod(p, k) + Prod(q, k) + Prod(r, k) + Prod(t, k) == k && k > 0.0
    ensures p + q + r + t == 1.0
  {
    assert (p + q + r + t) * k == p * k + q * k + r * k + t * k;
  }

  lemma Normalised(w: real, x: real, y: real, z: real, n: real)
    requires n > 0.0 && Prod(n, n) == Norm4(w, x, y, z)
    ensures Norm4(w / n, x / n, y / n, z / n) == 1.0
  {
    hide Norm4, Prod;
    ProdPositive(n, n);
    QuatEntries(w, x, y, z);
    QuatEntries(w / n, x / n, y / n, z / n);
    DivSquare(w, n); DivSquare(x, n); DivSquare(y, n); DivSquare(z, n);
    SumScaled(Prod(w / n, w / n), Prod(x / n, x / n), Prod(y / n, y / n), Prod(z / n, z / n), Prod(n, n));
  }

  /** `c` and `s` are the cosine and sine of some angle. */
  predicate OnCircle(c: real, s: real) { c * c + s * s == 1.0 }

  lemma ProdZero(k: real)
    ensures Prod(0.0, k) == 0.0
  {
  }

  lemma ProdOnCircle(c: real, s: real)
    ensures OnCircle(c, s) <==> Prod(c, c) + Prod(s, s) == 1.0
  {
  }

  lemma QuotientsOnCircle(x: real, y: real, n: real)
    requires n > 0.0 && n * n == x * x + y * y
    ensures OnCircle(x / n, y / n)
  {
    ProdPositive(n, n);
    DivSquare(x, n);
    DivSquare(y, n);
    ProdZero(Prod(n, n));
    assert Prod(n, n) == Prod(x, x) + Prod(y, y);
    assert OnCircle(x / n, y / n) by {
      hide Prod;
      SumScaled(Prod(x / n, x / n), Prod(y / n, y / n), 0.0, 0.0, Prod(n, n));
      ProdOnCircle(x / n, y / n);
    }
  }
}
