/** The matrix pipeline from raw OpenXR poses to robot-frame teleoperation data
    (dexfull/xr/tv_wrapper.py).  Poses are homogeneous matrices with bottom row (0, 0, 0, 1). */
module TeleWrapper {
  import opened Arithmetic
  import opened LinearAlgebra
  import opened PoseExtraction

  const R_ROBOT_OPENXR := Mat3(0.0, 0.0, -1.0, -1.0, 0.0, 0.0, 0.0, 1.0, 0.0)
  const R_OPENXR_ROBOT := Mat3(0.0, -1.0, 0.0, 0.0, 0.0, 1.0, -1.0, 0.0, 0.0)
  const ORIGIN := Vec3(0.0, 0.0, 0.0)
  const T_ROBOT_OPENXR := Pose(R_ROBOT_OPENXR, ORIGIN)
  const T_OPENXR_ROBOT := Pose(R_OPENXR_ROBOT, ORIGIN)
  const T_IDENTITY := Pose(IDENTITY, ORIGIN)
  const T_TO_UNITREE_HUMANOID_LEFT_ARM := Pose(Mat3(1.0, 0.0, 0.0, 0.0, 0.0, -1.0, 0.0, 1.0, 0.0), ORIGIN)
  const T_TO_UNITREE_HUMANOID_RIGHT_ARM := Pose(Mat3(1.0, 0.0, 0.0, 0.0, 0.0, 1.0, 0.0, -1.0, 0.0), ORIGIN)
  const T_TO_UNITREE_HAND := Pose(Mat3(0.0, 0.0, 1.0, -1.0, 0.0, 0.0, 0.0, -1.0, 0.0), ORIGIN)
  const CONST_HEAD_POSE := Pose(IDENTITY, Vec3(0.0, 1.5, -0.2))
  const CONST_RIGHT_ARM_POSE := Pose(IDENTITY, Vec3(0.15, 1.13, -0.3))
  const CONST_LEFT_ARM_POSE := Pose(IDENTITY, Vec3(-0.15, 1.13, -0.3))
  const TOLERANCE := 0.000001

  /** `np.isclose(x, 0.0, atol=1e-6)`. */
  predicate IsCloseToZero(x: real) { Abs(x) <= TOLERANCE }

  function SafeMatUpdate(prev: Pose, mat: Pose): (Pose, bool) {
    if IsCloseToZero(mat.rot.Det()) then (prev, false) else (mat, true)
  }

  function FastMatInv(mat: Pose): Pose {
    var rt := mat.rot.Transpose();
    var v := rt.Apply(mat.pos);
    Pose(rt, Vec3(-v.x, -v.y, -v.z))
  }

  /** T_ROBOT_OPENXR * pose * T_OPENXR_ROBOT. */
  function ChangeBasis(pose: Pose): Pose { T_ROBOT_OPENXR.Mul(pose).Mul(T_OPENXR_ROBOT) }

  /** Length of the head's forward axis projected on the floor. */
  function ForwardLength(sqrt: real -> real, head: Mat3): real {
    sqrt(Dot3(head.m00, head.m10, 0.0, head.m00, head.m10, 0.0))
  }

  function HeadYawRot(sqrt: real -> real, head: Mat3): Mat3 {
    var norm := ForwardLength(sqrt, head);
    if IsCloseToZero(norm) then IDENTITY
    else
      var x := Vec3(head.m00 / norm, head.m10 / norm, 0.0 / norm);
      var z := Vec3(0.0, 0.0, 1.0);
      var y := z.Cross(x);
      var n := sqrt(y.Dot(y));
      if n == 0.0 then IDENTITY  // unreachable: `YawIsRotZ`
      else FromColumns(x, Vec3(y.x / n, y.y / n, y.z / n), z)
  }

  datatype ArmReferenceMode = HeadPosition | HeadYaw

  function ArmToHeadThenWaist(sqrt: real -> real, arm: Pose, head: Pose, mode: ArmReferenceMode): Pose {
    var offset := arm.pos.Minus(head.pos);
    var inHead :=
      if mode == HeadYaw then
        var rt := HeadYawRot(sqrt, head.rot).Transpose();
        Pose(rt.Mul(arm.rot), rt.Apply(offset))
      else Pose(arm.rot, offset);
    Pose(inHead.rot, Vec3(inHead.pos.x + 0.15, inHead.pos.y, inHead.pos.z + 0.45))
  }

  /** Wrist pose handed to IK, with hand tracking: `toUnitree` is the arm's initial-pose change. */
  function WristPose(sqrt: real -> real, mode: ArmReferenceMode, head: Pose, arm: Pose, fallback: Pose, toUnitree: Pose): Pose {
    var (xrHead, _) := SafeMatUpdate(CONST_HEAD_POSE, head);
    var (xrArm, valid) := SafeMatUpdate(fallback, arm);
    var robotArm := ChangeBasis(xrArm).Mul(if valid then toUnitree else T_IDENTITY);
    ArmToHeadThenWaist(sqrt, robotArm, ChangeBasis(xrHead), mode)
  }

  function HandPoint(arm: Pose, point: Vec3): Vec3 {
    T_TO_UNITREE_HAND.Apply(FastMatInv(ChangeBasis(arm)).Apply(T_ROBOT_OPENXR.Apply(point)))
  }

  datatype Raw = Raw(head: Pose, leftArm: Pose, rightArm: Pose, leftHand: seq<Vec3>, rightHand: seq<Vec3>)

  datatype TeleData = TeleData(headPose: Pose, leftWrist: Pose, rightWrist: Pose,
                               leftHandPos: seq<Vec3>, rightHandPos: seq<Vec3>)

  function GetTeleData(sqrt: real -> real, mode: ArmReferenceMode, raw: Raw): TeleData {
    var (head, _) := SafeMatUpdate(CONST_HEAD_POSE, raw.head);
    var (left, leftValid) := SafeMatUpdate(CONST_LEFT_ARM_POSE, raw.leftArm);
    var (right, rightValid) := SafeMatUpdate(CONST_RIGHT_ARM_POSE, raw.rightArm);
    var valid := leftValid && rightValid;
    TeleData(
      ChangeBasis(head),
      WristPose(sqrt, mode, raw.head, raw.leftArm, CONST_LEFT_ARM_POSE, T_TO_UNITREE_HUMANOID_LEFT_ARM),
      WristPose(sqrt, mode, raw.head, raw.rightArm, CONST_RIGHT_ARM_POSE, T_TO_UNITREE_HUMANOID_RIGHT_ARM),
      if valid then seq(|raw.leftHand|, i requires 0 <= i < |raw.leftHand| => HandPoint(left, raw.leftHand[i]))
      else seq(25, _ => ORIGIN),
      if valid then seq(|raw.rightHand|, i requires 0 <= i < |raw.rightHand| => HandPoint(right, raw.rightHand[i]))
      else seq(25, _ => ORIGIN))
  }

  // ------------------------------------------------------------------------------------------
  // The change of basis.

  /** What the change of basis does to the entries. */
  lemma ChangeBasisEntries(p: Pose)
    ensures ChangeBasis(p) == Pose(Mat3(p.rot.m22, p.rot.m20, -p.rot.m21,
                                        p.rot.m02, p.rot.m00, -p.rot.m01,
                                        -p.rot.m12, -p.rot.m10, p.rot.m11),
                                   Vec3(-p.pos.z, -p.pos.x, p.pos.y))
  {
  }

  lemma QuatBasisEntries(w: real, x: real, y: real, z: real)
    ensures Diag(w, -z, -x, y) == Diag(w, z, x, y) && Diag(w, -x, -z, y) == Diag(w, x, y, z) && Diag(w, y, -z, -x) == Diag(w, y, x, z)
    ensures TwiceDiff(-z, -x, w, y) == TwiceDiff(x, z, w, y) && TwiceSum(-z, -x, w, y) == TwiceSum(x, z, w, y)
    ensures TwiceSum(-z, y, w, -x) == -TwiceSum(y, z, w, x) && TwiceDiff(-z, y, w, -x) == -TwiceDiff(y, z, w, x)
    ensures TwiceDiff(-x, y, w, -z) == -TwiceDiff(x, y, w, z) && TwiceSum(-x, y, w, -z) == -TwiceSum(x, y, w, z)
  {
  }

  /** It turns the quaternion (w, x, y, z) into (w, -z, -x, y). */
  lemma ChangeBasisQuat(q: Quat, p: Vec3)
    ensures ChangeBasis(Pose(q.ToMatrix(), p)) == Pose(Quat(q.w, -q.z, -q.x, q.y).ToMatrix(), Vec3(-p.z, -p.x, p.y))
  {
    hide ChangeBasis, Diag, TwiceSum, TwiceDiff;
    ChangeBasisEntries(Pose(q.ToMatrix(), p));
    QuatBasisEntries(q.w, q.x, q.y, q.z);
  }

  lemma Norm4Basis(w: real, x: real, y: real, z: real)
    ensures Norm4(w, -z, -x, y) == Norm4(w, x, y, z)
  {
  }

  /** For every rigid OpenXR head pose with unit quaternion (w, x, y, z) and position p, the pose sent
      on has position (-pz, -px, py) and quaternion exactly (w, -z, -x, y) or its negative. */
  lemma HeadPoseExtraction(sqrt: real -> real, q: Quat, p: Vec3)
    requires IsSqrt(sqrt) && q.IsUnit()
    ensures var expected := Quat(q.w, -q.z, -q.x, q.y); var position := Vec3(-p.z, -p.x, p.y);
            MatrixToXyzWxyz(sqrt, ChangeBasis(Pose(q.ToMatrix(), p)))
              in {XyzWxyz(position, expected), XyzWxyz(position, expected.Neg())}
  {
    ChangeBasisQuat(q, p);
    hide Norm4, Quat.ToMatrix, ChangeBasis, MatrixToXyzWxyz;
    Norm4Basis(q.w, q.x, q.y, q.z);
    ExtractionRoundTrip(sqrt, Quat(q.w, -q.z, -q.x, q.y), Vec3(-p.z, -p.x, p.y));
  }

  lemma BasisConstants()
    ensures R_ROBOT_OPENXR.IsRotation() && R_OPENXR_ROBOT.IsRotation()
    ensures T_OPENXR_ROBOT.Mul(T_ROBOT_OPENXR) == T_IDENTITY
  {
  }

  lemma BasesCancel(p: Pose)
    ensures T_OPENXR_ROBOT.Mul(T_ROBOT_OPENXR.Mul(p)) == p
  {
    hide Mat3.Mul, Mat3.Apply, Mat3.IsRotation;
    BasisConstants();
    PoseMulAssociative(T_OPENXR_ROBOT, T_ROBOT_OPENXR, p);
    MulIdentity(p.rot);
    ApplyIdentity(p.pos);
  }

  /** The change of basis respects composition, so world motions stay world motions. */
  lemma ChangeBasisMul(g: Pose, p: Pose)
    ensures ChangeBasis(g.Mul(p)) == ChangeBasis(g).Mul(ChangeBasis(p))
  {
    hide Pose.Mul;
    var a, b := T_ROBOT_OPENXR, T_OPENXR_ROBOT;
    PoseMulAssociative(a, g, p);
    PoseMulAssociative(a.Mul(g), p, b);
    PoseMulAssociative(a.Mul(g), b, a.Mul(p).Mul(b));
    PoseMulAssociative(a, p, b);
    BasesCancel(p.Mul(b));
  }

  lemma ChangeBasisPoint(g: Pose, v: Vec3)
    ensures T_ROBOT_OPENXR.Apply(g.Apply(v)) == ChangeBasis(g).Apply(T_ROBOT_OPENXR.Apply(v))
  {
    ChangeBasisEntries(g);
  }

  lemma ChangeBasisRigid(p: Pose)
    requires p.IsRigid()
    ensures ChangeBasis(p).IsRigid()
  {
    hide Mat3.IsRotation, Mat3.Mul, Mat3.Apply;
    BasisConstants();
    RotationMul(R_ROBOT_OPENXR, p.rot);
    RotationMul(R_ROBOT_OPENXR.Mul(p.rot), R_OPENXR_ROBOT);
  }

  // ------------------------------------------------------------------------------------------
  // Hand landmarks in the arm frame.

  lemma VecCancel(u: Vec3, t: Vec3)
    ensures u.Plus(t).Plus(Vec3(-t.x, -t.y, -t.z)) == u
  {
  }

  /** On rigid matrices `FastMatInv` is the inverse, on both sides. */
  lemma FastMatInvInverse(p: Pose, v: Vec3)
    requires p.IsRigid()
    ensures FastMatInv(p).Apply(p.Apply(v)) == v && p.Apply(FastMatInv(p).Apply(v)) == v
  {
    ApplyInverse(p, v);
    var rt := p.rot.Transpose();
    hide Mat3.Apply, Mat3.Mul, Mat3.IsRotation;
    RotationInverse(p.rot);
    ApplyPlus(rt, p.rot.Apply(v), p.pos);
    ApplyMul(rt, p.rot, v);
    ApplyIdentity(v);
    VecCancel(v, rt.Apply(p.pos));
  }

  /** A world motion `g` in front of the pose cancels. */
  lemma FastMatInvMotion(g: Pose, p: Pose, v: Vec3)
    requires g.IsRigid() && p.IsRigid()
    ensures FastMatInv(g.Mul(p)).Apply(g.Apply(v)) == FastMatInv(p).Apply(v)
  {
    hide Mat3.IsRotation, FastMatInv, Mat3.Apply, Mat3.Mul;
    RotationMul(g.rot, p.rot);
    var u := FastMatInv(p).Apply(v);
    ApplyInverse(p, v);
    PoseApplyMul(g, p, u);
    FastMatInvInverse(g.Mul(p), u);
  }

  lemma ApplyInverse(p: Pose, v: Vec3)
    requires p.IsRigid()
    ensures p.Apply(FastMatInv(p).Apply(v)) == v
  {
    var rt := p.rot.Transpose();
    hide Mat3.Apply, Mat3.Mul, Mat3.IsRotation;
    RotationInverse(p.rot);
    var w := rt.Apply(p.pos);
    assert FastMatInv(p).Apply(v) == rt.Apply(v).Minus(w);
    ApplyPlus(p.rot, rt.Apply(v), w);
    ApplyMul(p.rot, rt, v);
    ApplyMul(p.rot, rt, p.pos);
    ApplyIdentity(v);
    ApplyIdentity(p.pos);
  }

  /** Hand landmarks relative to the arm do not change under any rigid motion of the world. */
  lemma HandPointInvariant(g: Pose, arm: Pose, point: Vec3)
    requires g.IsRigid() && arm.IsRigid()
    ensures HandPoint(g.Mul(arm), g.Apply(point)) == HandPoint(arm, point)
  {
    hide Mat3.IsRotation, FastMatInv, Mat3.Apply, Mat3.Mul, ChangeBasis;
    ChangeBasisMul(g, arm);
    ChangeBasisPoint(g, point);
    ChangeBasisRigid(g);
    ChangeBasisRigid(arm);
    FastMatInvMotion(ChangeBasis(g), ChangeBasis(arm), T_ROBOT_OPENXR.Apply(point));
  }

  /** The arm frame is anchored at the wrist: a landmark at the arm's position is its origin. */
  lemma HandPointAtWrist(arm: Pose)
    requires arm.IsRigid()
    ensures HandPoint(arm, arm.pos) == ORIGIN
  {
    ChangeBasisRigid(arm);
    ChangeBasisPoint(arm, ORIGIN);
    FastMatInvInverse(ChangeBasis(arm), ORIGIN);
    ApplyZero(arm, ORIGIN);
    ApplyZero(T_ROBOT_OPENXR, ORIGIN);
    ApplyZero(T_TO_UNITREE_HAND, ORIGIN);
    hide FastMatInv, ChangeBasis, Pose.Apply;
  }

  lemma Dot3Zero(a: real, b: real, c: real, v: Vec3)
    requires v.x == v.y == v.z == 0.0
    ensures Dot3(a, b, c, v.x, v.y, v.z) == 0.0
  {
  }

  lemma ApplyZero(p: Pose, v: Vec3)
    requires v.x == v.y == v.z == 0.0
    ensures p.Apply(v) == p.pos
  {
    hide Dot3;
    Dot3Zero(p.rot.m00, p.rot.m01, p.rot.m02, v);
    Dot3Zero(p.rot.m10, p.rot.m11, p.rot.m12, v);
    Dot3Zero(p.rot.m20, p.rot.m21, p.rot.m22, v);
  }

  // ------------------------------------------------------------------------------------------
  // Wrist poses relative to the heading of the head.

  /** Rotation about the robot's vertical axis by the angle with cosine `c` and sine `s`. */
  function RotZ(c: real, s: real): Mat3 { Mat3(c, -s, 0.0, s, c, 0.0, 0.0, 0.0, 1.0) }

  /** The same rotation about the OpenXR vertical axis. */
  function RotY(c: real, s: real): Mat3 { Mat3(c, 0.0, s, 0.0, 1.0, 0.0, -s, 0.0, c) }

  /** A rotation of the OpenXR world about its vertical axis, then a translation. */
  function VerticalMotion(c: real, s: real, t: Vec3): Pose { Pose(RotY(c, s), t) }

  lemma RotZIsRotation(c: real, s: real)
    requires OnCircle(c, s)
    ensures RotZ(c, s).IsRotation() && RotY(c, s).IsRotation()
  {
  }

  lemma VerticalMotionBasis(c: real, s: real, t: Vec3)
    ensures ChangeBasis(VerticalMotion(c, s, t)) == Pose(RotZ(c, s), Vec3(-t.z, -t.x, t.y))
  {
    hide ChangeBasis;
    ChangeBasisEntries(VerticalMotion(c, s, t));
  }

  /** Away from the vertical, the extracted yaw is the rotation taking x to the projected forward axis. */
  lemma YawIsRotZ(sqrt: real -> real, head: Mat3)
    requires IsSqrt(sqrt) && !IsCloseToZero(ForwardLength(sqrt, head))
    ensures var n := ForwardLength(sqrt, head);
         && n > 0.0 && OnCircle(head.m00 / n, head.m10 / n)
         && HeadYawRot(sqrt, head) == RotZ(head.m00 / n, head.m10 / n)
  {
    var n := ForwardLength(sqrt, head);
    SquareNonNegative(head.m00);
    SquareNonNegative(head.m10);
    assert n > 0.0 && n * n == head.m00 * head.m00 + head.m10 * head.m10;
    QuotientsOnCircle(head.m00, head.m10, n);
    SqrtOne(sqrt);
    var x := Vec3(head.m00 / n, head.m10 / n, 0.0 / n);
    var y := Vec3(0.0, 0.0, 1.0).Cross(x);
    assert x.z == 0.0;
    assert y == Vec3(-x.y, x.x, 0.0);
    assert y.Dot(y) == 1.0;
  }

  lemma RotatedForward(c: real, s: real, x: real, y: real)
    requires OnCircle(c, s)
    ensures Dot3(c * x - s * y, s * x + c * y, 0.0, c * x - s * y, s * x + c * y, 0.0) == Dot3(x, y, 0.0, x, y, 0.0)
  {
    assert (c * x - s * y) * (c * x - s * y) + (s * x + c * y) * (s * x + c * y) == (c * c + s * s) * (x * x + y * y);
  }

  lemma RotZForward(c: real, s: real, head: Mat3)
    ensures RotZ(c, s).Mul(head).m00 == c * head.m00 - s * head.m10 && RotZ(c, s).Mul(head).m10 == s * head.m00 + c * head.m10
  {
  }

  /** A vertical rotation of the world keeps the length of the projected forward axis ... */
  lemma ForwardLengthInvariant(sqrt: real -> real, c: real, s: real, head: Mat3)
    requires OnCircle(c, s)
    ensures ForwardLength(sqrt, RotZ(c, s).Mul(head)) == ForwardLength(sqrt, head)
  {
    hide Dot3, OnCircle, RotZ;
    RotZForward(c, s, head);
    RotatedForward(c, s, head.m00, head.m10);
  }

  /** ... and turns the extracted yaw along. */
  lemma YawEquivariant(sqrt: real -> real, c: real, s: real, head: Mat3)
    requires IsSqrt(sqrt) && OnCircle(c, s) && !IsCloseToZero(ForwardLength(sqrt, head))
    ensures HeadYawRot(sqrt, RotZ(c, s).Mul(head)) == RotZ(c, s).Mul(HeadYawRot(sqrt, head))
  {
    hide ForwardLength, HeadYawRot, OnCircle;
    ForwardLengthInvariant(sqrt, c, s, head);
    YawIsRotZ(sqrt, head);
    YawIsRotZ(sqrt, RotZ(c, s).Mul(head));
    var n := ForwardLength(sqrt, head);
    RotZQuotients(c, s, head.m00, head.m10, n);
    RotZForward(c, s, head);
  }

  lemma RotZQuotients(c: real, s: real, x: real, y: real, n: real)
    requires n > 0.0
    ensures RotZ((c * x - s * y) / n, (s * x + c * y) / n) == RotZ(c, s).Mul(RotZ(x / n, y / n))
  {
    var p, q := x / n, y / n;
    assert x == p * n && y == q * n;
    assert c * x - s * y == (c * p - s * q) * n && s * x + c * y == (s * p + c * q) * n;
  }

  /** In the robot frame, a common vertical motion of head and arm does not change the wrist pose. */
  lemma ArmToHeadInvariant(sqrt: real -> real, c: real, s: real, t: Vec3, arm: Pose, head: Pose)
    requires IsSqrt(sqrt) && OnCircle(c, s) && !IsCloseToZero(ForwardLength(sqrt, head.rot))
    ensures var g := Pose(RotZ(c, s), t);
            ArmToHeadThenWaist(sqrt, g.Mul(arm), g.Mul(head), HeadYaw) == ArmToHeadThenWaist(sqrt, arm, head, HeadYaw)
  {
    hide HeadYawRot, Mat3.Mul, Mat3.Apply, Mat3.Transpose, Mat3.IsRotation, OnCircle, ForwardLength, RotZ;
    var r := RotZ(c, s);
    var yaw := HeadYawRot(sqrt, head.rot);
    YawEquivariant(sqrt, c, s, head.rot);
    RotZIsRotation(c, s);
    RotationInverse(r);
    TransposeMul(r, yaw);
    var yt, rt := yaw.Transpose(), r.Transpose();
    MulAssociative(yt, rt, r.Mul(arm.rot));
    MulAssociative(rt, r, arm.rot);
    MulIdentity(arm.rot);
    var offset := arm.pos.Minus(head.pos);
    ApplyPlus(r, arm.pos, head.pos);
    assert r.Apply(arm.pos).Plus(t).Minus(r.Apply(head.pos).Plus(t)) == r.Apply(offset);
    ApplyMul(yt, rt, r.Apply(offset));
    ApplyMul(rt, r, offset);
    ApplyIdentity(offset);
  }

  lemma SafeMatUpdateRigid(prev: Pose, mat: Pose)
    requires mat.IsRigid()
    ensures SafeMatUpdate(prev, mat) == (mat, true)
  {
    RotationFrame(mat.rot);
  }

  lemma PoseRigidMul(g: Pose, p: Pose)
    requires g.IsRigid() && p.IsRigid()
    ensures g.Mul(p).IsRigid()
  {
    hide Mat3.IsRotation;
    RotationMul(g.rot, p.rot);
  }

  /** Whether the head's forward axis is far enough from the vertical for a heading to exist. */
  ghost predicate HasHeading(sqrt: real -> real, head: Pose) {
    !IsCloseToZero(ForwardLength(sqrt, ChangeBasis(head).rot))
  }

  /** On rigid poses no fallback is taken. */
  lemma WristPoseRigid(sqrt: real -> real, mode: ArmReferenceMode, head: Pose, arm: Pose, fallback: Pose, toUnitree: Pose)
    requires head.IsRigid() && arm.IsRigid()
    ensures WristPose(sqrt, mode, head, arm, fallback, toUnitree)
         == ArmToHeadThenWaist(sqrt, ChangeBasis(arm).Mul(toUnitree), ChangeBasis(head), mode)
  {
    hide Pose.IsRigid, SafeMatUpdate, ArmToHeadThenWaist, ChangeBasis, Pose.Mul;
    SafeMatUpdateRigid(CONST_HEAD_POSE, head);
    SafeMatUpdateRigid(fallback, arm);
  }

  /** A world motion in the OpenXR frame is a world motion in the robot frame. */
  lemma WristPoseMoved(sqrt: real -> real, g: Pose, head: Pose, arm: Pose, fallback: Pose, toUnitree: Pose)
    requires g.IsRigid() && head.IsRigid() && arm.IsRigid()
    ensures WristPose(sqrt, HeadYaw, g.Mul(head), g.Mul(arm), fallback, toUnitree)
         == ArmToHeadThenWaist(sqrt, ChangeBasis(g).Mul(ChangeBasis(arm).Mul(toUnitree)), ChangeBasis(g).Mul(ChangeBasis(head)), HeadYaw)
  {
    hide Pose.IsRigid, WristPose, ArmToHeadThenWaist, ChangeBasis, Pose.Mul;
    PoseRigidMul(g, head);
    PoseRigidMul(g, arm);
    WristPoseRigid(sqrt, HeadYaw, g.Mul(head), g.Mul(arm), fallback, toUnitree);
    ChangeBasisMul(g, head);
    ChangeBasisMul(g, arm);
    PoseMulAssociative(ChangeBasis(g), ChangeBasis(arm), toUnitree);
  }

  lemma VerticalMotionRigid(c: real, s: real, t: Vec3)
    requires OnCircle(c, s)
    ensures VerticalMotion(c, s, t).IsRigid()
  {
    RotZIsRotation(c, s);
  }

  lemma WristPoseVertical(sqrt: real -> real, c: real, s: real, t: Vec3, head: Pose, arm: Pose, fallback: Pose, toUnitree: Pose)
    requires OnCircle(c, s) && head.IsRigid() && arm.IsRigid()
    ensures WristPose(sqrt, HeadYaw, VerticalMotion(c, s, t).Mul(head), VerticalMotion(c, s, t).Mul(arm), fallback, toUnitree)
         == ArmToHeadThenWaist(sqrt, Pose(RotZ(c, s), Vec3(-t.z, -t.x, t.y)).Mul(ChangeBasis(arm).Mul(toUnitree)),
                               Pose(RotZ(c, s), Vec3(-t.z, -t.x, t.y)).Mul(ChangeBasis(head)), HeadYaw)
  {
    hide *;
    VerticalMotionRigid(c, s, t);
    WristPoseMoved(sqrt, VerticalMotion(c, s, t), head, arm, fallback, toUnitree);
    VerticalMotionBasis(c, s, t);
  }

  /** If the head has a heading, any common rotation about the vertical and any translation of the
      OpenXR world leave the wrist pose given to IK unchanged. */
  lemma WristPoseInvariant(sqrt: real -> real, c: real, s: real, t: Vec3, head: Pose, arm: Pose, fallback: Pose, toUnitree: Pose)
    requires IsSqrt(sqrt) && OnCircle(c, s) && head.IsRigid() && arm.IsRigid() && HasHeading(sqrt, head)
    ensures WristPose(sqrt, HeadYaw, VerticalMotion(c, s, t).Mul(head), VerticalMotion(c, s, t).Mul(arm), fallback, toUnitree)
         == WristPose(sqrt, HeadYaw, head, arm, fallback, toUnitree)
  {
    hide Pose.IsRigid, WristPose, ArmToHeadThenWaist, ChangeBasis, Pose.Mul, VerticalMotion, RotZ, OnCircle, ForwardLength,
         IsCloseToZero, IsSqrt;
    WristPoseRigid(sqrt, HeadYaw, head, arm, fallback, toUnitree);
    WristPoseVertical(sqrt, c, s, t, head, arm, fallback, toUnitree);
    ArmToHeadInvariant(sqrt, c, s, Vec3(-t.z, -t.x, t.y), ChangeBasis(arm).Mul(toUnitree), ChangeBasis(head));
  }

  lemma HalfTurn(m: Mat3)
    requires m.IsRotation()
    ensures RotZ(-1.0, 0.0).Mul(m) != m
  {
    RotationRows(m);
    RotZForward(-1.0, 0.0, m);
    assert RotZ(-1.0, 0.0).Mul(m).m01 == -m.m01 && RotZ(-1.0, 0.0).Mul(m).m02 == -m.m02;
    assert RotZ(-1.0, 0.0).Mul(m).m00 == -m.m00;
    assert m.Row0().Dot(m.Row0()) == 1.0;
  }

  lemma WithoutHeading(sqrt: real -> real, arm: Pose, head: Pose)
    requires IsCloseToZero(ForwardLength(sqrt, head.rot))
    ensures ArmToHeadThenWaist(sqrt, arm, head, HeadYaw).rot == arm.rot
  {
    hide Mat3.Mul;
    MulIdentity(arm.rot);
    assert IDENTITY.Transpose() == IDENTITY;
  }

  lemma ArmToHeadTurns(sqrt: real -> real, t: Vec3, arm: Pose, head: Pose)
    requires arm.IsRigid() && IsCloseToZero(ForwardLength(sqrt, head.rot))
    ensures var g := Pose(RotZ(-1.0, 0.0), t);
            ArmToHeadThenWaist(sqrt, g.Mul(arm), g.Mul(head), HeadYaw) != ArmToHeadThenWaist(sqrt, arm, head, HeadYaw)
  {
    assert OnCircle(-1.0, 0.0);
    hide ArmToHeadThenWaist, RotZ, Mat3.Mul, Mat3.Apply, Mat3.IsRotation, ForwardLength, OnCircle;
    var g := Pose(RotZ(-1.0, 0.0), t);
    ForwardLengthInvariant(sqrt, -1.0, 0.0, head.rot);
    WithoutHeading(sqrt, arm, head);
    WithoutHeading(sqrt, g.Mul(arm), g.Mul(head));
    HalfTurn(arm.rot);
  }

  /** Without a heading, turning the world by half a turn changes the wrist pose. */
  lemma WristPoseTurns(sqrt: real -> real, head: Pose, arm: Pose, fallback: Pose, toUnitree: Pose)
    requires head.IsRigid() && arm.IsRigid() && toUnitree.IsRigid() && !HasHeading(sqrt, head)
    ensures WristPose(sqrt, HeadYaw, VerticalMotion(-1.0, 0.0, ORIGIN).Mul(head),
                      VerticalMotion(-1.0, 0.0, ORIGIN).Mul(arm), fallback, toUnitree)
         != WristPose(sqrt, HeadYaw, head, arm, fallback, toUnitree)
  {
    hide Pose.IsRigid, WristPose, ArmToHeadThenWaist, ChangeBasis, Pose.Mul, VerticalMotion, RotZ, OnCircle, ForwardLength,
         IsCloseToZero, IsSqrt;
    HalfTurnOnCircle();
    WristPoseRigid(sqrt, HeadYaw, head, arm, fallback, toUnitree);
    WristPoseVertical(sqrt, -1.0, 0.0, ORIGIN, head, arm, fallback, toUnitree);
    RobotArmRigid(arm, toUnitree);
    ArmToHeadTurns(sqrt, Vec3(-ORIGIN.z, -ORIGIN.x, ORIGIN.y), ChangeBasis(arm).Mul(toUnitree), ChangeBasis(head));
  }

  lemma HalfTurnOnCircle()
    ensures OnCircle(-1.0, 0.0)
  {
  }

  lemma RobotArmRigid(arm: Pose, toUnitree: Pose)
    requires arm.IsRigid() && toUnitree.IsRigid()
    ensures ChangeBasis(arm).Mul(toUnitree).IsRigid()
  {
    hide *;
    ChangeBasisRigid(arm);
    PoseRigidMul(ChangeBasis(arm), toUnitree);
  }

  /** The wrist pose is independent of the orientation and position of the world exactly when the
      head has a heading. */
  lemma WristPoseInvariantIff(sqrt: real -> real, head: Pose, arm: Pose, fallback: Pose, toUnitree: Pose)
    requires IsSqrt(sqrt) && head.IsRigid() && arm.IsRigid() && toUnitree.IsRigid()
    ensures HasHeading(sqrt, head) <==>
            forall c: real, s: real, t: Vec3 | OnCircle(c, s) ::
              WristPose(sqrt, HeadYaw, VerticalMotion(c, s, t).Mul(head), VerticalMotion(c, s, t).Mul(arm), fallback, toUnitree) ==
              WristPose(sqrt, HeadYaw, head, arm, fallback, toUnitree)
  {
    assert OnCircle(-1.0, 0.0);
    hide HasHeading, WristPose, Pose.IsRigid, VerticalMotion, OnCircle;
    if HasHeading(sqrt, head) {
      forall c: real, s: real, t: Vec3 | OnCircle(c, s)
        ensures WristPose(sqrt, HeadYaw, VerticalMotion(c, s, t).Mul(head), VerticalMotion(c, s, t).Mul(arm), fallback, toUnitree)
             == WristPose(sqrt, HeadYaw, head, arm, fallback, toUnitree)
      {
        WristPoseInvariant(sqrt, c, s, t, head, arm, fallback, toUnitree);
      }
    } else {
      WristPoseTurns(sqrt, head, arm, fallback, toUnitree);
    }
  }

  /** Moving the whole OpenXR world. */
  function Moved(g: Pose, raw: Raw): Raw {
    Raw(g.Mul(raw.head), g.Mul(raw.leftArm), g.Mul(raw.rightArm),
        seq(|raw.leftHand|, i requires 0 <= i < |raw.leftHand| => g.Apply(raw.leftHand[i])),
        seq(|raw.rightHand|, i requires 0 <= i < |raw.rightHand| => g.Apply(raw.rightHand[i])))
  }

  /** All hand landmarks are unchanged by every rigid motion of the world, whatever the head does. */
  lemma HandsInvariant(sqrt: real -> real, mode: ArmReferenceMode, g: Pose, raw: Raw)
    requires g.IsRigid() && raw.leftArm.IsRigid() && raw.rightArm.IsRigid()
    ensures GetTeleData(sqrt, mode, Moved(g, raw)).leftHandPos == GetTeleData(sqrt, mode, raw).leftHandPos
    ensures GetTeleData(sqrt, mode, Moved(g, raw)).rightHandPos == GetTeleData(sqrt, mode, raw).rightHandPos
  {
    hide HandPoint, Pose.IsRigid, Pose.Mul, Pose.Apply, SafeMatUpdate, WristPose, ChangeBasis;
    PoseRigidMul(g, raw.leftArm);
    PoseRigidMul(g, raw.rightArm);
    SafeMatUpdateRigid(CONST_LEFT_ARM_POSE, raw.leftArm);
    SafeMatUpdateRigid(CONST_LEFT_ARM_POSE, g.Mul(raw.leftArm));
    SafeMatUpdateRigid(CONST_RIGHT_ARM_POSE, raw.rightArm);
    SafeMatUpdateRigid(CONST_RIGHT_ARM_POSE, g.Mul(raw.rightArm));
    forall v ensures HandPoint(g.Mul(raw.leftArm), g.Apply(v)) == HandPoint(raw.leftArm, v) {
      HandPointInvariant(g, raw.leftArm, v);
    }
    forall v ensures HandPoint(g.Mul(raw.rightArm), g.Apply(v)) == HandPoint(raw.rightArm, v) {
      HandPointInvariant(g, raw.rightArm, v);
    }
  }
}
