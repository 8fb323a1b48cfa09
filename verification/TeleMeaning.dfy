/** What the teleoperation data of one frame mean (dexfull/xr/tv_wrapper.py), in terms of the operator: which
    way head and wrists point, how far the wrists are ahead, left and up, and where the hand landmarks are.
    OpenXR: x right, y up, z back; the operator looks and reaches along -z.  Robot: x front, y left, z up. */
module TeleMeaning {
  import opened Arithmetic
  import opened LinearAlgebra
  import opened TeleWrapper

  const FORWARD := Vec3(0.0, 0.0, -1.0)

  /** Components of an OpenXR vector along the horizontal direction `ahead`, to its left, and up. */
  function Seen(ahead: Vec3, v: Vec3): Vec3 { Vec3(ahead.x * v.x + ahead.z * v.z, ahead.z * v.x - ahead.x * v.z, v.y) }

  function Opposite(v: Vec3): Vec3 { Vec3(-v.x, -v.y, -v.z) }

  /** The direction that counts as ahead: where the head looks, projected on the floor with length `n` before it
      is normalised, or that of the world. */
  predicate LooksAlong(mode: ArmReferenceMode, head: Mat3, ahead: Vec3, n: real) {
    match mode
    case HeadPosition => ahead == FORWARD
    case HeadYaw => n > TOLERANCE && n * n == head.m02 * head.m02 + head.m22 * head.m22 && ahead == Vec3(-head.m02 / n, 0.0, -head.m22 / n)
  }

  predicate Regular(m: Mat3) { m.Det() < -TOLERANCE || TOLERANCE < m.Det() }

  // ------------------------------------------------------------------------------------------
  // Wrists.

  lemma LengthIs(sqrt: real -> real, a: real, b: real, n: real)
    requires IsSqrt(sqrt) && n > 0.0 && n * n == a * a + b * b
    ensures sqrt(Dot3(a, b, 0.0, a, b, 0.0)) == n
  {
    assert Dot3(a, b, 0.0, a, b, 0.0) == n * n;
    SquareNonNegative(n);
    var r := sqrt(n * n);
    assert Prod(r, r) == Prod(n, n);
    SameSquare(r, n);
  }

  /** The heading in the robot's basis. */
  lemma HeadingOf(sqrt: real -> real, head: Pose, ahead: Vec3, n: real)
    requires IsSqrt(sqrt) && LooksAlong(HeadYaw, head.rot, ahead, n)
    ensures HeadYawRot(sqrt, ChangeBasis(head).rot) == RotZ(-ahead.z, -ahead.x)
  {
    ChangeBasisEntries(head);
    hide ChangeBasis, HeadYawRot, IsSqrt, Dot3;
    var b := ChangeBasis(head).rot;
    assert n * n == b.m00 * b.m00 + b.m10 * b.m10;
    LengthIs(sqrt, b.m00, b.m10, n);
    YawIsRotZ(sqrt, b);
    Quotients(head.rot.m02, head.rot.m22, n);
  }

  lemma Quotients(a: real, b: real, n: real)
    requires n > 0.0
    ensures -(-a / n) == a / n && -(-b / n) == b / n
  {
  }

  /** Turning back by the heading gives the components along and across it. */
  lemma TurnedBackIsSeen(ahead: Vec3, v: Vec3)
    requires ahead.y == 0.0
    ensures RotZ(-ahead.z, -ahead.x).Transpose().Apply(Vec3(-v.z, -v.x, v.y)) == Seen(ahead, v)
  {
  }

  lemma ForwardSeen(v: Vec3)
    ensures Seen(FORWARD, v) == Vec3(-v.z, -v.x, v.y)
  {
  }

  /** The axes of a frame as seen along `ahead`: front, left, up. */
  function SeenAxes(ahead: Vec3, m: Mat3): Mat3 {
    FromColumns(Seen(ahead, Opposite(m.Col2())), Seen(ahead, Opposite(m.Col0())), Seen(ahead, m.Col1()))
  }

  /** The arm in the robot's basis, by columns. */
  lemma BasisColumns(arm: Pose)
    ensures var b := ChangeBasis(arm);
         && b == Pose(FromColumns(b.rot.Col0(), b.rot.Col1(), b.rot.Col2()), b.pos)
         && b.rot.Col0() == InRobot(Opposite(arm.rot.Col2())) && b.rot.Col1() == InRobot(Opposite(arm.rot.Col0()))
         && b.rot.Col2() == InRobot(arm.rot.Col1()) && b.pos == InRobot(arm.pos)
  {
    ChangeBasisEntries(arm);
    hide ChangeBasis;
  }

  function InRobot(v: Vec3): Vec3 { Vec3(-v.z, -v.x, v.y) }

  /** What the head-to-waist transform makes of an arm in the robot's basis. */
  lemma WaistOf(sqrt: real -> real, mode: ArmReferenceMode, arm: Pose, head: Pose, ahead: Vec3, n: real)
    requires IsSqrt(sqrt) && LooksAlong(mode, head.rot, ahead, n)
    ensures var w := ArmToHeadThenWaist(sqrt, ChangeBasis(arm), ChangeBasis(head), mode);
         && w.pos == Seen(ahead, arm.pos.Minus(head.pos)).Plus(Vec3(0.15, 0.0, 0.45))
         && w.rot == SeenAxes(ahead, arm.rot)
  {
    BasisColumns(arm);
    BasisColumns(head);
    var d := arm.pos.Minus(head.pos);
    assert InRobot(arm.pos).Minus(InRobot(head.pos)) == InRobot(d);
    var front, left, up := Opposite(arm.rot.Col2()), Opposite(arm.rot.Col0()), arm.rot.Col1();
    if mode == HeadYaw {
      HeadingOf(sqrt, head, ahead, n);
      hide ChangeBasis, HeadYawRot, IsSqrt, Mat3.Apply, Mat3.Transpose, RotZ, Seen, Opposite;
      TurnedBackIsSeen(ahead, d);
      TurnedBackIsSeen(ahead, front);
      TurnedBackIsSeen(ahead, left);
      TurnedBackIsSeen(ahead, up);
    } else {
      hide ChangeBasis, HeadYawRot, IsSqrt, Seen, Opposite;
      ForwardSeen(d);
      ForwardSeen(front);
      ForwardSeen(left);
      ForwardSeen(up);
    }
  }

  /** A rotation in front of the transform stays in front: the initial-pose change acts in the wrist's own frame. */
  lemma WaistMul(sqrt: real -> real, mode: ArmReferenceMode, arm: Pose, head: Pose, change: Pose)
    requires change.pos == ORIGIN
    ensures var w := ArmToHeadThenWaist(sqrt, arm, head, mode);
            ArmToHeadThenWaist(sqrt, arm.Mul(change), head, mode) == Pose(w.rot.Mul(change.rot), w.pos)
  {
    ApplyZero(Pose(arm.rot, arm.pos), change.pos);
    hide HeadYawRot, Mat3.Apply, Mat3.Mul, Mat3.Transpose;
    MulAssociative(HeadYawRot(sqrt, head.rot).Transpose(), arm.rot, change.rot);
    assert arm.Mul(change).pos == arm.pos;
  }

  /** The wrist pose given to IK, for matrices that are not singular: how far the wrist is ahead of the head, to its
      left and above it, moved to the waist; and the wrist's own axes seen the same way. */
  lemma WristValue(sqrt: real -> real, mode: ArmReferenceMode, head: Pose, arm: Pose, fallback: Pose, toUnitree: Pose, ahead: Vec3, n: real)
    requires IsSqrt(sqrt) && Regular(head.rot) && Regular(arm.rot) && toUnitree.pos == ORIGIN && LooksAlong(mode, head.rot, ahead, n)
    ensures var w := WristPose(sqrt, mode, head, arm, fallback, toUnitree);
         && w.pos == Seen(ahead, arm.pos.Minus(head.pos)).Plus(Vec3(0.15, 0.0, 0.45))
         && w.rot == SeenAxes(ahead, arm.rot).Mul(toUnitree.rot)
  {
    hide ArmToHeadThenWaist, ChangeBasis, Pose.Mul, Mat3.Mul, Mat3.Det, Seen, SeenAxes, IsSqrt, LooksAlong;
    WaistOf(sqrt, mode, arm, head, ahead, n);
    WaistMul(sqrt, mode, ChangeBasis(arm), ChangeBasis(head), toUnitree);
  }

  /** Without a usable arm matrix the wrist is where and as the fallback says, without the initial-pose change. */
  lemma WristFallback(sqrt: real -> real, mode: ArmReferenceMode, head: Pose, arm: Pose, fallback: Pose, toUnitree: Pose, ahead: Vec3, n: real)
    requires IsSqrt(sqrt) && Regular(head.rot) && !Regular(arm.rot) && LooksAlong(mode, head.rot, ahead, n)
    ensures var w := WristPose(sqrt, mode, head, arm, fallback, toUnitree);
         && w.pos == Seen(ahead, fallback.pos.Minus(head.pos)).Plus(Vec3(0.15, 0.0, 0.45))
         && w.rot == SeenAxes(ahead, fallback.rot)
  {
    hide ArmToHeadThenWaist, ChangeBasis, Pose.Mul, Mat3.Mul, Mat3.Det, Seen, SeenAxes, IsSqrt, LooksAlong;
    WaistOf(sqrt, mode, fallback, head, ahead, n);
    WaistMul(sqrt, mode, ChangeBasis(fallback), ChangeBasis(head), T_IDENTITY);
    MulIdentity(SeenAxes(ahead, fallback.rot));
  }

  lemma SeenOpposite(ahead: Vec3, v: Vec3)
    ensures Seen(ahead, Opposite(v)) == Opposite(Seen(ahead, v))
  {
  }

  lemma LeftChange(m: Mat3)
    ensures m.Mul(T_TO_UNITREE_HUMANOID_LEFT_ARM.rot) == FromColumns(m.Col0(), m.Col2(), Opposite(m.Col1()))
    ensures m.Mul(T_TO_UNITREE_HUMANOID_RIGHT_ARM.rot) == FromColumns(m.Col0(), Opposite(m.Col2()), m.Col1())
  {
  }

  /** The axes IK receives with hand tracking.  x: from the wrist to the fingers.  y: left, out of the back of the
      hand; right, out of the palm.  z: towards the index finger. */
  lemma WristAxes(sqrt: real -> real, mode: ArmReferenceMode, raw: Raw, ahead: Vec3, n: real)
    requires IsSqrt(sqrt) && Regular(raw.head.rot) && Regular(raw.leftArm.rot) && Regular(raw.rightArm.rot)
    requires LooksAlong(mode, raw.head.rot, ahead, n)
    ensures var left, right := GetTeleData(sqrt, mode, raw).leftWrist, GetTeleData(sqrt, mode, raw).rightWrist;
            var l, r := raw.leftArm.rot, raw.rightArm.rot;
         && left.pos == Seen(ahead, raw.leftArm.pos.Minus(raw.head.pos)).Plus(Vec3(0.15, 0.0, 0.45))
         && right.pos == Seen(ahead, raw.rightArm.pos.Minus(raw.head.pos)).Plus(Vec3(0.15, 0.0, 0.45))
         && left.rot == FromColumns(Seen(ahead, Opposite(l.Col2())), Seen(ahead, l.Col1()), Seen(ahead, l.Col0()))
         && right.rot == FromColumns(Seen(ahead, Opposite(r.Col2())), Seen(ahead, Opposite(r.Col1())), Seen(ahead, Opposite(r.Col0())))
  {
    var l, r := raw.leftArm.rot, raw.rightArm.rot;
    LeftChange(SeenAxes(ahead, l));
    LeftChange(SeenAxes(ahead, r));
    SeenOpposite(ahead, l.Col0());
    SeenOpposite(ahead, r.Col1());
    assert Opposite(Opposite(Seen(ahead, l.Col0()))) == Seen(ahead, l.Col0());
    hide WristPose, HandPoint, ChangeBasis, SafeMatUpdate, Mat3.Mul, Seen, Opposite, Regular, LooksAlong, IsSqrt;
    WristValue(sqrt, mode, raw.head, raw.leftArm, CONST_LEFT_ARM_POSE, T_TO_UNITREE_HUMANOID_LEFT_ARM, ahead, n);
    WristValue(sqrt, mode, raw.head, raw.rightArm, CONST_RIGHT_ARM_POSE, T_TO_UNITREE_HUMANOID_RIGHT_ARM, ahead, n);
  }

  /** The OpenXR displacement of `forward` metres along `ahead`, `left` to its left and `up`. */
  function Reach(ahead: Vec3, forward: real, left: real, up: real): Vec3 {
    Vec3(forward * ahead.x + left * ahead.z, up, forward * ahead.z - left * ahead.x)
  }

  /** A wrist `forward` ahead of the head, `left` to its left and `up` above it arrives there, as seen from the waist. */
  lemma ForwardWrist(sqrt: real -> real, mode: ArmReferenceMode, head: Pose, arm: Pose, fallback: Pose, toUnitree: Pose,
                     ahead: Vec3, n: real, forward: real, left: real, up: real)
    requires IsSqrt(sqrt) && Regular(head.rot) && Regular(arm.rot) && toUnitree.pos == ORIGIN
    requires LooksAlong(mode, head.rot, ahead, n) && arm.pos == head.pos.Plus(Reach(ahead, forward, left, up))
    ensures WristPose(sqrt, mode, head, arm, fallback, toUnitree).pos == Vec3(forward + 0.15, left, up + 0.45)
  {
    AheadOnCircle(mode, head.rot, ahead, n);
    hide WristPose, IsSqrt, OnCircle, Seen, Regular, LooksAlong, Reach;
    PlusMinusBack(head.pos, Reach(ahead, forward, left, up));
    SeenBack(ahead, forward, left, up);
    WristValue(sqrt, mode, head, arm, fallback, toUnitree, ahead, n);
  }

  lemma PlusMinusBack(p: Vec3, d: Vec3)
    ensures p.Plus(d).Minus(p) == d
  {
  }

  lemma AheadOnCircle(mode: ArmReferenceMode, head: Mat3, ahead: Vec3, n: real)
    requires LooksAlong(mode, head, ahead, n)
    ensures OnCircle(ahead.x, ahead.z)
  {
    if mode == HeadYaw {
      assert n * n == (-head.m02) * (-head.m02) + (-head.m22) * (-head.m22);
      QuotientsOnCircle(-head.m02, -head.m22, n);
    }
  }

  lemma SeenBack(ahead: Vec3, forward: real, left: real, up: real)
    requires OnCircle(ahead.x, ahead.z)
    ensures Seen(ahead, Reach(ahead, forward, left, up)) == Vec3(forward, left, up)
  {
    var x, z := ahead.x, ahead.z;
    assert x * (forward * x + left * z) + z * (forward * z - left * x) == forward * (x * x + z * z);
    assert z * (forward * x + left * z) - x * (forward * z - left * x) == left * (x * x + z * z);
  }

  /** In `head_position` mode no translation of the world changes the wrist pose, whatever the matrices. */
  lemma TranslationInvariant(sqrt: real -> real, raw: Raw, t: Vec3)
    requires Regular(raw.head.rot) && Regular(raw.leftArm.rot) && Regular(raw.rightArm.rot)
    ensures var moved := raw.(head := raw.head.(pos := raw.head.pos.Plus(t)), leftArm := raw.leftArm.(pos := raw.leftArm.pos.Plus(t)),
                              rightArm := raw.rightArm.(pos := raw.rightArm.pos.Plus(t)));
         && GetTeleData(sqrt, HeadPosition, moved).leftWrist == GetTeleData(sqrt, HeadPosition, raw).leftWrist
         && GetTeleData(sqrt, HeadPosition, moved).rightWrist == GetTeleData(sqrt, HeadPosition, raw).rightWrist
  {
    hide WristPose, HandPoint, ChangeBasis, SafeMatUpdate, Regular;
    WristTranslated(sqrt, raw.head, raw.leftArm, CONST_LEFT_ARM_POSE, T_TO_UNITREE_HUMANOID_LEFT_ARM, t);
    WristTranslated(sqrt, raw.head, raw.rightArm, CONST_RIGHT_ARM_POSE, T_TO_UNITREE_HUMANOID_RIGHT_ARM, t);
  }

  lemma WristTranslated(sqrt: real -> real, head: Pose, arm: Pose, fallback: Pose, toUnitree: Pose, t: Vec3)
    requires Regular(head.rot) && Regular(arm.rot)
    ensures WristPose(sqrt, HeadPosition, head.(pos := head.pos.Plus(t)), arm.(pos := arm.pos.Plus(t)), fallback, toUnitree)
         == WristPose(sqrt, HeadPosition, head, arm, fallback, toUnitree)
  {
    BasisColumns(head);
    BasisColumns(arm);
    BasisColumns(head.(pos := head.pos.Plus(t)));
    BasisColumns(arm.(pos := arm.pos.Plus(t)));
    hide ChangeBasis, Mat3.Apply, Mat3.Mul, Mat3.Det;
  }

  // ------------------------------------------------------------------------------------------
  // Hand landmarks, the head, and unusable matrices.

  lemma ColumnsOfBasis(u: Vec3, d: Vec3)
    ensures InRobot(u).Dot(InRobot(d)) == u.Dot(d) && InRobot(Opposite(u)).Dot(InRobot(d)) == -u.Dot(d)
  {
  }

  lemma HandChange(v: Vec3)
    ensures T_TO_UNITREE_HAND.Apply(v) == Vec3(v.z, -v.x, -v.y)
  {
  }

  lemma RobotPoint(v: Vec3)
    ensures T_ROBOT_OPENXR.Apply(v) == InRobot(v)
  {
  }

  /** The inverse of a pose takes a point to its components along the columns, from the pose's position. */
  lemma InverseComponents(p: Pose, v: Vec3)
    ensures var d := v.Minus(p.pos); FastMatInv(p).Apply(v) == Vec3(p.rot.Col0().Dot(d), p.rot.Col1().Dot(d), p.rot.Col2().Dot(d))
  {
    ApplyPlus(p.rot.Transpose(), v, p.pos);
    hide Dot3;
  }

  /** A landmark reaches the hand retargeting as its distance from the wrist along the back of the hand, away from
      the fingers, and to the right of the wrist. */
  lemma LandmarkValue(arm: Pose, point: Vec3)
    ensures var d := point.Minus(arm.pos); HandPoint(arm, point) == Vec3(arm.rot.Col1().Dot(d), arm.rot.Col2().Dot(d), arm.rot.Col0().Dot(d))
  {
    var d, b := point.Minus(arm.pos), ChangeBasis(arm);
    BasisColumns(arm);
    RobotPoint(point);
    hide ChangeBasis, Dot3, FastMatInv, Mat3.Apply, Pose.Apply, Opposite, Vec3.Dot;
    InverseComponents(b, InRobot(point));
    assert InRobot(point).Minus(InRobot(arm.pos)) == InRobot(d);
    ColumnsOfBasis(arm.rot.Col0(), d);
    ColumnsOfBasis(arm.rot.Col1(), d);
    ColumnsOfBasis(arm.rot.Col2(), d);
    HandChange(FastMatInv(b).Apply(InRobot(point)));
  }

  /** All landmarks of both hands; zeros as soon as one of the two arm matrices is unusable. */
  lemma Landmarks(sqrt: real -> real, mode: ArmReferenceMode, raw: Raw, i: nat)
    ensures var t := GetTeleData(sqrt, mode, raw);
            if Regular(raw.leftArm.rot) && Regular(raw.rightArm.rot)
            then && |t.leftHandPos| == |raw.leftHand| && |t.rightHandPos| == |raw.rightHand|
                 && (i < |raw.leftHand| ==> t.leftHandPos[i] == Components(raw.leftArm, raw.leftHand[i]))
                 && (i < |raw.rightHand| ==> t.rightHandPos[i] == Components(raw.rightArm, raw.rightHand[i]))
            else |t.leftHandPos| == |t.rightHandPos| == 25 && (i < 25 ==> t.leftHandPos[i] == t.rightHandPos[i] == ORIGIN)
  {
    hide WristPose, HandPoint, ChangeBasis, Mat3.Det;
    if i < |raw.leftHand| {
      LandmarkValue(raw.leftArm, raw.leftHand[i]);
    }
    if i < |raw.rightHand| {
      LandmarkValue(raw.rightArm, raw.rightHand[i]);
    }
  }

  /** Along the back of the hand, away from the fingers, and to the right. */
  function Components(arm: Pose, point: Vec3): Vec3 {
    var d := point.Minus(arm.pos);
    Vec3(arm.rot.Col1().Dot(d), arm.rot.Col2().Dot(d), arm.rot.Col0().Dot(d))
  }

  /** The head pose sent on: where the head looks, its left and its top, in the robot's basis. */
  lemma HeadValue(sqrt: real -> real, mode: ArmReferenceMode, raw: Raw)
    requires Regular(raw.head.rot)
    ensures GetTeleData(sqrt, mode, raw).headPose == Pose(SeenAxes(FORWARD, raw.head.rot), Seen(FORWARD, raw.head.pos))
  {
    BasisColumns(raw.head);
    hide WristPose, HandPoint, ChangeBasis, Mat3.Det;
  }

  /** Without a usable head matrix a head upright 1.5 m above the floor and 0.2 m ahead is used for everything. */
  lemma HeadFallback(sqrt: real -> real, mode: ArmReferenceMode, raw: Raw)
    requires !Regular(raw.head.rot)
    ensures var t, u := GetTeleData(sqrt, mode, raw), GetTeleData(sqrt, mode, raw.(head := Pose(IDENTITY, Vec3(0.0, 1.5, -0.2))));
         && t.headPose == u.headPose == Pose(IDENTITY, Vec3(0.2, 0.0, 1.5))
         && t.leftWrist == u.leftWrist && t.rightWrist == u.rightWrist
  {
    hide GetTeleData, WristPose, ChangeBasis, SafeMatUpdate, SeenAxes, Regular, Mat3.Det;
    TeleParts(sqrt, mode, raw);
    TeleParts(sqrt, mode, raw.(head := CONST_HEAD_POSE));
    HeadUsed(raw.head);
    FallbackHead();
    WristOfFallbackHead(sqrt, mode, raw.head, raw.leftArm, CONST_LEFT_ARM_POSE, T_TO_UNITREE_HUMANOID_LEFT_ARM);
    WristOfFallbackHead(sqrt, mode, raw.head, raw.rightArm, CONST_RIGHT_ARM_POSE, T_TO_UNITREE_HUMANOID_RIGHT_ARM);
  }

  lemma FallbackHead()
    ensures ChangeBasis(CONST_HEAD_POSE) == Pose(IDENTITY, Vec3(0.2, 0.0, 1.5))
  {
    hide ChangeBasis;
    ChangeBasisEntries(CONST_HEAD_POSE);
  }

  lemma TeleParts(sqrt: real -> real, mode: ArmReferenceMode, raw: Raw)
    ensures var t := GetTeleData(sqrt, mode, raw);
         && t.headPose == ChangeBasis(SafeMatUpdate(CONST_HEAD_POSE, raw.head).0)
         && t.leftWrist == WristPose(sqrt, mode, raw.head, raw.leftArm, CONST_LEFT_ARM_POSE, T_TO_UNITREE_HUMANOID_LEFT_ARM)
         && t.rightWrist == WristPose(sqrt, mode, raw.head, raw.rightArm, CONST_RIGHT_ARM_POSE, T_TO_UNITREE_HUMANOID_RIGHT_ARM)
  {
    hide WristPose, HandPoint, ChangeBasis, SafeMatUpdate;
  }

  lemma HeadUsed(head: Pose)
    requires !Regular(head.rot)
    ensures SafeMatUpdate(CONST_HEAD_POSE, head).0 == CONST_HEAD_POSE == SafeMatUpdate(CONST_HEAD_POSE, CONST_HEAD_POSE).0
  {
    hide Mat3.Det;
  }

  lemma WristOfFallbackHead(sqrt: real -> real, mode: ArmReferenceMode, head: Pose, arm: Pose, fallback: Pose, toUnitree: Pose)
    requires !Regular(head.rot)
    ensures WristPose(sqrt, mode, head, arm, fallback, toUnitree) == WristPose(sqrt, mode, CONST_HEAD_POSE, arm, fallback, toUnitree)
  {
    HeadUsed(head);
    hide ArmToHeadThenWaist, ChangeBasis, SafeMatUpdate, Pose.Mul;
  }

  /** Without a usable arm matrix a wrist 1.13 m above the floor, 0.3 m ahead and 0.15 m to its side is used. */
  lemma ArmFallbacks(sqrt: real -> real, mode: ArmReferenceMode, raw: Raw, ahead: Vec3, n: real)
    requires IsSqrt(sqrt) && Regular(raw.head.rot) && LooksAlong(mode, raw.head.rot, ahead, n)
    ensures var t := GetTeleData(sqrt, mode, raw);
         && (!Regular(raw.leftArm.rot) ==>
               t.leftWrist == Pose(SeenAxes(ahead, IDENTITY), Seen(ahead, Vec3(-0.15, 1.13, -0.3).Minus(raw.head.pos)).Plus(Vec3(0.15, 0.0, 0.45))))
         && (!Regular(raw.rightArm.rot) ==>
               t.rightWrist == Pose(SeenAxes(ahead, IDENTITY), Seen(ahead, Vec3(0.15, 1.13, -0.3).Minus(raw.head.pos)).Plus(Vec3(0.15, 0.0, 0.45))))
  {
    hide WristPose, HandPoint, ChangeBasis, Mat3.Det, Seen, SeenAxes, IsSqrt, LooksAlong;
    if !Regular(raw.leftArm.rot) {
      WristFallback(sqrt, mode, raw.head, raw.leftArm, CONST_LEFT_ARM_POSE, T_TO_UNITREE_HUMANOID_LEFT_ARM, ahead, n);
    }
    if !Regular(raw.rightArm.rot) {
      WristFallback(sqrt, mode, raw.head, raw.rightArm, CONST_RIGHT_ARM_POSE, T_TO_UNITREE_HUMANOID_RIGHT_ARM, ahead, n);
    }
  }
}
