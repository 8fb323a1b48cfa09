/** The slice assignments of `fast_mat_inv` and of the head-to-waist transform (dexfull/xr/tv_wrapper.py) on
    4x4 arrays, against the functions on poses. */
module TeleArrays {
  import opened Arithmetic
  import opened LinearAlgebra
  import opened TeleWrapper

  predicate Is4x4(a: array2<real>) { a.Length0 == 4 && a.Length1 == 4 }

  /** The pose in a homogeneous matrix. */
  function PoseAt(a: array2<real>): Pose
    requires Is4x4(a)
    reads a
  {
    Pose(Mat3(a[0, 0], a[0, 1], a[0, 2], a[1, 0], a[1, 1], a[1, 2], a[2, 0], a[2, 1], a[2, 2]), Vec3(a[0, 3], a[1, 3], a[2, 3]))
  }

  predicate IsHomogeneous(a: array2<real>)
    reads a
  {
    Is4x4(a) && a[3, 0] == a[3, 1] == a[3, 2] == 0.0 && a[3, 3] == 1.0
  }

  method Copy(a: array2<real>) returns (b: array2<real>)
    requires Is4x4(a)
    ensures fresh(b) && Is4x4(b) && PoseAt(b) == PoseAt(a) && (IsHomogeneous(a) ==> IsHomogeneous(b))
  {
    b := new real[4, 4]((i, j) requires 0 <= i < 4 && 0 <= j < 4 reads a => a[i, j]);
  }

  /** `a[:3, :3] = m`. */
  method SetRotation(a: array2<real>, m: Mat3)
    requires Is4x4(a)
    modifies a
    ensures PoseAt(a) == old(PoseAt(a)).(rot := m) && forall j :: 0 <= j < 4 ==> a[3, j] == old(a[3, j])
  {
    a[0, 0], a[0, 1], a[0, 2] := m.m00, m.m01, m.m02;
    a[1, 0], a[1, 1], a[1, 2] := m.m10, m.m11, m.m12;
    a[2, 0], a[2, 1], a[2, 2] := m.m20, m.m21, m.m22;
  }

  /** `a[:3, 3] = v`. */
  method SetPosition(a: array2<real>, v: Vec3)
    requires Is4x4(a)
    modifies a
    ensures PoseAt(a) == old(PoseAt(a)).(pos := v) && forall j :: 0 <= j < 4 ==> a[3, j] == old(a[3, j])
  {
    a[0, 3], a[1, 3], a[2, 3] := v.x, v.y, v.z;
  }

  /** `fast_mat_inv`: an identity matrix, then the transposed rotation, then the position column. */
  method FastMatInverse(mat: array2<real>) returns (ret: array2<real>)
    requires IsHomogeneous(mat)
    ensures fresh(ret) && IsHomogeneous(ret) && PoseAt(ret) == FastMatInv(PoseAt(mat))
  {
    hide Mat3.Apply, Mat3.Transpose;
    var m := PoseAt(mat);
    ret := new real[4, 4]((i, j) => if i == j then 1.0 else 0.0);
    SetRotation(ret, m.rot.Transpose());
    var v := m.rot.Transpose().Apply(m.pos);
    SetPosition(ret, Vec3(-v.x, -v.y, -v.z));
  }

  /** `transform_IPunitree_Brobot_world_arm_to_head_then_waist`: neither argument is changed. */
  method TransformArm(sqrt: real -> real, arm: array2<real>, head: array2<real>, mode: ArmReferenceMode) returns (waist: array2<real>)
    requires IsHomogeneous(arm) && IsHomogeneous(head)
    ensures fresh(waist) && IsHomogeneous(waist)
    ensures PoseAt(waist) == ArmToHeadThenWaist(sqrt, PoseAt(arm), PoseAt(head), mode)
  {
    hide HeadYawRot, Mat3.Mul, Mat3.Apply, Mat3.Transpose, Vec3.Minus;
    var world, origin := PoseAt(arm), PoseAt(head);
    var inHead := Copy(arm);
    if mode == HeadYaw {
      var yaw := HeadYawRot(sqrt, origin.rot);
      SetRotation(inHead, yaw.Transpose().Mul(world.rot));
      SetPosition(inHead, yaw.Transpose().Apply(world.pos.Minus(origin.pos)));
    } else {
      SetPosition(inHead, world.pos.Minus(origin.pos));
    }
    waist := Copy(inHead);
    waist[0, 3] := waist[0, 3] + 0.15;
    waist[2, 3] := waist[2, 3] + 0.45;
  }
}
