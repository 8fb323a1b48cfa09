/** What the poses returned by `RootPoseTransformer` mean, in terms of the samples alone: which way the
    coordinates point, which height is approached, and what the quaternion sent to Unity stands for. */
module RootPoseMeaning {
  import opened Arithmetic
  import opened LinearAlgebra
  import opened Wrappers
  import opened RootPose
  import opened RootPoseRuns
  import opened RootPosePositions

  // ------------------------------------------------------------------------------------------
  // Horizontal coordinates.

  /** The horizontal coordinates returned for a displacement of `ahead` and `left` metres. */
  function Mapped(axes: AxisMapping, ahead: real, left: real): (real, real) {
    match axes
    case UnitreeToUnity => (-left, ahead)
    case RawAxes => (ahead, left)
  }

  lemma SameLength(sqrt: real -> real, a: real, b: real, n: real)
    requires IsSqrt(sqrt) && n > 0.0 && n * n == a * a + b * b
    ensures Direction(sqrt, a, b) == (b / n, a / n)
  {
    LengthSquared(sqrt, a, b);
    assert Prod(n, n) == Prod(a, a) + Prod(b, b);
    SameSquare(Length(sqrt, a, b), n);
  }

  lemma HeadingCircle(a: real, b: real, n: real)
    requires n > 0.0 && n * n == a * a + b * b
    ensures OnCircle(a / n, b / n)
  {
    QuotientsOnCircle(a, b, n);
  }

  /** The heading kept at the origin is the floor direction of the forward axis, of floor length `n`. */
  lemma OriginHeading(sqrt: real -> real, p: Vec3, q: Quat, n: real)
    requires IsSqrt(sqrt) && q.IsUnit()
    requires var m := q.ToMatrix(); n > 0.0 && n * n == m.m00 * m.m00 + m.m10 * m.m10
    ensures var m, o := q.ToMatrix(), OriginOf(sqrt, p, q);
         && o.cosYaw == m.m00 / n && o.sinYaw == m.m10 / n && OnCircle(o.cosYaw, o.sinYaw) && o.position == p
  {
    hide Quat.ToMatrix, Quat.IsUnit, YawSin, YawCos, IsSqrt, OnCircle, Direction;
    var m := q.ToMatrix();
    HeadingIsForwardAxis(q);
    SameLength(sqrt, m.m10, m.m00, n);
    HeadingCircle(m.m00, m.m10, n);
  }

  /** With `initial` heading: a sample `ahead` of the first one along the floor direction of its forward axis (the
      first column of its rotation, of floor length `n`), `left` to the left of that and `up` above it. */
  lemma AheadAndLeft(sqrt: real -> real, cfg: Config, run: seq<Sample>, f: nat, k: nat, n: real, ahead: real, left: real, up: real)
    requires IsSqrt(sqrt) && cfg.mode == UnityRelative && cfg.heading == InitialHeading
    requires FirstAccepted(sqrt, run, f) && f <= k < |run| && Accepted(sqrt, run[k])
    requires var m := Unit(sqrt, run[f]).ToMatrix(); n > 0.0 && n * n == m.m00 * m.m00 + m.m10 * m.m10
    requires var m := Unit(sqrt, run[f]).ToMatrix(); var c, s := m.m00 / n, m.m10 / n;
             run[k].position.value == run[f].position.value.Plus(Vec3(TurnX(c, s, ahead, left), TurnY(c, s, ahead, left), up))
    ensures var r := OutputAt(sqrt, cfg, run, k);
            r.Some? && (r.value.position.x, r.value.position.y) == Mapped(cfg.axes, ahead, left)
  {
    hide IsSqrt, Normalize, After, OutputAt, AnchoredAt, OriginOf, Mapped, Quat.ToMatrix, Quat.IsUnit, TurnX, TurnY, OnCircle;
    var p, q := run[f].position.value, Unit(sqrt, run[f]);
    PositionAt(sqrt, cfg, run, f, k);
    NormalizeUnit(sqrt, run[f].rotation.value);
    OriginHeading(sqrt, p, q, n);
    ForwardArrives(cfg, OriginOf(sqrt, p, q), After(sqrt, cfg, run[..k + 1]).filtered, ahead, left, up);
  }

  lemma ForwardArrives(cfg: Config, o: Origin, filtered: real, ahead: real, left: real, up: real)
    requires cfg.heading == InitialHeading && OnCircle(o.cosYaw, o.sinYaw)
    ensures var p := AnchoredAt(cfg, o, filtered, o.position.Plus(Vec3(TurnX(o.cosYaw, o.sinYaw, ahead, left), TurnY(o.cosYaw, o.sinYaw, ahead, left), up)));
            (p.x, p.y) == Mapped(cfg.axes, ahead, left)
  {
    ForwardIsForward(cfg, o, filtered, ahead, left, up);
    hide OnCircle, AnchoredAt, TurnX, TurnY;
  }

  /** With `odom_world` heading: ahead is along the x axis of the odometry frame. */
  lemma AlongOdometryAxes(sqrt: real -> real, cfg: Config, run: seq<Sample>, f: nat, k: nat)
    requires IsSqrt(sqrt) && cfg.mode == UnityRelative && cfg.heading == OdomWorld
    requires FirstAccepted(sqrt, run, f) && f <= k < |run| && Accepted(sqrt, run[k])
    ensures var r := OutputAt(sqrt, cfg, run, k); var p, d := run[k].position.value, run[f].position.value;
            r.Some? && (r.value.position.x, r.value.position.y) == Mapped(cfg.axes, p.x - d.x, p.y - d.y)
  {
    PositionAt(sqrt, cfg, run, f, k);
    hide After, OutputAt, Normalize, IsSqrt, Height, YawPair;
  }

  // ------------------------------------------------------------------------------------------
  // Heights.

  /** In `fixed` mode the height is the pelvis height, in `relative` mode it follows the odometry exactly. */
  lemma FixedAndRelative(sqrt: real -> real, cfg: Config, run: seq<Sample>, f: nat, k: nat)
    requires IsSqrt(sqrt) && cfg.mode == UnityRelative && cfg.vertical != Filtered
    requires FirstAccepted(sqrt, run, f) && f <= k < |run| && Accepted(sqrt, run[k])
    ensures var r := OutputAt(sqrt, cfg, run, k); var rise := run[k].position.value.z - run[f].position.value.z;
            r.Some? && r.value.position.z == match cfg.vertical { case Fixed => cfg.pelvisHeight case _ => cfg.pelvisHeight + rise }
  {
    PositionAt(sqrt, cfg, run, f, k);
    hide After, OutputAt, Normalize, IsSqrt, YawPair, HeadingPosition;
  }

  /** After the last accepted sample nothing changes. */
  lemma {:induction false} NothingAfterLast(sqrt: real -> real, cfg: Config, run: seq<Sample>, j: nat)
    requires IsSqrt(sqrt) && LastAccepted(sqrt, run, j)
    ensures After(sqrt, cfg, run) == After(sqrt, cfg, run[..j + 1])
  {
    hide Step, IsSqrt, Accepted, Anchored;
    var n := |run| - 1;
    if j == n {
      assert run[..j + 1] == run;
    } else {
      NothingAfterLast(sqrt, cfg, run[..n], j);
      assert run[..n][..j + 1] == run[..j + 1];
      RunAnchored(sqrt, cfg, run[..n]);
      StepAccepted(sqrt, cfg, After(sqrt, cfg, run[..n]), run[n]);
    }
  }

  /** In `filtered` mode the height returned last is the pelvis height plus the memory of the filter. */
  lemma LastHeight(sqrt: real -> real, cfg: Config, run: seq<Sample>, f: nat, j: nat)
    requires IsSqrt(sqrt) && cfg.mode == UnityRelative && cfg.vertical == Filtered
    requires FirstAccepted(sqrt, run, f) && LastAccepted(sqrt, run, j)
    ensures OutputAt(sqrt, cfg, run, j).Some?
    ensures OutputAt(sqrt, cfg, run, j).value.position.z == cfg.pelvisHeight + After(sqrt, cfg, run).filtered
  {
    PositionAt(sqrt, cfg, run, f, j);
    NothingAfterLast(sqrt, cfg, run, j);
    hide After, OutputAt, Normalize, IsSqrt, YawPair, HeadingPosition;
  }

  /** The heights returned before and after `tail`, whose filter target is `target` throughout. */
  lemma HeightShrinks(sqrt: real -> real, cfg: Config, run: seq<Sample>, tail: seq<Sample>, f: nat, j: nat, target: real)
    requires IsSqrt(sqrt) && cfg.mode == UnityRelative && cfg.vertical == Filtered
    requires FirstAccepted(sqrt, run, f) && LastAccepted(sqrt, run, j)
    requires tail != [] && Accepted(sqrt, tail[|tail| - 1])
    requires forall i :: 0 <= i < |tail| && Accepted(sqrt, tail[i]) ==>
               Target(cfg, tail[i].position.value.z - run[f].position.value.z) == target
    ensures Shrunk(sqrt, cfg, run, tail, j, cfg.pelvisHeight + target)
  {
    var all := run + tail;
    hide After, OutputAt, Normalize, IsSqrt, Target, Power;
    LastHeight(sqrt, cfg, run, f, j);
    assert FirstAccepted(sqrt, all, f) && LastAccepted(sqrt, all, |all| - 1);
    LastHeight(sqrt, cfg, all, f, |all| - 1);
    MemoryConverges(sqrt, cfg, run, tail, f, target);
  }

  /** Over `tail` the distance of the returned height to `goal` shrinks by `1 - alpha` per accepted sample. */
  ghost predicate Shrunk(sqrt: real -> real, cfg: Config, run: seq<Sample>, tail: seq<Sample>, j: nat, goal: real)
    requires j < |run| && tail != []
  {
    var all := run + tail;
    var before, now := OutputAt(sqrt, cfg, run, j), OutputAt(sqrt, cfg, all, |all| - 1);
    && before.Some? && now.Some?
    && now.value.position.z - goal == Power(1.0 - cfg.alpha, AcceptedCount(sqrt, tail)) * (before.value.position.z - goal)
  }

  /** After any run, while the rise over the first sample holds still outside the deadband, the returned height
      approaches the pelvis height plus that rise, without a permanent bias. */
  lemma FilterConverges(sqrt: real -> real, cfg: Config, run: seq<Sample>, tail: seq<Sample>, f: nat, j: nat, rise: real)
    requires IsSqrt(sqrt) && cfg.mode == UnityRelative && cfg.vertical == Filtered
    requires FirstAccepted(sqrt, run, f) && LastAccepted(sqrt, run, j)
    requires tail != [] && Accepted(sqrt, tail[|tail| - 1])
    requires rise < -cfg.deadband || cfg.deadband < rise
    requires forall i :: 0 <= i < |tail| && Accepted(sqrt, tail[i]) ==>
               tail[i].position.value.z - run[f].position.value.z == rise
    ensures Shrunk(sqrt, cfg, run, tail, j, cfg.pelvisHeight + rise)
  {
    hide Normalize, IsSqrt, Shrunk;
    HeightShrinks(sqrt, cfg, run, tail, f, j, rise);
  }

  /** After any run, while the rise jitters within the deadband, the returned height approaches the pelvis height. */
  lemma JitterSuppressed(sqrt: real -> real, cfg: Config, run: seq<Sample>, tail: seq<Sample>, f: nat, j: nat)
    requires IsSqrt(sqrt) && cfg.mode == UnityRelative && cfg.vertical == Filtered
    requires FirstAccepted(sqrt, run, f) && LastAccepted(sqrt, run, j)
    requires tail != [] && Accepted(sqrt, tail[|tail| - 1])
    requires forall i :: 0 <= i < |tail| && Accepted(sqrt, tail[i]) ==>
               -cfg.deadband <= tail[i].position.value.z - run[f].position.value.z <= cfg.deadband
    ensures Shrunk(sqrt, cfg, run, tail, j, cfg.pelvisHeight)
  {
    hide Normalize, IsSqrt, Shrunk;
    HeightShrinks(sqrt, cfg, run, tail, f, j, 0.0);
  }

  // ------------------------------------------------------------------------------------------
  // Rotations, and `absolute` mode.

  /** Swapping the two horizontal axes. */
  function Swap(v: Vec3): Vec3 { Vec3(v.y, v.x, v.z) }

  lemma TransportEntries(w: real, x: real, y: real, z: real)
    ensures Diag(w, -y, -x, -z) == Diag(w, y, x, z) && Diag(w, -x, -y, -z) == Diag(w, x, y, z) && Diag(w, -z, -y, -x) == Diag(w, z, x, y)
    ensures TwiceDiff(-y, -x, w, -z) == TwiceSum(x, y, w, z) && TwiceSum(-y, -x, w, -z) == TwiceDiff(x, y, w, z)
    ensures TwiceSum(-y, -z, w, -x) == TwiceDiff(y, z, w, x) && TwiceDiff(-y, -z, w, -x) == TwiceSum(y, z, w, x)
    ensures TwiceDiff(-x, -z, w, -y) == TwiceSum(x, z, w, y) && TwiceSum(-x, -z, w, -y) == TwiceDiff(x, z, w, y)
  {
  }

  lemma Dot3Swap(a: real, b: real, c: real, d: real, e: real, f: real)
    ensures Dot3(a, b, c, d, e, f) == Dot3(b, a, c, e, d, f)
  {
  }

  /** The quaternion sent to Unity stands for the same rotation with the horizontal axes swapped, which its
      left-right conversion swaps back. */
  lemma TransportSwapsAxes(q: Quat, v: Vec3)
    ensures ToUnityTransport(q).ToMatrix().Apply(v) == Swap(q.ToMatrix().Apply(Swap(v)))
    ensures ToUnityTransport(q).w == q.w
  {
    TransportEntries(q.w, q.x, q.y, q.z);
    hide Dot3, Diag, TwiceSum, TwiceDiff;
    var m := q.ToMatrix();
    Dot3Swap(m.m11, m.m10, m.m12, v.x, v.y, v.z);
    Dot3Swap(m.m01, m.m00, m.m02, v.x, v.y, v.z);
    Dot3Swap(m.m21, m.m20, m.m22, v.x, v.y, v.z);
  }

  lemma StepSign(sqrt: real -> real, cfg: Config, s: State, sample: Sample)
    requires IsSqrt(sqrt) && Anchored(s) && Accepted(sqrt, sample)
    ensures var (s', r) := Step(sqrt, cfg, s, sample); var q := Unit(sqrt, sample);
            var expected := RootPoseRuns.Relative(cfg, if s.origin.Some? then s.origin.value.rotation else q, q);
            r.Some? && r.value.rotation == (if s.last.Some? && expected.Dot(s.last.value) < 0.0 then expected.Neg() else expected)
  {
    hide YawPair, HeadingPosition, Height, FilterStep, Norm4, MulW, MulX, MulY, MulZ, IsSqrt, Quat.Dot, Normalize;
    var q := Unit(sqrt, sample);
    NormalizeUnit(sqrt, sample.rotation.value);
    var o := if s.origin.Some? then s.origin.value.rotation else q;
    ConjUnit(o);
    UnitMul(q, o.Conj());
    NormalizeUnit(sqrt, q.Mul(o.Conj()));
  }

  /** The sign of a rotation is changed only when it would point away from the one returned before, `j` being the last
      accepted sample before `k`. */
  lemma SignOnlyWhenNeeded(sqrt: real -> real, cfg: Config, run: seq<Sample>, f: nat, j: nat, k: nat)
    requires IsSqrt(sqrt) && cfg.mode == UnityRelative && FirstAccepted(sqrt, run, f) && f <= j < k < |run|
    requires Accepted(sqrt, run[j]) && Accepted(sqrt, run[k]) && forall i :: j < i < k ==> !Accepted(sqrt, run[i])
    ensures var p, r := OutputAt(sqrt, cfg, run, j), OutputAt(sqrt, cfg, run, k);
            var expected := RootPoseRuns.Relative(cfg, Unit(sqrt, run[f]), Unit(sqrt, run[k]));
         && p.Some? && r.Some?
         && r.value.rotation == (if expected.Dot(p.value.rotation) < 0.0 then expected.Neg() else expected)
  {
    hide Step, IsSqrt, Normalize, Anchored, Quat.Dot, Quat.Neg, RootPoseRuns.Relative, OriginOf;
    RunAnchored(sqrt, cfg, run[..k]);
    RunOrigin(sqrt, cfg, run[..k], f);
    RunLast(sqrt, cfg, run[..k], j);
    assert run[..k][..j] == run[..j];
    OriginRotation(sqrt, run[f].position.value, Unit(sqrt, run[f]));
    StepSign(sqrt, cfg, After(sqrt, cfg, run[..k]), run[k]);
  }

  /** In `absolute` mode positions pass unchanged and rotations are normalised, up to sign. */
  lemma AbsolutePasses(sqrt: real -> real, cfg: Config, run: seq<Sample>, k: nat)
    requires IsSqrt(sqrt) && cfg.mode == Absolute && k < |run| && Accepted(sqrt, run[k])
    ensures var r := OutputAt(sqrt, cfg, run, k); var q := Unit(sqrt, run[k]);
            r.Some? && r.value.position == run[k].position.value && r.value.rotation in {q, q.Neg()}
  {
    var s := After(sqrt, cfg, run[..k]);
    RunAnchored(sqrt, cfg, run[..k]);
    StepRotation(sqrt, cfg, s, run[k]);
    hide After, IsSqrt, Normalize, Continuous, Anchored;
  }
}
