/** Positions returned by `RootPoseTransformer` over a session: independence of the odometry frame,
    preserved distances, and the height filter. */
module RootPosePositions {
  import opened Arithmetic
  import opened LinearAlgebra
  import opened Wrappers
  import opened RootPose
  import opened RootPoseRuns

  function DeltaZ(s: State, position: Vec3): real {
    if s.origin.Some? then position.z - s.origin.value.position.z else 0.0
  }

  function NextFiltered(sqrt: real -> real, cfg: Config, s: State, sample: Sample): real {
    if cfg.vertical == Filtered && Accepted(sqrt, sample) then FilterStep(cfg, s.filtered, DeltaZ(s, sample.position.value))
    else s.filtered
  }

  function AnchoredAt(cfg: Config, o: Origin, filtered: real, position: Vec3): Vec3 {
    var delta := position.Minus(o.position);
    var (x, y) := HeadingPosition(cfg, o, delta);
    Vec3(x, y, Height(cfg, filtered, delta.z))
  }

  /** The position returned by one call. */
  lemma StepPosition(sqrt: real -> real, cfg: Config, s: State, sample: Sample)
    requires IsSqrt(sqrt) && Anchored(s) && cfg.mode == UnityRelative
    ensures var (s', r) := Step(sqrt, cfg, s, sample);
         && s'.filtered == NextFiltered(sqrt, cfg, s, sample)
         && (Accepted(sqrt, sample) ==>
              && r.Some?
              && var p := sample.position.value;
                 var o := if s.origin.Some? then s.origin.value else OriginOf(sqrt, p, Unit(sqrt, sample));
                 r.value.position == AnchoredAt(cfg, o, s'.filtered, p))
  {
    StepAccepted(sqrt, cfg, s, sample);
    if Accepted(sqrt, sample) {
      OriginRotation(sqrt, sample.position.value, Unit(sqrt, sample));
    }
    hide YawPair, OriginOf, HeadingPosition, Height, FilterStep, DeltaRotation, Continuous, Normalize, IsSqrt, Anchored;
  }

  /** The position returned at `k`, in terms of the first accepted sample and the filter. */
  lemma PositionAt(sqrt: real -> real, cfg: Config, run: seq<Sample>, f: nat, k: nat)
    requires IsSqrt(sqrt) && cfg.mode == UnityRelative
    requires FirstAccepted(sqrt, run, f) && f <= k < |run| && Accepted(sqrt, run[k])
    ensures var r := OutputAt(sqrt, cfg, run, k);
         && r.Some?
         && r.value.position == AnchoredAt(cfg, OriginOf(sqrt, run[f].position.value, Unit(sqrt, run[f])),
                                           After(sqrt, cfg, run[..k + 1]).filtered, run[k].position.value)
  {
    hide Step, IsSqrt, Anchored, OriginOf, AnchoredAt, Normalize;
    RunAnchored(sqrt, cfg, run[..k]);
    if f < k {
      RunOrigin(sqrt, cfg, run[..k], f);
    } else {
      RunRejected(sqrt, cfg, run[..k]);
    }
    StepPosition(sqrt, cfg, After(sqrt, cfg, run[..k]), run[k]);
    assert run[..k + 1][..k] == run[..k] && run[..k + 1][k] == run[k];
  }

  // ------------------------------------------------------------------------------------------
  // Distances.

  lemma YawPairOnCircle(sqrt: real -> real, q: Quat)
    requires IsSqrt(sqrt)
    ensures var (c, s) := YawPair(sqrt, q); OnCircle(c, s)
  {
    hide YawSin, YawCos;
    DirectionOnCircle(sqrt, YawSin(q), YawCos(q));
  }

  lemma ZeroOnCircle()
    ensures OnCircle(1.0, 0.0)
  {
  }

  /** The length is a square root of the sum of squares. */
  lemma LengthSquared(sqrt: real -> real, a: real, b: real)
    requires IsSqrt(sqrt)
    ensures Length(sqrt, a, b) >= 0.0
    ensures Prod(Length(sqrt, a, b), Length(sqrt, a, b)) == Prod(a, a) + Prod(b, b)
  {
    SquareNonNegative(a);
    SquareNonNegative(b);
  }

  lemma UnitQuotients(a: real, b: real, n: real)
    requires n > 0.0 && Prod(n, n) == Prod(a, a) + Prod(b, b)
    ensures OnCircle(b / n, a / n)
  {
    QuotientsOnCircle(b, a, n);
  }

  lemma DirectionOnCircle(sqrt: real -> real, a: real, b: real)
    requires IsSqrt(sqrt)
    ensures var (c, s) := Direction(sqrt, a, b); OnCircle(c, s)
  {
    LengthSquared(sqrt, a, b);
    ZeroOnCircle();
    hide OnCircle, Prod, IsSqrt, Length;
    var n := Length(sqrt, a, b);
    if n != 0.0 {
      UnitQuotients(a, b, n);
    }
  }

  lemma TurnKeepsLength(c: real, s: real, x: real, y: real)
    requires OnCircle(c, s)
    ensures Prod(Along(c, s, x, y), Along(c, s, x, y)) + Prod(Across(c, s, x, y), Across(c, s, x, y)) == Prod(x, x) + Prod(y, y)
  {
    assert (c * x + s * y) * (c * x + s * y) + (-s * x + c * y) * (-s * x + c * y) == (c * c + s * s) * (x * x + y * y);
  }

  lemma NegSquare(a: real)
    ensures Prod(-a, -a) == Prod(a, a)
  {
  }

  /** The horizontal distance from the origin is the odometry distance, in every heading and axis mode. */
  lemma HorizontalDistance(sqrt: real -> real, cfg: Config, run: seq<Sample>, f: nat, k: nat)
    requires IsSqrt(sqrt) && cfg.mode == UnityRelative
    requires FirstAccepted(sqrt, run, f) && f <= k < |run| && Accepted(sqrt, run[k])
    ensures OutputAt(sqrt, cfg, run, k).Some?
    ensures var p := OutputAt(sqrt, cfg, run, k).value.position;
            var d := run[k].position.value.Minus(run[f].position.value);
            Prod(p.x, p.x) + Prod(p.y, p.y) == Prod(d.x, d.x) + Prod(d.y, d.y)
  {
    PositionAt(sqrt, cfg, run, f, k);
    hide YawPair, Height, Normalize, IsSqrt, After, OutputAt, OnCircle, Prod, Along, Across;
    var q := Unit(sqrt, run[f]);
    YawPairOnCircle(sqrt, q);
    var (c, s) := YawPair(sqrt, q);
    var d := run[k].position.value.Minus(run[f].position.value);
    TurnKeepsLength(c, s, d.x, d.y);
    NegSquare(Across(c, s, d.x, d.y));
    NegSquare(d.y);
  }

  // ------------------------------------------------------------------------------------------
  // Independence of the odometry frame.

  /** The angle with half-angle cosine `gc` and sine `gs`. */
  function FullCos(gc: real, gs: real): real { gc * gc - gs * gs }
  function FullSin(gc: real, gs: real): real { gc * gs + gc * gs }

  /** Turning the horizontal plane by an angle with cosine `c` and sine `s`. */
  function TurnX(c: real, s: real, x: real, y: real): real { c * x - s * y }
  function TurnY(c: real, s: real, x: real, y: real): real { s * x + c * y }

  function MovedPosition(gc: real, gs: real, t: Vec3, p: Vec3): Vec3 {
    var c, s := FullCos(gc, gs), FullSin(gc, gs);
    Vec3(TurnX(c, s, p.x, p.y) + t.x, TurnY(c, s, p.x, p.y) + t.y, p.z + t.z)
  }

  function Yaw(gc: real, gs: real): Quat { Quat(gc, 0.0, 0.0, gs) }

  /** The sample seen from an odometry frame turned about the vertical and shifted. */
  function MovedSample(gc: real, gs: real, t: Vec3, sample: Sample): Sample {
    Sample(if sample.position.None? then None else Some(MovedPosition(gc, gs, t, sample.position.value)),
           if sample.rotation.None? then None else Some(Yaw(gc, gs).Mul(sample.rotation.value)))
  }

  function MovedRun(gc: real, gs: real, t: Vec3, run: seq<Sample>): seq<Sample> {
    seq(|run|, i requires 0 <= i < |run| => MovedSample(gc, gs, t, run[i]))
  }

  /** The forward axis of the orientation is not vertical, so that it has a heading. */
  predicate HasHeading(sqrt: real -> real, q: Quat) {
    Length(sqrt, YawSin(q), YawCos(q)) != 0.0
  }

  lemma FullOnCircle(gc: real, gs: real)
    requires OnCircle(gc, gs)
    ensures OnCircle(FullCos(gc, gs), FullSin(gc, gs))
  {
    assert (gc * gc - gs * gs) * (gc * gc - gs * gs) + (gc * gs + gc * gs) * (gc * gs + gc * gs)
        == (gc * gc + gs * gs) * (gc * gc + gs * gs);
  }

  lemma YawMulEntries(gc: real, gs: real, w: real, x: real, y: real, z: real)
    ensures Yaw(gc, gs).Mul(Quat(w, x, y, z)) == Quat(gc * w - gs * z, gc * x - gs * y, gc * y + gs * x, gc * z + gs * w)
  {
  }

  /** On unit quaternions the yaw terms are entries of the rotation matrix. */
  lemma YawTerms(w: real, x: real, y: real, z: real)
    requires Norm4(w, x, y, z) == 1.0
    ensures YawSin(Quat(w, x, y, z)) == TwiceSum(x, y, w, z) && YawCos(Quat(w, x, y, z)) == Diag(w, x, y, z)
  {
  }

  lemma YawTermsTurn(gc: real, gs: real, w: real, x: real, y: real, z: real, r: Quat)
    requires r == Yaw(gc, gs).Mul(Quat(w, x, y, z))
    ensures Diag(r.w, r.x, r.y, r.z) == TurnX(FullCos(gc, gs), FullSin(gc, gs), Diag(w, x, y, z), TwiceSum(x, y, w, z))
    ensures TwiceSum(r.x, r.y, r.w, r.z) == TurnY(FullCos(gc, gs), FullSin(gc, gs), Diag(w, x, y, z), TwiceSum(x, y, w, z))
  {
    YawMulEntries(gc, gs, w, x, y, z);
    TurnedDiag(gc, gs, w, x, y, z);
  }

  lemma TurnedDiag(gc: real, gs: real, w: real, x: real, y: real, z: real)
    ensures Diag(gc * w - gs * z, gc * x - gs * y, gc * y + gs * x, gc * z + gs * w)
         == TurnX(FullCos(gc, gs), FullSin(gc, gs), Diag(w, x, y, z), TwiceSum(x, y, w, z))
    ensures TwiceSum(gc * x - gs * y, gc * y + gs * x, gc * w - gs * z, gc * z + gs * w)
         == TurnY(FullCos(gc, gs), FullSin(gc, gs), Diag(w, x, y, z), TwiceSum(x, y, w, z))
  {
  }

  lemma YawUnit(gc: real, gs: real)
    requires OnCircle(gc, gs)
    ensures Yaw(gc, gs).IsUnit()
  {
  }

  lemma TurnScaled(gc: real, gs: real, a: real, b: real, n: real)
    requires n > 0.0
    ensures gc * (a / n) - gs * (b / n) == (gc * a - gs * b) / n
    ensures gc * (a / n) + gs * (b / n) == (gc * a + gs * b) / n
  {
    var x, y := a / n, b / n;
    assert a == x * n && b == y * n;
    assert gc * a - gs * b == (gc * x - gs * y) * n;
    assert gc * a + gs * b == (gc * x + gs * y) * n;
  }

  lemma YawMulScaled(gc: real, gs: real, q: Quat, n: real)
    requires n > 0.0
    ensures Yaw(gc, gs).Mul(Scaled(q, n)) == Scaled(Yaw(gc, gs).Mul(q), n)
  {
    YawMulEntries(gc, gs, q.w, q.x, q.y, q.z);
    YawMulEntries(gc, gs, q.w / n, q.x / n, q.y / n, q.z / n);
    hide Quat.Mul, Yaw;
    TurnScaled(gc, gs, q.w, q.z, n);
    TurnScaled(gc, gs, q.x, q.y, n);
    TurnScaled(gc, gs, q.y, q.x, n);
    TurnScaled(gc, gs, q.z, q.w, n);
  }

  lemma OneProd(a: real)
    ensures Prod(1.0, a) == a
  {
  }

  /** Normalising commutes with turning. */
  lemma NormalizeMoved(sqrt: real -> real, gc: real, gs: real, q: Quat)
    requires OnCircle(gc, gs)
    ensures var n, n' := Normalize(sqrt, q), Normalize(sqrt, Yaw(gc, gs).Mul(q));
            n' == if n.None? then None else Some(Yaw(gc, gs).Mul(n.value))
  {
    YawUnit(gc, gs);
    hide OnCircle, Quat.Mul, Norm4, Prod, Scaled, Yaw;
    QuatNormMul(Yaw(gc, gs), q);
    OneProd(q.NormSq());
    var n := sqrt(q.NormSq());
    if n > 0.0 {
      YawMulScaled(gc, gs, q, n);
    }
  }

  lemma AcceptedMoved(sqrt: real -> real, gc: real, gs: real, t: Vec3, sample: Sample)
    requires OnCircle(gc, gs)
    ensures Accepted(sqrt, MovedSample(gc, gs, t, sample)) <==> Accepted(sqrt, sample)
    ensures Accepted(sqrt, sample) ==> Unit(sqrt, MovedSample(gc, gs, t, sample)) == Yaw(gc, gs).Mul(Unit(sqrt, sample))
  {
    hide Normalize, Yaw, Quat.Mul, MovedPosition, OnCircle;
    if sample.rotation.Some? {
      NormalizeMoved(sqrt, gc, gs, sample.rotation.value);
    }
  }

  /** Turning the orientation turns its yaw terms. */
  lemma YawTermsMoved(gc: real, gs: real, q: Quat)
    requires OnCircle(gc, gs) && q.IsUnit()
    ensures YawCos(Yaw(gc, gs).Mul(q)) == TurnX(FullCos(gc, gs), FullSin(gc, gs), YawCos(q), YawSin(q))
    ensures YawSin(Yaw(gc, gs).Mul(q)) == TurnY(FullCos(gc, gs), FullSin(gc, gs), YawCos(q), YawSin(q))
  {
    YawUnit(gc, gs);
    UnitMul(Yaw(gc, gs), q);
    var r := Yaw(gc, gs).Mul(q);
    hide YawSin, YawCos, OnCircle, Norm4, Diag, TwiceSum, TurnX, TurnY, FullCos, FullSin, Quat.Mul, Yaw;
    YawTerms(q.w, q.x, q.y, q.z);
    YawTerms(r.w, r.x, r.y, r.z);
    YawTermsTurn(gc, gs, q.w, q.x, q.y, q.z, r);
  }

  lemma TurnedLength(c: real, s: real, b: real, a: real)
    requires OnCircle(c, s)
    ensures Prod(TurnY(c, s, b, a), TurnY(c, s, b, a)) + Prod(TurnX(c, s, b, a), TurnX(c, s, b, a)) == Prod(a, a) + Prod(b, b)
  {
    assert (s * b + c * a) * (s * b + c * a) + (c * b - s * a) * (c * b - s * a) == (c * c + s * s) * (b * b + a * a);
  }

  lemma TurnedQuotients(c: real, s: real, b: real, a: real, n: real)
    requires n != 0.0
    ensures TurnX(c, s, b, a) / n == TurnX(c, s, b / n, a / n) && TurnY(c, s, b, a) / n == TurnY(c, s, b / n, a / n)
  {
    var x, y := b / n, a / n;
    assert b == x * n && a == y * n;
    assert TurnX(c, s, b, a) == TurnX(c, s, x, y) * n && TurnY(c, s, b, a) == TurnY(c, s, x, y) * n;
  }

  /** The heading of a turned direction is the turned heading; a vertical axis stays without one. */
  lemma DirectionMoved(sqrt: real -> real, c: real, s: real, a: real, b: real)
    requires OnCircle(c, s)
    ensures Direction(sqrt, TurnY(c, s, b, a), TurnX(c, s, b, a)) == TurnedHeading(sqrt, c, s, a, b)
  {
    TurnedLength(c, s, b, a);
    hide TurnX, TurnY, OnCircle, Prod;
    var n := Length(sqrt, a, b);
    if n != 0.0 {
      TurnedQuotients(c, s, b, a, n);
    }
  }

  function TurnedHeading(sqrt: real -> real, c: real, s: real, a: real, b: real): (real, real) {
    if Length(sqrt, a, b) == 0.0 then (1.0, 0.0)
    else
      var (x, y) := Direction(sqrt, a, b);
      (TurnX(c, s, x, y), TurnY(c, s, x, y))
  }

  lemma YawPairMoved(sqrt: real -> real, gc: real, gs: real, q: Quat)
    requires OnCircle(gc, gs) && q.IsUnit()
    ensures YawPair(sqrt, Yaw(gc, gs).Mul(q)) == TurnedHeading(sqrt, FullCos(gc, gs), FullSin(gc, gs), YawSin(q), YawCos(q))
  {
    YawTermsMoved(gc, gs, q);
    FullOnCircle(gc, gs);
    hide YawSin, YawCos, FullCos, FullSin, OnCircle, Direction, TurnX, TurnY, Quat.Mul, Yaw, Quat.IsUnit;
    DirectionMoved(sqrt, FullCos(gc, gs), FullSin(gc, gs), YawSin(q), YawCos(q));
  }

  /** Coordinates along and across the heading do not change when heading and vector turn together. */
  lemma TurnedTogether(c: real, s: real, x: real, y: real, dx: real, dy: real)
    requires OnCircle(c, s)
    ensures Along(TurnX(c, s, x, y), TurnY(c, s, x, y), TurnX(c, s, dx, dy), TurnY(c, s, dx, dy)) == Along(x, y, dx, dy)
    ensures Across(TurnX(c, s, x, y), TurnY(c, s, x, y), TurnX(c, s, dx, dy), TurnY(c, s, dx, dy)) == Across(x, y, dx, dy)
  {
    TurnedAlong(c, s, x, y, dx, dy);
    hide OnCircle;
    TurnedAlong(c, s, -y, x, dx, dy);
    TurnedNeg(c, s, x, y);
    hide TurnX, TurnY;
    AcrossIsAlong(TurnX(c, s, x, y), TurnY(c, s, x, y), TurnX(c, s, dx, dy), TurnY(c, s, dx, dy));
    AcrossIsAlong(x, y, dx, dy);
    hide Along, Across;
  }

  lemma AcrossIsAlong(c: real, s: real, x: real, y: real)
    ensures Across(c, s, x, y) == Along(-s, c, x, y)
  {
  }

  lemma TurnedNeg(c: real, s: real, x: real, y: real)
    ensures TurnX(c, s, -y, x) == -TurnY(c, s, x, y) && TurnY(c, s, -y, x) == TurnX(c, s, x, y)
  {
  }

  lemma TurnedAlong(c: real, s: real, x: real, y: real, dx: real, dy: real)
    requires OnCircle(c, s)
    ensures Along(TurnX(c, s, x, y), TurnY(c, s, x, y), TurnX(c, s, dx, dy), TurnY(c, s, dx, dy)) == Along(x, y, dx, dy)
  {
    AlongIdentity(c, s, x, y, dx, dy);
    hide Along, TurnX, TurnY;
    OneProd(Along(x, y, dx, dy));
  }

  lemma AlongIdentity(c: real, s: real, x: real, y: real, dx: real, dy: real)
    ensures Along(TurnX(c, s, x, y), TurnY(c, s, x, y), TurnX(c, s, dx, dy), TurnY(c, s, dx, dy))
         == Prod(c * c + s * s, Along(x, y, dx, dy))
  {
  }

  lemma TurnDifference(c: real, s: real, t: real, u: real, x: real, y: real, x': real, y': real)
    ensures TurnX(c, s, x, y) + t - (TurnX(c, s, x', y') + t) == TurnX(c, s, x - x', y - y')
    ensures TurnY(c, s, x, y) + u - (TurnY(c, s, x', y') + u) == TurnY(c, s, x - x', y - y')
  {
  }

  /** One anchored position, computed in both frames. */
  lemma AnchoredMoved(sqrt: real -> real, cfg: Config, gc: real, gs: real, t: Vec3, o: Vec3, q: Quat, filtered: real, p: Vec3)
    requires OnCircle(gc, gs) && q.IsUnit() && HasHeading(sqrt, q) && cfg.heading == InitialHeading
    ensures AnchoredAt(cfg, OriginOf(sqrt, MovedPosition(gc, gs, t, o), Yaw(gc, gs).Mul(q)), filtered, MovedPosition(gc, gs, t, p))
         == AnchoredAt(cfg, OriginOf(sqrt, o, q), filtered, p)
  {
    hide Direction, YawSin, YawCos, Length, FullCos, FullSin, OnCircle, TurnX, TurnY, Along, Across, Quat.Mul, Quat.IsUnit, Yaw, Height;
    YawPairMoved(sqrt, gc, gs, q);
    FullOnCircle(gc, gs);
    var c, s := FullCos(gc, gs), FullSin(gc, gs);
    var (x, y) := YawPair(sqrt, q);
    TurnedTogether(c, s, x, y, p.x - o.x, p.y - o.y);
    TurnDifference(c, s, t.x, t.y, p.x, p.y, o.x, o.y);
  }

  ghost predicate SameButShifted(t: Vec3, s: State, s': State) {
    && s'.filtered == s.filtered
    && (s'.origin.Some? <==> s.origin.Some?)
    && (s.origin.Some? ==> s'.origin.value.position.z == s.origin.value.position.z + t.z)
  }

  lemma StepShifted(sqrt: real -> real, cfg: Config, gc: real, gs: real, t: Vec3, s: State, s': State, sample: Sample)
    requires IsSqrt(sqrt) && OnCircle(gc, gs) && cfg.mode == UnityRelative
    requires Anchored(s) && Anchored(s') && SameButShifted(t, s, s')
    ensures SameButShifted(t, Step(sqrt, cfg, s, sample).0, Step(sqrt, cfg, s', MovedSample(gc, gs, t, sample)).0)
  {
    hide Step, IsSqrt, Anchored, Normalize, FilterStep, OriginOf, Yaw, Quat.Mul, TurnX, TurnY, OnCircle;
    var moved := MovedSample(gc, gs, t, sample);
    AcceptedMoved(sqrt, gc, gs, t, sample);
    StepPosition(sqrt, cfg, s, sample);
    StepPosition(sqrt, cfg, s', moved);
    StepAccepted(sqrt, cfg, s, sample);
    StepAccepted(sqrt, cfg, s', moved);
    if Accepted(sqrt, sample) {
      StepRotation(sqrt, cfg, s, sample);
      StepRotation(sqrt, cfg, s', moved);
      OriginRotation(sqrt, sample.position.value, Unit(sqrt, sample));
      OriginRotation(sqrt, moved.position.value, Unit(sqrt, moved));
    }
  }

  lemma {:induction false} RunShifted(sqrt: real -> real, cfg: Config, gc: real, gs: real, t: Vec3, run: seq<Sample>)
    requires IsSqrt(sqrt) && OnCircle(gc, gs) && cfg.mode == UnityRelative
    ensures SameButShifted(t, After(sqrt, cfg, run), After(sqrt, cfg, MovedRun(gc, gs, t, run)))
  {
    hide Step, IsSqrt, Anchored, MovedSample, OnCircle;
    if run != [] {
      var n := |run| - 1;
      var moved := MovedRun(gc, gs, t, run);
      RunShifted(sqrt, cfg, gc, gs, t, run[..n]);
      assert moved[..n] == MovedRun(gc, gs, t, run[..n]);
      RunAnchored(sqrt, cfg, run[..n]);
      RunAnchored(sqrt, cfg, moved[..n]);
      StepShifted(sqrt, cfg, gc, gs, t, After(sqrt, cfg, run[..n]), After(sqrt, cfg, moved[..n]), run[n]);
    }
  }

  lemma {:induction false} SomeFirst(sqrt: real -> real, run: seq<Sample>, k: nat) returns (f: nat)
    requires k < |run| && Accepted(sqrt, run[k])
    ensures f <= k && FirstAccepted(sqrt, run, f)
  {
    hide Accepted;
    f := 0;
    while !Accepted(sqrt, run[f])
      invariant f <= k && forall i :: 0 <= i < f ==> !Accepted(sqrt, run[i])
      decreases k - f
    {
      f := f + 1;
    }
  }

  lemma FirstMoved(sqrt: real -> real, gc: real, gs: real, t: Vec3, run: seq<Sample>, f: nat)
    requires OnCircle(gc, gs) && FirstAccepted(sqrt, run, f)
    ensures FirstAccepted(sqrt, MovedRun(gc, gs, t, run), f)
  {
    hide Accepted, OnCircle;
    forall i | 0 <= i <= f
      ensures Accepted(sqrt, MovedRun(gc, gs, t, run)[i]) <==> Accepted(sqrt, run[i])
    {
      AcceptedMoved(sqrt, gc, gs, t, run[i]);
    }
  }

  /** One returned position, in both frames; a vertical first forward axis is read as heading 0 in both. */
  lemma PositionsMoved(sqrt: real -> real, cfg: Config, gc: real, gs: real, t: Vec3, run: seq<Sample>, f: nat, k: nat)
    requires IsSqrt(sqrt) && OnCircle(gc, gs) && cfg.mode == UnityRelative
    requires FirstAccepted(sqrt, run, f) && f <= k < |run| && Accepted(sqrt, run[k])
    ensures var r := OutputAt(sqrt, cfg, MovedRun(gc, gs, t, run), k);
            r.Some? && r.value.position ==
              AnchoredAt(cfg, OriginOf(sqrt, MovedPosition(gc, gs, t, run[f].position.value), Yaw(gc, gs).Mul(Unit(sqrt, run[f]))),
                         After(sqrt, cfg, run[..k + 1]).filtered, MovedPosition(gc, gs, t, run[k].position.value))
  {
    hide Step, After, OutputAt, IsSqrt, Normalize, OriginOf, AnchoredAt, Yaw, Quat.Mul, MovedPosition, OnCircle;
    var moved := MovedRun(gc, gs, t, run);
    FirstMoved(sqrt, gc, gs, t, run, f);
    AcceptedMoved(sqrt, gc, gs, t, run[k]);
    AcceptedMoved(sqrt, gc, gs, t, run[f]);
    PositionAt(sqrt, cfg, moved, f, k);
    RunShifted(sqrt, cfg, gc, gs, t, run[..k + 1]);
    assert moved[..k + 1] == MovedRun(gc, gs, t, run[..k + 1]);
  }

  /** Both runs raise at the same calls and otherwise return the same positions. */
  ghost predicate SamePositions(sqrt: real -> real, cfg: Config, run: seq<Sample>, moved: seq<Sample>)
    requires |run| == |moved|
  {
    forall k :: 0 <= k < |run| ==>
      var r, r' := OutputAt(sqrt, cfg, run, k), OutputAt(sqrt, cfg, moved, k);
      (r.Some? <==> r'.Some?) && (r.Some? ==> r.value.position == r'.value.position)
  }

  ghost predicate FrameIndependent(sqrt: real -> real, cfg: Config, gc: real, gs: real, t: Vec3, run: seq<Sample>) {
    SamePositions(sqrt, cfg, run, MovedRun(gc, gs, t, run))
  }

  /** With `initial` heading, turning the odometry world about the vertical and shifting it leaves every
      returned position as it was, for every session whose first accepted orientation has a heading. */
  lemma PositionsInvariant(sqrt: real -> real, cfg: Config, gc: real, gs: real, t: Vec3, run: seq<Sample>)
    requires IsSqrt(sqrt) && OnCircle(gc, gs) && cfg.mode == UnityRelative && cfg.heading == InitialHeading
    requires forall f: nat :: FirstAccepted(sqrt, run, f) ==> HasHeading(sqrt, Unit(sqrt, run[f]))
    ensures FrameIndependent(sqrt, cfg, gc, gs, t, run)
  {
    hide Step, After, OutputAt, IsSqrt, Normalize, OriginOf, AnchoredAt, HasHeading, Yaw, Quat.Mul, Quat.IsUnit, MovedPosition, MovedSample, OnCircle;
    var moved := MovedRun(gc, gs, t, run);
    forall k | 0 <= k < |run|
      ensures OutputAt(sqrt, cfg, run, k).Some? <==> OutputAt(sqrt, cfg, moved, k).Some?
      ensures OutputAt(sqrt, cfg, run, k).Some? ==>
                OutputAt(sqrt, cfg, run, k).value.position == OutputAt(sqrt, cfg, moved, k).value.position
    {
      OutputsExactlyAccepted(sqrt, cfg, run, k);
      OutputsExactlyAccepted(sqrt, cfg, moved, k);
      AcceptedMoved(sqrt, gc, gs, t, run[k]);
      if Accepted(sqrt, run[k]) {
        var f := SomeFirst(sqrt, run, k);
        PositionAt(sqrt, cfg, run, f, k);
        PositionsMoved(sqrt, cfg, gc, gs, t, run, f, k);
        NormalizeUnit(sqrt, run[f].rotation.value);
        AnchoredMoved(sqrt, cfg, gc, gs, t, run[f].position.value, Unit(sqrt, run[f]),
                      After(sqrt, cfg, run[..k + 1]).filtered, run[k].position.value);
      }
    }
  }

  const EAST := Vec3(1.0, 0.0, 0.0)

  lemma VerticalHeading(sqrt: real -> real, q: Quat)
    requires q.IsUnit() && !HasHeading(sqrt, q)
    ensures YawPair(sqrt, q) == (1.0, 0.0) && YawPair(sqrt, Yaw(0.0, 1.0).Mul(q)) == (1.0, 0.0)
  {
    HalfTurn(NOWHERE, EAST);
    hide YawSin, YawCos, Quat.Mul, Yaw, Quat.IsUnit, OnCircle, Length;
    YawPairMoved(sqrt, 0.0, 1.0, q);
  }

  const NOWHERE := Vec3(0.0, 0.0, 0.0)

  lemma HalfTurn(p: Vec3, d: Vec3)
    ensures OnCircle(0.0, 1.0)
    ensures MovedPosition(0.0, 1.0, NOWHERE, p.Plus(d)).Minus(MovedPosition(0.0, 1.0, NOWHERE, p)) == Vec3(-d.x, -d.y, d.z)
  {
  }

  lemma PlusMinus(p: Vec3, d: Vec3)
    ensures p.Plus(d).Minus(p) == d
  {
  }

  lemma NoTurn(x: real, y: real)
    ensures Along(1.0, 0.0, x, y) == x && Across(1.0, 0.0, x, y) == y
  {
  }

  /** Without a heading the frame shows: after a half turn, one metre east is returned as one metre west. */
  lemma VerticalFrameDependent(sqrt: real -> real, cfg: Config, first: Sample)
    requires IsSqrt(sqrt) && cfg.mode == UnityRelative && cfg.heading == InitialHeading
    requires Accepted(sqrt, first) && !HasHeading(sqrt, Unit(sqrt, first))
    ensures OnCircle(0.0, 1.0)
    ensures !FrameIndependent(sqrt, cfg, 0.0, 1.0, NOWHERE,
                              [first] + [Sample(Some(first.position.value.Plus(EAST)), first.rotation)])
  {
    hide Step, After, IsSqrt, Normalize, YawPair, HasHeading, Yaw, Quat.Mul, Quat.IsUnit, MovedPosition, OnCircle, Along, Across, Height;
    var p, q := first.position.value, Unit(sqrt, first);
    HalfTurn(p, EAST);
    var second := Sample(Some(p.Plus(EAST)), first.rotation);
    var run := [first] + [second];
    assert FirstAccepted(sqrt, run, 0) && Accepted(sqrt, run[1]) && run[0] == first && run[1] == second;
    NormalizeUnit(sqrt, first.rotation.value);
    VerticalHeading(sqrt, q);
    hide OutputAt;
    PositionAt(sqrt, cfg, run, 0, 1);
    PositionsMoved(sqrt, cfg, 0.0, 1.0, NOWHERE, run, 0, 1);
    PlusMinus(p, EAST);
    NoTurn(1.0, 0.0);
    NoTurn(-1.0, 0.0);
    assert OutputAt(sqrt, cfg, run, 1).value.position != OutputAt(sqrt, cfg, MovedRun(0.0, 1.0, NOWHERE, run), 1).value.position;
  }

  /** Exactly when positions are independent of the odometry frame. */
  lemma PositionsInvariantIff(sqrt: real -> real, cfg: Config, first: Sample)
    requires IsSqrt(sqrt) && cfg.mode == UnityRelative && cfg.heading == InitialHeading && Accepted(sqrt, first)
    ensures HasHeading(sqrt, Unit(sqrt, first)) <==>
              forall gc, gs, t, rest | OnCircle(gc, gs) :: FrameIndependent(sqrt, cfg, gc, gs, t, [first] + rest)
  {
    hide HasHeading, FrameIndependent, IsSqrt, Normalize, OnCircle;
    if HasHeading(sqrt, Unit(sqrt, first)) {
      forall gc, gs, t, rest | OnCircle(gc, gs)
        ensures FrameIndependent(sqrt, cfg, gc, gs, t, [first] + rest)
      {
        assert ([first] + rest)[0] == first;
        forall f: nat | FirstAccepted(sqrt, [first] + rest, f)
          ensures f == 0
        {
        }
        PositionsInvariant(sqrt, cfg, gc, gs, t, [first] + rest);
      }
    } else {
      VerticalFrameDependent(sqrt, cfg, first);
    }
  }

  // ------------------------------------------------------------------------------------------
  // What the coordinates mean.

  /** The heading is the direction of the rotated forward axis on the floor: the first column of the rotation matrix. */
  lemma HeadingIsForwardAxis(q: Quat)
    requires q.IsUnit()
    ensures YawCos(q) == q.ToMatrix().m00 && YawSin(q) == q.ToMatrix().m10
  {
    YawTerms(q.w, q.x, q.y, q.z);
    assert q == Quat(q.w, q.x, q.y, q.z);
    hide YawCos, YawSin, Diag, TwiceSum;
  }

  lemma TurnedBack(c: real, s: real, x: real, y: real)
    requires OnCircle(c, s)
    ensures Along(c, s, TurnX(c, s, x, y), TurnY(c, s, x, y)) == x && Across(c, s, TurnX(c, s, x, y), TurnY(c, s, x, y)) == y
  {
    TurnedBackIdentity(c, s, x, y);
    hide Along, Across, TurnX, TurnY;
    OneProd(x);
    OneProd(y);
  }

  lemma TurnedBackIdentity(c: real, s: real, x: real, y: real)
    ensures Along(c, s, TurnX(c, s, x, y), TurnY(c, s, x, y)) == Prod(c * c + s * s, x)
    ensures Across(c, s, TurnX(c, s, x, y), TurnY(c, s, x, y)) == Prod(c * c + s * s, y)
  {
  }

  /** Going `forward` along the initial heading and `left` across it arrives in Unity as right = -left and
      forward, or unchanged with raw axes. */
  lemma ForwardIsForward(cfg: Config, o: Origin, filtered: real, forward: real, left: real, up: real)
    requires cfg.heading == InitialHeading && OnCircle(o.cosYaw, o.sinYaw)
    ensures var p := AnchoredAt(cfg, o, filtered, o.position.Plus(Vec3(TurnX(o.cosYaw, o.sinYaw, forward, left), TurnY(o.cosYaw, o.sinYaw, forward, left), up)));
            (p.x, p.y) == if cfg.axes == UnitreeToUnity then (-left, forward) else (forward, left)
  {
    var d := Vec3(TurnX(o.cosYaw, o.sinYaw, forward, left), TurnY(o.cosYaw, o.sinYaw, forward, left), up);
    PlusMinus(o.position, d);
    TurnedBack(o.cosYaw, o.sinYaw, forward, left);
    hide Vec3.Plus, Vec3.Minus, Along, Across, TurnX, TurnY, OnCircle;
  }

  // ------------------------------------------------------------------------------------------
  // The height filter.

  lemma Blend(alpha: real, filtered: real, target: real, most: real)
    requires 0.0 < alpha <= 1.0 && -most <= filtered <= most && -most <= target <= most
    ensures -most <= filtered + alpha * (target - filtered) <= most
  {
    BlendPart(alpha, target, most);
    BlendPart(1.0 - alpha, filtered, most);
    BlendSum(alpha, filtered, target);
    BlendSum(alpha, most, most);
    assert Prod(alpha, target - filtered) == alpha * (target - filtered);
    hide Prod;
  }

  lemma BlendSum(alpha: real, x: real, y: real)
    ensures x + Prod(alpha, y - x) == Prod(1.0 - alpha, x) + Prod(alpha, y)
    ensures Prod(alpha, 0.0) == 0.0
  {
  }

  lemma BlendPart(k: real, x: real, most: real)
    requires 0.0 <= k && -most <= x <= most
    ensures -Prod(k, most) <= Prod(k, x) <= Prod(k, most)
  {
    assert k * (most - x) >= 0.0 && k * (most + x) >= 0.0;
  }

  ghost predicate RiseWithin(sqrt: real -> real, run: seq<Sample>, f: nat, most: real)
    requires FirstAccepted(sqrt, run, f)
  {
    forall i :: f <= i < |run| && Accepted(sqrt, run[i]) ==> Abs(run[i].position.value.z - run[f].position.value.z) <= most
  }

  /** One step of the filter stays within the bound. */
  lemma StepBounded(sqrt: real -> real, cfg: Config, s: State, sample: Sample, most: real)
    requires IsSqrt(sqrt) && cfg.Valid() && cfg.mode == UnityRelative && Anchored(s)
    requires -most <= s.filtered <= most
    requires Accepted(sqrt, sample) ==> Abs(DeltaZ(s, sample.position.value)) <= most
    ensures -most <= Step(sqrt, cfg, s, sample).0.filtered <= most
  {
    StepPosition(sqrt, cfg, s, sample);
    hide Step, IsSqrt, Normalize, Anchored, OriginOf, AnchoredAt, DeltaZ, FilterStep;
    if Accepted(sqrt, sample) {
      FilterWithin(cfg, s.filtered, DeltaZ(s, sample.position.value), most);
    }
  }

  lemma FilterWithin(cfg: Config, filtered: real, deltaZ: real, most: real)
    requires cfg.Valid() && -most <= filtered <= most && Abs(deltaZ) <= most
    ensures -most <= FilterStep(cfg, filtered, deltaZ) <= most
  {
    Blend(cfg.alpha, filtered, Target(cfg, deltaZ), most);
  }

  /** The rise of an accepted sample is measured from the first accepted one. */
  lemma RiseFromFirst(sqrt: real -> real, cfg: Config, run: seq<Sample>, f: nat, p: Vec3)
    requires IsSqrt(sqrt) && cfg.mode == UnityRelative && FirstAccepted(sqrt, run, f)
    ensures DeltaZ(After(sqrt, cfg, run), p) == p.z - run[f].position.value.z
  {
    RunOrigin(sqrt, cfg, run, f);
    OriginRotation(sqrt, run[f].position.value, Unit(sqrt, run[f]));
    hide After, OriginOf;
  }

  lemma {:induction false} FilteredBounded(sqrt: real -> real, cfg: Config, run: seq<Sample>, f: nat, most: real)
    requires IsSqrt(sqrt) && cfg.Valid() && cfg.mode == UnityRelative
    requires FirstAccepted(sqrt, run, f) && RiseWithin(sqrt, run, f, most) && most >= 0.0
    ensures -most <= After(sqrt, cfg, run).filtered <= most
  {
    hide Step, IsSqrt, Accepted, Anchored, OriginOf, DeltaZ, Config.Valid;
    var n := |run| - 1;
    var s := After(sqrt, cfg, run[..n]);
    RunAnchored(sqrt, cfg, run[..n]);
    if f == n {
      RunRejected(sqrt, cfg, run[..n]);
      AcceptedPosition(sqrt, run[n]);
      NothingRisen(run[n]);
    } else {
      FilteredBounded(sqrt, cfg, run[..n], f, most);
      if Accepted(sqrt, run[n]) {
        AcceptedPosition(sqrt, run[n]);
        RiseFromFirst(sqrt, cfg, run[..n], f, run[n].position.value);
      }
    }
    StepBounded(sqrt, cfg, s, run[n], most);
  }

  lemma NothingRisen(sample: Sample)
    ensures sample.position.Some? ==> Abs(DeltaZ(INITIAL, sample.position.value)) == 0.0
  {
  }

  lemma AcceptedPosition(sqrt: real -> real, sample: Sample)
    requires Accepted(sqrt, sample)
    ensures sample.position.Some?
  {
  }

  /** In every vertical mode the returned height stays as close to the pelvis height as the odometry
      height stayed to its first value. */
  lemma HeightBounded(sqrt: real -> real, cfg: Config, run: seq<Sample>, f: nat, k: nat, most: real)
    requires IsSqrt(sqrt) && cfg.Valid() && cfg.mode == UnityRelative
    requires FirstAccepted(sqrt, run, f) && f <= k < |run| && Accepted(sqrt, run[k]) && RiseWithin(sqrt, run, f, most)
    ensures OutputAt(sqrt, cfg, run, k).Some?
    ensures Abs(OutputAt(sqrt, cfg, run, k).value.position.z - cfg.pelvisHeight) <= most
  {
    hide Step, After, OutputAt, IsSqrt, Normalize, HeadingPosition;
    PositionAt(sqrt, cfg, run, f, k);
    var prefix := run[..k + 1];
    assert FirstAccepted(sqrt, prefix, f) && RiseWithin(sqrt, prefix, f, most);
    FilteredBounded(sqrt, cfg, prefix, f, most);
  }

  function AcceptedCount(sqrt: real -> real, run: seq<Sample>): nat {
    if run == [] then 0
    else AcceptedCount(sqrt, run[..|run| - 1]) + if Accepted(sqrt, run[|run| - 1]) then 1 else 0
  }

  lemma FilterError(cfg: Config, filtered: real, deltaZ: real)
    ensures FilterStep(cfg, filtered, deltaZ) - Target(cfg, deltaZ) == (1.0 - cfg.alpha) * (filtered - Target(cfg, deltaZ))
  {
  }

  /** The memory of the filter: while its target holds still, each accepted sample shrinks the error by exactly
      `1 - alpha`, and a sample that raises leaves it. */
  lemma {:induction false} MemoryConverges(sqrt: real -> real, cfg: Config, run: seq<Sample>, tail: seq<Sample>, f: nat, target: real)
    requires IsSqrt(sqrt) && cfg.mode == UnityRelative && cfg.vertical == Filtered && FirstAccepted(sqrt, run, f)
    requires forall i :: 0 <= i < |tail| && Accepted(sqrt, tail[i]) ==>
               Target(cfg, tail[i].position.value.z - run[f].position.value.z) == target
    ensures After(sqrt, cfg, run + tail).filtered - target
         == Power(1.0 - cfg.alpha, AcceptedCount(sqrt, tail)) * (After(sqrt, cfg, run).filtered - target)
  {
    hide Step, IsSqrt, Normalize, Anchored, OriginOf, FilterStep, Target, Power;
    if tail == [] {
      assert run + tail == run;
      PowerZero(1.0 - cfg.alpha);
    } else {
      var n := |tail| - 1;
      var all := run + tail;
      assert all[..|all| - 1] == run + tail[..n] && all[|all| - 1] == tail[n];
      MemoryConverges(sqrt, cfg, run, tail[..n], f, target);
      var s := After(sqrt, cfg, run + tail[..n]);
      RunAnchored(sqrt, cfg, run + tail[..n]);
      RunOrigin(sqrt, cfg, run + tail[..n], f);
      OriginRotation(sqrt, run[f].position.value, Unit(sqrt, run[f]));
      StepPosition(sqrt, cfg, s, tail[n]);
      if Accepted(sqrt, tail[n]) {
        FilterError(cfg, s.filtered, DeltaZ(s, tail[n].position.value));
        PowerStep(1.0 - cfg.alpha, AcceptedCount(sqrt, tail[..n]), After(sqrt, cfg, run).filtered - target);
      }
    }
  }
}
