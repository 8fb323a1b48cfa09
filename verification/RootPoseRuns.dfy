/** What `RootPoseTransformer` guarantees over a whole session: any sequence of `transform` calls after
    construction or `reset`, including calls that raise. */
module RootPoseRuns {
  import opened Arithmetic
  import opened LinearAlgebra
  import opened PoseExtraction
  import opened Wrappers
  import opened RootPose

  function After(sqrt: real -> real, cfg: Config, run: seq<Sample>): State {
    if run == [] then INITIAL
    else Step(sqrt, cfg, After(sqrt, cfg, run[..|run| - 1]), run[|run| - 1]).0
  }

  function OutputAt(sqrt: real -> real, cfg: Config, run: seq<Sample>, k: nat): Option<Output>
    requires k < |run|
  {
    Step(sqrt, cfg, After(sqrt, cfg, run[..k]), run[k]).1
  }

  /** A finite position and a finite quaternion that is not zero. */
  predicate Accepted(sqrt: real -> real, sample: Sample) {
    sample.position.Some? && sample.rotation.Some? && Normalize(sqrt, sample.rotation.value).Some?
  }

  function Unit(sqrt: real -> real, sample: Sample): Quat
    requires Accepted(sqrt, sample)
  {
    Normalize(sqrt, sample.rotation.value).value
  }

  ghost predicate FirstAccepted(sqrt: real -> real, run: seq<Sample>, f: nat) {
    f < |run| && Accepted(sqrt, run[f]) && forall i :: 0 <= i < f ==> !Accepted(sqrt, run[i])
  }

  ghost predicate LastAccepted(sqrt: real -> real, run: seq<Sample>, j: nat) {
    j < |run| && Accepted(sqrt, run[j]) && forall i :: j < i < |run| ==> !Accepted(sqrt, run[i])
  }

  // ------------------------------------------------------------------------------------------
  // Quaternions.

  lemma NormalizeUnit(sqrt: real -> real, q: Quat)
    requires IsSqrt(sqrt)
    ensures Normalize(sqrt, q).Some? ==> Normalize(sqrt, q).value.IsUnit()
    ensures q.IsUnit() ==> Normalize(sqrt, q) == Some(q)
  {
    hide Norm4;
    SqrtOne(sqrt);
    QuatEntries(q.w, q.x, q.y, q.z);
    assert q.NormSq() >= 0.0 by {
      SquareNonNegative(q.w); SquareNonNegative(q.x); SquareNonNegative(q.y); SquareNonNegative(q.z);
    }
    var n := sqrt(q.NormSq());
    if n > 0.0 {
      Normalised(q.w, q.x, q.y, q.z, n);
    }
  }

  lemma ConjUnit(q: Quat)
    ensures q.Conj().NormSq() == q.NormSq() && q.Neg().NormSq() == q.NormSq()
    ensures ToUnityTransport(q).NormSq() == q.NormSq()
  {
    hide Norm4;
    NormSigns(q.w, q.x, q.y, q.z);
  }

  lemma UnitMul(q: Quat, r: Quat)
    requires q.IsUnit() && r.IsUnit()
    ensures q.Mul(r).IsUnit()
  {
    QuatNormMul(q, r);
  }

  lemma TransportComponents(lw: real, lx: real, ly: real, lz: real, rw: real, rx: real, ry: real, rz: real)
    ensures MulW(lw, -ly, -lx, -lz, rw, -ry, -rx, -rz) == MulW(lw, lx, ly, lz, rw, rx, ry, rz)
    ensures MulX(lw, -ly, -lx, -lz, rw, -ry, -rx, -rz) == -MulY(lw, lx, ly, lz, rw, rx, ry, rz)
    ensures MulY(lw, -ly, -lx, -lz, rw, -ry, -rx, -rz) == -MulX(lw, lx, ly, lz, rw, rx, ry, rz)
    ensures MulZ(lw, -ly, -lx, -lz, rw, -ry, -rx, -rz) == -MulZ(lw, lx, ly, lz, rw, rx, ry, rz)
  {
  }

  /** The transport map is an involution that preserves norms, products and conjugates, so deltas
      sent to Unity compose like the deltas themselves. */
  lemma TransportLaws(q: Quat, r: Quat)
    ensures ToUnityTransport(ToUnityTransport(q)) == q
    ensures ToUnityTransport(q).NormSq() == q.NormSq()
    ensures ToUnityTransport(q.Mul(r)) == ToUnityTransport(q).Mul(ToUnityTransport(r))
    ensures ToUnityTransport(q.Conj()) == ToUnityTransport(q).Conj()
  {
    hide Norm4, MulW, MulX, MulY, MulZ;
    NormSigns(q.w, q.x, q.y, q.z);
    TransportComponents(q.w, q.x, q.y, q.z, r.w, r.x, r.y, r.z);
  }

  /** The delta from 0 to k is the delta from j to k applied after the delta from 0 to j. */
  lemma DeltasCompose(q0: Quat, qj: Quat, qk: Quat)
    requires qj.IsUnit()
    ensures ToUnityTransport(qk.Mul(q0.Conj()))
         == ToUnityTransport(qk.Mul(qj.Conj())).Mul(ToUnityTransport(qj.Mul(q0.Conj())))
  {
    TransportLaws(qk.Mul(qj.Conj()), qj.Mul(q0.Conj()));
    ConjMul(qj, q0.Conj());
    hide Quat.Mul;
    QuatMulAssociative(qk, qj.Conj(), qj.Mul(q0.Conj()));
    QuatMulAssociative(qj.Conj(), qj, q0.Conj());
  }

  lemma ConjProducts(w: real, x: real, y: real, z: real)
    ensures MulW(w, -x, -y, -z, w, x, y, z) == Norm4(w, x, y, z)
    ensures MulX(w, -x, -y, -z, w, x, y, z) == 0.0 && MulY(w, -x, -y, -z, w, x, y, z) == 0.0
         && MulZ(w, -x, -y, -z, w, x, y, z) == 0.0
  {
  }

  lemma OneMul(r: Quat)
    ensures Quat(1.0, 0.0, 0.0, 0.0).Mul(r) == r
  {
  }

  lemma ConjMul(q: Quat, r: Quat)
    requires q.IsUnit()
    ensures q.Conj().Mul(q).Mul(r) == r
  {
    OneMul(r);
    hide Norm4, MulW, MulX, MulY, MulZ;
    ConjProducts(q.w, q.x, q.y, q.z);
  }

  // ------------------------------------------------------------------------------------------
  // One call.

  /** What every state of a session satisfies: the origin rotation is a unit quaternion. */
  ghost predicate Anchored(s: State) { s.origin.Some? ==> s.origin.value.rotation.IsUnit() }

  function Relative(cfg: Config, origin: Quat, rotation: Quat): Quat {
    if cfg.mode == Absolute then rotation
    else if cfg.axes == UnitreeToUnity then ToUnityTransport(rotation.Mul(origin.Conj()))
    else rotation.Mul(origin.Conj())
  }

  /** A call succeeds exactly on accepted samples; otherwise it changes nothing. */
  lemma StepAccepted(sqrt: real -> real, cfg: Config, s: State, sample: Sample)
    requires IsSqrt(sqrt) && Anchored(s)
    ensures var (s', r) := Step(sqrt, cfg, s, sample);
         && Anchored(s')
         && (r.Some? <==> Accepted(sqrt, sample))
         && (r.None? ==> s' == s)
  {
    hide YawPair, HeadingPosition, Height, FilterStep, Norm4, MulW, MulX, MulY, MulZ, IsSqrt, Quat.Dot;
    if Accepted(sqrt, sample) {
      StepRotation(sqrt, cfg, s, sample);
    }
  }

  /** The rotation returned is the unit delta to the origin up to sign, on the side of the previous one. */
  lemma StepRotation(sqrt: real -> real, cfg: Config, s: State, sample: Sample)
    requires IsSqrt(sqrt) && Anchored(s) && Accepted(sqrt, sample)
    ensures var (s', r) := Step(sqrt, cfg, s, sample); var q := Unit(sqrt, sample);
         && Anchored(s') && r.Some? && s'.last == Some(r.value.rotation) && r.value.rotation.IsUnit()
         && (s.last.Some? ==> r.value.rotation.Dot(s.last.value) >= 0.0)
         && (cfg.mode == UnityRelative ==>
               s'.origin == if s.origin.Some? then s.origin else Some(OriginOf(sqrt, sample.position.value, q)))
         && var expected := Relative(cfg, if s.origin.Some? then s.origin.value.rotation else q, q);
            (r.value.rotation == expected || r.value.rotation == expected.Neg())
  {
    hide YawPair, HeadingPosition, Height, FilterStep, Norm4, MulW, MulX, MulY, MulZ, IsSqrt, Quat.Dot, Normalize;
    var q := Unit(sqrt, sample);
    NormalizeUnit(sqrt, sample.rotation.value);
    var o := if s.origin.Some? then s.origin.value.rotation else q;
    var delta := q.Mul(o.Conj());
    ConjUnit(o);
    UnitMul(q, o.Conj());
    NormalizeUnit(sqrt, delta);
    ConjUnit(delta);
    ConjUnit(q);
    ConjUnit(ToUnityTransport(delta));
    forall x ensures Continuous(x, s.last) in {x, x.Neg()} && (s.last.Some? ==> Continuous(x, s.last).Dot(s.last.value) >= 0.0) {
      ContinuousSide(x, s.last);
    }
  }

  lemma ContinuousSide(q: Quat, last: Option<Quat>)
    ensures Continuous(q, last) in {q, q.Neg()}
    ensures last.Some? ==> Continuous(q, last).Dot(last.value) >= 0.0
  {
    if last.Some? {
      var r := last.value;
      assert q.Neg().Dot(r) == -q.Dot(r);
    }
  }

  // ------------------------------------------------------------------------------------------
  // Whole runs: rotations.

  lemma {:induction false} RunAnchored(sqrt: real -> real, cfg: Config, run: seq<Sample>)
    requires IsSqrt(sqrt)
    ensures Anchored(After(sqrt, cfg, run))
  {
    hide Step, Anchored, IsSqrt;
    if run == [] {
      InitialAnchored();
    } else {
      RunAnchored(sqrt, cfg, run[..|run| - 1]);
      StepAccepted(sqrt, cfg, After(sqrt, cfg, run[..|run| - 1]), run[|run| - 1]);
    }
  }

  lemma InitialAnchored()
    ensures Anchored(INITIAL)
  {
  }

  /** Before any accepted sample nothing has happened. */
  lemma {:induction false} RunRejected(sqrt: real -> real, cfg: Config, run: seq<Sample>)
    requires IsSqrt(sqrt) && forall i :: 0 <= i < |run| ==> !Accepted(sqrt, run[i])
    ensures After(sqrt, cfg, run) == INITIAL
  {
    hide Step, IsSqrt, Accepted, Anchored;
    if run != [] {
      var prefix := run[..|run| - 1];
      RunRejected(sqrt, cfg, prefix);
      RunAnchored(sqrt, cfg, prefix);
      StepAccepted(sqrt, cfg, INITIAL, run[|run| - 1]);
    }
  }

  /** The origin is the first accepted sample, for the rest of the session. */
  lemma {:induction false} RunOrigin(sqrt: real -> real, cfg: Config, run: seq<Sample>, f: nat)
    requires IsSqrt(sqrt) && cfg.mode == UnityRelative && FirstAccepted(sqrt, run, f)
    ensures After(sqrt, cfg, run).origin == Some(OriginOf(sqrt, run[f].position.value, Unit(sqrt, run[f])))
  {
    hide Step, IsSqrt, Normalize, Anchored, OriginOf;
    var n := |run| - 1;
    RunAnchored(sqrt, cfg, run[..n]);
    StepAccepted(sqrt, cfg, After(sqrt, cfg, run[..n]), run[n]);
    if f == n {
      RunRejected(sqrt, cfg, run[..n]);
      StepRotation(sqrt, cfg, INITIAL, run[n]);
    } else {
      RunOrigin(sqrt, cfg, run[..n], f);
      if Accepted(sqrt, run[n]) {
        StepRotation(sqrt, cfg, After(sqrt, cfg, run[..n]), run[n]);
      }
    }
  }

  /** The remembered rotation is the one returned for the last accepted sample. */
  lemma {:induction false} RunLast(sqrt: real -> real, cfg: Config, run: seq<Sample>, j: nat)
    requires IsSqrt(sqrt) && LastAccepted(sqrt, run, j)
    ensures OutputAt(sqrt, cfg, run, j).Some?
    ensures After(sqrt, cfg, run).last == Some(OutputAt(sqrt, cfg, run, j).value.rotation)
  {
    hide Step, IsSqrt, Accepted, Anchored;
    var n := |run| - 1;
    RunAnchored(sqrt, cfg, run[..n]);
    StepAccepted(sqrt, cfg, After(sqrt, cfg, run[..n]), run[n]);
    if j == n {
      StepRotation(sqrt, cfg, After(sqrt, cfg, run[..n]), run[n]);
    } else {
      RunLast(sqrt, cfg, run[..n], j);
      assert run[..n][..j] == run[..j];
    }
  }

  /** Calls succeed exactly on accepted samples, whatever came before. */
  lemma OutputsExactlyAccepted(sqrt: real -> real, cfg: Config, run: seq<Sample>, k: nat)
    requires IsSqrt(sqrt) && k < |run|
    ensures OutputAt(sqrt, cfg, run, k).Some? <==> Accepted(sqrt, run[k])
  {
    hide Step, IsSqrt, Accepted, Anchored;
    RunAnchored(sqrt, cfg, run[..k]);
    StepAccepted(sqrt, cfg, After(sqrt, cfg, run[..k]), run[k]);
  }

  /** Every rotation returned in a session is a unit quaternion, and is, up to sign, the transport
      image of the current rotation times the inverse of the first accepted one. */
  lemma RotationsRelativeToFirst(sqrt: real -> real, cfg: Config, run: seq<Sample>, f: nat, k: nat)
    requires IsSqrt(sqrt) && cfg.mode == UnityRelative
    requires FirstAccepted(sqrt, run, f) && f <= k < |run| && Accepted(sqrt, run[k])
    ensures var r := OutputAt(sqrt, cfg, run, k); var expected := Relative(cfg, Unit(sqrt, run[f]), Unit(sqrt, run[k]));
         && r.Some? && r.value.rotation.IsUnit()
         && (r.value.rotation == expected || r.value.rotation == expected.Neg())
  {
    hide Step, IsSqrt, Normalize, Anchored, Quat.IsUnit, Relative, OriginOf, Continuous;
    RunAnchored(sqrt, cfg, run[..k]);
    if f < k {
      RunOrigin(sqrt, cfg, run[..k], f);
    } else {
      RunRejected(sqrt, cfg, run[..k]);
    }
    StepRotation(sqrt, cfg, After(sqrt, cfg, run[..k]), run[k]);
    OriginRotation(sqrt, run[f].position.value, Unit(sqrt, run[f]));
  }

  lemma OriginRotation(sqrt: real -> real, p: Vec3, q: Quat)
    ensures OriginOf(sqrt, p, q).rotation == q && OriginOf(sqrt, p, q).position == p
  {
  }

  lemma MulOne(q: Quat)
    ensures q.Mul(Quat(1.0, 0.0, 0.0, 0.0)) == q
  {
  }

  lemma NegComponents(lw: real, lx: real, ly: real, lz: real, rw: real, rx: real, ry: real, rz: real)
    ensures MulW(-lw, -lx, -ly, -lz, rw, rx, ry, rz) == -MulW(lw, lx, ly, lz, rw, rx, ry, rz)
    ensures MulX(-lw, -lx, -ly, -lz, rw, rx, ry, rz) == -MulX(lw, lx, ly, lz, rw, rx, ry, rz)
    ensures MulY(-lw, -lx, -ly, -lz, rw, rx, ry, rz) == -MulY(lw, lx, ly, lz, rw, rx, ry, rz)
    ensures MulZ(-lw, -lx, -ly, -lz, rw, rx, ry, rz) == -MulZ(lw, lx, ly, lz, rw, rx, ry, rz)
  {
  }

  lemma NegMul(q: Quat, r: Quat)
    ensures q.Neg().Mul(r) == q.Mul(r).Neg()
  {
    NegComponents(q.w, q.x, q.y, q.z, r.w, r.x, r.y, r.z);
    hide MulW, MulX, MulY, MulZ;
  }

  lemma DivideBack(q: Quat, o: Quat)
    requires o.IsUnit()
    ensures q.Mul(o.Conj()).Mul(o) == q
  {
    MulOne(q);
    ConjMul(o, Quat(1.0, 0.0, 0.0, 0.0));
    MulOne(o.Conj().Mul(o));
    hide Quat.Mul, Quat.Conj, Quat.IsUnit;
    QuatMulAssociative(q, o.Conj(), o);
  }

  /** What Unity does with a received rotation: the delta times the first rotation is the current one, up to sign. */
  lemma DeltaTimesFirstIsCurrent(sqrt: real -> real, cfg: Config, run: seq<Sample>, f: nat, k: nat)
    requires IsSqrt(sqrt) && cfg.mode == UnityRelative
    requires FirstAccepted(sqrt, run, f) && f <= k < |run| && Accepted(sqrt, run[k])
    ensures var r := OutputAt(sqrt, cfg, run, k); var q := Unit(sqrt, run[k]);
         && r.Some?
         && var delta := if cfg.axes == UnitreeToUnity then ToUnityTransport(r.value.rotation) else r.value.rotation;
            delta.Mul(Unit(sqrt, run[f])) in {q, q.Neg()}
  {
    RotationsRelativeToFirst(sqrt, cfg, run, f, k);
    hide OutputAt, FirstAccepted, Normalize, Quat.Mul, Quat.IsUnit;
    var q, o := Unit(sqrt, run[k]), Unit(sqrt, run[f]);
    NormalizeUnit(sqrt, run[f].rotation.value);
    hide IsSqrt;
    DivideBack(q, o);
    NegMul(q.Mul(o.Conj()), o);
  }

  /** Two rotations returned one after the other never point to opposite sides, even when calls in
      between raised. */
  lemma RotationsContinuous(sqrt: real -> real, cfg: Config, run: seq<Sample>, j: nat, k: nat)
    requires IsSqrt(sqrt) && j < k < |run| && Accepted(sqrt, run[j]) && Accepted(sqrt, run[k])
    requires forall i :: j < i < k ==> !Accepted(sqrt, run[i])
    ensures var p, q := OutputAt(sqrt, cfg, run, j), OutputAt(sqrt, cfg, run, k);
            p.Some? && q.Some? && q.value.rotation.Dot(p.value.rotation) >= 0.0
  {
    hide Step, IsSqrt, Accepted, Anchored, Quat.Dot, Relative, Continuous;
    RunAnchored(sqrt, cfg, run[..k]);
    RunLast(sqrt, cfg, run[..k], j);
    assert run[..k][..j] == run[..j];
    StepRotation(sqrt, cfg, After(sqrt, cfg, run[..k]), run[k]);
  }
}
