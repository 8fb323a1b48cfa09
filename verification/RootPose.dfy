/** Anchoring robot odometry to the session origin for Unity (dexfull/control/utils/root_pose.py).

    `cos` and `sin` of `atan2(a, b)` are the normalised pair (b, a) / |(b, a)|, or (1, 0) for
    `atan2(0, 0) = 0`.  A sample whose position or rotation holds a NaN or an infinity is `None` there. */
module RootPose {
  import opened Arithmetic
  import opened LinearAlgebra
  import opened PoseExtraction
  import opened Wrappers

  datatype Mode = UnityRelative | Absolute
  datatype AxisMapping = UnitreeToUnity | RawAxes
  datatype HeadingReference = InitialHeading | OdomWorld
  datatype VerticalMode = Filtered | Fixed | Relative

  datatype Config = Config(mode: Mode, pelvisHeight: real, axes: AxisMapping, heading: HeadingReference,
                           vertical: VerticalMode, deadband: real, alpha: real) {
    /** The constructor raises unless these hold. */
    predicate Valid() { deadband >= 0.0 && 0.0 < alpha <= 1.0 }
  }

  datatype Sample = Sample(position: Option<Vec3>, rotation: Option<Quat>)

  datatype Origin = Origin(position: Vec3, rotation: Quat, cosYaw: real, sinYaw: real)

  datatype State = State(origin: Option<Origin>, last: Option<Quat>, filtered: real)

  datatype Output = Output(position: Vec3, rotation: Quat)

  const INITIAL := State(None, None, 0.0)

  function Scaled(q: Quat, n: real): Quat
    requires n != 0.0
  {
    Quat(q.w / n, q.x / n, q.y / n, q.z / n)
  }

  function Normalize(sqrt: real -> real, q: Quat): Option<Quat> {
    var norm := sqrt(q.NormSq());
    if norm <= 0.0 then None else Some(Scaled(q, norm))
  }

  function YawSin(q: Quat): real { 2.0 * (q.w * q.z + q.x * q.y) }
  function YawCos(q: Quat): real { 1.0 - 2.0 * (q.y * q.y + q.z * q.z) }

  function Length(sqrt: real -> real, a: real, b: real): real { sqrt(Prod(a, a) + Prod(b, b)) }

  /** Cosine and sine of `atan2(a, b)`. */
  function Direction(sqrt: real -> real, a: real, b: real): (real, real) {
    var n := Length(sqrt, a, b);
    if n == 0.0 then (1.0, 0.0) else (b / n, a / n)
  }

  /** (cos, sin) of the Z-up yaw of a normalised quaternion. */
  function YawPair(sqrt: real -> real, q: Quat): (real, real) { Direction(sqrt, YawSin(q), YawCos(q)) }

  /** Components of a horizontal vector along and across the heading. */
  function Along(c: real, s: real, x: real, y: real): real { c * x + s * y }
  function Across(c: real, s: real, x: real, y: real): real { -s * x + c * y }

  function ToUnityTransport(q: Quat): Quat { Quat(q.w, -q.y, -q.x, -q.z) }

  function OriginOf(sqrt: real -> real, position: Vec3, rotation: Quat): Origin {
    var (c, s) := YawPair(sqrt, rotation);
    Origin(position, rotation, c, s)
  }

  /** What the height filter moves towards. */
  function Target(cfg: Config, deltaZ: real): real { if Abs(deltaZ) <= cfg.deadband then 0.0 else deltaZ }

  function FilterStep(cfg: Config, filtered: real, deltaZ: real): real {
    filtered + cfg.alpha * (Target(cfg, deltaZ) - filtered)
  }

  lemma FilterMoves(cfg: Config, filtered: real, deltaZ: real, target: real)
    requires target == Target(cfg, deltaZ)
    ensures filtered + cfg.alpha * (target - filtered) == FilterStep(cfg, filtered, deltaZ)
  {
    hide Target;
  }

  function HeadingPosition(cfg: Config, o: Origin, delta: Vec3): (real, real) {
    var (hx, hy) :=
      if cfg.heading == InitialHeading
      then (Along(o.cosYaw, o.sinYaw, delta.x, delta.y), Across(o.cosYaw, o.sinYaw, delta.x, delta.y))
      else (delta.x, delta.y);
    if cfg.axes == UnitreeToUnity then (-hy, hx) else (hx, hy)
  }

  function Height(cfg: Config, filtered: real, deltaZ: real): real {
    match cfg.vertical
    case Filtered => cfg.pelvisHeight + filtered
    case Fixed => cfg.pelvisHeight
    case Relative => cfg.pelvisHeight + deltaZ
  }

  /** The rotation relative to the origin, before its sign is chosen. */
  function DeltaRotation(sqrt: real -> real, cfg: Config, o: Origin, rotation: Quat): Option<Quat> {
    match Normalize(sqrt, rotation.Mul(o.rotation.Conj()))
    case None => None
    case Some(delta) => Some(if cfg.axes == UnitreeToUnity then ToUnityTransport(delta) else delta)
  }

  function Continuous(q: Quat, last: Option<Quat>): Quat {
    if last.Some? && q.Dot(last.value) < 0.0 then q.Neg() else q
  }

  /** The effect of one call of `transform`: the state after it, and its result or `None` when it raises. */
  function Step(sqrt: real -> real, cfg: Config, s: State, sample: Sample): (State, Option<Output>) {
    if sample.rotation.None? || sample.position.None? then (s, None)
    else
      var position := sample.position.value;
      match Normalize(sqrt, sample.rotation.value)
      case None => (s, None)
      case Some(rotation) =>
        if cfg.mode == Absolute then
          var out := Continuous(rotation, s.last);
          (s.(last := Some(out)), Some(Output(position, out)))
        else
          var o := if s.origin.Some? then s.origin.value else OriginOf(sqrt, position, rotation);
          var delta := position.Minus(o.position);
          var (x, y) := HeadingPosition(cfg, o, delta);
          var filtered := if cfg.vertical == Filtered then FilterStep(cfg, s.filtered, delta.z) else s.filtered;
          match DeltaRotation(sqrt, cfg, o, rotation)
          case None => (State(Some(o), s.last, filtered), None)
          case Some(q) =>
            var out := Continuous(q, s.last);
            (State(Some(o), Some(out), filtered), Some(Output(Vec3(x, y, Height(cfg, filtered, delta.z)), out)))
  }

  /** `RootPoseTransformer`. */
  class RootPoseTransformer {
    const cfg: Config
    var originPosition: Option<Vec3>
    var originRotation: Option<Quat>
    var originYaw: Option<(real, real)>
    var lastOutputRotation: Option<Quat>
    var filteredDeltaZ: real

    ghost predicate Valid()
      reads this
    {
      cfg.Valid() && (originPosition.Some? <==> originRotation.Some?) && (originPosition.Some? <==> originYaw.Some?)
    }

    ghost function View(): State
      reads this
      requires Valid()
    {
      State(if originPosition.None? then None
            else Some(Origin(originPosition.value, originRotation.value, originYaw.value.0, originYaw.value.1)),
            lastOutputRotation, filteredDeltaZ)
    }

    constructor (cfg: Config)
      requires cfg.Valid()
      ensures Valid() && View() == INITIAL && this.cfg == cfg
    {
      this.cfg := cfg;
      originPosition, originRotation, originYaw, lastOutputRotation := None, None, None, None;
      filteredDeltaZ := 0.0;
    }

    method Reset()
      requires Valid()
      modifies this
      ensures Valid() && View() == INITIAL
    {
      originPosition, originRotation, originYaw, lastOutputRotation := None, None, None, None;
      filteredDeltaZ := 0.0;
    }

    /** The horizontal part of `transform` in `unity_relative` mode: heading first, then the axes. */
    method HorizontalPosition(delta: Vec3) returns (x: real, y: real)
      requires Valid() && originYaw.Some?
      ensures (x, y) == HeadingPosition(cfg, View().origin.value, delta)
    {
      var hx, hy := delta.x, delta.y;
      if cfg.heading == InitialHeading {
        var (c, s) := originYaw.value;
        hx := c * delta.x + s * delta.y;
        hy := -s * delta.x + c * delta.y;
        assert hx == Along(c, s, delta.x, delta.y) && hy == Across(c, s, delta.x, delta.y);
      }
      hide Along, Across;
      x, y := hx, hy;
      if cfg.axes == UnitreeToUnity {
        x, y := -hy, hx;
      }
    }

    /** The vertical part, which moves the height filter. */
    method VerticalPosition(deltaZ: real) returns (z: real)
      requires Valid()
      modifies this`filteredDeltaZ
      ensures filteredDeltaZ == if cfg.vertical == Filtered then FilterStep(cfg, old(filteredDeltaZ), deltaZ) else old(filteredDeltaZ)
      ensures z == Height(cfg, filteredDeltaZ, deltaZ)
    {
      z := cfg.pelvisHeight;
      if cfg.vertical == Filtered {
        var target := deltaZ;
        if Abs(deltaZ) <= cfg.deadband {
          target := 0.0;
        }
        FilterMoves(cfg, filteredDeltaZ, deltaZ, target);
        hide Target, Abs, FilterStep;
        filteredDeltaZ := filteredDeltaZ + cfg.alpha * (target - filteredDeltaZ);
        z := z + filteredDeltaZ;
      } else if cfg.vertical == Relative {
        z := z + deltaZ;
      }
    }

    /** The position part of `transform` in `unity_relative` mode. */
    method AnchoredPosition(delta: Vec3) returns (p: Vec3)
      requires Valid() && originYaw.Some?
      modifies this`filteredDeltaZ
      ensures filteredDeltaZ == if cfg.vertical == Filtered then FilterStep(cfg, old(filteredDeltaZ), delta.z) else old(filteredDeltaZ)
      ensures var (x, y) := HeadingPosition(cfg, old(View()).origin.value, delta); p == Vec3(x, y, Height(cfg, filteredDeltaZ, delta.z))
    {
      hide HeadingPosition, FilterStep, Height;
      var x, y := HorizontalPosition(delta);
      var z := VerticalPosition(delta.z);
      p := Vec3(x, y, z);
    }

    method Transform(sqrt: real -> real, sample: Sample) returns (r: Option<Output>)
      requires Valid()
      modifies this
      ensures Valid() && (View(), r) == Step(sqrt, cfg, old(View()), sample)
    {
      hide YawPair, Normalize, HeadingPosition, Height, FilterStep, ToUnityTransport, Quat.Mul, Quat.Dot, Quat.Neg, Quat.Conj;
      if sample.rotation.None? {
        return None;
      }
      var normalized := Normalize(sqrt, sample.rotation.value);
      if normalized.None? || sample.position.None? {
        return None;
      }
      var position, rotation := sample.position.value, normalized.value;
      var outputPosition, outputRotation := position, rotation;
      if cfg.mode == UnityRelative {
        if originPosition.None? {
          originPosition, originRotation := Some(position), Some(rotation);
          originYaw := Some(YawPair(sqrt, rotation));
        }
        outputPosition := AnchoredPosition(position.Minus(originPosition.value));
        var normalizedDelta := Normalize(sqrt, rotation.Mul(originRotation.value.Conj()));
        if normalizedDelta.None? {
          return None;
        }
        outputRotation := normalizedDelta.value;
        if cfg.axes == UnitreeToUnity {
          outputRotation := ToUnityTransport(outputRotation);
        }
      }
      if lastOutputRotation.Some? && outputRotation.Dot(lastOutputRotation.value) < 0.0 {
        outputRotation := outputRotation.Neg();
      }
      lastOutputRotation := Some(outputRotation);
      return Some(Output(outputPosition, outputRotation));
    }
  }
}
