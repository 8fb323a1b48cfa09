/** Sequential retargeting of a dexterous hand (dexfull/vendors/dex_retargeting/seq_retarget.py, optimizer.py,
    optimizer_utils.py): the optimizer's index sets, its fallback, and the low-pass filter over frames.

    The nonlinear solver is an outcome: a vector inside the bounds it was given, or `None` for the
    RuntimeError it may raise. */
module Retargeting {
  import opened Arithmetic
  import opened Wrappers
  import opened MimicJoints

  const EPSILON := 0.001

  datatype Limits = Limits(lower: real, upper: real)

  const NO_LIMITS := Limits(-10000.0, 10000.0)

  function Clip(x: real, limits: Limits): real {
    var raised := if x < limits.lower then limits.lower else x;
    if raised > limits.upper then limits.upper else raised
  }

  // ------------------------------------------------------------------------------------------
  // Index sets.

  /** `[i for i in range(n) if i not in excluded]`. */
  function Others(n: nat, excluded: seq<nat>): (r: seq<nat>) {
    if n == 0 then []
    else Others(n - 1, excluded) + if n - 1 in excluded then [] else [n - 1]
  }

  function Without(s: seq<nat>, excluded: seq<nat>): (r: seq<nat>) {
    if s == [] then []
    else
      var n := |s| - 1;
      Without(s[..n], excluded) + if s[n] in excluded then [] else [s[n]]
  }

  lemma {:induction false} OthersMembers(n: nat, excluded: seq<nat>)
    ensures forall j: nat :: j in Others(n, excluded) <==> j < n && j !in excluded
    ensures Distinct(Others(n, excluded))
  {
    if n > 0 {
      OthersMembers(n - 1, excluded);
    }
  }

  lemma {:induction false} WithoutMembers(s: seq<nat>, excluded: seq<nat>)
    ensures forall j :: j in Without(s, excluded) <==> j in s && j !in excluded
    ensures Distinct(s) ==> Distinct(Without(s, excluded))
  {
    if s != [] {
      var n := |s| - 1;
      WithoutMembers(s[..n], excluded);
      assert s == s[..n] + [s[n]];
    }
  }

  lemma MembersInRange(s: seq<nat>, n: nat)
    requires forall j :: j in s ==> j < n
    ensures InRange(s, n)
  {
    forall k | 0 <= k < |s|
      ensures s[k] < n
    {
      assert s[k] in s;
    }
  }

  /** What the optimizer knows about the joints. */
  datatype Setup = Setup(dof: nat, pin2target: seq<nat>, pin2fixed: seq<nat>, adaptor: Option<Adaptor>) {
    ghost predicate Valid() {
      && InRange(pin2target, dof)
      && InRange(pin2fixed, dof)
      && Distinct(pin2fixed)
      && (adaptor.Some? ==> adaptor.value.Valid() && adaptor.value.dof == dof && adaptor.value.pin2target == pin2target)
      && Partition()
    }

    predicate IsMimic(j: nat) { adaptor.Some? && j in adaptor.value.pin2mimic }

    /** Every joint is a target, a mimic joint or fixed, and only one of these. */
    ghost predicate Partition() {
      forall j: nat :: j < dof ==>
        && (j in pin2target || IsMimic(j) || j in pin2fixed)
        && !(j in pin2target && j in pin2fixed)
        && !(IsMimic(j) && j in pin2fixed)
        && !(j in pin2target && IsMimic(j))
    }
  }

  function WithAdaptor(u: Setup, a: Adaptor): Setup {
    u.(adaptor := Some(a), pin2fixed := Without(u.pin2fixed, a.pin2mimic))
  }

  /** Targets, mimic joints and fixed joints partition all joints after the adaptor is set exactly when no mimic
      joint is a target and every mimic joint of an earlier adaptor stays one. */
  lemma PartitionIff(u: Setup, a: Adaptor)
    requires u.Valid() && InRange(a.pin2mimic, u.dof)
    ensures WithAdaptor(u, a).Partition() <==>
              && (forall j :: j in a.pin2mimic ==> j !in u.pin2target)
              && (forall j: nat :: j < u.dof && u.IsMimic(j) ==> j in a.pin2mimic)
  {
    WithoutMembers(u.pin2fixed, a.pin2mimic);
    forall j | j in a.pin2mimic
      ensures j < u.dof
    {
    }
    hide Without;
    var t := WithAdaptor(u, a);
    if t.Partition() {
      forall j | j in a.pin2mimic
        ensures j !in u.pin2target
      {
        assert t.IsMimic(j);
      }
      forall j: nat | j < u.dof && u.IsMimic(j)
        ensures j in a.pin2mimic
      {
        assert j in t.pin2target || t.IsMimic(j) || j in t.pin2fixed;
      }
    }
  }

  /** So the first adaptor, built for the optimizer's targets, keeps the optimizer valid. */
  lemma FirstAdaptorValid(u: Setup, a: Adaptor)
    requires u.Valid() && u.adaptor == None && a.Valid() && a.dof == u.dof && a.pin2target == u.pin2target
    ensures WithAdaptor(u, a).Valid()
  {
    PartitionIff(u, a);
    WithoutMembers(u.pin2fixed, a.pin2mimic);
    MembersInRange(u.pin2fixed, u.dof);
    MembersInRange(Without(u.pin2fixed, a.pin2mimic), u.dof);
    forall j | j in a.pin2mimic
      ensures j !in u.pin2target
    {
      var i :| 0 <= i < |a.pin2mimic| && a.pin2mimic[i] == j;
    }
    hide Without, Setup.Partition;
  }

  /** `Optimizer`. */
  class Optimizer {
    const dof: nat
    const pin2target: seq<nat>
    var pin2fixed: seq<nat>
    var adaptor: Option<Adaptor>
    var bounds: Option<seq<Limits>>

    ghost function View(): Setup
      reads this
    {
      Setup(dof, pin2target, pin2fixed, adaptor)
    }

    constructor (dof: nat, pin2target: seq<nat>, pin2fixed: seq<nat>)
      ensures View() == Setup(dof, pin2target, pin2fixed, None) && bounds == None
    {
      this.dof, this.pin2target, this.pin2fixed, this.adaptor, this.bounds := dof, pin2target, pin2fixed, None, None;
    }

    /** `__init__`: the targets must be joints of the robot; all other joints are fixed. */
    static method Create(names: seq<string>, target: seq<string>) returns (r: Result<Optimizer, string>)
      ensures r.Ok? <==> forall n :: n in target ==> n in names
      ensures r.Ok? ==> fresh(r.value) && r.value.View().Valid() && r.value.adaptor == None && r.value.bounds == None
      ensures r.Ok? ==> r.value.dof == |names| && Indices(names, target) == Ok(r.value.pin2target)
      ensures r.Err? ==> r.error in target && r.error !in names
    {
      var pin2target: seq<nat> := [];
      for i := 0 to |target|
        invariant Indices(names, target[..i]) == Ok(pin2target)
      {
        var k := Index(names, target[i]);
        IndicesSnoc(names, target, i);
        if k.None? {
          return Err(target[i]);
        }
        pin2target := pin2target + [k.value];
      }
      assert target[..|target|] == target;
      var pin2fixed: seq<nat> := [];
      for i := 0 to |names|
        invariant pin2fixed == Others(i, pin2target)
      {
        if i !in pin2target {
          pin2fixed := pin2fixed + [i];
        }
      }
      OthersMembers(|names|, pin2target);
      MembersInRange(pin2fixed, |names|);
      var o := new Optimizer(|names|, pin2target, pin2fixed);
      return Ok(o);
    }

    /** `set_kinematic_adaptor`: mimic joints leave the fixed joints. */
    method SetKinematicAdaptor(a: Adaptor)
      modifies this
      ensures View() == WithAdaptor(old(View()), a) && bounds == old(bounds)
    {
      adaptor := Some(a);
      var newFixed: seq<nat> := [];
      for i := 0 to |pin2fixed|
        invariant newFixed == Without(pin2fixed[..i], a.pin2mimic)
        invariant unchanged(`pin2fixed) && unchanged(`bounds) && adaptor == Some(a)
      {
        assert pin2fixed[..i + 1][..i] == pin2fixed[..i];
        if pin2fixed[i] !in a.pin2mimic {
          newFixed := newFixed + [pin2fixed[i]];
        }
      }
      assert pin2fixed[..|pin2fixed|] == pin2fixed;
      pin2fixed := newFixed;
    }

    /** `set_joint_limit`: the solver's bounds are the limits widened on both sides. */
    method SetJointLimit(limits: seq<Limits>) returns (ok: bool)
      modifies this`bounds
      ensures ok <==> |limits| == |pin2target|
      ensures bounds == if ok then Some(seq(|limits|, k requires 0 <= k < |limits| => Widened(limits[k]))) else old(bounds)
    {
      ok := |limits| == |pin2target|;
      if ok {
        bounds := Some(seq(|limits|, k requires 0 <= k < |limits| => Limits(limits[k].lower - 0.001, limits[k].upper + 0.001)));
        assert bounds.value == seq(|limits|, k requires 0 <= k < |limits| => Widened(limits[k]));
      }
    }
  }

  function Widened(l: Limits): Limits { Limits(l.lower - EPSILON, l.upper + EPSILON) }

  lemma IndicesSnoc(names: seq<string>, wanted: seq<string>, i: nat)
    requires i < |wanted| && Indices(names, wanted[..i]).Ok?
    ensures Index(names, wanted[i]).Some? ==>
              Indices(names, wanted[..i + 1]) == Ok(Indices(names, wanted[..i]).value + [Index(names, wanted[i]).value])
    ensures Index(names, wanted[i]).None? ==> wanted[i] !in names
  {
    assert wanted[..i + 1] == wanted[..i] + [wanted[i]];
    if Index(names, wanted[i]).Some? {
      var r := Indices(names, wanted[..i + 1]);
      assert r.value == Indices(names, wanted[..i]).value + [Index(names, wanted[i]).value] by {
        forall k | 0 <= k < i
          ensures r.value[k] == Indices(names, wanted[..i]).value[k]
        {
          assert wanted[..i + 1][k] == wanted[..i][k];
        }
        assert wanted[..i + 1][i] == wanted[i];
      }
    }
  }

  // ------------------------------------------------------------------------------------------
  // The low-pass filter.

  function BlendEntry(alpha: real, y: real, x: real): real { y + alpha * (x - y) }

  function Blend(alpha: real, y: Vector, x: Vector): (r: Vector)
    requires |x| == |y|
  {
    seq(|y|, k requires 0 <= k < |y| => BlendEntry(alpha, y[k], x[k]))
  }

  /** What the filter remembers and returns after `x`. */
  function Filtered(alpha: real, memory: Option<Vector>, x: Vector): Vector
    requires memory.Some? ==> |memory.value| == |x|
  {
    if memory.None? then x else Blend(alpha, memory.value, x)
  }

  class LPFilter {
    const alpha: real
    var y: Option<Vector>
    var isInit: bool

    ghost predicate Valid()
      reads this
    {
      isInit <==> y.Some?
    }

    constructor (alpha: real)
      ensures Valid() && this.alpha == alpha && y == None
    {
      this.alpha, y, isInit := alpha, None, false;
    }

    method Next(x: Vector) returns (r: Vector)
      requires Valid() && (y.Some? ==> |y.value| == |x|)
      modifies this
      ensures Valid() && r == Filtered(alpha, old(y), x) && y == Some(r)
    {
      if !isInit {
        y := Some(x);
        isInit := true;
        return x;
      }
      var memory := y.value;
      y := Some(seq(|x|, k requires 0 <= k < |x| => memory[k] + alpha * (x[k] - memory[k])));
      assert y.value == Blend(alpha, memory, x);
      return y.value;
    }

    method Reset()
      modifies this
      ensures Valid() && y == None
    {
      y, isInit := None, false;
    }
  }

  // ------------------------------------------------------------------------------------------
  // Retargeting one frame after another.

  /** What stays fixed over a session. `limits` is per joint of the robot. */
  datatype Session = Session(setup: Setup, hasLimits: bool, limits: seq<Limits>, alpha: Option<real>) {
    ghost predicate Valid() {
      && setup.Valid()
      && |limits| == setup.dof
      && forall j :: 0 <= j < |limits| ==> limits[j].lower <= limits[j].upper
    }

    function LimitOf(j: nat): Limits
      requires |limits| == setup.dof && j < setup.dof
    {
      if hasLimits then limits[j] else NO_LIMITS
    }
  }

  datatype State = State(last: Vector, count: nat, memory: Option<Vector>)

  /** A point of the solver's box; without joint limits the solver has no box. */
  ghost predicate HonoursBounds(u: Session, x: Vector)
    requires u.Valid()
  {
    && |x| == |u.setup.pin2target|
    && (u.hasLimits ==> forall k :: 0 <= k < |x| ==> Within(x[k], Widened(u.limits[u.setup.pin2target[k]])))
  }

  predicate Within(x: real, l: Limits) { l.lower <= x <= l.upper }

  function Clipped(u: Session, x: Vector): Vector
    requires u.Valid() && |x| == |u.setup.pin2target|
  {
    seq(|x|, k requires 0 <= k < |x| => Clip(x[k], u.LimitOf(u.setup.pin2target[k])))
  }

  /** `Optimizer.retarget`: the solver's point, or the clipped previous one when it fails. */
  function Solved(u: Session, last: Vector, outcome: Option<Vector>): (r: Vector)
    requires u.Valid() && |last| == |u.setup.pin2target|
  {
    if outcome.Some? then outcome.value else Clipped(u, last)
  }

  /** All joints for target values `x`. */
  function Assembled(u: Session, fixed: Vector, x: Vector): (r: Vector)
    requires u.Valid() && |fixed| == |u.setup.pin2fixed| && |x| == |u.setup.pin2target|
    ensures |r| == u.setup.dof
  {
    var q := Scatter(Scatter(Zeros(u.setup.dof), u.setup.pin2fixed, fixed), u.setup.pin2target, x);
    if u.setup.adaptor.Some? then u.setup.adaptor.value.Completed(q) else q
  }

  ghost predicate Reachable(u: Session, s: State) {
    |s.last| == |u.setup.pin2target| && (s.memory.Some? ==> |s.memory.value| == u.setup.dof)
  }

  /** One call of `retarget`: the state after it and the vector returned, or `None` when it raises. */
  function Retarget(u: Session, s: State, fixed: Vector, outcome: Option<Vector>): (State, Option<Vector>)
    requires u.Valid() && Reachable(u, s) && (outcome.Some? ==> HonoursBounds(u, outcome.value))
  {
    if |fixed| != |u.setup.pin2fixed| then (s, None)
    else
      var x := Solved(u, s.last, outcome);
      var q := Assembled(u, fixed, x);
      if u.alpha.None? then (State(x, s.count + 1, s.memory), Some(q))
      else
        var r := Filtered(u.alpha.value, s.memory, q);
        (State(x, s.count + 1, Some(r)), Some(r))
  }

  /** What a caller may do to the retargeter between frames. `WarmStart` stands for any new start values. */
  datatype Op =
    | Frame(fixed: Vector, outcome: Option<Vector>)
    | SetQpos(q: Vector)
    | WarmStart(last: Vector)
    | Reset
    | ResetFilter

  ghost predicate Sane(u: Session, op: Op)
    requires u.Valid()
  {
    match op
    case Frame(_, outcome) => outcome.Some? ==> HonoursBounds(u, outcome.value)
    case SetQpos(q) => |q| == u.setup.dof
    case WarmStart(last) => |last| == |u.setup.pin2target|
    case _ => true
  }

  function Middle(u: Session): (r: Vector)
    requires u.Valid()
  {
    seq(|u.setup.pin2target|, k requires 0 <= k < |u.setup.pin2target| =>
      var l := u.LimitOf(u.setup.pin2target[k]); (l.lower + l.upper) / 2.0)
  }

  function Step(u: Session, s: State, op: Op): (r: (State, Option<Vector>))
    requires u.Valid() && Reachable(u, s) && Sane(u, op)
    ensures Reachable(u, r.0)
  {
    match op
    case Frame(fixed, outcome) => Retarget(u, s, fixed, outcome)
    case SetQpos(q) => (s.(last := Gather(q, u.setup.pin2target)), None)
    case WarmStart(last) => (s.(last := last), None)
    case Reset => (State(Middle(u), 0, s.memory), None)
    case ResetFilter => (s.(memory := None), None)
  }

  ghost predicate SaneRun(u: Session, ops: seq<Op>)
    requires u.Valid()
  {
    forall i :: 0 <= i < |ops| ==> Sane(u, ops[i])
  }

  function After(u: Session, ops: seq<Op>): (s: State)
    requires u.Valid() && SaneRun(u, ops)
    ensures Reachable(u, s)
  {
    if ops == [] then State(Middle(u), 0, None)
    else Step(u, After(u, ops[..|ops| - 1]), ops[|ops| - 1]).0
  }

  /** What call `k` of a session returns. */
  function OutputAt(u: Session, ops: seq<Op>, k: nat): Option<Vector>
    requires u.Valid() && SaneRun(u, ops) && k < |ops|
  {
    Step(u, After(u, ops[..k]), ops[k]).1
  }

  // ------------------------------------------------------------------------------------------
  // One frame.

  /** A written position holds one of the values written to it. */
  lemma {:induction false} ScatterWritten(v: Vector, idx: seq<nat>, values: Vector, j: nat) returns (k: nat)
    requires InRange(idx, |v|) && |values| == |idx| && j < |v| && j in idx
    ensures k < |idx| && idx[k] == j && Scatter(v, idx, values)[j] == values[k]
  {
    var n := |idx| - 1;
    if idx[n] == j {
      k := n;
    } else {
      k := ScatterWritten(v, idx[..n], values[..n], j);
    }
  }

  lemma ClipWithin(x: real, l: Limits)
    requires l.lower <= l.upper
    ensures Within(Clip(x, l), l) && (Within(x, l) ==> Clip(x, l) == x)
  {
  }

  /** Every target joint is within its limits widened by epsilon. */
  ghost predicate TargetsWithin(u: Session, v: Vector)
    requires u.Valid() && |v| == u.setup.dof
  {
    forall j :: 0 <= j < u.setup.dof && j in u.setup.pin2target ==> Within(v[j], Widened(u.limits[j]))
  }

  ghost predicate LawHolds(u: Session, v: Vector)
    requires u.Valid() && |v| == u.setup.dof
  {
    u.setup.adaptor.Some? ==> Coupled(u.setup.adaptor.value, v)
  }

  lemma AssembledTargets(u: Session, fixed: Vector, x: Vector, j: nat) returns (k: nat)
    requires u.Valid() && |fixed| == |u.setup.pin2fixed| && |x| == |u.setup.pin2target| && j < u.setup.dof && j in u.setup.pin2target
    ensures k < |x| && u.setup.pin2target[k] == j && Assembled(u, fixed, x)[j] == x[k]
  {
    var base := Scatter(Zeros(u.setup.dof), u.setup.pin2fixed, fixed);
    k := ScatterWritten(base, u.setup.pin2target, x, j);
    if u.setup.adaptor.Some? {
      assert !u.setup.IsMimic(j);
      CompletedCoupled(u.setup.adaptor.value, Scatter(base, u.setup.pin2target, x));
    }
  }

  lemma AssembledWithin(u: Session, fixed: Vector, s: State, outcome: Option<Vector>)
    requires u.Valid() && Reachable(u, s) && |fixed| == |u.setup.pin2fixed| && u.hasLimits
    requires outcome.Some? ==> HonoursBounds(u, outcome.value)
    ensures TargetsWithin(u, Assembled(u, fixed, Solved(u, s.last, outcome)))
  {
    hide Assembled;
    var x := Solved(u, s.last, outcome);
    forall j: nat | j < u.setup.dof && j in u.setup.pin2target
      ensures Within(Assembled(u, fixed, x)[j], Widened(u.limits[j]))
    {
      var k := AssembledTargets(u, fixed, x, j);
      if outcome.None? {
        ClipWithin(s.last[k], u.limits[j]);
      }
    }
  }

  lemma AssembledLaw(u: Session, fixed: Vector, x: Vector)
    requires u.Valid() && |fixed| == |u.setup.pin2fixed| && |x| == |u.setup.pin2target|
    ensures LawHolds(u, Assembled(u, fixed, x))
  {
    if u.setup.adaptor.Some? {
      CompletedCoupled(u.setup.adaptor.value, Scatter(Scatter(Zeros(u.setup.dof), u.setup.pin2fixed, fixed), u.setup.pin2target, x));
    }
  }

  /** Fixed joints are passed through. */
  lemma AssembledFixed(u: Session, fixed: Vector, x: Vector, k: nat)
    requires u.Valid() && |fixed| == |u.setup.pin2fixed| && |x| == |u.setup.pin2target| && k < |fixed|
    ensures Assembled(u, fixed, x)[u.setup.pin2fixed[k]] == fixed[k]
  {
    var j := u.setup.pin2fixed[k];
    assert j in u.setup.pin2fixed;
    var base := Scatter(Zeros(u.setup.dof), u.setup.pin2fixed, fixed);
    ScatterHit(Zeros(u.setup.dof), u.setup.pin2fixed, fixed, k);
    ScatterMiss(base, u.setup.pin2target, x, j);
    if u.setup.adaptor.Some? {
      assert !u.setup.IsMimic(j);
      CompletedCoupled(u.setup.adaptor.value, Scatter(base, u.setup.pin2target, x));
    }
  }

  lemma BlendAffine(alpha: real, ys: real, xs: real, k: real, o: real)
    ensures BlendEntry(alpha, Prod(ys, k) + o, Prod(xs, k) + o) == Prod(BlendEntry(alpha, ys, xs), k) + o
  {
    assert alpha * (xs * k + o - (ys * k + o)) == alpha * (xs - ys) * k;
  }

  /** An affine law survives mixing frames, whatever the weight. */
  lemma BlendLaw(u: Session, alpha: real, y: Vector, x: Vector)
    requires u.Valid() && |x| == |y| == u.setup.dof && LawHolds(u, x) && LawHolds(u, y)
    ensures LawHolds(u, Blend(alpha, y, x))
  {
    hide BlendEntry, Prod;
    if u.setup.adaptor.Some? {
      var a := u.setup.adaptor.value;
      forall i | 0 <= i < |a.pin2mimic|
        ensures Blend(alpha, y, x)[a.pin2mimic[i]] == Prod(Blend(alpha, y, x)[a.pin2source[i]], a.multipliers[i]) + a.offsets[i]
      {
        BlendAffine(alpha, y[a.pin2source[i]], x[a.pin2source[i]], a.multipliers[i], a.offsets[i]);
      }
    }
  }

  lemma Portion(alpha: real, d: real)
    requires 0.0 <= alpha <= 1.0 && d >= 0.0
    ensures 0.0 <= Prod(alpha, d) <= d
  {
    ProdSign(alpha, d);
    ProdSign(1.0 - alpha, d);
    assert Prod(1.0 - alpha, d) == d - Prod(alpha, d);
  }

  lemma ProdSign(x: real, y: real)
    ensures x >= 0.0 && y >= 0.0 ==> Prod(x, y) >= 0.0
    ensures x > 0.0 && y > 0.0 ==> Prod(x, y) > 0.0
  {
  }

  lemma PortionNeg(alpha: real, d: real)
    ensures Prod(alpha, -d) == -Prod(alpha, d)
  {
  }

  lemma BlendBetween(alpha: real, y: real, x: real, l: Limits)
    requires 0.0 <= alpha <= 1.0 && Within(x, l) && Within(y, l)
    ensures Within(BlendEntry(alpha, y, x), l)
  {
    assert BlendEntry(alpha, y, x) == y + Prod(alpha, x - y);
    hide BlendEntry, Prod;
    if x >= y {
      Portion(alpha, x - y);
    } else {
      Portion(alpha, y - x);
      PortionNeg(alpha, y - x);
    }
  }

  lemma BlendWithin(u: Session, alpha: real, y: Vector, x: Vector)
    requires u.Valid() && |x| == |y| == u.setup.dof && TargetsWithin(u, x) && TargetsWithin(u, y) && 0.0 <= alpha <= 1.0
    ensures TargetsWithin(u, Blend(alpha, y, x))
  {
    hide BlendEntry;
    forall j: nat | j < u.setup.dof && j in u.setup.pin2target
      ensures Within(Blend(alpha, y, x)[j], Widened(u.limits[j]))
    {
      BlendBetween(alpha, y[j], x[j], Widened(u.limits[j]));
    }
  }

  // ------------------------------------------------------------------------------------------
  // Whole sessions.

  lemma {:induction false} MemoryLaw(u: Session, ops: seq<Op>)
    requires u.Valid() && SaneRun(u, ops)
    ensures var m := After(u, ops).memory; m.Some? ==> LawHolds(u, m.value)
  {
    if ops != [] {
      var n := |ops| - 1;
      MemoryLaw(u, ops[..n]);
      StepLaw(u, After(u, ops[..n]), ops[n]);
    }
  }

  lemma StepLaw(u: Session, s: State, op: Op)
    requires u.Valid() && Reachable(u, s) && Sane(u, op) && (s.memory.Some? ==> LawHolds(u, s.memory.value))
    ensures var (s', r) := Step(u, s, op);
         && (s'.memory.Some? ==> LawHolds(u, s'.memory.value))
         && (r.Some? ==> |r.value| == u.setup.dof && LawHolds(u, r.value))
  {
    hide LawHolds, Assembled, Blend;
    if op.Frame? && |op.fixed| == |u.setup.pin2fixed| {
      var x := Solved(u, s.last, op.outcome);
      var q := Assembled(u, op.fixed, x);
      AssembledLaw(u, op.fixed, x);
      if u.alpha.Some? && s.memory.Some? {
        BlendLaw(u, u.alpha.value, s.memory.value, q);
      }
    }
  }

  /** Every vector a session returns obeys every mimic law, although the filter mixes frames, for any
      filter weight and across resets, warm starts and solver failures. */
  lemma JointLaw(u: Session, ops: seq<Op>, k: nat)
    requires u.Valid() && SaneRun(u, ops) && k < |ops|
    ensures var r := OutputAt(u, ops, k); r.Some? ==> |r.value| == u.setup.dof && LawHolds(u, r.value)
  {
    MemoryLaw(u, ops[..k]);
    StepLaw(u, After(u, ops[..k]), ops[k]);
  }

  /** The weights the configuration builds a filter for. */
  predicate BuildableAlpha(alpha: real) { 0.0 <= alpha <= 1.0 }

  lemma StepWithin(u: Session, s: State, op: Op)
    requires u.Valid() && Reachable(u, s) && Sane(u, op) && u.hasLimits && (u.alpha.Some? ==> BuildableAlpha(u.alpha.value))
    requires s.memory.Some? ==> TargetsWithin(u, s.memory.value)
    ensures var (s', r) := Step(u, s, op);
         && (s'.memory.Some? ==> TargetsWithin(u, s'.memory.value))
         && (r.Some? ==> |r.value| == u.setup.dof && TargetsWithin(u, r.value))
  {
    hide TargetsWithin, Assembled, Blend;
    if op.Frame? && |op.fixed| == |u.setup.pin2fixed| {
      var q := Assembled(u, op.fixed, Solved(u, s.last, op.outcome));
      AssembledWithin(u, op.fixed, s, op.outcome);
      if u.alpha.Some? && s.memory.Some? {
        BlendWithin(u, u.alpha.value, s.memory.value, q);
      }
    }
  }

  lemma {:induction false} MemoryWithin(u: Session, ops: seq<Op>)
    requires u.Valid() && SaneRun(u, ops) && u.hasLimits && (u.alpha.Some? ==> BuildableAlpha(u.alpha.value))
    ensures var m := After(u, ops).memory; m.Some? ==> TargetsWithin(u, m.value)
  {
    if ops != [] {
      var n := |ops| - 1;
      MemoryWithin(u, ops[..n]);
      StepWithin(u, After(u, ops[..n]), ops[n]);
    }
  }

  ghost predicate StaysWithin(u: Session, ops: seq<Op>, k: nat)
    requires u.Valid() && SaneRun(u, ops) && k < |ops|
  {
    var r := OutputAt(u, ops, k);
    r.Some? ==> |r.value| == u.setup.dof && TargetsWithin(u, r.value)
  }

  /** With joint limits every target joint of every vector returned is within its limits widened by 0.001. */
  lemma JointLimits(u: Session, ops: seq<Op>, k: nat)
    requires u.Valid() && SaneRun(u, ops) && k < |ops| && u.hasLimits && (u.alpha.Some? ==> BuildableAlpha(u.alpha.value))
    ensures StaysWithin(u, ops, k)
    ensures var r := OutputAt(u, ops, k);
            r.Some? ==> forall i :: 0 <= i < |u.setup.pin2target| ==> var j := u.setup.pin2target[i];
                          u.limits[j].lower - 0.001 <= r.value[j] <= u.limits[j].upper + 0.001
  {
    MemoryWithin(u, ops[..k]);
    StepWithin(u, After(u, ops[..k]), ops[k]);
  }

  /** A call raises exactly on a wrong number of fixed joints, and then changes nothing; without a filter
      the fixed joints are returned as given. */
  lemma FixedJoints(u: Session, s: State, fixed: Vector, outcome: Option<Vector>)
    requires u.Valid() && Reachable(u, s) && (outcome.Some? ==> HonoursBounds(u, outcome.value))
    ensures var (s', r) := Retarget(u, s, fixed, outcome);
         && (r.None? <==> |fixed| != |u.setup.pin2fixed|)
         && (r.None? ==> s' == s)
         && (r.Some? ==> |r.value| == u.setup.dof)
         && (r.Some? && u.alpha.None? ==> forall k :: 0 <= k < |fixed| ==> r.value[u.setup.pin2fixed[k]] == fixed[k])
  {
    if |fixed| == |u.setup.pin2fixed| {
      var x := Solved(u, s.last, outcome);
      forall k | 0 <= k < |fixed|
        ensures Assembled(u, fixed, x)[u.setup.pin2fixed[k]] == fixed[k]
      {
        AssembledFixed(u, fixed, x, k);
      }
    }
  }

  function Lowest(u: Session): Vector
    requires u.Valid()
  {
    seq(|u.setup.pin2target|, k requires 0 <= k < |u.setup.pin2target| => Widened(u.limits[u.setup.pin2target[k]]).lower)
  }

  function Highest(u: Session): Vector
    requires u.Valid()
  {
    seq(|u.setup.pin2target|, k requires 0 <= k < |u.setup.pin2target| => Widened(u.limits[u.setup.pin2target[k]]).upper)
  }

  /** Two frames at opposite ends of the solver's box. */
  function Swing(u: Session): seq<Op>
    requires u.Valid()
  {
    var fixed := Zeros(|u.setup.pin2fixed|);
    [Frame(fixed, Some(Lowest(u)))] + [Frame(fixed, Some(Highest(u)))]
  }

  lemma SwingOutputs(u: Session)
    requires u.Valid() && u.alpha.Some?
    ensures SaneRun(u, Swing(u))
    ensures OutputAt(u, Swing(u), 1) ==
              Some(Blend(u.alpha.value, Assembled(u, Zeros(|u.setup.pin2fixed|), Lowest(u)), Assembled(u, Zeros(|u.setup.pin2fixed|), Highest(u))))
  {
    hide Assembled, Blend;
    var ops := Swing(u);
    assert HonoursBounds(u, Lowest(u)) && HonoursBounds(u, Highest(u));
    assert ops[..1] == [ops[0]] && ops[..1][..0] == [];
    assert After(u, ops[..1]) == Step(u, After(u, []), ops[0]).0;
  }

  lemma Overshoot(alpha: real, low: real, high: real)
    requires low < high && !BuildableAlpha(alpha)
    ensures !Within(BlendEntry(alpha, low, high), Limits(low, high))
  {
    if alpha > 1.0 {
      ProdSign(alpha - 1.0, high - low);
      assert BlendEntry(alpha, low, high) == high + Prod(alpha - 1.0, high - low);
    } else {
      ProdSign(-alpha, high - low);
      assert BlendEntry(alpha, low, high) == low - Prod(-alpha, high - low);
    }
  }

  /** The configuration builds a filter for exactly the weights that keep the limits in every session. */
  lemma JointLimitsIff(u: Session)
    requires u.Valid() && u.hasLimits && u.alpha.Some? && |u.setup.pin2target| > 0
    ensures BuildableAlpha(u.alpha.value) <==> forall ops, k: nat | SaneRun(u, ops) && k < |ops| :: StaysWithin(u, ops, k)
  {
    hide StaysWithin, SaneRun;
    if BuildableAlpha(u.alpha.value) {
      forall ops, k: nat | SaneRun(u, ops) && k < |ops|
        ensures StaysWithin(u, ops, k)
      {
        JointLimits(u, ops, k);
      }
    } else {
      SwingOutside(u);
    }
  }

  lemma SwingOutside(u: Session)
    requires u.Valid() && u.hasLimits && u.alpha.Some? && |u.setup.pin2target| > 0 && !BuildableAlpha(u.alpha.value)
    ensures SaneRun(u, Swing(u)) && |Swing(u)| == 2 && !StaysWithin(u, Swing(u), 1)
  {
    hide Assembled, BlendEntry;
    SwingOutputs(u);
    var fixed := Zeros(|u.setup.pin2fixed|);
    var j := u.setup.pin2target[0];
    assert j in u.setup.pin2target;
    var k := AssembledTargets(u, fixed, Lowest(u), j);
    var m := AssembledTargets(u, fixed, Highest(u), j);
    var l := Widened(u.limits[j]);
    Overshoot(u.alpha.value, l.lower, l.upper);
    assert !Within(OutputAt(u, Swing(u), 1).value[j], l);
  }

  // ------------------------------------------------------------------------------------------
  // How the filter follows.

  /** The joints of the solution a frame finds, before the filter; `None` when the call raises or is no frame. */
  function Solution(u: Session, s: State, op: Op): (r: Option<Vector>)
    requires u.Valid() && Reachable(u, s) && Sane(u, op)
    ensures r.Some? ==> |r.value| == u.setup.dof
  {
    if op.Frame? && |op.fixed| == |u.setup.pin2fixed| then Some(Assembled(u, op.fixed, Solved(u, s.last, op.outcome))) else None
  }

  /** The state after more calls. */
  function AfterFrom(u: Session, s: State, ops: seq<Op>): (t: State)
    requires u.Valid() && Reachable(u, s) && SaneRun(u, ops)
    ensures Reachable(u, t)
  {
    if ops == [] then s else Step(u, AfterFrom(u, s, ops[..|ops| - 1]), ops[|ops| - 1]).0
  }

  lemma {:induction false} AfterConcat(u: Session, start: seq<Op>, tail: seq<Op>)
    requires u.Valid() && SaneRun(u, start) && SaneRun(u, tail)
    ensures SaneRun(u, start + tail) && After(u, start + tail) == AfterFrom(u, After(u, start), tail)
  {
    hide Step, Sane;
    if tail == [] {
      assert start + tail == start;
    } else {
      var n := |tail| - 1;
      assert (start + tail)[..|start + tail| - 1] == start + tail[..n];
      AfterConcat(u, start, tail[..n]);
    }
  }

  /** From `s` on every frame that succeeds finds the solution `x`, and the filter is not reset. */
  ghost predicate Holding(u: Session, s: State, ops: seq<Op>, x: Vector)
    requires u.Valid() && Reachable(u, s) && SaneRun(u, ops)
  {
    ops == [] ||
    (var n := |ops| - 1;
     && Holding(u, s, ops[..n], x)
     && ops[n] != ResetFilter
     && Solution(u, AfterFrom(u, s, ops[..n]), ops[n]) in {None, Some(x)})
  }

  function Frames(u: Session, ops: seq<Op>): nat
    requires u.Valid()
  {
    if ops == [] then 0
    else
      var op := ops[|ops| - 1];
      Frames(u, ops[..|ops| - 1]) + if op.Frame? && |op.fixed| == |u.setup.pin2fixed| then 1 else 0
  }

  lemma BlendError(alpha: real, y: real, x: real)
    ensures BlendEntry(alpha, y, x) - x == (1.0 - alpha) * (y - x)
  {
  }

  /** A call changes the filter's memory exactly by blending in the solution it finds, and returns the memory. */
  lemma StepBlends(u: Session, s: State, op: Op)
    requires u.Valid() && Reachable(u, s) && Sane(u, op) && op != ResetFilter && u.alpha.Some? && s.memory.Some?
    ensures var (s', r) := Step(u, s, op); var x := Solution(u, s, op);
         && s'.memory == (if x.None? then s.memory else Some(Blend(u.alpha.value, s.memory.value, x.value)))
         && (x.Some? ==> r == s'.memory)
  {
    hide Assembled, Solved, Blend;
  }

  lemma BlendAt(alpha: real, y: Vector, x: Vector, j: nat)
    requires |x| == |y| && j < |x|
    ensures Blend(alpha, y, x)[j] - x[j] == (1.0 - alpha) * (y[j] - x[j])
  {
    BlendError(alpha, y[j], x[j]);
    hide BlendEntry;
  }

  /** The error of joint `j` against `x` is `factor` times what it was. */
  ghost predicate Shrunk(m: Option<Vector>, y: Vector, x: Vector, j: nat, factor: real) {
    m.Some? && |m.value| == |y| == |x| && j < |x| && m.value[j] - x[j] == factor * (y[j] - x[j])
  }

  lemma ShrinkOnce(alpha: real, m: Vector, y: Vector, x: Vector, j: nat, n: nat)
    requires Shrunk(Some(m), y, x, j, Power(1.0 - alpha, n))
    ensures Shrunk(Some(Blend(alpha, m, x)), y, x, j, Power(1.0 - alpha, n + 1))
  {
    BlendAt(alpha, m, x, j);
    PowerStep(1.0 - alpha, n, y[j] - x[j]);
    hide Power;
  }

  lemma ShrinkNothing(alpha: real, y: Vector, x: Vector, j: nat)
    requires |y| == |x| && j < |x|
    ensures Shrunk(Some(y), y, x, j, Power(1.0 - alpha, 0))
  {
  }

  lemma {:induction false} HoldingShrinks(u: Session, s: State, ops: seq<Op>, x: Vector, j: nat)
    requires u.Valid() && u.alpha.Some? && Reachable(u, s) && s.memory.Some? && SaneRun(u, ops)
    requires |x| == u.setup.dof && j < u.setup.dof && Holding(u, s, ops, x)
    ensures Shrunk(AfterFrom(u, s, ops).memory, s.memory.value, x, j, Power(1.0 - u.alpha.value, Frames(u, ops)))
  {
    hide Step, Solution, Blend, Power, Shrunk, Sane;
    if ops == [] {
      ShrinkNothing(u.alpha.value, s.memory.value, x, j);
    } else {
      var n := |ops| - 1;
      var t := AfterFrom(u, s, ops[..n]);
      HoldingShrinks(u, s, ops[..n], x, j);
      ShrunkSome(t.memory, s.memory.value, x, j, Power(1.0 - u.alpha.value, Frames(u, ops[..n])));
      StepBlends(u, t, ops[n]);
      if Solution(u, t, ops[n]).Some? {
        ShrinkOnce(u.alpha.value, t.memory.value, s.memory.value, x, j, Frames(u, ops[..n]));
      }
      SolutionFrames(u, t, ops[n]);
    }
  }

  lemma ShrunkSome(m: Option<Vector>, y: Vector, x: Vector, j: nat, factor: real)
    requires Shrunk(m, y, x, j, factor)
    ensures m.Some?
  {
  }

  lemma SolutionFrames(u: Session, s: State, op: Op)
    requires u.Valid() && Reachable(u, s) && Sane(u, op)
    ensures Solution(u, s, op).Some? <==> op.Frame? && |op.fixed| == |u.setup.pin2fixed|
  {
  }

  /** While the solution holds still, every joint the session returns approaches it: after any session, the
      error of the filter's memory shrinks by exactly `1 - alpha` per frame, across calls that raise, resets,
      warm starts and solver failures, and a last call that succeeds returns that memory. */
  lemma FilterConverges(u: Session, start: seq<Op>, tail: seq<Op>, x: Vector, j: nat)
    requires u.Valid() && u.alpha.Some? && SaneRun(u, start) && SaneRun(u, tail)
    requires |x| == u.setup.dof && j < u.setup.dof
    requires After(u, start).memory.Some? && Holding(u, After(u, start), tail, x)
    ensures SaneRun(u, start + tail)
    ensures Shrunk(After(u, start + tail).memory, After(u, start).memory.value, x, j, Power(1.0 - u.alpha.value, Frames(u, tail)))
    ensures tail != [] && OutputAt(u, start + tail, |start + tail| - 1).Some? ==>
              OutputAt(u, start + tail, |start + tail| - 1) == After(u, start + tail).memory
  {
    AfterConcat(u, start, tail);
    HoldingShrinks(u, After(u, start), tail, x, j);
    if tail != [] {
      var all := start + tail;
      LastOutput(u, After(u, all[..|all| - 1]), all[|all| - 1]);
    }
    hide Step, Holding, AfterFrom, Sane, Shrunk;
  }

  /** With a filter a call that succeeds returns the filter's memory. */
  lemma LastOutput(u: Session, s: State, op: Op)
    requires u.Valid() && Reachable(u, s) && Sane(u, op) && u.alpha.Some?
    ensures var (s', r) := Step(u, s, op); r.Some? ==> r == s'.memory
  {
    hide Assembled, Solved, Blend;
  }

  // ------------------------------------------------------------------------------------------
  // The class.

  /** `SeqRetargeting`. */
  class SeqRetargeting {
    ghost const u: Session
    const optimizer: Optimizer
    const jointLimits: seq<Limits>
    const filter: LPFilter?
    var lastQpos: Vector
    var numRetargeting: nat

    ghost predicate Valid()
      reads this, optimizer, filter
    {
      && u.Valid() && u.setup == optimizer.View()
      && |jointLimits| == |optimizer.pin2target|
      && (forall k :: 0 <= k < |jointLimits| ==> jointLimits[k] == u.LimitOf(optimizer.pin2target[k]))
      && (filter == null <==> u.alpha == None)
      && (filter != null ==> filter.Valid() && u.alpha == Some(filter.alpha))
      && Reachable(u, View())
    }

    ghost function View(): State
      reads this, filter
    {
      State(lastQpos, numRetargeting, if filter == null then None else filter.y)
    }

    /** The optimizer gets the limits of its targets; the first start point is the middle of the ranges. */
    constructor (optimizer: Optimizer, robotLimits: seq<Limits>, hasLimits: bool, filter: LPFilter?)
      requires optimizer.View().Valid() && (filter != null ==> filter.Valid() && filter.y == None)
      requires |robotLimits| == optimizer.dof && forall j :: 0 <= j < |robotLimits| ==> robotLimits[j].lower <= robotLimits[j].upper
      modifies optimizer`bounds
      ensures Valid() && View() == After(u, []) && this.optimizer == optimizer && this.filter == filter
      ensures u == Session(optimizer.View(), hasLimits, robotLimits, if filter == null then None else Some(filter.alpha))
      ensures hasLimits ==> optimizer.bounds.Some? && forall x :: HonoursBounds(u, x) <==> InBounds(optimizer.bounds.value, x)
      ensures !hasLimits ==> optimizer.bounds == old(optimizer.bounds)
    {
      u := Session(optimizer.View(), hasLimits, robotLimits, if filter == null then None else Some(filter.alpha));
      var targets := optimizer.pin2target;
      var limits := seq(|targets|, k requires 0 <= k < |targets| => if hasLimits then robotLimits[targets[k]] else NO_LIMITS);
      this.optimizer, this.filter, this.jointLimits := optimizer, filter, limits;
      lastQpos := seq(|targets|, k requires 0 <= k < |targets| => (limits[k].lower + limits[k].upper) / 2.0);
      numRetargeting := 0;
      new;
      if hasLimits {
        var ok := optimizer.SetJointLimit(limits);
      }
      assert lastQpos == Middle(u);
    }

    /** The array of all joints that `retarget` fills. */
    method Assemble(fixed: Vector, qpos: Vector) returns (robotQpos: array<real>)
      requires Valid() && |fixed| == |optimizer.pin2fixed| && |qpos| == |optimizer.pin2target|
      ensures fresh(robotQpos) && robotQpos[..] == Assembled(u, fixed, qpos)
    {
      robotQpos := new real[optimizer.dof](_ => 0.0);
      assert robotQpos[..] == Zeros(optimizer.dof);
      ScatterInto(robotQpos, optimizer.pin2fixed, fixed);
      ScatterInto(robotQpos, optimizer.pin2target, qpos);
      if optimizer.adaptor.Some? {
        ForwardQpos(optimizer.adaptor.value, robotQpos);
      }
    }

    method Retarget(fixed: Vector, outcome: Option<Vector>) returns (r: Option<Vector>)
      requires Valid() && (outcome.Some? ==> HonoursBounds(u, outcome.value))
      modifies this, filter
      ensures Valid() && (View(), r) == Step(u, old(View()), Frame(fixed, outcome))
    {
      if |fixed| != |optimizer.pin2fixed| {
        return None;
      }
      var last, limits := lastQpos, jointLimits;
      var clipped := seq(|last|, k requires 0 <= k < |last| && |last| == |limits| => Clip(last[k], limits[k]));
      assert clipped == Clipped(u, last);
      var qpos := if outcome.Some? then outcome.value else clipped;
      numRetargeting := numRetargeting + 1;
      lastQpos := qpos;
      var robotQpos := Assemble(fixed, qpos);
      if filter != null {
        var filtered := filter.Next(robotQpos[..]);
        return Some(filtered);
      }
      return Some(robotQpos[..]);
    }

    method SetQpos(q: Vector)
      requires Valid() && |q| == optimizer.dof
      modifies this
      ensures Valid() && View() == Step(u, old(View()), Op.SetQpos(q)).0
    {
      lastQpos := Gather(q, optimizer.pin2target);
    }

    /** The filter keeps its memory. */
    method Reset()
      requires Valid()
      modifies this
      ensures Valid() && View() == Step(u, old(View()), Op.Reset).0
    {
      var limits := jointLimits;
      lastQpos := seq(|limits|, k requires 0 <= k < |limits| => (limits[k].lower + limits[k].upper) / 2.0);
      numRetargeting := 0;
      assert lastQpos == Middle(u);
    }
  }

  predicate InBounds(bounds: seq<Limits>, x: Vector) {
    |x| == |bounds| && forall k :: 0 <= k < |x| ==> Within(x[k], bounds[k])
  }
}
