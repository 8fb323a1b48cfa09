/** Mimic joints of a dexterous hand (dexfull/vendors/dex_retargeting/kinematics_adaptor.py): joints that
    follow another joint by `multiplier * source + offset`, and the Jacobian seen by the optimizer. */
module MimicJoints {
  import opened Arithmetic
  import opened Wrappers

  type Vector = seq<real>

  // ------------------------------------------------------------------------------------------
  // NumPy fancy indexing.

  /** `list.index`: the first position of a name. */
  function Index(names: seq<string>, name: string): (r: Option<nat>)
    ensures r.Some? <==> name in names
    ensures r.Some? ==> r.value < |names| && names[r.value] == name && name !in names[..r.value]
  {
    if names == [] then None
    else if names[0] == name then Some(0)
    else
      match Index(names[1..], name)
      case None => None
      case Some(k) => assert names[..k + 1] == [names[0]] + names[1..][..k]; Some(k + 1)
  }

  ghost predicate InRange(idx: seq<nat>, n: nat) { forall k :: 0 <= k < |idx| ==> idx[k] < n }

  predicate Distinct<T(==)>(s: seq<T>) { forall i, j :: 0 <= i < j < |s| ==> s[i] != s[j] }

  /** `v[idx]`. */
  function Gather(v: Vector, idx: seq<nat>): (r: Vector)
    requires InRange(idx, |v|)
  {
    seq(|idx|, k requires 0 <= k < |idx| => v[idx[k]])
  }

  /** `v[idx] = values`: writes in order, so the last write to a position wins. */
  function Scatter(v: Vector, idx: seq<nat>, values: Vector): (r: Vector)
    requires InRange(idx, |v|) && |values| == |idx|
    ensures |r| == |v|
  {
    if idx == [] then v
    else
      var n := |idx| - 1;
      Scatter(v, idx[..n], values[..n])[idx[n] := values[n]]
  }

  function Plus(u: Vector, v: Vector): (r: Vector)
    requires |u| == |v|
  {
    seq(|u|, k requires 0 <= k < |u| => u[k] + v[k])
  }

  function Minus(u: Vector, v: Vector): (r: Vector)
    requires |u| == |v|
  {
    seq(|u|, k requires 0 <= k < |u| => u[k] - v[k])
  }

  function Zeros(n: nat): Vector { seq(n, k => 0.0) }

  function Dot(u: Vector, v: Vector): real
    requires |u| == |v|
  {
    if u == [] then 0.0
    else
      var n := |u| - 1;
      Dot(u[..n], v[..n]) + Prod(u[n], v[n])
  }

  // ------------------------------------------------------------------------------------------
  // The adaptor.

  datatype Error =
    | UnknownJoint(name: string)
    | MimicIsTarget
    | SourceNotTarget(name: string)
    | DimensionMismatch
    | RedundantMimic

  datatype Adaptor = Adaptor(dof: nat, pin2target: seq<nat>, pin2source: seq<nat>, pin2mimic: seq<nat>,
                             target2source: seq<nat>, multipliers: Vector, offsets: Vector) {
    /** What the constructor's checks leave. */
    ghost predicate Valid() {
      && |pin2source| == |pin2mimic| == |target2source| == |multipliers| == |offsets|
      && InRange(pin2target, dof) && InRange(pin2source, dof) && InRange(pin2mimic, dof)
      && InRange(target2source, |pin2target|)
      && (forall i :: 0 <= i < |pin2source| ==> pin2source[i] == pin2target[target2source[i]])
      && Distinct(pin2mimic)
      && (forall i :: 0 <= i < |pin2mimic| ==> pin2mimic[i] !in pin2target)
    }

    function MimicValues(q: Vector): (r: Vector)
      requires Valid() && |q| == dof
    {
      seq(|pin2mimic|, i requires 0 <= i < |pin2mimic| => Prod(q[pin2source[i]], multipliers[i]) + offsets[i])
    }

    /** `forward_qpos`. */
    function Completed(q: Vector): (r: Vector)
      requires Valid() && |q| == dof
      ensures |r| == dof
    {
      Scatter(q, pin2mimic, MimicValues(q))
    }

    /** The joint vector the objective evaluates for target values `x`. */
    function Full(q: Vector, x: Vector): (r: Vector)
      requires Valid() && |q| == dof && |x| == |pin2target|
    {
      Completed(Scatter(q, pin2target, x))
    }

    /** One row of `backward_jacobian` after the first `k` mimic joints. */
    function Accumulated(row: Vector, k: nat): (r: Vector)
      requires Valid() && |row| == dof && k <= |pin2mimic|
      ensures |r| == |pin2target|
    {
      if k == 0 then Gather(row, pin2target)
      else
        var r := Accumulated(row, k - 1);
        var t := target2source[k - 1];
        r[t := r[t] + Prod(row[pin2mimic[k - 1]], multipliers[k - 1])]
    }

    /** One row of `backward_jacobian`. */
    function Backward(row: Vector): (r: Vector)
      requires Valid() && |row| == dof
      ensures |r| == |pin2target|
    {
      Accumulated(row, |pin2mimic|)
    }
  }

  /** `[index(n) for n in wanted]`, or the first name that is missing. */
  function Indices(names: seq<string>, wanted: seq<string>): (r: Result<seq<nat>, string>)
    ensures r.Ok? <==> forall n :: n in wanted ==> n in names
    ensures r.Ok? ==> |r.value| == |wanted| && InRange(r.value, |names|)
    ensures r.Ok? ==> forall k :: 0 <= k < |wanted| ==> Index(names, wanted[k]) == Some(r.value[k])
    ensures r.Err? ==> r.error in wanted && r.error !in names
  {
    if wanted == [] then Ok([])
    else
      assert forall n :: n in wanted <==> n == wanted[0] || n in wanted[1..];
      match Index(names, wanted[0])
      case None => Err(wanted[0])
      case Some(k) =>
        match Indices(names, wanted[1..])
        case Err(e) => Err(e)
        case Ok(rest) => Ok([k] + rest)
  }

  /** The constructor, whose checks run in this order. */
  function Create(names: seq<string>, target: seq<string>, source: seq<string>, mimic: seq<string>,
                  multipliers: Vector, offsets: Vector): Result<Adaptor, Error> {
    match Indices(names, target)
    case Err(e) => Err(UnknownJoint(e))
    case Ok(pin2target) =>
      if exists m :: m in mimic && m in target then Err(MimicIsTarget)
      else
        match Indices(names, source)
        case Err(e) => Err(UnknownJoint(e))
        case Ok(pin2source) =>
          match Indices(names, mimic)
          case Err(e) => Err(UnknownJoint(e))
          case Ok(pin2mimic) =>
            match Indices(target, source)
            case Err(e) => Err(SourceNotTarget(e))
            case Ok(target2source) =>
              if !(|mimic| == |source| == |multipliers| == |offsets|) then Err(DimensionMismatch)
              else if !Distinct(mimic) then Err(RedundantMimic)
              else Ok(Adaptor(|names|, pin2target, pin2source, pin2mimic, target2source, multipliers, offsets))
  }

  /** The constructor accepts exactly these settings. */
  lemma CreateAccepts(names: seq<string>, target: seq<string>, source: seq<string>, mimic: seq<string>,
                      multipliers: Vector, offsets: Vector)
    ensures Create(names, target, source, mimic, multipliers, offsets).Ok? <==>
              && (forall n :: n in target || n in mimic ==> n in names)
              && (forall n :: n in source ==> n in target)
              && (forall n :: n in mimic ==> n !in target)
              && |mimic| == |source| == |multipliers| == |offsets|
              && Distinct(mimic)
  {
  }

  lemma CreateParts(names: seq<string>, target: seq<string>, source: seq<string>, mimic: seq<string>,
                    multipliers: Vector, offsets: Vector)
    requires Create(names, target, source, mimic, multipliers, offsets).Ok?
    ensures var a := Create(names, target, source, mimic, multipliers, offsets).value;
         && Indices(names, target) == Ok(a.pin2target) && Indices(names, source) == Ok(a.pin2source)
         && Indices(names, mimic) == Ok(a.pin2mimic) && Indices(target, source) == Ok(a.target2source)
         && |mimic| == |source| == |multipliers| == |offsets| && Distinct(mimic) && (forall m :: m in mimic ==> m !in target)
         && a.dof == |names| && a.multipliers == multipliers && a.offsets == offsets
  {
  }

  /** Whatever it accepts satisfies the invariant. */
  lemma CreateValid(names: seq<string>, target: seq<string>, source: seq<string>, mimic: seq<string>,
                    multipliers: Vector, offsets: Vector)
    requires Create(names, target, source, mimic, multipliers, offsets).Ok?
    ensures Create(names, target, source, mimic, multipliers, offsets).value.Valid()
  {
    CreateParts(names, target, source, mimic, multipliers, offsets);
    var a := Create(names, target, source, mimic, multipliers, offsets).value;
    hide Create, Indices, Index;
    SameNames(names, target, a.pin2target);
    SameNames(names, mimic, a.pin2mimic);
    SourcesAreTargets(names, target, source, a.pin2target, a.pin2source, a.target2source);
    forall i | 0 <= i < |a.pin2mimic|
      ensures a.pin2mimic[i] !in a.pin2target
    {
      assert mimic[i] in mimic;
    }
  }

  /** The indices are those of the named joints, so targets are distinct joints exactly when their names are. */
  lemma CreateNames(names: seq<string>, target: seq<string>, source: seq<string>, mimic: seq<string>,
                    multipliers: Vector, offsets: Vector)
    requires Create(names, target, source, mimic, multipliers, offsets).Ok?
    ensures var a := Create(names, target, source, mimic, multipliers, offsets).value;
         && |a.pin2target| == |target| && |a.pin2mimic| == |mimic| && |a.pin2source| == |source|
         && InRange(a.pin2target, |names|) && InRange(a.pin2mimic, |names|) && InRange(a.pin2source, |names|)
         && (Distinct(a.pin2target) <==> Distinct(target))
         && (forall k :: 0 <= k < |target| ==> names[a.pin2target[k]] == target[k])
         && (forall i :: 0 <= i < |mimic| ==> names[a.pin2mimic[i]] == mimic[i])
         && (forall i :: 0 <= i < |source| ==> names[a.pin2source[i]] == source[i])
  {
    CreateParts(names, target, source, mimic, multipliers, offsets);
    var a := Create(names, target, source, mimic, multipliers, offsets).value;
    hide Create, Indices, Index;
    SameNames(names, target, a.pin2target);
    SameNames(names, mimic, a.pin2mimic);
    SameNames(names, source, a.pin2source);
  }

  lemma SourcesAreTargets(names: seq<string>, target: seq<string>, source: seq<string>,
                          pin2target: seq<nat>, pin2source: seq<nat>, target2source: seq<nat>)
    requires Indices(names, target) == Ok(pin2target) && Indices(names, source) == Ok(pin2source)
    requires Indices(target, source) == Ok(target2source)
    ensures InRange(target2source, |pin2target|)
    ensures forall i :: 0 <= i < |source| ==> pin2source[i] == pin2target[target2source[i]]
  {
    hide Index, Indices;
    forall i | 0 <= i < |source|
      ensures pin2source[i] == pin2target[target2source[i]]
    {
      assert Index(target, source[i]) == Some(target2source[i]);
      assert Index(names, source[i]) == Some(pin2source[i]);
    }
  }

  lemma SameNames(names: seq<string>, wanted: seq<string>, idx: seq<nat>)
    requires Indices(names, wanted) == Ok(idx)
    ensures Distinct(idx) <==> Distinct(wanted)
    ensures forall k :: 0 <= k < |idx| ==> idx[k] < |names| && names[idx[k]] == wanted[k]
  {
    forall k | 0 <= k < |idx|
      ensures idx[k] < |names| && names[idx[k]] == wanted[k]
    {
      assert Index(names, wanted[k]) == Some(idx[k]);
    }
  }

  // ------------------------------------------------------------------------------------------
  // Scattering.

  /** A position nothing is written to keeps its value. */
  lemma {:induction false} ScatterMiss(v: Vector, idx: seq<nat>, values: Vector, j: nat)
    requires InRange(idx, |v|) && |values| == |idx| && j < |v| && j !in idx
    ensures Scatter(v, idx, values)[j] == v[j]
  {
    if idx != [] {
      var n := |idx| - 1;
      ScatterMiss(v, idx[..n], values[..n], j);
    }
  }

  /** A position holds the last value written to it. */
  lemma {:induction false} ScatterHit(v: Vector, idx: seq<nat>, values: Vector, k: nat)
    requires InRange(idx, |v|) && |values| == |idx| && k < |idx| && idx[k] !in idx[k + 1..]
    ensures Scatter(v, idx, values)[idx[k]] == values[k]
  {
    var n := |idx| - 1;
    if k < n {
      assert idx[k + 1..][n - k - 1] == idx[n];
      assert idx[..n][k + 1..] == idx[k + 1..][..n - k - 1];
      ScatterHit(v, idx[..n], values[..n], k);
    }
  }

  /** Scattering is linear, duplicates or not. */
  lemma {:induction false} ScatterMinus(u: Vector, v: Vector, idx: seq<nat>, x: Vector, y: Vector)
    requires |u| == |v| && InRange(idx, |u|) && |x| == |y| == |idx|
    ensures Minus(Scatter(u, idx, x), Scatter(v, idx, y)) == Scatter(Minus(u, v), idx, Minus(x, y))
  {
    if idx != [] {
      var n := |idx| - 1;
      ScatterMinus(u, v, idx[..n], x[..n], y[..n]);
      assert Minus(x, y)[..n] == Minus(x[..n], y[..n]);
    }
  }

  lemma {:induction false} DotUpdate(u: Vector, v: Vector, j: nat, x: real)
    requires |u| == |v| && j < |u|
    ensures Dot(u, v[j := x]) == Dot(u, v) + Prod(u[j], x - v[j])
  {
    var n := |u| - 1;
    if j == n {
      assert v[j := x][..n] == v[..n];
      ProdMinus(u[n], x, v[n]);
    } else {
      DotUpdate(u[..n], v[..n], j, x);
      assert v[j := x][..n] == v[..n][j := x];
    }
  }

  lemma ProdMinus(k: real, x: real, y: real)
    ensures Prod(k, x - y) == Prod(k, x) - Prod(k, y)
  {
  }

  lemma ProdSwap(x: real, y: real, z: real)
    ensures Prod(x, y) == Prod(y, x) && Prod(Prod(x, y), z) == Prod(x, Prod(z, y))
  {
  }

  lemma {:induction false} DotSwap(u: Vector, v: Vector)
    requires |u| == |v|
    ensures Dot(u, v) == Dot(v, u)
  {
    if u != [] {
      var n := |u| - 1;
      DotSwap(u[..n], v[..n]);
      ProdSwap(u[n], v[n], 0.0);
    }
  }

  /** The product with a scattered vector is the product of the gathered entries. */
  lemma {:induction false} DotScatter(u: Vector, v: Vector, idx: seq<nat>, values: Vector)
    requires |u| == |v| && InRange(idx, |v|) && |values| == |idx| && Distinct(idx)
    requires forall k :: 0 <= k < |idx| ==> v[idx[k]] == 0.0
    ensures Dot(u, Scatter(v, idx, values)) == Dot(u, v) + Dot(Gather(u, idx), values)
  {
    if idx != [] {
      var n := |idx| - 1;
      DotScatter(u, v, idx[..n], values[..n]);
      var w := Scatter(v, idx[..n], values[..n]);
      DotUpdate(u, w, idx[n], values[n]);
      ScatterMiss(v, idx[..n], values[..n], idx[n]);
      assert Gather(u, idx)[..n] == Gather(u, idx[..n]);
    }
  }

  lemma {:induction false} DotZeros(u: Vector)
    ensures Dot(u, Zeros(|u|)) == 0.0
  {
    if u != [] {
      var n := |u| - 1;
      assert Zeros(|u|)[..n] == Zeros(n);
      DotZeros(u[..n]);
    }
  }

  // ------------------------------------------------------------------------------------------
  // The chain rule.

  /** What the change of the mimic joints is for a change `dx` of the targets. */
  function MimicChange(a: Adaptor, dx: Vector): (r: Vector)
    requires a.Valid() && |dx| == |a.pin2target|
  {
    seq(|a.pin2mimic|, i requires 0 <= i < |a.pin2mimic| => Prod(dx[a.target2source[i]], a.multipliers[i]))
  }

  function TargetChange(a: Adaptor, dx: Vector): (r: Vector)
    requires a.Valid() && |dx| == |a.pin2target|
    ensures |r| == a.dof
  {
    Scatter(Zeros(a.dof), a.pin2target, dx)
  }

  lemma ProdDifference(x: real, dx: real, y: real, k: real)
    requires y == x + dx
    ensures Prod(y, k) - Prod(x, k) == Prod(dx, k)
  {
  }

  /** One mimic joint changes with its source. */
  lemma MimicValueChange(a: Adaptor, q: Vector, x: Vector, dx: Vector, i: nat)
    requires a.Valid() && |q| == a.dof && |x| == |dx| == |a.pin2target| && Distinct(a.pin2target) && i < |a.pin2mimic|
    ensures a.MimicValues(Scatter(q, a.pin2target, Plus(x, dx)))[i] - a.MimicValues(Scatter(q, a.pin2target, x))[i] == MimicChange(a, dx)[i]
  {
    var t := a.target2source[i];
    ScatterHit(q, a.pin2target, Plus(x, dx), t);
    ScatterHit(q, a.pin2target, x, t);
    ProdDifference(x[t], dx[t], Plus(x, dx)[t], a.multipliers[i]);
    hide Prod, Scatter, Distinct;
  }

  lemma MinusIs(u: Vector, v: Vector, w: Vector)
    requires |u| == |v| == |w| && forall i :: 0 <= i < |u| ==> u[i] - v[i] == w[i]
    ensures Minus(u, v) == w
  {
  }

  lemma MimicLengths(a: Adaptor, q: Vector, dx: Vector)
    requires a.Valid() && |q| == a.dof && |dx| == |a.pin2target|
    ensures |a.MimicValues(q)| == |MimicChange(a, dx)| == |a.pin2mimic|
  {
  }

  lemma MimicValuesChange(a: Adaptor, q: Vector, x: Vector, dx: Vector)
    requires a.Valid() && |q| == a.dof && |x| == |dx| == |a.pin2target| && Distinct(a.pin2target)
    ensures |a.MimicValues(Scatter(q, a.pin2target, Plus(x, dx)))| == |a.MimicValues(Scatter(q, a.pin2target, x))|
    ensures Minus(a.MimicValues(Scatter(q, a.pin2target, Plus(x, dx))), a.MimicValues(Scatter(q, a.pin2target, x))) == MimicChange(a, dx)
  {
    MinusSame(q, x, dx);
    hide Prod, Scatter, Distinct, Plus, Minus, MimicChange, Adaptor.MimicValues;
    var u, v := Scatter(q, a.pin2target, Plus(x, dx)), Scatter(q, a.pin2target, x);
    MimicLengths(a, u, dx);
    MimicLengths(a, v, dx);
    forall i | 0 <= i < |a.pin2mimic|
      ensures a.MimicValues(u)[i] - a.MimicValues(v)[i] == MimicChange(a, dx)[i]
    {
      MimicValueChange(a, q, x, dx, i);
    }
    MinusIs(a.MimicValues(u), a.MimicValues(v), MimicChange(a, dx));
  }

  /** The change of the completed joint vector does not depend on where it starts. */
  lemma FullChange(a: Adaptor, q: Vector, x: Vector, dx: Vector)
    requires a.Valid() && |q| == a.dof && |x| == |dx| == |a.pin2target| && Distinct(a.pin2target)
    ensures Minus(a.Full(q, Plus(x, dx)), a.Full(q, x)) == Scatter(TargetChange(a, dx), a.pin2mimic, MimicChange(a, dx))
  {
    var u, v := Scatter(q, a.pin2target, Plus(x, dx)), Scatter(q, a.pin2target, x);
    MinusSame(q, x, dx);
    MimicValuesChange(a, q, x, dx);
    hide Scatter, Minus, Plus, Distinct, MimicChange, Adaptor.MimicValues;
    ScatterMinus(q, q, a.pin2target, Plus(x, dx), x);
    ScatterMinus(u, v, a.pin2mimic, a.MimicValues(u), a.MimicValues(v));
  }

  lemma MinusSame(q: Vector, x: Vector, dx: Vector)
    requires |x| == |dx|
    ensures |Plus(x, dx)| == |x| && Minus(q, q) == Zeros(|q|) && Minus(Plus(x, dx), x) == dx
  {
  }

  lemma DotEmpty()
    ensures Dot([], []) == 0.0
  {
  }

  lemma DotSnoc(u: Vector, v: Vector, n: nat)
    requires |u| == |v| && n < |u|
    ensures Dot(u[..n + 1], v[..n + 1]) == Dot(u[..n], v[..n]) + Prod(u[n], v[n])
  {
    assert u[..n + 1][..n] == u[..n] && v[..n + 1][..n] == v[..n];
  }

  lemma {:induction false} AccumulatedDot(a: Adaptor, row: Vector, k: nat, dx: Vector)
    requires a.Valid() && |row| == a.dof && k <= |a.pin2mimic| && |dx| == |a.pin2target|
    ensures Dot(a.Accumulated(row, k), dx)
         == Dot(Gather(row, a.pin2target), dx) + Dot(Gather(row, a.pin2mimic)[..k], MimicChange(a, dx)[..k])
  {
    hide Prod, Dot;
    if k == 0 {
      DotEmpty();
    } else {
      AccumulatedDot(a, row, k - 1, dx);
      var r, t, m := a.Accumulated(row, k - 1), a.target2source[k - 1], row[a.pin2mimic[k - 1]];
      var added := Prod(m, a.multipliers[k - 1]);
      DotSwap(r, dx);
      DotUpdate(dx, r, t, r[t] + added);
      DotSwap(dx, r[t := r[t] + added]);
      ProdSwap(dx[t], added, 0.0);
      ProdSwap(m, a.multipliers[k - 1], dx[t]);
      DotSnoc(Gather(row, a.pin2mimic), MimicChange(a, dx), k - 1);
    }
  }

  /** `backward_jacobian` applied to a target step is the Jacobian applied to the change of all joints. */
  ghost predicate ChainRule(a: Adaptor, row: Vector, q: Vector, x: Vector, dx: Vector)
    requires a.Valid() && |row| == |q| == a.dof && |x| == |dx| == |a.pin2target|
  {
    Dot(a.Backward(row), dx) == Dot(row, Minus(a.Full(q, Plus(x, dx)), a.Full(q, x)))
  }

  lemma DistinctChainRule(a: Adaptor, row: Vector, q: Vector, x: Vector, dx: Vector)
    requires a.Valid() && |row| == |q| == a.dof && |x| == |dx| == |a.pin2target| && Distinct(a.pin2target)
    ensures ChainRule(a, row, q, x, dx)
  {
    FullChange(a, q, x, dx);
    var base := TargetChange(a, dx);
    forall i | 0 <= i < |a.pin2mimic|
      ensures base[a.pin2mimic[i]] == 0.0
    {
      ScatterMiss(Zeros(a.dof), a.pin2target, dx, a.pin2mimic[i]);
    }
    DotScatter(row, base, a.pin2mimic, MimicChange(a, dx));
    DotScatter(row, Zeros(a.dof), a.pin2target, dx);
    DotZeros(row);
    AccumulatedDot(a, row, |a.pin2mimic|, dx);
    assert Gather(row, a.pin2mimic)[..|a.pin2mimic|] == Gather(row, a.pin2mimic);
    assert MimicChange(a, dx)[..|a.pin2mimic|] == MimicChange(a, dx);
  }

  /** The vector with a one at `s`. */
  function Single(n: nat, s: nat): Vector { seq(n, k => if k == s then 1.0 else 0.0) }

  lemma DotSingle(u: Vector, s: nat)
    requires s < |u|
    ensures Dot(u, Single(|u|, s)) == u[s]
  {
    assert Prod(u[s], 1.0 - 0.0) == u[s];
    hide Prod, Dot;
    DotUpdate(u, Zeros(|u|), s, 1.0);
    DotZeros(u);
    assert Single(|u|, s) == Zeros(|u|)[s := 1.0];
  }

  /** A one written at `s` is gone once position `p` is written again at `t`. */
  lemma {:induction false} Overwritten(n: nat, idx: seq<nat>, s: nat, t: nat, p: nat, j: nat)
    requires InRange(idx, n) && j < n && s < t
    requires (s < |idx| ==> idx[s] == p) && (t < |idx| ==> idx[t] == p) && (j != p || t < |idx|)
    ensures Scatter(Zeros(n), idx, Single(|idx|, s))[j] == 0.0
  {
    if idx != [] {
      var m := |idx| - 1;
      assert Single(|idx|, s)[..m] == Single(m, s);
      if idx[m] != j {
        Overwritten(n, idx[..m], s, t, p, j);
      }
    }
  }

  lemma {:induction false} AccumulatedUncoupled(a: Adaptor, row: Vector, k: nat)
    requires a.Valid() && |row| == a.dof && k <= |a.pin2mimic|
    requires forall i :: 0 <= i < |a.pin2mimic| ==> row[a.pin2mimic[i]] == 0.0
    ensures a.Accumulated(row, k) == Gather(row, a.pin2target)
  {
    if k > 0 {
      AccumulatedUncoupled(a, row, k - 1);
      assert Prod(0.0, a.multipliers[k - 1]) == 0.0;
    }
  }

  /** A target listed twice gets the full derivative at both places, but only the last one moves the joint. */
  lemma DuplicateBreaksChainRule(a: Adaptor, s: nat, t: nat, q: Vector, x: Vector)
    requires a.Valid() && s < t < |a.pin2target| && a.pin2target[s] == a.pin2target[t]
    requires |q| == a.dof && |x| == |a.pin2target|
    ensures !ChainRule(a, Single(a.dof, a.pin2target[s]), q, x, Single(|a.pin2target|, s))
  {
    var p, n := a.pin2target[s], |a.pin2target|;
    var row, dx := Single(a.dof, p), Single(n, s);
    AccumulatedUncoupled(a, row, |a.pin2mimic|);
    DotSingle(a.Backward(row), s);
    var u, v := Scatter(q, a.pin2target, Plus(x, dx)), Scatter(q, a.pin2target, x);
    ScatterMinus(q, q, a.pin2target, Plus(x, dx), x);
    assert Minus(q, q) == Zeros(a.dof) && Minus(Plus(x, dx), x) == dx;
    forall j | 0 <= j < a.dof
      ensures u[j] == v[j]
    {
      Overwritten(a.dof, a.pin2target, s, t, p, j);
      assert Minus(u, v)[j] == 0.0;
    }
    assert u == v;
    assert Minus(a.Full(q, Plus(x, dx)), a.Full(q, x)) == Zeros(a.dof);
    DotZeros(row);
  }

  /** `backward_jacobian` is the exact chain rule for `forward_qpos`, whatever sources the mimic joints
      share, exactly when no target joint is listed twice. */
  lemma ChainRuleIff(a: Adaptor)
    requires a.Valid()
    ensures Distinct(a.pin2target) <==>
              forall row: Vector, q: Vector, x: Vector, dx: Vector
                | |row| == |q| == a.dof && |x| == |dx| == |a.pin2target| :: ChainRule(a, row, q, x, dx)
  {
    hide ChainRule;
    if Distinct(a.pin2target) {
      forall row: Vector, q: Vector, x: Vector, dx: Vector | |row| == |q| == a.dof && |x| == |dx| == |a.pin2target|
        ensures ChainRule(a, row, q, x, dx)
      {
        DistinctChainRule(a, row, q, x, dx);
      }
    } else {
      var s, t :| 0 <= s < t < |a.pin2target| && a.pin2target[s] == a.pin2target[t];
      DuplicateBreaksChainRule(a, s, t, Zeros(a.dof), Zeros(|a.pin2target|));
      assert |Single(a.dof, a.pin2target[s])| == |Zeros(a.dof)| == a.dof;
      assert |Single(|a.pin2target|, s)| == |Zeros(|a.pin2target|)| == |a.pin2target|;
    }
  }

  // ------------------------------------------------------------------------------------------
  // The joint law.

  /** Every mimic joint obeys its law. */
  ghost predicate Coupled(a: Adaptor, v: Vector)
    requires a.Valid() && |v| == a.dof
  {
    forall i :: 0 <= i < |a.pin2mimic| ==> v[a.pin2mimic[i]] == Prod(v[a.pin2source[i]], a.multipliers[i]) + a.offsets[i]
  }

  /** `forward_qpos` establishes the law and leaves every other joint alone. */
  lemma CompletedCoupled(a: Adaptor, q: Vector)
    requires a.Valid() && |q| == a.dof
    ensures Coupled(a, a.Completed(q))
    ensures forall j :: 0 <= j < a.dof && j !in a.pin2mimic ==> a.Completed(q)[j] == q[j]
  {
    var values := a.MimicValues(q);
    forall i | 0 <= i < |a.pin2mimic|
      ensures a.Completed(q)[a.pin2mimic[i]] == values[i] && a.Completed(q)[a.pin2source[i]] == q[a.pin2source[i]]
    {
      ScatterHit(q, a.pin2mimic, values, i);
      assert a.pin2source[i] in a.pin2target;
      ScatterMiss(q, a.pin2mimic, values, a.pin2source[i]);
    }
    forall j | 0 <= j < a.dof && j !in a.pin2mimic
      ensures a.Completed(q)[j] == q[j]
    {
      ScatterMiss(q, a.pin2mimic, values, j);
    }
  }

  /** It changes nothing exactly when the law already holds, so it is idempotent. */
  lemma CompletedFixpoint(a: Adaptor, q: Vector)
    requires a.Valid() && |q| == a.dof
    ensures a.Completed(q) == q <==> Coupled(a, q)
    ensures a.Completed(a.Completed(q)) == a.Completed(q)
  {
    CompletedCoupled(a, q);
    CoupledFixed(a, q);
    CoupledFixed(a, a.Completed(q));
  }

  lemma CoupledFixed(a: Adaptor, q: Vector)
    requires a.Valid() && |q| == a.dof
    ensures Coupled(a, q) ==> a.Completed(q) == q
  {
    if Coupled(a, q) {
      CompletedCoupled(a, q);
      forall j | 0 <= j < a.dof
        ensures a.Completed(q)[j] == q[j]
      {
        if j in a.pin2mimic {
          var i :| 0 <= i < |a.pin2mimic| && a.pin2mimic[i] == j;
          ScatterHit(q, a.pin2mimic, a.MimicValues(q), i);
        }
      }
    }
  }

  // ------------------------------------------------------------------------------------------
  // The methods.

  /** `q[idx] = values`, in place. */
  method ScatterInto(q: array<real>, idx: seq<nat>, values: Vector)
    requires InRange(idx, q.Length) && |values| == |idx|
    modifies q
    ensures q[..] == Scatter(old(q[..]), idx, values)
  {
    for i := 0 to |idx|
      invariant q[..] == Scatter(old(q[..]), idx[..i], values[..i])
    {
      q[idx[i]] := values[i];
      assert idx[..i + 1][..i] == idx[..i] && values[..i + 1][..i] == values[..i];
    }
    assert idx[..|idx|] == idx && values[..|idx|] == values;
  }

  /** `forward_qpos`: gathers the sources, then overwrites the mimic entries in place. */
  method ForwardQpos(a: Adaptor, q: array<real>)
    requires a.Valid() && q.Length == a.dof
    modifies q
    ensures q[..] == a.Completed(old(q[..]))
  {
    var n := |a.pin2mimic|;
    ghost var values := a.MimicValues(q[..]);
    var mimicQpos := new real[n];
    for i := 0 to n
      invariant q[..] == old(q[..])
      invariant mimicQpos[..i] == values[..i]
    {
      mimicQpos[i] := q[a.pin2source[i]] * a.multipliers[i] + a.offsets[i];
      assert mimicQpos[i] == values[i] && mimicQpos[..i + 1] == mimicQpos[..i] + [values[i]];
    }
    assert mimicQpos[..] == values;
    ScatterInto(q, a.pin2mimic, mimicQpos[..]);
  }

  /** Row `r` of a matrix. */
  function Row(m: array2<real>, r: nat): (v: Vector)
    requires r < m.Length0
    reads m
    ensures |v| == m.Length1
  {
    seq(m.Length1, c requires 0 <= c < m.Length1 reads m => m[r, c])
  }

  /** `m[..., idx]`. */
  method GatherColumns(m: array2<real>, idx: seq<nat>) returns (r: array2<real>)
    requires InRange(idx, m.Length1)
    ensures fresh(r) && r.Length0 == m.Length0 && r.Length1 == |idx|
    ensures forall i :: 0 <= i < m.Length0 ==> Row(r, i) == Gather(Row(m, i), idx)
  {
    r := new real[m.Length0, |idx|]((i, k) requires 0 <= i < m.Length0 && 0 <= k < |idx| reads m => m[i, idx[k]]);
  }

  /** `target[..., c] += column * factor` with `column` the column `k` of `m`. */
  method AddColumn(target: array2<real>, c: nat, m: array2<real>, k: nat, factor: real)
    requires c < target.Length1 && k < m.Length1 && m.Length0 == target.Length0 && m != target
    modifies target
    ensures forall r :: 0 <= r < target.Length0 ==>
              Row(target, r) == old(Row(target, r))[c := old(Row(target, r))[c] + Prod(Row(m, r)[k], factor)]
  {
    for r := 0 to target.Length0
      invariant forall s :: r <= s < target.Length0 ==> Row(target, s) == old(Row(target, s))
      invariant forall s :: 0 <= s < r ==>
                  Row(target, s) == old(Row(target, s))[c := old(Row(target, s))[c] + Prod(Row(m, s)[k], factor)]
    {
      ghost var before := Row(target, r);
      target[r, c] := target[r, c] + m[r, k] * factor;
      assert Row(target, r) == before[c := before[c] + Prod(Row(m, r)[k], factor)];
    }
  }

  /** `backward_jacobian`: gathers the target columns, then adds every mimic column to its source's. */
  method BackwardJacobian(a: Adaptor, jacobian: array2<real>) returns (target: array2<real>)
    requires a.Valid() && jacobian.Length1 == a.dof
    ensures fresh(target) && target.Length0 == jacobian.Length0 && target.Length1 == |a.pin2target|
    ensures forall r :: 0 <= r < target.Length0 ==> Row(target, r) == a.Backward(Row(jacobian, r))
  {
    hide Row, Prod;
    target := GatherColumns(jacobian, a.pin2target);
    var mimic := GatherColumns(jacobian, a.pin2mimic);
    for i := 0 to |a.pin2mimic|
      invariant forall r :: 0 <= r < mimic.Length0 ==> Row(mimic, r) == Gather(Row(jacobian, r), a.pin2mimic)
      invariant forall r :: 0 <= r < target.Length0 ==> Row(target, r) == a.Accumulated(Row(jacobian, r), i)
    {
      AddColumn(target, a.target2source[i], mimic, i, a.multipliers[i]);
    }
  }
}
