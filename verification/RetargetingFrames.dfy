/** What single calls of a retargeting session return, in terms of the calls before them: where a failed solver
    falls back to, what the filter leaves alone, and how many frames were counted. */
module RetargetingFrames {
  import opened Arithmetic
  import opened Wrappers
  import opened MimicJoints
  import opened Retargeting

  // ------------------------------------------------------------------------------------------
  // The target joints of one frame.

  lemma {:induction false} ScatterAt(v: Vector, idx: seq<nat>, values: Vector, k: nat)
    requires InRange(idx, |v|) && |values| == |idx| && k < |idx| && Distinct(idx)
    ensures Scatter(v, idx, values)[idx[k]] == values[k]
  {
    ScatterHit(v, idx, values, k);
  }

  lemma AssembledTarget(u: Session, fixed: Vector, x: Vector, k: nat)
    requires u.Valid() && Distinct(u.setup.pin2target) && |fixed| == |u.setup.pin2fixed| && |x| == |u.setup.pin2target| && k < |x|
    ensures Assembled(u, fixed, x)[u.setup.pin2target[k]] == x[k]
  {
    assert u.setup.pin2target[k] in u.setup.pin2target;
    var i := AssembledTargets(u, fixed, x, u.setup.pin2target[k]);
    assert i == k;
    hide Assembled;
  }

  /** Clipping moves a value to the nearest one within the limits. */
  lemma ClipIsNearest(x: real, l: Limits, z: real)
    requires l.lower <= l.upper && Within(z, l)
    ensures Within(Clip(x, l), l) && Abs(Clip(x, l) - x) <= Abs(z - x)
  {
  }

  /** Without a filter each target joint is what the solver returned. */
  lemma SolutionReturned(u: Session, ops: seq<Op>, fixed: Vector, x: Vector, k: nat)
    requires u.Valid() && u.alpha.None? && Distinct(u.setup.pin2target) && SaneRun(u, ops) && HonoursBounds(u, x)
    requires |fixed| == |u.setup.pin2fixed| && k < |x|
    ensures SaneRun(u, ops + [Frame(fixed, Some(x))])
    ensures var r := OutputAt(u, ops + [Frame(fixed, Some(x))], |ops|); r.Some? && r.value[u.setup.pin2target[k]] == x[k]
  {
    assert (ops + [Frame(fixed, Some(x))])[..|ops|] == ops;
    AssembledTarget(u, fixed, x, k);
    hide After, Assembled;
  }

  // ------------------------------------------------------------------------------------------
  // Where a failed solver falls back to.

  /** The target value a failing call starts from and returns, after `op`. */
  ghost predicate FallsBack(u: Session, op: Op, k: nat, y: real)
    requires u.Valid() && Sane(u, op) && k < |u.setup.pin2target|
  {
    var j := u.setup.pin2target[k];
    var l := if u.hasLimits then u.limits[j] else Limits(-10000.0, 10000.0);
    && Within(y, l)
    && match op
       case SetQpos(q) => y == Clip(q[j], l)
       case WarmStart(last) => y == Clip(last[k], l)
       case Reset => y - l.lower == l.upper - y
       case Frame(fixed, outcome) => |fixed| == |u.setup.pin2fixed| && outcome.Some? ==> y == Clip(outcome.value[k], l)
       case ResetFilter => true
  }

  lemma FallbackOf(u: Session, s: State, op: Op, k: nat)
    requires u.Valid() && Reachable(u, s) && Sane(u, op) && k < |u.setup.pin2target|
    ensures FallsBack(u, op, k, Clip(Step(u, s, op).0.last[k], u.LimitOf(u.setup.pin2target[k])))
  {
    var l := u.LimitOf(u.setup.pin2target[k]);
    ClipWithin(Step(u, s, op).0.last[k], l);
    hide Assembled, Filtered;
  }

  /** A call whose solver fails returns, without a filter, the clipped point it started from: the one set, the one of
      the last solution, or the middle of the limits after a reset. */
  lemma FallbackReturned(u: Session, ops: seq<Op>, op: Op, fixed: Vector, k: nat)
    requires u.Valid() && u.alpha.None? && Distinct(u.setup.pin2target) && SaneRun(u, ops) && Sane(u, op)
    requires |fixed| == |u.setup.pin2fixed| && k < |u.setup.pin2target|
    ensures SaneRun(u, ops + [op] + [Frame(fixed, None)])
    ensures var r := OutputAt(u, ops + [op] + [Frame(fixed, None)], |ops| + 1);
            r.Some? && FallsBack(u, op, k, r.value[u.setup.pin2target[k]])
  {
    var all := ops + [op] + [Frame(fixed, None)];
    assert all[..|ops| + 1] == ops + [op] && (ops + [op])[..|ops|] == ops;
    var s := After(u, ops);
    FallbackOf(u, s, op, k);
    var t := After(u, ops + [op]);
    assert t == Step(u, s, op).0;
    AssembledTarget(u, fixed, Clipped(u, t.last), k);
    hide After, Assembled, Step, FallsBack;
    FailedFrame(u, t, fixed);
  }

  lemma FailedFrame(u: Session, s: State, fixed: Vector)
    requires u.Valid() && Reachable(u, s) && u.alpha.None? && |fixed| == |u.setup.pin2fixed|
    ensures Step(u, s, Frame(fixed, None)).1 == Some(Assembled(u, fixed, Clipped(u, s.last)))
  {
    hide Assembled;
  }

  /** A new session starts from the middle of the limits. */
  lemma FreshFallback(u: Session, fixed: Vector, k: nat)
    requires u.Valid() && u.alpha.None? && Distinct(u.setup.pin2target) && |fixed| == |u.setup.pin2fixed| && k < |u.setup.pin2target|
    ensures SaneRun(u, [Frame(fixed, None)])
    ensures var r := OutputAt(u, [Frame(fixed, None)], 0); var l := u.LimitOf(u.setup.pin2target[k]);
            r.Some? && r.value[u.setup.pin2target[k]] - l.lower == l.upper - r.value[u.setup.pin2target[k]]
  {
    var s := State(Middle(u), 0, None);
    assert [Frame(fixed, None)][..0] == [] && After(u, []) == s;
    ClipWithin(s.last[k], u.LimitOf(u.setup.pin2target[k]));
    AssembledTarget(u, fixed, Clipped(u, s.last), k);
    hide Assembled, After;
    FailedFrame(u, s, fixed);
  }

  // ------------------------------------------------------------------------------------------
  // The filter.

  function Unfiltered(u: Session): Session { u.(alpha := None) }

  lemma SameSession(u: Session, op: Op)
    requires u.Valid()
    ensures Unfiltered(u).Valid() && (Sane(Unfiltered(u), op) <==> Sane(u, op))
  {
  }

  lemma SameLast(u: Session, s: State, t: State, op: Op)
    requires u.Valid() && Reachable(u, s) && Reachable(u, t) && Sane(u, op) && Unfiltered(u).Valid() && Sane(Unfiltered(u), op)
    requires s.last == t.last && s.count == t.count
    ensures var s', t' := Step(u, s, op).0, Step(Unfiltered(u), t, op).0; s'.last == t'.last && s'.count == t'.count
  {
    hide Assembled, Filtered;
    assert Middle(u) == Middle(Unfiltered(u));
    assert Clipped(u, s.last) == Clipped(Unfiltered(u), s.last);
  }

  /** The filter never feeds back into the solver: start points and counts are those of a session without one. */
  lemma {:induction false} FilterIsOutside(u: Session, ops: seq<Op>)
    requires u.Valid() && SaneRun(u, ops)
    ensures Unfiltered(u).Valid() && SaneRun(Unfiltered(u), ops)
    ensures After(u, ops).last == After(Unfiltered(u), ops).last && After(u, ops).count == After(Unfiltered(u), ops).count
  {
    forall i | 0 <= i < |ops|
      ensures Sane(Unfiltered(u), ops[i])
    {
      SameSession(u, ops[i]);
    }
    if ops == [] {
      assert Middle(u) == Middle(Unfiltered(u));
    } else {
      var n := |ops| - 1;
      FilterIsOutside(u, ops[..n]);
      hide Step;
      SameLast(u, After(u, ops[..n]), After(Unfiltered(u), ops[..n]), ops[n]);
    }
  }

  /** The first frame after the filter was reset, or in a new session, is returned as without a filter. */
  lemma FirstFramePasses(u: Session, ops: seq<Op>, fixed: Vector, outcome: Option<Vector>)
    requires u.Valid() && SaneRun(u, ops) && Sane(u, Frame(fixed, outcome))
    requires ops == [] || ops[|ops| - 1] == ResetFilter
    ensures Unfiltered(u).Valid() && SaneRun(u, ops + [Frame(fixed, outcome)]) && SaneRun(Unfiltered(u), ops + [Frame(fixed, outcome)])
    ensures OutputAt(u, ops + [Frame(fixed, outcome)], |ops|) == OutputAt(Unfiltered(u), ops + [Frame(fixed, outcome)], |ops|)
  {
    var all := ops + [Frame(fixed, outcome)];
    assert all[..|ops|] == ops;
    FilterIsOutside(u, ops);
    FilterIsOutside(u, all);
    assert After(u, ops).memory == None;
    SameFrame(u, After(u, ops), After(Unfiltered(u), ops), fixed, outcome);
    hide After, Step;
  }

  lemma SameFrame(u: Session, s: State, t: State, fixed: Vector, outcome: Option<Vector>)
    requires u.Valid() && Unfiltered(u).Valid() && Reachable(u, s) && Reachable(Unfiltered(u), t)
    requires Sane(u, Frame(fixed, outcome)) && Sane(Unfiltered(u), Frame(fixed, outcome)) && s.last == t.last && s.memory == None
    ensures Step(u, s, Frame(fixed, outcome)).1 == Step(Unfiltered(u), t, Frame(fixed, outcome)).1
  {
    assert Clipped(u, s.last) == Clipped(Unfiltered(u), s.last);
    forall f, x | |f| == |u.setup.pin2fixed| && |x| == |u.setup.pin2target|
      ensures Assembled(u, f, x) == Assembled(Unfiltered(u), f, x)
    {
    }
    hide Assembled, Clipped;
  }

  // ------------------------------------------------------------------------------------------
  // The count.

  /** Frames returned since the last reset. */
  function Returned(u: Session, ops: seq<Op>): nat
    requires u.Valid() && SaneRun(u, ops)
  {
    if ops == [] then 0
    else
      var n := |ops| - 1;
      if ops[n] == Reset then 0 else Returned(u, ops[..n]) + if OutputAt(u, ops, n).Some? then 1 else 0
  }

  lemma CountStep(u: Session, s: State, op: Op)
    requires u.Valid() && Reachable(u, s) && Sane(u, op)
    ensures var (t, r) := Step(u, s, op); t.count == if op == Reset then 0 else s.count + if r.Some? then 1 else 0
  {
    hide Assembled, Filtered;
  }

  /** The counter counts the frames returned since the last reset. */
  lemma {:induction false} CountsReturned(u: Session, ops: seq<Op>)
    requires u.Valid() && SaneRun(u, ops)
    ensures After(u, ops).count == Returned(u, ops)
  {
    if ops != [] {
      var n := |ops| - 1;
      CountsReturned(u, ops[..n]);
      CountStep(u, After(u, ops[..n]), ops[n]);
      hide Step;
    }
  }
}
