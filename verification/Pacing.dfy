/** The deadline-advance rule of the periodic loops (dexfull/app.py, dexfull/control/image_pump.py) and the
    two-deadline stream loop. */
module Pacing {
  function Times(n: int, x: real): real { n as real * x }

  /** `_advance`: one interval further, unless that is more than an interval in the past. */
  function Advance(deadline: real, interval: real, now: real): real {
    var next := deadline + interval;
    if next < now - interval then now + interval else next
  }

  /** The deadline after these fires. */
  function DeadlineAfter(start: real, interval: real, fires: seq<real>): real {
    if fires == [] then start
    else Advance(DeadlineAfter(start, interval, fires[..|fires| - 1]), interval, fires[|fires| - 1])
  }

  /** Fires of a clock that does not go back, none before its deadline. */
  ghost predicate ValidRun(start: real, interval: real, fires: seq<real>) {
    && (forall i, j :: 0 <= i < j < |fires| ==> fires[i] <= fires[j])
    && forall k :: 0 <= k < |fires| ==> DeadlineAfter(start, interval, fires[..k]) <= fires[k]
  }

  // ------------------------------------------------------------------------------------------
  // Catch-up is bounded.

  lemma TimesNext(n: int, x: real)
    ensures Times(n + 1, x) == Times(n, x) + x && Times(0, x) == 0.0
  {
    assert (n + 1) as real == n as real + 1.0;
  }

  /** After a fire the deadline is at most one interval back, and it moves on by at least one per fire. */
  lemma {:induction false} DeadlineGrows(start: real, interval: real, fires: seq<real>, k: nat, n: nat)
    requires interval > 0.0 && ValidRun(start, interval, fires) && n >= 1 && k + n <= |fires|
    ensures DeadlineAfter(start, interval, fires[..k + n]) >= fires[k] + Times(n - 2, interval)
  {
    hide Times;
    assert fires[..k + n][..k + n - 1] == fires[..k + n - 1];
    TimesNext(n - 2, interval);
    if n == 1 {
      TimesNext(-1, interval);
      assert DeadlineAfter(start, interval, fires[..k + 1]) == Advance(DeadlineAfter(start, interval, fires[..k]), interval, fires[k]);
    } else {
      TimesNext(n - 3, interval);
      DeadlineGrows(start, interval, fires, k, n - 1);
    }
  }

  /** A fire and the n-th fire after it are at least n - 2 intervals apart. */
  lemma FiresSpaced(start: real, interval: real, fires: seq<real>, k: nat, n: nat)
    requires interval > 0.0 && ValidRun(start, interval, fires) && k + n < |fires|
    ensures fires[k + n] - fires[k] >= Times(n - 2, interval)
  {
    if n == 0 {
      assert Times(-2, interval) <= 0.0;
    } else {
      DeadlineGrows(start, interval, fires, k, n);
    }
  }

  /** The bound is attained: a fire exactly two intervals late is followed by two more at once. */
  lemma BurstOfThree(start: real, interval: real)
    requires interval > 0.0
    ensures var t := start + interval + interval;
            ValidRun(start, interval, [t, t, t]) && DeadlineAfter(start, interval, [t, t, t]) == t + interval
  {
    var t := start + interval + interval;
    var fires := [t, t, t];
    assert fires[..1] == [t] && fires[..2] == [t, t] && fires[..2][..1] == [t] && fires[..3] == fires;
    assert DeadlineAfter(start, interval, fires[..0]) == start;
    assert DeadlineAfter(start, interval, fires[..1]) == start + interval by { assert fires[..1][..0] == []; }
    assert DeadlineAfter(start, interval, fires[..2]) == t;
    assert DeadlineAfter(start, interval, fires) == t + interval;
  }

  // ------------------------------------------------------------------------------------------
  // The grid.

  /** Every deadline is a whole number of intervals after the first. */
  ghost predicate OnGrid(start: real, interval: real, fires: seq<real>) {
    forall k :: 0 <= k <= |fires| ==> DeadlineAfter(start, interval, fires[..k]) == start + Times(k, interval)
  }

  /** No fire comes more than two intervals after its grid point. */
  ghost predicate NeverLate(start: real, interval: real, fires: seq<real>) {
    forall k :: 0 <= k < |fires| ==> fires[k] <= start + Times(k + 2, interval)
  }

  lemma {:induction false} GridKept(start: real, interval: real, fires: seq<real>, k: nat)
    requires NeverLate(start, interval, fires) && k <= |fires|
    ensures DeadlineAfter(start, interval, fires[..k]) == start + Times(k, interval)
  {
    hide Times;
    TimesNext(k - 1, interval);
    TimesNext(k, interval);
    if k > 0 {
      GridKept(start, interval, fires, k - 1);
      assert fires[..k][..k - 1] == fires[..k - 1];
      assert fires[k - 1] <= start + Times(k - 1 + 2, interval);
    }
  }

  /** The deadlines stay on the grid exactly when no fire is late by more than two intervals. */
  lemma GridIff(start: real, interval: real, fires: seq<real>)
    requires interval > 0.0 && ValidRun(start, interval, fires)
    ensures OnGrid(start, interval, fires) <==> NeverLate(start, interval, fires)
  {
    hide Times;
    if NeverLate(start, interval, fires) {
      forall k: nat | k <= |fires|
        ensures DeadlineAfter(start, interval, fires[..k]) == start + Times(k, interval)
      {
        GridKept(start, interval, fires, k);
      }
    }
    if OnGrid(start, interval, fires) {
      forall k: nat | k < |fires|
        ensures fires[k] <= start + Times(k + 2, interval)
      {
        assert fires[..k + 1][..k] == fires[..k];
        assert DeadlineAfter(start, interval, fires[..k]) == start + Times(k, interval);
        assert DeadlineAfter(start, interval, fires[..k + 1]) == start + Times(k + 1, interval);
        TimesNext(k, interval);
        TimesNext(k + 1, interval);
      }
    }
  }

  // ------------------------------------------------------------------------------------------
  // One loop: `LatestImagePump._run`.

  /** The fires of a loop that reads these times. */
  function FiresAt(deadline: real, interval: real, nows: seq<real>): seq<real>
    decreases |nows|
  {
    if nows == [] then []
    else if nows[0] < deadline then FiresAt(deadline, interval, nows[1..])
    else [nows[0]] + FiresAt(Advance(deadline, interval, nows[0]), interval, nows[1..])
  }

  ghost predicate Monotone(nows: seq<real>) { forall i, j :: 0 <= i < j < |nows| ==> nows[i] <= nows[j] }

  lemma {:induction false} DeadlineFirst(start: real, interval: real, t: real, fires: seq<real>)
    ensures DeadlineAfter(start, interval, [t] + fires) == DeadlineAfter(Advance(start, interval, t), interval, fires)
  {
    hide Advance;
    if fires == [] {
      assert [t] + fires == [t] && [t][..0] == [];
    } else {
      var n := |fires| - 1;
      assert ([t] + fires)[..n + 1] == [t] + fires[..n];
      DeadlineFirst(start, interval, t, fires[..n]);
    }
  }

  lemma {:induction false} FiresFrom(deadline: real, interval: real, nows: seq<real>)
    requires Monotone(nows)
    ensures ValidRun(deadline, interval, FiresAt(deadline, interval, nows))
    ensures var f := FiresAt(deadline, interval, nows); f != [] ==> nows != [] && nows[0] <= f[0]
    decreases |nows|
  {
    if nows != [] {
      if nows[0] < deadline {
        FiresFrom(deadline, interval, nows[1..]);
      } else {
        var next := Advance(deadline, interval, nows[0]);
        FiresFrom(next, interval, nows[1..]);
        FireFirst(deadline, interval, nows[0], FiresAt(next, interval, nows[1..]));
      }
    }
  }

  lemma FireFirst(deadline: real, interval: real, t: real, fires: seq<real>)
    requires deadline <= t && ValidRun(Advance(deadline, interval, t), interval, fires) && (fires != [] ==> t <= fires[0])
    ensures ValidRun(deadline, interval, [t] + fires)
  {
    var all := [t] + fires;
    forall k | 0 <= k < |all|
      ensures DeadlineAfter(deadline, interval, all[..k]) <= all[k]
    {
      if k > 0 {
        assert all[..k] == [t] + fires[..k - 1];
        DeadlineFirst(deadline, interval, t, fires[..k - 1]);
      }
    }
  }

  /** The loop of the image pump over the times it reads: its fires are spaced like every valid run. */
  method PumpTicks(start: real, interval: real, nows: seq<real>) returns (fires: seq<real>)
    requires interval > 0.0 && Monotone(nows)
    ensures fires == FiresAt(start, interval, nows) && ValidRun(start, interval, fires)
  {
    var nextTick := start;
    fires := [];
    for i := 0 to |nows|
      invariant fires + FiresAt(nextTick, interval, nows[i..]) == FiresAt(start, interval, nows)
    {
      var now := nows[i];
      assert nows[i..][0] == now && nows[i..][1..] == nows[i + 1..];
      if now >= nextTick {
        nextTick := nextTick + interval;
        if nextTick < now - interval {
          nextTick := now + interval;
        }
        fires := fires + [now];
      }
    }
    FiresFrom(start, interval, nows);
  }

  // ------------------------------------------------------------------------------------------
  // Two deadlines: `_stream_loop`.

  datatype Rates = Rates(robotEnabled: bool, vrEnabled: bool, robot: real, vr: real) {
    predicate Valid() { robot > 0.0 && vr > 0.0 }
  }

  /** `skipped` counts the rounds in a row in which VR was due but the robot part raised. */
  datatype Loop = Loop(nextRobot: real, nextVr: real, clock: real, robotFires: seq<real>, vrFires: seq<real>, skipped: nat)

  /** One round that reads `now`; a part that raises ends the round. */
  datatype Round = Round(now: real, robotRaises: bool)

  predicate RobotDue(r: Rates, s: Loop, now: real) { r.robotEnabled && now >= s.nextRobot }
  predicate VrDue(r: Rates, s: Loop, now: real) { r.vrEnabled && now >= s.nextVr }

  function RobotPart(r: Rates, s: Loop, now: real): Loop {
    if RobotDue(r, s, now)
    then s.(nextRobot := Advance(s.nextRobot, r.robot, now), robotFires := s.robotFires + [now])
    else s
  }

  function VrPart(r: Rates, s: Loop, now: real): Loop {
    if VrDue(r, s, now)
    then s.(nextVr := Advance(s.nextVr, r.vr, now), vrFires := s.vrFires + [now], skipped := 0)
    else s
  }

  function RoundStep(r: Rates, s: Loop, e: Round): Loop {
    if e.now < s.clock then s
    else
      var t := RobotPart(r, s, e.now).(clock := e.now);
      if RobotDue(r, s, e.now) && e.robotRaises
      then if VrDue(r, s, e.now) then t.(skipped := t.skipped + 1) else t
      else VrPart(r, t, e.now)
  }

  function RunLoop(r: Rates, start: real, rounds: seq<Round>): Loop {
    if rounds == [] then Loop(start, start, start, [], [], 0)
    else RoundStep(r, RunLoop(r, start, rounds[..|rounds| - 1]), rounds[|rounds| - 1])
  }

  ghost predicate Follows(start: real, interval: real, deadline: real, fires: seq<real>, clock: real) {
    && ValidRun(start, interval, fires)
    && deadline == DeadlineAfter(start, interval, fires)
    && forall i :: 0 <= i < |fires| ==> fires[i] <= clock
  }

  lemma FollowsFire(start: real, interval: real, deadline: real, fires: seq<real>, clock: real, now: real)
    requires Follows(start, interval, deadline, fires, clock) && clock <= now && deadline <= now
    ensures Follows(start, interval, Advance(deadline, interval, now), fires + [now], now)
  {
    var all := fires + [now];
    assert all[..|fires|] == fires;
    forall k | 0 <= k < |all|
      ensures DeadlineAfter(start, interval, all[..k]) <= all[k]
    {
      if k < |fires| {
        assert all[..k] == fires[..k];
      }
    }
  }

  lemma FollowsLater(start: real, interval: real, deadline: real, fires: seq<real>, clock: real, now: real)
    requires Follows(start, interval, deadline, fires, clock) && clock <= now
    ensures Follows(start, interval, deadline, fires, now)
  {
  }

  /** The rounds that skipped VR in a row are the newest robot fires, and VR was due from the first of them. */
  ghost predicate Skipping(r: Rates, s: Loop) {
    s.skipped > 0 ==> r.vrEnabled && s.skipped <= |s.robotFires| && s.nextVr <= s.robotFires[|s.robotFires| - s.skipped]
  }

  ghost predicate LoopInv(r: Rates, start: real, s: Loop) {
    && Follows(start, r.robot, s.nextRobot, s.robotFires, s.clock)
    && Follows(start, r.vr, s.nextVr, s.vrFires, s.clock)
    && Skipping(r, s)
  }

  lemma RoundFollows(r: Rates, start: real, s: Loop, e: Round)
    requires r.Valid() && e.now >= s.clock
    requires Follows(start, r.robot, s.nextRobot, s.robotFires, s.clock) && Follows(start, r.vr, s.nextVr, s.vrFires, s.clock)
    ensures var t := RoundStep(r, s, e);
            Follows(start, r.robot, t.nextRobot, t.robotFires, t.clock) && Follows(start, r.vr, t.nextVr, t.vrFires, t.clock)
  {
    hide Follows, Advance;
    FollowsLater(start, r.robot, s.nextRobot, s.robotFires, s.clock, e.now);
    FollowsLater(start, r.vr, s.nextVr, s.vrFires, s.clock, e.now);
    if RobotDue(r, s, e.now) {
      FollowsFire(start, r.robot, s.nextRobot, s.robotFires, s.clock, e.now);
    }
    if VrDue(r, s, e.now) {
      FollowsFire(start, r.vr, s.nextVr, s.vrFires, s.clock, e.now);
    }
  }

  lemma RoundSkips(r: Rates, s: Loop, e: Round)
    requires e.now >= s.clock && Skipping(r, s) && forall i :: 0 <= i < |s.robotFires| ==> s.robotFires[i] <= s.clock
    ensures Skipping(r, RoundStep(r, s, e))
  {
    hide Advance;
    assert s.skipped > 0 ==> VrDue(r, s, e.now);
  }

  lemma RoundKeeps(r: Rates, start: real, s: Loop, e: Round)
    requires r.Valid() && LoopInv(r, start, s)
    ensures LoopInv(r, start, RoundStep(r, s, e))
  {
    if e.now >= s.clock {
      RoundFollows(r, start, s, e);
      RoundSkips(r, s, e);
      hide Follows, Skipping, RoundStep;
    }
  }

  lemma {:induction false} LoopKeeps(r: Rates, start: real, rounds: seq<Round>)
    requires r.Valid()
    ensures LoopInv(r, start, RunLoop(r, start, rounds))
  {
    hide LoopInv, RoundStep;
    if rounds == [] {
      FreshLoop(r, start);
    } else {
      LoopKeeps(r, start, rounds[..|rounds| - 1]);
      RoundKeeps(r, start, RunLoop(r, start, rounds[..|rounds| - 1]), rounds[|rounds| - 1]);
    }
  }

  lemma FreshLoop(r: Rates, start: real)
    ensures LoopInv(r, start, Loop(start, start, start, [], [], 0))
  {
  }

  /** Fires `i` and `j` are at least `j - i - 2` intervals apart. */
  ghost predicate Spaced(interval: real, fires: seq<real>) {
    forall i, j :: 0 <= i <= j < |fires| ==> fires[j] - fires[i] >= Times(j - i - 2, interval)
  }

  lemma AllSpaced(start: real, interval: real, fires: seq<real>)
    requires interval > 0.0 && ValidRun(start, interval, fires)
    ensures Spaced(interval, fires)
  {
    hide ValidRun, Times;
    forall i, j | 0 <= i <= j < |fires|
      ensures fires[j] - fires[i] >= Times(j - i - 2, interval)
    {
      FiresSpaced(start, interval, fires, i, j - i);
    }
  }

  /** Both streams obey the rule in every run of the loop, whatever raises: bounded catch-up, and deadlines
      that leave the grid only when a fire is late by more than two intervals. */
  lemma StreamsPaced(r: Rates, start: real, rounds: seq<Round>)
    requires r.Valid()
    ensures var s := RunLoop(r, start, rounds);
         && Spaced(r.robot, s.robotFires) && Spaced(r.vr, s.vrFires)
         && (OnGrid(start, r.robot, s.robotFires) <==> NeverLate(start, r.robot, s.robotFires))
         && (OnGrid(start, r.vr, s.vrFires) <==> NeverLate(start, r.vr, s.vrFires))
  {
    LoopKeeps(r, start, rounds);
    var s := RunLoop(r, start, rounds);
    hide RunLoop, ValidRun, OnGrid, NeverLate, Spaced;
    AllSpaced(start, r.robot, s.robotFires);
    AllSpaced(start, r.vr, s.vrFires);
    GridIff(start, r.robot, s.robotFires);
    GridIff(start, r.vr, s.vrFires);
  }

  /** A robot part that raises costs VR its round, but only for as long as robot fires are due: `m` rounds
      skipped in a row mean that VR has waited for at least `m - 3` robot intervals. */
  lemma SkipsTakeTime(r: Rates, start: real, rounds: seq<Round>)
    requires r.Valid()
    ensures var s := RunLoop(r, start, rounds);
            s.skipped > 0 ==> s.clock - s.nextVr >= Times(s.skipped - 3, r.robot)
  {
    LoopKeeps(r, start, rounds);
    var s := RunLoop(r, start, rounds);
    RobotRun(r, start, s);
    hide *;
    if s.skipped > 0 {
      FiresSpaced(start, r.robot, s.robotFires, |s.robotFires| - s.skipped, s.skipped - 1);
    }
  }

  lemma RobotRun(r: Rates, start: real, s: Loop)
    requires r.Valid() && LoopInv(r, start, s)
    ensures var fires, n := s.robotFires, |s.robotFires|;
         && r.robot > 0.0 && ValidRun(start, r.robot, fires)
         && (s.skipped > 0 ==> s.skipped <= n && s.nextVr <= fires[n - s.skipped] && fires[n - 1] <= s.clock)
  {
    hide ValidRun, DeadlineAfter;
  }

  // ------------------------------------------------------------------------------------------
  // The loop as a class.

  class StreamLoop {
    const r: Rates
    var nextRobot: real
    var nextVr: real
    ghost var clock: real
    ghost var robotFires: seq<real>
    ghost var vrFires: seq<real>
    ghost var skipped: nat

    ghost function View(): Loop
      reads this
    {
      Loop(nextRobot, nextVr, clock, robotFires, vrFires, skipped)
    }

    constructor (r: Rates, now: real)
      ensures this.r == r && View() == RunLoop(r, now, [])
    {
      this.r, nextRobot, nextVr := r, now, now;
      clock, robotFires, vrFires, skipped := now, [], [], 0;
    }

    /** One round of the loop; the parts that ran are returned. */
    method Iterate(now: real, robotRaises: bool) returns (robotRan: bool, vrRan: bool)
      requires now >= clock
      modifies this
      ensures View() == RoundStep(r, old(View()), Round(now, robotRaises))
      ensures robotRan <==> RobotDue(r, old(View()), now)
      ensures vrRan <==> VrDue(r, old(View()), now) && !(robotRan && robotRaises)
    {
      robotRan, vrRan := false, false;
      clock := now;
      if r.robotEnabled && now >= nextRobot {
        nextRobot := Advance(nextRobot, r.robot, now);
        robotRan, robotFires := true, robotFires + [now];
        if robotRaises {
          skipped := if r.vrEnabled && now >= nextVr then skipped + 1 else skipped;
          return;
        }
      }
      if r.vrEnabled && now >= nextVr {
        nextVr := Advance(nextVr, r.vr, now);
        vrRan, vrFires, skipped := true, vrFires + [now], 0;
      }
    }
  }
}
