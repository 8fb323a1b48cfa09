/** When the periodic loops fire (dexfull/app.py): on time when they can, and one interval after a fire that was too
    late to catch up. */
module PacingLife {
  import opened Pacing

  /** A fire at most two intervals after its deadline keeps the grid; after a later one the next fire is at least one
      interval away, so that there is no burst. */
  lemma LateFireWaits(start: real, interval: real, fires: seq<real>, k: nat)
    requires interval > 0.0 && ValidRun(start, interval, fires) && k < |fires|
    ensures var d := DeadlineAfter(start, interval, fires[..k]); var next := DeadlineAfter(start, interval, fires[..k + 1]);
            if fires[k] <= d + interval + interval then next == d + interval else next == fires[k] + interval
    ensures k + 1 < |fires| && fires[k] > DeadlineAfter(start, interval, fires[..k]) + interval + interval ==>
              fires[k + 1] >= fires[k] + interval
  {
    assert fires[..k + 1][..k] == fires[..k];
  }

  /** In one round each stream fires exactly when it is enabled and its deadline has come, VR unless a due robot part
      raised before it. */
  lemma RoundFires(r: Rates, s: Loop, e: Round)
    requires e.now >= s.clock
    ensures var t := RoundStep(r, s, e); var robot := r.robotEnabled && e.now >= s.nextRobot; var vr := r.vrEnabled && e.now >= s.nextVr;
         && t.clock == e.now
         && t.robotFires == (if robot then s.robotFires + [e.now] else s.robotFires)
         && t.vrFires == (if vr && !(robot && e.robotRaises) then s.vrFires + [e.now] else s.vrFires)
         && (!robot ==> t.nextRobot == s.nextRobot) && (t.vrFires == s.vrFires ==> t.nextVr == s.nextVr)
  {
    hide Advance;
  }
}
