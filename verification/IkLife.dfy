/** What the IK worker does with a target from its submission to the control loop, and over a close and a new start
    (dexfull/control/ik_worker.py). */
module IkLife {
  import opened Wrappers
  import opened IkWorker

  /** The worker thread waits for a target. */
  predicate Idle(s: State) { s.alive && !s.stop && s.solving == None }

  /** A target submitted to an idle worker is solved and reaches the control loop: it is the newest one, a target that
      was still pending counts as replaced, and the time enters sum and maximum. */
  lemma SubmittedIsSolved(s: State, ms: real)
    requires Ordered(s) && Idle(s) && ms >= 0.0 && s.log.Seen() <= s.nextSequence
    ensures var n := s.nextSequence + 1; var t := Step(Step(Step(Step(s, Submit), Take), Publish(ms)), Consume);
         && t.nextSequence == n && t.pending == None && t.solving == None
         && t.latest == Some(IkResult(n, ms)) && t.log.consumed == s.log.consumed + [n]
         && t.stats.submitted == s.stats.submitted + 1 && t.stats.solved == s.stats.solved + 1 && t.stats.failed == s.stats.failed
         && t.stats.replaced == s.stats.replaced + (if s.pending.Some? then 1 else 0)
         && t.stats.totalMs == s.stats.totalMs + ms
         && t.stats.maxMs == (if s.stats.maxMs < ms then ms else s.stats.maxMs)
  {
  }

  /** While one target is solved only the newest of those submitted waits. */
  lemma NewestWaits(s: State)
    requires !s.stop && s.solving.Some?
    ensures var t := Step(Step(s, Submit), Submit);
         && t.pending == Some(s.nextSequence + 2) && t.solving == s.solving
         && t.stats.replaced == s.stats.replaced + (if s.pending.Some? then 2 else 1)
  {
  }

  /** A solve that fails is counted, may raise the maximum, and leaves the latest result to the control loop. */
  lemma FailedIsCounted(s: State, ms: real)
    requires Ordered(s) && Idle(s) && ms >= 0.0
    ensures var t := Step(Step(Step(s, Submit), Take), Fail(ms));
         && t.latest == s.latest && t.solving == None && t.pending == None
         && t.stats.failed == s.stats.failed + 1 && t.stats.solved == s.stats.solved && t.stats.totalMs == s.stats.totalMs
         && t.stats.maxMs == (if s.stats.maxMs < ms then ms else s.stats.maxMs)
  {
  }

  /** A result is seen once. */
  lemma SeenOnce(s: State)
    ensures Step(Step(s, Consume), Consume) == Step(s, Consume)
    ensures s.latest.Some? && s.latest.value.sequence > s.log.Seen() ==>
              Step(s, Consume).log.consumed == s.log.consumed + [s.latest.value.sequence]
  {
  }

  /** After a close the worker ends, with or without a solve under way; what was pending is discarded. */
  lemma CloseEnds(s: State, ms: real)
    requires s.alive && ms >= 0.0
    ensures var t := Step(Step(Step(s, Close), Publish(ms)), Exit);
         && !t.alive && t.stop && t.pending == None && t.solving == None && t.nextSequence == s.nextSequence
         && (s.solving.Some? ==> t.latest == Some(IkResult(s.solving.value, ms)))
         && (s.solving.None? ==> t.latest == s.latest)
  {
  }

  /** A closed worker refuses targets until it is started again; sequences go on. */
  lemma StartsAgain(s: State)
    requires s.stop && !s.alive && s.solving == None && s.pending == None
    ensures Step(s, Submit) == s
    ensures var t := Step(Step(s, Start), Submit); Idle(t) && t.nextSequence == s.nextSequence + 1 && t.pending == Some(t.nextSequence)
  {
  }

  /** A start while a worker is alive changes nothing, not even a close under way. */
  lemma StartsOnce(s: State)
    ensures Step(Step(s, Start), Start) == Step(s, Start)
    ensures s.alive ==> Step(s, Start) == s
  {
  }

  /** A worker that was never started accepts targets and leaves them for its thread. */
  lemma AcceptsBeforeStart()
    ensures var t := Step(INITIAL, Submit);
         && t.pending == Some(1) && Step(t, Take) == t && Step(Step(t, Start), Take).solving == Some(1)
  {
  }

  /** The average handed out times the number of solves is their total time. */
  lemma AverageIsMean(d: Stats)
    ensures d.solved > 0 ==> d.AverageMs() * (d.solved as real) == d.totalMs
    ensures d.solved == 0 ==> d.AverageMs() == 0.0
  {
  }

  /** A drain hands out everything since the last one. */
  lemma DrainHandsOut(s: State)
    ensures var t := Step(s, Drain);
         && t.log.drained == s.log.drained + [s.stats]
         && t.stats.submitted == t.stats.solved == t.stats.replaced == t.stats.failed == 0 && t.stats.totalMs == t.stats.maxMs == 0.0
  {
  }
}
