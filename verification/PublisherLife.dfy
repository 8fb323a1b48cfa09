/** What the real-time publisher does from its start to its end (Publisher.h): the real-time side's round, the
    start of the loop, and its end after `stop`. */
module PublisherLife {
  import opened Publisher

  // ------------------------------------------------------------------------------------------
  // The real-time side.

  /** With the lock free in the real-time turn, a round hands over the message as it was written. */
  lemma RealtimeRound(s: State, i: nat, w: int)
    requires s.rt == Idle && s.owner == Nobody && s.turn == Realtime && i < |s.msg|
    ensures Step(Step(Step(Step(Step(s, TryLock), CheckTurn), WriteWord(i, w)), HandOver), ReleaseHandedOver)
         == s.(msg := s.msg[i := w], turn := NonRealtime, handed := s.handed + [s.msg[i := w]])
  {
  }

  /** A round that is abandoned keeps what was written and hands over nothing. */
  lemma AbandonedRound(s: State, i: nat, w: int)
    requires s.rt == Idle && s.owner == Nobody && s.turn == Realtime && i < |s.msg|
    ensures Step(Step(Step(Step(s, TryLock), CheckTurn), WriteWord(i, w)), Abandon) == s.(msg := s.msg[i := w])
  {
  }

  /** Outside the real-time turn, or with the lock taken, nothing changes. */
  lemma RefusedRound(s: State)
    requires s.rt == Idle && (s.owner != Nobody || s.turn != Realtime)
    ensures Step(Step(Step(s, TryLock), CheckTurn), ReleaseRefused) == s
  {
  }

  // ------------------------------------------------------------------------------------------
  // The loop's life.

  /** The first two actions of the loop open the real-time turn, and it goes on to wait for messages. */
  lemma Starts(msg: Message)
    ensures LoopActions(Initial(msg), 2) == Initial(msg).(isRunning := true, turn := Realtime, loop := TestRunning)
    ensures LoopActions(Initial(msg), 3).loop == Lock
  {
    assert LoopActions(Initial(msg), 1) == LoopStep(LoopActions(Initial(msg), 0));
    assert LoopActions(Initial(msg), 2) == LoopStep(LoopActions(Initial(msg), 1));
    assert LoopActions(Initial(msg), 3) == LoopStep(LoopActions(Initial(msg), 2));
  }

  ghost predicate RunningTold(s: State) { s.isRunning <==> s.loop != SetRunning && s.loop != Ended }

  lemma TellsRunning(s: State, e: Event)
    requires RunningTold(s)
    ensures RunningTold(Step(s, e))
  {
  }

  /** `is_running` holds from the first action of the loop to its last, which the destructor waits for. */
  lemma {:induction false} RunningUntilEnded(msg: Message, events: seq<Event>)
    ensures RunningTold(Run(Initial(msg), events))
  {
    if events != [] {
      var n := |events| - 1;
      RunningUntilEnded(msg, events[..n]);
      hide RunningTold, Step;
      TellsRunning(Run(Initial(msg), events[..n]), events[n]);
    }
  }

  /** Actions until the loop has ended after `stop`. */
  function ToEnd(s: State): nat {
    match s.loop
    case SetRunning => 4
    case SetFirstTurn => 3
    case TestRunning => 2
    case ClearRunning => 1
    case Ended => 0
    case Write => 3
    case TestBeforeWrite => 3
    case Unlock => 4
    case GiveTurnBack => 5
    case Copy(i) => if i <= |s.msg| then |s.msg| - i + 6 else 0
    case TestStillRunning => |s.msg| + 7
    case TestTurn => |s.msg| + 8
    case Lock => |s.msg| + 9
    case UnlockAndSleep => |s.msg| + 10
  }

  lemma EndStep(s: State)
    requires Exclusion(s) && Copying(s) && !s.keepRunning && s.rt == Idle && ToEnd(s) > 0
    ensures var t := LoopStep(s); ToEnd(t) < ToEnd(s) && !t.keepRunning && t.rt == Idle && |t.msg| == |s.msg|
  {
  }

  lemma NotYetEnded(s: State)
    requires Copying(s)
    ensures ToEnd(s) == 0 <==> s.loop == Ended
  {
  }

  ghost predicate Stopping(s: State) { Inv(s) && !s.keepRunning && s.rt == Idle }

  lemma StoppingStep(s: State)
    requires Stopping(s)
    ensures Stopping(LoopStep(s)) && (ToEnd(s) > 0 ==> ToEnd(LoopStep(s)) < ToEnd(s)) && (ToEnd(s) == 0 ==> LoopStep(s) == s)
  {
    LoopStepKeeps(s);
    NotYetEnded(s);
    if ToEnd(s) > 0 {
      EndStep(s);
    }
    hide Exclusion, Copying, Conserved, ToEnd;
  }

  lemma StoppedIsEnded(s: State)
    requires Stopping(s)
    ensures ToEnd(s) == 0 ==> s.loop == Ended
  {
    NotYetEnded(s);
    hide Exclusion, Copying, Conserved, ToEnd;
  }

  lemma {:induction false} EndsBy(s: State, n: nat)
    requires Stopping(s) && ToEnd(s) <= n
    ensures LoopActions(s, n).loop == Ended
    decreases n
  {
    hide Stopping, LoopStep, ToEnd;
    if n == 0 {
      StoppedIsEnded(s);
    } else {
      LoopActionsFirst(s, n);
      StoppingStep(s);
      EndsBy(LoopStep(s), n - 1);
    }
  }

  lemma StopKeeps(s: State)
    requires Inv(s)
    ensures var t := Step(s, Stop); Inv(t) && !t.keepRunning && t.rt == s.rt && ToEnd(t) <= |s.msg| + 10
  {
    StepKeeps(s, Stop);
  }

  /** While the real-time thread stays away, the loop ends within |message| + 10 actions after `stop`, from every
      state a run can be in. */
  lemma StopEnds(s: State)
    requires Inv(s) && s.rt == Idle
    ensures LoopActions(Step(s, Stop), |s.msg| + 10).loop == Ended
  {
    StopKeeps(s);
    hide Inv, Step, ToEnd;
    EndsBy(Step(s, Stop), |s.msg| + 10);
  }
}
