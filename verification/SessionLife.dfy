/** What the two threads of the control process do left alone, and how a session ends (dexfull/control/runtime.py,
    dexfull/control/session.py). */
module SessionLife {
  import opened Wrappers
  import opened CommandLoop
  import opened StartGate

  // ------------------------------------------------------------------------------------------
  // The main thread.

  /** `n` undisturbed actions of the main thread whose states are delivered. */
  function MainSteps(s: State, n: nat): State { if n == 0 then s else MainStep(MainSteps(s, n - 1), Continue, true) }

  /** Single actions up to the waiting loop. */
  lemma StartingAction(s: State)
    requires s.main.BeforeCheck() || s.main == Setup || s.main == AnnounceReady
    ensures var t := MainStep(s, Continue, true);
         && (s.main == AnnounceStarting ==> t == s.(sh := s.sh.(phase := Starting), main := Import))
         && (s.main == Import ==> t == s.(main := PublishModule))
         && (s.main == PublishModule ==> t == s.(sh := s.sh.(moduleSet := true), main := CheckEvent))
         && (s.main == CheckEvent && !s.sh.stopEvent ==> t == s.(main := Reset(0)))
         && (s.main == Reset(0) ==> t == s.(sh := s.sh.(flags := s.sh.flags.(start := false)), main := Reset(1)))
         && (s.main == Reset(1) ==> t == s.(sh := s.sh.(flags := s.sh.flags.(stop := false)), main := Reset(2)))
         && (s.main == Reset(2) ==> t == s.(sh := s.sh.(flags := s.sh.flags.(paused := false)), main := AnnounceRun))
         && (s.main == AnnounceRun ==> t == s.(sh := s.sh.(phase := Starting), main := CheckEventAgain))
         && (s.main == CheckEventAgain && !s.sh.stopEvent ==> t == s.(main := Setup))
         && (s.main == Setup ==> t == s.(main := AnnounceReady))
         && (s.main == AnnounceReady ==> t == s.(sh := s.sh.(phase := Ready), main := TestStart))
  {
  }

  /** The next action after `n` of them. */
  lemma Then(s: State, n: nat)
    ensures MainSteps(s, n + 1) == MainStep(MainSteps(s, n), Continue, true)
  {
  }

  lemma Now(s: State)
    ensures MainSteps(s, 0) == s
  {
  }

  lemma ImportSteps(s: State)
    requires s.main == AnnounceStarting && !s.sh.stopEvent
    ensures MainSteps(s, 4) == s.(sh := s.sh.(phase := Starting, moduleSet := true), main := Reset(0))
  {
    hide MainSteps, MainStep;
    Now(s);
    Then(s, 0);
    StartingAction(s);
    Then(s, 1);
    StartingAction(MainSteps(s, 1));
    Then(s, 2);
    StartingAction(MainSteps(s, 2));
    Then(s, 3);
    StartingAction(MainSteps(s, 3));
  }

  lemma ResetSteps(s: State)
    requires s.main == Reset(0)
    ensures MainSteps(s, 3) == s.(sh := s.sh.(flags := Flags(false, false, false)), main := AnnounceRun)
  {
    hide MainSteps, MainStep;
    Now(s);
    Then(s, 0);
    StartingAction(s);
    Then(s, 1);
    StartingAction(MainSteps(s, 1));
    Then(s, 2);
    StartingAction(MainSteps(s, 2));
  }

  lemma SetupSteps(s: State)
    requires s.main == AnnounceRun && !s.sh.stopEvent
    ensures MainSteps(s, 4) == s.(sh := s.sh.(phase := Ready), main := TestStart)
  {
    hide MainSteps, MainStep;
    Now(s);
    Then(s, 0);
    StartingAction(s);
    Then(s, 1);
    StartingAction(MainSteps(s, 1));
    Then(s, 2);
    StartingAction(MainSteps(s, 2));
    Then(s, 3);
    StartingAction(MainSteps(s, 3));
  }

  lemma {:induction false} StepsAdd(s: State, m: nat, n: nat)
    ensures MainSteps(s, m + n) == MainSteps(MainSteps(s, m), n)
  {
    hide MainStep;
    if n > 0 {
      StepsAdd(s, m, n - 1);
    }
  }

  /** Left alone, a session imports its module, clears the flags an earlier one left, and waits for START in state
      READY after eleven actions. */
  lemma StartsUp(flags: Flags)
    ensures MainSteps(Initial(flags), 11)
         == Initial(flags).(sh := Shared(Flags(false, false, false), false, false, true, Ready), main := TestStart)
  {
    hide MainSteps, MainStep;
    var s := Initial(flags);
    ImportSteps(s);
    var t := MainSteps(s, 4);
    ResetSteps(t);
    var u := MainSteps(t, 3);
    SetupSteps(u);
    StepsAdd(s, 4, 3);
    StepsAdd(s, 7, 4);
  }

  /** Single actions from the waiting loop on. */
  lemma FollowingAction(s: State)
    requires Waiting(s.main) || Armed(s.main)
    ensures var t, f := MainStep(s, Continue, true), s.sh.flags;
         && (s.main == TestStart ==> t == s.(main := if f.start then AnnounceRunning else TestStopWhileWaiting))
         && (s.main == TestStopWhileWaiting ==> t == s.(main := if f.stop then AnnounceRunning else TestStart))
         && (s.main == AnnounceRunning ==> t == s.(sh := s.sh.(phase := Running), main := TestStop))
         && (s.main == TestStop ==> t == s.(main := if f.stop then AnnounceStopping(false) else TestPaused))
         && (s.main == TestPaused ==> t == s.(main := if f.paused then TestStop else Body))
         && (s.main == Body ==> t == s.(main := TestStop))
         && (s.main == QuitButton(0) ==> t == s.(sh := s.sh.(flags := f.(start := false)), main := QuitButton(1)))
         && (s.main == QuitButton(1) ==> t == s.(sh := s.sh.(flags := f.(stop := true)), main := TestStop))
  {
  }

  /** Left alone with START set, it announces RUNNING and, not paused, makes its passes over the robot; a stop found
      there ends it. */
  lemma Follows(s: State)
    requires s.main == TestStart && s.sh.flags.start
    ensures MainSteps(s, 2) == s.(sh := s.sh.(phase := Running), main := TestStop)
    ensures !s.sh.flags.stop && !s.sh.flags.paused ==> MainSteps(s, 4).main == Body && MainSteps(s, 5).main == TestStop
    ensures !s.sh.flags.stop && s.sh.flags.paused ==> MainSteps(s, 4).main == TestStop
    ensures s.sh.flags.stop ==> MainSteps(s, 3).main == AnnounceStopping(false)
  {
    hide MainSteps, MainStep;
    Now(s);
    Then(s, 0);
    FollowingAction(s);
    Then(s, 1);
    FollowingAction(MainSteps(s, 1));
    var t := MainSteps(s, 2);
    Then(s, 2);
    FollowingAction(t);
    Then(s, 3);
    if !s.sh.flags.stop {
      FollowingAction(MainSteps(s, 3));
      Then(s, 4);
      FollowingAction(MainSteps(s, 4));
    }
  }

  /** Without START and STOP it keeps waiting. */
  lemma {:induction false} KeepsWaiting(s: State, n: nat)
    requires Waiting(s.main) && !s.sh.flags.start && !s.sh.flags.stop
    ensures Waiting(MainSteps(s, n).main) && MainSteps(s, n).sh == s.sh
  {
    if n > 0 {
      KeepsWaiting(s, n - 1);
      hide MainStep;
      FollowingAction(MainSteps(s, n - 1));
    }
  }

  /** The quit button clears START, sets STOP, and ends the session with its next test. */
  lemma QuitStops(s: State, sent: bool)
    requires s.main == Body
    ensures var t := MainSteps(MainStep(s, Quit, sent), 2);
         && t == s.(sh := s.sh.(flags := Flags(false, true, s.sh.flags.paused)), main := TestStop)
         && MainStep(t, Continue, true).main == AnnounceStopping(false)
  {
    var q := MainStep(s, Quit, sent);
    assert q == s.(main := QuitButton(0));
    hide MainSteps, MainStep;
    Now(q);
    Then(q, 0);
    FollowingAction(q);
    Then(q, 1);
    FollowingAction(MainSteps(q, 1));
    FollowingAction(MainSteps(q, 2));
  }

  // ------------------------------------------------------------------------------------------
  // How interruptions are reported.

  ghost predicate NoErrorYet(s: State) { !s.main.Ending() ==> s.sh.phase != Error }

  lemma CommandTellsNoError(s: State, input: Input, sent: bool)
    requires NoErrorYet(s)
    ensures NoErrorYet(CommandStep(s, input, sent))
  {
    CommandLeavesMain(s, input, sent);
    CommandPhase(s, input, sent);
    hide CommandStep;
  }

  lemma CommandPhase(s: State, input: Input, sent: bool)
    ensures CommandStep(s, input, sent).sh.phase == Error ==> s.sh.phase == Error
  {
    if s.command.Apply? {
      WritePhase(s.sh, s.command.command, s.command.stage, sent);
    }
    hide Write;
  }

  lemma WritePhase(sh: Shared, c: Command, k: nat, sent: bool)
    ensures Write(sh, c, k, sent).phase == Error ==> sh.phase == Error
  {
  }

  lemma MainTellsNoError(s: State, choice: MainChoice, sent: bool)
    requires NoErrorYet(s)
    ensures NoErrorYet(MainStep(s, choice, sent))
  {
    MainMoves(s, choice, sent);
  }

  lemma {:induction false} NoErrorBefore(flags: Flags, events: seq<Event>)
    ensures NoErrorYet(Run(Initial(flags), events))
  {
    if events != [] {
      var n := |events| - 1;
      NoErrorBefore(flags, events[..n]);
      hide NoErrorYet, CommandStep, MainStep;
      match events[n]
      case CommandAction(input, sent) => CommandTellsNoError(Run(Initial(flags), events[..n]), input, sent);
      case MainAction(choice, sent) => MainTellsNoError(Run(Initial(flags), events[..n]), choice, sent);
    }
  }

  lemma InterruptionWillReport(s: State, choice: MainChoice, sent: bool)
    requires !s.main.Ending() && NoErrorYet(s) && (choice == Raise || choice == Interrupt)
    ensures WillReport(MainStep(s, choice, sent), choice == Raise)
  {
  }

  lemma {:induction false} ReportsAs(s: State, events: seq<Event>, failed: bool)
    requires WillReport(s, failed) && CommandActions(events) == 0
    ensures WillReport(Run(s, events), failed)
  {
    if events != [] {
      var n := |events| - 1;
      ReportsAs(s, events[..n], failed);
      hide WillReport, MainStep;
      ReportStep(Run(s, events[..n]), events[n].choice, events[n].sent, failed);
    }
  }

  /** Wherever an exception or a keyboard interrupt strikes in a run, the session ends, and reports ERROR for an
      exception and STOPPED for an interrupt, unless a command is still applied behind it. */
  lemma InterruptionReports(flags: Flags, before: seq<Event>, choice: MainChoice, sent: bool, rest: seq<Event>)
    requires !Run(Initial(flags), before).main.Ending() && (choice == Raise || choice == Interrupt) && CommandActions(rest) == 0
    ensures var t := MainStep(Run(Initial(flags), before), choice, sent); var u := Run(t, rest);
         && t.main.Ending() && u.main.Ending()
         && (u.main == Finished ==> u.sh.phase == (if choice == Raise then Error else Stopped))
  {
    NoErrorBefore(flags, before);
    var s := Run(Initial(flags), before);
    InterruptionWillReport(s, choice, sent);
    ReportsAs(MainStep(s, choice, sent), rest, choice == Raise);
    hide Run, MainStep;
  }

  /** Actions of the main thread until its clean-up is done. */
  function ToFinish(m: MainPc): nat {
    match m
    case AnnounceError => 9
    case AnnounceStopping(failed) => if failed then 8 else 7
    case AnnounceStopped(failed) => if failed then 6 else 5
    case AnnounceFailure => 5
    case AnnounceReturn => 5
    case SetStopEvent => 4
    case SetCommandStop => 3
    case WithdrawModule => 2
    case AnnounceEnd => 1
    case _ => 0
  }

  lemma FinishStep(s: State, choice: MainChoice, sent: bool)
    requires s.main.Ending() && s.main != Finished
    ensures ToFinish(MainStep(s, choice, sent).main) < ToFinish(s.main) && MainStep(s, choice, sent).main.Ending()
  {
  }

  /** In any interleaving the clean-up is done within nine actions of the main thread. */
  lemma {:induction false} Finishes(s: State, events: seq<Event>)
    requires s.main.Ending()
    ensures var t := Run(s, events); t.main.Ending() && (t.main == Finished || ToFinish(t.main) + MainActions(events) <= ToFinish(s.main))
    ensures MainActions(events) >= 9 ==> Run(s, events).main == Finished
  {
    if events != [] {
      var n := |events| - 1;
      Finishes(s, events[..n]);
      var t := Run(s, events[..n]);
      hide Run;
      match events[n]
      case CommandAction(input, sent) => CommandLeavesMain(t, input, sent);
      case MainAction(choice, sent) =>
        if t.main != Finished {
          FinishStep(t, choice, sent);
        }
    }
    hide Step, MainStep, Run;
    AtMostNine(s.main);
    AtMostNine(Run(s, events).main);
  }

  lemma AtMostNine(m: MainPc)
    requires m.Ending()
    ensures ToFinish(m) <= 9 && (m == Finished <==> ToFinish(m) == 0)
  {
  }

  // ------------------------------------------------------------------------------------------
  // The command thread.

  /** `n` undisturbed actions of the command thread that receive nothing. */
  function CommandSteps(s: State, n: nat, sent: bool): State {
    if n == 0 then s else CommandStep(CommandSteps(s, n - 1, sent), Nothing, sent)
  }

  lemma {:induction false} AppliesFrom(s: State, c: Command, k: nat, sent: bool)
    requires s.command == Apply(c, 0) && k < Writes(c)
    ensures CommandSteps(s, k, sent).command == Apply(c, k) && CommandSteps(s, k, sent).main == s.main
    ensures WritesFrom(CommandSteps(s, k, sent).sh, c, k, sent) == WritesFrom(s.sh, c, 0, sent)
    ensures CommandSteps(s, k, sent).pending == s.pending
  {
    if k > 0 {
      AppliesFrom(s, c, k - 1, sent);
      hide Write, CommandStep;
      ApplyAction(CommandSteps(s, k - 1, sent), c, k - 1, sent);
    }
  }

  lemma ApplyAction(s: State, c: Command, k: nat, sent: bool)
    requires s.command == Apply(c, k) && k + 1 < Writes(c)
    ensures var t := CommandStep(s, Nothing, sent); t.command == Apply(c, k + 1) && t.main == s.main && t.pending == s.pending
    ensures WritesFrom(CommandStep(s, Nothing, sent).sh, c, k + 1, sent) == WritesFrom(s.sh, c, k, sent)
  {
    hide Write;
  }

  /** Left alone, the command thread performs all writes of a command and goes on with the next, or ends after a stop. */
  lemma AppliesAll(s: State, c: Command, sent: bool)
    requires s.command == Apply(c, 0)
    ensures var t := CommandSteps(s, Writes(c), sent);
         && t.sh == WritesFrom(s.sh, c, 0, sent) && t.pending == s.pending && t.main == s.main
         && t.command == (if c == StopCommand then Returned else TestPending)
  {
    var k := Writes(c) - 1;
    AppliesFrom(s, c, k, sent);
    assert CommandSteps(s, Writes(c), sent) == CommandStep(CommandSteps(s, k, sent), Nothing, sent);
    hide Write, CommandSteps;
    LastWrite(CommandSteps(s, k, sent), c, sent);
  }

  lemma LastWrite(s: State, c: Command, sent: bool)
    requires s.command == Apply(c, Writes(c) - 1)
    ensures var t := CommandStep(s, Nothing, sent);
         && t.sh == WritesFrom(s.sh, c, Writes(c) - 1, sent) && t.pending == s.pending && t.main == s.main
         && t.command == (if c == StopCommand then Returned else TestPending)
  {
    hide Write;
    assert WritesFrom(s.sh, c, Writes(c) - 1, sent) == WritesFrom(Write(s.sh, c, Writes(c) - 1, sent), c, Writes(c), sent);
  }

  /** The first pending command is the one applied. */
  lemma TakesFirst(s: State, input: Input, sent: bool)
    requires s.command == TestPending
    ensures var t := CommandStep(s, input, sent);
         && t.sh == s.sh && t.main == s.main
         && (s.pending == [] ==> t.command == TestCommandStop && t.pending == [])
         && (s.pending != [] ==> t.command == Apply(s.pending[0], 0) && t.pending == s.pending[1..])
  {
  }

  /** Start, pause and resume announce their state after all flags are written, stop before any. */
  lemma WriteOrder(sh: Shared, c: Command, k: nat, sent: bool)
    requires k < Writes(c)
    ensures var t := Write(sh, c, k, sent);
            if k == (if c == StopCommand then 0 else Writes(c) - 1)
            then t == sh.(phase := t.phase, stopEvent := sh.stopEvent || !sent) && t.phase != Starting
            else t == sh.(flags := t.flags)
  {
  }

  /** A pipe that fails sets the stop event, when receiving, when a command announces its state, and when the main
      thread does; a failed receive ends the command thread. */
  lemma PipeFailureStops(s: State)
    ensures s.command == Poll ==> CommandStep(s, PipeFailed, true) == s.(command := Returned, sh := s.sh.(stopEvent := true))
    ensures s.command.Apply? && s.command.stage == (if s.command.command == StopCommand then 0 else Writes(s.command.command) - 1) ==>
              CommandStep(s, Nothing, false).sh.stopEvent
    ensures s.main in {AnnounceStarting, AnnounceRun, AnnounceReady, AnnounceRunning} ==> MainStep(s, Continue, false).sh.stopEvent
  {
  }

  /** Actions of the command thread until it ends once the module is withdrawn. */
  function ToReturn(s: State): nat {
    var pending := 6 * |s.pending|;
    match s.command
    case Returned => 0
    case TestCommandStop => 1
    case ReadModule => 2
    case Poll => 3
    case TestPending => 2 + pending
    case Apply(c, k) => (if k <= Writes(c) then Writes(c) - k else 0) + 2 + pending
    case TestPhase => 3 + pending
    case TestStopEvent => 8 + pending
  }

  lemma ReturnStep(s: State, input: Input, sent: bool)
    requires s.sh.commandStop && !s.sh.moduleSet && s.command != Returned && (s.command.Apply? ==> s.command.stage < Writes(s.command.command))
    ensures var t := CommandStep(s, input, sent);
         && ToReturn(t) < ToReturn(s) && t.sh.commandStop && !t.sh.moduleSet
         && (t.command.Apply? ==> t.command.stage < Writes(t.command.command))
  {
  }

  /** Once the command stop is set and the module withdrawn the command thread ends, whatever it still receives. */
  lemma {:induction false} CommandThreadEnds(s: State, events: seq<Event>)
    requires s.sh.commandStop && !s.sh.moduleSet && (s.command.Apply? ==> s.command.stage < Writes(s.command.command))
    requires MainActions(events) == 0 && CommandActions(events) >= ToReturn(s)
    ensures Run(s, events).command == Returned
  {
    Returning(s, events);
    hide Run, ToReturn;
    NotReturned(Run(s, events));
  }

  lemma NotReturned(s: State)
    ensures ToReturn(s) == 0 && (s.command.Apply? ==> s.command.stage < Writes(s.command.command)) ==> s.command == Returned
  {
  }

  lemma {:induction false} Returning(s: State, events: seq<Event>)
    requires s.sh.commandStop && !s.sh.moduleSet && (s.command.Apply? ==> s.command.stage < Writes(s.command.command))
    requires MainActions(events) == 0
    ensures var t := Run(s, events);
         && t.sh.commandStop && !t.sh.moduleSet && (t.command.Apply? ==> t.command.stage < Writes(t.command.command))
         && (t.command == Returned || ToReturn(t) + CommandActions(events) <= ToReturn(s))
  {
    if events != [] {
      var n := |events| - 1;
      Returning(s, events[..n]);
      var t := Run(s, events[..n]);
      if t.command != Returned {
        ReturnStep(t, events[n].input, events[n].sent);
      }
      hide CommandStep, ToReturn;
      StaysReturned(t, events[n].input, events[n].sent);
    }
  }

  lemma StaysReturned(s: State, input: Input, sent: bool)
    ensures s.command == Returned ==> CommandStep(s, input, sent) == s
  {
  }

  // ------------------------------------------------------------------------------------------
  // Before the import.

  predicate BeforeImport(m: MainPc) { m.AnnounceStarting? || m.Import? || m.PublishModule? }

  ghost predicate Untouched(flags: Flags, s: State) {
    BeforeImport(s.main) ==>
      !s.sh.moduleSet && s.sh.flags == flags && s.command in {TestCommandStop, Poll, ReadModule, Returned}
  }

  lemma CommandLeavesUntouched(flags: Flags, s: State, input: Input, sent: bool)
    requires Untouched(flags, s)
    ensures Untouched(flags, CommandStep(s, input, sent))
  {
    CommandLeavesMain(s, input, sent);
  }

  lemma MainLeavesUntouched(flags: Flags, s: State, choice: MainChoice, sent: bool)
    requires Untouched(flags, s)
    ensures Untouched(flags, MainStep(s, choice, sent))
  {
    MainMoves(s, choice, sent);
  }

  /** Before the session module is published no command touches it, not even a stop. */
  lemma {:induction false} UntouchedBeforeImport(flags: Flags, events: seq<Event>)
    ensures var s := Run(Initial(flags), events); BeforeImport(s.main) ==> s.sh.flags == flags && !s.sh.moduleSet
    ensures Untouched(flags, Run(Initial(flags), events))
  {
    if events != [] {
      var n := |events| - 1;
      UntouchedBeforeImport(flags, events[..n]);
      hide CommandStep, MainStep;
      match events[n]
      case CommandAction(input, sent) => CommandLeavesUntouched(flags, Run(Initial(flags), events[..n]), input, sent);
      case MainAction(choice, sent) => MainLeavesUntouched(flags, Run(Initial(flags), events[..n]), choice, sent);
    }
  }
}
