/** When the robot starts to follow: the flags of the session between the command thread and the waiting loop
    of `run` (dexfull/control/runtime.py, dexfull/control/session.py), over all runs of `CommandLoop`. */
module StartGate {
  import opened CommandLoop

  predicate Waiting(m: MainPc) { m.TestStart? || m.TestStopWhileWaiting? }

  /** The main thread has left the waiting loop towards following. */
  predicate Armed(m: MainPc) { m.AnnounceRunning? || m.TestStop? || m.TestPaused? || m.Body? || m.QuitButton? }

  // ------------------------------------------------------------------------------------------
  // Following is asked for.

  /** A start or resume was received, or the stop event is set. */
  ghost predicate Asked(s: State) { s.sh.stopEvent || Start in s.log.received || Resume in s.log.received }

  /** `run` has cleared START, and STOP, left by an earlier session. */
  predicate StartCleared(m: MainPc) { (m.Reset? && m.stage >= 1) || m.AnnounceRun? || m.CheckEventAgain? || m.Following() }
  predicate StopCleared(m: MainPc) { (m.Reset? && m.stage >= 2) || m.AnnounceRun? || m.CheckEventAgain? || m.Following() }

  ghost predicate Gated(s: State) {
    && (s.log.stopReceived ==> s.sh.stopEvent)
    && (s.command.Apply? && s.command.command != Pause ==> Asked(s))
    && (forall i :: 0 <= i < |s.pending| && s.pending[i] != Pause ==> Asked(s))
    && (StartCleared(s.main) && s.sh.flags.start ==> Asked(s))
    && (StopCleared(s.main) && s.sh.flags.stop ==> Asked(s))
    && (Armed(s.main) ==> Asked(s))
  }

  lemma CommandKeepsAsked(s: State, input: Input, sent: bool)
    requires Asked(s)
    ensures Asked(CommandStep(s, input, sent))
  {
  }

  lemma MainKeepsAsked(s: State, choice: MainChoice, sent: bool)
    ensures MainStep(s, choice, sent).log == s.log
    ensures Asked(s) ==> Asked(MainStep(s, choice, sent))
  {
    MainMoves(s, choice, sent);
    hide MainStep;
  }

  lemma CommandKeepsGate(s: State, input: Input, sent: bool)
    requires Gated(s)
    ensures Gated(CommandStep(s, input, sent))
  {
    if Asked(s) {
      CommandKeepsAsked(s, input, sent);
      hide CommandStep, Asked;
    } else {
      match s.command
      case Apply(c, k) =>
        assert c == Pause;
      case Poll =>
        ReceiveKeepsGate(s, input);
      case TestPending =>
        var t := CommandStep(s, input, sent);
        assert t.log.received == s.log.received && t.sh == s.sh && t.main == s.main;
        assert s.pending != [] ==> s.pending[0] == Pause && forall i :: 0 <= i < |t.pending| ==> t.pending[i] == s.pending[i + 1];
      case _ =>
    }
  }

  lemma ReceiveKeepsGate(s: State, input: Input)
    requires Gated(s) && !Asked(s) && s.command == Poll
    ensures Gated(Receive(s, input))
  {
  }

  lemma MainKeepsGate(s: State, choice: MainChoice, sent: bool)
    requires Gated(s)
    ensures Gated(MainStep(s, choice, sent))
  {
    hide MainStep, Asked;
    MainKeepsAsked(s, choice, sent);
    MainMoves(s, choice, sent);
    if !Asked(s) && !s.main.Ending() {
      MainGate(s, choice, sent);
    }
  }

  lemma MainGate(s: State, choice: MainChoice, sent: bool)
    requires Gated(s) && !Asked(s) && !s.main.Ending()
    ensures var t := MainStep(s, choice, sent);
         && (StartCleared(t.main) ==> !t.sh.flags.start) && (StopCleared(t.main) ==> !t.sh.flags.stop) && !Armed(t.main)
  {
  }

  lemma {:induction false} GateKept(flags: Flags, events: seq<Event>)
    ensures Gated(Run(Initial(flags), events))
  {
    hide Gated, CommandStep, MainStep;
    if events == [] {
      InitialGated(flags);
    } else {
      var n := |events| - 1;
      GateKept(flags, events[..n]);
      match events[n]
      case CommandAction(input, sent) => CommandKeepsGate(Run(Initial(flags), events[..n]), input, sent);
      case MainAction(choice, sent) => MainKeepsGate(Run(Initial(flags), events[..n]), choice, sent);
    }
  }

  lemma InitialGated(flags: Flags)
    ensures Gated(Initial(flags))
  {
  }

  /** Whatever flags an earlier session left: the robot follows only after a start or resume was received, or
      with the stop event set, in which case it is about to stop. */
  lemma FollowingIsAsked(flags: Flags, events: seq<Event>)
    ensures var s := Run(Initial(flags), events);
            Armed(s.main) ==> s.sh.stopEvent || Start in s.log.received || Resume in s.log.received
  {
    GateKept(flags, events);
    hide Run;
  }

  /** No start, resume or stop is received, and no pipe fails. */
  ghost predicate Silent(events: seq<Event>) {
    forall i :: 0 <= i < |events| ==>
      events[i].sent && (events[i].CommandAction? ==> events[i].input in {Nothing, Unknown, Message(Pause)})
  }

  ghost predicate Quiet(s: State) {
    && (s.sh.stopEvent ==> s.main.Ending())
    && (forall i :: 0 <= i < |s.log.received| ==> s.log.received[i] == Pause)
    && (forall i :: 0 <= i < |s.pending| ==> s.pending[i] == Pause)
    && (s.command.Apply? && s.command.command == StopCommand ==> s.sh.stopEvent)
  }

  lemma CommandStaysQuiet(s: State, input: Input)
    requires Quiet(s) && input in {Nothing, Unknown, Message(Pause)}
    ensures Quiet(CommandStep(s, input, true))
  {
  }

  lemma MainStaysQuiet(s: State, choice: MainChoice)
    requires Quiet(s)
    ensures Quiet(MainStep(s, choice, true))
  {
    MainKeepsAsked(s, choice, true);
    MainMoves(s, choice, true);
  }

  lemma {:induction false} SilentIsQuiet(flags: Flags, events: seq<Event>)
    requires Silent(events)
    ensures Quiet(Run(Initial(flags), events))
  {
    if events != [] {
      var n := |events| - 1;
      SilentIsQuiet(flags, events[..n]);
      hide Quiet, CommandStep, MainStep;
      match events[n]
      case CommandAction(input, sent) => CommandStaysQuiet(Run(Initial(flags), events[..n]), input);
      case MainAction(choice, sent) => MainStaysQuiet(Run(Initial(flags), events[..n]), choice);
    }
  }

  /** Without a received start, resume or stop and without a pipe failure the robot never follows. */
  lemma NeverUnasked(flags: Flags, events: seq<Event>)
    requires Silent(events)
    ensures !Armed(Run(Initial(flags), events).main)
  {
    SilentIsQuiet(flags, events);
    FollowingIsAsked(flags, events);
    hide Run;
  }

  lemma EntersArmed(s: State, e: Event)
    requires !Armed(s.main) && Armed(Step(s, e).main)
    ensures Waiting(s.main) && (if s.main.TestStart? then s.sh.flags.start else s.sh.flags.stop)
  {
    match e
    case CommandAction(input, sent) => CommandLeavesMain(s, input, sent);
    case MainAction(choice, sent) => EndLeavesArmed(s, choice, sent);
  }

  lemma EndLeavesArmed(s: State, choice: MainChoice, sent: bool)
    ensures s.main.Ending() ==> !Armed(MainStep(s, choice, sent).main)
  {
    MainMoves(s, choice, sent);
    hide MainStep;
  }

  /** In every run that follows, the waiting loop of this session read START or STOP as set before. */
  lemma {:induction false} FlagReadBefore(flags: Flags, events: seq<Event>)
    requires Armed(Run(Initial(flags), events).main)
    ensures exists i :: 0 <= i < |events| && FlagRead(Run(Initial(flags), events[..i]))
  {
    if events != [] {
      var n := |events| - 1;
      var s := Run(Initial(flags), events[..n]);
      if Armed(s.main) {
        FlagReadBefore(flags, events[..n]);
        var i :| 0 <= i < n && FlagRead(Run(Initial(flags), events[..n][..i]));
        assert events[..n][..i] == events[..i];
      } else {
        hide Step;
        EntersArmed(s, events[n]);
        assert FlagRead(Run(Initial(flags), events[..n]));
      }
    }
  }

  ghost predicate FlagRead(s: State) {
    (s.main.TestStart? && s.sh.flags.start) || (s.main.TestStopWhileWaiting? && s.sh.flags.stop)
  }

  // ------------------------------------------------------------------------------------------
  // It follows when asked.

  ghost predicate Undisturbed(events: seq<Event>) {
    forall i :: 0 <= i < |events| && events[i].MainAction? ==> events[i].choice == Continue
  }

  /** START is set at every moment. */
  ghost predicate StartHeld(s: State, events: seq<Event>) {
    forall i :: 0 <= i <= |events| ==> Run(s, events[..i]).sh.flags.start
  }

  function StepsToRun(m: MainPc): nat { if m.TestStopWhileWaiting? then 2 else 1 }

  lemma WaitStep(s: State, e: Event)
    requires Waiting(s.main) && s.sh.flags.start && (e.MainAction? ==> e.choice == Continue)
    ensures var t := Step(s, e);
            if e.CommandAction? then t.main == s.main
            else t.main == AnnounceRunning || (Waiting(t.main) && StepsToRun(t.main) == 1 && StepsToRun(s.main) == 2)
  {
    if e.CommandAction? {
      CommandLeavesMain(s, e.input, e.sent);
    }
  }

  /** With START set and kept, in any interleaving, the main thread leaves the waiting loop towards RUNNING with its
      next or next but one action. */
  lemma {:induction false} FollowsWhenAsked(s: State, events: seq<Event>)
    requires Waiting(s.main) && Undisturbed(events) && StartHeld(s, events)
    requires MainActions(events) >= StepsToRun(s.main)
    ensures exists i :: 0 <= i <= |events| && MainActions(events[..i]) <= 2 && Run(s, events[..i]).main == AnnounceRunning
  {
    hide Step;
    StillWaiting(s, events);
  }

  lemma {:induction false} StillWaiting(s: State, events: seq<Event>)
    requires Waiting(s.main) && Undisturbed(events) && StartHeld(s, events)
    ensures || (Waiting(Run(s, events).main) && StepsToRun(Run(s, events).main) + MainActions(events) <= StepsToRun(s.main))
            || exists i :: 0 <= i <= |events| && MainActions(events[..i]) <= 2 && Run(s, events[..i]).main == AnnounceRunning
  {
    if events != [] {
      hide Step;
      var n := |events| - 1;
      var t := Run(s, events[..n]);
      forall i | 0 <= i <= n
        ensures events[..n][..i] == events[..i]
      {
      }
      assert StartHeld(s, events[..n]);
      StillWaiting(s, events[..n]);
      if Waiting(t.main) && StepsToRun(t.main) + MainActions(events[..n]) <= StepsToRun(s.main) {
        assert Run(s, events[..n]).sh.flags.start;
        WaitStep(t, events[n]);
        assert events[..n + 1] == events;
      } else {
        var i :| 0 <= i <= n && MainActions(events[..n][..i]) <= 2 && Run(s, events[..n][..i]).main == AnnounceRunning;
        assert events[..n][..i] == events[..i];
      }
    }
  }

  /** PAUSED is set at every moment. */
  ghost predicate PauseHeld(s: State, events: seq<Event>) {
    forall i :: 0 <= i <= |events| ==> Run(s, events[..i]).sh.flags.paused
  }

  /** While PAUSED is set the main loop makes no pass over the robot, in any interleaving. */
  lemma {:induction false} PauseSuspends(s: State, events: seq<Event>)
    requires !s.main.Body? && PauseHeld(s, events)
    ensures !Run(s, events).main.Body?
  {
    if events != [] {
      var n := |events| - 1;
      forall i | 0 <= i <= n
        ensures events[..n][..i] == events[..i]
      {
      }
      assert PauseHeld(s, events[..n]);
      PauseSuspends(s, events[..n]);
      assert Run(s, events[..n]).sh.flags.paused;
      hide Step;
      EntersBody(Run(s, events[..n]), events[n]);
    }
  }

  lemma EntersBody(s: State, e: Event)
    requires !s.main.Body?
    ensures Step(s, e).main.Body? ==> s.main.TestPaused? && !s.sh.flags.paused
  {
    match e
    case CommandAction(input, sent) => CommandLeavesMain(s, input, sent);
    case MainAction(choice, sent) => EndLeavesArmed(s, choice, sent);
  }

  // ------------------------------------------------------------------------------------------
  // Commands wait for READY, and are applied then.

  predicate StartingUp(m: MainPc) { m.BeforeCheck() || m.Setup? || m.AnnounceReady? }

  /** While the session starts nothing but a stop is applied. */
  ghost predicate HeldBack(s: State) {
    StartingUp(s.main) ==>
      && s.log.applied == []
      && s.command != TestPending
      && (s.command.Apply? ==> s.command.command == StopCommand)
      && (s.sh.phase == Starting || s.command.Apply? || s.command == Returned)
  }

  /** Which commands are where. */
  ghost predicate Placed(s: State) {
    && (s.command == Returned ==> s.sh.stopEvent || s.sh.commandStop)
    && (s.command.Apply? && s.command.command == StopCommand ==> s.sh.stopEvent)
    && (s.command.Apply? ==> s.command.stage < Writes(s.command.command))
    && (forall i :: 0 <= i < |s.pending| ==> s.pending[i] != StopCommand)
  }

  /** What the main thread has announced and published. */
  ghost predicate Published(s: State) {
    && (Waiting(s.main) || Armed(s.main) ==> s.sh.phase != Starting)
    && (s.main.Following() || s.main in {CheckEvent, AnnounceRun, CheckEventAgain} || s.main.Reset? ==> s.sh.moduleSet)
    && (!s.main.Ending() ==> !s.sh.commandStop)
  }

  ghost predicate Announced(s: State) { HeldBack(s) && Placed(s) && Published(s) }

  lemma CommandKeepsAnnounced(s: State, input: Input, sent: bool)
    requires Announced(s)
    ensures Announced(CommandStep(s, input, sent))
  {
    CommandLeavesMain(s, input, sent);
    CommandHeldBack(s, input, sent);
    CommandPlaced(s, input, sent);
    CommandPublished(s, input, sent);
    hide *;
  }

  lemma CommandHeldBack(s: State, input: Input, sent: bool)
    requires HeldBack(s)
    ensures HeldBack(CommandStep(s, input, sent))
  {
    CommandLeavesMain(s, input, sent);
  }

  lemma CommandPlaced(s: State, input: Input, sent: bool)
    requires Placed(s)
    ensures Placed(CommandStep(s, input, sent))
  {
  }

  lemma CommandPublished(s: State, input: Input, sent: bool)
    requires Published(s)
    ensures Published(CommandStep(s, input, sent))
  {
    CommandLeavesMain(s, input, sent);
    CommandShares(s, input, sent);
    hide CommandStep;
  }

  lemma CommandShares(s: State, input: Input, sent: bool)
    ensures var t := CommandStep(s, input, sent);
         && t.sh.moduleSet == s.sh.moduleSet && t.sh.commandStop == s.sh.commandStop && (s.sh.phase != Starting ==> t.sh.phase != Starting)
  {
    if s.command.Apply? {
      WriteShares(s.sh, s.command.command, s.command.stage, sent);
    }
    hide Write;
  }

  lemma WriteShares(sh: Shared, c: Command, k: nat, sent: bool)
    ensures var t := Write(sh, c, k, sent);
         && t.moduleSet == sh.moduleSet && t.commandStop == sh.commandStop && (sh.phase != Starting ==> t.phase != Starting)
  {
  }

  lemma MainKeepsAnnounced(s: State, choice: MainChoice, sent: bool)
    requires Announced(s)
    ensures Announced(MainStep(s, choice, sent))
  {
    MainMoves(s, choice, sent);
    MainHeldBack(s, choice, sent);
    MainPublishes(s, choice, sent);
    hide MainStep, HeldBack, Published, Moved;
    assert MainStep(s, choice, sent).command == s.command by {
      MainMoved(s, MainStep(s, choice, sent));
    }
    MainPlaced(s, MainStep(s, choice, sent));
  }

  lemma MainMoved(s: State, t: State)
    requires Moved(s, t)
    ensures t.command == s.command && t.pending == s.pending && (s.sh.stopEvent ==> t.sh.stopEvent)
  {
  }

  lemma MainPlaced(s: State, t: State)
    requires Placed(s) && Moved(s, t) && (s.sh.commandStop ==> t.sh.commandStop)
    ensures Placed(t)
  {
  }

  lemma MainHeldBack(s: State, choice: MainChoice, sent: bool)
    requires HeldBack(s)
    ensures HeldBack(MainStep(s, choice, sent))
  {
    MainMoves(s, choice, sent);
    if s.main.Ending() {
      hide MainStep;
    }
  }

  lemma MainPublishes(s: State, choice: MainChoice, sent: bool)
    requires Published(s)
    ensures Published(MainStep(s, choice, sent)) && (s.sh.commandStop ==> MainStep(s, choice, sent).sh.commandStop)
  {
    MainMoves(s, choice, sent);
  }

  lemma {:induction false} AnnouncedKept(flags: Flags, events: seq<Event>)
    ensures Announced(Run(Initial(flags), events))
  {
    hide Announced, CommandStep, MainStep;
    if events == [] {
      InitialAnnounced(flags);
    } else {
      var n := |events| - 1;
      AnnouncedKept(flags, events[..n]);
      match events[n]
      case CommandAction(input, sent) => CommandKeepsAnnounced(Run(Initial(flags), events[..n]), input, sent);
      case MainAction(choice, sent) => MainKeepsAnnounced(Run(Initial(flags), events[..n]), choice, sent);
    }
  }

  lemma InitialAnnounced(flags: Flags)
    ensures Announced(Initial(flags))
  {
  }

  /** No start, pause or resume is applied before the session is ready, so that `run`'s flag resets lose none. */
  lemma HeldBackUntilReady(flags: Flags, events: seq<Event>)
    ensures var s := Run(Initial(flags), events); StartingUp(s.main) ==> s.log.applied == []
  {
    AnnouncedKept(flags, events);
    hide Run;
  }

  /** Command-thread actions until the first pending command is taken. */
  function ToTake(c: CommandPc): nat {
    match c
    case TestPending => 1
    case TestPhase => 2
    case TestStopEvent => 3
    case ReadModule => 4
    case Poll => 5
    case TestCommandStop => 6
    case Apply(c, k) => if k <= Writes(c) then Writes(c) - k + 1 else 0
    case Returned => 0
  }

  /** The session serves commands: ready or later, and no stop. */
  ghost predicate Serving(s: State) { (Waiting(s.main) || Armed(s.main)) && !s.sh.stopEvent }

  lemma TakeStep(s: State, input: Input, sent: bool)
    requires Announced(s) && Serving(s) && s.pending != [] && !s.log.stopReceived
    requires var t := CommandStep(s, input, sent); !t.sh.stopEvent
    ensures var t := CommandStep(s, input, sent);
         && |t.log.applied| >= |s.log.applied|
         && (|t.log.applied| > |s.log.applied| || (t.pending != [] && ToTake(t.command) < ToTake(s.command)))
         && (|t.log.applied| > |s.log.applied| ==> t.log.applied == s.log.applied + [s.pending[0]])
  {
  }

  ghost predicate AlwaysServing(s: State, events: seq<Event>) {
    forall i :: 0 <= i <= |events| ==> Serving(Run(s, events[..i]))
  }

  lemma StillOpen(flags: Flags, events: seq<Event>)
    ensures var s := Run(Initial(flags), events); Announced(s) && (s.log.stopReceived ==> s.sh.stopEvent)
  {
    AnnouncedKept(flags, events);
    GateKept(flags, events);
    hide Run, Announced;
  }

  /** In any interleaving without a stop, a pending command is taken within six actions of the command thread. */
  lemma {:induction false} PendingTaken(flags: Flags, before: seq<Event>, events: seq<Event>)
    requires Run(Initial(flags), before).pending != [] && AlwaysServing(Run(Initial(flags), before), events)
    ensures var s := Run(Initial(flags), before); var t := Run(s, events);
         && s.log.applied <= t.log.applied
         && (|t.log.applied| > |s.log.applied| || (t.pending != [] && ToTake(t.command) + CommandActions(events) <= ToTake(s.command)))
  {
    if events != [] {
      var n := |events| - 1;
      var s := Run(Initial(flags), before);
      var t := Run(s, events[..n]);
      forall i | 0 <= i <= n
        ensures events[..n][..i] == events[..i]
      {
      }
      assert AlwaysServing(s, events[..n]);
      PendingTaken(flags, before, events[..n]);
      RunConcat(Initial(flags), before, events[..n]);
      StillOpen(flags, before + events[..n]);
      assert events[..n + 1] == events;
      assert Serving(t) && Serving(Run(s, events));
      TakenStep(s, t, events[n], CommandActions(events[..n]));
    }
  }

  lemma TakenStep(s: State, t: State, e: Event, taken: nat)
    requires Announced(t) && Serving(t) && !t.log.stopReceived && !Step(t, e).sh.stopEvent && s.log.applied <= t.log.applied
    requires |t.log.applied| > |s.log.applied| || (t.pending != [] && ToTake(t.command) + taken <= ToTake(s.command))
    ensures var u := Step(t, e);
         && s.log.applied <= u.log.applied
         && (|u.log.applied| > |s.log.applied| ||
             (u.pending != [] && ToTake(u.command) + (if e.CommandAction? then taken + 1 else taken) <= ToTake(s.command)))
  {
    match e
    case MainAction(choice, sent) =>
      MainMoves(t, choice, sent);
      hide MainStep;
    case CommandAction(input, sent) =>
      AppliedGrows(t, input, sent);
      if t.pending != [] {
        TakeStep(t, input, sent);
      }
      hide CommandStep, Announced;
  }

  lemma AppliedGrows(s: State, input: Input, sent: bool)
    ensures s.log.applied <= CommandStep(s, input, sent).log.applied
  {
  }

  lemma {:induction false} RunConcat(s: State, first: seq<Event>, second: seq<Event>)
    ensures Run(s, first + second) == Run(Run(s, first), second)
  {
    if second == [] {
      assert first + second == first;
    } else {
      var n := |second| - 1;
      assert (first + second)[..|first + second| - 1] == first + second[..n];
      RunConcat(s, first, second[..n]);
    }
  }

  /** So a command received in time is applied: six actions of the command thread apply at least one more. */
  lemma CommandsTaken(flags: Flags, before: seq<Event>, events: seq<Event>)
    requires Run(Initial(flags), before).pending != [] && AlwaysServing(Run(Initial(flags), before), events)
    requires CommandActions(events) >= 6
    ensures |Run(Run(Initial(flags), before), events).log.applied| > |Run(Initial(flags), before).log.applied|
  {
    PendingTaken(flags, before, events);
    var s, t := Run(Initial(flags), before), Run(Run(Initial(flags), before), events);
    StillOpen(flags, before);
    RunConcat(Initial(flags), before, events);
    StillOpen(flags, before + events);
    assert events[..|events|] == events;
    assert Serving(t);
    hide Run;
    AtLeastOne(s, t);
  }

  lemma AtLeastOne(s: State, t: State)
    requires Announced(s) && Announced(t) && Serving(t)
    ensures ToTake(s.command) <= 6 && ToTake(t.command) >= 1
  {
  }

  // ------------------------------------------------------------------------------------------
  // The end of a session.

  /** What the clean-up has done when it gets there. */
  ghost predicate CleanedUp(s: State) {
    && (s.main in {SetCommandStop, WithdrawModule, AnnounceEnd, Finished} ==> s.sh.stopEvent)
    && (s.main in {WithdrawModule, AnnounceEnd, Finished} ==> s.sh.commandStop)
    && (s.main in {AnnounceEnd, Finished} ==> !s.sh.moduleSet)
  }

  lemma CommandKeepsClean(s: State, input: Input, sent: bool)
    requires CleanedUp(s)
    ensures CleanedUp(CommandStep(s, input, sent))
  {
    CommandLeavesMain(s, input, sent);
  }

  lemma MainKeepsClean(s: State, choice: MainChoice, sent: bool)
    requires CleanedUp(s)
    ensures CleanedUp(MainStep(s, choice, sent))
  {
  }

  /** In every run that has ended, the stop event and the command stop are set and the module is withdrawn. */
  lemma {:induction false} EndsClean(flags: Flags, events: seq<Event>)
    ensures CleanedUp(Run(Initial(flags), events))
  {
    if events != [] {
      var n := |events| - 1;
      EndsClean(flags, events[..n]);
      hide CleanedUp, CommandStep, MainStep;
      match events[n]
      case CommandAction(input, sent) => CommandKeepsClean(Run(Initial(flags), events[..n]), input, sent);
      case MainAction(choice, sent) => MainKeepsClean(Run(Initial(flags), events[..n]), choice, sent);
    }
  }

  predicate Failing(m: MainPc) {
    m == AnnounceError || m == AnnounceFailure || (m.AnnounceStopping? && m.failed) || (m.AnnounceStopped? && m.failed)
  }

  predicate Announcing(m: MainPc) {
    m == AnnounceReturn || m.AnnounceStopping? || m.AnnounceStopped? || Failing(m)
  }

  /** What the end of a session will report, if no command is being applied any more. */
  ghost predicate WillReport(s: State, failed: bool) {
    && s.main.Ending()
    && (if Announcing(s.main) then Failing(s.main) == failed
        else if s.main == Finished then s.sh.phase == (if failed then Error else Stopped)
        else (s.sh.phase == Error) == failed)
  }

  lemma ReportStep(s: State, choice: MainChoice, sent: bool, failed: bool)
    requires WillReport(s, failed)
    ensures WillReport(MainStep(s, choice, sent), failed)
  {
  }

  /** Where an exception leads the session is reported as ERROR in the end, otherwise as STOPPED. */
  lemma {:induction false} EndReports(s: State, events: seq<Event>, failed: bool)
    requires Announcing(s.main) && Failing(s.main) == failed && CommandActions(events) == 0
    ensures Run(s, events).main == Finished ==> Run(s, events).sh.phase == (if failed then Error else Stopped)
    ensures WillReport(Run(s, events), failed)
  {
    if events != [] {
      var n := |events| - 1;
      EndReports(s, events[..n], failed);
      hide WillReport, MainStep;
      ReportStep(Run(s, events[..n]), events[n].choice, events[n].sent, failed);
    }
    hide Run, Failing, Announcing;
  }
}
