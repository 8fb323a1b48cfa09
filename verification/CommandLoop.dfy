/** The command thread of the control process against its main thread (dexfull/control/runtime.py,
    dexfull/control/session.py), as a machine over their reads and writes of shared state.  A pipe failure
    while sending a state sets the stop event.  A disabled event changes nothing. */
module CommandLoop {
  import opened Wrappers

  datatype Command = Start | Pause | Resume | StopCommand

  datatype Phase = Starting | Ready | Running | Paused | Stopping | Stopped | Error

  /** The module flags of the session. */
  datatype Flags = Flags(start: bool, stop: bool, paused: bool)

  /** `Apply(c, k)` is before write `k` of `apply_command(c)`. */
  datatype CommandPc =
    | TestCommandStop | Poll | ReadModule | TestStopEvent | TestPhase | TestPending
    | Apply(command: Command, stage: nat)
    | Returned

  /** The main thread, named after its next action; `Reset(k)` is before flag reset `k` of `run`. */
  datatype MainPc =
    | AnnounceStarting | Import | PublishModule | CheckEvent
    | Reset(stage: nat) | AnnounceRun | CheckEventAgain
    | Setup | AnnounceReady | TestStart | TestStopWhileWaiting | AnnounceRunning
    | TestStop | TestPaused | Body | QuitButton(stage: nat)
    | AnnounceReturn | AnnounceError | AnnounceStopping(failed: bool) | AnnounceStopped(failed: bool) | AnnounceFailure
    | SetStopEvent | SetCommandStop | WithdrawModule | AnnounceEnd | Finished
  {
    /** Up to and including `run`'s own check of the stop event. */
    predicate BeforeCheck() {
      AnnounceStarting? || Import? || PublishModule? || CheckEvent? || Reset? || AnnounceRun? || CheckEventAgain?
    }

    /** Inside the `try` of `run`. */
    predicate Following() {
      Setup? || AnnounceReady? || TestStart? || TestStopWhileWaiting? || AnnounceRunning? || TestStop? || TestPaused? || Body?
      || QuitButton?
    }

    /** The control loop has been left for good: `run` and its caller clean up. */
    predicate Ending() { !BeforeCheck() && !Following() }
  }

  datatype Shared = Shared(flags: Flags, stopEvent: bool, commandStop: bool, moduleSet: bool, phase: Phase)

  /** What happened so far: `received` and `applied` are the start, pause and resume commands before any
      stop; `late` counts those applied after one. `early` tells whether the stop found `run` before its check. */
  datatype Log = Log(received: seq<Command>, applied: seq<Command>, stopReceived: bool, early: bool, stopApplied: bool, late: nat)

  datatype State = State(sh: Shared, command: CommandPc, main: MainPc, pending: seq<Command>, log: Log)

  /** Flags hold what the previous session in this process left, if any. */
  function Initial(flags: Flags): State {
    State(Shared(flags, false, false, false, Starting), TestCommandStop, AnnounceStarting, [], Log([], [], false, false, false, 0))
  }

  datatype Input = Nothing | Message(command: Command) | Unknown | PipeFailed

  /** What interrupts the main thread: an exception, a keyboard interrupt, or the quit button. */
  datatype MainChoice = Continue | Raise | Interrupt | Quit

  /** `sent` tells whether sending a state succeeds. */
  datatype Event = CommandAction(input: Input, sent: bool) | MainAction(choice: MainChoice, sent: bool)

  function SetPhase(sh: Shared, phase: Phase, sent: bool): Shared {
    sh.(phase := phase, stopEvent := sh.stopEvent || !sent)
  }

  // ------------------------------------------------------------------------------------------
  // The command thread.

  /** Number of writes of `apply_command`. */
  function Writes(c: Command): nat {
    match c
    case Start => 4
    case Pause => 2
    case Resume => 3
    case StopCommand => 4
  }

  /** Write `k` of `apply_command(c)`: the flags of `request_*` one by one, and the announced state. */
  function Write(sh: Shared, c: Command, k: nat, sent: bool): Shared {
    match c
    case Start =>
      if k == 0 then sh.(flags := sh.flags.(stop := false))
      else if k == 1 then sh.(flags := sh.flags.(start := true))
      else if k == 2 then sh.(flags := sh.flags.(paused := false))
      else SetPhase(sh, Running, sent)
    case Pause =>
      if k == 0 then sh.(flags := sh.flags.(paused := true)) else SetPhase(sh, Paused, sent)
    case Resume =>
      if k == 0 then sh.(flags := sh.flags.(start := true))
      else if k == 1 then sh.(flags := sh.flags.(paused := false))
      else SetPhase(sh, Running, sent)
    case StopCommand =>
      if k == 0 then SetPhase(sh, Stopping, sent)
      else if k == 1 then sh.(flags := sh.flags.(start := false))
      else if k == 2 then sh.(flags := sh.flags.(paused := false))
      else sh.(flags := sh.flags.(stop := true))
  }

  function Receive(s: State, input: Input): State {
    match input
    case Nothing => s.(command := ReadModule)
    case Unknown => s.(command := ReadModule)
    case PipeFailed => s.(command := Returned, sh := s.sh.(stopEvent := true))
    case Message(c) =>
      if c == StopCommand then
        s.(command := ReadModule, pending := [], sh := s.sh.(stopEvent := true),
           log := if s.log.stopReceived then s.log else s.log.(stopReceived := true, early := s.main.BeforeCheck()))
      else
        s.(command := ReadModule, pending := s.pending + [c],
           log := if s.log.stopReceived then s.log else s.log.(received := s.log.received + [c]))
  }

  function CommandStep(s: State, input: Input, sent: bool): State {
    match s.command
    case TestCommandStop => s.(command := if s.sh.commandStop then Returned else Poll)
    case Poll => Receive(s, input)
    case ReadModule => s.(command := if s.sh.moduleSet then TestStopEvent else TestCommandStop)
    case TestStopEvent => s.(command := if s.sh.stopEvent then Apply(StopCommand, 0) else TestPhase)
    case TestPhase => s.(command := if s.sh.phase == Starting then TestCommandStop else TestPending)
    case TestPending =>
      if s.pending == [] then s.(command := TestCommandStop)
      else
        s.(command := Apply(s.pending[0], 0), pending := s.pending[1..],
           log := if s.log.stopReceived then s.log.(late := s.log.late + 1) else s.log.(applied := s.log.applied + [s.pending[0]]))
    case Apply(c, k) =>
      var sh := Write(s.sh, c, k, sent);
      if k + 1 < Writes(c) then s.(sh := sh, command := Apply(c, k + 1))
      else if c == StopCommand then s.(sh := sh, command := Returned, log := s.log.(stopApplied := true))
      else s.(sh := sh, command := TestPending)
    case Returned => s
  }

  // ------------------------------------------------------------------------------------------
  // The main thread.

  /** Where an exception or a keyboard interrupt leads: `run` announces an error of its own, its caller one
      from outside the `try`. */
  function Interrupted(m: MainPc, choice: MainChoice): MainPc {
    if m.Following() then (if choice == Raise then AnnounceError else AnnounceStopping(false))
    else if choice == Raise then AnnounceFailure
    else SetStopEvent
  }

  function MainStep(s: State, choice: MainChoice, sent: bool): State {
    if (choice == Raise || choice == Interrupt) && !s.main.Ending() then s.(main := Interrupted(s.main, choice))
    else if s.main.Ending() then EndStep(s, sent)
    else
      match s.main
      case AnnounceStarting => s.(sh := SetPhase(s.sh, Starting, sent), main := Import)
      case Import => s.(main := PublishModule)
      case PublishModule => s.(sh := s.sh.(moduleSet := true), main := CheckEvent)
      case CheckEvent => s.(main := if s.sh.stopEvent then AnnounceReturn else Reset(0))
      case Reset(k) =>
        if k == 0 then s.(sh := s.sh.(flags := s.sh.flags.(start := false)), main := Reset(1))
        else if k == 1 then s.(sh := s.sh.(flags := s.sh.flags.(stop := false)), main := Reset(2))
        else s.(sh := s.sh.(flags := s.sh.flags.(paused := false)), main := AnnounceRun)
      case AnnounceRun => s.(sh := SetPhase(s.sh, Starting, sent), main := CheckEventAgain)
      case CheckEventAgain => s.(main := if s.sh.stopEvent then AnnounceReturn else Setup)
      case Setup => s.(main := AnnounceReady)
      case AnnounceReady => s.(sh := SetPhase(s.sh, Ready, sent), main := TestStart)
      case TestStart => s.(main := if s.sh.flags.start then AnnounceRunning else TestStopWhileWaiting)
      case TestStopWhileWaiting => s.(main := if s.sh.flags.stop then AnnounceRunning else TestStart)
      case AnnounceRunning => s.(sh := SetPhase(s.sh, Running, sent), main := TestStop)
      case TestStop => s.(main := if s.sh.flags.stop then AnnounceStopping(false) else TestPaused)
      case TestPaused => s.(main := if s.sh.flags.paused then TestStop else Body)
      case Body => s.(main := if choice == Quit then QuitButton(0) else TestStop)
      case QuitButton(k) =>
        if k == 0 then s.(sh := s.sh.(flags := s.sh.flags.(start := false)), main := QuitButton(1))
        else s.(sh := s.sh.(flags := s.sh.flags.(stop := true)), main := TestStop)
      case _ => s
  }

  /** The clean-up of `run` and of its caller: what each action writes, and what follows it. */
  function EndStep(s: State, sent: bool): State
    requires s.main.Ending()
  {
    s.(sh := EndWrite(s.sh, s.main, sent), main := EndNext(s.main))
  }

  function EndWrite(sh: Shared, m: MainPc, sent: bool): Shared
    requires m.Ending()
  {
    match m
    case AnnounceReturn => SetPhase(sh, Stopped, sent)
    case AnnounceError => SetPhase(sh, Error, sent)
    case AnnounceStopping(_) => SetPhase(sh, Stopping, sent)
    case AnnounceStopped(_) => SetPhase(sh, Stopped, sent)
    case AnnounceFailure => SetPhase(sh, Error, sent)
    case SetStopEvent => sh.(stopEvent := true)
    case SetCommandStop => sh.(commandStop := true)
    case WithdrawModule => sh.(moduleSet := false)
    case AnnounceEnd => if sh.phase == Error then sh else SetPhase(sh, Stopped, sent)
    case Finished => sh
  }

  function EndNext(m: MainPc): MainPc
    requires m.Ending()
  {
    match m
    case AnnounceReturn => SetStopEvent
    case AnnounceError => AnnounceStopping(true)
    case AnnounceStopping(failed) => AnnounceStopped(failed)
    case AnnounceStopped(failed) => if failed then AnnounceFailure else SetStopEvent
    case AnnounceFailure => SetStopEvent
    case SetStopEvent => SetCommandStop
    case SetCommandStop => WithdrawModule
    case WithdrawModule => AnnounceEnd
    case AnnounceEnd => Finished
    case Finished => Finished
  }

  function Step(s: State, e: Event): State {
    match e
    case CommandAction(input, sent) => CommandStep(s, input, sent)
    case MainAction(choice, sent) => MainStep(s, choice, sent)
  }

  function Run(s: State, events: seq<Event>): State {
    if events == [] then s
    else Step(Run(s, events[..|events| - 1]), events[|events| - 1])
  }

  // ------------------------------------------------------------------------------------------
  // A stop is never lost.

  ghost predicate StopHeld(s: State) {
    && (s.log.stopReceived ==> s.sh.stopEvent && s.log.late == 0)
    && (s.log.stopReceived ==> s.command != TestPhase && s.command != TestPending && (s.command.Apply? ==> s.command.command == StopCommand))
    && (s.command.Apply? && s.command.command == StopCommand ==> s.sh.stopEvent)
    && (s.command.Apply? ==> s.command.stage < Writes(s.command.command))
    && (s.log.stopApplied ==> s.command == Returned && s.sh.stopEvent)
    && (!s.log.stopReceived ==> s.log.late == 0 && !s.log.early)
    && (s.log.stopReceived && s.log.early ==> s.main.BeforeCheck() || s.main.Ending())
    && (s.log.stopReceived && !s.log.early ==> !s.main.BeforeCheck())
    && (s.log.stopApplied ==> s.sh.flags.stop || s.main.BeforeCheck() || s.main.Ending())
    && (forall i :: 0 <= i < |s.pending| ==> s.pending[i] != StopCommand)
  }

  lemma CommandKeepsStop(s: State, input: Input, sent: bool)
    requires StopHeld(s)
    ensures StopHeld(CommandStep(s, input, sent))
  {
  }

  lemma MainKeepsStop(s: State, choice: MainChoice, sent: bool)
    requires StopHeld(s)
    ensures StopHeld(MainStep(s, choice, sent))
  {
    MainMoves(s, choice, sent);
    hide MainStep;
  }

  /** What one main-thread action can do, as far as a stop is concerned. */
  ghost predicate Moved(s: State, t: State) {
    && t.command == s.command && t.pending == s.pending && t.log == s.log
    && (s.sh.stopEvent ==> t.sh.stopEvent)
    && (!s.main.BeforeCheck() ==> !t.main.BeforeCheck())
    && (s.main.Ending() ==> t.main.Ending())
    && (!s.main.Ending() ==> t.sh.commandStop == s.sh.commandStop && (s.sh.moduleSet ==> t.sh.moduleSet))
    && (s.main.BeforeCheck() && s.sh.stopEvent ==> t.main.BeforeCheck() || t.main.Ending())
    && (!s.main.BeforeCheck() && s.sh.flags.stop ==> t.sh.flags.stop)
  }

  lemma MainMoves(s: State, choice: MainChoice, sent: bool)
    ensures Moved(s, MainStep(s, choice, sent))
  {
    if s.main.Ending() {
      EndMoves(s, sent);
    } else if choice == Raise || choice == Interrupt {
    } else if s.main.BeforeCheck() {
      StartMoves(s, choice, sent);
    } else {
      LoopMoves(s, choice, sent);
    }
    hide EndStep, Moved;
  }

  lemma EndMoves(s: State, sent: bool)
    requires s.main.Ending()
    ensures Moved(s, EndStep(s, sent))
  {
    EndWrites(s.sh, s.main, sent);
    EndGoesOn(s.main);
    hide EndWrite, EndNext;
  }

  lemma EndWrites(sh: Shared, m: MainPc, sent: bool)
    requires m.Ending()
    ensures var t := EndWrite(sh, m, sent); t.flags == sh.flags && (sh.stopEvent ==> t.stopEvent)
  {
  }

  lemma EndGoesOn(m: MainPc)
    requires m.Ending()
    ensures EndNext(m).Ending()
  {
  }

  lemma StartMoves(s: State, choice: MainChoice, sent: bool)
    requires s.main.BeforeCheck() && choice != Raise && choice != Interrupt
    ensures Moved(s, MainStep(s, choice, sent))
  {
    hide EndStep;
  }

  lemma LoopMoves(s: State, choice: MainChoice, sent: bool)
    requires s.main.Following() && choice != Raise && choice != Interrupt
    ensures Moved(s, MainStep(s, choice, sent))
  {
    hide EndStep;
  }

  /** Before any stop, commands are applied in the order received, none lost. */
  ghost predicate InOrder(s: State) {
    && (!s.log.stopReceived ==> s.log.received == s.log.applied + s.pending)
    && s.log.applied <= s.log.received
  }

  lemma StepKeepsOrder(s: State, e: Event)
    requires InOrder(s)
    ensures InOrder(Step(s, e))
  {
    if e.MainAction? {
      MainMoves(s, e.choice, e.sent);
      hide MainStep;
    }
  }

  lemma {:induction false} RunKeeps(flags: Flags, events: seq<Event>)
    ensures StopHeld(Run(Initial(flags), events)) && InOrder(Run(Initial(flags), events))
  {
    hide StopHeld, InOrder, CommandStep, MainStep;
    if events == [] {
      InitialHeld(flags);
    } else {
      var n := |events| - 1;
      RunKeeps(flags, events[..n]);
      var s := Run(Initial(flags), events[..n]);
      StepKeepsOrder(s, events[n]);
      match events[n]
      case CommandAction(input, sent) => CommandKeepsStop(s, input, sent);
      case MainAction(choice, sent) => MainKeepsStop(s, choice, sent);
    }
  }

  lemma InitialHeld(flags: Flags)
    ensures StopHeld(Initial(flags)) && InOrder(Initial(flags))
  {
  }

  /** Whatever the timing of a received stop against import, flag resets and checks: the event stays set and
      nothing else is applied any more; if it came before `run`'s check, `run` returns without setting up the
      robot; otherwise, once the command thread has applied it, STOP holds until `run` is left. */
  lemma StopNeverLost(flags: Flags, events: seq<Event>)
    ensures var s := Run(Initial(flags), events);
         && (s.log.stopReceived ==> s.sh.stopEvent && s.log.late == 0)
         && (s.log.stopReceived && s.command.Apply? ==> s.command.command == StopCommand)
         && (s.log.stopReceived && s.log.early ==> s.main.BeforeCheck() || s.main.Ending())
         && (s.log.stopReceived && !s.log.early && s.log.stopApplied ==> s.sh.flags.stop || s.main.Ending())
         && (s.log.stopApplied ==> s.command == Returned)
  {
    RunKeeps(flags, events);
    hide Run, InOrder;
  }

  /** Without a stop, start, pause and resume are applied in the order received, and none is lost. */
  lemma {:induction false} CommandsInOrder(flags: Flags, events: seq<Event>)
    ensures var s := Run(Initial(flags), events);
         && s.log.applied <= s.log.received
         && (!s.log.stopReceived ==> s.log.received == s.log.applied + s.pending)
  {
    RunKeeps(flags, events);
    hide Run, StopHeld;
  }

  // ------------------------------------------------------------------------------------------
  // Progress.

  /** Command-thread actions until a received stop is applied, once the module is published. */
  function ToApply(s: State): nat {
    match s.command
    case Apply(_, k) => if k <= 4 then 4 - k else 0
    case TestStopEvent => 5
    case ReadModule => 6
    case Poll => 7
    case TestCommandStop => 8
    case _ => 0
  }

  ghost predicate StopPending(s: State) {
    StopHeld(s) && s.log.stopReceived && !s.log.stopApplied && s.sh.moduleSet && !s.sh.commandStop && s.command != Returned
  }

  lemma ApproachStop(s: State, input: Input, sent: bool)
    requires StopPending(s) && input != PipeFailed
    ensures var t := CommandStep(s, input, sent);
         && StopHeld(t)
         && (t.log.stopApplied || (StopPending(t) && ToApply(t) == ToApply(s) - 1))
         && (t.log.stopApplied ==> ToApply(s) == 1 && t.sh.flags.stop)
  {
    CommandKeepsStop(s, input, sent);
  }

  /** Actions of the command thread, and of the main thread, in an interleaving. */
  function CommandActions(events: seq<Event>): nat {
    if events == [] then 0
    else CommandActions(events[..|events| - 1]) + if events[|events| - 1].CommandAction? then 1 else 0
  }

  function MainActions(events: seq<Event>): nat {
    if events == [] then 0
    else MainActions(events[..|events| - 1]) + if events[|events| - 1].MainAction? then 1 else 0
  }

  ghost predicate NoPipeFailure(events: seq<Event>) {
    forall i :: 0 <= i < |events| && events[i].CommandAction? ==> events[i].input != PipeFailed
  }

  /** How far the application of a stop has come. */
  ghost predicate Approaching(s: State, t: State, taken: nat) {
    && StopHeld(t) && t.log.stopReceived
    && (t.log.stopApplied || t.main.Ending() || (StopPending(t) && ToApply(t) + taken <= ToApply(s)))
  }

  lemma ApproachStep(s: State, t: State, taken: nat, e: Event)
    requires Approaching(s, t, taken) && (e.CommandAction? ==> e.input != PipeFailed)
    ensures Approaching(s, Step(t, e), if e.CommandAction? then taken + 1 else taken)
  {
    match e
    case CommandAction(input, sent) =>
      CommandKeepsStop(t, input, sent);
      CommandLeavesMain(t, input, sent);
      if StopPending(t) {
        ApproachStop(t, input, sent);
      }
      hide CommandStep, StopHeld;
    case MainAction(choice, sent) =>
      MainKeepsStop(t, choice, sent);
      MainMoves(t, choice, sent);
      hide MainStep, StopHeld;
  }

  lemma CommandLeavesMain(s: State, input: Input, sent: bool)
    ensures var t := CommandStep(s, input, sent);
         && t.main == s.main
         && (s.log.stopReceived ==> t.log.stopReceived && t.log.early == s.log.early)
         && (s.log.stopApplied && s.command == Returned ==> t == s)
  {
  }

  /** In any interleaving, once the command thread has taken `ToApply(s)` actions, at most eight, the stop is
      applied or the main thread has left the control loop. */
  lemma {:induction false} StopApplied(s: State, events: seq<Event>)
    requires StopPending(s) && NoPipeFailure(events)
    ensures ToApply(s) <= 8
    ensures Approaching(s, Run(s, events), CommandActions(events))
    ensures CommandActions(events) >= ToApply(s) ==> Run(s, events).log.stopApplied || Run(s, events).main.Ending()
  {
    if events != [] {
      var n := |events| - 1;
      StopApplied(s, events[..n]);
      ApproachStep(s, Run(s, events[..n]), CommandActions(events[..n]), events[n]);
      hide Step, StopHeld;
    }
  }

  /** A stop was received, and was applied unless `run` has still to check for it. */
  ghost predicate Doomed(s: State) {
    StopHeld(s) && s.log.stopReceived && (s.main.BeforeCheck() || s.main.Ending() || s.log.stopApplied)
  }

  /** The longest way out of the control loop from each action. */
  function Bound(m: MainPc): nat {
    match m
    case AnnounceStarting => 4
    case Import => 3
    case PublishModule => 2
    case CheckEvent => 1
    case Reset(k) => if k == 0 then 5 else if k == 1 then 4 else 3
    case AnnounceRun => 2
    case CheckEventAgain => 1
    case Setup => 6
    case AnnounceReady => 5
    case TestStart => 4
    case TestStopWhileWaiting => 3
    case AnnounceRunning => 2
    case TestStop => 1
    case TestPaused => 5
    case Body => 4
    case QuitButton(k) => if k == 0 then 3 else 2
    case _ => 0
  }

  lemma DoomedStep(s: State, choice: MainChoice, sent: bool)
    requires Doomed(s) && !s.main.Ending()
    ensures var t := MainStep(s, choice, sent); Doomed(t) && Bound(t.main) < Bound(s.main)
  {
    MainKeepsStop(s, choice, sent);
  }

  /** How far the main thread has come on its way out. */
  ghost predicate Leaving(s: State, t: State, taken: nat) {
    Doomed(t) && (t.main.Ending() || Bound(t.main) + taken <= Bound(s.main))
  }

  lemma LeaveStep(s: State, t: State, taken: nat, e: Event)
    requires Leaving(s, t, taken)
    ensures Leaving(s, Step(t, e), if e.MainAction? then taken + 1 else taken)
  {
    match e
    case CommandAction(input, sent) =>
      CommandKeepsStop(t, input, sent);
      CommandLeavesMain(t, input, sent);
      AppliedReturned(t);
      hide CommandStep, StopHeld;
    case MainAction(choice, sent) =>
      if t.main.Ending() {
        MainKeepsStop(t, choice, sent);
        MainMoves(t, choice, sent);
        hide MainStep, StopHeld;
      } else {
        DoomedStep(t, choice, sent);
        hide MainStep, StopHeld;
      }
  }

  lemma AppliedReturned(s: State)
    requires StopHeld(s)
    ensures s.log.stopApplied ==> s.command == Returned
  {
  }

  lemma SixIsEnough(m: MainPc)
    ensures Bound(m) <= 6 && (!m.Ending() ==> Bound(m) > 0)
  {
  }

  /** Then, in any interleaving, the main thread leaves the control loop within six of its own actions (each
      pass of the loop and the set-up count as one). */
  lemma {:induction false} RunLeft(s: State, events: seq<Event>)
    requires Doomed(s)
    ensures Leaving(s, Run(s, events), MainActions(events))
    ensures MainActions(events) >= 6 ==> Run(s, events).main.Ending()
  {
    if events != [] {
      var n := |events| - 1;
      RunLeft(s, events[..n]);
      LeaveStep(s, Run(s, events[..n]), MainActions(events[..n]), events[n]);
    }
    hide Step, Doomed, Bound;
    SixIsEnough(s.main);
    SixIsEnough(Run(s, events).main);
  }

  /** Both together: after a received stop, any interleaving with enough actions of either thread has left
      the control loop. */
  lemma StopEndsControl(flags: Flags, before: seq<Event>, first: seq<Event>, second: seq<Event>)
    requires var s := Run(Initial(flags), before);
             s.log.stopReceived && !s.log.stopApplied && s.sh.moduleSet && !s.sh.commandStop && s.command != Returned
    requires NoPipeFailure(first) && CommandActions(first) >= 8 && MainActions(second) >= 6
    ensures Run(Run(Run(Initial(flags), before), first), second).main.Ending()
  {
    RunKeeps(flags, before);
    var s := Run(Initial(flags), before);
    StopApplied(s, first);
    hide Run, StopHeld, InOrder;
    RunLeft(Run(s, first), second);
  }

  // ------------------------------------------------------------------------------------------
  // The functions, run without interference.

  /** All writes of `apply_command(c)` from write `k` on. */
  function WritesFrom(sh: Shared, c: Command, k: nat, sent: bool): Shared
    decreases Writes(c) - k
  {
    if k >= Writes(c) then sh else WritesFrom(Write(sh, c, k, sent), c, k + 1, sent)
  }

  /** What a command leaves: stop always wins over start, and pause keeps following armed. */
  lemma CommandEffects(sh: Shared, sent: bool)
    ensures WritesFrom(sh, Start, 0, sent).flags == Flags(true, false, false)
    ensures WritesFrom(sh, Pause, 0, sent).flags == sh.flags.(paused := true)
    ensures WritesFrom(sh, Resume, 0, sent).flags == Flags(true, sh.flags.stop, false)
    ensures WritesFrom(sh, StopCommand, 0, sent).flags == Flags(false, true, false)
    ensures WritesFrom(sh, Start, 0, sent).phase == WritesFrom(sh, Resume, 0, sent).phase == Running
    ensures WritesFrom(sh, Pause, 0, sent).phase == Paused && WritesFrom(sh, StopCommand, 0, sent).phase == Stopping
  {
    EffectsOf(sh, Start, sent);
    EffectsOf(sh, Pause, sent);
    EffectsOf(sh, Resume, sent);
    EffectsOf(sh, StopCommand, sent);
  }

  lemma EffectsOf(sh: Shared, c: Command, sent: bool)
    ensures WritesFrom(sh, c, 0, sent) ==
      match c
      case Start => Write(Write(Write(Write(sh, c, 0, sent), c, 1, sent), c, 2, sent), c, 3, sent)
      case Pause => Write(Write(sh, c, 0, sent), c, 1, sent)
      case Resume => Write(Write(Write(sh, c, 0, sent), c, 1, sent), c, 2, sent)
      case StopCommand => Write(Write(Write(Write(sh, c, 0, sent), c, 1, sent), c, 2, sent), c, 3, sent)
  {
    hide Write;
    forall x: Shared, k: nat | k < Writes(c)
      ensures WritesFrom(x, c, k, sent) == WritesFrom(Write(x, c, k, sent), c, k + 1, sent)
    {
    }
  }

  class ControlProcess {
    var start: bool
    var stop: bool
    var paused: bool
    var stopEvent: bool
    const commandStop: bool
    const moduleSet: bool
    var phase: Phase

    ghost function View(): Shared
      reads this
    {
      Shared(Flags(start, stop, paused), stopEvent, commandStop, moduleSet, phase)
    }

    constructor (sh: Shared)
      ensures View() == sh
    {
      start, stop, paused := sh.flags.start, sh.flags.stop, sh.flags.paused;
      stopEvent, commandStop, moduleSet, phase := sh.stopEvent, sh.commandStop, sh.moduleSet, sh.phase;
    }

    method RequestStart()
      modifies this`start, this`stop, this`paused
      ensures (start, stop, paused) == (true, false, false)
    {
      stop := false;
      start := true;
      paused := false;
    }

    method RequestPause()
      modifies this`paused
      ensures paused
    {
      paused := true;
    }

    method RequestResume()
      modifies this`start, this`paused
      ensures start && !paused
    {
      start := true;
      paused := false;
    }

    method RequestStop()
      modifies this`start, this`stop, this`paused
      ensures (start, stop, paused) == (false, true, false)
    {
      start := false;
      paused := false;
      stop := true;
    }

    method SetState(state: Phase, sent: bool)
      modifies this`phase, this`stopEvent
      ensures phase == state && stopEvent == (old(stopEvent) || !sent)
    {
      phase := state;
      if !sent {
        stopEvent := true;
      }
    }

    method ApplyCommand(c: Command, sent: bool)
      modifies this
      ensures View() == WritesFrom(old(View()), c, 0, sent)
    {
      EffectsOf(View(), c, sent);
      match c {
        case Start =>
          RequestStart();
          SetState(Running, sent);
        case Pause =>
          RequestPause();
          SetState(Paused, sent);
        case Resume =>
          RequestResume();
          SetState(Running, sent);
        case StopCommand =>
          SetState(Stopping, sent);
          RequestStop();
      }
    }
  }
}
