/** Hand-off between a real-time thread and a publishing thread
    (dexfull/hand_drivers/brainco/native/include/dds/Publisher.h), as a machine over their atomic actions.

    The message is a sequence of words that are written and copied one at a time, so that a torn message
    would show.  A disabled event changes nothing. */
module Publisher {
  import opened Wrappers

  type Message = seq<int>

  datatype Turn = Realtime | NonRealtime | LoopNotStarted

  datatype Owner = Nobody | RtThread | LoopThread

  /** The real-time thread: `trylock` is `Idle`, `Locked`; `unlockAndPublish` is `Writing`, `HandedOver`. */
  datatype RtPc = Idle | Locked | Writing | HandedOver | Refused

  /** The publishing thread, named after the action it takes next. */
  datatype LoopPc =
    | SetRunning | SetFirstTurn
    | TestRunning | Lock | TestTurn | TestStillRunning | UnlockAndSleep
    | Copy(next: nat) | GiveTurnBack | Unlock | TestBeforeWrite | Write
    | ClearRunning | Ended
  {
    predicate HoldsLock() { TestTurn? || TestStillRunning? || UnlockAndSleep? || Copy? || GiveTurnBack? || Unlock? }
    predicate HoldsCopy() { Unlock? || TestBeforeWrite? || Write? }
    predicate IsCopying() { Copy? || GiveTurnBack? }
    predicate IsStarting() { SetRunning? || SetFirstTurn? }
    predicate IsEnding() { ClearRunning? || Ended? }
  }

  /** `handed`, `written` and `dropped` record what was passed to `unlockAndPublish`, what reached
      `Write`, and what was copied but not written. `genuine` tells whether the copy was of a handed message. */
  datatype State = State(turn: Turn, keepRunning: bool, isRunning: bool, owner: Owner, msg: Message,
                         rt: RtPc, loop: LoopPc, outgoing: Message, genuine: bool,
                         handed: seq<Message>, written: seq<Message>, dropped: seq<Message>)

  function Initial(msg: Message): State {
    State(LoopNotStarted, true, false, Nobody, msg, Idle, SetRunning, [], false, [], [], [])
  }

  datatype Event =
    | TryLock | CheckTurn | ReleaseRefused
    | WriteWord(i: nat, w: int) | HandOver | ReleaseHandedOver | Abandon
    | LoopAction
    | Stop

  function Step(s: State, e: Event): State {
    match e
    case TryLock => if s.rt == Idle && s.owner == Nobody then s.(owner := RtThread, rt := Locked) else s
    case CheckTurn => if s.rt == Locked then s.(rt := if s.turn == Realtime then Writing else Refused) else s
    case ReleaseRefused => if s.rt == Refused then s.(owner := Nobody, rt := Idle) else s
    case WriteWord(i, w) => if s.rt == Writing && i < |s.msg| then s.(msg := s.msg[i := w]) else s
    case HandOver => if s.rt == Writing then s.(turn := NonRealtime, rt := HandedOver, handed := s.handed + [s.msg]) else s
    case ReleaseHandedOver => if s.rt == HandedOver then s.(owner := Nobody, rt := Idle) else s
    case Abandon => if s.rt == Writing then s.(owner := Nobody, rt := Idle) else s
    case LoopAction => LoopStep(s)
    case Stop => s.(keepRunning := false)
  }

  function LoopStep(s: State): State {
    match s.loop
    case SetRunning => s.(isRunning := true, loop := SetFirstTurn)
    case SetFirstTurn => s.(turn := Realtime, loop := TestRunning)
    case TestRunning => s.(loop := if s.keepRunning then Lock else ClearRunning)
    case Lock => if s.owner == Nobody then s.(owner := LoopThread, loop := TestTurn) else s
    case TestTurn => s.(loop := if s.turn != NonRealtime then TestStillRunning else Copy(0), outgoing := [])
    case TestStillRunning => s.(loop := if s.keepRunning then UnlockAndSleep else Copy(0))
    case UnlockAndSleep => s.(owner := Nobody, loop := Lock)
    case Copy(i) => if i < |s.msg| then s.(outgoing := s.outgoing + [s.msg[i]], loop := Copy(i + 1)) else s.(loop := GiveTurnBack)
    case GiveTurnBack => s.(genuine := s.turn == NonRealtime, turn := Realtime, loop := Unlock)
    case Unlock => s.(owner := Nobody, loop := TestBeforeWrite)
    case TestBeforeWrite =>
      if s.keepRunning then s.(loop := Write)
      else s.(loop := TestRunning, genuine := false, dropped := s.dropped + InFlight(s))
    case Write => s.(loop := TestRunning, genuine := false, written := s.written + [s.outgoing])
    case ClearRunning => s.(isRunning := false, loop := Ended)
    case Ended => s
  }

  /** The message copied but not yet written. */
  function InFlight(s: State): seq<Message> {
    if s.genuine && s.loop.HoldsCopy() then [s.outgoing] else []
  }

  /** The message handed over but not yet copied. */
  function Slot(s: State): seq<Message> {
    if s.turn == NonRealtime then [s.msg] else []
  }

  function Run(s: State, events: seq<Event>): State {
    if events == [] then s
    else Step(Run(s, events[..|events| - 1]), events[|events| - 1])
  }

  // ------------------------------------------------------------------------------------------
  // What every interleaving keeps.

  ghost predicate Exclusion(s: State) {
    && (s.rt != Idle <==> s.owner == RtThread)
    && (s.loop.HoldsLock() <==> s.owner == LoopThread)
    && (s.rt == Writing ==> s.turn == Realtime)
    && (s.rt == HandedOver ==> s.turn == NonRealtime)
    && (s.turn == LoopNotStarted <==> s.loop.IsStarting())
    && (s.turn == LoopNotStarted ==> s.rt != Writing && s.rt != HandedOver)
  }

  /** A copy in progress agrees with the slot, and is of a handed message until `stop`. */
  ghost predicate Copying(s: State) {
    && (s.loop.Copy? ==> s.loop.next <= |s.msg| && s.outgoing == s.msg[..s.loop.next])
    && (s.loop == GiveTurnBack ==> s.outgoing == s.msg)
    && (s.loop.IsCopying() && s.keepRunning ==> s.turn == NonRealtime)
    && (s.loop.HoldsCopy() && s.keepRunning ==> s.genuine)
    && (s.loop == Write ==> s.genuine)
    && (s.loop == TestStillRunning ==> s.turn == Realtime && s.outgoing == [])
    && (s.genuine ==> s.loop.HoldsCopy())
    && (s.loop.IsEnding() ==> !s.keepRunning)
  }

  ghost predicate Conserved(s: State) {
    && s.handed == s.written + s.dropped + InFlight(s) + Slot(s)
    && |s.dropped| <= 1
    && (s.dropped != [] ==> !s.keepRunning && (s.loop == TestRunning || s.loop.IsEnding()))
  }

  ghost predicate Inv(s: State) { Exclusion(s) && Copying(s) && Conserved(s) }

  lemma StepKeeps(s: State, e: Event)
    requires Inv(s)
    ensures Inv(Step(s, e))
  {
    if e.LoopAction? {
      LoopStepKeeps(s);
    } else if e.WriteWord? {
      assert s.rt == Writing ==> !s.loop.IsCopying();
    }
  }

  lemma LoopStepKeeps(s: State)
    requires Inv(s)
    ensures Inv(LoopStep(s))
  {
    LoopKeepsExclusion(s);
    LoopKeepsCopying(s);
    LoopKeepsConserved(s);
    hide Exclusion, Copying, Conserved, LoopStep;
  }

  lemma LoopKeepsExclusion(s: State)
    requires Exclusion(s) && Copying(s)
    ensures Exclusion(LoopStep(s))
  {
    match s.loop
    case GiveTurnBack =>
    case _ =>
  }

  lemma LoopKeepsCopying(s: State)
    requires Exclusion(s) && Copying(s)
    ensures Copying(LoopStep(s))
  {
    match s.loop
    case Copy(_) =>
    case TestTurn =>
    case _ =>
  }

  lemma LoopKeepsConserved(s: State)
    requires Exclusion(s) && Copying(s) && Conserved(s)
    ensures Conserved(LoopStep(s))
  {
    if s.loop == GiveTurnBack {
      TurnMovesSlot(s);
    } else if s.loop == Write || s.loop == TestBeforeWrite {
      WriteMovesCopy(s);
    } else {
      OthersMoveNothing(s);
    }
    hide Exclusion, Copying, LoopStep, InFlight, Slot;
  }

  predicate SameLog(s: State, t: State) { t.handed == s.handed && t.written == s.written && t.dropped == s.dropped }

  lemma TurnMovesSlot(s: State)
    requires Exclusion(s) && Copying(s) && Conserved(s) && s.loop == GiveTurnBack
    ensures Conserved(LoopStep(s))
  {
    var t := LoopStep(s);
    assert SameLog(s, t) && Slot(t) == [] && InFlight(t) == Slot(s) && InFlight(s) == [];
  }

  lemma WriteMovesCopy(s: State)
    requires Exclusion(s) && Copying(s) && Conserved(s) && (s.loop == Write || s.loop == TestBeforeWrite)
    ensures Conserved(LoopStep(s))
  {
    var t := LoopStep(s);
    assert s.dropped == [] && t.handed == s.handed && Slot(t) == Slot(s);
    assert t.written + t.dropped + InFlight(t) == s.written + s.dropped + InFlight(s);
  }

  lemma OthersMoveNothing(s: State)
    requires Exclusion(s) && Copying(s) && Conserved(s) && s.loop != GiveTurnBack && s.loop != Write && s.loop != TestBeforeWrite
    ensures Conserved(LoopStep(s))
  {
    var t := LoopStep(s);
    assert SameLog(s, t) && InFlight(t) == InFlight(s) && Slot(t) == Slot(s);
  }

  lemma {:induction false} RunKeeps(msg: Message, events: seq<Event>)
    ensures Inv(Run(Initial(msg), events))
  {
    hide Inv, Step;
    if events == [] {
      InitialKeeps(msg);
    } else {
      var n := |events| - 1;
      RunKeeps(msg, events[..n]);
      StepKeeps(Run(Initial(msg), events[..n]), events[n]);
    }
  }

  lemma InitialKeeps(msg: Message)
    ensures Inv(Initial(msg))
  {
  }

  /** In every interleaving the messages handed over are exactly the written ones, then at most one that
      was copied but not written, then at most one in the slot: nothing is lost, duplicated, reordered or
      torn.  Only `stop` can cost a message, and at most the one being copied. */
  lemma HandOffExact(msg: Message, events: seq<Event>)
    ensures var s := Run(Initial(msg), events);
         && (s.keepRunning ==> s.handed == s.written + InFlight(s) + Slot(s))
         && (s.handed == s.written + s.dropped + InFlight(s) + Slot(s))
         && |s.dropped| <= 1 && (s.dropped != [] ==> !s.keepRunning)
         && s.written <= s.handed
  {
    RunKeeps(msg, events);
    var s := Run(Initial(msg), events);
    assert s.written + [] + InFlight(s) + Slot(s) == s.written + InFlight(s) + Slot(s);
  }

  /** The message is never written and copied at the same time, and a refused `trylock` leaves the slot alone. */
  lemma MutualExclusion(msg: Message, events: seq<Event>)
    ensures var s := Run(Initial(msg), events);
         && !(s.rt == Writing && s.loop.IsCopying())
         && (s.rt == Writing ==> Slot(s) == [])
  {
    RunKeeps(msg, events);
  }

  // ------------------------------------------------------------------------------------------
  // Progress.

  function LoopActions(s: State, n: nat): State {
    if n == 0 then s else LoopStep(LoopActions(s, n - 1))
  }

  lemma {:induction false} LoopActionsFirst(s: State, n: nat)
    requires n > 0
    ensures LoopActions(s, n) == LoopActions(LoopStep(s), n - 1)
  {
    hide LoopStep;
    if n > 1 {
      LoopActionsFirst(s, n - 1);
    }
  }

  /** Actions until the message in the slot is written. */
  function Distance(s: State): nat {
    var copyAll := |s.msg| + 5;
    match s.loop
    case Copy(i) => if i <= |s.msg| then |s.msg| - i + 5 else 0
    case GiveTurnBack => 4
    case TestTurn => copyAll + 1
    case Lock => copyAll + 2
    case TestRunning => copyAll + 3
    case UnlockAndSleep => copyAll + 3
    case Write => if s.turn == NonRealtime then copyAll + 4 else 1
    case TestBeforeWrite => if s.turn == NonRealtime then copyAll + 5 else 2
    case Unlock => if s.turn == NonRealtime then copyAll + 6 else 3
    case _ => 0
  }

  ghost predicate Awaiting(s: State) { s.keepRunning && s.rt == Idle && (s.turn == NonRealtime || InFlight(s) != []) }

  lemma DistanceStep(s: State)
    requires Exclusion(s) && Copying(s) && Awaiting(s) && !(s.loop == Write && s.turn != NonRealtime)
    ensures Awaiting(LoopStep(s)) && Distance(LoopStep(s)) == Distance(s) - 1 && LoopStep(s).handed == s.handed
  {
    match s.loop
    case Copy(_) =>
    case Unlock =>
    case _ =>
  }

  lemma DistanceBound(s: State)
    ensures Distance(s) <= |s.msg| + 11
  {
  }

  lemma LastWrite(s: State)
    requires Inv(s) && Awaiting(s) && s.loop == Write && s.turn != NonRealtime
    ensures Distance(s) == 1 && LoopStep(s).written == s.handed
  {
  }

  /** While the real-time thread stays away, the publishing thread writes everything handed over within
      a number of actions fixed by the message size. */
  lemma {:induction false} Delivered(s: State)
    requires Inv(s) && Awaiting(s)
    ensures Distance(s) <= |s.msg| + 11
    ensures LoopActions(s, Distance(s)).written == s.handed
    decreases Distance(s)
  {
    DistanceBound(s);
    if s.loop == Write && s.turn != NonRealtime {
      LastWrite(s);
      assert LoopActions(s, 1) == LoopStep(LoopActions(s, 0));
    } else {
      LoopStepKeeps(s);
      DistanceStep(s);
      hide Exclusion, Copying, Conserved, Awaiting, Distance, LoopStep;
      Delivered(LoopStep(s));
      LoopActionsFirst(s, Distance(s));
    }
  }

  ghost predicate RoundStarts(s: State) {
    s.loop == TestRunning && s.keepRunning && s.owner == Nobody && s.turn == NonRealtime
  }

  lemma {:induction false} CopyActions(s: State, i: nat)
    requires RoundStarts(s) && i <= |s.msg|
    ensures LoopActions(s, 3 + i) == s.(owner := LoopThread, loop := Copy(i), outgoing := s.msg[..i])
  {
    if i == 0 {
      assert LoopActions(s, 1) == LoopStep(LoopActions(s, 0));
      assert LoopActions(s, 2) == LoopStep(LoopActions(s, 1));
    } else {
      CopyActions(s, i - 1);
      assert s.msg[..i - 1] + [s.msg[i - 1]] == s.msg[..i];
    }
  }

  lemma WriteOut(s: State)
    requires s.loop == Copy(|s.msg|) && s.keepRunning && s.owner == LoopThread && s.turn == NonRealtime
    ensures LoopStep(LoopStep(LoopStep(LoopStep(LoopStep(s)))))
         == s.(turn := Realtime, owner := Nobody, loop := TestRunning, genuine := false, written := s.written + [s.outgoing])
  {
    assert LoopStep(LoopStep(s)) == s.(turn := Realtime, loop := Unlock, genuine := true);
  }

  lemma FiveMore(s: State, n: nat)
    ensures LoopActions(s, n + 5) == LoopStep(LoopStep(LoopStep(LoopStep(LoopStep(LoopActions(s, n))))))
  {
    hide LoopStep;
    assert LoopActions(s, n + 2) == LoopStep(LoopStep(LoopActions(s, n)));
    assert LoopActions(s, n + 4) == LoopStep(LoopStep(LoopActions(s, n + 2)));
  }

  /** One undisturbed round of the publishing loop writes the message and gives the turn back. */
  lemma Round(s: State)
    requires RoundStarts(s)
    ensures LoopActions(s, |s.msg| + 8)
         == s.(turn := Realtime, outgoing := s.msg, genuine := false, written := s.written + [s.msg])
  {
    CopyActions(s, |s.msg|);
    FiveMore(s, |s.msg| + 3);
    hide LoopActions, LoopStep;
    assert s.msg[..|s.msg|] == s.msg;
    WriteOut(s.(owner := LoopThread, loop := Copy(|s.msg|), outgoing := s.msg));
  }

  // ------------------------------------------------------------------------------------------
  // The class.  Run without interference, each method performs exactly its actions.

  class RealTimePublisher {
    const msg: array<int>
    var turn: Turn
    var keepRunning: bool
    var isRunning: bool
    var owner: Owner
    ghost var rt: RtPc
    ghost var loop: LoopPc
    ghost var genuine: bool
    ghost var outgoing: Message
    ghost var handed: seq<Message>
    var written: seq<Message>
    ghost var dropped: seq<Message>

    ghost function View(): State
      reads this, msg
    {
      State(turn, keepRunning, isRunning, owner, msg[..], rt, loop, outgoing, genuine, handed, written, dropped)
    }

    constructor (msg: array<int>)
      ensures View() == Initial(msg[..]) && this.msg == msg
    {
      this.msg := msg;
      turn, keepRunning, isRunning, owner := LoopNotStarted, true, false, Nobody;
      rt, loop, genuine, outgoing := Idle, SetRunning, false, [];
      handed, written, dropped := [], [], [];
    }

    method Stop()
      modifies this
      ensures View() == Step(old(View()), Event.Stop)
    {
      keepRunning := false;
    }

    method TryLock() returns (r: bool)
      requires rt == Idle
      modifies this
      ensures r <==> old(owner) == Nobody && old(turn) == Realtime
      ensures View() == Step(Step(Step(old(View()), Event.TryLock), CheckTurn), ReleaseRefused)
      ensures r <==> rt == Writing
    {
      if owner == Nobody {
        owner, rt := RtThread, Locked;
        if turn == Realtime {
          rt := Writing;
          return true;
        } else {
          owner, rt := Nobody, Idle;
          return false;
        }
      }
      return false;
    }

    method UnlockAndPublish()
      requires rt == Writing
      modifies this
      ensures View() == Step(Step(old(View()), HandOver), ReleaseHandedOver)
    {
      turn := NonRealtime;
      handed, rt := handed + [msg[..]], HandedOver;
      owner := Nobody;
      rt := Idle;
    }

    /** `outgoing = msg_`. */
    method CopyMessage() returns (copy: seq<int>)
      ensures copy == msg[..]
    {
      var words := new int[msg.Length];
      for i := 0 to msg.Length
        invariant words[..i] == msg[..i]
      {
        words[i] := msg[i];
      }
      assert words[..] == msg[..];
      return words[..];
    }

    /** One round of `publishingLoop` that finds a message. */
    method PublishOnce()
      requires RoundStarts(View())
      modifies this
      ensures View() == LoopActions(old(View()), msg.Length + 8)
    {
      Round(View());
      hide LoopActions, LoopStep;
      owner := LoopThread;
      var copy := CopyMessage();
      turn := Realtime;
      owner := Nobody;
      outgoing, genuine := copy, false;
      written := written + [copy];
    }
  }
}
