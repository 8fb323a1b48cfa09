/** The priority of control messages over VR frames over robot frames (dexfull/bridge/ws_server.py), over all runs
    of the sender. */
module SenderPriority {
  import opened Wrappers
  import opened WsSender

  /** A control message that was accepted and not sent yet. */
  predicate ControlPending(s: State) { s.q.control != [] || ControlInHand(s.sender) != [] }

  predicate VrPending(s: State) { s.q.vr != [] || VrInHand(s.sender) != [] }

  predicate RobotPending(s: State) { s.q.robot != [] || RobotInHand(s.sender) != [] }

  function FramesSent(s: State): nat { |s.log.sentVr| + |s.log.sentRobot| }

  // ------------------------------------------------------------------------------------------
  // What is taken.

  /** At the top of the loop the first control message is sent next; a VR frame only if there is none, and a robot
      frame only if there is neither. */
  lemma TopTakes(s: State)
    requires s.sender == Top
    ensures var t := Step(Step(s, TakeNext), Sent);
            if s.q.control != [] then t == s.(q := s.q.(control := s.q.control[1..]), log := s.log.(sentControl := s.log.sentControl + [s.q.control[0]]))
            else if s.q.vr != [] then t == s.(q := s.q.(vr := s.q.vr[1..]), log := s.log.(sentVr := s.log.sentVr + [s.q.vr[0]]))
            else if s.q.robot != [] then t == s.(q := s.q.(robot := s.q.robot[1..]), log := s.log.(sentRobot := s.log.sentRobot + [s.q.robot[0]]))
            else t == s.(sender := Waiting(None, None, None))
  {
  }

  /** When a wait ends, a control message that was taken is sent, else a VR frame, else a robot frame; a frame that
      was taken and is not sent is the only one in its queue again. */
  lemma WaitSends(s: State, control: Option<nat>, vr: Option<nat>, robot: Option<nat>)
    requires s.sender == Waiting(control, vr, robot) && (control.Some? || vr.Some? || robot.Some?)
    ensures var t := Step(Step(Step(s, Resume), TasksCancelled), Sent);
         && t.sender == Top && t.q.control == s.q.control
         && (control.Some? ==>
               && t.log == s.log.(sentControl := s.log.sentControl + [control.value])
               && t.q.vr == (if vr.Some? then [vr.value] else s.q.vr) && t.q.robot == (if robot.Some? then [robot.value] else s.q.robot))
         && (control.None? && vr.Some? ==>
               && t.log == s.log.(sentVr := s.log.sentVr + [vr.value])
               && t.q.vr == s.q.vr && t.q.robot == (if robot.Some? then [robot.value] else s.q.robot))
         && (control.None? && vr.None? ==>
               t.log == s.log.(sentRobot := s.log.sentRobot + [robot.value]) && t.q == s.q)
  {
  }

  /** A broadcast frame replaces what was queued, leaves everything else, and is the next of its kind to be sent; a
      clear empties its queue only. */
  lemma BroadcastReplaces(s: State)
    ensures Step(s, BroadcastVr) == s.(q := s.q.(vr := [s.log.vrCount]), log := s.log.(vrCount := s.log.vrCount + 1))
    ensures Step(s, BroadcastRobot) == s.(q := s.q.(robot := [s.log.robotCount]), log := s.log.(robotCount := s.log.robotCount + 1))
    ensures Step(s, ClearVr) == s.(q := s.q.(vr := [])) && Step(s, ClearRobot) == s.(q := s.q.(robot := []))
    ensures s.sender == Top && s.q.control == [] ==>
              Step(Step(Step(s, BroadcastVr), TakeNext), Sent).log.sentVr == s.log.sentVr + [s.log.vrCount]
    ensures s.sender == Top && s.q.control == [] && s.q.vr == [] ==>
              Step(Step(Step(s, BroadcastRobot), TakeNext), Sent).log.sentRobot == s.log.sentRobot + [s.log.robotCount]
  {
    if s.sender == Top {
      TopTakes(Step(s, BroadcastVr));
      TopTakes(Step(s, BroadcastRobot));
    }
  }

  /** A control message is dropped, and counted, exactly when fifty are queued; nothing else changes. */
  lemma OfferDropsWhenFull(s: State)
    ensures var t := Step(s, OfferControl); var id := s.log.offered;
            if |s.q.control| < 50
            then && t.q == s.q.(control := s.q.control + [id]) && t.dropped == s.dropped && t.sender == s.sender
                 && t.log == s.log.(offered := id + 1, accepted := s.log.accepted + [id])
            else t == s.(dropped := s.dropped + 1, log := s.log.(offered := id + 1))
  {
  }

  // ------------------------------------------------------------------------------------------
  // Bounded overtaking.

  /** Frames that may still be sent before a pending control message is. */
  function FramesAhead(x: Sender): nat {
    match x
    case Top => 0
    case Waiting(c, _, _) => if c.Some? then 0 else 1
    case Leaving(m) => if m.Control? then 0 else 1
    case Sending(m) => if m.Control? then 0 else 1
  }

  ghost predicate AtMostOneAhead(s: State, t: State) {
    || |t.log.sentControl| > |s.log.sentControl|
    || (ControlPending(t) && |t.log.sentControl| == |s.log.sentControl| && FramesSent(t) + FramesAhead(t.sender) <= FramesSent(s) + 1)
  }

  lemma AheadStep(s: State, t: State, e: Event)
    requires AtMostOneAhead(s, t)
    ensures AtMostOneAhead(s, Step(t, e))
  {
  }

  /** From any state with a pending control message: in every interleaving at most one more VR or robot frame is sent
      before a control message is, however fast frames are broadcast. */
  lemma {:induction false} ControlOvertakes(s: State, events: seq<Event>)
    requires ControlPending(s)
    ensures var t := Run(s, events); |t.log.sentControl| > |s.log.sentControl| || FramesSent(t) <= FramesSent(s) + 1
    ensures AtMostOneAhead(s, Run(s, events))
  {
    if events != [] {
      var n := |events| - 1;
      ControlOvertakes(s, events[..n]);
      hide Step;
      AheadStep(s, Run(s, events[..n]), events[n]);
    }
  }

  /** Robot frames that may still be sent before a pending VR frame is. */
  function RobotAhead(x: Sender): nat {
    match x
    case Top => 0
    case Waiting(c, v, _) => if c.Some? || v.Some? then 0 else 1
    case Leaving(m) => if m.Robot? then 1 else 0
    case Sending(m) => if m.Robot? then 1 else 0
  }

  ghost predicate AtMostOneRobotAhead(s: State, t: State) {
    || |t.log.sentVr| > |s.log.sentVr|
    || (VrPending(t) && |t.log.sentVr| == |s.log.sentVr| && |t.log.sentRobot| + RobotAhead(t.sender) <= |s.log.sentRobot| + 1)
  }

  lemma RobotAheadStep(s: State, t: State, e: Event)
    requires AtMostOneRobotAhead(s, t) && e != ClearVr
    ensures AtMostOneRobotAhead(s, Step(t, e))
  {
  }

  /** The same for robot frames before a pending VR frame, as long as VR streaming is not cleared. */
  lemma {:induction false} VrOvertakes(s: State, events: seq<Event>)
    requires VrPending(s) && ClearVr !in events
    ensures var t := Run(s, events); |t.log.sentVr| > |s.log.sentVr| || |t.log.sentRobot| <= |s.log.sentRobot| + 1
    ensures AtMostOneRobotAhead(s, Run(s, events))
  {
    if events != [] {
      var n := |events| - 1;
      VrOvertakes(s, events[..n]);
      hide Step;
      RobotAheadStep(s, Run(s, events[..n]), events[n]);
    }
  }

  // ------------------------------------------------------------------------------------------
  // Nothing is forgotten.

  /** The get tasks run, the wait ends, and the next round takes what is there. */
  function Woken(s: State): State {
    Step(Step(Step(Step(s, RunControlTask), RunVrTask), RunRobotTask), Resume)
  }

  function Round(s: State): State {
    Step(Step(Step(Step(Woken(s), TasksCancelled), Sent), TakeNext), Sent)
  }

  lemma WokenMoves(s: State)
    ensures var t := Woken(s);
         && t.log == s.log
         && (s.sender.Waiting? && ControlPending(s) ==> t.sender.Leaving? && t.sender.msg.Control?)
         && (s.sender.Waiting? && !ControlPending(s) && VrPending(s) ==> t.sender.Leaving? && t.sender.msg.Vr?)
         && (s.sender.Waiting? && !ControlPending(s) && !VrPending(s) && RobotPending(s) ==> t.sender.Leaving? && t.sender.msg.Robot?)
         && (!s.sender.Waiting? ==> t == s)
  {
  }

  lemma Delivered(t: State)
    requires !t.sender.Waiting?
    ensures var u := Step(Step(Step(Step(t, TasksCancelled), Sent), TakeNext), Sent);
         && (ControlPending(t) ==> |u.log.sentControl| > |t.log.sentControl|)
         && (!ControlPending(t) && VrPending(t) ==> |u.log.sentVr| > |t.log.sentVr|)
         && (!ControlPending(t) && !VrPending(t) && RobotPending(t) ==> |u.log.sentRobot| > |t.log.sentRobot|)
  {
    var top := Step(Step(t, TasksCancelled), Sent);
    TopTakes(top);
  }

  /** Left alone, the sender sends the most urgent kind of what is pending within one round, from every state. */
  lemma RoundSends(s: State)
    ensures var t := Round(s);
         && (ControlPending(s) ==> |t.log.sentControl| > |s.log.sentControl|)
         && (!ControlPending(s) && VrPending(s) ==> |t.log.sentVr| > |s.log.sentVr|)
         && (!ControlPending(s) && !VrPending(s) && RobotPending(s) ==> |t.log.sentRobot| > |s.log.sentRobot|)
  {
    WokenMoves(s);
    if s.sender.Waiting? && !ControlPending(s) && !VrPending(s) && !RobotPending(s) {
    } else {
      hide Woken, Step;
      var t := Woken(s);
      Delivered(t);
      if s.sender.Waiting? && ControlPending(s) {
      } else if s.sender.Waiting? && VrPending(s) {
        StillNoControl(s);
      } else if s.sender.Waiting? {
        StillNoControl(s);
      }
    }
  }

  lemma StillNoControl(s: State)
    requires !ControlPending(s)
    ensures !ControlPending(Woken(s)) && (!VrPending(s) ==> !VrPending(Woken(s)))
  {
  }
}
