/** The per-client WebSocket sender (dexfull/bridge/ws_server.py).  Code between two awaits is one event of
    the asyncio loop; a `Queue.get` task takes its item when it runs, and a cancelled one takes nothing.
    Messages are numbered per stream in the order they were offered. */
module WsSender {
  import opened Wrappers

  const CONTROL_CAPACITY := 50

  datatype Message = Control(id: nat) | Vr(id: nat) | Robot(id: nat)

  datatype Queues = Queues(control: seq<nat>, vr: seq<nat>, robot: seq<nat>)

  /** `Waiting` holds what the three get tasks have taken so far; `Leaving` awaits the cancelled ones. */
  datatype Sender =
    | Top
    | Waiting(control: Option<nat>, vr: Option<nat>, robot: Option<nat>)
    | Leaving(msg: Message)
    | Sending(msg: Message)

  /** `accepted` are the control messages that entered the queue, `offered` counts all; `sent` per stream. */
  datatype Log = Log(offered: nat, accepted: seq<nat>, vrCount: nat, robotCount: nat,
                     sentControl: seq<nat>, sentVr: seq<nat>, sentRobot: seq<nat>)

  datatype State = State(q: Queues, sender: Sender, dropped: nat, log: Log)

  const INITIAL := State(Queues([], [], []), Top, 0, Log(0, [], 0, 0, [], [], []))

  datatype Event =
    | OfferControl | BroadcastVr | BroadcastRobot | ClearVr | ClearRobot
    | TakeNext | RunControlTask | RunVrTask | RunRobotTask | Resume | TasksCancelled | Sent

  function OfferControlStep(s: State): State {
    var id := s.log.offered;
    if |s.q.control| < CONTROL_CAPACITY
    then s.(q := s.q.(control := s.q.control + [id]), log := s.log.(offered := id + 1, accepted := s.log.accepted + [id]))
    else s.(dropped := s.dropped + 1, log := s.log.(offered := id + 1))
  }

  /** The nowait part of one round: control before VR before robot, else three get tasks. */
  function TakeNextStep(q: Queues): (Queues, Sender) {
    if q.control != [] then (q.(control := q.control[1..]), Sending(Control(q.control[0])))
    else if q.vr != [] then (q.(vr := q.vr[1..]), Sending(Vr(q.vr[0])))
    else if q.robot != [] then (q.(robot := q.robot[1..]), Sending(Robot(q.robot[0])))
    else (q, Waiting(None, None, None))
  }

  /** `_requeue_latest_best_effort`. */
  function Requeued(held: Option<nat>, queue: seq<nat>): seq<nat> {
    if held.Some? then [held.value] else queue
  }

  /** `_wait_next_client_message` after its wait returned. */
  function ResumeStep(q: Queues, control: Option<nat>, vr: Option<nat>, robot: Option<nat>): (Queues, Message)
    requires control.Some? || vr.Some? || robot.Some?
  {
    if control.Some? then (q.(vr := Requeued(vr, q.vr), robot := Requeued(robot, q.robot)), Control(control.value))
    else if vr.Some? then (q.(robot := Requeued(robot, q.robot)), Vr(vr.value))
    else (q, Robot(robot.value))
  }

  function LogSent(log: Log, m: Message): Log {
    match m
    case Control(id) => log.(sentControl := log.sentControl + [id])
    case Vr(id) => log.(sentVr := log.sentVr + [id])
    case Robot(id) => log.(sentRobot := log.sentRobot + [id])
  }

  function Step(s: State, e: Event): State {
    match e
    case OfferControl => OfferControlStep(s)
    case BroadcastVr => s.(q := s.q.(vr := [s.log.vrCount]), log := s.log.(vrCount := s.log.vrCount + 1))
    case BroadcastRobot => s.(q := s.q.(robot := [s.log.robotCount]), log := s.log.(robotCount := s.log.robotCount + 1))
    case ClearVr => s.(q := s.q.(vr := []))
    case ClearRobot => s.(q := s.q.(robot := []))
    case TakeNext =>
      if s.sender != Top then s
      else var (q, sender) := TakeNextStep(s.q); s.(q := q, sender := sender)
    case RunControlTask =>
      if s.sender.Waiting? && s.sender.control.None? && s.q.control != []
      then s.(q := s.q.(control := s.q.control[1..]), sender := s.sender.(control := Some(s.q.control[0]))) else s
    case RunVrTask =>
      if s.sender.Waiting? && s.sender.vr.None? && s.q.vr != []
      then s.(q := s.q.(vr := s.q.vr[1..]), sender := s.sender.(vr := Some(s.q.vr[0]))) else s
    case RunRobotTask =>
      if s.sender.Waiting? && s.sender.robot.None? && s.q.robot != []
      then s.(q := s.q.(robot := s.q.robot[1..]), sender := s.sender.(robot := Some(s.q.robot[0]))) else s
    case Resume =>
      if s.sender.Waiting? && (s.sender.control.Some? || s.sender.vr.Some? || s.sender.robot.Some?) then
        var (q, m) := ResumeStep(s.q, s.sender.control, s.sender.vr, s.sender.robot);
        s.(q := q, sender := Leaving(m))
      else s
    case TasksCancelled => if s.sender.Leaving? then s.(sender := Sending(s.sender.msg)) else s
    case Sent => if s.sender.Sending? then s.(sender := Top, log := LogSent(s.log, s.sender.msg)) else s
  }

  function Run(s: State, events: seq<Event>): State {
    if events == [] then s
    else Step(Run(s, events[..|events| - 1]), events[|events| - 1])
  }

  // ------------------------------------------------------------------------------------------
  // What the sender has in hand, per stream.

  function Held(o: Option<nat>): seq<nat> { if o.Some? then [o.value] else [] }

  function ControlInHand(x: Sender): seq<nat> {
    match x
    case Top => []
    case Waiting(c, _, _) => Held(c)
    case Leaving(m) => if m.Control? then [m.id] else []
    case Sending(m) => if m.Control? then [m.id] else []
  }

  function VrInHand(x: Sender): seq<nat> {
    match x
    case Top => []
    case Waiting(_, v, _) => Held(v)
    case Leaving(m) => if m.Vr? then [m.id] else []
    case Sending(m) => if m.Vr? then [m.id] else []
  }

  function RobotInHand(x: Sender): seq<nat> {
    match x
    case Top => []
    case Waiting(_, _, r) => Held(r)
    case Leaving(m) => if m.Robot? then [m.id] else []
    case Sending(m) => if m.Robot? then [m.id] else []
  }

  // ------------------------------------------------------------------------------------------
  // Control messages.

  ghost predicate ControlConserved(s: State) {
    && s.log.accepted == s.log.sentControl + ControlInHand(s.sender) + s.q.control
    && s.log.offered == |s.log.accepted| + s.dropped
    && |s.q.control| <= CONTROL_CAPACITY
    && Increasing(s.log.accepted, s.log.offered)
  }

  /** Strictly increasing and below `bound`. */
  ghost predicate Increasing(ids: seq<nat>, bound: nat) {
    && (forall i, j :: 0 <= i < j < |ids| ==> ids[i] < ids[j])
    && (forall i :: 0 <= i < |ids| ==> ids[i] < bound)
  }

  lemma ControlKept(s: State, e: Event)
    requires ControlConserved(s)
    ensures ControlConserved(Step(s, e))
  {
    var t := Step(s, e);
    match e
    case OfferControl =>
      if |s.q.control| < CONTROL_CAPACITY {
        assert t.log.accepted == s.log.sentControl + ControlInHand(s.sender) + t.q.control;
      }
    case TakeNext =>
      if s.sender == Top && s.q.control != [] {
        assert [s.q.control[0]] + s.q.control[1..] == s.q.control;
        assert s.log.accepted == s.log.sentControl + [s.q.control[0]] + s.q.control[1..];
      }
    case RunControlTask =>
      if s.sender.Waiting? && s.sender.control.None? && s.q.control != [] {
        assert [s.q.control[0]] + s.q.control[1..] == s.q.control;
        assert s.log.accepted == s.log.sentControl + [s.q.control[0]] + s.q.control[1..];
      }
    case Sent =>
      assert t.log.accepted == t.log.sentControl + ControlInHand(t.sender) + t.q.control;
    case _ =>
      assert ControlInHand(t.sender) == ControlInHand(s.sender) && t.q.control == s.q.control;
  }

  // ------------------------------------------------------------------------------------------
  // Realtime frames.

  /** Frames sent, in hand and queued are in broadcast order, without repetition. */
  ghost predicate Fresh(sent: seq<nat>, hand: seq<nat>, queue: seq<nat>, count: nat) {
    |queue| <= 1 && Increasing(sent + hand + queue, count)
  }

  ghost predicate VrFresh(s: State) { Fresh(s.log.sentVr, VrInHand(s.sender), s.q.vr, s.log.vrCount) }

  ghost predicate RobotFresh(s: State) { Fresh(s.log.sentRobot, RobotInHand(s.sender), s.q.robot, s.log.robotCount) }

  lemma FreshBroadcast(sent: seq<nat>, hand: seq<nat>, queue: seq<nat>, count: nat)
    requires Fresh(sent, hand, queue, count)
    ensures Fresh(sent, hand, [count], count + 1) && Fresh(sent, hand, [], count)
  {
    var all := sent + hand + queue;
    assert forall i :: 0 <= i < |sent + hand| ==> (sent + hand)[i] == all[i];
    assert sent + hand + [] == sent + hand;
  }

  lemma FreshTake(sent: seq<nat>, queue: seq<nat>, count: nat)
    requires Fresh(sent, [], queue, count) && queue != []
    ensures Fresh(sent, [queue[0]], queue[1..], count)
  {
    assert sent + [] + queue == sent + [queue[0]] + queue[1..];
  }

  lemma FreshSent(sent: seq<nat>, m: nat, queue: seq<nat>, count: nat)
    requires Fresh(sent, [m], queue, count)
    ensures Fresh(sent + [m], [], queue, count)
  {
    assert sent + [m] + [] + queue == sent + [m] + queue;
  }

  /** Putting the held frame back drops what was queued meanwhile. */
  lemma FreshRequeue(sent: seq<nat>, held: Option<nat>, queue: seq<nat>, count: nat)
    requires Fresh(sent, Held(held), queue, count)
    ensures Fresh(sent, [], Requeued(held, queue), count)
  {
    if held.Some? {
      var all := sent + [held.value] + queue;
      assert forall i :: 0 <= i < |sent + [] + [held.value]| ==> (sent + [] + [held.value])[i] == all[i];
    } else {
      assert sent + [] + queue == sent + Held(held) + queue;
    }
  }

  lemma VrKept(s: State, e: Event)
    requires VrFresh(s)
    ensures VrFresh(Step(s, e))
  {
    var t := Step(s, e);
    match e
    case BroadcastVr => FreshBroadcast(s.log.sentVr, VrInHand(s.sender), s.q.vr, s.log.vrCount);
    case ClearVr => FreshBroadcast(s.log.sentVr, VrInHand(s.sender), s.q.vr, s.log.vrCount);
    case TakeNext => if t.q.vr != s.q.vr { FreshTake(s.log.sentVr, s.q.vr, s.log.vrCount); }
    case RunVrTask => if t.q.vr != s.q.vr { FreshTake(s.log.sentVr, s.q.vr, s.log.vrCount); }
    case Resume => if t != s && s.sender.control.Some? { FreshRequeue(s.log.sentVr, s.sender.vr, s.q.vr, s.log.vrCount); }
    case Sent => if s.sender.Sending? && s.sender.msg.Vr? { FreshSent(s.log.sentVr, s.sender.msg.id, s.q.vr, s.log.vrCount); }
    case _ =>
  }

  lemma RobotKept(s: State, e: Event)
    requires RobotFresh(s)
    ensures RobotFresh(Step(s, e))
  {
    var t := Step(s, e);
    match e
    case BroadcastRobot => FreshBroadcast(s.log.sentRobot, RobotInHand(s.sender), s.q.robot, s.log.robotCount);
    case ClearRobot => FreshBroadcast(s.log.sentRobot, RobotInHand(s.sender), s.q.robot, s.log.robotCount);
    case TakeNext => if t.q.robot != s.q.robot { FreshTake(s.log.sentRobot, s.q.robot, s.log.robotCount); }
    case RunRobotTask => if t.q.robot != s.q.robot { FreshTake(s.log.sentRobot, s.q.robot, s.log.robotCount); }
    case Resume =>
      if t != s && (s.sender.control.Some? || s.sender.vr.Some?) {
        FreshRequeue(s.log.sentRobot, s.sender.robot, s.q.robot, s.log.robotCount);
      }
    case Sent => if s.sender.Sending? && s.sender.msg.Robot? { FreshSent(s.log.sentRobot, s.sender.msg.id, s.q.robot, s.log.robotCount); }
    case _ =>
  }

  // ------------------------------------------------------------------------------------------
  // Every interleaving.

  lemma {:induction false} RunKeeps(events: seq<Event>)
    ensures var s := Run(INITIAL, events); ControlConserved(s) && VrFresh(s) && RobotFresh(s)
  {
    hide Step, ControlConserved, VrFresh, RobotFresh;
    if events == [] {
      InitialKeeps();
    } else {
      var n := |events| - 1;
      RunKeeps(events[..n]);
      var s := Run(INITIAL, events[..n]);
      ControlKept(s, events[n]);
      VrKept(s, events[n]);
      RobotKept(s, events[n]);
    }
  }

  lemma InitialKeeps()
    ensures ControlConserved(INITIAL) && VrFresh(INITIAL) && RobotFresh(INITIAL)
  {
  }

  /** The accepted control messages are the sent ones, then at most one in hand, then the queue, in FIFO
      order; the drop counter is exactly the number offered but not accepted. */
  lemma ControlExact(events: seq<Event>)
    ensures var s := Run(INITIAL, events);
         && s.log.accepted == s.log.sentControl + ControlInHand(s.sender) + s.q.control
         && |ControlInHand(s.sender)| <= 1
         && s.dropped == s.log.offered - |s.log.accepted|
         && Increasing(s.log.accepted, s.log.offered)
  {
    RunKeeps(events);
    hide Run, VrFresh, RobotFresh, Increasing;
  }

  /** VR and robot frames are sent in broadcast order, each at most once, through the requeue path too. */
  lemma FramesInOrder(events: seq<Event>)
    ensures var s := Run(INITIAL, events);
         && Increasing(s.log.sentVr, s.log.vrCount) && Increasing(s.log.sentRobot, s.log.robotCount)
         && |s.q.vr| <= 1 && |s.q.robot| <= 1
  {
    RunKeeps(events);
    var s := Run(INITIAL, events);
    assert forall i :: 0 <= i < |s.log.sentVr| ==> (s.log.sentVr + VrInHand(s.sender) + s.q.vr)[i] == s.log.sentVr[i];
    assert forall i :: 0 <= i < |s.log.sentRobot| ==> (s.log.sentRobot + RobotInHand(s.sender) + s.q.robot)[i] == s.log.sentRobot[i];
    hide Run, ControlConserved;
  }

  /** The newest VR frame broadcast is sent, in hand or queued. */
  predicate NewestKept(s: State) {
    s.log.vrCount > 0 ==> s.log.vrCount - 1 in s.log.sentVr + VrInHand(s.sender) + s.q.vr
  }

  /** Exactly when the newest frame is lost: a control message and an older frame were taken in the same
      turn while it was queued, or streaming was cleared while it was queued. */
  lemma NewestLostIff(s: State, e: Event)
    requires VrFresh(s) && NewestKept(s)
    ensures !NewestKept(Step(s, e)) <==>
              && s.q.vr != []
              && (e == ClearVr || (e == Resume && s.sender.Waiting? && s.sender.control.Some? && s.sender.vr.Some?))
  {
    if s.q.vr != [] {
      NewestQueued(s);
    }
    var t := Step(s, e);
    if s.log.vrCount > 0 {
      var newest := s.log.vrCount - 1;
      assert newest in s.log.sentVr || newest in VrInHand(s.sender) || newest in s.q.vr;
      assert NewestKept(t) <==> t.log.vrCount - 1 in t.log.sentVr || t.log.vrCount - 1 in VrInHand(t.sender) || t.log.vrCount - 1 in t.q.vr;
    }
  }

  lemma RunSnoc(s: State, events: seq<Event>, e: Event)
    ensures Run(s, events + [e]) == Step(Run(s, events), e)
  {
    assert (events + [e])[..|events|] == events;
  }

  /** Frame 0 and a control message are taken in one turn, frame 1 arrives, and frame 0 is put back over it. */
  const OVERWRITE: seq<Event> := [TakeNext] + [BroadcastVr] + [RunVrTask] + [OfferControl] + [RunControlTask] + [BroadcastVr]

  lemma OverwriteRun()
    ensures Run(INITIAL, OVERWRITE) == State(Queues([], [1], []), Waiting(Some(0), Some(0), None), 0, Log(1, [0], 2, 0, [], [], []))
  {
    var a, b, c, d, e := [TakeNext], [BroadcastVr], [RunVrTask], [OfferControl], [RunControlTask];
    RunSnoc(INITIAL, [], TakeNext);
    RunSnoc(INITIAL, a, BroadcastVr);
    RunSnoc(INITIAL, a + b, RunVrTask);
    RunSnoc(INITIAL, a + b + c, OfferControl);
    RunSnoc(INITIAL, a + b + c + d, RunControlTask);
    RunSnoc(INITIAL, a + b + c + d + e, BroadcastVr);
    assert [] + a == a && Run(INITIAL, []) == INITIAL;
    hide Run;
    var waiting := Run(INITIAL, a + b);
    assert waiting == INITIAL.(sender := Waiting(None, None, None), q := Queues([], [0], []), log := INITIAL.log.(vrCount := 1));
    var taken := Step(waiting, RunVrTask);
    assert taken.q == Queues([], [], []) && taken.sender == Waiting(None, Some(0), None);
    var offered := Step(taken, OfferControl);
    assert offered.q == Queues([0], [], []) && offered.log.accepted == [0] && offered.log.offered == 1;
    var both := Step(offered, RunControlTask);
    assert both.q == Queues([], [], []) && both.sender == Waiting(Some(0), Some(0), None);
  }

  /** The newest frame is lost in a run that never cleared the queue: frame 0 is queued, frame 1 is nowhere. */
  lemma NewestFrameLost()
    ensures var s, t := Run(INITIAL, OVERWRITE), Run(INITIAL, OVERWRITE + [Resume]);
         && NewestKept(s) && s.q.vr == [1]
         && !NewestKept(t) && t.log.vrCount == 2 && t.q.vr == [0]
  {
    OverwriteRun();
    RunSnoc(INITIAL, OVERWRITE, Resume);
    hide Run, OVERWRITE;
    var s := Run(INITIAL, OVERWRITE);
    var t := Step(s, Resume);
    assert s.log.sentVr + VrInHand(s.sender) + s.q.vr == [0, 1];
    assert t.log.sentVr + VrInHand(t.sender) + t.q.vr == [0];
  }

  /** A queued frame is the newest one kept, and no other place holds it. */
  lemma NewestQueued(s: State)
    requires VrFresh(s) && NewestKept(s) && s.q.vr != []
    ensures s.q.vr == [s.log.vrCount - 1] && s.log.vrCount > 0
    ensures s.log.vrCount - 1 !in s.log.sentVr && s.log.vrCount - 1 !in VrInHand(s.sender)
  {
    var hand := VrInHand(s.sender);
    var all := s.log.sentVr + hand + s.q.vr;
    assert all[|all| - 1] == s.q.vr[0];
    forall i | 0 <= i < |s.log.sentVr|
      ensures s.log.sentVr[i] < s.q.vr[0]
    {
      assert all[i] == s.log.sentVr[i];
    }
    forall i | 0 <= i < |hand|
      ensures hand[i] < s.q.vr[0]
    {
      assert all[|s.log.sentVr| + i] == hand[i];
    }
  }

  // ------------------------------------------------------------------------------------------
  // The methods: each stretch between two awaits.

  /** `asyncio.Queue` without waiting. */
  class AsyncQueue {
    const maxsize: nat
    var items: seq<nat>

    constructor (maxsize: nat)
      ensures this.maxsize == maxsize && items == []
    {
      this.maxsize, items := maxsize, [];
    }

    /** False is QueueFull. */
    method PutNowait(x: nat) returns (ok: bool)
      modifies this
      ensures ok <==> |old(items)| < maxsize
      ensures items == if ok then old(items) + [x] else old(items)
    {
      ok := |items| < maxsize;
      if ok {
        items := items + [x];
      }
    }

    /** `None` is QueueEmpty. */
    method GetNowait() returns (r: Option<nat>)
      modifies this
      ensures old(items) == [] ==> r == None && items == []
      ensures old(items) != [] ==> r == Some(old(items)[0]) && items == old(items)[1..]
    {
      if items == [] {
        return None;
      }
      r := Some(items[0]);
      items := items[1..];
    }

    /** `_clear_client_*_queue`. */
    method Clear()
      modifies this
      ensures items == []
    {
      var r := GetNowait();
      while r.Some?
        invariant r.None? ==> items == []
        decreases |items|, r.Some?
      {
        r := GetNowait();
      }
    }
  }

  class ClientConnection {
    const queue: AsyncQueue
    const vrInputQueue: AsyncQueue
    const robotDatasQueue: AsyncQueue
    var droppedFrames: nat

    ghost predicate Valid()
      reads this, queue, vrInputQueue, robotDatasQueue
    {
      && queue != vrInputQueue && queue != robotDatasQueue && vrInputQueue != robotDatasQueue
      && queue.maxsize == CONTROL_CAPACITY && vrInputQueue.maxsize == robotDatasQueue.maxsize == 1
    }

    ghost function View(): Queues
      reads this, queue, vrInputQueue, robotDatasQueue
    {
      Queues(queue.items, vrInputQueue.items, robotDatasQueue.items)
    }

    constructor ()
      ensures Valid() && View() == INITIAL.q && droppedFrames == 0
      ensures fresh(queue) && fresh(vrInputQueue) && fresh(robotDatasQueue)
    {
      queue := new AsyncQueue(50);
      vrInputQueue := new AsyncQueue(1);
      robotDatasQueue := new AsyncQueue(1);
      droppedFrames := 0;
    }

    /** `_broadcast` and `_queue_payload` for one client. */
    method QueuePayload(id: nat, ghost log: Log)
      requires Valid() && log.offered == id
      modifies this, queue
      ensures Valid()
      ensures var t := OfferControlStep(State(old(View()), Top, old(droppedFrames), log));
              View() == t.q && droppedFrames == t.dropped
    {
      var ok := queue.PutNowait(id);
      if !ok {
        droppedFrames := droppedFrames + 1;
      }
    }

    /** `_queue_latest_vr_input`: its queue never overflows, so nothing is counted as dropped. */
    method QueueLatestVrInput(id: nat)
      requires Valid()
      modifies vrInputQueue
      ensures Valid() && View() == old(View()).(vr := [id]) && droppedFrames == old(droppedFrames)
    {
      QueueLatest(vrInputQueue, id);
    }

    method QueueLatestRobotDatas(id: nat)
      requires Valid()
      modifies robotDatasQueue
      ensures Valid() && View() == old(View()).(robot := [id]) && droppedFrames == old(droppedFrames)
    {
      QueueLatest(robotDatasQueue, id);
    }

    /** After the clear there is room, so the branch that counts a drop and tries again is never taken. */
    method QueueLatest(q: AsyncQueue, id: nat)
      requires q.maxsize == 1
      modifies q
      ensures q.items == [id]
    {
      q.Clear();
      var ok := q.PutNowait(id);
      assert ok;
    }

    /** The head of the sender loop: `None` means that it has to wait. */
    method TryNext() returns (m: Option<Message>)
      requires Valid()
      modifies queue, vrInputQueue, robotDatasQueue
      ensures Valid()
      ensures (View(), if m.None? then Waiting(None, None, None) else Sending(m.value)) == TakeNextStep(old(View()))
    {
      var c := queue.GetNowait();
      if c.Some? {
        return Some(Control(c.value));
      }
      var v := vrInputQueue.GetNowait();
      if v.Some? {
        return Some(Vr(v.value));
      }
      var r := robotDatasQueue.GetNowait();
      if r.Some? {
        return Some(Robot(r.value));
      }
      return None;
    }

    /** `_requeue_latest_best_effort`. */
    method Requeue(q: AsyncQueue, id: nat)
      requires q.maxsize == 1
      modifies q
      ensures q.items == [id]
    {
      q.Clear();
      var ok := q.PutNowait(id);
    }

    /** `_wait_next_client_message` between its wait and its cancellations. */
    method PickDone(control: Option<nat>, vr: Option<nat>, robot: Option<nat>) returns (m: Message)
      requires Valid() && (control.Some? || vr.Some? || robot.Some?)
      modifies vrInputQueue, robotDatasQueue
      ensures Valid() && (View(), m) == ResumeStep(old(View()), control, vr, robot)
    {
      if control.Some? {
        m := Control(control.value);
        if vr.Some? {
          Requeue(vrInputQueue, vr.value);
        }
        if robot.Some? {
          Requeue(robotDatasQueue, robot.value);
        }
      } else if vr.Some? {
        m := Vr(vr.value);
        if robot.Some? {
          Requeue(robotDatasQueue, robot.value);
        }
      } else {
        m := Robot(robot.value);
      }
    }
  }
}
