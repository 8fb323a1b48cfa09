/** VR frames from the control process to the Unity stream, within one control-process generation
    (dexfull/control/session.py, dexfull/control/runtime.py, dexfull/control/process_channel.py,
    dexfull/common/state_bus.py, dexfull/bridge/streamer.py).  Every section under a lock is one event. */
module VrPipeline {
  import opened Wrappers
  import opened VrCodec

  /** The child: the frames it made so far (frame `n` has sequence `n`), and the hook's last sequence. */
  datatype Child = Child(made: seq<Frame>, lastVrSeq: Option<nat>)

  /** The shared memory, cleared when the generation starts. */
  datatype Shared = Shared(sequence: nat, timestamp: real, values: seq<real>)

  /** The VR channel of the bus. Its sequence outlives generations. */
  datatype Snapshot = Snapshot(sequence: nat, data: Frame)
  datatype Bus = Bus(sequence: nat, value: Option<Snapshot>)

  /** The streamer outlives generations too. `payloads` are those of this generation. */
  datatype Streamer = Streamer(last: nat, valid: nat, invalid: nat, payloads: seq<Frame>)

  /** `stale` is the monitor thread of the previous generation with its last sequence, if it still runs. */
  datatype State = State(child: Child, shared: Shared, monitorLast: nat, stale: Option<nat>, bus: Bus, streamer: Streamer)

  function Fresh(busSequence: nat, streamerLast: nat, valid: nat, invalid: nat, stale: Option<nat>): State {
    State(Child([], None), Shared(0, 0.0, seq(VALUE_COUNT, i => 0.0)), 0, stale, Bus(busSequence, None),
          Streamer(streamerLast, valid, invalid, []))
  }

  /** `Update` is a sample the child turned into a frame; its sequence is assigned by the child. */
  datatype Event = Update(sample: Frame) | Publish | MonitorRead | StaleRead | StreamTick | ClearBus

  /** `update_latest_vr_input`. */
  function UpdateStep(c: Child, sample: Frame): Child {
    c.(made := c.made + [sample.(sequence := |c.made| + 1)])
  }

  /** `ProcessRuntimeHooks.publish_vr` of the latest frame. */
  function PublishStep(c: Child, sh: Shared): (Child, Shared) {
    var n := |c.made|;
    if n == 0 || c.lastVrSeq == Some(n) then (c, sh)
    else
      match Encode(c.made[n - 1])
      case None => (c, sh)
      case Some(e) => (c.(lastVrSeq := Some(n)), Shared(e.sequence, e.timestamp, e.values))
  }

  /** `read_after`. */
  function SharedAfter(sh: Shared, last: nat): Option<Frame>
    requires |sh.values| == VALUE_COUNT
  {
    if sh.sequence <= last then None else Some(Decode(Encoded(sh.sequence, sh.timestamp, sh.values)))
  }

  /** `LatestStateBus.publish`. */
  function BusPublish(b: Bus, data: Frame): Bus { Bus(b.sequence + 1, Some(Snapshot(b.sequence + 1, data))) }

  /** `_extract_vr_payload`: the three poses must be seven finite numbers each. */
  function Extract(f: Frame): Option<Frame> {
    if ValidPose(f.hmd) && ValidPose(f.left) && ValidPose(f.right) then Some(f) else None
  }

  /** `next_vr_payload`. */
  function NextPayload(b: Bus, st: Streamer): (Streamer, Option<Frame>) {
    if b.value.None? || b.value.value.sequence == st.last then (st, None)
    else
      var seen := st.(last := b.value.value.sequence);
      match Extract(b.value.value.data)
      case None => (seen.(invalid := st.invalid + 1), None)
      case Some(p) => (seen.(valid := st.valid + 1, payloads := st.payloads + [p]), Some(p))
  }

  function Step(s: State, e: Event): State
    requires |s.shared.values| == VALUE_COUNT
  {
    match e
    case Update(sample) => s.(child := UpdateStep(s.child, sample))
    case Publish => var (child, shared) := PublishStep(s.child, s.shared); s.(child := child, shared := shared)
    case MonitorRead =>
      var r := SharedAfter(s.shared, s.monitorLast);
      if r.None? then s else s.(monitorLast := s.shared.sequence, bus := BusPublish(s.bus, r.value))
    case StaleRead =>
      if s.stale.None? then s
      else
        var r := SharedAfter(s.shared, s.stale.value);
        if r.None? then s else s.(stale := Some(s.shared.sequence), bus := BusPublish(s.bus, r.value))
    case StreamTick => s.(streamer := NextPayload(s.bus, s.streamer).0)
    case ClearBus => s.(bus := s.bus.(value := None))
  }

  function Run(s: State, events: seq<Event>): (r: State)
    requires |s.shared.values| == VALUE_COUNT
    ensures |r.shared.values| == VALUE_COUNT
  {
    if events == [] then s
    else
      var t := Run(s, events[..|events| - 1]);
      Step(t, events[|events| - 1])
  }

  // ------------------------------------------------------------------------------------------
  // What every run keeps while the previous monitor is gone.

  /** Sequence `n` is that of frame `n`, and what is shared is its encoding. */
  ghost predicate ChildKept(s: State) {
    && (forall i :: 0 <= i < |s.child.made| ==> s.child.made[i].sequence == i + 1)
    && |s.shared.values| == VALUE_COUNT
    && s.shared.sequence <= |s.child.made|
    && s.shared.sequence == (if s.child.lastVrSeq.Some? then s.child.lastVrSeq.value else 0)
    && (s.shared.sequence > 0 ==>
          Encode(s.child.made[s.shared.sequence - 1]) == Some(Encoded(s.shared.sequence, s.shared.timestamp, s.shared.values)))
  }

  /** Frame `f` is the clean form of an acceptable frame the child made. */
  ghost predicate Genuine(made: seq<Frame>, f: Frame) {
    0 < f.sequence <= |made| && Acceptable(made[f.sequence - 1]) && f == CleanFrame(made[f.sequence - 1])
  }

  ghost predicate BusKept(s: State) {
    && s.stale == None
    && s.monitorLast <= s.shared.sequence
    && s.streamer.last <= s.bus.sequence
    && (s.bus.value.Some? ==>
          && s.bus.value.value.sequence <= s.bus.sequence
          && s.bus.value.value.data.sequence == s.monitorLast
          && Genuine(s.child.made, s.bus.value.value.data))
  }

  ghost predicate Increasing(fs: seq<Frame>) { forall i, j :: 0 <= i < j < |fs| ==> fs[i].sequence < fs[j].sequence }

  ghost predicate StreamKept(s: State) {
    && Increasing(s.streamer.payloads)
    && (forall i :: 0 <= i < |s.streamer.payloads| ==>
          && Genuine(s.child.made, s.streamer.payloads[i])
          && s.streamer.payloads[i].sequence <= s.monitorLast
          && (s.bus.value.Some? && s.bus.value.value.sequence != s.streamer.last ==> s.streamer.payloads[i].sequence < s.monitorLast))
  }

  ghost predicate Inv(s: State) { ChildKept(s) && BusKept(s) && StreamKept(s) }

  lemma StepKeeps(s: State, e: Event)
    requires Inv(s)
    ensures Inv(Step(s, e)) && Step(s, e).streamer.invalid == s.streamer.invalid
  {
    hide CleanFrame, Acceptable;
    match e
    case Update(sample) => UpdateKeeps(s, sample);
    case Publish => PublishKeeps(s);
    case MonitorRead => ReadKeeps(s);
    case StreamTick => TickKeeps(s);
    case _ =>
  }

  lemma UpdateKeeps(s: State, sample: Frame)
    requires Inv(s)
    ensures Inv(Step(s, Update(sample)))
  {
    hide CleanFrame, Acceptable, Encode;
    var t := Step(s, Update(sample));
    assert forall i :: 0 <= i < |s.child.made| ==> t.child.made[i] == s.child.made[i];
    assert ChildKept(t);
    assert forall f :: Genuine(s.child.made, f) ==> Genuine(t.child.made, f);
    assert BusKept(t);
    hide Genuine;
    assert StreamKept(t);
  }

  lemma PublishKeeps(s: State)
    requires Inv(s)
    ensures Inv(Step(s, Publish))
  {
    hide CleanFrame, Genuine, Values;
    var t := Step(s, Publish);
    assert t.child.made == s.child.made && t.bus == s.bus && t.streamer == s.streamer;
    assert ChildKept(t);
  }

  /** What the monitor reads is the clean form of the frame the child made under that sequence. */
  lemma SharedIsGenuine(s: State)
    requires ChildKept(s) && s.shared.sequence > s.monitorLast
    ensures var f := SharedAfter(s.shared, s.monitorLast);
            f.Some? && f.value.sequence == s.shared.sequence && Genuine(s.child.made, f.value)
  {
    DecodeEncode(s.child.made[s.shared.sequence - 1]);
    hide Encode, Decode;
  }

  lemma ReadKeeps(s: State)
    requires Inv(s)
    ensures Inv(Step(s, MonitorRead))
  {
    var t := Step(s, MonitorRead);
    if s.shared.sequence > s.monitorLast {
      SharedIsGenuine(s);
      hide SharedAfter, Genuine, CleanFrame, Encode, Acceptable;
      assert t.child == s.child && t.shared == s.shared && t.streamer == s.streamer && t.stale == s.stale;
      assert t.monitorLast == s.shared.sequence && t.bus.sequence == s.bus.sequence + 1;
      hide Step;
    }
    hide Genuine, Encode;
  }

  lemma TickKeeps(s: State)
    requires Inv(s)
    ensures Inv(Step(s, StreamTick)) && Step(s, StreamTick).streamer.invalid == s.streamer.invalid
  {
    hide Encode, CleanSide;
    var t := Step(s, StreamTick);
    if t.streamer != s.streamer {
      assert t.streamer.payloads == s.streamer.payloads + [s.bus.value.value.data];
    }
  }

  lemma {:induction false} RunKeeps(s: State, events: seq<Event>)
    requires Inv(s) && |s.shared.values| == VALUE_COUNT
    ensures Inv(Run(s, events)) && Run(s, events).streamer.invalid == s.streamer.invalid
  {
    hide Inv, Step;
    if events != [] {
      var n := |events| - 1;
      RunKeeps(s, events[..n]);
      StepKeeps(Run(s, events[..n]), events[n]);
    }
  }

  /** Within one generation whose predecessor's monitor is gone: payloads reach the stream in strictly
      increasing source sequence, so each at most once; each is the child's frame of that sequence in clean
      form; and the streamer rejects none. */
  lemma StreamExact(busSequence: nat, last: nat, valid: nat, invalid: nat, events: seq<Event>)
    requires last <= busSequence
    ensures var s := Run(Fresh(busSequence, last, valid, invalid, None), events);
         && Increasing(s.streamer.payloads)
         && (forall i :: 0 <= i < |s.streamer.payloads| ==> Genuine(s.child.made, s.streamer.payloads[i]))
         && s.streamer.invalid == invalid
  {
    var s := Fresh(busSequence, last, valid, invalid, None);
    assert Inv(s);
    RunKeeps(s, events);
    hide Run, ChildKept, BusKept, Genuine;
  }

  // ------------------------------------------------------------------------------------------
  // A monitor thread that outlives its generation.

  function Updates(f: Frame, n: nat): (r: seq<Event>)
    ensures |r| == n
  {
    seq(n, i => Update(f))
  }

  lemma {:induction false} RunUpdates(s: State, f: Frame, n: nat)
    requires |s.shared.values| == VALUE_COUNT
    ensures var t := Run(s, Updates(f, n));
         && t.(child := s.child) == s && t.child.lastVrSeq == s.child.lastVrSeq
         && |t.child.made| == |s.child.made| + n
         && (n > 0 ==> t.child.made[|t.child.made| - 1] == f.(sequence := |t.child.made|))
  {
    if n > 0 {
      RunUpdates(s, f, n - 1);
      assert Updates(f, n)[..n - 1] == Updates(f, n - 1);
    }
  }

  const SOME_POSE: seq<Num> := [Finite(0.0), Finite(0.0), Finite(0.0), Finite(1.0), Finite(0.0), Finite(0.0), Finite(0.0)]
  const IDLE_SIDE := Side(false, false, false, false, false, Finite(0.0), Finite(0.0), [])
  const SOME_FRAME := Frame(0, Finite(0.0), SOME_POSE, SOME_POSE, SOME_POSE, Controller(true, IDLE_SIDE, IDLE_SIDE))

  /** Both monitors pick up the first frame the old one has not seen. */
  function DoubleRead(last: nat): seq<Event> {
    Updates(SOME_FRAME, last + 1) + [Publish] + [MonitorRead] + [StreamTick] + [StaleRead] + [StreamTick]
  }

  lemma RunSnoc(s: State, events: seq<Event>, e: Event)
    requires |s.shared.values| == VALUE_COUNT
    ensures Run(s, events + [e]) == Step(Run(s, events), e)
  {
    assert (events + [e])[..|events|] == events;
  }

  function FiveSteps(a: State): State
    requires |a.shared.values| == VALUE_COUNT
  {
    Step(Step(Step(Step(Step(a, Publish), MonitorRead), StreamTick), StaleRead), StreamTick)
  }

  lemma DoubleReadRun(s: State, last: nat)
    requires |s.shared.values| == VALUE_COUNT
    ensures Run(s, DoubleRead(last)) == FiveSteps(Run(s, Updates(SOME_FRAME, last + 1)))
  {
    hide Step, Updates;
    var u := Updates(SOME_FRAME, last + 1);
    RunSnoc(s, u, Publish);
    RunSnoc(s, u + [Publish], MonitorRead);
    RunSnoc(s, u + [Publish] + [MonitorRead], StreamTick);
    RunSnoc(s, u + [Publish] + [MonitorRead] + [StreamTick], StaleRead);
    RunSnoc(s, u + [Publish] + [MonitorRead] + [StreamTick] + [StaleRead], StreamTick);
    hide Run;
  }

  /** The newest frame is shared: whoever has not seen it reads its clean form. */
  lemma PublishedFrame(a: State, n: nat)
    requires |a.shared.values| == VALUE_COUNT && 0 < n == |a.child.made| && a.child.lastVrSeq == None
    requires a.child.made[n - 1].sequence == n && Acceptable(a.child.made[n - 1])
    ensures var b := Step(a, Publish);
         && b.shared.sequence == n && b.monitorLast == a.monitorLast && b.stale == a.stale && b.bus == a.bus && b.streamer == a.streamer
         && forall last: nat :: last < n ==> SharedAfter(b.shared, last) == Some(CleanFrame(a.child.made[n - 1]))
  {
    DecodeEncode(a.child.made[n - 1]);
    hide Encode, Decode, CleanFrame;
  }

  /** A snapshot the streamer has not seen is streamed. */
  lemma TickStreams(s: State, frame: Frame)
    requires |s.shared.values| == VALUE_COUNT && s.bus.value == Some(Snapshot(s.bus.sequence, frame)) && s.streamer.last < s.bus.sequence
    requires ValidPose(frame.hmd) && ValidPose(frame.left) && ValidPose(frame.right)
    ensures var t := Step(s, StreamTick);
         && t.streamer.payloads == s.streamer.payloads + [frame] && t.streamer.last == s.bus.sequence
         && t.bus == s.bus && t.shared == s.shared && t.stale == s.stale
  {
    hide ValidPose;
  }

  lemma CleanValid(f: Frame)
    requires Acceptable(f)
    ensures var c := CleanFrame(f); ValidPose(c.hmd) && ValidPose(c.left) && ValidPose(c.right) && c.sequence == f.sequence
  {
  }

  /** A shared frame that a monitor has not seen is streamed once it has read it. */
  lemma ReadStreams(s: State, read: Event, frame: Frame)
    requires |s.shared.values| == VALUE_COUNT && s.streamer.last <= s.bus.sequence
    requires || (read == MonitorRead && SharedAfter(s.shared, s.monitorLast) == Some(frame))
             || (read == StaleRead && s.stale.Some? && SharedAfter(s.shared, s.stale.value) == Some(frame))
    requires ValidPose(frame.hmd) && ValidPose(frame.left) && ValidPose(frame.right)
    ensures var t := Step(Step(s, read), StreamTick);
         && t.streamer.payloads == s.streamer.payloads + [frame] && t.streamer.last == t.bus.sequence
         && t.shared == s.shared && (read == MonitorRead ==> t.stale == s.stale)
  {
    var b := Step(s, read);
    hide ValidPose, SharedAfter, NextPayload;
    assert b.bus == BusPublish(s.bus, frame) && b.streamer == s.streamer && b.shared == s.shared;
    assert read == MonitorRead ==> b.stale == s.stale;
    hide Step;
    TickStreams(b, frame);
  }

  /** A frame both monitors find new is streamed twice. */
  lemma ReadTwice(a: State, n: nat)
    requires |a.shared.values| == VALUE_COUNT && 0 < n == |a.child.made| && a.child.lastVrSeq == None
    requires a.child.made[n - 1].sequence == n && Acceptable(a.child.made[n - 1])
    requires a.monitorLast < n && a.stale.Some? && a.stale.value < n && a.streamer.last <= a.bus.sequence && a.streamer.payloads == []
    ensures !Increasing(FiveSteps(a).streamer.payloads)
  {
    var frame := CleanFrame(a.child.made[n - 1]);
    PublishedFrame(a, n);
    CleanValid(a.child.made[n - 1]);
    hide Step, CleanFrame, Acceptable, ValidPose, SharedAfter;
    var b := Step(a, Publish);
    ReadStreams(b, MonitorRead, frame);
    var d := Step(Step(b, MonitorRead), StreamTick);
    ReadStreams(d, StaleRead, frame);
    var f := FiveSteps(a);
    assert f.streamer.payloads == [frame] + [frame];
    assert f.streamer.payloads[0].sequence == f.streamer.payloads[1].sequence;
  }

  lemma SomeAcceptable(f: Frame)
    requires f.(sequence := 0) == SOME_FRAME && f.sequence > 0
    ensures Acceptable(f)
  {
  }

  lemma DoubleReadRepeats(busSequence: nat, last: nat, valid: nat, invalid: nat, staleLast: nat)
    requires last <= busSequence
    ensures !Increasing(Run(Fresh(busSequence, last, valid, invalid, Some(staleLast)), DoubleRead(staleLast)).streamer.payloads)
  {
    var s0 := Fresh(busSequence, last, valid, invalid, Some(staleLast));
    var n := staleLast + 1;
    RunUpdates(s0, SOME_FRAME, n);
    DoubleReadRun(s0, staleLast);
    var a := Run(s0, Updates(SOME_FRAME, n));
    SomeAcceptable(a.child.made[n - 1]);
    hide Run, FiveSteps, Increasing, Acceptable, SOME_FRAME;
    ReadTwice(a, n);
  }

  /** Frames are streamed in strictly increasing order in every run exactly when no monitor thread of the
      previous generation is left. */
  lemma StreamIncreasingIff(busSequence: nat, last: nat, valid: nat, invalid: nat, stale: Option<nat>)
    requires last <= busSequence
    ensures stale == None <==>
              forall events :: Increasing(Run(Fresh(busSequence, last, valid, invalid, stale), events).streamer.payloads)
  {
    hide Increasing;
    if stale == None {
      forall events
        ensures Increasing(Run(Fresh(busSequence, last, valid, invalid, stale), events).streamer.payloads)
      {
        StreamExact(busSequence, last, valid, invalid, events);
      }
    } else {
      DoubleReadRepeats(busSequence, last, valid, invalid, stale.value);
    }
  }

  // ------------------------------------------------------------------------------------------
  // The classes.

  class LatestVrSharedState {
    var sequence: nat
    var timestamp: real
    const values: array<real>

    ghost predicate Valid()
      reads this
    {
      values.Length == VALUE_COUNT
    }

    ghost function View(): Shared
      reads this, values
    {
      Shared(sequence, timestamp, values[..])
    }

    constructor ()
      ensures Valid() && fresh(values)
    {
      sequence, timestamp := 0, 0.0;
      values := new real[VALUE_COUNT](_ => 0.0);
    }

    method Clear()
      requires Valid()
      modifies this, values
      ensures View() == Fresh(0, 0, 0, 0, None).shared
    {
      sequence, timestamp := 0, 0.0;
      for index := 0 to VALUE_COUNT
        invariant forall k :: 0 <= k < index ==> values[k] == 0.0
        invariant sequence == 0 && timestamp == 0.0
      {
        values[index] := 0.0;
      }
      assert values[..] == seq(VALUE_COUNT, i => 0.0);
    }

    method Publish(frame: Frame) returns (ok: bool)
      requires Valid()
      modifies this, values
      ensures ok <==> Acceptable(frame)
      ensures ok ==> Encode(frame) == Some(Encoded(sequence, timestamp, values[..]))
      ensures !ok ==> View() == old(View())
    {
      var encoded := EncodeFrame(frame);
      if encoded.None? {
        return false;
      }
      timestamp := encoded.value.timestamp;
      forall k | 0 <= k < VALUE_COUNT {
        values[k] := encoded.value.values[k];
      }
      sequence := encoded.value.sequence;
      assert values[..] == encoded.value.values;
      return true;
    }

    method ReadAfter(last: nat) returns (frame: Option<Frame>)
      requires Valid()
      ensures frame == SharedAfter(View(), last)
    {
      if sequence <= last {
        return None;
      }
      var f := DecodeFrame(Encoded(sequence, timestamp, values[..]));
      return Some(f);
    }
  }

  /** The VR channel of `LatestStateBus`. */
  class LatestStateBus {
    var sequence: nat
    var value: Option<Snapshot>

    constructor ()
      ensures sequence == 0 && value == None
    {
      sequence, value := 0, None;
    }

    method PublishVr(data: Frame)
      modifies this
      ensures Bus(sequence, value) == BusPublish(old(Bus(sequence, value)), data)
    {
      sequence := sequence + 1;
      value := Some(Snapshot(sequence, data));
    }

    method ClearChannel()
      modifies this`value
      ensures value == None
    {
      value := None;
    }
  }

  class DirectStateStreamer {
    const bus: LatestStateBus
    var last: nat
    var valid: nat
    var invalid: nat
    ghost var payloads: seq<Frame>

    ghost function View(): Streamer
      reads this
    {
      Streamer(last, valid, invalid, payloads)
    }

    constructor (bus: LatestStateBus)
      ensures this.bus == bus && View() == Streamer(0, 0, 0, [])
    {
      this.bus, last, valid, invalid, payloads := bus, 0, 0, 0, [];
    }

    method NextVrPayload() returns (payload: Option<Frame>)
      modifies this
      ensures (View(), payload) == NextPayload(Bus(bus.sequence, bus.value), old(View()))
    {
      var snapshot := bus.value;
      if snapshot.None? || snapshot.value.sequence == last {
        return None;
      }
      last := snapshot.value.sequence;
      payload := Extract(snapshot.value.data);
      if payload.None? {
        invalid := invalid + 1;
        return;
      }
      valid := valid + 1;
      payloads := payloads + [payload.value];
    }
  }
}
