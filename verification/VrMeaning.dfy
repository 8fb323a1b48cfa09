/** What happens to one VR frame on its way to the stream: which frames cross the process boundary, how they arrive,
    and that each arrives once. */
module VrMeaning {
  import opened Wrappers
  import opened VrCodec
  import opened VrPipeline

  // ------------------------------------------------------------------------------------------
  // The boundary.

  ghost predicate SevenFinite(p: seq<Num>) { |p| == 7 && forall i :: 0 <= i < 7 ==> p[i] != NonFinite }

  /** Exactly the frames with a positive sequence, a finite timestamp and three poses of seven finite numbers cross. */
  lemma CrossesIff(f: Frame)
    ensures Encode(f).Some? <==>
              f.sequence >= 1 && f.timestamp != NonFinite && SevenFinite(f.hmd) && SevenFinite(f.left) && SevenFinite(f.right)
  {
    hide Values;
  }

  /** What a controller value becomes: itself, or 0 if it is missing or not finite. */
  function Value(t: seq<Num>, i: nat): Num { if i < |t| && t[i] != NonFinite then t[i] else Finite(0.0) }

  /** One side of the controller arrives with its buttons, its values and exactly two thumbstick axes. */
  ghost predicate ArrivesAs(s: Side, t: Side) {
    && t.trigger == s.trigger && t.squeeze == s.squeeze && t.aButton == s.aButton && t.bButton == s.bButton && t.thumbstick == s.thumbstick
    && t.triggerValue == Value([s.triggerValue], 0) && t.squeezeValue == Value([s.squeezeValue], 0)
    && t.thumbstickValue == [Value(s.thumbstickValue, 0), Value(s.thumbstickValue, 1)]
  }

  lemma CleanArrives(s: Side)
    ensures ArrivesAs(s, CleanSide(s))
  {
  }

  /** A frame that crosses arrives with its sequence, timestamp, poses and buttons, and with every controller value. */
  lemma FrameArrivesAs(f: Frame)
    requires Encode(f).Some?
    ensures var g := Decode(Encode(f).value);
         && g.sequence == f.sequence && g.timestamp == f.timestamp && g.hmd == f.hmd && g.left == f.left && g.right == f.right
         && g.controller.ready == f.controller.ready
         && ArrivesAs(f.controller.left, g.controller.left) && ArrivesAs(f.controller.right, g.controller.right)
  {
    DecodeEncode(f);
    CleanArrives(f.controller.left);
    CleanArrives(f.controller.right);
    hide Encode, Decode, CleanSide, ArrivesAs, Acceptable;
  }

  // ------------------------------------------------------------------------------------------
  // The streamer.

  /** A snapshot is looked at once; it is passed on and counted as valid exactly when its three poses are seven finite
      numbers each, else counted as invalid. */
  lemma SnapshotOnce(b: Bus, st: Streamer)
    requires b.value.Some?
    ensures var (t, p) := NextPayload(b, st); var f := b.value.value.data;
            if b.value.value.sequence == st.last then t == st && p == None
            else if SevenFinite(f.hmd) && SevenFinite(f.left) && SevenFinite(f.right)
            then p == Some(f) && t == Streamer(b.value.value.sequence, st.valid + 1, st.invalid, st.payloads + [f])
            else p == None && t == Streamer(b.value.value.sequence, st.valid, st.invalid + 1, st.payloads)
  {
  }

  /** Without a snapshot nothing is streamed: clearing hides the last one, and sequences go on. */
  lemma ClearedHides(s: State)
    requires |s.shared.values| == VALUE_COUNT
    ensures var t := Step(s, ClearBus); t.bus.sequence == s.bus.sequence && Step(t, StreamTick) == t
  {
  }

  /** Each monitor reads a shared frame once. */
  lemma ReadsOnce(s: State)
    requires |s.shared.values| == VALUE_COUNT
    ensures Step(Step(s, MonitorRead), MonitorRead) == Step(s, MonitorRead)
    ensures Step(Step(s, StaleRead), StaleRead) == Step(s, StaleRead)
  {
    hide Decode;
  }

  lemma CountStep(s: State, e: Event)
    requires |s.shared.values| == VALUE_COUNT
    ensures var t := Step(s, e); t.streamer.valid - s.streamer.valid == |t.streamer.payloads| - |s.streamer.payloads|
  {
    hide Decode, Encode;
  }

  /** In every run the valid counter moves with the payloads streamed. */
  lemma {:induction false} ValidCounted(s: State, events: seq<Event>)
    requires |s.shared.values| == VALUE_COUNT
    ensures var t := Run(s, events); t.streamer.valid - s.streamer.valid == |t.streamer.payloads| - |s.streamer.payloads|
  {
    if events != [] {
      var n := |events| - 1;
      ValidCounted(s, events[..n]);
      hide Step;
      CountStep(Run(s, events[..n]), events[n]);
    }
  }

  // ------------------------------------------------------------------------------------------
  // One frame all the way.

  lemma Sequenced(f: Frame, n: nat)
    requires Encode(f).Some? && n > 0
    ensures Encode(f.(sequence := n)).Some?
  {
    hide Values;
  }

  lemma UpdatedAndPublished(s: State, sample: Frame)
    requires Inv(s) && |s.shared.values| == VALUE_COUNT && Encode(sample).Some?
    ensures var n := |s.child.made| + 1; var t := Step(Step(s, Update(sample)), Publish);
         && Encode(sample.(sequence := n)).Some?
         && |t.shared.values| == VALUE_COUNT
         && SharedAfter(t.shared, s.monitorLast) == Some(Decode(Encode(sample.(sequence := n)).value))
         && t.monitorLast == s.monitorLast && t.bus == s.bus && t.streamer == s.streamer && t.stale == s.stale
  {
    var n := |s.child.made| + 1;
    Sequenced(sample, n);
    assert s.child.lastVrSeq != Some(n) && s.monitorLast < n;
    hide Inv, Acceptable, Values, Decode, Encode;
    var u := Step(s, Update(sample));
    assert u.child.made == s.child.made + [sample.(sequence := n)] && u.child.lastVrSeq == s.child.lastVrSeq;
    Published(u, n);
  }

  lemma Published(u: State, n: nat)
    requires 0 < n == |u.child.made| && u.child.lastVrSeq != Some(n) && |u.shared.values| == VALUE_COUNT && u.monitorLast < n
    requires u.child.made[n - 1].sequence == n && Encode(u.child.made[n - 1]).Some?
    ensures var t := Step(u, Publish);
         && |t.shared.values| == VALUE_COUNT
         && SharedAfter(t.shared, u.monitorLast) == Some(Decode(Encode(u.child.made[n - 1]).value))
         && t.monitorLast == u.monitorLast && t.bus == u.bus && t.streamer == u.streamer && t.stale == u.stale
  {
    hide Acceptable, Decode, Values;
  }

  /** From every state of a run, a sample whose frame can cross is streamed once the four threads have moved, under the
      next sequence of the child. */
  lemma FrameReachesStream(s: State, sample: Frame)
    requires Inv(s) && |s.shared.values| == VALUE_COUNT && Encode(sample).Some?
    ensures var f := sample.(sequence := |s.child.made| + 1);
            var t := Step(Step(Step(Step(s, Update(sample)), Publish), MonitorRead), StreamTick);
            Encode(f).Some? && t.streamer.payloads == s.streamer.payloads + [Decode(Encode(f).value)]
  {
    var f := sample.(sequence := |s.child.made| + 1);
    UpdatedAndPublished(s, sample);
    var p := Step(Step(s, Update(sample)), Publish);
    var g := Decode(Encode(f).value);
    FrameArrivesAs(f);
    CrossesIff(f);
    assert s.streamer.last <= s.bus.sequence;
    hide Encode, Decode, Inv, ArrivesAs;
    ReadAndStreamed(p, g);
  }

  lemma ReadAndStreamed(p: State, g: Frame)
    requires |p.shared.values| == VALUE_COUNT && SharedAfter(p.shared, p.monitorLast) == Some(g) && p.streamer.last <= p.bus.sequence
    requires SevenFinite(g.hmd) && SevenFinite(g.left) && SevenFinite(g.right)
    ensures Step(Step(p, MonitorRead), StreamTick).streamer.payloads == p.streamer.payloads + [g]
  {
    hide SharedAfter;
    var q := Step(p, MonitorRead);
    SnapshotOnce(q.bus, q.streamer);
    hide NextPayload;
  }
}
