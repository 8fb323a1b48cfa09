/** The fixed 40-value layout in which a VR frame crosses the process boundary
    (dexfull/control/process_channel.py).  A field that is absent from a dictionary is its default here. */
module VrCodec {
  import opened Wrappers

  /** A Python float. */
  datatype Num = Finite(v: real) | NonFinite

  datatype Side = Side(trigger: bool, squeeze: bool, aButton: bool, bButton: bool, thumbstick: bool,
                       triggerValue: Num, squeezeValue: Num, thumbstickValue: seq<Num>)

  datatype Controller = Controller(ready: bool, left: Side, right: Side)

  datatype Frame = Frame(sequence: int, timestamp: Num, hmd: seq<Num>, left: seq<Num>, right: seq<Num>, controller: Controller)

  datatype Encoded = Encoded(sequence: nat, timestamp: real, values: seq<real>)

  const VALUE_COUNT := 40

  predicate ValidPose(p: seq<Num>) { |p| == 7 && forall i :: 0 <= i < 7 ==> p[i].Finite? }

  function Clean(x: Num): real { if x.Finite? then x.v else 0.0 }

  function Floats(p: seq<Num>): (r: seq<real>)
    ensures |r| == |p|
  {
    seq(|p|, i requires 0 <= i < |p| => Clean(p[i]))
  }

  function Flag(b: bool): real { if b then 1.0 else 0.0 }

  function Axis(t: seq<Num>, i: nat): real { if i < |t| then Clean(t[i]) else 0.0 }

  function SideValues(s: Side): (r: seq<real>)
    ensures |r| == 9
  {
    [Flag(s.trigger), Flag(s.squeeze), Flag(s.aButton), Flag(s.bButton), Flag(s.thumbstick),
     Clean(s.triggerValue), Clean(s.squeezeValue), Axis(s.thumbstickValue, 0), Axis(s.thumbstickValue, 1)]
  }

  /** The frames `_encode` accepts. */
  predicate Acceptable(f: Frame) {
    f.sequence > 0 && f.timestamp.Finite? && ValidPose(f.hmd) && ValidPose(f.left) && ValidPose(f.right)
  }

  function Values(f: Frame): (r: seq<real>)
    requires Acceptable(f)
    ensures |r| == VALUE_COUNT
  {
    Floats(f.hmd) + Floats(f.left) + Floats(f.right) + [Flag(f.controller.ready)]
      + SideValues(f.controller.left) + SideValues(f.controller.right)
  }

  function Encode(f: Frame): (r: Option<Encoded>)
    ensures r.Some? <==> Acceptable(f)
    ensures r.Some? ==> r.value.sequence == f.sequence && |r.value.values| == VALUE_COUNT
  {
    if Acceptable(f) then Some(Encoded(f.sequence, f.timestamp.v, Values(f))) else None
  }

  function Nums(values: seq<real>): (r: seq<Num>)
    ensures |r| == |values|
  {
    seq(|values|, i requires 0 <= i < |values| => Finite(values[i]))
  }

  function DecodeSide(v: seq<real>): Side
    requires |v| == 9
  {
    Side(v[0] != 0.0, v[1] != 0.0, v[2] != 0.0, v[3] != 0.0, v[4] != 0.0, Finite(v[5]), Finite(v[6]), [Finite(v[7]), Finite(v[8])])
  }

  function Decode(e: Encoded): Frame
    requires |e.values| == VALUE_COUNT
  {
    var v := e.values;
    Frame(e.sequence, Finite(e.timestamp), Nums(v[..7]), Nums(v[7..14]), Nums(v[14..21]),
          Controller(v[21] != 0.0, DecodeSide(v[22..31]), DecodeSide(v[31..40])))
  }

  // ------------------------------------------------------------------------------------------
  // Round trips.

  function CleanSide(s: Side): Side {
    s.(triggerValue := Finite(Clean(s.triggerValue)), squeezeValue := Finite(Clean(s.squeezeValue)),
       thumbstickValue := [Finite(Axis(s.thumbstickValue, 0)), Finite(Axis(s.thumbstickValue, 1))])
  }

  /** What survives the boundary: everything, except that non-finite controller values become 0 and the
      thumbstick has exactly two axes. */
  function CleanFrame(f: Frame): Frame {
    f.(controller := Controller(f.controller.ready, CleanSide(f.controller.left), CleanSide(f.controller.right)))
  }

  lemma Layout(f: Frame)
    requires Acceptable(f)
    ensures var v := Values(f);
         && v[..7] == Floats(f.hmd) && v[7..14] == Floats(f.left) && v[14..21] == Floats(f.right)
         && v[21] == Flag(f.controller.ready)
         && v[22..31] == SideValues(f.controller.left) && v[31..40] == SideValues(f.controller.right)
  {
    hide SideValues, Floats, Flag;
  }

  lemma NumsFloats(p: seq<Num>)
    requires ValidPose(p)
    ensures Nums(Floats(p)) == p
  {
    forall i | 0 <= i < 7
      ensures Nums(Floats(p))[i] == p[i]
    {
    }
  }

  /** Decoding what was encoded gives the clean frame back. */
  lemma DecodeEncode(f: Frame)
    requires Acceptable(f)
    ensures Decode(Encode(f).value) == CleanFrame(f)
    ensures Decode(Encode(f).value) == f <==> (CleanSide(f.controller.left) == f.controller.left && CleanSide(f.controller.right) == f.controller.right)
  {
    Layout(f);
    NumsFloats(f.hmd);
    NumsFloats(f.left);
    NumsFloats(f.right);
    SideRoundTrip(f.controller.left);
    SideRoundTrip(f.controller.right);
    hide SideValues, Floats, Nums, DecodeSide, CleanSide, Values;
  }

  lemma SideRoundTrip(s: Side)
    ensures DecodeSide(SideValues(s)) == CleanSide(s)
    ensures SideValues(CleanSide(s)) == SideValues(s)
  {
  }

  /** A decoded frame is accepted again and gives the same 40 values. */
  lemma EncodeDecode(f: Frame)
    requires Acceptable(f)
    ensures Encode(Decode(Encode(f).value)) == Encode(f)
  {
    DecodeEncode(f);
    SideRoundTrip(f.controller.left);
    SideRoundTrip(f.controller.right);
    hide SideValues, Floats, CleanSide, Decode;
  }

  // ------------------------------------------------------------------------------------------
  // The loops.

  method PoseFloats(p: seq<Num>) returns (r: Option<seq<real>>)
    ensures r == if ValidPose(p) then Some(Floats(p)) else None
  {
    var finite, floats := true, [];
    for i := 0 to |p|
      invariant finite <==> forall k :: 0 <= k < i ==> p[k].Finite?
      invariant floats == Floats(p[..i])
    {
      finite := finite && p[i].Finite?;
      floats := floats + [Clean(p[i])];
    }
    assert p[..|p|] == p;
    return if |floats| != 7 || !finite then None else Some(floats);
  }

  method EncodeSide(s: Side) returns (values: seq<real>)
    ensures values == SideValues(s)
  {
    values := [];
    var flags := [s.trigger, s.squeeze, s.aButton, s.bButton, s.thumbstick];
    for i := 0 to 5
      invariant values == seq(i, k requires 0 <= k < i => Flag(flags[k]))
    {
      values := values + [Flag(flags[i])];
    }
    values := values + [Clean(s.triggerValue)] + [Clean(s.squeezeValue)];
    for i := 0 to 2
      invariant values == SideValues(s)[..7 + i]
    {
      values := values + [Axis(s.thumbstickValue, i)];
    }
  }

  /** `_encode`. */
  method EncodeFrame(f: Frame) returns (r: Option<Encoded>)
    ensures r == Encode(f)
  {
    if f.sequence <= 0 || f.timestamp == NonFinite {
      return None;
    }
    var poses := [f.hmd, f.left, f.right];
    var values: seq<real> := [];
    for i := 0 to 3
      invariant forall k :: 0 <= k < i ==> ValidPose(poses[k])
      invariant values == Joined(poses[..i])
    {
      var pose := PoseFloats(poses[i]);
      if pose.None? {
        assert !ValidPose(poses[i]);
        return None;
      }
      values := values + pose.value;
      assert poses[..i + 1][..i] == poses[..i];
    }
    JoinedThree(poses[..3]);
    values := values + [Flag(f.controller.ready)];
    var left := EncodeSide(f.controller.left);
    var right := EncodeSide(f.controller.right);
    values := values + left + right;
    return Some(Encoded(f.sequence, f.timestamp.v, values));
  }

  function Joined(poses: seq<seq<Num>>): seq<real> {
    if poses == [] then []
    else Joined(poses[..|poses| - 1]) + Floats(poses[|poses| - 1])
  }

  lemma JoinedThree(poses: seq<seq<Num>>)
    requires |poses| == 3
    ensures Joined(poses) == Floats(poses[0]) + Floats(poses[1]) + Floats(poses[2])
  {
    assert Joined(poses[..2]) == Joined(poses[..1]) + Floats(poses[1]) by {
      assert poses[..2][..1] == poses[..1];
    }
    assert Joined(poses[..1]) == Joined([]) + Floats(poses[0]) by {
      assert poses[..1][..0] == [];
    }
  }

  /** `_decode`: an offset moves over the values. */
  method DecodeFrame(e: Encoded) returns (f: Frame)
    requires |e.values| == VALUE_COUNT
    ensures f == Decode(e)
  {
    hide Nums, DecodeSide;
    var v, offset := e.values, 0;
    var poses: seq<seq<Num>> := [];
    for i := 0 to 3
      invariant offset == 7 * i && |poses| == i
      invariant forall k :: 0 <= k < i ==> poses[k] == Nums(v[7 * k..7 * k + 7])
    {
      poses := poses + [Nums(v[offset..offset + 7])];
      offset := offset + 7;
    }
    var ready := v[offset] != 0.0;
    offset := offset + 1;
    var sides: seq<Side> := [];
    for i := 0 to 2
      invariant offset == 22 + 9 * i && |sides| == i
      invariant forall k :: 0 <= k < i ==> sides[k] == DecodeSide(v[22 + 9 * k..31 + 9 * k])
    {
      sides := sides + [DecodeSide(v[offset..offset + 9])];
      offset := offset + 9;
    }
    assert poses[0] == Nums(v[7 * 0..7 * 0 + 7]) && v[0..7] == v[..7];
    f := Frame(e.sequence, Finite(e.timestamp), poses[0], poses[1], poses[2], Controller(ready, sides[0], sides[1]));
  }
}
