/** Timing metadata in a JPEG APP15 segment: the Python encoder and extractor
    (dexfull/imaging/timestamp_protocol.py) and the Unity parser
    (integrations/unity/TeleimagerTimestampMetadata.cs).  Markers and segments follow ITU-T T.81,
    sections B.1.1.4 and B.2.4.6.  The JSON libraries are parameters. */
module JpegMetadata {
  import opened Wrappers

  newtype byte = x: int | 0 <= x < 256

  type Bytes = seq<byte>

  const SOI: Bytes := [0xFF, 0xD8]
  const APP15: Bytes := [0xFF, 0xEF]

  /** "TELEIMAGER" and a zero byte. */
  const MAGIC: Bytes := [0x54, 0x45, 0x4C, 0x45, 0x49, 0x4D, 0x41, 0x47, 0x45, 0x52, 0x00]

  datatype Metadata = Metadata(protocol: string, version: int, stream: string, sequence: int, captureTimestampMs: int,
                               width: int, height: int, sensorTimestampMs: Option<real>)

  datatype Frame = Frame(jpeg: Bytes, stream: string, sequence: int, captureTimestampMs: int, width: int, height: int,
                         sensorTimestampMs: Option<real>)

  const PROTOCOL := "teleimager-jpeg-v2"

  function MetadataOf(f: Frame): Metadata {
    Metadata(PROTOCOL, 2, f.stream, f.sequence, f.captureTimestampMs, f.width, f.height, f.sensorTimestampMs)
  }

  predicate StartsWith(s: Bytes, prefix: Bytes) { |s| >= |prefix| && s[..|prefix|] == prefix }

  function BigEndian(high: byte, low: byte): nat { high as nat * 256 + low as nat }

  function ToBytes2(n: nat): Bytes
    requires n <= 0xFFFF
  {
    [(n / 256) as byte, (n % 256) as byte]
  }

  // ------------------------------------------------------------------------------------------
  // Segments.

  datatype Segment = Segment(marker: byte, payload: Bytes)

  /** The marker segments of what follows SOI, up to the scan or the first thing that is not a segment. */
  function Segments(s: Bytes): seq<Segment> {
    if |s| < 4 || s[0] != 0xFF then []
    else if s[1] == 0xD8 || s[1] == 0xD9 then Segments(s[2..])
    else if s[1] == 0xDA then []
    else
      var length := BigEndian(s[2], s[3]);
      if length < 2 || 2 + length > |s| then []
      else [Segment(s[1], s[4..2 + length])] + Segments(s[2 + length..])
  }

  predicate IsMetadata(g: Segment) { g.marker == 0xEF && StartsWith(g.payload, MAGIC) }

  /** The JSON text of the first metadata segment. */
  function FirstJson(segments: seq<Segment>): Option<Bytes> {
    if segments == [] then None
    else if IsMetadata(segments[0]) then Some(segments[0].payload[|MAGIC|..])
    else FirstJson(segments[1..])
  }

  /** `extract_timestamp_metadata`; `loads` gives `None` for a text that is no JSON object. */
  function Extracted(loads: Bytes -> Option<Metadata>, jpeg: Bytes): Option<Metadata> {
    if !StartsWith(jpeg, SOI) then None
    else
      match FirstJson(Segments(jpeg[2..]))
      case None => None
      case Some(json) => loads(json)
  }

  datatype EncodeError = NotAJpeg | TooLarge

  /** `encode_timestamped_jpeg`. */
  function Encoded(dumps: Metadata -> Bytes, f: Frame): Result<Bytes, EncodeError> {
    if !StartsWith(f.jpeg, SOI) then Err(NotAJpeg)
    else
      var payload := MAGIC + dumps(MetadataOf(f));
      if |payload| + 2 > 0xFFFF then Err(TooLarge)
      else Ok(f.jpeg[..2] + (APP15 + ToBytes2(|payload| + 2) + payload) + f.jpeg[2..])
  }

  lemma BigEndianToBytes(n: nat)
    requires n <= 0xFFFF
    ensures BigEndian(ToBytes2(n)[0], ToBytes2(n)[1]) == n
  {
  }

  /** A segment put in front is the first segment, followed by exactly the others. */
  lemma SegmentInFront(payload: Bytes, rest: Bytes)
    requires |payload| + 2 <= 0xFFFF
    ensures Segments(APP15 + ToBytes2(|payload| + 2) + payload + rest) == [Segment(0xEF, payload)] + Segments(rest)
  {
    var length := ToBytes2(|payload| + 2);
    var s := APP15 + length + payload + rest;
    BigEndianToBytes(|payload| + 2);
    assert s[0] == 0xFF && s[1] == 0xEF && s[2] == length[0] && s[3] == length[1];
    assert s[4..4 + |payload|] == payload && s[4 + |payload|..] == rest;
  }

  /** The encoded file's segments are one metadata segment and then those of the original, and it still is a
      JPEG file. */
  lemma EncodedSegments(dumps: Metadata -> Bytes, f: Frame)
    requires Encoded(dumps, f).Ok?
    ensures var e := Encoded(dumps, f).value;
         && StartsWith(e, SOI)
         && Segments(e[2..]) == [Segment(0xEF, MAGIC + dumps(MetadataOf(f)))] + Segments(f.jpeg[2..])
  {
    EncodedTail(dumps, f);
    hide Segments, Encoded;
    SegmentInFront(MAGIC + dumps(MetadataOf(f)), f.jpeg[2..]);
  }

  lemma EncodedTail(dumps: Metadata -> Bytes, f: Frame)
    requires Encoded(dumps, f).Ok?
    ensures var e, payload := Encoded(dumps, f).value, MAGIC + dumps(MetadataOf(f));
         && |f.jpeg| >= 2 && StartsWith(e, SOI) && |payload| + 2 <= 0xFFFF
         && e[2..] == APP15 + ToBytes2(|payload| + 2) + payload + f.jpeg[2..]
  {
  }

  lemma MagicInFront(json: Bytes)
    ensures StartsWith(MAGIC + json, MAGIC) && (MAGIC + json)[|MAGIC|..] == json
  {
  }

  /** Extracting gives back what was encoded, also from a file that already held metadata: the newest wins. */
  lemma RoundTrip(dumps: Metadata -> Bytes, loads: Bytes -> Option<Metadata>, f: Frame)
    requires loads(dumps(MetadataOf(f))) == Some(MetadataOf(f)) && Encoded(dumps, f).Ok?
    ensures Extracted(loads, Encoded(dumps, f).value) == Some(MetadataOf(f))
    ensures var m := MetadataOf(f);
         && m.protocol == "teleimager-jpeg-v2" && m.version == 2 && m.stream == f.stream && m.sequence == f.sequence
         && m.captureTimestampMs == f.captureTimestampMs && m.width == f.width && m.height == f.height
         && m.sensorTimestampMs == f.sensorTimestampMs
  {
    EncodedSegments(dumps, f);
    MagicInFront(dumps(MetadataOf(f)));
    hide Segments, Encoded, MAGIC;
  }

  /** Encoding fails exactly on something that is no JPEG and on metadata that does not fit a segment. */
  lemma EncodeFailsIff(dumps: Metadata -> Bytes, f: Frame)
    ensures Encoded(dumps, f) == Err(NotAJpeg) <==> !(|f.jpeg| >= 2 && f.jpeg[0] == 0xFF && f.jpeg[1] == 0xD8)
    ensures Encoded(dumps, f) == Err(TooLarge) <==>
              |f.jpeg| >= 2 && f.jpeg[0] == 0xFF && f.jpeg[1] == 0xD8 && |dumps(MetadataOf(f))| > 0xFFFF - 13
  {
    if |f.jpeg| >= 2 {
      assert f.jpeg[..2] == [f.jpeg[0], f.jpeg[1]];
    }
  }

  /** `encode_timestamped_jpeg`. */
  method EncodeTimestampedJpeg(dumps: Metadata -> Bytes, f: Frame) returns (r: Result<Bytes, EncodeError>)
    ensures r == Encoded(dumps, f)
  {
    if !StartsWith(f.jpeg, SOI) {
      return Err(NotAJpeg);
    }
    var payload := MAGIC + dumps(MetadataOf(f));
    var segmentLength := |payload| + 2;
    if segmentLength > 0xFFFF {
      return Err(TooLarge);
    }
    return Ok(f.jpeg[..2] + (APP15 + ToBytes2(segmentLength) + payload) + f.jpeg[2..]);
  }

  // ------------------------------------------------------------------------------------------
  // Where the metadata is: Python and C#.

  const INT_MAX := 0x7FFF_FFFF

  /** No byte array of the .NET runtime is longer. */
  const MAX_ARRAY := 0x7FFF_FFC7

  /** 32-bit addition of non-negative numbers. */
  function Wrap(x: int): int { if x > INT_MAX then x - 0x1_0000_0000 else x }

  datatype Place = Payload(offset: nat, length: nat) | Nowhere | OutOfRange

  predicate IsJpeg(jpeg: Bytes) { |jpeg| >= 2 && jpeg[0] == 0xFF && jpeg[1] == 0xD8 }

  /** The Python walk from `offset`. */
  function PythonPlace(jpeg: Bytes, offset: nat): Place
    requires offset <= |jpeg|
    decreases |jpeg| - offset
  {
    if offset + 4 > |jpeg| || jpeg[offset] != 0xFF then Nowhere
    else if jpeg[offset + 1] == 0xD8 || jpeg[offset + 1] == 0xD9 then PythonPlace(jpeg, offset + 2)
    else if jpeg[offset + 1] == 0xDA then Nowhere
    else
      var length := BigEndian(jpeg[offset + 2], jpeg[offset + 3]);
      if length < 2 || offset + 2 + length > |jpeg| then Nowhere
      else if jpeg[offset + 1] == 0xEF && StartsWith(jpeg[offset + 4..offset + 2 + length], MAGIC) then Payload(offset + 4, length - 2)
      else PythonPlace(jpeg, offset + 2 + length)
  }

  /** The C# walk from `offset`; reading outside the array raises. */
  function CSharpPlace(jpeg: Bytes, offset: nat): Place
    requires offset <= |jpeg| <= MAX_ARRAY
    decreases |jpeg| - offset
  {
    if offset + 4 > |jpeg| || jpeg[offset] != 0xFF then Nowhere
    else if jpeg[offset + 1] == 0xDA then Nowhere
    else if jpeg[offset + 1] == 0xD8 || jpeg[offset + 1] == 0xD9 then CSharpPlace(jpeg, offset + 2)
    else
      var length := BigEndian(jpeg[offset + 2], jpeg[offset + 3]);
      var end := Wrap(offset + 2 + length);
      if length < 2 || end > |jpeg| then Nowhere
      else if jpeg[offset + 1] == 0xEF && length - 2 >= |MAGIC| && Mismatch(jpeg, offset + 4, 0) == None then OutOfRange
      else if jpeg[offset + 1] == 0xEF && length - 2 >= |MAGIC| && Mismatch(jpeg, offset + 4, 0) == Some(|MAGIC|) then Payload(offset + 4, length - 2)
      else if end < 0 then OutOfRange
      else CSharpPlace(jpeg, end)
  }

  /** `HasMagic` from byte `i` on: the first byte that differs, the magic's length if none does, or `None`
      for a read outside the array. */
  function Mismatch(jpeg: Bytes, offset: nat, i: nat): Option<nat>
    requires i <= |MAGIC|
    decreases |MAGIC| - i
  {
    if i == |MAGIC| then Some(|MAGIC|)
    else if offset + i >= |jpeg| then None
    else if jpeg[offset + i] != MAGIC[i] then Some(i)
    else Mismatch(jpeg, offset, i + 1)
  }

  /** The walk reaches a segment whose end is beyond the 32-bit range. */
  predicate Overflows(jpeg: Bytes, offset: nat)
    requires offset <= |jpeg|
    decreases |jpeg| - offset
  {
    if offset + 4 > |jpeg| || jpeg[offset] != 0xFF || jpeg[offset + 1] == 0xDA then false
    else if jpeg[offset + 1] == 0xD8 || jpeg[offset + 1] == 0xD9 then Overflows(jpeg, offset + 2)
    else
      var length := BigEndian(jpeg[offset + 2], jpeg[offset + 3]);
      if length < 2 then false
      else if offset + 2 + length > INT_MAX then true
      else if offset + 2 + length > |jpeg| then false
      else if jpeg[offset + 1] == 0xEF && StartsWith(jpeg[offset + 4..offset + 2 + length], MAGIC) then false
      else Overflows(jpeg, offset + 2 + length)
  }

  lemma {:induction false} MismatchMeaning(jpeg: Bytes, offset: nat, i: nat)
    requires i <= |MAGIC| && offset + |MAGIC| <= |jpeg|
    ensures Mismatch(jpeg, offset, i).Some?
    ensures Mismatch(jpeg, offset, i) == Some(|MAGIC|) <==> forall k :: i <= k < |MAGIC| ==> jpeg[offset + k] == MAGIC[k]
    decreases |MAGIC| - i
  {
    if i < |MAGIC| {
      MismatchMeaning(jpeg, offset, i + 1);
    }
  }

  lemma MagicMeaning(jpeg: Bytes, offset: nat, length: nat)
    requires offset + length <= |jpeg|
    ensures StartsWith(jpeg[offset..offset + length], MAGIC) <==> length >= |MAGIC| && Mismatch(jpeg, offset, 0) == Some(|MAGIC|)
    ensures length >= |MAGIC| ==> Mismatch(jpeg, offset, 0) != None
  {
    if length >= |MAGIC| {
      MismatchMeaning(jpeg, offset, 0);
      var payload := jpeg[offset..offset + length];
      assert forall k :: 0 <= k < |MAGIC| ==> payload[..|MAGIC|][k] == jpeg[offset + k];
    }
  }

  /** On every array the runtime can hold, both walkers find the same payload exactly when no segment end
      overflows. */
  lemma {:induction false} SamePlaceIff(jpeg: Bytes, offset: nat)
    requires offset <= |jpeg| <= MAX_ARRAY
    ensures CSharpPlace(jpeg, offset) == PythonPlace(jpeg, offset) <==> !Overflows(jpeg, offset)
    decreases |jpeg| - offset
  {
    if offset + 4 <= |jpeg| && jpeg[offset] == 0xFF && jpeg[offset + 1] != 0xDA {
      if jpeg[offset + 1] == 0xD8 || jpeg[offset + 1] == 0xD9 {
        SamePlaceIff(jpeg, offset + 2);
      } else {
        var length := BigEndian(jpeg[offset + 2], jpeg[offset + 3]);
        if length >= 2 && offset + 2 + length <= |jpeg| {
          MagicMeaning(jpeg, offset + 4, length - 2);
          SamePlaceIff(jpeg, offset + 2 + length);
        }
      }
    }
  }

  /** Below this length nothing overflows. */
  lemma {:induction false} ShortNeverOverflows(jpeg: Bytes, offset: nat)
    requires offset <= |jpeg| <= INT_MAX - 0xFFFF
    ensures !Overflows(jpeg, offset)
    decreases |jpeg| - offset
  {
    if offset + 4 <= |jpeg| && jpeg[offset] == 0xFF && jpeg[offset + 1] != 0xDA {
      if jpeg[offset + 1] == 0xD8 || jpeg[offset + 1] == 0xD9 {
        ShortNeverOverflows(jpeg, offset + 2);
      } else {
        var length := BigEndian(jpeg[offset + 2], jpeg[offset + 3]);
        if length >= 2 && offset + 2 + length <= |jpeg| {
          ShortNeverOverflows(jpeg, offset + 2 + length);
        }
      }
    }
  }

  /** A payload that Python finds lies before anything that could overflow. */
  lemma {:induction false} FoundNeverOverflows(jpeg: Bytes, offset: nat)
    requires offset <= |jpeg| <= MAX_ARRAY && PythonPlace(jpeg, offset).Payload?
    ensures !Overflows(jpeg, offset)
    decreases |jpeg| - offset
  {
    if jpeg[offset + 1] == 0xD8 || jpeg[offset + 1] == 0xD9 {
      FoundNeverOverflows(jpeg, offset + 2);
    } else {
      var length := BigEndian(jpeg[offset + 2], jpeg[offset + 3]);
      if !(jpeg[offset + 1] == 0xEF && StartsWith(jpeg[offset + 4..offset + 2 + length], MAGIC)) {
        FoundNeverOverflows(jpeg, offset + 2 + length);
      }
    }
  }

  /** The longest array of the runtime: SOI markers, and five bytes before its end a segment that claims
      65535 bytes. */
  function Overlong(): (r: Bytes)
    ensures |r| == MAX_ARRAY
  {
    seq(MAX_ARRAY, i => if i < MAX_ARRAY - 5 then (if i % 2 == 0 then 0xFF else 0xD8) else if i == MAX_ARRAY - 4 then 0xE0 else 0xFF)
  }

  lemma {:induction false} OverlongOverflows(offset: nat)
    requires offset % 2 == 0 && 2 <= offset <= MAX_ARRAY - 5
    ensures Overflows(Overlong(), offset) && PythonPlace(Overlong(), offset) == Nowhere && CSharpPlace(Overlong(), offset) == OutOfRange
    decreases MAX_ARRAY - offset
  {
    var jpeg := Overlong();
    assert jpeg[offset] == 0xFF;
    if offset < MAX_ARRAY - 5 {
      assert offset + 1 < MAX_ARRAY - 5 && jpeg[offset + 1] == 0xD8;
      OverlongOverflows(offset + 2);
    } else {
      assert jpeg[offset + 1] == 0xE0 && BigEndian(jpeg[offset + 2], jpeg[offset + 3]) == 0xFFFF;
    }
  }

  /** The parsers do disagree: on this file Python finds nothing and C# raises. */
  lemma ParsersDisagree()
    ensures IsJpeg(Overlong()) && |Overlong()| == MAX_ARRAY
    ensures PythonPlace(Overlong(), 2) == Nowhere && CSharpPlace(Overlong(), 2) == OutOfRange
  {
    OverlongOverflows(2);
  }

  /** One step of the walk over segments, in terms of offsets. */
  lemma SegmentsAt(jpeg: Bytes, offset: nat)
    requires offset + 4 <= |jpeg| && jpeg[offset] == 0xFF
    ensures var marker, length := jpeg[offset + 1], BigEndian(jpeg[offset + 2], jpeg[offset + 3]);
         && (marker == 0xD8 || marker == 0xD9 ==> Segments(jpeg[offset..]) == Segments(jpeg[offset + 2..]))
         && (marker == 0xDA ==> Segments(jpeg[offset..]) == [])
         && (marker != 0xD8 && marker != 0xD9 && marker != 0xDA ==>
               Segments(jpeg[offset..]) ==
                 if length < 2 || offset + 2 + length > |jpeg| then []
                 else [Segment(marker, jpeg[offset + 4..offset + 2 + length])] + Segments(jpeg[offset + 2 + length..]))
  {
    var s, length := jpeg[offset..], BigEndian(jpeg[offset + 2], jpeg[offset + 3]);
    SegmentsFirst(s);
    hide Segments, BigEndian;
    assert s[1] == jpeg[offset + 1] && s[2] == jpeg[offset + 2] && s[3] == jpeg[offset + 3];
    DropOfDrop(jpeg, offset, 2);
    if length >= 2 && offset + 2 + length <= |jpeg| {
      SliceOfDrop(jpeg, offset, 4, 2 + length);
      DropOfDrop(jpeg, offset, 2 + length);
    }
  }

  lemma DropOfDrop(s: Bytes, i: nat, j: nat)
    requires i + j <= |s|
    ensures s[i..][j..] == s[i + j..]
  {
  }

  lemma SliceOfDrop(s: Bytes, i: nat, j: nat, k: nat)
    requires j <= k && i + k <= |s|
    ensures s[i..][j..k] == s[i + j..i + k]
  {
  }

  lemma SegmentsFirst(s: Bytes)
    requires |s| >= 4 && s[0] == 0xFF
    ensures var marker, length := s[1], BigEndian(s[2], s[3]);
         && (marker == 0xD8 || marker == 0xD9 ==> Segments(s) == Segments(s[2..]))
         && (marker == 0xDA ==> Segments(s) == [])
         && (marker != 0xD8 && marker != 0xD9 && marker != 0xDA ==>
               Segments(s) ==
                 if length < 2 || 2 + length > |s| then [] else [Segment(marker, s[4..2 + length])] + Segments(s[2 + length..]))
  {
  }

  lemma SegmentsEnd(jpeg: Bytes, offset: nat)
    requires offset <= |jpeg| && (offset + 4 > |jpeg| || jpeg[offset] != 0xFF)
    ensures Segments(jpeg[offset..]) == []
  {
  }

  lemma FirstJsonOf(g: Segment, rest: seq<Segment>)
    ensures FirstJson([g] + rest) == if IsMetadata(g) then Some(g.payload[|MAGIC|..]) else FirstJson(rest)
    ensures FirstJson([]) == None
  {
  }

  lemma TextOfPayload(jpeg: Bytes, offset: nat, length: nat)
    requires length >= 2 && offset + 2 + length <= |jpeg| && StartsWith(jpeg[offset + 4..offset + 2 + length], MAGIC)
    ensures |MAGIC| <= length - 2
    ensures TextAt(jpeg, Payload(offset + 4, length - 2)) == Some(jpeg[offset + 4..offset + 2 + length][|MAGIC|..])
  {
  }

  /** The text at a place. */
  function TextAt(jpeg: Bytes, p: Place): Option<Bytes> {
    if p.Payload? && |MAGIC| <= p.length && p.offset + p.length <= |jpeg|
    then Some(jpeg[p.offset + |MAGIC|..p.offset + p.length])
    else None
  }

  /** The place is that of the first metadata segment. */
  lemma {:induction false} PlaceIsFirstJson(jpeg: Bytes, offset: nat)
    requires offset <= |jpeg|
    ensures var p := PythonPlace(jpeg, offset);
         && p != OutOfRange && (p.Payload? ==> TextAt(jpeg, p).Some?)
         && FirstJson(Segments(jpeg[offset..])) == TextAt(jpeg, p)
    decreases |jpeg| - offset
  {
    hide Segments, FirstJson, BigEndian, StartsWith, TextAt, MAGIC;
    NoText(jpeg);
    FirstJsonOf(Segment(0, []), []);
    if offset + 4 > |jpeg| || jpeg[offset] != 0xFF {
      SegmentsEnd(jpeg, offset);
    } else {
      SegmentsAt(jpeg, offset);
      var marker, length := jpeg[offset + 1], BigEndian(jpeg[offset + 2], jpeg[offset + 3]);
      if marker == 0xD8 || marker == 0xD9 {
        PlaceIsFirstJson(jpeg, offset + 2);
      } else if marker != 0xDA && length >= 2 && offset + 2 + length <= |jpeg| {
        var payload := jpeg[offset + 4..offset + 2 + length];
        PlaceIsFirstJson(jpeg, offset + 2 + length);
        FirstJsonOf(Segment(marker, payload), Segments(jpeg[offset + 2 + length..]));
        if StartsWith(payload, MAGIC) {
          TextOfPayload(jpeg, offset, length);
        }
      }
    }
  }

  lemma NoText(jpeg: Bytes)
    ensures TextAt(jpeg, Nowhere) == None
  {
  }

  /** The loop of `extract_timestamp_metadata`: it stays in bounds and ends on every byte string. */
  method WalkSegments(jpeg: Bytes) returns (p: Place)
    requires |jpeg| >= 2
    ensures p == PythonPlace(jpeg, 2)
  {
    hide StartsWith, BigEndian, MAGIC;
    var offset, size := 2, |jpeg|;
    while offset + 4 <= size && jpeg[offset] == 0xFF
      invariant 2 <= offset <= size
      invariant PythonPlace(jpeg, 2) == PythonPlace(jpeg, offset)
      decreases size - offset
    {
      var marker := jpeg[offset + 1];
      if marker == 0xD8 || marker == 0xD9 {
        offset := offset + 2;
        continue;
      }
      if marker == 0xDA {
        break;
      }
      var segmentLength := BigEndian(jpeg[offset + 2], jpeg[offset + 3]);
      if segmentLength < 2 || offset + 2 + segmentLength > size {
        break;
      }
      if marker == 0xEF {
        var payload := jpeg[offset + 4..offset + 2 + segmentLength];
        if StartsWith(payload, MAGIC) {
          return Payload(offset + 4, segmentLength - 2);
        }
      }
      offset := offset + (2 + segmentLength);
    }
    return Nowhere;
  }

  /** `extract_timestamp_metadata`. */
  method ExtractTimestampMetadata(loads: Bytes -> Option<Metadata>, jpeg: Bytes) returns (r: Option<Metadata>)
    ensures r == Extracted(loads, jpeg)
  {
    if !StartsWith(jpeg, SOI) {
      return None;
    }
    var p := WalkSegments(jpeg);
    PlaceIsFirstJson(jpeg, 2);
    hide Segments, FirstJson, PythonPlace;
    NoText(jpeg);
    if p.Payload? {
      return loads(jpeg[p.offset + |MAGIC|..p.offset + p.length]);
    }
    return None;
  }

  // ------------------------------------------------------------------------------------------
  // `TryParse`.

  datatype Parsed = Accepted(metadata: Metadata) | Rejected | Raised

  /** What `TryParse` does with the JSON it found; `fromJson` gives `None` for null and for exceptions. */
  function Judge(fromJson: Bytes -> Option<Metadata>, jpeg: Bytes, p: Place): Parsed {
    match p
    case OutOfRange => Raised
    case Nowhere => Rejected
    case Payload(_, _) =>
      match TextAt(jpeg, p)
      case None => Rejected
      case Some(json) =>
        match fromJson(json)
        case None => Rejected
        case Some(m) => if m.protocol == PROTOCOL && m.captureTimestampMs > 0 then Accepted(m) else Rejected
  }

  /** A frame encoded in Python is accepted in Unity, with the same metadata, exactly when its capture time
      is positive. */
  lemma UnityAcceptsIff(dumps: Metadata -> Bytes, fromJson: Bytes -> Option<Metadata>, f: Frame)
    requires fromJson(dumps(MetadataOf(f))) == Some(MetadataOf(f)) && Encoded(dumps, f).Ok?
    requires |Encoded(dumps, f).value| <= MAX_ARRAY
    ensures var e := Encoded(dumps, f).value;
            Judge(fromJson, e, CSharpPlace(e, 2)) == if f.captureTimestampMs > 0 then Accepted(MetadataOf(f)) else Rejected
  {
    var e := Encoded(dumps, f).value;
    RoundTrip(dumps, fromJson, f);
    EncodedSegments(dumps, f);
    PlaceIsFirstJson(e, 2);
    SamePlaceIff(e, 2);
    hide Segments, CSharpPlace, PythonPlace, Overflows, Encoded;
    MagicInFront(dumps(MetadataOf(f)));
    FoundNeverOverflows(e, 2);
  }

  lemma {:induction false} MagicFound(jpeg: Bytes, offset: nat, i: nat)
    requires i <= |MAGIC| && Mismatch(jpeg, offset, i) == Some(|MAGIC|) && offset + i <= |jpeg|
    ensures offset + |MAGIC| <= |jpeg| && jpeg[offset + i..offset + |MAGIC|] == MAGIC[i..]
    decreases |MAGIC| - i
  {
    hide MAGIC;
    if i < |MAGIC| {
      MagicFound(jpeg, offset, i + 1);
      assert jpeg[offset + i..offset + |MAGIC|] == [jpeg[offset + i]] + jpeg[offset + i + 1..offset + |MAGIC|];
      assert MAGIC[i..] == [MAGIC[i]] + MAGIC[i + 1..];
    }
  }

  /** An APP15 segment that starts with the magic, as far as it lies in the file. */
  predicate MetadataAt(jpeg: Bytes, p: Place)
    requires p.Payload?
  {
    && 4 <= p.offset <= p.offset + |MAGIC| <= |jpeg| && |MAGIC| <= p.length && jpeg[p.offset - 3] == 0xEF
    && jpeg[p.offset..p.offset + |MAGIC|] == MAGIC
  }

  lemma {:induction false} PayloadIsMetadata(jpeg: Bytes, offset: nat)
    requires offset <= |jpeg| <= MAX_ARRAY && CSharpPlace(jpeg, offset).Payload?
    ensures MetadataAt(jpeg, CSharpPlace(jpeg, offset))
    decreases |jpeg| - offset
  {
    hide MAGIC, Mismatch, MetadataAt;
    if jpeg[offset + 1] == 0xD8 || jpeg[offset + 1] == 0xD9 {
      PayloadIsMetadata(jpeg, offset + 2);
    } else {
      var length := BigEndian(jpeg[offset + 2], jpeg[offset + 3]);
      if jpeg[offset + 1] == 0xEF && length - 2 >= |MAGIC| && Mismatch(jpeg, offset + 4, 0) == Some(|MAGIC|) {
        FoundIsMetadata(jpeg, offset, length - 2);
      } else {
        PayloadIsMetadata(jpeg, Wrap(offset + 2 + length));
      }
    }
  }

  lemma FoundIsMetadata(jpeg: Bytes, offset: nat, length: nat)
    requires offset + 4 <= |jpeg| && jpeg[offset + 1] == 0xEF && length >= |MAGIC| && Mismatch(jpeg, offset + 4, 0) == Some(|MAGIC|)
    ensures MetadataAt(jpeg, Payload(offset + 4, length))
  {
    MagicFound(jpeg, offset + 4, 0);
    hide MAGIC, Mismatch;
    assert MAGIC[0..] == MAGIC;
  }

  /** Whatever the file: Unity accepts nothing but metadata of this protocol with a positive capture time, parsed
      from the text behind the magic of an APP15 segment. */
  lemma AcceptsOnlyProtocol(fromJson: Bytes -> Option<Metadata>, jpeg: Bytes, p: Place, m: Metadata)
    requires 2 <= |jpeg| <= MAX_ARRAY && p == CSharpPlace(jpeg, 2) && Judge(fromJson, jpeg, p) == Accepted(m)
    ensures m.protocol == PROTOCOL && m.captureTimestampMs > 0
    ensures p.Payload? && MetadataAt(jpeg, p) && |MAGIC| <= p.length && p.offset + p.length <= |jpeg|
    ensures fromJson(jpeg[p.offset + |MAGIC|..p.offset + p.length]) == Some(m)
  {
    hide CSharpPlace, Judge, MetadataAt, MAGIC, PROTOCOL;
    JudgedAccepted(fromJson, jpeg, p, m);
    PayloadIsMetadata(jpeg, 2);
  }

  lemma JudgedAccepted(fromJson: Bytes -> Option<Metadata>, jpeg: Bytes, p: Place, m: Metadata)
    requires Judge(fromJson, jpeg, p) == Accepted(m)
    ensures m.protocol == PROTOCOL && m.captureTimestampMs > 0
    ensures p.Payload? && |MAGIC| <= p.length && p.offset + p.length <= |jpeg|
    ensures fromJson(jpeg[p.offset + |MAGIC|..p.offset + p.length]) == Some(m)
  {
    hide MAGIC, PROTOCOL;
  }

  method HasMagic(data: Bytes, offset: nat, length: nat) returns (r: Option<bool>)
    requires |data| <= MAX_ARRAY
    ensures r == if length < |MAGIC| then Some(false)
                 else if Mismatch(data, offset, 0) == None then None
                 else Some(Mismatch(data, offset, 0) == Some(|MAGIC|))
  {
    if length < |MAGIC| {
      return Some(false);
    }
    for i := 0 to |MAGIC|
      invariant Mismatch(data, offset, 0) == Mismatch(data, offset, i)
    {
      if offset + i >= |data| {
        return None;
      }
      if data[offset + i] != MAGIC[i] {
        return Some(false);
      }
    }
    return Some(true);
  }

  /** `TryParse`, with 32-bit offsets. */
  method TryParse(fromJson: Bytes -> Option<Metadata>, jpeg: Bytes) returns (r: Parsed)
    requires |jpeg| <= MAX_ARRAY
    ensures r == if IsJpeg(jpeg) then Judge(fromJson, jpeg, CSharpPlace(jpeg, 2)) else Rejected
  {
    if |jpeg| < 6 || jpeg[0] != 0xFF || jpeg[1] != 0xD8 {
      return Rejected;
    }
    var offset: int := 2;
    while offset < 0 || (offset + 4 <= |jpeg| && jpeg[offset] == 0xFF)
      invariant offset <= |jpeg|
      invariant CSharpPlace(jpeg, 2) == if offset < 0 then OutOfRange else CSharpPlace(jpeg, offset)
      decreases if offset < 0 then 0 else |jpeg| - offset + 1
    {
      if offset < 0 {
        return Raised;
      }
      var marker := jpeg[offset + 1];
      if marker == 0xDA {
        break;
      }
      if marker == 0xD8 || marker == 0xD9 {
        offset := offset + 2;
        continue;
      }
      var segmentLength := BigEndian(jpeg[offset + 2], jpeg[offset + 3]);
      var segmentEnd := Wrap(offset + 2 + segmentLength);
      if segmentLength < 2 || segmentEnd > |jpeg| {
        return Rejected;
      }
      if marker == 0xEF {
        var magic := HasMagic(jpeg, offset + 4, segmentLength - 2);
        if magic == None {
          return Raised;
        }
        if magic == Some(true) {
          return Judge(fromJson, jpeg, Payload(offset + 4, segmentLength - 2));
        }
      }
      offset := segmentEnd;
    }
    return Rejected;
  }
}
