/** The triple ring buffer between one writer and one reader (dexfull/imaging/image_client.py).  `write` runs
    under the lock; `read` picks its slot under the lock and fetches the data after releasing it. */
module TripleRing {
  import opened Wrappers

  /** The writer is inside `write` unless `Outside`; it holds the lock from `Held` to the end. */
  datatype WriterPc<D> = Outside | Held(data: D) | Stored(data: D) | Marked(data: D) | Advanced(data: D)

  /** `Fetching` is after the lock and before the data is fetched. */
  datatype ReaderPc = Away | Fetching

  /** `written` are the completed writes. `pinned` is how many there were at the reader's last visit to the
      lock, `pins` the same for every finished read, and `results` what those reads returned. */
  datatype State<D> = State(buffer: seq<Option<D>>, writeIndex: int, latestIndex: int, readIndex: int,
                            writer: WriterPc<D>, reader: ReaderPc,
                            written: seq<D>, pinned: nat, pins: seq<nat>, results: seq<Option<D>>)

  function Initial<D>(): State<D> {
    State([None, None, None], 0, -1, -1, Outside, Away, [], 0, [], [])
  }

  datatype Event<D> = Acquire(data: D) | Store | Mark | Advance | SkipAndRelease | Pick | Fetch

  predicate ValidIndex(i: int) { 0 <= i < 3 }

  function Step<D>(s: State<D>, e: Event<D>): (r: State<D>)
    requires |s.buffer| == 3
    ensures |r.buffer| == 3
  {
    match e
    case Acquire(data) => if s.writer.Outside? then s.(writer := Held(data)) else s
    case Store =>
      if s.writer.Held? && ValidIndex(s.writeIndex)
      then s.(buffer := s.buffer[s.writeIndex := Some(s.writer.data)], writer := Stored(s.writer.data)) else s
    case Mark => if s.writer.Stored? then s.(latestIndex := s.writeIndex, writer := Marked(s.writer.data)) else s
    case Advance => if s.writer.Marked? then s.(writeIndex := (s.writeIndex + 1) % 3, writer := Advanced(s.writer.data)) else s
    case SkipAndRelease =>
      if s.writer.Advanced?
      then s.(writeIndex := if s.writeIndex == s.readIndex then (s.writeIndex + 1) % 3 else s.writeIndex,
              writer := Outside, written := s.written + [s.writer.data])
      else s
    case Pick =>
      if s.reader != Away || !s.writer.Outside? then s
      else if s.latestIndex == -1 then s.(pinned := |s.written|, pins := s.pins + [|s.written|], results := s.results + [None])
      else s.(readIndex := s.latestIndex, pinned := |s.written|, reader := Fetching)
    case Fetch =>
      if s.reader == Fetching && ValidIndex(s.readIndex)
      then s.(reader := Away, pins := s.pins + [s.pinned], results := s.results + [s.buffer[s.readIndex]])
      else s
  }

  function Run<D>(s: State<D>, events: seq<Event<D>>): (r: State<D>)
    requires |s.buffer| == 3
    ensures |r.buffer| == 3
  {
    if events == [] then s
    else Step(Run(s, events[..|events| - 1]), events[|events| - 1])
  }

  // ------------------------------------------------------------------------------------------
  // What every interleaving keeps.

  /** The slots: whatever the writer may overwrite is neither the latest nor the one being read. */
  ghost predicate Slots<D>(s: State<D>) {
    && |s.buffer| == 3 && ValidIndex(s.writeIndex) && -1 <= s.latestIndex < 3 && -1 <= s.readIndex < 3
    && (s.writer.Outside? || s.writer.Held? || s.writer.Stored? ==> s.writeIndex != s.readIndex && s.writeIndex != s.latestIndex)
    && (s.writer.Marked? ==> s.writeIndex == s.latestIndex && s.writeIndex != s.readIndex)
    && (s.writer.Advanced? ==> s.writeIndex == (s.latestIndex + 1) % 3 && s.latestIndex != -1 && s.latestIndex != s.readIndex)
    && (s.latestIndex == -1 ==> s.written == [])
    && (s.latestIndex != -1 && (s.writer.Outside? || s.writer.Held? || s.writer.Stored?) ==> s.written != [])
  }

  ghost predicate Contents<D>(s: State<D>)
    requires Slots(s)
  {
    && (s.writer.Outside? || s.writer.Held? || s.writer.Stored? ==>
          s.written != [] ==> s.latestIndex != -1 && s.buffer[s.latestIndex] == Some(s.written[|s.written| - 1]))
    && (s.writer.Stored? ==> s.buffer[s.writeIndex] == Some(s.writer.data))
    && (s.writer.Marked? || s.writer.Advanced? ==> s.buffer[s.latestIndex] == Some(s.writer.data))
    && (s.reader == Fetching ==> s.readIndex != -1)
    && (s.readIndex != -1 ==> 0 < s.pinned <= |s.written| && s.buffer[s.readIndex] == Some(s.written[s.pinned - 1]))
    && s.pinned <= |s.written|
  }

  ghost predicate Log<D>(s: State<D>) {
    && |s.pins| == |s.results|
    && (forall i :: 0 <= i < |s.pins| ==> s.pins[i] <= s.pinned)
    && (forall i, j :: 0 <= i < j < |s.pins| ==> s.pins[i] <= s.pins[j])
    && s.pinned <= |s.written|
    && forall i :: 0 <= i < |s.pins| ==> s.results[i] == ValueAt(s.written, s.pins[i])
  }

  /** The latest value after `n` writes. */
  function ValueAt<D>(written: seq<D>, n: nat): Option<D> {
    if 0 < n <= |written| then Some(written[n - 1]) else None
  }

  ghost predicate Inv<D>(s: State<D>) { Slots(s) && Contents(s) && Log(s) }

  lemma StepKeeps<D>(s: State<D>, e: Event<D>)
    requires Inv(s)
    ensures Inv(Step(s, e))
  {
    SlotsKept(s, e);
    ContentsKept(s, e);
    LogKept(s, e);
    hide *;
  }

  lemma SlotsKept<D>(s: State<D>, e: Event<D>)
    requires Slots(s) && Contents(s)
    ensures Slots(Step(s, e))
  {
  }

  lemma ContentsKept<D>(s: State<D>, e: Event<D>)
    requires Slots(s) && Contents(s)
    ensures Slots(Step(s, e)) && Contents(Step(s, e))
  {
    SlotsKept(s, e);
  }

  lemma LogKept<D>(s: State<D>, e: Event<D>)
    requires Slots(s) && Contents(s) && Log(s)
    ensures |s.buffer| == 3 && Log(Step(s, e))
  {
  }

  lemma {:induction false} RunKeeps<D>(s: State<D>, events: seq<Event<D>>)
    requires |s.buffer| == 3 && Inv(s)
    ensures Inv(Run(s, events))
  {
    hide Inv, Step;
    if events != [] {
      var n := |events| - 1;
      RunKeeps(s, events[..n]);
      StepKeeps(Run(s, events[..n]), events[n]);
    }
  }

  lemma InitialKeeps<D>()
    ensures Inv(Initial<D>())
  {
  }

  /** In every interleaving each read returns the value that was latest when it held the lock, however many
      writes happened before its unlocked fetch, and `None` exactly before the first write; reads never go
      back in time. */
  lemma ReadsAreLatest<D>(events: seq<Event<D>>)
    ensures var s := Run(Initial(), events);
         && |s.pins| == |s.results|
         && (forall i :: 0 <= i < |s.results| ==> s.results[i] == ValueAt(s.written, s.pins[i]))
         && (forall i :: 0 <= i < |s.results| ==> s.pins[i] <= |s.written|)
         && (forall i :: 0 <= i < |s.results| ==> (s.results[i] == None <==> s.pins[i] == 0))
         && (forall i, j :: 0 <= i < j < |s.pins| ==> s.pins[i] <= s.pins[j])
  {
    InitialKeeps<D>();
    RunKeeps(Initial(), events);
    hide Slots, Contents, Run;
  }

  /** A fetch in progress will return the pinned value no matter which writer steps come first. */
  lemma {:induction false} FetchUndisturbed<D>(s: State<D>, writes: seq<Event<D>>)
    requires Inv(s) && s.reader == Fetching && forall i :: 0 <= i < |writes| ==> writes[i] != Pick && writes[i] != Fetch
    ensures var t := Run(s, writes);
         && Inv(t) && t.reader == Fetching && t.readIndex == s.readIndex && t.pinned == s.pinned && s.written <= t.written
         && t.buffer[t.readIndex] == Some(s.written[s.pinned - 1])
  {
    if writes != [] {
      var n := |writes| - 1;
      FetchUndisturbed(s, writes[..n]);
      var t := Run(s, writes[..n]);
      StepKeeps(t, writes[n]);
      WriterStep(t, writes[n]);
      hide Step, Slots, Log;
    }
  }

  lemma WriterStep<D>(s: State<D>, e: Event<D>)
    requires |s.buffer| == 3 && e != Pick && e != Fetch
    ensures var t := Step(s, e); t.reader == s.reader && t.readIndex == s.readIndex && t.pinned == s.pinned && s.written <= t.written
  {
  }

  // ------------------------------------------------------------------------------------------
  // The class.

  class TripleRingBuffer<D> {
    const buffer: array<Option<D>>
    var writeIndex: int
    var latestIndex: int
    var readIndex: int
    ghost var written: seq<D>
    ghost var pinned: nat
    ghost var pins: seq<nat>
    ghost var results: seq<Option<D>>

    ghost function View(): State<D>
      reads this, buffer
    {
      State(buffer[..], writeIndex, latestIndex, readIndex, Outside, Away, written, pinned, pins, results)
    }

    constructor ()
      ensures View() == Initial() && fresh(buffer)
    {
      buffer := new Option<D>[3](_ => None);
      writeIndex, latestIndex, readIndex := 0, -1, -1;
      written, pinned, pins, results := [], 0, [], [];
      new;
      assert buffer[..] == [None, None, None];
    }

    method Write(data: D)
      requires Inv(View())
      modifies this, buffer
      ensures View() == Run(old(View()), [Acquire(data), Store, Mark, Advance, SkipAndRelease])
      ensures Inv(View())
    {
      WriteSteps(View(), data);
      hide Run, Step, Inv;
      buffer[writeIndex] := Some(data);
      latestIndex := writeIndex;
      writeIndex := (writeIndex + 1) % 3;
      if writeIndex == readIndex {
        writeIndex := (writeIndex + 1) % 3;
      }
      written := written + [data];
    }

    method Read() returns (r: Option<D>)
      requires Inv(View())
      modifies this
      ensures View() == Run(old(View()), [Pick, Fetch])
      ensures Inv(View()) && r == ValueAt(written, |written|)
    {
      ghost var s := View();
      ReadSteps(s);
      pinned := |written|;
      if latestIndex == -1 {
        r := None;
      } else {
        readIndex := latestIndex;
        r := buffer[readIndex];
      }
      pins, results := pins + [pinned], results + [r];
    }
  }

  lemma RunSnoc<D>(s: State<D>, events: seq<Event<D>>, e: Event<D>)
    requires |s.buffer| == 3
    ensures Run(s, events + [e]) == Step(Run(s, events), e)
  {
    assert (events + [e])[..|events|] == events;
  }

  /** What a whole `write` does. */
  function Written<D>(s: State<D>, data: D): State<D>
    requires |s.buffer| == 3 && ValidIndex(s.writeIndex)
  {
    var next := (s.writeIndex + 1) % 3;
    s.(buffer := s.buffer[s.writeIndex := Some(data)], latestIndex := s.writeIndex,
       writeIndex := if next == s.readIndex then (next + 1) % 3 else next, written := s.written + [data])
  }

  lemma FiveSteps<D>(s: State<D>, data: D)
    requires |s.buffer| == 3 && ValidIndex(s.writeIndex) && s.writer.Outside?
    ensures Step(Step(Step(Step(Step(s, Acquire(data)), Store), Mark), Advance), SkipAndRelease) == Written(s, data)
  {
  }

  lemma WriteSteps<D>(s: State<D>, data: D)
    requires Inv(s) && s.writer.Outside?
    ensures |s.buffer| == 3 && ValidIndex(s.writeIndex)
    ensures var t := Run(s, [Acquire(data), Store, Mark, Advance, SkipAndRelease]); Inv(t) && t == Written(s, data)
  {
    var a: seq<Event<D>> := [Acquire(data)];
    RunKeeps(s, [Acquire(data), Store, Mark, Advance, SkipAndRelease]);
    FiveSteps(s, data);
    assert Run(s, []) == s;
    hide Inv, Step, Written;
    RunSnoc(s, [], Acquire(data));
    RunSnoc(s, a, Store);
    RunSnoc(s, a + [Store], Mark);
    RunSnoc(s, a + [Store] + [Mark], Advance);
    RunSnoc(s, a + [Store] + [Mark] + [Advance], SkipAndRelease);
    assert [] + a == a;
    assert a + [Store] + [Mark] + [Advance] + [SkipAndRelease] == [Acquire(data), Store, Mark, Advance, SkipAndRelease];
    hide Run;
  }

  lemma ReadSteps<D>(s: State<D>)
    requires Inv(s)
    ensures var t := Run(s, [Pick, Fetch]); Inv(t) && t == Step(Step(s, Pick), Fetch)
  {
    var all: seq<Event<D>> := [Pick, Fetch];
    RunKeeps(s, all);
    hide Inv, Step;
    assert all[..1] == [Pick] && all[..1][..0] == [];
    assert Run(s, [Pick]) == Step(s, Pick);
  }
}
