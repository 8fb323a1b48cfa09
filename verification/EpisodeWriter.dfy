/** Recording episodes (dexfull/control/utils/episode_writer.py) as the session drives it
    (dexfull/control/session.py): the control loop creates, adds and saves, a worker thread writes the file.
    A file is a sequence of tokens; a disabled event changes nothing. */
module EpisodeWriter {
  import opened Wrappers

  datatype Token = Header | Separator | Item(episode: nat, idx: nat) | Footer

  /** What happened to an item: it failed before its file was opened, it could not be dumped, or it was written. */
  datatype Outcome = FailedEarly | FailedDump | Written

  /** One episode: its file, what became of its items so far, and how many were added. */
  datatype Episode = Episode(file: seq<Token>, outcomes: seq<Outcome>, added: nat)

  datatype ProducerPc = Idle | CreateTest | CreateFile | CreateFirstItem | CreateClose | Save

  datatype Entry = Entry(episode: nat, idx: nat)

  datatype WorkerPc =
    | Get | Open(entry: Entry) | Dump(entry: Entry)
    | TestSave | TestEmpty | WriteFooter | ResetSave | MakeAvailable

  datatype Flags = Flags(available: bool, needSave: bool, firstItem: bool, recording: bool)

  datatype State = State(flags: Flags, producer: ProducerPc, worker: WorkerPc, itemId: int, queue: seq<Entry>, episodes: seq<Episode>)

  const INITIAL := State(Flags(true, false, false, false), Idle, Get, -1, [], [])

  datatype Event = Toggle | ProducerAction | Add | WorkerAction(ok: bool)

  /** `json_path`: the newest episode's file. */
  function Append(episodes: seq<Episode>, tokens: seq<Token>): seq<Episode>
    requires episodes != []
  {
    var n := |episodes| - 1;
    episodes[n := episodes[n].(file := episodes[n].file + tokens)]
  }

  function Record(episodes: seq<Episode>, o: Outcome): seq<Episode>
    requires episodes != []
  {
    var n := |episodes| - 1;
    episodes[n := episodes[n].(outcomes := episodes[n].outcomes + [o])]
  }

  function ProducerStep(s: State): State {
    match s.producer
    case Idle => s
    case CreateTest => s.(producer := if s.flags.available then CreateFile else Idle)
    case CreateFile => s.(itemId := -1, episodes := s.episodes + [Episode([Header], [], 0)], producer := CreateFirstItem)
    case CreateFirstItem => s.(flags := s.flags.(firstItem := true), producer := CreateClose)
    case CreateClose => s.(flags := s.flags.(available := false, recording := true), producer := Idle)
    case Save => s.(flags := s.flags.(needSave := true), producer := Idle)
  }

  /** `ok` decides whether the part of `_process_item_data` that comes next succeeds. */
  function WorkerStep(s: State, ok: bool): State {
    match s.worker
    case Get => if s.queue == [] then s.(worker := TestSave) else s.(worker := Open(s.queue[0]), queue := s.queue[1..])
    case Open(entry) =>
      if s.episodes == [] then s
      else if !ok then s.(worker := TestSave, episodes := Record(s.episodes, FailedEarly))
      else if s.flags.firstItem then s.(worker := Dump(entry))
      else s.(worker := Dump(entry), episodes := Append(s.episodes, [Separator]))
    case Dump(entry) =>
      if s.episodes == [] then s
      else if !ok then s.(worker := TestSave, episodes := Record(s.episodes, FailedDump))
      else s.(worker := TestSave, flags := s.flags.(firstItem := false),
              episodes := Record(Append(s.episodes, [Item(entry.episode, entry.idx)]), Written))
    case TestSave => s.(worker := if s.flags.needSave then TestEmpty else Get)
    case TestEmpty => s.(worker := if s.queue == [] then WriteFooter else Get)
    case WriteFooter => if s.episodes == [] then s else s.(worker := ResetSave, episodes := Append(s.episodes, [Footer]))
    case ResetSave => s.(worker := MakeAvailable, flags := s.flags.(needSave := false))
    case MakeAvailable => s.(worker := Get, flags := s.flags.(available := true))
  }

  function Step(s: State, e: Event): State {
    match e
    case Toggle =>
      if s.producer != Idle then s
      else if s.flags.recording then s.(flags := s.flags.(recording := false), producer := Save)
      else s.(producer := CreateTest)
    case ProducerAction => ProducerStep(s)
    case Add =>
      if s.producer != Idle || !s.flags.recording || s.episodes == [] then s
      else
        var n := |s.episodes| - 1;
        s.(itemId := s.itemId + 1,
           queue := s.queue + [Entry(n, if s.itemId + 1 >= 0 then s.itemId + 1 else 0)],
           episodes := s.episodes[n := s.episodes[n].(added := s.episodes[n].added + 1)])
    case WorkerAction(ok) => WorkerStep(s, ok)
  }

  function Run(events: seq<Event>): State {
    if events == [] then INITIAL
    else Step(Run(events[..|events| - 1]), events[|events| - 1])
  }

  // ------------------------------------------------------------------------------------------
  // The file that a history of items leaves.

  predicate AnyWritten(outcomes: seq<Outcome>) { Written in outcomes }

  /** What the items leave between header and footer. */
  function Content(e: nat, outcomes: seq<Outcome>): seq<Token> {
    if outcomes == [] then []
    else
      var n := |outcomes| - 1;
      Content(e, outcomes[..n]) + Contribution(e, n, AnyWritten(outcomes[..n]), outcomes[n])
  }

  function Contribution(e: nat, idx: nat, later: bool, o: Outcome): seq<Token> {
    var separator := if later then [Separator] else [];
    match o
    case FailedEarly => []
    case FailedDump => separator
    case Written => separator + [Item(e, idx)]
  }

  ghost predicate Closed(e: nat, ep: Episode) {
    && ep.file == [Header] + Content(e, ep.outcomes) + [Footer]
    && |ep.outcomes| == ep.added
  }

  // ------------------------------------------------------------------------------------------
  // What every interleaving keeps.

  predicate Processing(w: WorkerPc) { w.Open? || w.Dump? }
  predicate Footed(w: WorkerPc) { w.ResetSave? || w.MakeAvailable? }

  /** How the flags and the two threads fit together. */
  ghost predicate Phases(s: State) {
    && (s.flags.available ==> s.queue == [] && !s.flags.needSave && !s.flags.recording && (s.worker.Get? || s.worker.TestSave?) && s.producer != Save)
    && (!s.flags.available ==> s.producer == Idle || s.producer == Save || s.producer == CreateTest)
    && (s.producer == CreateFile || s.producer == CreateFirstItem || s.producer == CreateClose ==> s.flags.available)
    && (s.flags.recording ==> s.producer == Idle && !s.flags.needSave && !Footed(s.worker))
    && (s.producer == Save ==> !s.flags.recording && !s.flags.needSave && !Footed(s.worker))
    && (s.worker.TestEmpty? || s.worker.WriteFooter? || s.worker.ResetSave? ==> s.flags.needSave)
    && (s.worker.WriteFooter? || Footed(s.worker) ==> s.queue == [] && !s.flags.available)
    && (s.worker.MakeAvailable? ==> !s.flags.needSave)
    && (!s.flags.available ==> s.episodes != [])
    && (s.producer == CreateFirstItem || s.producer == CreateClose ==> s.episodes != [])
    && (s.producer == CreateClose ==> s.flags.firstItem)
  }

  function InProcess(w: WorkerPc): nat { if Processing(w) then 1 else 0 }

  /** The file of the open episode; a separator may already stand before the item being dumped. */
  ghost predicate FileSoFar(n: nat, ep: Episode, dumping: bool) {
    ep.file == [Header] + Content(n, ep.outcomes) + (if dumping && AnyWritten(ep.outcomes) then [Separator] else [])
  }

  /** Where the items of the open episode are. */
  ghost predicate Accounted(s: State, n: nat, processed: nat, added: nat) {
    && s.itemId + 1 == added == processed + InProcess(s.worker) + |s.queue|
    && (Processing(s.worker) ==> s.worker.entry == Entry(n, processed))
    && (forall k :: 0 <= k < |s.queue| ==> s.queue[k] == Entry(n, processed + InProcess(s.worker) + k))
  }

  ghost predicate FirstItemRight(s: State, outcomes: seq<Outcome>) {
    && (s.flags.available ==> outcomes == [])
    && (!s.flags.available || s.producer == CreateClose ==> (s.flags.firstItem <==> !AnyWritten(outcomes)))
  }

  ghost predicate OpenEpisode(s: State) {
    && s.episodes != []
    && var n := |s.episodes| - 1;
       var ep := s.episodes[n];
       FileSoFar(n, ep, s.worker.Dump?) && Accounted(s, n, |ep.outcomes|, ep.added) && FirstItemRight(s, ep.outcomes)
  }

  /** Whether the newest episode still has to be closed. */
  predicate IsOpen(s: State) {
    (!s.flags.available && !Footed(s.worker)) || s.producer == CreateFirstItem || s.producer == CreateClose
  }

  ghost predicate Files(s: State) {
    && (forall e :: 0 <= e < |s.episodes| - 1 ==> Closed(e, s.episodes[e]))
    && (s.episodes != [] ==> if IsOpen(s) then OpenEpisode(s) else Closed(|s.episodes| - 1, s.episodes[|s.episodes| - 1]))
  }

  lemma PhasesKept(s: State, e: Event)
    requires Phases(s)
    ensures Phases(Step(s, e))
  {
  }

  lemma AnyWrittenSnoc(outcomes: seq<Outcome>, o: Outcome)
    ensures AnyWritten(outcomes + [o]) <==> AnyWritten(outcomes) || o == Written
  {
  }

  lemma ContentSnoc(e: nat, outcomes: seq<Outcome>, o: Outcome)
    ensures Content(e, outcomes + [o]) == Content(e, outcomes) + Contribution(e, |outcomes|, AnyWritten(outcomes), o)
  {
    assert (outcomes + [o])[..|outcomes|] == outcomes;
  }

  lemma AddKept(s: State)
    requires Phases(s) && Files(s)
    ensures Files(Step(s, Add))
  {
    hide Closed, Content, Contribution;
    var t := Step(s, Add);
    if t != s {
      assert OpenEpisode(t);
    }
  }

  lemma ProducerKept(s: State)
    requires Phases(s) && Files(s)
    ensures Files(ProducerStep(s))
  {
    if s.producer == CreateFile {
      FileCreated(s);
      hide *;
    } else {
      FlagsOnly(s);
      hide *;
    }
  }

  lemma FlagsOnly(s: State)
    requires Phases(s) && Files(s) && s.producer != CreateFile
    ensures Files(ProducerStep(s))
  {
    hide Closed, FileSoFar;
    var t := ProducerStep(s);
    assert t.episodes == s.episodes && t.itemId == s.itemId && t.queue == s.queue && t.worker == s.worker;
  }

  lemma FileCreated(s: State)
    requires Phases(s) && Files(s) && s.producer == CreateFile
    ensures Files(ProducerStep(s))
  {
    var t := ProducerStep(s);
    NewFile(s);
    assert |t.episodes| == |s.episodes| + 1 && forall e :: 0 <= e < |s.episodes| ==> t.episodes[e] == s.episodes[e];
    assert IsOpen(t) && !IsOpen(s);
    hide Closed, OpenEpisode, ProducerStep, IsOpen, Phases;
  }

  lemma NewFile(s: State)
    requires Phases(s) && s.producer == CreateFile
    ensures OpenEpisode(ProducerStep(s))
  {
    var n := |s.episodes|;
    var t := ProducerStep(s);
    assert t.episodes[n] == Episode([Header], [], 0);
    NewFileEmpty(n, t.episodes[n]);
    hide FileSoFar;
  }

  lemma NewFileEmpty(n: nat, ep: Episode)
    requires ep == Episode([Header], [], 0)
    ensures FileSoFar(n, ep, false)
  {
    NoContent(n, ep.outcomes);
    hide Content;
    assert [Header] + [] + [] == [Header];
  }

  lemma NoContent(n: nat, outcomes: seq<Outcome>)
    requires outcomes == []
    ensures Content(n, outcomes) == []
  {
  }

  lemma TakeKept(s: State, ok: bool)
    requires Phases(s) && Files(s) && s.worker.Get?
    ensures Files(WorkerStep(s, ok))
  {
    hide Closed, Content, Contribution, AnyWritten;
  }

  /** Only the newest episode changes. */
  lemma NewestChanged(s: State, t: State)
    requires Files(s) && s.episodes != [] && IsOpen(t) && OpenEpisode(t)
    requires |t.episodes| == |s.episodes| && forall e :: 0 <= e < |s.episodes| - 1 ==> t.episodes[e] == s.episodes[e]
    ensures Files(t)
  {
    hide Closed, OpenEpisode, IsOpen;
  }

  /** How an item that ends changes the record. */
  lemma ItemEnded(n: nat, ep: Episode, o: Outcome)
    ensures Content(n, ep.outcomes + [o]) == Content(n, ep.outcomes) + Contribution(n, |ep.outcomes|, AnyWritten(ep.outcomes), o)
    ensures AnyWritten(ep.outcomes + [o]) <==> AnyWritten(ep.outcomes) || o == Written
    ensures o == FailedEarly ==> Content(n, ep.outcomes + [o]) == Content(n, ep.outcomes)
  {
    ContentSnoc(n, ep.outcomes, o);
    AnyWrittenSnoc(ep.outcomes, o);
  }

  /** What the worker makes of the open episode while it processes an item. */
  function Processed(ep: Episode, w: WorkerPc, firstItem: bool, ok: bool): Episode
    requires Processing(w)
  {
    if w.Open? then
      if !ok then ep.(outcomes := ep.outcomes + [FailedEarly])
      else if firstItem then ep
      else ep.(file := ep.file + [Separator])
    else if !ok then ep.(outcomes := ep.outcomes + [FailedDump])
    else Episode(ep.file + [Item(w.entry.episode, w.entry.idx)], ep.outcomes + [Written], ep.added)
  }

  lemma ProcessingChanges(s: State, ok: bool)
    requires s.episodes != [] && Processing(s.worker)
    ensures var t, n := WorkerStep(s, ok), |s.episodes| - 1;
         && |t.episodes| == n + 1
         && t.episodes[n] == Processed(s.episodes[n], s.worker, s.flags.firstItem, ok)
         && (forall e :: 0 <= e < n ==> t.episodes[e] == s.episodes[e])
  {
  }

  /** The worker's bookkeeping while it processes an item. */
  lemma ProcessingAccounted(s: State, ok: bool)
    requires Phases(s) && OpenEpisode(s) && Processing(s.worker)
    ensures var t, n := WorkerStep(s, ok), |s.episodes| - 1;
         && IsOpen(t) && |t.episodes| == n + 1
         && Accounted(t, n, |t.episodes[n].outcomes|, t.episodes[n].added) && FirstItemRight(t, t.episodes[n].outcomes)
  {
    ProcessingChanges(s, ok);
    var ep := s.episodes[|s.episodes| - 1];
    AnyWrittenSnoc(ep.outcomes, Written);
    AnyWrittenSnoc(ep.outcomes, FailedDump);
    AnyWrittenSnoc(ep.outcomes, FailedEarly);
    hide FileSoFar, AnyWritten, Record, Append;
  }

  lemma OpenedFile(n: nat, ep: Episode, entry: Entry, firstItem: bool, ok: bool)
    requires FileSoFar(n, ep, false) && (firstItem <==> !AnyWritten(ep.outcomes))
    ensures FileSoFar(n, Processed(ep, Open(entry), firstItem, ok), ok)
  {
    ItemEnded(n, ep, FailedEarly);
    hide Content, AnyWritten, Contribution;
  }

  lemma DumpedFile(n: nat, ep: Episode, ok: bool)
    requires FileSoFar(n, ep, true)
    ensures FileSoFar(n, Processed(ep, Dump(Entry(n, |ep.outcomes|)), false, ok), false)
  {
    ItemEnded(n, ep, if ok then Written else FailedDump);
    hide Content, AnyWritten;
    var separator := if AnyWritten(ep.outcomes) then [Separator] else [];
    if ok {
      assert ep.file + [Item(n, |ep.outcomes|)] == [Header] + (Content(n, ep.outcomes) + (separator + [Item(n, |ep.outcomes|)])) + [];
    } else {
      assert ep.file == [Header] + (Content(n, ep.outcomes) + separator) + [];
    }
  }

  /** The file of the open episode while the worker processes an item. */
  lemma ProcessingFile(s: State, ok: bool)
    requires Phases(s) && OpenEpisode(s) && Processing(s.worker)
    ensures var n := |s.episodes| - 1;
      FileSoFar(n, Processed(s.episodes[n], s.worker, s.flags.firstItem, ok), s.worker.Open? && ok)
  {
    var n := |s.episodes| - 1;
    hide Processed, FileSoFar, AnyWritten;
    if s.worker.Open? {
      OpenedFile(n, s.episodes[n], s.worker.entry, s.flags.firstItem, ok);
    } else {
      DumpedFile(n, s.episodes[n], ok);
      DumpIgnoresFlag(s.episodes[n], s.worker, s.flags.firstItem, ok);
    }
  }

  lemma DumpIgnoresFlag(ep: Episode, w: WorkerPc, firstItem: bool, ok: bool)
    requires w.Dump?
    ensures Processed(ep, w, firstItem, ok) == Processed(ep, w, false, ok)
  {
  }

  lemma DumpFollowsOpen(s: State, ok: bool)
    requires Processing(s.worker) && s.episodes != []
    ensures WorkerStep(s, ok).worker.Dump? <==> s.worker.Open? && ok
  {
  }

  lemma ProcessingKept(s: State, ok: bool)
    requires Phases(s) && Files(s) && Processing(s.worker)
    ensures Files(WorkerStep(s, ok))
  {
    var t := WorkerStep(s, ok);
    ProcessingIsOpen(s);
    ProcessingChanges(s, ok);
    ProcessingAccounted(s, ok);
    ProcessingFile(s, ok);
    DumpFollowsOpen(s, ok);
    hide WorkerStep, FileSoFar, Processed, FirstItemRight, Accounted, IsOpen, Closed, Phases;
    NewestChanged(s, t);
  }

  lemma ProcessingIsOpen(s: State)
    requires Phases(s) && Files(s) && Processing(s.worker)
    ensures s.episodes != [] && OpenEpisode(s)
  {
    hide Closed, OpenEpisode;
  }

  lemma CloseKept(s: State, ok: bool)
    requires Phases(s) && Files(s) && !Processing(s.worker) && !s.worker.Get?
    ensures Files(WorkerStep(s, ok))
  {
    hide Content, Contribution, AnyWritten;
    var t := WorkerStep(s, ok);
    if s.worker.WriteFooter? {
      var n := |s.episodes| - 1;
      var ep := s.episodes[n];
      assert ep.file == [Header] + Content(n, ep.outcomes);
      assert Closed(n, t.episodes[n]);
      hide Closed;
      assert forall e :: 0 <= e < n ==> t.episodes[e] == s.episodes[e];
    } else {
      hide Closed;
      assert t.episodes == s.episodes;
    }
  }

  lemma FilesKept(s: State, e: Event)
    requires Phases(s) && Files(s)
    ensures Files(Step(s, e))
  {
    match e
    case Add => AddKept(s);
    case ProducerAction => ProducerKept(s);
    case Toggle => ToggleKept(s);
    case WorkerAction(ok) =>
      if s.worker.Get? {
        TakeKept(s, ok);
      } else if Processing(s.worker) {
        ProcessingKept(s, ok);
      } else {
        CloseKept(s, ok);
      }
      hide Files, WorkerStep;
  }

  lemma ToggleKept(s: State)
    requires Phases(s) && Files(s)
    ensures Files(Step(s, Toggle))
  {
    hide Closed, FileSoFar;
    var t := Step(s, Toggle);
    assert t.episodes == s.episodes && t.itemId == s.itemId && t.queue == s.queue && t.worker == s.worker;
  }

  lemma {:induction false} RunKeeps(events: seq<Event>)
    ensures Phases(Run(events)) && Files(Run(events))
  {
    hide Phases, Files, Step;
    if events == [] {
      InitialKeeps();
    } else {
      var n := |events| - 1;
      RunKeeps(events[..n]);
      PhasesKept(Run(events[..n]), events[n]);
      FilesKept(Run(events[..n]), events[n]);
    }
  }

  lemma InitialKeeps()
    ensures Phases(INITIAL) && Files(INITIAL)
  {
  }

  // ------------------------------------------------------------------------------------------
  // Well-formed files.

  /** Items joined by single separators. */
  function Join(items: seq<Token>): seq<Token> {
    if items == [] then []
    else if |items| == 1 then items
    else Join(items[..|items| - 1]) + [Separator] + [items[|items| - 1]]
  }

  predicate AllItems(tokens: seq<Token>) { forall i :: 0 <= i < |tokens| ==> tokens[i].Item? }

  /** A JSON document: header, items joined by single separators, one footer. */
  ghost predicate WellFormed(file: seq<Token>) {
    exists items :: AllItems(items) && file == [Header] + Join(items) + [Footer]
  }

  /** The items of an episode that were written, in order. */
  function WrittenItems(e: nat, outcomes: seq<Outcome>): (r: seq<Token>)
    ensures AllItems(r)
    ensures r == [] <==> !AnyWritten(outcomes)
  {
    if outcomes == [] then []
    else
      var n := |outcomes| - 1;
      assert AnyWritten(outcomes) <==> AnyWritten(outcomes[..n]) || outcomes[n] == Written by {
        assert outcomes == outcomes[..n] + [outcomes[n]];
      }
      WrittenItems(e, outcomes[..n]) + if outcomes[n] == Written then [Item(e, n)] else []
  }

  /** An item could not be dumped after another one had been written. */
  ghost predicate DanglingSeparator(outcomes: seq<Outcome>) {
    exists j, k :: 0 <= j < k < |outcomes| && outcomes[j] == Written && outcomes[k] == FailedDump
  }

  function Separators(tokens: seq<Token>): nat {
    if tokens == [] then 0
    else Separators(tokens[..|tokens| - 1]) + if tokens[|tokens| - 1].Separator? then 1 else 0
  }

  function ItemsOf(tokens: seq<Token>): seq<Token> {
    if tokens == [] then []
    else ItemsOf(tokens[..|tokens| - 1]) + if tokens[|tokens| - 1].Item? then [tokens[|tokens| - 1]] else []
  }

  lemma {:induction false} Concat(a: seq<Token>, b: seq<Token>)
    ensures Separators(a + b) == Separators(a) + Separators(b) && ItemsOf(a + b) == ItemsOf(a) + ItemsOf(b)
  {
    if b == [] {
      assert a + b == a;
    } else {
      var n := |b| - 1;
      assert (a + b)[..|a + b| - 1] == a + b[..n];
      Concat(a, b[..n]);
    }
  }

  lemma One(x: Token)
    ensures Separators([x]) == (if x.Separator? then 1 else 0) && ItemsOf([x]) == (if x.Item? then [x] else [])
  {
    var s := [x];
    assert s[..0] == [] && s[0] == x;
  }

  lemma JoinSnoc(items: seq<Token>)
    requires |items| > 1
    ensures Join(items) == Join(items[..|items| - 1]) + [Separator] + [items[|items| - 1]]
  {
  }

  /** One more item behind a separator. */
  lemma SeparatedItem(joined: seq<Token>, x: Token)
    requires x.Item?
    ensures Separators(joined + [Separator] + [x]) == Separators(joined) + 1
    ensures ItemsOf(joined + [Separator] + [x]) == ItemsOf(joined) + [x]
  {
    One(x);
    One(Separator);
    Concat(joined, [Separator]);
    Concat(joined + [Separator], [x]);
    hide *;
    assert ItemsOf(joined) + [] == ItemsOf(joined);
  }

  lemma {:induction false} JoinCounts(items: seq<Token>)
    requires AllItems(items)
    ensures Separators(Join(items)) == (if items == [] then 0 else |items| - 1) && ItemsOf(Join(items)) == items
  {
    if |items| > 1 {
      var n := |items| - 1;
      JoinSnoc(items);
      hide Separators, ItemsOf, Join;
      JoinCounts(items[..n]);
      SeparatedItem(Join(items[..n]), items[n]);
      assert items == items[..n] + [items[n]];
    } else if |items| == 1 {
      One(items[0]);
      assert items == [items[0]];
    }
  }

  lemma JoinContribution(e: nat, n: nat, items: seq<Token>, o: Outcome)
    requires o == FailedDump ==> items == []
    ensures Join(items) + Contribution(e, n, items != [], o) == Join(items + if o == Written then [Item(e, n)] else [])
  {
    if o == Written {
      assert (items + [Item(e, n)])[..|items|] == items;
      if items == [] {
        assert items + [Item(e, n)] == [Item(e, n)];
      }
    } else {
      assert items + [] == items;
    }
  }

  /** Without a dangling separator the content is the written items, joined. */
  lemma {:induction false} ContentJoined(e: nat, outcomes: seq<Outcome>)
    requires !DanglingSeparator(outcomes)
    ensures Content(e, outcomes) == Join(WrittenItems(e, outcomes))
  {
    if outcomes != [] {
      var n := |outcomes| - 1;
      var prefix := outcomes[..n];
      forall j, k | 0 <= j < k < n
        ensures !(prefix[j] == Written && prefix[k] == FailedDump)
      {
        assert outcomes[j] == prefix[j] && outcomes[k] == prefix[k];
      }
      ContentJoined(e, prefix);
      if AnyWritten(prefix) {
        var j :| 0 <= j < n && prefix[j] == Written;
        assert outcomes[j] == Written && outcomes[n] != FailedDump;
      }
      JoinContribution(e, n, WrittenItems(e, prefix), outcomes[n]);
      hide Join, DanglingSeparator, Contribution, AnyWritten;
    }
  }

  lemma ContributionCounts(e: nat, idx: nat, later: bool, o: Outcome)
    ensures Separators(Contribution(e, idx, later, o)) == (if later && o != FailedEarly then 1 else 0)
    ensures ItemsOf(Contribution(e, idx, later, o)) == (if o == Written then [Item(e, idx)] else [])
  {
    One(Separator);
    One(Item(e, idx));
    Concat([Separator], [Item(e, idx)]);
    assert [] + [Item(e, idx)] == [Item(e, idx)];
  }

  lemma DanglingSnoc(outcomes: seq<Outcome>)
    requires DanglingSeparator(outcomes)
    ensures var n := |outcomes| - 1; n >= 0 && (DanglingSeparator(outcomes[..n]) || (AnyWritten(outcomes[..n]) && outcomes[n] == FailedDump))
  {
    var n := |outcomes| - 1;
    var j, k :| 0 <= j < k < |outcomes| && outcomes[j] == Written && outcomes[k] == FailedDump;
    assert outcomes[..n][j] == Written;
    if k < n {
      assert outcomes[..n][k] == FailedDump;
    }
  }

  /** The items in the file are the written ones; a dangling separator is one too many. */
  lemma {:induction false} ContentCounts(e: nat, outcomes: seq<Outcome>)
    ensures var c, items := Content(e, outcomes), WrittenItems(e, outcomes);
         && ItemsOf(c) == items
         && Separators(c) + 1 >= |items|
         && (DanglingSeparator(outcomes) ==> Separators(c) >= |items| > 0)
  {
    if outcomes != [] {
      var n := |outcomes| - 1;
      var contribution := Contribution(e, n, AnyWritten(outcomes[..n]), outcomes[n]);
      ContentCounts(e, outcomes[..n]);
      ContributionCounts(e, n, AnyWritten(outcomes[..n]), outcomes[n]);
      Concat(Content(e, outcomes[..n]), contribution);
      if DanglingSeparator(outcomes) {
        DanglingSnoc(outcomes);
      }
      hide Separators, ItemsOf, DanglingSeparator, Contribution, AnyWritten;
    }
  }

  /** Exactly when a finished file is well formed. */
  lemma WellFormedIff(e: nat, ep: Episode)
    requires Closed(e, ep)
    ensures WellFormed(ep.file) <==> !DanglingSeparator(ep.outcomes)
  {
    var c := Content(e, ep.outcomes);
    if !DanglingSeparator(ep.outcomes) {
      ContentJoined(e, ep.outcomes);
      assert AllItems(WrittenItems(e, ep.outcomes));
    } else {
      ContentCounts(e, ep.outcomes);
      forall items | AllItems(items)
        ensures ep.file != [Header] + Join(items) + [Footer]
      {
        JoinCounts(items);
        assert ep.file[1..|ep.file| - 1] == c;
        var joined := [Header] + Join(items) + [Footer];
        assert joined[1..|joined| - 1] == Join(items);
      }
    }
  }

  /** Items of episode `e` in index order, below `bound`. */
  ghost predicate InOrder(items: seq<Token>, e: nat, bound: nat)
    requires AllItems(items)
  {
    && (forall i :: 0 <= i < |items| ==> items[i].episode == e && items[i].idx < bound)
    && (forall i, j :: 0 <= i < j < |items| ==> items[i].idx < items[j].idx)
  }

  lemma InOrderSnoc(items: seq<Token>, e: nat, n: nat)
    requires AllItems(items) && InOrder(items, e, n)
    ensures InOrder(items, e, n + 1) && AllItems(items + [Item(e, n)]) && InOrder(items + [Item(e, n)], e, n + 1)
    ensures items + [] == items
  {
  }

  lemma WrittenSnoc(e: nat, outcomes: seq<Outcome>)
    requires outcomes != []
    ensures var n := |outcomes| - 1;
            WrittenItems(e, outcomes) == WrittenItems(e, outcomes[..n]) + if outcomes[n] == Written then [Item(e, n)] else []
  {
  }

  /** The written items are of their episode, in index order. */
  lemma {:induction false} WrittenInOrder(e: nat, outcomes: seq<Outcome>)
    ensures InOrder(WrittenItems(e, outcomes), e, |outcomes|)
  {
    if outcomes != [] {
      var n := |outcomes| - 1;
      WrittenInOrder(e, outcomes[..n]);
      WrittenSnoc(e, outcomes);
      InOrderSnoc(WrittenItems(e, outcomes[..n]), e, n);
      hide WrittenItems, InOrder;
    }
  }

  /** And they are exactly the items whose outcome is `Written`. */
  lemma {:induction false} WrittenExactly(e: nat, outcomes: seq<Outcome>, k: nat)
    ensures Item(e, k) in WrittenItems(e, outcomes) <==> k < |outcomes| && outcomes[k] == Written
  {
    if outcomes != [] {
      var n := |outcomes| - 1;
      var items := WrittenItems(e, outcomes[..n]);
      WrittenExactly(e, outcomes[..n], k);
      WrittenSnoc(e, outcomes);
      hide WrittenItems;
      assert Item(e, k) in items + [Item(e, n)] <==> Item(e, k) in items || k == n;
      assert items + [] == items;
    }
  }

  /** In every interleaving of the control loop and the worker, every episode but the open one is finished:
      its file ends in its only footer and holds exactly the successfully processed items of that episode,
      all of those added before the save, once and in order; and it is well formed exactly when no item
      failed to dump after another was written. */
  lemma FinishedEpisodes(events: seq<Event>, e: nat)
    requires e < |Run(events).episodes| && (e < |Run(events).episodes| - 1 || !IsOpen(Run(events)))
    ensures var ep := Run(events).episodes[e];
         && |ep.outcomes| == ep.added
         && ep.file == [Header] + Content(e, ep.outcomes) + [Footer]
         && ItemsOf(ep.file) == WrittenItems(e, ep.outcomes)
         && (WellFormed(ep.file) <==> !DanglingSeparator(ep.outcomes))
  {
    RunKeeps(events);
    var ep := Run(events).episodes[e];
    assert Closed(e, ep);
    hide Run, Phases, Files;
    WellFormedIff(e, ep);
    ContentCounts(e, ep.outcomes);
    Concat([Header] + Content(e, ep.outcomes), [Footer]);
    Concat([Header], Content(e, ep.outcomes));
    One(Header);
    One(Footer);
    hide *;
    assert [] + WrittenItems(e, ep.outcomes) + [] == WrittenItems(e, ep.outcomes);
  }

  // ------------------------------------------------------------------------------------------
  // A file that is not well formed.

  function RunFrom(s: State, events: seq<Event>): State
    decreases |events|
  {
    if events == [] then s else RunFrom(Step(s, events[0]), events[1..])
  }

  lemma {:induction false} RunConcat(a: seq<Event>, b: seq<Event>)
    ensures Run(a + b) == RunFrom(Run(a), b)
    decreases |b|
  {
    if b == [] {
      assert a + b == a;
    } else {
      assert (a + [b[0]])[..|a|] == a;
      assert a + b == (a + [b[0]]) + b[1..];
      RunConcat(a + [b[0]], b[1..]);
      hide Step;
    }
  }

  /** The episode after two items were added: queued, then one written and one that cannot be dumped, then saved. */
  const RECORDED := State(Flags(false, false, true, true), Idle, Get, 1, [Entry(0, 0), Entry(0, 1)], [Episode([Header], [], 2)])
  const PROCESSED := State(Flags(false, false, false, true), Idle, TestSave, 1, [],
                           [Episode([Header, Item(0, 0), Separator], [Written, FailedDump], 2)])
  const SAVED := State(Flags(false, true, false, false), Idle, ResetSave, 1, [],
                       [Episode([Header, Item(0, 0), Separator, Footer], [Written, FailedDump], 2)])

  const RECORD_TWO: seq<Event> := [Toggle, ProducerAction, ProducerAction, ProducerAction, ProducerAction, Add, Add]

  lemma RecordTwo()
    ensures RunFrom(INITIAL, RECORD_TWO) == RECORDED
  {
  }

  /** The first item is written, then the worker is back at the queue. */
  const WRITE_ONE: seq<Event> := [WorkerAction(true), WorkerAction(true), WorkerAction(true), WorkerAction(true)]

  const HALFWAY := State(Flags(false, false, false, true), Idle, Get, 1, [Entry(0, 1)], [Episode([Header, Item(0, 0)], [Written], 2)])

  lemma WriteOne()
    ensures RunFrom(RECORDED, WRITE_ONE) == HALFWAY
  {
    assert RECORDED.queue[1..] == [Entry(0, 1)];
    assert [Header] + [Item(0, 0)] == [Header, Item(0, 0)] && [] + [Written] == [Written];
    var a := WorkerStep(WorkerStep(RECORDED, true), true);
    assert a.episodes == [Episode([Header], [], 2)] && a.worker == Dump(Entry(0, 0));
    var b := WorkerStep(a, true);
    assert b.episodes == [Episode([Header, Item(0, 0)], [Written], 2)] && b.queue == [Entry(0, 1)];
    assert RunFrom(RECORDED, WRITE_ONE) == WorkerStep(b, true);
  }

  const FAIL_ONE: seq<Event> := [WorkerAction(true), WorkerAction(true), WorkerAction(false)]

  lemma FailOne()
    ensures RunFrom(HALFWAY, FAIL_ONE) == PROCESSED
  {
    assert HALFWAY.queue[1..] == [];
    assert [Header, Item(0, 0)] + [Separator] == [Header, Item(0, 0), Separator] && [Written] + [FailedDump] == [Written, FailedDump];
    var a := WorkerStep(WorkerStep(HALFWAY, true), true);
    assert a.episodes == [Episode([Header, Item(0, 0), Separator], [Written], 2)] && a.worker == Dump(Entry(0, 1));
    var b := WorkerStep(a, false);
    assert b.episodes == PROCESSED.episodes && b.queue == [];
    assert RunFrom(HALFWAY, FAIL_ONE) == b;
  }

  const SAVE_IT: seq<Event> := [Toggle, ProducerAction, WorkerAction(true), WorkerAction(true), WorkerAction(true)]

  lemma SaveIt()
    ensures RunFrom(PROCESSED, SAVE_IT) == SAVED
  {
    assert [Header, Item(0, 0), Separator] + [Footer] == [Header, Item(0, 0), Separator, Footer];
    var a := ProducerStep(Step(PROCESSED, Toggle));
    var b := WorkerStep(WorkerStep(a, true), true);
    assert b.worker == WriteFooter && b.episodes == PROCESSED.episodes;
    var c := WorkerStep(b, true);
    assert c.episodes == SAVED.episodes;
    assert RunFrom(PROCESSED, SAVE_IT) == c;
  }

  const DANGLING_RUN := RECORD_TWO + WRITE_ONE + FAIL_ONE + SAVE_IT

  /** A second item that json.dumps rejects leaves a finished file that is no JSON document. */
  lemma DumpFailureMalforms()
    ensures var s := Run(DANGLING_RUN);
         && |s.episodes| == 1 && !IsOpen(s)
         && s.episodes[0].file == [Header, Item(0, 0), Separator, Footer]
         && !WellFormed(s.episodes[0].file)
  {
    DanglingRun();
    hide Run, RunFrom, DANGLING_RUN;
    FinishedEpisodes(DANGLING_RUN, 0);
    var outcomes := [Written, FailedDump];
    assert outcomes[0] == Written && outcomes[1] == FailedDump;
    assert DanglingSeparator(outcomes);
  }

  lemma DanglingRun()
    ensures Run(DANGLING_RUN) == SAVED
  {
    RecordTwo();
    WriteOne();
    FailOne();
    SaveIt();
    RunConcat([], RECORD_TWO);
    NothingRun([]);
    hide Run, RunFrom, RECORD_TWO, WRITE_ONE, FAIL_ONE, SAVE_IT;
    RunConcat(RECORD_TWO, WRITE_ONE);
    RunConcat(RECORD_TWO + WRITE_ONE, FAIL_ONE);
    RunConcat(RECORD_TWO + WRITE_ONE + FAIL_ONE, SAVE_IT);
    assert [] + RECORD_TWO == RECORD_TWO;
  }

  lemma NothingRun(events: seq<Event>)
    requires events == []
    ensures Run(events) == INITIAL
  {
  }

  // ------------------------------------------------------------------------------------------
  // Progress.

  /** Worker actions until a requested save is done, with `q` items queued. */
  function ToSaved(w: WorkerPc, q: nat): nat {
    match w
    case MakeAvailable => 1
    case ResetSave => 2
    case WriteFooter => 3
    case TestEmpty => if q == 0 then 4 else 5 * q + 7
    case TestSave => if q == 0 then 5 else 5 * q + 8
    case Get => 5 * q + 6
    case Dump(_) => 5 * q + 9
    case Open(_) => 5 * q + 10
  }

  ghost predicate Saving(s: State) { Phases(s) && s.episodes != [] && (s.flags.needSave || s.worker.MakeAvailable?) && !s.flags.available }

  lemma SavingStep(s: State, ok: bool)
    requires Saving(s)
    ensures var t := WorkerStep(s, ok);
         && Phases(t)
         && (t.flags.available || (Saving(t) && ToSaved(t.worker, |t.queue|) < ToSaved(s.worker, |s.queue|)))
  {
    PhasesKept(s, WorkerAction(ok));
  }

  function WorkerActions(s: State, oks: seq<bool>): State
    decreases |oks|
  {
    if oks == [] then s else WorkerActions(WorkerStep(s, oks[0]), oks[1..])
  }

  /** A requested save is completed by the worker alone, whatever fails, within a number of actions fixed
      by the queue length; the producer can then create the next episode. */
  lemma {:induction false} SaveCompletes(s: State, oks: seq<bool>)
    requires Saving(s) && |oks| >= ToSaved(s.worker, |s.queue|)
    ensures exists n :: 0 <= n <= |oks| && WorkerActions(s, oks[..n]).flags.available
    decreases |oks|
  {
    SavingStep(s, oks[0]);
    var t := WorkerStep(s, oks[0]);
    if t.flags.available {
      var one := oks[..1];
      assert one[1..] == [] && WorkerActions(s, one) == WorkerActions(t, []);
    } else {
      SaveCompletes(t, oks[1..]);
      var n :| 0 <= n <= |oks[1..]| && WorkerActions(t, oks[1..][..n]).flags.available;
      var more := oks[..n + 1];
      assert more[1..] == oks[1..][..n] && more[0] == oks[0];
      assert WorkerActions(s, more) == WorkerActions(t, more[1..]);
    }
  }

  // ------------------------------------------------------------------------------------------
  // The class.  Run without interference, each method performs its actions in order.

  class Writer {
    var isAvailable: bool
    var needSave: bool
    var firstItem: bool
    var itemId: int
    var itemDataQueue: seq<Entry>
    var episodes: seq<Episode>

    /** The state between two calls, with the session's recording flag. */
    ghost function View(recording: bool, w: WorkerPc): State
      reads this
    {
      State(Flags(isAvailable, needSave, firstItem, recording), Idle, w, itemId, itemDataQueue, episodes)
    }

    constructor ()
      ensures View(false, Get) == INITIAL
    {
      isAvailable, needSave, firstItem := true, false, false;
      itemId, itemDataQueue, episodes := -1, [], [];
    }

    method CreateEpisode(ghost w: WorkerPc) returns (ok: bool)
      modifies this
      ensures ok == old(isAvailable)
      ensures var t := ProducerStep(Step(old(View(false, w)), Toggle));
              View(ok, w) == if ok then ProducerStep(ProducerStep(ProducerStep(t))) else t
    {
      if !isAvailable {
        return false;
      }
      itemId := -1;
      episodes := episodes + [Episode([Header], [], 0)];
      firstItem := true;
      isAvailable := false;
      return true;
    }

    method AddItem(ghost w: WorkerPc)
      requires episodes != [] && itemId >= -1
      modifies this
      ensures View(true, w) == Step(old(View(true, w)), Add)
    {
      itemId := itemId + 1;
      var n := |episodes| - 1;
      itemDataQueue := itemDataQueue + [Entry(n, itemId)];
      episodes := episodes[n := episodes[n].(added := episodes[n].added + 1)];
    }

    method SaveEpisode(ghost w: WorkerPc)
      modifies this`needSave
      ensures View(false, w) == ProducerStep(Step(old(View(true, w)), Toggle))
    {
      needSave := true;
    }

    /** `_process_item_data`: `opens` and `dumps` tell whether the part before the file and the dump succeed. */
    method ProcessItemData(entry: Entry, opens: bool, dumps: bool, ghost recording: bool)
      requires episodes != []
      modifies this
      ensures var t := WorkerStep(old(View(recording, Open(entry))), opens);
              View(recording, TestSave) == if opens then WorkerStep(t, dumps) else t
    {
      if !opens {
        episodes := Record(episodes, FailedEarly);
        return;
      }
      if !firstItem {
        episodes := Append(episodes, [Separator]);
      }
      if !dumps {
        episodes := Record(episodes, FailedDump);
        return;
      }
      episodes := Append(episodes, [Item(entry.episode, entry.idx)]);
      episodes := Record(episodes, Written);
      firstItem := false;
    }

    /** `_save_episode`. */
    method FinishSave(ghost recording: bool)
      requires episodes != []
      modifies this
      ensures View(recording, Get) == WorkerStep(WorkerStep(WorkerStep(old(View(recording, WriteFooter)), true), true), true)
    {
      episodes := Append(episodes, [Footer]);
      needSave := false;
      isAvailable := true;
    }
  }
}
