/** Latest-target IK worker (dexfull/control/ik_worker.py): at most one solve at a time, and only the newest
    target waits.  Every section under the condition variable is one event; a disabled event changes nothing. */
module IkWorker {
  import opened Wrappers

  datatype Result = IkResult(sequence: nat, solveMs: real)

  datatype Stats = Stats(submitted: nat, solved: nat, replaced: nat, failed: nat, totalMs: real, maxMs: real) {
    function AverageMs(): real { if solved == 0 then 0.0 else totalMs / (solved as real) }
  }

  const EMPTY_STATS := Stats(0, 0, 0, 0, 0.0, 0.0)

  /** What became of a submitted target. */
  datatype Fate = Pending | InFlight | Solved | Failed | Replaced | Discarded

  /** `solving` is the target the worker thread has taken. The log: `fates[n - 1]` is the fate of target `n`,
      `drained` are the statistics handed out so far, `results` the sequences published and `consumed`
      those the caller saw. */
  datatype State = State(stop: bool, alive: bool, solving: Option<nat>, nextSequence: nat, pending: Option<nat>,
                         latest: Option<Result>, stats: Stats, log: Log)

  datatype Log = Log(fates: seq<Fate>, drained: seq<Stats>, results: seq<nat>, consumed: seq<nat>) {
    function Put(n: nat, f: Fate): Log { if 0 < n <= |fates| then this.(fates := fates[n - 1 := f]) else this }

    /** The sequence the control loop passes to `latest_after`: that of its newest result, first 0. */
    function Seen(): nat { if consumed == [] then 0 else consumed[|consumed| - 1] }
  }

  const INITIAL := State(false, false, None, 0, None, None, EMPTY_STATS, Log([], [], [], []))

  function Max(x: real, y: real): real { if x < y then y else x }

  /** `Take`, `Exit`, `Publish` and `Fail` are the worker thread's; `Publish` and `Fail` carry the measured time. */
  datatype Event =
    | Start | Submit | Close | Drain | Consume
    | Take | Exit | Publish(ms: real) | Fail(ms: real)

  function Step(s: State, e: Event): State {
    match e
    case Start => if s.alive then s else s.(stop := false, alive := true)
    case Submit =>
      if s.stop then s
      else
        var n := s.nextSequence + 1;
        var log := if s.pending.Some? then s.log.Put(s.pending.value, Replaced) else s.log;
        s.(nextSequence := n, pending := Some(n), log := log.(fates := log.fates + [Pending]),
           stats := s.stats.(submitted := s.stats.submitted + 1,
                             replaced := if s.pending.Some? then s.stats.replaced + 1 else s.stats.replaced))
    case Close =>
      s.(stop := true, pending := None, log := if s.pending.Some? then s.log.Put(s.pending.value, Discarded) else s.log)
    case Drain => s.(stats := EMPTY_STATS, log := s.log.(drained := s.log.drained + [s.stats]))
    case Consume =>
      var r := NewerThan(s, s.log.Seen());
      if r.None? then s else s.(log := s.log.(consumed := s.log.consumed + [r.value.sequence]))
    case Take =>
      if !s.alive || s.solving.Some? || s.stop || s.pending.None? then s
      else s.(solving := s.pending, pending := None, log := s.log.Put(s.pending.value, InFlight))
    case Exit => if s.alive && s.solving.None? && s.stop then s.(alive := false) else s
    case Publish(ms) =>
      if s.solving.None? || ms < 0.0 then s
      else
        var n := s.solving.value;
        var log := s.log.Put(n, Solved);
        s.(solving := None, latest := Some(IkResult(n, ms)), log := log.(results := log.results + [n]),
           stats := s.stats.(solved := s.stats.solved + 1, totalMs := s.stats.totalMs + ms, maxMs := Max(s.stats.maxMs, ms)))
    case Fail(ms) =>
      if s.solving.None? || ms < 0.0 then s
      else
        s.(solving := None, log := s.log.Put(s.solving.value, Failed),
           stats := s.stats.(failed := s.stats.failed + 1, maxMs := Max(s.stats.maxMs, ms)))
  }

  function NewerThan(s: State, sequence: nat): Option<Result> {
    if s.latest.None? || s.latest.value.sequence <= sequence then None else s.latest
  }

  function Run(events: seq<Event>): State {
    if events == [] then INITIAL
    else Step(Run(events[..|events| - 1]), events[|events| - 1])
  }

  // ------------------------------------------------------------------------------------------
  // Order.

  ghost predicate Increasing(s: seq<nat>) { forall i, j :: 0 <= i < j < |s| ==> s[i] < s[j] }

  function Newest(s: State): nat { if s.latest.Some? then s.latest.value.sequence else 0 }

  /** latest < in flight < pending, and pending is the newest. */
  ghost predicate Ordered(s: State) {
    && Newest(s) <= s.nextSequence
    && (s.pending.Some? ==> s.pending.value == s.nextSequence && Newest(s) < s.pending.value)
    && (s.solving.Some? ==> Newest(s) < s.solving.value <= s.nextSequence)
    && (s.solving.Some? && s.pending.Some? ==> s.solving.value < s.pending.value)
    && (s.solving.Some? ==> s.alive)
  }

  /** What was published and what the control loop saw of it. */
  ghost predicate Streamed(s: State) {
    && Increasing(s.log.results)
    && (forall i :: 0 <= i < |s.log.results| ==> s.log.results[i] <= Newest(s))
    && Increasing(s.log.consumed) && s.log.Seen() <= Newest(s)
    && (forall i :: 0 <= i < |s.log.consumed| ==> s.log.consumed[i] in s.log.results)
    && (s.latest.Some? ==> s.latest.value.sequence in s.log.results)
  }

  lemma OrderKept(s: State, e: Event)
    requires Ordered(s)
    ensures Ordered(Step(s, e))
  {
  }

  lemma StreamsKept(s: State, e: Event)
    requires Ordered(s) && Streamed(s)
    ensures Streamed(Step(s, e))
  {
    if e.Publish? {
      PublishStreamed(s, e.ms);
    } else if e == Consume {
      ConsumeStreamed(s);
    } else {
      OthersStreamed(s, e);
    }
    hide *;
  }

  /** A newer result keeps the published sequence increasing. */
  lemma ResultsAppend(results: seq<nat>, newest: nat, n: nat)
    requires Increasing(results) && (forall i :: 0 <= i < |results| ==> results[i] <= newest) && newest < n
    ensures Increasing(results + [n]) && (forall i :: 0 <= i < |results + [n]| ==> (results + [n])[i] <= n)
  {
  }

  /** What was seen stays among the results. */
  lemma SeenAmong(consumed: seq<nat>, results: seq<nat>, n: nat)
    requires forall i :: 0 <= i < |consumed| ==> consumed[i] in results
    ensures n in results + [n] && forall i :: 0 <= i < |consumed| ==> consumed[i] in results + [n]
  {
    assert (results + [n])[|results|] == n;
  }

  lemma PublishStreamed(s: State, ms: real)
    requires Ordered(s) && Streamed(s)
    ensures Streamed(Step(s, Publish(ms)))
  {
    if s.solving.Some? && ms >= 0.0 {
      var n := s.solving.value;
      ResultsAppend(s.log.results, Newest(s), n);
      SeenAmong(s.log.consumed, s.log.results, n);
      var t := Step(s, Publish(ms));
      assert t.log.results == s.log.results + [n] && t.log.consumed == s.log.consumed && t.latest == Some(IkResult(n, ms));
      hide Step, Increasing;
    }
  }

  lemma ConsumeStreamed(s: State)
    requires Ordered(s) && Streamed(s)
    ensures Streamed(Step(s, Consume))
  {
  }

  lemma OthersStreamed(s: State, e: Event)
    requires Streamed(s) && !e.Publish? && e != Consume
    ensures Streamed(Step(s, e))
  {
    var t := Step(s, e);
    assert t.log.results == s.log.results && t.log.consumed == s.log.consumed && t.latest == s.latest;
    hide Step, Increasing;
  }

  // ------------------------------------------------------------------------------------------
  // Conservation.

  function Count(fates: seq<Fate>, f: Fate): nat {
    if fates == [] then 0
    else Count(fates[..|fates| - 1], f) + if fates[|fates| - 1] == f then 1 else 0
  }

  lemma {:induction false} CountUpdate(fates: seq<Fate>, i: nat, g: Fate, f: Fate)
    requires i < |fates|
    ensures Count(fates[i := g], f) == Count(fates, f) - (if fates[i] == f then 1 else 0) + (if g == f then 1 else 0)
  {
    var n := |fates| - 1;
    if i < n {
      CountUpdate(fates[..n], i, g, f);
      assert fates[i := g][..n] == fates[..n][i := g];
    } else {
      assert fates[i := g][..n] == fates[..n];
    }
  }

  lemma CountAppend(fates: seq<Fate>, g: Fate, f: Fate)
    ensures Count(fates + [g], f) == Count(fates, f) + (if g == f then 1 else 0)
  {
    assert (fates + [g])[..|fates|] == fates;
  }

  function SumSubmitted(d: seq<Stats>): nat { if d == [] then 0 else SumSubmitted(d[..|d| - 1]) + d[|d| - 1].submitted }
  function SumSolved(d: seq<Stats>): nat { if d == [] then 0 else SumSolved(d[..|d| - 1]) + d[|d| - 1].solved }
  function SumReplaced(d: seq<Stats>): nat { if d == [] then 0 else SumReplaced(d[..|d| - 1]) + d[|d| - 1].replaced }
  function SumFailed(d: seq<Stats>): nat { if d == [] then 0 else SumFailed(d[..|d| - 1]) + d[|d| - 1].failed }

  /** The statistics since the start, across drains. */
  function Total(s: State): Stats {
    var d := s.log.drained;
    Stats(SumSubmitted(d) + s.stats.submitted, SumSolved(d) + s.stats.solved,
          SumReplaced(d) + s.stats.replaced, SumFailed(d) + s.stats.failed, 0.0, 0.0)
  }

  function One(o: Option<nat>): nat { if o.Some? then 1 else 0 }

  /** The counters agree with the fates of the submitted targets. */
  ghost predicate Accounted(s: State) {
    var t, fates := Total(s), s.log.fates;
    && |fates| == s.nextSequence == t.submitted
    && Count(fates, Solved) == t.solved
    && Count(fates, Failed) == t.failed
    && Count(fates, Replaced) == t.replaced
    && Count(fates, Pending) == One(s.pending)
    && Count(fates, InFlight) == One(s.solving)
    && (s.pending.Some? ==> 0 < s.pending.value <= |fates| && fates[s.pending.value - 1] == Pending)
    && (s.solving.Some? ==> 0 < s.solving.value <= |fates| && fates[s.solving.value - 1] == InFlight)
  }

  lemma PutCounts(log: Log, n: nat, g: Fate)
    requires 0 < n <= |log.fates|
    ensures forall f :: Count(log.Put(n, g).fates, f)
                     == Count(log.fates, f) - (if log.fates[n - 1] == f then 1 else 0) + (if g == f then 1 else 0)
  {
    forall f
      ensures Count(log.Put(n, g).fates, f)
           == Count(log.fates, f) - (if log.fates[n - 1] == f then 1 else 0) + (if g == f then 1 else 0)
    {
      CountUpdate(log.fates, n - 1, g, f);
    }
  }

  lemma AccountsKept(s: State, e: Event)
    requires Accounted(s) && Ordered(s)
    ensures Accounted(Step(s, e))
  {
    match e
    case Submit => SubmitAccounted(s);
    case Drain => DrainAccounted(s);
    case Close => CloseAccounted(s);
    case Take => TakeAccounted(s);
    case Publish(ms) => EndAccounted(s, e, Solved);
    case Fail(ms) => EndAccounted(s, e, Failed);
    case _ => hide Count, SumSubmitted, SumSolved, SumReplaced, SumFailed, Ordered;
  }

  lemma SumsAppend(d: seq<Stats>, st: Stats)
    ensures SumSubmitted(d + [st]) == SumSubmitted(d) + st.submitted && SumSolved(d + [st]) == SumSolved(d) + st.solved
    ensures SumReplaced(d + [st]) == SumReplaced(d) + st.replaced && SumFailed(d + [st]) == SumFailed(d) + st.failed
  {
    assert (d + [st])[..|d|] == d;
  }

  lemma DrainAccounted(s: State)
    requires Accounted(s)
    ensures Accounted(Step(s, Drain))
  {
    hide Count, SumSubmitted, SumSolved, SumReplaced, SumFailed;
    SumsAppend(s.log.drained, s.stats);
  }

  lemma CloseAccounted(s: State)
    requires Accounted(s) && Ordered(s)
    ensures Accounted(Step(s, Close))
  {
    if s.pending.Some? {
      PutCounts(s.log, s.pending.value, Discarded);
    }
    hide Count, SumSubmitted, SumSolved, SumReplaced, SumFailed;
  }

  lemma TakeAccounted(s: State)
    requires Accounted(s) && Ordered(s)
    ensures Accounted(Step(s, Take))
  {
    if s.pending.Some? {
      PutCounts(s.log, s.pending.value, InFlight);
    }
    hide Count, SumSubmitted, SumSolved, SumReplaced, SumFailed;
  }

  lemma EndAccounted(s: State, e: Event, f: Fate)
    requires Accounted(s) && Ordered(s) && ((e.Publish? && f == Solved) || (e.Fail? && f == Failed))
    ensures Accounted(Step(s, e))
  {
    if s.solving.Some? {
      PutCounts(s.log, s.solving.value, f);
    }
    hide Count, SumSubmitted, SumSolved, SumReplaced, SumFailed;
  }

  lemma SubmitAccounted(s: State)
    requires Accounted(s) && Ordered(s)
    ensures Accounted(Step(s, Submit))
  {
    var log := if s.pending.Some? then s.log.Put(s.pending.value, Replaced) else s.log;
    if s.pending.Some? {
      PutCounts(s.log, s.pending.value, Replaced);
    }
    forall f
      ensures Count(log.fates + [Pending], f) == Count(log.fates, f) + (if Pending == f then 1 else 0)
    {
      CountAppend(log.fates, Pending, f);
    }
  }

  lemma {:induction false} FatesExhaust(fates: seq<Fate>)
    ensures |fates| == Count(fates, Pending) + Count(fates, InFlight) + Count(fates, Solved)
                     + Count(fates, Failed) + Count(fates, Replaced) + Count(fates, Discarded)
  {
    if fates != [] {
      FatesExhaust(fates[..|fates| - 1]);
    }
  }

  // ------------------------------------------------------------------------------------------
  // Times.

  ghost predicate Timed(st: Stats) {
    st.maxMs >= 0.0 && 0.0 <= st.totalMs <= st.maxMs * (st.solved as real)
  }

  lemma AddTime(total: real, most: real, n: nat, ms: real)
    requires most >= 0.0 && ms >= 0.0 && 0.0 <= total <= most * (n as real)
    ensures total + ms <= Max(most, ms) * ((n + 1) as real)
    ensures total <= Max(most, ms) * (n as real)
  {
    var k := n as real;
    assert (n + 1) as real == k + 1.0;
    assert (Max(most, ms) - most) * k >= 0.0;
    assert Max(most, ms) * (k + 1.0) == Max(most, ms) * k + Max(most, ms);
  }

  lemma TimesKept(s: State, e: Event)
    requires Timed(s.stats)
    ensures Timed(Step(s, e).stats)
  {
    if e.Publish? || e.Fail? {
      if e.ms >= 0.0 {
        AddTime(s.stats.totalMs, s.stats.maxMs, s.stats.solved, e.ms);
      }
    }
  }

  /** A drained average never exceeds the drained maximum. */
  lemma AverageAtMostMaximum(st: Stats)
    requires Timed(st)
    ensures 0.0 <= st.AverageMs() <= st.maxMs
  {
    if st.solved > 0 {
      var k := st.solved as real;
      assert st.totalMs / k <= (st.maxMs * k) / k == st.maxMs;
    }
  }

  // ------------------------------------------------------------------------------------------
  // Every run.

  ghost predicate Inv(s: State) {
    && Ordered(s) && Streamed(s) && Accounted(s) && Timed(s.stats)
    && forall i :: 0 <= i < |s.log.drained| ==> Timed(s.log.drained[i])
  }

  lemma StepKeeps(s: State, e: Event)
    requires Inv(s)
    ensures Inv(Step(s, e))
  {
    OrderKept(s, e);
    StreamsKept(s, e);
    AccountsKept(s, e);
    TimesKept(s, e);
    DrainedKept(s, e);
    hide *;
  }

  lemma DrainedKept(s: State, e: Event)
    requires Inv(s)
    ensures forall i :: 0 <= i < |Step(s, e).log.drained| ==> Timed(Step(s, e).log.drained[i])
  {
    hide Ordered, Accounted, Timed;
  }

  lemma {:induction false} RunKeeps(events: seq<Event>)
    ensures Inv(Run(events))
  {
    hide Inv, Step;
    if events == [] {
      InitialKeeps();
    } else {
      var n := |events| - 1;
      RunKeeps(events[..n]);
      StepKeeps(Run(events[..n]), events[n]);
    }
  }

  lemma InitialTimed()
    ensures Timed(EMPTY_STATS)
  {
    assert 0.0 * (0 as real) == 0.0;
  }

  lemma NothingAccounted(s: State)
    requires s.log.fates == [] && s.log.drained == [] && s.nextSequence == 0 && s.pending == None && s.solving == None
    requires s.stats.submitted == s.stats.solved == s.stats.replaced == s.stats.failed == 0
    ensures Accounted(s)
  {
  }

  lemma InitialKeeps()
    ensures Inv(INITIAL)
  {
    hide Timed, Accounted;
    InitialTimed();
    NothingAccounted(INITIAL);
  }

  /** In every run: the latest result is older than the target being solved, which is older than the pending
      one, which is the newest submitted. */
  lemma SequencesOrdered(events: seq<Event>)
    ensures var s := Run(events);
         && (s.pending.Some? ==> s.pending.value == s.nextSequence)
         && (s.solving.Some? ==> Newest(s) < s.solving.value)
         && (s.pending.Some? ==> Newest(s) < s.pending.value)
         && (s.solving.Some? && s.pending.Some? ==> s.solving.value < s.pending.value)
  {
    RunKeeps(events);
    hide Run, Accounted, Timed;
  }

  /** Across all drains every submitted target is accounted for exactly once. */
  lemma TargetsConserved(events: seq<Event>)
    ensures var s := Run(events); var t := Total(s);
         && t.submitted == s.nextSequence == |s.log.fates|
         && t.submitted == t.solved + t.failed + t.replaced + One(s.pending) + One(s.solving) + Count(s.log.fates, Discarded)
  {
    RunKeeps(events);
    FatesExhaust(Run(events).log.fates);
    hide Run, Ordered, Timed, Count;
  }

  /** Results are published in strictly increasing order, and the control loop sees some of them, each at
      most once and in that order. */
  lemma ResultsIncrease(events: seq<Event>)
    ensures var s := Run(events);
         && Increasing(s.log.results) && Increasing(s.log.consumed)
         && (forall i :: 0 <= i < |s.log.consumed| ==> s.log.consumed[i] in s.log.results)
         && (forall i :: 0 <= i < |s.log.results| ==> s.log.results[i] <= s.nextSequence)
  {
    RunKeeps(events);
    hide Run, Accounted, Timed;
  }

  lemma DrainedAverages(events: seq<Event>, i: nat)
    requires i < |Run(events).log.drained|
    ensures var st := Run(events).log.drained[i]; 0.0 <= st.AverageMs() <= st.maxMs
  {
    RunKeeps(events);
    var s := Run(events);
    assert Timed(s.log.drained[i]);
    AverageAtMostMaximum(s.log.drained[i]);
  }

  /** After `close` nothing is taken or submitted until the old thread is gone and `start` is called:
      at most the solve under way still ends. */
  lemma {:induction false} ClosedStaysIdle(s: State, events: seq<Event>)
    requires s.stop && s.pending.None? && forall i :: 0 <= i < |events| ==> events[i] != Start
    ensures var t := RunFrom(s, events);
         && t.stop && t.pending.None? && t.nextSequence == s.nextSequence
         && (t.solving == s.solving || t.solving.None?)
         && |s.log.results| <= |t.log.results| <= |s.log.results| + One(s.solving)
         && (t.solving.Some? ==> |t.log.results| == |s.log.results|)
  {
    if events != [] {
      ClosedStaysIdle(s, events[..|events| - 1]);
    }
  }

  function RunFrom(s: State, events: seq<Event>): State {
    if events == [] then s
    else Step(RunFrom(s, events[..|events| - 1]), events[|events| - 1])
  }

  // ------------------------------------------------------------------------------------------
  // The class. Each method is one section under the condition variable.

  class LatestIkWorker {
    var stop: bool
    var alive: bool
    var solving: Option<nat>
    var nextSequence: nat
    var pending: Option<nat>
    var latestResult: Option<Result>
    var stats: Stats
    ghost var log: Log

    ghost function View(): State
      reads this
    {
      State(stop, alive, solving, nextSequence, pending, latestResult, stats, log)
    }

    constructor ()
      ensures View() == INITIAL
    {
      stop, alive, solving, nextSequence, pending, latestResult := false, false, None, 0, None, None;
      stats := EMPTY_STATS;
      log := INITIAL.log;
    }

    method Start()
      modifies this
      ensures View() == Step(old(View()), Event.Start)
    {
      if alive {
        return;
      }
      stop := false;
      alive := true;
    }

    method Submit() returns (sequence: nat)
      modifies this
      ensures View() == Step(old(View()), Event.Submit) && sequence == nextSequence
      ensures sequence == old(nextSequence) + if old(stop) then 0 else 1
    {
      if stop {
        return nextSequence;
      }
      nextSequence := nextSequence + 1;
      if pending.Some? {
        stats := stats.(replaced := stats.replaced + 1);
        log := log.Put(pending.value, Replaced);
      }
      pending := Some(nextSequence);
      stats := stats.(submitted := stats.submitted + 1);
      log := log.(fates := log.fates + [Pending]);
      return nextSequence;
    }

    method LatestAfter(sequence: nat) returns (r: Option<Result>)
      ensures r == NewerThan(View(), sequence)
      ensures r.Some? ==> r.value.sequence > sequence && r == latestResult
    {
      r := latestResult;
      if r.None? || r.value.sequence <= sequence {
        return None;
      }
    }

    /** The control loop's call: `seen` is the sequence of the newest result it got, first 0. */
    method Poll(seen: nat) returns (r: Option<Result>)
      requires seen == log.Seen()
      modifies this`log
      ensures r == NewerThan(old(View()), seen) && View() == Step(old(View()), Consume)
      ensures log.Seen() == if r.Some? then r.value.sequence else seen
    {
      r := LatestAfter(seen);
      if r.Some? {
        log := log.(consumed := log.consumed + [r.value.sequence]);
      }
    }

    method DrainStats() returns (r: Stats, average: real)
      requires Timed(stats)
      modifies this
      ensures View() == Step(old(View()), Drain)
      ensures r == old(stats) && average == r.AverageMs() && 0.0 <= average <= r.maxMs
    {
      r := stats;
      AverageAtMostMaximum(stats);
      log := log.(drained := log.drained + [stats]);
      stats := EMPTY_STATS;
      average := if r.solved == 0 then 0.0 else r.totalMs / (r.solved as real);
    }

    method Close()
      modifies this
      ensures View() == Step(old(View()), Event.Close)
    {
      stop := true;
      if pending.Some? {
        log := log.Put(pending.value, Discarded);
      }
      pending := None;
    }

    /** The worker thread's wait: it returns when stopped, else takes the pending target. */
    method Next() returns (sequence: Option<nat>)
      requires alive && solving.None? && (pending.Some? || stop)
      modifies this
      ensures View() == if old(stop) then Step(old(View()), Exit) else Step(old(View()), Take)
      ensures sequence == if old(stop) then None else old(pending)
    {
      if stop {
        alive := false;
        return None;
      }
      sequence := pending;
      log := log.Put(pending.value, InFlight);
      pending, solving := None, pending;
    }

    /** After a solve of `sequence` that took `ms`, or raised. */
    method Finish(sequence: nat, ms: real, raised: bool)
      requires solving == Some(sequence) && ms >= 0.0
      modifies this
      ensures View() == Step(old(View()), if raised then Fail(ms) else Publish(ms))
    {
      solving := None;
      if raised {
        stats := stats.(failed := stats.failed + 1, maxMs := Max(stats.maxMs, ms));
        log := log.Put(sequence, Failed);
        return;
      }
      latestResult := Some(IkResult(sequence, ms));
      stats := stats.(solved := stats.solved + 1, totalMs := stats.totalMs + ms, maxMs := Max(stats.maxMs, ms));
      log := log.Put(sequence, Solved);
      log := log.(results := log.results + [sequence]);
    }
  }
}
