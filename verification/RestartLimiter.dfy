/** Automatic restarts of one supervised process (dexfull/bridge/process_manager.py): the sliding window of
    crashes, the stable reset, and the cooldown.  Times are readings of a clock that does not go back: an
    event with an earlier time changes nothing. */
module RestartLimiter {
  import opened Arithmetic
  import opened Wrappers

  datatype ProcessState = Stopped | Starting | Running | Stopping | Crashed | Fatal | Degraded

  /** What `poll` says of the child. */
  datatype Child = NoChild | Alive | Exited

  datatype Config = Config(autoRestart: bool, maxRestarts: int, window: real, stable: real, cooldown: real) {
    /** The constructor raises each duration to at least one second. */
    predicate Valid() { window >= 1.0 && stable >= 1.0 && cooldown >= 1.0 }

    /** The shorter of crash window and stable reset. */
    function Span(): real { if window < stable then window else stable }
  }

  datatype Process = Process(state: ProcessState, child: Child, restartCount: nat, lastStart: real, stopRequested: bool,
                             crashTimes: seq<real>, nextRetry: real, stableDone: bool)

  datatype Crash = Crash(time: real, immediate: bool)

  /** Every detected crash and the time of the restart that followed it, in order; and how many exits there were. */
  datatype Log = Log(crashes: seq<Crash>, restarts: seq<real>, exits: nat)

  datatype State = State(p: Process, clock: real, log: Log)

  /** A process that an operator started at `t`, with the crashes remembered from before. */
  function Started(t: real, crashTimes: seq<real>): State {
    State(Process(Running, Alive, |crashTimes|, t, false, crashTimes, 0.0, false), t, Log([], [], 0))
  }

  /** `Check` is a health check outside the loop; `Loop` is one turn of the health loop, which reads the clock
      in the check and again in a start, `spawned` telling whether a start attempted in it succeeds. */
  datatype Event = Exit | Check(now: real) | Loop(now: real, later: real, spawned: bool)

  /** The crashes still in the window. */
  function Pruned(times: seq<real>, now: real, window: real): (r: seq<real>)
    ensures |r| <= |times| && r == times[|times| - |r|..]
    ensures forall i :: 0 <= i < |times| - |r| ==> now - times[i] > window
    ensures r != [] ==> now - r[0] <= window
  {
    if times != [] && now - times[0] > window then Pruned(times[1..], now, window) else times
  }

  /** `check_health`: the process after it, and the crash it detected, if any. */
  function HealthCheck(cfg: Config, p: Process, now: real): (Process, Option<Crash>) {
    if p.state == Fatal then (p, None)
    else if p.state == Degraded then
      if p.stopRequested then (p.(state := Stopped), None)
      else if cfg.autoRestart && now >= p.nextRetry then (p.(state := Crashed), None)
      else (p, None)
    else if p.child == NoChild then (p.(state := Stopped), None)
    else if p.child == Alive then
      if !p.stableDone && now - p.lastStart >= cfg.stable
      then (p.(state := Running, crashTimes := [], restartCount := 0, stableDone := true), None)
      else (p.(state := Running), None)
    else if p.stopRequested then (p.(state := Stopped), None)
    else if p.state == Crashed then (p, None)
    else if !cfg.autoRestart then (p.(state := Fatal), None)
    else
      var times := Pruned(p.crashTimes, now, cfg.window) + [now];
      var q := p.(crashTimes := times, restartCount := |times|);
      if |times| > cfg.maxRestarts
      then (q.(state := Degraded, nextRetry := now + cfg.cooldown), Some(Crash(now, false)))
      else (q.(state := Crashed), Some(Crash(now, true)))
  }

  function ShouldAutoRestart(cfg: Config, p: Process): bool { cfg.autoRestart && p.state == Crashed }

  /** `start` of a process that is not running. */
  function Start(p: Process, now: real, spawned: bool): Process {
    if p.child == Alive then p.(state := Running)
    else if spawned then p.(state := Running, child := Alive, lastStart := now, stopRequested := false, stableDone := false)
    else p.(state := Fatal, stopRequested := false)
  }

  function AddCrash(log: Log, c: Option<Crash>): Log {
    if c.Some? then log.(crashes := log.crashes + [c.value]) else log
  }

  function Step(cfg: Config, s: State, e: Event): State {
    match e
    case Exit => if s.p.child == Alive then s.(p := s.p.(child := Exited), log := s.log.(exits := s.log.exits + 1)) else s
    case Check(now) =>
      if now < s.clock then s
      else var (p, c) := HealthCheck(cfg, s.p, now); State(p, now, AddCrash(s.log, c))
    case Loop(now, later, spawned) =>
      if now < s.clock || later < now then s
      else
        var (p, c) := HealthCheck(cfg, s.p, now);
        var log := AddCrash(s.log, c);
        if ShouldAutoRestart(cfg, p)
        then State(Start(p, later, spawned), later, if spawned then log.(restarts := log.restarts + [later]) else log)
        else State(p, now, log)
  }

  function Run(cfg: Config, s: State, events: seq<Event>): State {
    if events == [] then s
    else Step(cfg, Run(cfg, s, events[..|events| - 1]), events[|events| - 1])
  }

  // ------------------------------------------------------------------------------------------
  // What every run keeps.

  /** Whether the last detected crash still awaits its restart. */
  predicate Awaiting(s: State) { |s.log.crashes| == |s.log.restarts| + 1 }

  /** Phases: each restart answers one crash, and each exit is detected at most once. */
  ghost predicate Phases(cfg: Config, s: State) {
    && (|s.log.crashes| == |s.log.restarts| || Awaiting(s))
    && !s.p.stopRequested && s.p.child != NoChild
    && (s.p.state == Running || s.p.state == Crashed || s.p.state == Degraded || s.p.state == Fatal)
    && (s.p.state == Crashed || s.p.state == Degraded ==> Awaiting(s) && s.p.child == Exited && cfg.autoRestart)
    && (s.p.state == Running ==> !Awaiting(s))
    && (s.p.child == Alive ==> s.p.state == Running)
    && s.log.exits == |s.log.restarts| + (if s.p.child == Exited then 1 else 0)
    && s.p.restartCount == |s.p.crashTimes|
  }

  /** Crashes and restarts alternate in time. */
  ghost predicate Timed(s: State) {
    && (forall i :: 0 <= i < |s.log.crashes| ==> s.log.crashes[i].time <= s.clock)
    && (forall i :: 0 <= i < |s.log.restarts| ==> s.log.restarts[i] <= s.clock)
    && (forall i :: 0 <= i < |s.log.restarts| && i < |s.log.crashes| ==> s.log.crashes[i].time <= s.log.restarts[i])
    && (forall i, j :: 0 <= i < |s.log.restarts| && i < j < |s.log.crashes| ==> s.log.restarts[i] <= s.log.crashes[j].time)
    && (forall i, j :: 0 <= i < j < |s.log.crashes| ==> s.log.crashes[i].time <= s.log.crashes[j].time)
    && (s.p.child == Alive ==> forall i :: 0 <= i < |s.log.crashes| ==> s.log.crashes[i].time <= s.p.lastStart)
  }

  /** Cooldown restarts wait for the cooldown after their crash. */
  ghost predicate CooledDown(cfg: Config, s: State) {
    && (forall i :: 0 <= i < |s.log.restarts| && i < |s.log.crashes| && !s.log.crashes[i].immediate ==>
          s.log.restarts[i] >= s.log.crashes[i].time + cfg.cooldown)
    && (Awaiting(s) && s.p.state == Degraded ==>
          && s.p.nextRetry == s.log.crashes[|s.log.crashes| - 1].time + cfg.cooldown
          && !s.log.crashes[|s.log.crashes| - 1].immediate)
    && (Awaiting(s) && s.p.state == Crashed && !s.log.crashes[|s.log.crashes| - 1].immediate ==>
          s.clock >= s.log.crashes[|s.log.crashes| - 1].time + cfg.cooldown)
  }

  /** The deque ends with the newest crashes of this run; every older one is at least a span back. */
  ghost predicate Remembered(cfg: Config, s: State) {
    forall i :: 0 <= i < |s.log.crashes| ==>
      s.log.crashes[i].time + cfg.Span() <= s.clock || Kept(s.p.crashTimes, s.log.crashes, i)
  }

  /** The deque ends with the crashes from `i` on. */
  ghost predicate Kept(times: seq<real>, crashes: seq<Crash>, i: nat)
    requires i < |crashes|
  {
    var n, m := |crashes|, |times|;
    n - i <= m && forall j :: i <= j < n ==> times[m - (n - j)] == crashes[j].time
  }

  /** A window shorter than the span that ends in an immediate crash holds at most `maxRestarts` crashes. */
  ghost predicate Limited(cfg: Config, crashes: seq<Crash>) {
    forall a, b :: 0 <= a <= b < |crashes| && crashes[b].immediate && crashes[b].time - crashes[a].time < cfg.Span() ==>
      b - a + 1 <= cfg.maxRestarts
  }

  ghost predicate Inv(cfg: Config, s: State) {
    Phases(cfg, s) && Timed(s) && CooledDown(cfg, s) && Remembered(cfg, s) && Limited(cfg, s.log.crashes)
  }

  /** One health check in the loop or outside it, without the restart. */
  function Checked(cfg: Config, s: State, now: real): State
    requires now >= s.clock
  {
    var (p, c) := HealthCheck(cfg, s.p, now);
    State(p, now, AddCrash(s.log, c))
  }

  lemma CheckedPhases(cfg: Config, s: State, now: real)
    requires cfg.Valid() && Phases(cfg, s) && now >= s.clock
    ensures Phases(cfg, Checked(cfg, s, now))
  {
  }

  lemma CheckedTimed(cfg: Config, s: State, now: real)
    requires cfg.Valid() && Phases(cfg, s) && Timed(s) && now >= s.clock
    ensures Timed(Checked(cfg, s, now))
  {
    CheckedShape(cfg, s, now);
    var t := Checked(cfg, s, now);
    hide Checked, Phases, Config.Valid;
    if t.log != s.log {
      TimedSnoc(s, t, t.log.crashes[|s.log.crashes|]);
    }
  }

  /** A crash detected at a later clock reading keeps the order of times. */
  lemma TimedSnoc(s: State, t: State, c: Crash)
    requires Timed(s) && c.time == t.clock >= s.clock && t.p.child != Alive
    requires t.log.restarts == s.log.restarts && |s.log.restarts| <= |s.log.crashes|
    requires t.log.crashes == s.log.crashes + [c]
    ensures Timed(t)
  {
  }

  /** What a check can change, as far as times are concerned. */
  lemma CheckedShape(cfg: Config, s: State, now: real)
    requires now >= s.clock
    ensures var t := Checked(cfg, s, now);
         && t.clock == now && t.p.child == s.p.child && t.p.lastStart == s.p.lastStart
         && t.log.restarts == s.log.restarts && t.log.exits == s.log.exits
         && (t.log != s.log ==>
               && |t.log.crashes| == |s.log.crashes| + 1 && t.log.crashes == s.log.crashes + [t.log.crashes[|s.log.crashes|]]
               && t.log.crashes[|s.log.crashes|].time == now && s.p.child == Exited)
  {
    hide Pruned;
  }

  lemma CheckedCooled(cfg: Config, s: State, now: real)
    requires cfg.Valid() && Phases(cfg, s) && Timed(s) && CooledDown(cfg, s) && now >= s.clock
    ensures CooledDown(cfg, Checked(cfg, s, now))
  {
  }

  lemma CheckedRemembered(cfg: Config, s: State, now: real)
    requires cfg.Valid() && Phases(cfg, s) && Timed(s) && Remembered(cfg, s) && now >= s.clock
    ensures Remembered(cfg, Checked(cfg, s, now))
  {
    var t := Checked(cfg, s, now);
    if t.log != s.log {
      CrashRemembered(cfg, s, now);
    } else {
      forall i | 0 <= i < |s.log.crashes|
        ensures s.log.crashes[i].time + cfg.Span() <= now || Kept(t.p.crashTimes, t.log.crashes, i)
      {
        assert s.log.crashes[i].time + cfg.Span() <= s.clock || Kept(s.p.crashTimes, s.log.crashes, i);
      }
    }
  }

  /** Pruning leaves the end of the deque. */
  lemma PrunedEnd(times: seq<real>, now: real, window: real, k: nat)
    requires k < |times| && now - times[k] <= window
    ensures var r := Pruned(times, now, window); |times| - k <= |r| && r == times[|times| - |r|..]
  {
  }

  lemma KeptSuffix(times: seq<real>, end: seq<real>, crashes: seq<Crash>, i: nat)
    requires i < |crashes| && Kept(times, crashes, i) && |crashes| - i <= |end| <= |times| && end == times[|times| - |end|..]
    ensures Kept(end, crashes, i)
  {
    var n, m := |crashes|, |times|;
    forall j | i <= j < n
      ensures end[|end| - (n - j)] == crashes[j].time
    {
      assert end[|end| - (n - j)] == times[m - (n - j)];
    }
  }

  /** A crash in the window survives the pruning. */
  lemma KeptPruned(times: seq<real>, crashes: seq<Crash>, i: nat, now: real, window: real)
    requires i < |crashes| && Kept(times, crashes, i) && now - crashes[i].time <= window
    ensures Kept(Pruned(times, now, window), crashes, i)
  {
    assert times[|times| - (|crashes| - i)] == crashes[i].time;
    PrunedEnd(times, now, window, |times| - (|crashes| - i));
    hide Pruned, Kept;
    KeptSuffix(times, Pruned(times, now, window), crashes, i);
  }

  lemma KeptAppended(times: seq<real>, crashes: seq<Crash>, i: nat, c: Crash)
    requires i <= |crashes| && (i < |crashes| ==> Kept(times, crashes, i))
    ensures Kept(times + [c.time], crashes + [c], i)
  {
    var n, m := |crashes|, |times|;
    forall j | i <= j < n + 1
      ensures (times + [c.time])[m + 1 - (n + 1 - j)] == (crashes + [c])[j].time
    {
      if j < n {
        assert times[m - (n - j)] == crashes[j].time;
      }
    }
  }

  /** One crash, when a new one is counted. */
  lemma KeptOrOld(cfg: Config, times: seq<real>, crashes: seq<Crash>, c: Crash, i: nat, clock: real)
    requires i <= |crashes| && clock <= c.time
    requires i < |crashes| ==> crashes[i].time + cfg.Span() <= clock || Kept(times, crashes, i)
    ensures (crashes + [c])[i].time + cfg.Span() <= c.time || Kept(Pruned(times, c.time, cfg.window) + [c.time], crashes + [c], i)
  {
    hide Pruned, Kept;
    if i == |crashes| || crashes[i].time + cfg.Span() > c.time {
      if i < |crashes| {
        KeptPruned(times, crashes, i, c.time, cfg.window);
      }
      KeptAppended(Pruned(times, c.time, cfg.window), crashes, i, c);
    }
  }

  lemma CrashRemembered(cfg: Config, s: State, now: real)
    requires cfg.Valid() && Remembered(cfg, s) && now >= s.clock && Checked(cfg, s, now).log != s.log
    ensures Remembered(cfg, Checked(cfg, s, now))
  {
    var t := Checked(cfg, s, now);
    var c := t.log.crashes[|s.log.crashes|];
    CrashShape(cfg, s, now);
    hide Checked, HealthCheck, Pruned, Kept, Config.Span;
    forall i | 0 <= i < |t.log.crashes|
      ensures t.log.crashes[i].time + cfg.Span() <= now || Kept(t.p.crashTimes, t.log.crashes, i)
    {
      KeptOrOld(cfg, s.p.crashTimes, s.log.crashes, c, i, s.clock);
    }
  }

  lemma CrashShape(cfg: Config, s: State, now: real)
    requires now >= s.clock && Checked(cfg, s, now).log != s.log
    ensures var t := Checked(cfg, s, now); var n := |s.log.crashes|;
         && |t.log.crashes| == n + 1 && t.log.crashes[n].time == now && t.log.crashes == s.log.crashes + [t.log.crashes[n]]
         && t.p.crashTimes == Pruned(s.p.crashTimes, now, cfg.window) + [now] && t.clock == now
  {
    hide Pruned;
  }

  /** A crash restarts at once only while the deque holds at most `maxRestarts` crashes. */
  lemma ImmediateFits(cfg: Config, p: Process, now: real)
    ensures var (q, c) := HealthCheck(cfg, p, now); c.Some? && c.value.immediate ==> |q.crashTimes| <= cfg.maxRestarts
  {
    hide Pruned;
  }

  lemma NewestCrash(cfg: Config, s: State, now: real)
    requires now >= s.clock && Checked(cfg, s, now).log != s.log
    ensures var t := Checked(cfg, s, now);
            var (q, c) := HealthCheck(cfg, s.p, now); t.p == q && c == Some(t.log.crashes[|s.log.crashes|])
  {
    hide HealthCheck;
  }

  lemma LimitedSnoc(cfg: Config, crashes: seq<Crash>, c: Crash, clock: real, times: seq<real>)
    requires Limited(cfg, crashes) && c.time == clock && (c.immediate ==> |times| <= cfg.maxRestarts)
    requires forall i :: 0 <= i <= |crashes| ==>
      (crashes + [c])[i].time + cfg.Span() <= clock || Kept(times, crashes + [c], i)
    ensures Limited(cfg, crashes + [c])
  {
    var longer := crashes + [c];
    hide Config.Span;
    forall a, b | 0 <= a <= b < |longer| && longer[b].immediate && longer[b].time - longer[a].time < cfg.Span()
      ensures b - a + 1 <= cfg.maxRestarts
    {
      if b == |crashes| {
        assert Kept(times, longer, a);
      } else {
        assert longer[a] == crashes[a] && longer[b] == crashes[b];
      }
    }
  }

  lemma CheckedLimited(cfg: Config, s: State, now: real)
    requires cfg.Valid() && Limited(cfg, s.log.crashes) && now >= s.clock && Remembered(cfg, Checked(cfg, s, now))
    ensures Limited(cfg, Checked(cfg, s, now).log.crashes)
  {
    var t := Checked(cfg, s, now);
    if t.log != s.log {
      CrashShape(cfg, s, now);
      ImmediateFits(cfg, s.p, now);
      NewestCrash(cfg, s, now);
      hide Checked, HealthCheck, Limited, Kept, Config.Span;
      LimitedSnoc(cfg, s.log.crashes, t.log.crashes[|s.log.crashes|], now, t.p.crashTimes);
    }
  }

  lemma CheckedKeeps(cfg: Config, s: State, now: real)
    requires cfg.Valid() && Inv(cfg, s) && now >= s.clock
    ensures Inv(cfg, Checked(cfg, s, now))
  {
    CheckedPhases(cfg, s, now);
    CheckedTimed(cfg, s, now);
    CheckedCooled(cfg, s, now);
    CheckedRemembered(cfg, s, now);
    CheckedLimited(cfg, s, now);
    hide *;
  }

  /** The restart that follows a check in the same turn of the loop. */
  function Restarted(cfg: Config, s: State, later: real, spawned: bool): State
    requires later >= s.clock
  {
    if ShouldAutoRestart(cfg, s.p)
    then State(Start(s.p, later, spawned), later, if spawned then s.log.(restarts := s.log.restarts + [later]) else s.log)
    else s
  }

  lemma RestartedKeeps(cfg: Config, s: State, later: real, spawned: bool)
    requires cfg.Valid() && Inv(cfg, s) && later >= s.clock
    ensures Inv(cfg, Restarted(cfg, s, later, spawned))
  {
    RestartedPhases(cfg, s, later, spawned);
    RestartedTimes(cfg, s, later, spawned);
    RestartedRemembers(cfg, s, later, spawned);
    hide Phases, Timed, CooledDown, Limited, Remembered;
  }

  lemma RestartedPhases(cfg: Config, s: State, later: real, spawned: bool)
    requires Phases(cfg, s) && later >= s.clock
    ensures Phases(cfg, Restarted(cfg, s, later, spawned))
  {
  }

  lemma RestartedTimes(cfg: Config, s: State, later: real, spawned: bool)
    requires cfg.Valid() && Phases(cfg, s) && Timed(s) && CooledDown(cfg, s) && later >= s.clock
    ensures Timed(Restarted(cfg, s, later, spawned)) && CooledDown(cfg, Restarted(cfg, s, later, spawned))
  {
  }

  lemma RestartedRemembers(cfg: Config, s: State, later: real, spawned: bool)
    requires Remembered(cfg, s) && later >= s.clock
    ensures var t := Restarted(cfg, s, later, spawned); Remembered(cfg, t) && t.log.crashes == s.log.crashes
  {
    hide Kept;
    var t := Restarted(cfg, s, later, spawned);
    assert t.log.crashes == s.log.crashes && t.p.crashTimes == s.p.crashTimes && t.clock >= s.clock;
  }

  lemma StepKeeps(cfg: Config, s: State, e: Event)
    requires cfg.Valid() && Inv(cfg, s)
    ensures Inv(cfg, Step(cfg, s, e))
  {
    match e
    case Exit => ExitKeeps(cfg, s);
    case Check(now) =>
      if now >= s.clock {
        CheckedKeeps(cfg, s, now);
        hide Inv, HealthCheck;
      }
    case Loop(now, later, spawned) =>
      if s.clock <= now <= later {
        LoopKeeps(cfg, s, now, later, spawned);
        hide *;
      }
  }

  lemma LoopKeeps(cfg: Config, s: State, now: real, later: real, spawned: bool)
    requires cfg.Valid() && Inv(cfg, s) && s.clock <= now <= later
    ensures Inv(cfg, Step(cfg, s, Loop(now, later, spawned)))
  {
    CheckedKeeps(cfg, s, now);
    CheckedNow(cfg, s, now);
    LoopIs(cfg, s, now, later, spawned);
    hide Inv, Step, Checked, Restarted;
    RestartedKeeps(cfg, Checked(cfg, s, now), later, spawned);
  }

  lemma CheckedNow(cfg: Config, s: State, now: real)
    requires now >= s.clock
    ensures Checked(cfg, s, now).clock == now
  {
  }

  /** A turn of the loop is a check and then, if due, a restart. */
  lemma LoopIs(cfg: Config, s: State, now: real, later: real, spawned: bool)
    requires s.clock <= now <= later
    ensures Checked(cfg, s, now).clock <= later
    ensures Step(cfg, s, Loop(now, later, spawned)) == Restarted(cfg, Checked(cfg, s, now), later, spawned)
  {
    hide HealthCheck, Start, ShouldAutoRestart;
  }

  lemma ExitKeeps(cfg: Config, s: State)
    requires Inv(cfg, s)
    ensures Inv(cfg, Step(cfg, s, Exit))
  {
    hide Limited, Kept;
  }

  lemma {:induction false} RunKeeps(cfg: Config, t0: real, crashTimes: seq<real>, events: seq<Event>)
    requires cfg.Valid()
    ensures Inv(cfg, Run(cfg, Started(t0, crashTimes), events))
  {
    hide Inv, Step;
    if events == [] {
      StartedKeeps(cfg, t0, crashTimes);
    } else {
      var n := |events| - 1;
      RunKeeps(cfg, t0, crashTimes, events[..n]);
      StepKeeps(cfg, Run(cfg, Started(t0, crashTimes), events[..n]), events[n]);
    }
  }

  lemma StartedKeeps(cfg: Config, t0: real, crashTimes: seq<real>)
    ensures Inv(cfg, Started(t0, crashTimes))
  {
  }

  // ------------------------------------------------------------------------------------------
  // Bounds over unbounded runs without operator actions.

  /** Any window of crash detections that is shorter than crash window and stable reset and ends in an
      immediate restart holds at most `maxRestarts` crashes. */
  lemma ImmediateRestartsLimited(cfg: Config, t0: real, crashTimes: seq<real>, events: seq<Event>, a: nat, b: nat)
    requires cfg.Valid()
    requires var c := Run(cfg, Started(t0, crashTimes), events).log.crashes;
             a <= b < |c| && c[b].immediate && c[b].time - c[a].time < cfg.Span()
    ensures b - a + 1 <= cfg.maxRestarts
  {
    RunKeeps(cfg, t0, crashTimes, events);
    hide Run, Phases, Timed, CooledDown, Remembered;
  }

  /** A cooldown retry comes at least the cooldown after every earlier restart. */
  lemma CooldownsSpaced(cfg: Config, t0: real, crashTimes: seq<real>, events: seq<Event>, p: nat, q: nat)
    requires cfg.Valid()
    requires var l := Run(cfg, Started(t0, crashTimes), events).log; p < q < |l.restarts| && q < |l.crashes| && !l.crashes[q].immediate
    ensures var l := Run(cfg, Started(t0, crashTimes), events).log; l.restarts[q] >= l.restarts[p] + cfg.cooldown
  {
    RunKeeps(cfg, t0, crashTimes, events);
    hide Run, Limited, Remembered;
  }

  /** Each exit is counted at most once, each restart answers exactly one counted crash, and the count shown
      is the number of crashes remembered. */
  lemma ExitsCountedOnce(cfg: Config, t0: real, crashTimes: seq<real>, events: seq<Event>)
    requires cfg.Valid()
    ensures var s := Run(cfg, Started(t0, crashTimes), events);
         && s.p.restartCount == |s.p.crashTimes|
         && |s.log.restarts| <= |s.log.crashes| <= |s.log.restarts| + 1
         && |s.log.crashes| <= s.log.exits <= |s.log.crashes| + 1
  {
    RunKeeps(cfg, t0, crashTimes, events);
    hide Run, Limited, Remembered, Timed, CooledDown;
  }

  // ------------------------------------------------------------------------------------------
  // All restarts together.

  /** Restarts `p` to `q` that were immediate, or else cooldown retries. */
  function CountImmediate(crashes: seq<Crash>, p: nat, q: int): nat
    requires q < |crashes|
    decreases q
  {
    if q < p then 0 else CountImmediate(crashes, p, q - 1) + if crashes[q].immediate then 1 else 0
  }

  function CountCooldown(crashes: seq<Crash>, p: nat, q: int): nat
    requires q < |crashes|
    decreases q
  {
    if q < p then 0 else CountCooldown(crashes, p, q - 1) + if crashes[q].immediate then 0 else 1
  }

  lemma {:induction false} CountsAddUp(crashes: seq<Crash>, p: nat, q: int)
    requires p - 1 <= q < |crashes|
    ensures CountImmediate(crashes, p, q) + CountCooldown(crashes, p, q) == q - p + 1
    decreases q
  {
    if q >= p {
      CountsAddUp(crashes, p, q - 1);
    }
  }

  /** What the bound needs of a log: crashes and restarts alternate, immediate ones are limited, and cooldown
      retries are spaced. */
  ghost predicate Regular(cfg: Config, l: Log) {
    && |l.restarts| <= |l.crashes|
    && Limited(cfg, l.crashes)
    && (forall i, j :: 0 <= i < j < |l.restarts| ==> l.restarts[i] <= l.crashes[j].time)
    && (forall i :: 0 <= i < |l.restarts| ==> l.crashes[i].time <= l.restarts[i])
    && (forall i, j :: 0 <= i < j < |l.restarts| && !l.crashes[j].immediate ==> l.restarts[j] >= l.restarts[i] + cfg.cooldown)
  }

  lemma RunRegular(cfg: Config, t0: real, crashTimes: seq<real>, events: seq<Event>)
    requires cfg.Valid()
    ensures Regular(cfg, Run(cfg, Started(t0, crashTimes), events).log)
  {
    RunKeeps(cfg, t0, crashTimes, events);
    hide Run, Remembered, Limited;
  }

  /** After restart `b` and within a span of it, few restarts are immediate: their crashes were detected in
      that span. */
  lemma {:induction false} FewImmediate(cfg: Config, l: Log, b: nat, p: nat, q: int)
    requires Regular(cfg, l) && b < p && p - 1 <= q < |l.restarts|
    requires l.restarts[q] - l.restarts[b] < cfg.Span()
    ensures CountImmediate(l.crashes, p, q) <= if cfg.maxRestarts > 0 then cfg.maxRestarts else 0
    decreases q - p
  {
    if p <= q {
      if !l.crashes[q].immediate {
        assert l.restarts[q - 1] <= l.crashes[q].time <= l.restarts[q];
        FewImmediate(cfg, l, b, p, q - 1);
      } else if !l.crashes[p].immediate {
        FewImmediate(cfg, l, b, p + 1, q);
        CountFromFirst(l.crashes, p, q);
      } else {
        assert l.restarts[b] <= l.crashes[p].time && l.crashes[q].time <= l.restarts[q];
        assert q - p + 1 <= cfg.maxRestarts;
        CountsAddUp(l.crashes, p, q);
      }
    }
  }

  lemma {:induction false} CountFromFirst(crashes: seq<Crash>, p: nat, q: int)
    requires p <= q < |crashes| && !crashes[p].immediate
    ensures CountImmediate(crashes, p, q) == CountImmediate(crashes, p + 1, q)
    decreases q
  {
    if p < q {
      CountFromFirst(crashes, p, q - 1);
    }
  }

  /** The cooldown retries after restart `p` take a cooldown each. */
  lemma {:induction false} CooldownsTakeTime(cfg: Config, l: Log, p: nat, q: nat)
    requires Regular(cfg, l) && p <= q < |l.restarts|
    ensures l.restarts[q] - l.restarts[p] >= Prod(CountCooldown(l.crashes, p + 1, q) as real, cfg.cooldown)
    decreases q
  {
    hide Prod, Limited;
    ProdZero(cfg.cooldown);
    if p < q {
      CooldownsTakeTime(cfg, l, p, q - 1);
      var m := CountCooldown(l.crashes, p + 1, q - 1);
      assert l.restarts[q - 1] <= l.crashes[q].time <= l.restarts[q];
      ProdNext(m as real, cfg.cooldown);
      assert (m + 1) as real == m as real + 1.0;
    }
  }

  lemma ProdZero(y: real)
    ensures Prod(0.0, y) == 0.0
  {
  }

  lemma ProdNext(x: real, y: real)
    ensures Prod(x + 1.0, y) == Prod(x, y) + y
  {
  }

  lemma FloorBound(n: nat, d: real, l: real)
    requires d > 0.0 && l >= Prod(n as real, d)
    ensures n <= (l / d).Floor
  {
    var k := l / d;
    assert Prod(k, d) == l;
    ProdMinus(k, n as real, d);
    ProdSign(k - n as real, d);
  }

  lemma ProdMinus(x: real, y: real, d: real)
    ensures Prod(x - y, d) == Prod(x, d) - Prod(y, d)
  {
  }

  lemma ProdSign(x: real, d: real)
    requires d > 0.0
    ensures Prod(x, d) >= 0.0 ==> x >= 0.0
  {
  }

  lemma LogBounded(cfg: Config, l: Log, p: nat, q: nat)
    requires cfg.Valid() && Regular(cfg, l) && p <= q < |l.restarts| && l.restarts[q] - l.restarts[p] < cfg.Span()
    ensures q - p + 1 <= (if cfg.maxRestarts > 0 then cfg.maxRestarts else 0) + ((l.restarts[q] - l.restarts[p]) / cfg.cooldown).Floor + 1
  {
    FewImmediate(cfg, l, p, p + 1, q);
    CooldownsTakeTime(cfg, l, p, q);
    CountsAddUp(l.crashes, p + 1, q);
    hide Regular, Prod, CountImmediate, CountCooldown;
    FloorBound(CountCooldown(l.crashes, p + 1, q), cfg.cooldown, l.restarts[q] - l.restarts[p]);
  }

  /** All restarts in a span shorter than crash window and stable reset, in every run, whoever else checks: the
      first one, at most `maxRestarts` immediate ones, and as many cooldown retries as fit into the span. */
  lemma RestartsBounded(cfg: Config, t0: real, crashTimes: seq<real>, events: seq<Event>, p: nat, q: nat)
    requires cfg.Valid()
    requires p <= q < |Run(cfg, Started(t0, crashTimes), events).log.restarts|
    requires var r := Run(cfg, Started(t0, crashTimes), events).log.restarts; r[q] - r[p] < cfg.Span()
    ensures var r := Run(cfg, Started(t0, crashTimes), events).log.restarts;
            q - p + 1 <= (if cfg.maxRestarts > 0 then cfg.maxRestarts else 0) + ((r[q] - r[p]) / cfg.cooldown).Floor + 1
  {
    RunRegular(cfg, t0, crashTimes, events);
    hide Run, Regular;
    LogBounded(cfg, Run(cfg, Started(t0, crashTimes), events).log, p, q);
  }

  // ------------------------------------------------------------------------------------------
  // The class.

  class ManagedProcess {
    const cfg: Config
    var state: ProcessState
    var child: Child
    var restartCount: nat
    var lastStartTime: real
    var stopRequested: bool
    var crashTimes: seq<real>
    var nextRetryAt: real
    var stableResetDone: bool

    ghost function View(): Process
      reads this
    {
      Process(state, child, restartCount, lastStartTime, stopRequested, crashTimes, nextRetryAt, stableResetDone)
    }

    constructor (autoRestart: bool, maxRestarts: int, window: real, stable: real, cooldown: real)
      ensures cfg.Valid() && View() == Process(Stopped, NoChild, 0, 0.0, false, [], 0.0, false)
    {
      cfg := Config(autoRestart, maxRestarts, AtLeastOne(window), AtLeastOne(stable), AtLeastOne(cooldown));
      state, child, restartCount, lastStartTime, stopRequested := Stopped, NoChild, 0, 0.0, false;
      crashTimes, nextRetryAt, stableResetDone := [], 0.0, false;
    }

    /** Drops the crashes that left the window and counts the new one. */
    method RecordCrash(now: real)
      modifies this`crashTimes, this`restartCount
      ensures crashTimes == Pruned(old(crashTimes), now, cfg.window) + [now] && restartCount == |crashTimes|
    {
      while crashTimes != [] && now - crashTimes[0] > cfg.window
        invariant Pruned(crashTimes, now, cfg.window) == Pruned(old(crashTimes), now, cfg.window)
        decreases |crashTimes|
      {
        crashTimes := crashTimes[1..];
      }
      crashTimes := crashTimes + [now];
      restartCount := |crashTimes|;
    }

    /** The part of `check_health` for a child that exited on its own. */
    method CheckExited(now: real) returns (ghost crash: Option<Crash>)
      requires state != Fatal && state != Degraded && child == Exited && !stopRequested
      modifies this
      ensures (View(), crash) == HealthCheck(cfg, old(View()), now)
    {
      hide Pruned;
      if state == Crashed {
        return None;
      }
      if !cfg.autoRestart {
        state := Fatal;
        return None;
      }
      RecordCrash(now);
      if restartCount > cfg.maxRestarts {
        state, nextRetryAt := Degraded, now + cfg.cooldown;
        return Some(Crash(now, false));
      } else {
        state := Crashed;
        return Some(Crash(now, true));
      }
    }

    method CheckHealth(now: real) returns (r: ProcessState, ghost crash: Option<Crash>)
      modifies this
      ensures (View(), crash) == HealthCheck(cfg, old(View()), now) && r == state
    {
      hide Pruned;
      crash := None;
      if state == Fatal {
      } else if state == Degraded {
        if stopRequested {
          state := Stopped;
        } else if cfg.autoRestart && now >= nextRetryAt {
          state := Crashed;
        }
      } else if child == NoChild {
        state := Stopped;
      } else if child == Alive {
        state := Running;
        if !stableResetDone && now - lastStartTime >= cfg.stable {
          crashTimes, restartCount, stableResetDone := [], 0, true;
        }
      } else if stopRequested {
        state := Stopped;
      } else {
        crash := CheckExited(now);
      }
      r := state;
    }

    method StartProcess(now: real, spawned: bool) returns (ok: bool)
      modifies this
      ensures View() == Start(old(View()), now, spawned) && (ok <==> state == Running)
    {
      if child == Alive {
        state := Running;
        return true;
      }
      state := Starting;
      stopRequested := false;
      if !spawned {
        state := Fatal;
        return false;
      }
      child, lastStartTime, stableResetDone := Alive, now, false;
      state := Running;
      return true;
    }

    /** One turn of the health loop for this process. */
    method HealthTurn(now: real, later: real, spawned: bool, ghost log: Log, ghost clock: real)
      requires clock <= now <= later
      modifies this
      ensures View() == Step(cfg, State(old(View()), clock, log), Loop(now, later, spawned)).p
    {
      var newState, crash := CheckHealth(now);
      if newState == Crashed && cfg.autoRestart {
        var ok := StartProcess(later, spawned);
      }
    }
  }

  function AtLeastOne(x: real): real { if x < 1.0 then 1.0 else x }
}
