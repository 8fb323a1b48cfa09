/** The other side of the restart limiter (dexfull/bridge/process_manager.py): a crash within the allowance is
    restarted at once, a degraded process after its cooldown, and a stable process is forgiven its crashes. */
module RestartPromptness {
  import opened Wrappers
  import opened RestartLimiter

  // ------------------------------------------------------------------------------------------
  // Within the allowance.

  /** All crashes known at the end: those remembered at the start, then those detected. */
  function History(before: seq<real>, crashes: seq<Crash>): (r: seq<real>)
    ensures |r| == |before| + |crashes|
  {
    before + seq(|crashes|, i requires 0 <= i < |crashes| => crashes[i].time)
  }

  ghost predicate Sorted(times: seq<real>) { forall i, j :: 0 <= i <= j < |times| ==> times[i] <= times[j] }

  ghost predicate UpTo(times: seq<real>, t: real) { forall i :: 0 <= i < |times| ==> times[i] <= t }

  ghost predicate EndOf(end: seq<real>, all: seq<real>) { |end| <= |all| && end == all[|all| - |end|..] }

  /** Crash `b` was degraded only because it is the last of `maxRestarts + 1` crashes within the window. */
  ghost predicate Deserved(cfg: Config, before: seq<real>, crashes: seq<Crash>, b: nat)
    requires b < |crashes|
  {
    var all, m := History(before, crashes), |before| + b;
    !crashes[b].immediate && cfg.maxRestarts >= 0 ==> cfg.maxRestarts <= m && all[m] - all[m - cfg.maxRestarts] <= cfg.window
  }

  ghost predicate Prompt(cfg: Config, before: seq<real>, s: State) {
    && EndOf(s.p.crashTimes, History(before, s.log.crashes))
    && Sorted(History(before, s.log.crashes))
    && UpTo(History(before, s.log.crashes), s.clock)
    && (forall b :: 0 <= b < |s.log.crashes| ==> Deserved(cfg, before, s.log.crashes, b))
  }

  lemma HistorySnoc(before: seq<real>, crashes: seq<Crash>, c: Crash)
    ensures History(before, crashes + [c]) == History(before, crashes) + [c.time]
  {
  }

  lemma EndOfEnd(end: seq<real>, all: seq<real>, r: seq<real>, x: real)
    requires EndOf(end, all) && EndOf(r, end)
    ensures EndOf(r + [x], all + [x])
  {
    var n, m, k := |all|, |end|, |r|;
    assert r == all[n - m..][m - k..] == all[n - k..];
    assert (all + [x])[n - k..] == all[n - k..] + [x];
  }

  /** The oldest crash kept is in the window, so every crash kept is. */
  lemma KeptInWindow(all: seq<real>, r: seq<real>, now: real, window: real, k: nat)
    requires Sorted(all) && EndOf(r + [now], all) && (r != [] ==> now - r[0] <= window) && window >= 0.0 && k < |r| + 1
    ensures now - all[|all| - 1 - k] <= window
  {
    var end := r + [now];
    assert end[|end| - 1 - k] == all[|all| - 1 - k];
    assert all[|all| - 1] == end[|end| - 1] == now;
    if r != [] {
      assert end[0] == all[|all| - |end|] == r[0];
    }
  }

  /** What a check that detects a crash does, as far as the allowance is concerned. */
  lemma CrashCounts(cfg: Config, p: Process, now: real)
    ensures var (q, c) := HealthCheck(cfg, p, now);
            if c.None? then q.crashTimes == p.crashTimes || q.crashTimes == []
            else && c.value.time == now && q.crashTimes == Pruned(p.crashTimes, now, cfg.window) + [now]
                 && (c.value.immediate <==> |q.crashTimes| <= cfg.maxRestarts)
  {
    hide Pruned;
  }

  lemma CheckedParts(cfg: Config, s: State, now: real)
    requires now >= s.clock
    ensures var t := Checked(cfg, s, now); var (q, c) := HealthCheck(cfg, s.p, now);
         && t.p == q && t.clock == now
         && t.log.crashes == (if c.Some? then s.log.crashes + [c.value] else s.log.crashes)
  {
    hide HealthCheck;
  }

  lemma CheckedPrompt(cfg: Config, before: seq<real>, s: State, now: real)
    requires cfg.Valid() && Prompt(cfg, before, s) && now >= s.clock
    ensures Prompt(cfg, before, Checked(cfg, s, now))
  {
    CheckedParts(cfg, s, now);
    CrashCounts(cfg, s.p, now);
    hide Checked, HealthCheck, Pruned, History;
    var t := Checked(cfg, s, now);
    var (q, c) := HealthCheck(cfg, s.p, now);
    if c.Some? {
      CrashPrompt(cfg, before, s, t, c.value);
    } else {
      hide Deserved;
    }
  }

  lemma CrashPrompt(cfg: Config, before: seq<real>, s: State, t: State, c: Crash)
    requires cfg.Valid() && Prompt(cfg, before, s) && c.time == t.clock >= s.clock
    requires t.p.crashTimes == Pruned(s.p.crashTimes, c.time, cfg.window) + [c.time] && t.log.crashes == s.log.crashes + [c]
    requires c.immediate <==> |t.p.crashTimes| <= cfg.maxRestarts
    ensures Prompt(cfg, before, t)
  {
    var r, all := Pruned(s.p.crashTimes, c.time, cfg.window), History(before, s.log.crashes);
    PrunedIsEnd(s.p.crashTimes, c.time, cfg.window);
    hide Pruned, Config.Valid, History, EndOf, Sorted, UpTo, Deserved;
    HistorySnoc(before, s.log.crashes, c);
    EndOfEnd(s.p.crashTimes, all, r, c.time);
    SortedSnoc(all, s.clock, c.time);
    forall b | 0 <= b < |t.log.crashes|
      ensures Deserved(cfg, before, t.log.crashes, b)
    {
      if b < |s.log.crashes| {
        DeservedKept(cfg, before, s.log.crashes, c, b);
      } else {
        NewDeserved(cfg, before, s.log.crashes, r, c);
      }
    }
  }

  lemma PrunedIsEnd(times: seq<real>, now: real, window: real)
    ensures EndOf(Pruned(times, now, window), times)
  {
    hide Pruned;
  }

  lemma NewDeserved(cfg: Config, before: seq<real>, crashes: seq<Crash>, r: seq<real>, c: Crash)
    requires cfg.Valid() && Sorted(History(before, crashes + [c])) && EndOf(r + [c.time], History(before, crashes + [c]))
    requires (r != [] ==> c.time - r[0] <= cfg.window) && (c.immediate <==> |r| + 1 <= cfg.maxRestarts)
    ensures Deserved(cfg, before, crashes + [c], |crashes|)
  {
    hide History, Sorted, EndOf, Config.Valid;
    if !c.immediate && cfg.maxRestarts >= 0 {
      LongEnough(cfg, History(before, crashes + [c]), r, c.time);
    }
  }

  lemma LongEnough(cfg: Config, all: seq<real>, r: seq<real>, now: real)
    requires cfg.Valid() && Sorted(all) && EndOf(r + [now], all) && (r != [] ==> now - r[0] <= cfg.window)
    requires 0 <= cfg.maxRestarts < |r| + 1
    ensures cfg.maxRestarts <= |all| - 1 && all[|all| - 1] - all[|all| - 1 - cfg.maxRestarts] <= cfg.window
  {
    KeptInWindow(all, r, now, cfg.window, cfg.maxRestarts);
    assert (r + [now])[|r|] == all[|all| - 1];
  }

  lemma SortedSnoc(all: seq<real>, t: real, x: real)
    requires Sorted(all) && UpTo(all, t) && t <= x
    ensures Sorted(all + [x]) && UpTo(all + [x], x)
  {
  }

  lemma DeservedKept(cfg: Config, before: seq<real>, crashes: seq<Crash>, c: Crash, b: nat)
    requires b < |crashes| && Deserved(cfg, before, crashes, b)
    ensures Deserved(cfg, before, crashes + [c], b)
  {
    HistorySnoc(before, crashes, c);
    hide History;
  }

  lemma StepPrompt(cfg: Config, before: seq<real>, s: State, e: Event)
    requires cfg.Valid() && Prompt(cfg, before, s)
    ensures Prompt(cfg, before, Step(cfg, s, e))
  {
    match e
    case Exit =>
      hide History, Deserved;
    case Check(now) =>
      if now >= s.clock {
        CheckedPrompt(cfg, before, s, now);
      }
      hide Prompt, HealthCheck;
    case Loop(now, later, spawned) =>
      if s.clock <= now <= later {
        LoopIs(cfg, s, now, later, spawned);
        CheckedPrompt(cfg, before, s, now);
        hide Step, Checked, Prompt;
        RestartedPrompt(cfg, before, Checked(cfg, s, now), later, spawned);
      }
  }

  lemma RestartedPrompt(cfg: Config, before: seq<real>, s: State, later: real, spawned: bool)
    requires Prompt(cfg, before, s) && later >= s.clock
    ensures Prompt(cfg, before, Restarted(cfg, s, later, spawned))
  {
    hide History, Deserved;
    var t := Restarted(cfg, s, later, spawned);
    assert t.log.crashes == s.log.crashes && t.p.crashTimes == s.p.crashTimes && t.clock >= s.clock;
  }

  lemma {:induction false} RunPrompt(cfg: Config, t0: real, before: seq<real>, events: seq<Event>)
    requires cfg.Valid() && Sorted(before) && forall i :: 0 <= i < |before| ==> before[i] <= t0
    ensures Prompt(cfg, before, Run(cfg, Started(t0, before), events))
  {
    hide Step;
    if events == [] {
      StartedPrompt(cfg, t0, before);
    } else {
      hide Prompt;
      var n := |events| - 1;
      RunPrompt(cfg, t0, before, events[..n]);
      StepPrompt(cfg, before, Run(cfg, Started(t0, before), events[..n]), events[n]);
    }
  }

  lemma StartedPrompt(cfg: Config, t0: real, before: seq<real>)
    requires Sorted(before) && forall i :: 0 <= i < |before| ==> before[i] <= t0
    ensures Prompt(cfg, before, Started(t0, before))
  {
    assert History(before, []) == before;
  }

  /** A detected crash is restarted at once unless it is the last of more than `maxRestarts` crashes, those known
      before the start included, within the window. */
  lemma DegradedOnlyAbove(cfg: Config, t0: real, before: seq<real>, events: seq<Event>, b: nat)
    requires cfg.Valid() && cfg.maxRestarts >= 0 && Sorted(before) && forall i :: 0 <= i < |before| ==> before[i] <= t0
    requires b < |Run(cfg, Started(t0, before), events).log.crashes|
    ensures var crashes := Run(cfg, Started(t0, before), events).log.crashes; var all, m := History(before, crashes), |before| + b;
            !crashes[b].immediate ==> m >= cfg.maxRestarts && all[m] - all[m - cfg.maxRestarts] <= cfg.window
  {
    RunPrompt(cfg, t0, before, events);
    hide Run, History;
    assert Deserved(cfg, before, Run(cfg, Started(t0, before), events).log.crashes, b);
  }

  /** So a process started without a record of crashes is restarted at once after its first `maxRestarts` crashes. */
  lemma FirstCrashesImmediate(cfg: Config, t0: real, events: seq<Event>, b: nat)
    requires cfg.Valid() && b < |Run(cfg, Started(t0, []), events).log.crashes| && b < cfg.maxRestarts
    ensures Run(cfg, Started(t0, []), events).log.crashes[b].immediate
  {
    DegradedOnlyAbove(cfg, t0, [], events, b);
    hide Run, History;
  }

  // ------------------------------------------------------------------------------------------
  // Restarts happen.

  /** What the newest crash still makes the process wait for. */
  ghost predicate CoolingDown(cfg: Config, s: State, now: real) {
    && s.log.crashes != []
    && var c := s.log.crashes[|s.log.crashes| - 1]; !c.immediate && now < c.time + cfg.cooldown
  }

  lemma CheckDetects(cfg: Config, s: State, now: real)
    requires cfg.Valid() && cfg.autoRestart && Inv(cfg, s) && s.p.state != Fatal && now >= s.clock
    ensures var t := Checked(cfg, s, now);
         && t.p.state != Fatal
         && (s.p.child == Alive ==> t.p.child == Alive && t.p.state == Running && t.log == s.log)
         && (s.p.child == Exited && s.p.state == Running ==>
              && t.log.crashes == s.log.crashes + [t.log.crashes[|s.log.crashes|]] && t.log.crashes[|s.log.crashes|].time == now
              && t.p.state == (if t.log.crashes[|s.log.crashes|].immediate then Crashed else Degraded))
         && (s.p.state == Crashed ==> t.p.state == Crashed && t.log == s.log)
         && (s.p.state == Degraded ==> t.log == s.log && t.p.state == (if CoolingDown(cfg, s, now) then Degraded else Crashed))
  {
    hide Pruned, Limited, Remembered;
  }

  /** One turn of the health loop whose start succeeds leaves the process running, unless its newest crash is
      still cooling down, in which case nothing is started. */
  lemma LoopRevives(cfg: Config, t0: real, before: seq<real>, events: seq<Event>, now: real, later: real)
    requires cfg.Valid() && cfg.autoRestart
    requires var s := Run(cfg, Started(t0, before), events); s.p.state != Fatal && s.clock <= now <= later
    ensures var s := Run(cfg, Started(t0, before), events); var t := Step(cfg, s, Loop(now, later, true));
            if CoolingDown(cfg, t, now) && s.p.child == Exited
            then t.p.state == Degraded && t.p.child == Exited && t.log.restarts == s.log.restarts
            else && t.p.state == Running && t.p.child == Alive
                 && t.log.restarts == (if s.p.child == Alive then s.log.restarts else s.log.restarts + [later])
  {
    RunKeeps(cfg, t0, before, events);
    var s := Run(cfg, Started(t0, before), events);
    hide Run;
    Revives(cfg, s, now, later);
  }

  lemma Revives(cfg: Config, s: State, now: real, later: real)
    requires cfg.Valid() && cfg.autoRestart && Inv(cfg, s) && s.p.state != Fatal && s.clock <= now <= later
    ensures var t := Step(cfg, s, Loop(now, later, true));
            if CoolingDown(cfg, t, now) && s.p.child == Exited
            then t.p.state == Degraded && t.p.child == Exited && t.log.restarts == s.log.restarts
            else && t.p.state == Running && t.p.child == Alive
                 && t.log.restarts == (if s.p.child == Alive then s.log.restarts else s.log.restarts + [later])
  {
    LoopIs(cfg, s, now, later, true);
    CheckDetects(cfg, s, now);
    CheckedShape(cfg, s, now);
    PhaseOf(cfg, s);
    hide Step, Checked, Inv, Config.Valid;
  }

  lemma PhaseOf(cfg: Config, s: State)
    requires Inv(cfg, s)
    ensures s.p.child != NoChild && s.p.state in {Running, Crashed, Degraded, Fatal} && (s.p.state != Running ==> s.p.child == Exited)
  {
    hide Timed, CooledDown, Remembered, Limited;
  }

  /** A start that fails, or a crash without automatic restarts, is final. */
  lemma FatalForGood(cfg: Config, s: State, e: Event)
    requires s.p.state == Fatal && s.p.child != Alive
    ensures Step(cfg, s, e).p.state == Fatal && Step(cfg, s, e).log.restarts == s.log.restarts
  {
  }

  lemma FailedStartIsFatal(cfg: Config, t0: real, before: seq<real>, events: seq<Event>, now: real, later: real)
    requires cfg.Valid()
    requires var s := Run(cfg, Started(t0, before), events); s.p.state != Fatal && s.clock <= now <= later && s.p.child == Exited
    ensures var s := Run(cfg, Started(t0, before), events); var t := Step(cfg, s, Loop(now, later, false));
         && t.log.restarts == s.log.restarts
         && (t.p.state == Fatal || (cfg.autoRestart && t.p.state == Degraded && CoolingDown(cfg, t, now)))
  {
    RunKeeps(cfg, t0, before, events);
    var s := Run(cfg, Started(t0, before), events);
    hide Run;
    FailedTurn(cfg, s, now, later);
  }

  lemma FailedTurn(cfg: Config, s: State, now: real, later: real)
    requires cfg.Valid() && Inv(cfg, s) && s.p.state != Fatal && s.clock <= now <= later && s.p.child == Exited
    ensures var t := Step(cfg, s, Loop(now, later, false));
         && t.log.restarts == s.log.restarts
         && (t.p.state == Fatal || (cfg.autoRestart && t.p.state == Degraded && CoolingDown(cfg, t, now)))
  {
    LoopIs(cfg, s, now, later, false);
    CheckedShape(cfg, s, now);
    PhaseOf(cfg, s);
    if cfg.autoRestart {
      CheckDetects(cfg, s, now);
    } else {
      WithoutRestarts(cfg, s, now);
    }
    hide Step, Checked, Inv, Config.Valid;
  }

  lemma WithoutRestarts(cfg: Config, s: State, now: real)
    requires !cfg.autoRestart && Inv(cfg, s) && now >= s.clock && s.p.child == Exited
    ensures Checked(cfg, s, now).p.state == Fatal && Checked(cfg, s, now).log == s.log
  {
    hide Timed, CooledDown, Remembered, Limited, Pruned;
  }

  // ------------------------------------------------------------------------------------------
  // An operator's stop.

  /** An exit that was asked for is no crash: nothing is counted, a cooldown under way is dropped, and nothing is
      restarted until an operator starts the process again, which clears the request. */
  lemma RequestedStopIsNoCrash(cfg: Config, p: Process, now: real, later: real)
    requires p.stopRequested && p.child == Exited && p.state != Fatal
    ensures var (q, c) := HealthCheck(cfg, p, now);
         && c == None && q.state == Stopped && q.crashTimes == p.crashTimes && q.restartCount == p.restartCount
         && !ShouldAutoRestart(cfg, q) && HealthCheck(cfg, q, later) == (q, None)
         && Start(q, later, true) == q.(state := Running, child := Alive, stopRequested := false, stableDone := false, lastStart := later)
         && Start(q, later, false) == q.(state := Fatal, stopRequested := false)
  {
    hide Pruned;
  }

  /** Without a child the process is stopped, and a child that lives is running, whatever the state said before. */
  lemma StateFollowsChild(cfg: Config, p: Process, now: real)
    requires p.state != Fatal && p.state != Degraded && p.child != Exited
    ensures var (q, c) := HealthCheck(cfg, p, now); c == None && q.state == if p.child == Alive then Running else Stopped
    ensures p.child == Alive ==> Start(p, now, true) == p.(state := Running) == Start(p, now, false)
  {
    hide Pruned;
  }

  // ------------------------------------------------------------------------------------------
  // Stability.

  /** A run that was reset as stable has no crashes left to count. */
  ghost predicate Forgiven(s: State) { s.p.child == Alive && s.p.stableDone ==> s.p.crashTimes == [] }

  lemma CheckForgives(cfg: Config, p: Process, now: real)
    requires p.child == Alive && p.stableDone ==> p.crashTimes == []
    ensures var q := HealthCheck(cfg, p, now).0; q.child == Alive && q.stableDone ==> q.crashTimes == []
  {
    hide Pruned;
  }

  lemma RestartForgives(cfg: Config, s: State, later: real, spawned: bool)
    requires Forgiven(s) && later >= s.clock
    ensures Forgiven(Restarted(cfg, s, later, spawned))
  {
  }

  lemma StepForgives(cfg: Config, s: State, e: Event)
    requires Forgiven(s)
    ensures Forgiven(Step(cfg, s, e))
  {
    match e
    case Exit =>
    case Check(now) =>
      CheckForgives(cfg, s.p, now);
      hide HealthCheck;
    case Loop(now, later, spawned) =>
      if s.clock <= now <= later {
        LoopIs(cfg, s, now, later, spawned);
        CheckForgives(cfg, s.p, now);
        CheckedParts(cfg, s, now);
        hide HealthCheck, Step, Checked, Restarted;
        RestartForgives(cfg, Checked(cfg, s, now), later, spawned);
      }
  }

  lemma {:induction false} RunForgives(cfg: Config, t0: real, before: seq<real>, events: seq<Event>)
    ensures Forgiven(Run(cfg, Started(t0, before), events))
  {
    if events != [] {
      hide Step;
      var n := |events| - 1;
      RunForgives(cfg, t0, before, events[..n]);
      StepForgives(cfg, Run(cfg, Started(t0, before), events[..n]), events[n]);
    }
  }

  /** After a run that was seen stable the next crash is restarted at once, however many there were before. */
  lemma StableForgives(cfg: Config, t0: real, before: seq<real>, events: seq<Event>, now: real, later: real)
    requires cfg.Valid() && cfg.autoRestart && cfg.maxRestarts >= 1
    requires var s := Run(cfg, Started(t0, before), events);
             s.p.child == Alive && s.clock <= now <= later && now - s.p.lastStart >= cfg.stable
    ensures var s := Run(cfg, Started(t0, before), events);
            Step(cfg, Step(cfg, Step(cfg, s, Check(now)), Exit), Check(later)).log.crashes == s.log.crashes + [Crash(later, true)]
  {
    RunKeeps(cfg, t0, before, events);
    RunForgives(cfg, t0, before, events);
    var s := Run(cfg, Started(t0, before), events);
    hide Run;
    AliveIsRunning(cfg, s);
    hide Inv, Step, HealthCheck;
    ForgivenAndRestarted(cfg, s, now, later);
  }

  lemma ForgivenAndRestarted(cfg: Config, s: State, now: real, later: real)
    requires cfg.autoRestart && cfg.maxRestarts >= 1 && Forgiven(s)
    requires s.p.child == Alive && s.p.state == Running && !s.p.stopRequested && s.clock <= now <= later && now - s.p.lastStart >= cfg.stable
    ensures Step(cfg, Step(cfg, Step(cfg, s, Check(now)), Exit), Check(later)).log.crashes == s.log.crashes + [Crash(later, true)]
  {
    StableCheck(cfg, s.p, now);
    var p := HealthCheck(cfg, s.p, now).0;
    NextCrash(cfg, p.(child := Exited), later);
    hide HealthCheck;
    var t := Step(cfg, s, Check(now));
    assert t == State(p, now, s.log);
    var u := Step(cfg, t, Exit);
    assert u == State(p.(child := Exited), now, s.log.(exits := s.log.exits + 1));
  }

  lemma AliveIsRunning(cfg: Config, s: State)
    requires Inv(cfg, s) && s.p.child == Alive
    ensures s.p.state == Running && !s.p.stopRequested
  {
    hide Timed, CooledDown, Remembered, Limited;
  }

  lemma StableCheck(cfg: Config, p: Process, now: real)
    requires p.child == Alive && p.state == Running && (p.stableDone ==> p.crashTimes == []) && now - p.lastStart >= cfg.stable
    ensures var (q, c) := HealthCheck(cfg, p, now);
            c == None && q.crashTimes == [] && q.child == Alive && q.state == Running && q.stopRequested == p.stopRequested
  {
    hide Pruned;
  }

  lemma NextCrash(cfg: Config, p: Process, later: real)
    requires p.child == Exited && p.state == Running && p.crashTimes == [] && !p.stopRequested && cfg.autoRestart && cfg.maxRestarts >= 1
    ensures HealthCheck(cfg, p, later).1 == Some(Crash(later, true))
  {
    NothingToPrune(p.crashTimes, later, cfg.window);
    hide Pruned;
  }

  lemma NothingToPrune(times: seq<real>, now: real, window: real)
    requires times == []
    ensures Pruned(times, now, window) == []
  {
  }
}
