/**
  The pattern runner of `GlucoseLEDMonitor` (glucoLedv2.py) as a state
  machine on values: `stop_pattern`, `start_pattern`, one pass of the live
  pattern thread, and the pattern starts of a run of the monitor loop.  The
  class in LedMonitor is proved to follow these transitions exactly.
*/
module PatternRunner {
  import opened Options
  import opened Patterns

  /** The pattern a thread runs and whether it has yet to return. */
  datatype ThreadView = ThreadView(target: Pattern, alive: bool)

  /**
    The runner's observable state: the stop flag, `current_pattern`, the last
    thread started (if any), every action on the PWM output, and the pattern
    of every thread ever started.
  */
  datatype RunnerState = RunnerState(
    stopEvent: bool,
    currentPattern: Option<Pattern>,
    thread: Option<ThreadView>,
    trace: seq<Action>,
    started: seq<Pattern>)
  {
    /** `self.pattern_thread and self.pattern_thread.is_alive()`. */
    predicate Active()
    {
      thread.Some? && thread.value.alive
    }
  }

  /** The state `__init__` leaves: clear flag, no pattern, no thread, nothing written. */
  const Initial: RunnerState := RunnerState(false, None, None, [], [])

  /**
    `stop_pattern`: a live thread is told to stop, joined, and the output is
    then forced to 0; with no live thread nothing changes.
  */
  function Stop(s: RunnerState): (r: RunnerState)
    ensures !r.Active()
    ensures r.started == s.started && r.currentPattern == s.currentPattern
    ensures Output(r.trace) == if s.Active() then Some(0.0) else Output(s.trace)
  {
    if s.Active() then
      OutputAppend(s.trace, [Write(0.0)]);
      assert Writes([Write(0.0)]) == [0.0] by { assert [Write(0.0)][1..] == []; }
      s.(stopEvent := true, thread := Some(s.thread.value.(alive := false)), trace := s.trace + [Write(0.0)])
    else s
  }

  /**
    `start_pattern(p)`: stop first, clear the flag, start a new thread for `p`.
    The new thread is the only live one, whatever was running before.
  */
  function Start(s: RunnerState, p: Pattern): (r: RunnerState)
    ensures r.Active() && r.thread.value.target == p && !r.stopEvent
    ensures r.started == s.started + [p] && r.currentPattern == s.currentPattern
  {
    var stopped := Stop(s);
    stopped.(stopEvent := false, thread := Some(ThreadView(p, true)), started := stopped.started + [p])
  }

  /** One pass of the live thread's loop appends that pattern's actions to the output. */
  function RunPass(s: RunnerState, level: real): (r: RunnerState)
    requires s.Active()
    ensures r.Active() && r.thread == s.thread && r.stopEvent == s.stopEvent
    ensures r.trace == s.trace + Pass(s.thread.value.target, level)
    ensures r.started == s.started && r.currentPattern == s.currentPattern
  {
    s.(trace := s.trace + Pass(s.thread.value.target, level))
  }

  /** The live thread dies of an exception in its body; the output is left as it was. */
  function ThreadDies(s: RunnerState): (r: RunnerState)
    requires s.Active()
    ensures !r.Active() && r.trace == s.trace && r.started == s.started
  {
    s.(thread := Some(s.thread.value.(alive := false)))
  }

  /** The state after the live thread runs one pass per sampled level. */
  function RunPasses(s: RunnerState, levels: seq<real>): (r: RunnerState)
    requires s.Active()
    ensures r.Active()
    decreases |levels|
  {
    if levels == [] then s else RunPasses(RunPass(s, levels[0]), levels[1..])
  }

  /** Regrouping appended actions, stated apart from any pass body so the solver need not unfold one. */
  lemma AppendAssoc(a: seq<Action>, b: seq<Action>, c: seq<Action>)
    ensures a + b + c == a + (b + c)
  {
  }

  /** Passes leave the flag, the thread and the bookkeeping alone and append the pattern's actions, pass after pass. */
  lemma {:induction false} RunPassesTrace(s: RunnerState, levels: seq<real>)
    requires s.Active()
    ensures RunPasses(s, levels) == s.(trace := s.trace + Passes(s.thread.value.target, levels))
    decreases |levels|
  {
    if levels != [] {
      var p := s.thread.value.target;
      RunPassesTrace(RunPass(s, levels[0]), levels[1..]);
      AppendAssoc(s.trace, Pass(p, levels[0]), Passes(p, levels[1..]));
    }
  }

  /**
    The state after starting each pattern of `ps` in turn.  `current_pattern`,
    which nothing assigns, is kept.
  */
  function Run(s: RunnerState, ps: seq<Pattern>): (r: RunnerState)
    ensures r.currentPattern == s.currentPattern
    decreases |ps|
  {
    if ps == [] then s else Run(Start(s, ps[0]), ps[1..])
  }

  /** How many live threads a run of `n` starts stops: all but the first start, and the first too when a pattern was live. */
  function Restarts(wasActive: bool, n: nat): nat
  {
    if n == 0 then 0 else if wasActive then n else n - 1
  }

  /** `stop_pattern` with no thread, or a thread that has returned, changes nothing. */
  lemma StopIdleIsNoOp(s: RunnerState)
    requires !s.Active()
    ensures Stop(s) == s
  {
  }

  /** Stopping twice is stopping once. */
  lemma StopIdempotent(s: RunnerState)
    ensures Stop(Stop(s)) == Stop(s)
  {
  }

  /** With a live thread, `stop_pattern` sets the flag, ends the thread and writes exactly one duty 0. */
  lemma StopLive(s: RunnerState)
    requires s.Active()
    ensures Stop(s).stopEvent && Stop(s).thread == Some(ThreadView(s.thread.value.target, false))
    ensures Stop(s).trace == s.trace + [Write(0.0)]
  {
  }

  /**
    Starting the pattern that is already running is not skipped: the running
    thread is stopped, the LED is forced to 0, and a new thread starts.
  */
  lemma RestartSamePattern(s: RunnerState, p: Pattern)
    requires s.Active() && s.thread.value.target == p
    ensures Start(s, p).trace == s.trace + [Write(0.0)]
    ensures Output(Start(s, p).trace) == Some(0.0)
    ensures Start(s, p).started == s.started + [p]
  {
  }

  /** A start writes to the output only through its stop: one duty 0 if a thread was live, nothing otherwise. */
  lemma StartTrace(s: RunnerState, p: Pattern)
    ensures Start(s, p).trace == s.trace + (if s.Active() then [Write(0.0)] else [])
  {
  }

  /** A run records every pattern it starts, in order. */
  lemma {:induction false} RunStarted(s: RunnerState, ps: seq<Pattern>)
    ensures Run(s, ps).started == s.started + ps
    decreases |ps|
  {
    if ps != [] {
      RunStarted(Start(s, ps[0]), ps[1..]);
      assert [ps[0]] + ps[1..] == ps;
    }
  }

  /** After a non-empty run, exactly the last pattern started is live. */
  lemma {:induction false} RunEndsWithLast(s: RunnerState, ps: seq<Pattern>)
    requires ps != []
    ensures Run(s, ps).Active() && Run(s, ps).thread.value.target == ps[|ps| - 1]
    ensures !Run(s, ps).stopEvent
    decreases |ps|
  {
    if |ps| > 1 {
      RunEndsWithLast(Start(s, ps[0]), ps[1..]);
    }
  }

  /** Over a run, the output receives only duty-0 writes, one for each live thread stopped. */
  lemma {:induction false} RunTrace(s: RunnerState, ps: seq<Pattern>)
    ensures |Run(s, ps).trace| == |s.trace| + Restarts(s.Active(), |ps|)
    ensures Run(s, ps).trace[..|s.trace|] == s.trace
    ensures forall k :: |s.trace| <= k < |Run(s, ps).trace| ==> Run(s, ps).trace[k] == Write(0.0)
    decreases |ps|
  {
    if ps != [] {
      var first := Start(s, ps[0]);
      StartTrace(s, ps[0]);
      RunTrace(first, ps[1..]);
      var t := Run(s, ps).trace;
      assert t == Run(first, ps[1..]).trace;
      assert t[..|first.trace|] == first.trace;
      assert t[..|s.trace|] == first.trace[..|s.trace|];
    }
  }
}
