/**
  The object `GlucoseLEDMonitor` of glucoLedv2.py: its fields and the
  methods that change them (`stop_pattern`, `start_pattern`, one pass of the
  running pattern thread, one iteration and a finite run of
  `monitor_glucose`).  Each method is proved to perform exactly the
  corresponding transition of PatternRunner on the object's `View()`.

  Threads are modelled sequentially.  A `PatternThread` is alive from its
  start until it returns; `join` is the moment the thread, having seen the
  stop flag at the head of its loop, returns.  A pass of a pattern loop is
  atomic (`RunPass`): the flag is never read inside one.  The module-level
  `pwm` object is the `trace` field: every duty write and every sleep of a
  pattern thread, in order.
*/
module LedMonitor {
  import opened Options
  import opened Patterns
  import opened Classifier
  import opened PatternRunner

  /** `threading.Thread(target=<pattern>)` once started. */
  class PatternThread {
    const target: Pattern
    var alive: bool

    /** Create the thread and `start()` it. */
    constructor Start(target: Pattern)
      ensures this.target == target && alive
    {
      this.target := target;
      alive := true;
    }
  }

  /** The pattern each thread of `threads` was started for, in order. */
  ghost function Targets(threads: seq<PatternThread>): (r: seq<Pattern>)
    ensures |r| == |threads|
  {
    if threads == [] then [] else Targets(threads[..|threads| - 1]) + [threads[|threads| - 1].target]
  }

  /**
    Fed fresh in-range readings, a run of the monitor loop starts only the
    in-range pattern, one thread per iteration, and leaves it live.
  */
  lemma SteadyMonitorRun(s: RunnerState, obs: seq<Observation>, parse: string -> Option<int>)
    requires forall i :: 0 <= i < |obs| ==> FreshInRange(obs[i], parse)
    ensures Run(s, Plan(obs, parse)).started == s.started + seq(|obs|, _ => InRange)
    ensures obs != [] ==> Run(s, Plan(obs, parse)).Active() && Run(s, Plan(obs, parse)).thread.value.target == InRange
  {
    SteadyInRange(obs, parse);
    RunStarted(s, Plan(obs, parse));
    if obs != [] {
      RunEndsWithLast(s, Plan(obs, parse));
    }
  }

  /**
    With requests that keep raising, a run of the monitor loop restarts the
    issue pattern every iteration, and the monitor loop's own writes to the
    output are only the 0 of each stop.
  */
  lemma FailingMonitorRun(s: RunnerState, obs: seq<Observation>, parse: string -> Option<int>)
    requires forall i :: 0 <= i < |obs| ==> obs[i].fetched.None?
    ensures Run(s, Plan(obs, parse)).started == s.started + seq(|obs|, _ => Issue)
    ensures obs != [] ==> Run(s, Plan(obs, parse)).Active() && Run(s, Plan(obs, parse)).thread.value.target == Issue
    ensures forall k :: |s.trace| <= k < |Run(s, Plan(obs, parse)).trace| ==> Run(s, Plan(obs, parse)).trace[k] == Write(0.0)
  {
    FailingFetchesNeverSleep(obs, parse);
    RunStarted(s, Plan(obs, parse));
    RunTrace(s, Plan(obs, parse));
    if obs != [] {
      RunEndsWithLast(s, Plan(obs, parse));
    }
  }

  class GlucoseLEDMonitor {
    /** `stop_event`: set asks the pattern thread to return at the head of its loop. */
    var stopEvent: bool
    /** `current_pattern`: set to None by the constructor and never assigned again. */
    var currentPattern: Option<Pattern>
    /** `pattern_thread`: None until the first start, then the thread started last. */
    var patternThread: PatternThread?
    /** Everything done to the PWM output, in order. */
    var trace: seq<Action>
    /** Every thread ever started, oldest first. */
    ghost var spawned: seq<PatternThread>

    /**
      The object invariant: `pattern_thread` is the thread started last, every
      earlier thread has returned (so at most one thread is ever live), and a
      live thread has not been asked to stop.
    */
    ghost predicate Valid()
      reads this, patternThread, spawned
    {
      (patternThread == null <==> spawned == []) &&
      (spawned != [] ==> patternThread == spawned[|spawned| - 1]) &&
      (forall i :: 0 <= i < |spawned| - 1 ==> !spawned[i].alive) &&
      (View().Active() ==> !stopEvent)
    }

    /** The object's state as a PatternRunner state. */
    ghost function View(): RunnerState
      reads this, patternThread
    {
      RunnerState(
        stopEvent,
        currentPattern,
        if patternThread == null then None else Some(ThreadView(patternThread.target, patternThread.alive)),
        trace,
        Targets(spawned))
    }

    /** `__init__`: a clear stop event, no current pattern, no thread. */
    constructor ()
      ensures Valid() && View() == Initial
      ensures patternThread == null && spawned == []
    {
      stopEvent := false;
      currentPattern := None;
      patternThread := null;
      trace := [];
      spawned := [];
    }

    /** `stop_pattern`. */
    method StopPattern()
      requires Valid()
      modifies this, patternThread
      ensures Valid() && View() == Stop(old(View()))
      ensures patternThread == old(patternThread) && spawned == old(spawned)
    {
      if patternThread != null && patternThread.alive {
        stopEvent := true;
        // join: the thread reads the flag at the head of its loop and returns
        patternThread.alive := false;
        trace := trace + [Write(0.0)];
      }
    }

    /** `start_pattern`: the new thread is a fresh object and the only live one. */
    method StartPattern(p: Pattern)
      requires Valid()
      modifies this, patternThread
      ensures Valid() && View() == Start(old(View()), p)
      ensures fresh(patternThread) && spawned == old(spawned) + [patternThread]
      ensures old(patternThread) != null ==> !old(patternThread).alive
    {
      StopPattern();
      stopEvent := false;
      var t := new PatternThread.Start(p);
      patternThread := t;
      spawned := spawned + [t];
      assert spawned[..|spawned| - 1] == old(spawned);
    }

    /**
      One pass of the live thread's loop: the flag is clear, so the thread runs
      its pattern's body once to the end.  `level` is the breathing brightness it
      samples; the blink patterns ignore it.
    */
    method RunPatternPass(level: real)
      requires Valid() && View().Active()
      modifies this
      ensures Valid() && View() == RunPass(old(View()), level)
      ensures patternThread == old(patternThread) && spawned == old(spawned)
    {
      match patternThread.target
      case CriticalLow =>
        trace := trace + [Write(100.0), Pause(51), Write(0.0), Pause(51)];
      case InRange =>
        trace := trace + [Write(level), Pause(10)];
      case CriticalHigh =>
        trace := trace + [Write(level), Pause(50)];
      case Issue =>
        for i := 0 to 3
          invariant trace == old(trace) + Repeat(Blink(100), i)
          invariant stopEvent == old(stopEvent) && patternThread == old(patternThread)
          invariant spawned == old(spawned) && currentPattern == old(currentPattern)
        {
          trace := trace + [Write(100.0), Pause(100), Write(0.0), Pause(100)];
        }
        trace := trace + [Pause(2000)];
    }

    /**
      The live thread's `while not self.stop_event.is_set()` loop, for as many
      passes as `levels` lists.  The flag is tested at the head of each pass,
      but only `StopPattern` sets it, and that ends the thread; so while the
      thread is live (`Valid()`) the test always passes and every pass runs.
    */
    method RunPattern(levels: seq<real>)
      requires Valid() && View().Active()
      modifies this
      ensures Valid() && View() == RunPasses(old(View()), levels)
      ensures patternThread == old(patternThread) && spawned == old(spawned)
    {
      ghost var goal := RunPasses(View(), levels);
      var i := 0;
      while i < |levels| && !stopEvent
        invariant 0 <= i <= |levels|
        invariant Valid() && View().Active()
        invariant patternThread == old(patternThread) && spawned == old(spawned)
        invariant RunPasses(View(), levels[i..]) == goal
      {
        assert levels[i..][1..] == levels[i + 1..];
        RunPatternPass(levels[i]);
        i := i + 1;
      }
    }

    /** The live thread dies of an exception raised in its body. */
    method PatternThreadDies()
      requires Valid() && View().Active()
      modifies patternThread
      ensures Valid() && View() == ThreadDies(old(View()))
    {
      patternThread.alive := false;
    }

    /**
      One iteration of the `while True` loop of `monitor_glucose`: read the
      level, start the pattern `Decide` picks, and return the seconds the
      iteration then sleeps.
    */
    method MonitorIteration(o: Observation, parse: string -> Option<int>) returns (sleep: nat)
      requires Valid()
      modifies this, patternThread
      ensures Valid() && View() == Start(old(View()), Iterate(o, parse).pattern)
      ensures fresh(patternThread)
      ensures sleep == Slept(Iterate(o, parse).next)
    {
      var reading := GlucoseLevel(o.fetched);
      var step := Decide(reading, o.now, parse);
      StartPattern(step.pattern);
      sleep := Slept(step.next);
    }

    /**
      The first `|obs|` iterations of `monitor_glucose`, one per observation:
      the runner goes through exactly the starts `Plan` lists, and `slept` is
      the seconds slept over the run.
    */
    method MonitorGlucose(obs: seq<Observation>, parse: string -> Option<int>) returns (slept: nat)
      requires Valid()
      modifies this, patternThread
      ensures Valid() && View() == Run(old(View()), Plan(obs, parse))
      ensures slept == TotalSleep(obs, parse)
    {
      ghost var goal := Run(View(), Plan(obs, parse));
      slept := 0;
      var i := 0;
      while i < |obs|
        invariant 0 <= i <= |obs|
        invariant Valid()
        invariant patternThread == old(patternThread) || fresh(patternThread)
        invariant Run(View(), Plan(obs[i..], parse)) == goal
        invariant slept + TotalSleep(obs[i..], parse) == TotalSleep(obs, parse)
      {
        var sleep := MonitorIteration(obs[i], parse);
        assert obs[i..][1..] == obs[i + 1..];
        slept := slept + sleep;
        i := i + 1;
      }
    }
  }
}
