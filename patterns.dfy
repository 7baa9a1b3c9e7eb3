/**
  The four LED patterns of glucoLedv2.py (`critical_low_pattern`,
  `in_range_pattern`, `critical_high_pattern`, `issue_pattern`).

  Each pattern is a loop `while not stop_event.is_set(): <pass>`.  The stop
  flag is read only at the head of the loop, so a pass, once begun, runs to
  its end.  A pass is modelled here as the finite sequence of output actions
  it performs: a PWM duty write (`pwm.start(d)`) or a sleep in milliseconds.
*/
module Patterns {
  import opened Options

  datatype Pattern = CriticalLow | InRange | CriticalHigh | Issue

  /** One output action of a pattern thread: a duty-cycle write in percent, or a sleep. */
  datatype Action = Write(duty: real) | Pause(ms: nat)

  /** One on/off blink: full brightness, dwell, off, dwell. */
  function Blink(dwellMs: nat): seq<Action>
  {
    [Write(100.0), Pause(dwellMs), Write(0.0), Pause(dwellMs)]
  }

  /** `n` copies of `s` one after the other, as a `for _ in range(n)` loop emits them. */
  function Repeat(s: seq<Action>, n: nat): seq<Action>
  {
    if n == 0 then [] else Repeat(s, n - 1) + s
  }

  /**
    The actions of one pass of pattern `p`'s loop.  Every pass begins with a
    duty write and ends asleep, so the stop flag is only ever read after a
    sleep.  `level` is the breathing
    brightness sampled at the start of the pass; only the two breathing
    patterns write it.
  */
  function Pass(p: Pattern, level: real): (r: seq<Action>)
    ensures r != [] && r[0].Write? && r[|r| - 1].Pause?
    ensures p == CriticalLow || p == Issue ==> r[0] == Write(100.0)
    ensures p == InRange || p == CriticalHigh ==> r[0] == Write(level)
  {
    match p
    case CriticalLow => Blink(51)
    case InRange => [Write(level), Pause(10)]
    case CriticalHigh => [Write(level), Pause(50)]
    case Issue => Repeat(Blink(100), 3) + [Pause(2000)]
  }

  /** The duty values written by a sequence of actions, in order. */
  function Writes(acts: seq<Action>): seq<real>
  {
    if acts == [] then []
    else (if acts[0].Write? then [acts[0].duty] else []) + Writes(acts[1..])
  }

  /** The total time slept by a sequence of actions, in milliseconds. */
  function Duration(acts: seq<Action>): nat
  {
    if acts == [] then 0
    else (if acts[0].Pause? then acts[0].ms else 0) + Duration(acts[1..])
  }

  /** The duty the output shows after a sequence of actions: the last one written, if any. */
  function Output(acts: seq<Action>): (r: Option<real>)
    ensures r.Some? <==> Writes(acts) != []
  {
    var w := Writes(acts);
    if w == [] then None else Some(w[|w| - 1])
  }

  lemma {:induction false} WritesAppend(a: seq<Action>, b: seq<Action>)
    ensures Writes(a + b) == Writes(a) + Writes(b)
    decreases |a|
  {
    if a == [] {
      assert a + b == b;
    } else {
      assert (a + b)[0] == a[0];
      assert (a + b)[1..] == a[1..] + b;
      WritesAppend(a[1..], b);
    }
  }

  lemma {:induction false} DurationAppend(a: seq<Action>, b: seq<Action>)
    ensures Duration(a + b) == Duration(a) + Duration(b)
    decreases |a|
  {
    if a == [] {
      assert a + b == b;
    } else {
      assert (a + b)[0] == a[0];
      assert (a + b)[1..] == a[1..] + b;
      DurationAppend(a[1..], b);
    }
  }

  /** Appending actions that write something moves the output to their last write; appending only sleeps leaves it. */
  lemma OutputAppend(a: seq<Action>, b: seq<Action>)
    ensures Writes(b) != [] ==> Output(a + b) == Some(Writes(b)[|Writes(b)| - 1])
    ensures Writes(b) == [] ==> Output(a + b) == Output(a)
  {
    WritesAppend(a, b);
  }

  /** One critical-low pass writes 100 then 0, dwelling 51 ms after each: 102 ms in all. */
  lemma CriticalLowPass(level: real)
    ensures Writes(Pass(CriticalLow, level)) == [100.0, 0.0]
    ensures Duration(Pass(CriticalLow, level)) == 102
    ensures Output(Pass(CriticalLow, level)) == Some(0.0)
  {
    BlinkFacts(51);
  }

  /** One breathing pass writes the sampled level once, then sleeps 10 ms (in range) or 50 ms (critical high). */
  lemma BreathingPass(level: real)
    ensures Writes(Pass(InRange, level)) == [level] && Duration(Pass(InRange, level)) == 10
    ensures Writes(Pass(CriticalHigh, level)) == [level] && Duration(Pass(CriticalHigh, level)) == 50
  {
    assert [Write(level)][1..] == [] && [Pause(10)][1..] == [] && [Pause(50)][1..] == [];
    assert Pass(InRange, level) == [Write(level)] + [Pause(10)];
    assert Pass(CriticalHigh, level) == [Write(level)] + [Pause(50)];
    WritesAppend([Write(level)], [Pause(10)]);
    WritesAppend([Write(level)], [Pause(50)]);
    DurationAppend([Write(level)], [Pause(10)]);
    DurationAppend([Write(level)], [Pause(50)]);
  }

  /** A blink writes on then off and sleeps twice its dwell. */
  lemma BlinkFacts(ms: nat)
    ensures Writes(Blink(ms)) == [100.0, 0.0]
    ensures Duration(Blink(ms)) == 2 * ms
  {
    var b := Blink(ms);
    var t1, t2, t3 := b[1..], b[1..][1..], b[1..][1..][1..];
    assert t1 == [Pause(ms), Write(0.0), Pause(ms)];
    assert t2 == [Write(0.0), Pause(ms)];
    assert t3 == [Pause(ms)];
    assert t3[1..] == [];
    assert Writes(t3) == [] + Writes(t3[1..]) == [] && Duration(t3) == ms + Duration(t3[1..]) == ms;
    assert Writes(t2) == [0.0] + Writes(t3) && Duration(t2) == Duration(t3);
    assert Writes(t1) == Writes(t2) && Duration(t1) == ms + Duration(t2);
    assert Writes(b) == [100.0] + Writes(t1) && Duration(b) == Duration(t1);
  }

  /**
    One issue pass writes the pair 100, 0 exactly three times, 100 ms apart,
    and then pauses 2 s without writing: 2600 ms in all, ending dark.
  */
  lemma {:induction false} IssuePass(level: real)
    ensures Writes(Pass(Issue, level)) == [100.0, 0.0, 100.0, 0.0, 100.0, 0.0]
    ensures Duration(Pass(Issue, level)) == 2600
    ensures Pass(Issue, level)[|Pass(Issue, level)| - 1] == Pause(2000)
    ensures Output(Pass(Issue, level)) == Some(0.0)
  {
    var b := Blink(100);
    BlinkFacts(100);
    assert Repeat(b, 1) == [] + b;
    assert Repeat(b, 2) == Repeat(b, 1) + b;
    assert Repeat(b, 3) == Repeat(b, 2) + b;
    WritesAppend([], b);
    WritesAppend(Repeat(b, 1), b);
    WritesAppend(Repeat(b, 2), b);
    DurationAppend([], b);
    DurationAppend(Repeat(b, 1), b);
    DurationAppend(Repeat(b, 2), b);
    var tail: seq<Action> := [Pause(2000)];
    assert tail[1..] == [];
    WritesAppend(Repeat(b, 3), tail);
    DurationAppend(Repeat(b, 3), tail);
  }

  /**
    No pass lasts longer than 2.6 s.  The stop flag is read only between
    passes, so this bounds how long `stop_pattern`'s join can wait.
  */
  lemma PassDurationBound(p: Pattern, level: real)
    ensures Duration(Pass(p, level)) <= 2600
  {
    match p
    case CriticalLow => CriticalLowPass(level);
    case InRange => BreathingPass(level);
    case CriticalHigh => BreathingPass(level);
    case Issue => IssuePass(level);
  }

  /** The blink patterns write only full-on and off, and each pass leaves the output off. */
  lemma BlinkPassesEndDark(p: Pattern, level: real)
    requires p == CriticalLow || p == Issue
    ensures forall d :: d in Writes(Pass(p, level)) ==> d == 0.0 || d == 100.0
    ensures Output(Pass(p, level)) == Some(0.0)
  {
    if p == CriticalLow { CriticalLowPass(level); } else { IssuePass(level); }
  }

  /**
    The actions of consecutive passes of pattern `p`'s loop, one per sampled
    breathing level.
  */
  function Passes(p: Pattern, levels: seq<real>): (r: seq<Action>)
    ensures r == [] <==> levels == []
    ensures levels != [] ==> r[0] == Pass(p, levels[0])[0]
  {
    if levels == [] then [] else Pass(p, levels[0]) + Passes(p, levels[1..])
  }

  /** However many passes a blink pattern runs, it writes only full-on and off. */
  lemma {:induction false} BlinkRunsWriteOnOff(p: Pattern, levels: seq<real>)
    requires p == CriticalLow || p == Issue
    ensures forall d :: d in Writes(Passes(p, levels)) ==> d == 0.0 || d == 100.0
  {
    if levels != [] {
      var first, rest := Pass(p, levels[0]), Passes(p, levels[1..]);
      BlinkRunsWriteOnOff(p, levels[1..]);
      BlinkPassesEndDark(p, levels[0]);
      WritesAppend(first, rest);
      forall d | d in Writes(Passes(p, levels))
        ensures d == 0.0 || d == 100.0
      {
        assert d in Writes(first) || d in Writes(rest);
      }
    }
  }

  /** Once a blink pattern has run a pass, whenever it is stopped the output it leaves is off. */
  lemma {:induction false} BlinkRunsEndDark(p: Pattern, levels: seq<real>)
    requires p == CriticalLow || p == Issue
    requires levels != []
    ensures Output(Passes(p, levels)) == Some(0.0)
    decreases |levels|
  {
    var first, rest := Pass(p, levels[0]), Passes(p, levels[1..]);
    BlinkPassesEndDark(p, levels[0]);
    OutputAppend(first, rest);
    if levels[1..] != [] {
      BlinkRunsEndDark(p, levels[1..]);
      WritesAppend(first, rest);
      OutputAppend([], rest);
    } else {
      assert Passes(p, levels) == first + [];
    }
  }
}
