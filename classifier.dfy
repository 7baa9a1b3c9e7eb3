/**
  The per-iteration decision of `GlucoseLEDMonitor.monitor_glucose` in
  glucoLedv2.py, together with `get_glucose_level`, which feeds it.

  Python's `None` is JSON null, so the pair `(None, None)` that
  `get_glucose_level` returns on failure is `(JNull, JNull)`.  The wall
  clock and `convert_to_timestamp`'s `strptime` are parameters: `now` is the
  current instant and `parse` maps a timestamp string to its instant (or
  fails), both in microseconds, the resolution of Python's `timedelta`.
*/
module Classifier {
  import opened Options
  import opened ParseSensorData
  import opened Patterns

  /** What the loop does after starting a pattern: go round at once, or sleep some seconds. */
  datatype Next = Continue | Sleep(seconds: nat)

  /** The outcome of one loop iteration: the pattern started and what comes next. */
  datatype Step = Step(pattern: Pattern, next: Next)

  /** Readings below this are critically low (mg/dL). */
  const LowLimit: real := 70.0
  /** Readings above this are critically high (mg/dL). */
  const HighLimit: real := 170.0
  /** `timedelta(minutes=15)` in microseconds: a reading older than this is stale. */
  const StaleAfter: int := 15 * 60 * 1000000
  /** Sleep after a usable reading: `time.sleep(300)`. */
  const ReadingInterval: nat := 300
  /** Sleep after an exception in the iteration: `time.sleep(60)`. */
  const ErrorBackoff: nat := 60

  /** The response holds a latest-measurement record with all three fields `get_glucose_level` reads. */
  predicate HasLatestRecord(data: Json)
  {
    var rec := Lookup(data, MeasurementPath);
    rec.Found? && rec.value.JObj? &&
    "Value" in rec.value.fields && "Timestamp" in rec.value.fields && "TrendArrow" in rec.value.fields
  }

  /**
    `get_glucose_level`.  `fetched` is the response of `RequestSensorData.getData`,
    or None when that call raised; then `data` is never bound, the first accessor
    raises, and the handler returns `(None, None)`.  A failure of any of the three
    accessors, the trend arrow included, also gives `(None, None)`.
  */
  function GlucoseLevel(fetched: Option<Json>): (r: (Json, Json))
    ensures fetched.Some? && HasLatestRecord(fetched.value) ==>
      var rec := Lookup(fetched.value, MeasurementPath).value;
      r == (rec.fields["Value"], rec.fields["Timestamp"])
    ensures !(fetched.Some? && HasLatestRecord(fetched.value)) ==> r == (JNull, JNull)
  {
    match fetched
    case None => (JNull, JNull)
    case Some(data) =>
      LatestAccessorsShareRecord(data);
      var value := GetLatestMeasurement(data);
      var timestamp := GetLatestMeasurementTimestamp(data);
      var arrow := GetLatestMeasurementTrendArrow(data);
      if value.Found? && timestamp.Found? && arrow.Found? then (value.value, timestamp.value)
      else (JNull, JNull)
  }

  /**
    The number Python compares against 70 and 170: a JSON number, or a
    boolean (a Python `bool` is the integer 0 or 1).  Comparing a string, a
    list or a dictionary with an integer raises `TypeError`: None.
  */
  function AsNumber(j: Json): (r: Option<real>)
    ensures r.Some? <==> j.JNum? || j.JBool?
    ensures j.JNum? ==> r == Some(j.n)
    ensures j.JBool? ==> r.Some? && (r.value == 0.0 || r.value == 1.0)
  {
    match j
    case JNum(n) => Some(n)
    case JBool(b) => Some(if b then 1.0 else 0.0)
    case _ => None
  }

  /** The band of a fresh reading's value (glucoLedv2.py lines 168-173). */
  function Band(v: real): (p: Pattern)
    ensures p == CriticalLow <==> v < LowLimit
    ensures p == InRange <==> LowLimit <= v <= HighLimit
    ensures p == CriticalHigh <==> v > HighLimit
    ensures p != Issue
  {
    if v < LowLimit then CriticalLow
    else if LowLimit <= v <= HighLimit then InRange
    else CriticalHigh
  }

  /**
    One pass of the body of `monitor_glucose` after the reading is fetched:
    which pattern it starts and what it does next.  An exception raised
    inside the `try` (by `convert_to_timestamp`, or by comparing a non-number
    with 70) always comes before any `start_pattern` call, so the handler's
    `start_pattern(issue_pattern)` is the only start of that iteration.
  */
  function Decide(reading: (Json, Json), now: int, parse: string -> Option<int>): (s: Step)
    ensures s.pattern != Issue <==> s.next == Sleep(ReadingInterval)
    ensures s.pattern == Issue ==> s.next == Continue || s.next == Sleep(ErrorBackoff)
    ensures s.pattern != Issue ==> AsNumber(reading.0).Some? && s.pattern == Band(AsNumber(reading.0).value)
    ensures s.pattern != Issue ==>
      reading.1.JStr? && parse(reading.1.s).Some? && now - parse(reading.1.s).value <= StaleAfter
  {
    var (value, timestamp) := reading;
    if value.JNull? || timestamp.JNull? then Step(Issue, Continue)
    else if !timestamp.JStr? || parse(timestamp.s).None? then Step(Issue, Sleep(ErrorBackoff))
    else if now - parse(timestamp.s).value > StaleAfter then Step(Issue, Continue)
    else match AsNumber(value)
      case None => Step(Issue, Sleep(ErrorBackoff))
      case Some(v) => Step(Band(v), Sleep(ReadingInterval))
  }

  /** A missing value or timestamp starts the issue pattern and goes round again with no sleep. */
  lemma MissingReadingRetriesAtOnce(reading: (Json, Json), now: int, parse: string -> Option<int>)
    requires reading.0 == JNull || reading.1 == JNull
    ensures Decide(reading, now, parse) == Step(Issue, Continue)
  {
  }

  /** A failed fetch, or a response without a complete latest record, ends in the issue pattern with no sleep. */
  lemma FailedFetchRetriesAtOnce(fetched: Option<Json>, now: int, parse: string -> Option<int>)
    requires fetched.None? || !HasLatestRecord(fetched.value)
    ensures Decide(GlucoseLevel(fetched), now, parse) == Step(Issue, Continue)
  {
  }

  /** A reading strictly older than 15 minutes starts the issue pattern and goes round again with no sleep, whatever its value. */
  lemma StaleReadingRetriesAtOnce(value: Json, ts: string, now: int, parse: string -> Option<int>)
    requires value != JNull && parse(ts).Some? && now - parse(ts).value > StaleAfter
    ensures Decide((value, JStr(ts)), now, parse) == Step(Issue, Continue)
  {
  }

  /** A fresh reading (at most 15 minutes old) with a numeric value starts its band's pattern and sleeps 300 s. */
  lemma FreshReadingStartsBand(value: Json, ts: string, now: int, parse: string -> Option<int>)
    requires AsNumber(value).Some? && parse(ts).Some? && now - parse(ts).value <= StaleAfter
    ensures Decide((value, JStr(ts)), now, parse) == Step(Band(AsNumber(value).value), Sleep(ReadingInterval))
  {
  }

  /**
    The two exception paths: a timestamp that is not a parsable string, or a
    fresh reading whose value cannot be compared with a number.  Both start
    the issue pattern and sleep 60 s.
  */
  lemma ExceptionBacksOff(reading: (Json, Json), now: int, parse: string -> Option<int>)
    requires reading.0 != JNull && reading.1 != JNull
    requires !reading.1.JStr? || parse(reading.1.s).None? ||
      (now - parse(reading.1.s).value <= StaleAfter && AsNumber(reading.0).None?)
    ensures Decide(reading, now, parse) == Step(Issue, Sleep(ErrorBackoff))
  {
  }

  /** Exactly 15 minutes old is still classified by value; one microsecond more is stale. */
  lemma StalenessBoundary(v: real, ts: string, t: int, parse: string -> Option<int>)
    requires parse(ts) == Some(t)
    ensures Decide((JNum(v), JStr(ts)), t + StaleAfter, parse) == Step(Band(v), Sleep(ReadingInterval))
    ensures Decide((JNum(v), JStr(ts)), t + StaleAfter + 1, parse) == Step(Issue, Continue)
  {
  }

  /** The band edges: 69 is low, 70 and 170 are in range, 171 is high. */
  lemma BandBoundaries()
    ensures Band(69.0) == CriticalLow && Band(70.0) == InRange
    ensures Band(170.0) == InRange && Band(171.0) == CriticalHigh
  {
  }

  /** Severity order of the bands; the issue pattern is not a band. */
  function Rank(p: Pattern): nat
  {
    match p
    case CriticalLow => 0
    case InRange => 1
    case CriticalHigh => 2
    case Issue => 3
  }

  /** A higher value never lands in a lower band. */
  lemma BandMonotone(v: real, w: real)
    requires v <= w
    ensures Rank(Band(v)) <= Rank(Band(w))
  {
  }

  /** The inputs of one loop iteration: the fetched response (None when the request raised) and the clock. */
  datatype Observation = Observation(fetched: Option<Json>, now: int)

  /**
    The outcome of one whole loop iteration: a request that raised always
    ends in the issue pattern with no sleep, and the iteration sleeps 300 s
    exactly when it starts a band pattern.
  */
  function Iterate(o: Observation, parse: string -> Option<int>): (r: Step)
    ensures o.fetched.None? ==> r == Step(Issue, Continue)
    ensures r.pattern != Issue <==> r.next == Sleep(ReadingInterval)
  {
    Decide(GlucoseLevel(o.fetched), o.now, parse)
  }

  /** The pattern each iteration of a run starts, in order. */
  function Plan(obs: seq<Observation>, parse: string -> Option<int>): (r: seq<Pattern>)
    ensures |r| == |obs|
    ensures forall i :: 0 <= i < |obs| ==> r[i] == Iterate(obs[i], parse).pattern
  {
    if obs == [] then [] else [Iterate(obs[0], parse).pattern] + Plan(obs[1..], parse)
  }

  /** Seconds slept after an iteration. */
  function Slept(n: Next): nat
  {
    match n
    case Continue => 0
    case Sleep(s) => s
  }

  /** Seconds slept over a run of iterations: never more than 300 s per iteration. */
  function TotalSleep(obs: seq<Observation>, parse: string -> Option<int>): (r: nat)
    ensures r <= ReadingInterval * |obs|
  {
    if obs == [] then 0
    else Slept(Iterate(obs[0], parse).next) + TotalSleep(obs[1..], parse)
  }

  /** The observation carries a fresh, in-range reading. */
  predicate FreshInRange(o: Observation, parse: string -> Option<int>)
  {
    var (value, ts) := GlucoseLevel(o.fetched);
    value.JNum? && LowLimit <= value.n <= HighLimit &&
    ts.JStr? && parse(ts.s).Some? && o.now - parse(ts.s).value <= StaleAfter
  }

  /** A source that always yields a fresh in-range reading: every iteration starts the in-range pattern and sleeps 300 s. */
  lemma {:induction false} SteadyInRange(obs: seq<Observation>, parse: string -> Option<int>)
    requires forall i :: 0 <= i < |obs| ==> FreshInRange(obs[i], parse)
    ensures forall i :: 0 <= i < |obs| ==> Iterate(obs[i], parse) == Step(InRange, Sleep(ReadingInterval))
    ensures Plan(obs, parse) == seq(|obs|, _ => InRange)
    ensures TotalSleep(obs, parse) == ReadingInterval * |obs|
  {
    if obs != [] {
      SteadyInRange(obs[1..], parse);
    }
  }

  /** Requests that keep raising: every iteration starts the issue pattern and none sleeps, so there is no backoff. */
  lemma {:induction false} FailingFetchesNeverSleep(obs: seq<Observation>, parse: string -> Option<int>)
    requires forall i :: 0 <= i < |obs| ==> obs[i].fetched.None?
    ensures forall i :: 0 <= i < |obs| ==> Iterate(obs[i], parse) == Step(Issue, Continue)
    ensures Plan(obs, parse) == seq(|obs|, _ => Issue)
    ensures TotalSleep(obs, parse) == 0
  {
    if obs != [] {
      FailingFetchesNeverSleep(obs[1..], parse);
    }
  }
}
