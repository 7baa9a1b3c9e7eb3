# Glucose LED monitor — a Dafny model

glucoLed drives one LED from a continuous glucose monitor. It polls the
LibreLinkUp service for the latest sensor reading and shows one of four light
patterns:
- a fast blink when the reading is below 70 mg/dL;
- a slow "breathing" fade when it is between 70 and 170;
- a fast fade when it is above 170;
- a burst of three blinks followed by a pause when there is no usable reading.

This project models the decision logic, the pattern threads, the object that
starts and stops them, and the four accessors that pick fields out of the
LibreLinkUp response. It proves properties of each.

The model is split into modules:

- `ParseSensorData` (parse_sensor_data.dfy): the response as a JSON datatype.
  - Python's `data['k']` is `Subscript`: it fails with `KeyError` or `TypeError`.
  - `Lookup` is a path of subscripts.
  - The four accessors are proved to be exactly the lookups of their fixed paths.
  - The three "latest" accessors are proved to share one record.
- `Patterns` (patterns.dfy): one pass of each pattern's `while not
  stop_event.is_set()` loop, written as the sequence of PWM duty writes and
  sleeps it performs. Also the durations and final output of each pass.
- `Classifier` (classifier.dfy): `get_glucose_level` and the branch structure
  of one iteration of `monitor_glucose`. The result is which pattern is started,
  and whether the loop then goes round at once, sleeps 300 s or sleeps 60 s.
- `PatternRunner` (runner.dfy): `stop_pattern`, `start_pattern` and the pattern
  threads as a state machine on values.
- `LedMonitor` (led_monitor.dfy): the class `GlucoseLEDMonitor`.
  - Its fields are `stop_event`, `current_pattern`, `pattern_thread`, and the
    PWM output as a trace of actions.
  - Threads are heap objects whose `alive` flag the methods update.
  - Each method is proved to perform exactly the matching `PatternRunner`
    transition on the object's abstract `View()`.
  - The object invariant `Valid()` says that every thread but the last one
    started has returned. So at most one pattern thread is ever live.

Threads are modelled sequentially:
- `join` is the instant the joined thread returns.
- The stop flag is tested only at the head of a pattern loop, so one pass of a
  pattern runs atomically.

The breathing brightness is a parameter (`level`). So are the wall clock and
the timestamp parser: `now`, and `parse : string -> Option<int>`, both in
microseconds.

Three behaviours of the code are worth stating plainly:
- `start_pattern` does not skip a request for the pattern that is already
  running. It stops that thread, forces the LED to 0 and starts a new one
  (`PatternRunner.RestartSamePattern`).
- A failed data request does not lead to a 60 s back-off.
  `get_glucose_level` swallows the error and returns `(None, None)`, and the
  loop then starts the issue pattern and goes round again without sleeping
  (`Classifier.FailedFetchRetriesAtOnce`, `Classifier.FailingFetchesNeverSleep`,
  `LedMonitor.FailingMonitorRun`). Only exceptions raised later in the
  iteration lead to the 60 s sleep.
- The issue pattern sleeps 2 s at the end of every pass, so a `stop_pattern`
  can wait up to 2.6 s for its join (`Patterns.PassDurationBound`).

## Model

| member | source | states |
|---|---|---|
| ParseSensorData.Subscript | ParseSensorData.py:8 | `j[key]` yields `j`'s member for `key` exactly when `j` is a dictionary holding `key`, and otherwise fails with an error naming `key` |
| ParseSensorData.Access.Get | ParseSensorData.py:8 | a subscript applied after a failed one leaves the first failure unchanged |
| ParseSensorData.LookupAppend | ParseSensorData.py:8 | looking up `p + q` is looking up `p`, then looking up `q` from where `p` ended; failures pass through |
| ParseSensorData.PrefixFailureIsFinal | ParseSensorData.py:8 | once part of a path fails, the whole path fails with that same error: nothing substitutes a default |
| ParseSensorData.MissingKeyFails | ParseSensorData.py:8 | a key missing (or a non-dictionary met) at any position of a path makes the lookup fail with that position's error |
| ParseSensorData.FoundHasEveryKey | ParseSensorData.py:8 | a successful lookup passed through a dictionary holding the next key at every step |
| ParseSensorData.Chain4 | ParseSensorData.py:8 | four chained subscripts are the lookup of the four-key path |
| ParseSensorData.Chain2 | ParseSensorData.py:48 | two chained subscripts are the lookup of the two-key path |
| ParseSensorData.GetLatestMeasurement | ParseSensorData.py:8 | the result is the lookup of `data` → `connection` → `glucoseMeasurement` → `Value`, failure included |
| ParseSensorData.GetLatestMeasurementTimestamp | ParseSensorData.py:17 | the result is the lookup of `Timestamp` on the same path |
| ParseSensorData.GetLatestMeasurementTrendArrow | ParseSensorData.py:28 | the result is the lookup of `TrendArrow` on the same path |
| ParseSensorData.GetAllMeasurements | ParseSensorData.py:48 | the result is the lookup of `data` → `graphData` |
| ParseSensorData.LatestAccessorsShareRecord | ParseSensorData.py:8-28 | the three latest-record accessors fail together, with the same error, when the record's path fails; otherwise each is one subscript of that one record |
| ParseSensorData.ResponseRoundTrip | ParseSensorData.py:2-49 | reading back a response built from four field values yields exactly those values, each from its own accessor |
| Patterns.Pass | glucoLedv2.py:87-126 | one pass of each pattern's loop body begins with a duty write and ends with a sleep; the blink patterns begin at full brightness, the breathing patterns at the sampled level |
| Patterns.Passes | glucoLedv2.py:90-126 | consecutive passes of a pattern's loop, one per sampled level: nothing is done exactly when no pass runs, and a run begins with its first pass's first write |
| Patterns.Output | glucoLedv2.py:42 | the output shows a duty exactly when some duty has been written; it is the last one written |
| Patterns.BlinkFacts | glucoLedv2.py:117-121 | one blink writes 100 then 0 and sleeps twice its dwell |
| Patterns.CriticalLowPass | glucoLedv2.py:87-94 | one critical-low pass writes 100 then 0, sleeps 102 ms, and leaves the output at 0 |
| Patterns.BreathingPass | glucoLedv2.py:96-110 | one breathing pass writes the sampled level once, then sleeps 10 ms (in range) or 50 ms (critical high) |
| Patterns.IssuePass | glucoLedv2.py:112-126 | one issue pass writes the pair 100, 0 exactly three times, ends with a 2000 ms pause, lasts 2600 ms and leaves the output at 0 |
| Patterns.PassDurationBound | glucoLedv2.py:87-126 | no pass of any pattern sleeps more than 2600 ms in total, which bounds how long a stop waits for its join |
| Patterns.BlinkPassesEndDark | glucoLedv2.py:87-126 | the blink patterns write only 0 and 100, and each pass ends with the LED off |
| Patterns.BlinkRunsWriteOnOff | glucoLedv2.py:87-126 | any number of passes of a blink pattern writes only 0 and 100 |
| Patterns.BlinkRunsEndDark | glucoLedv2.py:87-126 | after one or more passes of a blink pattern the LED is off |
| Classifier.GlucoseLevel | glucoLedv2.py:50-74 | the reading is the latest record's `Value` and `Timestamp` when the fetch succeeded and the record holds all three fields read; otherwise it is `(None, None)` |
| Classifier.AsNumber | glucoLedv2.py:168-170 | the value compares with a number exactly when it is a number or a boolean (0 or 1); anything else raises |
| Classifier.Band | glucoLedv2.py:167-173 | below 70 is critical low, 70 to 170 inclusive is in range, above 170 is critical high; the three bands are exhaustive and disjoint |
| Classifier.Decide | glucoLedv2.py:146-181 | an iteration sleeps 300 s exactly when it starts a band pattern; a band pattern requires a numeric value and a parsable, fresh timestamp, and is that value's band; the issue pattern is followed by no sleep or by a 60 s sleep |
| Classifier.MissingReadingRetriesAtOnce | glucoLedv2.py:153-155 | a missing value or timestamp starts the issue pattern and goes round again without sleeping |
| Classifier.FailedFetchRetriesAtOnce | glucoLedv2.py:57-74 | a failed request, or a response without the complete latest record, ends in the issue pattern with no sleep |
| Classifier.StaleReadingRetriesAtOnce | glucoLedv2.py:163-165 | a reading more than 15 minutes old starts the issue pattern without sleeping, whatever its value |
| Classifier.FreshReadingStartsBand | glucoLedv2.py:167-176 | a fresh numeric reading starts its band's pattern and sleeps 300 s |
| Classifier.ExceptionBacksOff | glucoLedv2.py:178-181 | an unparsable timestamp, or a fresh value that cannot be compared with a number, starts the issue pattern and sleeps 60 s |
| Classifier.StalenessBoundary | glucoLedv2.py:163 | a reading exactly 15 minutes old is still classified by value; one microsecond older is stale |
| Classifier.BandBoundaries | glucoLedv2.py:168-173 | 69 is critical low, 70 and 170 are in range, 171 is critical high |
| Classifier.BandMonotone | glucoLedv2.py:168-173 | a higher reading never lands in a lower band |
| Classifier.Iterate | glucoLedv2.py:149-181 | one whole iteration: a request that raised ends in the issue pattern with no sleep, and the iteration sleeps 300 s exactly when it starts a band pattern |
| Classifier.Plan | glucoLedv2.py:148-181 | a run of iterations starts one pattern per iteration, and the i-th start is the pattern the i-th iteration picks |
| Classifier.TotalSleep | glucoLedv2.py:148-181 | the seconds slept over a run of iterations, never more than 300 s per iteration |
| Classifier.SteadyInRange | glucoLedv2.py:148-176 | fresh in-range readings make every iteration start the in-range pattern and sleep 300 s: the planned starts are all in-range, and the run sleeps 300 s per iteration |
| Classifier.FailingFetchesNeverSleep | glucoLedv2.py:148-155 | requests that keep failing make every iteration start the issue pattern: the planned starts are all issue, and the loop never sleeps |
| PatternRunner.Stop | glucoLedv2.py:139-144 | after a stop no thread is live; the LED is 0 if a thread was live, and otherwise the output is unchanged |
| PatternRunner.Start | glucoLedv2.py:128-137 | after a start, a thread for the requested pattern is live with the flag clear, and the start is recorded |
| PatternRunner.RunPass | glucoLedv2.py:87-126 | a pass appends the live pattern's actions to the output and keeps the live thread, the stop flag, the record of starts and `current_pattern` unchanged |
| PatternRunner.ThreadDies | glucoLedv2.py:141 | a thread that returns on its own is no longer live and leaves the output alone |
| PatternRunner.RunPasses | glucoLedv2.py:90-126 | running passes leaves the live thread live |
| PatternRunner.RunPassesTrace | glucoLedv2.py:90-126 | any number of passes appends those passes' actions in order and leaves the flag, the thread and the record of starts unchanged |
| PatternRunner.Run | glucoLedv2.py:148-181 | the state after the loop's sequence of `start_pattern` calls; `current_pattern` is never changed by any sequence of starts |
| PatternRunner.StopIdleIsNoOp | glucoLedv2.py:141 | with no thread, or one that has returned, a stop changes nothing, the output included |
| PatternRunner.StopIdempotent | glucoLedv2.py:139-144 | stopping twice is stopping once |
| PatternRunner.StopLive | glucoLedv2.py:141-144 | with a live thread, a stop sets the flag, ends the thread and writes exactly one duty 0 |
| PatternRunner.RestartSamePattern | glucoLedv2.py:128-137 | starting the pattern already running still stops it, writes 0 and starts a new thread |
| PatternRunner.StartTrace | glucoLedv2.py:128-137 | a start writes to the output only through its stop: one 0 if a thread was live, nothing otherwise |
| PatternRunner.RunStarted | glucoLedv2.py:148-181 | a run records every pattern it starts, in order |
| PatternRunner.RunEndsWithLast | glucoLedv2.py:128-137 | after a run, the live thread is the one for the last pattern started, and the flag is clear |
| PatternRunner.RunTrace | glucoLedv2.py:139-144 | over a run of starts, the output receives only 0 writes, one per live thread stopped |
| LedMonitor.SteadyMonitorRun | glucoLedv2.py:148-176 | fed fresh in-range readings, the monitor's run starts only the in-range pattern, once per iteration, and leaves it live |
| LedMonitor.FailingMonitorRun | glucoLedv2.py:148-155 | with requests that keep failing, the monitor's run restarts the issue pattern every iteration, leaves it live, and the monitor loop's own writes to the output are only the 0 of each stop |
| LedMonitor.PatternThread.Start | glucoLedv2.py:135-137 | a new thread runs its target and is alive |
| LedMonitor.GlucoseLEDMonitor.constructor | glucoLedv2.py:45-48 | a new monitor has a clear flag, no current pattern, no thread and an untouched output |
| LedMonitor.GlucoseLEDMonitor.StopPattern | glucoLedv2.py:139-144 | the object makes exactly the transition `Stop` and keeps its invariant |
| LedMonitor.GlucoseLEDMonitor.StartPattern | glucoLedv2.py:128-137 | the object makes exactly the transition `Start`; the new thread is a fresh object, and the previous thread has returned |
| LedMonitor.GlucoseLEDMonitor.RunPatternPass | glucoLedv2.py:87-126 | one pass of the live thread's loop, including the issue pattern's three-blink `for` loop, makes exactly the transition `RunPass` |
| LedMonitor.GlucoseLEDMonitor.RunPattern | glucoLedv2.py:90-126 | the live thread's loop runs every requested pass, making exactly the transition `RunPasses`; its flag test never ends the loop early, because only a stop sets the flag and a stop ends the thread |
| LedMonitor.GlucoseLEDMonitor.PatternThreadDies | glucoLedv2.py:141 | a thread that returns on its own makes exactly the transition `ThreadDies` |
| LedMonitor.GlucoseLEDMonitor.MonitorIteration | glucoLedv2.py:149-181 | one iteration starts the pattern `Decide` picks for the fetched reading and returns that iteration's sleep |
| LedMonitor.GlucoseLEDMonitor.MonitorGlucose | glucoLedv2.py:146-181 | the first iterations of the monitor loop make exactly the starts `Plan` lists and sleep the total `TotalSleep` gives |

## Left out

- GPIO and PWM hardware (`GPIO.setmode`, `GPIO.setup`, `pwm.stop`, `GPIO.cleanup`, glucoLedv2.py:36-42 and 183-187). `pwm.start(d)` is a `Write(d)` action appended to the trace, and `cleanup` is not modelled.
- Real concurrency: the model interleaves the monitor and the pattern thread at whole passes, and does not model daemon-thread teardown.
- LedMonitor.GlucoseLEDMonitor.MonitorGlucose: runs no pattern pass between its starts, so the pattern thread's writes during the fetch, the join and the sleeps are not in its trace; those passes are modelled separately by `RunPatternPass` and `RunPattern`.
- `calculate_breathing_brightness` (glucoLedv2.py:76-85) uses `math.sin` of the wall clock. The breathing duty is a parameter (`level`) of each pass.
- `convert_to_timestamp`'s `strptime` and `datetime.now()` are parameters (`parse`, `now`), in microseconds. Time zones and naive-datetime detail are not modelled.
- JSON numbers are mathematical reals: NaN, infinities and float rounding in the comparisons with 70 and 170 are not modelled.
- `RequestSensorData` (the HTTP session), `connectToLibreLinkUp` and the global `patient_id` (glucoLedv2.py:21-29) are not part of this model. Their only effect is whether a response is available: `Observation.fetched` is None when `getData` raised.
- `print` logging, `load_dotenv`/`os.getenv` credential loading, `pypresence`, and `main` with its `KeyboardInterrupt` handling (glucoLedv2.py:10-12, 31-34, 189-200).
- LedMonitor.GlucoseLEDMonitor.MonitorGlucose: the source loop never ends; the model runs it for a finite sequence of observations, one per iteration, and states the starts and sleeps of that prefix.
- LedMonitor.GlucoseLEDMonitor.RunPattern: the source loop ends only when the stop flag is set; the model runs a given finite number of passes, during which the flag stays clear.
- The accessors are read-only in the source; in the model they are functions on immutable values, so this holds by construction rather than by a stated contract.
- Exceptions raised by `start_pattern` itself (thread creation) or by the handler's own `start_pattern` are not modelled.
