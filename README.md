# Session analytics of the Axiom Trade automation suite, in Dafny

This project models the `AutomationAnalytics` class of `src/main.py`. The
class keeps four counters: operations completed, total runtime, success rate
and total attempts. It loads them from the JSON stats file
`automation_stats.json` when it is constructed. A session is opened by setting
a start marker. Ending a session folds the elapsed time and the outcome into
the counters, recomputes the success percentage and rewrites the stats file.
The project also models the top-level routine that drives one session.

Files:

- `wrappers.dfy`: the `Option` type.
- `analytics.dfy`, module `Analytics`: the stats file as a value
  (`StatsFile`, `Json`, `StatsRecord`), the counters (`Counters`), the
  specification functions (`SuccessRate`, `AverageTime`, `EndStep`, `Encode`,
  `DecodeRecord`, `LoadOver`, `Load`), the file on disk (`StatsDisk`) and the
  class `AutomationAnalytics`. Its methods update their fields in place, as
  the Python does.
- `analytics_properties.dfy`, module `AnalyticsProperties`: lemmas over runs
  of sessions (`Replay`), the counter invariant, and loading and saving.
- `demo.dfy`, module `Demo`: `RunDemo`, the `main` routine, and a scenario of two session ends after one start.

Inputs that the Python takes from the environment are parameters here:

- the wall clock (`datetime.now()`) is the `now` argument of `StartSession`
  and `EndSession`;
- the `last_updated` timestamp string is the `stamp` argument;
- the outcome of `validate_environment` is the boolean `configValid` of `RunDemo`.

The stats file is an object (`StatsDisk`). It holds what a read would find:
`Missing`, `Unreadable`, or a parsed JSON object. Its `writable` flag says
whether a write succeeds. Python floats are modelled as exact `real`s.

One would expect the rate always to equal completed / attempts × 100 and
the counters to be non-negative. The code guarantees neither after a load. `_load_analytics` copies every value as
stored and never recomputes or checks anything. The model follows the code:

- `Consistent` is proved to be kept by every recorded session. It is not
  assumed of a loaded file (`LoadedRateIsNotRecomputed`).
- Counters are `int`, so the zero-attempts branch of the rate formula can
  still be reached after a session. This happens when the file held
  `total_attempts = -1`.

The Python `main` returns `False` when validation fails and `None` (not
`True`) otherwise. `RunDemo` reports this as `raised`.

## Model

| member | source | states |
|---|---|---|
| Analytics.SuccessRate | src/main.py:52 | with attempts, rate × attempts = 100 × completed; without attempts, 0 (no division by zero); within [0, 100] when 0 ≤ completed ≤ attempts; 100 when every attempt completed; 0 when none did |
| Analytics.AverageTime | src/main.py:88 | with completions, average × completed = runtime; otherwise 0 (never divides by zero); between 0 and the runtime for a non-negative runtime |
| Analytics.Encode | src/main.py:72-78 | the saved object has exactly the four counter keys plus last_updated |
| Analytics.EndStep | src/main.py:47-52 | one recorded session on counter values: attempts +1; completed +1 if and only if success; runtime + duration; with attempts, rate × attempts = 100 × completed; from 0 ≤ completed ≤ attempts the counter invariant holds afterwards and the rate is within [0, 100] |
| Analytics.DecodeRecord | src/main.py:61-64 | a record decodes exactly when its counter values are numbers of the field's kind; each counter is then the stored value, or 0 when the key is missing, the rate taken as stored |
| Analytics.LoadOver | src/main.py:57-66 | a stored record that decodes replaces the counters with its decoded values; a missing or unreadable file, or an undecodable record, leaves the previous counters |
| Analytics.Load | src/main.py:32-38 | a fresh object without a decodable record has all-zero counters; with one, it has the record's decoded values |
| Analytics.AutomationAnalytics.constructor | src/main.py:32-38 | counters start at zero and are then replaced by the loaded record (`Load`); there is no start marker |
| Analytics.AutomationAnalytics.StartSession | src/main.py:40-42 | the marker is overwritten with the current time; all four counters are unchanged |
| Analytics.AutomationAnalytics.EndSession | src/main.py:44-53 | without a marker: no counter changes and nothing is written. With one: attempts +1; completed +1 if and only if success; runtime + (now − start); rate recomputed from the new counts; the file holds the new counters when writable and is unchanged otherwise; the marker is kept; the counter invariant is preserved |
| Analytics.AutomationAnalytics.LoadAnalytics | src/main.py:55-66 | a readable record replaces the counters; a missing or unreadable file leaves them unchanged |
| Analytics.AutomationAnalytics.SaveAnalytics | src/main.py:68-80 | a writable file is overwritten with the encoded counters; a failed write leaves the file and the counters as they were |
| Analytics.AutomationAnalytics.DisplayMetrics | src/main.py:82-89 | the shown figures are the current counters and the average time, which is 0 when nothing completed |
| AnalyticsProperties.ReplayCounts | src/main.py:44-53 | over any sequence of ended sessions: attempts grow by the number of sessions, completed by the number of successful ones, runtime by the sum of durations; after at least one session the rate matches the new counts |
| AnalyticsProperties.ReplayKeepsConsistent | src/main.py:49-52 | the counter invariant and the [0, 100] rate bound hold after any run of sessions from counters with 0 ≤ completed ≤ attempts |
| AnalyticsProperties.FromZero | src/main.py:32-52 | from fresh counters: attempts = number of sessions, completed = number of successes, rate × sessions = 100 × successes, and the invariant holds |
| AnalyticsProperties.OneFailedSessionFromZero | src/main.py:44-52 | fresh state and one failed session give attempts 1, completed 0, rate 0, runtime equal to the duration |
| AnalyticsProperties.TwoSuccessfulSessionsFromZero | src/main.py:44-52 | fresh state and two successful sessions give completed 2, attempts 2, rate 100 |
| AnalyticsProperties.SaveLoadRoundTrip | src/main.py:61-64 | loading what was saved gives back the four counters exactly, whatever the counters were before |
| AnalyticsProperties.LoadWithoutRecordIsZero | src/main.py:57-66 | a missing or unreadable file gives a fresh object all-zero counters and leaves existing counters unchanged |
| AnalyticsProperties.LoadFillsMissingKeys | src/main.py:61-64 | each missing counter key reads as 0; each present one is taken as stored, the success rate included |
| AnalyticsProperties.LoadEmptyRecordIsZero | src/main.py:61-64 | a record without any counter key loads as all zeros |
| AnalyticsProperties.LoadIgnoresOtherKeys | src/main.py:61-64 | keys other than the four counters, such as last_updated, do not affect what is loaded |
| AnalyticsProperties.LoadedRateIsNotRecomputed | src/main.py:63 | a record holding only a rate of 50 loads as-is: no attempts but rate 50, which breaks the invariant |
| AnalyticsProperties.SavedConsistentStaysConsistent | src/main.py:72-77 | a saved record of consistent counters loads back consistent |
| Demo.RunDemo | src/main.py:100-127 | validation failure: the error is reported, no session is ended and the file is unchanged. Otherwise: one failed session is recorded (completed unchanged, attempts +1) and saved, and all four metrics are shown: completed, rate, runtime and the guarded average time |
| Demo.RepeatedEndsMeasureFromSameStart | src/main.py:40-53 | after one start_session, two end_session calls keep the marker and each measure from it: runtime grows by (t1 − t0) + (t2 − t0), attempts by 2, completed by 1 for the one successful end |

## Left out

- The browser-automation import. It is unused.
- Reading `.env` and environment variables, and `validate_environment`. `RunDemo` takes the validation outcome as a boolean.
- Real file I/O and JSON text. The file is a value: missing, unreadable, or a parsed object. Writes either replace the whole file or leave it untouched. A write that fails part-way and leaves a truncated file is not modelled.
- Analytics.DecodeRecord: a counter key whose value has another JSON kind is treated as an unreadable file, so the counters keep their zero defaults and the next successful save overwrites the stored history. Examples are text, a boolean, null, or a float under an integer key. Python would store such a value as-is: text or null would make later arithmetic fail, while a float such as `3.0` under `total_attempts` would work exactly like `3`. The save step never writes a float under the integer keys.
- The value of `last_updated`. It comes from the wall clock, so it is the parameter `stamp`.
- `datetime.now()`. Time is a parameter. The elapsed time is the exact difference of two reals, not a `timedelta`.
- Float rounding, and the `:.2f` formatting and printing of `display_metrics` and the banner. `DisplayMetrics` returns the figures it would print.
- The "Analytics Error" messages printed by the load and save error handlers.
- The process exit code.
- Concurrent writers to the stats file. The code has no concurrency.
