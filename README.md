# TimeMeter in Dafny

A model of `MGGFLOW\Tools\TimeMeter`, a small profiling helper. It records named
timestamps ("dots") and computes elapsed durations between them. On top of that it
offers an "event" convenience: `event(name)` selects an event, `start()`/`end()`
stamp the dots `start_<name>`/`end_<name>`, and `time()` reports the event's duration.

The project has four modules:

- `TimeMeterSpec` (`timemeter_spec.dfy`). The meter as a value, `Meter(times,
  creationTime, currentEvent)`. Every PHP method is a pure function over that value,
  following the source's branches. The contracts and lemmas state what each call
  does: the stamp and what it leaves alone, the failure cases, the sentinel `'#'`,
  symmetry, and the event conventions.
- `TimeMeterObject` (`timemeter.dfy`). The class `TimeMeter`. Its `times` map and
  `currentEvent` slot are updated in place, and `creationTime` is a `const` set by the
  constructor. Each method's new state is tied to the matching `TimeMeterSpec`
  function through `Snapshot()`, and also stated field by field. The queries
  (`DotExists`, `TimeBetween`, `GetCurrentEvent`, `Time`) only read, through the same
  definitions.
- `TimeMeterTrace` (`timemeter_trace.dfy`). Sequences of calls, each made at its own
  clock reading. It proves facts that hold along any such sequence, by induction:
  - the creation time never changes;
  - dots are never removed;
  - on a clock that never reads outside the window from creation to now, no result
    of `timeBetween` or `time` exceeds the time elapsed since creation.
- `TimeMeterScenarios` (`timemeter_scenarios.dfy`). Methods that drive a fresh
  `TimeMeter` object through the documented usage patterns, with contracts on what
  they observe.

Modelling choices:

- Timestamps are integer clock ticks.
- The clock reading is an explicit `now` argument to the constructor and to
  `NewDot`, `Start`, `End`, `TimeBetween` and `Time`.
- Failures are `None` or `false`, so a zero duration is a distinct success.
- `"#"` is an ordinary string compared by value. As in the source, `newDot("#")`
  stamps a dot called `#`, yet `timeBetween("#", …)` still takes the sentinel branch.

Three behaviours of the code are easy to misread:

- `time()` with the start dot stamped and the end dot missing calls
  `timeBetween(start, '#')` (src/TimeMeter.php:186-191). That measures the start
  stamp against the creation time, not against the current clock.
- `start`, `end` and `time` fail when no event is selected. They also fail when the
  selected name is `""` or `"0"`, because PHP's `empty` treats both as empty
  (src/TimeMeter.php:126, 150).
- Once a dot named `#` has been stamped, `timeBetween` is no longer symmetric:
  `timeBetween("#", "x")` measures creation against now, while
  `timeBetween("x", "#")` measures `x` against creation (src/TimeMeter.php:90-106).

## Model

| member | source | states |
|---|---|---|
| TimeMeterSpec.Abs | src/TimeMeter.php:106 | the distance is non-negative and is the difference or its negation |
| TimeMeterSpec.Create | src/TimeMeter.php:44-46 | a fresh meter has no dots, no selected event, and creation time `now` |
| TimeMeterSpec.DotExists | src/TimeMeter.php:75-81 | true exactly when the name is a key of the dot table |
| TimeMeterSpec.NewDot | src/TimeMeter.php:63-67 | afterwards the name exists and holds `now`, overwriting any earlier value; every other dot's existence and value, the creation time and the current event are unchanged |
| TimeMeterSpec.Event | src/TimeMeter.php:137-141 | the current event becomes the given name; the dots and the creation time are unchanged |
| TimeMeterSpec.GetCurrentEvent | src/TimeMeter.php:125-129 | fails exactly when the current event is unset, `""` or `"0"`; otherwise returns the selected name |
| TimeMeterSpec.Start | src/TimeMeter.php:148-156 | fails exactly when no non-empty event is selected; otherwise the dot table gains or overwrites exactly `"start_"+e` with `now`, and nothing else changes |
| TimeMeterSpec.End | src/TimeMeter.php:163-171 | fails exactly when no non-empty event is selected; otherwise the dot table gains or overwrites exactly `"end_"+e` with `now`, and nothing else changes |
| TimeMeterSpec.TimeBetween | src/TimeMeter.php:90-107 | every success is non-negative; fails exactly when `dot1` is a named unstamped dot, or `dot1` is stamped and `dot2` is a named unstamped dot |
| TimeMeterSpec.Time | src/TimeMeter.php:178-192 | fails exactly when no non-empty event is selected; with no start dot gives now against creation, whatever the end dot; with only the start dot gives start against creation; with both gives end against start |
| TimeMeterSpec.EventNamesNotSentinel | src/TimeMeter.php:182-188 | the generated start and end dot names are never the sentinel `#` |
| TimeMeterSpec.StartEndNamesDiffer | src/TimeMeter.php:14-20 | a start dot name never equals an end dot name, so `end` never overwrites a start stamp |
| TimeMeterSpec.EventNamesInjective | src/TimeMeter.php:152-153 | distinct events have distinct start dots and distinct end dots |
| TimeMeterSpec.NewDotOverwrites | src/TimeMeter.php:63-64 | re-stamping a name replaces its time: later distances use the new stamp, not the earlier one |
| TimeMeterSpec.SentinelCollision | src/TimeMeter.php:90-91 | `newDot("#")` makes `#` exist, but `timeBetween("#", d2)` still measures creation against now |
| TimeMeterSpec.SymmetryBreaksOnSentinel | src/TimeMeter.php:90-106 | with `#` stamped at 5, `x` at 7, creation at 0 and the clock at 100, `timeBetween("#", "x")` is 100 but `timeBetween("x", "#")` is 7 |
| TimeMeterSpec.TimeBetweenSentinelFirst | src/TimeMeter.php:101-106 | with a sentinel first argument the result is now against creation, whatever the second argument is, including an unstamped name |
| TimeMeterSpec.TimeBetweenSentinelSecond | src/TimeMeter.php:98-100 | with a stamped first dot and a sentinel second, the result is the first dot against the creation time, independent of the clock |
| TimeMeterSpec.TimeBetweenMissing | src/TimeMeter.php:91-96 | an unstamped named first dot fails; a stamped first dot with an unstamped named second dot fails |
| TimeMeterSpec.TimeBetweenSymmetric | src/TimeMeter.php:93-106 | for two stamped named dots the result is the same in either order, at any clock reading, and equals the absolute difference of their stamps |
| TimeMeterSpec.StartEndTime | src/TimeMeter.php:178-191 | after `event(e)` with a non-empty `e`, `start` at `t1` and `end` at `t2` both succeed, and `time` gives the distance between the stamps, `t2 - t1` when `t1 <= t2` |
| TimeMeterSpec.StartOnlyTime | src/TimeMeter.php:183-191 | after `event(e)` and `start` at `t1`, with no end dot, `time` gives `t1` against the creation time |
| TimeMeterTrace.RunKeepsCreationTime | src/TimeMeter.php:44-46 | no sequence of calls changes the creation time |
| TimeMeterTrace.RunKeepsDots | src/TimeMeter.php:63-64 | no sequence of calls removes a dot |
| TimeMeterTrace.EventsOnlyKeepTimes | src/TimeMeter.php:115-118 | a sequence of `event` calls leaves the dot table unchanged |
| TimeMeterTrace.RunDotsWithin | src/TimeMeter.php:63-64 | if the clock stays within a window, every recorded dot stays within it |
| TimeMeterTrace.ElapsedBound | src/TimeMeter.php:90-106 | with a clock reading between creation and now, no `timeBetween` or `time` result at `now` exceeds now minus creation |
| TimeMeterObject.TimeMeter.constructor | src/TimeMeter.php:44-46 | the creation time is the clock reading, with no dots and no event |
| TimeMeterObject.TimeMeter.NewDot | src/TimeMeter.php:63-67 | the table becomes the old table with `name` set to `now`; the event slot is unchanged, and the state matches `TimeMeterSpec.NewDot` |
| TimeMeterObject.TimeMeter.DotExists | src/TimeMeter.php:75-81 | true exactly when the name is a key of the dot table |
| TimeMeterObject.TimeMeter.TimeBetween | src/TimeMeter.php:90-107 | returns `TimeMeterSpec.TimeBetween` applied to `Snapshot()`; every success is non-negative, and it fails exactly when a named endpoint is not a key of `times` (the second only when the first is stamped) |
| TimeMeterObject.TimeMeter.SetCurrentEvent | src/TimeMeter.php:115-118 | the event slot holds the name; the dot table is unchanged |
| TimeMeterObject.TimeMeter.GetCurrentEvent | src/TimeMeter.php:125-129 | returns `TimeMeterSpec.GetCurrentEvent` applied to `Snapshot()`; fails exactly when the event slot is unset, `""` or `"0"`, and otherwise returns the slot |
| TimeMeterObject.TimeMeter.Event | src/TimeMeter.php:137-141 | the event slot holds the name; the dot table is unchanged |
| TimeMeterObject.TimeMeter.Start | src/TimeMeter.php:148-156 | succeeds exactly when a non-empty event is selected; it then stamps exactly `"start_"+e`, otherwise it leaves the table as it was; the event slot is unchanged |
| TimeMeterObject.TimeMeter.End | src/TimeMeter.php:163-171 | succeeds exactly when a non-empty event is selected; it then stamps exactly `"end_"+e`, otherwise it leaves the table as it was; the event slot is unchanged |
| TimeMeterObject.TimeMeter.Time | src/TimeMeter.php:178-192 | returns `TimeMeterSpec.Time` applied to `Snapshot()`; fails exactly when the event slot is PHP-empty, and every success is non-negative |
| TimeMeterScenarios.LoadEvent | src/TimeMeter.php:178-191 | the scenario create, `event("load")`, `start`, `end`, `time` succeeds at each step, and `time` returns the distance between the end and start stamps |
| TimeMeterScenarios.NoEventSelected | src/TimeMeter.php:148-150 | before any `event` call, `start`, `end` and `time` fail and no dot is created |
| TimeMeterScenarios.EmptyEventName | src/TimeMeter.php:125-126 | an event named `""` or `"0"` behaves as none: `start` and `time` fail |
| TimeMeterScenarios.Restamp | src/TimeMeter.php:63-64 | after re-stamping a dot, `timeBetween` in either order reflects the new stamp |
| TimeMeterScenarios.StartWithoutEnd | src/TimeMeter.php:182-191 | `time` gives now against creation before the start is stamped, and the start stamp against creation after |

## Left out

- `getTime()` (src/TimeMeter.php:53-55) reads the system clock (`microtime(true)`) and formats it to 8 decimals. Both are replaced by an integer tick that the caller passes in, so float precision and string formatting are not modelled.
- PHP loose comparison of a non-string name against `'#'`, and numeric-string coercion in `abs($dot2_time-$dot1_time)`, are not modelled. Names are strings and times are integers.
- `event(null)` and other non-string arguments to `event` are not modelled. `Event` takes a string, as the docblock's `@param string` says. An unset event exists only before the first `event` call.
- Writes to the public `creationTime` from outside the class are not modelled. It is a `const` set by the constructor, and no method of the class writes it.
- Method chaining (returning `$this`) is not modelled. Success is `true` or `Some`, and failure is `false` or `None`.
- A monotone clock is not assumed. Clock readings are unconstrained arguments, so a dot may be stamped earlier than the creation time, and the claim that a new stamp is at least the one before it is not stated. What the model proves instead is the window form: TimeMeterTrace.RunDotsWithin keeps every dot inside any window that holds the clock readings, and TimeMeterTrace.ElapsedBound bounds every result by the time since creation.
- Concurrency is not modelled, because the class is single-threaded by design.
