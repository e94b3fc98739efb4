# dynamic-timer in Dafny

This project models `lib/timer.js` of dynamic-timer. That file holds a retry/backoff timer. Each time its wake-up fires, the timer emits `tick`. The delay before the next wake-up follows one of four integer series: procession, "da yan", Fibonacci and Lucas. The series value is multiplied by a seed and capped by `maxDelay`. Lifecycle changes are announced by `toll` events carrying the new state.

The model has three parts:

- **Delay arithmetic** (`strategy.dfy`, `delay.dfy`): pure functions.
  - `Strategy.Series` gives the four series.
  - `Strategy.DefaultMaxAttempts` gives the per-series ceilings 5000/141/20/19.
  - `Delay.NextDelay` clamps the attempt index to `maxAttempts`, multiplies the series value by the seed, and caps the result at `maxDelay`.
- **Option normalisation** (`options.dfy`): `Options.Normalize` turns any typed raw options record into options. It never rejects an input.
- **The timer** (`machine.dfy`, `timer.dfy`):
  - `Controller.Timer` is a class with the source's fields: `state`, `attempts`, `delay`, `overed`, the pending wake-up and an event trace. Its methods update those fields in the order the source does.
  - Each method is proved to produce the state that the matching function of module `Machine` describes, and to keep `Machine.Inv`.
  - The lemmas about single calls and about runs of many wake-ups are stated on the `Machine` functions.

Emitting `tick` or `toll` appends `Emit(...)` to the trace. Scheduling a wake-up appends `SetTimer(delay)`, and cancelling one appends `ClearTimer`. So the order in which the source emits events and schedules wake-ups is visible in the trace.

Some behaviours of the code are easy to miss. The model keeps them as written:

- A freshly constructed timer has no state at all (`Unset`), not "stopped" (lib/timer.js:12-18). Calling `stop` on it still tolls `stop`.
- Every caller of `__reset` passes `noNotify = true` (lib/timer.js:40, 51, 65). So no `reset` toll is ever emitted, neither by `reset(false)` nor by an overrun under `reset`.
- With "da yan", the delay for index 1 is 0. So a delay is not always at least the seed.
- `pause` calls `__reset`. That clears `overed` and sets `delay` back to `options.delay` before the attempt count is restored (lib/timer.js:64-66).
- `reset(true)` on a running timer cancels the wake-up but leaves the state `running`. From then on no wake-up is pending although the timer is running, and `start` does nothing (lib/timer.js:50-52, 241-253). `Machine.ResetStopWhileRunningStalls` shows this. For this reason, "a wake-up is pending iff running" (`Machine.Live`) is proved to be kept by every operation except `reset(true)`.

## Model

| member | source | states |
|---|---|---|
| Strategy.DefaultMaxAttempts | lib/timer.js:131-135 | each per-strategy ceiling (5000, 141, 20, 19) is positive, so a ceiling never reads as a missing `maxAttempts` |
| Strategy.DayanExact | lib/timer.js:202-204 | the "da yan" numerator `n*n - n%2` is even, so the division by 2 is exact and the value is a non-negative integer |
| Strategy.FibonacciPositive | lib/timer.js:205-208 | every Fibonacci number from index 1 on is at least 1 |
| Strategy.LucasPositive | lib/timer.js:209-212 | every Lucas number from index 1 on is at least 1 |
| Strategy.SeriesPositive | lib/timer.js:197-213 | from index 1 on every series value is non-negative, and it is 0 only for "da yan" at index 1 |
| Strategy.SeriesStep | lib/timer.js:197-213 | one step up the index never lowers a series value (index ≥ 1) |
| Strategy.SeriesMonotone | lib/timer.js:197-213 | every series is non-decreasing from index 1 on |
| Strategy.CeilingValues | lib/timer.js:128-135 | at the ceilings the series values are 9999, 9940, 6765 and 9349 |
| Strategy.CeilingIsTight | lib/timer.js:128-135 | each ceiling is the largest index whose series value is at most 10000 |
| Strategy.SeriesWithinCeiling | lib/timer.js:128-135 | up to its ceiling, every series value is between 0 and 10000 |
| Options.NormalizeOverrun | lib/timer.js:122-126 | a missing or unrecognised overrun becomes 'overload' (corrected see Findings), and otherwise agrees with the source |
| Options.Normalize | lib/timer.js:95-148 | normalisation accepts every input; the result's `maxAttempts` is non-zero and within the strategy's ceiling, its `maxDelay` is never 0, and `autostart` is passed through |
| Options.DefaultOptions | lib/timer.js:102-110 | with no options a timer gets seed 1000, delay 1000, "da yan", 141 attempts, unbounded delay, 'overload', no autostart |
| Options.SeedAndDelayDefaults | lib/timer.js:113-114 | a missing or non-numeric seed or delay becomes 1000, and a number is kept |
| Options.StrategyFallback | lib/timer.js:116-120 | the strategy is "da yan" exactly when no other recognised strategy was named; a recognised name is kept |
| Options.MaxAttemptsClamp | lib/timer.js:137-140 | `maxAttempts` becomes the ceiling exactly when it is missing, 0, non-numeric or at least the ceiling; a positive number up to the ceiling is kept |
| Options.TenAttemptsKept | lib/timer.js:137-140 | a `maxAttempts` of 10 is kept under every strategy |
| Options.MaxDelayUnbounded | lib/timer.js:142-145 | `maxDelay` is unbounded exactly when it is missing, 0 or non-numeric; otherwise the number is kept |
| Options.NormalizeIdempotent | lib/timer.js:95-148 | normalising already-normalised options gives them back unchanged |
| Options.SupportedIsValid | lib/timer.js:95-148 | raw options without a negative seed or a negative `maxAttempts` normalise to a non-negative seed and at least one attempt |
| Options.OverrunFallbackAsWritten | lib/timer.js:123-126 | as written, an unrecognised overrun is stored as `undefined`, not 'overload' |
| Options.OverrunFallbackCorrected | lib/timer.js:122-126 | the corrected normalisation stores 'overload' for an unrecognised overrun and matches the source on every other input |
| Delay.ClampedIndex | lib/timer.js:195-196 | the clamped index is at most the requested one and within 1..`maxAttempts` (or 0 for index 0) |
| Delay.NextDelayCapped | lib/timer.js:194-217 | the delay never exceeds a bounded `maxDelay`; it is either series × seed at the clamped index, or `maxDelay` when that product is larger |
| Delay.NextDelaySaturates | lib/timer.js:195-196 | for every index at or beyond `maxAttempts`, the delay equals the delay at `maxAttempts` |
| Delay.NextDelayMonotone | lib/timer.js:194-217 | with a non-negative seed, the delay is non-decreasing in the attempt index |
| Delay.NextDelayNonNegative | lib/timer.js:194-217 | the delay is negative only if `maxDelay` is |
| Delay.NextDelayWithinCeiling | lib/timer.js:128-135 | while `maxAttempts` is within the ceiling, the delay is at most 10000 × seed |
| Delay.DefaultDelays | lib/timer.js:202-204 | with default options, the delay for index n ≤ 141 is 1000 × the "da yan" value: 0, 2000, 4000, ... |
| Machine.FreshIsValid | lib/timer.js:12-18 | a new timer is in the unset state with no wake-up and satisfies the invariant |
| Machine.GuardedNoOps | lib/timer.js:25-79 | `pause` unless running, `resume` unless paused, `stop` when stopped and `start` while running change nothing: no field, no event |
| Machine.StartRestarts | lib/timer.js:25-29 | from any other state, `start` cancels a leftover wake-up and begins a new cycle: attempts 0, delay = `options.delay`, a wake-up pending, no toll |
| Machine.StopClears | lib/timer.js:34-43 | `stop` from any other state, a fresh timer included, cancels the wake-up, clears attempts, delay and the overrun flag, and tolls `stop` |
| Machine.ResetInternalTrace | lib/timer.js:241-253 | `__reset` appends a cancellation if a wake-up was pending, the `reset` toll only when notifying, and a new wake-up unless stopping |
| Machine.ResetTollOnlyWhenNotifying | lib/timer.js:247-250 | `__reset` tolls `reset` only when notifying and not stopping, so public `reset` never tolls |
| Machine.ResetStopWhileRunningStalls | lib/timer.js:50-52 | `reset(true)` on a running timer leaves it running with no wake-up pending, and `start` then does nothing |
| Machine.PauseKeepsProgress | lib/timer.js:57-88 | `pause` cancels the wake-up, keeps the attempts and tolls `pause`; `resume` then tolls `resume` and schedules a wake-up with the delay for attempts + 1 |
| Machine.PauseResumeStopTolls | lib/timer.js:57-88 | pausing, resuming and stopping a running timer tolls exactly [pause, resume, stop] |
| Machine.FireContinues | lib/timer.js:156-184 | a tick that does not stop or reset counts one attempt, sets delay to the delay for the next attempt, keeps the overrun flag once set, and schedules the next wake-up before emitting `tick` |
| Machine.FireOverrunStop | lib/timer.js:165-171 | on overrun with `stop`, `tick` is emitted before the `stop` toll, and the timer is left stopped, cleared and with no wake-up |
| Machine.FireOverrunReset | lib/timer.js:172-175 | on overrun with `reset`, `tick` is emitted, then a new cycle starts with a wake-up after `options.delay` and no toll |
| Machine.OveredIsSticky | lib/timer.js:161-164 | a set overrun flag is cleared by no tick except one that stops or resets the timer |
| Machine.UndefinedOverrunActsAsOverload | lib/timer.js:167-178 | a stored `undefined` overrun takes the same branch of the tick's switch as 'overload' |
| Machine.StartKeepsInv | lib/timer.js:25-29 | `start` keeps the invariant, and keeps a wake-up pending iff running |
| Machine.StopKeepsInv | lib/timer.js:34-43 | `stop` keeps the invariant, and keeps a wake-up pending iff running |
| Machine.ResetKeepsInv | lib/timer.js:50-52 | `reset` keeps the invariant; `reset(false)`, and `reset(true)` outside the running state, keep a wake-up pending iff running |
| Machine.PauseKeepsInv | lib/timer.js:57-71 | `pause` keeps the invariant, and keeps a wake-up pending iff running |
| Machine.ResumeKeepsInv | lib/timer.js:75-88 | `resume` keeps the invariant, and keeps a wake-up pending iff running |
| Machine.FireKeepsInv | lib/timer.js:154-186 | a tick keeps the invariant (under `stop`/`reset` overrun, attempts stay below `maxAttempts`), and keeps a wake-up pending iff running |
| Machine.NoResetOrRunningToll | lib/timer.js:247-250 | a trace that keeps the invariant holds no `reset`, `running` or unset toll |
| Machine.FireTicksOnce | lib/timer.js:154-186 | every tick emits exactly one `tick`, and tolls only `stop`, only when it stops the timer |
| Machine.RunAppend | lib/timer.js:154-186 | waiting for a + b wake-ups is waiting for a, then b |
| Machine.OverrunStopEndsRun | lib/timer.js:161-171 | under `stop` and below `maxDelay`, a running timer ticks once per remaining attempt, then ends stopped with `stop` right after the last `tick`, and never ticks again |
| Machine.StartTicksMaxAttemptsThenStops | lib/timer.js:25-29 | started under `stop` with maxAttempts = k and below `maxDelay`, the timer emits exactly k ticks and then only the `stop` toll |
| Machine.OverrunResetEndsCycle | lib/timer.js:172-175 | under `reset` and below `maxDelay`, a running timer ticks once per remaining attempt and is then at the start of a new cycle, with no toll |
| Machine.OverrunResetCycles | lib/timer.js:172-175 | under `reset`, the timer runs forever in cycles of `maxAttempts` ticks without tolling |
| Machine.OverloadKeepsTicking | lib/timer.js:176-184 | under 'overload' every wake-up counts an attempt and emits one `tick` with no toll; the delay is pinned at its `maxAttempts` value once attempts pass it |
| Controller.Timer.constructor | lib/timer.js:12-18 | the options are normalised and the timer is unset, or started at once with `autostart`; the invariant holds |
| Controller.Timer.NextTick | lib/timer.js:154-155 | a wake-up is scheduled after the current delay |
| Controller.Timer.ResetInternal | lib/timer.js:241-253 | the fields become what `__reset` leaves |
| Controller.Timer.Start | lib/timer.js:25-29 | the fields become `Machine.Start` of the old ones; the invariant is kept |
| Controller.Timer.Stop | lib/timer.js:34-43 | the fields become `Machine.Stop` of the old ones; the invariant is kept |
| Controller.Timer.Reset | lib/timer.js:50-52 | the fields become `Machine.Reset` of the old ones; the invariant is kept |
| Controller.Timer.Pause | lib/timer.js:57-71 | the fields become `Machine.Pause` of the old ones; the invariant is kept |
| Controller.Timer.Resume | lib/timer.js:75-88 | the fields become `Machine.Resume` of the old ones; the invariant is kept |
| Controller.Timer.Fire | lib/timer.js:155-185 | the fields become `Machine.Fire` of the old ones; the invariant is kept |
| Controller.PauseResumeStop | test/events.js:58-83 | a default timer that is started, paused, resumed and stopped tolls [pause, resume, stop] |

## Findings

| source | as written | input that shows it | evidently intended | confidence | as-written member | corrected member |
|---|---|---|---|---|---|---|
| lib/timer.js:125 | an unrecognised overrun is replaced by `Timer.strategy.OVERLOAD`, which does not exist, so `undefined` is stored | `overrun: 'scribbled'` (test/options.js:126-131 expects 'overload') | `Timer.state.OVERLOAD`, i.e. 'overload' | high (not executed) | Options.OverrunFallbackAsWritten | Options.OverrunFallbackCorrected |

The stored `undefined` matches no case of the tick's switch, so the timer still behaves as under 'overload' (`Machine.UndefinedOverrunActsAsOverload`). The bug shows only in the stored options. `Options.Normalize` uses the corrected `Options.NormalizeOverrun`.

## Left out

- Host timers: `setTimeout`/`clearTimeout` and elapsed time are not modelled. A wake-up is the `pending` field, holding its delay, plus a `SetTimer`/`ClearTimer` entry in the trace. Its firing is an explicit call of `Fire`. The wake-up that fires is spent before the callback runs, so the callback's own `stop`/`reset` logs no `ClearTimer`. The source's `clearTimeout` on that spent handle has no effect.
- Event plumbing: `EventEmitter`, `util.inherits` and listener registration are not modelled. Emitting appends to `trace`. Listeners that call timer methods while an event is being emitted are not modelled; a listener's reaction is the next top-level call.
- Fibonacci and Lucas: the floating-point closed forms (`Math.pow`, `Math.sqrt`, `Math.round`) are replaced by the integer recurrences. The two agree up to index 20, which covers the ceilings 20 and 19. That agreement is not proved.
- `Infinity` as a number: an unbounded `maxDelay` is `None`. A `maxAttempts` of `Infinity` behaves as any number above the ceiling. A seed or delay of `Infinity` is not modelled.
- Untyped option handling: the `for…in` copy of `__mixin`, `typeof` checks, `isNaN` on strings and the exceptions of `toLowerCase` on non-strings are not modelled. Each numeric option is `Missing`, `NonNumeric` or an integer `Num`. A numeric string counts as its number, and fractional numbers are not modelled. Each named option is missing, a recognised name in any letter case, or unrecognised. `autostart` is a boolean.
- The `'dayan'` key quirk: the lower-case name passes the key check at lib/timer.js:118 but matches neither `apts` nor the series switch. It is not modelled, because the strategy input is a closed set of names.
- Negative or zero `maxAttempts` after normalisation, and negative seeds: `Normalize` keeps them as the source does. The timer's arithmetic (`NextDelay`, `Resume`, `Fire`) requires a seed ≥ 0 and `maxAttempts` ≥ 1, and the constructor requires raw options that produce these (`Options.Supported`).
- A fresh timer's `attempts` and `delay` are `undefined` in the source. The model uses 0 and `options.delay`. No operation reads them before `start` or `stop` assigns them.
- The example scripts (example/*.js) and the mocha test harness are not modelled. The tests serve only as evidence for the properties above.
