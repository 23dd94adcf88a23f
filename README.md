# Agentic scheduler: request resolution, timeline ticks and dashboard reducers

This project models the sequential core of the agentic CPU-scheduling simulator
in Dafny and proves properties of it. The simulator runs FCFS, SJF, Round Robin
and Priority scheduling over a batch of processes. A process's burst time and
priority may come from a prediction engine that learns from the bursts users
supply. The model has three parts.

- **The `POST /api/schedule` handler** (module `ScheduleRoute`). `CoerceProcess`
  resolves one process. It chooses between the supplied and the predicted burst
  and priority, rejects a burst that is not a finite positive number, and rounds
  and clamps the fields. `Respond` and `RecordedSamples` are the handler's
  specification: the answer to a request, and the `engine.record` calls it makes.
  `Post` is the handler itself. It checks for an empty batch, resolves the whole
  batch fail-fast, records in a loop, de-duplicates the algorithm list (or falls
  back to all four), clamps the quantum, and dispatches. It is proved to answer
  as `Respond` and to append exactly `RecordedSamples` to the engine's log.
- **The timeline's span and ticks** (module `ScheduleTimeline`). `TimelineBounds`
  computes the drawn span, and the `BuildTicks` method computes the axis ticks.
- **The dashboard's list updaters** (module `SchedulerDashboard`). These are
  `ChangeProcess` (`handleProcessChange`), `RemoveProcess` and `ToggleAlgorithm`.

Supporting modules:
- `JsNumber` models JavaScript numbers, `Math.round`/`max`/`min` and `<=`, with
  NaN and the infinities tagged.
- `Seqs` holds `filter`, duplicate-freedom and first-occurrence indices.
- `SchedulerTypes` holds the records and the algorithm keys.
- `Wrappers` holds `Option` (absent properties, `??`) and `Result` (thrown errors).

Opaque collaborators are parameters of the model:
- The four scheduling functions form the `Schedulers` record of functions.
- The engine's current model is `PredictionEngine.predictor`.
- `engine.record` appends to the ghost `PredictionEngine.log`.
- JavaScript's `Number(string)` is the `toNumber` parameter.

`Math.round` follows ECMA-262, section 21.3.2.28. It is
`floor(x + 1/2)` on the reals, so halves go toward +infinity.

Where the system's design and the code differ, the model follows the code:
- The burst check looks at the unrounded burst, so a supplied burst of 0.4 is
  accepted and resolves to a burst time of 0 (`SmallBurstRoundsToZero`). The
  design asks for a positive burst time.
- The route rounds a resolved priority but does not clamp it into [1, 5]. Only
  the dashboard clamps priority.
- An unsupported algorithm key fails the request only after the record loop
  has run, so the supplied bursts are already recorded
  (`UnsupportedAlgorithmFailsAfterRecording`). The design describes every
  failure as aborting the batch with no effect.
- `Number.isFinite`-style validation is not applied to arrival time or
  priority. A non-finite prediction for those passes through (see the arrival
  clauses of `CoerceProcess`).

## Model

| member | source | states |
|---|---|---|
| `Wrappers.Option.GetOr` | agentic-scheduler/src/app/api/schedule/route.ts:34-37 | JavaScript's `??` on an optional property: the value when present (0 included), otherwise the fallback |
| `JsNumber.IsFinite` | agentic-scheduler/src/app/api/schedule/route.ts:39 | `Number.isFinite` holds exactly for a number that is neither NaN nor an infinity |
| `JsNumber.Le` | agentic-scheduler/src/app/api/schedule/route.ts:39 | JavaScript's `<=` on numbers: false whenever either side is NaN. Otherwise -Infinity is below everything and +Infinity above everything, and finite values compare as reals |
| `JsNumber.RoundReal` | agentic-scheduler/src/app/api/schedule/route.ts:50 | `Math.round` of a finite value is the integer k with v - 1/2 < k <= v + 1/2 (nearest, halves up) |
| `JsNumber.Round` | agentic-scheduler/src/app/api/schedule/route.ts:49-51 | `Math.round` keeps finiteness, yields a whole number within 1/2 of a finite input, and returns NaN/±Infinity unchanged |
| `JsNumber.Max` | agentic-scheduler/src/app/api/schedule/route.ts:87 | `Math.max` is NaN exactly when an argument is NaN, otherwise one of its arguments and not below either |
| `JsNumber.Min` | agentic-scheduler/src/components/SchedulerDashboard.tsx:133 | `Math.min` is NaN exactly when an argument is NaN, otherwise one of its arguments and not above either |
| `Seqs.Filter` | agentic-scheduler/src/components/SchedulerDashboard.tsx:110 | `filter` keeps exactly the elements satisfying the predicate and never grows the list |
| `Seqs.FilterConcat` | agentic-scheduler/src/components/SchedulerDashboard.tsx:174 | filtering distributes over concatenation, so kept elements keep their relative order |
| `Seqs.FilterMultiset` | agentic-scheduler/src/components/SchedulerDashboard.tsx:110 | filtering keeps each surviving element with its multiplicity and removes every copy of the others |
| `Seqs.FilterAll` | agentic-scheduler/src/components/SchedulerDashboard.tsx:110 | a filter that keeps every element returns the list unchanged |
| `Seqs.FirstIndex` | agentic-scheduler/src/app/api/schedule/route.ts:82 | the index returned holds x and no earlier index does |
| `Seqs.FirstIndexOfPrefix` | agentic-scheduler/src/app/api/schedule/route.ts:82 | extending a list does not move the first occurrence of an element already present |
| `ScheduleRoute.CoerceProcess` | agentic-scheduler/src/app/api/schedule/route.ts:24-56 | missing features fail naming the process. Otherwise resolution fails (naming it) iff the chosen burst is not finite and > 0. Under predictions, burst and priority are the predicted ones, rounded. Without predictions each field takes the supplied value when present and the prediction otherwise. The arrival is max(0, round(arrival)), non-negative unless NaN. id, name, features and the supplied burst are carried over |
| `ScheduleRoute.Message` | agentic-scheduler/src/app/api/schedule/route.ts:24-91 | the empty-batch text is fixed. The missing-features text ends with the process name. The invalid-burst text puts the process name after its fixed lead-in. The unsupported-algorithm text ends with the key |
| `ScheduleRoute.Choose` | agentic-scheduler/src/app/api/schedule/route.ts:32-37 | under predictions the prediction is used. Otherwise a supplied value (0 included) wins and an absent one falls back to the prediction |
| `ScheduleRoute.ProcessesOf` | agentic-scheduler/src/app/api/schedule/route.ts:61 | an absent `processes` defaults to the empty list, a present one is used as given |
| `ScheduleRoute.SelectedOf` | agentic-scheduler/src/app/api/schedule/route.ts:61 | an absent `selectedAlgorithms` defaults to the empty list, a present one is used as given |
| `ScheduleRoute.QuantumInputOf` | agentic-scheduler/src/app/api/schedule/route.ts:61 | an absent `roundRobinQuantum` defaults to 4, a present one is used as given |
| `ScheduleRoute.UsePredictionsOf` | agentic-scheduler/src/app/api/schedule/route.ts:61 | an absent `usePredictions` defaults to true, a present one is used as given |
| `ScheduleRoute.SuppliedZeroBurstIsRejected` | agentic-scheduler/src/app/api/schedule/route.ts:32-43 | `??` keeps a supplied 0, so a burst of 0 is rejected rather than replaced by the prediction |
| `ScheduleRoute.SmallBurstRoundsToZero` | agentic-scheduler/src/app/api/schedule/route.ts:39-50 | a supplied burst of 0.4 passes validation and resolves to burst time 0 |
| `ScheduleRoute.ResolveAll` | agentic-scheduler/src/app/api/schedule/route.ts:71-73 | the batch resolves iff every process does, giving one resolution per process in order; otherwise it fails with the error of the first failing process |
| `ScheduleRoute.Specs` | agentic-scheduler/src/app/api/schedule/route.ts:94 | the resolved list is the resolutions' processes, index by index |
| `ScheduleRoute.RecordLog` | agentic-scheduler/src/app/api/schedule/route.ts:76-80 | the record loop makes at most one call per resolution |
| `ScheduleRoute.RecordLogMembers` | agentic-scheduler/src/app/api/schedule/route.ts:76-80 | a sample is recorded iff it is the spec and features of a resolution whose input carried a burst |
| `ScheduleRoute.RecordLogConcat` | agentic-scheduler/src/app/api/schedule/route.ts:76-80 | the record calls follow input order (the log of a concatenation is the concatenation of logs) |
| `ScheduleRoute.Unique` | agentic-scheduler/src/app/api/schedule/route.ts:82 | the de-duplicated list has the same keys as the selection and each key once |
| `ScheduleRoute.UniqueKeepsFirstOccurrenceOrder` | agentic-scheduler/src/app/api/schedule/route.ts:82 | the de-duplicated keys appear in the order of their first occurrences in the selection |
| `ScheduleRoute.Algorithms` | agentic-scheduler/src/app/api/schedule/route.ts:82-85 | an empty selection becomes FCFS, SJF, RoundRobin, Priority. Any other selection becomes `Unique` of it: its keys without duplicates, in first-occurrence order. The result is never empty |
| `ScheduleRoute.Quantum` | agentic-scheduler/src/app/api/schedule/route.ts:87 | a finite quantum becomes its rounded value, or 1 when that is below 1. +Infinity stays +Infinity, -Infinity becomes 1, NaN stays NaN. Every non-NaN result is whole and at least 1 |
| `ScheduleRoute.Dispatch` | agentic-scheduler/src/app/api/schedule/route.ts:17-22 | exactly the four known keys have a runner; Round Robin alone receives the quantum |
| `ScheduleRoute.RunAll` | agentic-scheduler/src/app/api/schedule/route.ts:88-97 | if every key is known, there is one result per key, in order, each computed on the same batch and quantum. Otherwise the first unknown key fails the map |
| `ScheduleRoute.Respond` | agentic-scheduler/src/app/api/schedule/route.ts:58-104 | the request succeeds iff the batch is non-empty, every process resolves and every selected key is known. An empty or absent batch fails with the empty-batch error. A batch that does not resolve fails with its first error. A resolved batch with an unknown key fails naming the first unknown key. A success returns the resolved list (one spec per input, in order) and one result per selected algorithm, all on that list |
| `ScheduleRoute.RecordedSamples` | agentic-scheduler/src/app/api/schedule/route.ts:63-80 | nothing is recorded for an empty batch or for a batch that fails to resolve. For a batch that resolves, the samples are `RecordLog` of the resolutions: one per input that carried a burst, in input order |
| `ScheduleRoute.RecordedSamplesExactly` | agentic-scheduler/src/app/api/schedule/route.ts:76-80 | for a batch that resolves, the recorded samples are exactly those of the inputs that carried a burst, with their resolved specs |
| `ScheduleRoute.RecordedUnderPredictionsCarryPredictedBurst` | agentic-scheduler/src/app/api/schedule/route.ts:31-80 | with predictions in use, every recorded spec carries the rounded predicted burst, not the user's |
| `ScheduleRoute.UnsupportedAlgorithmFailsAfterRecording` | agentic-scheduler/src/app/api/schedule/route.ts:76-92 | an unknown algorithm key fails the request although the supplied bursts were already recorded |
| `ScheduleRoute.PredictionEngine.constructor` | agentic-scheduler/src/app/api/schedule/route.ts:70 | a fresh engine has the given predictor and an empty record log |
| `ScheduleRoute.PredictionEngine.Record` | agentic-scheduler/src/app/api/schedule/route.ts:78 | a record call appends exactly its spec and features to the log |
| `ScheduleRoute.Post` | agentic-scheduler/src/app/api/schedule/route.ts:58-104 | the handler answers as `Respond` on the engine's predictor and appends exactly `RecordedSamples` to the engine's log, in order |
| `ScheduleTimeline.TimelineBounds` | agentic-scheduler/src/components/ScheduleTimeline.tsx:9-11 | the span runs from the first slice's start to the last slice's end (0 to 0 when empty). `total` is end - start when that is at least 1, and 1 when it is at most 1 |
| `ScheduleTimeline.ContiguousDurationTelescopes` | agentic-scheduler/src/components/ScheduleTimeline.tsx:9-11 | in a contiguous timeline the slice durations sum to last end minus first start |
| `ScheduleTimeline.NonEmptySlicesDurationAtLeastCount` | agentic-scheduler/src/components/ScheduleTimeline.tsx:18-19 | slices that each last at least one unit have a total duration of at least their number |
| `ScheduleTimeline.ContiguousSlicesFillTimeline` | agentic-scheduler/src/components/ScheduleTimeline.tsx:11-19 | for a contiguous timeline of non-empty slices the width divisor equals the sum of the durations, so the widths fill the bar |
| `ScheduleTimeline.TickStep` | agentic-scheduler/src/components/ScheduleTimeline.tsx:56-57 | for a positive span (the only one the loop reaches) the step is max(1, round(span / maxTicks)) >= 1; with maxTicks 0 (an infinite quotient) one step passes the span |
| `ScheduleTimeline.LoopTicks` | agentic-scheduler/src/components/ScheduleTimeline.tsx:59-62 | the loop emits (end - start) / step + 1 ticks, and its last tick is `end` exactly when the step divides the span |
| `ScheduleTimeline.BuildTicks` | agentic-scheduler/src/components/ScheduleTimeline.tsx:54-66 | end <= start gives exactly [start]. Otherwise the ticks are start + k*step for k up to the span / step, followed by `end` when the step does not divide the span. They start at `start`, are strictly increasing, lie in [start, end], end with `end`, and `end` appears only last |
| `SchedulerDashboard.WithFeature` | agentic-scheduler/src/components/SchedulerDashboard.tsx:141-147 | the named feature takes the new value and every other feature stays |
| `SchedulerDashboard.ClampFeature` | agentic-scheduler/src/components/SchedulerDashboard.tsx:127-140 | a non-NaN value is brought into its feature's range: [0,1] for ioBound, cpuIntensity and deadlineFlexibility, >= 32 for memory, >= 0 for wait, >= 1 for estimated burst. A value below the range becomes the least value. A fraction above 1 becomes 1. A value already in range is kept, and the other features have no upper bound. NaN stays NaN |
| `SchedulerDashboard.UpdateProcess` | agentic-scheduler/src/components/SchedulerDashboard.tsx:121-166 | the id never changes. A numeric or feature edit whose value is NaN changes nothing. A feature edit sets only that feature, to `ClampFeature` of the number. The name is stored as typed, whatever its number is. An empty burst/priority box clears the override. Priority becomes min(5, max(1, round(n))): the rounded value when in [1,5], otherwise the nearer end, 5 for +Infinity and 1 for -Infinity. Arrival and burst keep a non-negative number and become 0 for a negative one. Each edit changes only its own field |
| `SchedulerDashboard.ChangeProcess` | agentic-scheduler/src/components/SchedulerDashboard.tsx:113-169 | same length and order; entries with another id are returned unchanged; matching entries are updated as `UpdateProcess`; ids are preserved |
| `SchedulerDashboard.ChangeAbsentIdIsIdentity` | agentic-scheduler/src/components/SchedulerDashboard.tsx:119-121 | an edit for an id no process has leaves the list unchanged |
| `SchedulerDashboard.RemoveProcess` | agentic-scheduler/src/components/SchedulerDashboard.tsx:109-111 | the result holds exactly the listed processes whose id differs |
| `SchedulerDashboard.RemoveProcessKeepsOrder` | agentic-scheduler/src/components/SchedulerDashboard.tsx:109-111 | removal keeps the relative order of the remaining processes |
| `SchedulerDashboard.RemoveProcessMultiplicity` | agentic-scheduler/src/components/SchedulerDashboard.tsx:109-111 | every entry with the id is dropped and every other entry keeps its multiplicity |
| `SchedulerDashboard.RemoveAbsentIdIsIdentity` | agentic-scheduler/src/components/SchedulerDashboard.tsx:109-111 | removing an id nobody has returns the list unchanged |
| `SchedulerDashboard.ToggleAlgorithm` | agentic-scheduler/src/components/SchedulerDashboard.tsx:171-177 | the key is selected afterwards iff it was not before. Other keys keep their membership. An absent key is appended at the end. A present key is filtered out, with the other keys kept in order |
| `SchedulerDashboard.ToggleOffRemovesEveryCopy` | agentic-scheduler/src/components/SchedulerDashboard.tsx:173-174 | toggling a selected key removes all its copies and keeps every other key's count |
| `SchedulerDashboard.ToggleAbsentTwiceRestores` | agentic-scheduler/src/components/SchedulerDashboard.tsx:171-177 | toggling an unselected key twice restores the original list |
| `SchedulerDashboard.TogglePresentTwiceMovesToEnd` | agentic-scheduler/src/components/SchedulerDashboard.tsx:171-177 | toggling a selected key off and on again drops every copy of the key and puts one copy at the end, after the other keys in their order. So it need not restore the list: it does only when the key occurs once, at the end |

## Left out

- The scheduling functions `fcfsSchedule`, `sjfSchedule`, `roundRobinSchedule` and `prioritySchedule` are not part of this model. They are opaque fields of `Schedulers`.
- The prediction engine (`getPredictionEngine`, the random-forest regressor and its type declaration) is not part of this model. Its predictions come from the opaque `predictor`.
- PredictionEngine.Record: logs the sample only. The retraining that follows inside the engine is not modelled, so `predictor` does not change. `POST` makes every prediction before its first record, so its answer does not depend on that retraining.
- HTTP and async plumbing is not modelled: `request.json`, `NextResponse`, status codes, `console.error` and `fetch` in `runScheduling`. Errors are a `Result` failure carrying an `Error` value; `Message` gives its text.
- JSON values of other types are not modelled: a string where a number is expected, `null` for a whole collection, a non-boolean `usePredictions`. Payload properties are either absent or of their declared type.
- Algorithm keys inherited from `Object.prototype` (such as `constructor` or `toString`) are treated like any unknown key. In the code, the dispatch table lookup finds the inherited member instead.
- Numbers are exact reals with NaN and ±Infinity tagged. IEEE-754 rounding error and signed zero are not modelled.
- ChangeProcess: covers the edits the table makes: name, arrivalTime, burstTime, priority, and each feature with `nested = true`. Three edits no call site makes are left out: an edit of `id` or `features`, a feature name with `nested = false`, and a `number`-typed `value`.
- ChangeProcess: requires a feature vector on the targeted processes for a nested edit, as the process type declares. The code would throw a TypeError on `in` over an undefined feature vector.
- React state, rendering and formatting are not modelled: `useState`/`useMemo`, JSX, `MetricCard`, `page.tsx`, slice width percentages and `toFixed`. Nor are `resetToExamples` and the quantum input's `Number(...) || 1`.
- `createEmptyProcess` is not modelled, because its id comes from `Math.random`.
- Timeline slices are reduced to their integer start and end; their labels and colours only feed rendering.
- The shared type module `lib/types` is not part of this model. The record shapes follow how `route.ts` and the dashboard read and write them.
