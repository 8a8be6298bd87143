# Perceptron AND-gate trainer: a Dafny model of the training engine

This project models the engine of an interactive perceptron simulator. The
simulator teaches a two-input perceptron the logical AND gate.

- Each call of `step` takes the training row at `currentStep` and computes
  the weighted sum `z = x1·w1 + x2·w2 + b`.
- It predicts 1 exactly when `z ≥ 0` and takes the error `y − ŷ`.
- On a nonzero error it moves the weights by the delta rule.
- It records the calculation in an append-only history and as the last
  calculation.
- It advances cyclically through the four rows. When it wraps, it starts a
  new epoch.
- The engine converges when an epoch ends with no errors.

Around `step`, the model also covers:

- reset;
- the learning-rate change, which is ignored while running;
- the running toggle;
- the initial configuration and training data;
- the history log, which maps a record to its detail view, groups records by
  epoch, and decides how each row is shown.

Modules follow the source files:

- `Types` covers `types.ts`: the records.
- `Constants` covers `constants.ts`: `INITIAL_STATE` and
  `DEFAULT_AND_GATE_DATA`.
- `CalculationTrace` covers `components/CalculationTrace.tsx`.
- `App` covers `App.tsx`.

`App.Transition` is a pure function that states one step that is not
refused. The class `App.Simulation` has one field per state hook of the
component:

- `state`
- `isRunning`
- `history`
- `isConverged`
- `lastCalculation`

Its methods are proved against `Transition`. `App.EngineInvariant` ties the
state, the history and the convergence flag together. `App.Consistent` adds
that the last calculation is the detail of the newest record. Every method
keeps it.

Weights, `z` and the learning rate are exact `real`s. Inputs and labels are
the subset type `Bit` (0 or 1).

## Model

| member | source | states |
|---|---|---|
| Constants.DefaultAndGateData | constants.ts:13-18 | Four rows, each labelled with the AND of its inputs, no input pair twice: the whole AND truth table |
| Constants.InitialState | constants.ts:4-11 | Weights (0, 0, 0), epoch 1, row 0 (a valid index into the non-empty data), no errors, rate 1 |
| CalculationTrace.MapHistoryToTrace | components/CalculationTrace.tsx:9-25 | The detail view loses only epoch, step and the update flag: the record is rebuilt from the view with `w1/w2/b` read from `new_w1/new_w2/new_b`, old weights, inputs, label, `z`, prediction, error and rate copied unchanged |
| CalculationTrace.WithEpochMembers | components/CalculationTrace.tsx:36-43 | An entry is in the group of epoch `k` exactly when it is in the history and has epoch `k` |
| CalculationTrace.WithEpochAppend | components/CalculationTrace.tsx:41 | Grouping a concatenated history concatenates the groups, so entries keep their relative history order within a group |
| CalculationTrace.GroupsByOwnEpoch | components/CalculationTrace.tsx:36-43 | Every entry lands in the group keyed by its own epoch; a group holds only entries of its key's epoch, all from the history |
| CalculationTrace.GroupingAppend | components/CalculationTrace.tsx:37-41 | Pushing one entry creates its epoch's group if absent and appends the entry to it, leaving every other group alone |
| CalculationTrace.GroupByEpoch | components/CalculationTrace.tsx:36-43 | The reduce loop builds exactly the grouping of the whole history |
| CalculationTrace.HistoryLog | components/CalculationTrace.tsx:27-43 | The placeholder is shown exactly when the history is empty; otherwise the tables are the non-empty grouping of the history |
| CalculationTrace.RegroupingIsLossless | components/CalculationTrace.tsx:36-47 | Concatenating the groups of all epochs gives back the history's entries with their multiplicities: nothing lost or duplicated |
| CalculationTrace.RegroupingRestoresHistory | components/CalculationTrace.tsx:36-47 | For a history with nondecreasing epochs, the groups concatenated in ascending epoch order are the history itself |
| App.Transition | App.tsx:44-110 | One step: record at the pre-step epoch and row with pre-step and post-step weights; ŷ = 1 iff z ≥ 0; error in {−1, 0, 1}; update flag iff error ≠ 0; weights unchanged on zero error; next row (row + 1) mod 4; on a wrap the epoch increments, the counter resets, and convergence holds iff the finished epoch had no error; otherwise same epoch, counter up by the error, no convergence; rate unchanged; valid states stay valid |
| App.StepFollowsDeltaRule | App.tsx:50-63 | The record's `z` is the weighted sum over the pre-step weights, and on a nonzero error the new weights are w + η·error·x for each weight and b + η·error for the bias |
| App.TraceMatchesEntry | App.tsx:66-89 | The last calculation and the detail view the log derives from the same step's record are equal (with the record's rate stored) |
| App.EntryAsWritten | App.tsx:78-89 | The record literal as written has no learning rate and otherwise equals the corrected record |
| App.FirstLoggedDetailLacksRate | App.tsx:78-89 | The first step from the initial state shows the adjustment detail in the log, whose rate is missing with the record as written, while the last calculation has rate 1 |
| App.Run | App.tsx:38-43 | Repeated steps keep states valid and never change the rate; once converged, a step is refused and changes nothing |
| App.NotConvergedEarlier | App.tsx:40-43 | Convergence is permanent: a run that has not converged after m steps had not converged after any n ≤ m |
| App.InitialStateConverges | App.tsx:165-169 | From the initial state no run of fewer than 24 steps converges; every run of 24 or more ends converged at weights (1, 2, −3) with epoch 7; those weights classify all four AND rows correctly |
| App.ErrorsCountedWithinEpoch | App.tsx:56-59 | Within an epoch the error counter equals the number of errors among the epoch's records so far |
| App.ErrorsCountedAtEpochEnd | App.tsx:95-102 | At the end of an epoch, the counter restarts at 0 and the flag is set exactly when the completed epoch's records have no error |
| App.StepPreservesInvariant | App.tsx:78-110 | A step keeps the engine invariant. The i-th record is at epoch i/4+1 and row i mod 4, made by the step rule. Each record starts from the previous one's new weights, and the last ends at the current weights. The counter counts this epoch's errors. Every earlier completed epoch had an error. Converged iff the last completed epoch had none |
| App.HistoryEpochsOrdered | App.tsx:92-96 | The engine's history has nondecreasing epochs, all between 1 and the current epoch |
| App.LogListsHistoryInOrder | components/CalculationTrace.tsx:36-47 | For the engine's history, the epoch tables read in ascending epoch order list the history exactly |
| App.LoggedRowFlagsAgree | components/CalculationTrace.tsx:68-85 | On every engine record the adjustment detail is shown iff the new weights are emphasised, and a row marked correct kept its weights |
| App.InvariantIgnoresRate | App.tsx:33-36 | Changing the rate keeps the simulation's invariant: the engine invariant, and the last calculation is the detail of the newest record |
| App.Simulation.constructor | App.tsx:13-17 | Starts at the initial state, idle, not converged, with an empty history and no last calculation |
| App.Simulation.Reset | App.tsx:21-31 | Restores the initial state and clears history, flag, running and last calculation. The new state does not depend on the old one, so resetting twice is resetting once |
| App.Simulation.SetLearningRate | App.tsx:33-36 | While running nothing changes; otherwise only the state's rate changes |
| App.Simulation.ToggleRunning | App.tsx:149 | Flips `isRunning` and changes nothing else |
| App.Simulation.Step | App.tsx:38-112 | When converged, the step changes only `isRunning`, which becomes false. Otherwise the state becomes `Transition`'s next state and exactly one record is appended. The last calculation is its detail, the flag is set as the step decides, and running stops on convergence. The invariant is kept |
| App.CalculateRow | App.tsx:44-63 | The imperative calculation (a copy of the weights updated field by field, a mutable error counter) gives the weighted sum, the threshold prediction, the error, the delta-rule weights exactly when the error is nonzero, and the counter up by one on an error |
| App.Simulation.ProcessRow | App.tsx:44-110 | The imperative body (the row calculation, the records, rollover, convergence check) produces exactly `Transition`'s state, record, detail and flag |

## Left out

- The `setInterval` scheduler and its `useEffect` cleanup (`App.tsx:114-128`) are timer plumbing. Running is a flag, and each `step` is one atomic call.
- The stale closure over `isConverged` in `step` (`App.tsx:112`) is React plumbing. The flag is read as an ordinary engine field.
- React batches state updates: `setIsRunning` and `setIsConverged` are called inside the state updater. The model applies all updates of one call at once.
- `AND_GATE_DATA`: `App.tsx:3` imports it, but `constants.ts` exports only `DEFAULT_AND_GATE_DATA`. The model treats the two as the same four rows.
- `INITIAL_STATE.activationFunction` and the sigmoid fields read at `components/CalculationTrace.tsx:23-24` are not part of this model. The record types do not declare them and nothing computes them; only the step activation exists.
- App.Transition / App.Simulation.ProcessRow / App.Simulation.Step: these build the corrected history record, which stores the step's learning rate (`Some(rate)`). The record literal at `App.tsx:78-89` stores no rate; `App.EntryAsWritten` is that literal as written (see Findings). `App.ProducedByStep` requires the rate to be present, so `App.EngineInvariant`, `App.HistoryEpochsOrdered`, `App.LogListsHistoryInOrder` and `App.LoggedRowFlagsAgree` are stated for histories of corrected records, not for the history the code as written builds. Every other field of the record is the same in both.
- `CalculationTraceType.learningRate` is declared as a number. The model types it as `Option<real>` so that the detail view of a record without a rate can be represented (see Findings).
- IEEE-754 rounding is not modelled; all arithmetic is on exact reals.
- The learning-rate slider range (0.1 to 2, `components/ControlPanel.tsx`) and the disabling of controls while converged are UI. `SetLearningRate` accepts any real, and `ToggleRunning` is unconditional as in `App.tsx:149`.
- The remaining components are not part of this model: the decision-boundary plot, the state display, the data table, the info panel, the detail rendering with `toFixed` and the control panel. They only render.
- `App.Run` counts calls to `step` with a natural number. It does not model wall-clock time.

## Findings

| source | as written | input that shows it | evidently intended | confidence | as-written member | corrected member |
|---|---|---|---|---|---|---|
| App.tsx:78-89 | The history record built by `step` has no `learningRate` property, although `HistoryEntry` declares one (types.ts:53). `mapHistoryToTrace` copies the missing value into the detail view, which reads `learningRate.toFixed` (components/CalculationDetails.tsx:58). | The first `step` from the initial state: its error is −1, so the log shows the detail for that row, and its rate is undefined. | The record stores the step's learning rate, so the log's detail equals the last calculation. | not executed | App.FirstLoggedDetailLacksRate | App.TraceMatchesEntry |
