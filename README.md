# Restfulness predictor, modelled in Dafny

This project models the `Predictor` class of the EEG Unity plugin. The
predictor opens a BrainFlow board session and a BrainFlow restfulness
classifier. While its stream runs, a timer calls `Predict` once per interval.
Each tick pulls EEG samples, computes average band powers, classifies them,
and publishes the result as `RestfulnessScore`. Subscribers of the
`OnRestfulnessScoreUpdated` event are notified with the new value.

Files and modules:

- `exceptions.dfy`, module `Exceptions`: the exception types as an `Error` datatype, with `Result` and `Outcome`.
- `signal.dfy`, module `Signal`: `Matrix`, the value a `double[,]` sample block holds.
  - `Snapshot` reads a `Matrix` out of an `array2<real>`.
  - `Join` puts two matrices side by side along the time axis.
  - `Columns` cuts columns back out of a matrix.
- `brainflow.dfy`, module `BrainFlow`: the foreign library, as a `Runtime` object.
  - It stands for the `BoardShim`, the `MLModel` and the static `DataFilter.get_avg_band_powers`.
  - The two constructors, `new BoardShim` and `new MLModel`, only store their arguments and never throw.
  - Every other call may throw a `BrainFlowError`, and returns data the model knows only by type.
  - Each call, with its answer, is appended to `calls`. The Predictor's contracts are stated over this log.
  - BrainFlow itself is not part of this model.
- `predictor.dfy`, module `Restfulness`: the class `Predictor`, whose fields the methods update in place, and the pure functions that specify them.
  - `TickWindow`, `TickScore`, `TickPulls` and `TickCalls` are a reference pipeline for one tick. They take the answers BrainFlow gave during the tick (`Replies`, a ghost out-parameter of `Predict`).
  - `SetupCalls` and `TeardownCalls` give the calls that construction and `StopSession` make.
  - `Deliver` is one raise of the score event.
  - `RemoveLast` is `Delegate.Remove` on the invocation list.
- `scenarios.dfy`, module `Scenarios`: three client methods. They show what a caller can conclude from the contracts whatever BrainFlow answers: a short interval, a stop before a start and a double start are refused, the first tick differs from the second, and a tick keeps the score in [0, 1] when the classifier answers in that range.

A C# constructor that throws becomes the static method `Predictor.Create`, which returns a `Result<Predictor>`. The anonymous Dafny constructor does only the field initialisation.

The timer is three fields: its `Interval`, whether it is enabled, and how many times `Predict` is registered on its `Elapsed` event. `Valid()` states that the timer runs exactly while `isStreaming` holds, with `Predict` registered once. It also states that `dataCount` is a nearest integer to the samples in one interval (`NearestSampleCount`), and no more. At a midpoint it does not say which neighbour was chosen.

Only `Predict` and its helper `PullWindow` may change `firstPrediction`, and both ensure it is false afterwards. No method can set it back to true.

The model keeps these behaviours of the code as written:

- `StopSession` is not a best-effort teardown. The first exception ends it: a failing `stop_stream` skips both releases, and a failing `release_session` skips the model release.
- A subscriber's exception is not isolated. It ends the event raise, so later subscribers are not invoked, and it leaves `Predict` after the score has already been stored.
- A construction that fails at `MLModel.prepare` leaves the board session prepared and never releases it.
- There is no separate Stopped state, only the `isStreaming` flag. After `StopSession`, a new `StartSession` passes the guard and reaches `start_stream` on the released board.
- `_firstPrediction` is cleared before the first pull. If that pull throws, the next tick already uses two intervals.
- There is no lock. The model is sequential.

## Model

| member | source | states |
|---|---|---|
| `Restfulness.Predictor.ConcatenateData` | EEG_Plugin/Assets/Plugins/Restfulness/Predictor.cs:174-191 | It fails with ArgumentError exactly when the row counts differ. Otherwise it returns a new array, distinct from both inputs, with the first half's rows and the sum of the columns. `first` fills the leading columns and `second` those after them, so its snapshot is `Join` of the halves' snapshots. |
| `Signal.Join` | EEG_Plugin/Assets/Plugins/Restfulness/Predictor.cs:183-189 | Side-by-side join of two matrices with equal rows. The result has the same rows and the sum of the columns; left cells come first, then right cells shifted by the left width. |
| `Signal.JoinUnique` | EEG_Plugin/Assets/Plugins/Restfulness/Predictor.cs:183-189 | Any matrix of the join's shape that holds `left` in its leading columns and `right` after them is the join. No cell is left undefined and none is written twice. |
| `Signal.JoinSplits` | EEG_Plugin/Assets/Plugins/Restfulness/Predictor.cs:184-189 | Cutting a join at the left width gives back both halves exactly. |
| `Signal.SameCells` | EEG_Plugin/Assets/Plugins/Restfulness/Predictor.cs:183-189 | Two valid matrices with the same shape and the same cells are equal. That is, a sample block is fully determined by its cells. |
| `Signal.Snapshot` | EEG_Plugin/Assets/Plugins/Restfulness/Predictor.cs:141 | The value of a `double[,]`: its two dimensions and every cell. |
| `Restfulness.SamplesPerInterval` | EEG_Plugin/Assets/Plugins/Restfulness/Predictor.cs:66 | `_dataCount` is within one half of `samplingRate * predictionInterval / 1000`, and is non-negative for non-negative inputs. |
| `Restfulness.NearestSampleCountAlmostUnique` | EEG_Plugin/Assets/Plugins/Restfulness/Predictor.cs:66 | Two different nearest sample counts are neighbours, and the exact product lies on the midpoint between them. Only at a midpoint is `_dataCount` left open. |
| `Restfulness.MidpointLeavesBothNeighbours` | EEG_Plugin/Assets/Plugins/Restfulness/Predictor.cs:66 | 250 Hz over 2006 ms is such a midpoint: 501 and 502 are both nearest counts, and nothing else is. |
| `Restfulness.SamplesPerIntervalExample` | EEG_Plugin/Assets/Plugins/Restfulness/Predictor.cs:66 | 250 Hz over 2000 ms gives 500 samples per interval. |
| `Restfulness.Predictor.constructor` | EEG_Plugin/Assets/Plugins/Restfulness/Predictor.cs:15-26 | A new predictor is not streaming, its first prediction is pending, its score is 0, and its timer is idle at the default interval. There are no subscribers, `_dataCount` is derived from the interval, and `Valid()` holds. |
| `Restfulness.Predictor.Create` | EEG_Plugin/Assets/Plugins/Restfulness/Predictor.cs:50-67 | An interval under 500 is refused with ArgumentError, and no BrainFlow call is made at all. Otherwise the board is created, its rate and channels queried, the session prepared, then the model created and prepared, in that order. The first BrainFlow exception aborts construction. On success the predictor holds the queried rate and channels. |
| `Restfulness.Predictor.StartSession` | EEG_Plugin/Assets/Plugins/Restfulness/Predictor.cs:81-89 | While streaming it fails with InvalidOperation, makes no call and changes nothing. Otherwise it calls `start_stream`. Only if that returns does `isStreaming` become true and the timer get armed at the prediction interval with one more `Predict` handler. A failing start leaves everything unchanged. |
| `Restfulness.Predictor.StopStream` | EEG_Plugin/Assets/Plugins/Restfulness/Predictor.cs:125-132 | When not streaming it fails with InvalidOperation, makes no call and changes nothing. Otherwise it calls `stop_stream`. Only if that returns does the flag clear, the timer stop and the handler get removed. |
| `Restfulness.Predictor.StopSession` | EEG_Plugin/Assets/Plugins/Restfulness/Predictor.cs:95-100 | Before any start it fails with InvalidOperation and releases nothing. Otherwise its calls are `TeardownCalls(passed)`: stop, then board release, then model release, ending at the first exception. It succeeds exactly when all three return. |
| `Restfulness.TeardownIsOrdered` | EEG_Plugin/Assets/Plugins/Restfulness/Predictor.cs:95-100 | In any teardown the board session is released only after a stop that returned, and the model only after a board release that returned. |
| `Restfulness.Predictor.Predict` | EEG_Plugin/Assets/Plugins/Restfulness/Predictor.cs:139-165 | The tick's BrainFlow calls are exactly `TickCalls` of its answers, and `firstPrediction` is false afterwards. The score afterwards is `ScoreAfterTick` of the answers and the score before. If `TickScore` fails, the tick fails with that error and leaves the score and the notifications unchanged. Otherwise the score is the classifier's first value and the subscribers were notified with it. |
| `Restfulness.Predictor.RestfulnessScore` | EEG_Plugin/Assets/Plugins/Restfulness/Predictor.cs:35 | The public getter returns the stored score. |
| `Restfulness.TickWindow` | EEG_Plugin/Assets/Plugins/Restfulness/Predictor.cs:143-153 | The first tick has a window exactly when its current pull answered, and the window is that pull. A later window exists only when both pulls answered; it has their common row count and the sum of their columns. A missing pull fails with BrainFlowError, and two pulls with different row counts fail with ArgumentError. |
| `Restfulness.TickPulls` | EEG_Plugin/Assets/Plugins/Restfulness/Predictor.cs:143-151 | The first tick pulls once, with `get_current_board_data`. A later tick starts with `get_board_data` and makes a second pull exactly when the first one answered. |
| `Restfulness.Predictor.PullWindow` | EEG_Plugin/Assets/Plugins/Restfulness/Predictor.cs:141-153 | Its calls are `TickPulls` of its answers, and `firstPrediction` is false afterwards. It returns an array exactly when `TickWindow` succeeds, that array holds the window, and otherwise it fails with `TickWindow`'s error. |
| `Restfulness.TickScore` | EEG_Plugin/Assets/Plugins/Restfulness/Predictor.cs:160-164 | A score exists only when the window, the band powers and a non-empty classifier output exist, and it is the classifier's first value. A window failure passes through unchanged. After a window, a missing answer fails with BrainFlowError and an empty output with IndexOutOfRange. |
| `Restfulness.TickCalls` | EEG_Plugin/Assets/Plugins/Restfulness/Predictor.cs:143-164 | A tick makes one to three calls when it is the first, and one to four otherwise. Its first call is the first tick's current pull or a later tick's consuming pull. |
| `Restfulness.TickReachesStages` | EEG_Plugin/Assets/Plugins/Restfulness/Predictor.cs:160-163 | A tick calls `get_avg_band_powers` exactly when it got a window. It calls `predict` exactly when the band powers answered as well. |
| `Restfulness.ScoreAfterTick` | EEG_Plugin/Assets/Plugins/Restfulness/Predictor.cs:160-164 | A tick that scores leaves the classifier's first value as the score. Any other tick leaves the score it found. |
| `Restfulness.TickKeepsScoreInRange` | EEG_Plugin/Assets/Plugins/Restfulness/Predictor.cs:160-164 | The score is documented to lie in [0, 1], but nothing enforces it. A tick that starts from a score in [0, 1] keeps it there whenever the classifier's first value is in [0, 1]. A tick that publishes a value outside [0, 1] leaves the score outside it. |
| `Restfulness.SetupCalls` | EEG_Plugin/Assets/Plugins/Restfulness/Predictor.cs:54-63 | Construction always starts with `new BoardShim` and `get_sampling_rate` and makes at most six calls. The model is created exactly when the rate, the channels and the session preparation all answered. A successful setup makes all six calls and ends with a `prepare` that returned. |
| `Restfulness.TeardownCalls` | EEG_Plugin/Assets/Plugins/Restfulness/Predictor.cs:95-100 | With `passed` steps returning, the teardown makes `passed + 1` calls, and 3 when all three return. |
| `Restfulness.FirstTickPullsOnce` | EEG_Plugin/Assets/Plugins/Restfulness/Predictor.cs:143-147 | The first tick starts with `get_current_board_data(_dataCount)` and never consumes samples with `get_board_data`. Its window is exactly that pull. |
| `Restfulness.LaterTickJoinsTwoPulls` | EEG_Plugin/Assets/Plugins/Restfulness/Predictor.cs:148-153 | A later tick calls `get_board_data` and then `get_current_board_data`. It gets a window exactly when both answer with equal rows. That window is their join: halves' rows, summed columns, and cutting it at the old width gives back each half. |
| `Restfulness.LaterWindowSpansTwoIntervals` | EEG_Plugin/Assets/Plugins/Restfulness/Predictor.cs:150-152 | With two `_dataCount`-column halves, a later window has `2 * _dataCount` columns. |
| `Restfulness.RowMismatchPublishesNothing` | EEG_Plugin/Assets/Plugins/Restfulness/Predictor.cs:176-182 | Halves with different row counts end the tick with ArgumentError after the two pulls. No band powers, no classifier call, no score. |
| `Restfulness.ScoreIsClassifierOutput` | EEG_Plugin/Assets/Plugins/Restfulness/Predictor.cs:160-164 | A tick scores exactly when the window, the band powers and a non-empty classifier output all exist. The score is `predict(...)[0]`, where the last two calls are band powers of the window (filters on) and `predict` on the mean vector. |
| `Restfulness.Predictor.SetRestfulnessScore` | EEG_Plugin/Assets/Plugins/Restfulness/Predictor.cs:36-40 | The value is stored, and the event is raised with that stored value: the notifications grow by `Deliver(subscribers, value)`. It fails with ListenerFault exactly when a handler threw. |
| `Restfulness.Deliver` | EEG_Plugin/Assets/Plugins/Restfulness/Predictor.cs:39 | Handlers are invoked in subscription order, each with the same score. All are reached when none throws. A throwing handler is the last one invoked, and the raise faults exactly when some handler throws. |
| `Restfulness.Predictor.Subscribe` | EEG_Plugin/Assets/Plugins/Restfulness/Predictor.cs:74 | `+=` appends the handler to the end of the invocation list. |
| `Restfulness.Predictor.Unsubscribe` | EEG_Plugin/Assets/Plugins/Restfulness/Predictor.cs:74 | `-=` replaces the invocation list with `RemoveLast` of it. |
| `Restfulness.RemoveLast` | EEG_Plugin/Assets/Plugins/Restfulness/Predictor.cs:74 | An absent handler leaves the list as it is. Otherwise exactly its last occurrence is removed and every other handler keeps its order. The multiset loses exactly one copy. |
| `Restfulness.LastIndex` | EEG_Plugin/Assets/Plugins/Restfulness/Predictor.cs:74 | The position of the last occurrence of a handler, or -1 exactly when it is absent. |
| `Restfulness.UnsubscribeUndoesSubscribe` | EEG_Plugin/Assets/Plugins/Restfulness/Predictor.cs:74 | Unsubscribing right after subscribing restores the invocation list, even for a handler already subscribed. |
| `Restfulness.UnsubscribeKeepsLaterHandlers` | EEG_Plugin/Assets/Plugins/Restfulness/Predictor.cs:74 | Removing one handler keeps a different handler added later at the end of the list. |

## Left out

- The timer's scheduling and the thread `Elapsed` runs on are concurrency. A tick is an explicit call of `Predict`. The timer is kept only as its interval, its enabled flag and its handler count, and the exceptions it swallows from `Predict` are returned as an `Outcome`.
- `EnableDevLogging` is file-system and path I/O plus process-wide logger setup.
- BrainFlow itself: board, ring buffer, DSP filters, band powers and classifier. Each call's success and data are arbitrary, and the `Runtime` does not track the board's own state. A start after a release, for example, may succeed in the model although BrainFlow refuses it.
- `_boardShim.get_board_id()` is taken to return the board id the shim was created with. The model passes that id to `get_sampling_rate` and `get_eeg_channels` directly and does not log the two `get_board_id` calls.
- The score range [0, 1] that the documentation promises is not enforced by the code, and the model does not enforce it either. `TickKeepsScoreInRange` shows that a tick keeps the score in range exactly as long as the classifier answers in range.
- The `BrainFlowInputParams` and `BrainFlowModelParams` arguments (restfulness metric, default classifier) are not recorded in the calls.
- Samples are `real`, not `double`. They are only copied between arrays, never computed on.
- Restfulness.SamplesPerInterval: the source rounds a double approximation of the product with `Math.Round`. `SamplesPerInterval` rounds the exact rational product, halves to even, and the constructor stores that value. Its contract, and `Valid()`, claim only a nearest integer. At a midpoint the stored value can be one higher than the source's: for 250 Hz over 2006 ms the double product is 501.49999999999994, which `Math.Round` turns into 501, while the model stores 502. `MidpointLeavesBothNeighbours` states that both are nearest counts. The `(int)` cast of the rounded value to 32 bits is not modelled either: a product beyond the `int` range has no counterpart here.
- Restfulness.Predictor.ConcatenateData: the C# sum `firstCols + secondCols` is a 32-bit `int`. Its overflow is not modelled, because column counts are unbounded here.
- Restfulness.Deliver: whether a handler throws is a fixed property of the handler, not of the score it receives. A handler that calls back into the predictor while the event is raised (a `-=`, or `StopSession`) is not modelled. `SetRestfulnessScore` and `Predict` leave `subscribers` and `isStreaming` out of their frames, so their contracts promise those fields do not change during a raise.
- The unused field `_predictEventSubscribed` has no counterpart.
- `EEG_Plugin/Assets/Scripts/Connection.cs` (Unity lifecycle glue over direct BrainFlow calls) and `EEG_Plugin/Assets/Scripts/TextScript.cs` (UI text and `Application.Quit`) are not part of this model.
