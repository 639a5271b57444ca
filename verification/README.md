# IWT interval walking: a Dafny model of the training logic

IWT is an Android app for interval walking training. A session is five sets of a 3-minute fast phase and a 3-minute slow phase, with a metronome at the target cadence and spoken cues. A five-minute calibration walk measures the walker's baseline cadence, and the home screen derives the fast and slow targets from it. During a session a cadence estimator turns the step-counter sensor's cumulative count into a smoothed steps-per-minute (SPM) value. An activity-transition decision switches that estimator on and off.

The project models this logic in Dafny, one module per source file:

| module | file | source |
|---|---|---|
| `Cadence` | cadence_estimator.dfy | app/src/main/java/com/example/iwt/sensor/CadenceEstimator.kt |
| `Session` | session_view_model.dfy | app/src/main/java/com/example/iwt/viewmodel/SessionViewModel.kt |
| `Calibration` | calibration_view_model.dfy | app/src/main/java/com/example/iwt/viewmodel/CalibrationViewModel.kt |
| `ActivityRecognition` | activity_recognition.dfy | app/src/main/java/com/example/iwt/sensor/ActivityRecognitionManager.kt (`handleTransitionResult`) |
| `Home` | home_view_model.dfy | app/src/main/java/com/example/iwt/viewmodel/HomeViewModel.kt |
| `SessionScreen` | session_screen.dfy | app/src/main/java/com/example/iwt/ui/screens/SessionScreen.kt (gauge colour, `statsJson`, title) |

Four helper modules support them:
- `Wrappers` holds `Option`.
- `Kotlin` holds Kotlin's truncating `/` and `%` on `Int` and `IntRange`.
- `Text` holds `Int.toString`, `padStart` and a decimal reader.
- `Prefs` holds the shared `SharedPreferences` store as a class over `map<string, int>`.

The view models and the estimator update their state in place, so each is a class whose methods change its fields. Every class is specified by pure functions that lemmas reason about:
- `Session.Advance` is one second of the countdown.
- `Session.Average` is the finish average.
- `Cadence.Prune`, `Rate`, `Ema` and `ToInt` are the estimator's steps.
- `Home.Paces` is what `loadPaces` computes.
- `Calibration.ResultSpm` is the calibration result.

Coroutines and timers become explicit events:
- `Session.SessionViewModel.Tick` is one pass of the `startTimer` loop: its running check, the unpaused second, the one-second delay and the finish check.
- `Calibration.CalibrationViewModel.Tick` is one pass of the countdown loop.
- `Cadence.CadenceEstimator.OnInactivityTimeout` is the delayed block of `scheduleStopDetection`.

Sensor readings, the wall clock and activity batches are method parameters. Speech is recorded as a sequence of `Announcement` tokens. Values passed to `onCadenceChanged` are recorded in `emitted`.

The main results are these:
- `Session.SessionLength`: a session without pauses reaches five sets after exactly 1800 seconds and ten phase switches, and not before.
- `Session.SessionViewModel.RunSession`: it then finishes with the integer average of the reported cadences.
- `Session.AverageWithinSamples`: that average lies between the smallest and the largest sample.
- `Calibration.WalkOneStepPerSecond`: a calibration with one step per second stores a baseline of 60.
- `SessionScreen.StatsJson`: the finish payload reads back as the values it was built from.
- `ActivityRecognition.HandleTransitionResult`: the activity decision is characterised in both directions.
- `ActivityRecognition.OrderIndependent`: the decision does not depend on the order of the batch.
- `Home.SaveFastThenLoad`: a saved pace survives a reload.

## Model

| member | source | states |
|---|---|---|
| `ActivityRecognition.HandleTransitionResult` | app/src/main/java/com/example/iwt/sensor/ActivityRecognitionManager.kt:34-48 | Some(true) exactly when some event enters WALKING or RUNNING. Some(false) exactly when none does but some event enters STILL. None exactly when neither kind of entry occurs. So there is at most one report, and walking wins. |
| `ActivityRecognition.Any` | app/src/main/java/com/example/iwt/sensor/ActivityRecognitionManager.kt:35-41 | `any` over a batch holds exactly when some element satisfies the predicate. |
| `ActivityRecognition.ExitsOnlyReportNothing` | app/src/main/java/com/example/iwt/sensor/ActivityRecognitionManager.kt:43-47 | A batch of EXIT events only, the empty batch included, reports nothing. |
| `ActivityRecognition.OrderIndependent` | app/src/main/java/com/example/iwt/sensor/ActivityRecognitionManager.kt:35-41 | Two batches that are permutations of each other give the same decision. |
| `ActivityRecognition.SameElementsSameDecision` | app/src/main/java/com/example/iwt/sensor/ActivityRecognitionManager.kt:35-46 | Batches with the same set of events give the same decision. |
| `ActivityRecognition.DuplicateDeliveryIdempotent` | app/src/main/java/com/example/iwt/sensor/ActivityRecognitionManager.kt:35-46 | Delivering a batch twice over decides as delivering it once. |
| `Cadence.Prune` | app/src/main/java/com/example/iwt/sensor/CadenceEstimator.kt:69-70 | `removeAll` on the window never lengthens it. |
| `Cadence.PruneKeepsRecent` | app/src/main/java/com/example/iwt/sensor/CadenceEstimator.kt:69-70 | After pruning the window holds exactly its entries stamped at or after the cutoff. |
| `Cadence.PruneOfRecent` | app/src/main/java/com/example/iwt/sensor/CadenceEstimator.kt:70 | Pruning a window that has nothing older than the cutoff leaves it unchanged, so pruning is idempotent. |
| `Cadence.PruneAppend` | app/src/main/java/com/example/iwt/sensor/CadenceEstimator.kt:70 | Pruning distributes over concatenation, so appended entries keep their order. |
| `Cadence.StaleEntryIgnored` | app/src/main/java/com/example/iwt/sensor/CadenceEstimator.kt:69-70 | An entry older than the cutoff, wherever it stands, does not affect the pruned window. |
| `Cadence.StepsIn` | app/src/main/java/com/example/iwt/sensor/CadenceEstimator.kt:72 | The steps in the window; a window of positive deltas holds at least one step per entry. |
| `Cadence.ElapsedSeconds` | app/src/main/java/com/example/iwt/sensor/CadenceEstimator.kt:73-77 | Milliseconds between the first and the last entry, in seconds. It is 0 for a window of at most one entry. |
| `Cadence.Rate` | app/src/main/java/com/example/iwt/sensor/CadenceEstimator.kt:72-83 | The rate is 0 when no time has elapsed. Otherwise rate × elapsed seconds = steps × 60. It is never negative over positive deltas, and positive when time has elapsed. |
| `Cadence.Ema` | app/src/main/java/com/example/iwt/sensor/CadenceEstimator.kt:85 | The new average lies between the old average and the rate, and moves 0.3 of the way towards the rate. |
| `Cadence.ToInt` | app/src/main/java/com/example/iwt/sensor/CadenceEstimator.kt:86 | `Double.toInt` truncates toward zero: the floor for non-negative values. |
| `Cadence.CadenceEstimator.constructor` | app/src/main/java/com/example/iwt/sensor/CadenceEstimator.kt:14-25 | The estimator starts unregistered, not walking, with a pending first reading, an empty window and an estimate of 0. |
| `Cadence.CadenceEstimator.Start` | app/src/main/java/com/example/iwt/sensor/CadenceEstimator.kt:27-32 | The listener is registered only when a step counter exists. The next reading is a baseline. |
| `Cadence.CadenceEstimator.Stop` | app/src/main/java/com/example/iwt/sensor/CadenceEstimator.kt:34-38 | The listener is unregistered and the pending reset is cancelled. The coroutine scope is cancelled for good. |
| `Cadence.CadenceEstimator.SetWalkingState` | app/src/main/java/com/example/iwt/sensor/CadenceEstimator.kt:40-48 | Leaving the walking state zeroes the estimate, empties the window, cancels the reset and emits 0. Entering it changes only the flag. |
| `Cadence.CadenceEstimator.OnSensorChanged` | app/src/main/java/com/example/iwt/sensor/CadenceEstimator.kt:50-87 | An ungated reading (another sensor, not walking, not registered) changes nothing. The first gated reading only stores the baseline. A later reading does four things: (1) it appends a positive delta and re-arms the reset; (2) it prunes to the last 15 s; (3) it folds Rate into Ema; (4) it emits the truncation. The window stays positive and the estimate and emissions non-negative. |
| `Cadence.CadenceEstimator.ScheduleStopDetection` | app/src/main/java/com/example/iwt/sensor/CadenceEstimator.kt:89-92 | A new reset replaces the pending one, unless the scope was cancelled. |
| `Cadence.CadenceEstimator.OnInactivityTimeout` | app/src/main/java/com/example/iwt/sensor/CadenceEstimator.kt:92-96 | A pending reset zeroes the estimate, empties the window and emits 0. Without one nothing changes. |
| `Calibration.ResultSpm` | app/src/main/java/com/example/iwt/viewmodel/CalibrationViewModel.kt:61-62 | The result is the whole number of steps per minute: 5r ≤ steps < 5(r+1). |
| `Calibration.CalibrationExample` | app/src/main/java/com/example/iwt/viewmodel/CalibrationViewModel.kt:61-62 | 300 steps give 60. |
| `Calibration.CalibrationViewModel.constructor` | app/src/main/java/com/example/iwt/viewmodel/CalibrationViewModel.kt:16-40 | The view model starts with CalibrationUiState() (not running, 300 s) and 0 steps. |
| `Calibration.CalibrationViewModel.Start` | app/src/main/java/com/example/iwt/viewmodel/CalibrationViewModel.kt:42-47 | Start sets running and zeroes the steps, and leaves the clock as it was. A clock already at 0 finishes at once and stores 0. |
| `Calibration.CalibrationViewModel.Tick` | app/src/main/java/com/example/iwt/viewmodel/CalibrationViewModel.kt:51-55 | The clock drops by exactly 1 and never below 0. At 0 the countdown ends and finishes the calibration. |
| `Calibration.CalibrationViewModel.FinishCalibration` | app/src/main/java/com/example/iwt/viewmodel/CalibrationViewModel.kt:59-70 | Finishing unregisters the listener and stores steps / 5 under base_spm. The view shows that value, with running false and finished true. |
| `Calibration.CalibrationViewModel.OnSensorChanged` | app/src/main/java/com/example/iwt/viewmodel/CalibrationViewModel.kt:72-76 | Only a delivered step-detector event counts, and it counts exactly one step. |
| `Calibration.CalibrationViewModel.RunCountdown` | app/src/main/java/com/example/iwt/viewmodel/CalibrationViewModel.kt:49-57 | The countdown takes exactly as many seconds as were on the clock, then finishes and stores the result. |
| `Calibration.WalkOneStepPerSecond` | app/src/main/java/com/example/iwt/viewmodel/CalibrationViewModel.kt:19 | From the default 300 s with one step per second: 300 ticks, 300 steps, and base_spm = 60 stored and shown. |
| `Home.Paces` | app/src/main/java/com/example/iwt/viewmodel/HomeViewModel.kt:28-37 | isCalibrated holds exactly when base_spm is stored and positive. A stored fast_spm or slow_spm wins. Otherwise the pace is base ± 20 when calibrated, else 120 and 80. |
| `Home.EmptyStoreLoadsDefaults` | app/src/main/java/com/example/iwt/viewmodel/HomeViewModel.kt:11-15 | An empty store loads HomeUiState(): 120, 80, not calibrated. |
| `Home.SaveFastThenLoad` | app/src/main/java/com/example/iwt/viewmodel/HomeViewModel.kt:39-45 | After storing fast_spm, a reload reads it back and changes nothing else. |
| `Home.SaveSlowThenLoad` | app/src/main/java/com/example/iwt/viewmodel/HomeViewModel.kt:47-53 | After storing slow_spm, a reload reads it back and changes nothing else. |
| `Home.StoredTargetsOverrideBaseline` | app/src/main/java/com/example/iwt/viewmodel/HomeViewModel.kt:30-31 | Once both targets are stored, no recalibration moves them. |
| `Home.CalibratedDefaults` | app/src/main/java/com/example/iwt/viewmodel/HomeViewModel.kt:29-31 | Without stored targets, a positive baseline gives base+20 and base−20, calibrated. A non-positive baseline gives the defaults. |
| `Home.HomeViewModel.constructor` | app/src/main/java/com/example/iwt/viewmodel/HomeViewModel.kt:24-26 | Creating the view model loads the paces from the store. |
| `Home.HomeViewModel.LoadPaces` | app/src/main/java/com/example/iwt/viewmodel/HomeViewModel.kt:28-37 | The view state becomes Paces of the store. |
| `Home.HomeViewModel.SaveFastSpm` | app/src/main/java/com/example/iwt/viewmodel/HomeViewModel.kt:39-45 | Only fastSpm changes in the view. fast_spm is written, and a loaded view stays equal to Paces of the store. |
| `Home.HomeViewModel.SaveSlowSpm` | app/src/main/java/com/example/iwt/viewmodel/HomeViewModel.kt:47-53 | Only slowSpm changes in the view. slow_spm is written, and a loaded view stays equal to Paces of the store. |
| `Prefs.PrefStore.PutInt` | app/src/main/java/com/example/iwt/viewmodel/CalibrationViewModel.kt:64-67 | `putInt` then `apply` sets one key and leaves the other keys alone. |
| `Text.IntToString` | app/src/main/java/com/example/iwt/ui/screens/SessionScreen.kt:73 | `Int.toString` gives a '-' exactly for negatives, then digits, and reads back as the same number. |
| `Kotlin.Div` | app/src/main/java/com/example/iwt/viewmodel/SessionViewModel.kt:158 | Kotlin's `/` with a positive divisor: the quotient truncated toward zero, bounded on both sides for either sign of the dividend. |
| `Kotlin.Rem` | app/src/main/java/com/example/iwt/viewmodel/SessionViewModel.kt:40 | Kotlin's `%` with a positive divisor: dividend = quotient × divisor + remainder, and the remainder takes the dividend's sign with magnitude below the divisor. |
| `Text.PadStart` | app/src/main/java/com/example/iwt/viewmodel/SessionViewModel.kt:40 | `padStart` gives max(length, length of s) characters: the string itself, preceded by the pad character. |
| `Text.Minutes` | app/src/main/java/com/example/iwt/viewmodel/CalibrationViewModel.kt:22 | remainingMinutes: for a non-negative count, the whole minutes m with 60m ≤ seconds < 60m + 60; truncated toward zero for a negative count. |
| `Text.SecondsPart` | app/src/main/java/com/example/iwt/viewmodel/SessionViewModel.kt:40 | remainingSecondsPart is at least two characters, and starts with '-' exactly when the remainder is negative. |
| `Text.ClockRoundTrip` | app/src/main/java/com/example/iwt/viewmodel/CalibrationViewModel.kt:22-23 | remainingSecondsPart is two digits, and minutes × 60 plus those digits is the remaining time. The same getters appear in SessionViewModel.kt:39-40. |
| `Session.TargetRange` | app/src/main/java/com/example/iwt/viewmodel/SessionViewModel.kt:182 | target-5..target+5 contains exactly the cadences within 5 of the target. |
| `Session.SetPhase` | app/src/main/java/com/example/iwt/viewmodel/SessionViewModel.kt:167-184 | The phase is set, with the fast or slow target and the ±5 range around it. formHint is cleared and nothing else changes. |
| `Session.PhaseAnnouncement` | app/src/main/java/com/example/iwt/viewmodel/SessionViewModel.kt:171-176 | The phrase setPhase says: "start fast" exactly for a fast phase with no sets done, "next fast" exactly for a fast phase after a set, and "switch to slow" exactly for a slow phase. |
| `Session.SoonAnnouncement` | app/src/main/java/com/example/iwt/viewmodel/SessionViewModel.kt:146-152 | The ten-second warning is "soon fast" exactly in a slow phase and "soon slow" exactly in a fast phase. |
| `Session.TickAnnouncements` | app/src/main/java/com/example/iwt/viewmodel/SessionViewModel.kt:135-152 | An unpaused second says one phrase per switch and one per ten-second mark, the switch first. |
| `Session.UtterancesDistinct` | app/src/main/java/com/example/iwt/viewmodel/SessionViewModel.kt:146-176 | The six spoken phrases are pairwise different, so each token stands for one phrase. |
| `Session.Advance` | app/src/main/java/com/example/iwt/viewmodel/SessionViewModel.kt:127-136 | One unpaused second counts down. The phase switches exactly when the clock runs out, and the clock then restarts at 180. A set is counted exactly on a slow→fast switch. The clock stays in 1..180. |
| `Session.ScheduleAfter` | app/src/main/java/com/example/iwt/viewmodel/SessionViewModel.kt:119-136 | After n unpaused seconds: fast iff ⌊n/180⌋ is even, 180 − n mod 180 left, ⌊n/360⌋ sets, and ⌊n/180⌋ switches so far. |
| `Session.SessionLength` | app/src/main/java/com/example/iwt/viewmodel/SessionViewModel.kt:126-156 | Five sets are reached after exactly 1800 unpaused seconds and 10 switches, never earlier, back in the fast phase. |
| `Session.PhaseEndsWhenClockRunsOut` | app/src/main/java/com/example/iwt/viewmodel/SessionViewModel.kt:128-131 | With r seconds on the clock the phase lasts r − 1 more seconds and switches at the r-th. |
| `Session.SwitchAnnouncement` | app/src/main/java/com/example/iwt/viewmodel/SessionViewModel.kt:171-176 | A switch announces the slow phase or the next fast phase. "Start fast" is said only once. |
| `Session.SoonNamesNextPhase` | app/src/main/java/com/example/iwt/viewmodel/SessionViewModel.kt:146-152 | The ten-second warning names the phase that starts ten seconds later. |
| `Session.SumBounds` | app/src/main/java/com/example/iwt/viewmodel/SessionViewModel.kt:139 | The sum of n samples within lo..hi lies within n·lo..n·hi. |
| `Session.Average` | app/src/main/java/com/example/iwt/viewmodel/SessionViewModel.kt:158 | 0 without samples. Otherwise the sum divided by the count, truncated toward zero, with both bounds given for either sign of the sum. |
| `Session.AverageWithinSamples` | app/src/main/java/com/example/iwt/viewmodel/SessionViewModel.kt:158 | The integer average of the samples lies between their lowest and highest value. |
| `Session.AverageExample` | app/src/main/java/com/example/iwt/viewmodel/SessionViewModel.kt:158 | Samples 100, 110 and 120 average 110. |
| `Session.Metronome` | app/src/main/java/com/example/iwt/viewmodel/SessionViewModel.kt:103-112 | A cue sounds exactly when unpaused with a positive target. The wait is then 60000 / target ms, truncated. Otherwise the loop polls again after 100 ms. |
| `Session.SessionViewModel.constructor` | app/src/main/java/com/example/iwt/viewmodel/SessionViewModel.kt:67-72 | The view model starts with UiState() (fast, set 0, 120 in 115..125, 3:00), not running, with no samples. |
| `Session.SessionViewModel.ResetState` | app/src/main/java/com/example/iwt/viewmodel/SessionViewModel.kt:74-79 | The default view state, no samples, not running. |
| `Session.SessionViewModel.Start` | app/src/main/java/com/example/iwt/viewmodel/SessionViewModel.kt:81-89 | While running nothing changes. Otherwise the state resets and the timer starts in the first fast phase with the given targets, announcing "start fast". |
| `Session.SessionViewModel.TogglePause` | app/src/main/java/com/example/iwt/viewmodel/SessionViewModel.kt:91 | Only the pause flag flips. |
| `Session.SessionViewModel.Cancel` | app/src/main/java/com/example/iwt/viewmodel/SessionViewModel.kt:93-98 | The session is no longer running, and the timer loop ends at its next check. |
| `Session.SessionViewModel.OnCadenceChanged` | app/src/main/java/com/example/iwt/viewmodel/SessionViewModel.kt:59-61 | The reported cadence is shown. |
| `Session.SessionViewModel.Tick` | app/src/main/java/com/example/iwt/viewmodel/SessionViewModel.kt:126-163 | Paused, nothing changes. Otherwise the countdown Advances and the current cadence joins the samples. The new view state is given in full: setPhase's update on a switch, then the clock and the sets, and on the fifth set finished with the average. Every other field keeps its value. Switches and the ten-second warning are announced. The session finishes and says "well done" exactly when five sets are done. A cancelled session's loop just ends. |
| `Session.SessionViewModel.CountSecond` | app/src/main/java/com/example/iwt/viewmodel/SessionViewModel.kt:127-153 | One unpaused second: the countdown Advances and one sample is added. The new view state is given in full: setPhase's update on a switch, then the clock and the sets, and nothing else. The announcements follow. |
| `Session.SessionViewModel.FinishSession` | app/src/main/java/com/example/iwt/viewmodel/SessionViewModel.kt:156-161 | The session stops with finished set and avgSpm the integer average of all samples (0 without samples), and says "well done". |
| `Session.SessionViewModel.RunSession` | app/src/main/java/com/example/iwt/viewmodel/SessionViewModel.kt:117-165 | Without pauses the session ends after exactly 1800 seconds with 5 sets, in the fast phase at the fast target, averaging the reported cadences. |
| `SessionScreen.Gauge` | app/src/main/java/com/example/iwt/ui/screens/SessionScreen.kt:181-185 | In range gives the primary colour. Within 10 of the range gives tertiary. Otherwise it gives error. Each band is characterised in both directions. |
| `SessionScreen.GaugeByDistance` | app/src/main/java/com/example/iwt/ui/screens/SessionScreen.kt:182-183 | With the range setPhase gives: in target iff abs(c−t) ≤ 5, near iff 5 < abs(c−t) ≤ 15, off iff abs(c−t) > 15. |
| `SessionScreen.StatsJson` | app/src/main/java/com/example/iwt/ui/screens/SessionScreen.kt:73 | The payload starts with {"avgSpm": and ends with }, and ParseStats reads it back as exactly avgSpm and set. |
| `SessionScreen.PayloadRoundTrip` | app/src/main/java/com/example/iwt/ui/screens/SessionScreen.kt:72-74 | Any text of the shape {"avgSpm":A,"sets":S} built from two integers parses back to exactly A and S. |
| `SessionScreen.Title` | app/src/main/java/com/example/iwt/ui/screens/SessionScreen.kt:81-82 | The title starts with the phase name's first character (速 or ス), ends with " / 5 セット目", and the number between reads back as set + 1. |
| `SessionScreen.TitleDeterminesPhaseAndSet` | app/src/main/java/com/example/iwt/ui/screens/SessionScreen.kt:81-82 | Two equal titles show the same phase and the same set, so the title never mixes up two states. |

## Left out

- Naming: `UiState.set` is the field `setCount`, because `set` is a Dafny keyword.
- Platform I/O is not modelled:
  - `SensorManager` registration is the `registered`/`listening` flags;
  - the activity-transition subscription, `PendingIntent` and broadcast receiver are left out, and so are `ActivityRecognitionManager.start`/`stop`;
  - the sensor-to-view-model wiring is left out: the estimator's output reaches `Session` as `OnCadenceChanged` calls, and activity decisions reach the estimator as `SetWalkingState` calls.
- Concurrency: coroutines, `delay`, `Job` cancellation and the interleaving of the timer loop, the metronome loop and the sensor callbacks are left out. Each loop pass is an event method called one at a time.
  - Two timer loops running at once are not modelled. A calibration `start` while a countdown runs would start a second one. A session `start` soon after `cancel`, before the old loop reaches its check, would do the same.
- Audio: text-to-speech and `ToneGenerator`. Utterances are `Announcement` tokens and a metronome cue is `Beat.cue`. The unused `beep` is not modelled.
- Cadence.Rate and Cadence.Ema compute with exact reals, not IEEE doubles. Rounding of the division by 1000.0 and of the 0.3 weights is not modelled.
- Int overflow is not modelled: integers are unbounded. Neither is the saturation of `Double.toInt`, nor the `Float`-to-`Int` conversion of the step-counter value (the reading is an integer input).
- Cadence.CadenceEstimator.OnSensorChanged: the `event?.sensor?.type` null check is folded into the sensor type argument.
- Calibration: a missing step-detector sensor is not modelled (registration with a null sensor does nothing). The calibration has no accelerometer fallback: that is only a TODO comment. `onCleared` is left out.
- `SessionViewModel.onCleared` and `cancel`'s calls into the estimator and the activity manager are left out. Only its `running` flag is modelled.
- SessionScreen: the gauge's `progress` float, the layout and the permission rationale are left out. Only the colour band, the payload and the title are modelled.
- Kotlin.Div and Kotlin.Rem require a positive divisor. Each division in the source has one:
  - the constants 60 (the clock getters) and 5 (the calibration result);
  - `samples` in the finish average, guarded by `samples > 0`;
  - `targetSpm` in the metronome, guarded by `targetSpm > 0`.
- Stores: `SharedPreferences` is a map from keys to integers. `apply()` is an immediate write, since disk persistence is not modelled.
