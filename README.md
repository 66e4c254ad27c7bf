# Indoor localization map view — a Dafny model

This project models the estimation core of the Android `MapView` of an indoor
localization app. The view guesses the device's position on a floor plan from a
Wi-Fi scan and shows it with a rotating arrow. The modelled parts are:

- **Feature-vector construction** (`toFeatureVector`). A fresh 76-slot vector is
  filled from the scan results. Each result whose SSID appears in the training
  index writes `calculateSignalLevel(level, 100)` into that SSID's slot, so a later
  duplicate overwrites an earlier one. Then the current heading is written into
  the last slot, overriding any SSID mapped there.
- **The position indicator** (`PositionIndicator`). It holds a pixel position and a
  heading. `update` scales grid coordinates by 50 with Java's 32-bit `int`
  multiplication, which wraps. `setAngle`/`getAngle` never touch the position.
- **One estimation step** (`updatePositionIndicator`). When Wi-Fi is enabled, it
  builds the vector, asks the model, and moves the indicator to the first two
  outputs. The heading is untouched. With Wi-Fi off, nothing changes.
- **The draw thread's loop** (`run`). Each tick estimates, then sleeps
  `200 - delta` ms when the tick took `delta < 200` ms, and does not sleep
  otherwise. There is no catch-up. `FRAMES_PER_SECOND`/`SKIP_TICKS` are declared
  but never used by the loop.

Files:

- `JavaInt.dfy`: Java `int` and its wrap-around.
- `Features.dfy`: scan results and the training index. `SlotValue` is the
  reference definition of a slot ("the level of the last scan result that writes
  it, else 0"), and `FeatureVector` is the whole vector. The lemmas state the
  vector's laws.
- `Pacing.dfy`: the sleep rule and the duration of a run.
- `Localization.dfy`: the classes `PositionIndicator` and `MapView`. It also holds
  the value-level `Estimate`/`Replay` that their methods are proved against, and
  the lemmas about a whole run.

Foreign collaborators are parameters fixed when a `MapView` is constructed:

- `WifiManager.calculateSignalLevel` is the function-valued field `signalLevel`.
- `Utils.scaleFeatures`, `PredictiveModel.predict` and `Math.round` form one
  composed function, `predictor`. It maps the pre-scaling integer vector to
  rounded `int` outputs.

The Wi-Fi state, the scan results and the clock readings are arguments where the
Java code queries them.

The training index is `map<string, Option<int>>`:

- a key is present exactly when `has(ssid)` is true;
- `None` is a value for which `getInt` throws `JSONException`. The source catches
  that, prints it, and skips the write.

The only precondition on the index is that every slot the scan actually writes
lies in `[0, 76)`. Any other slot throws an uncaught array-bounds exception.

Three behaviours of the code shape the model:

- The code has no handler for a failing or short model output:
  `output[0]`/`output[1]` on a short array throws, uncaught. The model therefore
  requires at least two outputs (`Predicts`).
- The code handles duplicate SSIDs in one scan by last-write-wins, and that is
  what is proved.
- The heading is any `int` and is read without a lock. The model takes any
  `int32`.

## Model

| member | source | states |
|---|---|---|
| `Localization.MapView.ToFeatureVector` | app/src/main/java/com/example/minhduc0711/indoorlocalization/MapView.java:61-75 | the returned array has exactly 76 slots; every slot but the last is the level of the last scan result writing it (else 0); the last holds the indicator's heading; the array is freshly allocated |
| `Features.LastWriteWins` | app/src/main/java/com/example/minhduc0711/indoorlocalization/MapView.java:64-69 | if scan `j` writes slot `k` and no later scan does, slot `k` holds `calculateSignalLevel(scans[j].level, 100)`: earlier duplicates are overwritten |
| `Features.UnwrittenSlotIsZero` | app/src/main/java/com/example/minhduc0711/indoorlocalization/MapView.java:62-74 | a slot no scan result writes keeps the default 0 |
| `Features.IgnoredScanChangesNothing` | app/src/main/java/com/example/minhduc0711/indoorlocalization/MapView.java:66-72 | a result whose SSID is not indexed, or whose index value `getInt` rejects, can be removed anywhere in the list without changing any slot |
| `Features.IgnoredScanKeepsVector` | app/src/main/java/com/example/minhduc0711/indoorlocalization/MapView.java:64-75 | the same for the whole vector, heading included |
| `Features.SwapDistinctSlotValue` | app/src/main/java/com/example/minhduc0711/indoorlocalization/MapView.java:64-69 | two adjacent results that write different slots can be swapped without changing any slot |
| `Features.SwapDistinctSlots` | app/src/main/java/com/example/minhduc0711/indoorlocalization/MapView.java:64-75 | the same for the whole vector: only the last write to each slot matters, not the order across slots |
| `Features.EmptyScanVector` | app/src/main/java/com/example/minhduc0711/indoorlocalization/MapView.java:62-75 | with no scan results every slot is 0 except the last, which holds the heading |
| `Features.SlotValueInLevelRange` | app/src/main/java/com/example/minhduc0711/indoorlocalization/MapView.java:67-69 | if `calculateSignalLevel` returns values in `[0, 100)` for the scanned levels, every non-heading slot is in `[0, 100)` |
| `Features.FeatureVector` | app/src/main/java/com/example/minhduc0711/indoorlocalization/MapView.java:62 | the vector has exactly 76 elements whatever the scan list is |
| `JavaInt.Wrap` | app/src/main/java/com/example/minhduc0711/indoorlocalization/MapView.java:159-160 | the result is a 32-bit int congruent to the exact value modulo 2^32, and equal to it when it fits |
| `JavaInt.WrapIsUnique` | app/src/main/java/com/example/minhduc0711/indoorlocalization/MapView.java:159-160 | exactly one 32-bit int is congruent to a value modulo 2^32, so `Wrap` is Java's product |
| `Localization.ToPixels` | app/src/main/java/com/example/minhduc0711/indoorlocalization/MapView.java:159-160 | grid coordinates up to ±42949672 become exactly 50 times themselves; larger ones wrap modulo 2^32 |
| `Localization.ToPixelsOverflows` | app/src/main/java/com/example/minhduc0711/indoorlocalization/MapView.java:159 | grid coordinate 42949673 becomes the negative pixel position -2147483646 |
| `Localization.PositionIndicator.constructor` | app/src/main/java/com/example/minhduc0711/indoorlocalization/MapView.java:153-156 | a new indicator is at (0, 0) with heading 0 |
| `Localization.PositionIndicator.Update` | app/src/main/java/com/example/minhduc0711/indoorlocalization/MapView.java:158-161 | `xPos`/`yPos` become the pixel positions of (x, y); the heading is unchanged |
| `Localization.PositionIndicator.GetAngle` | app/src/main/java/com/example/minhduc0711/indoorlocalization/MapView.java:163-165 | returns the stored heading, so after `SetAngle(a)` it returns `a` (exercised in `ExampleTick`) |
| `Localization.PositionIndicator.SetAngle` | app/src/main/java/com/example/minhduc0711/indoorlocalization/MapView.java:167-169 | the heading becomes `a`; the position is unchanged |
| `Localization.MapView.constructor` | app/src/main/java/com/example/minhduc0711/indoorlocalization/MapView.java:41-56 | the view keeps the loaded index and collaborators and owns a fresh indicator at (0, 0, 0) |
| `Localization.MapView.UpdatePositionIndicator` | app/src/main/java/com/example/minhduc0711/indoorlocalization/MapView.java:83-91 | with Wi-Fi off the indicator is unchanged; otherwise its position becomes 50 times the model's first two outputs for the current vector, and the heading is unchanged |
| `Localization.MapView.UpdateOrientation` | app/src/main/java/com/example/minhduc0711/indoorlocalization/MapView.java:96-98 | the heading becomes `angle`; the position is unchanged |
| `Localization.MapView.Run` | app/src/main/java/com/example/minhduc0711/indoorlocalization/MapView.java:132-151 | one sleep per tick, each `SleepMillis(end - start)`; the indicator ends in the state obtained by replaying the ticks' estimations in order; the run's wall time (work plus sleep, summed over ticks) is `Pacing.RunDuration` of the work times |
| `Localization.Replay` | app/src/main/java/com/example/minhduc0711/indoorlocalization/MapView.java:133-137 | running ticks never changes the heading |
| `Localization.ReplayShowsLastEstimate` | app/src/main/java/com/example/minhduc0711/indoorlocalization/MapView.java:83-91 | after a run the indicator shows the estimate of the last tick with Wi-Fi enabled, or its starting state when no tick had Wi-Fi |
| `Localization.LastEstimating` | app/src/main/java/com/example/minhduc0711/indoorlocalization/MapView.java:84 | the index found is that of a Wi-Fi-enabled tick with none after it; none is found only when no tick had Wi-Fi |
| `Pacing.SleepMillis` | app/src/main/java/com/example/minhduc0711/indoorlocalization/MapView.java:139-149 | a tick faster than 200 ms sleeps a positive time that brings it to exactly 200 ms; a slower one does not sleep |
| `Pacing.PeriodIsMaxOfWorkAndBudget` | app/src/main/java/com/example/minhduc0711/indoorlocalization/MapView.java:139-149 | a tick's period is the larger of its work time and 200 ms; for `0 <= delta < 200` the sleep lies in `(0, 200]` |
| `Pacing.RunLastsAtLeastBudgets` | app/src/main/java/com/example/minhduc0711/indoorlocalization/MapView.java:133-150 | n ticks take at least n × 200 ms |
| `Pacing.RunDurationIsSumOfPeriods` | app/src/main/java/com/example/minhduc0711/indoorlocalization/MapView.java:133-150 | no catch-up: a run lasts 200 ms per fast tick plus the full work time of each slow tick |
| `Localization.WallTimeIsRunDuration` | app/src/main/java/com/example/minhduc0711/indoorlocalization/MapView.java:133-150 | when every sleep follows the pacing rule, the summed work and sleep times of a run equal `Pacing.RunDuration` of its work times, so the pacing lemmas describe `Run`'s output |

## Left out

- `Utils.scaleFeatures`, `PredictiveModel.predict` (a TensorFlow graph) and `Math.round` are not part of this model. They are one opaque function `predictor` applied to the pre-scaling vector.
- `WifiManager.calculateSignalLevel` is a foreign call. It is the uninterpreted field `signalLevel`, and its range is a hypothesis of `Features.SlotValueInLevelRange` only.
- Localization.MapView.ToFeatureVector: the source stores into a `float[]`, the model stores exact integers. A `float` holds every integer up to ±2^24 exactly but rounds larger ones. So a heading beyond ±2^24 is rounded in the source's heading slot and exact here. The same goes for any `calculateSignalLevel` result beyond ±2^24, because `signalLevel` is unconstrained in the model.
- `String.valueOf(scanResult.SSID)` turns a null SSID into `"null"`. Scan results here carry the already-converted string.
- Loading the index (`Utils.loadJSONFromAsset`) and the model file are not modelled; the constructor takes their results. A failed load, which would make `has` throw, is not modelled.
- Drawing is not modelled: `doDraw`'s canvas locking, `PositionIndicator.draw`'s floating-point rotation matrix, and `drawableToBitmap`.
- The surface lifecycle is not modelled (`surfaceCreated`, `surfaceChanged`, `surfaceDestroyed` and the `threadRunning` flag). `Run` is given the finite list of ticks the thread gets to execute before the flag is cleared.
- `Thread.sleep` itself, `InterruptedException` (which cuts a sleep short and is logged) and logging are left out. Only the sleep length is modelled.
- `System.currentTimeMillis` readings are inputs of each tick. `long` overflow in `endTime - startTime` and `200 - deltaTime` is not modelled, because real clock readings are far from the `long` range.
- Localization.MapView.Run: the heading is held fixed during a run. In the source, the sensor callback may call `updateOrientation` from another thread between or during ticks. The model covers one such call between runs (`UpdateOrientation`), not interleavings inside a tick.
- Localization.MapView.UpdatePositionIndicator: requires the model to return at least two outputs, because the source reads `output[0]` and `output[1]` with no handler for a short array.
