# Vibration early-fault trend detector and L2 diagnostic gate: a Dafny model

This project models the two components that hold the decision logic of a
vibration-monitoring pipeline for industrial assets.

- **Trend detector** (`TrendDetection`, in `trend_detector.dfy`). It keeps a
  bounded first-in first-out history of accepted feature maps for each
  (asset, point) pair. Each call classifies the current feature map into a
  `TrendResult` with these fields:
  - a severity level (NORMAL / WATCH / WARNING) from the high-frequency
    acceleration RMS;
  - an `hfHigh` flag;
  - an envelope flag;
  - an ISO-style velocity zone A–D;
  - a temperature alarm;
  - the dominant feature, which is the first key of greatest absolute value.

  The history is the `history` field of the class `TrendDetector`, and the
  method `Update` changes it in place.
- **Feature maps** (`FeatureMaps`, in `feature_map.dfy`). A Python dictionary
  becomes a sequence of name/value pairs with distinct names, in insertion
  order. This module holds `dict.get` with a default, and the left-to-right
  scan that Python's `max(..., key=abs)` performs.
- **L2 diagnostic gate** (`DiagnosticEngine`, in `diagnostic_engine.dfy`). It
  is a fail-closed chain of checks:
  - the early-fault flag is set;
  - the asset matches;
  - the point matches;
  - the event does not predate the snapshot.

  Only when all of them hold are the rule set's findings on the unchanged
  snapshot returned. Otherwise the result is empty. The rule set enters as a
  function-valued parameter, so every property holds whatever the rules do.

Numbers are `real`. The source does no arithmetic on them apart from `abs`;
it only compares them, with decimal literals and with each other. Exact reals
therefore keep every boundary (`0.05`, `0.12`, `1.8`, `2.8`, `4.5`, `0.02`,
`80.0`) exact.

Behaviour of the code that the model keeps exactly:
- The dominant feature is the first key in insertion order among those of
  greatest absolute value, because Python's `max` replaces its candidate only
  on a strictly greater key.
- A feature map without the high-frequency entry returns before `setdefault`,
  so the whole history map stays unchanged and no entry is created for the
  (asset, point) key.
- The asset check and the point check are two separate steps in the code.
  The gate reports them as the separate reasons `AssetMismatch` and
  `PointMismatch`.
- `history_size` is any integer. With a size of zero or below, the single
  eviction after each append leaves every history empty. `Capacity` states
  this.

`Gate` names why it blocks (`BlockReason`), so each step of the chain can be
stated on its own. The code returns `[]` for every reason, and so does
`RunDiagnostic`.

## Model

| member | source | states |
|---|---|---|
| `TrendDetection.LevelOf` | early_fault/trend_detector.py:44-49 | NORMAL exactly below 0.05, WATCH exactly on [0.05, 0.12), WARNING exactly from 0.12 up |
| `TrendDetection.LevelMonotone` | early_fault/trend_detector.py:44-49 | a larger high-frequency amplitude never yields a lower level |
| `TrendDetection.LevelBoundaries` | early_fault/trend_detector.py:44-49 | 0.049 is NORMAL, 0.05 and 0.119 are WATCH, 0.12 is WARNING |
| `TrendDetection.ZoneOf` | early_fault/trend_detector.py:62-70 | zone A exactly below 1.8, B on [1.8, 2.8), C on [2.8, 4.5), D from 4.5 up |
| `TrendDetection.ZoneMonotone` | early_fault/trend_detector.py:62-70 | a larger velocity never yields a lower zone |
| `TrendDetection.ZoneBoundaries` | early_fault/trend_detector.py:62-70 | 1.79 is A, 1.8 and 2.79 are B, 2.8 and 4.49 are C, 4.5 is D |
| `TrendDetection.ClassifyComplete` | early_fault/trend_detector.py:42-91 | for a map with `acc_hf_rms_g`: the score is that value; the level is its band; `hfHigh` holds iff the level is WARNING, although the two are computed separately; the envelope flag is envelope > 0.02, the zone is the band of the velocity and the alarm is temperature >= 80.0, with missing entries read as 0.0; the dominant feature names the entry `DominantIndex` picks, the first of greatest absolute value |
| `TrendDetection.Classify` | early_fault/trend_detector.py:30-31 | a map without `acc_hf_rms_g` gets NORMAL, score 0.0, no dominant feature, no flags and zone A; any other map gets `ClassifyComplete`. For every map the score is the high-frequency value (0.0 when missing), the level is its band, `hfHigh` holds iff the level is WARNING, and a dominant feature is named iff the key is present |
| `TrendDetection.MissingOptionalFeatures` | early_fault/trend_detector.py:56-76 | for every feature map, a missing envelope, velocity or temperature entry reads as 0.0, giving no envelope flag, zone A and no temperature alarm |
| `TrendDetection.Pushed` | early_fault/trend_detector.py:33-37 | from a history within capacity, append-then-evict-once keeps exactly the newest `Capacity(size)` entries of old history plus the new map, in arrival order, and stays within capacity |
| `TrendDetection.PushAllKeepsLatest` | early_fault/trend_detector.py:33-37 | for a history that starts within capacity, after any run of accepted updates on one key (only maps carrying `acc_hf_rms_g` enter the history), the history is the newest `Capacity(size)` maps of everything it has seen, oldest first |
| `TrendDetection.FullAfterEnoughUpdates` | early_fault/trend_detector.py:33-37 | from an empty history, after at least `Capacity(size)` updates the history is full and holds exactly the most recent maps (15 updates with size 10 leave the last 10) |
| `TrendDetection.TrendDetector.constructor` | early_fault/trend_detector.py:23-25 | a new detector has an empty history and the given size, 10 by default |
| `TrendDetection.TrendDetector.Update` | early_fault/trend_detector.py:27-91 | returns `Classify(features)`. Without the high-frequency key the history map is unchanged. Otherwise only the (asset, point) entry changes, becoming `Pushed` of its old value, or of the empty list when the key had none (`setdefault(key, [])`). Every other key keeps its presence and its history, and the capacity bound is preserved |
| `FeatureMaps.HasKey` | early_fault/trend_detector.py:30 | `"acc_hf_rms_g" in features`: the model searches its list of pairs front to back and finds the name exactly when some pair carries it |
| `FeatureMaps.Abs` | early_fault/trend_detector.py:80 | `abs`: the result is non-negative and is the value or its negation |
| `FeatureMaps.Get` | early_fault/trend_detector.py:56 | `features.get(k, default)`: the value stored under `k` when present, `default` when absent |
| `FeatureMaps.ScanMax` | early_fault/trend_detector.py:78-81 | the left-to-right scan that replaces the kept entry only on a strictly greater magnitude ends on the first entry of greatest absolute value |
| `FeatureMaps.DominantIndex` | early_fault/trend_detector.py:78-81 | the key `max(features, key=abs)` returns is of greatest absolute value, and no earlier key ties it |
| `FeatureMaps.FirstMaxUnique` | early_fault/trend_detector.py:78-81 | at most one index is the first maximal one, so the dominant feature is determined by the map |
| `DiagnosticEngine.FaultFlagged` | diagnostic_l2/diagnostic_engine.py:9 | `early_fault_event.get("early_fault", False)` holds exactly when the flag is present and true |
| `DiagnosticEngine.Gate` | diagnostic_l2/diagnostic_engine.py:9-24 | admits iff the flag is true, the asset and point match and the event is not earlier than the snapshot (equal times admitted). An admitted snapshot is the input unchanged. The first failing check, in source order, names the reason whatever the later fields hold |
| `DiagnosticEngine.RunDiagnostic` | diagnostic_l2/diagnostic_engine.py:3-24 | when all checks hold, the result is the rules applied to the unmodified snapshot. Otherwise it is empty. Any finding implies every check held (fail-closed) |
| `DiagnosticEngine.BlockedIgnoresRules` | diagnostic_l2/diagnostic_engine.py:9-21 | a blocked call gives the same empty result under any two rule sets, so the rules play no part in it |
| `DiagnosticEngine.AcceptScenario` | diagnostic_l2/diagnostic_engine.py:9-24 | PUMP_01/DE, event at 100 and snapshot at 99: admitted, snapshot forwarded |
| `DiagnosticEngine.BoundaryScenarios` | diagnostic_l2/diagnostic_engine.py:9-21 | equal timestamps are admitted. An event at 50 against a snapshot at 99 is stale. Point NDE against DE is refused. A false flag is refused |

## Left out

- Transport: publish/subscribe wiring, JSON payloads, `time.sleep` and `time.time()` loops in the simulator and test tools. These are I/O, not logic.
- Signal synthesis: sine waveforms and random noise in the simulator and the fault generators. This is floating-point numerics with randomness from a foreign library.
- The contents of the L2 rule set. `diagnostic_l2/fault_rules` is not part of this model, and the rules are a parameter of `RunDiagnostic`.
- IEEE-754 floating point. Values are exact reals, so NaN, infinities and rounding at the thresholds are not modelled. A NaN is the one input on which the source's level and `hf_high` disagree: a NaN high-frequency value fails both `<` tests and gets WARNING while `hf >= 0.12` is false, and a NaN velocity gets zone D. The iff between `hfHigh` and WARNING in `Classify` and `ClassifyComplete` holds because NaN is outside the model.
- Python truthiness of a non-boolean `early_fault` value. The flag is an optional boolean, and an absent flag reads as false.
- The `KeyError` raised when a snapshot or an event lacks `asset`, `point` or `timestamp`. These are record fields that are always present.
- Dictionary aliasing. The source stores a reference to the caller's dictionary in the history, so a caller that later mutates that dictionary would change the stored entry. The model stores the value.
- Reassigning `history_size` after construction. It is a constant field here. The source never reassigns it.
- Concurrency. The source is single-threaded and takes no locks.
- Level and zone strings (`"NORMAL"`, `"A"`, ...). These are datatype constructors here.
