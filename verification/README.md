# Vital-signs generator: a Dafny model

This project models the signal generator of a fake-telemetry publisher. The generator keeps seven vital signs in a process-wide vector: systolic and diastolic blood pressure, heart rate, respiratory rate, temperature, SpO2 and ECG. Once per tick it advances each sign by a clamped Ornstein-Uhlenbeck step: a drift towards a target mean plus a Gaussian kick scaled by the square root of the elapsed time. The signs are coupled:

- ECG reverts towards the heart rate produced in the same tick.
- The respiratory target is computed from that new heart rate.
- Diastolic pressure is pushed down when it comes within 25 of the new systolic value.

The tick then records the clock and renders a reading. Its integer fields come from Python's `round`, which rounds ties to even, and temperature is rounded to one decimal.

All values are exact `real`s. The monotonic clock reading, the Unix timestamp, the seven Gaussian draws and `sqrt(dt)` are inputs of a tick, so nothing in the model is random or reads a clock. The invariants below hold for every draw and every `sqrtDt`: the clamp ranges, the 25-point gap, the `dt` floor and the rendered bounds. The zero-noise lemmas and the scenarios name the draws they use.

Modules:

- `Signals` (signals.dfy): the seven-field `State`, `Clamp`, `OuStep` and `Advance`. `Advance` is `_ou_step`: it reads one key, steps it and writes it back.
- `Rounding` (rounding.dfy): Python's one-argument `round` (`RoundHalfEven`) and rounding to tenths.
- `VitalSigns` (vital_signs.dfy): the elapsed-time floor, the respiratory target, the pulse-pressure correction, the signal updates in the source's order, rendering, `Tick`, and `Run` for a sequence of ticks.
- `Scenarios` (scenarios.dfy): concrete ticks and rounding instances.

## Model

| member | source | states |
|---|---|---|
| `Signals.Clamp` | send_data.py:65-66 | the result lies in `[lo, hi]` whenever `lo <= hi`; a value already in range is returned unchanged; below `lo` gives `lo`, above `hi` gives `hi` |
| `Signals.ClampIdempotent` | send_data.py:65-66 | clamping an already clamped value changes nothing |
| `Signals.ClampMonotone` | send_data.py:65-66 | clamping preserves the order of its inputs |
| `Signals.ClampIsNearest` | send_data.py:65-66 | the clamped value is the point of `[lo, hi]` nearest to the input, an independent characterisation of the clamp |
| `Signals.Put` | send_data.py:81 | writing a signal stores the value under its key and leaves the six other keys unchanged |
| `Signals.OuStep` | send_data.py:76-80 | for every draw, every `dt` and every `sqrtDt`, the stepped value lies inside the signal's clamp range |
| `Signals.OuStepZeroNoise` | send_data.py:79-80 | with the draw at zero the step is exactly `clamp(x + theta*(mu - x)*dt, lo, hi)` |
| `Signals.OuStepNoOvershoot` | send_data.py:79-80 | with no noise, a start inside the range and `0 <= theta*dt <= 1`, the new value lies between the old value and the mean |
| `Signals.OuStepContracts` | send_data.py:79-80 | with no noise and `0 <= theta*dt <= 2`, the new value is never further from the mean than the old one, though it may cross the mean |
| `Signals.Advance` | send_data.py:68-82 | `_ou_step` reads the old value under the given name (`Signals.Get`, line 76), returns a value in the given range, stores it under that name, and leaves the other six keys untouched |
| `Rounding.RoundHalfEven` | send_data.py:132-139 | the result is an integer within one half of the input, and the even one when the input lies exactly halfway |
| `Rounding.RoundHalfEvenUnique` | send_data.py:132-139 | any integer meeting that description equals the result, so the contract determines Python's `round` |
| `Rounding.RoundWithinBounds` | send_data.py:132-139 | rounding a value that lies between two integers keeps it between them |
| `Rounding.RoundMonotone` | send_data.py:132-139 | rounding preserves order |
| `Rounding.RoundTenths` | send_data.py:137 | the rendered temperature is a whole number of tenths within 0.05 of the stored value |
| `Rounding.RoundTenthsWithinBounds` | send_data.py:137 | rounding to tenths keeps a value inside bounds that are whole tenths, e.g. `[36.5, 37.2]` |
| `VitalSigns.Start` | send_data.py:52-63 | the resting initial vector already satisfies every range and the 25-point pulse-pressure gap |
| `VitalSigns.Dt` | send_data.py:87 | the step is never below 0.1, and it is the elapsed time whenever that is at least 0.1 |
| `VitalSigns.DtFloor` | send_data.py:87 | a clock that stood still or went backwards yields a step of exactly 0.1 |
| `VitalSigns.RespiratoryMean` | send_data.py:100 | the respiratory target lies in `[12, 18]` for any heart rate |
| `VitalSigns.RespiratoryMeanUnclamped` | send_data.py:90-100 | for every heart rate in `[60, 100]` the target's clamp does nothing, and the target lies in `[13.25, 15.25]` |
| `VitalSigns.Couple` | send_data.py:112-116 | if diastolic is already 25 or more below systolic, nothing changes. Otherwise the stored diastolic becomes a value in `[60, 90]`. With systolic at least 105 and diastolic at most 85 that value is exactly `systolic - 25`, in `[80, 85)`, so it ends in `[65, 85]` and 25 below systolic. Only the diastolic key is written |
| `VitalSigns.Render` | send_data.py:130-141 | every integer field is the half-even rounding of its stored signal, temperature is within 0.05 of the stored value, and the timestamp is passed through |
| `VitalSigns.RenderInBounds` | send_data.py:130-139 | rendering a valid vector gives every field within its signal's integer bounds (e.g. heart rate in `[60, 100]`, SpO2 in `[96, 100]`) and a rendered pulse pressure of at least 24 |
| `VitalSigns.UpdateSignals` | send_data.py:89-124 | after the seven updates and the correction, every signal is inside its range and diastolic is at least 25 below systolic, whatever the old vector. The values the tick renders equal the stored ones, including the corrected diastolic |
| `VitalSigns.Tick` | send_data.py:84-141 | after any tick, from any state and with any draws, the vector is valid and the clock holds `now`. The reading is the rendering of the stored vector and lies within the integer bounds |
| `VitalSigns.TickOrder` | send_data.py:87-124 | ECG reverts towards this tick's new heart rate, not the old one. The respiratory target is computed from that same new heart rate. The pulse-pressure check compares against this tick's systolic. All seven steps use the floored `dt` |
| `VitalSigns.Run` | send_data.py:151-154 | repeated ticks produce one reading per tick, every one within bounds, and zero ticks leave the generator unchanged |
| `VitalSigns.RunValid` | send_data.py:151-154 | after one or more ticks the vector is valid and the clock holds the last tick's time, whatever the starting generator |
| `Scenarios.FirstTickState` | send_data.py:86-124 | from the resting values, one second later and with every draw zero, the stored vector is heart rate 74.6, ECG 75.08, respiratory rate 14.643, SpO2 98.125, the rest unchanged |
| `Scenarios.FirstTickRender` | send_data.py:130-139 | that vector renders as 118/78, 75, 15, 36.8, 98, 75 |
| `Scenarios.FirstTickWithoutNoise` | send_data.py:86-139 | from the resting values, one second later and with every draw zero: heart rate 74.6, ECG 75.08, respiratory rate 14.643, SpO2 98.125, the rest unchanged; the reading is 118/78, 75, 15, 36.8, 98, 75 |
| `Scenarios.RoundingExamples` | send_data.py:132-139 | 74.6 renders as 75, 36.84 as 36.8, and 0.5, 1.5, 2.5 and -0.5 round to 0, 2, 2 and 0 |
| `Scenarios.TieTickState` | send_data.py:106-116 | four seconds after start, with a systolic draw of -115/14 (about -8.21) and a diastolic draw of 5, systolic lands on 106.5 and the correction stores diastolic 81.5 |
| `Scenarios.TieRender` | send_data.py:132-133 | stored pressures 106.5 and 81.5 render as 106 and 82 |
| `Scenarios.RenderedPulsePressureCanBe24` | send_data.py:106-133 | a tick reachable in the model, with draws inside the range `random.gauss` can return, publishes a diastolic greater than the published systolic minus 25, although the stored pair keeps its 25 gap |
| `Scenarios.EcgStepCanMoveAway` | send_data.py:95-97 | with ECG's constants, a 1.5-second step and no noise, a value 4 from its mean ends 6.8 from it |

### Properties the code does not have

- ECG does not approach the heart rate monotonically. With `theta*dt = 1.8` the zero-noise step overshoots. `Scenarios.FirstTickWithoutNoise` shows ECG ending at 75.08, past a heart rate of 74.6. `Signals.OuStepContracts` proves the property that does hold: the step never moves further from the mean while `theta*dt <= 2`. Monotone approach only holds for `theta*dt <= 1` (`Signals.OuStepNoOvershoot`). For ECG the bound `theta*dt <= 2` means `dt <= 10/9` seconds. A longer step, from a publish that takes that long, can leave the zero-noise ECG further from the heart rate than it started (`Scenarios.EcgStepCanMoveAway`: from 70 towards 74 it lands on 80.8).
- The 25-point gap between the pressures holds for the stored values. It does not always hold for the published integers. Because `round` sends ties to even, the published gap can be 24 (`Scenarios.RenderedPulsePressureCanBe24`). `VitalSigns.RenderInBounds` proves 24 is the least it can be. The model follows the code here.

## Left out

- Credential path resolution, the existence check and the database initialisation (send_data.py:17-40): file-system and third-party SDK I/O.
- The device path (send_data.py:48-50) and the publish with its success and failure messages (send_data.py:143-149): network I/O to a library outside the model. Publishing does not touch the vector, so the model's state is unaffected.
- `main` (send_data.py:151-159) runs forever and holds an unreachable `time.sleep(1)`. `VitalSigns.Run` models any finite prefix of its ticks, with the clock values given as inputs, and has no sleep or cadence.
- `time.monotonic()` and `time.time()` (send_data.py:63, 86, 128): the clock readings are parameters (`now`, `t0`, `timestamp`).
- `random.gauss(0.0, 1.0)` (send_data.py:78): each of the seven draws of a tick is an arbitrary real in `Draws`, named after the step that consumes it.
- `dt ** 0.5` (send_data.py:79): `sqrtDt` is an unconstrained parameter. The proven properties hold for any value, so nothing ties it to `dt`.
- IEEE-754 double arithmetic: all values are exact reals. The model has no rounding errors inside the steps and no NaN or infinite values.
- Rounding.RoundTenths: `round(t, 1)` on a binary double is idealised as half-even rounding of the exact real to tenths. Ties that are exact in binary, such as 36.75, agree with Python. Decimal halfway points that no double represents exactly do not: the doubles for 36.55, 36.85 and 37.15 are slightly below, above and below them, so Python gives 36.5, 36.9 and 37.1 where the model gives 36.6, 36.8 and 37.2.
