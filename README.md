# MQ gas-sensor driver, modelled in Dafny

A model of the MicroPython driver for the MQ family of resistive gas sensors. The driver reads a
10-bit analog sample, turns it into the sensor's resistance, and calibrates the clean-air baseline
resistance `ro`. It reads a resistance ratio under a fast or an accurate sampling strategy and maps
that ratio onto a per-gas log-log curve. It also runs a polling heater/cooler state machine. The
MQ2 variant supplies the clean-air ratio 9.83 and four gas curves (LPG, methane, smoke, hydrogen).

Files:

- `wrappers.dfy` (module `Wrappers`): `Option`, `Result` and `Outcome`. Python exceptions are
  modelled as `Err`/`Fail` values.
- `base_mq.dfy` (module `BaseMq`): the constants, the resistance conversion and the specification
  functions of a sampling run. It also holds the `Adc` sample stream and the `Sensor` class, which
  plays the part of `BaseMQ`. Its fields are updated in place by `Calibrate`, `ReadRs`, the heater
  methods, `CycleHeat` and `AtHeatCycleEnd`.
- `base_mq_properties.dfy` (module `BaseMqProperties`): lemmas about the model, and two client
  methods, for a heater duty cycle and for recalibration.
- `mq2.dfy` (module `Mq2`): the MQ2 constants and curves, its constructor, and its four readers.

Modelling choices:

- Python floats are exact `real`s.
- The ADC is an `Adc` object whose `i`-th `read()` returns `source(i)`. So "consumes exactly six
  samples" is a statement about how far its cursor `position` moves.
- The millisecond clock is an integer `now` argument.
- `exp` and `log` are function parameters. A non-positive ratio given to `log` gives `MathDomain`
  (Python's `ValueError`). Division by zero gives `ZeroDivision`.
- In `calibrate` and `__readRs__` every field write comes after the point where the call can
  raise. So a failing calibration or sampling pass leaves the fields it would have written
  unchanged, and the contracts say so. `readRatio` and `readScaled` are different: their sampling
  pass writes its fields first, and only then can the division by `ro` or `log` raise. So a failing
  `readRatio` or `readScaled` keeps the sampling pass's writes, and the contracts say that too.
- The `modifies` clauses name single fields. So a reading cannot touch `ro` or the heater state,
  and a heater step cannot touch the measurement fields.

In these places the model keeps the code's behaviour as written:

- Both sampling loops read `MQ_SAMPLE_TIMES + 1` = 6 samples but divide by `MQ_SAMPLE_TIMES` = 5.
  `CalibrationOfConstantAir` and `AccurateReadingOfConstantAir` show the 6/5 factor. `AccurateRatioCancelsSampleCount` shows that
  the factor cancels in an accurate ratio. `RatiosInCleanAir` shows that it does not cancel in a
  fast ratio, which reads 5/6 of the clean-air ratio.
- Heating and cooling are complete only when the elapsed time is strictly greater than the period,
  not at the period itself.
- `readRatio` has no uncalibrated error. While `ro` is -1, it returns the reading negated. A `ro`
  of 0 raises `ZeroDivision`.
- `calibrate(-1)` passed explicitly also samples, because -1 is the default argument's sentinel.

## Model

| member | source | states |
|---|---|---|
| `BaseMq.CalculateResistance` | MQ/BaseMQ.py:121-124 | fails with ZeroDivision exactly when the sample or the supply voltage is 0; otherwise equals boardResistance * (1023 - raw) / raw, whatever the supply voltage |
| `BaseMq.SumResistance` | MQ/BaseMQ.py:133-134 | the loop's running sum succeeds exactly when every sample in the run is convertible; a failure is ZeroDivision |
| `BaseMq.SamplesRead` | MQ/BaseMQ.py:80-84 | a sampling loop reads the whole run when all samples convert, otherwise up to and including the first one that raises |
| `BaseMq.FirstUnreadable` | MQ/BaseMQ.py:133-134 | the index of the first unconvertible sample: every earlier one converts and that one does not |
| `BaseMq.SampledRo` | MQ/BaseMQ.py:80-85 | a sampled calibration fails with the first conversion error, then with the clean-air ratio's error, then ZeroDivision on a zero ratio; otherwise the baseline times clean-air ratio * 5 is the six-sample resistance sum |
| `BaseMq.AccurateRs` | MQ/BaseMQ.py:133-137 | an accurate reading succeeds exactly when every sample converts; 5 times the reading is the resistance sum of the run |
| `BaseMq.Ratio` | MQ/BaseMQ.py:153-154 | the ratio succeeds exactly when the reading did and `ro` is nonzero; a reading error passes through; ratio * `ro` is the reading |
| `BaseMq.Scaled` | MQ/BaseMQ.py:149-150 | succeeds exactly when the ratio succeeded, is positive and a is nonzero; a ratio error passes through, a non-positive ratio is MathDomain, a zero slope ZeroDivision; a result is exp(c) for the c with a * c + b = log(ratio) |
| `BaseMq.Sensor.RoInCleanAir` | MQ/BaseMQ.py:68-69 | NotImplemented for the base class (no ratio configured), otherwise the family's clean-air ratio |
| `BaseMq.Sensor.HeatingCompleted` | MQ/BaseMQ.py:158-162 | true exactly in the Heating phase (heater on, cooler off) when now - prMillis > 60000, strictly |
| `BaseMq.Sensor.CoolanceCompleted` | MQ/BaseMQ.py:165-169 | true exactly in the Cooling phase (heater and cooler on) when now - prMillis > 90000, strictly |
| `BaseMq.Adc.Read` | MQ/BaseMQ.py:134 | `pinData.read()` returns the next sample of the stream and advances it by one |
| `BaseMq.Sensor.constructor` | MQ/BaseMQ.py:42-64 | the heater and cooler are off, `ro` is -1, no cached reading, data not reliable, last measurement stamped now; the configuration is stored as given |
| `BaseMq.Sensor.SumSamples` | MQ/BaseMQ.py:133-135 | the accumulation loop returns SumResistance of the next samples and moves the ADC by SamplesRead of them |
| `BaseMq.Sensor.Calibrate` | MQ/BaseMQ.py:76-89 | a known `ro` is stored as is with no sampling; the -1 sentinel reads 6 samples and stores their resistance sum over clean-air ratio * 5; on success `stateCalibrate` is set; a failure leaves `ro` unchanged |
| `BaseMq.Sensor.ReadRs` | MQ/BaseMQ.py:130-146 | accurate: 6 samples, sum / 5, cached, reliable, stamped now; any other strategy: one sample, unreliable, cache and stamp untouched; `ro` and heater untouched |
| `BaseMq.Sensor.ReadRatio` | MQ/BaseMQ.py:153-154 | one ReadRs pass divided by `ro`, with the same effect on the fields |
| `BaseMq.Sensor.ReadScaled` | MQ/BaseMQ.py:149-150 | exp((log(ratio) - b) / a) of one ReadRatio pass; log of a non-positive ratio raises before the division by a |
| `BaseMq.Sensor.HeaterPwrHigh` | MQ/BaseMQ.py:92-99 | heater on, phase clock restarted at now; cooler untouched |
| `BaseMq.Sensor.HeaterPwrLow` | MQ/BaseMQ.py:103-107 | heater and cooler on, phase clock restarted at now |
| `BaseMq.Sensor.HeaterPwrOff` | MQ/BaseMQ.py:111-117 | heater off; the cooler flag and the phase clock are not reset |
| `BaseMq.Sensor.CycleHeat` | MQ/BaseMQ.py:172-179 | from any state: heater on, cooler off, phase clock at now (phase Heating) |
| `BaseMq.Sensor.AtHeatCycleEnd` | MQ/BaseMQ.py:182-195 | completed heating becomes cooling from now and returns false; completed cooling turns the heater off and returns true; otherwise nothing changes and it returns false; from Idle it never reports |
| `BaseMqProperties.CompletionByPhase` | MQ/BaseMQ.py:158-169 | heatingCompleted iff heater on, cooler off and elapsed > 60000; coolanceCompleted iff both on and elapsed > 90000; never both; neither while the heater is off |
| `BaseMqProperties.DutyCycle` | MQ/BaseMQ.py:172-195 | polls from Idle report [false, false, false, false, true, false]: nothing at exactly 60000 or 90000 ms, cooling just after 60000, one report just after 90000, nothing afterwards |
| `BaseMqProperties.Recalibrate` | MQ/BaseMQ.py:76-88 | a second calibration with a known value overwrites `ro` instead of accumulating and reads no samples |
| `BaseMqProperties.ResistanceDecreasing` | MQ/BaseMQ.py:122-123 | for a positive load resistance the resistance is strictly decreasing over all positive samples |
| `BaseMqProperties.ResistanceRange` | MQ/BaseMQ.py:122-123 | over 1..1023 the resistance is nonnegative and is zero exactly at 1023 |
| `BaseMqProperties.HalfScaleReading` | MQ/BaseMQ.py:121-124 | sample 512 on a 10 ohm board reads 9.98046875 ohms at any nonzero supply voltage |
| `BaseMqProperties.ConstantRunSum` | MQ/BaseMQ.py:133-134 | n identical convertible samples sum to n times their resistance |
| `BaseMqProperties.ReadableRunIsReadWhole` | MQ/BaseMQ.py:80-84 | when every sample converts, the loop reads exactly as many samples as it runs for |
| `BaseMqProperties.CalibrationOfConstantAir` | MQ/BaseMQ.py:80-85 | six identical samples calibrate to 6 * rs / (5 * clean), which differs from rs / clean unless rs is 0 |
| `BaseMqProperties.AccurateReadingOfConstantAir` | MQ/BaseMQ.py:131-137 | an accurate reading of six identical samples is 6/5 of their resistance |
| `BaseMqProperties.AccurateRatioCancelsSampleCount` | MQ/BaseMQ.py:85-154 | accurate reading over sampled calibration = clean * (reading sum) / (calibration sum): the 6-versus-5 count cancels |
| `BaseMqProperties.RatiosInCleanAir` | MQ/BaseMQ.py:130-154 | in unchanged air after sampled calibration the accurate ratio equals the clean-air ratio and the fast ratio is 5/6 of it |
| `BaseMqProperties.UncalibratedRatioIsNegated` | MQ/BaseMQ.py:153-154 | with `ro` still -1 the ratio is the reading negated, not an error |
| `BaseMqProperties.ScaledInvertsCurve` | MQ/BaseMQ.py:149-150 | given the ratio the curve assigns to a concentration c, readScaled's formula returns c |
| `Mq2.Create` | MQ/MQ2.py:11-14 | forwards pinData, pinHeater, boardResistance and baseVoltage; the strategy is always accurate and the clean-air ratio is 9.83 |
| `Mq2.ReadLpg` | MQ/MQ2.py:16-17 | one sampling pass evaluated on curve (-0.45, 2.95) |
| `Mq2.ReadMethane` | MQ/MQ2.py:19-20 | one sampling pass evaluated on curve (-0.38, 3.21) |
| `Mq2.ReadSmoke` | MQ/MQ2.py:22-23 | one sampling pass evaluated on curve (-0.42, 3.54) |
| `Mq2.ReadHydrogen` | MQ/MQ2.py:25-26 | one sampling pass evaluated on curve (-0.48, 3.32) |
| `Mq2.CurvesNeverDivideByZero` | MQ/MQ2.py:16-26 | every MQ2 slope is nonzero, so a curve fails only when the ratio failed or is not positive |
| `Mq2.CalibrationDivisor` | MQ/MQ2.py:28-29 | MQ2 calibration divides the six-sample resistance sum by 9.83 * 5 = 49.15 |

## Left out

- Hardware I/O is not modelled: `machine.ADC`, `machine.Pin`, the heater pin writes, the
  `utime.sleep_ms` delays after each sample, and `print`. Samples come from the `Adc` stream, and
  `SampleInterval` is only a named constant.
- `utime.ticks_ms` and `ticks_diff` are replaced by an integer `now`, with elapsed time `now - start`.
  Tick wrap-around is not modelled.
- `BaseMq.Sensor.AtHeatCycleEnd` uses one `now` for the whole step. The source reads the clock up
  to twice: first in `heatingCompleted`, then either in `heaterPwrLow` or in `coolanceCompleted`.
- `exp` and `log` are not computed. They are parameters of `ReadScaled`, and float overflow in
  `exp` (`OverflowError`) is not modelled.
- Floating-point rounding is not modelled; all arithmetic is exact.
- The separate-heater branches (`_pinHeater.on()` / `.off()`) are not modelled. They are dead code:
  the constructor sets `useSeparateHeater` and `pinHeater` without the leading underscore, so
  `_useSeparateHeater` stays False. `pinHeater` is accepted and has no effect.
- `BaseMq.Sensor.AtHeatCycleEnd` returns true on a completed cooling phase, and
  `BaseMqProperties.DutyCycle` shows that as its fifth report. Both describe the intended
  behaviour: as written, `heaterPwrOff` raises `NameError` (MQ/BaseMQ.py:116) before `atHeatCycleEnd`
  reaches `return True` (MQ/BaseMQ.py:192).
- `BaseMq.Sensor.HeaterPwrOff` models the intended flag clear. As written, its call `_pinHeater(0)`
  names an undefined function and raises `NameError` before `_heater = False`. So in the source a
  completed cooling phase raises instead of returning True.
- `_stateCalibrate` and `_prMillis` are not set by the Python constructor. The model starts them as
  false and `None`. Nothing reads `_stateCalibrate`, and `_prMillis` is read only while the heater
  is on, after it has been set.
- Default arguments are not modelled: callers pass every argument explicitly. The source defaults
  are pinHeater -1, boardResistance 10, baseVoltage 5.0 and the accurate strategy.
- The abstract `getRoInCleanAir` of the base class is modelled as a sensor with no clean-air
  ratio. Its calibration fails with `NotImplemented` after its samples are read.
- MQ/MQ7.py is not part of this model: it cannot be imported. Only its constants carry meaning:
  ratio 27.0 and curve (-0.77, 3.38).
- MQ/MQ3.py is not part of this model: it is not Python.
- test.py is not part of this model: it is a console demo loop.
