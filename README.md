# InternalTemperature — a Dafny model

The InternalTemperature library reads the internal temperature sensor of a
Teensy (ARM Kinetis) microcontroller. One object, `InternalTemperature`,
holds a two-parameter linear sensor model: `vTemp25`, the sensor voltage at
25 °C, and `slope`, the volts the output falls per °C. A voltage converts to
`25 - (volts - vTemp25) / slope` degrees Celsius. Single-point calibration
moves only the offset `vTemp25`. Dual-point calibration sets the slope from
two (actual, measured) pairs and then the offset. Every change goes through
two range-checked setters. Fahrenheit overloads convert their inputs to
Celsius and delegate.

The project has two files:

- `internal_temperature.dfy`, module `TemperatureModel`. It holds the
  variant constants, the forward sensor model `SensorVoltage`, the pure
  conversion and unit functions, and the calibration formulas as functions
  with lemmas about them.
  - Each mutator also has a pure specification on a `Params` value (the
    offset and slope pair): `SetVTemp25Result`, `SetSlopeResult`,
    `SinglePointResult` and `DualPointResult`. Each returns an `Outcome`,
    the boolean result plus the parameters left behind.
  - A `Call` names one mutator invocation. `Step` gives its outcome, and
    `Run` folds a sequence of calls. The lemmas about `Run` state what holds
    over the object's lifetime.
  - The class `InternalTemperature` has the two real fields. Its setters
    and calibration methods have `modifies this`. Each ensures that the
    result and the new fields are exactly the `Step` outcome of its call on
    the old fields, and that it keeps the invariant `Valid()`: both fields
    in their accepted ranges, hence `slope > 0`.
  - The dual-point method computes its candidate slope and offset through
    the formula functions, whose bodies are the source's expressions.
- `scenarios.dfy`, module `Scenarios`. These are client methods that drive a
  fresh object through three of the four calibration calls of the library's
  `begin` routine (lines 81, 90 and 112) and through the setters' boundary
  and failure cases. Each states
  its outcome as an `ensures` derived from the contracts alone.

The hardware variant fixed here is the `#else` branch:
`DEFAULT_VTEMP25 = 0.716` V and `DEFAULT_SLOPE = 0.00162` V/°C. The ADC
reference is 1.195 V (every board except the Teensy LC), with a 16-bit
full scale of 0x10000. `float` is modelled as `real`, so the calibration
identities hold exactly.

## Model

| member | source | states |
|---|---|---|
| `TemperatureModel.SlopeInRangeIsPositive` | InternalTemperature.cpp:272-280 | every slope `setSlope` accepts is positive, so converting with it never divides by zero |
| `TemperatureModel.ConvertTemperatureC` | InternalTemperature.cpp:142-150 | the result is the temperature at which the linear sensor model with the given offset and slope outputs `volts` |
| `TemperatureModel.ConvertSensorVoltage` | InternalTemperature.cpp:142-150 | conversion inverts the sensor model: the voltage `vTemp25 - (t - 25) * slope` converts back to `t` |
| `TemperatureModel.ConvertInjective` | InternalTemperature.cpp:142-150 | two voltages that read as the same temperature are equal |
| `TemperatureModel.ConvertDecreasing` | InternalTemperature.cpp:142-150 | with a positive slope, a higher voltage reads as a strictly lower temperature |
| `TemperatureModel.SampleToVolts` | InternalTemperature.cpp:136-137 | a raw sample scales so that 0x10000 counts stand for the reference voltage; a 16-bit sample gives a voltage in [0, vRef) |
| `TemperatureModel.ToCelsius` | InternalTemperature.cpp:297-300 | the result is the Celsius temperature whose Fahrenheit value is the input |
| `TemperatureModel.ToFahrenheit` | InternalTemperature.cpp:302-305 | the result is the Fahrenheit temperature whose Celsius value is the input |
| `TemperatureModel.FahrenheitCelsiusRoundTrip` | InternalTemperature.cpp:297-305 | `toFahrenheit(toCelsius(f)) == f` |
| `TemperatureModel.CelsiusFahrenheitRoundTrip` | InternalTemperature.cpp:297-305 | `toCelsius(toFahrenheit(c)) == c` |
| `TemperatureModel.ToCelsiusInjective` | InternalTemperature.cpp:297-300 | distinct Fahrenheit inputs give distinct Celsius values, so the Fahrenheit dual-point call meets the Celsius call's precondition |
| `TemperatureModel.CelsiusDifference` | InternalTemperature.cpp:297-300 | a Fahrenheit difference is 9/5 of the Celsius difference; the 32-degree offsets cancel |
| `TemperatureModel.SinglePointVTemp25` | InternalTemperature.cpp:193-198 | the new offset puts the sensor voltage the base parameters read as `measured` at `actual`, with the slope unchanged; with `actual == measured` it is the base offset |
| `TemperatureModel.SinglePointReadsActual` | InternalTemperature.cpp:182-199 | after single-point calibration, the voltage the base parameters read as `measured` converts to `actual` |
| `TemperatureModel.SinglePointShiftsEveryReading` | InternalTemperature.cpp:182-199 | single-point calibration shifts the reading of every voltage by exactly `actual - measured` |
| `TemperatureModel.SinglePointFahrenheitDelta` | InternalTemperature.cpp:201-205 | with Fahrenheit inputs, the offset moves by the Fahrenheit error times 5/9 times the base slope |
| `TemperatureModel.DualPointSlopeRatio` | InternalTemperature.cpp:211-226 | the new slope times the actual difference equals the base slope times the measured difference |
| `TemperatureModel.DualPointSameVoltage` | InternalTemperature.cpp:234-245 | the author's identity: the new parameters put at `actual1` the voltage the base parameters put at `measured1` |
| `TemperatureModel.DualPointReadsActual` | InternalTemperature.cpp:211-245 | with the new slope and offset, the voltages the base parameters read as `measured1` and `measured2` convert to `actual1` and `actual2` |
| `TemperatureModel.DualPointRescalesEveryReading` | InternalTemperature.cpp:211-245 | dual-point calibration maps every reading linearly from the measured scale onto the actual scale: `t' = a1 + (t - m1)(a2 - a1)/(m2 - m1)` |
| `TemperatureModel.DualPointExactReadings` | InternalTemperature.cpp:211-245 | when both readings were already right, the new slope and offset are the base ones |
| `TemperatureModel.DualPointSlopeUnitFree` | InternalTemperature.cpp:253-259 | converting all four Fahrenheit inputs to Celsius leaves the new slope unchanged, and keeps the actual temperatures distinct |
| `TemperatureModel.DefaultsValid` | InternalTemperature.cpp:44-48 | the factory parameters satisfy both range checks |
| `TemperatureModel.SetVTemp25Result` | InternalTemperature.cpp:262-270 | succeeds iff `0 <= v <= 5` (both ends inclusive); on success only the offset becomes `v`, on failure nothing changes; keeps the invariant |
| `TemperatureModel.SetSlopeResult` | InternalTemperature.cpp:272-280 | succeeds iff `DEFAULT_SLOPE/10 <= s <= DEFAULT_SLOPE*10`; on success only the slope becomes `s`, on failure nothing changes; keeps the invariant |
| `TemperatureModel.SinglePointResult` | InternalTemperature.cpp:182-199 | succeeds iff the offset `base - (measured - actual) * baseSlope` is in range, from the current or (with `fromDefault`) the default parameters; the slope never changes; on failure nothing changes; keeps the invariant |
| `TemperatureModel.SinglePointCalibrated` | InternalTemperature.cpp:182-199 | after an accepted call the object keeps its slope; when the base slope is that slope (no `fromDefault`, or the slope is still the default), the voltage the base parameters read as `measured` reads as `actual` with the object's new parameters |
| `TemperatureModel.SinglePointFromDefaultKeepsOwnSlope` | InternalTemperature.cpp:185-198 | with `fromDefault`, the offset is computed at the default slope but the object keeps its own slope `s`, so the calibration voltage reads as `25 + (actual - 25) * DEFAULT_SLOPE / s` |
| `TemperatureModel.SinglePointFromDefaultDoubledSlope` | InternalTemperature.cpp:185-198 | from valid parameters with the slope doubled, `singlePointCalibrationC(20, 19, true)` is accepted and the calibration voltage then reads 22.5 °C, not 20 °C |
| `TemperatureModel.DualPointResult` | InternalTemperature.cpp:207-251 | a slope out of range fails with no change; an accepted slope is committed, and the call succeeds iff the new offset is in range, keeping the old offset otherwise (not transactional); keeps the invariant |
| `TemperatureModel.DualPointCalibrated` | InternalTemperature.cpp:207-251 | after an accepted call, both calibration points read as their actual temperatures |
| `TemperatureModel.RunKeepsValid` | InternalTemperature.cpp:262-280 | from valid parameters, any sequence of setter and calibration calls keeps both parameters in range and the slope positive |
| `TemperatureModel.OffsetOnlyRunKeepsSlope` | InternalTemperature.cpp:182-205 | no sequence of `setVTemp25` and single-point calls changes the slope |
| `TemperatureModel.CompoundingRunShiftsEveryReading` | InternalTemperature.cpp:182-199 | single-point calls relative to the current parameters compound: every reading shifts by the sum of `actual - measured` over the accepted calls |
| `TemperatureModel.FromDefaultForgetsOffset` | InternalTemperature.cpp:185-191 | with `fromDefault`, the outcome of a single-point call does not depend on the current offset |
| `TemperatureModel.InternalTemperature.constructor` | InternalTemperature.cpp:44-48 | both fields start at the variant defaults, and the invariant holds |
| `TemperatureModel.InternalTemperature.SetVTemp25` | InternalTemperature.cpp:262-270 | returns and leaves exactly the outcome `SetVTemp25Result` gives for the old parameters; keeps the invariant |
| `TemperatureModel.InternalTemperature.SetSlope` | InternalTemperature.cpp:272-280 | returns and leaves exactly the outcome `SetSlopeResult` gives for the old parameters; keeps the invariant |
| `TemperatureModel.InternalTemperature.GetVTemp25` | InternalTemperature.cpp:282-284 | returns the stored offset, which under the invariant lies in 0..5 V |
| `TemperatureModel.InternalTemperature.GetSlope` | InternalTemperature.cpp:286-288 | returns the stored slope, which under the invariant is in range and positive |
| `TemperatureModel.InternalTemperature.ConvertCalibratedTemperatureC` | InternalTemperature.cpp:152-154 | the invariant makes the current-parameter conversion defined, and its result is the temperature the current model assigns to `volts` |
| `TemperatureModel.InternalTemperature.ConvertUncalibratedTemperatureC` | InternalTemperature.cpp:156-158 | the conversion at the factory defaults, whatever the calibration state (it reads no field) |
| `TemperatureModel.InternalTemperature.ReadTemperatureC` | InternalTemperature.cpp:160-162 | the calibrated reading of a sample is the temperature at which the current model outputs the sample's voltage |
| `TemperatureModel.InternalTemperature.ReadTemperatureF` | InternalTemperature.cpp:164-167 | the Fahrenheit reading converts back to the Celsius reading |
| `TemperatureModel.InternalTemperature.ReadUncalibratedTemperatureC` | InternalTemperature.cpp:169-171 | the uncalibrated reading of a sample is the temperature at which the default model outputs the sample's voltage |
| `TemperatureModel.InternalTemperature.ReadUncalibratedTemperatureF` | InternalTemperature.cpp:173-176 | the uncalibrated Fahrenheit reading converts back to the uncalibrated Celsius reading |
| `TemperatureModel.InternalTemperature.SinglePointCalibrationC` | InternalTemperature.cpp:182-199 | returns and leaves exactly the outcome `SinglePointResult` gives for the old parameters; keeps the invariant |
| `TemperatureModel.InternalTemperature.SinglePointCalibrationF` | InternalTemperature.cpp:201-205 | same result and effect as the Celsius call on `toCelsius` of both inputs |
| `TemperatureModel.InternalTemperature.DualPointCalibrationC` | InternalTemperature.cpp:207-251 | requires distinct actual temperatures; returns and leaves exactly the outcome `DualPointResult` gives for the old parameters; keeps the invariant |
| `TemperatureModel.InternalTemperature.DualPointCalibrationF` | InternalTemperature.cpp:253-259 | same result and effect as the Celsius call on `toCelsius` of all four inputs |
| `Scenarios.SetVTemp25Boundaries` | InternalTemperature.cpp:262-270 | 0 V and 5 V are accepted; 5.001 V is rejected and the offset stays at 5 V |
| `Scenarios.SetSlopeBoundaries` | InternalTemperature.cpp:272-280 | over exact reals, both decade limits 0.000162 and 0.0162 are accepted; a zero slope is rejected |
| `Scenarios.SinglePointFahrenheitFresh` | InternalTemperature.cpp:81 | on a fresh object, `singlePointCalibrationF(75, 76.8)` succeeds whatever the value of `fromDefault`, sets `vTemp25 = 0.71438`, and 0.716 V then reads 24 °C |
| `Scenarios.SinglePointFromDefaults` | InternalTemperature.cpp:90 | `singlePointCalibrationC(20, 19, true)` succeeds and sets `vTemp25 = 0.71762`, keeps the slope, and 0.716 V then reads 26 °C |
| `Scenarios.DualPointFahrenheitFromDefaults` | InternalTemperature.cpp:112 | `dualPointCalibrationF(46.2, 42.3, 70.5, 68.6, true)` succeeds, and both calibration points then read their actual temperatures |
| `Scenarios.DualPointPartialFailure` | InternalTemperature.cpp:232-250 | after setting slope 0.002 and offset 1 V, a call relative to the current parameters whose slope (0.004) is accepted and whose offset (-1 V) is rejected returns false, with the slope replaced and the 1 V offset kept |
| `Scenarios.DualPointSlopeRejected` | InternalTemperature.cpp:226-232 | a call whose slope is out of range returns false and changes neither field |

## Left out

- `begin` (InternalTemperature.cpp:50-121): it writes the `PMC_REGSC` register, waits, configures the ADC and prints over Serial. Three of its four calibration calls are kept, as client scenarios; the fourth (line 101) is covered by the `DualPointCalibrationC` line below.
- `readRawVoltage` (InternalTemperature.cpp:123-140): `analogRead` is hardware I/O. The sample is a parameter of the `Read*` functions, and only the scaling at line 137 is modelled (`SampleToVolts`).
- `getUniqueID` (InternalTemperature.cpp:291-293): it reads the `SIM_UIDL` hardware register.
- The Serial debug prints inside `dualPointCalibrationC` (InternalTemperature.cpp:227-230) are output only.
- Hardware variants (InternalTemperature.cpp:28-41, 125-129): one variant is fixed. The Teensy 3.0–3.2 constants (0.719 V, 0.00172 V/°C), the Teensy LC reference (3.3 V) and the sensor pin are not modelled.
- IEEE-754 floats: rounding, infinities and NaN are not modelled; values are exact reals.
- `TemperatureModel.InternalTemperature.DualPointCalibrationC`: over reals it requires `actual1 != actual2`. The C code accepts equal actual temperatures. The quotient is then ±inf and `setSlope` rejects it, as in the `begin` call `dualPointCalibrationC(25.0, 25.0, 25.0, 19.0, true)` at line 101. If the measured temperatures are also equal, the quotient is NaN. NaN passes both range checks (lines 265 and 275, which only reject on `<` or `>`), so NaN is stored in both fields. These cases are outside the model.
- `TemperatureModel.InternalTemperature.DualPointCalibrationF`: likewise requires distinct actual Fahrenheit temperatures.
- `TemperatureModel.ConvertTemperatureC`: requires a non-zero slope. In C a zero slope yields ±inf or NaN, but no caller can pass one with the current parameters, since the invariant keeps the slope positive.
- `TemperatureModel.DualPointResult`: requires distinct actual temperatures for the same reason, and so `Run` only folds dual-point calls that meet it.
- The default value of the `fromDefault` argument: the header that declares it is not part of this model. Every calibration method here takes the flag explicitly. The two-argument call at line 81 is modelled for both values, which agree on a fresh object.
- `TemperatureModel.SinglePointCalibrated`: the "reads as `actual`" guarantee is stated only when the base slope is the object's slope. With `fromDefault` set, lines 188-198 take the default offset and slope as the base but keep the object's current slope. After an earlier `setSlope` or dual-point call, the calibration voltage therefore does not read as `actual`. The model follows the code, and `SinglePointFromDefaultKeepsOwnSlope` and `SinglePointFromDefaultDoubledSlope` state what it reads instead.
