/** A model of the InternalTemperature library: the internal temperature
    sensor of an ARM microcontroller, read through a two-parameter linear
    model. The sensor outputs `vTemp25` volts at 25 degrees Celsius and its
    output falls by `slope` volts per degree. Floating point is modelled by
    mathematical reals. */
module TemperatureModel {

  // ---------------------------------------------------------------------
  // Variant constants (the non-MK20DX hardware variant)
  // ---------------------------------------------------------------------

  /** Factory sensor voltage at 25 degrees Celsius, in volts. */
  const DefaultVTemp25: real := 0.716
  /** Factory sensor slope, in volts per degree Celsius. */
  const DefaultSlope: real := 0.00162
  /** Reference voltage of the analog converter, in volts. */
  const AdcReference: real := 1.195
  /** Full-scale count of the 16-bit analog converter. */
  const AdcFullScale: int := 0x10000

  /** The range `setVTemp25` accepts: 0 to 5 volts, both ends included. */
  predicate VTemp25InRange(volts: real) {
    0.0 <= volts <= 5.0
  }

  /** The range `setSlope` accepts: a factor of ten around the default. */
  predicate SlopeInRange(voltsPerDegree: real) {
    DefaultSlope / 10.0 <= voltsPerDegree <= DefaultSlope * 10.0
  }

  lemma SlopeInRangeIsPositive(s: real)
    requires SlopeInRange(s)
    ensures s > 0.0
  {
  }

  // ---------------------------------------------------------------------
  // The linear sensor model
  // ---------------------------------------------------------------------

  /** The voltage the sensor outputs at `celsius` under the parameters
      `vTemp25` and `slope` (the forward model behind the conversion). */
  function SensorVoltage(celsius: real, vTemp25: real, slope: real): real {
    vTemp25 - (celsius - 25.0) * slope
  }

  /** Voltage to degrees Celsius with the given parameters: the temperature
      at which the sensor model outputs `volts`. */
  function ConvertTemperatureC(volts: real, vTemp25: real, slope: real): (celsius: real)
    requires slope != 0.0
    ensures SensorVoltage(celsius, vTemp25, slope) == volts
  {
    25.0 - (volts - vTemp25) / slope
  }

  /** The conversion is a left inverse of the sensor model: reading the
      voltage the sensor outputs at `celsius` gives `celsius` back. */
  lemma ConvertSensorVoltage(celsius: real, vTemp25: real, slope: real)
    requires slope != 0.0
    ensures ConvertTemperatureC(SensorVoltage(celsius, vTemp25, slope), vTemp25, slope) == celsius
  {
  }

  /** Two voltages read as the same temperature are the same voltage. */
  lemma ConvertInjective(v1: real, v2: real, vTemp25: real, slope: real)
    requires slope != 0.0
    requires ConvertTemperatureC(v1, vTemp25, slope) == ConvertTemperatureC(v2, vTemp25, slope)
    ensures v1 == v2
  {
  }

  /** A higher voltage reads as a lower temperature when the slope is
      positive, as every accepted slope is. */
  lemma ConvertDecreasing(v1: real, v2: real, vTemp25: real, slope: real)
    requires slope > 0.0 && v1 < v2
    ensures ConvertTemperatureC(v2, vTemp25, slope) < ConvertTemperatureC(v1, vTemp25, slope)
  {
  }

  /** The scaling of a raw 16-bit sample to volts: a full-scale count of
      0x10000 stands for the converter's reference voltage. */
  function SampleToVolts(analogValue: int): (volts: real)
    ensures volts * (AdcFullScale as real) == AdcReference * (analogValue as real)
    ensures 0 <= analogValue < AdcFullScale ==> 0.0 <= volts < AdcReference
  {
    (AdcReference / AdcFullScale as real) * analogValue as real
  }

  // ---------------------------------------------------------------------
  // Unit helpers
  // ---------------------------------------------------------------------

  /** Degrees Fahrenheit to degrees Celsius. */
  function ToCelsius(fahrenheit: real): (celsius: real)
    ensures celsius * 9.0 / 5.0 + 32.0 == fahrenheit
  {
    (fahrenheit - 32.0) * 5.0 / 9.0
  }

  /** Degrees Celsius to degrees Fahrenheit. */
  function ToFahrenheit(celsius: real): (fahrenheit: real)
    ensures (fahrenheit - 32.0) * 5.0 / 9.0 == celsius
  {
    celsius * 9.0 / 5.0 + 32.0
  }

  lemma FahrenheitCelsiusRoundTrip(fahrenheit: real)
    ensures ToFahrenheit(ToCelsius(fahrenheit)) == fahrenheit
  {
  }

  lemma CelsiusFahrenheitRoundTrip(celsius: real)
    ensures ToCelsius(ToFahrenheit(celsius)) == celsius
  {
  }

  /** Distinct Fahrenheit temperatures stay distinct in Celsius. */
  lemma ToCelsiusInjective(f1: real, f2: real)
    requires f1 != f2
    ensures ToCelsius(f1) != ToCelsius(f2)
  {
  }

  /** A temperature difference in Fahrenheit is 9/5 of the same difference
      in Celsius: the 32-degree offsets cancel. */
  lemma CelsiusDifference(f1: real, f2: real)
    ensures ToCelsius(f2) - ToCelsius(f1) == (f2 - f1) * 5.0 / 9.0
  {
  }

  // ---------------------------------------------------------------------
  // Calibration formulas
  // ---------------------------------------------------------------------

  /** The offset a single-point calibration asks `setVTemp25` for. The
      sensor voltage the base parameters read as `measured` is the voltage
      the new offset (with the base slope) reads as `actual`. */
  function SinglePointVTemp25(actual: real, measured: real, baseVTemp25: real, baseSlope: real): (newVTemp25: real)
    ensures SensorVoltage(actual, newVTemp25, baseSlope) == SensorVoltage(measured, baseVTemp25, baseSlope)
    ensures actual == measured ==> newVTemp25 == baseVTemp25
  {
    var deltaTemperature := measured - actual;
    var deltaVolts := deltaTemperature * baseSlope;
    baseVTemp25 - deltaVolts
  }

  /** After a single-point calibration, the voltage the base parameters
      read as `measured` is read as `actual`. */
  lemma SinglePointReadsActual(actual: real, measured: real, baseVTemp25: real, baseSlope: real)
    requires baseSlope != 0.0
    ensures ConvertTemperatureC(SensorVoltage(measured, baseVTemp25, baseSlope),
                                SinglePointVTemp25(actual, measured, baseVTemp25, baseSlope), baseSlope) == actual
  {
  }

  /** Every reading shifts by the same amount: a single-point calibration
      adds `actual - measured` to the temperature of any voltage. */
  lemma SinglePointShiftsEveryReading(volts: real, actual: real, measured: real, baseVTemp25: real, baseSlope: real)
    requires baseSlope != 0.0
    ensures ConvertTemperatureC(volts, SinglePointVTemp25(actual, measured, baseVTemp25, baseSlope), baseSlope)
         == ConvertTemperatureC(volts, baseVTemp25, baseSlope) + (actual - measured)
  {
  }

  /** In Fahrenheit, a single-point calibration moves the offset by the
      Fahrenheit delta scaled by 5/9. */
  lemma SinglePointFahrenheitDelta(actualF: real, measuredF: real, baseVTemp25: real, baseSlope: real)
    ensures SinglePointVTemp25(ToCelsius(actualF), ToCelsius(measuredF), baseVTemp25, baseSlope)
         == baseVTemp25 - (measuredF - actualF) * 5.0 / 9.0 * baseSlope
  {
  }

  /** The slope a dual-point calibration asks `setSlope` for: the base slope
      scaled by the ratio of measured to actual temperature differences. */
  function DualPointSlope(actual1: real, measured1: real, actual2: real, measured2: real, baseSlope: real): real
    requires actual1 != actual2
  {
    var deltaActual := actual2 - actual1;
    var deltaMeasured := measured2 - measured1;
    baseSlope * deltaMeasured / deltaActual
  }

  /** The new slope stands to the base slope as the measured difference
      stands to the actual difference. */
  lemma DualPointSlopeRatio(actual1: real, measured1: real, actual2: real, measured2: real, baseSlope: real)
    requires actual1 != actual2
    ensures DualPointSlope(actual1, measured1, actual2, measured2, baseSlope) * (actual2 - actual1)
         == baseSlope * (measured2 - measured1)
  {
  }

  /** The offset a dual-point calibration asks `setVTemp25` for once the new
      slope is accepted. */
  function DualPointVTemp25(actual1: real, measured1: real, baseVTemp25: real, baseSlope: real, newSlope: real): real {
    baseVTemp25 - (measured1 - 25.0) * baseSlope + (actual1 - 25.0) * newSlope
  }

  /** The identity the offset is derived from: the new parameters put at
      `actual1` the sensor voltage that the base parameters put at
      `measured1`. */
  lemma DualPointSameVoltage(actual1: real, measured1: real, baseVTemp25: real, baseSlope: real, newSlope: real)
    ensures SensorVoltage(actual1, DualPointVTemp25(actual1, measured1, baseVTemp25, baseSlope, newSlope), newSlope)
         == SensorVoltage(measured1, baseVTemp25, baseSlope)
  {
  }

  /** Both calibration points: the new parameters read the voltages that the
      base parameters read as `measured1` and `measured2` as `actual1` and
      `actual2`; the second holds because of the slope formula. */
  lemma DualPointReadsActual(actual1: real, measured1: real, actual2: real, measured2: real,
                             baseVTemp25: real, baseSlope: real)
    requires actual1 != actual2
    requires DualPointSlope(actual1, measured1, actual2, measured2, baseSlope) != 0.0
    ensures var newSlope := DualPointSlope(actual1, measured1, actual2, measured2, baseSlope);
            var newVTemp25 := DualPointVTemp25(actual1, measured1, baseVTemp25, baseSlope, newSlope);
            ConvertTemperatureC(SensorVoltage(measured1, baseVTemp25, baseSlope), newVTemp25, newSlope) == actual1 &&
            ConvertTemperatureC(SensorVoltage(measured2, baseVTemp25, baseSlope), newVTemp25, newSlope) == actual2
  {
  }

  /** Dual-point calibration maps the base temperature scale linearly onto
      the actual one: every voltage now reads as its base reading moved from
      the measured points onto the actual points. */
  lemma DualPointRescalesEveryReading(volts: real, actual1: real, measured1: real, actual2: real, measured2: real,
                                      baseVTemp25: real, baseSlope: real)
    requires actual1 != actual2 && measured1 != measured2 && baseSlope != 0.0
    ensures var newSlope := DualPointSlope(actual1, measured1, actual2, measured2, baseSlope);
            newSlope != 0.0 &&
            ConvertTemperatureC(volts, DualPointVTemp25(actual1, measured1, baseVTemp25, baseSlope, newSlope), newSlope)
            == actual1 + (ConvertTemperatureC(volts, baseVTemp25, baseSlope) - measured1)
                         * (actual2 - actual1) / (measured2 - measured1)
  {
  }

  /** A dual-point calibration whose readings were already right leaves the
      base parameters as they were. */
  lemma DualPointExactReadings(actual1: real, actual2: real, baseVTemp25: real, baseSlope: real)
    requires actual1 != actual2
    ensures DualPointSlope(actual1, actual1, actual2, actual2, baseSlope) == baseSlope
    ensures DualPointVTemp25(actual1, actual1, baseVTemp25, baseSlope, baseSlope) == baseVTemp25
  {
  }

  /** The slope formula depends only on the ratio of the two differences,
      so Fahrenheit inputs converted to Celsius give the slope the raw
      Fahrenheit inputs would give. */
  lemma DualPointSlopeUnitFree(actual1F: real, measured1F: real, actual2F: real, measured2F: real, baseSlope: real)
    requires actual1F != actual2F
    ensures ToCelsius(actual1F) != ToCelsius(actual2F)
    ensures DualPointSlope(ToCelsius(actual1F), ToCelsius(measured1F), ToCelsius(actual2F), ToCelsius(measured2F), baseSlope)
         == DualPointSlope(actual1F, measured1F, actual2F, measured2F, baseSlope)
  {
  }

  // ---------------------------------------------------------------------
  // The parameter pair and what each mutator does to it
  // ---------------------------------------------------------------------

  /** The object's state: the offset and the slope. */
  datatype Params = Params(vTemp25: real, slope: real)

  /** Both parameters lie in the ranges their setters accept. */
  predicate ParamsValid(p: Params) {
    VTemp25InRange(p.vTemp25) && SlopeInRange(p.slope)
  }

  /** The factory parameters the constructor sets. */
  const Defaults: Params := Params(DefaultVTemp25, DefaultSlope)

  lemma DefaultsValid()
    ensures ParamsValid(Defaults)
  {
  }

  /** The parameters a calibration starts from: the current ones, or the
      factory defaults when `fromDefault` is set. */
  function Base(p: Params, fromDefault: bool): Params {
    if fromDefault then Defaults else p
  }

  /** What a mutator returns and the parameters it leaves behind. */
  datatype Outcome = Outcome(ok: bool, params: Params)

  /** `setVTemp25`: a range-checked write of the offset. */
  function SetVTemp25Result(p: Params, volts: real): (r: Outcome)
    ensures r.ok <==> VTemp25InRange(volts)
    ensures r.params.vTemp25 == (if r.ok then volts else p.vTemp25)
    ensures r.params.slope == p.slope
    ensures ParamsValid(p) ==> ParamsValid(r.params)
  {
    if volts < 0.0 || volts > 5.0 then Outcome(false, p)
    else Outcome(true, p.(vTemp25 := volts))
  }

  /** `setSlope`: a range-checked write of the slope. */
  function SetSlopeResult(p: Params, voltsPerDegreeC: real): (r: Outcome)
    ensures r.ok <==> SlopeInRange(voltsPerDegreeC)
    ensures r.params.slope == (if r.ok then voltsPerDegreeC else p.slope)
    ensures r.params.vTemp25 == p.vTemp25
    ensures ParamsValid(p) ==> ParamsValid(r.params)
  {
    if voltsPerDegreeC < DefaultSlope / 10.0 || voltsPerDegreeC > DefaultSlope * 10.0 then Outcome(false, p)
    else Outcome(true, p.(slope := voltsPerDegreeC))
  }

  /** `singlePointCalibrationC`: the slope never changes; the call fails and
      changes nothing exactly when the new offset is out of range. */
  function SinglePointResult(p: Params, actual: real, measured: real, fromDefault: bool): (r: Outcome)
    ensures var base := Base(p, fromDefault);
            r.ok <==> VTemp25InRange(SinglePointVTemp25(actual, measured, base.vTemp25, base.slope))
    ensures r.params.slope == p.slope
    ensures !r.ok ==> r.params == p
    ensures var base := Base(p, fromDefault);
            r.ok ==> r.params.vTemp25 == SinglePointVTemp25(actual, measured, base.vTemp25, base.slope)
    ensures ParamsValid(p) ==> ParamsValid(r.params)
  {
    var base := Base(p, fromDefault);
    SetVTemp25Result(p, SinglePointVTemp25(actual, measured, base.vTemp25, base.slope))
  }

  /** After an accepted single-point calibration, the slope is the object's
      own, unchanged. When the base slope is that same slope (relative to
      the current parameters, or from the defaults while the slope is still
      the default one), the voltage the base parameters read as `measured`
      now reads as `actual`. */
  lemma SinglePointCalibrated(p: Params, actual: real, measured: real, fromDefault: bool)
    requires SinglePointResult(p, actual, measured, fromDefault).ok
    requires p.slope != 0.0
    ensures SinglePointResult(p, actual, measured, fromDefault).params.slope == p.slope
    ensures var base := Base(p, fromDefault);
            var after := SinglePointResult(p, actual, measured, fromDefault).params;
            (!fromDefault || p.slope == DefaultSlope) ==>
              ConvertTemperatureC(SensorVoltage(measured, base.vTemp25, base.slope), after.vTemp25, after.slope) == actual
  {
    var base := Base(p, fromDefault);
    if !fromDefault || p.slope == DefaultSlope {
      SinglePointReadsActual(actual, measured, base.vTemp25, base.slope);
    }
  }

  /** With `fromDefault`, the new offset is computed from the default offset
      and slope, but the object keeps its own slope. Once that slope differs
      from the default, the calibration voltage reads as `actual` only after
      rescaling its distance from 25 C by the ratio of the two slopes. */
  lemma SinglePointFromDefaultKeepsOwnSlope(p: Params, actual: real, measured: real)
    requires SinglePointResult(p, actual, measured, true).ok
    requires p.slope != 0.0
    ensures var after := SinglePointResult(p, actual, measured, true).params;
            ConvertTemperatureC(SensorVoltage(measured, DefaultVTemp25, DefaultSlope), after.vTemp25, after.slope)
            == 25.0 + (actual - 25.0) * DefaultSlope / p.slope
  {
    var after := SinglePointResult(p, actual, measured, true).params;
    var volts := SensorVoltage(measured, DefaultVTemp25, DefaultSlope);
    assert after.vTemp25 == DefaultVTemp25 - (measured - actual) * DefaultSlope;
    assert after.slope == p.slope;
    assert volts - after.vTemp25 == (25.0 - actual) * DefaultSlope;
    calc {
      ConvertTemperatureC(volts, after.vTemp25, after.slope);
      25.0 - (volts - after.vTemp25) / p.slope;
      25.0 - (25.0 - actual) * DefaultSlope / p.slope;
      25.0 + (actual - 25.0) * DefaultSlope / p.slope;
    }
  }

  /** A concrete case: with the slope doubled from the default, calibrating
      from the defaults to 20 C (measured 19 C) is accepted, yet the object
      then reads the calibration voltage as 22.5 C. */
  lemma SinglePointFromDefaultDoubledSlope()
    ensures var p := Params(DefaultVTemp25, DefaultSlope * 2.0);
            var r := SinglePointResult(p, 20.0, 19.0, true);
            r.ok && ParamsValid(p) &&
            ConvertTemperatureC(SensorVoltage(19.0, DefaultVTemp25, DefaultSlope), r.params.vTemp25, r.params.slope) == 22.5
  {
    var p := Params(DefaultVTemp25, DefaultSlope * 2.0);
    SinglePointFromDefaultKeepsOwnSlope(p, 20.0, 19.0);
  }

  /** `dualPointCalibrationC`. A rejected slope fails and changes nothing. An
      accepted slope is committed; the call then succeeds exactly when the
      new offset is in range, and otherwise keeps the old offset (the update
      is not transactional). */
  function DualPointResult(p: Params, actual1: real, measured1: real, actual2: real, measured2: real,
                           fromDefault: bool): (r: Outcome)
    requires actual1 != actual2
    ensures var base := Base(p, fromDefault);
            var newSlope := DualPointSlope(actual1, measured1, actual2, measured2, base.slope);
            var newVTemp25 := DualPointVTemp25(actual1, measured1, base.vTemp25, base.slope, newSlope);
            if !SlopeInRange(newSlope) then
              r == Outcome(false, p)
            else
              r.params.slope == newSlope &&
              (r.ok <==> VTemp25InRange(newVTemp25)) &&
              r.params.vTemp25 == (if r.ok then newVTemp25 else p.vTemp25)
    ensures ParamsValid(p) ==> ParamsValid(r.params)
  {
    var base := Base(p, fromDefault);
    var newSlope := DualPointSlope(actual1, measured1, actual2, measured2, base.slope);
    var slopeSet := SetSlopeResult(p, newSlope);
    if !slopeSet.ok then Outcome(false, p)
    else SetVTemp25Result(slopeSet.params, DualPointVTemp25(actual1, measured1, base.vTemp25, base.slope, newSlope))
  }

  /** After an accepted dual-point calibration, the voltages the base
      parameters read as `measured1` and `measured2` read as `actual1` and
      `actual2`. */
  lemma DualPointCalibrated(p: Params, actual1: real, measured1: real, actual2: real, measured2: real,
                            fromDefault: bool)
    requires actual1 != actual2
    requires DualPointResult(p, actual1, measured1, actual2, measured2, fromDefault).ok
    ensures var base := Base(p, fromDefault);
            var after := DualPointResult(p, actual1, measured1, actual2, measured2, fromDefault).params;
            after.slope != 0.0 &&
            ConvertTemperatureC(SensorVoltage(measured1, base.vTemp25, base.slope), after.vTemp25, after.slope) == actual1 &&
            ConvertTemperatureC(SensorVoltage(measured2, base.vTemp25, base.slope), after.vTemp25, after.slope) == actual2
  {
    var base := Base(p, fromDefault);
    DualPointReadsActual(actual1, measured1, actual2, measured2, base.vTemp25, base.slope);
  }

  // ---------------------------------------------------------------------
  // Sequences of calls over the object's lifetime
  // ---------------------------------------------------------------------

  /** One call of a mutator of the public interface. */
  datatype Call =
    | SetVTemp25Call(volts: real)
    | SetSlopeCall(voltsPerDegreeC: real)
    | SinglePointCallC(actual: real, measured: real, fromDefault: bool)
    | SinglePointCallF(actualF: real, measuredF: real, fromDefault: bool)
    | DualPointCallC(actual1: real, measured1: real, actual2: real, measured2: real, fromDefault: bool)
    | DualPointCallF(actual1F: real, measured1F: real, actual2F: real, measured2F: real, fromDefault: bool)

  /** Dual-point calls need two distinct actual temperatures. */
  predicate WellFormed(call: Call) {
    match call
    case DualPointCallC(a1, _, a2, _, _) => a1 != a2
    case DualPointCallF(a1, _, a2, _, _) => a1 != a2
    case _ => true
  }

  /** The outcome of one call; the Fahrenheit calls delegate to the Celsius
      ones on converted inputs. */
  function Step(p: Params, call: Call): Outcome
    requires WellFormed(call)
  {
    match call
    case SetVTemp25Call(v) => SetVTemp25Result(p, v)
    case SetSlopeCall(s) => SetSlopeResult(p, s)
    case SinglePointCallC(a, m, fd) => SinglePointResult(p, a, m, fd)
    case SinglePointCallF(a, m, fd) => SinglePointResult(p, ToCelsius(a), ToCelsius(m), fd)
    case DualPointCallC(a1, m1, a2, m2, fd) => DualPointResult(p, a1, m1, a2, m2, fd)
    case DualPointCallF(a1, m1, a2, m2, fd) =>
      ToCelsiusInjective(a1, a2);
      DualPointResult(p, ToCelsius(a1), ToCelsius(m1), ToCelsius(a2), ToCelsius(m2), fd)
  }

  /** The parameters after a sequence of calls, in order. */
  function Run(p: Params, calls: seq<Call>): Params
    requires forall c <- calls :: WellFormed(c)
    decreases |calls|
  {
    if calls == [] then p
    else
      assert calls[0] in calls;
      Run(Step(p, calls[0]).params, calls[1..])
  }

  /** The object invariant: from valid parameters, any sequence of setter
      and calibration calls leaves both parameters in range, so the slope
      stays positive and conversion never divides by zero. */
  lemma {:induction false} RunKeepsValid(p: Params, calls: seq<Call>)
    requires ParamsValid(p)
    requires forall c <- calls :: WellFormed(c)
    ensures ParamsValid(Run(p, calls))
    ensures Run(p, calls).slope > 0.0
    decreases |calls|
  {
    if calls != [] {
      assert calls[0] in calls;
      RunKeepsValid(Step(p, calls[0]).params, calls[1..]);
    }
  }

  /** Offset-only calls: the offset setter and single-point calibrations. */
  predicate OffsetOnly(call: Call) {
    call.SetVTemp25Call? || call.SinglePointCallC? || call.SinglePointCallF?
  }

  /** No sequence of offset-only calls ever changes the slope. */
  lemma {:induction false} OffsetOnlyRunKeepsSlope(p: Params, calls: seq<Call>)
    requires forall c <- calls :: OffsetOnly(c)
    ensures forall c <- calls :: WellFormed(c)
    ensures Run(p, calls).slope == p.slope
    decreases |calls|
  {
    if calls != [] {
      assert calls[0] in calls;
      OffsetOnlyRunKeepsSlope(Step(p, calls[0]).params, calls[1..]);
    }
  }

  /** Single-point calibrations relative to the current parameters. */
  predicate CompoundingSinglePoint(call: Call) {
    call.SinglePointCallC? && !call.fromDefault
  }

  /** The total correction of a run of compounding single-point calls: the
      sum of `actual - measured` over the calls that were accepted. */
  function AcceptedCorrection(p: Params, calls: seq<Call>): real
    requires forall c <- calls :: CompoundingSinglePoint(c)
    decreases |calls|
  {
    if calls == [] then 0.0
    else
      assert calls[0] in calls && CompoundingSinglePoint(calls[0]);
      var r := Step(p, calls[0]);
      (if r.ok then calls[0].actual - calls[0].measured else 0.0) + AcceptedCorrection(r.params, calls[1..])
  }

  /** Single-point calibrations relative to the current parameters compound:
      after a run of them, every voltage reads as before plus the total
      correction of the accepted calls. */
  lemma {:induction false} CompoundingRunShiftsEveryReading(p: Params, calls: seq<Call>, volts: real)
    requires p.slope != 0.0
    requires forall c <- calls :: CompoundingSinglePoint(c)
    ensures forall c <- calls :: WellFormed(c)
    ensures Run(p, calls).slope == p.slope
    ensures ConvertTemperatureC(volts, Run(p, calls).vTemp25, p.slope)
         == ConvertTemperatureC(volts, p.vTemp25, p.slope) + AcceptedCorrection(p, calls)
    decreases |calls|
  {
    if calls != [] {
      assert calls[0] in calls;
      var r := Step(p, calls[0]);
      if r.ok {
        SinglePointShiftsEveryReading(volts, calls[0].actual, calls[0].measured, p.vTemp25, p.slope);
      }
      CompoundingRunShiftsEveryReading(r.params, calls[1..], volts);
    }
  }

  /** A single-point calibration from the defaults forgets the history: once
      accepted, the parameters depend only on the call and the slope. */
  lemma FromDefaultForgetsOffset(p: Params, q: Params, actual: real, measured: real)
    requires p.slope == q.slope
    ensures var rp := SinglePointResult(p, actual, measured, true);
            var rq := SinglePointResult(q, actual, measured, true);
            rp.ok == rq.ok && (rp.ok ==> rp.params == rq.params)
  {
  }

  // ---------------------------------------------------------------------
  // The sensor object
  // ---------------------------------------------------------------------

  class InternalTemperature {
    /** Sensor slope in volts per degree Celsius. */
    var slope: real
    /** Sensor voltage at 25 degrees Celsius. */
    var vTemp25: real

    /** The current parameter pair. */
    function Parameters(): Params
      reads this
    {
      Params(vTemp25, slope)
    }

    /** Both parameters lie in the ranges their setters accept. */
    ghost predicate Valid()
      reads this
      ensures Valid() ==> slope > 0.0
    {
      ParamsValid(Parameters())
    }

    constructor ()
      ensures Parameters() == Defaults
      ensures Valid()
    {
      slope := DefaultSlope;
      vTemp25 := DefaultVTemp25;
    }

    /** Sets the offset if it lies in 0..5 volts; otherwise changes nothing. */
    method SetVTemp25(volts: real) returns (ok: bool)
      modifies this
      ensures Outcome(ok, Parameters()) == Step(old(Parameters()), SetVTemp25Call(volts))
      ensures old(Valid()) ==> Valid()
    {
      if volts < 0.0 || volts > 5.0 {
        return false;
      }
      vTemp25 := volts;
      return true;
    }

    /** Sets the slope if it lies within a factor of ten of the default;
        otherwise changes nothing. */
    method SetSlope(voltsPerDegreeC: real) returns (ok: bool)
      modifies this
      ensures Outcome(ok, Parameters()) == Step(old(Parameters()), SetSlopeCall(voltsPerDegreeC))
      ensures old(Valid()) ==> Valid()
    {
      if voltsPerDegreeC < DefaultSlope / 10.0 || voltsPerDegreeC > DefaultSlope * 10.0 {
        return false;
      }
      slope := voltsPerDegreeC;
      return true;
    }

    /** The current offset; under the invariant it lies in 0..5 volts. */
    function GetVTemp25(): (volts: real)
      reads this
      ensures volts == Parameters().vTemp25
      ensures Valid() ==> VTemp25InRange(volts)
    {
      vTemp25
    }

    /** The current slope; under the invariant it is accepted by `setSlope`
        and so positive. */
    function GetSlope(): (voltsPerDegreeC: real)
      reads this
      ensures voltsPerDegreeC == Parameters().slope
      ensures Valid() ==> SlopeInRange(voltsPerDegreeC) && voltsPerDegreeC > 0.0
    {
      slope
    }

    /** Voltage to degrees Celsius with the current parameters. The
        invariant keeps the slope positive, so the division is defined. */
    function ConvertCalibratedTemperatureC(volts: real): (celsius: real)
      reads this
      requires Valid()
      ensures celsius == ConvertTemperatureC(volts, vTemp25, slope)
      ensures SensorVoltage(celsius, vTemp25, slope) == volts
    {
      ConvertTemperatureC(volts, vTemp25, slope)
    }

    /** Voltage to degrees Celsius with the factory parameters. It reads no
        field, so the calibration state cannot affect it. */
    function ConvertUncalibratedTemperatureC(volts: real): (celsius: real)
      ensures celsius == ConvertTemperatureC(volts, DefaultVTemp25, DefaultSlope)
      ensures SensorVoltage(celsius, DefaultVTemp25, DefaultSlope) == volts
    {
      ConvertTemperatureC(volts, DefaultVTemp25, DefaultSlope)
    }

    /** The calibrated temperature in Celsius of a raw analog sample. */
    function ReadTemperatureC(analogValue: int): (celsius: real)
      reads this
      requires Valid()
      ensures SensorVoltage(celsius, vTemp25, slope) == SampleToVolts(analogValue)
    {
      ConvertCalibratedTemperatureC(SampleToVolts(analogValue))
    }

    /** The calibrated temperature in Fahrenheit of a raw analog sample. */
    function ReadTemperatureF(analogValue: int): (fahrenheit: real)
      reads this
      requires Valid()
      ensures ToCelsius(fahrenheit) == ReadTemperatureC(analogValue)
    {
      ToFahrenheit(ReadTemperatureC(analogValue))
    }

    /** The factory-parameter temperature in Celsius of a raw analog sample. */
    function ReadUncalibratedTemperatureC(analogValue: int): (celsius: real)
      ensures SensorVoltage(celsius, DefaultVTemp25, DefaultSlope) == SampleToVolts(analogValue)
    {
      ConvertUncalibratedTemperatureC(SampleToVolts(analogValue))
    }

    /** The factory-parameter temperature in Fahrenheit of a raw analog sample. */
    function ReadUncalibratedTemperatureF(analogValue: int): (fahrenheit: real)
      ensures ToCelsius(fahrenheit) == ReadUncalibratedTemperatureC(analogValue)
    {
      ToFahrenheit(ReadUncalibratedTemperatureC(analogValue))
    }

    /** Single-point calibration: moves only the offset, by the temperature
        error times the base slope, through `setVTemp25`. */
    method SinglePointCalibrationC(actualTemperatureC: real, measuredTemperatureC: real, fromDefault: bool)
      returns (ok: bool)
      modifies this
      ensures Outcome(ok, Parameters())
           == Step(old(Parameters()), SinglePointCallC(actualTemperatureC, measuredTemperatureC, fromDefault))
      ensures old(Valid()) ==> Valid()
    {
      var theSlope := slope;
      var theVTemp25 := vTemp25;
      if fromDefault {
        theSlope := DefaultSlope;
        theVTemp25 := DefaultVTemp25;
      }
      // move the offset by the temperature error, in volts at the base slope
      var deltaTemperature := measuredTemperatureC - actualTemperatureC;
      var deltaVolts := deltaTemperature * theSlope;
      ok := SetVTemp25(theVTemp25 - deltaVolts);
    }

    /** Single-point calibration with Fahrenheit inputs: the Celsius
        calibration of the converted inputs. */
    method SinglePointCalibrationF(actualTemperatureF: real, measuredTemperatureF: real, fromDefault: bool)
      returns (ok: bool)
      modifies this
      ensures Outcome(ok, Parameters())
           == Step(old(Parameters()), SinglePointCallF(actualTemperatureF, measuredTemperatureF, fromDefault))
      ensures old(Valid()) ==> Valid()
    {
      ok := SinglePointCalibrationC(ToCelsius(actualTemperatureF), ToCelsius(measuredTemperatureF), fromDefault);
    }

    /** Dual-point calibration: sets the slope from the two points, then the
        offset from the first point. Not transactional: when the slope is
        accepted and the offset is not, the new slope stays. */
    method DualPointCalibrationC(actualTemperature1C: real, measuredTemperature1C: real,
                                 actualTemperature2C: real, measuredTemperature2C: real, fromDefault: bool)
      returns (ok: bool)
      requires actualTemperature1C != actualTemperature2C
      modifies this
      ensures Outcome(ok, Parameters())
           == Step(old(Parameters()), DualPointCallC(actualTemperature1C, measuredTemperature1C,
                                                     actualTemperature2C, measuredTemperature2C, fromDefault))
      ensures old(Valid()) ==> Valid()
    {
      ok := false;
      var originalSlope := slope;
      var originalVTemp25 := vTemp25;
      if fromDefault {
        originalSlope := DefaultSlope;
        originalVTemp25 := DefaultVTemp25;
      }
      // the slope is committed before the offset is tried
      var newSlope := DualPointSlope(actualTemperature1C, measuredTemperature1C,
                                     actualTemperature2C, measuredTemperature2C, originalSlope);
      var slopeOk := SetSlope(newSlope);
      if slopeOk {
        var newVTemp25 := DualPointVTemp25(actualTemperature1C, measuredTemperature1C,
                                           originalVTemp25, originalSlope, newSlope);
        ok := SetVTemp25(newVTemp25);
      }
    }

    /** Dual-point calibration with Fahrenheit inputs: the Celsius
        calibration of the four converted inputs. */
    method DualPointCalibrationF(actualTemperature1F: real, measuredTemperature1F: real,
                                 actualTemperature2F: real, measuredTemperature2F: real, fromDefault: bool)
      returns (ok: bool)
      requires actualTemperature1F != actualTemperature2F
      modifies this
      ensures Outcome(ok, Parameters())
           == Step(old(Parameters()), DualPointCallF(actualTemperature1F, measuredTemperature1F,
                                                     actualTemperature2F, measuredTemperature2F, fromDefault))
      ensures old(Valid()) ==> Valid()
    {
      ToCelsiusInjective(actualTemperature1F, actualTemperature2F);
      ok := DualPointCalibrationC(ToCelsius(actualTemperature1F), ToCelsius(measuredTemperature1F),
                                  ToCelsius(actualTemperature2F), ToCelsius(measuredTemperature2F), fromDefault);
    }
  }
}
