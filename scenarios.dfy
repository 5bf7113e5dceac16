/** Client scenarios: the calibration calls the library's `begin` routine
    makes on a fresh sensor object, and the boundary and failure cases of the
    setters and of dual-point calibration, each stated as what a caller can
    conclude from the contracts alone. */
module Scenarios {
  import opened TemperatureModel

  /** Both ends of the offset range are accepted; just past the top is not,
      and then the offset stays where it was. */
  method SetVTemp25Boundaries() returns (atZero: bool, atFive: bool, pastFive: bool, after: real)
    ensures atZero && atFive && !pastFive
    ensures after == 5.0
  {
    var sensor := new InternalTemperature();
    atZero := sensor.SetVTemp25(0.0);
    atFive := sensor.SetVTemp25(5.0);
    pastFive := sensor.SetVTemp25(5.001);
    after := sensor.GetVTemp25();
  }

  /** Both decade limits around the default slope are accepted; zero is not.
      This holds over exact reals: as single-precision floats, 0.000162
      rounds just below `DEFAULT_SLOPE / 10` and 0.0162 just above
      `DEFAULT_SLOPE * 10`, so the C comparisons would reject both. */
  method SetSlopeBoundaries() returns (atLow: bool, atHigh: bool, atZero: bool, after: real)
    ensures atLow && atHigh && !atZero
    ensures after == DefaultSlope * 10.0
  {
    var sensor := new InternalTemperature();
    atLow := sensor.SetSlope(0.000162);
    atHigh := sensor.SetSlope(0.0162);
    atZero := sensor.SetSlope(0.0);
    after := sensor.GetSlope();
  }

  /** The first calibration `begin` makes on a fresh object: 75 F read as
      76.8 F, with the flag left at its default value. On a fresh object the
      current parameters are the defaults, so the outcome is the same for
      either value of `fromDefault`: the 1.8 F (1 C) error lowers the offset
      by one slope, and the default offset voltage then reads 24 C. */
  method SinglePointFahrenheitFresh(fromDefault: bool) returns (ok: bool, vTemp25: real, reading: real)
    ensures ok
    ensures vTemp25 == 0.71438
    ensures reading == 24.0
  {
    var sensor := new InternalTemperature();
    ok := sensor.SinglePointCalibrationF(75.0, 76.8, fromDefault);
    vTemp25 := sensor.GetVTemp25();
    reading := sensor.ConvertCalibratedTemperatureC(DefaultVTemp25);
  }

  /** Single-point calibration from the defaults with actual 20 C and
      measured 19 C: the offset becomes 0.71762 V, the slope stays, and the
      default offset voltage now reads one degree warmer than 25 C. */
  method SinglePointFromDefaults() returns (ok: bool, vTemp25: real, slope: real, reading: real)
    ensures ok
    ensures vTemp25 == 0.71762 && slope == DefaultSlope
    ensures reading == 26.0
  {
    var sensor := new InternalTemperature();
    ok := sensor.SinglePointCalibrationC(20.0, 19.0, true);
    vTemp25 := sensor.GetVTemp25();
    slope := sensor.GetSlope();
    reading := sensor.ConvertCalibratedTemperatureC(DefaultVTemp25);
  }

  /** The Fahrenheit dual-point calibration `begin` performs from the
      defaults (46.2 F read as 42.3 F, 70.5 F read as 68.6 F) is accepted,
      and afterwards both calibration points read right. */
  method DualPointFahrenheitFromDefaults() returns (ok: bool, first: real, second: real)
    ensures ok
    ensures first == ToCelsius(46.2) && second == ToCelsius(70.5)
  {
    var sensor := new InternalTemperature();
    ok := sensor.DualPointCalibrationF(46.2, 42.3, 70.5, 68.6, true);
    first := sensor.ConvertCalibratedTemperatureC(SensorVoltage(ToCelsius(42.3), DefaultVTemp25, DefaultSlope));
    second := sensor.ConvertCalibratedTemperatureC(SensorVoltage(ToCelsius(68.6), DefaultVTemp25, DefaultSlope));
  }

  /** A dual-point calibration whose slope is accepted but whose offset is
      not: the call fails, yet the slope has already been replaced, while
      the offset set before the call stays. */
  method DualPointPartialFailure() returns (ok: bool, slopeBefore: real, slopeAfter: real, vTemp25: real)
    ensures !ok
    ensures slopeBefore == 0.002 && slopeAfter == 0.004
    ensures vTemp25 == 1.0
  {
    var sensor := new InternalTemperature();
    var slopeSet := sensor.SetSlope(0.002);
    var offsetSet := sensor.SetVTemp25(1.0);
    slopeBefore := sensor.GetSlope();
    // the measured points are twice as far apart as the actual ones, so the
    // slope doubles to 0.004; the first point is 1000 degrees off, which at
    // the old slope drives the offset to -1 V
    ok := sensor.DualPointCalibrationC(25.0, 1025.0, 26.0, 1027.0, false);
    slopeAfter := sensor.GetSlope();
    vTemp25 := sensor.GetVTemp25();
  }

  /** A dual-point calibration whose slope is rejected changes nothing. */
  method DualPointSlopeRejected() returns (ok: bool, slope: real, vTemp25: real)
    ensures !ok
    ensures slope == DefaultSlope && vTemp25 == DefaultVTemp25
  {
    var sensor := new InternalTemperature();
    // a measured difference 100 times the actual one asks for 100 times the slope
    ok := sensor.DualPointCalibrationC(20.0, 20.0, 21.0, 120.0, false);
    slope := sensor.GetSlope();
    vTemp25 := sensor.GetVTemp25();
  }
}
