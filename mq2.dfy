/**
  The MQ2 sensor family (LPG, methane, smoke, hydrogen): its clean-air ratio,
  its four gas curves, and the readers that evaluate them. An MQ2 is a
  `BaseMq.Sensor` built with this family's constants; it holds no state of
  its own.
*/
module Mq2 {
  import opened Wrappers
  import opened BaseMq

  /** The clean-air resistance ratio of the MQ2 family. */
  const RoBase: real := 9.83

  /** A gas curve `log(ratio) = a * log(concentration) + b`. */
  datatype Curve = Curve(a: real, b: real)

  const LpgCurve: Curve := Curve(-0.45, 2.95)
  const MethaneCurve: Curve := Curve(-0.38, 3.21)
  const SmokeCurve: Curve := Curve(-0.42, 3.54)
  const HydrogenCurve: Curve := Curve(-0.48, 3.32)

  /** The four curves an MQ2 can read. */
  const Curves: seq<Curve> := [LpgCurve, MethaneCurve, SmokeCurve, HydrogenCurve]

  /** A sensor configured as `MQ2(...)` configures it. */
  predicate IsMq2(s: Sensor) {
    s.measuringStrategy == StrategyAccurate && s.roInCleanAir == Some(RoBase)
  }

  /**
    `MQ2(pinData, pinHeater, boardResistance, baseVoltage)`: forwards its four
    arguments to the base constructor, which therefore always falls back to the
    accurate strategy.
  */
  method Create(pinData: Adc, pinHeater: int, boardResistance: real, baseVoltage: real, now: int)
    returns (s: Sensor)
    ensures fresh(s) && s.Valid() && IsMq2(s)
    ensures s.pinData == pinData && s.boardResistance == boardResistance && s.baseVoltage == baseVoltage
    ensures s.RoInCleanAir() == Ok(9.83)
    ensures !s.heater && !s.cooler && s.prMillis == None
    ensures s.ro == Uncalibrated && !s.stateCalibrate
    ensures s.lastMeasurement == now && s.rsCache == None && !s.dataIsReliable
  {
    s := new Sensor(pinData, pinHeater, boardResistance, baseVoltage, StrategyAccurate, Some(RoBase), now);
  }

  /** `readLPG`: one sampling pass evaluated on the LPG curve. */
  method ReadLpg(s: Sensor, now: int, exp: real -> real, ln: real -> real) returns (ppm: Result<real, Error>)
    modifies s`rsCache, s`dataIsReliable, s`lastMeasurement, s.pinData`position
    ensures ppm == Scaled(old(s.NextRatio()), -0.45, 2.95, exp, ln)
    ensures s.Measured(now)
  {
    ppm := s.ReadScaled(LpgCurve.a, LpgCurve.b, now, exp, ln);
  }

  /** `readMethane`: one sampling pass evaluated on the methane curve. */
  method ReadMethane(s: Sensor, now: int, exp: real -> real, ln: real -> real) returns (ppm: Result<real, Error>)
    modifies s`rsCache, s`dataIsReliable, s`lastMeasurement, s.pinData`position
    ensures ppm == Scaled(old(s.NextRatio()), -0.38, 3.21, exp, ln)
    ensures s.Measured(now)
  {
    ppm := s.ReadScaled(MethaneCurve.a, MethaneCurve.b, now, exp, ln);
  }

  /** `readSmoke`: one sampling pass evaluated on the smoke curve. */
  method ReadSmoke(s: Sensor, now: int, exp: real -> real, ln: real -> real) returns (ppm: Result<real, Error>)
    modifies s`rsCache, s`dataIsReliable, s`lastMeasurement, s.pinData`position
    ensures ppm == Scaled(old(s.NextRatio()), -0.42, 3.54, exp, ln)
    ensures s.Measured(now)
  {
    ppm := s.ReadScaled(SmokeCurve.a, SmokeCurve.b, now, exp, ln);
  }

  /** `readHydrogen`: one sampling pass evaluated on the hydrogen curve. */
  method ReadHydrogen(s: Sensor, now: int, exp: real -> real, ln: real -> real) returns (ppm: Result<real, Error>)
    modifies s`rsCache, s`dataIsReliable, s`lastMeasurement, s.pinData`position
    ensures ppm == Scaled(old(s.NextRatio()), -0.48, 3.32, exp, ln)
    ensures s.Measured(now)
  {
    ppm := s.ReadScaled(HydrogenCurve.a, HydrogenCurve.b, now, exp, ln);
  }

  /**
    Every MQ2 curve has a nonzero slope, so evaluating one fails only when the
    ratio itself failed or is not positive; on a positive ratio it always yields
    the curve's value.
  */
  lemma CurvesNeverDivideByZero(c: Curve, ratio: Result<real, Error>, exp: real -> real, ln: real -> real)
    requires c in Curves
    ensures c.a != 0.0
    ensures Scaled(ratio, c.a, c.b, exp, ln).Err? <==> ratio.Err? || ratio.value <= 0.0
    ensures ratio.Ok? && ratio.value > 0.0 ==>
              Scaled(ratio, c.a, c.b, exp, ln) == Ok(exp((ln(ratio.value) - c.b) / c.a))
  {
  }

  /**
    Calibrating an MQ2 in clean air divides the resistance sum of its
    `SampleTimes + 1` samples by `9.83 * 5`.
  */
  lemma CalibrationDivisor(raws: seq<int>, baseVoltage: real, boardResistance: real)
    requires SumResistance(raws, baseVoltage, boardResistance).Ok?
    ensures SampledRo(raws, baseVoltage, boardResistance, Ok(RoBase))
            == Ok(SumResistance(raws, baseVoltage, boardResistance).value / 49.15)
  {
  }
}
