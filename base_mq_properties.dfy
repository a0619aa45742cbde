/**
  Properties of the MQ driver: the shape of the resistance curve, what a
  calibration and a reading compute from a run of identical samples (where the
  extra sample of the sampling loops shows), how the ratio behaves before
  calibration, the inverse of the gas curve, and the heater's completion
  predicates and duty cycle.
*/
module BaseMqProperties {
  import opened Wrappers
  import opened BaseMq

  // ----- resistance conversion -----

  /** The resistance is strictly decreasing in the raw sample over all positive samples. */
  lemma ResistanceDecreasing(raw1: int, raw2: int, baseVoltage: real, boardResistance: real)
    requires 0 < raw1 < raw2 && baseVoltage != 0.0 && boardResistance > 0.0
    ensures CalculateResistance(raw1, baseVoltage, boardResistance).Ok?
    ensures CalculateResistance(raw2, baseVoltage, boardResistance).Ok?
    ensures CalculateResistance(raw1, baseVoltage, boardResistance).value
            > CalculateResistance(raw2, baseVoltage, boardResistance).value
  {
    var x1, x2 := raw1 as real, raw2 as real;
    var n := AdcFullScale as real;
    assert n / x1 > n / x2 by {
      assert n / x1 - n / x2 == n * (x2 - x1) / (x1 * x2);
    }
  }

  /**
    Over the ADC range 1..1023 the resistance is nonnegative, exactly zero at
    full scale, and positive below it.
  */
  lemma ResistanceRange(raw: int, baseVoltage: real, boardResistance: real)
    requires 1 <= raw <= AdcFullScale && baseVoltage != 0.0 && boardResistance > 0.0
    ensures CalculateResistance(raw, baseVoltage, boardResistance).Ok?
    ensures CalculateResistance(raw, baseVoltage, boardResistance).value >= 0.0
    ensures CalculateResistance(raw, baseVoltage, boardResistance).value == 0.0 <==> raw == AdcFullScale
  {
  }

  /** At half scale on a 10 ohm board the reading is 10 * 511 / 512 ohms, whatever the supply voltage. */
  lemma HalfScaleReading(baseVoltage: real)
    requires baseVoltage != 0.0
    ensures CalculateResistance(512, baseVoltage, 10.0) == Ok(9.98046875)
  {
  }

  // ----- sampling runs -----

  /** `n` samples all equal to `raw`. */
  function ConstantRun(raw: int, n: nat): (w: seq<int>)
    ensures |w| == n && forall i :: 0 <= i < n ==> w[i] == raw
  {
    seq(n, i => raw)
  }

  /** A run of `n` identical readable samples sums to `n` times their resistance. */
  lemma {:induction false} ConstantRunSum(raw: int, n: nat, baseVoltage: real, boardResistance: real)
    requires Readable(raw, baseVoltage)
    ensures SumResistance(ConstantRun(raw, n), baseVoltage, boardResistance).Ok?
    ensures SumResistance(ConstantRun(raw, n), baseVoltage, boardResistance).value
            == n as real * CalculateResistance(raw, baseVoltage, boardResistance).value
  {
    var w := ConstantRun(raw, n);
    if n == 0 {
      assert w == [];
    } else {
      var m: nat := n - 1;
      var rs := CalculateResistance(raw, baseVoltage, boardResistance).value;
      assert w[..m] == ConstantRun(raw, m);
      ConstantRunSum(raw, m, baseVoltage, boardResistance);
      var prev := SumResistance(w[..m], baseVoltage, boardResistance);
      assert prev.Ok? && prev.value == m as real * rs;
      assert w[m] == raw;
      assert SumResistance(w, baseVoltage, boardResistance).value == prev.value + rs;
      assert m as real * rs + rs == n as real * rs;
    }
  }

  /** A sampling loop over readable samples reads exactly as many as it is given. */
  lemma ReadableRunIsReadWhole(raws: seq<int>, baseVoltage: real, boardResistance: real)
    requires SumResistance(raws, baseVoltage, boardResistance).Ok?
    ensures SamplesRead(raws, baseVoltage) == |raws|
  {
  }

  /**
    Calibrating against `SampleTimes + 1` identical samples yields 6/5 of their
    resistance over the clean-air ratio: the loop takes one more sample than it
    divides by, so the result is not the mean-based `rs / clean` unless the
    resistance is zero.
  */
  lemma CalibrationOfConstantAir(raw: int, baseVoltage: real, boardResistance: real, clean: real)
    requires Readable(raw, baseVoltage) && clean != 0.0
    ensures var rs := CalculateResistance(raw, baseVoltage, boardResistance).value;
            var cal := SampledRo(ConstantRun(raw, SampleTimes + 1), baseVoltage, boardResistance, Ok(clean));
            cal.Ok? && cal.value == 6.0 * rs / (5.0 * clean) && (cal.value == rs / clean <==> rs == 0.0)
  {
    var rs := CalculateResistance(raw, baseVoltage, boardResistance).value;
    ConstantRunSum(raw, SampleTimes + 1, baseVoltage, boardResistance);
    assert 6.0 * rs / (5.0 * clean) - rs / clean == rs / (5.0 * clean);
  }

  /** An accurate reading of `SampleTimes + 1` identical samples is 6/5 of their resistance. */
  lemma AccurateReadingOfConstantAir(raw: int, baseVoltage: real, boardResistance: real)
    requires Readable(raw, baseVoltage)
    ensures AccurateRs(ConstantRun(raw, SampleTimes + 1), baseVoltage, boardResistance).Ok?
    ensures AccurateRs(ConstantRun(raw, SampleTimes + 1), baseVoltage, boardResistance).value
            == 6.0 * CalculateResistance(raw, baseVoltage, boardResistance).value / 5.0
  {
    ConstantRunSum(raw, SampleTimes + 1, baseVoltage, boardResistance);
  }

  /**
    Under the accurate strategy the surplus sample cancels out of the ratio: a
    reading over a sampled calibration is the clean-air ratio times the
    quotient of the two runs' resistance sums.
  */
  lemma AccurateRatioCancelsSampleCount(calibration: seq<int>, reading: seq<int>,
                                        baseVoltage: real, boardResistance: real,
                                        clean: real, c: real, r: real)
    requires SumResistance(calibration, baseVoltage, boardResistance) == Ok(c)
    requires SumResistance(reading, baseVoltage, boardResistance) == Ok(r)
    requires c != 0.0 && clean != 0.0
    ensures SampledRo(calibration, baseVoltage, boardResistance, Ok(clean)).Ok?
    ensures Ratio(AccurateRs(reading, baseVoltage, boardResistance),
                  SampledRo(calibration, baseVoltage, boardResistance, Ok(clean)).value).Ok?
    ensures Ratio(AccurateRs(reading, baseVoltage, boardResistance),
                  SampledRo(calibration, baseVoltage, boardResistance, Ok(clean)).value).value
            == clean * r / c
  {
    var rs := AccurateRs(reading, baseVoltage, boardResistance);
    var ro := SampledRo(calibration, baseVoltage, boardResistance, Ok(clean));
    assert rs == Ok(r / 5.0);
    assert ro == Ok(c / (clean * 5.0));
    QuotientOfScaledSums(r, c, clean);
  }

  /** The reading's division by `SampleTimes` cancels the `SampleTimes` factor in the calibration divisor. */
  lemma QuotientOfScaledSums(r: real, c: real, clean: real)
    requires c != 0.0 && clean != 0.0
    ensures c / (clean * 5.0) != 0.0
    ensures (r / 5.0) / (c / (clean * 5.0)) == clean * r / c
  {
  }

  /**
    In unchanged air, a sensor calibrated by sampling reads the clean-air ratio
    under the accurate strategy, but only 5/6 of it under the fast strategy.
  */
  lemma RatiosInCleanAir(raw: int, baseVoltage: real, boardResistance: real, clean: real)
    requires 0 < raw < AdcFullScale && baseVoltage != 0.0
    requires boardResistance > 0.0 && clean != 0.0
    ensures var run := ConstantRun(raw, SampleTimes + 1);
            var ro := SampledRo(run, baseVoltage, boardResistance, Ok(clean));
            var accurate := Ratio(AccurateRs(run, baseVoltage, boardResistance), ro.value);
            var fast := Ratio(CalculateResistance(raw, baseVoltage, boardResistance), ro.value);
            && ro.Ok? && accurate.Ok? && accurate.value == clean
            && fast.Ok? && fast.value == 5.0 * clean / 6.0
  {
    var rs := CalculateResistance(raw, baseVoltage, boardResistance).value;
    assert rs > 0.0 by { ResistanceRange(raw, baseVoltage, boardResistance); }
    CalibrationOfConstantAir(raw, baseVoltage, boardResistance, clean);
    AccurateReadingOfConstantAir(raw, baseVoltage, boardResistance);
    assert (6.0 * rs / 5.0) / (6.0 * rs / (5.0 * clean)) == clean;
    assert rs / (6.0 * rs / (5.0 * clean)) == 5.0 * clean / 6.0;
  }

  /** Before calibration `ro` is -1, so a ratio is the reading negated rather than an error. */
  lemma UncalibratedRatioIsNegated(rs: real)
    ensures Ratio(Ok(rs), Uncalibrated) == Ok(-rs)
  {
  }

  // ----- gas curves -----

  /**
    `Scaled` inverts the curve `log(ratio) = a * log(c) + b`: fed the ratio the
    curve assigns to a concentration `c`, it returns `c`, given `exp` and `ln`
    are inverse at the two points involved.
  */
  lemma ScaledInvertsCurve(c: real, a: real, b: real, exp: real -> real, ln: real -> real)
    requires c > 0.0 && a != 0.0
    requires exp(a * ln(c) + b) > 0.0
    requires ln(exp(a * ln(c) + b)) == a * ln(c) + b
    requires exp(ln(c)) == c
    ensures Scaled(Ok(exp(a * ln(c) + b)), a, b, exp, ln) == Ok(c)
  {
    assert (a * ln(c) + b - b) / a == ln(c);
  }

  // ----- heater state machine -----

  /** Each completion predicate holds exactly in its own phase once its period has strictly passed. */
  lemma CompletionByPhase(s: Sensor, now: int)
    requires s.Valid()
    ensures s.HeatingCompleted(now) <==> s.Phase() == Heating && s.Elapsed(now) > HeatingPeriod
    ensures s.CoolanceCompleted(now) <==> s.Phase() == Cooling && s.Elapsed(now) > CoolingPeriod
    ensures s.Phase() == Idle ==> !s.HeatingCompleted(now) && !s.CoolanceCompleted(now)
    ensures !(s.HeatingCompleted(now) && s.CoolanceCompleted(now))
  {
  }

  /**
    One duty cycle from a fresh sensor: neither phase completes at exactly its
    period, heating turns into cooling just after it, cooling completes just
    after its own period and is reported, and a later poll reports nothing.
  */
  method DutyCycle(s: Sensor, t0: int) returns (reports: seq<bool>)
    requires s.Valid() && s.Phase() == Idle
    modifies s`heater, s`cooler, s`prMillis
    ensures s.Valid() && s.Phase() == Idle
    ensures reports == [false, false, false, false, true, false]
  {
    assert !s.HeatingCompleted(t0) && !s.CoolanceCompleted(t0);
    var idle := s.AtHeatCycleEnd(t0);
    s.CycleHeat(t0);
    var atPeriod := s.AtHeatCycleEnd(t0 + HeatingPeriod);
    assert s.Phase() == Heating;
    var t1 := t0 + HeatingPeriod + 1;
    var heated := s.AtHeatCycleEnd(t1);
    assert s.Phase() == Cooling && s.prMillis == Some(t1);
    var cooling := s.AtHeatCycleEnd(t1 + CoolingPeriod);
    assert s.Phase() == Cooling;
    var cooled := s.AtHeatCycleEnd(t1 + CoolingPeriod + 1);
    assert s.Phase() == Idle;
    var later := s.AtHeatCycleEnd(t1 + 2 * CoolingPeriod);
    reports := [idle, atPeriod, heated, cooling, cooled, later];
  }

  /** A second calibration overwrites `ro` instead of accumulating into it. */
  method Recalibrate(s: Sensor, first: real, second: real)
    requires first != Uncalibrated && second != Uncalibrated
    modifies s`ro, s`stateCalibrate, s.pinData`position
    ensures s.ro == second && s.stateCalibrate
    ensures s.pinData.position == old(s.pinData.position)
  {
    var o1 := s.Calibrate(first);
    var o2 := s.Calibrate(second);
  }
}
