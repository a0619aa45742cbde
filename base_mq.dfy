/**
  The shared driver of the MQ family of resistive gas sensors: converting raw
  analog samples into a sensor resistance, calibrating the clean-air baseline
  `ro`, sampling under the fast or the accurate strategy, and the polling
  heater/cooler state machine.

  Python floats are modelled as exact `real`s, the ADC as a stream of integer
  samples (class `Adc`), and the millisecond clock as an integer `now` passed to
  every operation that reads it. Python exceptions are values of type `Error`.
*/
module BaseMq {
  import opened Wrappers

  /** Number of samples an accurate reading or a calibration divides by. */
  const SampleTimes: nat := 5
  /** Delay after each sample, in ms (the delay itself is not modelled). */
  const SampleInterval: nat := 5000
  /** How long the heater must be on at full power, in ms. */
  const HeatingPeriod: int := 60000
  /** How long the heater must stay in energy-saving mode, in ms. */
  const CoolingPeriod: int := 90000
  /** Take one sample immediately; the result is flagged unreliable. */
  const StrategyFast: int := 1
  /** Take a run of samples and average them; the result is flagged reliable. */
  const StrategyAccurate: int := 2
  /** The full-scale count the resistance formula normalises by. */
  const AdcFullScale: int := 1023
  /** The value of `ro` before any calibration, and the `calibrate` argument that asks for sampling. */
  const Uncalibrated: real := -1.0

  /** The exceptions the driver's arithmetic can raise. */
  datatype Error =
    | ZeroDivision    // ZeroDivisionError
    | MathDomain      // ValueError from math.log on a non-positive argument
    | NotImplemented  // NotImplementedError from the abstract getRoInCleanAir

  /** The three phases of the heater, read off the two flags. */
  datatype HeaterPhase = Idle | Heating | Cooling

  // ---------------------------------------------------------------------------
  // Resistance conversion
  // ---------------------------------------------------------------------------

  /** A sample can be converted: its measured voltage is not zero. */
  predicate Readable(raw: int, baseVoltage: real) {
    raw != 0 && baseVoltage != 0.0
  }

  /**
    The sensor resistance for one raw sample: the voltage over the load resistor
    is `raw * baseVoltage / 1023`, and the sensor resistance is the load
    resistance scaled by the voltage ratio. A zero voltage raises
    ZeroDivisionError. The supply voltage cancels out of the result.
  */
  function CalculateResistance(raw: int, baseVoltage: real, boardResistance: real): (r: Result<real, Error>)
    ensures r.Err? <==> !Readable(raw, baseVoltage)
    ensures r.Err? ==> r.error == ZeroDivision
    ensures r.Ok? ==> r.value == boardResistance * (AdcFullScale - raw) as real / raw as real
  {
    var vrl := raw as real * (baseVoltage / AdcFullScale as real);
    if vrl == 0.0 then
      assert !Readable(raw, baseVoltage) by { ZeroVoltage(raw, baseVoltage); }
      Err(ZeroDivision)
    else
      ResistanceClosedForm(raw, baseVoltage, boardResistance);
      Ok((baseVoltage - vrl) / vrl * boardResistance)
  }

  /** The measured voltage is zero exactly when the sample or the supply voltage is. */
  lemma ZeroVoltage(raw: int, baseVoltage: real)
    ensures raw as real * (baseVoltage / AdcFullScale as real) == 0.0 <==> !Readable(raw, baseVoltage)
  {
  }

  /** The formula of `CalculateResistance` equals `boardResistance * (1023 - raw) / raw`. */
  lemma ResistanceClosedForm(raw: int, baseVoltage: real, boardResistance: real)
    requires Readable(raw, baseVoltage)
    ensures var vrl := raw as real * (baseVoltage / AdcFullScale as real);
            vrl != 0.0 &&
            (baseVoltage - vrl) / vrl * boardResistance
            == boardResistance * (AdcFullScale - raw) as real / raw as real
  {
  }

  // ---------------------------------------------------------------------------
  // Sampling runs
  // ---------------------------------------------------------------------------

  /**
    The running sum `rs += calculateResistance(sample)` of a sampling loop over
    `raws`, in loop order; it fails with the first sample that cannot be converted.
  */
  function SumResistance(raws: seq<int>, baseVoltage: real, boardResistance: real): (r: Result<real, Error>)
    ensures r.Ok? <==> forall k :: 0 <= k < |raws| ==> Readable(raws[k], baseVoltage)
    ensures r.Err? ==> r.error == ZeroDivision
    decreases |raws|
  {
    if raws == [] then Ok(0.0)
    else
      var init := SumResistance(raws[..|raws| - 1], baseVoltage, boardResistance);
      var last := CalculateResistance(raws[|raws| - 1], baseVoltage, boardResistance);
      if init.Err? then init
      else if last.Err? then last
      else Ok(init.value + last.value)
  }

  /** The index of the first sample of `raws` that cannot be converted, or `|raws|`. */
  function FirstUnreadable(raws: seq<int>, baseVoltage: real): (k: nat)
    ensures k <= |raws|
    ensures forall j :: 0 <= j < k ==> Readable(raws[j], baseVoltage)
    ensures k < |raws| ==> !Readable(raws[k], baseVoltage)
  {
    if raws == [] || !Readable(raws[0], baseVoltage) then 0
    else 1 + FirstUnreadable(raws[1..], baseVoltage)
  }

  /**
    How many samples a sampling loop over `raws` takes from the ADC: all of them,
    or up to and including the first one whose conversion raises.
  */
  function SamplesRead(raws: seq<int>, baseVoltage: real): (n: nat)
    ensures n <= |raws|
    ensures (forall k :: 0 <= k < |raws| ==> Readable(raws[k], baseVoltage)) ==> n == |raws|
    ensures (exists k :: 0 <= k < |raws| && !Readable(raws[k], baseVoltage)) ==>
              0 < n && !Readable(raws[n - 1], baseVoltage)
              && forall j :: 0 <= j < n - 1 ==> Readable(raws[j], baseVoltage)
  {
    var k := FirstUnreadable(raws, baseVoltage);
    if k == |raws| then k else k + 1
  }

  /**
    The calibrated baseline from a run of samples: the sum of their resistances
    divided by `clean * SampleTimes`, where `clean` is the sensor family's
    clean-air ratio (or the exception asking for it raised).
  */
  function SampledRo(raws: seq<int>, baseVoltage: real, boardResistance: real, clean: Result<real, Error>): (r: Result<real, Error>)
    ensures var sum := SumResistance(raws, baseVoltage, boardResistance);
            (r.Ok? <==> sum.Ok? && clean.Ok? && clean.value != 0.0)
            && (sum.Err? ==> r == sum)
            && (sum.Ok? && clean.Err? ==> r == clean)
            && (sum.Ok? && clean.Ok? && clean.value == 0.0 ==> r == Err(ZeroDivision))
            && (r.Ok? ==> r.value * clean.value * SampleTimes as real == sum.value)
  {
    var sum := SumResistance(raws, baseVoltage, boardResistance);
    if sum.Err? then sum
    else if clean.Err? then clean
    else if clean.value * SampleTimes as real == 0.0 then Err(ZeroDivision)
    else Ok(sum.value / (clean.value * SampleTimes as real))
  }

  /** The accurate-strategy reading from a run of samples: their resistance sum divided by `SampleTimes`. */
  function AccurateRs(raws: seq<int>, baseVoltage: real, boardResistance: real): (r: Result<real, Error>)
    ensures r.Ok? <==> forall k :: 0 <= k < |raws| ==> Readable(raws[k], baseVoltage)
    ensures r.Err? ==> r.error == ZeroDivision
    ensures r.Ok? ==> SampleTimes as real * r.value == SumResistance(raws, baseVoltage, boardResistance).value
  {
    var sum := SumResistance(raws, baseVoltage, boardResistance);
    if sum.Err? then sum else Ok(sum.value / SampleTimes as real)
  }

  /** `readRatio`: the resistance divided by `ro`, with no check that `ro` was calibrated. */
  function Ratio(rs: Result<real, Error>, ro: real): (r: Result<real, Error>)
    ensures r.Ok? <==> rs.Ok? && ro != 0.0
    ensures rs.Err? ==> r == rs
    ensures rs.Ok? && ro == 0.0 ==> r == Err(ZeroDivision)
    ensures r.Ok? ==> r.value * ro == rs.value
  {
    if rs.Err? then rs
    else if ro == 0.0 then Err(ZeroDivision)
    else Ok(rs.value / ro)
  }

  /**
    `readScaled(a, b)`: `exp((log(ratio) - b) / a)`, which inverts the curve
    `log(ratio) = a * log(concentration) + b`. `log` of a non-positive ratio raises
    before the division by `a` is reached.
  */
  function Scaled(ratio: Result<real, Error>, a: real, b: real, exp: real -> real, ln: real -> real): (r: Result<real, Error>)
    ensures r.Ok? <==> ratio.Ok? && ratio.value > 0.0 && a != 0.0
    ensures ratio.Err? ==> r == ratio
    ensures ratio.Ok? && ratio.value <= 0.0 ==> r == Err(MathDomain)
    ensures ratio.Ok? && ratio.value > 0.0 && a == 0.0 ==> r == Err(ZeroDivision)
    ensures r.Ok? ==> exists c :: r.value == exp(c) && a * c + b == ln(ratio.value)
  {
    if ratio.Err? then ratio
    else if ratio.value <= 0.0 then Err(MathDomain)
    else if a == 0.0 then Err(ZeroDivision)
    else Ok(exp((ln(ratio.value) - b) / a))
  }

  // ---------------------------------------------------------------------------
  // The analog input
  // ---------------------------------------------------------------------------

  /** An ADC pin: `source(i)` is the value its `i`-th read returns. */
  class Adc {
    const source: nat -> int
    var position: nat

    constructor (source: nat -> int)
      ensures this.source == source && position == 0
    {
      this.source := source;
      position := 0;
    }

    /** The next `n` values the pin will return. */
    function Upcoming(n: nat): (w: seq<int>)
      reads this`position
      ensures |w| == n
      ensures forall i :: 0 <= i < n ==> w[i] == source(position + i)
    {
      var p := position;
      seq(n, i requires 0 <= i => source(p + i))
    }

    /** `read()`: the next sample. */
    method Read() returns (raw: int)
      modifies this`position
      ensures raw == source(old(position))
      ensures position == old(position) + 1
    {
      raw := source(position);
      position := position + 1;
    }
  }

  // ---------------------------------------------------------------------------
  // The sensor
  // ---------------------------------------------------------------------------

  /** The state of one MQ sensor (the Python class BaseMQ). */
  class Sensor {
    const pinData: Adc
    const boardResistance: real
    const baseVoltage: real
    const measuringStrategy: int
    /** The family's clean-air ratio; `None` for the abstract base class. */
    const roInCleanAir: Option<real>

    var heater: bool
    var cooler: bool
    /** When the current heater phase began; unset until the heater is first switched. */
    var prMillis: Option<int>
    var ro: real
    var stateCalibrate: bool
    /** When the last accurate reading completed (`_lastMesurement` in the source). */
    var lastMeasurement: int
    var rsCache: Option<real>
    var dataIsReliable: bool

    /** A heater that is on always has a phase start time. */
    ghost predicate Valid()
      reads this`heater, this`prMillis
    {
      heater ==> prMillis.Some?
    }

    /**
      `__init__`. The heater pin only reaches attributes no operation reads, so
      `pinHeater` has no effect on the modelled state.
    */
    constructor (pinData: Adc, pinHeater: int, boardResistance: real, baseVoltage: real,
                 measuringStrategy: int, roInCleanAir: Option<real>, now: int)
      ensures Valid()
      ensures this.pinData == pinData && this.boardResistance == boardResistance
      ensures this.baseVoltage == baseVoltage && this.measuringStrategy == measuringStrategy
      ensures this.roInCleanAir == roInCleanAir
      ensures !heater && !cooler && prMillis == None
      ensures ro == Uncalibrated && !stateCalibrate
      ensures lastMeasurement == now && rsCache == None && !dataIsReliable
    {
      this.pinData := pinData;
      this.boardResistance := boardResistance;
      this.baseVoltage := baseVoltage;
      this.measuringStrategy := measuringStrategy;
      this.roInCleanAir := roInCleanAir;
      heater := false;
      cooler := false;
      prMillis := None;
      ro := Uncalibrated;
      stateCalibrate := false;
      lastMeasurement := now;
      rsCache := None;
      dataIsReliable := false;
    }

    /** `getRoInCleanAir`. */
    function RoInCleanAir(): (r: Result<real, Error>)
      ensures r.Ok? <==> roInCleanAir.Some?
      ensures r.Err? ==> r.error == NotImplemented
      ensures r.Ok? ==> roInCleanAir == Some(r.value)
    {
      if roInCleanAir.Some? then Ok(roInCleanAir.value) else Err(NotImplemented)
    }

    /** The phase the heater flags encode. */
    function Phase(): HeaterPhase
      reads this`heater, this`cooler
    {
      if !heater then Idle else if cooler then Cooling else Heating
    }

    /** Elapsed time since the current heater phase began. */
    function Elapsed(now: int): int
      requires Valid() && heater
      reads this`heater, this`prMillis
    {
      now - prMillis.value
    }

    // ----- sampling -----

    /** The resistance loop shared by `calibrate` and `__readRs__`: `count` samples summed. */
    method SumSamples(count: nat) returns (total: Result<real, Error>)
      modifies pinData`position
      ensures var w := old(pinData.Upcoming(count));
              total == SumResistance(w, baseVoltage, boardResistance) &&
              pinData.position == old(pinData.position) + SamplesRead(w, baseVoltage)
    {
      ghost var w := pinData.Upcoming(count);
      ghost var p0 := pinData.position;
      var acc := 0.0;
      var i := 0;
      while i < count
        invariant 0 <= i <= count
        invariant pinData.position == p0 + i
        invariant forall k :: 0 <= k < i ==> Readable(w[k], baseVoltage)
        invariant SumResistance(w[..i], baseVoltage, boardResistance) == Ok(acc)
      {
        var raw := pinData.Read();
        assert raw == w[i];
        var x := CalculateResistance(raw, baseVoltage, boardResistance);
        if x.Err? {
          FirstUnreadableIs(w, baseVoltage, i);
          total := Err(x.error);
          return;
        }
        assert w[..i + 1][..i] == w[..i];
        acc := acc + x.value;
        i := i + 1;
      }
      assert w[..count] == w;
      total := Ok(acc);
    }

    /** The value `__readRs__` would return if called now. */
    function NextRs(): Result<real, Error>
      reads pinData`position
    {
      if measuringStrategy == StrategyAccurate then
        AccurateRs(pinData.Upcoming(SampleTimes + 1), baseVoltage, boardResistance)
      else
        CalculateResistance(pinData.source(pinData.position), baseVoltage, boardResistance)
    }

    /** The value `readRatio` would return if called now. */
    function NextRatio(): Result<real, Error>
      reads this`ro, pinData`position
    {
      Ratio(NextRs(), ro)
    }

    /**
      What one `__readRs__` pass does to the sensor's measurement fields and the
      ADC: under the accurate strategy it reads `SampleTimes + 1` samples (fewer
      if one raises) and, on success, caches the result, flags it reliable and
      stamps the time; under any other strategy it reads one sample and, on
      success, flags the data unreliable.
    */
    twostate predicate Measured(now: int)
      reads this`rsCache, this`dataIsReliable, this`lastMeasurement, pinData`position
    {
      var rs := old(NextRs());
      if measuringStrategy == StrategyAccurate then
        && pinData.position == old(pinData.position)
                               + SamplesRead(old(pinData.Upcoming(SampleTimes + 1)), baseVoltage)
        && (rs.Ok? ==> rsCache == Some(rs.value) && dataIsReliable && lastMeasurement == now)
        && (rs.Err? ==> rsCache == old(rsCache) && dataIsReliable == old(dataIsReliable)
                        && lastMeasurement == old(lastMeasurement))
      else
        && pinData.position == old(pinData.position) + 1
        && rsCache == old(rsCache) && lastMeasurement == old(lastMeasurement)
        && dataIsReliable == (if rs.Ok? then false else old(dataIsReliable))
    }

    /**
      `calibrate(ro)`: any argument but the sentinel -1 is stored as `ro` without
      sampling; the sentinel takes `SampleTimes + 1` samples and stores their
      resistance sum divided by `clean-air ratio * SampleTimes`. A call that
      raises leaves `ro` and `stateCalibrate` as they were.
    */
    method Calibrate(knownRo: real) returns (outcome: Outcome<Error>)
      modifies this`ro, this`stateCalibrate, pinData`position
      ensures knownRo != Uncalibrated ==>
                outcome == Pass && ro == knownRo && stateCalibrate
                && pinData.position == old(pinData.position)
      ensures knownRo == Uncalibrated ==>
                var w := old(pinData.Upcoming(SampleTimes + 1));
                var cal := SampledRo(w, baseVoltage, boardResistance, RoInCleanAir());
                && pinData.position == old(pinData.position) + SamplesRead(w, baseVoltage)
                && (cal.Ok? ==> outcome == Pass && ro == cal.value && stateCalibrate)
                && (cal.Err? ==> outcome == Fail(cal.error) && ro == old(ro)
                                 && stateCalibrate == old(stateCalibrate))
    {
      var newRo := knownRo;
      if knownRo == Uncalibrated {
        var sum := SumSamples(SampleTimes + 1);
        if sum.Err? {
          outcome := Fail(sum.error);
          return;
        }
        var clean := RoInCleanAir();
        if clean.Err? {
          outcome := Fail(clean.error);
          return;
        }
        if clean.value * SampleTimes as real == 0.0 {
          outcome := Fail(ZeroDivision);
          return;
        }
        newRo := sum.value / (clean.value * SampleTimes as real);
      }
      ro := newRo;
      stateCalibrate := true;
      outcome := Pass;
    }

    /** `__readRs__`: one sampling pass under the configured strategy. */
    method ReadRs(now: int) returns (rs: Result<real, Error>)
      modifies this`rsCache, this`dataIsReliable, this`lastMeasurement, pinData`position
      ensures rs == old(NextRs())
      ensures Measured(now)
    {
      if measuringStrategy == StrategyAccurate {
        var sum := SumSamples(SampleTimes + 1);
        if sum.Err? {
          rs := sum;
          return;
        }
        var mean := sum.value / SampleTimes as real;
        rsCache := Some(mean);
        dataIsReliable := true;
        lastMeasurement := now;
        rs := Ok(mean);
      } else {
        var raw := pinData.Read();
        rs := CalculateResistance(raw, baseVoltage, boardResistance);
        if rs.Err? {
          return;
        }
        dataIsReliable := false;
      }
    }

    /** `readRatio`: one sampling pass divided by `ro`. */
    method ReadRatio(now: int) returns (ratio: Result<real, Error>)
      modifies this`rsCache, this`dataIsReliable, this`lastMeasurement, pinData`position
      ensures ratio == old(NextRatio())
      ensures Measured(now)
    {
      var rs := ReadRs(now);
      ratio := Ratio(rs, ro);
    }

    /** `readScaled(a, b)`: the concentration on the curve `(a, b)` for one sampling pass. */
    method ReadScaled(a: real, b: real, now: int, exp: real -> real, ln: real -> real)
      returns (concentration: Result<real, Error>)
      modifies this`rsCache, this`dataIsReliable, this`lastMeasurement, pinData`position
      ensures concentration == Scaled(old(NextRatio()), a, b, exp, ln)
      ensures Measured(now)
    {
      var ratio := ReadRatio(now);
      concentration := Scaled(ratio, a, b, exp, ln);
    }

    // ----- heater state machine -----

    /** `heaterPwrHigh`: heater on; the phase clock restarts. */
    method HeaterPwrHigh(now: int)
      modifies this`heater, this`prMillis
      ensures Valid()
      ensures heater && prMillis == Some(now)
    {
      heater := true;
      prMillis := Some(now);
    }

    /** `heaterPwrLow`: heater in energy-saving mode; the phase clock restarts. */
    method HeaterPwrLow(now: int)
      modifies this`heater, this`cooler, this`prMillis
      ensures Valid()
      ensures heater && cooler && prMillis == Some(now)
    {
      heater := true;
      cooler := true;
      prMillis := Some(now);
    }

    /** `heaterPwrOff`: heater off; the cooler flag and the phase clock are left alone. */
    method HeaterPwrOff()
      modifies this`heater
      ensures Valid()
      ensures !heater
    {
      heater := false;
    }

    /** `heatingCompleted`: at full power for strictly longer than the heating period. */
    predicate HeatingCompleted(now: int)
      requires Valid()
      reads this`heater, this`cooler, this`prMillis
      ensures HeatingCompleted(now) <==> Phase() == Heating && now > prMillis.value + HeatingPeriod
    {
      heater && !cooler && Elapsed(now) > HeatingPeriod
    }

    /** `coolanceCompleted`: in energy-saving mode for strictly longer than the cooling period. */
    predicate CoolanceCompleted(now: int)
      requires Valid()
      reads this`heater, this`cooler, this`prMillis
      ensures CoolanceCompleted(now) <==> Phase() == Cooling && now > prMillis.value + CoolingPeriod
    {
      heater && cooler && Elapsed(now) > CoolingPeriod
    }

    /** `cycleHeat`: start a heating phase now, whatever the previous state. */
    method CycleHeat(now: int)
      modifies this`heater, this`cooler, this`prMillis
      ensures Valid()
      ensures heater && !cooler && prMillis == Some(now)
      ensures Phase() == Heating
    {
      heater := false;
      cooler := false;
      HeaterPwrHigh(now);
    }

    /**
      `atHeatCycleEnd`: the polling step. A completed heating phase becomes a
      cooling phase starting now; a completed cooling phase switches the heater
      off and is reported; otherwise nothing changes.
    */
    method AtHeatCycleEnd(now: int) returns (done: bool)
      requires Valid()
      modifies this`heater, this`cooler, this`prMillis
      ensures Valid()
      ensures done == old(CoolanceCompleted(now))
      ensures old(HeatingCompleted(now)) ==> heater && cooler && prMillis == Some(now)
      ensures old(CoolanceCompleted(now)) ==>
                !heater && cooler == old(cooler) && prMillis == old(prMillis)
      ensures !old(HeatingCompleted(now)) && !old(CoolanceCompleted(now)) ==>
                heater == old(heater) && cooler == old(cooler) && prMillis == old(prMillis)
      ensures done ==> old(Phase()) == Cooling && Phase() == Idle
      ensures old(Phase()) == Idle ==> !done && Phase() == Idle
    {
      if HeatingCompleted(now) {
        HeaterPwrLow(now);
        return false;
      } else if CoolanceCompleted(now) {
        HeaterPwrOff();
        return true;
      } else {
        return false;
      }
    }
  }

  /** A sample is the first unconvertible one when all before it convert. */
  lemma FirstUnreadableIs(raws: seq<int>, baseVoltage: real, i: nat)
    requires i < |raws| && !Readable(raws[i], baseVoltage)
    requires forall k :: 0 <= k < i ==> Readable(raws[k], baseVoltage)
    ensures FirstUnreadable(raws, baseVoltage) == i
    ensures SamplesRead(raws, baseVoltage) == i + 1
  {
  }
}
