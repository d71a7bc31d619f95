/** One sampling cycle (`readSensors`): both analog channels are reduced and
    scaled, the PIR line and the DHT22 are read, and the four alarm flags are
    evaluated, giving one `SensorData` snapshot.

    Hardware reads are inputs: the ADC windows as sequences of readings, the
    PIR line as its logic level, and the DHT22 values as optional reals. */
module Snapshot {
  import opened Wrappers
  import opened Config
  import opened Sampling
  import opened Derivation
  import opened Thresholds

  /** Everything the cycle reads from the hardware. */
  datatype HardwareInputs = HardwareInputs(
    zmptSamples: seq<AdcReading>,   // SAMPLES reads of the voltage pin
    sctSamples: seq<AdcReading>,    // SAMPLES reads of the current pin
    pirLevel: bool,                 // one digitalRead of the PIR pin (HIGH = true)
    temperature: Option<real>,      // dht.readTemperature(), None for NaN
    humidity: Option<real>          // dht.readHumidity(), None for NaN
  ) {

    /** Both windows hold the same `SAMPLES` count: at least one, and few
        enough that a full-scale window's sum fits the 32-bit `long`. */
    predicate WellSampled() {
      1 <= |zmptSamples| && |zmptSamples| * ADC_MAX <= LONG_MAX && |sctSamples| == |zmptSamples|
    }
  }

  /** The firmware's `SensorData` record. */
  datatype SensorData = SensorData(
    zmptRaw: int,
    voltage: real,
    zmptActive: bool,
    sctRaw: int,
    current: real,
    sctActive: bool,
    pirMotion: bool,
    dhtTemperature: Option<real>,
    dhtHumidity: Option<real>,
    voltageOutOfRange: bool,
    currentOverlimit: bool,
    tempOutOfRange: bool,
    humOutOfRange: bool
  )

  /** What one analog channel contributes: truncated mean, magnitude, activity. */
  datatype ChannelReading = ChannelReading(raw: int, magnitude: real, active: bool)

  /** Reduction of one analog window. The mean is the truncated average of
      the readings and lies between two of them. The channel is active
      exactly when two readings differ by more than the threshold. The
      magnitude is the scaled peak-to-peak spread. */
  function AnalogChannel(s: seq<AdcReading>, res: Resolution, ref: real, cal: real, threshold: int)
    : (c: ChannelReading)
    requires 1 <= |s| && |s| * ADC_MAX <= LONG_MAX && res.Valid()
    ensures exists i :: 0 <= i < |s| && s[i] <= c.raw
    ensures exists j :: 0 <= j < |s| && c.raw <= s[j]
    ensures 0 <= c.raw <= ADC_MAX
    ensures c.active <==> exists i, j :: 0 <= i < |s| && 0 <= j < |s| && s[i] - s[j] > threshold
    ensures 0 <= PeakToPeak(s) <= ADC_MAX && c.magnitude == Magnitude(PeakToPeak(s), res, ref, cal)
    ensures ref >= 0.0 && cal >= 0.0 ==> c.magnitude >= 0.0
    ensures (forall i :: 0 <= i < |s| ==> s[i] == s[0]) ==> c.raw == s[0] && c.magnitude == 0.0
    ensures c.raw == Sum(s) / |s|
  {
    StatsSum(s);
    StatsBounds(s);
    StatsAttained(s);
    MeanBetween(s);
    PeakToPeakRange(s);
    SpreadExceeds(s, threshold);
    var ptp := PeakToPeak(s);
    ChannelReading(Mean(s), Magnitude(ptp, res, ref, cal), ptp > threshold)
  }

  /** The whole cycle. */
  function ReadSensors(cfg: Config, hw: HardwareInputs): (d: SensorData)
    requires cfg.Valid() && hw.WellSampled()
    ensures d.zmptRaw == Sum(hw.zmptSamples) / |hw.zmptSamples|
    ensures Stats(hw.zmptSamples).min <= d.zmptRaw <= Stats(hw.zmptSamples).max
    ensures d.sctRaw == Sum(hw.sctSamples) / |hw.sctSamples|
    ensures Stats(hw.sctSamples).min <= d.sctRaw <= Stats(hw.sctSamples).max
    ensures 0 <= PeakToPeak(hw.zmptSamples) <= ADC_MAX
    ensures d.voltage == Magnitude(PeakToPeak(hw.zmptSamples), cfg.resolution, cfg.adcRefVoltage, cfg.voltageCalibration)
    ensures 0 <= PeakToPeak(hw.sctSamples) <= ADC_MAX
    ensures d.current == Magnitude(PeakToPeak(hw.sctSamples), cfg.resolution, cfg.adcRefVoltage, cfg.currentCalibration)
    ensures d.zmptActive <==> exists i, j :: 0 <= i < |hw.zmptSamples| && 0 <= j < |hw.zmptSamples|
                                            && hw.zmptSamples[i] - hw.zmptSamples[j] > cfg.zmptThreshold
    ensures d.sctActive <==> exists i, j :: 0 <= i < |hw.sctSamples| && 0 <= j < |hw.sctSamples|
                                           && hw.sctSamples[i] - hw.sctSamples[j] > cfg.sctThreshold
    ensures d.voltageOutOfRange <==> !(cfg.voltMin <= d.voltage <= cfg.voltMax)
    ensures d.current <= cfg.currentMax ==> !d.currentOverlimit
    ensures d.current > cfg.currentMax ==> d.currentOverlimit
    ensures cfg.NonNegativeScaling() ==> d.voltage >= 0.0 && d.current >= 0.0
    ensures d.pirMotion <==> hw.pirLevel == cfg.pirActiveState
    ensures d.dhtTemperature == hw.temperature && d.dhtHumidity == hw.humidity
    ensures d.tempOutOfRange ==> hw.temperature.Some?
    ensures d.humOutOfRange ==> hw.humidity.Some?
    ensures hw.temperature.Some? ==> (d.tempOutOfRange <==> !(cfg.tempLow <= hw.temperature.value <= cfg.tempHigh))
    ensures hw.humidity.Some? ==> (d.humOutOfRange <==> !(cfg.humLow <= hw.humidity.value <= cfg.humHigh))
  {
    MeanBetween(hw.zmptSamples);
    MeanBetween(hw.sctSamples);
    var zmpt := AnalogChannel(hw.zmptSamples, cfg.resolution, cfg.adcRefVoltage, cfg.voltageCalibration, cfg.zmptThreshold);
    var sct := AnalogChannel(hw.sctSamples, cfg.resolution, cfg.adcRefVoltage, cfg.currentCalibration, cfg.sctThreshold);
    SensorData(
      zmptRaw := zmpt.raw,
      voltage := zmpt.magnitude,
      zmptActive := zmpt.active,
      sctRaw := sct.raw,
      current := sct.magnitude,
      sctActive := sct.active,
      pirMotion := hw.pirLevel == cfg.pirActiveState,
      dhtTemperature := hw.temperature,
      dhtHumidity := hw.humidity,
      voltageOutOfRange := OutsideBand(zmpt.magnitude, cfg.voltMin, cfg.voltMax),
      currentOverlimit := OverLimit(sct.magnitude, cfg.currentMax),
      tempOutOfRange := GuardedOutsideBand(hw.temperature, cfg.tempLow, cfg.tempHigh),
      humOutOfRange := GuardedOutsideBand(hw.humidity, cfg.humLow, cfg.humHigh))
  }

  /** A wider voltage swing never gives a lower voltage (and likewise for
      current): the derived magnitudes are monotone in peak-to-peak. */
  lemma MagnitudesMonotoneInSpread(cfg: Config, hw1: HardwareInputs, hw2: HardwareInputs)
    requires cfg.Valid() && cfg.NonNegativeScaling() && hw1.WellSampled() && hw2.WellSampled()
    ensures (PeakToPeak(hw1.zmptSamples) <= PeakToPeak(hw2.zmptSamples)) ==>
              (ReadSensors(cfg, hw1).voltage <= ReadSensors(cfg, hw2).voltage)
    ensures (PeakToPeak(hw1.sctSamples) <= PeakToPeak(hw2.sctSamples)) ==>
              (ReadSensors(cfg, hw1).current <= ReadSensors(cfg, hw2).current)
  {
    PeakToPeakRange(hw1.zmptSamples);
    PeakToPeakRange(hw2.zmptSamples);
    PeakToPeakRange(hw1.sctSamples);
    PeakToPeakRange(hw2.sctSamples);
    if PeakToPeak(hw1.zmptSamples) <= PeakToPeak(hw2.zmptSamples) {
      MagnitudeMonotone(PeakToPeak(hw1.zmptSamples), PeakToPeak(hw2.zmptSamples),
                        cfg.resolution, cfg.adcRefVoltage, cfg.voltageCalibration);
    }
    if PeakToPeak(hw1.sctSamples) <= PeakToPeak(hw2.sctSamples) {
      MagnitudeMonotone(PeakToPeak(hw1.sctSamples), PeakToPeak(hw2.sctSamples),
                        cfg.resolution, cfg.adcRefVoltage, cfg.currentCalibration);
    }
  }

  /** The voltage flag does not look at the activity flag: a flat voltage
      window (no AC signal, so the channel is inactive) derives 0 V, which
      raises `voltageOutOfRange` whenever `VOLT_MIN` is positive. */
  lemma FlatVoltageWindowRaisesAlarm(cfg: Config, hw: HardwareInputs)
    requires cfg.Valid() && hw.WellSampled()
    requires cfg.zmptThreshold >= 0 && cfg.voltMin > 0.0
    requires forall i :: 0 <= i < |hw.zmptSamples| ==> hw.zmptSamples[i] == hw.zmptSamples[0]
    ensures !ReadSensors(cfg, hw).zmptActive
    ensures ReadSensors(cfg, hw).voltage == 0.0
    ensures ReadSensors(cfg, hw).voltageOutOfRange
  {
  }

  /** Each environmental flag depends on its own reading and the
      configuration only: changing anything else leaves it unchanged. */
  lemma EnvironmentalFlagsLocal(cfg: Config, hw1: HardwareInputs, hw2: HardwareInputs)
    requires cfg.Valid() && hw1.WellSampled() && hw2.WellSampled()
    ensures (hw1.temperature == hw2.temperature) ==>
              (ReadSensors(cfg, hw1).tempOutOfRange == ReadSensors(cfg, hw2).tempOutOfRange)
    ensures (hw1.humidity == hw2.humidity) ==>
              (ReadSensors(cfg, hw1).humOutOfRange == ReadSensors(cfg, hw2).humOutOfRange)
  {
  }
}
