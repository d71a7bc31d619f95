/** Build-time configuration of the energy monitor.

    The firmware takes its constants from `#define`s in a configuration header
    that is not part of this model; here they are fields of one `Config` value
    passed to every operation. */
module Config {

  /** Largest value the 12-bit ADC returns; also the running minimum's start value. */
  const ADC_MAX: int := 4095

  /** Largest value of a `long`, the running sum's type. The ESP32's
      compiler makes `long` 32 bits wide, so this is 2^31 - 1. */
  const LONG_MAX: int := 0x7FFF_FFFF

  /** `ADC_RESOLUTION` may be an integer or a floating-point constant. With an
      integer constant, `peakToPeak / ADC_RESOLUTION` is integer division;
      with a floating-point one it is real division. Both are modelled. */
  datatype Resolution = IntegerResolution(n: int) | RealResolution(r: real) {

    /** A zero resolution would divide by zero: a configuration error. */
    predicate Valid() {
      match this
      case IntegerResolution(n) => n > 0
      case RealResolution(r) => r > 0.0
    }
  }

  datatype Config = Config(
    resolution: Resolution,      // ADC_RESOLUTION
    adcRefVoltage: real,         // ADC_REF_VOLTAGE
    voltageCalibration: real,    // VOLTAGE_CALIBRATION
    currentCalibration: real,    // CURRENT_CALIBRATION
    zmptThreshold: int,          // ZMPT_THRESHOLD, compared with a peak-to-peak count
    sctThreshold: int,           // SCT_THRESHOLD
    voltMin: real,               // VOLT_MIN
    voltMax: real,               // VOLT_MAX
    currentMax: real,            // CURRENT_MAX
    tempLow: real,               // TEMP_LOW
    tempHigh: real,              // TEMP_HIGH
    humLow: real,                // HUM_LOW
    humHigh: real,               // HUM_HIGH
    pirActiveState: bool         // PIR_ACTIVE_STATE (HIGH = true)
  ) {

    predicate Valid() {
      resolution.Valid()
    }

    /** Reference voltage and both calibration factors are non-negative. */
    predicate NonNegativeScaling() {
      adcRefVoltage >= 0.0 && voltageCalibration >= 0.0 && currentCalibration >= 0.0
    }
  }
}
