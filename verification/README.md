# ESP32 energy monitor: sensor cycle and telemetry payload

A Dafny model of the data handler of an ESP32 energy and environment monitor
(`data.h`). It covers two parts:

- **The sampling cycle (`readSensors`).** The firmware reads the ZMPT101B
  voltage channel and the SCT013 current channel `SAMPLES` times each. It keeps
  a running sum, minimum and maximum, and derives a truncated mean and a
  peak-to-peak spread. The spread is scaled into volts or amperes by
  `(ptp / ADC_RESOLUTION) * ADC_REF_VOLTAGE * CAL / 2`, and the channel is
  marked active when the spread is strictly above its threshold. The cycle
  also reads the HC-SR501 PIR line and the DHT22 temperature and humidity.
  It then evaluates four alarm flags: a two-sided voltage band, a one-sided
  current limit, and temperature and humidity bands that a NaN reading never
  raises.
- **The telemetry document (`createPayload`).** This is a fixed-order `data`
  array of four sensor entries. Each entry has observations and a quality
  block (`status`, `calibrated`, `errors`, `notes`). The array sits beside the
  network and resource metadata.

Modules, leaf first:

- `Wrappers`: `Option`. A `float` that may be NaN is an `Option<real>`.
- `Config`: the build-time constants, as one `Config` value. The resolution
  constant is either an integer or a real (`Resolution`).
- `Arithmetic`: small non-linear arithmetic facts.
- `Sampling`: the sample loop (`ScanSamples`) and its functional counterpart
  `Stats`, with the mean and the spread.
- `Derivation`: scaling a spread into a magnitude, under both kinds of
  resolution constant.
- `Thresholds`: two-sided, one-sided and NaN-guarded alarm checks.
- `Snapshot`: `SensorData` and the whole cycle `ReadSensors`.
- `Payload`: the abstract document, `CreatePayload`, and a `Decode` that
  reads a document back.

Modelling choices:

- Hardware reads are inputs (`HardwareInputs`):
  - each ADC window is a `seq` of readings in [0, 4095];
  - the PIR line is its logic level;
  - each DHT22 value is an `Option<real>`.
- `float` arithmetic is exact `real` arithmetic.
- The configuration header is not part of this model, so the type of
  `ADC_RESOLUTION` is unknown. If it is an integer, data.h:254 and
  data.h:284 divide as integers. Both readings are modelled and proved
  non-negative and monotone. `Derivation.IntegerResolutionTruncates` and
  `Derivation.ResolutionKindsDiverge` show how far apart they are: with
  an integer resolution of 4095, only a full-scale swing scales to a
  non-zero value.

Behaviour of data.h worth stating plainly:

- The PIR input is one `digitalRead` compared with `PIR_ACTIVE_STATE`
  (data.h:300).
- `voltageOutOfRange` and `currentOverlimit` are computed whatever the
  channel's activity (data.h:261, data.h:291). A flat voltage window
  (every reading equal) reads 0 V and raises the voltage alarm whenever
  `VOLT_MIN` is positive (`Snapshot.FlatVoltageWindowRaisesAlarm`). Only
  the DHT22 flags are suppressed for missing data.
- The only error code in the document is `sensor_read_failed`, on the
  DHT22 entry (data.h:214-216).

## Model

| member | source | states |
|---|---|---|
| Sampling.ScanSamples | data.h:236-248 | After the loop, the sum is the sum of the readings and every reading lies between the tracked minimum and maximum. On a non-empty window, both extremes are actual readings. On an empty window, the start values 0, 4095 and 0 remain. |
| Sampling.Stats | data.h:236-248 | The loop state after any window has a sum in [0, n·4095] and both extremes in the ADC range. |
| Sampling.StatsSum | data.h:236-241 | The running sum equals an independently defined sum of the readings. |
| Sampling.StatsBounds | data.h:243-245 | Every reading of the window lies between the tracked minimum and maximum. |
| Sampling.StatsAttained | data.h:237-245 | On a non-empty window, the minimum and the maximum are each equal to some reading, so the start values 4095 and 0 never survive. |
| Sampling.MeanBetween | data.h:250 | The truncated mean `sum / SAMPLES` lies between the minimum and the maximum reading. |
| Sampling.PeakToPeakRange | data.h:253 | On a non-empty window, the peak-to-peak spread lies in [0, 4095]. |
| Sampling.SpreadExceeds | data.h:253-258 | The spread exceeds a threshold exactly when two readings of the window differ by more than that threshold. |
| Sampling.SumFitsLong | data.h:236-241 | When `SAMPLES * 4095` fits the ESP32's 32-bit `long`, the running sum stays in range after every sample. |
| Sampling.FullScaleWindowOverflows | data.h:236-241 | The bound is exact: a full-scale window one sample longer (524,417 readings of 4095) has a sum beyond the 32-bit `long`. |
| Derivation.Magnitude | data.h:254-255 | With a non-negative reference voltage and calibration, the scaled magnitude is non-negative. A zero spread gives zero. |
| Derivation.NormalizeMonotone | data.h:254 | With integer or real division by the resolution, a larger spread never gives a smaller normalised value. |
| Derivation.MagnitudeMonotone | data.h:254-255 | A larger spread never gives a smaller voltage or current, for either kind of resolution constant. |
| Derivation.IntegerResolutionTruncates | data.h:254 | With an integer resolution constant, every spread below the resolution scales to 0. |
| Derivation.ResolutionKindsDiverge | data.h:253-255 | A 3900-count swing at resolution 4095, 3.3 V and calibration 250 gives about 392.9 V with real division and 0 V with integer division. |
| Thresholds.GuardedOutsideBand | data.h:317-327 | A NaN reading never raises the flag. A real reading raises it exactly when it lies outside the closed band [low, high]. |
| Snapshot.AnalogChannel | data.h:236-258 | One channel's mean is the truncated average `sum / SAMPLES` of its readings, lies between two actual readings, and stays inside the ADC range. The channel is active exactly when two readings differ by more than the threshold, so a spread equal to the threshold is inactive. The magnitude is the scaled spread, is non-negative for non-negative scaling, and is 0 for a flat window whose mean is the flat value. |
| Snapshot.ReadSensors | data.h:230-330 | Covers the whole cycle. Each raw mean is the truncated average of its own window and lies between that window's minimum and maximum. Voltage and current are the scaled peak-to-peak spreads of their own windows. Activity of each analog channel follows the spread of its own readings. The voltage flag is raised exactly outside [VOLT_MIN, VOLT_MAX], regardless of activity. The current flag has only an upper bound. PIR motion is the level compared with the active state. DHT values pass through. Temperature and humidity flags are never raised for NaN and are otherwise raised exactly outside their bands. |
| Snapshot.MagnitudesMonotoneInSpread | data.h:253-255 | Between two cycles, a wider voltage swing never gives a lower voltage, and a wider current swing never gives a lower current. |
| Snapshot.FlatVoltageWindowRaisesAlarm | data.h:253-261 | A flat voltage window is inactive and reads 0 V. It still raises `voltageOutOfRange` whenever VOLT_MIN is positive. |
| Snapshot.EnvironmentalFlagsLocal | data.h:317-327 | The temperature flag depends only on the temperature reading, and the humidity flag only on the humidity reading. |
| Payload.HeapFreeKb | data.h:138 | `heap_free_kb` is the free heap in whole KiB, rounded down. |
| Payload.ZmptEntry | data.h:150-164 | The voltage entry's status is spelled "ok" exactly when the channel is active, else "inactive". Its error list is empty. |
| Payload.SctEntry | data.h:166-180 | The current entry's status is spelled "ok" exactly when the channel is active, else "inactive". Its error list is empty. |
| Payload.PirEntry | data.h:182-196 | The PIR entry's status is always spelled "ok", with no errors. |
| Payload.DhtEntry | data.h:198-217 | The DHT22 entry's status is "ok" when both temperature and humidity are real numbers, and "error" when either is NaN. Its error list is empty exactly when the status is "ok", and otherwise is exactly ["sensor_read_failed"]. |
| Payload.CreatePayload | data.h:91-222 | The `data` array holds exactly zmpt101b, sct013, hc-sr501 and dht22 in that order. Every quality block is calibrated and lists errors exactly when its status is "error". The analog statuses follow the activity flags. The DHT22 status is "ok" when both values are real and "error" otherwise. `heap_free_kb` is the free heap rounded down to KiB. Uptime and network fields pass through. |
| Payload.PayloadRoundTrip | data.h:148-217 | Decoding the document by sensor name and observation key recovers voltage, current, both activity flags, PIR motion, and both DHT22 values including NaN. |
| Payload.SchemaFixed | data.h:148-217 | Any two inputs give documents with the same entries, categories, interfaces, unit systems, observation keys, calibration marks and notes. |
| Payload.QualityIgnoresValues | data.h:160-216 | Quality blocks depend only on the activity flags and on which DHT22 values are NaN, not on the measured values. |

## Left out

- Display and serial debug output (`display.h`): output formatting over
  library calls, with no logic.
- Configuration constants: these are fields of `Config`. WiFi and API
  credentials are not modelled.
- Hardware and library calls are inputs rather than calls: `analogRead`,
  `digitalRead`, `dht.readTemperature`, `dht.readHumidity`. `delay`,
  `pinMode` and `dht.begin` are not modelled.
- The one-time `dhtInitialized` guard (data.h:305-309) is library
  initialisation state and is not modelled.
- Writing the PIR result to the LED pin (data.h:301) is an output side
  effect and is not modelled.
- `getSystemData`, `getWiFiData` and `readPirRealtime` are pure hardware
  queries or side effects. Their results are inputs (`SystemData`,
  `WiFiData`).
- JSON serialization (`serializeJson`) is not modelled: no byte-level
  output and no float formatting. The document is an abstract tree, and a
  NaN observation is the value `NotANumber`.
- Hard-coded metadata literals are not modelled: version, ts, seq, tenant,
  device type, fw and name, location, tags, power, cpu_pct, fs_used_pct,
  flash_free_kb, temp_c, agg and `network.conn`.
- `device.id` (data.h:102) is not modelled. It is the configuration constant
  `DEVICE_ID`, not a value computed by the handler.
- `network.snr_db` (data.h:123) is not modelled. It is always null.
- Allocation failure while ArduinoJson builds the document is not modelled.
  The abstract document is always built in full.
- `mem_pct` (data.h:136) is left out. It is float arithmetic and divides
  by `totalHeap` without a guard.
- Floating-point rounding is not modelled: voltages, currents and bounds
  are exact reals.
- Snapshot.ReadSensors requires at least one sample per window. With
  `SAMPLES` equal to 0, data.h:250 would divide by zero, a configuration
  error.
- Snapshot.ReadSensors covers only windows of at most 524,416 samples
  (`SAMPLES * 4095` within 2^31 - 1). On the ESP32 `long` is 32 bits, so a
  longer window can overflow the running sum at data.h:241 and data.h:271,
  which is undefined behaviour in C; `Sampling.FullScaleWindowOverflows`
  exhibits such a window.
- Snapshot.ReadSensors requires a positive resolution constant. A zero or
  negative `ADC_RESOLUTION` is a configuration error: zero divides by zero,
  and a negative value would make every magnitude non-positive.
- The activity thresholds `ZMPT_THRESHOLD` and `SCT_THRESHOLD` are modelled
  as integers. They are compared with an integer spread.
