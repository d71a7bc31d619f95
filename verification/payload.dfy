/** The telemetry document built by `createPayload`, as an abstract tree
    rather than JSON text: network and resource metadata plus the `data`
    array of per-sensor entries, each with its observations and a quality
    block. The document is rebuilt from nothing on every call, so it is a
    function of the arguments alone. */
module Payload {
  import opened Wrappers
  import opened Snapshot

  type uint32 = x: int | 0 <= x < 0x1_0000_0000

  /** The firmware's `SystemData` (only `uptime` and `freeHeap` reach the payload). */
  datatype SystemData = SystemData(uptime: uint32, freeHeap: uint32, totalHeap: uint32, cpuFreq: int)

  /** The firmware's `WiFiData` (`status` does not reach the payload). */
  datatype WiFiData = WiFiData(ip: string, mac: string, rssi: int, status: string)

  /** An observation value: a number, a NaN float, or a boolean. */
  datatype ObsValue = Number(x: real) | NotANumber | Flag(b: bool)

  /** A quality status; `Text` is its spelling in the document. */
  datatype Status = Ok | Inactive | Error {
    function Text(): string {
      match this
      case Ok => "ok"
      case Inactive => "inactive"
      case Error => "error"
    }
  }

  datatype Quality = Quality(status: Status, calibrated: bool, errors: seq<string>, notes: string)

  datatype SensorEntry = SensorEntry(
    sensor: string,
    category: string,
    iface: string,
    unitSystem: string,
    observations: seq<(string, ObsValue)>,
    quality: Quality)

  datatype Network = Network(ip: string, rssiDbm: int, mac: string)

  datatype Resources = Resources(uptimeS: nat, heapFreeKb: nat)

  datatype Document = Document(network: Network, resources: Resources, data: seq<SensorEntry>)

  /** Sensor names, and the order of the `data` array. */
  const ZmptName: string := "zmpt101b"
  const SctName: string := "sct013"
  const PirName: string := "hc-sr501"
  const DhtName: string := "dht22"
  const SensorOrder: seq<string> := [ZmptName, SctName, PirName, DhtName]

  /** Free-text `notes` of each entry. */
  const ZmptNotes: string := "AC voltage sensor ZMPT101B for electrical monitoring."
  const SctNotes: string := "AC current sensor SCT013 for electrical load monitoring."
  const PirNotes: string := "PIR motion sensor HC-SR501 for presence detection."
  const DhtNotes: string := "DHT22 sensor for room temperature and humidity monitoring."

  const SensorReadFailed: string := "sensor_read_failed"

  /** Sensor names of the entries, in array order. */
  function Names(data: seq<SensorEntry>): seq<string> {
    seq(|data|, k requires 0 <= k < |data| => data[k].sensor)
  }

  /** A quality block is well formed when it is marked calibrated and lists
      errors exactly when its status is "error". */
  predicate WellFormedQuality(q: Quality) {
    q.calibrated && (q.status == Error <==> q.errors != [])
  }

  function FloatObs(x: Option<real>): ObsValue {
    match x
    case None => NotANumber
    case Some(v) => Number(v)
  }

  /** Quality of an analog channel: "ok" when active, "inactive" otherwise. */
  function ActivityQuality(active: bool, notes: string): Quality {
    Quality(if active then Ok else Inactive, true, [], notes)
  }

  /** Quality of the DHT22: "error" with one error code when either value is NaN. */
  function DhtQuality(t: Option<real>, h: Option<real>, notes: string): Quality {
    var valid := t.Some? && h.Some?;
    Quality(if valid then Ok else Error, true, if valid then [] else [SensorReadFailed], notes)
  }

  /** `heap_free_kb`: the free heap in whole kibibytes, rounded down. */
  function HeapFreeKb(freeHeap: uint32): (kb: nat)
    ensures kb * 1024 <= freeHeap < (kb + 1) * 1024
  {
    freeHeap / 1024
  }

  /** The `zmpt101b` entry. */
  function ZmptEntry(sensor: SensorData): (e: SensorEntry)
    ensures WellFormedQuality(e.quality) && e.quality.errors == []
    ensures e.quality.status == Ok <==> sensor.zmptActive
    ensures e.quality.status.Text() == (if sensor.zmptActive then "ok" else "inactive")
  {
    SensorEntry(ZmptName, "power", "analog", "SI",
      [("voltage_v", Number(sensor.voltage))],
      ActivityQuality(sensor.zmptActive, ZmptNotes))
  }

  /** The `sct013` entry. */
  function SctEntry(sensor: SensorData): (e: SensorEntry)
    ensures WellFormedQuality(e.quality) && e.quality.errors == []
    ensures e.quality.status == Ok <==> sensor.sctActive
    ensures e.quality.status.Text() == (if sensor.sctActive then "ok" else "inactive")
  {
    SensorEntry(SctName, "power", "analog", "SI",
      [("current_a", Number(sensor.current))],
      ActivityQuality(sensor.sctActive, SctNotes))
  }

  /** The `hc-sr501` entry: its status is always "ok". */
  function PirEntry(sensor: SensorData): (e: SensorEntry)
    ensures WellFormedQuality(e.quality) && e.quality.errors == []
    ensures e.quality.status == Ok && e.quality.status.Text() == "ok"
  {
    SensorEntry(PirName, "motion", "digital", "SI",
      [("motion_detected", Flag(sensor.pirMotion))],
      Quality(Ok, true, [], PirNotes))
  }

  /** The `dht22` entry: "error" with the single code `sensor_read_failed`
      exactly when the temperature or the humidity is NaN. */
  function DhtEntry(sensor: SensorData): (e: SensorEntry)
    ensures WellFormedQuality(e.quality)
    ensures e.quality.status == (if sensor.dhtTemperature.Some? && sensor.dhtHumidity.Some? then Ok else Error)
    ensures e.quality.status.Text() == (if sensor.dhtTemperature.Some? && sensor.dhtHumidity.Some? then "ok" else "error")
    ensures e.quality.errors != [] ==> e.quality.errors == [SensorReadFailed]
  {
    SensorEntry(DhtName, "env", "digital", "SI",
      [("temperature_c", FloatObs(sensor.dhtTemperature)), ("humidity_pct", FloatObs(sensor.dhtHumidity))],
      DhtQuality(sensor.dhtTemperature, sensor.dhtHumidity, DhtNotes))
  }

  function CreatePayload(sensor: SensorData, system: SystemData, wifi: WiFiData): (doc: Document)
    ensures |doc.data| == 4 && Names(doc.data) == SensorOrder
    ensures forall k :: 0 <= k < |doc.data| ==> WellFormedQuality(doc.data[k].quality)
    ensures doc.data[0].quality.status == Ok <==> sensor.zmptActive
    ensures doc.data[1].quality.status == Ok <==> sensor.sctActive
    ensures doc.data[2].quality.status == Ok
    ensures doc.data[3].quality.status == (if sensor.dhtTemperature.Some? && sensor.dhtHumidity.Some? then Ok else Error)
    ensures forall k :: 0 <= k < 3 ==> doc.data[k].quality.errors == []
    ensures doc.data[3].quality.errors != [] ==> doc.data[3].quality.errors == [SensorReadFailed]
    ensures doc.resources.heapFreeKb * 1024 <= system.freeHeap < (doc.resources.heapFreeKb + 1) * 1024
    ensures doc.resources.uptimeS == system.uptime
    ensures doc.network == Network(wifi.ip, wifi.rssi, wifi.mac)
  {
    var data := [ZmptEntry(sensor), SctEntry(sensor), PirEntry(sensor), DhtEntry(sensor)];
    assert Names(data) == SensorOrder by {
      assert Names(data)[0] == SensorOrder[0] && Names(data)[1] == SensorOrder[1];
      assert Names(data)[2] == SensorOrder[2] && Names(data)[3] == SensorOrder[3];
    }
    assert forall k :: 0 <= k < |data| ==> WellFormedQuality(data[k].quality) by {
      assert WellFormedQuality(data[0].quality) && WellFormedQuality(data[1].quality);
      assert WellFormedQuality(data[2].quality) && WellFormedQuality(data[3].quality);
    }
    assert forall k :: 0 <= k < 3 ==> data[k].quality.errors == [];
    Document(
      Network(wifi.ip, wifi.rssi, wifi.mac),
      Resources(system.uptime, HeapFreeKb(system.freeHeap)),
      data)
  }

  // ---------------------------------------------------------------------------
  // Reading a document back
  // ---------------------------------------------------------------------------

  /** The snapshot fields a document carries. */
  datatype Reported = Reported(
    voltage: real,
    current: real,
    zmptActive: bool,
    sctActive: bool,
    pirMotion: bool,
    temperature: Option<real>,
    humidity: Option<real>)

  function ReportedOf(s: SensorData): Reported {
    Reported(s.voltage, s.current, s.zmptActive, s.sctActive, s.pirMotion, s.dhtTemperature, s.dhtHumidity)
  }

  /** The first entry with the given sensor name. */
  function Find(data: seq<SensorEntry>, name: string): Option<SensorEntry> {
    if |data| == 0 then None
    else if data[0].sensor == name then Some(data[0])
    else Find(data[1..], name)
  }

  /** The first observation with the given key. */
  function Lookup(obs: seq<(string, ObsValue)>, key: string): Option<ObsValue> {
    if |obs| == 0 then None
    else if obs[0].0 == key then Some(obs[0].1)
    else Lookup(obs[1..], key)
  }

  function NumberAt(e: SensorEntry, key: string): Option<real> {
    match Lookup(e.observations, key)
    case Some(Number(x)) => Some(x)
    case _ => None
  }

  function FlagAt(e: SensorEntry, key: string): Option<bool> {
    match Lookup(e.observations, key)
    case Some(Flag(b)) => Some(b)
    case _ => None
  }

  /** A float observation that may be NaN: `Some(None)` for NaN. */
  function FloatAt(e: SensorEntry, key: string): Option<Option<real>> {
    match Lookup(e.observations, key)
    case Some(Number(x)) => Some(Some(x))
    case Some(NotANumber) => Some(None)
    case _ => None
  }

  /** Recovers the reported snapshot fields from a document, looking entries
      up by sensor name and observations by key; `None` when the document
      lacks an entry or observation. */
  function Decode(doc: Document): Option<Reported> {
    var zmpt :- Find(doc.data, ZmptName);
    var sct :- Find(doc.data, SctName);
    var pir :- Find(doc.data, PirName);
    var dht :- Find(doc.data, DhtName);
    var voltage :- NumberAt(zmpt, "voltage_v");
    var current :- NumberAt(sct, "current_a");
    var motion :- FlagAt(pir, "motion_detected");
    var temperature :- FloatAt(dht, "temperature_c");
    var humidity :- FloatAt(dht, "humidity_pct");
    Some(Reported(voltage, current, zmpt.quality.status == Ok, sct.quality.status == Ok,
                  motion, temperature, humidity))
  }

  /** `Find` returns the entry at `k` when it is the first with that name. */
  lemma {:induction false} FindFirst(data: seq<SensorEntry>, k: nat, name: string)
    requires k < |data| && data[k].sensor == name
    requires forall j :: 0 <= j < k ==> data[j].sensor != name
    ensures Find(data, name) == Some(data[k])
    decreases k
  {
    if k > 0 {
      FindFirst(data[1..], k - 1, name);
    }
  }

  /** Every snapshot field the document carries can be read back from it,
      including which channels were active and which DHT22 values were NaN. */
  lemma PayloadRoundTrip(sensor: SensorData, system: SystemData, wifi: WiFiData)
    ensures Decode(CreatePayload(sensor, system, wifi)) == Some(ReportedOf(sensor))
  {
    var data := CreatePayload(sensor, system, wifi).data;
    assert ZmptName[0] == 'z' && SctName[0] == 's' && PirName[0] == 'h' && DhtName[0] == 'd';
    FindFirst(data, 0, ZmptName);
    FindFirst(data, 1, SctName);
    FindFirst(data, 2, PirName);
    FindFirst(data, 3, DhtName);
    assert "temperature_c"[0] != "humidity_pct"[0];
    assert Find(data, ZmptName) == Some(data[0]);
    assert Find(data, DhtName) == Some(data[3]);
    assert NumberAt(data[0], "voltage_v") == Some(sensor.voltage);
    assert NumberAt(data[1], "current_a") == Some(sensor.current);
    assert FlagAt(data[2], "motion_detected") == Some(sensor.pirMotion);
    assert FloatAt(data[3], "temperature_c") == Some(sensor.dhtTemperature);
    var dhtObs := data[3].observations;
    assert Lookup(dhtObs, "humidity_pct") == Lookup(dhtObs[1..], "humidity_pct");
    assert dhtObs[1..] == [("humidity_pct", FloatObs(sensor.dhtHumidity))];
    assert FloatAt(data[3], "humidity_pct") == Some(sensor.dhtHumidity);
  }

  /** The observation keys of an entry, in order. */
  function Keys(obs: seq<(string, ObsValue)>): seq<string> {
    seq(|obs|, j requires 0 <= j < |obs| => obs[j].0)
  }

  /** What an entry's shape consists of: everything but the observation
      values and the quality status and errors. */
  function EntryShape(e: SensorEntry): (string, string, string, string, seq<string>, bool, string) {
    (e.sensor, e.category, e.iface, e.unitSystem, Keys(e.observations), e.quality.calibrated, e.quality.notes)
  }

  function Shape(doc: Document): seq<(string, string, string, string, seq<string>, bool, string)> {
    seq(|doc.data|, k requires 0 <= k < |doc.data| => EntryShape(doc.data[k]))
  }

  /** The schema does not drift: every snapshot gives a document of the
      same shape. */
  lemma SchemaFixed(s1: SensorData, s2: SensorData, sys1: SystemData, sys2: SystemData,
                    w1: WiFiData, w2: WiFiData)
    ensures Shape(CreatePayload(s1, sys1, w1)) == Shape(CreatePayload(s2, sys2, w2))
  {
    var d1, d2 := CreatePayload(s1, sys1, w1).data, CreatePayload(s2, sys2, w2).data;
    forall k | 0 <= k < 4
      ensures EntryShape(d1[k]) == EntryShape(d2[k])
    {
      assert Keys(d1[k].observations) == Keys(d2[k].observations);
    }
  }

  /** Quality blocks depend only on the activity flags and on which DHT22
      values are NaN, never on the measured values themselves. */
  lemma QualityIgnoresValues(s1: SensorData, s2: SensorData, sys1: SystemData, sys2: SystemData,
                             w1: WiFiData, w2: WiFiData)
    requires s1.zmptActive == s2.zmptActive && s1.sctActive == s2.sctActive
    requires s1.dhtTemperature.None? == s2.dhtTemperature.None?
    requires s1.dhtHumidity.None? == s2.dhtHumidity.None?
    ensures forall k :: 0 <= k < 4 ==>
              CreatePayload(s1, sys1, w1).data[k].quality == CreatePayload(s2, sys2, w2).data[k].quality
  {
  }
}
