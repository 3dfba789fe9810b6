/** The record every stage passes on, and the names derived from it. */
module Sense {
  import opened Bytes
  import opened Text

  const SENSORS_LIMIT_MAX: nat := 128
  const SENSOR_NAME_SIZE: nat := 13
  const SENSOR_INACTIVE_SECS_MAX: nat := 30

  // `Unsupported` stands for every value that is not one of the four sensor codes, including the
  // zero of a zero-initialised record.
  datatype SensorType = TempPress | PowCurrVolt | Torque | Proximity | Unsupported

  datatype SensorState = FrameDefault | Offline | Online

  datatype FrameKind = Heartbeat | Data

  // The 12-byte union, seen through its largest member. The other members overlay it:
  // (w0, unsigned w1) is TempPress, w0 is Torque, unsigned w0 is Proximity.
  datatype SensorData = SensorData(w0: int32, w1: int32, w2: int32)

  datatype Timespec = Timespec(sec: int, nsec: int)

  datatype Sensor = Sensor(
    data: SensorData, timestamp: Timespec, lastSeen: Timespec, id: uint16, name: string,
    stype: SensorType, state: SensorState, kind: FrameKind)

  datatype Key = Key(id: uint16, stype: SensorType)

  function KeyOf(s: Sensor): Key {
    Key(s.id, s.stype)
  }

  function Nanos(t: Timespec): int {
    t.sec * 1_000_000_000 + t.nsec
  }

  // ---- local time ----

  // The local-time text of an instant, as "%Y-%m-%d %H:%M:%S" formats it, or none where that fails.
  type Zone = Timespec -> Option<string>

  predicate NoColonBlank(s: string) {
    forall i :: 0 <= i < |s| - 1 ==> !(s[i] == ':' && s[i + 1] == ' ')
  }

  predicate IsTimeText(s: string) {
    s != "" && |s| < 50 && Clean(s) && '>' !in s && NoColonBlank(s)
  }

  // What a 50-byte buffer holds after the attempt: a text, or nothing.
  predicate IsStampText(s: string) {
    s == "" || IsTimeText(s)
  }

  const EPOCH := Timespec(0, 0)

  // Every text has that form, and at least the epoch has one.
  ghost predicate ValidZone(zone: Zone) {
    zone(EPOCH).Some? && forall t :: zone(t).Some? ==> IsTimeText(zone(t).value)
  }

  // What getTime leaves in its buffer.
  function TimeText(zone: Zone, t: Timespec): string {
    if zone(t).Some? then zone(t).value else ""
  }

  // ---- types and names ----

  function TypeCode(t: SensorType): (code: byte)
    requires t != Unsupported
    ensures FindSensorType(code) == t
  {
    match t
    case TempPress => 0x1B
    case PowCurrVolt => 0x2B
    case Torque => 0x4B
    case Proximity => 0x8B
  }

  function FindSensorType(code: byte): (t: SensorType)
    ensures t != Unsupported <==> code in {0x1B, 0x2B, 0x4B, 0x8B}
  {
    if code == 0x1B then TempPress
    else if code == 0x2B then PowCurrVolt
    else if code == 0x4B then Torque
    else if code == 0x8B then Proximity
    else Unsupported
  }

  lemma CodeOfFoundType(code: byte)
    requires FindSensorType(code) != Unsupported
    ensures TypeCode(FindSensorType(code)) == code
  {
  }

  // What snprintf leaves in a buffer of `size` bytes.
  function Truncated(text: string, size: nat): string
    requires size > 0
  {
    if |text| < size then text else text[..size - 1]
  }

  function NameBase(t: SensorType): string
    requires t != Unsupported
  {
    match t
    case TempPress => "TPS"
    case PowCurrVolt => "PCVS"
    case Torque => "TORQS"
    case Proximity => "PROXS"
  }

  function FullName(id: uint16, t: SensorType): string
    requires t != Unsupported
  {
    NameBase(t) + ("_0X" + Digits(id, 16))
  }

  function NameSensor(id: uint16, t: SensorType): string {
    if t == Unsupported then "" else Truncated(FullName(id, t), SENSOR_NAME_SIZE)
  }

  const LOG_DIRECTORY: string := "/var/sensorlog/"
  const LOG_EXTENSION: string := ".csv"
  const FILENAME_SIZE: nat := 64

  function LogPath(name: string): string {
    Truncated(LOG_DIRECTORY + name + LOG_EXTENSION, FILENAME_SIZE)
  }

  lemma HexLength(id: uint16)
    ensures 1 <= |Digits(id, 16)| <= 4
  {
    assert Power(16, 2) == 256;
    assert Power(16, 4) == 0x1_0000;
    DigitsLength(id, 16, 4);
    DigitsRoundTrip(id, 16);
  }

  /** Every name fits its 13-byte buffer whole, and the bound is reached: the widest names leave
      room for the terminator and nothing else. Paths fit their 64 bytes too. */
  lemma NameFits(id: uint16, t: SensorType)
    requires t != Unsupported
    ensures NameSensor(id, t) == FullName(id, t)
    ensures |FullName(id, t)| + 1 <= SENSOR_NAME_SIZE
    ensures |FullName(0xFFFF, Torque)| + 1 == SENSOR_NAME_SIZE
    ensures LogPath(NameSensor(id, t)) == "/var/sensorlog/" + NameSensor(id, t) + ".csv"
  {
    HexLength(id);
    assert Digits(0xFFFF, 16) == Digits(0xFFF, 16) + ['f'];
    assert Digits(0xFFF, 16) == Digits(0xFF, 16) + ['f'];
    assert |Digits(0xFF, 16)| == 2;
  }

  /** Names, and therefore log paths, identify the sensor. */
  lemma NamesInjective(id: uint16, t: SensorType, id': uint16, t': SensorType)
    requires t != Unsupported && t' != Unsupported
    ensures NameSensor(id, t) == NameSensor(id', t') <==> id == id' && t == t'
    ensures LogPath(NameSensor(id, t)) == LogPath(NameSensor(id', t')) <==> id == id' && t == t'
  {
    NameFits(id, t);
    NameFits(id', t');
    if FullName(id, t) == FullName(id', t') {
      FullNameInjective(id, t, id', t');
    }
    var p, p' := LogPath(NameSensor(id, t)), LogPath(NameSensor(id', t'));
    if p == p' {
      var k := |LOG_DIRECTORY|;
      assert p[k..|p| - 4] == NameSensor(id, t);
      assert p'[k..|p'| - 4] == NameSensor(id', t');
    }
  }

  lemma BasesDiffer(t: SensorType, t': SensorType)
    requires t != Unsupported && t' != Unsupported
    requires NameBase(t)[0] == NameBase(t')[0] && NameBase(t)[1] == NameBase(t')[1]
    ensures t == t'
  {
  }

  // The first two characters of a name are those of its base.
  lemma NameStart(base: string, rest: string)
    requires |base| >= 3
    ensures (base + rest)[0] == base[0] && (base + rest)[1] == base[1]
  {
  }

  lemma SuffixOf(base: string, digits: string)
    ensures (base + ("_0X" + digits))[|base| + 3..] == digits
  {
  }

  lemma SameBase(id: uint16, t: SensorType, id': uint16, t': SensorType)
    requires t != Unsupported && t' != Unsupported
    requires FullName(id, t) == FullName(id', t')
    ensures t == t'
  {
    NameStart(NameBase(t), "_0X" + Digits(id, 16));
    NameStart(NameBase(t'), "_0X" + Digits(id', 16));
    BasesDiffer(t, t');
  }

  lemma FullNameInjective(id: uint16, t: SensorType, id': uint16, t': SensorType)
    requires t != Unsupported && t' != Unsupported
    requires FullName(id, t) == FullName(id', t')
    ensures id == id' && t == t'
  {
    SameBase(id, t, id', t');
    SuffixOf(NameBase(t), Digits(id, 16));
    SuffixOf(NameBase(t), Digits(id', 16));
    DigitsRoundTrip(id, 16);
    DigitsRoundTrip(id', 16);
  }
}
