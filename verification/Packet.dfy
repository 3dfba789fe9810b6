/** The sensor packet format: built by the clients, decoded by the processor. */
module Packet {
  import opened Bytes
  import opened Sense

  const SYNC: byte := 0xAA
  const HEADER_SIZE: nat := 6
  const MAX_DATA_SIZE: nat := 12
  const PACKET_SIZE: nat := 18

  type PacketBytes = seq<byte>

  // What a packet says: a sensor, and either nothing more or its measured values.
  datatype Body = Beat | Values(data: SensorData)
  datatype Message = Message(stype: SensorType, id: uint16, body: Body)

  function PayloadLength(t: SensorType): nat {
    match t
    case PowCurrVolt => 12
    case TempPress => 8
    case Torque => 4
    case Proximity => 4
    case Unsupported => 0
  }

  // Words beyond the type's payload keep the zero of the fresh frame.
  predicate ValidMessage(m: Message) {
    && m.stype != Unsupported
    && (m.body.Values? && PayloadLength(m.stype) <= 8 ==> m.body.data.w2 == 0)
    && (m.body.Values? && PayloadLength(m.stype) <= 4 ==> m.body.data.w1 == 0)
  }

  function EncodePacket(code: byte, id: uint16, payload: seq<byte>): PacketBytes
    requires |payload| < 0x1_0000
  {
    [SYNC, code] + Le16(id) + Le16(|payload|) + payload
  }

  function Payload(t: SensorType, d: SensorData): seq<byte> {
    match PayloadLength(t)
    case 12 => LeInt32(d.w0) + LeInt32(d.w1) + LeInt32(d.w2)
    case 8 => LeInt32(d.w0) + LeInt32(d.w1)
    case 4 => LeInt32(d.w0)
    case _ => []
  }

  function Encode(m: Message): PacketBytes
    requires ValidMessage(m)
  {
    EncodePacket(TypeCode(m.stype), m.id, if m.body.Beat? then [] else Payload(m.stype, m.body.data))
  }

  const ZERO_DATA := SensorData(0, 0, 0)

  // recordSensorData, on a target whose earlier contents show through where nothing is written.
  function RecordSensorData(target: SensorData, raw: seq<byte>, t: SensorType): Option<SensorData> {
    if t == Unsupported || |raw| != PayloadLength(t) then None
    else if |raw| == 12 then Some(SensorData(Int32At(raw, 0), Int32At(raw, 4), Int32At(raw, 8)))
    else if |raw| == 8 then Some(target.(w0 := Int32At(raw, 0), w1 := Int32At(raw, 4)))
    else Some(target.(w0 := Int32At(raw, 0)))
  }

  // The checks of generateFrame, in their order.
  function Decode(p: PacketBytes): Option<Message> {
    if |p| < HEADER_SIZE || p[0] != SYNC then None
    else
      var t := FindSensorType(p[1]);
      var len := U16(p[4], p[5]);
      if t == Unsupported || len > MAX_DATA_SIZE || len + HEADER_SIZE != |p| then None
      else if len == 0 then Some(Message(t, U16(p[2], p[3]), Beat))
      else match RecordSensorData(ZERO_DATA, p[HEADER_SIZE..], t)
        case None => None
        case Some(d) => Some(Message(t, U16(p[2], p[3]), Values(d)))
  }

  lemma PayloadRoundTrip(t: SensorType, d: SensorData)
    requires t != Unsupported
    requires ValidMessage(Message(t, 0, Values(d)))
    ensures |Payload(t, d)| == PayloadLength(t)
    ensures RecordSensorData(ZERO_DATA, Payload(t, d), t) == Some(d)
  {
    var p := Payload(t, d);
    var a, b, c := LeInt32(d.w0), LeInt32(d.w1), LeInt32(d.w2);
    match PayloadLength(t)
    case 12 =>
      assert p == [] + a + (b + c) == a + b + c == (a + b) + c + [];
      WordAt([], d.w0, b + c);
      WordAt(a, d.w1, c);
      WordAt(a + b, d.w2, []);
    case 8 =>
      assert p == [] + a + b == a + b + [];
      WordAt([], d.w0, b);
      WordAt(a, d.w1, []);
    case _ =>
      assert p == [] + a + [];
      WordAt([], d.w0, []);
  }

  lemma RecordRoundTrip(raw: seq<byte>, t: SensorType)
    requires t != Unsupported && |raw| == PayloadLength(t)
    ensures var d := RecordSensorData(ZERO_DATA, raw, t);
            d.Some? && ValidMessage(Message(t, 0, Values(d.value))) && Payload(t, d.value) == raw
  {
    BytesAt(raw, 0);
    match PayloadLength(t)
    case 12 =>
      BytesAt(raw, 4);
      BytesAt(raw, 8);
      assert raw == raw[0..4] + raw[4..8] + raw[8..12];
    case 8 =>
      BytesAt(raw, 4);
      assert raw == raw[0..4] + raw[4..8];
    case _ =>
      assert raw == raw[0..4];
  }

  lemma HeaderOf(code: byte, id: uint16, payload: seq<byte>)
    requires |payload| < 0x1_0000
    ensures var p := EncodePacket(code, id, payload);
            |p| == HEADER_SIZE + |payload| && p[0] == SYNC && p[1] == code && p[HEADER_SIZE..] == payload &&
            U16(p[2], p[3]) == id && U16(p[4], p[5]) == |payload|
  {
  }

  lemma DecodeEncode(m: Message)
    requires ValidMessage(m)
    ensures Decode(Encode(m)) == Some(m)
  {
    if m.body.Beat? {
      HeaderOf(TypeCode(m.stype), m.id, []);
    } else {
      PayloadRoundTrip(m.stype, m.body.data);
      HeaderOf(TypeCode(m.stype), m.id, Payload(m.stype, m.body.data));
    }
  }

  lemma Reassembled(p: PacketBytes)
    requires |p| >= HEADER_SIZE && p[0] == SYNC && |p| == HEADER_SIZE + U16(p[4], p[5])
    ensures p == EncodePacket(p[1], U16(p[2], p[3]), p[HEADER_SIZE..])
  {
    Le16OfU16(p[2], p[3]);
    Le16OfU16(p[4], p[5]);
    var payload := p[HEADER_SIZE..];
    assert |payload| == U16(p[4], p[5]);
    assert p == [p[0], p[1]] + [p[2], p[3]] + [p[4], p[5]] + payload;
  }

  lemma EncodeDecode(p: PacketBytes)
    requires Decode(p).Some?
    ensures ValidMessage(Decode(p).value) && Encode(Decode(p).value) == p
  {
    Reassembled(p);
    CodeOfFoundType(p[1]);
    if Decode(p).value.body.Values? {
      RecordRoundTrip(p[HEADER_SIZE..], FindSensorType(p[1]));
    } else {
      assert p[HEADER_SIZE..] == [];
    }
  }

  /** generateFrame accepts exactly the byte strings that encode a valid message, and decodes each
      to that one message: accepted packets and valid messages correspond one to one. */
  lemma CodecBijection(p: PacketBytes, m: Message)
    ensures Decode(p) == Some(m) <==> ValidMessage(m) && Encode(m) == p
  {
    if Decode(p) == Some(m) {
      EncodeDecode(p);
    }
    if ValidMessage(m) && Encode(m) == p {
      DecodeEncode(m);
    }
  }

  /** Which packets are accepted, said of the header and the payload length alone. */
  lemma AcceptedPackets(code: byte, id: uint16, payload: seq<byte>)
    requires |payload| < 0x1_0000
    ensures var t := FindSensorType(code);
            Decode(EncodePacket(code, id, payload)).Some? <==>
            t != Unsupported && (payload == [] || |payload| == PayloadLength(t))
  {
    HeaderOf(code, id, payload);
  }

  /** What each byte of an accepted packet means. */
  lemma MessageLayout(p: PacketBytes, m: Message)
    requires Decode(p) == Some(m)
    ensures |p| >= 6 && p[0] == 0xAA
    ensures |p| == 6 + p[4] as int + 256 * p[5] as int && m.id as int == p[2] as int + 256 * p[3] as int
    ensures (m.stype == TempPress <==> p[1] == 0x1B) && (m.stype == PowCurrVolt <==> p[1] == 0x2B)
    ensures (m.stype == Torque <==> p[1] == 0x4B) && (m.stype == Proximity <==> p[1] == 0x8B)
    ensures m.stype != Unsupported && (m.body.Beat? <==> |p| == 6)
    ensures m.body.Values? ==>
              var d := m.body.data;
              && |p| == (match m.stype case PowCurrVolt => 18 case TempPress => 14 case _ => 10)
              && d.w0 == Int32At(p, 6)
              && d.w1 == (if |p| > 10 then Int32At(p, 10) else 0)
              && d.w2 == (if |p| > 14 then Int32At(p, 14) else 0)
  {
    var t, raw := FindSensorType(p[1]), p[HEADER_SIZE..];
    assert forall i :: 0 <= i < |raw| ==> raw[i] == p[HEADER_SIZE + i];
  }

  // The frame for a message stamped with the two clocks.
  function FrameOf(m: Message, wall: Timespec, mono: Timespec): Sensor {
    Sensor(if m.body.Beat? then ZERO_DATA else m.body.data, wall, mono, m.id, NameSensor(m.id, m.stype),
           m.stype, FrameDefault, if m.body.Beat? then Heartbeat else Data)
  }

  // ---- the programs ----

  /** build_packet: fills the caller's buffer in place. */
  method BuildPacket(code: byte, id: uint16, data: array<byte>, length: nat, packet: array<byte>) returns (size: nat)
    requires length <= data.Length && length <= MAX_DATA_SIZE && packet.Length == PACKET_SIZE
    requires data != packet
    modifies packet
    ensures size == HEADER_SIZE + length
    ensures packet[..size] == EncodePacket(code, id, data[..length])
    ensures packet[..size] == [0xAA, code, id % 256, id / 256, length, 0] + data[..length]
    ensures packet[size..] == old(packet[size..])
  {
    packet[0] := SYNC;
    packet[1] := code;
    packet[2] := id % 0x100;
    packet[3] := id / 0x100;
    packet[4] := length % 0x100;
    packet[5] := length / 0x100;
    for i := 0 to length
      invariant packet[..HEADER_SIZE] == [SYNC, code] + Le16(id) + Le16(length)
      invariant packet[HEADER_SIZE..HEADER_SIZE + i] == data[..i]
      invariant packet[HEADER_SIZE + length..] == old(packet[HEADER_SIZE + length..])
    {
      packet[HEADER_SIZE + i] := data[i];
    }
    size := HEADER_SIZE + length;
    assert packet[..size] == packet[..HEADER_SIZE] + packet[HEADER_SIZE..size];
  }

  /** The frame carries the wall clock as its timestamp and the monotonic clock as last-seen; the rest
      is the message's. */
  lemma FrameFields(m: Message, wall: Timespec, mono: Timespec)
    ensures var f := FrameOf(m, wall, mono);
            && f.timestamp == wall && f.lastSeen == mono && f.id == m.id && f.stype == m.stype
            && f.name == NameSensor(m.id, m.stype) && f.state == FrameDefault
            && (f.kind == Data <==> m.body.Values?) && (m.body.Values? ==> f.data == m.body.data)
  {
  }

  /** generateFrame: fills a zeroed frame field by field, or gives up. */
  method GenerateFrame(buffer: array<byte>, size: nat, wall: Timespec, mono: Timespec) returns (ok: bool, frame: Sensor)
    requires size <= buffer.Length
    ensures ok <==> Decode(buffer[..size]).Some?
    ensures ok ==> frame == FrameOf(Decode(buffer[..size]).value, wall, mono)
    ensures ok ==> frame.timestamp == wall && frame.lastSeen == mono && frame.state == FrameDefault
    ensures ok ==> 6 <= size && frame.id as int == buffer[2] as int + 256 * buffer[3] as int
    ensures ok ==> frame.name == NameSensor(frame.id, frame.stype)
    ensures ok ==> (frame.kind == Heartbeat <==> size == 6) && frame.stype == FindSensorType(buffer[1])
  {
    ghost var p := buffer[..size];
    ok := false;
    frame := Sensor(ZERO_DATA, Timespec(0, 0), Timespec(0, 0), 0, "", Unsupported, FrameDefault, Heartbeat);
    if size < HEADER_SIZE || buffer[0] != SYNC {
      return;
    }
    var t := FindSensorType(buffer[1]);
    if t == Unsupported {
      return;
    }
    var id := U16(buffer[2], buffer[3]);
    var len := U16(buffer[4], buffer[5]);
    if len > MAX_DATA_SIZE || len + HEADER_SIZE != size {
      return;
    }
    frame := frame.(stype := t, id := id, name := NameSensor(id, t), timestamp := wall, lastSeen := mono);
    frame := frame.(state := FrameDefault);
    if len == 0 {
      frame := frame.(kind := Heartbeat);
      ok := true;
      assert Decode(p) == Some(Message(t, id, Beat));
      return;
    }
    frame := frame.(kind := Data);
    assert p[HEADER_SIZE..] == buffer[HEADER_SIZE..size];
    match RecordSensorData(frame.data, buffer[HEADER_SIZE..size], t)
    case None =>
    case Some(d) =>
      frame := frame.(data := d);
      ok := true;
      assert Decode(p) == Some(Message(t, id, Values(d)));
  }
}
