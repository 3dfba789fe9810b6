/** One query, from the line the user types to the lines that are printed, through all the programs on
    the way. The client opens a new connection for each. */
module Query {
  import opened Bytes
  import opened Text
  import opened Sense
  import opened Readers
  import opened Seqs
  import opened Transport
  import opened Registry
  import opened TelemetryRegistry
  import opened LogFile
  import opened Commands
  import opened Response

  // The sensors that answer a command. Throughput has an answer of its own.
  function Selected(c: Command, r: Registry): seq<Sensor> {
    match c
    case GetAll => Live(r)
    case GetOnline => Filter(InState(Online), Live(r))
    case GetOffline => Filter(InState(Offline), Live(r))
    case GetType(code) => Filter(OfType(FindSensorType(code)), Live(r))
    case GetId(id) => [GetById(Live(r), id)]
    case GetThroughput => []
  }

  predicate IsQuery(text: string) {
    ParseUserCommand(text).Some? && !ParseUserCommand(text).value.GetThroughput?
  }

  // ---- which sensors answer ----

  /** GET ALL is answered by every registered sensor, ONLINE and OFFLINE by those in that state, each once
      and in slot order. */
  lemma StateAnswers(r: Registry)
    requires r.count <= |r.cells|
    ensures Selected(GetAll, r) == r.cells[..r.count]
    ensures Picked(Selected(GetOnline, r), r.cells[..r.count], (s: Sensor) => s.state == Online)
    ensures Picked(Selected(GetOffline, r), r.cells[..r.count], (s: Sensor) => s.state == Offline)
  {
    FilterPicked(InState(Online), Live(r), (s: Sensor) => s.state == Online);
    FilterPicked(InState(Offline), Live(r), (s: Sensor) => s.state == Offline);
  }

  /** GET TYPE is answered by the sensors of the type whose code was sent. */
  lemma TypeAnswers(r: Registry)
    requires r.count <= |r.cells|
    ensures Picked(Selected(GetType(0x1B), r), r.cells[..r.count], (s: Sensor) => s.stype == TempPress)
    ensures Picked(Selected(GetType(0x2B), r), r.cells[..r.count], (s: Sensor) => s.stype == PowCurrVolt)
    ensures Picked(Selected(GetType(0x4B), r), r.cells[..r.count], (s: Sensor) => s.stype == Torque)
    ensures Picked(Selected(GetType(0x8B), r), r.cells[..r.count], (s: Sensor) => s.stype == Proximity)
  {
    FilterPicked(OfType(FindSensorType(0x1B)), Live(r), (s: Sensor) => s.stype == TempPress);
    FilterPicked(OfType(FindSensorType(0x2B)), Live(r), (s: Sensor) => s.stype == PowCurrVolt);
    FilterPicked(OfType(FindSensorType(0x4B)), Live(r), (s: Sensor) => s.stype == Torque);
    FilterPicked(OfType(FindSensorType(0x8B)), Live(r), (s: Sensor) => s.stype == Proximity);
  }

  // The first registered sensor with the id, or a zeroed one.
  ghost predicate FirstWithId(s: Sensor, r: Registry, id: uint16)
    requires r.count <= |r.cells|
  {
    || (exists i :: 0 <= i < r.count && s == r.cells[i] && s.id == id && forall j :: 0 <= j < i ==> r.cells[j].id != id)
    || ((forall j :: 0 <= j < r.count ==> r.cells[j].id != id) &&
        s == Sensor(SensorData(0, 0, 0), Timespec(0, 0), Timespec(0, 0), 0, "", Unsupported, FrameDefault, Heartbeat))
  }

  /** GET ID is answered by one sensor: the first with the id. */
  lemma IdAnswer(r: Registry, id: uint16)
    requires r.count <= |r.cells|
    ensures |Selected(GetId(id), r)| == 1 && FirstWithId(Selected(GetId(id), r)[0], r, id)
  {
    var live, i := Live(r), FindId(Live(r), id);
    forall j | 0 <= j < r.count
      ensures live[j] == r.cells[j]
    {
    }
    if i < |live| {
      assert live[i] == r.cells[i];
    }
  }

  // What the user asked for, by the line typed.
  function AnswerTo(text: string, r: Registry): seq<Sensor>
    requires IsQuery(text)
  {
    Selected(ParseUserCommand(text).value, r)
  }

  /** The same by what the user types. */
  lemma TypedStateAnswers(r: Registry)
    requires r.count <= |r.cells|
    ensures IsQuery("GET ALL\n") && AnswerTo("GET ALL\n", r) == r.cells[..r.count]
    ensures IsQuery("GET ONLINE\n")
    ensures Picked(AnswerTo("GET ONLINE\n", r), r.cells[..r.count], (s: Sensor) => s.state == Online)
    ensures IsQuery("GET OFFLINE\n")
    ensures Picked(AnswerTo("GET OFFLINE\n", r), r.cells[..r.count], (s: Sensor) => s.state == Offline)
  {
    StateLines();
    StateAnswers(r);
  }

  /** And by the types typed. */
  lemma TypedTypeAnswers(r: Registry)
    requires r.count <= |r.cells|
    ensures IsQuery("GET TYPE TEMPRESS\n")
    ensures Picked(AnswerTo("GET TYPE TEMPRESS\n", r), r.cells[..r.count], (s: Sensor) => s.stype == TempPress)
    ensures IsQuery("GET TYPE POWCURRVOLT\n")
    ensures Picked(AnswerTo("GET TYPE POWCURRVOLT\n", r), r.cells[..r.count], (s: Sensor) => s.stype == PowCurrVolt)
    ensures IsQuery("GET TYPE TOR\n")
    ensures Picked(AnswerTo("GET TYPE TOR\n", r), r.cells[..r.count], (s: Sensor) => s.stype == Torque)
    ensures IsQuery("GET TYPE PROX\n")
    ensures Picked(AnswerTo("GET TYPE PROX\n", r), r.cells[..r.count], (s: Sensor) => s.stype == Proximity)
  {
    TypeLines();
    TypeAnswers(r);
  }

  /** And by an id typed in hexadecimal. */
  lemma TypedIdAnswer(r: Registry, id: uint16)
    requires r.count <= |r.cells|
    ensures var text := "GET ID " + (Digits(id, 16) + "\n");
            IsQuery(text) && |AnswerTo(text, r)| == 1 && FirstWithId(AnswerTo(text, r)[0], r, id)
  {
    TypedIdDigits(id, "");
    assert "" + (Digits(id, 16) + "\n") == Digits(id, 16) + "\n";
    IdAnswer(r, id);
  }

  /** An id that no sensor has is answered by a line with a time and nothing else. */
  lemma UnknownIdLine(r: Registry, id: uint16, stamp: string)
    requires r.count <= |r.cells| && forall j :: 0 <= j < r.count ==> r.cells[j].id != id
    ensures Line(Selected(GetId(id), r)[0], stamp) == stamp + ": : "
  {
    IdAnswer(r, id);
    assert DataString(Unsupported, SensorData(0, 0, 0)) == "";
  }

  // ---- the programs ----

  lemma {:induction false} FilterAll<T>(s: seq<T>)
    ensures Filter(_ => true, s) == s
  {
    if s != [] {
      var n := |s| - 1;
      FilterAll(s[..n]);
      assert s == s[..n] + [s[n]];
    }
  }

  /** giveSensorAll and its variants, by command. */
  method SelectFor(registry: SensorRegistry, c: Command) returns (chosen: seq<Sensor>)
    requires registry.count <= registry.slots.Length && !c.GetThroughput?
    ensures chosen == Selected(c, registry.Value())
  {
    match c
    case GetAll =>
      FilterAll(Live(registry.Value()));
      chosen := registry.Select(_ => true);
    case GetOnline => chosen := registry.Select(InState(Online));
    case GetOffline => chosen := registry.Select(InState(Offline));
    case GetType(code) => chosen := registry.Select(OfType(FindSensorType(code)));
    case GetId(id) =>
      var s := registry.GetSensorId(id);
      chosen := [s];
  }

  // What the calls on the two sides of the connection meet.
  datatype Link = Link(
    asks: seq<SendEvent>, hears: seq<RecvEvent<byte>>, tells: seq<SendEvent>, sees: seq<RecvEvent<char>>)

  // Whatever is sent in one direction is what can be received at its other end.
  ghost predicate Carries(link: Link, request: seq<byte>, answer: seq<string>) {
    && ValidScript(link.hears) && Stream(link.hears) == request[..Min(|request|, Capacity(link.asks))]
    && ValidScript(link.sees) && (|request| <= Capacity(link.asks) ==> Stream(link.sees) == Taken(link.tells, answer))
  }

  lemma ParsedSupported(text: string)
    requires ParseUserCommand(text).Some?
    ensures Supported(ParseUserCommand(text).value)
  {
  }

  /** The typed line is parsed, encoded and sent; the server hunts, decodes, selects and answers; the
      client prints what it reads. If the request goes out whole, the lines printed are those of the
      selected sensors that went out whole, and the answer is complete exactly if all of it did. */
  method Ask(text: string, registry: SensorRegistry, zone: Zone, link: Link)
    returns (lines: seq<string>, ended: bool)
    requires IsQuery(text) && registry.count <= registry.slots.Length
    requires var chosen := Selected(ParseUserCommand(text).value, registry.Value());
             && ValidZone(zone) && Printable(chosen)
             && Carries(link, EncodeCommand(ParseUserCommand(text).value), AnswerPieces(Lines(chosen, zone)))
    ensures var c := ParseUserCommand(text).value;
            var all := Lines(Selected(c, registry.Value()), zone); var k := Whole(link.tells, AnswerPieces(all));
            if |EncodeCommand(c)| <= Capacity(link.asks)
            then lines == all[..Min(k, |all|)] && (ended <==> k == |all| + 1)
            else lines == [] && !ended
    ensures var chosen := Selected(ParseUserCommand(text).value, registry.Value());
            |lines| <= |chosen| && forall i :: 0 <= i < |lines| ==> LineTells(lines[i], chosen[i], zone)
  {
    var c := ParseUserCommand(text).value;
    ParsedSupported(text);
    LinesTell(Selected(c, registry.Value()), zone);
    var request := new Outlet<byte>(link.asks, []);
    var sent := SendAll(request, EncodeCommand(c));
    if !sent {
      return [], false;
    }
    var command := Hear(c, link.hears);
    var chosen := SelectFor(registry, command);
    lines, ended := Tell(chosen, zone, link.tells, link.sees);
  }

  // The server's side of the request.
  method Hear(ghost c: Command, hears: seq<RecvEvent<byte>>) returns (command: Command)
    requires Supported(c) && ValidScript(hears)
    requires Stream(hears) == EncodeCommand(c)[..|EncodeCommand(c)|]
    ensures command == c
  {
    var inlet := new Inlet<byte>(hears);
    SelectEncoded(c, []);
    assert EncodeCommand(c) + [] == EncodeCommand(c) == EncodeCommand(c)[..|EncodeCommand(c)|];
    var received := ReceiveCommand(inlet);
    command := received.value;
  }

  // The line of a registered sensor, unless it has the latency sensor's id, reads as its time, its type,
  // its id and its measurements.
  ghost predicate LineTells(line: string, s: Sensor, zone: Zone) {
    Named(s) && s.id != 65000 ==>
      var time := if zone(s.timestamp).Some? then zone(s.timestamp).value else "";
      ReadAnswer(line) == Some(Answer(time, s.stype, s.id, Readings(s.stype, s.data)))
  }

  lemma LinesTell(chosen: seq<Sensor>, zone: Zone)
    requires ValidZone(zone)
    ensures forall i :: 0 <= i < |chosen| ==> LineTells(Lines(chosen, zone)[i], chosen[i], zone)
  {
    forall i | 0 <= i < |chosen|
      ensures LineTells(Lines(chosen, zone)[i], chosen[i], zone)
    {
      if Named(chosen[i]) && chosen[i].id != 65000 {
        LineReads(chosen[i], TimeText(zone, chosen[i].timestamp));
      }
    }
  }

  // The answer, from the server to the client.
  method Tell(chosen: seq<Sensor>, zone: Zone, tells: seq<SendEvent>, sees: seq<RecvEvent<char>>)
    returns (lines: seq<string>, ended: bool)
    requires ValidZone(zone) && Printable(chosen)
    requires ValidScript(sees) && Stream(sees) == Taken(tells, AnswerPieces(Lines(chosen, zone)))
    ensures var all := Lines(chosen, zone); var k := Whole(tells, AnswerPieces(all));
            lines == all[..Min(k, |all|)] && (ended <==> k == |all| + 1)
  {
    var reply := new Outlet<char>(tells, "");
    var ok := GiveSensors(reply, chosen, zone);
    assert reply.wire == Stream(sees);
    AllLinesPlain(chosen, zone);
    CutAnswer(Lines(chosen, zone), tells);
    var inlet := new Inlet<char>(sees);
    lines, ended := ReceiveUntilEnd(inlet);
  }
}
