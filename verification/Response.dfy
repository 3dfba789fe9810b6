/** The telemetry answers: rendered lines ended by END, and the client that reads them. */
module Response {
  import opened Bytes
  import opened Text
  import opened Sense
  import opened Readers
  import opened LogFile
  import opened Transport
  import opened Seqs

  const LATENCY_ID: uint16 := 65000
  const TRANSMIT_BUFFER_SIZE: nat := 500
  const TELEMETRY_BUFFER_SIZE: nat := 4096

  // giveSensor without its newline; `stamp` is the local-time text of the timestamp. The latency
  // sensor is told by its id alone.
  function Line(s: Sensor, stamp: string): string {
    if s.id == LATENCY_ID then LatencyLine(Int64OfWords(s.data.w0, s.data.w1), s.data.w2)
    else stamp + (": " + (s.name + (": " + DataString(s.stype, s.data))))
  }

  function LatencyLine(seconds: int64, nanoseconds: int32): string {
    "LATENCY:" + (" " + (IntText(seconds) + (" " + IntText(nanoseconds))))
  }

  function ResponseText(lines: seq<string>): string {
    if lines == [] then "END\n" else lines[0] + ("\n" + ResponseText(lines[1..]))
  }

  // A line the server can send and the client can take: with its newline it passes the server's
  // length test, and it is whole, one line and not the end marker.
  predicate IsPlain(line: string) {
    && |line| + 1 < TRANSMIT_BUFFER_SIZE
    && line != "END"
    && Clean(line)
  }

  // ---- rendered lines are plain ----

  lemma DigitsClean(s: string, base: nat)
    requires AllDigits(s, base)
    ensures Clean(s)
  {
  }

  lemma NameClean(s: Sensor)
    requires Named(s)
    ensures |s.name| < SENSOR_NAME_SIZE && Clean(s.name)
  {
    NameFits(s.id, s.stype);
    DigitsRoundTrip(s.id, 16);
    DigitsClean(Digits(s.id, 16), 16);
  }

  lemma IntTextClean(n: int64)
    ensures |IntText(n)| <= 20 && Clean(IntText(n))
  {
    Million();
    assert Power(10, 19) == 10_000_000_000 * Power(10, 9) by {
      assert Power(10, 10) == 10_000_000_000;
      PowerAdd(10);
    }
    DigitsLength(Magnitude(n), 10, 19);
    DigitsRoundTrip(Magnitude(n), 10);
    DigitsClean(Digits(Magnitude(n), 10), 10);
  }

  lemma {:induction false} PowerAdd(e: nat)
    ensures Power(10, e + 9) == 1_000_000_000 * Power(10, e)
  {
    Million();
    if e > 0 {
      PowerAdd(e - 1);
    }
  }

  lemma LatencyLinePlain(seconds: int64, nanoseconds: int32)
    ensures IsPlain(LatencyLine(seconds, nanoseconds))
  {
    IntTextClean(seconds);
    IntTextClean(nanoseconds);
    assert LatencyLine(seconds, nanoseconds)[0] == 'L';
  }

  lemma SensorLinePlain(stamp: string, name: string, data: string)
    requires IsStampText(stamp) && |name| < SENSOR_NAME_SIZE && Clean(name) && |data| <= 66 && Clean(data)
    ensures IsPlain(stamp + (": " + (name + (": " + data))))
  {
    var line := stamp + (": " + (name + (": " + data)));
    assert line[|stamp|] == ':';
  }

  /** Every rendered sensor, and the empty one returned for an unknown id, fits the server's buffer
      and is a plain line: the length checks on both sides never fail. */
  lemma LinesArePlain(s: Sensor, stamp: string)
    requires IsStampText(stamp) && (Named(s) || s.name == "")
    ensures IsPlain(Line(s, stamp)) && |Line(s, stamp)| + 1 < 500
  {
    if s.id == LATENCY_ID {
      LatencyLinePlain(Int64OfWords(s.data.w0, s.data.w1), s.data.w2);
    } else {
      if s.name != "" {
        NameClean(s);
      }
      DataStringShape(s.stype, s.data);
      SensorLinePlain(stamp, s.name, DataString(s.stype, s.data));
    }
  }

  // ---- rendered lines say what they should ----

  lemma PrefixOf(base: string, digits: string)
    ensures base <= base + digits && (base + digits)[|base|..] == digits
  {
  }

  lemma TpsReads(digits: string)
    requires digits != "" && AllDigits(digits, 16)
    ensures ReadName("TPS_0X" + digits) == Some((TempPress, ValueOf(digits, 16)))
  {
    var name := "TPS_0X" + digits;
    PrefixOf("TPS_0X", digits);
  }

  lemma PcvsReads(digits: string)
    requires digits != "" && AllDigits(digits, 16)
    ensures ReadName("PCVS_0X" + digits) == Some((PowCurrVolt, ValueOf(digits, 16)))
  {
    var name := "PCVS_0X" + digits;
    PrefixOf("PCVS_0X", digits);
    assert name[0] == 'P' && "TPS_0X"[0] == 'T';
  }

  lemma TorqsReads(digits: string)
    requires digits != "" && AllDigits(digits, 16)
    ensures ReadName("TORQS_0X" + digits) == Some((Torque, ValueOf(digits, 16)))
  {
    var name := "TORQS_0X" + digits;
    PrefixOf("TORQS_0X", digits);
    assert name[0] == 'T' && name[1] == 'O' && "TPS_0X"[1] == 'P' && "PCVS_0X"[0] == 'P';
  }

  lemma ProxsReads(digits: string)
    requires digits != "" && AllDigits(digits, 16)
    ensures ReadName("PROXS_0X" + digits) == Some((Proximity, ValueOf(digits, 16)))
  {
    var name := "PROXS_0X" + digits;
    PrefixOf("PROXS_0X", digits);
    assert name[0] == 'P' && name[1] == 'R' && "PCVS_0X"[1] == 'C';
    assert "TPS_0X"[0] == 'T' && "TORQS_0X"[0] == 'T';
  }

  lemma FullNameText(id: uint16, t: SensorType)
    requires t != Unsupported
    ensures FullName(id, t) == (match t
                                case TempPress => "TPS_0X"
                                case PowCurrVolt => "PCVS_0X"
                                case Torque => "TORQS_0X"
                                case Proximity => "PROXS_0X") + Digits(id, 16)
  {
  }

  /** A name tells the type by its letters and the id by its hexadecimal digits. */
  lemma NameReads(id: uint16, t: SensorType)
    requires t != Unsupported
    ensures ReadName(NameSensor(id, t)) == Some((t, id as nat))
  {
    NameFits(id, t);
    FullNameText(id, t);
    DigitsRoundTrip(id, 16);
    match t
    case TempPress => TpsReads(Digits(id, 16));
    case PowCurrVolt => PcvsReads(Digits(id, 16));
    case Torque => TorqsReads(Digits(id, 16));
    case Proximity => ProxsReads(Digits(id, 16));
  }

  lemma CleanOfColons(name: string)
    requires forall i :: 0 <= i < |name| ==> name[i] != ':'
    ensures NoColonBlank(name)
  {
  }

  lemma NameHasNoColon(id: uint16, t: SensorType)
    requires t != Unsupported
    ensures NoColonBlank(NameSensor(id, t))
  {
    NameFits(id, t);
    DigitsRoundTrip(id, 16);
    var d := Digits(id, 16);
    assert forall i :: 0 <= i < |d| ==> IsDigit(d[i], 16);
    assert forall i :: 0 <= i < |NameBase(t)| ==> NameBase(t)[i] != ':';
    CleanOfColons(FullName(id, t));
  }

  lemma AnswerReads(stamp: string, name: string, data: string, t: SensorType, id: nat, readings: seq<int>)
    requires NoColonBlank(stamp) && NoColonBlank(name) && ReadName(name) == Some((t, id))
    requires ReadFields(data, UnitsIn(Columns(t))) == Some(readings)
    ensures ReadAnswer(stamp + (": " + (name + (": " + data)))) == Some(Answer(stamp, t, id, readings))
  {
    CutColonAt(stamp, name + (": " + data));
    CutColonAt(name, data);
  }

  /** The line of any sensor but those with the latency sensor's id reads as its time, its type, its id
      and every one of its measurements. */
  lemma LineReads(s: Sensor, stamp: string)
    requires Named(s) && s.id != 65000 && IsStampText(stamp)
    ensures ReadAnswer(Line(s, stamp)) == Some(Answer(stamp, s.stype, s.id, Readings(s.stype, s.data)))
  {
    NameReads(s.id, s.stype);
    NameHasNoColon(s.id, s.stype);
    DataStringRoundTrip(s.stype, s.data);
    AnswerReads(stamp, s.name, DataString(s.stype, s.data), s.stype, s.id, Readings(s.stype, s.data));
  }

  // ---- the client ----

  // A C string ends at its first NUL.
  function CString(line: string): string {
    if line == "" || line[0] == '\0' then "" else [line[0]] + CString(line[1..])
  }

  // The lines handed on, and whether the end marker was seen.
  datatype Reading = Reading(lines: seq<string>, ended: bool)

  function Cons(line: string, r: Reading): Reading {
    r.(lines := [line] + r.lines)
  }

  // What the client makes of the stream `s` when `line` is already in its buffer.
  function Read(s: string, line: string): Reading {
    if s == "" then Reading([], false)
    else if s[0] == '\n' then
      if CString(line) == "END" then Reading([], true) else Cons(CString(line), Read(s[1..], ""))
    else if |line| >= TELEMETRY_BUFFER_SIZE - 1 then Reading([], false)
    else Read(s[1..], line + [s[0]])
  }

  function Prepend(lines: seq<string>, r: Reading): Reading {
    r.(lines := lines + r.lines)
  }

  /** receive_until_end: receives whatever chunks come and goes through them character by character
      with one line buffer. The result is a function of the stream alone. */
  method ReceiveUntilEnd(inlet: Inlet<char>) returns (lines: seq<string>, ended: bool)
    requires ValidScript(inlet.script)
    modifies inlet
    ensures Reading(lines, ended) == Read(Stream(old(inlet.script)), "")
  {
    ghost var goal := Read(Stream(inlet.script), "");
    var line := new char[TELEMETRY_BUFFER_SIZE];
    var length := 0;
    lines := [];
    assert line[..0] == "";
    while true
      invariant ValidScript(inlet.script) && 0 <= length < line.Length
      invariant Prepend(lines, Read(Stream(inlet.script), line[..length])) == goal
      decreases Size(inlet.script)
    {
      ghost var stream := Stream(inlet.script);
      var n, interrupted, chunk := inlet.Recv(TELEMETRY_BUFFER_SIZE);
      if n <= 0 {
        if interrupted {
          continue;
        }
        return lines, false;
      }
      assert stream == chunk + Stream(inlet.script);
      var done;
      lines, length, done, ended := ReadChunk(line, length, chunk, Stream(inlet.script), lines);
      if done {
        return lines, ended;
      }
    }
  }

  method ReadChunk(line: array<char>, start: nat, chunk: string, ghost rest: string, before: seq<string>)
    returns (lines: seq<string>, length: nat, done: bool, ended: bool)
    requires start < line.Length == TELEMETRY_BUFFER_SIZE
    modifies line
    ensures length < line.Length
    ensures done ==> Reading(lines, ended) == Prepend(before, Read(chunk + rest, old(line[..start])))
    ensures !done ==>
              Prepend(lines, Read(rest, line[..length])) == Prepend(before, Read(chunk + rest, old(line[..start])))
  {
    lines, length, done, ended := before, start, false, false;
    ghost var goal := Prepend(before, Read(chunk + rest, line[..start]));
    for i := 0 to |chunk|
      invariant length < line.Length
      invariant Prepend(lines, Read(chunk[i..] + rest, line[..length])) == goal
    {
      ghost var s := chunk[i..] + rest;
      assert s[0] == chunk[i] && s[1..] == chunk[i + 1..] + rest;
      if chunk[i] == '\n' {
        var text := line[..length];
        var finished := ProcessLine(text);
        if finished {
          return lines, length, true, true;
        }
        lines := lines + [CString(text)];
        length := 0;
        assert line[..0] == "";
      } else {
        if length >= TELEMETRY_BUFFER_SIZE - 1 {
          return lines, length, true, false;
        }
        ghost var text := line[..length];
        line[length] := chunk[i];
        length := length + 1;
        assert line[..length] == text + [chunk[i]];
      }
    }
    assert chunk[|chunk|..] + rest == rest;
  }

  method ProcessLine(line: string) returns (finished: bool)
    ensures finished <==> CString(line) == "END"
  {
    finished := CString(line) == "END";
  }

  // ---- round trip ----

  lemma {:induction false} CStringClean(line: string)
    requires Clean(line)
    ensures CString(line) == line
  {
    if line != "" {
      CStringClean(line[1..]);
    }
  }

  lemma {:induction false} ReadLine(line: string, seen: string, rest: string)
    requires Clean(line) && |seen| + |line| < TELEMETRY_BUFFER_SIZE
    ensures Read(line + ("\n" + rest), seen) == Read("\n" + rest, seen + line)
    decreases |line|
  {
    var s := line + ("\n" + rest);
    if line == "" {
      assert s == "\n" + rest && seen + line == seen;
    } else {
      assert s[0] == line[0] && s[1..] == line[1..] + ("\n" + rest);
      ReadLine(line[1..], seen + [line[0]], rest);
      assert seen + [line[0]] + line[1..] == seen + line;
    }
  }

  lemma {:induction false} ReadTooLong(line: string, seen: string, rest: string)
    requires Clean(line) && |seen| < 4096 <= |seen| + |line|
    ensures Read(line + rest, seen) == Reading([], false)
    decreases |line|
  {
    var s := line + rest;
    assert s[0] == line[0] && s[1..] == line[1..] + rest;
    if |seen| < 4095 {
      ReadTooLong(line[1..], seen + [line[0]], rest);
    }
  }

  /** The client takes a line of up to 4095 characters, and gives up at a longer one. */
  lemma LineLimit(line: string, rest: string)
    requires Clean(line)
    ensures Read(line + ("\n" + rest), "") ==
            if |line| > 4095 then Reading([], false)
            else if line == "END" then Reading([], true)
            else Cons(line, Read(rest, ""))
  {
    if |line| > 4095 {
      ReadTooLong(line, "", "\n" + rest);
    } else {
      ReadLine(line, "", rest);
      assert "" + line == line && ("\n" + rest)[1..] == rest;
      CStringClean(line);
    }
  }

  lemma ReadPlain(line: string, rest: string)
    requires IsPlain(line)
    ensures Read(line + ("\n" + rest), "") == Cons(line, Read(rest, ""))
  {
    ReadLine(line, "", rest);
    assert "" + line == line;
    CStringClean(line);
    assert ("\n" + rest)[1..] == rest;
  }

  lemma ReadEnd(more: string)
    ensures Read("END\n" + more, "") == Reading([], true)
  {
    assert "END\n" + more == "END" + ("\n" + more);
    ReadLine("END", "", more);
    assert "" + "END" == "END";
    CStringClean("END");
  }

  /** Whatever lines the server sends before END, the client hands on exactly those, in order, and
      stops at END, whatever follows it. */
  lemma {:induction false} ResponseRoundTrip(lines: seq<string>, more: string)
    requires forall l :: l in lines ==> IsPlain(l)
    ensures Read(ResponseText(lines) + more, "") == Reading(lines, true)
  {
    if lines == [] {
      ReadEnd(more);
    } else {
      var rest := ResponseText(lines[1..]) + more;
      assert lines[0] in lines;
      assert ResponseText(lines) + more == lines[0] + ("\n" + rest);
      ReadPlain(lines[0], rest);
      ResponseRoundTrip(lines[1..], more);
      assert lines == [lines[0]] + lines[1..];
    }
  }

  // The lines of an answer to a query that selected these sensors.
  function Lines(sensors: seq<Sensor>, zone: Zone): seq<string> {
    seq(|sensors|, i requires 0 <= i < |sensors| => Line(sensors[i], TimeText(zone, sensors[i].timestamp)))
  }

  // Sensors of a registry, or the empty one returned for an unknown id.
  ghost predicate Printable(sensors: seq<Sensor>) {
    forall i :: 0 <= i < |sensors| ==> Named(sensors[i]) || sensors[i].name == ""
  }

  lemma AllLinesPlain(sensors: seq<Sensor>, zone: Zone)
    requires ValidZone(zone) && Printable(sensors)
    ensures forall l :: l in Lines(sensors, zone) ==> IsPlain(l)
  {
    var lines := Lines(sensors, zone);
    forall l | l in lines
      ensures IsPlain(l)
    {
      var i :| 0 <= i < |lines| && lines[i] == l;
      LinesArePlain(sensors[i], TimeText(zone, sensors[i].timestamp));
    }
  }

  /** The same, for the sensors of any registry and any timestamps. */
  lemma AnswerRoundTrip(sensors: seq<Sensor>, zone: Zone)
    requires ValidZone(zone) && Printable(sensors)
    ensures Read(ResponseText(Lines(sensors, zone)), "") == Reading(Lines(sensors, zone), true)
  {
    var lines := Lines(sensors, zone);
    AllLinesPlain(sensors, zone);
    ResponseRoundTrip(lines, "");
    assert ResponseText(lines) + "" == ResponseText(lines);
  }

  // ---- the server's side, and answers that are cut off ----

  function Terminated(lines: seq<string>): (pieces: seq<string>)
    ensures |pieces| == |lines|
  {
    if lines == [] then [] else [lines[0] + "\n"] + Terminated(lines[1..])
  }

  // The buffers of an answer, in the order they are sent.
  function AnswerPieces(lines: seq<string>): seq<string> {
    Terminated(lines) + ["END\n"]
  }

  lemma {:induction false} TerminatedAt(lines: seq<string>, i: nat)
    requires i < |lines|
    ensures Terminated(lines)[i] == lines[i] + "\n"
    ensures Terminated(lines)[..i] == Terminated(lines[..i])
  {
    if i > 0 {
      TerminatedAt(lines[1..], i - 1);
      assert lines[..i][1..] == lines[1..][..i - 1];
    } else if |lines| > 1 {
      TerminatedAt(lines[1..], 0);
    }
  }

  /** giveSensor: the line is formatted, checked against the buffer and sent whole or given up. The
      check never fails. */
  method GiveSensor(outlet: Outlet<char>, sensor: Sensor, stamp: string) returns (ok: bool)
    requires (Named(sensor) || sensor.name == "") && IsStampText(stamp)
    modifies outlet
    ensures var piece, room := Line(sensor, stamp) + "\n", Capacity(old(outlet.script));
            && (ok <==> |piece| <= room)
            && outlet.wire == old(outlet.wire) + (if ok then piece else piece[..room])
            && outlet.script == Rest(old(outlet.script), |piece|)
  {
    LinesArePlain(sensor, stamp);
    var buffer := Line(sensor, stamp) + "\n";
    if |buffer| >= TRANSMIT_BUFFER_SIZE {
      assert false;
    }
    ok := SendAll(outlet, buffer);
    assert buffer[..|buffer|] == buffer;
  }

  /** giveSensor for each selected sensor and sendResponseEnd: the answer is complete exactly when the
      client takes every buffer of it. */
  method GiveSensors(outlet: Outlet<char>, sensors: seq<Sensor>, zone: Zone) returns (ok: bool)
    requires ValidZone(zone) && Printable(sensors)
    modifies outlet
    ensures var pieces := AnswerPieces(Lines(sensors, zone));
            && (ok <==> Whole(old(outlet.script), pieces) == |pieces|)
            && outlet.wire == old(outlet.wire) + Taken(old(outlet.script), pieces)
  {
    ghost var script, wire, pieces := outlet.script, outlet.wire, AnswerPieces(Lines(sensors, zone));
    PiecesAt(Lines(sensors, zone));
    SentStart(script, wire, pieces);
    for i := 0 to |sensors|
      invariant SentSoFar(script, wire, outlet.script, outlet.wire, pieces, i)
    {
      SentNext(script, wire, outlet.script, outlet.wire, pieces, i);
      assert pieces[i] == Line(sensors[i], TimeText(zone, sensors[i].timestamp)) + "\n";
      ok := GiveSensor(outlet, sensors[i], TimeText(zone, sensors[i].timestamp));
      if !ok {
        return;
      }
    }
    SentNext(script, wire, outlet.script, outlet.wire, pieces, |sensors|);
    assert "END\n"[..4] == "END\n";
    ok := SendAll(outlet, "END\n");
    if ok {
      SentEnd(script, wire, outlet.script, outlet.wire, pieces);
    }
  }

  lemma PiecesAt(lines: seq<string>)
    ensures AnswerPieces(lines)[|lines|] == "END\n"
    ensures forall i :: 0 <= i < |lines| ==> AnswerPieces(lines)[i] == lines[i] + "\n"
  {
    forall i | 0 <= i < |lines|
      ensures Terminated(lines)[i] == lines[i] + "\n"
    {
      TerminatedAt(lines, i);
    }
  }

  lemma TerminatedCons(lines: seq<string>, rest: string)
    requires lines != []
    ensures Flatten(Terminated(lines)) + rest == lines[0] + ("\n" + (Flatten(Terminated(lines[1..])) + rest))
  {
    assert Terminated(lines)[0] == lines[0] + "\n" && Terminated(lines)[1..] == Terminated(lines[1..]);
    FlattenCons(Terminated(lines), rest);
    Regroup(lines[0], "\n", Flatten(Terminated(lines[1..])) + rest);
  }

  lemma {:induction false} ReadLines(lines: seq<string>, rest: string)
    requires forall l :: l in lines ==> IsPlain(l)
    ensures Read(Flatten(Terminated(lines)) + rest, "") == Prepend(lines, Read(rest, ""))
  {
    if lines == [] {
      assert Flatten(Terminated(lines)) + rest == rest;
    } else {
      var tail := Flatten(Terminated(lines[1..])) + rest;
      assert lines[0] in lines;
      TerminatedCons(lines, rest);
      ReadPlain(lines[0], tail);
      ReadLines(lines[1..], rest);
      assert lines == [lines[0]] + lines[1..];
    }
  }

  lemma {:induction false} ReadPartial(part: string, seen: string)
    requires Clean(part) && |seen| + |part| < TELEMETRY_BUFFER_SIZE
    ensures Read(part, seen) == Reading([], false)
    decreases |part|
  {
    if part != "" {
      ReadPartial(part[1..], seen + [part[0]]);
    }
  }

  // A beginning of a line without its newline is nothing to the client.
  lemma PartOfLine(line: string, part: string)
    requires Clean(line) && |line| < TRANSMIT_BUFFER_SIZE && part < line + "\n"
    ensures Read(part, "") == Reading([], false)
  {
    assert part == line[..|part|];
    ReadPartial(part, "");
  }

  lemma PiecesCut(lines: seq<string>, k: nat)
    requires k <= |lines|
    ensures AnswerPieces(lines)[..k] == Terminated(lines[..k])
  {
    PiecesAt(lines);
    if k < |lines| {
      TerminatedAt(lines, k);
      assert AnswerPieces(lines)[..k] == Terminated(lines)[..k];
    } else {
      assert lines[..k] == lines && AnswerPieces(lines)[..k] == Terminated(lines);
    }
  }

  /** An answer cut off by a failing connection is read as exactly the lines that went out whole, and
      as ended exactly if all of it did, whatever the server's sends and the client's receives. */
  lemma CutAnswer(lines: seq<string>, sends: seq<SendEvent>)
    requires forall l :: l in lines ==> IsPlain(l)
    ensures var k := Whole(sends, AnswerPieces(lines));
            && k <= |lines| + 1
            && Read(Taken(sends, AnswerPieces(lines)), "") == Reading(lines[..Min(k, |lines|)], k == |lines| + 1)
  {
    PiecesAt(lines);
    var pieces := AnswerPieces(lines);
    var part := TakenShape(sends, pieces);
    var k := Whole(sends, pieces);
    if k <= |lines| {
      PiecesCut(lines, k);
      var line := if k < |lines| then lines[k] else "END";
      assert k < |lines| ==> lines[k] in lines;
      assert pieces[k] == line + "\n";
      PartOfLine(line, part);
      ReadLines(lines[..k], part);
    } else {
      PiecesCut(lines, |lines|);
      WholeAnswer(lines, pieces);
      ReadLines(lines, "END\n");
      ReadEnd("");
      assert lines[..|lines|] == lines && "END\n" + "" == "END\n";
    }
  }

  lemma WholeAnswer(lines: seq<string>, pieces: seq<string>)
    requires pieces == AnswerPieces(lines)
    ensures Flatten(pieces[..|pieces|]) + "" == Flatten(Terminated(lines)) + "END\n"
  {
    assert pieces[..|pieces|] == pieces;
    FlattenLast(Terminated(lines), "END\n");
  }
}
