/** The query protocol from the user's text to the server's sync-hunting loop. */
module Commands {
  import opened Bytes
  import opened Text
  import opened Sense
  import opened Packet
  import opened Seqs
  import opened Transport

  datatype Command =
    | GetAll | GetOnline | GetOffline | GetThroughput
    | GetType(code: byte)
    | GetId(id: uint16)

  function Selection(c: Command): byte {
    match c
    case GetAll => 0xF6
    case GetType(_) => 0xF7
    case GetId(_) => 0xFB
    case GetThroughput => 0xFC
    case GetOnline => 0xFD
    case GetOffline => 0xFE
  }

  function Arguments(c: Command): seq<byte> {
    match c
    case GetType(code) => [code]
    case GetId(id) => Le16(id)
    case _ => []
  }

  function EncodeCommand(c: Command): seq<byte> {
    [SYNC, Selection(c)] + Arguments(c)
  }

  // A type request for anything but the four codes is answered by closing the connection.
  predicate Supported(c: Command) {
    c.GetType? ==> FindSensorType(c.code) != Unsupported
  }

  // ---- the server ----

  // One turn of the handler's loop: a command and the rest of the stream, or the end.
  datatype Turn = Got(command: Command, rest: seq<byte>) | Closed

  function NextCommand(stream: seq<byte>): (t: Turn)
    ensures t.Got? ==> |t.rest| < |stream|
  {
    if stream == [] then Closed
    else if stream[0] != SYNC then NextCommand(stream[1..])
    else Select(stream[1..])
  }

  // After the sync byte.
  function Select(s: seq<byte>): (t: Turn)
    ensures t.Got? ==> |t.rest| < |s|
  {
    if s == [] then Closed
    else if s[0] == 0xFB then if |s| < 3 then Closed else Got(GetId(U16(s[1], s[2])), s[3..])
    else if s[0] == 0xF7 then
      if |s| < 2 || FindSensorType(s[1]) == Unsupported then Closed else Got(GetType(s[1]), s[2..])
    else if s[0] == 0xFD then Got(GetOnline, s[1..])
    else if s[0] == 0xFE then Got(GetOffline, s[1..])
    else if s[0] == 0xF6 then Got(GetAll, s[1..])
    else if s[0] == 0xFC then Got(GetThroughput, s[1..])
    else Closed
  }

  // The commands answered, in order.
  function Served(stream: seq<byte>): seq<Command>
    decreases |stream|
  {
    match NextCommand(stream)
    case Closed => []
    case Got(c, rest) => [c] + Served(rest)
  }

  // The command received and the stream left by it are those of the turn.
  ghost predicate Answers(command: Option<Command>, rest: seq<byte>, turn: Turn) {
    match turn
    case Got(c, r) => command == Some(c) && rest == r
    case Closed => command == None
  }

  /** userHandler, when the peer takes the first `replies` replies and then no more. */
  method UserHandler(inlet: Inlet<byte>, replies: nat) returns (answered: seq<Command>)
    requires ValidScript(inlet.script)
    modifies inlet
    ensures var all := Served(Stream(old(inlet.script))); answered == all[..Min(replies, |all|)]
  {
    answered := [];
    ghost var all := Served(Stream(inlet.script));
    while true
      invariant ValidScript(inlet.script) && |answered| <= replies
      invariant answered + Served(Stream(inlet.script)) == all
      decreases |Stream(inlet.script)|
    {
      var command := ReceiveCommand(inlet);
      if command.None? || |answered| == replies {
        break;
      }
      Regroup(answered, [command.value], Served(Stream(inlet.script)));
      answered := answered + [command.value];
    }
    assert answered == all[..|answered|];
  }

  /** One turn: hunt for the sync byte, then read the selection and its argument. */
  method ReceiveCommand(inlet: Inlet<byte>) returns (command: Option<Command>)
    requires ValidScript(inlet.script)
    modifies inlet
    ensures ValidScript(inlet.script)
    ensures Answers(command, Stream(inlet.script), NextCommand(Stream(old(inlet.script))))
  {
    ghost var stream := Stream(inlet.script);
    var cell := new byte[1];
    cell[0] := 0;
    while cell[0] != SYNC
      invariant ValidScript(inlet.script)
      invariant cell[0] != SYNC ==> NextCommand(Stream(inlet.script)) == NextCommand(stream)
      invariant cell[0] == SYNC ==> Select(Stream(inlet.script)) == NextCommand(stream)
      decreases cell[0] != SYNC, |Stream(inlet.script)|
    {
      ghost var before := Stream(inlet.script);
      var n := SocketRecv(inlet, cell, 0, 1);
      if n <= 0 {
        assert before == [];
        return None;
      }
    }
    command := ReceiveSelection(inlet);
  }

  method ReceiveSelection(inlet: Inlet<byte>) returns (command: Option<Command>)
    requires ValidScript(inlet.script)
    modifies inlet
    ensures ValidScript(inlet.script)
    ensures Answers(command, Stream(inlet.script), Select(Stream(old(inlet.script))))
  {
    ghost var s := Stream(inlet.script);
    var cell := new byte[2];
    var n := SocketRecv(inlet, cell, 0, 1);
    if n <= 0 {
      return None;
    }
    var selection := cell[0];
    ghost var t := Stream(inlet.script);
    if selection == 0xFB {
      n := SocketRecv(inlet, cell, 0, 2);
      if n <= 0 {
        return None;
      }
      assert t[0] == s[1] && t[1] == s[2];
      return Some(GetId(U16(cell[0], cell[1])));
    } else if selection == 0xF7 {
      n := SocketRecv(inlet, cell, 0, 1);
      if n <= 0 {
        return None;
      }
      assert t[0] == s[1];
      if FindSensorType(cell[0]) == Unsupported {
        return None;
      }
      return Some(GetType(cell[0]));
    } else if selection == 0xFD {
      return Some(GetOnline);
    } else if selection == 0xFE {
      return Some(GetOffline);
    } else if selection == 0xF6 {
      return Some(GetAll);
    } else if selection == 0xFC {
      return Some(GetThroughput);
    } else {
      return None;
    }
  }

  // ---- round trip ----

  // A command with the stray bytes before it.
  datatype Request = Request(noise: seq<byte>, command: Command)

  predicate ValidRequest(r: Request) {
    SYNC !in r.noise && Supported(r.command)
  }

  function Wire(rs: seq<Request>): seq<byte> {
    if rs == [] then [] else rs[0].noise + (EncodeCommand(rs[0].command) + Wire(rs[1..]))
  }

  function CommandsOf(rs: seq<Request>): seq<Command> {
    if rs == [] then [] else [rs[0].command] + CommandsOf(rs[1..])
  }

  lemma SelectEncoded(c: Command, rest: seq<byte>)
    requires Supported(c)
    ensures NextCommand(EncodeCommand(c) + rest) == Got(c, rest)
  {
    var s := EncodeCommand(c) + rest;
    var t := [Selection(c)] + Arguments(c) + rest;
    assert s[1..] == t;
    match c
    case GetId(id) =>
      assert t[1] == Le16(id)[0] && t[2] == Le16(id)[1];
      assert t[3..] == rest;
    case GetType(code) => assert t[2..] == rest;
    case _ => assert t[1..] == rest;
  }

  lemma {:induction false} SkipNoise(noise: seq<byte>, s: seq<byte>)
    requires SYNC !in noise
    ensures NextCommand(noise + s) == NextCommand(s)
  {
    if noise == [] {
      assert noise + s == s;
    } else {
      assert noise[0] in noise;
      assert (noise + s)[1..] == noise[1..] + s;
      SkipNoise(noise[1..], s);
    }
  }

  /** Any sequence of supported commands, each after any bytes that are not the sync byte, is
      recovered exactly; argument bytes may look like anything. */
  lemma {:induction false} CommandsRoundTrip(rs: seq<Request>, rest: seq<byte>)
    requires forall r :: r in rs ==> ValidRequest(r)
    ensures Served(Wire(rs) + rest) == CommandsOf(rs) + Served(rest)
  {
    if rs == [] {
      assert Wire(rs) + rest == rest;
    } else {
      var r, tail := rs[0], Wire(rs[1..]) + rest;
      assert r in rs;
      assert Wire(rs) + rest == r.noise + (EncodeCommand(r.command) + tail);
      SkipNoise(r.noise, EncodeCommand(r.command) + tail);
      SelectEncoded(r.command, tail);
      CommandsRoundTrip(rs[1..], rest);
    }
  }

  // After a sync byte: a command that has not arrived in full, and one the server refuses, which ends
  // the connection.
  predicate CutShort(s: seq<byte>) {
    s == [] || (s[0] == 0xFB && |s| < 3) || (s[0] == 0xF7 && |s| < 2)
  }

  predicate Refused(s: seq<byte>) {
    s != [] && (s[0] !in {0xF6, 0xF7, 0xFB, 0xFC, 0xFD, 0xFE} ||
                (s[0] == 0xF7 && |s| >= 2 && FindSensorType(s[1]) == Unsupported))
  }

  /** A selection is taken exactly if it is complete and supported, and it is then the encoding of the
      command taken. */
  lemma SelectExact(s: seq<byte>)
    ensures Select(s).Closed? <==> CutShort(s) || Refused(s)
    ensures Select(s).Got? ==>
              Supported(Select(s).command) && [SYNC] + s == EncodeCommand(Select(s).command) + Select(s).rest
  {
    if Select(s).Got? {
      if s[0] == 0xFB {
        Le16OfU16(s[1], s[2]);
        assert s == [s[0], s[1], s[2]] + s[3..];
      } else if s[0] == 0xF7 {
        assert s == [s[0], s[1]] + s[2..];
      } else {
        assert s == [s[0]] + s[1..];
      }
    }
  }

  lemma {:induction false} Hunt(s: seq<byte>) returns (noise: seq<byte>, tail: seq<byte>)
    ensures s == noise + tail && SYNC !in noise && (tail != [] ==> tail[0] == SYNC)
    ensures NextCommand(s) == NextCommand(tail)
  {
    if s == [] || s[0] == SYNC {
      noise, tail := [], s;
    } else {
      noise, tail := Hunt(s[1..]);
      noise := [s[0]] + noise;
    }
  }

  lemma WireCons(r: Request, rs: seq<Request>)
    ensures Wire([r] + rs) == r.noise + (EncodeCommand(r.command) + Wire(rs))
    ensures CommandsOf([r] + rs) == [r.command] + CommandsOf(rs)
  {
    assert ([r] + rs)[1..] == rs;
  }

  // One turn of the server's loop, from the stream's side.
  lemma TurnTotal(s: seq<byte>) returns (noise: seq<byte>, tail: seq<byte>)
    ensures s == noise + tail && SYNC !in noise
    ensures var t := NextCommand(s);
            if t.Got? then Supported(t.command) && tail == EncodeCommand(t.command) + t.rest
            else tail == [] || (tail[0] == SYNC && (CutShort(tail[1..]) || Refused(tail[1..])))
  {
    noise, tail := Hunt(s);
    if tail != [] {
      SelectExact(tail[1..]);
      assert tail == [SYNC] + tail[1..];
    }
  }

  lemma ServedCons(s: seq<byte>, noise: seq<byte>, rs: seq<Request>, end: seq<byte>)
    requires NextCommand(s).Got? && s == noise + (EncodeCommand(NextCommand(s).command) + NextCommand(s).rest)
    requires NextCommand(s).rest == Wire(rs) + end && Served(NextCommand(s).rest) == CommandsOf(rs)
    ensures var first := Request(noise, NextCommand(s).command);
            s == Wire([first] + rs) + end && Served(s) == CommandsOf([first] + rs)
  {
    WireCons(Request(noise, NextCommand(s).command), rs);
  }

  /** Every stream is the wire of the commands served, each after noise without a sync byte, and then
      either nothing but noise or noise and a sync byte before a cut-off or refused command. */
  lemma {:induction false} ServedTotal(s: seq<byte>) returns (rs: seq<Request>, noise: seq<byte>, tail: seq<byte>)
    ensures s == Wire(rs) + (noise + tail) && Served(s) == CommandsOf(rs)
    ensures (forall r :: r in rs ==> ValidRequest(r)) && SYNC !in noise
    ensures tail != [] ==> tail[0] == SYNC && (CutShort(tail[1..]) || Refused(tail[1..]))
    decreases |s|
  {
    noise, tail := TurnTotal(s);
    rs := [];
    if NextCommand(s).Got? {
      var before := noise;
      rs, noise, tail := ServedTotal(NextCommand(s).rest);
      ServedCons(s, before, rs, noise + tail);
      rs := [Request(before, NextCommand(s).command)] + rs;
    }
  }

  lemma OnlyNoise(noise: seq<byte>)
    requires SYNC !in noise
    ensures Served(noise) == []
  {
    SkipNoise(noise, []);
    assert noise + [] == noise;
  }

  /** And after supported commands nothing more is served: not from noise, not from a cut-off command
      at the end, and nothing at all after a refused selection or type. */
  lemma NothingAfterRefusal(rs: seq<Request>, noise: seq<byte>, bad: seq<byte>, more: seq<byte>)
    requires (forall r :: r in rs ==> ValidRequest(r)) && SYNC !in noise
    ensures Served(Wire(rs) + noise) == CommandsOf(rs)
    ensures CutShort(bad) ==> Served(Wire(rs) + (noise + ([SYNC] + bad))) == CommandsOf(rs)
    ensures Refused(bad) ==> Served(Wire(rs) + (noise + ([SYNC] + (bad + more)))) == CommandsOf(rs)
  {
    CommandsRoundTrip(rs, noise);
    OnlyNoise(noise);
    if CutShort(bad) {
      StopsServing(rs, noise, bad);
    }
    if Refused(bad) {
      assert (bad + more)[0] == bad[0] && (|bad| >= 2 ==> (bad + more)[1] == bad[1]);
      StopsServing(rs, noise, bad + more);
    }
  }

  lemma StopsServing(rs: seq<Request>, noise: seq<byte>, s: seq<byte>)
    requires (forall r :: r in rs ==> ValidRequest(r)) && SYNC !in noise && (CutShort(s) || Refused(s))
    ensures Served(Wire(rs) + (noise + ([SYNC] + s))) == CommandsOf(rs)
  {
    var tail := [SYNC] + s;
    CommandsRoundTrip(rs, noise + tail);
    SkipNoise(noise, tail);
    assert tail[1..] == s;
    SelectExact(s);
    assert CommandsOf(rs) + [] == CommandsOf(rs);
  }

  // ---- the user's side ----

  const ULONG_MAX: nat := 0xFFFF_FFFF_FFFF_FFFF

  // The digits strtoul reads in base 16, after an optional prefix; a prefix without a digit after it
  // is the number zero.
  function HexDigits(s: string): string {
    var digits := if |s| >= 3 && s[0] == '0' && (s[1] == 'x' || s[1] == 'X') && IsDigit(s[2], 16) then s[2..] else s;
    digits[..DigitRun(digits, 16)]
  }

  // strtoul: blanks, a sign, digits; out-of-range values saturate, and a minus negates modulo 2^64.
  function ScanUnsigned(s: string): Option<nat> {
    var t := SkipSpaces(s);
    var signed := t != "" && (t[0] == '-' || t[0] == '+');
    var digits := HexDigits(if signed then t[1..] else t);
    var v := ValueOf(digits, 16);
    if digits == "" then None
    else if v > ULONG_MAX then Some(ULONG_MAX)
    else if signed && t[0] == '-' && v > 0 then Some(ULONG_MAX + 1 - v)
    else Some(v)
  }

  // The argument of GET ID.
  function ScanId(s: string): Option<uint16> {
    match ScanUnsigned(s)
    case None => None
    case Some(v) => if v > 0xFFFF then None else Some(v)
  }

  // The texts are pairwise different, so the order of the tests does not matter.
  function ParseUserCommand(text: string): Option<Command> {
    if |text| >= 7 && text[..7] == "GET ID " then
      match ScanId(text[7..])
      case None => None
      case Some(id) => Some(GetId(id))
    else if text == "GET THROUGHPUT\n" then Some(GetThroughput)
    else if text == "GET ALL\n" then Some(GetAll)
    else if text == "GET ONLINE\n" then Some(GetOnline)
    else if text == "GET OFFLINE\n" then Some(GetOffline)
    else if text == "GET TYPE POWCURRVOLT\n" then Some(GetType(0x2B))
    else if text == "GET TYPE TOR\n" then Some(GetType(0x4B))
    else if text == "GET TYPE TEMPRESS\n" then Some(GetType(0x1B))
    else if text == "GET TYPE PROX\n" then Some(GetType(0x8B))
    else None
  }

  lemma BareDigits(digits: string)
    requires digits != "" && AllDigits(digits, 16)
    ensures HexDigits(digits + "\n") == digits
  {
    var s := digits + "\n";
    DigitRunOf(digits, "\n", 16);
    assert s[..|digits|] == digits;
    if |s| >= 3 {
      assert s[1] == digits[1] && IsDigit(digits[1], 16);
    }
  }

  lemma PrefixedDigits(prefix: string, digits: string)
    requires (prefix == "0x" || prefix == "0X") && digits != "" && AllDigits(digits, 16)
    ensures HexDigits(prefix + (digits + "\n")) == digits
  {
    var s := prefix + (digits + "\n");
    assert s[0] == '0' && s[1] == prefix[1] && s[2] == digits[0] && s[2..] == digits + "\n";
    DigitRunOf(digits, "\n", 16);
    assert s[2..][..|digits|] == digits;
  }

  predicate IsSign(sign: string) {
    sign == "" || sign == "+" || sign == "-"
  }

  predicate IsPrefix(prefix: string) {
    prefix == "" || prefix == "0x" || prefix == "0X"
  }

  // A number as strtoul takes it: a minus subtracts it from 2^64, and one that is too large saturates.
  function Taken64(sign: string, v: nat): nat {
    if v >= 0x1_0000_0000_0000_0000 then 0xFFFF_FFFF_FFFF_FFFF
    else if sign == "-" && v > 0 then 0x1_0000_0000_0000_0000 - v
    else v
  }

  lemma HexAfterPrefix(prefix: string, digits: string)
    requires IsPrefix(prefix) && digits != "" && AllDigits(digits, 16)
    ensures var s := prefix + (digits + "\n");
            HexDigits(s) == digits && IsDigit(s[0], 16) && !IsSpace(s[0]) && s[0] != '-' && s[0] != '+'
  {
    if prefix == "" {
      assert prefix + (digits + "\n") == digits + "\n";
      BareDigits(digits);
    } else {
      PrefixedDigits(prefix, digits);
    }
  }

  /** Blanks, a sign and a prefix may stand before the digits. */
  lemma ScanForms(blanks: string, sign: string, prefix: string, digits: string)
    requires (forall i :: 0 <= i < |blanks| ==> IsSpace(blanks[i])) && IsSign(sign) && IsPrefix(prefix)
    requires digits != "" && AllDigits(digits, 16)
    ensures ScanUnsigned(blanks + (sign + (prefix + (digits + "\n")))) == Some(Taken64(sign, ValueOf(digits, 16)))
  {
    var tail := prefix + (digits + "\n");
    var t := sign + tail;
    HexAfterPrefix(prefix, digits);
    if sign == "" {
      assert t == tail;
    } else {
      assert t[0] == sign[0] && t[1..] == tail;
    }
    SkipBlanks(blanks, t);
  }

  lemma ParseTypedId(argument: string)
    ensures ParseUserCommand("GET ID " + argument) ==
            if ScanId(argument).Some? then Some(GetId(ScanId(argument).value)) else None
  {
    var text := "GET ID " + argument;
    assert text[..7] == "GET ID " && text[7..] == argument;
  }

  /** GET ID with a hexadecimal number, written in any of these forms and in either case, means the id
      that is the number taken, and is refused when that is no 16-bit id. */
  lemma TypedId(blanks: string, sign: string, prefix: string, digits: string)
    requires (forall i :: 0 <= i < |blanks| ==> IsSpace(blanks[i])) && IsSign(sign) && IsPrefix(prefix)
    requires digits != "" && AllDigits(digits, 16)
    ensures var v := Taken64(sign, ValueOf(digits, 16));
            ParseUserCommand("GET ID " + (blanks + (sign + (prefix + (digits + "\n"))))) ==
            if v <= 0xFFFF then Some(GetId(v)) else None
  {
    ParseTypedId(blanks + (sign + (prefix + (digits + "\n"))));
    ScanForms(blanks, sign, prefix, digits);
  }

  lemma NothingBefore(s: string)
    ensures "" + ("" + s) == s
  {
  }

  /** In particular, the digits of an id mean that id, in lower or upper case, with or without prefix. */
  lemma TypedIdDigits(id: uint16, prefix: string)
    requires IsPrefix(prefix)
    ensures ParseUserCommand("GET ID " + (prefix + (Digits(id, 16) + "\n"))) == Some(GetId(id))
    ensures ParseUserCommand("GET ID " + (prefix + (UpperText(Digits(id, 16)) + "\n"))) == Some(GetId(id))
  {
    var d := Digits(id, 16);
    DigitsRoundTrip(id, 16);
    UpperValue(d);
    TypedId("", "", prefix, d);
    TypedId("", "", prefix, UpperText(d));
    NothingBefore(prefix + (d + "\n"));
    NothingBefore(prefix + (UpperText(d) + "\n"));
  }

  /** Anything without a digit where the number should be is refused. */
  lemma NoIdTyped(blanks: string, sign: string, rest: string)
    requires (forall i :: 0 <= i < |blanks| ==> IsSpace(blanks[i])) && IsSign(sign)
    requires rest == "" || (!IsDigit(rest[0], 16) && !IsSpace(rest[0]) && rest[0] != '-' && rest[0] != '+')
    ensures ParseUserCommand("GET ID " + (blanks + (sign + rest))) == None
  {
    var t := sign + rest;
    if sign == "" {
      assert t == rest;
    } else {
      assert t[0] == sign[0] && t[1..] == rest;
    }
    SkipBlanks(blanks, t);
    assert HexDigits(rest) == "";
    ParseTypedId(blanks + t);
  }

  lemma IdPrefix(text: string)
    ensures |text| >= 7 && text[..7] == "GET ID " <==> "GET ID " <= text
    ensures |text| >= 5 && text[4] != 'I' ==> !("GET ID " <= text)
  {
    if "GET ID " <= text {
      assert text[4] == "GET ID "[4];
    }
  }

  lemma StateLines()
    ensures ParseUserCommand("GET ALL\n") == Some(GetAll)
    ensures ParseUserCommand("GET ONLINE\n") == Some(GetOnline)
    ensures ParseUserCommand("GET OFFLINE\n") == Some(GetOffline)
    ensures ParseUserCommand("GET THROUGHPUT\n") == Some(GetThroughput)
  {
    IdPrefix("GET ALL\n");
    IdPrefix("GET ONLINE\n");
    IdPrefix("GET OFFLINE\n");
    IdPrefix("GET THROUGHPUT\n");
  }

  lemma TypeLines()
    ensures ParseUserCommand("GET TYPE TEMPRESS\n") == Some(GetType(0x1B))
    ensures ParseUserCommand("GET TYPE POWCURRVOLT\n") == Some(GetType(0x2B))
    ensures ParseUserCommand("GET TYPE TOR\n") == Some(GetType(0x4B))
    ensures ParseUserCommand("GET TYPE PROX\n") == Some(GetType(0x8B))
  {
    IdPrefix("GET TYPE TEMPRESS\n");
    IdPrefix("GET TYPE POWCURRVOLT\n");
    IdPrefix("GET TYPE TOR\n");
    IdPrefix("GET TYPE PROX\n");
  }

  // The line is sent as these bytes, and those are served as this command, whatever follows.
  ghost predicate Sends(text: string, bytes: seq<byte>, c: Command) {
    && ParseUserCommand(text) == Some(c) && EncodeCommand(c) == bytes
    && forall rest: seq<byte> :: NextCommand(bytes + rest) == Got(c, rest)
  }

  lemma SendsBytes(text: string, bytes: seq<byte>, c: Command)
    requires ParseUserCommand(text) == Some(c) && EncodeCommand(c) == bytes && Supported(c)
    ensures Sends(text, bytes, c)
  {
    forall rest: seq<byte>
      ensures NextCommand(bytes + rest) == Got(c, rest)
    {
      SelectEncoded(c, rest);
    }
  }

  /** What each of the other lines sends, and what the server makes of it. */
  lemma TypedBytes()
    ensures Sends("GET ALL\n", [0xAA, 0xF6], GetAll)
    ensures Sends("GET ONLINE\n", [0xAA, 0xFD], GetOnline) && Sends("GET OFFLINE\n", [0xAA, 0xFE], GetOffline)
    ensures Sends("GET THROUGHPUT\n", [0xAA, 0xFC], GetThroughput)
  {
    StateLines();
    SendsBytes("GET ALL\n", [0xAA, 0xF6], GetAll);
    SendsBytes("GET ONLINE\n", [0xAA, 0xFD], GetOnline);
    SendsBytes("GET OFFLINE\n", [0xAA, 0xFE], GetOffline);
    SendsBytes("GET THROUGHPUT\n", [0xAA, 0xFC], GetThroughput);
  }

  /** The same of the four types. */
  lemma TypedTypeBytes()
    ensures Sends("GET TYPE TEMPRESS\n", [0xAA, 0xF7, 0x1B], GetType(0x1B))
    ensures Sends("GET TYPE POWCURRVOLT\n", [0xAA, 0xF7, 0x2B], GetType(0x2B))
    ensures Sends("GET TYPE TOR\n", [0xAA, 0xF7, 0x4B], GetType(0x4B))
    ensures Sends("GET TYPE PROX\n", [0xAA, 0xF7, 0x8B], GetType(0x8B))
  {
    TypeLines();
    SendsBytes("GET TYPE TEMPRESS\n", [0xAA, 0xF7, 0x1B], GetType(0x1B));
    SendsBytes("GET TYPE POWCURRVOLT\n", [0xAA, 0xF7, 0x2B], GetType(0x2B));
    SendsBytes("GET TYPE TOR\n", [0xAA, 0xF7, 0x4B], GetType(0x4B));
    SendsBytes("GET TYPE PROX\n", [0xAA, 0xF7, 0x8B], GetType(0x8B));
  }

  /** A GET ID is sent as its selection byte and the id, low byte first. */
  lemma IdBytes(id: uint16, rest: seq<byte>)
    ensures EncodeCommand(GetId(id)) == [0xAA, 0xFB, id % 256, id / 256]
    ensures NextCommand([0xAA, 0xFB, id % 256, id / 256] + rest) == Got(GetId(id), rest)
  {
    SelectEncoded(GetId(id), rest);
  }

  /** And no other line sends anything, except a GET ID with an id. */
  lemma AcceptedLines(text: string)
    ensures ParseUserCommand(text).Some? <==>
            || text == "GET ALL\n" || text == "GET ONLINE\n" || text == "GET OFFLINE\n" || text == "GET THROUGHPUT\n"
            || text == "GET TYPE TEMPRESS\n" || text == "GET TYPE POWCURRVOLT\n"
            || text == "GET TYPE TOR\n" || text == "GET TYPE PROX\n"
            || ("GET ID " <= text && ScanId(text[7..]).Some?)
  {
    IdPrefix(text);
    StateLines();
    TypeLines();
  }

  /** Every command line the client accepts is served by the server as the command meant, whatever
      stray bytes came before it. */
  lemma TypedCommandServed(text: string, noise: seq<byte>)
    requires SYNC !in noise && ParseUserCommand(text).Some?
    ensures var c := ParseUserCommand(text).value; Served(noise + EncodeCommand(c)) == [c]
  {
    var c := ParseUserCommand(text).value;
    var rs := [Request(noise, c)];
    CommandsRoundTrip(rs, []);
    assert CommandsOf(rs[1..]) == [] && Wire(rs[1..]) == [];
    assert Wire(rs) + [] == noise + EncodeCommand(c);
  }
}
