/** How a person reads what the gateway prints: measurements, sensor names, answer lines, log files.
    Nothing here refers to the code that prints them. */
module Readers {
  import opened Bytes
  import opened Text
  import opened Sense

  // The first place of a character, or the length.
  function IndexOf(s: string, c: char): (i: nat)
    ensures i <= |s| && (i < |s| ==> s[i] == c)
    ensures forall j :: 0 <= j < i ==> s[j] != c
  {
    if s == "" || s[0] == c then 0 else 1 + IndexOf(s[1..], c)
  }

  // ---- measurements ----

  function MeasurementRun(s: string): (r: nat)
    ensures r <= |s|
  {
    if s != "" && IsMeasurementChar(s[0]) then 1 + MeasurementRun(s[1..]) else 0
  }

  // The number in front of a unit, in millionths, and what follows the unit.
  function ReadField(s: string, unit: string): Option<(int, string)> {
    var r := MeasurementRun(s);
    var rest := s[r..];
    if ReadFixed(s[..r]).None? || |rest| < |unit| || rest[..|unit|] != unit then None
    else Some((ReadFixed(s[..r]).value, rest[|unit|..]))
  }

  // All numbers of a text whose units are known.
  function ReadFields(s: string, units: seq<string>): Option<seq<int>> {
    if units == [] then if s == "" then Some([]) else None
    else match ReadField(s, units[0])
      case None => None
      case Some((v, rest)) =>
        match ReadFields(rest, units[1..])
        case None => None
        case Some(vs) => Some([v] + vs)
  }

  // What each type of sensor measures, and the unit of each measurement with what separates it from
  // the next.
  datatype Column = Column(title: string, unit: string)

  function Columns(t: SensorType): seq<Column> {
    match t
    case PowCurrVolt => [Column("power", "W :: "), Column("current", "A :: "), Column("voltage", "V")]
    case TempPress => [Column("temperature", "C :: "), Column("pressure", "Pa")]
    case Proximity => [Column("proximity", "m")]
    case Torque => [Column("torque", "Nm")]
    case Unsupported => []
  }

  function UnitsIn(columns: seq<Column>): seq<string> {
    if columns == [] then [] else [columns[0].unit] + UnitsIn(columns[1..])
  }

  // ---- names ----

  // A sensor's name says its type and, in hexadecimal, its id.
  function ReadName(name: string): Option<(SensorType, nat)> {
    if "TPS_0X" <= name then ReadId(TempPress, name[6..])
    else if "PCVS_0X" <= name then ReadId(PowCurrVolt, name[7..])
    else if "TORQS_0X" <= name then ReadId(Torque, name[8..])
    else if "PROXS_0X" <= name then ReadId(Proximity, name[8..])
    else None
  }

  function ReadId(t: SensorType, digits: string): Option<(SensorType, nat)> {
    if digits != "" && AllDigits(digits, 16) then Some((t, ValueOf(digits, 16))) else None
  }

  // ---- answer lines ----

  datatype Answer = Answer(stamp: string, stype: SensorType, id: nat, readings: seq<int>)

  // The text before the first ": " and the text after it.
  function CutColon(s: string): Option<(string, string)> {
    if |s| < 2 then None
    else if s[0] == ':' && s[1] == ' ' then Some(("", s[2..]))
    else match CutColon(s[1..])
      case None => None
      case Some((before, after)) => Some(([s[0]] + before, after))
  }

  // A time, a name and the measurements of the type that the name tells.
  function ReadAnswer(line: string): Option<Answer> {
    match CutColon(line)
    case None => None
    case Some((stamp, rest)) =>
      match CutColon(rest)
      case None => None
      case Some((name, data)) =>
        match ReadName(name)
        case None => None
        case Some((t, id)) =>
          match ReadFields(data, UnitsIn(Columns(t)))
          case None => None
          case Some(readings) => Some(Answer(stamp, t, id, readings))
  }

  // ---- log files ----

  datatype Entry = Entry(stamp: string, readings: seq<int>)

  datatype Log = Log(columns: seq<Column>, entries: seq<Entry>)

  // "<title>unit" for each column.
  function ReadColumns(s: string): Option<seq<Column>>
    decreases |s|
  {
    if s == "" then Some([])
    else
      var i := IndexOf(s, '>');
      if s[0] != '<' || i == |s| then None
      else
        var j := i + 1 + IndexOf(s[i + 1..], '<');
        match ReadColumns(s[j..])
        case None => None
        case Some(more) => Some([Column(s[1..i], s[i + 1..j])] + more)
  }

  const LOG_TITLE: string := "<Timestamp> -> "

  function ReadHeader(line: string): Option<seq<Column>> {
    if LOG_TITLE <= line then ReadColumns(line[|LOG_TITLE|..]) else None
  }

  // A time, an arrow and the measurements.
  function ReadRow(line: string, units: seq<string>): Option<Entry> {
    var i := IndexOf(line, '>');
    if i < 2 || |line| < i + 2 || line[i - 2..i + 2] != " -> " then None
    else match ReadFields(line[i + 2..], units)
      case None => None
      case Some(readings) => Some(Entry(line[..i - 2], readings))
  }

  function ReadRows(s: string, units: seq<string>): Option<seq<Entry>>
    decreases |s|
  {
    var i := IndexOf(s, '\n');
    if s == "" then Some([])
    else if i == |s| then None
    else match ReadRow(s[..i], units)
      case None => None
      case Some(entry) =>
        match ReadRows(s[i + 1..], units)
        case None => None
        case Some(more) => Some([entry] + more)
  }

  // The first line tells the columns, and with them the units of the others.
  function ReadLog(text: string): Option<Log> {
    var i := IndexOf(text, '\n');
    if i == |text| then None
    else match ReadHeader(text[..i])
      case None => None
      case Some(columns) =>
        match ReadRows(text[i + 1..], UnitsIn(columns))
        case None => None
        case Some(entries) => Some(Log(columns, entries))
  }

  // ---- reading by parts ----

  lemma IndexOfIs(s: string, c: char, i: nat)
    requires i < |s| && s[i] == c && forall j :: 0 <= j < i ==> s[j] != c
    ensures IndexOf(s, c) == i
  {
  }

  lemma IndexOfNone(s: string, c: char)
    requires c !in s
    ensures IndexOf(s, c) == |s|
  {
  }

  lemma Cut(a: string, b: string)
    ensures (a + b)[..|a|] == a && (a + b)[|a|..] == b
  {
  }

  lemma {:induction false} CutColonAt(before: string, after: string)
    requires NoColonBlank(before)
    ensures CutColon(before + (": " + after)) == Some((before, after))
  {
    var s := before + (": " + after);
    if before == "" {
      assert s == ": " + after && s[2..] == after;
    } else {
      assert s[0] == before[0] && s[1..] == before[1..] + (": " + after);
      assert s[1] == if |before| > 1 then before[1] else ':';
      assert NoColonBlank(before[1..]) && before == [before[0]] + before[1..];
      CutColonAt(before[1..], after);
    }
  }

  lemma {:induction false} MeasurementRunOf(s: string, rest: string)
    requires forall i :: 0 <= i < |s| ==> IsMeasurementChar(s[i])
    requires rest != "" && !IsMeasurementChar(rest[0])
    ensures MeasurementRun(s + rest) == |s|
  {
    if s == "" {
      assert s + rest == rest;
    } else {
      assert (s + rest)[1..] == s[1..] + rest;
      MeasurementRunOf(s[1..], rest);
    }
  }

  function ColumnText(c: Column): string {
    "<" + (c.title + (">" + c.unit))
  }

  function ColumnsText(cs: seq<Column>): string {
    if cs == [] then "" else ColumnText(cs[0]) + ColumnsText(cs[1..])
  }

  predicate ValidColumn(c: Column) {
    '>' !in c.title && '<' !in c.unit && Clean(c.title) && Clean(c.unit)
  }

  lemma {:induction false} ColumnsClean(cs: seq<Column>)
    requires forall c :: c in cs ==> ValidColumn(c)
    ensures Clean(ColumnsText(cs))
  {
    if cs != [] {
      assert cs[0] in cs;
      ColumnsClean(cs[1..]);
    }
  }

  lemma TitleEnds(title: string, after: string)
    requires '>' !in title
    ensures var s := "<" + (title + (">" + after)); var i := 1 + |title|;
            IndexOf(s, '>') == i && s[1..i] == title && s[i + 1..] == after
  {
    var s, i := "<" + (title + (">" + after)), 1 + |title|;
    forall k | 0 <= k < i
      ensures s[k] != '>'
    {
      assert k > 0 ==> s[k] == title[k - 1] && title[k - 1] in title;
    }
    IndexOfIs(s, '>', i);
  }

  lemma UnitEnds(unit: string, rest: string)
    requires '<' !in unit && (rest == "" || rest[0] == '<')
    ensures IndexOf(unit + rest, '<') == |unit|
  {
    if rest == "" {
      assert unit + rest == unit;
      IndexOfNone(unit, '<');
    } else {
      forall k | 0 <= k < |unit|
        ensures (unit + rest)[k] != '<'
      {
        assert unit[k] in unit;
      }
      IndexOfIs(unit + rest, '<', |unit|);
    }
  }

  lemma ColumnTextRest(c: Column, rest: string)
    ensures ColumnText(c) + rest == "<" + (c.title + (">" + (c.unit + rest)))
  {
    var tail := ">" + c.unit;
    assert tail + rest == ">" + (c.unit + rest);
    assert (c.title + tail) + rest == c.title + (tail + rest);
  }

  lemma ReadColumn(title: string, unit: string, rest: string)
    requires '>' !in title && '<' !in unit && (rest == "" || rest[0] == '<')
    ensures var s := "<" + (title + (">" + (unit + rest))); var i := 1 + |title|; var j := i + 1 + |unit|;
            && s[0] == '<' && IndexOf(s, '>') == i && IndexOf(s[i + 1..], '<') == |unit|
            && s[1..i] == title && s[i + 1..j] == unit && s[j..] == rest
  {
    var s, i := "<" + (title + (">" + (unit + rest))), 1 + |title|;
    TitleEnds(title, unit + rest);
    UnitEnds(unit, rest);
    Cut(unit, rest);
    assert s[i + 1..][..|unit|] == unit && s[i + 1..][|unit|..] == rest;
  }

  lemma ReadColumnsStep(c: Column, rest: string, more: seq<Column>)
    requires ValidColumn(c) && (rest == "" || rest[0] == '<') && ReadColumns(rest) == Some(more)
    ensures ReadColumns(ColumnText(c) + rest) == Some([c] + more)
  {
    ColumnTextRest(c, rest);
    ReadColumn(c.title, c.unit, rest);
  }

  lemma {:induction false} ReadColumnsText(cs: seq<Column>)
    requires forall i :: 0 <= i < |cs| ==> ValidColumn(cs[i])
    ensures ReadColumns(ColumnsText(cs)) == Some(cs)
    ensures cs != [] ==> ColumnsText(cs) != "" && ColumnsText(cs)[0] == '<'
  {
    if cs != [] {
      ReadColumnsText(cs[1..]);
      ReadColumnsStep(cs[0], ColumnsText(cs[1..]), cs[1..]);
      assert cs == [cs[0]] + cs[1..];
    }
  }
}
