/** logging_d: one file per sensor, a header line when the file is empty, then one row per frame. */
module LogFile {
  import opened Bytes
  import opened Text
  import opened Sense
  import opened Readers
  import opened Seqs
  import opened Transport

  // A logged frame with the local-time text of its timestamp.
  datatype Row = Row(frame: Sensor, stamp: string)

  function Header(t: SensorType): string {
    match t
    case PowCurrVolt => "<Timestamp> -> <power>W :: <current>A :: <voltage>V\n"
    case TempPress => "<Timestamp> -> <temperature>C :: <pressure>Pa\n"
    case Proximity => "<Timestamp> -> <proximity>m\n"
    case Torque => "<Timestamp> -> <torque>Nm\n"
    case Unsupported => ""
  }

  // A measurement as it is printed: value/scale, then the text up to the next measurement.
  datatype Field = Field(value: int32, scale: nat, unit: string)

  predicate ValidField(f: Field) {
    (f.scale == 10 || f.scale == 100) && f.unit != "" && !IsMeasurementChar(f.unit[0])
  }

  // The measurements of each type. Unsigned fields pass through int32.
  function Fields(t: SensorType, d: SensorData): seq<Field> {
    match t
    case PowCurrVolt => [Field(d.w0, 10, "W :: "), Field(d.w1, 100, "A :: "), Field(d.w2, 100, "V")]
    case TempPress => [Field(d.w0, 10, "C :: "), Field(AsInt32(AsUint32(d.w1)), 100, "Pa")]
    case Proximity => [Field(AsInt32(AsUint32(d.w0)), 10, "m")]
    case Torque => [Field(d.w0, 10, "Nm")]
    case Unsupported => []
  }

  function FieldText(f: Field): string {
    if f.scale == 10 || f.scale == 100 then MeasurementText(f.value, f.scale) else ""
  }

  function JoinFields(fs: seq<Field>): string {
    if fs == [] then "" else FieldText(fs[0]) + (fs[0].unit + JoinFields(fs[1..]))
  }

  // The measurements as text: in a row, and what getDataString returns.
  function DataString(t: SensorType, d: SensorData): string {
    JoinFields(Fields(t, d))
  }

  function RowText(row: Row): string {
    row.stamp + " -> " + DataString(row.frame.stype, row.frame.data) + "\n"
  }

  type Files = map<string, string>

  function Content(files: Files, path: string): string {
    if path in files then files[path] else ""
  }

  // Appending a line, after a header when the file is still empty.
  function AppendLine(files: Files, path: string, header: string, line: string): Files {
    files[path := Content(files, path) + Addition(Content(files, path), header, line)]
  }

  function Addition(content: string, header: string, line: string): string {
    (if content == "" then header else "") + line
  }

  function AppendRow(files: Files, row: Row): Files {
    AppendLine(files, LogPath(row.frame.name), Header(row.frame.stype), RowText(row))
  }

  function FilesAfter(rows: seq<Row>): Files {
    if rows == [] then map[] else AppendRow(FilesAfter(rows[..|rows| - 1]), rows[|rows| - 1])
  }

  function ForKey(k: Key): Row -> bool {
    (row: Row) => KeyOf(row.frame) == k
  }

  function RowsText(rows: seq<Row>): string {
    if rows == [] then "" else RowsText(rows[..|rows| - 1]) + RowText(rows[|rows| - 1])
  }

  ghost predicate Named(f: Sensor) {
    f.stype != Unsupported && f.name == NameSensor(f.id, f.stype)
  }

  // A file with this header and these rows, if there are any.
  function FileText(header: string, rows: seq<Row>): string {
    if rows == [] then "" else header + RowsText(rows)
  }

  lemma HeadersNotEmpty(t: SensorType)
    requires t != Unsupported
    ensures 0 < |Header(t)| < 300
  {
  }

  lemma CleanJoin(a: string, b: string)
    requires Clean(a) && Clean(b)
    ensures Clean(a + b) && |a + b| == |a| + |b|
  {
  }

  lemma FieldClean(f: Field, rest: string)
    requires ValidField(f) && Clean(f.unit) && |f.unit| <= 5 && Clean(rest)
    ensures var s := FieldText(f) + (f.unit + rest); Clean(s) && |s| <= 22 + |rest|
  {
    MeasurementTextShape(f.value, f.scale);
    CleanJoin(f.unit, rest);
    CleanJoin(FieldText(f), f.unit + rest);
  }

  lemma {:induction false} FieldsClean(fs: seq<Field>)
    requires forall i :: 0 <= i < |fs| ==> ValidField(fs[i]) && Clean(fs[i].unit) && |fs[i].unit| <= 5
    ensures Clean(JoinFields(fs)) && |JoinFields(fs)| <= 22 * |fs|
  {
    if fs != [] {
      FieldsClean(fs[1..]);
      FieldClean(fs[0], JoinFields(fs[1..]));
    }
  }

  lemma FieldsValid(t: SensorType, d: SensorData)
    ensures |Fields(t, d)| <= 3
    ensures forall i :: 0 <= i < |Fields(t, d)| ==>
              ValidField(Fields(t, d)[i]) && Clean(Fields(t, d)[i].unit) && |Fields(t, d)[i].unit| <= 5
  {
  }

  lemma DataStringShape(t: SensorType, d: SensorData)
    ensures |DataString(t, d)| <= 66 && Clean(DataString(t, d))
  {
    FieldsValid(t, d);
    FieldsClean(Fields(t, d));
  }

  // ---- reading the measurements back ----

  // What the sensor measured, in millionths of its units: power, current and voltage; temperature
  // and pressure; distance; torque.
  function Readings(t: SensorType, d: SensorData): seq<int> {
    match t
    case PowCurrVolt => [InMicros(d.w0, 10), InMicros(d.w1, 100), InMicros(d.w2, 100)]
    case TempPress => [InMicros(d.w0, 10), InMicros(d.w1, 100)]
    case Proximity => [InMicros(d.w0, 10)]
    case Torque => [InMicros(d.w0, 10)]
    case Unsupported => []
  }

  lemma ReadFieldOf(value: int32, scale: nat, unit: string, rest: string)
    requires scale == 10 || scale == 100
    requires unit != "" && !IsMeasurementChar(unit[0])
    ensures ReadField(MeasurementText(value, scale) + (unit + rest), unit) == Some((InMicros(value, scale), rest))
  {
    var m := MeasurementText(value, scale);
    MeasurementTextShape(value, scale);
    ReadMeasurement(value, scale);
    MeasurementRunOf(m, unit + rest);
    Cut(m, unit + rest);
    Cut(unit, rest);
  }

  function UnitsOf(fs: seq<Field>): seq<string> {
    if fs == [] then [] else [fs[0].unit] + UnitsOf(fs[1..])
  }

  function FieldValue(f: Field): int {
    if f.scale == 10 then InMicros(f.value, 10) else InMicros(f.value, 100)
  }

  function ValuesOf(fs: seq<Field>): seq<int> {
    if fs == [] then [] else [FieldValue(fs[0])] + ValuesOf(fs[1..])
  }

  lemma ReadJoinedStep(f: Field, tail: string, units: seq<string>, vs: seq<int>)
    requires ValidField(f) && ReadFields(tail, units) == Some(vs)
    ensures ReadFields(FieldText(f) + (f.unit + tail), [f.unit] + units) == Some([FieldValue(f)] + vs)
  {
    ReadFieldOf(f.value, f.scale, f.unit, tail);
    assert ([f.unit] + units)[1..] == units;
  }

  lemma {:induction false} ReadJoined(fs: seq<Field>)
    requires forall i :: 0 <= i < |fs| ==> ValidField(fs[i])
    ensures ReadFields(JoinFields(fs), UnitsOf(fs)) == Some(ValuesOf(fs))
  {
    if fs != [] {
      ReadJoined(fs[1..]);
      ReadJoinedStep(fs[0], JoinFields(fs[1..]), UnitsOf(fs[1..]), ValuesOf(fs[1..]));
    }
  }

  lemma FieldsCons(f: Field, fs: seq<Field>)
    ensures UnitsOf([f] + fs) == [f.unit] + UnitsOf(fs)
    ensures ValuesOf([f] + fs) == [FieldValue(f)] + ValuesOf(fs)
  {
    assert ([f] + fs)[1..] == fs;
  }

  lemma OneField(f: Field)
    ensures UnitsOf([f]) == [f.unit] && ValuesOf([f]) == [FieldValue(f)]
  {
    FieldsCons(f, []);
    assert [f] + [] == [f];
  }

  lemma TwoFields(f: Field, g: Field)
    ensures UnitsOf([f, g]) == [f.unit, g.unit] && ValuesOf([f, g]) == [FieldValue(f), FieldValue(g)]
  {
    OneField(g);
    FieldsCons(f, [g]);
    assert [f] + [g] == [f, g];
  }

  lemma UnitsOfType(t: SensorType)
    ensures UnitsIn(Columns(t)) ==
            match t
            case PowCurrVolt => ["W :: ", "A :: ", "V"]
            case TempPress => ["C :: ", "Pa"]
            case Proximity => ["m"]
            case Torque => ["Nm"]
            case Unsupported => []
  {
    var cs := Columns(t);
    assert |cs| > 0 ==> UnitsIn(cs) == [cs[0].unit] + UnitsIn(cs[1..]);
    assert |cs| > 1 ==> UnitsIn(cs[1..]) == [cs[1].unit] + UnitsIn(cs[2..]);
    assert |cs| > 2 ==> UnitsIn(cs[2..]) == [cs[2].unit] + UnitsIn(cs[3..]);
  }

  lemma FieldsOfType(t: SensorType, d: SensorData)
    ensures UnitsOf(Fields(t, d)) == UnitsIn(Columns(t)) && ValuesOf(Fields(t, d)) == Readings(t, d)
  {
    var fs := Fields(t, d);
    UnitsOfType(t);
    match t
    case PowCurrVolt =>
      TwoFields(fs[1], fs[2]);
      FieldsCons(fs[0], [fs[1], fs[2]]);
      assert fs == [fs[0]] + [fs[1], fs[2]];
    case TempPress => TwoFields(fs[0], fs[1]);
    case Unsupported =>
    case _ => OneField(fs[0]);
  }

  /** The text of a record names every measurement, exactly and under its own unit: reading it back
      by units returns the measured integers. */
  lemma DataStringRoundTrip(t: SensorType, d: SensorData)
    ensures ReadFields(DataString(t, d), UnitsIn(Columns(t))) == Some(Readings(t, d))
  {
    FieldsValid(t, d);
    ReadJoined(Fields(t, d));
    FieldsOfType(t, d);
  }

  /** A row fits the 300-byte buffer it is formatted in, and is one line. */
  lemma RowFits(row: Row)
    requires IsTimeText(row.stamp)
    ensures |RowText(row)| < 300
    ensures RowText(row)[|RowText(row)| - 1] == '\n'
    ensures forall i :: 0 <= i < |RowText(row)| - 1 ==> RowText(row)[i] != '\n'
  {
    DataStringShape(row.frame.stype, row.frame.data);
  }

  lemma RowsTextSnoc(rows: seq<Row>, row: Row)
    ensures RowsText(rows + [row]) == RowsText(rows) + RowText(row)
  {
    Last(rows, row);
  }

  lemma FileTextSnoc(header: string, rows: seq<Row>, row: Row)
    requires header != ""
    ensures FileText(header, rows) + Addition(FileText(header, rows), header, RowText(row)) ==
            FileText(header, rows + [row])
  {
    RowsTextSnoc(rows, row);
    Regroup(header, RowsText(rows), RowText(row));
  }

  ghost predicate HasShape(files: Files, path: string, header: string, mine: seq<Row>) {
    Content(files, path) == FileText(header, mine) && (path in files <==> mine != [])
  }

  lemma ShapeStep(files: Files, path: string, header: string, mine: seq<Row>, path': string, header': string, row: Row)
    requires HasShape(files, path, header, mine) && header != ""
    requires path == path' ==> header == header'
    ensures HasShape(AppendLine(files, path', header', RowText(row)), path, header,
                     if path == path' then mine + [row] else mine)
  {
    if path == path' {
      FileTextSnoc(header, mine, row);
    }
  }

  /** The sensor's file is one header line followed by these rows, or absent without rows. */
  ghost predicate FileHolds(files: Files, k: Key, mine: seq<Row>) {
    HasShape(files, LogPath(NameSensor(k.id, k.stype)), Header(k.stype), mine)
  }

  lemma FileHoldsStep(files: Files, mine: seq<Row>, row: Row, k: Key)
    requires Named(row.frame) && k.stype != Unsupported
    requires FileHolds(files, k, mine)
    ensures FileHolds(AppendRow(files, row), k, if ForKey(k)(row) then mine + [row] else mine)
  {
    var path, path' := LogPath(NameSensor(k.id, k.stype)), LogPath(row.frame.name);
    assert path == path' <==> KeyOf(row.frame) == k by {
      NamesInjective(k.id, k.stype, row.frame.id, row.frame.stype);
    }
    assert Header(k.stype) != "" by {
      HeadersNotEmpty(k.stype);
    }
    ShapeStep(files, path, Header(k.stype), mine, path', Header(row.frame.stype), row);
  }

  lemma FileHoldsSnoc(earlier: seq<Row>, last: Row, k: Key)
    requires Named(last.frame) && k.stype != Unsupported
    requires FileHolds(FilesAfter(earlier), k, Filter(ForKey(k), earlier))
    ensures FileHolds(FilesAfter(earlier + [last]), k, Filter(ForKey(k), earlier + [last]))
  {
    assert (earlier + [last])[..|earlier|] == earlier;
    FilterSnoc(ForKey(k), earlier, last);
    FileHoldsStep(FilesAfter(earlier), Filter(ForKey(k), earlier), last, k);
  }

  /** Each sensor's file is one header line followed by that sensor's rows in order, and nothing
      from any other sensor; a sensor with no rows has no file. */
  lemma {:induction false} LogFileShape(rows: seq<Row>, k: Key)
    requires forall row :: row in rows ==> Named(row.frame)
    requires k.stype != Unsupported
    ensures FileHolds(FilesAfter(rows), k, Filter(ForKey(k), rows))
  {
    if rows == [] {
      assert FilesAfter(rows) == map[];
      assert Filter(ForKey(k), rows) == [];
    } else {
      var n := |rows| - 1;
      var earlier, last := rows[..n], rows[n];
      assert rows == earlier + [last];
      LogFileShape(earlier, k);
      FileHoldsSnoc(earlier, last, k);
    }
  }

  // ---- reading a file back ----

  function EntryOf(row: Row): Entry {
    Entry(row.stamp, Readings(row.frame.stype, row.frame.data))
  }

  function EntriesOf(rows: seq<Row>): seq<Entry> {
    if rows == [] then [] else [EntryOf(rows[0])] + EntriesOf(rows[1..])
  }

  lemma {:induction false} EntriesSnoc(rows: seq<Row>, row: Row)
    ensures EntriesOf(rows + [row]) == EntriesOf(rows) + [EntryOf(row)]
  {
    if rows == [] {
      assert rows + [row] == [row] && [row][1..] == [];
    } else {
      assert (rows + [row])[1..] == rows[1..] + [row];
      EntriesSnoc(rows[1..], row);
    }
  }

  lemma ArrowAt(stamp: string, data: string)
    requires '>' !in stamp
    ensures var line := stamp + " -> " + data; var i := |stamp| + 2;
            IndexOf(line, '>') == i && line[i - 2..i + 2] == " -> " && line[..i - 2] == stamp && line[i + 2..] == data
  {
    var line := stamp + " -> " + data;
    forall j | 0 <= j < |stamp|
      ensures line[j] != '>'
    {
      assert line[j] == stamp[j] && stamp[j] in stamp;
    }
    assert line[|stamp|] == ' ' && line[|stamp| + 1] == '-' && line[|stamp| + 2] == '>' && line[|stamp| + 3] == ' ';
    IndexOfIs(line, '>', |stamp| + 2);
  }

  // A line with its newline is cut off where it ends.
  lemma LineCut(line: string, rest: string)
    requires Clean(line)
    ensures var s := line + "\n" + rest; var i := IndexOf(s, '\n'); i == |line| && s[..i] == line && s[i + 1..] == rest
  {
    var s := line + "\n" + rest;
    assert forall j :: 0 <= j < |line| ==> s[j] == line[j];
    IndexOfIs(s, '\n', |line|);
  }

  lemma ReadRowLine(stamp: string, data: string, units: seq<string>, readings: seq<int>)
    requires IsTimeText(stamp) && ReadFields(data, units) == Some(readings)
    ensures ReadRow(stamp + " -> " + data, units) == Some(Entry(stamp, readings))
  {
    ArrowAt(stamp, data);
  }

  lemma RowLineClean(stamp: string, data: string)
    requires Clean(stamp) && Clean(data)
    ensures Clean(stamp + " -> " + data)
  {
  }

  lemma ReadRowText(row: Row)
    requires IsTimeText(row.stamp)
    ensures var t := row.frame.stype; var line := row.stamp + " -> " + DataString(t, row.frame.data);
            && Clean(line) && RowText(row) == line + "\n"
            && ReadRow(line, UnitsIn(Columns(t))) == Some(EntryOf(row))
  {
    var t, d := row.frame.stype, row.frame.data;
    DataStringShape(t, d);
    RowLineClean(row.stamp, DataString(t, d));
    DataStringRoundTrip(t, d);
    ReadRowLine(row.stamp, DataString(t, d), UnitsIn(Columns(t)), Readings(t, d));
  }

  lemma RowsTextStep(first: Row, rows: seq<Row>, row: Row)
    requires RowsText([first] + rows) == RowText(first) + RowsText(rows)
    ensures RowsText([first] + (rows + [row])) == RowText(first) + RowsText(rows + [row])
  {
    Regroup([first], rows, [row]);
    RowsTextSnoc([first] + rows, row);
    RowsTextSnoc(rows, row);
    Regroup(RowText(first), RowsText(rows), RowText(row));
  }

  lemma RowsTextOne(first: Row)
    ensures RowsText([first] + []) == RowText(first) + RowsText([])
  {
    RowsTextSnoc([], first);
    assert [] + [first] == [first] + [];
  }

  lemma {:induction false} RowsTextCons(first: Row, rows: seq<Row>)
    ensures RowsText([first] + rows) == RowText(first) + RowsText(rows)
  {
    if rows == [] {
      RowsTextOne(first);
    } else {
      var earlier, row := rows[..|rows| - 1], rows[|rows| - 1];
      assert rows == earlier + [row];
      RowsTextCons(first, earlier);
      RowsTextStep(first, earlier, row);
    }
  }

  lemma ReadRowsStep(row: Row, tail: string, more: seq<Entry>)
    requires IsTimeText(row.stamp) && ReadRows(tail, UnitsIn(Columns(row.frame.stype))) == Some(more)
    ensures ReadRows(RowText(row) + tail, UnitsIn(Columns(row.frame.stype))) == Some([EntryOf(row)] + more)
  {
    ReadRowText(row);
    LineCut(row.stamp + " -> " + DataString(row.frame.stype, row.frame.data), tail);
  }

  ghost predicate RowsOfType(rows: seq<Row>, t: SensorType) {
    forall i :: 0 <= i < |rows| ==> IsTimeText(rows[i].stamp) && rows[i].frame.stype == t
  }

  lemma {:induction false} ReadRowsText(rows: seq<Row>, t: SensorType)
    requires RowsOfType(rows, t)
    ensures ReadRows(RowsText(rows), UnitsIn(Columns(t))) == Some(EntriesOf(rows))
  {
    if rows != [] {
      ReadRowsText(rows[1..], t);
      RowsTextCons(rows[0], rows[1..]);
      assert rows == [rows[0]] + rows[1..];
      ReadRowsStep(rows[0], RowsText(rows[1..]), EntriesOf(rows[1..]));
    }
  }

  lemma OneColumn(c: Column)
    ensures ColumnsText([c]) == ColumnText(c)
  {
    assert ColumnsText([c][1..]) == "";
  }

  lemma MoreColumns(c: Column, cs: seq<Column>)
    ensures ColumnsText([c] + cs) == ColumnText(c) + ColumnsText(cs)
  {
    assert ([c] + cs)[1..] == cs;
  }

  lemma PowerColumnsFit()
    ensures ValidColumn(Column("power", "W :: ")) && ValidColumn(Column("current", "A :: "))
  {
  }

  lemma VoltageColumnFits()
    ensures ValidColumn(Column("voltage", "V")) && ValidColumn(Column("torque", "Nm"))
  {
  }

  lemma TemperatureColumnFits()
    ensures ValidColumn(Column("temperature", "C :: "))
  {
  }

  lemma PressureColumnFits()
    ensures ValidColumn(Column("pressure", "Pa")) && ValidColumn(Column("proximity", "m"))
  {
  }

  lemma ColumnsFit(t: SensorType)
    ensures forall c :: c in Columns(t) ==> ValidColumn(c)
  {
    PowerColumnsFit();
    VoltageColumnFits();
    TemperatureColumnFits();
    PressureColumnFits();
  }

  lemma PowerColumns()
    ensures ColumnsText(Columns(PowCurrVolt)) == "<power>W :: " + ("<current>A :: " + "<voltage>V")
  {
    var a, b, c := Column("power", "W :: "), Column("current", "A :: "), Column("voltage", "V");
    OneColumn(c);
    MoreColumns(b, [c]);
    MoreColumns(a, [b, c]);
    assert [b] + [c] == [b, c] && [a] + [b, c] == Columns(PowCurrVolt);
    assert ColumnText(a) == "<power>W :: ";
    assert ColumnText(b) == "<current>A :: ";
    assert ColumnText(c) == "<voltage>V";
  }

  lemma PowerHeader()
    ensures Header(PowCurrVolt) == LOG_TITLE + ("<power>W :: " + ("<current>A :: " + "<voltage>V")) + "\n"
  {
  }

  lemma TemperatureColumns()
    ensures ColumnsText(Columns(TempPress)) == "<temperature>C :: " + "<pressure>Pa"
  {
    var a, b := Column("temperature", "C :: "), Column("pressure", "Pa");
    OneColumn(b);
    MoreColumns(a, [b]);
    assert [a] + [b] == Columns(TempPress);
    assert ColumnText(a) == "<temperature>C :: ";
    assert ColumnText(b) == "<pressure>Pa";
  }

  lemma TemperatureHeader()
    ensures Header(TempPress) == LOG_TITLE + ("<temperature>C :: " + "<pressure>Pa") + "\n"
  {
  }

  lemma SingleColumns()
    ensures ColumnsText(Columns(Torque)) == "<torque>Nm" && ColumnsText(Columns(Proximity)) == "<proximity>m"
  {
    OneColumn(Column("torque", "Nm"));
    OneColumn(Column("proximity", "m"));
    assert ColumnText(Column("torque", "Nm")) == "<torque>Nm";
    assert ColumnText(Column("proximity", "m")) == "<proximity>m";
  }

  lemma TorqueHeader()
    ensures Header(Torque) == LOG_TITLE + "<torque>Nm" + "\n"
  {
  }

  lemma ProximityHeader()
    ensures Header(Proximity) == LOG_TITLE + "<proximity>m" + "\n"
  {
  }

  lemma HeaderText(t: SensorType)
    requires t != Unsupported
    ensures Header(t) == LOG_TITLE + ColumnsText(Columns(t)) + "\n"
  {
    match t
    case PowCurrVolt =>
      PowerColumns();
      PowerHeader();
    case TempPress =>
      TemperatureColumns();
      TemperatureHeader();
    case Torque =>
      SingleColumns();
      TorqueHeader();
    case Proximity =>
      SingleColumns();
      ProximityHeader();
  }

  lemma TitleClean()
    ensures Clean(LOG_TITLE)
  {
  }

  lemma ReadTitled(text: string)
    ensures ReadHeader(LOG_TITLE + text) == ReadColumns(text)
  {
    Cut(LOG_TITLE, text);
  }

  /** The header of a file names what its sensor measures, in the order and the units of the rows. */
  lemma HeaderReads(t: SensorType)
    requires t != Unsupported
    ensures var line := LOG_TITLE + ColumnsText(Columns(t));
            Clean(line) && Header(t) == line + "\n" && ReadHeader(line) == Some(Columns(t))
  {
    HeaderText(t);
    ColumnsFit(t);
    ColumnsClean(Columns(t));
    TitleClean();
    CleanJoin(LOG_TITLE, ColumnsText(Columns(t)));
    ReadColumnsText(Columns(t));
    ReadTitled(ColumnsText(Columns(t)));
  }

  /** A log file read back by its own header gives the columns of its sensor's type and, row by row,
      the time and every measured integer, in order. */
  lemma LogRoundTrip(rows: seq<Row>, t: SensorType)
    requires t != Unsupported && rows != [] && RowsOfType(rows, t)
    ensures ReadLog(FileText(Header(t), rows)) == Some(Log(Columns(t), EntriesOf(rows)))
  {
    HeaderReads(t);
    ReadRowsText(rows, t);
    LineCut(LOG_TITLE + ColumnsText(Columns(t)), RowsText(rows));
  }

  lemma ShapeReads(files: Files, path: string, t: SensorType, mine: seq<Row>)
    requires t != Unsupported && HasShape(files, path, Header(t), mine) && RowsOfType(mine, t)
    ensures path in files <==> mine != []
    ensures mine != [] ==> ReadLog(Content(files, path)) == Some(Log(Columns(t), EntriesOf(mine)))
  {
    if mine != [] {
      LogRoundTrip(mine, t);
    }
  }

  // ---- the daemon's loop ----

  // What opening the file for appending and asking for its size meets.
  datatype Opening = Opens | OpenFails | SizeFails

  // One turn of the loop: the frame received, the local-time text if there is one, and what the
  // calls on the file meet.
  datatype Turn = Turn(frame: Sensor, opening: Opening, stamp: Option<string>, writes: seq<SendEvent>)

  predicate ValidTurn(t: Turn) {
    |t.frame.name| < SENSOR_NAME_SIZE && (t.stamp.Some? ==> IsTimeText(t.stamp.value))
  }

  predicate Writes(t: Turn) {
    t.opening.Opens? && t.stamp.Some? && t.frame.stype != Unsupported
  }

  // The buffers written to a file with this content.
  function Pieces(content: string, header: string, line: string): seq<string> {
    if content == "" then [header, line] else [line]
  }

  function RowOf(t: Turn): Row {
    Row(t.frame, if t.stamp.Some? then t.stamp.value else "")
  }

  function Due(files: Files, t: Turn): seq<string> {
    Pieces(Content(files, LogPath(t.frame.name)), Header(t.frame.stype), RowText(RowOf(t)))
  }

  predicate Succeeds(files: Files, t: Turn) {
    Writes(t) && Whole(t.writes, Due(files, t)) == |Due(files, t)|
  }

  function AfterTurn(files: Files, t: Turn): Files {
    var path := LogPath(t.frame.name);
    if t.opening.OpenFails? then files
    else files[path := Content(files, path) + if Writes(t) then Taken(t.writes, Due(files, t)) else ""]
  }

  lemma FlattenPieces(content: string, header: string, line: string)
    ensures Flatten(Pieces(content, header, line)) == Addition(content, header, line)
  {
    var pieces := Pieces(content, header, line);
    assert pieces[|pieces| - 1..] == [line] && Flatten([line]) == line + Flatten([line][1..]);
    if content == "" {
      assert Flatten(pieces) == header + Flatten(pieces[1..]);
    }
  }

  lemma TakenPieces(script: seq<SendEvent>, content: string, header: string, line: string)
    requires header != "" && line != ""
    ensures var pieces := Pieces(content, header, line);
            if Whole(script, pieces) == |pieces| then Taken(script, pieces) == Addition(content, header, line)
            else Taken(script, pieces) < Addition(content, header, line)
  {
    var pieces := Pieces(content, header, line);
    var part := TakenShape(script, pieces);
    var k := Whole(script, pieces);
    FlattenPieces(content, header, line);
    if k == |pieces| {
      assert pieces[..k] == pieces;
    } else if k == 1 {
      assert pieces[..1] == [header] && Flatten([header]) == header + Flatten([header][1..]);
    }
  }

  lemma DueTaken(files: Files, t: Turn)
    requires Writes(t)
    ensures var content := Content(files, LogPath(t.frame.name));
            var addition := Addition(content, Header(t.frame.stype), RowText(RowOf(t)));
            if Succeeds(files, t) then Taken(t.writes, Due(files, t)) == addition
            else Taken(t.writes, Due(files, t)) < addition
  {
    HeadersNotEmpty(t.frame.stype);
    TakenPieces(t.writes, Content(files, LogPath(t.frame.name)), Header(t.frame.stype), RowText(RowOf(t)));
  }

  lemma EnoughTaken(files: Files, t: Turn)
    requires Writes(t)
    requires var header, row := Header(t.frame.stype), RowText(RowOf(t));
             Whole(t.writes, [header, row]) == 2 && Whole(t.writes, [row]) == 1
    ensures Succeeds(files, t)
  {
  }

  /** A turn that succeeds appends exactly the row, after a header in an empty file. */
  lemma SuccessAppends(files: Files, t: Turn)
    requires Succeeds(files, t)
    ensures AfterTurn(files, t) == AppendRow(files, RowOf(t))
  {
    DueTaken(files, t);
  }

  /** One that fails leaves at most a proper beginning of that in its own file. */
  lemma FailureLeaves(files: Files, t: Turn)
    requires !Succeeds(files, t)
    ensures var path := LogPath(t.frame.name);
            var before, after := Content(files, path), Content(AfterTurn(files, t), path);
            var due := Content(AppendRow(files, RowOf(t)), path);
            && before <= after && after < due && (!Writes(t) ==> after == before)
            && (path in AfterTurn(files, t) <==> path in files || !t.opening.OpenFails?)
  {
    if Writes(t) {
      DueTaken(files, t);
    }
  }

  /** No turn touches any other file. */
  lemma OtherFilesKept(files: Files, t: Turn, path: string)
    requires path != LogPath(t.frame.name)
    ensures Content(AfterTurn(files, t), path) == Content(files, path)
    ensures path in AfterTurn(files, t) <==> path in files
  {
  }

  function RowsOf(turns: seq<Turn>): seq<Row> {
    if turns == [] then [] else RowsOf(turns[..|turns| - 1]) + [RowOf(turns[|turns| - 1])]
  }

  function FilesLeft(turns: seq<Turn>): Files {
    if turns == [] then map[] else AfterTurn(FilesLeft(turns[..|turns| - 1]), turns[|turns| - 1])
  }

  // Every turn finds the files the earlier ones left, and succeeds on them.
  ghost predicate AllSucceed(turns: seq<Turn>) {
    turns == [] || (AllSucceed(turns[..|turns| - 1]) && Succeeds(FilesLeft(turns[..|turns| - 1]), turns[|turns| - 1]))
  }

  lemma FilesAfterSnoc(rows: seq<Row>, row: Row)
    ensures FilesAfter(rows + [row]) == AppendRow(FilesAfter(rows), row)
  {
    Last(rows, row);
  }

  /** Turns that all succeed, whatever the short writes, leave the files of their rows. */
  lemma {:induction false} FilesOfTurns(turns: seq<Turn>)
    requires AllSucceed(turns)
    ensures FilesLeft(turns) == FilesAfter(RowsOf(turns))
  {
    if turns != [] {
      var n := |turns| - 1;
      FilesOfTurns(turns[..n]);
      SuccessAppends(FilesLeft(turns[..n]), turns[n]);
      FilesAfterSnoc(RowsOf(turns[..n]), RowOf(turns[n]));
    }
  }

  // After a failed turn: the failing sensor's file has all its earlier rows and a proper beginning of
  // what was due; every other file is whole.
  ghost predicate FileCut(files: Files, k: Key, mine: seq<Row>, t: Turn) {
    if KeyOf(t.frame) != k then FileHolds(files, k, mine)
    else
      var content := Content(files, LogPath(NameSensor(k.id, k.stype)));
      FileText(Header(k.stype), mine) <= content && content < FileText(Header(k.stype), mine + [RowOf(t)])
  }

  lemma FailedTurn(files: Files, mine: seq<Row>, t: Turn, k: Key)
    requires Named(t.frame) && k.stype != Unsupported && FileHolds(files, k, mine) && !Succeeds(files, t)
    ensures FileCut(AfterTurn(files, t), k, mine, t)
  {
    if KeyOf(t.frame) == k {
      FileHoldsStep(files, mine, RowOf(t), k);
      FailureLeaves(files, t);
    } else {
      NamesInjective(k.id, k.stype, t.frame.id, t.frame.stype);
      OtherFilesKept(files, t, LogPath(NameSensor(k.id, k.stype)));
    }
  }

  lemma NextTurn(turns: seq<Turn>, n: nat)
    requires n < |turns|
    ensures FilesLeft(turns[..n + 1]) == AfterTurn(FilesLeft(turns[..n]), turns[n])
    ensures AllSucceed(turns[..n + 1]) <==> AllSucceed(turns[..n]) && Succeeds(FilesLeft(turns[..n]), turns[n])
  {
    assert turns[..n + 1][..n] == turns[..n];
  }

  class Logger {
    var files: Files

    constructor ()
      ensures files == map[]
    {
      files := map[];
    }

    /** One turn of the daemon's loop: open for appending (creating the file), decide on a header
        by the file's size, write. */
    method LogFrame(t: Turn) returns (ok: bool)
      requires ValidTurn(t)
      modifies this
      ensures ok <==> Succeeds(old(files), t)
      ensures files == AfterTurn(old(files), t)
    {
      if t.opening.OpenFails? {
        return false;
      }
      var path := LogPath(t.frame.name);
      var before := Content(files, path);
      if t.opening.SizeFails? || t.stamp.None? || t.frame.stype == Unsupported {
        assert before + "" == before;
        files := files[path := before];
        return false;
      }
      var after;
      ok, after := Append(t, before);
      files := files[path := after];
    }

    // The write calls on the open file.
    method Append(t: Turn, before: string) returns (ok: bool, after: string)
      ensures var pieces := Pieces(before, Header(t.frame.stype), RowText(RowOf(t)));
              (ok <==> Whole(t.writes, pieces) == |pieces|) && after == before + Taken(t.writes, pieces)
    {
      var outlet := new Outlet<char>(t.writes, before);
      ok := WriteLine(outlet, Header(t.frame.stype), RowText(RowOf(t)));
      after := outlet.wire;
    }

    method LogNext(turns: seq<Turn>, n: nat) returns (ok: bool)
      requires n < |turns| && ValidTurn(turns[n]) && files == FilesLeft(turns[..n]) && AllSucceed(turns[..n])
      modifies this
      ensures files == FilesLeft(turns[..n + 1]) && (ok <==> AllSucceed(turns[..n + 1]))
    {
      NextTurn(turns, n);
      ok := LogFrame(turns[n]);
    }

    method LogTurns(turns: seq<Turn>) returns (done: nat)
      requires files == map[] && forall i :: 0 <= i < |turns| ==> ValidTurn(turns[i])
      modifies this
      ensures done <= |turns| && AllSucceed(turns[..done])
      ensures if done < |turns| then !AllSucceed(turns[..done + 1]) && files == FilesLeft(turns[..done + 1])
              else files == FilesLeft(turns[..done])
    {
      done := 0;
      while done < |turns|
        invariant done <= |turns| && AllSucceed(turns[..done]) && files == FilesLeft(turns[..done])
      {
        var ok := LogNext(turns, done);
        if !ok {
          return;
        }
        done := done + 1;
      }
    }

    /** The loop from an empty directory, up to and including the first turn that fails. If none
        does, the files are those of the rows, one header each (`LogFileShape`). */
    method LogAll(turns: seq<Turn>) returns (done: nat)
      requires files == map[] && forall i :: 0 <= i < |turns| ==> ValidTurn(turns[i])
      modifies this
      ensures done <= |turns| && AllSucceed(turns[..done])
      ensures done < |turns| ==> !AllSucceed(turns[..done + 1]) && files == FilesLeft(turns[..done + 1])
      ensures done == |turns| ==> files == FilesAfter(RowsOf(turns))
    {
      done := LogTurns(turns);
      if done == |turns| {
        assert turns[..done] == turns;
        FilesOfTurns(turns);
      }
    }
  }

  /** writeFrameData once both texts are formatted: the header first when the file is empty. */
  method WriteLine(file: Outlet<char>, header: string, line: string) returns (ok: bool)
    modifies file
    ensures var pieces := Pieces(old(file.wire), header, line);
            && (ok <==> Whole(old(file.script), pieces) == |pieces|)
            && file.wire == old(file.wire) + Taken(old(file.script), pieces)
  {
    ghost var script, wire, pieces := file.script, file.wire, Pieces(file.wire, header, line);
    SentStart(script, wire, pieces);
    if |file.wire| == 0 {
      SentNext(script, wire, file.script, file.wire, pieces, 0);
      ok := SendAll(file, header);
      if !ok {
        return;
      }
      assert header[..|header|] == header;
    }
    SentNext(script, wire, file.script, file.wire, pieces, |pieces| - 1);
    ok := SendAll(file, line);
    assert line[..|line|] == line;
    if ok {
      SentEnd(script, wire, file.script, file.wire, pieces);
    }
  }
}
