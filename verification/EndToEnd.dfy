/** What a user sees, traced back through every stage. */
module EndToEnd {
  import opened Bytes
  import opened Text
  import opened Sense
  import opened Seqs
  import opened Packet
  import opened Acquirer
  import opened Registry
  import opened Readers
  import opened LogFile
  import opened Response
  import opened Transport
  import opened Latency
  import opened Commands
  import opened Query
  import opened Gateway
  import opened GatewayInvariant
  import opened GatewayTheorems

  lemma LiveAllNamed(s: State)
    requires Inv(s)
    ensures AllNamed(Live(s.reg))
  {
    LiveNamed(s);
    assert forall i :: 0 <= i < |Live(s.reg)| ==> Live(s.reg)[i] == s.reg.cells[i];
  }

  lemma FilterNamed(keep: Sensor -> bool, all: seq<Sensor>)
    requires AllNamed(all)
    ensures AllNamed(Filter(keep, all))
  {
    FilterSubseq(keep, all);
    forall i | 0 <= i < |Filter(keep, all)|
      ensures Named(Filter(keep, all)[i])
    {
      var j := SubseqMember(Filter(keep, all), all, i);
    }
  }

  // Every command but GET ID is answered by registered sensors only.
  lemma SelectedNamed(c: Command, r: Registry)
    requires AllNamed(Live(r)) && !c.GetId?
    ensures AllNamed(Selected(c, r))
  {
    FilterNamed(InState(Online), Live(r));
    FilterNamed(InState(Offline), Live(r));
    if c.GetType? {
      FilterNamed(OfType(FindSensorType(c.code)), Live(r));
    }
  }

  lemma SelectedPrintable(c: Command, r: Registry)
    requires AllNamed(Live(r))
    ensures Printable(Selected(c, r))
  {
    if !c.GetId? {
      SelectedNamed(c, r);
    }
  }

  /** An answer taken in any reachable state is read by the user's client as one line for each sensor that
      the line typed asks for, and then ends; if the connection fails on the way, as the lines that went
      out whole, without an end. What the client reads depends on the characters alone
      (`ReceiveUntilEnd`), not on how they are cut. And each line tells its sensor's time, type, id and
      measurements. */
  lemma AnswerReachesUser(run: seq<State>, n: nat, text: string, sends: seq<SendEvent>)
    requires IsRun(run) && n < |run| && IsQuery(text)
    ensures var chosen, zone := AnswerTo(text, run[n].reg), run[n].zone;
            var lines := Lines(chosen, zone); var k := Whole(sends, AnswerPieces(lines));
            && Read(ResponseText(lines), "") == Reading(lines, true)
            && Read(Taken(sends, AnswerPieces(lines)), "") == Reading(lines[..Min(k, |lines|)], k == |lines| + 1)
            && (forall i :: 0 <= i < |chosen| ==> LineTells(lines[i], chosen[i], zone))
            && (!ParseUserCommand(text).value.GetId? ==> AllNamed(chosen))
  {
    RunInv(run, n);
    var chosen, zone := AnswerTo(text, run[n].reg), run[n].zone;
    LiveAllNamed(run[n]);
    SelectedPrintable(ParseUserCommand(text).value, run[n].reg);
    if !ParseUserCommand(text).value.GetId? {
      SelectedNamed(ParseUserCommand(text).value, run[n].reg);
    }
    LinesTell(chosen, zone);
    AllLinesPlain(chosen, zone);
    AnswerRoundTrip(chosen, zone);
    CutAnswer(Lines(chosen, zone), sends);
  }

  /** For GET ID that is one line, of the first sensor with the id, or of a zeroed one. */
  lemma IdAnswerReachesUser(run: seq<State>, n: nat, id: uint16, sends: seq<SendEvent>)
    requires IsRun(run) && n < |run|
    ensures run[n].reg.count <= |run[n].reg.cells|
    ensures var text := "GET ID " + (Digits(id, 16) + "\n");
            && IsQuery(text) && |AnswerTo(text, run[n].reg)| == 1
            && var s := AnswerTo(text, run[n].reg)[0]; var line := Line(s, TimeText(run[n].zone, s.timestamp));
            && FirstWithId(s, run[n].reg, id)
            && Read(ResponseText([line]), "") == Reading([line], true)
            && Read(Taken(sends, AnswerPieces([line])), "") ==
               Reading([line][..Min(Whole(sends, AnswerPieces([line])), 1)], Whole(sends, AnswerPieces([line])) == 2)
  {
    RegistryRefinement(run, n);
    TypedIdAnswer(run[n].reg, id);
    var text := "GET ID " + (Digits(id, 16) + "\n");
    AnswerReachesUser(run, n, text, sends);
    var s := AnswerTo(text, run[n].reg)[0];
    assert Lines(AnswerTo(text, run[n].reg), run[n].zone) == [Line(s, TimeText(run[n].zone, s.timestamp))];
  }

  lemma TypeAnswer(code: byte, t: SensorType, r: Registry)
    requires FindSensorType(code) == t
    ensures Selected(GetType(code), r) == Filter(OfType(t), Live(r))
  {
  }

  lemma TypeAnswersSplit(r: Registry)
    requires TypeCounts(Live(r)) == multiset(Live(r))
    ensures multiset(Selected(GetType(0x1B), r)) + multiset(Selected(GetType(0x2B), r)) +
            multiset(Selected(GetType(0x4B), r)) + multiset(Selected(GetType(0x8B), r)) == multiset(Selected(GetAll, r))
  {
    TypeAnswer(0x1B, TempPress, r);
    TypeAnswer(0x2B, PowCurrVolt, r);
    TypeAnswer(0x4B, Torque, r);
    TypeAnswer(0x8B, Proximity, r);
  }

  lemma StateAnswersSplit(s: State)
    requires WatchdogOk(s)
    ensures multiset(Selected(GetOnline, s.reg)) + multiset(Selected(GetOffline, s.reg)) ==
            multiset(Selected(GetAll, s.reg))
  {
    StatesSplit(s);
  }

  /** In every reachable state the ONLINE and OFFLINE answers together are the GET ALL answer, without loss
      or repetition, and so are the four TYPE answers. */
  lemma AnswersSplit(run: seq<State>, n: nat)
    requires IsRun(run) && n < |run|
    ensures var r := run[n].reg; var all := multiset(Selected(GetAll, r));
            && multiset(Selected(GetOnline, r)) + multiset(Selected(GetOffline, r)) == all
            && multiset(Selected(GetType(0x1B), r)) + multiset(Selected(GetType(0x2B), r)) +
               multiset(Selected(GetType(0x4B), r)) + multiset(Selected(GetType(0x8B), r)) == all
  {
    RunInv(run, n);
    StateAnswersSplit(run[n]);
    LiveTypes(run[n]);
    TypesSplit(Live(run[n].reg));
    TypeAnswersSplit(run[n].reg);
  }

  /** A slot that has received data is answered, on its line, with the type, the id and the measurements of
      a packet that the acquire queue accepted, and the local time of the wall clock read for it; when
      nothing was lost and everything is drained, of the last such packet. */
  lemma AnswerShowsPacket(run: seq<State>, n: nat, i: nat) returns (q: nat)
    requires IsRun(run) && n < |run| && i < run[n].reg.count && i < |run[n].reg.cells|
    requires run[n].reg.cells[i].id != 65000
    requires LatestData(run[n].stored, KeyOf(run[n].reg.cells[i])).Some?
    ensures var s, slot := run[n], run[n].reg.cells[i];
            && q < |s.jobs| && s.jobs[q].source in s.sent
            && (Drained(s) ==> LastFor(s.jobs, q, KeyOf(slot)))
            && DataFor(s.jobs[q].source.pkt, KeyOf(slot)).Some?
            && ReadAnswer(Line(slot, TimeText(s.zone, slot.timestamp))) ==
               Some(Answer(TimeText(s.zone, s.jobs[q].wall), slot.stype, slot.id,
                           Readings(slot.stype, DataFor(s.jobs[q].source.pkt, KeyOf(slot)).value)))
  {
    var slot := run[n].reg.cells[i];
    RegistryRefinement(run, n);
    ZoneValid(run, n);
    LineReads(slot, TimeText(run[n].zone, slot.timestamp));
    if Drained(run[n]) {
      q := DrainedPacket(run, n, i);
    } else {
      var c, j;
      c, j, q := Provenance(run, n, i);
    }
  }

  /** What those measurements are, in millionths of the units printed: the packet's words, in tenths of a
      watt, hundredths of an ampere and of a volt; tenths of a degree and hundredths of a pascal; tenths of
      a metre; tenths of a newton metre. */
  lemma PacketReadings(p: PacketBytes, k: Key)
    requires DataFor(p, k).Some?
    ensures |p| == (match k.stype case PowCurrVolt => 18 case TempPress => 14 case _ => 10)
    ensures Readings(k.stype, DataFor(p, k).value) ==
            match k.stype
            case PowCurrVolt => [100_000 * Int32At(p, 6), 10_000 * Int32At(p, 10), 10_000 * Int32At(p, 14)]
            case TempPress => [100_000 * Int32At(p, 6), 10_000 * Int32At(p, 10)]
            case _ => [100_000 * Int32At(p, 6)]
  {
    MessageLayout(p, Decode(p).value);
  }

  lemma ZoneValid(run: seq<State>, n: nat)
    requires IsRun(run) && n < |run|
    ensures ValidZone(run[n].zone)
  {
    RunInv(run, n);
  }

  lemma DrainedPacket(run: seq<State>, n: nat, i: nat) returns (q: nat)
    requires IsRun(run) && n < |run| && Drained(run[n]) && i < run[n].reg.count && i < |run[n].reg.cells|
    requires LatestData(run[n].stored, KeyOf(run[n].reg.cells[i])).Some?
    ensures var s, slot := run[n], run[n].reg.cells[i];
            && LastFor(s.jobs, q, KeyOf(slot)) && s.jobs[q].source in s.sent
            && DataFor(s.jobs[q].source.pkt, KeyOf(slot)) == Some(slot.data) && slot.timestamp == s.jobs[q].wall
  {
    var k, h := KeyOf(run[n].reg.cells[i]), 0;
    h, q := LosslessDrained(run, n, k);
    RegistryRefinement(run, n);
    SameSlot(run[n].reg, run[n].stored, h, i);
    SourceAt(run[n].jobs, q);
  }

  lemma SameSlot(r: Registry, fs: seq<Sensor>, g: nat, h: nat)
    requires Represents(r, fs) && g < r.count && h < r.count && KeyOf(r.cells[g]) == KeyOf(r.cells[h])
    ensures g == h
  {
    KeysDistinct(fs);
    assert SlotFits(r.cells[g], Keys(fs)[g], fs) && SlotFits(r.cells[h], Keys(fs)[h], fs);
  }

  lemma WordsPack(w0: int32, w1: int32, w2: int32)
    ensures LeInt32(w0) + LeInt32(w1) + LeInt32(w2) == PackStamp(Int64OfWords(w0, w1), w2)
  {
    LeInt64OfWords(w0, w1);
  }

  lemma LatencyPacketOf(p: PacketBytes, d: SensorData)
    requires Decode(p) == Some(Message(PowCurrVolt, LATENCY_ID, Values(d)))
    ensures p == LatencyPacket(Int64OfWords(d.w0, d.w1), d.w2)
  {
    EncodeDecode(p);
    WordsPack(d.w0, d.w1, d.w2);
  }

  /** The answer to GET ID 65000, whenever the first sensor registered under that id is a latency
      sensor that has sent data, reads as a stamp that some connection did receive in a latency
      packet and the acquire queue accepted. */
  lemma LatencyAnswer(run: seq<State>, n: nat, stamp: string)
    returns (c: nat, j: nat, seconds: int64, nanoseconds: int32)
    requires IsRun(run) && n < |run|
    requires var live := Live(run[n].reg);
             FindId(live, LATENCY_ID) < |live| && GetById(live, LATENCY_ID).stype == PowCurrVolt
    requires LatestData(run[n].stored, Key(LATENCY_ID, PowCurrVolt)).Some?
    ensures ParseLatency(Line(GetById(Live(run[n].reg), LATENCY_ID), stamp)) == Some((seconds, nanoseconds))
    ensures c in run[n].conns && j < |Frames(run[n].conns[c].received)|
    ensures Frames(run[n].conns[c].received)[j] == LatencyPacket(seconds, nanoseconds)
    ensures Sent(c, LatencyPacket(seconds, nanoseconds)) in run[n].sent
  {
    RunInv(run, n);
    var live := Live(run[n].reg);
    var i := FindId(live, LATENCY_ID);
    var slot := live[i];
    assert slot == run[n].reg.cells[i];
    var q;
    c, j, q := Provenance(run, n, i);
    seconds, nanoseconds := Int64OfWords(slot.data.w0, slot.data.w1), slot.data.w2;
    LatencyPacketOf(Frames(run[n].conns[c].received)[j], slot.data);
    ParseLatencyLine(seconds, nanoseconds);
  }

  /** And when nothing was lost and everything is drained, it is the stamp of the last latency packet. */
  lemma LatestLatencyAnswer(run: seq<State>, n: nat, stamp: string)
    returns (q: nat, seconds: int64, nanoseconds: int32)
    requires IsRun(run) && n < |run| && Drained(run[n])
    requires var live := Live(run[n].reg);
             FindId(live, LATENCY_ID) < |live| && GetById(live, LATENCY_ID).stype == PowCurrVolt
    requires LatestData(run[n].stored, Key(LATENCY_ID, PowCurrVolt)).Some?
    ensures LastFor(run[n].jobs, q, Key(LATENCY_ID, PowCurrVolt))
    ensures run[n].jobs[q].source.pkt == LatencyPacket(seconds, nanoseconds) && run[n].jobs[q].source in run[n].sent
    ensures ParseLatency(Line(GetById(Live(run[n].reg), LATENCY_ID), stamp)) == Some((seconds, nanoseconds))
  {
    RegistryRefinement(run, n);
    var live := Live(run[n].reg);
    var i := FindId(live, LATENCY_ID);
    assert live[i] == run[n].reg.cells[i];
    q := DrainedPacket(run, n, i);
    seconds, nanoseconds := Int64OfWords(live[i].data.w0, live[i].data.w1), live[i].data.w2;
    LatencyDataPacket(run[n].jobs[q].source.pkt, live[i].data);
    ParseLatencyLine(seconds, nanoseconds);
  }

  lemma LatencyDataPacket(p: PacketBytes, d: SensorData)
    requires DataFor(p, Key(LATENCY_ID, PowCurrVolt)) == Some(d)
    ensures p == LatencyPacket(Int64OfWords(d.w0, d.w1), d.w2)
  {
    LatencyPacketOf(p, d);
  }

  // Some slot before this one has the same id.
  ghost predicate Shadowed(r: Registry, i: nat) {
    i < |r.cells| && exists j :: 0 <= j < i && r.cells[j].id == r.cells[i].id
  }

  lemma ShadowedFound(r: Registry, fs: seq<Sensor>, i: nat)
    requires Represents(r, fs) && i < r.count && Shadowed(r, i)
    ensures FindId(Live(r), r.cells[i].id) < i && Live(r)[FindId(Live(r), r.cells[i].id)].stype != r.cells[i].stype
  {
    var j :| 0 <= j < i && r.cells[j].id == r.cells[i].id;
    assert Live(r)[j] == r.cells[j];
    var h := FindId(Live(r), r.cells[i].id);
    KeysDistinct(fs);
    assert SlotFits(r.cells[i], Keys(fs)[i], fs) && SlotFits(r.cells[h], Keys(fs)[h], fs);
    assert Live(r)[h] == r.cells[h];
  }

  /** In every reachable state GET ID reaches a registered sensor exactly if no sensor of another type
      registered its id before it; and if one did, no later GET ID shows it either. */
  lemma IdReachesSlot(run: seq<State>, n: nat, i: nat, later: nat)
    requires IsRun(run) && n <= later < |run| && i < run[n].reg.count && i < |run[n].reg.cells|
    ensures var slot := run[n].reg.cells[i];
            && (GetById(Live(run[n].reg), slot.id) == slot <==> !Shadowed(run[n].reg, i))
            && (Shadowed(run[n].reg, i) ==> KeyOf(GetById(Live(run[later].reg), slot.id)) != KeyOf(slot))
  {
    RegistryRefinement(run, n);
    GetByIdReaches(run[n].reg, run[n].stored, i);
    if Shadowed(run[n].reg, i) {
      ShadowedFound(run[n].reg, run[n].stored, i);
      SnapshotsStable(run, n, later, run[n].reg.cells[i].id);
    }
  }

  /** When some other sensor registered id 65000 before the latency sensor, every later latency query
      reads the memory of that other sensor as a stamp. */
  lemma LatencyShadowed(run: seq<State>, n: nat, i: nat, later: nat, stamp: string)
    requires IsRun(run) && n <= later < |run| && i < run[n].reg.count && i < |run[n].reg.cells|
    requires KeyOf(run[n].reg.cells[i]) == Key(LATENCY_ID, PowCurrVolt)
    requires Shadowed(run[n].reg, i)
    ensures var live := Live(run[later].reg); var h := FindId(live, LATENCY_ID);
            && h < |live| && h < i && live[h].stype != PowCurrVolt
            && ParseLatency(Line(GetById(live, LATENCY_ID), stamp)) ==
               Some((Int64OfWords(live[h].data.w0, live[h].data.w1), live[h].data.w2 as int))
  {
    RegistryRefinement(run, n);
    ShadowedFound(run[n].reg, run[n].stored, i);
    SnapshotsStable(run, n, later, LATENCY_ID);
    LatencyAnswerWords(Live(run[later].reg), stamp);
  }

  // ---- a session of several queries ----

  // A typed line, the state of the run in which the server answers it, and how much of the answer gets
  // through.
  datatype Exchange = Exchange(text: string, at: nat, tells: seq<SendEvent>)

  function CommandOf(x: Exchange): Command
    requires IsQuery(x.text)
  {
    ParseUserCommand(x.text).value
  }

  // The sensors an exchange shows.
  function Shown(run: seq<State>, x: Exchange): seq<Sensor>
    requires IsQuery(x.text) && x.at < |run|
  {
    AnswerTo(x.text, run[x.at].reg)
  }

  ghost predicate ValidExchange(run: seq<State>, x: Exchange) {
    IsQuery(x.text) && x.at < |run|
  }

  // The queries of a session are answered one after the other.
  ghost predicate IsSession(run: seq<State>, xs: seq<Exchange>) {
    && (forall i :: 0 <= i < |xs| ==> ValidExchange(run, xs[i]))
    && (forall i, j :: 0 <= i < j < |xs| ==> xs[i].at <= xs[j].at)
  }

  /** Each query of a session is served as the command it is parsed to, and its answer is read as one line
      for each sensor selected in the state it was answered in, as far as they got through; each line
      tells its sensor. Which sensors those are for which typed line, `TypedStateAnswers`,
      `TypedTypeAnswers` and `TypedIdAnswer` say. */
  lemma SessionAnswered(run: seq<State>, xs: seq<Exchange>, i: nat)
    requires IsRun(run) && IsSession(run, xs) && i < |xs|
    ensures var x := xs[i]; var chosen, zone := Shown(run, x), run[x.at].zone;
            var lines := Lines(chosen, zone); var k := Whole(x.tells, AnswerPieces(lines));
            && Served(EncodeCommand(CommandOf(x))) == [CommandOf(x)]
            && Read(ResponseText(lines), "") == Reading(lines, true)
            && Read(Taken(x.tells, AnswerPieces(lines)), "") == Reading(lines[..Min(k, |lines|)], k == |lines| + 1)
            && forall j :: 0 <= j < |chosen| ==> LineTells(lines[j], chosen[j], zone)
  {
    var x := xs[i];
    assert ValidExchange(run, x);
    TypedCommandServed(x.text, []);
    assert [] + EncodeCommand(CommandOf(x)) == EncodeCommand(CommandOf(x));
    AnswerReachesUser(run, x.at, x.text, x.tells);
  }

  function KeysIn(s: seq<Sensor>): seq<Key> {
    if s == [] then [] else KeysIn(s[..|s| - 1]) + [KeyOf(s[|s| - 1])]
  }

  lemma KeysInSnoc(s: seq<Sensor>, x: Sensor, t: SensorType)
    ensures KeysIn(s + [x]) == KeysIn(s) + [KeyOf(x)]
    ensures KeysIn(Filter(OfType(t), s + [x])) ==
            if x.stype == t then KeysIn(Filter(OfType(t), s)) + [KeyOf(x)] else KeysIn(Filter(OfType(t), s))
  {
    Last(s, x);
    FilterSnoc(OfType(t), s, x);
    Last(Filter(OfType(t), s), x);
  }

  lemma SameKeysSnoc(a: seq<Sensor>, b: seq<Sensor>, x: Sensor, y: Sensor, t: SensorType)
    requires KeysIn(a) == KeysIn(b) && KeysIn(Filter(OfType(t), a)) == KeysIn(Filter(OfType(t), b))
    requires KeyOf(x) == KeyOf(y)
    ensures KeysIn(a + [x]) == KeysIn(b + [y])
    ensures KeysIn(Filter(OfType(t), a + [x])) == KeysIn(Filter(OfType(t), b + [y]))
  {
    KeysInSnoc(a, x, t);
    KeysInSnoc(b, y, t);
  }

  // The same sensors, as far as their keys go.
  ghost predicate Alike(a: seq<Sensor>, b: seq<Sensor>) {
    |a| == |b| && forall i :: 0 <= i < |a| ==> KeyOf(a[i]) == KeyOf(b[i])
  }

  lemma AlikeParts(a: seq<Sensor>, b: seq<Sensor>)
    requires Alike(a, b) && a != []
    ensures var n := |a| - 1;
            && Alike(a[..n], b[..n]) && KeyOf(a[n]) == KeyOf(b[n])
            && a == a[..n] + [a[n]] && b == b[..n] + [b[n]]
  {
  }

  lemma {:induction false} SameKeys(a: seq<Sensor>, b: seq<Sensor>, t: SensorType)
    requires Alike(a, b)
    ensures KeysIn(a) == KeysIn(b) && KeysIn(Filter(OfType(t), a)) == KeysIn(Filter(OfType(t), b))
  {
    if a == [] {
      assert a == b;
    } else {
      var n := |a| - 1;
      AlikeParts(a, b);
      SameKeys(a[..n], b[..n], t);
      SameKeysSnoc(a[..n], b[..n], a[n], b[n], t);
    }
  }

  // Registered sensors stay, in their order, and so do those of a type.
  lemma {:induction false} TypesPrefix(a: seq<Sensor>, b: seq<Sensor>, t: SensorType)
    requires |a| <= |b| && forall i :: 0 <= i < |a| ==> KeyOf(a[i]) == KeyOf(b[i])
    ensures KeysIn(a) <= KeysIn(b) && KeysIn(Filter(OfType(t), a)) <= KeysIn(Filter(OfType(t), b))
    decreases |b|
  {
    if |a| == |b| {
      SameKeys(a, b, t);
    } else {
      var n := |b| - 1;
      TypesPrefix(a, b[..n], t);
      KeysInSnoc(b[..n], b[n], t);
      assert b == b[..n] + [b[n]];
    }
  }

  lemma LiveLater(run: seq<State>, m: nat, n: nat)
    requires IsRun(run) && m <= n < |run|
    ensures var a, b := Live(run[m].reg), Live(run[n].reg);
            |a| <= |b| && forall i :: 0 <= i < |a| ==> KeyOf(a[i]) == KeyOf(b[i])
  {
    RunLater(run, m, n);
    forall i | 0 <= i < |Live(run[m].reg)|
      ensures KeyOf(Live(run[m].reg)[i]) == KeyOf(Live(run[n].reg)[i])
    {
      assert SlotLater(run[m].reg.cells[i], run[n].reg.cells[i]);
    }
  }

  /** Answers of one session agree: asked again later, GET ALL and GET TYPE list the same sensors first,
      in the same order, and GET ID shows the same sensor once it has shown one. */
  lemma SessionAgrees(run: seq<State>, xs: seq<Exchange>, i: nat, j: nat)
    requires IsRun(run) && IsSession(run, xs) && i < j < |xs| && CommandOf(xs[i]) == CommandOf(xs[j])
    ensures var a, b, c := Shown(run, xs[i]), Shown(run, xs[j]), CommandOf(xs[i]);
            && (c.GetAll? || c.GetType? ==> KeysIn(a) <= KeysIn(b))
            && (c.GetId? && FindId(Live(run[xs[i].at].reg), c.id) < |Live(run[xs[i].at].reg)| ==>
                  KeyOf(a[0]) == KeyOf(b[0]))
  {
    var m, n, c := xs[i].at, xs[j].at, CommandOf(xs[i]);
    assert ValidExchange(run, xs[i]) && ValidExchange(run, xs[j]);
    LiveLater(run, m, n);
    TypesPrefix(Live(run[m].reg), Live(run[n].reg), if c.GetType? then FindSensorType(c.code) else Torque);
    if c.GetId? {
      SnapshotsStable(run, m, n, c.id);
    }
  }

  lemma ShownSlot(run: seq<State>, n: nat, state: SensorState, i: nat) returns (h: nat)
    requires IsRun(run) && n < |run| && i < |Filter(InState(state), Live(run[n].reg))|
    ensures h < run[n].reg.count <= |run[n].reg.cells|
    ensures run[n].reg.cells[h] == Filter(InState(state), Live(run[n].reg))[i] && run[n].reg.cells[h].state == state
  {
    RunInv(run, n);
    var live := Live(run[n].reg);
    FilterSubseq(InState(state), live);
    h := SubseqMember(Filter(InState(state), live), live, i);
    FilterKeeps(InState(state), live, i);
  }

  lemma OfflineToOnline(run: seq<State>, m: nat, n: nat, i: nat, j: nat)
    requires IsRun(run) && m <= n < |run|
    requires i < |Filter(InState(Offline), Live(run[m].reg))| && j < |Filter(InState(Online), Live(run[n].reg))|
    requires KeyOf(Filter(InState(Offline), Live(run[m].reg))[i]) == KeyOf(Filter(InState(Online), Live(run[n].reg))[j])
    ensures StoredSince(run[m], run[n], KeyOf(Filter(InState(Offline), Live(run[m].reg))[i]))
  {
    var g := ShownSlot(run, m, Offline, i);
    var h := ShownSlot(run, n, Online, j);
    RunLater(run, m, n);
    assert SlotLater(run[m].reg.cells[g], run[n].reg.cells[g]);
    RegistryRefinement(run, n);
    SameSlot(run[n].reg, run[n].stored, g, h);
  }

  /** A sensor that the answer to GET OFFLINE lists, and a later answer to GET ONLINE in the same session
      too, has had a frame stored in between. */
  lemma SessionRevival(run: seq<State>, xs: seq<Exchange>, i: nat, j: nat, p: nat, q: nat)
    requires IsRun(run) && IsSession(run, xs) && i < j < |xs|
    requires xs[i].text == "GET OFFLINE\n" && xs[j].text == "GET ONLINE\n"
    requires ValidExchange(run, xs[i]) && ValidExchange(run, xs[j])
    requires p < |Shown(run, xs[i])| && q < |Shown(run, xs[j])|
    requires KeyOf(Shown(run, xs[i])[p]) == KeyOf(Shown(run, xs[j])[q])
    ensures StoredSince(run[xs[i].at], run[xs[j].at], KeyOf(Shown(run, xs[i])[p]))
  {
    StateLines();
    OfflineToOnline(run, xs[i].at, xs[j].at, p, q);
  }
}
