/** Runs that show where the gateway does less than one might expect. */
module GatewayExample {
  import opened Bytes
  import opened Sense
  import opened Packet
  import opened Registry
  import opened Response
  import opened Latency
  import opened Gateway
  import opened GatewayTheorems
  import opened GatewayReach

  lemma FirstStored(r: Registry, f: Sensor)
    requires r.count == 0 && |r.cells| == ALLOCATION
    ensures Store(r, f) == Kept(r.(cells := r.cells[0 := Updated(r.cells[0], f)], count := 1))
  {
  }

  lemma BeatInHand(s: State, id: uint16) returns (run: seq<State>)
    requires Init(s)
    ensures IsRun(run)
    ensures var t := End(run);
            t.ing == Hold(FrameOf(Message(Torque, id, Beat), s.now, s.now)) && t.reg == s.reg && t.now == s.now
  {
    var m := Message(Torque, id, Beat);
    EncodedFrames(m);
    DecodeEncode(m);
    run := Received([s], 0, Encode(m));
    run := Extend(run, Stamp(s.now));
    run := Fetched(run, FrameOf(m, s.now, s.now));
  }

  /** The converse of watchdog soundness fails between passes: from any initial state there is a run
      in which a heartbeat waits 30 s before it is stored, and its sensor is then shown online. */
  lemma StaleSensorOnline(s: State, later: Timespec) returns (run: seq<State>)
    requires Init(s) && Nanos(later) == Nanos(s.now) + INACTIVE_NANOS
    ensures IsRun(run)
    ensures var t := End(run);
            t.reg.count == 1 <= |t.reg.cells| && t.reg.cells[0].state == Online && Inactive(t.reg.cells[0], t.now)
  {
    var f := FrameOf(Message(Torque, 7, Beat), s.now, s.now);
    run := BeatInHand(s, 7);
    run := Extend(run, Tick(later));
    FirstStored(End(run).reg, f);
    run := Extend(run, StoreFrame);
  }

  lemma OneSlot(r: Registry, f: Sensor)
    requires Represents(r, [f])
    ensures r.count == 1 && KeyOf(r.cells[0]) == KeyOf(f)
    ensures f.kind == Heartbeat ==> LatestData([f], KeyOf(f)).None?
  {
    KeysSnoc([], f);
    assert [] + [f] == [f];
    assert SlotFits(r.cells[0], KeyOf(f), [f]);
  }

  lemma OneFrame(m: Message, wall: Timespec, t: Timespec)
    ensures FramesAt([m], wall, t) == [FrameOf(m, wall, t)]
    ensures Keys([FrameOf(m, wall, t)]) == [Key(m.id, m.stype)]
  {
    assert FramesAt([m][..0], wall, t) == [];
    KeysSnoc([], FrameOf(m, wall, t));
    assert [] + [FrameOf(m, wall, t)] == [FrameOf(m, wall, t)];
  }

  /** Uninitialised memory is shown: from any initial state, whatever is in its memory, some run
      registers a sensor whose data and timestamp are what the allocator left in the first cell. */
  lemma HeartbeatShowsGarbage(s: State, t: SensorType, id: uint16) returns (run: seq<State>)
    requires Init(s) && t != Unsupported
    ensures IsRun(run) && run[0] == s && End(run).reg.count == 1 <= |End(run).reg.cells|
    ensures var slot := End(run).reg.cells[0];
            KeyOf(slot) == Key(id, t) && slot.data == s.reg.cells[0].data && slot.timestamp == s.reg.cells[0].timestamp
  {
    var m := Message(t, id, Beat);
    OneFrame(m, EPOCH, s.now);
    run := AllDelivered(s, [m]);
    RegistryRefinement(run, |run| - 1);
    OneSlot(End(run).reg, FrameOf(m, EPOCH, s.now));
    CellHistory(run, 0, |run| - 1, 0);
  }

  // A slot whose key's latest frame is this data frame.
  ghost predicate Holds(r: Registry, i: nat, f: Sensor) {
    i < r.count <= |r.cells| && KeyOf(r.cells[i]) == KeyOf(f) && r.cells[i].data == f.data
  }

  lemma OneDataSlot(r: Registry, f: Sensor)
    requires Represents(r, [f]) && f.kind == Data
    ensures r.count == 1 && Holds(r, 0, f)
  {
    KeysSnoc([], f);
    assert [] + [f] == [f];
    assert SlotFits(r.cells[0], KeyOf(f), [f]);
  }

  lemma TwoDataSlots(r: Registry, f: Sensor, g: Sensor)
    requires Represents(r, [f] + [g]) && f.kind == g.kind == Data && KeyOf(f) != KeyOf(g)
    ensures r.count == 2 && Holds(r, 0, f) && Holds(r, 1, g)
  {
    KeysSnoc([], f);
    assert [] + [f] == [f];
    KeysSnoc([f], g);
    assert SlotFits(r.cells[0], KeyOf(f), [f] + [g]) && SlotFits(r.cells[1], KeyOf(g), [f] + [g]);
  }

  lemma FirstById(r: Registry, f: Sensor)
    requires Holds(r, 0, f)
    ensures FindId(Live(r), f.id) == 0 < |Live(r)| && Live(r)[0] == r.cells[0]
  {
  }

  /** Every stamp a client can send is, in some run from any initial state, the answer to the latency
      query; so is one for which the host's arithmetic is undefined (`StampOverflows`). */
  lemma AnyStampAnswered(s: State, seconds: int64, nanoseconds: int32, stamp: string) returns (run: seq<State>)
    requires Init(s)
    ensures IsRun(run) && run[0] == s
    ensures ParseLatency(Line(GetById(Live(End(run).reg), LATENCY_ID), stamp)) == Some((seconds, nanoseconds))
  {
    var d := LatencyPacketAccepted(seconds, nanoseconds);
    var m := Message(PowCurrVolt, LATENCY_ID, Values(d));
    var f := FrameOf(m, EPOCH, s.now);
    OneFrame(m, EPOCH, s.now);
    run := AllDelivered(s, [m]);
    RegistryRefinement(run, |run| - 1);
    OneDataSlot(End(run).reg, f);
    FirstById(End(run).reg, f);
    LatencyStampRoundTrip(seconds, nanoseconds, End(run).reg.cells[0], stamp);
  }

  lemma TwoFrames(m: Message, m': Message, wall: Timespec, t: Timespec)
    ensures FramesAt([m, m'], wall, t) == [FrameOf(m, wall, t)] + [FrameOf(m', wall, t)]
    ensures |Keys(FramesAt([m, m'], wall, t))| <= 2
  {
    OneFrame(m, wall, t);
    assert [m, m'][..1] == [m];
    KeysSnoc([FrameOf(m, wall, t)], FrameOf(m', wall, t));
  }

  /** The clash is reachable: from any initial state, for any torque and any stamp, some run registers
      both sensors under id 65000, holds the stamp, and answers the latency query with the torque. */
  lemma LatencyClash(s: State, torque: int32, seconds: int64, nanoseconds: int32, stamp: string)
    returns (run: seq<State>)
    requires Init(s)
    ensures IsRun(run) && run[0] == s && End(run).reg.count == 2 <= |End(run).reg.cells|
    ensures var slot := End(run).reg.cells[1];
            Decode(LatencyPacket(seconds, nanoseconds)) == Some(Message(slot.stype, slot.id, Values(slot.data)))
    ensures ParseLatency(Line(GetById(Live(End(run).reg), LATENCY_ID), stamp)) == Some((AsUint32(torque), 0))
  {
    var d := LatencyPacketAccepted(seconds, nanoseconds);
    var m := Message(Torque, LATENCY_ID, Values(SensorData(torque, 0, 0)));
    var m' := Message(PowCurrVolt, LATENCY_ID, Values(d));
    TwoFrames(m, m', EPOCH, s.now);
    run := AllDelivered(s, [m, m']);
    RegistryRefinement(run, |run| - 1);
    TwoDataSlots(End(run).reg, FrameOf(m, EPOCH, s.now), FrameOf(m', EPOCH, s.now));
    FirstById(End(run).reg, FrameOf(m, EPOCH, s.now));
    LatencyAnswerWords(Live(End(run).reg), stamp);
  }
}
