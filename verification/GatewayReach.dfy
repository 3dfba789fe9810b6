/** Runs that exist: whatever valid messages clients send, within the registry's limit, some run
    stores exactly those; and from which states the telemetry of data can go on for ever. */
module GatewayReach {
  import opened Bytes
  import opened Sense
  import opened Packet
  import opened Acquirer
  import opened Transport
  import opened Registry
  import opened LogFile
  import opened Gateway
  import opened GatewayInvariant

  function End(run: seq<State>): State
    requires run != []
  {
    run[|run| - 1]
  }

  lemma Extend(run: seq<State>, a: Action) returns (run': seq<State>)
    requires IsRun(run) && Enabled(End(run), a)
    ensures IsRun(run') && run' == run + [Apply(End(run), a)]
  {
    var s := Apply(End(run), a);
    run' := run + [s];
    assert Step(End(run), s);
    forall i | 0 <= i < |run'| - 1
      ensures StepAt(run', i)
    {
      if i < |run| - 1 {
        assert StepAt(run, i) && run'[i] == run[i] && run'[i + 1] == run[i + 1];
      } else {
        assert run'[i] == End(run) && run'[i + 1] == s;
      }
    }
  }

  // ---- one message from a client to the registry ----

  // Nothing is on its way to the registry, and connection numbers from `next` on are free.
  ghost predicate Ready(s: State, next: nat) {
    && s.acq == [] && s.proc == Idle && s.telQ == [] && (s.ing == Check || s.ing == Await)
    && forall c :: c in s.conns ==> c < next
  }

  // Nor to the log files.
  ghost predicate Settled(s: State, next: nat) {
    Ready(s, next) && s.logQ == [] && s.logger == Logging
  }

  lemma EncodedFrames(m: Message)
    requires ValidMessage(m)
    ensures Frames(Encode(m)) == [Encode(m)]
  {
    var payload := if m.body.Beat? then [] else Payload(m.stype, m.body.data);
    BuiltPacketsWellFormed(TypeCode(m.stype), m.id, payload);
    FramesCons(Encode(m), []);
    assert Encode(m) + [] == Encode(m);
  }

  lemma Arrived(run: seq<State>, c: nat, p: PacketBytes) returns (run': seq<State>)
    requires IsRun(run) && c !in End(run).conns
    ensures IsRun(run') && run <= run'
    ensures End(run') == End(run).(conns := End(run).conns[c := Conn(p, 0)])
  {
    run' := Extend(run, Connect(c));
    run' := Extend(run', Arrive(c, p));
    assert [] + p == p;
    assert End(run').conns == End(run).conns[c := Conn(p, 0)];
  }

  // From a new connection into the processor's hands.
  lemma Received(run: seq<State>, c: nat, p: PacketBytes) returns (run': seq<State>)
    requires IsRun(run) && Frames(p) == [p] && c !in End(run).conns && End(run).acq == [] && End(run).proc == Idle
    ensures IsRun(run') && run <= run'
    ensures var s := End(run);
            End(run') == s.(conns := s.conns[c := Conn(p, 1)], proc := Holding(Sent(c, p)),
                            sent := s.sent + [Sent(c, p)])
  {
    run' := Arrived(run, c, p);
    run' := Extend(run', Forward(c, true));
    run' := Extend(run', Take);
    assert End(run').conns == End(run).conns[c := Conn(p, 1)];
  }

  lemma TwoWritesTaken(header: string, line: string)
    requires 0 < |header| < 300 && 0 < |line| < 300
    ensures var writes := [Accept(300), Accept(300)]; Whole(writes, [header, line]) == 2 && Whole(writes, [line]) == 1
  {
    var writes := [Accept(300), Accept(300)];
    assert writes[1..] == [Accept(300)] && [header, line][1..] == [line] && [line][1..] == [];
    assert Capacity(writes[1..]) >= 300 && Capacity(writes) >= 300;
    assert Rest(writes, |header|) == writes[1..];
  }

  // Room for both writes of a turn.
  const PLENTY: seq<SendEvent> := [Accept(300), Accept(300)]

  lemma WriteSucceeds(files: Files, f: Sensor, stamp: string)
    requires f.stype != Unsupported && IsTimeText(stamp)
    ensures Succeeds(files, Turn(f, Opens, Some(stamp), PLENTY))
  {
    RowFits(Row(f, stamp));
    HeadersNotEmpty(f.stype);
    TwoWritesTaken(Header(f.stype), RowText(Row(f, stamp)));
    EnoughTaken(files, Turn(f, Opens, Some(stamp), PLENTY));
  }

  lemma ZoneOf(run: seq<State>)
    requires IsRun(run)
    ensures ValidZone(End(run).zone)
  {
    RunFilesOk(run, |run| - 1);
  }

  lemma Written(run: seq<State>) returns (run': seq<State>)
    requires IsRun(run) && End(run).logger.Writing? && End(run).logger.frame.stype != Unsupported
    requires End(run).zone(End(run).logger.frame.timestamp).Some?
    ensures IsRun(run') && run <= run'
    ensures var s, t := End(run), End(run'); t == s.(logger := Logging, logged := t.logged, files := t.files)
  {
    var f := End(run).logger.frame;
    ZoneOf(run);
    WriteSucceeds(End(run).files, f, End(run).zone(f.timestamp).value);
    run' := Extend(run, WriteLog(Opens, PLENTY));
  }

  // From there into the log file, if it is data.
  lemma IntoLog(run: seq<State>, f: Sensor) returns (run': seq<State>)
    requires IsRun(run) && f.stype != Unsupported && End(run).proc == Dispatch(Some(f))
    requires End(run).logQ == [] && End(run).logger == Logging && End(run).zone(f.timestamp).Some?
    ensures IsRun(run') && run <= run'
    ensures var s, t := End(run), End(run');
            t == s.(proc := ToTelemetry(f), logSent := t.logSent, logged := t.logged, files := t.files)
  {
    if f.kind == Heartbeat {
      run' := run;
    } else {
      run' := Extend(run, OfferLog(true));
      assert End(run').logQ == [f];
      run' := Extend(run', TakeLog);
      run' := Written(run');
      assert End(run').logQ == [];
    }
  }

  // The memory a growing registry gets.
  function Memory(r: Registry): seq<Sensor> {
    if NextMult(r.mult) >= r.mult then seq(ALLOCATION * (NextMult(r.mult) - r.mult), _ => EMPTY_SENSOR) else []
  }

  lemma MemoryFits(run: seq<State>)
    requires IsRun(run)
    ensures var r := End(run).reg; |Memory(r)| == ALLOCATION * (NextMult(r.mult) - r.mult)
  {
    RunRegistryOk(run, |run| - 1);
  }

  lemma RoomKept(run: seq<State>, f: Sensor)
    requires IsRun(run) && |Keys(End(run).stored + [f])| <= SENSORS_LIMIT_MAX
    ensures Store(Grow(End(run).reg, Memory(End(run).reg)), f).Kept?
  {
    var s := End(run);
    RunRegistryOk(run, |run| - 1);
    GrowRefines(s.reg, s.stored, Memory(s.reg));
    StoreRefines(Grow(s.reg, Memory(s.reg)), s.stored, f);
    KeysSnoc(s.stored, f);
  }

  lemma GrowthQuiet(run: seq<State>)
    requires IsRun(run) && End(run).ing == Await
    ensures Grow(End(run).reg, Memory(End(run).reg)) == End(run).reg
  {
    RunRegistryOk(run, |run| - 1);
  }

  // Past the growth check, if the ingest loop is before it.
  lemma Checked(run: seq<State>) returns (run': seq<State>)
    requires IsRun(run) && (End(run).ing == Check || End(run).ing == Await)
    ensures IsRun(run') && run <= run'
    ensures var s := End(run); End(run') == s.(ing := Await, reg := Grow(s.reg, Memory(s.reg)))
  {
    if End(run).ing == Check {
      MemoryFits(run);
      run' := Extend(run, GrowthCheck(Memory(End(run).reg), true));
    } else {
      GrowthQuiet(run);
      run' := run;
    }
  }

  // And through the telemetry queue into the ingest loop's hands.
  lemma Fetched(run: seq<State>, f: Sensor) returns (run': seq<State>)
    requires IsRun(run) && End(run).proc == ToTelemetry(f) && End(run).telQ == []
    requires End(run).ing == Check || End(run).ing == Await
    ensures IsRun(run') && run <= run'
    ensures var s := End(run);
            End(run') == s.(proc := Idle, telSent := s.telSent + [f], ing := Hold(f), reg := Grow(s.reg, Memory(s.reg)))
  {
    run' := Extend(run, OfferTelemetry(true));
    run' := Checked(run');
    run' := Extend(run', ReceiveFrame);
    assert End(run').telQ == [];
  }

  lemma IntoRegistry(run: seq<State>, f: Sensor) returns (run': seq<State>)
    requires IsRun(run) && End(run).proc == ToTelemetry(f) && End(run).telQ == []
    requires End(run).ing == Check || End(run).ing == Await
    requires |Keys(End(run).stored + [f])| <= SENSORS_LIMIT_MAX
    ensures IsRun(run') && run <= run'
    ensures var s, t := End(run), End(run');
            t == s.(proc := Idle, telSent := s.telSent + [f], stored := s.stored + [f], ing := Check,
                    touched := t.touched, reg := t.reg)
  {
    RoomKept(run, f);
    run' := Fetched(run, f);
    run' := Extend(run', StoreFrame);
  }

  // From a client to the moment the processor has made the frame.
  lemma Dispatched(run: seq<State>, next: nat, m: Message, wall: Timespec) returns (run': seq<State>)
    requires IsRun(run) && Ready(End(run), next) && ValidMessage(m)
    ensures IsRun(run') && run <= run'
    ensures var s, t, p := End(run), End(run'), Encode(m);
            t == s.(conns := s.conns[next := Conn(p, 1)], proc := Dispatch(Some(FrameOf(m, wall, s.now))),
                    sent := s.sent + [Sent(next, p)], jobs := t.jobs)
  {
    EncodedFrames(m);
    DecodeEncode(m);
    run' := Received(run, next, Encode(m));
    run' := Extend(run', Stamp(wall));
  }

  /** From any reachable settled state any valid message can get all the way into the registry, unless
      it bears a 129th key or is read at a time that has no text. */
  lemma Delivered(run: seq<State>, next: nat, m: Message, wall: Timespec) returns (run': seq<State>)
    requires IsRun(run) && Settled(End(run), next) && ValidMessage(m) && End(run).zone(wall).Some?
    requires |Keys(End(run).stored + [FrameOf(m, wall, End(run).now)])| <= SENSORS_LIMIT_MAX
    ensures IsRun(run') && run <= run' && Settled(End(run'), next + 1)
    ensures End(run').now == End(run).now && End(run').lost == End(run).lost && End(run').zone == End(run).zone
    ensures End(run').stored == End(run).stored + [FrameOf(m, wall, End(run).now)]
    ensures End(run').telSent == End(run).telSent + [FrameOf(m, wall, End(run).now)]
    ensures End(run').sent == End(run).sent + [Sent(next, Encode(m))]
  {
    var f := FrameOf(m, wall, End(run).now);
    run' := Dispatched(run, next, m, wall);
    run' := IntoLog(run', f);
    run' := IntoRegistry(run', f);
  }

  function FramesAt(ms: seq<Message>, wall: Timespec, mono: Timespec): seq<Sensor> {
    if ms == [] then [] else FramesAt(ms[..|ms| - 1], wall, mono) + [FrameOf(ms[|ms| - 1], wall, mono)]
  }

  /** Any valid messages that bear at most 128 keys, in any order and number, are what some run from
      any initial state stores. Together with `CapacityAcrossSections`, this is exact. */
  lemma {:induction false} AllDelivered(s: State, ms: seq<Message>) returns (run: seq<State>)
    requires Init(s) && forall m :: m in ms ==> ValidMessage(m)
    requires |Keys(FramesAt(ms, EPOCH, s.now))| <= SENSORS_LIMIT_MAX
    ensures IsRun(run) && run[0] == s && Settled(End(run), |ms|) && End(run).now == s.now && !End(run).lost
    ensures End(run).stored == FramesAt(ms, EPOCH, s.now) && End(run).zone == s.zone
  {
    if ms == [] {
      run := [s];
    } else {
      var n := |ms| - 1;
      KeysPrefix(FramesAt(ms[..n], EPOCH, s.now), [FrameOf(ms[n], EPOCH, s.now)]);
      run := AllDelivered(s, ms[..n]);
      run := Delivered(run, n, ms[n], EPOCH);
    }
  }
}
