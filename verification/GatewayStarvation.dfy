/** When the telemetry of data can go on for ever, and when it is over: exact for every reachable
    state, whatever is still on its way in it. */
module GatewayStarvation {
  import opened Sense
  import opened Seqs
  import opened Packet
  import opened Registry
  import opened LogFile
  import opened Gateway
  import opened GatewayInvariant
  import opened GatewayTheorems
  import opened GatewayReach

  ghost predicate AllTimed(zone: Zone, fs: seq<Sensor>) {
    forall i :: 0 <= i < |fs| ==> zone(fs[i].timestamp).Some?
  }

  // No log write has failed, the ingest loop runs, the frames that telemetry has accepted, stored or not,
  // bear no 129th key, and those the log has accepted, written or not, have a time that can be formatted.
  ghost predicate CanGoOn(s: State) {
    && !s.logger.LogStopped? && !s.ing.Stopped?
    && |Keys(s.telSent)| <= SENSORS_LIMIT_MAX && AllTimed(s.zone, s.logSent)
  }

  function DataAccepted(s: State): nat {
    |DataOnly(s.telSent)|
  }

  // Some continuation has telemetry accept at least `bound` data frames.
  ghost predicate Reaches(run: seq<State>, bound: nat) {
    exists run' :: IsRun(run') && run <= run' && DataAccepted(End(run')) >= bound
  }

  // ---- a state in which it can go on: drain every stage, then send more ----

  // The processor drops or is done with what it has in hand.
  lemma Dropped(run: seq<State>) returns (run': seq<State>)
    requires IsRun(run) && !End(run).proc.Holding?
    ensures IsRun(run') && run <= run'
    ensures var s, t := End(run), End(run'); t == s.(proc := Idle, lost := t.lost)
  {
    run' := run;
    if End(run).proc.ToLog? {
      run' := Extend(run, OfferLog(false));
    } else if End(run).proc.ToTelemetry? {
      run' := Extend(run, OfferTelemetry(false));
    }
  }

  lemma Flushed(run: seq<State>) returns (run': seq<State>)
    requires IsRun(run)
    ensures IsRun(run') && run <= run'
    ensures var s, t := End(run), End(run'); t == s.(proc := Idle, jobs := t.jobs, lost := t.lost)
  {
    run' := run;
    if End(run).proc.Holding? {
      run' := Extend(run, Stamp(End(run).now));
    }
    run' := Dropped(run');
  }

  lemma {:induction false} AcquireDrained(run: seq<State>) returns (run': seq<State>)
    requires IsRun(run)
    ensures IsRun(run') && run <= run'
    ensures var s, t := End(run), End(run'); t == s.(acq := [], proc := Idle, jobs := t.jobs, lost := t.lost)
    decreases |End(run).acq|
  {
    run' := Flushed(run);
    if End(run).acq != [] {
      run' := Extend(run', Take);
      run' := AcquireDrained(run');
    }
  }

  lemma LogFramesSupported(run: seq<State>)
    requires IsRun(run)
    ensures End(run).logger.Writing? ==>
              End(run).logger.frame.stype != Unsupported && End(run).logger.frame in End(run).logSent
  {
    RunConserved(run, |run| - 1);
    RunFlows(run, |run| - 1);
    if End(run).logger.Writing? {
      HandAccepted(End(run));
    }
  }

  lemma HandAccepted(s: State)
    requires LogConserved(s) && Flows(s) && Stamped(s) && s.logger.Writing?
    ensures s.logger.frame in s.logSent && Named(s.logger.frame)
  {
    var n := |FramesLogged(s.logged)|;
    assert s.logSent[n] == s.logger.frame;
    LogAcceptedNamed(s, n);
  }

  lemma {:induction false} LogDrained(run: seq<State>) returns (run': seq<State>)
    requires IsRun(run) && !End(run).logger.LogStopped? && AllTimed(End(run).zone, End(run).logSent)
    ensures IsRun(run') && run <= run'
    ensures var s, t := End(run), End(run');
            t == s.(logQ := [], logger := Logging, logged := t.logged, files := t.files)
    decreases |End(run).logQ|, End(run).logger.Writing?
  {
    if End(run).logger.Writing? {
      LogFramesSupported(run);
      run' := Written(run);
      run' := LogDrained(run');
    } else if End(run).logQ != [] {
      run' := Extend(run, TakeLog);
      run' := LogDrained(run');
    } else {
      run' := run;
    }
  }

  lemma RoomForHeld(run: seq<State>)
    requires IsRun(run) && End(run).ing.Hold? && |Keys(End(run).telSent)| <= SENSORS_LIMIT_MAX
    ensures Store(End(run).reg, End(run).ing.frame).Kept?
  {
    var s := End(run);
    RunRegistryOk(run, |run| - 1);
    RunConserved(run, |run| - 1);
    KeysSnoc(s.stored, s.ing.frame);
    assert s.telSent == s.stored + [s.ing.frame] + s.telQ;
    KeysPrefix(s.stored + [s.ing.frame], s.telQ);
    StoreRefines(s.reg, s.stored, s.ing.frame);
  }

  lemma HeldStored(run: seq<State>) returns (run': seq<State>)
    requires IsRun(run) && End(run).ing.Hold? && |Keys(End(run).telSent)| <= SENSORS_LIMIT_MAX
    ensures IsRun(run') && run <= run'
    ensures var s, t := End(run), End(run');
            t == s.(ing := Check, reg := t.reg, stored := t.stored, touched := t.touched)
  {
    RoomForHeld(run);
    run' := Extend(run, StoreFrame);
  }

  function Rank(i: Ingest): nat {
    if i.Hold? then 2 else if i.Check? then 1 else 0
  }

  lemma {:induction false} TelemetryDrained(run: seq<State>) returns (run': seq<State>)
    requires IsRun(run) && !End(run).ing.Stopped? && |Keys(End(run).telSent)| <= SENSORS_LIMIT_MAX
    ensures IsRun(run') && run <= run' && End(run').ing == Await
    ensures var s, t := End(run), End(run');
            t == s.(telQ := [], ing := Await, reg := t.reg, stored := t.stored, touched := t.touched)
    decreases |End(run).telQ|, Rank(End(run).ing)
  {
    if End(run).ing.Hold? {
      run' := HeldStored(run);
      run' := TelemetryDrained(run');
    } else if End(run).ing.Check? {
      run' := Checked(run);
      run' := TelemetryDrained(run');
    } else if End(run).telQ != [] {
      run' := Extend(run, ReceiveFrame);
      run' := TelemetryDrained(run');
    } else {
      run' := run;
    }
  }

  lemma {:induction false} Above(cs: set<nat>) returns (next: nat)
    ensures forall c :: c in cs ==> c < next
  {
    if cs == {} {
      next := 0;
    } else {
      var c :| c in cs;
      next := Above(cs - {c});
      assert forall d :: d in cs ==> d == c || d in cs - {c};
      if next <= c {
        next := c + 1;
      }
    }
  }

  /** From every such state, whatever is in its queues, some continuation settles. */
  lemma Drained(run: seq<State>) returns (run': seq<State>, next: nat)
    requires IsRun(run) && CanGoOn(End(run))
    ensures IsRun(run') && run <= run' && Settled(End(run'), next) && End(run').telSent == End(run).telSent
  {
    run' := AcquireDrained(run);
    run' := LogDrained(run');
    run' := TelemetryDrained(run');
    next := Above(End(run').conns.Keys);
  }

  lemma SettledStored(run: seq<State>, next: nat)
    requires IsRun(run) && Settled(End(run), next)
    ensures End(run).stored == End(run).telSent
  {
    RunConserved(run, |run| - 1);
  }

  // A key that can still be stored.
  lemma SomeKey(run: seq<State>) returns (k: Key)
    requires IsRun(run)
    ensures k.stype != Unsupported && (End(run).stored == [] || k in Keys(End(run).stored))
  {
    k := Key(0, Torque);
    if End(run).stored != [] {
      k := KeyOf(End(run).stored[0]);
      StoredNamed(run);
      KeyAmong(End(run).stored, 0);
    }
  }

  lemma StoredNamed(run: seq<State>)
    requires IsRun(run) && End(run).stored != []
    ensures Named(End(run).stored[0])
  {
    RunInv(run, |run| - 1);
    TimeOrderInv(End(run));
    assert End(run).telSent[0] == End(run).stored[0];
  }

  lemma {:induction false} KeyAmong(fs: seq<Sensor>, i: nat)
    requires i < |fs|
    ensures KeyOf(fs[i]) in Keys(fs)
  {
    var n := |fs| - 1;
    if i < n {
      KeyAmong(fs[..n], i);
    }
  }

  lemma DataCounted(fs: seq<Sensor>, f: Sensor)
    requires f.kind == Data
    ensures |DataOnly(fs + [f])| == |DataOnly(fs)| + 1
  {
    FilterSnoc(IsData(), fs, f);
    assert IsData()(f);
  }

  lemma RoomForKey(fs: seq<Sensor>, f: Sensor)
    requires |Keys(fs)| <= SENSORS_LIMIT_MAX && (fs == [] || KeyOf(f) in Keys(fs))
    ensures |Keys(fs + [f])| <= SENSORS_LIMIT_MAX && KeyOf(f) in Keys(fs + [f])
  {
    KeysSnoc(fs, f);
  }

  lemma {:induction false} MoreData(run: seq<State>, next: nat, k: Key, more: nat) returns (run': seq<State>)
    requires IsRun(run) && Settled(End(run), next) && |Keys(End(run).stored)| <= SENSORS_LIMIT_MAX
    requires k.stype != Unsupported && (End(run).stored == [] || k in Keys(End(run).stored))
    ensures IsRun(run') && run <= run' && DataAccepted(End(run')) == DataAccepted(End(run)) + more
    decreases more
  {
    if more == 0 {
      run' := run;
    } else {
      var m := Message(k.stype, k.id, Values(ZERO_DATA));
      var f := FrameOf(m, EPOCH, End(run).now);
      ZoneOf(run);
      RoomForKey(End(run).stored, f);
      DataCounted(End(run).telSent, f);
      run' := Delivered(run, next, m, EPOCH);
      run' := MoreData(run', next + 1, k, more - 1);
    }
  }

  /** As long as it can go on, telemetry can accept any number of data frames more. */
  lemma GoesOn(run: seq<State>, more: nat) returns (run': seq<State>)
    requires IsRun(run) && CanGoOn(End(run))
    ensures IsRun(run') && run <= run' && DataAccepted(End(run')) == DataAccepted(End(run)) + more
  {
    var next;
    run', next := Drained(run);
    SettledStored(run', next);
    var k := SomeKey(run');
    run' := MoreData(run', next, k, more);
  }

  // ---- a state in which it cannot: every later state is bounded ----

  // Acceptance and storing only ever append; a stopped ingest loop stores nothing.
  ghost predicate Appends(s: State, t: State) {
    && s.telSent <= t.telSent && s.stored <= t.stored && s.logSent <= t.logSent && s.zone == t.zone
    && (s.ing.Stopped? ==> t.ing == s.ing && t.stored == s.stored)
  }

  lemma AppendsStep(s: State, a: Action)
    requires Enabled(s, a)
    ensures Appends(s, Apply(s, a))
  {
  }

  lemma AppendsTransitive(s: State, t: State, u: State)
    requires Appends(s, t) && Appends(t, u)
    ensures Appends(s, u)
  {
  }

  lemma {:induction false} RunAppends(run: seq<State>, m: nat, n: nat)
    requires IsRun(run) && m <= n < |run|
    ensures Appends(run[m], run[n])
    decreases n - m
  {
    if m < n {
      RunAppends(run, m, n - 1);
      AppendsNext(run, n);
      AppendsTransitive(run[m], run[n - 1], run[n]);
    }
  }

  lemma AppendsNext(run: seq<State>, n: nat)
    requires IsRun(run) && 0 < n < |run|
    ensures Appends(run[n - 1], run[n])
  {
    var a := ActionAt(run, n);
    AppendsStep(run[n - 1], a);
  }

  lemma DataFewer(fs: seq<Sensor>)
    ensures |DataOnly(fs)| <= |fs|
  {
    FilterSubseq(IsData(), fs);
    SubseqLength(DataOnly(fs), fs);
  }

  lemma AcceptedAtMost(s: State)
    requires TelemetryConserved(s)
    ensures |s.telSent| <= |s.stored| + 1 + QUEUE_LIMIT
  {
  }

  lemma StoredWithinLimit(s: State)
    requires RegistryOk(s)
    ensures |Keys(s.stored)| <= SENSORS_LIMIT_MAX
  {
  }

  // With a 129th key on its way, the loop never gets past the frame that bears it.
  lemma StoredBefore(s: State, t: State)
    requires Appends(s, t) && RegistryOk(t) && t.stored <= t.telSent && |Keys(s.telSent)| > SENSORS_LIMIT_MAX
    ensures |t.stored| < |s.telSent|
  {
    if |t.stored| >= |s.telSent| {
      StoredWithinLimit(t);
      assert t.stored == s.telSent + t.stored[|s.telSent|..];
      KeysPrefix(s.telSent, t.stored[|s.telSent|..]);
    }
  }

  lemma LoggedTimed(s: State, i: nat)
    requires LogConserved(s) && FilesOk(s) && i < |s.logged|
    ensures i < |s.logSent| && s.zone(s.logSent[i].timestamp).Some?
  {
    LoggedAt(s.logged, i);
    assert s.logSent[i] == s.logged[i].frame;
    assert Timed(s.zone, s.logged[i]);
  }

  // Nor does the logger get past a frame whose time cannot be formatted.
  lemma LoggedBefore(s: State, t: State, i: nat)
    requires s.logSent <= t.logSent && s.zone == t.zone && LogConserved(t) && FilesOk(t)
    requires i < |s.logSent| && s.zone(s.logSent[i].timestamp).None?
    ensures |t.logged| <= i
  {
    if i < |t.logged| {
      LoggedTimed(t, i);
    }
  }

  lemma LoggedAtMost(s: State)
    requires LogConserved(s)
    ensures |s.logged| <= |s.logSent|
  {
    FramesLoggedLength(s.logged);
  }

  lemma OverForLogger(run: seq<State>, m: nat, n: nat)
    requires IsRun(run) && m <= n < |run| && run[m].logger.LogStopped?
    ensures DataAccepted(run[n]) <= |run[m].logSent| + 1 + QUEUE_LIMIT
  {
    FailedLogStarvesTelemetry(run, m, n);
    RunConserved(run, m);
    LoggedAtMost(run[m]);
  }

  lemma OverForTimes(run: seq<State>, m: nat, n: nat)
    requires IsRun(run) && m <= n < |run| && !AllTimed(run[m].zone, run[m].logSent)
    ensures DataAccepted(run[n]) <= |run[m].logSent| + 1 + QUEUE_LIMIT
  {
    RunAppends(run, m, n);
    RunConserved(run, n);
    RunFilesOk(run, n);
    RunFlows(run, n);
    var i :| 0 <= i < |run[m].logSent| && run[m].zone(run[m].logSent[i].timestamp).None?;
    LoggedBefore(run[m], run[n], i);
    TelemetryNeedsLog(run[n]);
  }

  lemma OverForIngest(run: seq<State>, m: nat, n: nat)
    requires IsRun(run) && m <= n < |run| && (run[m].ing.Stopped? || |Keys(run[m].telSent)| > SENSORS_LIMIT_MAX)
    ensures DataAccepted(run[n]) <= |run[m].telSent| + 1 + QUEUE_LIMIT
  {
    RunAppends(run, m, n);
    RunConserved(run, n);
    RunRegistryOk(run, n);
    DataFewer(run[n].telSent);
    AcceptedAtMost(run[n]);
    if run[m].ing.Stopped? {
      StoredAtMost(run, m);
    } else {
      StoredBefore(run[m], run[n]);
    }
  }

  lemma StoredAtMost(run: seq<State>, m: nat)
    requires IsRun(run) && m < |run|
    ensures |run[m].stored| <= |run[m].telSent|
  {
    RunConserved(run, m);
  }

  /** Otherwise it is over: in every later state the data frames accepted are bounded by what had been
      accepted by the two queues then, and eleven. */
  lemma IsOver(run: seq<State>, m: nat, n: nat)
    requires IsRun(run) && m <= n < |run| && !CanGoOn(run[m])
    ensures DataAccepted(run[n]) <= |run[m].telSent| + |run[m].logSent| + 1 + QUEUE_LIMIT
  {
    if run[m].logger.LogStopped? {
      OverForLogger(run, m, n);
    } else if !AllTimed(run[m].zone, run[m].logSent) {
      OverForTimes(run, m, n);
    } else {
      OverForIngest(run, m, n);
    }
  }

  /** Telemetry can still accept any number of data frames exactly if no log write has failed, the ingest
      loop has not stopped, no 129th key is on its way to it, and no time without a text is on its way
      to the logger. */
  lemma EndlessExactly(run: seq<State>)
    requires IsRun(run)
    ensures (forall bound: nat :: Reaches(run, bound)) <==> CanGoOn(End(run))
  {
    if CanGoOn(End(run)) {
      forall bound: nat
        ensures Reaches(run, bound)
      {
        var run' := GoesOn(run, bound);
      }
    } else {
      var s := End(run);
      var most := |s.telSent| + |s.logSent| + 1 + QUEUE_LIMIT;
      if Reaches(run, most + 1) {
        var run' :| IsRun(run') && run <= run' && DataAccepted(End(run')) >= most + 1;
        IsOver(run', |run| - 1, |run'| - 1);
      }
    }
  }

  // ---- a run that reaches the bound ----

  // With the logger gone, a data frame that still finds room in the log queue gets through.
  lemma Unlogged(run: seq<State>, next: nat, m: Message) returns (run': seq<State>)
    requires IsRun(run) && Ready(End(run), next) && ValidMessage(m) && m.body.Values?
    requires End(run).logger.LogStopped? && |End(run).logQ| < QUEUE_LIMIT
    requires var f := FrameOf(m, End(run).now, End(run).now); |Keys(End(run).stored + [f])| <= SENSORS_LIMIT_MAX
    ensures IsRun(run') && run <= run' && Ready(End(run'), next + 1)
    ensures var s, t, f := End(run), End(run'), FrameOf(m, End(run).now, End(run).now);
            && t.logger == s.logger && t.logged == s.logged && t.now == s.now && t.logQ == s.logQ + [f]
            && t.stored == s.stored + [f] && t.telSent == s.telSent + [f]
  {
    var f := FrameOf(m, End(run).now, End(run).now);
    run' := Dispatched(run, next, m, End(run).now);
    run' := Extend(run', OfferLog(true));
    run' := IntoRegistry(run', f);
  }

  lemma {:induction false} ManyUnlogged(run: seq<State>, next: nat, m: Message, more: nat) returns (run': seq<State>)
    requires IsRun(run) && Ready(End(run), next) && ValidMessage(m) && m.body.Values?
    requires End(run).logger.LogStopped? && |End(run).logQ| + more <= QUEUE_LIMIT
    requires |Keys(End(run).stored)| <= SENSORS_LIMIT_MAX && Key(m.id, m.stype) in Keys(End(run).stored)
    ensures IsRun(run') && run <= run' && End(run').logger == End(run).logger && End(run').logged == End(run).logged
    ensures |End(run').logQ| == |End(run).logQ| + more && DataAccepted(End(run')) == DataAccepted(End(run)) + more
    decreases more
  {
    if more == 0 {
      run' := run;
    } else {
      var f := FrameOf(m, End(run).now, End(run).now);
      RoomForKey(End(run).stored, f);
      DataCounted(End(run).telSent, f);
      run' := Unlogged(run, next, m);
      run' := ManyUnlogged(run', next + 1, m, more - 1);
    }
  }

  // A data frame whose file cannot be opened.
  lemma Unwritten(run: seq<State>, f: Sensor) returns (run': seq<State>)
    requires IsRun(run) && End(run).proc == ToLog(f) && End(run).logQ == [] && End(run).logger == Logging
    ensures IsRun(run') && run <= run' && End(run').logger.LogStopped?
    ensures var s, t := End(run), End(run');
            t == s.(proc := ToTelemetry(f), logger := t.logger, logSent := t.logSent, files := t.files)
  {
    run' := Extend(run, OfferLog(true));
    assert End(run').logQ == [f];
    run' := Extend(run', TakeLog);
    run' := Extend(run', WriteLog(OpenFails, []));
    assert End(run').logQ == [];
  }

  lemma FirstWriteFails(s: State, m: Message) returns (run: seq<State>)
    requires Init(s) && ValidMessage(m) && m.body.Values?
    ensures IsRun(run) && run[0] == s && Ready(End(run), 1)
    ensures var t := End(run);
            && t.logger.LogStopped? && t.logged == [] && t.logQ == []
            && t.stored == t.telSent == [FrameOf(m, s.now, s.now)]
  {
    var f := FrameOf(m, s.now, s.now);
    run := Dispatched([s], 0, m, s.now);
    run := Unwritten(run, f);
    RoomForKey([], f);
    assert [] + [f] == [f];
    run := IntoRegistry(run, f);
  }

  /** The bound of `FailedLogStarvesTelemetry` is reached: from any initial state some run loses its
      first log write, writes nothing, and has telemetry accept exactly eleven data frames before the
      log queue is full. */
  lemma Starved(s: State) returns (run: seq<State>)
    requires Init(s)
    ensures IsRun(run) && run[0] == s && End(run).logger.LogStopped? && End(run).logged == []
    ensures |End(run).logQ| == 10 && DataAccepted(End(run)) == 11
  {
    var m := Message(Torque, 7, Values(ZERO_DATA));
    var f := FrameOf(m, s.now, s.now);
    run := FirstWriteFails(s, m);
    RoomForKey([], f);
    DataCounted([], f);
    assert [] + [f] == [f] && Keys([]) == [];
    run := ManyUnlogged(run, 1, m, QUEUE_LIMIT);
  }
}
