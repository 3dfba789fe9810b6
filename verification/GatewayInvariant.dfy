/** Every step keeps the gateway's invariant, one part at a time. */
module GatewayInvariant {
  import opened Bytes
  import opened Sense
  import opened Seqs
  import opened Packet
  import opened Acquirer
  import opened Registry
  import opened LogFile
  import opened Transport
  import opened Gateway

  lemma JobsSnoc(jobs: seq<Job>, job: Job)
    ensures Sources(jobs + [job]) == Sources(jobs) + [job.source]
    ensures Made(jobs + [job]) == Add(Made(jobs), MadeBy(job))
  {
    Last(jobs, job);
  }

  lemma RowsSnoc(rows: seq<Row>, row: Row)
    ensures FramesLogged(rows + [row]) == FramesLogged(rows) + [row.frame]
  {
    Last(rows, row);
  }

  lemma PacketsSnoc(c: nat, sent: seq<Sent>, x: Sent)
    ensures PacketsFrom(c, sent + [x]) == if x.conn == c then PacketsFrom(c, sent) + [x.pkt] else PacketsFrom(c, sent)
  {
    Last(sent, x);
  }

  // Moving the head of a queue to what was taken from it, and appending to the queue.
  lemma Shift<T>(taken: seq<T>, queue: seq<T>)
    requires queue != []
    ensures taken + [queue[0]] + queue[1..] == taken + queue
  {
  }

  lemma Append<T>(taken: seq<T>, queue: seq<T>, x: T)
    ensures taken + queue + [x] == taken + (queue + [x])
  {
  }

  lemma AcquireStamp(s: State, wall: Timespec)
    requires AcquireConserved(s) && Enabled(s, Stamp(wall))
    ensures AcquireConserved(Apply(s, Stamp(wall)))
  {
    JobsSnoc(s.jobs, Job(s.proc.source, wall, s.now));
  }

  lemma AcquireForward(s: State, c: nat, ok: bool)
    requires AcquireConserved(s) && Enabled(s, Forward(c, ok))
    ensures AcquireConserved(Apply(s, Forward(c, ok)))
  {
    Append(Add(Sources(s.jobs), HeldSource(s.proc)), s.acq, Sent(c, Frames(s.conns[c].received)[s.conns[c].offered]));
  }

  lemma AcquireQuiet(s: State, a: Action)
    requires Enabled(s, a) && !a.Take? && !a.Stamp? && !a.Forward?
    ensures var s' := Apply(s, a); s'.sent == s.sent && s'.jobs == s.jobs
  {
  }

  lemma AcqQuiet(s: State, a: Action)
    requires Enabled(s, a) && !a.Take? && !a.Forward?
    ensures Apply(s, a).acq == s.acq
  {
  }

  lemma HeldQuiet(s: State, a: Action)
    requires Enabled(s, a) && !a.Take? && !a.Stamp? && !a.Forward?
    ensures HeldSource(Apply(s, a).proc) == HeldSource(s.proc)
  {
    if !a.OfferLog? && !a.OfferTelemetry? {
      ProcQuiet(s, a);
    }
  }

  lemma ProcQuiet(s: State, a: Action)
    requires Enabled(s, a) && !a.Take? && !a.Stamp? && !a.OfferLog? && !a.OfferTelemetry?
    ensures Apply(s, a).proc == s.proc
  {
  }

  lemma AcquireStep(s: State, a: Action)
    requires AcquireConserved(s) && Enabled(s, a)
    ensures AcquireConserved(Apply(s, a))
  {
    if a.Take? {
      Shift(Sources(s.jobs), s.acq);
    } else if a.Stamp? {
      AcquireStamp(s, a.wall);
    } else if a.Forward? {
      AcquireForward(s, a.c, a.ok);
    } else {
      AcquireQuiet(s, a);
      AcqQuiet(s, a);
      HeldQuiet(s, a);
    }
  }

  lemma LogStep(s: State, a: Action)
    requires LogConserved(s) && Enabled(s, a)
    ensures LogConserved(Apply(s, a))
  {
    if a.OfferLog? {
      Append(Add(FramesLogged(s.logged), LogInHand(s.logger)), s.logQ, s.proc.frame);
    } else if a.TakeLog? {
      Shift(FramesLogged(s.logged), s.logQ);
    } else if a.WriteLog? {
      LogWrite(s, a.opening, a.writes);
    } else {
      LogQuiet(s, a);
    }
  }

  lemma LogWrite(s: State, opening: Opening, writes: seq<SendEvent>)
    requires LogConserved(s) && Enabled(s, WriteLog(opening, writes))
    ensures LogConserved(Apply(s, WriteLog(opening, writes)))
  {
    RowsSnoc(s.logged, RowOf(TurnFor(s, opening, writes)));
  }

  lemma LogQuiet(s: State, a: Action)
    requires Enabled(s, a) && !a.OfferLog? && !a.TakeLog? && !a.WriteLog?
    ensures var s' := Apply(s, a);
            s'.logSent == s.logSent && s'.logged == s.logged && s'.logger == s.logger && s'.logQ == s.logQ
  {
  }

  lemma WriteOutcome(s: State, opening: Opening, writes: seq<SendEvent>)
    requires Enabled(s, WriteLog(opening, writes))
    ensures var s', turn := Apply(s, WriteLog(opening, writes)), TurnFor(s, opening, writes);
            && s'.files == AfterTurn(s.files, turn) && s'.zone == s.zone
            && (if Succeeds(s.files, turn) then s'.logger == Logging && s'.logged == s.logged + [RowOf(turn)]
                else s'.logger == LogStopped(turn) && s'.logged == s.logged)
  {
  }

  lemma TurnFiles(rows: seq<Row>, turn: Turn)
    requires Succeeds(FilesAfter(rows), turn)
    ensures AfterTurn(FilesAfter(rows), turn) == FilesAfter(rows + [RowOf(turn)])
  {
    SuccessAppends(FilesAfter(rows), turn);
    FilesAfterSnoc(rows, RowOf(turn));
  }

  lemma FilesWrite(s: State, opening: Opening, writes: seq<SendEvent>)
    requires FilesOk(s) && Enabled(s, WriteLog(opening, writes))
    ensures FilesOk(Apply(s, WriteLog(opening, writes)))
  {
    var turn := TurnFor(s, opening, writes);
    WriteOutcome(s, opening, writes);
    if Succeeds(s.files, turn) {
      TurnFiles(s.logged, turn);
    }
  }

  lemma FilesStep(s: State, a: Action)
    requires FilesOk(s) && Enabled(s, a)
    ensures FilesOk(Apply(s, a))
  {
    if a.WriteLog? {
      FilesWrite(s, a.opening, a.writes);
    } else {
      FilesQuiet(s, a);
    }
  }

  lemma FilesQuiet(s: State, a: Action)
    requires Enabled(s, a) && !a.WriteLog?
    ensures var s' := Apply(s, a);
            && s'.files == s.files && s'.logged == s.logged && s'.zone == s.zone
            && (s'.logger == s.logger || (s.logger.Logging? && s'.logger.Writing?))
  {
  }

  lemma TelemetryStep(s: State, a: Action)
    requires TelemetryConserved(s) && Enabled(s, a)
    ensures TelemetryConserved(Apply(s, a))
  {
    match a
    case OfferTelemetry(ok) => Append(Add(s.stored, InHand(s.ing)), s.telQ, s.proc.frame);
    case ReceiveFrame => Shift(s.stored, s.telQ);
    case _ =>
  }

  /** Nothing appears, disappears or changes order in any queue. */
  lemma ConservedStep(s: State, a: Action)
    requires Conserved(s) && Enabled(s, a)
    ensures Conserved(Apply(s, a))
  {
    AcquireStep(s, a);
    LogStep(s, a);
    TelemetryStep(s, a);
  }

  lemma FlowsMake(
    made: seq<Sensor>, dataMade: seq<Sensor>, p: Processor, tel: seq<Sensor>, dataTel: seq<Sensor>, log: seq<Sensor>,
    lost: bool, more: Option<Sensor>)
    requires FlowsFrom(made, dataMade, p, tel, dataTel, log, lost) && p.Holding?
    ensures FlowsFrom(Add(made, more), AddData(dataMade, more), Dispatch(more), tel, dataTel, log, lost)
  {
    if more.Some? {
      SubseqBoth(tel, made, more.value);
      SubseqBoth(log, dataMade, more.value);
    }
  }

  lemma FlowsLog(
    made: seq<Sensor>, dataMade: seq<Sensor>, f: Sensor, tel: seq<Sensor>, dataTel: seq<Sensor>, log: seq<Sensor>,
    lost: bool)
    requires FlowsFrom(made, dataMade, ToLog(f), tel, dataTel, log, lost)
    ensures FlowsFrom(made, dataMade, ToTelemetry(f), tel, dataTel, log + [f], lost)
    ensures FlowsFrom(made, dataMade, Idle, tel, dataTel, log, true)
  {
    SubseqBoth(dataTel, log, f);
    SubseqLess(tel, f, made);
    SubseqLess(log, f, dataMade);
  }

  lemma FlowsTelemetry(
    made: seq<Sensor>, dataMade: seq<Sensor>, f: Sensor, tel: seq<Sensor>, dataTel: seq<Sensor>, log: seq<Sensor>,
    lost: bool)
    requires FlowsFrom(made, dataMade, ToTelemetry(f), tel, dataTel, log, lost)
    ensures FlowsFrom(made, dataMade, Idle, tel + [f], if f.kind == Data then dataTel + [f] else dataTel, log, lost)
    ensures FlowsFrom(made, dataMade, Idle, tel, dataTel, log, true)
  {
    SubseqLess(tel, f, made);
    if f.kind == Data {
      SubseqLess(dataTel, f, log);
    }
  }

  function AddData(fs: seq<Sensor>, more: Option<Sensor>): seq<Sensor> {
    if more.Some? && more.value.kind == Data then fs + [more.value] else fs
  }

  lemma DataOnlyAdd(fs: seq<Sensor>, more: Option<Sensor>)
    ensures DataOnly(Add(fs, more)) == AddData(DataOnly(fs), more)
  {
    if more.Some? {
      FilterSnoc(IsData(), fs, more.value);
    }
  }

  lemma FlowsStamp(s: State, wall: Timespec)
    requires Flows(s) && s.proc.Holding?
    ensures Flows(Apply(s, Stamp(wall)))
  {
    var made, job := Made(s.jobs), Job(s.proc.source, wall, s.now);
    JobsSnoc(s.jobs, job);
    DataOnlyAdd(made, MadeBy(job));
    FlowsMake(made, DataOnly(made), s.proc, s.telSent, DataOnly(s.telSent), s.logSent, s.lost, MadeBy(job));
  }

  lemma FlowsOfferLog(s: State, ok: bool)
    requires Flows(s) && Enabled(s, OfferLog(ok))
    ensures Flows(Apply(s, OfferLog(ok)))
  {
    var made := Made(s.jobs);
    FlowsLog(made, DataOnly(made), s.proc.frame, s.telSent, DataOnly(s.telSent), s.logSent, s.lost);
  }

  lemma FlowsOfferTelemetry(s: State, ok: bool)
    requires Flows(s) && Enabled(s, OfferTelemetry(ok))
    ensures Flows(Apply(s, OfferTelemetry(ok)))
  {
    var made := Made(s.jobs);
    FilterSnoc(IsData(), s.telSent, s.proc.frame);
    FlowsTelemetry(made, DataOnly(made), s.proc.frame, s.telSent, DataOnly(s.telSent), s.logSent, s.lost);
  }

  // Nothing moved towards or through the outgoing queues.
  ghost predicate Quiet(s: State, s': State) {
    && s'.jobs == s.jobs && s'.telSent == s.telSent && s'.logSent == s.logSent
    && (s'.proc == s.proc || (s.proc.Idle? && s'.proc.Holding?))
    && (s.lost ==> s'.lost)
  }

  lemma QuietSteps(s: State, a: Action)
    requires Enabled(s, a) && !a.Stamp? && !a.OfferLog? && !a.OfferTelemetry?
    ensures Quiet(s, Apply(s, a))
  {
  }

  lemma FlowsQuiet(s: State, s': State)
    requires Flows(s) && Quiet(s, s')
    ensures Flows(s')
  {
  }

  lemma FlowsStep(s: State, a: Action)
    requires Flows(s) && Enabled(s, a)
    ensures Flows(Apply(s, a))
  {
    if a.Stamp? {
      FlowsStamp(s, a.wall);
    } else if a.OfferLog? {
      FlowsOfferLog(s, a.ok);
    } else if a.OfferTelemetry? {
      FlowsOfferTelemetry(s, a.ok);
    } else {
      QuietSteps(s, a);
      FlowsQuiet(s, Apply(s, a));
    }
  }

  lemma MadeIsNamed(job: Job)
    ensures MadeBy(job).Some? ==> Named(MadeBy(job).value) && MadeBy(job).value.lastSeen == job.mono
  {
    if Decode(job.source.pkt).Some? {
      EncodeDecode(job.source.pkt);
    }
  }

  lemma StampedMake(made: seq<Sensor>, now: Timespec, more: Option<Sensor>)
    requires StampedBy(made, now)
    requires more.Some? ==> Named(more.value) && more.value.lastSeen == now
    ensures StampedBy(Add(made, more), now)
  {
  }

  lemma StampedStep(s: State, a: Action)
    requires Stamped(s) && Enabled(s, a)
    ensures Stamped(Apply(s, a))
  {
    match a
    case Stamp(wall) =>
      var job := Job(s.proc.source, wall, s.now);
      JobsSnoc(s.jobs, job);
      MadeIsNamed(job);
      StampedMake(Made(s.jobs), s.now, MadeBy(job));
    case _ =>
  }

  lemma SourcedArrive(s: State, c: nat, data: seq<byte>)
    requires Sourced(s) && c in s.conns
    ensures Sourced(Apply(s, Arrive(c, data)))
  {
    var conn := s.conns[c];
    assert ConnFits(c, conn, s.sent, s.lost);
    FramesGrow(conn.received, data);
    assert Frames(conn.received + data)[..conn.offered] == Frames(conn.received)[..conn.offered];
  }

  lemma ConnForward(c: nat, conn: Conn, sent: seq<Sent>, lost: bool)
    requires ConnFits(c, conn, sent, lost) && conn.offered < |Frames(conn.received)|
    ensures var next := conn.(offered := conn.offered + 1);
            && ConnFits(c, next, sent + [Sent(c, Frames(conn.received)[conn.offered])], lost)
            && ConnFits(c, next, sent, true)
  {
    var fs, n := Frames(conn.received), conn.offered;
    assert fs[..n + 1] == fs[..n] + [fs[n]];
    PacketsSnoc(c, sent, Sent(c, fs[n]));
    SubseqBoth(PacketsFrom(c, sent), fs[..n], fs[n]);
    SubseqSkip(PacketsFrom(c, sent), fs[..n], fs[n]);
  }

  lemma ConnOther(d: nat, conn: Conn, sent: seq<Sent>, lost: bool, x: Sent)
    requires ConnFits(d, conn, sent, lost) && x.conn != d
    ensures ConnFits(d, conn, sent + [x], lost) && ConnFits(d, conn, sent, true)
  {
    PacketsSnoc(d, sent, x);
  }

  lemma SourcedForward(s: State, c: nat, ok: bool)
    requires Sourced(s) && Enabled(s, Forward(c, ok))
    ensures Sourced(Apply(s, Forward(c, ok)))
  {
    var s', x := Apply(s, Forward(c, ok)), Sent(c, Frames(s.conns[c].received)[s.conns[c].offered]);
    forall d | d in s'.conns
      ensures ConnFits(d, s'.conns[d], s'.sent, s'.lost)
    {
      assert ConnFits(d, s.conns[d], s.sent, s.lost);
      if d == c {
        ConnForward(c, s.conns[c], s.sent, s.lost);
      } else {
        ConnOther(d, s.conns[d], s.sent, s.lost, x);
      }
    }
  }

  lemma {:induction false} NothingFrom(c: nat, sent: seq<Sent>)
    requires forall i :: 0 <= i < |sent| ==> sent[i].conn != c
    ensures PacketsFrom(c, sent) == []
  {
    if sent != [] {
      NothingFrom(c, sent[..|sent| - 1]);
    }
  }

  lemma SourcedConnect(s: State, c: nat)
    requires Sourced(s) && c !in s.conns
    ensures Sourced(Apply(s, Connect(c)))
  {
    var s' := Apply(s, Connect(c));
    NothingFrom(c, s.sent);
    assert Embeds([], PacketsFrom(c, s.sent), Frames([])[..0]);
    assert ConnFits(c, Conn([], 0), s.sent, s.lost);
    forall d | d in s'.conns
      ensures ConnFits(d, s'.conns[d], s'.sent, s'.lost)
    {
      assert d != c ==> ConnFits(d, s.conns[d], s.sent, s.lost);
    }
  }

  // No connection changed, and nothing was sent by one.
  ghost predicate ConnsKept(s: State, s': State) {
    s'.conns == s.conns && s'.sent == s.sent && (s.lost ==> s'.lost)
  }

  lemma ConnsKeptSteps(s: State, a: Action)
    requires Enabled(s, a) && !a.Connect? && !a.Arrive? && !a.Forward?
    ensures ConnsKept(s, Apply(s, a))
  {
  }

  lemma SourcedStep(s: State, a: Action)
    requires Sourced(s) && Enabled(s, a)
    ensures Sourced(Apply(s, a))
  {
    if a.Connect? {
      SourcedConnect(s, a.c);
    } else if a.Arrive? {
      SourcedArrive(s, a.c, a.data);
    } else if a.Forward? {
      SourcedForward(s, a.c, a.ok);
    } else {
      ConnsKeptSteps(s, a);
      SourcedSame(s, Apply(s, a));
    }
  }

  lemma SourcedSame(s: State, s': State)
    requires Sourced(s) && ConnsKept(s, s')
    ensures Sourced(s')
  {
    forall c | c in s'.conns
      ensures ConnFits(c, s'.conns[c], s'.sent, s'.lost)
    {
      assert ConnFits(c, s.conns[c], s.sent, s.lost);
    }
  }

  // Nothing was stored or judged, and the ingest loop at most took a frame in hand.
  ghost predicate RegistryUntouched(s: State, s': State) {
    s'.reg == s.reg && s'.stored == s.stored && (s'.ing == s.ing || (s.ing.Await? && s'.ing.Hold?))
  }

  lemma RegistryUntouchedSteps(s: State, a: Action)
    requires Enabled(s, a) && !a.GrowthCheck? && !a.StoreFrame? && !a.Judge?
    ensures RegistryUntouched(s, Apply(s, a))
  {
  }

  lemma RegistryStep(s: State, a: Action)
    requires RegistryOk(s) && Enabled(s, a)
    ensures RegistryOk(Apply(s, a))
  {
    if a.GrowthCheck? {
      GrowRefines(s.reg, s.stored, a.garbage);
    } else if a.StoreFrame? {
      StoreRefines(s.reg, s.stored, s.ing.frame);
    } else if a.Judge? {
      WatchRefines(s.reg, s.stored, s.dog.at);
    } else {
      RegistryUntouchedSteps(s, a);
    }
  }

  lemma WatchdogStore(s: State)
    requires WatchdogOk(s) && Enabled(s, StoreFrame)
    ensures WatchdogOk(Apply(s, StoreFrame))
  {
    var s', f := Apply(s, StoreFrame), s.ing.frame;
    if Store(s.reg, f).Kept? {
      var h := Find(Live(s.reg), KeyOf(f));
      forall i | 0 <= i < s'.reg.count
        ensures JudgedRight(s', i)
      {
        if i != h {
          assert s'.reg.cells[i] == s.reg.cells[i];
          assert JudgedRight(s, i);
        }
      }
    } else {
      WatchdogSame(s, s');
    }
  }

  lemma WatchdogSame(s: State, s': State)
    requires WatchdogOk(s) && s'.reg.count == s.reg.count && s.reg.cells <= s'.reg.cells
    requires s'.lastPass == s.lastPass && s'.touched == s.touched && s'.dog in {s.dog, Sampled(s.now)}
    requires Nanos(s.now) <= Nanos(s'.now)
    ensures WatchdogOk(s')
  {
    forall i | 0 <= i < s'.reg.count
      ensures JudgedRight(s', i)
    {
      assert JudgedRight(s, i);
    }
  }

  lemma WatchdogJudge(s: State)
    requires WatchdogOk(s) && RegistryOk(s) && Enabled(s, Judge)
    ensures WatchdogOk(Apply(s, Judge))
  {
    var s' := Apply(s, Judge);
    WatchRefines(s.reg, s.stored, s.dog.at);
    forall i | 0 <= i < s'.reg.count
      ensures JudgedRight(s', i)
    {
      var cell := s.reg.cells[i];
      assert s'.reg.cells[i] == cell.(state := if Inactive(cell, s.dog.at) then Offline else Online);
    }
  }

  lemma WatchdogQuietSteps(s: State, a: Action)
    requires Enabled(s, a) && !a.StoreFrame? && !a.Judge?
    ensures var s' := Apply(s, a);
            && s'.reg.count == s.reg.count && s.reg.cells <= s'.reg.cells && Nanos(s.now) <= Nanos(s'.now)
            && s'.lastPass == s.lastPass && s'.touched == s.touched && s'.dog in {s.dog, Sampled(s.now)}
  {
  }

  lemma WatchdogStep(s: State, a: Action)
    requires WatchdogOk(s) && RegistryOk(s) && Enabled(s, a)
    ensures WatchdogOk(Apply(s, a))
  {
    if a.StoreFrame? {
      WatchdogStore(s);
    } else if a.Judge? {
      WatchdogJudge(s);
    } else {
      WatchdogQuietSteps(s, a);
      WatchdogSame(s, Apply(s, a));
    }
  }

  lemma InvStep(s: State, a: Action)
    requires Inv(s) && Enabled(s, a)
    ensures Inv(Apply(s, a))
  {
    ConservedStep(s, a);
    FilesStep(s, a);
    FlowsStep(s, a);
    StampedStep(s, a);
    SourcedStep(s, a);
    RegistryStep(s, a);
    WatchdogStep(s, a);
  }

  lemma FlowsInit(s: State)
    requires Init(s)
    ensures Flows(s)
  {
    assert Embeds([], Add(s.telSent, PendingTelemetry(s.proc)), Made(s.jobs));
    assert Embeds([], Add(s.logSent, PendingLog(s.proc)), DataOnly(Made(s.jobs)));
    assert Embeds([], Add(DataOnly(s.telSent), JustLogged(s.proc)), s.logSent);
  }

  lemma QueuesInit(s: State)
    requires Init(s)
    ensures Conserved(s) && FilesOk(s) && Stamped(s) && Sourced(s)
  {
  }

  lemma RegistryInit(s: State)
    requires Init(s)
    ensures RegistryOk(s) && WatchdogOk(s)
  {
    assert Keys(s.stored) == [];
  }

  lemma InvInit(s: State)
    requires Init(s)
    ensures Inv(s)
  {
    QueuesInit(s);
    FlowsInit(s);
    RegistryInit(s);
  }

  lemma InvNext(run: seq<State>, n: nat)
    requires IsRun(run) && n < |run| && (n > 0 ==> Inv(run[n - 1]))
    ensures Inv(run[n])
  {
    if n == 0 {
      InvInit(run[0]);
    } else {
      var a := ActionAt(run, n);
      InvStep(run[n - 1], a);
    }
  }

  ghost predicate InvUpTo(run: seq<State>, n: nat)
    requires n < |run|
  {
    Inv(run[n]) && (n > 0 ==> InvUpTo(run, n - 1))
  }

  lemma {:induction false} RunInvUpTo(run: seq<State>, n: nat)
    requires IsRun(run) && n < |run|
    ensures InvUpTo(run, n)
  {
    if n > 0 {
      RunInvUpTo(run, n - 1);
    }
    InvNext(run, n);
  }

  /** The invariant holds in every state of every run. */
  lemma RunInv(run: seq<State>, n: nat)
    requires IsRun(run) && n < |run|
    ensures Inv(run[n])
  {
    RunInvUpTo(run, n);
  }

  // Its parts, for proofs that need no more.
  lemma RunRegistryOk(run: seq<State>, n: nat)
    requires IsRun(run) && n < |run|
    ensures RegistryOk(run[n])
  {
    RunInvUpTo(run, n);
  }

  lemma RunConserved(run: seq<State>, n: nat)
    requires IsRun(run) && n < |run|
    ensures Conserved(run[n])
  {
    RunInvUpTo(run, n);
  }

  lemma RunFilesOk(run: seq<State>, n: nat)
    requires IsRun(run) && n < |run|
    ensures FilesOk(run[n])
  {
    RunInvUpTo(run, n);
  }

  lemma RunFlows(run: seq<State>, n: nat)
    requires IsRun(run) && n < |run|
    ensures Flows(run[n]) && Stamped(run[n])
  {
    RunInvUpTo(run, n);
  }
}
