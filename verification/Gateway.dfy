/** The whole gateway as one transition system: connections, queues, processor, logger, and the
    telemetry daemon's ingest loop and watchdog. Every critical section, queue operation, clock
    sample and clock advance is a step of its own; all choices are in the action's arguments. */
module Gateway {
  import opened Bytes
  import opened Sense
  import opened Seqs
  import opened Packet
  import opened Acquirer
  import opened Registry
  import opened LogFile
  import opened Transport

  const QUEUE_LIMIT: nat := 10

  // A connection: all bytes received so far, and how many of their packets were handed to the queue.
  datatype Conn = Conn(received: seq<byte>, offered: nat)

  // A packet with the connection it came from.
  datatype Sent = Sent(conn: nat, pkt: PacketBytes)

  // A packet the processor has dealt with, and the clocks it read for it.
  datatype Job = Job(source: Sent, wall: Timespec, mono: Timespec)

  datatype Processor = Idle | Holding(source: Sent) | ToLog(frame: Sensor) | ToTelemetry(frame: Sensor)

  datatype LogDaemon = Logging | Writing(frame: Sensor) | LogStopped(turn: Turn)

  datatype StopReason = NoMemory | LimitReached(frame: Sensor) | WrotePastEnd(frame: Sensor)

  datatype Ingest = Check | Await | Hold(frame: Sensor) | Stopped(reason: StopReason)

  datatype Watchdog = Sleeping | Sampled(at: Timespec)

  datatype State = State(
    zone: Zone,                 // the local-time text of each instant
    now: Timespec,              // CLOCK_MONOTONIC
    conns: map<nat, Conn>,
    acq: seq<Sent>,             // the acquire queue
    proc: Processor,
    logQ: seq<Sensor>,
    telQ: seq<Sensor>,
    logger: LogDaemon,
    files: Files,
    ing: Ingest,
    reg: Registry,
    dog: Watchdog,
    // History: what happened so far. No step looks at it.
    sent: seq<Sent>,            // accepted by the acquire queue
    jobs: seq<Job>,             // taken from it and stamped
    logSent: seq<Sensor>,       // accepted by the log queue
    logged: seq<Row>,           // written to files
    telSent: seq<Sensor>,       // accepted by the telemetry queue
    stored: seq<Sensor>,        // stored in the registry
    lost: bool,                 // some send failed
    lastPass: Option<Timespec>, // the sample of the last watchdog pass
    touched: set<nat>)          // slots stored to since that pass

  ghost predicate Init(s: State) {
    && ValidZone(s.zone)
    && s.conns == map[] && s.acq == [] && s.proc == Idle && s.logQ == [] && s.telQ == []
    && s.logger == Logging && s.files == map[]
    && s.ing == Check && s.reg.count == 0 && s.reg.mult == 1 && |s.reg.cells| == ALLOCATION && s.dog == Sleeping
    && s.sent == [] && s.jobs == [] && s.logSent == [] && s.logged == [] && s.telSent == [] && s.stored == []
    && !s.lost && s.lastPass == None && s.touched == {}
  }

  datatype Action =
    | Tick(to: Timespec)
    | Connect(c: nat)
    | Arrive(c: nat, data: seq<byte>)
    | Forward(c: nat, ok: bool)
    | Take
    | Stamp(wall: Timespec)
    | OfferLog(ok: bool)
    | OfferTelemetry(ok: bool)
    | TakeLog
    | WriteLog(opening: Opening, writes: seq<SendEvent>)
    | GrowthCheck(garbage: seq<Sensor>, ok: bool)
    | ReceiveFrame
    | StoreFrame
    | SampleClock
    | Judge

  // A failed send may have any cause; a successful one needs room.
  ghost predicate Enabled(s: State, a: Action) {
    match a
    case Tick(to) => Nanos(s.now) <= Nanos(to)
    case Connect(c) => c !in s.conns
    case Arrive(c, _) => c in s.conns
    case Forward(c, ok) =>
      c in s.conns && s.conns[c].offered < |Frames(s.conns[c].received)| && (ok ==> |s.acq| < QUEUE_LIMIT)
    case Take => s.proc.Idle? && s.acq != []
    case Stamp(_) => s.proc.Holding?
    case OfferLog(ok) => s.proc.ToLog? && (ok ==> |s.logQ| < QUEUE_LIMIT)
    case OfferTelemetry(ok) => s.proc.ToTelemetry? && (ok ==> |s.telQ| < QUEUE_LIMIT)
    case TakeLog => s.logger.Logging? && s.logQ != []
    case WriteLog(_, _) => s.logger.Writing?
    case GrowthCheck(garbage, _) =>
      s.ing.Check? && (NeedsGrowth(s.reg) ==> |garbage| == ALLOCATION * (NextMult(s.reg.mult) - s.reg.mult))
    case ReceiveFrame => s.ing.Await? && s.telQ != []
    case StoreFrame => s.ing.Hold?
    case SampleClock => s.dog.Sleeping? && !s.ing.Stopped?
    case Judge => s.dog.Sampled? && !s.ing.Stopped?
  }

  // generateFrame, then the first test of forwardFrame.
  function MadeBy(job: Job): Option<Sensor> {
    match Decode(job.source.pkt)
    case None => None
    case Some(m) => Some(FrameOf(m, job.wall, job.mono))
  }

  // The logger's turn for the frame in its hand.
  function TurnFor(s: State, opening: Opening, writes: seq<SendEvent>): Turn
    requires s.logger.Writing?
  {
    Turn(s.logger.frame, opening, s.zone(s.logger.frame.timestamp), writes)
  }

  function Dispatch(made: Option<Sensor>): Processor {
    if made.None? then Idle else if made.value.kind == Data then ToLog(made.value) else ToTelemetry(made.value)
  }

  function Apply(s: State, a: Action): State
    requires Enabled(s, a)
  {
    match a
    case Tick(to) => s.(now := to)
    case Connect(c) => s.(conns := s.conns[c := Conn([], 0)])
    case Arrive(c, data) => s.(conns := s.conns[c := s.conns[c].(received := s.conns[c].received + data)])
    case Forward(c, ok) =>
      var conn := s.conns[c];
      var x := Sent(c, Frames(conn.received)[conn.offered]);
      var s' := s.(conns := s.conns[c := conn.(offered := conn.offered + 1)]);
      if ok then s'.(acq := s.acq + [x], sent := s.sent + [x]) else s'.(lost := true)
    case Take => s.(acq := s.acq[1..], proc := Holding(s.acq[0]))
    case Stamp(wall) =>
      var job := Job(s.proc.source, wall, s.now);
      s.(jobs := s.jobs + [job], proc := Dispatch(MadeBy(job)))
    case OfferLog(ok) =>
      var f := s.proc.frame;
      if ok then s.(logQ := s.logQ + [f], logSent := s.logSent + [f], proc := ToTelemetry(f))
      else s.(proc := Idle, lost := true)
    case OfferTelemetry(ok) =>
      var f := s.proc.frame;
      if ok then s.(telQ := s.telQ + [f], telSent := s.telSent + [f], proc := Idle)
      else s.(proc := Idle, lost := true)
    case TakeLog => s.(logQ := s.logQ[1..], logger := Writing(s.logQ[0]))
    case WriteLog(opening, writes) =>
      var turn := TurnFor(s, opening, writes);
      var s' := s.(files := AfterTurn(s.files, turn));
      if Succeeds(s.files, turn) then s'.(logged := s.logged + [RowOf(turn)], logger := Logging)
      else s'.(logger := LogStopped(turn))
    case GrowthCheck(garbage, ok) =>
      if NeedsGrowth(s.reg) && !ok then s.(ing := Stopped(NoMemory))
      else s.(reg := Grow(s.reg, garbage), ing := Await)
    case ReceiveFrame => s.(telQ := s.telQ[1..], ing := Hold(s.telQ[0]))
    case StoreFrame =>
      var f := s.ing.frame;
      (match Store(s.reg, f)
       case Kept(r) =>
         s.(reg := r, ing := Check, stored := s.stored + [f], touched := s.touched + {Find(Live(s.reg), KeyOf(f))})
       case LimitExceeded => s.(ing := Stopped(LimitReached(f)))
       case Overrun => s.(ing := Stopped(WrotePastEnd(f))))
    case SampleClock => s.(dog := Sampled(s.now))
    case Judge =>
      s.(reg := Watched(s.reg, s.dog.at), dog := Sleeping, lastPass := Some(s.dog.at), touched := {})
  }

  ghost predicate Step(s: State, s': State) {
    exists a :: Enabled(s, a) && s' == Apply(s, a)
  }

  ghost predicate StepAt(run: seq<State>, i: nat)
    requires i + 1 < |run|
  {
    Step(run[i], run[i + 1])
  }

  ghost predicate IsRun(run: seq<State>) {
    run != [] && Init(run[0]) && forall i :: 0 <= i < |run| - 1 ==> StepAt(run, i)
  }

  // The action that led to a state.
  lemma ActionAt(run: seq<State>, n: nat) returns (a: Action)
    requires IsRun(run) && 0 < n < |run|
    ensures Enabled(run[n - 1], a) && run[n] == Apply(run[n - 1], a)
  {
    assert StepAt(run, n - 1);
    a :| Enabled(run[n - 1], a) && run[n] == Apply(run[n - 1], a);
  }

  // ---- views of the history ----

  function Add<T>(s: seq<T>, more: Option<T>): seq<T> {
    if more.Some? then s + [more.value] else s
  }

  function Sources(jobs: seq<Job>): seq<Sent> {
    if jobs == [] then [] else Sources(jobs[..|jobs| - 1]) + [jobs[|jobs| - 1].source]
  }

  // The frames of the decodable packets, in the order they were stamped.
  function Made(jobs: seq<Job>): seq<Sensor> {
    if jobs == [] then [] else Add(Made(jobs[..|jobs| - 1]), MadeBy(jobs[|jobs| - 1]))
  }

  function FramesLogged(rows: seq<Row>): seq<Sensor> {
    if rows == [] then [] else FramesLogged(rows[..|rows| - 1]) + [rows[|rows| - 1].frame]
  }

  function PacketsFrom(c: nat, sent: seq<Sent>): seq<PacketBytes> {
    if sent == [] then []
    else
      var before, last := PacketsFrom(c, sent[..|sent| - 1]), sent[|sent| - 1];
      if last.conn == c then before + [last.pkt] else before
  }

  function IsData(): Sensor -> bool {
    (f: Sensor) => f.kind == Data
  }

  function DataOnly(fs: seq<Sensor>): seq<Sensor> {
    Filter(IsData(), fs)
  }

  // What the processor and the ingest loop have in hand.
  function HeldSource(p: Processor): Option<Sent> {
    if p.Holding? then Some(p.source) else None
  }

  function PendingLog(p: Processor): Option<Sensor> {
    if p.ToLog? then Some(p.frame) else None
  }

  function JustLogged(p: Processor): Option<Sensor> {
    if p.ToTelemetry? && p.frame.kind == Data then Some(p.frame) else None
  }

  function PendingTelemetry(p: Processor): Option<Sensor> {
    if p.ToLog? || p.ToTelemetry? then Some(p.frame) else None
  }

  // The frame the logger is writing, or could not write.
  function LogInHand(l: LogDaemon): Option<Sensor> {
    match l
    case Logging => None
    case Writing(frame) => Some(frame)
    case LogStopped(turn) => Some(turn.frame)
  }

  function InHand(i: Ingest): Option<Sensor> {
    if i.Hold? then Some(i.frame)
    else if i.Stopped? && !i.reason.NoMemory? then Some(i.reason.frame)
    else None
  }

  // ---- the invariant ----

  ghost predicate AcquireConserved(s: State) {
    |s.acq| <= QUEUE_LIMIT && s.sent == Add(Sources(s.jobs), HeldSource(s.proc)) + s.acq
  }

  ghost predicate LogConserved(s: State) {
    |s.logQ| <= QUEUE_LIMIT && s.logSent == Add(FramesLogged(s.logged), LogInHand(s.logger)) + s.logQ
  }

  // The row's time is the local-time text of its frame's timestamp.
  ghost predicate Timed(zone: Zone, row: Row) {
    zone(row.frame.timestamp) == Some(row.stamp)
  }

  // The files are those of the rows written, and of the failed attempt after them.
  ghost predicate FilesOk(s: State) {
    && ValidZone(s.zone) && (forall i :: 0 <= i < |s.logged| ==> Timed(s.zone, s.logged[i]))
    && match s.logger
       case LogStopped(turn) =>
         s.files == AfterTurn(FilesAfter(s.logged), turn) && !Succeeds(FilesAfter(s.logged), turn)
       case _ => s.files == FilesAfter(s.logged)
  }

  ghost predicate TelemetryConserved(s: State) {
    |s.telQ| <= QUEUE_LIMIT && s.telSent == Add(s.stored, InHand(s.ing)) + s.telQ
  }

  ghost predicate Conserved(s: State) {
    AcquireConserved(s) && LogConserved(s) && TelemetryConserved(s)
  }

  // What the two outgoing queues accepted (`tel`, `log`), against the frames made so far; `dataMade`
  // and `dataTel` are the data frames of `made` and `tel`.
  ghost predicate FlowsFrom(
    made: seq<Sensor>, dataMade: seq<Sensor>, p: Processor, tel: seq<Sensor>, dataTel: seq<Sensor>, log: seq<Sensor>,
    lost: bool)
  {
    && (p.ToLog? ==> p.frame.kind == Data)
    && Subseq(Add(tel, PendingTelemetry(p)), made)
    && Subseq(Add(log, PendingLog(p)), dataMade)
    && Subseq(Add(dataTel, JustLogged(p)), log)
    && (!lost ==> Add(tel, PendingTelemetry(p)) == made)
    && (!lost ==> Add(log, PendingLog(p)) == dataMade)
  }

  ghost predicate Flows(s: State) {
    FlowsFrom(Made(s.jobs), DataOnly(Made(s.jobs)), s.proc, s.telSent, DataOnly(s.telSent), s.logSent, s.lost)
  }

  ghost predicate TimeOrdered(fs: seq<Sensor>) {
    forall i, j :: 0 <= i < j < |fs| ==> Nanos(fs[i].lastSeen) <= Nanos(fs[j].lastSeen)
  }

  ghost predicate NotAfter(fs: seq<Sensor>, t: Timespec) {
    forall i :: 0 <= i < |fs| ==> Nanos(fs[i].lastSeen) <= Nanos(t)
  }

  ghost predicate AllNamed(fs: seq<Sensor>) {
    forall i :: 0 <= i < |fs| ==> Named(fs[i])
  }

  ghost predicate StampedBy(made: seq<Sensor>, now: Timespec) {
    TimeOrdered(made) && NotAfter(made, now) && AllNamed(made)
  }

  ghost predicate Stamped(s: State) {
    StampedBy(Made(s.jobs), s.now)
  }

  ghost predicate ConnFits(c: nat, conn: Conn, sent: seq<Sent>, lost: bool) {
    && conn.offered <= |Frames(conn.received)|
    && Subseq(PacketsFrom(c, sent), Frames(conn.received)[..conn.offered])
    && (!lost ==> PacketsFrom(c, sent) == Frames(conn.received)[..conn.offered])
  }

  ghost predicate Sourced(s: State) {
    && (forall i :: 0 <= i < |s.sent| ==> s.sent[i].conn in s.conns)
    && (forall c :: c in s.conns ==> ConnFits(c, s.conns[c], s.sent, s.lost))
  }

  ghost predicate RegistryOk(s: State) {
    && WellSized(s.reg) && Represents(s.reg, s.stored)
    && (s.ing.Await? || s.ing.Hold? ==> !NeedsGrowth(s.reg))
    && (s.ing.Stopped? ==> !s.ing.reason.WrotePastEnd?)
    && (s.ing.Stopped? && s.ing.reason.NoMemory? ==> NeedsGrowth(s.reg))
    && (s.ing.Stopped? && s.ing.reason.LimitReached? ==>
          |Keys(s.stored)| == SENSORS_LIMIT_MAX && KeyOf(s.ing.reason.frame) !in Keys(s.stored))
  }

  // A slot is offline exactly when the last pass found it inactive and nothing was stored to it since.
  ghost predicate JudgedRight(s: State, i: nat)
    requires i < |s.reg.cells|
  {
    s.reg.cells[i].state ==
    if s.lastPass.Some? && i !in s.touched && Inactive(s.reg.cells[i], s.lastPass.value) then Offline else Online
  }

  ghost predicate WatchdogOk(s: State) {
    && (s.dog.Sampled? ==> Nanos(s.dog.at) <= Nanos(s.now))
    && (s.lastPass.Some? ==> Nanos(s.lastPass.value) <= Nanos(s.now))
    && (s.dog.Sampled? && s.lastPass.Some? ==> Nanos(s.lastPass.value) <= Nanos(s.dog.at))
    && s.reg.count <= |s.reg.cells|
    && (forall i :: 0 <= i < s.reg.count ==> JudgedRight(s, i))
  }

  ghost predicate Inv(s: State) {
    Conserved(s) && FilesOk(s) && Flows(s) && Stamped(s) && Sourced(s) && RegistryOk(s) && WatchdogOk(s)
  }
}
