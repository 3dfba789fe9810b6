/** processing_d's forwarding, as the daemon does it on its two queues. */
module Processing {
  import opened Bytes
  import opened Sense
  import opened Gateway

  // One non-blocking send: it needs room, and may fail for other reasons.
  predicate Sends(queue: seq<Sensor>, fault: bool) {
    |queue| < QUEUE_LIMIT && !fault
  }

  class Forwarder {
    var logQueue: seq<Sensor>
    var telemetryQueue: seq<Sensor>

    constructor ()
      ensures logQueue == [] && telemetryQueue == []
    {
      logQueue, telemetryQueue := [], [];
    }

    method SendLog(frame: Sensor, fault: bool) returns (ok: bool)
      modifies this`logQueue
      ensures ok == Sends(old(logQueue), fault)
      ensures logQueue == if ok then old(logQueue) + [frame] else old(logQueue)
    {
      ok := |logQueue| < QUEUE_LIMIT && !fault;
      if ok {
        logQueue := logQueue + [frame];
      }
    }

    method SendTelemetry(frame: Sensor, fault: bool) returns (ok: bool)
      modifies this`telemetryQueue
      ensures ok == Sends(old(telemetryQueue), fault)
      ensures telemetryQueue == if ok then old(telemetryQueue) + [frame] else old(telemetryQueue)
    {
      ok := |telemetryQueue| < QUEUE_LIMIT && !fault;
      if ok {
        telemetryQueue := telemetryQueue + [frame];
      }
    }

    /** forwardFrame: a data frame that the log queue refuses is not offered to telemetry. */
    method ForwardFrame(frame: Sensor, logFault: bool, telemetryFault: bool) returns (ok: bool)
      modifies this
      ensures var logs := frame.kind == Data && Sends(old(logQueue), logFault);
              var reaches := frame.kind == Data ==> logs;
              && ok == (reaches && Sends(old(telemetryQueue), telemetryFault))
              && logQueue == (if logs then old(logQueue) + [frame] else old(logQueue))
              && telemetryQueue == (if ok then old(telemetryQueue) + [frame] else old(telemetryQueue))
    {
      if frame.kind == Data {
        var sent := SendLog(frame, logFault);
        if !sent {
          return false;
        }
      }
      ok := SendTelemetry(frame, telemetryFault);
    }
  }

  /** In the transition system the same call is one or two steps. When no other thread moves in
      between, they can end with the queues exactly as `ForwardFrame` leaves them. */
  lemma ForwardInSteps(s: State, frame: Sensor, logFault: bool, telemetryFault: bool) returns (t: State)
    requires s.proc == Dispatch(Some(frame))
    ensures var logs := frame.kind == Data && Sends(s.logQ, logFault);
            var reaches := frame.kind == Data ==> logs;
            && t.proc == Idle
            && t.logQ == (if logs then s.logQ + [frame] else s.logQ)
            && t.telQ == (if reaches && Sends(s.telQ, telemetryFault) then s.telQ + [frame] else s.telQ)
            && (t.lost <==> s.lost || !reaches || !Sends(s.telQ, telemetryFault))
    ensures Step(s, t) || exists m :: Step(s, m) && Step(m, t)
  {
    if frame.kind == Data {
      var first := OfferLog(Sends(s.logQ, logFault));
      assert Enabled(s, first);
      var m := Apply(s, first);
      assert Step(s, m);
      if m.proc.Idle? {
        t := m;
      } else {
        t := TelemetryInStep(m, frame, telemetryFault);
      }
    } else {
      t := TelemetryInStep(s, frame, telemetryFault);
    }
  }

  lemma TelemetryInStep(s: State, frame: Sensor, fault: bool) returns (t: State)
    requires s.proc == ToTelemetry(frame)
    ensures Step(s, t) && t.proc == Idle && t.logQ == s.logQ
    ensures t.telQ == if Sends(s.telQ, fault) then s.telQ + [frame] else s.telQ
    ensures t.lost <==> s.lost || !Sends(s.telQ, fault)
  {
    var a := OfferTelemetry(Sends(s.telQ, fault));
    assert Enabled(s, a);
    t := Apply(s, a);
  }

  // What became of a frame since it was dispatched in `s`, once the processor is idle in `t`.
  ghost predicate Forwarded(s: State, t: State, frame: Sensor) {
    && (t.logSent == s.logSent || (frame.kind == Data && t.logSent == s.logSent + [frame]))
    && (t.telSent == s.telSent || t.telSent == s.telSent + [frame])
    && (frame.kind == Data && t.telSent != s.telSent ==> t.logSent == s.logSent + [frame])
    && (!t.lost ==> t.telSent == s.telSent + [frame] && (frame.kind == Data ==> t.logSent == s.logSent + [frame]))
  }

  ghost predicate Forwarding(s: State, t: State, frame: Sensor) {
    match t.proc
    case Idle => Forwarded(s, t, frame)
    case Holding(_) => false
    case ToLog(f) => f == frame && frame.kind == Data && t.logSent == s.logSent && t.telSent == s.telSent
    case ToTelemetry(f) =>
      && f == frame && t.telSent == s.telSent
      && t.logSent == (if frame.kind == Data then s.logSent + [frame] else s.logSent)
  }

  lemma ForwardingStep(s: State, t: State, frame: Sensor, a: Action)
    requires Forwarding(s, t, frame) && !t.proc.Idle? && Enabled(t, a)
    ensures Forwarding(s, Apply(t, a), frame)
  {
  }

  lemma ForwardingNext(s: State, run: seq<State>, n: nat, frame: Sensor)
    requires IsRun(run) && 0 < n < |run| && Forwarding(s, run[n - 1], frame) && !run[n - 1].proc.Idle?
    ensures Forwarding(s, run[n], frame)
  {
    var a := ActionAt(run, n);
    ForwardingStep(s, run[n - 1], frame, a);
  }

  // The processor is not idle from the state `m` up to, but not in, the state `n`.
  ghost predicate Busy(run: seq<State>, m: nat, n: nat)
    requires n <= |run|
  {
    forall i :: m <= i < n ==> !run[i].proc.Idle?
  }

  lemma ForwardingStart(s: State, frame: Sensor)
    requires s.proc == Dispatch(Some(frame))
    ensures Forwarding(s, s, frame)
  {
  }

  lemma BusyBefore(run: seq<State>, m: nat, n: nat)
    requires m <= n < |run| && Busy(run, m, n + 1)
    ensures Busy(run, m, n) && !run[n].proc.Idle?
  {
  }

  /** The interleaved form: from the state in which a frame is dispatched to the first one in which the
      processor is idle again, with any steps of any other thread in between, the log queue accepts at
      most that frame and only if it is data, the telemetry queue at most that frame, and data only
      after the log queue did; with no failed send each accepts all it should. */
  lemma {:induction false} ForwardInterleaved(run: seq<State>, m: nat, n: nat, frame: Sensor)
    requires IsRun(run) && m <= n < |run| && run[m].proc == Dispatch(Some(frame)) && Busy(run, m, n)
    ensures Forwarding(run[m], run[n], frame)
    decreases n - m
  {
    if m == n {
      ForwardingStart(run[m], frame);
    } else {
      BusyBefore(run, m, n - 1);
      ForwardInterleaved(run, m, n - 1, frame);
      ForwardingNext(run[m], run, n, frame);
    }
  }
}
