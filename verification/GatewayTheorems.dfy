/** What holds in every state of every run of the gateway, and between any two of them. */
module GatewayTheorems {
  import opened Bytes
  import opened Sense
  import opened Seqs
  import opened Packet
  import opened Acquirer
  import opened Registry
  import opened Readers
  import opened LogFile
  import opened Gateway
  import opened GatewayInvariant

  // ---- queues ----

  lemma {:induction false} DataOnlyIsData(fs: seq<Sensor>, i: nat)
    requires i < |DataOnly(fs)|
    ensures DataOnly(fs)[i].kind == Data
  {
    var n := |fs| - 1;
    if i < |DataOnly(fs[..n])| {
      DataOnlyIsData(fs[..n], i);
    } else {
      assert IsData()(fs[n]);
    }
  }

  lemma Accepted(s: State)
    requires Flows(s)
    ensures Subseq(s.telSent, Made(s.jobs)) && Subseq(s.logSent, DataOnly(Made(s.jobs)))
    ensures Subseq(DataOnly(s.telSent), s.logSent)
  {
    if s.proc.ToLog? || s.proc.ToTelemetry? {
      SubseqLess(s.telSent, s.proc.frame, Made(s.jobs));
    }
    if s.proc.ToLog? {
      SubseqLess(s.logSent, s.proc.frame, DataOnly(Made(s.jobs)));
    }
    if JustLogged(s.proc).Some? {
      SubseqLess(DataOnly(s.telSent), s.proc.frame, s.logSent);
    }
  }

  /** Whatever is dropped: the data frames the telemetry queue accepted are a subsequence of those
      the log queue accepted, which are data frames only; each queue holds at most ten; and what a
      queue accepted is what was consumed from it followed by what it holds. */
  lemma LogBeforeTelemetry(run: seq<State>, n: nat)
    requires IsRun(run) && n < |run|
    ensures var s := run[n];
            && Subseq(DataOnly(s.telSent), s.logSent)
            && (forall i :: 0 <= i < |s.logSent| ==> s.logSent[i].kind == Data)
            && |s.acq| <= 10 && |s.logQ| <= 10 && |s.telQ| <= 10
            && s.sent == Add(Sources(s.jobs), HeldSource(s.proc)) + s.acq
            && s.logSent == Add(FramesLogged(s.logged), LogInHand(s.logger)) + s.logQ
            && s.telSent == Add(s.stored, InHand(s.ing)) + s.telQ
  {
    RunInv(run, n);
    var s := run[n];
    Accepted(s);
    forall i | 0 <= i < |s.logSent|
      ensures s.logSent[i].kind == Data
    {
      var j := SubseqMember(s.logSent, DataOnly(Made(s.jobs)), i);
      DataOnlyIsData(Made(s.jobs), j);
    }
  }

  // ---- time ----

  lemma SubseqStamped(a: seq<Sensor>, b: seq<Sensor>, now: Timespec)
    requires Subseq(a, b) && StampedBy(b, now)
    ensures StampedBy(a, now)
  {
    forall i | 0 <= i < |a|
      ensures Nanos(a[i].lastSeen) <= Nanos(now) && Named(a[i])
    {
      var j := SubseqMember(a, b, i);
    }
    forall i, j | 0 <= i < j < |a|
      ensures Nanos(a[i].lastSeen) <= Nanos(a[j].lastSeen)
    {
      var k, l := SubseqPair(a, b, i, j);
    }
  }

  // No stamp in the registry is later than one still on its way there.
  ghost predicate RegistryBehind(s: State) {
    forall i, j :: 0 <= i < s.reg.count && i < |s.reg.cells| && |s.stored| <= j < |s.telSent| ==>
                     Nanos(s.reg.cells[i].lastSeen) <= Nanos(s.telSent[j].lastSeen)
  }

  lemma SlotSource(r: Registry, fs: seq<Sensor>, i: nat) returns (m: nat)
    requires Represents(r, fs) && i < r.count
    ensures m < |fs| && KeyOf(r.cells[i]) == KeyOf(fs[m])
    ensures r.cells[i].lastSeen == fs[m].lastSeen && r.cells[i].name == fs[m].name
  {
    var k := Keys(fs)[i];
    assert SlotFits(r.cells[i], k, fs);
    DataImpliesKey(fs, k);
    m :| 0 <= m < |fs| && fs[m] == Latest(fs, k).value;
  }

  lemma BehindAt(s: State, i: nat)
    requires Represents(s.reg, s.stored) && i < s.reg.count && s.stored <= s.telSent && StampedBy(s.telSent, s.now)
    ensures Nanos(s.reg.cells[i].lastSeen) <= Nanos(s.now)
    ensures forall j :: |s.stored| <= j < |s.telSent| ==> Nanos(s.reg.cells[i].lastSeen) <= Nanos(s.telSent[j].lastSeen)
  {
    var m := SlotSource(s.reg, s.stored, i);
    assert s.telSent[m] == s.stored[m];
  }

  lemma TimeOrderInv(s: State)
    requires Inv(s)
    ensures StampedBy(s.telSent, s.now) && s.stored <= s.telSent && RegistryBehind(s)
    ensures forall i :: 0 <= i < s.reg.count ==> Nanos(s.reg.cells[i].lastSeen) <= Nanos(s.now)
  {
    Accepted(s);
    SubseqStamped(s.telSent, Made(s.jobs), s.now);
    forall i | 0 <= i < s.reg.count
      ensures Nanos(s.reg.cells[i].lastSeen) <= Nanos(s.now)
      ensures forall j :: |s.stored| <= j < |s.telSent| ==>
                Nanos(s.reg.cells[i].lastSeen) <= Nanos(s.telSent[j].lastSeen)
    {
      BehindAt(s, i);
    }
  }

  /** Last-seen stamps are in order along the telemetry queue, never ahead of the clock, and never
      behind one already in the registry. */
  lemma TimeOrder(run: seq<State>, n: nat)
    requires IsRun(run) && n < |run|
    ensures TimeOrdered(run[n].telSent) && NotAfter(run[n].telSent, run[n].now) && RegistryBehind(run[n])
    ensures forall i :: 0 <= i < run[n].reg.count && i < |run[n].reg.cells| ==>
              Nanos(run[n].reg.cells[i].lastSeen) <= Nanos(run[n].now)
  {
    RunInv(run, n);
    TimeOrderInv(run[n]);
  }

  // ---- the registry ----

  /** The array is an ordered map from keys to what their frames said, in order of first arrival;
      the frames are those that left the telemetry queue, in order. */
  lemma RegistryRefinement(run: seq<State>, n: nat)
    requires IsRun(run) && n < |run|
    ensures Represents(run[n].reg, run[n].stored) && Distinct(Keys(run[n].stored))
    ensures run[n].stored <= run[n].telSent
    ensures forall i :: 0 <= i < run[n].reg.count ==> Named(run[n].reg.cells[i])
  {
    RunInv(run, n);
    KeysDistinct(run[n].stored);
    LiveNamed(run[n]);
  }

  lemma LiveNamed(s: State)
    requires Inv(s)
    ensures s.stored <= s.telSent
    ensures forall i :: 0 <= i < s.reg.count ==> Named(s.reg.cells[i])
  {
    TimeOrderInv(s);
    forall i | 0 <= i < s.reg.count
      ensures Named(s.reg.cells[i])
    {
      var m := SlotSource(s.reg, s.stored, i);
      assert s.telSent[m] == s.stored[m];
    }
  }

  /** Though the growth check and the write are separate critical sections, no write goes past the
      allocation; and the daemon stops on a full registry exactly when the frames it received bear
      more than 128 different keys. */
  lemma CapacityAcrossSections(run: seq<State>, n: nat)
    requires IsRun(run) && n < |run|
    ensures var r := run[n].reg; r.mult in {1, 2, 4, 8} && r.count <= |r.cells| == 16 * r.mult
    ensures !(run[n].ing.Stopped? && run[n].ing.reason.WrotePastEnd?)
    ensures run[n].ing.Stopped? && run[n].ing.reason.NoMemory? ==> run[n].reg.count == |run[n].reg.cells| < 128
    ensures !run[n].ing.Hold? ==>
              (run[n].ing.Stopped? && run[n].ing.reason.LimitReached? <==>
               |Keys(Add(run[n].stored, InHand(run[n].ing)))| > 128)
  {
    RunInv(run, n);
    if !run[n].ing.Hold? {
      LimitExact(run[n]);
    }
  }

  lemma LimitExact(s: State)
    requires RegistryOk(s) && !s.ing.Hold?
    ensures s.ing.Stopped? && s.ing.reason.LimitReached? <==> |Keys(Add(s.stored, InHand(s.ing)))| > SENSORS_LIMIT_MAX
  {
    if InHand(s.ing).Some? {
      KeysSnoc(s.stored, InHand(s.ing).value);
    }
  }

  /** Growth leaves every cell where it was. */
  lemma GrowthPreserves(s: State, garbage: seq<Sensor>, ok: bool)
    requires Inv(s) && Enabled(s, GrowthCheck(garbage, ok))
    ensures s.reg.cells <= Apply(s, GrowthCheck(garbage, ok)).reg.cells
    ensures Apply(s, GrowthCheck(garbage, ok)).reg.count == s.reg.count
  {
    GrowRefines(s.reg, s.stored, garbage);
  }

  lemma ShowsQuiet(s: State, s': State, i: nat, before: Sensor)
    requires CellShows(s.reg, s.stored, i, before) && RegistryKept(s, s') && s.reg.count <= |s.reg.cells|
    ensures CellShows(s'.reg, s'.stored, i, before)
  {
    assert s'.reg.cells[i] == s.reg.cells[i];
  }

  lemma ShowsJudge(s: State, i: nat, before: Sensor)
    requires RegistryOk(s) && Enabled(s, Judge) && CellShows(s.reg, s.stored, i, before)
    ensures CellShows(Apply(s, Judge).reg, s.stored, i, before)
  {
    WatchRefines(s.reg, s.stored, s.dog.at);
  }

  lemma ShowsStep(s: State, a: Action, i: nat, before: Sensor)
    requires RegistryOk(s) && Enabled(s, a) && CellShows(s.reg, s.stored, i, before)
    ensures CellShows(Apply(s, a).reg, Apply(s, a).stored, i, before)
  {
    if a.Judge? {
      ShowsJudge(s, i, before);
    } else if a.StoreFrame? {
      StoreApplied(s);
      if Store(s.reg, s.ing.frame).Kept? {
        StoreShows(s.reg, s.stored, s.ing.frame, i, before);
      } else {
        ShowsQuiet(s, Apply(s, a), i, before);
      }
    } else {
      RegistryKeptSteps(s, a);
      ShowsQuiet(s, Apply(s, a), i, before);
    }
  }

  lemma ShowsNext(run: seq<State>, n: nat, i: nat, before: Sensor)
    requires IsRun(run) && 0 < n < |run| && CellShows(run[n - 1].reg, run[n - 1].stored, i, before)
    ensures CellShows(run[n].reg, run[n].stored, i, before)
  {
    RunRegistryOk(run, n - 1);
    var a := ActionAt(run, n);
    ShowsStep(run[n - 1], a, i, before);
  }

  /** Whatever happens between two states of a run, a cell that was allocated and not in use in the
      first shows, in the second, its key's latest data, and what the allocator left there exactly
      as long as no data frame for the key was stored: heartbeats, growth and the watchdog never
      change that. */
  lemma {:induction false} CellHistory(run: seq<State>, m: nat, n: nat, i: nat)
    requires IsRun(run) && m <= n < |run| && run[m].reg.count <= i < |run[m].reg.cells|
    ensures CellShows(run[n].reg, run[n].stored, i, run[m].reg.cells[i])
    decreases n - m
  {
    if m < n {
      CellHistory(run, m, n - 1, i);
      ShowsNext(run, n, i, run[m].reg.cells[i]);
    }
  }

  lemma NewSlotFits(s: State, a: Action, i: nat)
    requires RegistryOk(s) && Enabled(s, a) && s.reg.count <= i < Apply(s, a).reg.count
    ensures i < |s.reg.cells|
  {
    if a.StoreFrame? {
      StoreRefines(s.reg, s.stored, s.ing.frame);
    }
  }

  lemma NewSlotNext(run: seq<State>, n: nat, i: nat)
    requires IsRun(run) && n + 1 < |run| && run[n].reg.count <= i < run[n + 1].reg.count
    ensures i < |run[n].reg.cells|
  {
    RunInv(run, n);
    var a := ActionAt(run, n + 1);
    NewSlotFits(run[n], a, i);
  }

  lemma {:induction false} SlotBirth(run: seq<State>, n: nat, i: nat) returns (m: nat)
    requires IsRun(run) && n < |run| && i < run[n].reg.count
    ensures m <= n && run[m].reg.count <= i < |run[m].reg.cells|
  {
    if i < run[n - 1].reg.count {
      m := SlotBirth(run, n - 1, i);
    } else {
      m := n - 1;
      NewSlotNext(run, m, i);
    }
  }

  /** Every slot has such a past: there was a state in which its cell was allocated and not in use.
      What the slot shows of data and timestamp is therefore the latest data frame's, if there is
      one, and otherwise that state's uninitialised memory. */
  lemma SlotShows(run: seq<State>, n: nat, i: nat) returns (m: nat)
    requires IsRun(run) && n < |run| && i < run[n].reg.count
    ensures m <= n && run[m].reg.count <= i < |run[m].reg.cells|
    ensures CellShows(run[n].reg, run[n].stored, i, run[m].reg.cells[i])
  {
    m := SlotBirth(run, n, i);
    CellHistory(run, m, n, i);
  }

  // ---- the watchdog ----

  /** An offline slot has been silent for at least 30 s by the monotonic clock now, although the
      pass that judged it used an older sample. Between passes a slot is online exactly when it was
      stored to since, or the last pass found it silent for less than 30 s, or there was no pass. */
  lemma WatchdogSound(run: seq<State>, n: nat, i: nat)
    requires IsRun(run) && n < |run| && i < run[n].reg.count
    ensures i < |run[n].reg.cells|
    ensures run[n].reg.cells[i].state == Offline ==>
              Nanos(run[n].now) - Nanos(run[n].reg.cells[i].lastSeen) >= 30_000_000_000
    ensures run[n].reg.cells[i].state == Online <==>
            run[n].lastPass.None? || i in run[n].touched ||
            Nanos(run[n].lastPass.value) - Nanos(run[n].reg.cells[i].lastSeen) < 30_000_000_000
    ensures run[n].reg.cells[i].state != FrameDefault
  {
    RunInv(run, n);
    assert JudgedRight(run[n], i);
  }

  // ---- when the clocks were read ----

  /** The monotonic stamp of a frame is the clock of the state in which the processor, holding that very
      packet, made it. */
  lemma {:induction false} JobStamped(run: seq<State>, n: nat, q: nat) returns (m: nat)
    requires IsRun(run) && n < |run| && q < |run[n].jobs|
    ensures m < n && run[m].now == run[n].jobs[q].mono && run[m].proc == Holding(run[n].jobs[q].source)
    ensures |run[m].jobs| == q
  {
    JobsNext(run, n);
    if q < |run[n - 1].jobs| {
      m := JobStamped(run, n - 1, q);
    } else {
      m := n - 1;
    }
  }

  ghost predicate JobsStep(s: State, s': State) {
    s'.jobs == s.jobs ||
    (s.proc.Holding? && |s'.jobs| == |s.jobs| + 1 && s'.jobs[..|s.jobs|] == s.jobs &&
     s'.jobs[|s.jobs|].source == s.proc.source && s'.jobs[|s.jobs|].mono == s.now)
  }

  lemma JobsKept(s: State, a: Action)
    requires Enabled(s, a)
    ensures JobsStep(s, Apply(s, a))
  {
  }

  lemma JobsNext(run: seq<State>, n: nat)
    requires IsRun(run) && 0 < n < |run|
    ensures JobsStep(run[n - 1], run[n])
  {
    var a := ActionAt(run, n);
    JobsKept(run[n - 1], a);
  }

  ghost predicate DogStep(s: State, s': State) {
    || (s'.dog == s.dog && s'.lastPass == s.lastPass)
    || (s.dog == Sleeping && s'.dog == Sampled(s.now) && s'.lastPass == s.lastPass)
    || (s.dog.Sampled? && s'.dog == Sleeping && s'.lastPass == Some(s.dog.at))
  }

  /** What the watchdog judges by is the clock of an earlier state, the one in which it woke up. */
  lemma {:induction false} SampleTaken(run: seq<State>, n: nat) returns (m: nat)
    requires IsRun(run) && n < |run| && run[n].dog.Sampled?
    ensures m < n && run[m].dog == Sleeping && run[m].now == run[n].dog.at
    ensures forall i :: m < i <= n ==> run[i].dog == run[n].dog
  {
    DogNext(run, n);
    if run[n - 1].dog == run[n].dog {
      m := SampleTaken(run, n - 1);
    } else {
      m := n - 1;
    }
  }

  lemma DogKept(s: State, a: Action)
    requires Enabled(s, a)
    ensures DogStep(s, Apply(s, a))
  {
  }

  lemma DogNext(run: seq<State>, n: nat)
    requires IsRun(run) && 0 < n < |run|
    ensures DogStep(run[n - 1], run[n])
  {
    var a := ActionAt(run, n);
    DogKept(run[n - 1], a);
  }

  /** The last pass went by the clock of the state `m` in which the watchdog woke up for it, and ended in
      the step after `p`. */
  lemma {:induction false} PassTaken(run: seq<State>, n: nat) returns (m: nat, p: nat)
    requires IsRun(run) && n < |run| && run[n].lastPass.Some?
    ensures m < p < n && run[m].dog == Sleeping && run[m].now == run[n].lastPass.value
    ensures run[p].dog == Sampled(run[m].now) && run[p + 1].dog == Sleeping && run[p + 1].lastPass == run[n].lastPass
  {
    DogNext(run, n);
    if run[n - 1].lastPass == run[n].lastPass {
      m, p := PassTaken(run, n - 1);
    } else {
      p := n - 1;
      m := SampleTaken(run, p);
    }
  }

  // ---- from one state to a later one ----

  ghost predicate SlotLater(a: Sensor, b: Sensor) {
    KeyOf(a) == KeyOf(b) && Nanos(a.lastSeen) <= Nanos(b.lastSeen)
  }

  // Some frame for the key was stored between the two states.
  ghost predicate StoredSince(s: State, s': State, k: Key) {
    exists j :: |s.stored| <= j < |s'.stored| && KeyOf(s'.stored[j]) == k
  }

  ghost predicate Later(s: State, s': State) {
    && s.stored <= s'.stored && s.reg.mult <= s'.reg.mult
    && s.reg.count <= s'.reg.count && s.reg.count <= |s.reg.cells| && s'.reg.count <= |s'.reg.cells|
    && (forall i :: 0 <= i < s.reg.count ==> SlotLater(s.reg.cells[i], s'.reg.cells[i]))
    && (forall i :: 0 <= i < s.reg.count && s.reg.cells[i].state == Offline && s'.reg.cells[i].state != Offline ==>
                      StoredSince(s, s', KeyOf(s.reg.cells[i])))
  }

  lemma StoreSlots(r: Registry, f: Sensor, i: nat)
    requires WellSized(r) && Store(r, f).Kept? && i < r.count
    ensures i < |Store(r, f).reg.cells|
    ensures (KeyOf(r.cells[i]) == KeyOf(f) && Store(r, f).reg.cells[i] == Updated(r.cells[i], f)) ||
            Store(r, f).reg.cells[i] == r.cells[i]
  {
    var h := Find(Live(r), KeyOf(f));
    assert h < r.count ==> Live(r)[h] == r.cells[h];
  }

  lemma LaterStored(s: State, s': State, f: Sensor)
    requires WellSized(s.reg) && WellSized(s'.reg) && Store(s.reg, f) == Kept(s'.reg) && s'.stored == s.stored + [f]
    requires forall i :: 0 <= i < s.reg.count ==> Nanos(s.reg.cells[i].lastSeen) <= Nanos(f.lastSeen)
    ensures Later(s, s')
  {
    assert s'.stored[|s.stored|] == f;
    assert StoredSince(s, s', KeyOf(f));
    forall i | 0 <= i < s.reg.count
      ensures SlotLater(s.reg.cells[i], s'.reg.cells[i])
      ensures s'.reg.cells[i].state != s.reg.cells[i].state ==> KeyOf(s.reg.cells[i]) == KeyOf(f)
    {
      StoreSlots(s.reg, f, i);
    }
  }

  lemma BehindFrameInHand(s: State)
    requires Inv(s) && s.ing.Hold?
    ensures forall i :: 0 <= i < s.reg.count ==> Nanos(s.reg.cells[i].lastSeen) <= Nanos(s.ing.frame.lastSeen)
  {
    TimeOrderInv(s);
    assert s.telSent[|s.stored|] == s.ing.frame;
  }

  lemma StoreApplied(s: State)
    requires RegistryOk(s) && s.ing.Hold?
    ensures var s' := Apply(s, StoreFrame);
            if Store(s.reg, s.ing.frame).Kept?
            then Store(s.reg, s.ing.frame) == Kept(s'.reg) && s'.stored == s.stored + [s.ing.frame] && WellSized(s'.reg)
            else RegistryKept(s, s')
  {
    StoreRefines(s.reg, s.stored, s.ing.frame);
  }

  lemma LaterStore(s: State)
    requires Inv(s) && s.ing.Hold?
    ensures Later(s, Apply(s, StoreFrame))
  {
    var s' := Apply(s, StoreFrame);
    StoreApplied(s);
    if Store(s.reg, s.ing.frame).Kept? {
      BehindFrameInHand(s);
      LaterStored(s, s', s.ing.frame);
    } else {
      LaterKept(s, s');
    }
  }

  lemma LaterJudge(s: State)
    requires Inv(s) && Enabled(s, Judge)
    ensures Later(s, Apply(s, Judge))
  {
    var s' := Apply(s, Judge);
    WatchRefines(s.reg, s.stored, s.dog.at);
    forall i | 0 <= i < s.reg.count
      ensures SlotLater(s.reg.cells[i], s'.reg.cells[i])
      ensures s.reg.cells[i].state == Offline ==> s'.reg.cells[i].state == Offline
    {
      assert JudgedRight(s, i);
    }
  }

  // No slot in use was written.
  ghost predicate RegistryKept(s: State, s': State) {
    s'.stored == s.stored && s.reg.mult <= s'.reg.mult && s'.reg.count == s.reg.count && s.reg.cells <= s'.reg.cells
  }

  lemma RegistryKeptSteps(s: State, a: Action)
    requires Enabled(s, a) && WellSized(s.reg) && !a.StoreFrame? && !a.Judge?
    ensures RegistryKept(s, Apply(s, a))
  {
  }

  lemma LaterKept(s: State, s': State)
    requires RegistryKept(s, s') && s.reg.count <= |s.reg.cells|
    ensures Later(s, s')
  {
    assert forall i :: 0 <= i < s.reg.count ==> s'.reg.cells[i] == s.reg.cells[i];
  }

  lemma LaterStep(s: State, a: Action)
    requires Inv(s) && Enabled(s, a)
    ensures Later(s, Apply(s, a))
  {
    if a.StoreFrame? {
      LaterStore(s);
    } else if a.Judge? {
      LaterJudge(s);
    } else {
      RegistryKeptSteps(s, a);
      LaterKept(s, Apply(s, a));
    }
  }

  lemma LaterTransitive(s: State, t: State, u: State)
    requires Later(s, t) && Later(t, u)
    ensures Later(s, u)
  {
    forall i | 0 <= i < s.reg.count
      ensures SlotLater(s.reg.cells[i], u.reg.cells[i])
      ensures s.reg.cells[i].state == Offline && u.reg.cells[i].state != Offline ==>
                StoredSince(s, u, KeyOf(s.reg.cells[i]))
    {
      assert SlotLater(s.reg.cells[i], t.reg.cells[i]) && SlotLater(t.reg.cells[i], u.reg.cells[i]);
      if s.reg.cells[i].state == Offline && u.reg.cells[i].state != Offline {
        StoredSinceTransitive(s, t, u, KeyOf(s.reg.cells[i]));
      }
    }
  }

  lemma StoredSinceTransitive(s: State, t: State, u: State, k: Key)
    requires s.stored <= t.stored <= u.stored
    requires StoredSince(s, t, k) || StoredSince(t, u, k)
    ensures StoredSince(s, u, k)
  {
    if StoredSince(s, t, k) {
      var j :| |s.stored| <= j < |t.stored| && KeyOf(t.stored[j]) == k;
      assert u.stored[j] == t.stored[j];
    } else {
      var j :| |t.stored| <= j < |u.stored| && KeyOf(u.stored[j]) == k;
      assert |s.stored| <= j;
    }
  }

  lemma LaterNext(run: seq<State>, n: nat)
    requires IsRun(run) && n + 1 < |run|
    ensures Later(run[n], run[n + 1])
  {
    RunInv(run, n);
    var a := ActionAt(run, n + 1);
    LaterStep(run[n], a);
  }

  lemma LaterRefl(run: seq<State>, n: nat)
    requires IsRun(run) && n < |run|
    ensures Later(run[n], run[n])
  {
    RunInv(run, n);
    LaterKept(run[n], run[n]);
  }

  /** Between any two states of a run: registered sensors keep their slot and their key, the
      allocation never shrinks, no last-seen stamp moves back, and a slot that was offline is still
      offline unless a frame for its key was stored in between. */
  lemma {:induction false} RunLater(run: seq<State>, m: nat, n: nat)
    requires IsRun(run) && m <= n < |run|
    ensures Later(run[m], run[n])
    decreases n - m
  {
    if m == n {
      LaterRefl(run, n);
    } else {
      RunLater(run, m, n - 1);
      LaterNext(run, n - 1);
      LaterTransitive(run[m], run[n - 1], run[n]);
    }
  }

  // ---- queries ----

  function LiveKeys(r: Registry): seq<Key> {
    seq(|Live(r)|, i requires 0 <= i < |Live(r)| => KeyOf(Live(r)[i]))
  }

  /** A snapshot's keys are the beginning of every later registry's keys, and an id that GET ID once
      found is found in the same slot, under the same type, ever after. */
  lemma SnapshotsStable(run: seq<State>, m: nat, n: nat, id: uint16)
    requires IsRun(run) && m <= n < |run|
    ensures LiveKeys(run[m].reg) <= LiveKeys(run[n].reg)
    ensures var a, b := Live(run[m].reg), Live(run[n].reg);
            FindId(a, id) < |a| ==> FindId(b, id) == FindId(a, id) && KeyOf(GetById(b, id)) == KeyOf(GetById(a, id))
  {
    RunLater(run, m, n);
    var a, b := Live(run[m].reg), Live(run[n].reg);
    forall i | 0 <= i < |a|
      ensures KeyOf(a[i]) == KeyOf(b[i])
    {
      assert SlotLater(run[m].reg.cells[i], run[n].reg.cells[i]);
    }
    var h := FindId(a, id);
    if h < |a| {
      assert b[h].id == id;
      assert forall j :: 0 <= j < h ==> b[j].id == a[j].id;
    }
  }

  /** In every reachable registry the ONLINE and OFFLINE answers split the ALL answer, in order and
      without loss or repetition, and so do the four type answers. */
  lemma QueriesSplit(run: seq<State>, n: nat)
    requires IsRun(run) && n < |run|
    ensures var all := Live(run[n].reg);
            && Subseq(Filter(InState(Online), all), all) && Subseq(Filter(InState(Offline), all), all)
            && multiset(Filter(InState(Online), all)) + multiset(Filter(InState(Offline), all)) == multiset(all)
            && (forall t :: Subseq(Filter(OfType(t), all), all))
            && TypeCounts(all) == multiset(all)
  {
    RunInv(run, n);
    StatesSplit(run[n]);
    LiveTypes(run[n]);
    TypesSplit(Live(run[n].reg));
    forall t
      ensures Subseq(Filter(OfType(t), Live(run[n].reg)), Live(run[n].reg))
    {
      FilterSubseq(OfType(t), Live(run[n].reg));
    }
  }

  lemma StatesSplit(s: State)
    requires WatchdogOk(s)
    ensures var all := Live(s.reg);
            && Subseq(Filter(InState(Online), all), all) && Subseq(Filter(InState(Offline), all), all)
            && multiset(Filter(InState(Online), all)) + multiset(Filter(InState(Offline), all)) == multiset(all)
  {
    var all := Live(s.reg);
    forall x | x in all
      ensures InState(Online)(x) != InState(Offline)(x)
    {
      var i :| 0 <= i < |all| && all[i] == x;
      assert JudgedRight(s, i);
    }
    FiltersSplit(InState(Online), InState(Offline), all);
  }

  lemma LiveTypes(s: State)
    requires Inv(s)
    ensures forall x :: x in Live(s.reg) ==> x.stype != Unsupported
  {
    LiveNamed(s);
    forall x | x in Live(s.reg)
      ensures x.stype != Unsupported
    {
      var i :| 0 <= i < |Live(s.reg)| && Live(s.reg)[i] == x;
      assert Named(s.reg.cells[i]);
    }
  }

  // ---- end to end ----

  lemma {:induction false} MadeOrigin(jobs: seq<Job>, j: nat) returns (q: nat)
    requires j < |Made(jobs)|
    ensures q < |jobs| && MadeBy(jobs[q]) == Some(Made(jobs)[j])
  {
    var n := |jobs| - 1;
    if j < |Made(jobs[..n])| {
      q := MadeOrigin(jobs[..n], j);
    } else {
      q := n;
    }
  }

  lemma {:induction false} SourceAt(jobs: seq<Job>, q: nat)
    requires q < |jobs|
    ensures |Sources(jobs)| == |jobs| && Sources(jobs)[q] == jobs[q].source
  {
    var n := |jobs| - 1;
    if n > 0 {
      SourceAt(jobs[..n], if q < n then q else 0);
    }
  }

  lemma {:induction false} PacketAt(sent: seq<Sent>, i: nat) returns (j: nat)
    requires i < |sent|
    ensures j < |PacketsFrom(sent[i].conn, sent)| && PacketsFrom(sent[i].conn, sent)[j] == sent[i].pkt
  {
    var n := |sent| - 1;
    if i < n {
      j := PacketAt(sent[..n], i);
    } else {
      j := |PacketsFrom(sent[i].conn, sent)| - 1;
    }
  }

  lemma StoredOrigin(s: State, m: nat) returns (q: nat)
    requires Inv(s) && m < |s.stored|
    ensures q < |s.jobs| && q < |s.sent| && s.sent[q] == s.jobs[q].source && MadeBy(s.jobs[q]) == Some(s.stored[m])
  {
    Accepted(s);
    assert s.stored[m] == s.telSent[m];
    var j := SubseqMember(s.telSent, Made(s.jobs), m);
    q := MadeOrigin(s.jobs, j);
    SourceAt(s.jobs, q);
  }

  lemma SentOrigin(s: State, q: nat) returns (c: nat, j: nat)
    requires Sourced(s) && q < |s.sent|
    ensures c in s.conns && s.conns[c].offered <= |Frames(s.conns[c].received)|
    ensures j < s.conns[c].offered && s.sent[q] == Sent(c, Frames(s.conns[c].received)[j])
  {
    c := s.sent[q].conn;
    assert ConnFits(c, s.conns[c], s.sent, s.lost);
    var i := PacketAt(s.sent, q);
    var packets := Frames(s.conns[c].received)[..s.conns[c].offered];
    j := SubseqMember(PacketsFrom(c, s.sent), packets, i);
    assert packets[j] == Frames(s.conns[c].received)[j];
  }

  /** The packets the acquire queue accepted from a connection are, in order, among those its stream
      frames to; with no failed send they are all that were offered. */
  lemma ConnectionOrder(run: seq<State>, n: nat, c: nat)
    requires IsRun(run) && n < |run| && c in run[n].conns
    ensures var s, conn := run[n], run[n].conns[c];
            && conn.offered <= |Frames(conn.received)|
            && Subseq(PacketsFrom(c, s.sent), Frames(conn.received)[..conn.offered])
            && (!s.lost ==> PacketsFrom(c, s.sent) == Frames(conn.received)[..conn.offered])
  {
    RunInv(run, n);
    assert ConnFits(c, run[n].conns[c], run[n].sent, run[n].lost);
  }

  /** End-to-end provenance: the data in a slot that ever received data is the decoding of a packet
      with that type and id that some connection received and the acquire queue accepted, and its
      timestamp is the wall clock that the processor read for that very packet. */
  lemma Provenance(run: seq<State>, n: nat, i: nat) returns (c: nat, j: nat, q: nat)
    requires IsRun(run) && n < |run| && i < run[n].reg.count && i < |run[n].reg.cells|
    requires LatestData(run[n].stored, KeyOf(run[n].reg.cells[i])).Some?
    ensures c in run[n].conns && j < |Frames(run[n].conns[c].received)| && j < run[n].conns[c].offered
    ensures Sent(c, Frames(run[n].conns[c].received)[j]) in run[n].sent
    ensures q < |run[n].jobs| && run[n].jobs[q].source == Sent(c, Frames(run[n].conns[c].received)[j])
    ensures var slot := run[n].reg.cells[i];
            && Decode(Frames(run[n].conns[c].received)[j]) == Some(Message(slot.stype, slot.id, Values(slot.data)))
            && slot.timestamp == run[n].jobs[q].wall
  {
    RunInv(run, n);
    var s := run[n];
    var slot, k := s.reg.cells[i], KeyOf(s.reg.cells[i]);
    assert SlotFits(slot, Keys(s.stored)[i], s.stored);
    DataImpliesKey(s.stored, k);
    var f := LatestData(s.stored, k).value;
    var m :| 0 <= m < |s.stored| && s.stored[m] == f;
    q := StoredOrigin(s, m);
    c, j := SentOrigin(s, q);
    MessageOfFrame(s.jobs[q], f);
  }

  /** A slot's last-seen stamp is the monotonic clock of the state in which the processor made the latest
      frame stored for it, holding its packet. */
  lemma LastSeenRead(run: seq<State>, n: nat, i: nat) returns (m: nat)
    requires IsRun(run) && n < |run| && i < run[n].reg.count && i < |run[n].reg.cells|
    ensures m < n && run[m].now == run[n].reg.cells[i].lastSeen && run[m].proc.Holding?
    ensures Decode(run[m].proc.source.pkt).Some?
    ensures var message := Decode(run[m].proc.source.pkt).value;
            Key(message.id, message.stype) == KeyOf(run[n].reg.cells[i])
  {
    RunInv(run, n);
    var j := SlotSource(run[n].reg, run[n].stored, i);
    var q := StoredOrigin(run[n], j);
    m := JobStamped(run, n, q);
  }

  lemma MessageOfFrame(job: Job, f: Sensor)
    requires MadeBy(job) == Some(f) && f.kind == Data
    ensures Decode(job.source.pkt) == Some(Message(f.stype, f.id, Values(f.data))) && f.timestamp == job.wall
  {
  }

  function DataFor(p: PacketBytes, k: Key): Option<SensorData> {
    match Decode(p)
    case Some(Message(t, id, Values(d))) => if Key(id, t) == k then Some(d) else None
    case _ => None
  }

  // The packet of job `q` is the last of those taken so far that carries data for the key.
  ghost predicate LastFor(jobs: seq<Job>, q: int, k: Key) {
    && 0 <= q < |jobs| && DataFor(jobs[q].source.pkt, k).Some?
    && forall p :: q < p < |jobs| ==> DataFor(jobs[p].source.pkt, k).None?
  }

  ghost predicate LastIn(jobs: seq<Job>, k: Key, latest: Option<Sensor>) {
    match latest
    case None => forall p :: 0 <= p < |jobs| ==> DataFor(jobs[p].source.pkt, k).None?
    case Some(f) => exists q :: LastFor(jobs, q, k) && MadeBy(jobs[q]) == Some(f)
  }

  lemma MadeByData(job: Job, k: Key)
    ensures DataFor(job.source.pkt, k).Some? <==>
            MadeBy(job).Some? && KeyOf(MadeBy(job).value) == k && MadeBy(job).value.kind == Data
    ensures DataFor(job.source.pkt, k).Some? ==>
              MadeBy(job).value.data == DataFor(job.source.pkt, k).value && MadeBy(job).value.timestamp == job.wall
  {
  }

  lemma LastStep(jobs: seq<Job>, made: seq<Sensor>, job: Job, k: Key)
    requires LastIn(jobs, k, LatestData(made, k))
    ensures LastIn(jobs + [job], k, LatestData(Add(made, MadeBy(job)), k))
  {
    var all, latest := jobs + [job], LatestData(Add(made, MadeBy(job)), k);
    MadeByData(job, k);
    if MadeBy(job).Some? {
      KeysSnoc(made, MadeBy(job).value);
    }
    if DataFor(job.source.pkt, k).Some? {
      assert LastFor(all, |jobs|, k);
    } else if latest.Some? {
      var q :| LastFor(jobs, q, k) && MadeBy(jobs[q]) == Some(latest.value);
      assert LastFor(all, q, k) && all[q] == jobs[q];
    }
  }

  lemma {:induction false} LastMade(jobs: seq<Job>, k: Key)
    ensures LastIn(jobs, k, LatestData(Made(jobs), k))
  {
    if jobs != [] {
      var n := |jobs| - 1;
      LastMade(jobs[..n], k);
      LastStep(jobs[..n], Made(jobs[..n]), jobs[n], k);
      assert jobs == jobs[..n] + [jobs[n]];
    }
  }

  // Nothing is on its way to the registry, and no send has failed.
  ghost predicate Drained(s: State) {
    !s.lost && s.acq == [] && s.proc.Idle? && s.telQ == [] && InHand(s.ing).None?
  }

  lemma DrainedStored(s: State)
    requires Conserved(s) && Flows(s) && Drained(s)
    ensures s.stored == Made(s.jobs) && s.sent == Sources(s.jobs)
  {
  }

  lemma SlotOf(s: State, k: Key) returns (i: nat)
    requires RegistryOk(s) && LatestData(s.stored, k).Some?
    ensures i < s.reg.count <= |s.reg.cells| && i == Find(Live(s.reg), k) && KeyOf(s.reg.cells[i]) == k
    ensures var f := LatestData(s.stored, k).value;
            s.reg.cells[i].data == f.data && s.reg.cells[i].timestamp == f.timestamp
  {
    DataImpliesKey(s.stored, k);
    KeysDistinct(s.stored);
    FindKey(s.reg, s.stored, k);
    i := Find(Live(s.reg), k);
    assert SlotFits(s.reg.cells[i], Keys(s.stored)[i], s.stored);
  }

  // Slot `i` holds what the last data packet for the key said, dated by the wall clock read for it.
  ghost predicate HoldsLast(s: State, k: Key, i: nat, q: nat) {
    && LastFor(s.jobs, q, k) && i < s.reg.count <= |s.reg.cells| && i == Find(Live(s.reg), k)
    && KeyOf(s.reg.cells[i]) == k && Some(s.reg.cells[i].data) == DataFor(s.jobs[q].source.pkt, k)
    && s.reg.cells[i].timestamp == s.jobs[q].wall
  }

  lemma DrainedSlot(s: State, k: Key) returns (i: nat, q: nat)
    requires RegistryOk(s) && s.stored == Made(s.jobs) && LatestData(s.stored, k).Some?
    ensures HoldsLast(s, k, i, q)
  {
    LastMade(s.jobs, k);
    i := SlotOf(s, k);
    q :| LastFor(s.jobs, q, k) && MadeBy(s.jobs[q]) == LatestData(s.stored, k);
    MadeByData(s.jobs[q], k);
  }

  /** When no send failed and everything is drained, a key has data in the registry exactly if some
      accepted packet carried data for it; its slot then holds the data of the last such packet in the
      order the acquire queue took them, and the wall clock read for that one. */
  lemma LosslessDrained(run: seq<State>, n: nat, k: Key) returns (i: nat, q: nat)
    requires IsRun(run) && n < |run| && Drained(run[n])
    ensures Sources(run[n].jobs) == run[n].sent && Made(run[n].jobs) == run[n].stored
    ensures if LatestData(run[n].stored, k).Some? then HoldsLast(run[n], k, i, q)
            else forall p :: 0 <= p < |run[n].jobs| ==> DataFor(run[n].jobs[p].source.pkt, k).None?
  {
    RunInv(run, n);
    DrainedStored(run[n]);
    i, q := 0, 0;
    if LatestData(run[n].stored, k).Some? {
      i, q := DrainedSlot(run[n], k);
    } else {
      LastMade(run[n].jobs, k);
    }
  }

  lemma LogAcceptedNamed(s: State, i: nat)
    requires Flows(s) && Stamped(s) && i < |s.logSent|
    ensures Named(s.logSent[i])
  {
    Accepted(s);
    var j := SubseqMember(s.logSent, DataOnly(Made(s.jobs)), i);
    FilterSubseq(IsData(), Made(s.jobs));
    var l := SubseqMember(DataOnly(Made(s.jobs)), Made(s.jobs), j);
  }

  lemma LoggedNamed(s: State)
    requires Inv(s)
    ensures forall row :: row in s.logged ==> Named(row.frame)
    ensures LogInHand(s.logger).Some? ==> Named(LogInHand(s.logger).value)
  {
    forall row | row in s.logged
      ensures Named(row.frame)
    {
      var i :| 0 <= i < |s.logged| && s.logged[i] == row;
      LoggedAt(s.logged, i);
      assert s.logSent[i] == row.frame;
      LogAcceptedNamed(s, i);
    }
    if LogInHand(s.logger).Some? {
      var n := |FramesLogged(s.logged)|;
      assert s.logSent[n] == LogInHand(s.logger).value;
      LogAcceptedNamed(s, n);
    }
  }

  /** In every state each sensor's log file is one header and the rows of that sensor among the
      frames the logger took, in order. If a write failed, the file it was for also holds a proper
      beginning of what was due, and the logger took nothing more. */
  lemma LogFilesOfRun(run: seq<State>, n: nat, k: Key)
    requires IsRun(run) && n < |run| && k.stype != Unsupported
    ensures var s := run[n]; var mine := Filter(ForKey(k), s.logged);
            if s.logger.LogStopped? then FileCut(s.files, k, mine, s.logger.turn) else FileHolds(s.files, k, mine)
    ensures Add(FramesLogged(run[n].logged), LogInHand(run[n].logger)) <= run[n].logSent
  {
    RunInv(run, n);
    var s := run[n];
    LoggedNamed(s);
    LogFileShape(s.logged, k);
    if s.logger.LogStopped? {
      FailedTurn(FilesAfter(s.logged), Filter(ForKey(k), s.logged), s.logger.turn, k);
    }
  }

  // What the log should say of a job: the time it was read at and the measurements of its packet, if
  // that carries data for the key.
  function EntryFor(zone: Zone, job: Job, k: Key): Option<Entry> {
    match DataFor(job.source.pkt, k)
    case None => None
    case Some(d) => Some(Entry(TimeText(zone, job.wall), Readings(k.stype, d)))
  }

  function EntriesFor(zone: Zone, jobs: seq<Job>, k: Key): seq<Entry> {
    if jobs == [] then []
    else Add(EntriesFor(zone, jobs[..|jobs| - 1], k), EntryFor(zone, jobs[|jobs| - 1], k))
  }

  // The same of a frame.
  function FrameEntry(zone: Zone, f: Sensor, k: Key): Option<Entry> {
    if KeyOf(f) == k && f.kind == Data
    then Some(Entry(TimeText(zone, f.timestamp), Readings(f.stype, f.data)))
    else None
  }

  function FrameEntries(zone: Zone, fs: seq<Sensor>, k: Key): seq<Entry> {
    if fs == [] then []
    else Add(FrameEntries(zone, fs[..|fs| - 1], k), FrameEntry(zone, fs[|fs| - 1], k))
  }

  lemma FrameEntriesSnoc(zone: Zone, fs: seq<Sensor>, f: Sensor, k: Key)
    ensures FrameEntries(zone, fs + [f], k) == Add(FrameEntries(zone, fs, k), FrameEntry(zone, f, k))
  {
    Last(fs, f);
  }

  lemma EntryMade(zone: Zone, made: seq<Sensor>, job: Job, k: Key)
    ensures FrameEntries(zone, Add(made, MadeBy(job)), k) == Add(FrameEntries(zone, made, k), EntryFor(zone, job, k))
  {
    MadeByData(job, k);
    if MadeBy(job).Some? {
      FrameEntriesSnoc(zone, made, MadeBy(job).value, k);
    }
  }

  lemma {:induction false} EntriesMade(zone: Zone, jobs: seq<Job>, k: Key)
    ensures FrameEntries(zone, Made(jobs), k) == EntriesFor(zone, jobs, k)
  {
    if jobs != [] {
      var n := |jobs| - 1;
      EntriesMade(zone, jobs[..n], k);
      EntryMade(zone, Made(jobs[..n]), jobs[n], k);
    }
  }

  lemma {:induction false} EntriesOfDataOnly(zone: Zone, fs: seq<Sensor>, k: Key)
    ensures FrameEntries(zone, DataOnly(fs), k) == FrameEntries(zone, fs, k)
  {
    if fs != [] {
      var n := |fs| - 1;
      EntriesOfDataOnly(zone, fs[..n], k);
      if fs[n].kind == Data {
        FrameEntriesSnoc(zone, DataOnly(fs[..n]), fs[n], k);
      }
    }
  }

  lemma EntryLogged(zone: Zone, row: Row, k: Key)
    requires Timed(zone, row) && row.frame.kind == Data
    ensures FrameEntry(zone, row.frame, k) == if ForKey(k)(row) then Some(EntryOf(row)) else None
  {
  }

  lemma {:induction false} EntriesLogged(zone: Zone, rows: seq<Row>, k: Key)
    requires forall i :: 0 <= i < |rows| ==> Timed(zone, rows[i]) && rows[i].frame.kind == Data
    ensures EntriesOf(Filter(ForKey(k), rows)) == FrameEntries(zone, FramesLogged(rows), k)
  {
    if rows != [] {
      var n := |rows| - 1;
      EntriesLogged(zone, rows[..n], k);
      FrameEntriesSnoc(zone, FramesLogged(rows[..n]), rows[n].frame, k);
      EntryLogged(zone, rows[n], k);
      EntriesSnoc(Filter(ForKey(k), rows[..n]), rows[n]);
    }
  }

  lemma LoggedIsMade(s: State)
    requires LogConserved(s) && Flows(s) && !s.lost && s.proc.Idle? && s.logQ == [] && s.logger.Logging?
    ensures FramesLogged(s.logged) == DataOnly(Made(s.jobs))
    ensures forall i :: 0 <= i < |s.logged| ==> s.logged[i].frame.kind == Data
  {
    forall i | 0 <= i < |s.logged|
      ensures s.logged[i].frame.kind == Data
    {
      LoggedAt(s.logged, i);
      DataOnlyIsData(Made(s.jobs), i);
    }
  }

  lemma MineReadable(zone: Zone, rows: seq<Row>, k: Key)
    requires ValidZone(zone) && forall i :: 0 <= i < |rows| ==> Timed(zone, rows[i])
    ensures RowsOfType(Filter(ForKey(k), rows), k.stype)
  {
    var mine := Filter(ForKey(k), rows);
    FilterSubseq(ForKey(k), rows);
    forall i | 0 <= i < |mine|
      ensures IsTimeText(mine[i].stamp) && mine[i].frame.stype == k.stype
    {
      var j := SubseqMember(mine, rows, i);
      FilterKeeps(ForKey(k), rows, i);
    }
  }

  lemma LoggedEntries(s: State, k: Key)
    requires LogConserved(s) && Flows(s) && FilesOk(s)
    requires !s.lost && s.proc.Idle? && s.logQ == [] && s.logger.Logging?
    ensures EntriesOf(Filter(ForKey(k), s.logged)) == EntriesFor(s.zone, s.jobs, k)
  {
    LoggedIsMade(s);
    EntriesLogged(s.zone, s.logged, k);
    EntriesOfDataOnly(s.zone, Made(s.jobs), k);
    EntriesMade(s.zone, s.jobs, k);
  }

  // The sensor's file, read back by its own header, has the columns of its type and these entries; with
  // no entries there is no file.
  ghost predicate FileReads(files: Files, k: Key, entries: seq<Entry>) {
    var path := LogPath(NameSensor(k.id, k.stype));
    && (path in files <==> entries != [])
    && (entries != [] ==> ReadLog(Content(files, path)) == Some(Log(Columns(k.stype), entries)))
  }

  lemma {:induction false} EntriesCount(rows: seq<Row>)
    ensures EntriesOf(rows) == [] <==> rows == []
  {
  }

  lemma FileHeldReads(files: Files, k: Key, mine: seq<Row>)
    requires k.stype != Unsupported && FileHolds(files, k, mine) && RowsOfType(mine, k.stype)
    ensures FileReads(files, k, EntriesOf(mine))
  {
    EntriesCount(mine);
    ShapeReads(files, LogPath(NameSensor(k.id, k.stype)), k.stype, mine);
  }

  /** In every state of a run whose logger runs, each sensor's file reads as the entries of the rows
      written for it: the local-time text of each frame's timestamp, and its measurements. */
  lemma LogReads(run: seq<State>, n: nat, k: Key)
    requires IsRun(run) && n < |run| && k.stype != Unsupported && !run[n].logger.LogStopped?
    ensures FileReads(run[n].files, k, EntriesOf(Filter(ForKey(k), run[n].logged)))
    ensures forall i :: 0 <= i < |run[n].logged| ==> Timed(run[n].zone, run[n].logged[i])
  {
    RunInv(run, n);
    LogFilesOfRun(run, n, k);
    MineReadable(run[n].zone, run[n].logged, k);
    FileHeldReads(run[n].files, k, Filter(ForKey(k), run[n].logged));
  }

  /** The log's counterpart: when no send failed and everything is drained into the files, each sensor's
      file, read back by its own header, is exactly this: for every data packet accepted for that sensor,
      in the order the acquire queue took them, the local-time text of the wall clock read for it and
      its measurements. A sensor that sent none has no file. */
  lemma LosslessLog(run: seq<State>, n: nat, k: Key)
    requires IsRun(run) && n < |run| && k.stype != Unsupported
    requires !run[n].lost && run[n].acq == [] && run[n].proc.Idle? && run[n].logQ == [] && run[n].logger.Logging?
    ensures FileReads(run[n].files, k, EntriesFor(run[n].zone, run[n].jobs, k))
    ensures Sources(run[n].jobs) == run[n].sent
  {
    RunInv(run, n);
    LogReads(run, n, k);
    LoggedEntries(run[n], k);
  }

  // The logger has stopped, with this log and these files.
  ghost predicate StoppedWith(s: State, l: LogDaemon, logged: seq<Row>, files: Files) {
    l.LogStopped? && s.logger == l && s.logged == logged && s.files == files
  }

  lemma LoggerNext(run: seq<State>, n: nat, l: LogDaemon, logged: seq<Row>, files: Files)
    requires IsRun(run) && 0 < n < |run| && StoppedWith(run[n - 1], l, logged, files)
    ensures StoppedWith(run[n], l, logged, files)
  {
    var a := ActionAt(run, n);
    FilesQuiet(run[n - 1], a);
  }

  lemma {:induction false} LoggerStays(run: seq<State>, m: nat, n: nat)
    requires IsRun(run) && m <= n < |run| && run[m].logger.LogStopped?
    ensures StoppedWith(run[n], run[m].logger, run[m].logged, run[m].files)
    decreases n - m
  {
    if m < n {
      LoggerStays(run, m, n - 1);
      LoggerNext(run, n, run[m].logger, run[m].logged, run[m].files);
    }
  }

  lemma TelemetryNeedsLog(s: State)
    requires LogConserved(s) && Flows(s)
    ensures |DataOnly(s.telSent)| <= |s.logged| + (if s.logger.Logging? then 0 else 1) + QUEUE_LIMIT
  {
    Accepted(s);
    SubseqLength(DataOnly(s.telSent), s.logSent);
    FramesLoggedLength(s.logged);
  }

  /** One failed log write ends data telemetry too, for good: the log queue fills up, and a data frame
      that does not get into it is not offered to telemetry. However long the run goes on, no more
      than eleven data frames beyond the rows in the files ever reach telemetry. */
  lemma FailedLogStarvesTelemetry(run: seq<State>, m: nat, n: nat)
    requires IsRun(run) && m <= n < |run| && run[m].logger.LogStopped?
    ensures run[n].logger == run[m].logger && run[n].logged == run[m].logged && run[n].files == run[m].files
    ensures |DataOnly(run[n].telSent)| <= |run[m].logged| + 11
  {
    LoggerStays(run, m, n);
    RunInv(run, n);
    TelemetryNeedsLog(run[n]);
  }

  lemma {:induction false} FramesLoggedLength(rows: seq<Row>)
    ensures |FramesLogged(rows)| == |rows|
  {
    if rows != [] {
      LoggedAt(rows, 0);
    }
  }

  lemma {:induction false} LoggedAt(rows: seq<Row>, i: nat)
    requires i < |rows|
    ensures |FramesLogged(rows)| == |rows| && FramesLogged(rows)[i] == rows[i].frame
  {
    var n := |rows| - 1;
    if n > 0 {
      LoggedAt(rows[..n], if i < n then i else 0);
    }
  }
}
