/** telemetry_d's registry: a growable array of sensors, as a value and what it represents. */
module Registry {
  import opened Bytes
  import opened Sense
  import opened Seqs

  const ALLOCATION: nat := 16

  // `cells` is the whole allocation; only the first `count` cells mean anything. The others hold
  // whatever the allocator left there.
  datatype Registry = Registry(cells: seq<Sensor>, count: nat, mult: nat)

  ghost predicate WellSized(r: Registry) {
    && (r.mult == 1 || r.mult == 2 || r.mult == 4 || r.mult == 8)
    && |r.cells| == ALLOCATION * r.mult
    && r.count <= |r.cells| <= SENSORS_LIMIT_MAX
  }

  function Live(r: Registry): seq<Sensor> {
    if r.count <= |r.cells| then r.cells[..r.count] else r.cells
  }

  // ---- the critical sections ----

  predicate NeedsGrowth(r: Registry) {
    r.count >= ALLOCATION * r.mult && r.count < SENSORS_LIMIT_MAX
  }

  function NextMult(mult: nat): nat {
    if mult * 2 > SENSORS_LIMIT_MAX / ALLOCATION then SENSORS_LIMIT_MAX / ALLOCATION else mult * 2
  }

  // Growth keeps the old cells and appends memory with arbitrary contents.
  function Grow(r: Registry, garbage: seq<Sensor>): Registry {
    if NeedsGrowth(r) then r.(cells := r.cells + garbage, mult := NextMult(r.mult)) else r
  }

  function Find(live: seq<Sensor>, k: Key): (i: nat)
    ensures i <= |live|
    ensures i < |live| ==> KeyOf(live[i]) == k
    ensures forall j :: 0 <= j < i ==> KeyOf(live[j]) != k
  {
    if live == [] then 0
    else if KeyOf(live[0]) == k then 0
    else 1 + Find(live[1..], k)
  }

  function Updated(target: Sensor, f: Sensor): Sensor {
    var t := if f.kind == Data then target.(data := f.data, timestamp := f.timestamp) else target;
    t.(lastSeen := f.lastSeen, id := f.id, stype := f.stype, state := Online, kind := f.kind, name := f.name)
  }

  // `Overrun` is a write past the allocation.
  datatype Stored = Kept(reg: Registry) | LimitExceeded | Overrun

  function Store(r: Registry, f: Sensor): Stored {
    var i := Find(Live(r), KeyOf(f));
    if i == r.count && r.count >= SENSORS_LIMIT_MAX then LimitExceeded
    else if i >= |r.cells| then Overrun
    else Kept(r.(cells := r.cells[i := Updated(r.cells[i], f)], count := if i == r.count then i + 1 else r.count))
  }

  // elapsedSeconds, over the reals.
  function ElapsedSeconds(prev: Timespec, curr: Timespec): real {
    (curr.sec - prev.sec) as real + (curr.nsec - prev.nsec) as real / 1_000_000_000.0
  }

  function Judged(s: Sensor, sampled: Timespec): Sensor {
    s.(state := if ElapsedSeconds(s.lastSeen, sampled) >= SENSOR_INACTIVE_SECS_MAX as real then Offline else Online)
  }

  function Watched(r: Registry, sampled: Timespec): Registry {
    r.(cells := seq(|r.cells|, i requires 0 <= i < |r.cells| =>
                  if i < r.count then Judged(r.cells[i], sampled) else r.cells[i]))
  }

  const INACTIVE_NANOS: int := 30_000_000_000

  predicate Inactive(s: Sensor, t: Timespec) {
    Nanos(t) - Nanos(s.lastSeen) >= INACTIVE_NANOS
  }

  lemma ElapsedIsNanos(s: Sensor, t: Timespec)
    ensures ElapsedSeconds(s.lastSeen, t) >= SENSOR_INACTIVE_SECS_MAX as real <==> Inactive(s, t)
  {
    var p := s.lastSeen;
    assert ElapsedSeconds(p, t) * 1_000_000_000.0 == (Nanos(t) - Nanos(p)) as real;
  }

  // ---- what the array represents: an ordered map built from the frames stored so far ----

  // The distinct keys in order of first arrival.
  function Keys(fs: seq<Sensor>): seq<Key> {
    if fs == [] then []
    else
      var ks, k := Keys(fs[..|fs| - 1]), KeyOf(fs[|fs| - 1]);
      if k in ks then ks else ks + [k]
  }

  // The latest frame for a key, and the latest that carried data.
  function Latest(fs: seq<Sensor>, k: Key): Option<Sensor> {
    if fs == [] then None
    else if KeyOf(fs[|fs| - 1]) == k then Some(fs[|fs| - 1])
    else Latest(fs[..|fs| - 1], k)
  }

  function LatestData(fs: seq<Sensor>, k: Key): Option<Sensor> {
    if fs == [] then None
    else if KeyOf(fs[|fs| - 1]) == k && fs[|fs| - 1].kind == Data then Some(fs[|fs| - 1])
    else LatestData(fs[..|fs| - 1], k)
  }

  ghost predicate SlotFits(s: Sensor, k: Key, fs: seq<Sensor>) {
    && KeyOf(s) == k
    && Latest(fs, k).Some?
    && s.lastSeen == Latest(fs, k).value.lastSeen
    && s.name == Latest(fs, k).value.name
    && s.kind == Latest(fs, k).value.kind
    && (LatestData(fs, k).Some? ==>
          s.data == LatestData(fs, k).value.data && s.timestamp == LatestData(fs, k).value.timestamp)
  }

  ghost predicate Represents(r: Registry, fs: seq<Sensor>) {
    && r.count <= |r.cells|
    && r.count == |Keys(fs)|
    && forall i :: 0 <= i < r.count ==> SlotFits(r.cells[i], Keys(fs)[i], fs)
  }

  ghost predicate Distinct(ks: seq<Key>) {
    forall i, j :: 0 <= i < j < |ks| ==> ks[i] != ks[j]
  }

  lemma {:induction false} KeysDistinct(fs: seq<Sensor>)
    ensures Distinct(Keys(fs))
    ensures forall k :: k in Keys(fs) <==> Latest(fs, k).Some?
  {
    if fs != [] {
      KeysDistinct(fs[..|fs| - 1]);
    }
  }

  lemma KeysSnoc(fs: seq<Sensor>, f: Sensor)
    ensures Keys(fs + [f]) == if KeyOf(f) in Keys(fs) then Keys(fs) else Keys(fs) + [KeyOf(f)]
    ensures forall k :: Latest(fs + [f], k) == if k == KeyOf(f) then Some(f) else Latest(fs, k)
    ensures forall k ::
              LatestData(fs + [f], k) == if k == KeyOf(f) && f.kind == Data then Some(f) else LatestData(fs, k)
  {
    assert (fs + [f])[..|fs|] == fs;
  }

  lemma {:induction false} KeysPrefix(fs: seq<Sensor>, more: seq<Sensor>)
    ensures Keys(fs) <= Keys(fs + more)
  {
    if more == [] {
      assert fs + more == fs;
    } else {
      var n := |more| - 1;
      KeysPrefix(fs, more[..n]);
      assert fs + more == fs + more[..n] + [more[n]];
      KeysSnoc(fs + more[..n], more[n]);
    }
  }

  lemma FindKey(r: Registry, fs: seq<Sensor>, k: Key)
    requires Represents(r, fs)
    ensures var i := Find(Live(r), k);
            (i < r.count <==> k in Keys(fs)) && (i < r.count ==> Keys(fs)[i] == k)
  {
    forall j | 0 <= j < r.count
      ensures KeyOf(Live(r)[j]) == Keys(fs)[j]
    {
      assert SlotFits(r.cells[j], Keys(fs)[j], fs);
    }
  }

  lemma SlotFitsOther(s: Sensor, k: Key, fs: seq<Sensor>, f: Sensor)
    requires SlotFits(s, k, fs) && KeyOf(f) != k
    ensures SlotFits(s, k, fs + [f])
  {
    KeysSnoc(fs, f);
  }

  lemma SlotFitsUpdated(s: Sensor, fs: seq<Sensor>, f: Sensor)
    requires LatestData(fs, KeyOf(f)).Some? ==> SlotFits(s, KeyOf(f), fs)
    ensures SlotFits(Updated(s, f), KeyOf(f), fs + [f])
  {
    KeysSnoc(fs, f);
  }

  lemma {:induction false} DataImpliesKey(fs: seq<Sensor>, k: Key)
    ensures LatestData(fs, k).Some? ==> Latest(fs, k).Some?
    ensures LatestData(fs, k).Some? ==> LatestData(fs, k).value in fs && KeyOf(LatestData(fs, k).value) == k
    ensures LatestData(fs, k).Some? ==> LatestData(fs, k).value.kind == Data
    ensures Latest(fs, k).Some? ==> Latest(fs, k).value in fs && KeyOf(Latest(fs, k).value) == k
  {
    if fs != [] {
      DataImpliesKey(fs[..|fs| - 1], k);
    }
  }

  // Frame `i` bears the key and none after it does.
  ghost predicate LastOf(fs: seq<Sensor>, i: int, k: Key) {
    0 <= i < |fs| && KeyOf(fs[i]) == k && forall j :: i < j < |fs| ==> KeyOf(fs[j]) != k
  }

  // The same among the frames that carry data.
  ghost predicate LastDataOf(fs: seq<Sensor>, i: int, k: Key) {
    && 0 <= i < |fs| && KeyOf(fs[i]) == k && fs[i].kind == Data
    && forall j :: i < j < |fs| ==> KeyOf(fs[j]) != k || fs[j].kind != Data
  }

  /** What a key's latest frame and its latest data frame are, by position. */
  lemma {:induction false} LatestPositions(fs: seq<Sensor>, k: Key)
    ensures match Latest(fs, k)
            case None => forall i :: 0 <= i < |fs| ==> KeyOf(fs[i]) != k
            case Some(f) => FoundLast(fs, k, f)
    ensures match LatestData(fs, k)
            case None => forall i :: 0 <= i < |fs| ==> KeyOf(fs[i]) != k || fs[i].kind != Data
            case Some(f) => FoundLastData(fs, k, f)
  {
    if fs != [] {
      var n := |fs| - 1;
      LatestPositions(fs[..n], k);
      if Latest(fs, k).Some? {
        LatestStep(fs, k);
      }
      if LatestData(fs, k).Some? {
        LatestDataStep(fs, k);
      }
    }
  }

  lemma LastOfKept(fs: seq<Sensor>, i: int, k: Key)
    requires fs != [] && LastOf(fs[..|fs| - 1], i, k) && KeyOf(fs[|fs| - 1]) != k
    ensures LastOf(fs, i, k)
  {
    var earlier := fs[..|fs| - 1];
    assert forall j :: 0 <= j < |earlier| ==> earlier[j] == fs[j];
  }

  lemma LastDataOfKept(fs: seq<Sensor>, i: int, k: Key)
    requires fs != [] && LastDataOf(fs[..|fs| - 1], i, k)
    requires KeyOf(fs[|fs| - 1]) != k || fs[|fs| - 1].kind != Data
    ensures LastDataOf(fs, i, k)
  {
    var earlier := fs[..|fs| - 1];
    assert forall j :: 0 <= j < |earlier| ==> earlier[j] == fs[j];
  }

  ghost predicate FoundLast(fs: seq<Sensor>, k: Key, f: Sensor) {
    exists i :: LastOf(fs, i, k) && fs[i] == f
  }

  ghost predicate FoundLastData(fs: seq<Sensor>, k: Key, f: Sensor) {
    exists i :: LastDataOf(fs, i, k) && fs[i] == f
  }

  lemma LatestStep(fs: seq<Sensor>, k: Key)
    requires fs != [] && Latest(fs, k).Some?
    requires var before := Latest(fs[..|fs| - 1], k); before.Some? ==> FoundLast(fs[..|fs| - 1], k, before.value)
    ensures FoundLast(fs, k, Latest(fs, k).value)
  {
    var n := |fs| - 1;
    if KeyOf(fs[n]) == k {
      assert LastOf(fs, n, k);
    } else {
      var i :| LastOf(fs[..n], i, k) && fs[..n][i] == Latest(fs[..n], k).value;
      LastOfKept(fs, i, k);
    }
  }

  lemma LatestDataStep(fs: seq<Sensor>, k: Key)
    requires fs != [] && LatestData(fs, k).Some?
    requires var before := LatestData(fs[..|fs| - 1], k);
             before.Some? ==> FoundLastData(fs[..|fs| - 1], k, before.value)
    ensures FoundLastData(fs, k, LatestData(fs, k).value)
  {
    var n := |fs| - 1;
    if KeyOf(fs[n]) == k && fs[n].kind == Data {
      assert LastDataOf(fs, n, k);
    } else {
      var i :| LastDataOf(fs[..n], i, k) && fs[..n][i] == LatestData(fs[..n], k).value;
      LastDataOfKept(fs, i, k);
    }
  }

  /** Storing a frame extends the ordered map by that frame; the limit is hit exactly by a key
      beyond the 128 already known; and the write stays inside the allocation when the growth
      check ran since the last new key. */
  lemma StoreRefines(r: Registry, fs: seq<Sensor>, f: Sensor)
    requires WellSized(r) && Represents(r, fs) && !NeedsGrowth(r)
    ensures !Store(r, f).Overrun?
    ensures Store(r, f).LimitExceeded? <==> KeyOf(f) !in Keys(fs) && |Keys(fs)| == SENSORS_LIMIT_MAX
    ensures Store(r, f).Kept? ==> WellSized(Store(r, f).reg) && Represents(Store(r, f).reg, fs + [f])
  {
    var k := KeyOf(f);
    var i := Find(Live(r), k);
    FindKey(r, fs, k);
    if Store(r, f).Kept? {
      var r' := Store(r, f).reg;
      KeysSnoc(fs, f);
      KeysDistinct(fs);
      assert LatestData(fs, k).Some? ==> SlotFits(r.cells[i], k, fs) by {
        DataImpliesKey(fs, k);
      }
      SlotFitsUpdated(r.cells[i], fs, f);
      forall j | 0 <= j < r'.count
        ensures SlotFits(r'.cells[j], Keys(fs + [f])[j], fs + [f])
      {
        if j != i {
          assert Keys(fs + [f])[j] == Keys(fs)[j] != k;
          SlotFitsOther(r.cells[j], Keys(fs)[j], fs, f);
        }
      }
    }
  }

  // What a cell shows that held `before` while it was not in use: its key's latest data, and
  // `before`'s data and timestamp as long as there is none.
  ghost predicate CellShows(r: Registry, fs: seq<Sensor>, i: nat, before: Sensor) {
    && i < |r.cells|
    && if i >= r.count then r.cells[i] == before
       else
         var source := LatestData(fs, KeyOf(r.cells[i]));
         var shown := if source.Some? then source.value else before;
         r.cells[i].data == shown.data && r.cells[i].timestamp == shown.timestamp
  }

  /** Storing any frame keeps it so: a heartbeat changes neither data nor timestamp. */
  lemma StoreShows(r: Registry, fs: seq<Sensor>, f: Sensor, i: nat, before: Sensor)
    requires Represents(r, fs) && Store(r, f).Kept? && CellShows(r, fs, i, before)
    ensures CellShows(Store(r, f).reg, fs + [f], i, before)
  {
    var h := Find(Live(r), KeyOf(f));
    FindKey(r, fs, KeyOf(f));
    KeysSnoc(fs, f);
    KeysDistinct(fs);
    if i < r.count {
      assert SlotFits(r.cells[i], Keys(fs)[i], fs);
    } else if i == h {
      DataImpliesKey(fs, KeyOf(f));
    }
  }

  /** Growing keeps what is represented, and afterwards there is room or the limit is reached. It happens
      exactly when the allocation is full and not yet 128 sensors long, and doubles it. */
  lemma GrowRefines(r: Registry, fs: seq<Sensor>, garbage: seq<Sensor>)
    requires WellSized(r) && Represents(r, fs)
    requires NeedsGrowth(r) ==> |garbage| == ALLOCATION * (NextMult(r.mult) - r.mult)
    ensures WellSized(Grow(r, garbage)) && Represents(Grow(r, garbage), fs)
    ensures r.cells <= Grow(r, garbage).cells && Grow(r, garbage).count == r.count
    ensures !NeedsGrowth(Grow(r, garbage))
    ensures if r.count == |r.cells| < 128
            then Grow(r, garbage).cells == r.cells + garbage && |Grow(r, garbage).cells| == 2 * |r.cells|
            else Grow(r, garbage) == r
  {
  }

  /** A watchdog pass only judges: every other field keeps its meaning. */
  lemma WatchRefines(r: Registry, fs: seq<Sensor>, t: Timespec)
    requires WellSized(r) && Represents(r, fs)
    ensures WellSized(Watched(r, t)) && Represents(Watched(r, t), fs)
    ensures Watched(r, t).count == r.count && Watched(r, t).mult == r.mult
    ensures forall i :: 0 <= i < r.count ==>
              Watched(r, t).cells[i] == r.cells[i].(state := if Inactive(r.cells[i], t) then Offline else Online)
  {
    forall i | 0 <= i < r.count
      ensures Watched(r, t).cells[i] == r.cells[i].(state := if Inactive(r.cells[i], t) then Offline else Online)
      ensures SlotFits(Watched(r, t).cells[i], Keys(fs)[i], fs)
    {
      ElapsedIsNanos(r.cells[i], t);
    }
  }

  // ---- queries ----

  const EMPTY_SENSOR :=
    Sensor(SensorData(0, 0, 0), Timespec(0, 0), Timespec(0, 0), 0, "", Unsupported, FrameDefault, Heartbeat)

  function FindId(live: seq<Sensor>, id: uint16): (i: nat)
    ensures i <= |live|
    ensures i < |live| ==> live[i].id == id
    ensures forall j :: 0 <= j < i ==> live[j].id != id
  {
    if live == [] then 0
    else if live[0].id == id then 0
    else 1 + FindId(live[1..], id)
  }

  function GetById(live: seq<Sensor>, id: uint16): Sensor {
    if FindId(live, id) < |live| then live[FindId(live, id)] else EMPTY_SENSOR
  }

  function InState(state: SensorState): Sensor -> bool {
    (s: Sensor) => s.state == state
  }

  function OfType(t: SensorType): Sensor -> bool {
    (s: Sensor) => s.stype == t
  }

  /** GET ID reaches a registered sensor exactly when no sensor of another type registered the same
      id before it. */
  lemma GetByIdReaches(r: Registry, fs: seq<Sensor>, i: nat)
    requires Represents(r, fs) && i < r.count
    ensures GetById(Live(r), r.cells[i].id) == r.cells[i] <==>
            forall j :: 0 <= j < i ==> r.cells[j].id != r.cells[i].id
  {
    var live := Live(r);
    assert live[i] == r.cells[i];
    var h := FindId(live, live[i].id);
    assert h <= i;
    if h < i {
      assert SlotFits(r.cells[i], Keys(fs)[i], fs) && SlotFits(r.cells[h], Keys(fs)[h], fs);
      KeysDistinct(fs);
      assert live[h] == r.cells[h];
    }
  }

  /** Two tests of which exactly one holds of every element split a sequence without loss. */
  lemma {:induction false} FiltersSplit(p: Sensor -> bool, q: Sensor -> bool, s: seq<Sensor>)
    requires forall x :: x in s ==> p(x) != q(x)
    ensures multiset(Filter(p, s)) + multiset(Filter(q, s)) == multiset(s)
    ensures Subseq(Filter(p, s), s) && Subseq(Filter(q, s), s)
  {
    FilterSubseq(p, s);
    FilterSubseq(q, s);
    if s != [] {
      var n := |s| - 1;
      assert s == s[..n] + [s[n]];
      FiltersSplit(p, q, s[..n]);
    }
  }

  ghost function TypeCounts(s: seq<Sensor>): multiset<Sensor> {
    multiset(Filter(OfType(TempPress), s)) + multiset(Filter(OfType(PowCurrVolt), s)) +
    multiset(Filter(OfType(Torque), s)) + multiset(Filter(OfType(Proximity), s))
  }

  /** The four type queries split the registered sensors. */
  lemma {:induction false} TypesSplit(s: seq<Sensor>)
    requires forall x :: x in s ==> x.stype != Unsupported
    ensures TypeCounts(s) == multiset(s)
  {
    if s != [] {
      var n := |s| - 1;
      assert s == s[..n] + [s[n]];
      TypesSplit(s[..n]);
    }
  }
}
