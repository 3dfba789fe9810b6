/** telemetry_d's registry as the daemon holds it: an array updated in place. Each method is one
    critical section, tied to the value it computes in `Registry`. */
module TelemetryRegistry {
  import opened Bytes
  import opened Sense
  import opened Seqs
  import opened Registry

  class SensorRegistry {
    var slots: array<Sensor>
    var count: nat
    var mult: nat

    ghost function Value(): Registry
      reads this, slots
    {
      Registry(slots[..], count, mult)
    }

    // malloc: the cells are whatever they are.
    constructor ()
      ensures WellSized(Value()) && count == 0 && mult == 1
    {
      slots := new Sensor[ALLOCATION];
      count, mult := 0, 1;
    }

    /** The first critical section of the ingest loop. */
    method GrowIfFull()
      requires WellSized(Value())
      modifies this
      ensures slots.Length >= old(slots.Length) && Value() == Grow(old(Value()), slots[old(slots.Length)..])
      ensures WellSized(Value()) && !NeedsGrowth(Value())
      ensures slots == old(slots) || fresh(slots)
    {
      if count >= ALLOCATION * mult && count < SENSORS_LIMIT_MAX {
        assert slots.Length == ALLOCATION * mult;
        var newMult, limit := mult * 2, SENSORS_LIMIT_MAX / ALLOCATION;
        if newMult > limit {
          newMult := limit;
        }
        var current := slots;
        var larger := new Sensor[ALLOCATION * newMult];
        assert current.Length <= larger.Length;
        for i := 0 to current.Length
          modifies larger
          invariant larger[..i] == current[..i]
        {
          larger[i] := current[i];
        }
        assert larger[..] == current[..] + larger[current.Length..];
        slots, mult := larger, newMult;
      } else {
        assert slots[..] + slots[slots.Length..] == slots[..];
      }
    }

    method SensorExists(frame: Sensor) returns (index: nat, isNew: bool)
      requires count <= slots.Length
      ensures index == Find(Live(Value()), KeyOf(frame)) && (isNew <==> index == count)
    {
      ghost var live := Live(Value());
      for i := 0 to count
        invariant Find(live, KeyOf(frame)) >= i
      {
        assert live[i] == slots[i];
        if slots[i].id == frame.id && slots[i].stype == frame.stype {
          return i, false;
        }
      }
      return count, true;
    }

    /** The second critical section: `false` is the exit on a full registry. */
    method StoreFrame(frame: Sensor) returns (kept: bool)
      requires WellSized(Value()) && !NeedsGrowth(Value())
      modifies this, slots
      ensures kept <==> Store(old(Value()), frame).Kept?
      ensures kept ==> Value() == Store(old(Value()), frame).reg
      ensures !kept ==> Value() == old(Value()) && Store(old(Value()), frame).LimitExceeded?
      ensures slots == old(slots)
    {
      var index, isNew := SensorExists(frame);
      if isNew {
        if count >= SENSORS_LIMIT_MAX {
          return false;
        }
        count := count + 1;
      }
      UpdateRegistry(frame, index);
      kept := true;
    }

    /** One turn of the ingest loop with nobody else at the lock, on a registry that holds `fs`. */
    method Ingest(frame: Sensor, ghost fs: seq<Sensor>) returns (kept: bool)
      requires WellSized(Value()) && Represents(Value(), fs)
      modifies this, slots
      ensures WellSized(Value()) && Represents(Value(), if kept then fs + [frame] else fs)
      ensures !kept <==> KeyOf(frame) !in Keys(fs) && |Keys(fs)| == SENSORS_LIMIT_MAX
      ensures slots == old(slots) || fresh(slots)
    {
      GrowIfFull();
      GrowRefines(old(Value()), fs, slots[old(slots.Length)..]);
      StoreRefines(Value(), fs, frame);
      kept := StoreFrame(frame);
    }

    /** The ingest loop on a finite run of received frames: it stores them until one bears a key
        beyond the 128 it can hold. */
    method IngestAll(frames: seq<Sensor>) returns (stored: nat)
      requires WellSized(Value()) && count == 0
      modifies this, slots
      ensures stored <= |frames| && WellSized(Value()) && Represents(Value(), frames[..stored])
      ensures stored < |frames| <==> |Keys(frames)| > SENSORS_LIMIT_MAX
    {
      stored := 0;
      while stored < |frames|
        invariant stored <= |frames| && WellSized(Value()) && Represents(Value(), frames[..stored])
        invariant slots == old(slots) || fresh(slots)
      {
        var kept := Ingest(frames[stored], frames[..stored]);
        if !kept {
          BeyondLimit(frames, stored);
          return;
        }
        assert frames[..stored + 1] == frames[..stored] + [frames[stored]];
        stored := stored + 1;
      }
      assert frames[..stored] == frames;
    }

    method UpdateRegistry(source: Sensor, index: nat)
      requires index < slots.Length
      modifies slots
      ensures slots[..] == old(slots[..])[index := Updated(old(slots[index]), source)]
    {
      if source.kind == Data {
        slots[index] := slots[index].(data := source.data, timestamp := source.timestamp);
      }
      slots[index] := slots[index].(lastSeen := source.lastSeen, id := source.id, stype := source.stype);
      slots[index] := slots[index].(state := Online, kind := source.kind, name := source.name);
    }

    /** The watchdog's critical section, on a clock sample taken before it. */
    method WatchdogPass(sampled: Timespec)
      requires count <= slots.Length
      modifies slots
      ensures Value() == Watched(old(Value()), sampled)
    {
      ghost var target := Watched(Value(), sampled).cells;
      for i := 0 to count
        invariant slots[..i] == target[..i] && slots[i..] == old(slots[i..])
      {
        assert old(slots[i..])[0] == slots[i];
        var elapsed := ElapsedSeconds(slots[i].lastSeen, sampled);
        if elapsed >= SENSOR_INACTIVE_SECS_MAX as real {
          slots[i] := slots[i].(state := Offline);
        } else {
          slots[i] := slots[i].(state := Online);
        }
        assert slots[..i + 1] == target[..i] + [slots[i]];
        assert slots[i + 1..] == old(slots[i..])[1..];
      }
      assert slots[..] == slots[..count] + slots[count..];
      assert target == target[..count] + target[count..];
    }

    method GetSensorId(id: uint16) returns (s: Sensor)
      requires count <= slots.Length
      ensures s == GetById(Live(Value()), id)
    {
      ghost var live := Live(Value());
      for i := 0 to count
        invariant FindId(live, id) >= i
      {
        assert live[i] == slots[i];
        if slots[i].id == id {
          return slots[i];
        }
      }
      return EMPTY_SENSOR;
    }

    /** giveSensorAll and its three variants: copy the registry under the lock, then go through the
        copy. */
    method Select(keep: Sensor -> bool) returns (chosen: seq<Sensor>)
      requires count <= slots.Length
      ensures chosen == Filter(keep, Live(Value()))
    {
      var snapshot := slots[..count];
      chosen := [];
      for i := 0 to |snapshot|
        invariant chosen == Filter(keep, snapshot[..i])
      {
        FilterSnoc(keep, snapshot[..i], snapshot[i]);
        assert snapshot[..i + 1] == snapshot[..i] + [snapshot[i]];
        if keep(snapshot[i]) {
          chosen := chosen + [snapshot[i]];
        }
      }
      assert snapshot[..|snapshot|] == snapshot;
    }
  }

  lemma BeyondLimit(frames: seq<Sensor>, n: nat)
    requires n < |frames| && KeyOf(frames[n]) !in Keys(frames[..n]) && |Keys(frames[..n])| == SENSORS_LIMIT_MAX
    ensures |Keys(frames)| > SENSORS_LIMIT_MAX
  {
    KeysSnoc(frames[..n], frames[n]);
    KeysPrefix(frames[..n] + [frames[n]], frames[n + 1..]);
    assert frames == frames[..n] + [frames[n]] + frames[n + 1..];
  }
}
