/** The latency stamp from client to host, and the statistics kept of it. */
module Latency {
  import opened Bytes
  import opened Text
  import opened Seqs
  import opened Sense
  import opened Packet
  import opened Registry
  import opened Response

  // ---- the stamp ----

  // What the latency client copies into its 12 data bytes.
  function PackStamp(seconds: int64, nanoseconds: int32): (data: seq<byte>)
    ensures |data| == 12
  {
    LeInt64(seconds) + LeInt32(nanoseconds)
  }

  function LatencyPacket(seconds: int64, nanoseconds: int32): PacketBytes {
    EncodePacket(0x2B, LATENCY_ID, PackStamp(seconds, nanoseconds))
  }

  // sscanf(line, "LATENCY: %ld %ld", ...).
  function ParseLatency(line: string): Option<(int, int)> {
    if |line| < 8 || line[..8] != "LATENCY:" then None
    else match ScanInt(SkipSpaces(line[8..]))
      case None => None
      case Some((seconds, rest)) =>
        match ScanInt(SkipSpaces(rest))
        case None => None
        case Some((nanoseconds, _)) => Some((seconds, nanoseconds))
  }

  lemma SkipOne(s: string)
    requires s != "" && (s[0] == '-' || IsDigit(s[0], 10))
    ensures SkipSpaces(" " + s) == s
  {
    assert (" " + s)[1..] == s;
  }

  lemma IntTextStart(n: int)
    ensures IntText(n) != "" && (IntText(n)[0] == '-' || IsDigit(IntText(n)[0], 10))
  {
    DigitsRoundTrip(Magnitude(n), 10);
    if n >= 0 {
      assert IntText(n) == Digits(Magnitude(n), 10);
    }
  }

  lemma ScanAfterSpace(n: int, rest: string)
    requires rest == "" || !IsDigit(rest[0], 10)
    ensures ScanInt(SkipSpaces(" " + (IntText(n) + rest))) == Some((n, rest))
  {
    IntTextStart(n);
    SkipOne(IntText(n) + rest);
    ScanIntText(n, rest);
  }

  /** The host reads back the two numbers the server printed. */
  lemma ParseLatencyLine(seconds: int64, nanoseconds: int32)
    ensures ParseLatency(LatencyLine(seconds, nanoseconds)) == Some((seconds, nanoseconds))
  {
    var tail := " " + IntText(nanoseconds);
    var numbers := " " + (IntText(seconds) + tail);
    assert LatencyLine(seconds, nanoseconds) == "LATENCY:" + numbers;
    CutPrefix(numbers);
    ScanAfterSpace(seconds, tail);
    ScanAfterSpace(nanoseconds, "");
    assert IntText(nanoseconds) + "" == IntText(nanoseconds);
  }

  lemma CutPrefix(rest: string)
    ensures ("LATENCY:" + rest)[..8] == "LATENCY:" && ("LATENCY:" + rest)[8..] == rest
  {
  }

  lemma StampWords(seconds: int64, nanoseconds: int32)
    ensures var p := PackStamp(seconds, nanoseconds);
            Int64OfWords(Int32At(p, 0), Int32At(p, 4)) == seconds && Int32At(p, 8) == nanoseconds
  {
    Int64ThroughWords(seconds);
    var b, p := LeInt64(seconds), PackStamp(seconds, nanoseconds);
    assert forall i :: 0 <= i < 8 ==> p[i] == b[i];
    WordAt(b, nanoseconds, []);
    assert p == b + LeInt32(nanoseconds) + [];
  }

  /** Every int64 seconds and int32 nanoseconds the client packs is decoded by the processor as
      three signed words, printed by the server from those words, and read back by the host
      unchanged. */
  lemma LatencyStampRoundTrip(seconds: int64, nanoseconds: int32, slot: Sensor, stamp: string)
    requires slot.id == LATENCY_ID
    requires Decode(LatencyPacket(seconds, nanoseconds)) == Some(Message(slot.stype, slot.id, Values(slot.data)))
    ensures slot.stype == PowCurrVolt
    ensures ParseLatency(Line(slot, stamp)) == Some((seconds, nanoseconds))
  {
    HeaderOf(0x2B, LATENCY_ID, PackStamp(seconds, nanoseconds));
    StampWords(seconds, nanoseconds);
    ParseLatencyLine(seconds, nanoseconds);
  }

  /** Such a packet is accepted whatever the stamp. */
  lemma LatencyPacketAccepted(seconds: int64, nanoseconds: int32) returns (d: SensorData)
    ensures Decode(LatencyPacket(seconds, nanoseconds)) == Some(Message(PowCurrVolt, LATENCY_ID, Values(d)))
  {
    HeaderOf(0x2B, LATENCY_ID, PackStamp(seconds, nanoseconds));
    d := RecordSensorData(ZERO_DATA, PackStamp(seconds, nanoseconds), PowCurrVolt).value;
  }

  /** The answer to GET ID 65000 reads as the memory of whichever sensor registered that id first,
      taken for a stamp, whatever its type and whatever that memory holds. */
  lemma LatencyAnswerWords(live: seq<Sensor>, stamp: string)
    requires FindId(live, LATENCY_ID) < |live|
    ensures var d := live[FindId(live, LATENCY_ID)].data;
            ParseLatency(Line(GetById(live, LATENCY_ID), stamp)) == Some((Int64OfWords(d.w0, d.w1), d.w2 as int))
  {
    var d := live[FindId(live, LATENCY_ID)].data;
    ParseLatencyLine(Int64OfWords(d.w0, d.w1), d.w2);
  }

  // ---- the samples ----

  // One answer of the latency sensor, with the host's clock when it was read.
  datatype Poll = Poll(seconds: int64, nanoseconds: int64, now: Timespec)

  function StampOf(p: Poll): Timespec {
    Timespec(p.seconds, p.nanoseconds)
  }

  predicate SameStamp(a: Poll, b: Poll) {
    a.seconds == b.seconds && a.nanoseconds == b.nanoseconds
  }

  // C's division, towards zero.
  function TruncDiv(a: int, b: int): int
    requires b > 0
  {
    if a >= 0 then a / b else -((-a) / b)
  }

  // Whole microseconds, and the sample, as numbers.
  function WholeMicros(t: Timespec): int {
    t.sec * 1_000_000 + TruncDiv(t.nsec, 1000)
  }

  function LatencyMicros(p: Poll): int {
    WholeMicros(p.now) - WholeMicros(StampOf(p))
  }

  // The same in int64_t, where an operation whose result does not fit is undefined.
  function Fit(x: int): Option<int64> {
    if IsInt64(x) then Some(x) else None
  }

  function Micros64(t: Timespec): Option<int64> {
    match Fit(t.sec * 1_000_000)
    case None => None
    case Some(product) => Fit(product + TruncDiv(t.nsec, 1000))
  }

  function LatencyOf(p: Poll): Option<int64> {
    match Micros64(StampOf(p))
    case None => None
    case Some(sent) =>
      match Micros64(p.now)
      case None => None
      case Some(current) => Fit(current - sent)
  }

  // 2^63 microseconds, in nanoseconds, and the whole seconds in it.
  const SPAN: int := 9_223_372_036_854_775_808_000
  const SPAN_SECONDS: int := 9_223_372_036_854

  // An instant whose microseconds since the epoch fit.
  predicate InstantInRange(t: Timespec) {
    -SPAN_SECONDS <= t.sec <= SPAN_SECONDS && -SPAN - 1000 < Nanos(t) < SPAN
  }

  // What division by a thousand cuts off: C's remainder.
  function CutOff(nanoseconds: int): int {
    nanoseconds - 1000 * TruncDiv(nanoseconds, 1000)
  }

  // Two such instants less than the span apart, each cut to whole microseconds.
  predicate SampleInRange(p: Poll) {
    && InstantInRange(StampOf(p)) && InstantInRange(p.now)
    && -SPAN <= (Nanos(p.now) - CutOff(p.now.nsec)) - (Nanos(StampOf(p)) - CutOff(p.nanoseconds)) < SPAN
  }

  lemma TruncDivExact(a: int, b: int)
    requires b > 0
    ensures -b < a - b * TruncDiv(a, b) < b
    ensures if a >= 0 then a - b * TruncDiv(a, b) >= 0 else a - b * TruncDiv(a, b) <= 0
  {
    if a < 0 {
      assert b * -((-a) / b) == -(b * ((-a) / b));
    }
  }

  lemma InstantDefined(t: Timespec)
    ensures Micros64(t) == if InstantInRange(t) then Some(WholeMicros(t)) else None
    ensures 1000 * WholeMicros(t) == Nanos(t) - CutOff(t.nsec) && -1000 < CutOff(t.nsec) < 1000
  {
    TruncDivExact(t.nsec, 1000);
  }

  /** The source's int64 arithmetic is defined, and gives the sample, exactly for instants in range. */
  lemma SampleDefined(p: Poll)
    ensures LatencyOf(p) == if SampleInRange(p) then Some(LatencyMicros(p)) else None
  {
    InstantDefined(StampOf(p));
    InstantDefined(p.now);
  }

  /** For instants after the epoch that is: neither is 2^63 microseconds or more after it. */
  lemma SampleDefinedAfterEpoch(p: Poll)
    requires p.seconds >= 0 && p.nanoseconds >= 0 && p.now.sec >= 0 && p.now.nsec >= 0
    ensures LatencyOf(p).Some? <==> Nanos(StampOf(p)) < SPAN && Nanos(p.now) < SPAN
  {
    SampleDefined(p);
    InstantDefined(StampOf(p));
    InstantDefined(p.now);
  }

  /** A client may send a stamp for which it is undefined, whatever the host's clock says: the greatest
      one arrives unchanged and overflows the first product. */
  lemma StampOverflows(slot: Sensor, stamp: string, now: Timespec)
    requires slot.id == LATENCY_ID
    requires Decode(LatencyPacket(INT64_MAX, 0)) == Some(Message(slot.stype, slot.id, Values(slot.data)))
    ensures ParseLatency(Line(slot, stamp)) == Some((INT64_MAX, 0))
    ensures LatencyOf(Poll(INT64_MAX, 0, now)) == None
  {
    LatencyStampRoundTrip(INT64_MAX, 0, slot, stamp);
  }

  /** log_latency and the two stamps it remembers. */
  class LatencyLog {
    var previousSeconds: int64
    var previousNanoseconds: int64
    var samples: seq<int64>

    constructor ()
      ensures previousSeconds == previousNanoseconds == -1 && samples == []
    {
      previousSeconds, previousNanoseconds, samples := -1, -1, [];
    }

    /** One poll; `defined` is false when the arithmetic overflows. */
    method LogLatency(p: Poll) returns (defined: bool)
      modifies this
      ensures var same := p.seconds == old(previousSeconds) && p.nanoseconds == old(previousNanoseconds);
              && (defined <==> same || SampleInRange(p))
              && (same || !defined ==> samples == old(samples))
              && (!same && defined ==> IsInt64(LatencyMicros(p)) && samples == old(samples) + [LatencyMicros(p)])
      ensures previousSeconds == p.seconds && previousNanoseconds == p.nanoseconds
    {
      if p.seconds == previousSeconds && p.nanoseconds == previousNanoseconds {
        return true;
      }
      previousSeconds, previousNanoseconds := p.seconds, p.nanoseconds;
      SampleDefined(p);
      var product := Fit(p.seconds * 1_000_000);
      if product.None? {
        return false;
      }
      var sent := Fit(product.value + TruncDiv(p.nanoseconds, 1000));
      if sent.None? {
        return false;
      }
      product := Fit(p.now.sec * 1_000_000);
      if product.None? {
        return false;
      }
      var current := Fit(product.value + TruncDiv(p.now.nsec, 1000));
      if current.None? {
        return false;
      }
      var difference: int := current.value as int - sent.value as int;
      var latency := Fit(difference);
      if latency.None? {
        return false;
      }
      samples := samples + [latency.value];
      defined := true;
    }

    /** All the polls of a session, up to one whose arithmetic overflows: one sample for the first
        poll of each run of equal stamps, except for a first run of stamps that look like the
        initial memory. */
    method LogAll(polls: seq<Poll>) returns (done: nat)
      requires previousSeconds == previousNanoseconds == -1 && samples == []
      modifies this
      ensures done <= |polls| && AllInRange(Logged(polls[..done])) && samples == Latencies(Logged(polls[..done]))
      ensures done == |polls| <==> AllInRange(Logged(polls))
    {
      done := 0;
      while done < |polls|
        invariant done <= |polls| && AllInRange(Logged(polls[..done])) && samples == Latencies(Logged(polls[..done]))
        invariant if done == 0 then previousSeconds == previousNanoseconds == -1
                  else previousSeconds == polls[done - 1].seconds && previousNanoseconds == polls[done - 1].nanoseconds
      {
        assert polls[..done + 1] == polls[..done] + [polls[done]];
        LoggedSnoc(polls[..done], polls[done]);
        var defined := LogLatency(polls[done]);
        if !defined {
          OutOfRangeStops(polls, done);
          return;
        }
        done := done + 1;
      }
      assert polls[..done] == polls;
    }
  }

  // The first poll of each run of equal stamps.
  function RunStarts(polls: seq<Poll>): seq<Poll> {
    if polls == [] then []
    else
      var n := |polls| - 1;
      var before := RunStarts(polls[..n]);
      if n > 0 && SameStamp(polls[n - 1], polls[n]) then before else before + [polls[n]]
  }

  predicate LooksInitial(p: Poll) {
    p.seconds == -1 && p.nanoseconds == -1
  }

  function Logged(polls: seq<Poll>): seq<Poll> {
    var starts := RunStarts(polls);
    if polls != [] && starts != [] && LooksInitial(polls[0]) then starts[1..] else starts
  }

  ghost predicate AllInRange(polls: seq<Poll>) {
    forall i :: 0 <= i < |polls| ==> SampleInRange(polls[i])
  }

  function Latencies(polls: seq<Poll>): seq<int> {
    seq(|polls|, i requires 0 <= i < |polls| => LatencyMicros(polls[i]))
  }

  lemma {:induction false} RunStartsFirst(polls: seq<Poll>)
    requires polls != []
    ensures RunStarts(polls) != [] && RunStarts(polls)[0] == polls[0]
  {
    var n := |polls| - 1;
    if n > 0 {
      RunStartsFirst(polls[..n]);
    }
  }

  lemma LoggedSnoc(polls: seq<Poll>, p: Poll)
    ensures var again := if polls == [] then LooksInitial(p) else SameStamp(polls[|polls| - 1], p);
            Logged(polls + [p]) == if again then Logged(polls) else Logged(polls) + [p]
  {
    var all := polls + [p];
    assert all[..|polls|] == polls;
    if polls != [] {
      RunStartsFirst(polls);
      assert all[0] == polls[0] && all[|polls| - 1] == polls[|polls| - 1];
    }
  }

  lemma {:induction false} LoggedPrefix(polls: seq<Poll>, n: nat)
    requires n <= |polls|
    ensures Logged(polls[..n]) <= Logged(polls)
    decreases |polls|
  {
    if n == |polls| {
      assert polls[..n] == polls;
    } else {
      var k := |polls| - 1;
      LoggedPrefix(polls[..k], n);
      assert polls[..k][..n] == polls[..n] && polls == polls[..k] + [polls[k]];
      LoggedSnoc(polls[..k], polls[k]);
    }
  }

  lemma OutOfRangeStops(polls: seq<Poll>, n: nat)
    requires n < |polls| && !SampleInRange(polls[n])
    requires if n == 0 then !LooksInitial(polls[0]) else !SameStamp(polls[n - 1], polls[n])
    ensures !AllInRange(Logged(polls))
  {
    assert polls[..n + 1] == polls[..n] + [polls[n]];
    LoggedSnoc(polls[..n], polls[n]);
    LoggedPrefix(polls, n + 1);
    assert Logged(polls)[|Logged(polls[..n])|] == polls[n];
  }

  /** The log gets exactly one sample per run of equal stamps if and only if the first stamp is not
      (-1, -1), the remembered stamp at the start; stamps that are not negative are safe. */
  lemma OneSamplePerRun(polls: seq<Poll>)
    ensures Logged(polls) == RunStarts(polls) <==> (polls == [] || !LooksInitial(polls[0]))
    ensures polls != [] && polls[0].seconds >= 0 ==> Logged(polls) == RunStarts(polls)
  {
    if polls != [] {
      RunStartsFirst(polls);
      assert |RunStarts(polls)[1..]| < |RunStarts(polls)|;
    }
  }

  /** Each sample is within a microsecond of the true difference, and not negative unless the stamp
      is ahead of the host's clock; there is a sample exactly for instants in range. */
  lemma LatencyAccurate(p: Poll)
    requires p.nanoseconds >= 0 && p.now.nsec >= 0
    ensures LatencyOf(p).Some? <==> SampleInRange(p)
    ensures var truth := Nanos(p.now) - Nanos(StampOf(p));
            SampleInRange(p) ==>
              -1000 < 1000 * LatencyOf(p).value - truth < 1000 && (truth >= 0 ==> LatencyOf(p).value >= 0)
  {
    SampleDefined(p);
    InstantDefined(StampOf(p));
    InstantDefined(p.now);
    TruncDivExact(p.nanoseconds, 1000);
    TruncDivExact(p.now.nsec, 1000);
  }

  // ---- the average ----

  const HEADER_LINE: string := "latency_microseconds"

  // strtoll on one line; a number out of range sets errno and is passed over.
  function LineValue(line: string): Option<int64> {
    if |line| >= 20 && line[..20] == HEADER_LINE then None
    else match ScanInt(SkipSpaces(line))
      case None => None
      case Some((v, _)) => Fit(v)
  }

  /** A line gives its number, after any blanks and with either sign, if that is an int64; a line without a
      digit there gives none. */
  lemma LineValueForms(blanks: string, n: int, rest: string)
    requires |blanks| < 20 && (forall i :: 0 <= i < |blanks| ==> IsSpace(blanks[i]))
    requires rest == "" || !IsDigit(rest[0], 10)
    ensures LineValue(blanks + (IntText(n) + rest)) == if IsInt64(n) then Some(n) else None
    ensures blanks != "" && rest != "" && !IsSpace(rest[0]) && rest[0] != '-' && rest[0] != '+' ==>
              LineValue(blanks + rest) == None
  {
    IntTextStart(n);
    SkipBlanks(blanks, IntText(n) + rest);
    ScanIntText(n, rest);
    NotHeader(blanks, IntText(n) + rest);
    if rest != "" && !IsSpace(rest[0]) {
      SkipBlanks(blanks, rest);
    }
  }

  lemma NotHeader(blanks: string, text: string)
    requires |blanks| < 20 && (forall i :: 0 <= i < |blanks| ==> IsSpace(blanks[i]))
    requires text != "" && text[0] != 'l'
    ensures var line := blanks + text; |line| >= 20 ==> line[..20] != HEADER_LINE
  {
    var line := blanks + text;
    assert HEADER_LINE[0] == 'l';
    if |line| >= 20 {
      assert line[..20][0] == line[0];
    }
  }

  // The values print_average_latency takes from the file's lines.
  function FileValues(lines: seq<string>): seq<int64> {
    if lines == [] then []
    else
      var before, v := FileValues(lines[..|lines| - 1]), LineValue(lines[|lines| - 1]);
      if v.Some? then before + [v.value] else before
  }

  function FileLines(samples: seq<int64>): seq<string> {
    if samples == [] then [HEADER_LINE + "\n"]
    else FileLines(samples[..|samples| - 1]) + [IntText(samples[|samples| - 1]) + "\n"]
  }

  lemma HeaderHasNoValue()
    ensures LineValue(HEADER_LINE + "\n") == None
  {
    assert (HEADER_LINE + "\n")[..20] == HEADER_LINE;
  }

  lemma SampleLineValue(v: int64)
    ensures LineValue(IntText(v) + "\n") == Some(v)
  {
    ScanIntText(v, "\n");
    IntTextStart(v);
    var line := IntText(v) + "\n";
    assert line[0] != 'l' && SkipSpaces(line) == line;
    assert HEADER_LINE[0] == 'l';
    if |line| >= 20 {
      assert line[..20][0] == line[0];
    }
  }

  lemma FileValuesSnoc(lines: seq<string>, line: string)
    ensures FileValues(lines + [line]) ==
            if LineValue(line).Some? then FileValues(lines) + [LineValue(line).value] else FileValues(lines)
  {
    Last(lines, line);
  }

  lemma FreshFile()
    ensures FileValues([HEADER_LINE + "\n"]) == []
  {
    HeaderHasNoValue();
    FileValuesSnoc([], HEADER_LINE + "\n");
    assert [] + [HEADER_LINE + "\n"] == [HEADER_LINE + "\n"];
  }

  lemma FileRoundTripSnoc(earlier: seq<int64>, v: int64)
    requires FileValues(FileLines(earlier)) == earlier
    ensures FileValues(FileLines(earlier + [v])) == earlier + [v]
  {
    Last(earlier, v);
    SampleLineValue(v);
    FileValuesSnoc(FileLines(earlier), IntText(v) + "\n");
  }

  /** The values read from the file are the samples written to it. */
  lemma {:induction false} FileRoundTrip(samples: seq<int64>)
    ensures FileValues(FileLines(samples)) == samples
  {
    if samples == [] {
      FreshFile();
    } else {
      var n := |samples| - 1;
      assert samples == samples[..n] + [samples[n]];
      FileRoundTrip(samples[..n]);
      FileRoundTripSnoc(samples[..n], samples[n]);
    }
  }

  function LastFive(values: seq<int>): (window: seq<int>)
    ensures |window| == (if |values| < 5 then |values| else 5) && window == values[|values| - |window|..]
  {
    if |values| <= 5 then values else values[|values| - 5..]
  }

  function Sum(s: seq<int>): int {
    if s == [] then 0 else Sum(s[..|s| - 1]) + s[|s| - 1]
  }

  function Pushed(window: seq<int64>, v: int64): seq<int64> {
    if |window| < 5 then window + [v] else window[1..] + [v]
  }

  lemma LastFiveSnoc(values: seq<int64>, v: int64)
    ensures LastFive(values + [v]) == Pushed(LastFive(values), v)
  {
  }

  /** One value into the five-element array, shifting it when it is full. */
  method Push(values: array<int64>, count: nat, v: int64) returns (count': nat)
    requires values.Length == 5 && count <= 5
    modifies values
    ensures count' <= 5 && values[..count'] == Pushed(old(values[..count]), v)
  {
    if count < 5 {
      values[count] := v;
      count' := count + 1;
    } else {
      values[0] := values[1];
      values[1] := values[2];
      values[2] := values[3];
      values[3] := values[4];
      values[4] := v;
      count' := 5;
    }
  }

  method ReadWindow(lines: seq<string>) returns (window: seq<int64>)
    ensures window == LastFive(FileValues(lines))
  {
    var values := new int64[5];
    var count: nat := 0;
    for i := 0 to |lines|
      invariant count <= 5 && values[..count] == LastFive(FileValues(lines[..i]))
    {
      assert lines[..i + 1] == lines[..i] + [lines[i]];
      FileValuesSnoc(lines[..i], lines[i]);
      var v := LineValue(lines[i]);
      if v.Some? {
        LastFiveSnoc(FileValues(lines[..i]), v.value);
        count := Push(values, count, v.value);
      }
    }
    assert lines[..|lines|] == lines;
    window := values[..count];
  }

  // Every partial sum fits int64_t.
  ghost predicate SumDefined(window: seq<int64>) {
    forall i :: 0 <= i <= |window| ==> IsInt64(Sum(window[..i]))
  }

  datatype Average = NoSamples | Mean(value: int64) | SumOverflow

  /** print_average_latency: the window is the last five values (or all there are), and the average
      is their sum divided towards zero, unless a partial sum overflows. */
  method AverageLatency(lines: seq<string>) returns (window: seq<int64>, average: Average)
    ensures window == LastFive(FileValues(lines))
    ensures average.NoSamples? <==> window == []
    ensures average.SumOverflow? <==> !SumDefined(window)
    ensures average.Mean? ==> average.value == TruncDiv(Sum(window), |window|)
  {
    window := ReadWindow(lines);
    var sum := SumWindow(window);
    if sum.None? {
      return window, SumOverflow;
    }
    if |window| == 0 {
      return window, NoSamples;
    }
    TruncBetween(sum.value, |window|, -INT64_MAX - 1, INT64_MAX);
    average := Mean(TruncDiv(sum.value, |window|));
  }

  // The loop over the window, up to a partial sum that overflows.
  method SumWindow(window: seq<int64>) returns (sum: Option<int64>)
    ensures sum.Some? <==> SumDefined(window)
    ensures sum.Some? ==> sum.value == Sum(window)
  {
    var total: int64 := 0;
    for i := 0 to |window|
      invariant total == Sum(window[..i]) && forall j :: 0 <= j <= i ==> IsInt64(Sum(window[..j]))
    {
      assert window[..i + 1][..i] == window[..i];
      var next := Fit(total + window[i]);
      if next.None? {
        return None;
      }
      total := next.value;
    }
    assert window[..|window|] == window;
    sum := Some(total);
  }

  lemma {:induction false} SumBounds(s: seq<int>, lo: int, hi: int)
    requires forall i :: 0 <= i < |s| ==> lo <= s[i] <= hi
    ensures |s| * lo <= Sum(s) <= |s| * hi
  {
    if s != [] {
      var n := |s| - 1;
      SumBounds(s[..n], lo, hi);
      assert |s| * lo == n * lo + lo && |s| * hi == n * hi + hi;
    }
  }

  lemma TruncBetween(sum: int, n: int, lo: int, hi: int)
    requires n > 0 && n * lo <= sum <= n * hi
    ensures lo <= TruncDiv(sum, n) <= hi
  {
    if sum >= 0 {
      DivBetween(sum, n, lo, hi);
    } else {
      assert n * -hi == -(n * hi) && n * -lo == -(n * lo);
      DivBetween(-sum, n, -hi, -lo);
    }
  }

  lemma MulOrder(n: int, x: int, y: int)
    requires n > 0
    ensures n * x < n * y <==> x < y
  {
    assert n * y - n * x == n * (y - x);
  }

  lemma DivBetween(a: int, n: int, lo: int, hi: int)
    requires n > 0 && a >= 0 && n * lo <= a <= n * hi
    ensures lo <= a / n <= hi
  {
    var q := a / n;
    assert n * q <= a < n * (q + 1);
    MulOrder(n, lo, q + 1);
    MulOrder(n, q, hi + 1);
    assert n * (hi + 1) == n * hi + n;
  }

  /** The truncated average lies between any bounds of the window's values, so between their least
      and their greatest. */
  lemma AverageBetween(window: seq<int64>, lo: int, hi: int)
    requires window != [] && forall i :: 0 <= i < |window| ==> lo <= window[i] <= hi
    ensures lo <= TruncDiv(Sum(window), |window|) <= hi
  {
    SumBounds(window, lo, hi);
    TruncBetween(Sum(window), |window|, lo, hi);
  }

  /** Values up to a fifth of the int64 range cannot overflow the sum of a window. */
  lemma WindowSumFits(window: seq<int64>)
    requires |window| <= 5
    requires forall i :: 0 <= i < |window| ==> -0x1999_9999_9999_9999 <= window[i] <= 0x1999_9999_9999_9999
    ensures SumDefined(window)
  {
    forall i | 0 <= i <= |window|
      ensures IsInt64(Sum(window[..i]))
    {
      SumBounds(window[..i], -0x1999_9999_9999_9999, 0x1999_9999_9999_9999);
    }
  }

  lemma {:induction false} SumGrows(window: seq<int>, i: nat)
    requires i <= |window| && forall j :: 0 <= j < |window| ==> window[j] >= 0
    ensures 0 <= Sum(window[..i]) <= Sum(window)
    decreases |window|
  {
    if i == |window| {
      assert window[..i] == window;
      if i > 0 {
        SumGrows(window[..i - 1], 0);
      }
    } else {
      var n := |window| - 1;
      SumGrows(window[..n], i);
      assert window[..n][..i] == window[..i];
    }
  }

  lemma {:induction false} SumNegated(s: seq<int>)
    ensures Sum(Negated(s)) == -Sum(s)
  {
    if s != [] {
      var n := |s| - 1;
      SumNegated(s[..n]);
      assert Negated(s)[..n] == Negated(s[..n]);
    }
  }

  function Negated(s: seq<int>): seq<int> {
    seq(|s|, i requires 0 <= i < |s| => -s[i])
  }

  // What the samples above zero add, and what those below zero take away.
  function Gains(s: seq<int>): seq<int> {
    seq(|s|, i requires 0 <= i < |s| => if s[i] > 0 then s[i] else 0)
  }

  function Losses(s: seq<int>): seq<int> {
    seq(|s|, i requires 0 <= i < |s| => if s[i] < 0 then -s[i] else 0)
  }

  lemma {:induction false} SumSplit(s: seq<int>)
    ensures Sum(s) == Sum(Gains(s)) - Sum(Losses(s))
  {
    if s != [] {
      var n := |s| - 1;
      SumSplit(s[..n]);
      assert Gains(s)[..n] == Gains(s[..n]) && Losses(s)[..n] == Losses(s[..n]);
    }
  }

  lemma PartialBounds(s: seq<int>, i: nat)
    requires i <= |s|
    ensures -Sum(Losses(s)) <= Sum(s[..i]) <= Sum(Gains(s))
  {
    SumSplit(s[..i]);
    assert Gains(s)[..i] == Gains(s[..i]) && Losses(s)[..i] == Losses(s[..i]);
    SumGrows(Gains(s), i);
    SumGrows(Losses(s), i);
  }

  lemma OneSign(s: seq<int>)
    ensures (forall j :: 0 <= j < |s| ==> s[j] >= 0) ==> Sum(Gains(s)) == Sum(s) && Sum(Losses(s)) == 0
    ensures (forall j :: 0 <= j < |s| ==> s[j] <= 0) ==> Sum(Losses(s)) == -Sum(s) && Sum(Gains(s)) == 0
  {
    SumSplit(s);
    if forall j :: 0 <= j < |s| ==> s[j] >= 0 {
      assert Gains(s) == s;
    }
    if forall j :: 0 <= j < |s| ==> s[j] <= 0 {
      assert Losses(s) == Negated(s);
      SumNegated(s);
    }
  }

  /** Whatever the signs of the samples: the average is defined, in any order, if what they add and what
      they take away fit by themselves, and only if their total fits. Of samples of one sign, the total
      decides alone. */
  lemma SumDefinedExact(window: seq<int64>)
    ensures Sum(Gains(window)) <= INT64_MAX && Sum(Losses(window)) <= INT64_MAX + 1 ==> SumDefined(window)
    ensures SumDefined(window) ==> IsInt64(Sum(window))
    ensures (forall j :: 0 <= j < |window| ==> window[j] >= 0) || (forall j :: 0 <= j < |window| ==> window[j] <= 0) ==>
              (SumDefined(window) <==> IsInt64(Sum(window)))
  {
    assert window[..|window|] == window;
    OneSign(window);
    forall i | 0 <= i <= |window|
      ensures -Sum(Losses(window)) <= Sum(window[..i]) <= Sum(Gains(window))
    {
      PartialBounds(window, i);
    }
  }

  lemma TwoLogged(a: Poll, b: Poll)
    requires !LooksInitial(a) && !SameStamp(a, b)
    ensures Logged([a, b]) == [a, b]
  {
    LoggedSnoc([], a);
    LoggedSnoc([a], b);
    assert [] + [a] == [a] && [a] + [b] == [a, b];
  }

  lemma TwoSum(x: int, y: int)
    ensures Sum([x, y]) == x + y
  {
    assert [x, y][..1] == [x] && [x][..0] == [];
    assert Sum([x]) == x && Sum([x, y]) == Sum([x, y][..1]) + y;
  }

  // A stamp far before the epoch, read with a clock of the year 2023, and the stamp of that moment.
  const FAR_PAST := Poll(1_700_000_000 - 9_223_372_036_854, 0, Timespec(1_700_000_000, 775_807_000))
  const A_MICROSECOND_AGO := Poll(1_700_000_000, 0, Timespec(1_700_000_000, 1_000))

  /** Two polls, both in range, whose samples are written to the file and cannot be added. */
  lemma SumOverflows()
    ensures var polls := [FAR_PAST, A_MICROSECOND_AGO];
            && AllInRange(Logged(polls)) && Latencies(Logged(polls)) == [INT64_MAX, 1]
            && !SumDefined([INT64_MAX, 1])
  {
    var polls, window: seq<int64> := [FAR_PAST, A_MICROSECOND_AGO], [INT64_MAX, 1];
    TwoLogged(polls[0], polls[1]);
    assert WholeMicros(StampOf(FAR_PAST)) == -9_221_672_036_854_000_000;
    assert WholeMicros(FAR_PAST.now) == 1_700_000_000_775_807;
    TwoSum(INT64_MAX, 1);
    assert window[..2] == window;
    assert !IsInt64(Sum(window[..2]));
  }

  /** A whole session of the client: the polls are logged, the file is read, and the average printed is
      the truncated mean of the last five latencies of the runs of equal stamps, unless a sample or a
      partial sum is out of range. */
  method Session(polls: seq<Poll>) returns (done: nat, window: seq<int64>, average: Average)
    ensures done <= |polls| && (done == |polls| <==> AllInRange(Logged(polls)))
    ensures window == LastFive(Latencies(Logged(polls[..done])))
    ensures average.NoSamples? <==> window == []
    ensures average.SumOverflow? <==> !SumDefined(window)
    ensures average.Mean? ==> average.value == TruncDiv(Sum(window), |window|)
  {
    var log := new LatencyLog();
    done := log.LogAll(polls);
    FileRoundTrip(log.samples);
    window, average := AverageLatency(FileLines(log.samples));
  }
}
