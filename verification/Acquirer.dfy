/** acquiring_d: cutting a connection's byte stream into packets. */
module Acquirer {
  import opened Bytes
  import opened Packet
  import opened Seqs
  import opened Transport

  // The packets the acquirer offers for a stream; it stops for good at the first bad header.
  function Frames(stream: seq<byte>): seq<PacketBytes> {
    if |stream| < HEADER_SIZE || stream[0] != SYNC then []
    else
      var length := U16(stream[4], stream[5]);
      if length > MAX_DATA_SIZE || |stream| < HEADER_SIZE + length then []
      else [stream[..HEADER_SIZE + length]] + Frames(stream[HEADER_SIZE + length..])
  }

  // A packet the acquirer lets through: the type is not looked at here.
  predicate WellFormed(p: PacketBytes) {
    6 <= |p| <= 18 && p[0] == 0xAA && |p| == 6 + U16(p[4], p[5])
  }

  // A header that ends the connection.
  predicate BadHeader(s: seq<byte>) {
    |s| >= 6 && (s[0] != 0xAA || U16(s[4], s[5]) > 12)
  }

  // A beginning of a packet that has not arrived in full.
  predicate Truncated(s: seq<byte>) {
    |s| < 6 || (s[0] == 0xAA && U16(s[4], s[5]) <= 12 && |s| < 6 + U16(s[4], s[5]))
  }

  lemma FramesCons(p: PacketBytes, rest: seq<byte>)
    requires WellFormed(p)
    ensures Frames(p + rest) == [p] + Frames(rest)
  {
    var s := p + rest;
    assert s[..|p|] == p && s[|p|..] == rest;
    assert s[0] == p[0] && s[4] == p[4] && s[5] == p[5];
  }

  /** socketConnectionHandler: reads header then payload into one reused buffer, and hands each
      complete packet on. */
  method HandleConnection(inlet: Inlet<byte>) returns (offered: seq<PacketBytes>)
    requires ValidScript(inlet.script)
    modifies inlet
    ensures offered == Frames(Stream(old(inlet.script)))
  {
    offered := [];
    var buffer := new byte[PACKET_SIZE];
    ghost var all := Frames(Stream(inlet.script));
    while true
      invariant ValidScript(inlet.script) && fresh(buffer) && buffer.Length == PACKET_SIZE
      invariant offered + Frames(Stream(inlet.script)) == all
      decreases |Stream(inlet.script)|
    {
      ghost var stream := Stream(inlet.script);
      var length := ReceivePacket(inlet, buffer);
      if length == 0 {
        break;
      }
      assert stream == stream[..length] + stream[length..];
      FramesCons(stream[..length], stream[length..]);
      offered := offered + [buffer[..length]];
    }
  }

  /** One turn of that loop: the size of the packet now at the front of the buffer, or 0 when the
      connection is done. */
  method ReceivePacket(inlet: Inlet<byte>, buffer: array<byte>) returns (length: nat)
    requires ValidScript(inlet.script) && buffer.Length == PACKET_SIZE
    modifies inlet, buffer
    ensures ValidScript(inlet.script)
    ensures length == 0 ==> Frames(Stream(old(inlet.script))) == []
    ensures length > 0 ==> length <= |Stream(old(inlet.script))| && length <= PACKET_SIZE
    ensures length > 0 ==> buffer[..length] == Stream(old(inlet.script))[..length] && WellFormed(buffer[..length])
    ensures length > 0 ==> Stream(inlet.script) == Stream(old(inlet.script))[length..]
  {
    ghost var stream := Stream(inlet.script);
    var n := SocketRecv(inlet, buffer, 0, HEADER_SIZE);
    if n <= 0 {
      return 0;
    }
    if buffer[0] != SYNC {
      return 0;
    }
    var size := U16(buffer[4], buffer[5]);
    if size > MAX_DATA_SIZE {
      return 0;
    }
    if size > 0 {
      n := SocketRecv(inlet, buffer, HEADER_SIZE, size);
      if n <= 0 {
        return 0;
      }
    }
    length := HEADER_SIZE + size;
    assert buffer[..length] == stream[..length];
  }

  lemma {:induction false} FramesOfPackets(ps: seq<PacketBytes>, rest: seq<byte>)
    requires forall p :: p in ps ==> WellFormed(p)
    ensures Frames(Flatten(ps) + rest) == ps + Frames(rest)
  {
    if ps == [] {
      assert Flatten(ps) + rest == rest;
    } else {
      assert ps[0] in ps;
      FramesOfPackets(ps[1..], rest);
      FlattenCons(ps, rest);
      FramesCons(ps[0], Flatten(ps[1..]) + rest);
      HeadTail(ps, Frames(rest));
    }
  }

  /** Well-formed packets followed by a truncated one are offered whole and in order, and nothing
      else is; the same when they are followed by a bad header and anything at all. */
  lemma FramingExact(ps: seq<PacketBytes>, rest: seq<byte>)
    requires forall p :: p in ps ==> WellFormed(p)
    requires Truncated(rest) || BadHeader(rest)
    ensures Frames(Flatten(ps) + rest) == ps
  {
    FramesOfPackets(ps, rest);
  }

  /** Every stream is of that form: the offered packets are well formed, they are its beginning, and
      what is left is a truncated packet or starts with a bad header. */
  lemma {:induction false} FramingTotal(s: seq<byte>) returns (rest: seq<byte>)
    ensures s == Flatten(Frames(s)) + rest
    ensures Truncated(rest) || BadHeader(rest)
    ensures forall p :: p in Frames(s) ==> WellFormed(p)
    decreases |s|
  {
    if Frames(s) == [] {
      rest := s;
    } else {
      var n := HEADER_SIZE + U16(s[4], s[5]);
      rest := FramingTotal(s[n..]);
      assert s == s[..n] + s[n..];
      assert Frames(s)[1..] == Frames(s[n..]);
    }
  }

  /** More bytes never change a packet already offered. */
  lemma FramesGrow(s: seq<byte>, more: seq<byte>)
    ensures Frames(s) <= Frames(s + more)
  {
    var rest := FramingTotal(s);
    assert s + more == Flatten(Frames(s)) + (rest + more);
    FramesOfPackets(Frames(s), rest + more);
  }

  /** After a bad header nothing that arrives is offered. */
  lemma NothingAfterBadHeader(ps: seq<PacketBytes>, bad: seq<byte>, more: seq<byte>)
    requires forall p :: p in ps ==> WellFormed(p)
    requires BadHeader(bad)
    ensures Frames(Flatten(ps) + bad + more) == ps
  {
    assert Flatten(ps) + bad + more == Flatten(ps) + (bad + more);
    FramesOfPackets(ps, bad + more);
  }

  /** What the clients build is well formed, so by `FramingExact` it arrives as it was built. */
  lemma BuiltPacketsWellFormed(code: byte, id: uint16, payload: seq<byte>)
    requires |payload| <= MAX_DATA_SIZE
    ensures WellFormed(EncodePacket(code, id, payload))
  {
    HeaderOf(code, id, payload);
  }

  // ---- from the client's buffers to the acquirer's offers ----

  // What a client wants sent.
  datatype Outgoing = Outgoing(code: byte, id: uint16, payload: seq<byte>)

  predicate Fits(o: Outgoing) {
    |o.payload| <= MAX_DATA_SIZE
  }

  function Built(os: seq<Outgoing>): seq<PacketBytes>
    requires forall i :: 0 <= i < |os| ==> Fits(os[i])
  {
    seq(|os|, i requires 0 <= i < |os| => assert Fits(os[i]); EncodePacket(os[i].code, os[i].id, os[i].payload))
  }

  method SendPacket(outlet: Outlet<byte>, o: Outgoing, packet: array<byte>) returns (ok: bool)
    requires Fits(o) && packet.Length == PACKET_SIZE
    modifies outlet, packet
    ensures var p, room := EncodePacket(o.code, o.id, o.payload), Capacity(old(outlet.script));
            && (ok <==> |p| <= room)
            && outlet.wire == old(outlet.wire) + (if ok then p else p[..room])
            && outlet.script == Rest(old(outlet.script), |p|)
  {
    var data := new byte[|o.payload|](i requires 0 <= i < |o.payload| => o.payload[i]);
    assert data[..|o.payload|] == o.payload;
    var size := BuildPacket(o.code, o.id, data, |o.payload|, packet);
    ok := SendAll(outlet, packet[..size]);
    ghost var p := EncodePacket(o.code, o.id, o.payload);
    assert p[..|p|] == p;
  }

  /** A client's loop: build each packet in one buffer, send it, and leave at the first failure. */
  method SendPackets(outlet: Outlet<byte>, os: seq<Outgoing>) returns (sent: nat)
    requires forall i :: 0 <= i < |os| ==> Fits(os[i])
    modifies outlet
    ensures sent == Whole(old(outlet.script), Built(os))
    ensures outlet.wire == old(outlet.wire) + Taken(old(outlet.script), Built(os))
  {
    ghost var script, wire, all := outlet.script, outlet.wire, Built(os);
    var packet := new byte[PACKET_SIZE];
    sent := 0;
    SentStart(script, wire, all);
    while sent < |os|
      invariant sent <= |os| && SentSoFar(script, wire, outlet.script, outlet.wire, all, sent)
    {
      SentNext(script, wire, outlet.script, outlet.wire, all, sent);
      var ok := SendPacket(outlet, os[sent], packet);
      if !ok {
        return;
      }
      sent := sent + 1;
    }
    SentEnd(script, wire, outlet.script, outlet.wire, all);
  }

  lemma BeginningTruncated(p: PacketBytes, part: seq<byte>)
    requires WellFormed(p) && part < p
    ensures Truncated(part)
  {
  }

  /** Whatever a broken connection lets through of well-formed packets is framed to exactly those that
      went out whole. */
  lemma TakenFrames(sends: seq<SendEvent>, ps: seq<PacketBytes>)
    requires forall p :: p in ps ==> WellFormed(p)
    ensures Frames(Taken(sends, ps)) == ps[..Whole(sends, ps)]
  {
    var part := TakenShape(sends, ps);
    var k := Whole(sends, ps);
    if k < |ps| {
      BeginningTruncated(ps[k], part);
    }
    FramingExact(ps[..k], part);
  }

  function BytesOf(o: Outgoing): PacketBytes
    requires Fits(o)
  {
    [0xAA, o.code, o.id % 256, o.id / 256, |o.payload|, 0] + o.payload
  }

  lemma BuiltBytes(os: seq<Outgoing>)
    requires forall i :: 0 <= i < |os| ==> Fits(os[i])
    ensures forall i :: 0 <= i < |os| ==> Built(os)[i] == BytesOf(os[i])
    ensures forall p :: p in Built(os) ==> WellFormed(p)
  {
    forall p | p in Built(os)
      ensures WellFormed(p)
    {
      var i :| 0 <= i < |os| && Built(os)[i] == p;
      BuiltPacketsWellFormed(os[i].code, os[i].id, os[i].payload);
    }
  }

  /** End to end: built by the client, sent in any pieces until any failure, received in any other
      pieces; the acquirer offers exactly the packets that went out whole, in order. */
  method Transfer(os: seq<Outgoing>, sends: seq<SendEvent>, receives: seq<RecvEvent<byte>>)
    returns (sent: nat, offered: seq<PacketBytes>)
    requires forall i :: 0 <= i < |os| ==> Fits(os[i])
    requires ValidScript(receives) && Stream(receives) == Taken(sends, Built(os))
    ensures sent == Whole(sends, Built(os)) && offered == Built(os)[..sent]
    ensures forall i :: 0 <= i < sent ==> offered[i] == BytesOf(os[i])
  {
    var outlet := new Outlet<byte>(sends, []);
    sent := SendPackets(outlet, os);
    assert outlet.wire == Stream(receives);
    var inlet := new Inlet<byte>(receives);
    offered := HandleConnection(inlet);
    BuiltBytes(os);
    TakenFrames(sends, Built(os));
  }
}
