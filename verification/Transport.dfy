/** Sockets and files as the programs meet them: transfers may be short, interrupted or broken.

    A script lists what the future calls will meet; every fragmentation of a stream is a script.
    An exhausted receive script is the peer's orderly close. */
module Transport {
  import opened Seqs

  datatype RecvEvent<T> = Chunk(data: seq<T>) | Interrupted | Broken

  ghost predicate ValidScript<T>(script: seq<RecvEvent<T>>) {
    forall e :: e in script && e.Chunk? ==> e.data != []
  }

  // Everything that can still be read.
  function Stream<T>(script: seq<RecvEvent<T>>): seq<T> {
    if script == [] || script[0].Broken? then []
    else if script[0].Chunk? then script[0].data + Stream(script[1..])
    else Stream(script[1..])
  }

  // Whether the stream ends in an error rather than a close.
  predicate Fails<T>(script: seq<RecvEvent<T>>) {
    script != [] && (script[0].Broken? || Fails(script[1..]))
  }

  function Size<T>(script: seq<RecvEvent<T>>): nat {
    if script == [] then 0
    else 1 + (if script[0].Chunk? then |script[0].data| else 0) + Size(script[1..])
  }

  class Inlet<T> {
    var script: seq<RecvEvent<T>>

    constructor (script: seq<RecvEvent<T>>)
      ensures this.script == script
    {
      this.script := script;
    }

    /** recv: -1 is an error (`interrupted` tells EINTR), 0 a close, and a positive result any
        non-empty beginning of what is left. */
    method Recv(length: nat) returns (n: int, interrupted: bool, data: seq<T>)
      requires length > 0 && ValidScript(script)
      modifies this
      ensures ValidScript(script) && -1 <= n <= length
      ensures n > 0 ==> n <= |Stream(old(script))| && data == Stream(old(script))[..n]
      ensures n > 0 ==> Stream(script) == Stream(old(script))[n..]
      ensures n > 0 || interrupted ==> Fails(script) == Fails(old(script)) && Size(script) < Size(old(script))
      ensures interrupted ==> n == -1 && Stream(script) == Stream(old(script))
      ensures n <= 0 && !interrupted ==> Stream(old(script)) == [] && (n == 0 <==> !Fails(old(script)))
    {
      interrupted, data := false, [];
      if script == [] {
        return 0, false, [];
      }
      ghost var before := script;
      var event := script[0];
      script := script[1..];
      match event
      case Interrupted => n, interrupted := -1, true;
      case Broken => n := -1;
      case Chunk(d) =>
        assert event in before;
        if |d| <= length {
          n, data := |d|, d;
        } else {
          n, data := length, d[..length];
          script := [Chunk(d[length..])] + script;
          assert script[1..] == before[1..];
          assert Stream(before) == d[..length] + (d[length..] + Stream(before[1..]));
        }
    }
  }

  /** One recv straight into the buffer, from `start` on. */
  method RecvInto<T>(inlet: Inlet<T>, buffer: array<T>, start: nat, length: nat) returns (n: int, interrupted: bool)
    requires length > 0 && start + length <= buffer.Length && ValidScript(inlet.script)
    modifies inlet, buffer
    ensures ValidScript(inlet.script) && -1 <= n <= length
    ensures n > 0 ==> n <= |Stream(old(inlet.script))| && Stream(inlet.script) == Stream(old(inlet.script))[n..]
    ensures forall i :: 0 <= i < buffer.Length ==>
              buffer[i] == if start <= i < start + n then Stream(old(inlet.script))[i - start] else old(buffer[i])
    ensures n > 0 || interrupted ==>
              Fails(inlet.script) == Fails(old(inlet.script)) && Size(inlet.script) < Size(old(inlet.script))
    ensures interrupted ==> n == -1 && Stream(inlet.script) == Stream(old(inlet.script))
    ensures n <= 0 && !interrupted ==> Stream(old(inlet.script)) == [] && (n == 0 <==> !Fails(old(inlet.script)))
  {
    var data;
    n, interrupted, data := inlet.Recv(length);
    if n > 0 {
      forall i | 0 <= i < n {
        buffer[start + i] := data[i];
      }
    }
  }

  /** socket_recv: fills `length` cells of the buffer or reports a close (0) or an error (-1).
      The result depends on the stream alone, not on how it is cut. */
  method SocketRecv<T>(inlet: Inlet<T>, buffer: array<T>, start: nat, length: nat) returns (n: int)
    requires length > 0 && start + length <= buffer.Length && ValidScript(inlet.script)
    modifies inlet, buffer
    ensures ValidScript(inlet.script)
    ensures var stream := Stream(old(inlet.script));
            n == if |stream| >= length then length else if Fails(old(inlet.script)) then -1 else 0
    ensures n == length ==> forall i :: 0 <= i < buffer.Length ==>
              buffer[i] == if start <= i < start + length then Stream(old(inlet.script))[i - start] else old(buffer[i])
    ensures n == length ==> Stream(inlet.script) == Stream(old(inlet.script))[length..]
    ensures n == length ==> Fails(inlet.script) == Fails(old(inlet.script))
  {
    ghost var stream, failing := Stream(inlet.script), Fails(inlet.script);
    var total := 0;
    while total < length
      invariant 0 <= total <= length && total <= |stream| && ValidScript(inlet.script)
      invariant Stream(inlet.script) == stream[total..] && Fails(inlet.script) == failing
      invariant forall i :: 0 <= i < buffer.Length ==>
                  buffer[i] == if start <= i < start + total then stream[i - start] else old(buffer[i])
      decreases Size(inlet.script)
    {
      var got, interrupted := RecvInto(inlet, buffer, start + total, length - total);
      if got == 0 {
        return 0;
      }
      if got < 0 {
        if interrupted {
          continue;
        }
        return -1;
      }
      DropDrop(stream, total, got);
      total := total + got;
    }
    n := total;
  }

  lemma DropDrop<T>(s: seq<T>, k: nat, n: nat)
    requires k + n <= |s|
    ensures s[k..][n..] == s[k + n..]
  {
  }

  // ---- sending and writing ----

  datatype SendEvent = Accept(count: nat) | SendInterrupted | SendBroken

  // How much of one buffer the script takes before a call fails or returns zero.
  function Capacity(script: seq<SendEvent>): nat {
    if script == [] then 0
    else match script[0]
      case Accept(k) => if k == 0 then 0 else k + Capacity(script[1..])
      case SendInterrupted => Capacity(script[1..])
      case SendBroken => 0
  }

  function Min(a: nat, b: nat): nat {
    if a < b then a else b
  }

  // The script left when all of `n` elements went out, or the call for the rest of them failed.
  function Rest(script: seq<SendEvent>, n: nat): seq<SendEvent> {
    if n == 0 || script == [] then script
    else match script[0]
      case Accept(k) => if k == 0 || k >= n then script[1..] else Rest(script[1..], n - k)
      case SendInterrupted => Rest(script[1..], n)
      case SendBroken => script[1..]
  }

  class Outlet<T> {
    var script: seq<SendEvent>
    var wire: seq<T>

    constructor (script: seq<SendEvent>, wire: seq<T>)
      ensures this.script == script && this.wire == wire
    {
      this.script, this.wire := script, wire;
    }

    /** send and write: -1 is an error (`interrupted` tells EINTR), otherwise the number of
        elements that went out, which may be any number the other side takes. */
    method Send(data: seq<T>) returns (n: int, interrupted: bool)
      requires data != []
      modifies this
      ensures -1 <= n <= |data| && wire == old(wire) + (if n > 0 then data[..n] else [])
      ensures n > 0 || interrupted ==> |script| < |old(script)|
      ensures interrupted ==> n == -1 && Capacity(script) == Capacity(old(script))
      ensures interrupted ==> Rest(script, |data|) == Rest(old(script), |data|)
      ensures n > 0 ==> n == |data| <= Capacity(old(script)) || n + Capacity(script) == Capacity(old(script))
      ensures n > 0 ==> Rest(script, |data| - n) == Rest(old(script), |data|)
      ensures n <= 0 && !interrupted ==> Capacity(old(script)) == 0 && script == Rest(old(script), |data|)
    {
      interrupted := false;
      if script == [] {
        return -1, false;
      }
      var event := script[0];
      script := script[1..];
      match event
      case SendInterrupted => n, interrupted := -1, true;
      case SendBroken => n := -1;
      case Accept(k) =>
        n := Min(k, |data|);
        wire := wire + data[..n];
    }
  }

  lemma TakeMore<T>(data: seq<T>, total: nat, n: nat)
    requires total + n <= |data|
    ensures data[..total] + data[total..][..n] == data[..total + n]
  {
  }

  /** send_all and write_all: everything goes out, in order and once, exactly when the other side
      takes that much; otherwise what went out is the beginning that it did take. */
  method SendAll<T>(outlet: Outlet<T>, data: seq<T>) returns (ok: bool)
    modifies outlet
    ensures ok <==> |data| <= Capacity(old(outlet.script))
    ensures outlet.wire == old(outlet.wire) + data[..Min(|data|, Capacity(old(outlet.script)))]
    ensures outlet.script == Rest(old(outlet.script), |data|)
  {
    var total := 0;
    ghost var capacity := Capacity(outlet.script);
    while total < |data|
      invariant 0 <= total <= |data|
      invariant total <= capacity && outlet.wire == old(outlet.wire) + data[..total]
      invariant total < |data| ==> total + Capacity(outlet.script) == capacity
      invariant Rest(outlet.script, |data| - total) == Rest(old(outlet.script), |data|)
      decreases |outlet.script|
    {
      var n, interrupted := outlet.Send(data[total..]);
      if n < 0 {
        if interrupted {
          continue;
        }
        return false;
      }
      if n == 0 {
        return false;
      }
      TakeMore(data, total, n);
      total := total + n;
    }
    assert data[..total] == data;
    ok := true;
  }

  // ---- several buffers, one after the other, until one fails ----

  // How many of the buffers go out whole.
  function Whole<T>(script: seq<SendEvent>, pieces: seq<seq<T>>): (n: nat)
    ensures n <= |pieces|
    decreases |pieces|
  {
    if pieces == [] || |pieces[0]| > Capacity(script) then 0
    else 1 + Whole(Rest(script, |pieces[0]|), pieces[1..])
  }

  // Everything that goes out.
  function Taken<T>(script: seq<SendEvent>, pieces: seq<seq<T>>): seq<T>
    decreases |pieces|
  {
    if pieces == [] then []
    else if |pieces[0]| > Capacity(script) then pieces[0][..Capacity(script)]
    else pieces[0] + Taken(Rest(script, |pieces[0]|), pieces[1..])
  }

  // The first `i` buffers have gone out whole: from `script` and `wire` on, only the others are left.
  ghost predicate SentSoFar<T>(
    script0: seq<SendEvent>, wire0: seq<T>, script: seq<SendEvent>, wire: seq<T>, pieces: seq<seq<T>>, i: nat)
  {
    && i <= |pieces| && Whole(script0, pieces) == i + Whole(script, pieces[i..])
    && wire0 + Taken(script0, pieces) == wire + Taken(script, pieces[i..])
  }

  lemma SentStart<T>(script: seq<SendEvent>, wire: seq<T>, pieces: seq<seq<T>>)
    ensures SentSoFar(script, wire, script, wire, pieces, 0)
  {
    assert pieces[0..] == pieces;
  }

  lemma SentNext<T>(
    script0: seq<SendEvent>, wire0: seq<T>, script: seq<SendEvent>, wire: seq<T>, pieces: seq<seq<T>>, i: nat)
    requires SentSoFar(script0, wire0, script, wire, pieces, i) && i < |pieces|
    ensures var p, room := pieces[i], Capacity(script);
            if |p| <= room then SentSoFar(script0, wire0, Rest(script, |p|), wire + p, pieces, i + 1)
            else Whole(script0, pieces) == i && wire0 + Taken(script0, pieces) == wire + p[..room]
  {
    assert pieces[i..][0] == pieces[i] && pieces[i..][1..] == pieces[i + 1..];
  }

  lemma SentEnd<T>(script0: seq<SendEvent>, wire0: seq<T>, script: seq<SendEvent>, wire: seq<T>, pieces: seq<seq<T>>)
    requires SentSoFar(script0, wire0, script, wire, pieces, |pieces|)
    ensures Whole(script0, pieces) == |pieces| && wire == wire0 + Taken(script0, pieces)
  {
    assert pieces[|pieces|..] == [];
  }

  /** What goes out is the whole buffers followed by a proper beginning of the first that failed;
      it is everything exactly if none failed. */
  lemma {:induction false} TakenShape<T>(script: seq<SendEvent>, pieces: seq<seq<T>>) returns (part: seq<T>)
    ensures var k := Whole(script, pieces);
            && Taken(script, pieces) == Flatten(pieces[..k]) + part
            && (k == |pieces| ==> part == [])
            && (k < |pieces| ==> part < pieces[k])
    decreases |pieces|
  {
    if pieces == [] || |pieces[0]| > Capacity(script) {
      part := Taken(script, pieces);
      assert Flatten(pieces[..0]) == [];
    } else {
      part := TakenShape(Rest(script, |pieces[0]|), pieces[1..]);
      var k := Whole(script, pieces);
      assert pieces[..k][1..] == pieces[1..][..k - 1];
      FlattenCons(pieces[..k], part);
    }
  }
}
