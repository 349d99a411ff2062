/**
 Handing a connection over to another process: a head of two big-endian 32-bit numbers, then the
 bytes they announce, read back from a stream that may split them anywhere.
 */
module Transfer {
  import opened Numbers

  newtype byte = x: int | 0 <= x < 256

  /** What a failed exchange of identifiers reports. */
  const TRANSFER_ERR := 0

  /** A conversion to 32 unsigned bits. */
  function Uint32(x: int): (r: nat)
    ensures r < TWO_32
  {
    x % TWO_32
  }

  function PutUint32(x: nat): (b: seq<byte>)
    requires x < TWO_32
    ensures |b| == 4
  {
    [(x / 0x100_0000) as byte, (x / 0x1_0000 % 0x100) as byte, (x / 0x100 % 0x100) as byte, (x % 0x100) as byte]
  }

  function GetUint32(b: seq<byte>): (x: nat)
    requires |b| >= 4
    ensures x < TWO_32
  {
    b[0] as int * 0x100_0000 + b[1] as int * 0x1_0000 + b[2] as int * 0x100 + b[3] as int
  }

  lemma Uint32RoundTrip(x: nat, rest: seq<byte>)
    requires x < TWO_32
    ensures GetUint32(PutUint32(x) + rest) == x
  {
    var hi := x / 0x1_0000;
    assert hi / 0x100 == x / 0x100_0000;
    assert hi == hi / 0x100 * 0x100 + hi % 0x100;
  }

  // ---- what is sent ----

  function BuildHead(s1: int, s2: int): (b: seq<byte>)
    ensures |b| == 8
  {
    PutUint32(Uint32(s1)) + PutUint32(Uint32(s2))
  }

  /** The eight bytes of a head by position: two numbers, the most significant byte of each first. */
  lemma HeadByPosition(s1: int, s2: int)
    ensures var b := BuildHead(s1, s2);
            && b[0] as int * 0x100_0000 + b[1] as int * 0x1_0000 + b[2] as int * 0x100 + b[3] as int == s1 % TWO_32
            && b[4] as int * 0x100_0000 + b[5] as int * 0x1_0000 + b[6] as int * 0x100 + b[7] as int == s2 % TWO_32
  {
    Uint32RoundTrip(Uint32(s1), PutUint32(Uint32(s2)));
    Uint32RoundTrip(Uint32(s2), []);
  }

  /** Bytes read but not processed yet, and the state of the TLS session. */
  function ReadMessage(data: seq<byte>, tls: seq<byte>): seq<byte> {
    BuildHead(|data|, |tls|) + (data + tls)
  }

  /** Bytes to be written, and the connection they are for. */
  function WriteMessage(id: int, buf: seq<byte>): seq<byte> {
    BuildHead(|buf|, id) + buf
  }

  function IdMessage(id: nat): seq<byte> { PutUint32(Uint32(id)) }

  // ---- what is received ----

  datatype Received<T> = Failed | Got(value: T)

  class Pipe {
    /** The bytes that the peer sent before it closed, less those already read. */
    var unread: seq<byte>
    /** How many bytes the system offers to each read. */
    var offers: seq<nat>

    constructor (sent: seq<byte>, splits: seq<nat>)
      ensures unread == sent
    {
      unread, offers := sent, splits;
    }

    /** One read into the buffer from an offset on: some bytes, at least one, or an error at the end. */
    method Read(b: array<byte>, off: nat) returns (n: nat, ok: bool)
      requires off < b.Length
      modifies this, b
      ensures ok <==> |old(unread)| > 0
      ensures ok ==> 0 < n <= b.Length - off && n <= |old(unread)| && unread == old(unread)[n..]
      ensures ok ==> b[..off + n] == old(b[..off]) + old(unread)[..n]
      ensures !ok ==> unread == old(unread) && b[..] == old(b[..])
    {
      if unread == [] {
        return 0, false;
      }
      n := if offers == [] || offers[0] == 0 then 1 else offers[0];
      offers := if offers == [] then [] else offers[1..];
      if n > |unread| {
        n := |unread|;
      }
      if n > b.Length - off {
        n := b.Length - off;
      }
      forall i | 0 <= i < n {
        b[off + i] := unread[i];
      }
      unread := unread[n..];
      ok := true;
    }

    /** However the bytes arrive, exactly the first `size` of them are received. */
    method RecvMsg(size: nat) returns (r: Received<seq<byte>>)
      modifies this
      ensures |old(unread)| >= size ==> r == Got(old(unread)[..size]) && unread == old(unread)[size..]
      ensures |old(unread)| < size ==> r == Failed && unread == []
    {
      if size == 0 {
        return Got([]);
      }
      var b := new byte[size];
      var off := 0;
      while off != size
        invariant 0 <= off <= size && off <= |old(unread)|
        invariant unread == old(unread)[off..] && b[..off] == old(unread)[..off]
        decreases size - off
      {
        var n, ok := Read(b, off);
        if !ok {
          return Failed;
        }
        off := off + n;
      }
      assert b[..] == b[..size];
      return Got(b[..]);
    }

    method RecvHead() returns (r: Received<(nat, nat)>)
      modifies this
      ensures |old(unread)| >= 8 ==> r == Got(HeadOf(old(unread))) && unread == old(unread)[8..]
      ensures |old(unread)| < 8 ==> r == Failed
    {
      var m := RecvMsg(8);
      if m.Failed? {
        return Failed;
      }
      return Got((GetUint32(m.value), GetUint32(m.value[4..])));
    }

    method ReadRecvData() returns (r: Received<(seq<byte>, seq<byte>)>)
      modifies this
      ensures r == (var p := ParseRead(old(unread)); if p.Failed? then Failed else Got((p.value.0, p.value.1)))
      ensures r.Got? ==> unread == ParseRead(old(unread)).value.2
    {
      var head := RecvHead();
      if head.Failed? {
        return Failed;
      }
      var (dataSize, tlsSize) := head.value;
      var m := RecvMsg(dataSize + tlsSize);
      if m.Failed? {
        return Failed;
      }
      ghost var b, n, e := old(unread), 8 + dataSize, 8 + dataSize + tlsSize;
      assert m.value == b[8..e] && unread == b[e..];
      assert b[8..e][..dataSize] == b[8..n] && b[8..e][dataSize..] == b[n..e];
      return Got((m.value[..dataSize], m.value[dataSize..]));
    }

    method WriteRecvData() returns (r: Received<(nat, seq<byte>)>)
      modifies this
      ensures r == (var p := ParseWrite(old(unread)); if p.Failed? then Failed else Got((p.value.0, p.value.1)))
      ensures r.Got? ==> unread == ParseWrite(old(unread)).value.2
    {
      var head := RecvHead();
      if head.Failed? {
        return Failed;
      }
      var (size, id) := head.value;
      var m := RecvMsg(size);
      if m.Failed? {
        return Failed;
      }
      ghost var b, e := old(unread), 8 + size;
      assert m.value == b[8..e] && unread == b[e..];
      return Got((id, m.value));
    }

    /** The identifier at the front of the stream. An error is reported as a number too. */
    method RecvId() returns (id: nat)
      modifies this
      ensures |old(unread)| >= 4 ==> id == GetUint32(old(unread)) && unread == old(unread)[4..]
      ensures |old(unread)| < 4 ==> id == TRANSFER_ERR
    {
      var m := RecvMsg(4);
      if m.Failed? {
        return TRANSFER_ERR;
      }
      return GetUint32(m.value);
    }
  }

  function HeadOf(b: seq<byte>): (nat, nat)
    requires |b| >= 8
  {
    (GetUint32(b), GetUint32(b[4..]))
  }

  /** The message at the front of a stream, and the rest of the stream. */
  function ParseRead(b: seq<byte>): Received<(seq<byte>, seq<byte>, seq<byte>)> {
    if |b| < 8 then Failed
    else
      var (s1, s2) := HeadOf(b);
      if |b| < 8 + s1 + s2 then Failed else Got((b[8..8 + s1], b[8 + s1..8 + s1 + s2], b[8 + s1 + s2..]))
  }

  function ParseWrite(b: seq<byte>): Received<(nat, seq<byte>, seq<byte>)> {
    if |b| < 8 then Failed
    else
      var (s, id) := HeadOf(b);
      if |b| < 8 + s then Failed else Got((id, b[8..8 + s], b[8 + s..]))
  }

  // ---- what arrives is what was sent ----

  lemma HeadRoundTrip(s1: int, s2: int, rest: seq<byte>)
    ensures HeadOf(BuildHead(s1, s2) + rest) == (Uint32(s1), Uint32(s2))
  {
    var b1, b2 := PutUint32(Uint32(s1)), PutUint32(Uint32(s2));
    Uint32RoundTrip(Uint32(s1), b2 + rest);
    Uint32RoundTrip(Uint32(s2), rest);
    assert BuildHead(s1, s2) + rest == b1 + (b2 + rest);
    assert (BuildHead(s1, s2) + rest)[4..] == b2 + rest;
  }

  lemma SmallIsKept(x: int)
    ensures Uint32(x) == x <==> 0 <= x < TWO_32
  {}

  /** The receiver gets exactly the data and TLS bytes, and leaves what follows, if and only if both
      lengths fit in 32 bits. */
  lemma ReadRoundTrip(data: seq<byte>, tls: seq<byte>, rest: seq<byte>)
    ensures ParseRead(ReadMessage(data, tls) + rest) == Got((data, tls, rest)) <==> |data| < TWO_32 && |tls| < TWO_32
  {
    hide GetUint32, PutUint32, Uint32;
    var b := ReadMessage(data, tls) + rest;
    assert b == BuildHead(|data|, |tls|) + (data + tls + rest);
    HeadRoundTrip(|data|, |tls|, data + tls + rest);
    SmallIsKept(|data|);
    SmallIsKept(|tls|);
    assert b[8..] == data + tls + rest;
    if |data| < TWO_32 && |tls| < TWO_32 {
      var n, m := 8 + |data|, 8 + |data| + |tls|;
      assert b[8..n] == data && b[n..m] == tls && b[m..] == rest;
    }
  }

  /** The same for bytes to be written: their length and the identifier must fit. */
  lemma WriteRoundTrip(id: int, buf: seq<byte>, rest: seq<byte>)
    ensures var p := ParseWrite(WriteMessage(id, buf) + rest);
            p.Got? && p.value.0 == id && p.value.1 == buf && p.value.2 == rest
            <==> |buf| < TWO_32 && 0 <= id < TWO_32
  {
    hide GetUint32, PutUint32, Uint32;
    var b := WriteMessage(id, buf) + rest;
    assert b == BuildHead(|buf|, id) + (buf + rest);
    HeadRoundTrip(|buf|, id, buf + rest);
    SmallIsKept(|buf|);
    SmallIsKept(id);
    assert b[8..] == buf + rest;
    if |buf| < TWO_32 {
      assert b[8..8 + |buf|] == buf && b[8 + |buf|..] == rest;
    }
  }

  /** An identifier comes back if and only if it fits in 32 bits. */
  lemma IdRoundTrip(id: nat, rest: seq<byte>)
    ensures GetUint32(IdMessage(id) + rest) == id <==> id < TWO_32
  {
    Uint32RoundTrip(Uint32(id), rest);
  }

  /** From one process to the other, however the stream is cut into reads: the receiver gets exactly
      what was sent and leaves what follows, if and only if both lengths fit in 32 bits. */
  method HandOverRead(data: seq<byte>, tls: seq<byte>, rest: seq<byte>, splits: seq<nat>)
    returns (r: Received<(seq<byte>, seq<byte>)>, left: seq<byte>)
    ensures r == Got((data, tls)) && left == rest <==> |data| < TWO_32 && |tls| < TWO_32
  {
    hide ReadMessage, ParseRead;
    var pipe := new Pipe(ReadMessage(data, tls) + rest, splits);
    r := pipe.ReadRecvData();
    left := pipe.unread;
    ReadRoundTrip(data, tls, rest);
  }

  method HandOverWrite(id: int, buf: seq<byte>, rest: seq<byte>, splits: seq<nat>)
    returns (r: Received<(nat, seq<byte>)>, left: seq<byte>)
    ensures r.Got? && r.value.0 == id && r.value.1 == buf && left == rest <==> |buf| < TWO_32 && 0 <= id < TWO_32
  {
    hide WriteMessage, ParseWrite;
    var pipe := new Pipe(WriteMessage(id, buf) + rest, splits);
    r := pipe.WriteRecvData();
    left := pipe.unread;
    WriteRoundTrip(id, buf, rest);
  }

  /** An identifier on its way: it arrives if and only if it fits in 32 bits, and the receiver can tell
      it from an error if and only if it is not a multiple of 2^32. */
  method HandOverId(id: nat, rest: seq<byte>, splits: seq<nat>) returns (received: nat, left: seq<byte>)
    ensures left == rest
    ensures received == id <==> id < TWO_32
    ensures received != TRANSFER_ERR <==> id % TWO_32 != 0
  {
    var pipe := new Pipe(IdMessage(id) + rest, splits);
    received := pipe.RecvId();
    left := pipe.unread;
    Uint32RoundTrip(Uint32(id), rest);
  }
}
