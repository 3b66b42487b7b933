/** The codecs at work on a byte buffer (cratetorrent/src/peer/codec.rs). */
module CodecBuffers {
  import opened Wrappers
  import opened Blocks
  import opened Codec

  /** The bytes not consumed yet. Reading past them is a panic, here a precondition. */
  class BytesMut {
    var data: seq<byte>

    constructor ()
      ensures data == []
    {
      data := [];
    }

    method PutU8(b: byte)
      modifies this
      ensures data == old(data) + [b]
    {
      data := data + [b];
    }

    method PutU32(n: nat)
      modifies this
      ensures data == old(data) + U32Bytes(n)
    {
      data := data + U32Bytes(n);
    }

    method Extend(slice: seq<byte>)
      modifies this
      ensures data == old(data) + slice
    {
      data := data + slice;
    }

    method Advance(n: nat)
      requires n <= |data|
      modifies this
      ensures data == old(data)[n..]
    {
      data := data[n..];
    }

    method GetU8() returns (b: byte)
      requires |data| >= 1
      modifies this
      ensures b == old(data)[0] && data == old(data)[1..]
    {
      b := data[0];
      data := data[1..];
    }

    method GetU32() returns (n: nat)
      requires |data| >= 4
      modifies this
      ensures n == U32Of(old(data)) && data == old(data)[4..]
    {
      n := U32Of(data);
      data := data[4..];
    }

    method CopyToSlice(n: nat) returns (slice: seq<byte>)
      requires n <= |data|
      modifies this
      ensures slice == old(data)[..n] && data == old(data)[n..]
    {
      slice := data[..n];
      data := data[n..];
    }
  }

  method EncodeHandshakeTo(h: Handshake, buf: BytesMut)
    requires h.Valid()
    modifies buf
    ensures buf.data == old(buf.data) + EncodeHandshake(h)
  {
    buf.PutU8(19);
    buf.Extend(h.prot);
    buf.Extend(h.reserved);
    buf.Extend(h.infoHash);
    buf.Extend(h.peerId);
  }

  datatype Outcome<+T> = NeedMore | Got(item: T) | Failed | Panicked

  method DecodeHandshakeFrom(buf: BytesMut) returns (r: Outcome<Handshake>)
    modifies buf
    ensures match DecodeHandshake(old(buf.data))
      case Need => r == NeedMore && buf.data == old(buf.data)
      case Item(h, rest) => r == Got(h) && buf.data == rest
      case Error => r == Failed
      case Panic => r == Panicked
  {
    ghost var all := buf.data;
    if buf.data == [] {
      return NeedMore;
    }
    var protLen := buf.data[0] as nat;
    if protLen != |PROTOCOL_STRING| {
      return Failed;
    }
    if |buf.data| > protLen + 8 + 20 + 20 {
      buf.Advance(1);
    } else {
      return NeedMore;
    }
    var prot := buf.CopyToSlice(19);
    var reserved := buf.CopyToSlice(8);
    var infoHash := buf.CopyToSlice(20);
    var peerId := buf.CopyToSlice(20);
    assert prot == all[1..20] && reserved == all[20..28] && infoHash == all[28..48] && peerId == all[48..68];
    assert buf.data == all[68..];
    return Got(Handshake(prot, reserved, infoHash, peerId));
  }

  /** False when the piece index does not fit. */
  method PutIndex(piece: nat, buf: BytesMut) returns (ok: bool)
    modifies buf
    ensures ok == IsU32(piece) && buf.data == if ok then old(buf.data) + U32Bytes(piece) else old(buf.data)
  {
    ok := piece < U32_LIMIT;
    if ok {
      buf.PutU32(piece);
    }
  }

  method PutHeader(len: nat, id: byte, buf: BytesMut)
    modifies buf
    ensures buf.data == old(buf.data) + Header(len, id)
  {
    buf.PutU32(len);
    buf.PutU8(id);
  }

  method EncodeBlockInfo(i: BlockInfo, buf: BytesMut) returns (ok: bool)
    modifies buf
    ensures ok == IsU32(i.pieceIndex)
    ensures buf.data == if ok then old(buf.data) + U32Bytes(i.pieceIndex) + (U32Bytes(i.offset) + U32Bytes(i.len)) else old(buf.data)
  {
    ok := PutIndex(i.pieceIndex, buf);
    if ok {
      buf.PutU32(i.offset);
      buf.PutU32(i.len);
    }
  }

  method EncodeTo(m: Message, buf: BytesMut) returns (ok: bool)
    requires Typed(m)
    modifies buf
    ensures ok == Encode(m).ok && buf.data == old(buf.data) + Encode(m).bytes
  {
    hide U32Bytes, BitVec.AsSlice, Header;
    ok := true;
    match m {
      case KeepAlive => buf.PutU32(0);
      case Choke => PutHeader(1, 0, buf);
      case Unchoke => PutHeader(1, 1, buf);
      case Interested => PutHeader(1, 2, buf);
      case NotInterested => PutHeader(1, 3, buf);
      case Have(piece) =>
        PutHeader(5, 4, buf);
        ok := PutIndex(piece, buf);
      case Bitfield(b) =>
        PutHeader(1 + |b.AsSlice()|, 5, buf);
        buf.Extend(b.AsSlice());
      case Request(i) =>
        PutHeader(13, 6, buf);
        ok := EncodeBlockInfo(i, buf);
      case Block(piece, offset, data) =>
        PutHeader(9 + |data|, 7, buf);
        ok := PutIndex(piece, buf);
        if ok {
          buf.PutU32(offset);
          buf.Extend(data);
        }
      case Cancel(i) =>
        PutHeader(13, 8, buf);
        ok := EncodeBlockInfo(i, buf);
    }
  }

  predicate Says(d: Decoded<Message>, r: Outcome<Message>, data: seq<byte>) {
    match d
    case Need => r == NeedMore
    case Item(m, rest) => r == Got(m) && data == rest
    case Error => r == Failed
    case Panic => r == Panicked
  }

  /** The payload of a message whose length and id have been consumed. */
  method DecodePayloadFrom(debug: bool, id: byte, len: nat, buf: BytesMut) returns (r: Outcome<Message>)
    requires len >= 1
    modifies buf
    ensures Says(DecodePayload(debug, id, len, old(buf.data)), r, buf.data)
  {
    hide U32Of, UnpackBytes;
    ghost var all := buf.data;
    if id == 0 { return Got(Choke); }
    if id == 1 { return Got(Unchoke); }
    if id == 2 { return Got(Interested); }
    if id == 3 { return Got(NotInterested); }
    if id == 4 {
      if |buf.data| < 4 { return Panicked; }
      var piece := buf.GetU32();
      return Got(Have(piece));
    }
    if id == 5 {
      if |buf.data| < len - 1 { return Panicked; }
      var bitfield := buf.CopyToSlice(len - 1);
      return Got(Bitfield(FromVec(bitfield)));
    }
    if id == 6 || id == 8 {
      if |buf.data| < 12 { return Panicked; }
      var piece := buf.GetU32();
      var offset := buf.GetU32();
      var n := buf.GetU32();
      assert buf.data == all[12..] && all[4..][4..] == all[8..];
      return Got(if id == 6 then Request(BlockInfo(piece, offset, n)) else Cancel(BlockInfo(piece, offset, n)));
    }
    if id == 7 {
      if len < 9 || (debug && len == 9) || |buf.data| < len - 1 { return Panicked; }
      var piece := buf.GetU32();
      var offset := buf.GetU32();
      var data := buf.CopyToSlice(len - 9);
      assert data == all[8..len - 1] && buf.data == all[len - 1..];
      return Got(Block(piece, offset, data));
    }
    return Failed;
  }

  /** A message that is not all in the buffer yet leaves the buffer as it is. `debug` says whether debug
      assertions are on. */
  method DecodeFrom(debug: bool, buf: BytesMut) returns (r: Outcome<Message>)
    modifies buf
    ensures Says(Decode(debug, old(buf.data)), r, buf.data)
    ensures Decode(debug, old(buf.data)).Need? ==> buf.data == old(buf.data)
  {
    hide U32Of, DecodePayload;
    if |buf.data| < 4 {
      return NeedMore;
    }
    var len := U32Of(buf.data);
    if |buf.data| < 4 + len {
      return NeedMore;
    }
    ghost var all := buf.data;
    buf.Advance(4);
    if len == 0 {
      return Got(KeepAlive);
    }
    var id := buf.GetU8();
    assert buf.data == all[5..] && id == all[4];
    r := DecodePayloadFrom(debug, id, len, buf);
  }
}
