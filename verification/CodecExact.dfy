/** Exactly what the decoders accept, and which bytes they report as errors
    (cratetorrent/src/peer/codec.rs). */
module CodecExact {
  import opened Wrappers
  import opened Blocks
  import opened Codec

  // Numbers.

  /** `a` comes before `b` at the first place where they differ. */
  predicate Before(a: seq<byte>, b: seq<byte>)
    requires |a| == |b|
  {
    a != [] && (a[0] < b[0] || (a[0] == b[0] && Before(a[1..], b[1..])))
  }

  lemma BeforeFour(a: seq<byte>, b: seq<byte>)
    requires |a| == |b| == 4
    ensures Before(a, b) <==> U32Of(a) < U32Of(b)
  {
    assert a[1..][1..] == a[2..] && a[2..][1..] == a[3..];
    assert b[1..][1..] == b[2..] && b[2..][1..] == b[3..];
    assert Before(a[3..], b[3..]) <==> a[3] < b[3];
    assert Before(a[2..], b[2..]) <==> a[2] < b[2] || (a[2] == b[2] && a[3] < b[3]);
    assert Before(a[1..], b[1..]) <==> a[1] < b[1] || (a[1] == b[1] && Before(a[2..], b[2..]));
  }

  /** Numbers of 32 bits are in the order of their bytes on the wire. */
  lemma BigEndian(m: nat, n: nat)
    requires IsU32(m) && IsU32(n)
    ensures m < n <==> Before(U32Bytes(m), U32Bytes(n))
  {
    hide U32Of, U32Bytes, Before;
    U32RoundTrip(m, []);
    U32RoundTrip(n, []);
    assert U32Bytes(m) + [] == U32Bytes(m) && U32Bytes(n) + [] == U32Bytes(n);
    BeforeFour(U32Bytes(m), U32Bytes(n));
  }

  lemma BytesBack(b: seq<byte>)
    requires |b| >= 4
    ensures U32Bytes(U32Of(b)) == b[..4] && IsU32(U32Of(b))
  {
    var n := U32Of(b);
    var x, y, z := b[0] as nat, b[1] as nat, b[2] as nat;
    assert n / 256 == (x * 256 + y) * 256 + z;
    assert n / 256 / 256 == x * 256 + y;
    assert n / 256 / 256 / 256 == x;
  }

  // Bits.

  lemma {:induction false} UnpackPack(v: nat, n: nat)
    requires v < Power2(n)
    ensures PackBits(UnpackBits(v, n)) == v
  {
    if n > 0 {
      UnpackPack(v / 2, n - 1);
      var bits := UnpackBits(v, n);
      assert bits[..n - 1] == UnpackBits(v / 2, n - 1);
    }
  }

  /** Bytes unpacked into bits and packed again are the same bytes. */
  lemma {:induction false} UnpackRoundTrip(b: seq<byte>)
    ensures PackBytes(UnpackBytes(b)) == b
  {
    if b != [] {
      var bits := UnpackBytes(b);
      assert bits[..8] == UnpackBits(b[0] as nat, 8) && bits[8..] == UnpackBytes(b[1..]);
      assert Power2(4) == 16 && Power2(8) == 16 * Power2(4);
      UnpackPack(b[0] as nat, 8);
      UnpackRoundTrip(b[1..]);
    }
  }

  /** Resized, a bitfield keeps its bits as far as they go, and has no others set. */
  lemma ResizedBits(b: BitVec, n: nat)
    ensures |b.Resized(n)| == n
    ensures forall i :: 0 <= i < n ==> (b.Resized(n)[i] <==> i < |b.bits| && b.bits[i])
  {
  }

  // Handshakes.

  predicate Opens(h: Handshake, buf: seq<byte>) {
    h.Valid() && EncodeHandshake(h) <= buf
  }

  predicate MayOpen(h: Handshake, buf: seq<byte>) {
    h.Valid() && buf <= EncodeHandshake(h) && buf != EncodeHandshake(h)
  }

  /** The parts of a handshake stand in the places BEP 3 gives them. */
  lemma HandshakeLayout(h: Handshake)
    requires h.Valid()
    ensures var b := EncodeHandshake(h);
      |b| == 68 && b[0] == 19 && b[1..20] == h.prot && b[20..28] == h.reserved && b[28..48] == h.infoHash && b[48..68] == h.peerId
  {
  }

  lemma OpensBack(buf: seq<byte>)
    requires |buf| >= 68 && buf[0] == 19
    ensures DecodeHandshake(buf).Item? && Opens(DecodeHandshake(buf).item, buf) && DecodeHandshake(buf).rest == buf[68..]
  {
    var h := DecodeHandshake(buf).item;
    assert EncodeHandshake(h) == buf[..68];
  }

  function Zeros(n: nat): (r: seq<byte>)
    ensures |r| == n
  {
    seq(n, _ => 0 as byte)
  }

  /** A handshake that begins with what is there of it. */
  lemma Completed(buf: seq<byte>) returns (h: Handshake)
    requires |buf| < 68 && (buf != [] ==> buf[0] == 19)
    ensures MayOpen(h, buf)
  {
    var all := (if buf == [] then [19 as byte] else buf) + Zeros(68);
    h := Handshake(all[1..20], all[20..28], all[28..48], all[48..68]);
    assert EncodeHandshake(h) == all[..68];
    assert buf == [] || buf == all[..|buf|];
  }

  /** Of any bytes: a handshake is decoded if and only if they begin with one, more is waited for if and
      only if a handshake may still begin with them, and the rest are errors, which show in the first
      byte. */
  lemma HandshakeExact(buf: seq<byte>)
    ensures DecodeHandshake(buf).Item? <==> exists h :: Opens(h, buf)
    ensures DecodeHandshake(buf).Need? <==> exists h :: MayOpen(h, buf)
    ensures DecodeHandshake(buf).Error? <==> buf != [] && forall h: Handshake :: h.Valid() ==> EncodeHandshake(h)[0] != buf[0]
    ensures !DecodeHandshake(buf).Panic?
  {
    hide EncodeHandshake;
    if |buf| >= 68 && buf[0] == 19 { OpensBack(buf); }
    if |buf| < 68 && (buf != [] ==> buf[0] == 19) { var h := Completed(buf); }
    forall h: Handshake | h.Valid() ensures EncodeHandshake(h)[0] == 19 { HandshakeLayout(h); }
    assert Handshake(Zeros(19), Zeros(8), Zeros(20), Zeros(20)).Valid();
  }

  // Messages.

  /** The message of a frame, told from its body; the length in front counts for those messages only
      whose length is not fixed. */
  predicate Spells(debug: bool, m: Message, rest: seq<byte>, buf: seq<byte>) {
    && WellFormed(debug, m) && Seen(m) == m && |buf| >= 4 && |buf| >= 4 + U32Of(buf)
    && buf[4..] == Body(m) + rest
    && (m.KeepAlive? <==> U32Of(buf) == 0)
    && (m.Bitfield? || m.Block? ==> U32Of(buf) == |Body(m)|)
  }

  lemma NumbersOf(buf: seq<byte>)
    requires |buf| >= 12
    ensures Numbers(BlockInfo(U32Of(buf), U32Of(buf[4..]), U32Of(buf[8..]))) == buf[..12]
    ensures IsU32(U32Of(buf)) && IsU32(U32Of(buf[4..])) && IsU32(U32Of(buf[8..]))
  {
    hide U32Of, U32Bytes;
    BytesBack(buf);
    BytesBack(buf[4..]);
    BytesBack(buf[8..]);
    assert buf[..12] == buf[..4] + (buf[4..][..4] + buf[8..][..4]);
  }

  lemma BlockOf(buf: seq<byte>, n: nat)
    requires 8 <= n <= |buf|
    ensures U32Bytes(U32Of(buf)) + (U32Bytes(U32Of(buf[4..])) + buf[8..n]) == buf[..n]
    ensures IsU32(U32Of(buf)) && IsU32(U32Of(buf[4..]))
  {
    hide U32Of, U32Bytes;
    BytesBack(buf);
    BytesBack(buf[4..]);
    assert buf[..n] == buf[..4] + (buf[4..][..4] + buf[8..n]);
  }

  /** What the payload decoder answers is there, id and all. */
  lemma PayloadSpelled(debug: bool, id: byte, len: nat, buf: seq<byte>)
    requires 1 <= len < U32_LIMIT && DecodePayload(debug, id, len, buf).Item?
    ensures var d := DecodePayload(debug, id, len, buf);
      && WellFormed(debug, d.item) && Seen(d.item) == d.item && !d.item.KeepAlive?
      && [id] + buf == Body(d.item) + d.rest
      && (d.item.Bitfield? || d.item.Block? ==> len == |Body(d.item)|)
  {
    hide U32Of, U32Bytes, PackBytes, UnpackBytes, Numbers;
    if id == 4 {
      BytesBack(buf);
      assert [id] + buf == [4 as byte] + buf[..4] + buf[4..];
    } else if id == 5 {
      var b := buf[..len - 1];
      UnpackRoundTrip(b);
      assert UnpackBytes(b) + [] == UnpackBytes(b);
      assert [id] + buf == [5 as byte] + b + buf[len - 1..];
    } else if id == 6 || id == 8 {
      NumbersOf(buf);
      assert [id] + buf == [id] + buf[..12] + buf[12..];
    } else if id == 7 {
      BlockOf(buf, len - 1);
      assert [id] + buf == [id] + buf[..len - 1] + buf[len - 1..];
    } else {
      assert [id] + buf == [id] + [] + buf;
    }
  }

  lemma PayloadSpells(debug: bool, m: Message, rest: seq<byte>, len: nat)
    requires WellFormed(debug, m) && !m.KeepAlive? && len >= 1 && Seen(m) == m
    requires m.Bitfield? || m.Block? ==> len == |Body(m)|
    ensures Body(m) != [] && DecodePayload(debug, Body(m)[0], len, Body(m)[1..] + rest) == Item(m, rest)
  {
    BodyNotEmpty(m);
    PayloadBack(debug, m, rest);
    SameLength(debug, m, Body(m)[1..] + rest, |Body(m)|, len);
  }

  /** The length in front matters to bitfields and blocks only. */
  lemma SameLength(debug: bool, m: Message, buf: seq<byte>, a: nat, b: nat)
    requires Fits(m) && !m.KeepAlive? && a >= 1 && b >= 1 && Body(m) != []
    requires m.Bitfield? || m.Block? ==> a == b
    ensures DecodePayload(debug, Body(m)[0], a, buf) == DecodePayload(debug, Body(m)[0], b, buf)
  {
    hide U32Of, U32Bytes, UnpackBytes, BitVec.AsSlice, Numbers;
  }

  lemma EmptyFrame(debug: bool, buf: seq<byte>, m: Message, rest: seq<byte>)
    requires |buf| >= 4 && U32Of(buf) == 0
    ensures Decode(debug, buf) == Item(m, rest) <==> Spells(debug, m, rest, buf)
  {
    hide U32Of, DecodePayload, Body, Fits;
    KeepAliveBody(debug);
    assert buf[4..] == [] + buf[4..] && [] + rest == rest;
  }

  lemma FullFrame(debug: bool, buf: seq<byte>, m: Message, rest: seq<byte>)
    requires |buf| >= 4 && |buf| >= 4 + U32Of(buf) && U32Of(buf) > 0
    ensures Decode(debug, buf) == Item(m, rest) ==> Spells(debug, m, rest, buf)
  {
    hide U32Of, DecodePayload, Body, WellFormed, Seen;
    assert buf[4..] == [buf[4]] + buf[5..];
    if Decode(debug, buf) == Item(m, rest) {
      PayloadSpelled(debug, buf[4], U32Of(buf), buf[5..]);
    }
  }

  lemma SpelledFrame(debug: bool, buf: seq<byte>, m: Message, rest: seq<byte>)
    requires Spells(debug, m, rest, buf) && U32Of(buf) > 0
    ensures Decode(debug, buf) == Item(m, rest)
  {
    hide U32Of, DecodePayload, Body, Seen, Fits;
    PayloadSpells(debug, m, rest, U32Of(buf));
    assert buf[4] == buf[4..][0] == Body(m)[0] && buf[5..] == buf[4..][1..] == Body(m)[1..] + rest;
  }

  /** A message is decoded if and only if the frame is all there and begins with the message's body: no
      message is made up, none is missed, and what follows is left. The frame's length is not checked for
      messages of fixed length. */
  lemma DecodesIff(debug: bool, buf: seq<byte>, m: Message, rest: seq<byte>)
    ensures Decode(debug, buf) == Item(m, rest) <==> Spells(debug, m, rest, buf)
  {
    hide U32Of, DecodePayload, Body, WellFormed, Seen;
    if |buf| >= 4 && |buf| >= 4 + U32Of(buf) {
      if U32Of(buf) == 0 {
        EmptyFrame(debug, buf, m, rest);
      } else {
        FullFrame(debug, buf, m, rest);
        if Spells(debug, m, rest, buf) { SpelledFrame(debug, buf, m, rest); }
      }
    }
  }

  lemma KeepAliveBody(debug: bool)
    ensures WellFormed(debug, KeepAlive) && Body(KeepAlive) == [] && Seen(KeepAlive) == KeepAlive
  {
  }

  /** Some message has this id. */
  predicate HasId(m: Message, id: byte) {
    Fits(m) && !m.KeepAlive? && Body(m) != [] && Body(m)[0] == id
  }

  lemma KnownIds(id: byte)
    requires id <= 8
    ensures exists m :: HasId(m, id)
  {
    hide U32Bytes;
    var i := BlockInfo(0, 0, 0);
    var b := BitVec([], []);
    assert b.AsSlice() == [];
    assert HasId(Choke, 0) && HasId(Unchoke, 1) && HasId(Interested, 2) && HasId(NotInterested, 3) && HasId(Have(0), 4);
    assert HasId(Bitfield(b), 5) && HasId(Request(i), 6) && HasId(Block(0, 0, []), 7) && HasId(Cancel(i), 8);
  }

  /** More is waited for exactly while the frame is not all there. A frame that is there, and is no keep
      alive, is an error exactly when no message has its id. */
  lemma ErrorIff(debug: bool, buf: seq<byte>)
    ensures Decode(debug, buf).Need? <==> |buf| < 4 || |buf| < 4 + U32Of(buf)
    ensures Decode(debug, buf).Error? <==>
      |buf| >= 4 && |buf| >= 4 + U32Of(buf) && U32Of(buf) > 0 && forall m :: !HasId(m, buf[4])
  {
    hide U32Of, HasId;
    if |buf| >= 4 && |buf| >= 4 + U32Of(buf) && U32Of(buf) > 0 {
      if buf[4] <= 8 { KnownIds(buf[4]); }
      if m :| HasId(m, buf[4]) { IdsEnd(m, buf[4]); }
    }
  }

  lemma IdsEnd(m: Message, id: byte)
    requires HasId(m, id)
    ensures id <= 8
  {
    hide U32Bytes, BitVec.AsSlice, Numbers;
  }

  predicate HasPiece(m: Message) { m.Have? || m.Request? || m.Block? || m.Cancel? }

  /** The message with another piece index. */
  function WithPiece(m: Message, p: nat): Message {
    match m
    case Have(_) => Have(p)
    case Request(i) => Request(i.(pieceIndex := p))
    case Block(_, offset, data) => Block(p, offset, data)
    case Cancel(i) => Cancel(i.(pieceIndex := p))
    case _ => m
  }

  /** Encoding fails if and only if there is a piece index and it does not fit; the length and the id are
      written by then, as for any other index. */
  lemma EncodeFailsIff(m: Message, p: nat)
    requires Typed(m)
    ensures Encode(WithPiece(m, p)).ok <==> !HasPiece(m) || IsU32(p)
    ensures !Encode(WithPiece(m, p)).ok ==>
      |Encode(WithPiece(m, 0)).bytes| >= 5 && Encode(WithPiece(m, p)).bytes == Encode(WithPiece(m, 0)).bytes[..5]
  {
    hide U32Bytes, BitVec.AsSlice;
    var m0, mp := WithPiece(m, 0), WithPiece(m, p);
    if HasPiece(m) && !IsU32(p) {
      assert Encode(m0).bytes == Encode(mp).bytes + Encode(m0).bytes[5..];
    }
  }

  // Streams.

  /** Decoding goes on until more is needed, or fails for good. */
  lemma {:induction false} LeftOver(debug: bool, buf: seq<byte>)
    ensures var (messages, left, ok) := DecodeAll(debug, buf);
      && (ok <==> Decode(debug, left).Need?) && (!ok <==> Decode(debug, left).Error? || Decode(debug, left).Panic?)
    decreases |buf|
  {
    hide Decode;
    if Decode(debug, buf).Item? { LeftOver(debug, Decode(debug, buf).rest); }
  }

  /** A connection that has received these bytes has failed if and only if no handshake has their first
      byte, or there is a handshake and what is left of the bytes behind it and the messages decoded begins
      with an error or makes the decoder panic. Otherwise it waits for the handshake, or for the rest of
      the next message. */
  lemma FailsIff(debug: bool, bytes: seq<byte>)
    ensures var c := Receive(debug, NOTHING_YET, bytes);
      && (c.failed <==> if c.handshake.None? then DecodeHandshake(bytes).Error? else Decode(debug, c.buf).Error? || Decode(debug, c.buf).Panic?)
      && (c.handshake.None? <==> !DecodeHandshake(bytes).Item?) && (c.handshake.None? ==> c.buf == bytes && c.messages == [])
      && (c.handshake.Some? ==> DecodeHandshake(bytes) == Item(c.handshake.value, DecodeHandshake(bytes).rest))
      && (!c.failed ==> if c.handshake.None? then DecodeHandshake(bytes).Need? else Decode(debug, c.buf).Need?)
  {
    hide Decode, DecodeAll, DecodeHandshake;
    assert [] + bytes == bytes;
    NeverPanics(bytes);
    if DecodeHandshake(bytes).Item? { LeftOver(debug, DecodeHandshake(bytes).rest); }
  }
}
