/** The wire codec: handshakes, peer messages, and their incremental decoding
    (cratetorrent/src/peer/codec.rs). */
module Codec {
  import opened Wrappers
  import opened Blocks

  const U32_LIMIT: nat := 0x1_0000_0000

  // Numbers and bits on the wire.

  /** `put_u32`: big-endian, of the number cast to u32. */
  function U32Bytes(n: nat): (r: seq<byte>)
    ensures |r| == 4
  {
    [(n / 256 / 256 / 256 % 256) as byte, (n / 256 / 256 % 256) as byte, (n / 256 % 256) as byte, (n % 256) as byte]
  }

  function U32Of(b: seq<byte>): (n: nat)
    requires |b| >= 4
    ensures n < U32_LIMIT
  {
    ((b[0] as nat * 256 + b[1] as nat) * 256 + b[2] as nat) * 256 + b[3] as nat
  }

  lemma U32RoundTrip(n: nat, rest: seq<byte>)
    ensures U32Of(U32Bytes(n) + rest) == n % U32_LIMIT
  {
    var top := n / 256 / 256 / 256 / 256;
    assert n == U32_LIMIT * top + U32Of(U32Bytes(n) + rest);
  }

  /** Bits into a number, the first the most significant. */
  function PackBits(bits: seq<bool>): nat {
    if bits == [] then 0 else 2 * PackBits(bits[..|bits| - 1]) + if bits[|bits| - 1] then 1 else 0
  }

  function UnpackBits(v: nat, n: nat): (bits: seq<bool>)
    ensures |bits| == n
  {
    if n == 0 then [] else UnpackBits(v / 2, n - 1) + [v % 2 == 1]
  }

  function Power2(n: nat): (p: nat)
    ensures p > 0
  {
    if n == 0 then 1 else 2 * Power2(n - 1)
  }

  lemma {:induction false} PackBounded(bits: seq<bool>)
    ensures PackBits(bits) < Power2(|bits|)
    decreases |bits|
  {
    if bits != [] { PackBounded(bits[..|bits| - 1]); }
  }

  lemma {:induction false} BitsRoundTrip(bits: seq<bool>)
    ensures UnpackBits(PackBits(bits), |bits|) == bits
    decreases |bits|
  {
    if bits != [] {
      var init := bits[..|bits| - 1];
      BitsRoundTrip(init);
      assert PackBits(bits) / 2 == PackBits(init);
      assert bits == init + [bits[|bits| - 1]];
    }
  }

  lemma EightBits(bits: seq<bool>)
    requires |bits| == 8
    ensures PackBits(bits) < 256
  {
    PackBounded(bits);
    assert Power2(4) == 16 && Power2(8) == 16 * Power2(4);
  }

  /** A vector of bits over whole bytes: `dead` are the bits of the last byte past its length, with
      whatever values they have. */
  datatype BitVec = BitVec(bits: seq<bool>, dead: seq<bool>) {
    predicate Valid() { |dead| < 8 && (|bits| + |dead|) % 8 == 0 }

    function AsSlice(): seq<byte>
      requires Valid()
    {
      PackBytes(bits + dead)
    }

    /** `resize(n, false)` */
    function Resized(n: nat): seq<bool> {
      if n <= |bits| then bits[..n] else bits + seq(n - |bits|, _ => false)
    }
  }

  function PackBytes(bits: seq<bool>): (r: seq<byte>)
    requires |bits| % 8 == 0
    ensures |r| == |bits| / 8
  {
    if bits == [] then [] else
      EightBits(bits[..8]);
      [PackBits(bits[..8]) as byte] + PackBytes(bits[8..])
  }

  function UnpackBytes(b: seq<byte>): (bits: seq<bool>)
    ensures |bits| == 8 * |b|
  {
    if b == [] then [] else UnpackBits(b[0] as nat, 8) + UnpackBytes(b[1..])
  }

  function FromVec(b: seq<byte>): BitVec { BitVec(UnpackBytes(b), []) }

  lemma {:induction false} BytesRoundTrip(bits: seq<bool>)
    requires |bits| % 8 == 0
    ensures UnpackBytes(PackBytes(bits)) == bits
    decreases |bits|
  {
    if bits != [] {
      BytesRoundTrip(bits[8..]);
      BitsRoundTrip(bits[..8]);
      assert PackBytes(bits)[1..] == PackBytes(bits[8..]);
      assert bits[..8] + bits[8..] == bits;
    }
  }

  /** Bit k of a number, counted from the least significant. */
  function BitAt(v: nat, k: nat): bool {
    if k == 0 then v % 2 == 1 else BitAt(v / 2, k - 1)
  }

  lemma {:induction false} BitOf(bits: seq<bool>, i: nat)
    requires i < |bits|
    ensures bits[i] == BitAt(PackBits(bits), |bits| - 1 - i)
    decreases |bits|
  {
    var init := bits[..|bits| - 1];
    assert PackBits(bits) / 2 == PackBits(init);
    if i < |bits| - 1 { BitOf(init, i); }
  }

  /** Piece i of a bitfield is bit 7 - i % 8, counted from the least significant, of byte i / 8. */
  lemma {:induction false} MostSignificantFirst(bits: seq<bool>, i: nat)
    requires |bits| % 8 == 0 && i < |bits|
    ensures bits[i] == BitAt(PackBytes(bits)[i / 8] as nat, 7 - i % 8)
    decreases |bits|
  {
    if i >= 8 {
      MostSignificantFirst(bits[8..], i - 8);
      assert PackBytes(bits)[i / 8] == PackBytes(bits[8..])[(i - 8) / 8];
    } else {
      BitOf(bits[..8], i);
    }
  }

  // Handshakes.

  /** The peers of BEP 3 begin with this. */
  const PROTOCOL_STRING := "BitTorrent protocol"

  datatype Handshake = Handshake(prot: seq<byte>, reserved: seq<byte>, infoHash: seq<byte>, peerId: seq<byte>) {
    /** The lengths of the source's arrays. */
    predicate Valid() { |prot| == 19 && |reserved| == 8 && |infoHash| == 20 && |peerId| == 20 }
  }

  function EncodeHandshake(h: Handshake): (r: seq<byte>)
    requires h.Valid()
    ensures |r| == 68
  {
    [19 as byte] + h.prot + h.reserved + h.infoHash + h.peerId
  }

  /** What a decoder makes of a buffer: it needs more, it has an item and leaves the rest, it reports an
      error, or it reads past the buffer's end, which is a panic. */
  datatype Decoded<+T> = Need | Item(item: T, rest: seq<byte>) | Error | Panic

  function DecodeHandshake(buf: seq<byte>): Decoded<Handshake> {
    if buf == [] then Need
    else if buf[0] != 19 then Error
    else if |buf| > 19 + 8 + 20 + 20
    then Item(Handshake(buf[1..20], buf[20..28], buf[28..48], buf[48..68]), buf[68..])
    else Need
  }

  /** A handshake decodes to itself whatever follows it, and everything that follows is left over. */
  lemma HandshakeRoundTrip(h: Handshake, rest: seq<byte>)
    requires h.Valid()
    ensures DecodeHandshake(EncodeHandshake(h) + rest) == Item(h, rest)
  {
    var buf := EncodeHandshake(h) + rest;
    assert buf[1..20] == h.prot && buf[20..28] == h.reserved && buf[28..48] == h.infoHash && buf[48..68] == h.peerId;
    assert buf[68..] == rest;
  }

  /** Of a handshake that is not all there yet nothing is consumed. */
  lemma HandshakePrefix(h: Handshake, buf: seq<byte>)
    requires h.Valid() && buf <= EncodeHandshake(h) && |buf| < 68
    ensures DecodeHandshake(buf) == Need
  {
    assert buf != [] ==> buf[0] == EncodeHandshake(h)[0];
  }

  // Peer messages.

  datatype Message =
    | KeepAlive
    | Bitfield(bitfield: BitVec)
    | Choke
    | Unchoke
    | Interested
    | NotInterested
    | Have(piece: nat)
    | Request(info: BlockInfo)
    | Block(pieceIndex: nat, offset: nat, data: seq<byte>)
    | Cancel(info: BlockInfo)

  /** A 32-bit field, as the source's types have it. */
  predicate IsU32(n: nat) { n < U32_LIMIT }

  predicate Typed(m: Message) {
    match m
    case Bitfield(b) => b.Valid()
    case Request(i) => IsU32(i.offset) && IsU32(i.len)
    case Block(_, offset, _) => IsU32(offset)
    case Cancel(i) => IsU32(i.offset) && IsU32(i.len)
    case _ => true
  }

  /** What an encoder appended, and whether it succeeded: a piece index that does not fit is noticed
      after the length and the id are in the buffer. */
  datatype Encoded = Encoded(bytes: seq<byte>, ok: bool)

  function WithIndex(header: seq<byte>, piece: nat, rest: seq<byte>): Encoded {
    if IsU32(piece) then Encoded(header + U32Bytes(piece) + rest, true) else Encoded(header, false)
  }

  function Header(len: nat, id: byte): seq<byte> { U32Bytes(len) + [id] }

  function Encode(m: Message): Encoded
    requires Typed(m)
  {
    match m
    case KeepAlive => Encoded(U32Bytes(0), true)
    case Choke => Encoded(Header(1, 0), true)
    case Unchoke => Encoded(Header(1, 1), true)
    case Interested => Encoded(Header(1, 2), true)
    case NotInterested => Encoded(Header(1, 3), true)
    case Have(piece) => WithIndex(Header(5, 4), piece, [])
    case Bitfield(b) => Encoded(Header(1 + |b.AsSlice()|, 5) + b.AsSlice(), true)
    case Request(i) => WithIndex(Header(13, 6), i.pieceIndex, U32Bytes(i.offset) + U32Bytes(i.len))
    case Block(piece, offset, data) => WithIndex(Header(9 + |data|, 7), piece, U32Bytes(offset) + data)
    case Cancel(i) => WithIndex(Header(13, 8), i.pieceIndex, U32Bytes(i.offset) + U32Bytes(i.len))
  }

  /** The payload of a message with the given id, read from what follows the id. Lengths are checked
      nowhere but where the bytes run out and where a block's length is less than its header's; where
      debug assertions are on, a block of no bytes trips one. */
  function DecodePayload(debug: bool, id: byte, len: nat, buf: seq<byte>): (d: Decoded<Message>)
    ensures !d.Need?
    requires len >= 1
  {
    if id == 0 then Item(Choke, buf)
    else if id == 1 then Item(Unchoke, buf)
    else if id == 2 then Item(Interested, buf)
    else if id == 3 then Item(NotInterested, buf)
    else if id == 4 then
      if |buf| < 4 then Panic else Item(Have(U32Of(buf)), buf[4..])
    else if id == 5 then
      if |buf| < len - 1 then Panic else Item(Bitfield(FromVec(buf[..len - 1])), buf[len - 1..])
    else if id == 6 || id == 8 then
      if |buf| < 12 then Panic
      else
        var info := BlockInfo(U32Of(buf), U32Of(buf[4..]), U32Of(buf[8..]));
        Item(if id == 6 then Request(info) else Cancel(info), buf[12..])
    else if id == 7 then
      if len < 9 || (debug && len == 9) || |buf| < len - 1 then Panic
      else Item(Block(U32Of(buf), U32Of(buf[4..]), buf[8..len - 1]), buf[len - 1..])
    else Error
  }

  function Decode(debug: bool, buf: seq<byte>): (d: Decoded<Message>)
    ensures d.Item? ==> |d.rest| < |buf|
  {
    if |buf| < 4 then Need
    else
      var len := U32Of(buf);
      if |buf| < 4 + len then Need
      else if len == 0 then Item(KeepAlive, buf[4..])
      else DecodePayload(debug, buf[4], len, buf[5..])
  }

  /** Everything fits its place on the wire. */
  predicate Fits(m: Message) {
    && Typed(m)
    && match m
      case Bitfield(b) => 1 + |b.AsSlice()| < U32_LIMIT
      case Have(piece) => IsU32(piece)
      case Request(i) => IsU32(i.pieceIndex)
      case Block(piece, _, data) => IsU32(piece) && 9 + |data| < U32_LIMIT
      case Cancel(i) => IsU32(i.pieceIndex)
      case _ => true
  }

  /** It fits, and where debug assertions are on, a block has data. */
  predicate WellFormed(debug: bool, m: Message) {
    Fits(m) && (debug && m.Block? ==> m.data != [])
  }

  /** What the receiver sees: a bitfield arrives with the dead bits of its last byte as bits. */
  function Seen(m: Message): Message {
    if m.Bitfield? then Bitfield(BitVec(m.bitfield.bits + m.bitfield.dead, [])) else m
  }

  function Numbers(i: BlockInfo): seq<byte> { U32Bytes(i.pieceIndex) + (U32Bytes(i.offset) + U32Bytes(i.len)) }

  /** What follows the length of a well-formed message. */
  function Body(m: Message): seq<byte>
    requires Fits(m)
  {
    match m
    case KeepAlive => []
    case Choke => [0]
    case Unchoke => [1]
    case Interested => [2]
    case NotInterested => [3]
    case Have(piece) => [4] + U32Bytes(piece)
    case Bitfield(b) => [5] + b.AsSlice()
    case Request(i) => [6] + Numbers(i)
    case Block(piece, offset, data) => [7] + (U32Bytes(piece) + (U32Bytes(offset) + data))
    case Cancel(i) => [8] + Numbers(i)
  }

  /** The length in front of a message is the length of what follows it. */
  lemma EncodeFrames(m: Message)
    requires Fits(m)
    ensures |Body(m)| < U32_LIMIT
    ensures Encode(m) == Encoded(U32Bytes(|Body(m)|) + Body(m), true)
  {
    hide U32Bytes, BitVec.AsSlice;
    match m
    case Have(piece) => assert Header(5, 4) + U32Bytes(piece) + [] == U32Bytes(5) + ([4] + U32Bytes(piece));
    case Bitfield(b) => assert Header(1 + |b.AsSlice()|, 5) + b.AsSlice() == U32Bytes(1 + |b.AsSlice()|) + ([5] + b.AsSlice());
    case Request(i) => assert Header(13, 6) + U32Bytes(i.pieceIndex) + (U32Bytes(i.offset) + U32Bytes(i.len)) == U32Bytes(13) + ([6] + Numbers(i));
    case Block(piece, offset, data) =>
      assert Header(9 + |data|, 7) + U32Bytes(piece) + (U32Bytes(offset) + data)
        == U32Bytes(9 + |data|) + ([7] + (U32Bytes(piece) + (U32Bytes(offset) + data)));
    case Cancel(i) => assert Header(13, 8) + U32Bytes(i.pieceIndex) + (U32Bytes(i.offset) + U32Bytes(i.len)) == U32Bytes(13) + ([8] + Numbers(i));
    case _ =>
  }

  lemma U32Fits(n: nat, rest: seq<byte>)
    requires IsU32(n)
    ensures U32Of(U32Bytes(n) + rest) == n && (U32Bytes(n) + rest)[4..] == rest
  {
    hide U32Of, U32Bytes;
    U32RoundTrip(n, rest);
  }

  lemma NumbersBack(i: BlockInfo, rest: seq<byte>)
    requires IsU32(i.pieceIndex) && IsU32(i.offset) && IsU32(i.len)
    ensures var buf := Numbers(i) + rest;
      U32Of(buf) == i.pieceIndex && U32Of(buf[4..]) == i.offset && U32Of(buf[8..]) == i.len && buf[12..] == rest
  {
    hide U32Of, U32Bytes;
    var buf := Numbers(i) + rest;
    var tail := U32Bytes(i.len) + rest;
    assert buf == U32Bytes(i.pieceIndex) + (U32Bytes(i.offset) + tail);
    U32Fits(i.pieceIndex, U32Bytes(i.offset) + tail);
    U32Fits(i.offset, tail);
    U32Fits(i.len, rest);
    assert buf[8..] == buf[4..][4..] && buf[12..] == buf[8..][4..];
  }

  lemma BlockBack(piece: nat, offset: nat, data: seq<byte>, rest: seq<byte>)
    requires IsU32(piece) && IsU32(offset)
    ensures var buf := U32Bytes(piece) + (U32Bytes(offset) + data) + rest;
      U32Of(buf) == piece && U32Of(buf[4..]) == offset && buf[8..8 + |data|] == data && buf[8 + |data|..] == rest
  {
    hide U32Of, U32Bytes;
    var buf := U32Bytes(piece) + (U32Bytes(offset) + data) + rest;
    assert buf == U32Bytes(piece) + (U32Bytes(offset) + (data + rest));
    U32Fits(piece, U32Bytes(offset) + (data + rest));
    U32Fits(offset, data + rest);
    assert buf[8..] == buf[4..][4..] == data + rest;
    assert buf[8..8 + |data|] == buf[8..][..|data|] && buf[8 + |data|..] == buf[8..][|data|..];
  }

  /** The payload decoder undoes the encoder. */
  lemma PayloadBack(debug: bool, m: Message, rest: seq<byte>)
    requires WellFormed(debug, m) && !m.KeepAlive?
    ensures DecodePayload(debug, Body(m)[0], |Body(m)|, Body(m)[1..] + rest) == Item(Seen(m), rest)
  {
    hide U32Of, U32Bytes, Numbers, PackBytes, UnpackBytes;
    assert |Body(m)| == 1 ==> Body(m)[1..] + rest == rest;
    match m
    case Have(piece) =>
      assert Body(m)[1..] + rest == U32Bytes(piece) + rest;
      U32Fits(piece, rest);
    case Bitfield(b) =>
      var slice := b.AsSlice();
      assert Body(m)[1..] + rest == slice + rest;
      BytesRoundTrip(b.bits + b.dead);
      assert (slice + rest)[..|slice|] == slice && (slice + rest)[|slice|..] == rest;
    case Request(i) =>
      NumbersAre12(i);
      assert Body(m)[1..] + rest == Numbers(i) + rest;
      NumbersBack(i, rest);
    case Block(piece, offset, data) =>
      assert Body(m)[1..] + rest == U32Bytes(piece) + (U32Bytes(offset) + data) + rest;
      BlockBack(piece, offset, data, rest);
    case Cancel(i) =>
      NumbersAre12(i);
      assert Body(m)[1..] + rest == Numbers(i) + rest;
      NumbersBack(i, rest);
    case _ =>
  }

  lemma NumbersAre12(i: BlockInfo)
    ensures |Numbers(i)| == 12
  {
  }

  /** A well-formed message decodes to what its receiver is to see, whatever follows it, and everything
      that follows is left over. */
  lemma MessageRoundTrip(debug: bool, m: Message, rest: seq<byte>)
    requires WellFormed(debug, m)
    ensures Encode(m).ok && Decode(debug, Encode(m).bytes + rest) == Item(Seen(m), rest)
  {
    hide U32Of, U32Bytes, Encode, DecodePayload, Body;
    EncodeFrames(m);
    var body := Body(m);
    var buf := Encode(m).bytes + rest;
    assert buf == U32Bytes(|body|) + (body + rest);
    U32Fits(|body|, body + rest);
    BodyNotEmpty(m);
    if m.KeepAlive? {
      assert body + rest == rest;
    } else {
      assert buf[4] == buf[4..][0] == body[0] && buf[5..] == buf[4..][1..] == body[1..] + rest;
      PayloadBack(debug, m, rest);
    }
  }

  lemma BodyNotEmpty(m: Message)
    requires Fits(m)
    ensures m.KeepAlive? <==> Body(m) == []
  {
  }

  /** Of a message that is not all there yet nothing is consumed. */
  lemma MessagePrefix(debug: bool, m: Message, buf: seq<byte>)
    requires WellFormed(debug, m) && buf <= Encode(m).bytes && |buf| < |Encode(m).bytes|
    ensures Decode(debug, buf) == Need
  {
    hide U32Of, U32Bytes, Encode, DecodePayload, Body;
    EncodeFrames(m);
    if |buf| >= 4 {
      var body := Body(m);
      U32Fits(|body|, buf[4..]);
      assert buf == U32Bytes(|body|) + buf[4..];
    }
  }

  /** A block whose numbers fit comes back, except an empty one where debug assertions are on. */
  lemma BlockRoundTripIff(debug: bool, piece: nat, offset: nat, data: seq<byte>, rest: seq<byte>)
    requires IsU32(piece) && IsU32(offset) && 9 + |data| < U32_LIMIT
    ensures Decode(debug, Encode(Block(piece, offset, data)).bytes + rest) == Item(Block(piece, offset, data), rest)
      <==> data != [] || !debug
  {
    hide U32Of, U32Bytes, Encode, DecodePayload;
    if data != [] || !debug {
      MessageRoundTrip(debug, Block(piece, offset, data), rest);
    } else {
      EmptyBlockPanics(piece, offset, rest);
    }
  }

  lemma EmptyBlockPanics(piece: nat, offset: nat, rest: seq<byte>)
    requires IsU32(piece) && IsU32(offset)
    ensures Decode(true, Encode(Block(piece, offset, [])).bytes + rest) == Panic
  {
    hide U32Of, U32Bytes;
    var tail := U32Bytes(piece) + U32Bytes(offset) + rest;
    var buf := Encode(Block(piece, offset, [])).bytes + rest;
    assert buf == U32Bytes(9) + ([7 as byte] + tail);
    U32Fits(9, [7 as byte] + tail);
    assert buf[4] == buf[4..][0];
  }

  /** Resizing what the receiver got to the piece count gives the sender's bits, whatever the padding. */
  lemma BitfieldRoundTrip(debug: bool, b: BitVec, rest: seq<byte>)
    requires b.Valid() && 1 + |b.AsSlice()| < U32_LIMIT
    ensures var d := Decode(debug, Encode(Bitfield(b)).bytes + rest);
      d.Item? && d.rest == rest && d.item.Bitfield? && d.item.bitfield.Resized(|b.bits|) == b.bits
  {
    hide Encode, Decode, BitVec.AsSlice;
    MessageRoundTrip(debug, Bitfield(b), rest);
  }

  // Streams.

  /** A connection's read side: the handshake once it is in, the bytes not decoded yet, the messages
      decoded, and whether decoding has failed. */
  datatype Incoming = Incoming(handshake: Option<Handshake>, buf: seq<byte>, messages: seq<Message>, failed: bool)

  const NOTHING_YET := Incoming(None, [], [], false)

  /** All messages that are in the buffer, and what is left. */
  function DecodeAll(debug: bool, buf: seq<byte>): (seq<Message>, seq<byte>, bool)
    decreases |buf|
  {
    match Decode(debug, buf)
    case Need => ([], buf, true)
    case Item(m, rest) => var r := DecodeAll(debug, rest); ([m] + r.0, r.1, r.2)
    case _ => ([], buf, false)
  }

  function Messages(debug: bool, c: Incoming, buf: seq<byte>): Incoming {
    var r := DecodeAll(debug, buf);
    c.(messages := c.messages + r.0, buf := r.1, failed := !r.2)
  }

  /** A chunk of bytes arrives. After the handshake the codec is switched, and the bytes behind the
      handshake go to the new one. */
  function Receive(debug: bool, c: Incoming, chunk: seq<byte>): Incoming {
    if c.failed then c
    else if c.handshake.Some? then Messages(debug, c, c.buf + chunk)
    else
      match DecodeHandshake(c.buf + chunk)
      case Need => c.(buf := c.buf + chunk)
      case Item(h, rest) => Messages(debug, c.(handshake := Some(h)), rest)
      case _ => c.(buf := c.buf + chunk, failed := true)
  }

  function ReceiveAll(debug: bool, c: Incoming, chunks: seq<seq<byte>>): Incoming
    decreases |chunks|
  {
    if chunks == [] then c else ReceiveAll(debug, Receive(debug, c, chunks[0]), chunks[1..])
  }

  lemma U32OfPrefix(a: seq<byte>, b: seq<byte>)
    requires |a| >= 4 && a <= b
    ensures U32Of(b) == U32Of(a)
  {
  }

  lemma PayloadMonotone(debug: bool, id: byte, len: nat, a: seq<byte>, b: seq<byte>)
    requires len >= 1 && DecodePayload(debug, id, len, a).Item?
    ensures DecodePayload(debug, id, len, a + b) == Item(DecodePayload(debug, id, len, a).item, DecodePayload(debug, id, len, a).rest + b)
  {
    hide U32Of, UnpackBytes;
    if id == 4 {
      U32OfPrefix(a, a + b);
      assert (a + b)[4..] == a[4..] + b;
    } else if id == 5 {
      assert (a + b)[..len - 1] == a[..len - 1] && (a + b)[len - 1..] == a[len - 1..] + b;
    } else if id == 6 || id == 8 {
      U32OfPrefix(a, a + b);
      U32OfPrefix(a[4..], (a + b)[4..]);
      U32OfPrefix(a[8..], (a + b)[8..]);
      assert (a + b)[12..] == a[12..] + b;
    } else if id == 7 {
      U32OfPrefix(a, a + b);
      U32OfPrefix(a[4..], (a + b)[4..]);
      assert (a + b)[8..len - 1] == a[8..len - 1] && (a + b)[len - 1..] == a[len - 1..] + b;
    }
  }

  /** More bytes change nothing about a message that is all there. */
  lemma DecodeMonotone(debug: bool, a: seq<byte>, b: seq<byte>)
    requires Decode(debug, a).Item?
    ensures Decode(debug, a + b) == Item(Decode(debug, a).item, Decode(debug, a).rest + b)
  {
    hide U32Of, DecodePayload;
    U32OfPrefix(a, a + b);
    if U32Of(a) > 0 {
      assert (a + b)[5..] == a[5..] + b;
      PayloadMonotone(debug, a[4], U32Of(a), a[5..], b);
    } else {
      assert (a + b)[4..] == a[4..] + b;
    }
  }

  /** Decoding what is there and going on with what is left comes to decoding it all at once. */
  lemma DecodeAllOne(debug: bool, buf: seq<byte>)
    ensures Decode(debug, buf).Need? ==> DecodeAll(debug, buf) == ([], buf, true)
    ensures Decode(debug, buf).Item? ==>
      var m, r := Decode(debug, buf).item, DecodeAll(debug, Decode(debug, buf).rest);
      DecodeAll(debug, buf) == ([m] + r.0, r.1, r.2)
    ensures Decode(debug, buf).Item? ==> |Decode(debug, buf).rest| < |buf|
    ensures DecodeAll(debug, buf).2 ==> Decode(debug, buf).Need? || Decode(debug, buf).Item?
  {
    hide Decode;
  }

  lemma {:induction false} DecodeAllMore(debug: bool, a: seq<byte>, b: seq<byte>)
    requires DecodeAll(debug, a).2
    ensures var r := DecodeAll(debug, a);
      var more := DecodeAll(debug, r.1 + b);
      DecodeAll(debug, a + b) == (r.0 + more.0, more.1, more.2)
    decreases |a|
  {
    hide Decode, DecodeAll;
    DecodeAllOne(debug, a);
    DecodeAllOne(debug, a + b);
    match Decode(debug, a)
    case Need =>
      assert [] + DecodeAll(debug, a + b).0 == DecodeAll(debug, a + b).0;
    case Item(m, rest) =>
      DecodeMonotone(debug, a, b);
      DecodeAllMore(debug, rest, b);
      var r := DecodeAll(debug, rest);
      var more := DecodeAll(debug, r.1 + b);
      assert [m] + (r.0 + more.0) == [m] + r.0 + more.0;
  }

  lemma MessagesMore(debug: bool, c: Incoming, a: seq<byte>, b: seq<byte>)
    requires !Messages(debug, c, a).failed
    ensures var d := Messages(debug, c, a); Messages(debug, d, d.buf + b) == Messages(debug, c, a + b)
  {
    hide DecodeAll;
    DecodeAllMore(debug, a, b);
  }

  /** One chunk or the same bytes in two: the same, unless the first already fails. */
  lemma ReceiveTwice(debug: bool, c: Incoming, a: seq<byte>, b: seq<byte>)
    requires !Receive(debug, c, a).failed && !c.failed
    ensures Receive(debug, Receive(debug, c, a), b) == Receive(debug, c, a + b)
  {
    hide Messages, DecodeHandshake;
    NeverPanics(c.buf + a);
    assert c.buf + (a + b) == c.buf + a + b;
    if c.handshake.Some? {
      MessagesMore(debug, c, c.buf + a, b);
      MessagesHandshake(debug, c, c.buf + a);
    } else {
      var d := DecodeHandshake(c.buf + a);
      if d.Item? {
        HandshakeMonotone(c.buf + a, b);
        MessagesMore(debug, c.(handshake := Some(d.item)), d.rest, b);
        MessagesHandshake(debug, c.(handshake := Some(d.item)), d.rest);
      } else {
        assert d == Need;
        var e := DecodeHandshake(c.buf + a + b);
        if e.Item? { MessagesBuffer(debug, c.(handshake := Some(e.item)), c.buf + a, e.rest); }
      }
    }
  }

  lemma MessagesBuffer(debug: bool, c: Incoming, buf: seq<byte>, rest: seq<byte>)
    ensures Messages(debug, c.(buf := buf), rest) == Messages(debug, c, rest)
  {
  }

  lemma NeverPanics(buf: seq<byte>)
    ensures !DecodeHandshake(buf).Panic?
  {
  }

  lemma HandshakeMonotone(a: seq<byte>, b: seq<byte>)
    requires DecodeHandshake(a).Item?
    ensures DecodeHandshake(a + b) == Item(DecodeHandshake(a).item, DecodeHandshake(a).rest + b)
  {
    assert (a + b)[1..20] == a[1..20] && (a + b)[20..28] == a[20..28] && (a + b)[28..48] == a[28..48] && (a + b)[48..68] == a[48..68];
    assert (a + b)[68..] == a[68..] + b;
  }

  lemma MessagesHandshake(debug: bool, c: Incoming, buf: seq<byte>)
    ensures Messages(debug, c, buf).handshake == c.handshake
  {
  }

  /** No cut fails on the way. */
  predicate NeverFails(debug: bool, c: Incoming, chunks: seq<seq<byte>>)
    decreases |chunks|
  {
    !c.failed && (chunks == [] || NeverFails(debug, Receive(debug, c, chunks[0]), chunks[1..]))
  }

  lemma ReceiveNothing(debug: bool, c: Incoming)
    requires !c.failed
    ensures c.handshake.None? && c.buf == [] ==> Receive(debug, c, []) == c
  {
    assert c.buf + [] == c.buf;
  }

  /** How the bytes are cut into chunks makes no difference, for any bytes, as long as none of the cuts
      fails. */
  lemma {:induction false} ChunkingIrrelevant(debug: bool, c: Incoming, chunks: seq<seq<byte>>)
    requires chunks != [] && NeverFails(debug, c, chunks)
    ensures ReceiveAll(debug, c, chunks) == Receive(debug, c, Flatten(chunks))
    decreases |chunks|
  {
    hide Receive;
    var rest := chunks[1..];
    if rest == [] {
      assert Flatten(chunks) == chunks[0] + Flatten(rest) == chunks[0];
    } else {
      ChunkingIrrelevant(debug, Receive(debug, c, chunks[0]), rest);
      ReceiveTwice(debug, c, chunks[0], Flatten(rest));
    }
  }

  predicate AllFit(messages: seq<Message>) {
    forall k :: 0 <= k < |messages| ==> Fits(messages[k])
  }

  predicate AllWellFormed(debug: bool, messages: seq<Message>) {
    forall k :: 0 <= k < |messages| ==> WellFormed(debug, messages[k])
  }

  /** The bytes of the messages one after the other. */
  function Wire(messages: seq<Message>): seq<byte>
    requires AllFit(messages)
  {
    if messages == [] then [] else Encode(messages[0]).bytes + Wire(messages[1..])
  }

  function SeenAll(messages: seq<Message>): seq<Message> {
    seq(|messages|, k requires 0 <= k < |messages| => Seen(messages[k]))
  }

  /** Any beginning of the messages' bytes decodes without failing, and all of them to all the messages
      with nothing left. */
  lemma {:induction false} WireDecodes(debug: bool, messages: seq<Message>, buf: seq<byte>)
    requires AllWellFormed(debug, messages)
    requires buf <= Wire(messages)
    ensures DecodeAll(debug, buf).2
    ensures buf == Wire(messages) ==> DecodeAll(debug, buf) == (SeenAll(messages), [], true)
    decreases |messages|
  {
    hide Decode, Encode, Seen;
    if messages == [] {
      NothingToDecode(debug, buf);
    } else {
      var e := Encode(messages[0]).bytes;
      if |buf| < |e| {
        assert buf <= e;
        MessagePrefix(debug, messages[0], buf);
      } else {
        var rest := buf[|e|..];
        assert buf == e + rest;
        MessageRoundTrip(debug, messages[0], rest);
        WireDecodes(debug, messages[1..], rest);
        assert buf == Wire(messages) ==> rest == Wire(messages[1..]);
        assert SeenAll(messages) == [Seen(messages[0])] + SeenAll(messages[1..]);
      }
    }
  }

  lemma NothingToDecode(debug: bool, buf: seq<byte>)
    requires |buf| == 0
    ensures DecodeAll(debug, buf) == ([], buf, true)
  {
  }

  lemma StreamDecodes(debug: bool, h: Handshake, messages: seq<Message>, buf: seq<byte>)
    requires h.Valid() && AllWellFormed(debug, messages)
    requires buf <= EncodeHandshake(h) + Wire(messages)
    ensures !Receive(debug, NOTHING_YET, buf).failed
    ensures buf == EncodeHandshake(h) + Wire(messages) ==> Receive(debug, NOTHING_YET, buf) == Incoming(Some(h), [], SeenAll(messages), false)
  {
    hide DecodeHandshake, DecodeAll, EncodeHandshake, Wire;
    assert [] + buf == buf;
    if |buf| < 68 {
      assert buf <= EncodeHandshake(h);
      HandshakePrefix(h, buf);
    } else {
      var rest := buf[68..];
      assert buf == EncodeHandshake(h) + rest;
      HandshakeRoundTrip(h, rest);
      WireDecodes(debug, messages, rest);
      assert [] + SeenAll(messages) == SeenAll(messages);
    }
  }

  lemma {:induction false} StreamNeverFails(debug: bool, h: Handshake, messages: seq<Message>, before: seq<byte>, c: Incoming, chunks: seq<seq<byte>>)
    requires h.Valid() && AllWellFormed(debug, messages)
    requires before + Flatten(chunks) <= EncodeHandshake(h) + Wire(messages)
    requires c == Receive(debug, NOTHING_YET, before) && !c.failed
    ensures NeverFails(debug, c, chunks)
    decreases |chunks|
  {
    hide Receive, EncodeHandshake, Wire;
    if chunks != [] {
      var whole := EncodeHandshake(h) + Wire(messages);
      var next := before + chunks[0];
      assert next + Flatten(chunks[1..]) == before + Flatten(chunks);
      assert next <= whole;
      StreamDecodes(debug, h, messages, next);
      ReceiveTwice(debug, NOTHING_YET, before, chunks[0]);
      StreamNeverFails(debug, h, messages, next, Receive(debug, c, chunks[0]), chunks[1..]);
    }
  }

  /** A handshake and then any well-formed messages, cut into chunks anywhere, arrive as exactly that
      handshake and those messages, with nothing left over. */
  lemma StreamArrives(debug: bool, h: Handshake, messages: seq<Message>, chunks: seq<seq<byte>>)
    requires h.Valid() && AllWellFormed(debug, messages)
    requires Flatten(chunks) == EncodeHandshake(h) + Wire(messages)
    ensures ReceiveAll(debug, NOTHING_YET, chunks) == Incoming(Some(h), [], SeenAll(messages), false)
  {
    hide Receive, EncodeHandshake, Wire, Flatten;
    var whole := EncodeHandshake(h) + Wire(messages);
    var start: seq<byte> := [];
    assert start + Flatten(chunks) == whole;
    StreamDecodes(debug, h, messages, start);
    ReceiveNothing(debug, NOTHING_YET);
    StreamNeverFails(debug, h, messages, start, NOTHING_YET, chunks);
    SomeChunk(chunks);
    ChunkingIrrelevant(debug, NOTHING_YET, chunks);
    StreamDecodes(debug, h, messages, whole);
  }

  lemma SomeChunk(chunks: seq<seq<byte>>)
    requires |Flatten(chunks)| > 0
    ensures chunks != []
  {
  }
}
