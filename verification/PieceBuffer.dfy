/** The blocks of a piece waiting in memory, in the order of their offsets
    (cratetorrent/src/disk/io/piece.rs). */
module PieceBuffer {
  import opened Wrappers
  import opened Blocks

  type BlockMap = map<nat, seq<byte>>

  lemma {:induction false} LeastIn(s: set<nat>) returns (k: nat)
    requires s != {}
    ensures k in s && forall j :: j in s ==> k <= j
    decreases |s|
  {
    var x :| x in s;
    k := x;
    if s - {x} != {} {
      var y := LeastIn(s - {x});
      k := if x < y then x else y;
      forall j | j in s ensures k <= j {
        if j != x { assert j in s - {x}; }
      }
    } else {
      assert forall j :: j in s ==> j == x || j in s - {x};
    }
  }

  lemma LeastExists(s: set<nat>)
    requires s != {}
    ensures exists k :: k in s && forall j :: j in s ==> k <= j
  {
    var k := LeastIn(s);
  }

  ghost function Least(s: set<nat>): (k: nat)
    requires s != {}
    ensures k in s && forall j :: j in s ==> k <= j
  {
    LeastExists(s);
    var k :| k in s && forall j :: j in s ==> k <= j;
    k
  }

  /** The blocks in ascending order of offset. */
  ghost function Ordered(m: BlockMap): seq<seq<byte>>
    decreases |m|
  {
    if m == map[] then [] else
      var k := Least(m.Keys);
      assert |m.Keys - {k}| == |m| - 1 && (m - {k}).Keys == m.Keys - {k};
      [m[k]] + Ordered(m - {k})
  }

  /** The bytes of the piece as its blocks in order make them up. */
  ghost function Assemble(m: BlockMap): seq<byte> { Flatten(Ordered(m)) }

  /** Every block in the buffer sits on the piece's grid and has the length of its place. */
  ghost predicate GridShaped(m: BlockMap, pieceLen: nat) {
    forall o :: o in m ==> o in GridOffsets(pieceLen) && |m[o]| == BlockLen(pieceLen, o / BLOCK_LEN)
  }

  predicate Has(m: BlockMap, i: nat) { i * BLOCK_LEN in m }

  /** Every place of the grid is taken, by a block of the right length. */
  ghost predicate Full(m: BlockMap, pieceLen: nat) {
    forall i :: 0 <= i < BlockCount(pieceLen) ==> Has(m, i) && |m[i * BLOCK_LEN]| == BlockLen(pieceLen, i)
  }

  lemma FullByCounting(m: BlockMap, pieceLen: nat)
    requires GridShaped(m, pieceLen)
    ensures |m| <= BlockCount(pieceLen)
    ensures |m| == BlockCount(pieceLen) <==> m.Keys == GridOffsets(pieceLen)
    ensures |m| == BlockCount(pieceLen) ==> Full(m, pieceLen)
  {
    CompleteByCounting(m.Keys, pieceLen);
    if |m| == BlockCount(pieceLen) {
      forall i | 0 <= i < BlockCount(pieceLen)
        ensures Has(m, i) && |m[i * BLOCK_LEN]| == BlockLen(pieceLen, i)
      {
        assert i * BLOCK_LEN in GridOffsets(pieceLen);
        assert (i * BLOCK_LEN) / BLOCK_LEN == i;
      }
    }
  }

  lemma NoGap(o: nat, pieceLen: nat, i: nat)
    requires o in GridOffsets(pieceLen)
    ensures o < BlockCount(pieceLen) * BLOCK_LEN
    ensures i * BLOCK_LEN < o ==> (i + 1) * BLOCK_LEN <= o
  {
  }

  function From(m: BlockMap, i: nat): BlockMap {
    map o | o in m && i * BLOCK_LEN <= o :: m[o]
  }

  /** The blocks of places i to n - 1. */
  function Listed(m: BlockMap, i: nat, n: nat): seq<seq<byte>>
    decreases n - i
  {
    if i >= n then []
    else (if Has(m, i) then [m[i * BLOCK_LEN]] else []) + Listed(m, i + 1, n)
  }

  lemma FromStep(m: BlockMap, pieceLen: nat, i: nat)
    requires GridShaped(m, pieceLen) && Has(m, i)
    ensures From(m, i) != map[] && Least(From(m, i).Keys) == i * BLOCK_LEN
    ensures From(m, i) - {i * BLOCK_LEN} == From(m, i + 1)
    ensures From(m, i)[i * BLOCK_LEN] == m[i * BLOCK_LEN]
  {
    hide GridOffsets, BlockLen;
    assert i * BLOCK_LEN in From(m, i);
    forall o | o in m && i * BLOCK_LEN < o ensures (i + 1) * BLOCK_LEN <= o {
      NoGap(o, pieceLen, i);
    }
  }

  lemma FromNone(m: BlockMap, pieceLen: nat)
    requires GridShaped(m, pieceLen)
    ensures Ordered(From(m, BlockCount(pieceLen))) == Listed(m, BlockCount(pieceLen), BlockCount(pieceLen))
  {
    hide GridOffsets, BlockLen;
    forall o | o in m ensures o < BlockCount(pieceLen) * BLOCK_LEN { NoGap(o, pieceLen, 0); }
    assert From(m, BlockCount(pieceLen)) == map[];
  }

  lemma FromAll(m: BlockMap)
    ensures From(m, 0) == m
  {
  }

  lemma FullAt(m: BlockMap, pieceLen: nat, i: nat)
    requires Full(m, pieceLen) && i < BlockCount(pieceLen)
    ensures Has(m, i) && |m[i * BLOCK_LEN]| == BlockLen(pieceLen, i)
  {
  }

  lemma OrderedStep(m: BlockMap, k: nat)
    requires m != map[] && Least(m.Keys) == k
    ensures Ordered(m) == [m[k]] + Ordered(m - {k})
  {
  }

  lemma ListedStep(m: BlockMap, i: nat, n: nat)
    requires i < n && Has(m, i)
    ensures Listed(m, i, n) == [m[i * BLOCK_LEN]] + Listed(m, i + 1, n)
  {
  }

  lemma {:induction false} OrderedFrom(m: BlockMap, pieceLen: nat, i: nat)
    requires GridShaped(m, pieceLen) && Full(m, pieceLen) && i <= BlockCount(pieceLen)
    ensures Ordered(From(m, i)) == Listed(m, i, BlockCount(pieceLen))
    decreases BlockCount(pieceLen) - i
  {
    hide GridShaped, Full, From, Least, Ordered, Has, Listed;
    if i == BlockCount(pieceLen) {
      FromNone(m, pieceLen);
    } else {
      FullAt(m, pieceLen, i);
      FromStep(m, pieceLen, i);
      OrderedStep(From(m, i), i * BLOCK_LEN);
      OrderedFrom(m, pieceLen, i + 1);
      ListedStep(m, i, BlockCount(pieceLen));
    }
  }

  lemma {:induction false} ListedAt(m: BlockMap, pieceLen: nat, i: nat, j: nat)
    requires Full(m, pieceLen) && i <= BlockCount(pieceLen)
    ensures |Listed(m, i, BlockCount(pieceLen))| == BlockCount(pieceLen) - i
    ensures i <= j < BlockCount(pieceLen) ==> Has(m, j) && Listed(m, i, BlockCount(pieceLen))[j - i] == m[j * BLOCK_LEN]
    decreases BlockCount(pieceLen) - i
  {
    if i < BlockCount(pieceLen) {
      assert Has(m, i);
      ListedAt(m, pieceLen, i + 1, j);
    }
  }

  /** The first i blocks of a list shaped like the grid reach exactly to where block i begins. */
  lemma {:induction false} GridPrefix(blocks: seq<seq<byte>>, pieceLen: nat, i: nat)
    requires |blocks| == BlockCount(pieceLen) && i <= |blocks|
    requires forall j :: 0 <= j < |blocks| ==> |blocks[j]| == BlockLen(pieceLen, j)
    ensures |Flatten(blocks[..i])| == Min(i * BLOCK_LEN, pieceLen)
  {
    if i > 0 {
      GridPrefix(blocks, pieceLen, i - 1);
      assert blocks[..i] == blocks[..i - 1] + [blocks[i - 1]];
      FlattenSnoc(blocks[..i - 1], blocks[i - 1]);
    }
  }

  /** Joining grid-shaped blocks gives the whole piece, and cutting that gives the blocks back. */
  lemma GridRoundTrip(blocks: seq<seq<byte>>, pieceLen: nat)
    requires |blocks| == BlockCount(pieceLen)
    requires forall j :: 0 <= j < |blocks| ==> |blocks[j]| == BlockLen(pieceLen, j)
    ensures |Flatten(blocks)| == pieceLen && Cut(Flatten(blocks)) == blocks
  {
    GridPrefix(blocks, pieceLen, |blocks|);
    assert blocks[..|blocks|] == blocks;
    var data := Flatten(blocks);
    forall j | 0 <= j < |blocks| ensures Cut(data)[j] == blocks[j] {
      GridPrefix(blocks, pieceLen, j);
      FlattenSplit(blocks, j);
      assert blocks[j..][0] == blocks[j];
      var rest := Flatten(blocks[j..]);
      assert rest[..|blocks[j]|] == blocks[j];
      assert data[j * BLOCK_LEN..j * BLOCK_LEN + |blocks[j]|] == rest[..|blocks[j]|];
    }
  }

  /** A buffer with `block_count` grid-shaped blocks holds every block, and its bytes in offset
      order are exactly the piece. */
  lemma CompleteMeansWhole(m: BlockMap, pieceLen: nat)
    requires GridShaped(m, pieceLen) && |m| == BlockCount(pieceLen)
    ensures m.Keys == GridOffsets(pieceLen)
    ensures |Assemble(m)| == pieceLen && Cut(Assemble(m)) == Ordered(m)
    ensures forall i :: 0 <= i < BlockCount(pieceLen) ==> Has(m, i) && Cut(Assemble(m))[i] == m[i * BLOCK_LEN]
  {
    hide Ordered, Flatten, Cut, Listed, From, GridShaped, Full, GridOffsets, BlockLen;
    FullByCounting(m, pieceLen);
    OrderedFrom(m, pieceLen, 0);
    FromAll(m);
    var list := Ordered(m);
    forall j | 0 <= j < BlockCount(pieceLen)
      ensures Has(m, j) && |list| == BlockCount(pieceLen) && list[j] == m[j * BLOCK_LEN] && |list[j]| == BlockLen(pieceLen, j)
    {
      ListedAt(m, pieceLen, 0, j);
    }
    ListedAt(m, pieceLen, 0, 0);
    GridRoundTrip(list, pieceLen);
  }

  /** `Piece::enqueue_block` */
  function Enqueue(m: BlockMap, offset: nat, data: seq<byte>): BlockMap {
    if offset in m then m else m[offset := data]
  }

  /** `after` is `before` with a block more, unless there was one at the offset: that one stays. */
  ghost predicate FirstStays(before: BlockMap, after: BlockMap, offset: nat, data: seq<byte>) {
    && after.Keys == before.Keys + {offset}
    && (forall o :: o in before ==> o in after && after[o] == before[o])
    && (offset !in before ==> offset in after && after[offset] == data)
  }

  lemma EnqueueMeans(m: BlockMap, offset: nat, data: seq<byte>)
    ensures FirstStays(m, Enqueue(m, offset, data), offset, data)
  {
  }
}
