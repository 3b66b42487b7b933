/** The 16 KiB block grid of a piece (cratetorrent/src/lib.rs). */
module Blocks {
  import opened Wrappers

  const BLOCK_LEN: nat := 0x4000

  datatype BlockInfo = BlockInfo(pieceIndex: nat, offset: nat, len: nat) {
    function IndexInPiece(): nat { offset / BLOCK_LEN }
  }

  /** The length of the block at the index; the source panics past the end of the piece. */
  function BlockLen(pieceLen: nat, i: nat): (r: nat)
    requires i * BLOCK_LEN < pieceLen
  {
    Min(pieceLen - i * BLOCK_LEN, BLOCK_LEN)
  }

  function BlockCount(pieceLen: nat): nat {
    (pieceLen + (BLOCK_LEN - 1)) / BLOCK_LEN
  }

  /** The request for the i-th block of a piece. */
  function BlockAt(piece: nat, pieceLen: nat, i: nat): BlockInfo
    requires i < BlockCount(pieceLen)
  {
    BlockInfo(piece, i * BLOCK_LEN, BlockLen(pieceLen, i))
  }

  /** A block that lies on the grid of its piece. */
  predicate OnGrid(b: BlockInfo, pieceLen: nat) {
    b.IndexInPiece() < BlockCount(pieceLen) && b == BlockAt(b.pieceIndex, pieceLen, b.IndexInPiece())
  }

  function GridOffsets(pieceLen: nat): set<nat> {
    set i | 0 <= i < BlockCount(pieceLen) :: i * BLOCK_LEN
  }

  /** Every byte of a piece, of any length, lies in exactly one block. */
  lemma BlocksPartition(pieceLen: nat, k: nat, i: nat)
    ensures k < pieceLen ==> k / BLOCK_LEN < BlockCount(pieceLen)
    ensures i < BlockCount(pieceLen) ==>
      (i * BLOCK_LEN <= k < i * BLOCK_LEN + BlockLen(pieceLen, i) <==> k < pieceLen && i == k / BLOCK_LEN)
  {
    if i < BlockCount(pieceLen) && i * BLOCK_LEN <= k < i * BLOCK_LEN + BlockLen(pieceLen, i) {
      assert k / BLOCK_LEN == i;
    }
  }

  /** `index_in_piece` recovers the block index, and grid blocks are determined by piece and offset. */
  lemma IndexInverts(piece: nat, pieceLen: nat, i: nat)
    requires i < BlockCount(pieceLen)
    ensures BlockAt(piece, pieceLen, i).IndexInPiece() == i
    ensures OnGrid(BlockAt(piece, pieceLen, i), pieceLen)
    ensures 0 < BlockAt(piece, pieceLen, i).len <= BLOCK_LEN == 16 * 1024
  {
    assert (i * BLOCK_LEN) / BLOCK_LEN == i;
  }

  lemma {:induction false} OffsetSetSize(n: nat)
    ensures |set i | 0 <= i < n :: i * BLOCK_LEN| == n
  {
    if n > 0 {
      OffsetSetSize(n - 1);
      var s := set i | 0 <= i < n - 1 :: i * BLOCK_LEN;
      assert (n - 1) * BLOCK_LEN !in s;
      assert (set i | 0 <= i < n :: i * BLOCK_LEN) == s + {(n - 1) * BLOCK_LEN};
    } else {
      assert (set i | 0 <= i < 0 :: i * BLOCK_LEN) == {};
    }
  }

  lemma {:induction false} SubsetOfSameSize<T>(a: set<T>, b: set<T>)
    requires a <= b
    ensures |a| <= |b|
    ensures |a| == |b| ==> a == b
  {
    if a != b {
      var x :| x in b && x !in a;
      if a == {} {
        assert |b| > 0;
      } else {
        var y :| y in a;
        SubsetOfSameSize(a - {y}, b - {y});
        assert x in b - {y};
      }
    }
  }

  /** Counting is enough: `block_count` distinct grid offsets are all the grid offsets. */
  lemma CompleteByCounting(offsets: set<nat>, pieceLen: nat)
    requires offsets <= GridOffsets(pieceLen)
    ensures |offsets| <= BlockCount(pieceLen)
    ensures |offsets| == BlockCount(pieceLen) <==> offsets == GridOffsets(pieceLen)
  {
    OffsetSetSize(BlockCount(pieceLen));
    SubsetOfSameSize(offsets, GridOffsets(pieceLen));
  }

  /** Cuts the bytes of a piece into its blocks. */
  function Cut(data: seq<byte>): (r: seq<seq<byte>>)
    ensures |r| == BlockCount(|data|)
  {
    seq(BlockCount(|data|), i requires 0 <= i < BlockCount(|data|) =>
      data[i * BLOCK_LEN..i * BLOCK_LEN + BlockLen(|data|, i)])
  }

  /** The first k blocks hold the first k * BLOCK_LEN bytes, or all of them. */
  lemma {:induction false} CutPrefix(data: seq<byte>, k: nat)
    requires k <= BlockCount(|data|)
    ensures Flatten(Cut(data)[..k]) == data[..Min(k * BLOCK_LEN, |data|)]
  {
    if k > 0 {
      CutPrefix(data, k - 1);
      assert Cut(data)[..k] == Cut(data)[..k - 1] + [Cut(data)[k - 1]];
      FlattenSnoc(Cut(data)[..k - 1], Cut(data)[k - 1]);
    }
  }

  /** Cutting a piece into blocks loses nothing. */
  lemma CutFlatten(data: seq<byte>)
    ensures Flatten(Cut(data)) == data
  {
    CutPrefix(data, BlockCount(|data|));
    assert Cut(data)[..BlockCount(|data|)] == Cut(data);
  }
}
