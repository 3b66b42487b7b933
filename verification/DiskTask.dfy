/** The disk task's side of a torrent: buffering blocks, flushing complete pieces
    (cratetorrent/src/disk/io/torrent.rs). */
module DiskTask {
  import opened Wrappers
  import opened Blocks
  import opened Storage
  import opened FlatDisk
  import opened FileIo
  import opened PieceBuffer
  import opened Swarm
  import P = PieceIo

  type Piece = P.Piece<Digest>

  /** The pieces are filed under their index with the metainfo's data for it. */
  ghost predicate FiledPiece(s: StorageInfo, expected: seq<Digest>, p: nat, piece: Piece) {
    && p < s.pieceCount == |expected| && |s.files| > 0
    && piece.expectedHash == expected[p] && piece.len == s.PieceLen(p)
    && (piece.lo, piece.hi) == IntersectingRange(s.files, s.PieceOffset(p), s.PieceEnd(p))
  }

  lemma FiledLen(s: StorageInfo, expected: seq<Digest>, p: nat, piece: Piece)
    requires FiledPiece(s, expected, p, piece)
    ensures p < s.pieceCount && piece.len == s.PieceLen(p)
  {
  }

  class DiskTorrent {
    const info: StorageInfo
    const pieceHashes: seq<Digest>
    const files: seq<TorrentFile>
    var writeBuf: map<nat, Piece>

    ghost predicate Valid()
      reads this
    {
      && info.Valid() && |pieceHashes| == info.pieceCount
      && P.Infos(files) == info.files && P.Distinct(files)
      && (forall p :: p in writeBuf ==> FiledPiece(info, pieceHashes, p, writeBuf[p]))
      && (forall p, q :: p in writeBuf && q in writeBuf && p != q ==> writeBuf[p] != writeBuf[q])
    }

    ghost function Buffer(): (r: map<nat, BlockMap>)
      reads this, writeBuf.Values
      ensures r.Keys == writeBuf.Keys && forall p {:trigger r[p]} :: p in r ==> r[p] == writeBuf[p].blocks
    {
      map p | p in writeBuf :: writeBuf[p].blocks
    }

    constructor (info: StorageInfo, pieceHashes: seq<Digest>, files: seq<TorrentFile>)
      requires info.Valid() && |pieceHashes| == info.pieceCount && P.Infos(files) == info.files && P.Distinct(files)
      ensures Valid() && this.info == info && this.files == files && writeBuf == map[]
    {
      this.info, this.pieceHashes, this.files, this.writeBuf := info, pieceHashes, files, map[];
    }

    /** An index out of range is a panic. */
    method StartNewPiece(index: nat)
      requires Valid() && index < info.pieceCount && index !in writeBuf
      modifies this`writeBuf
      ensures Valid() && writeBuf.Keys == old(writeBuf).Keys + {index}
      ensures fresh(writeBuf[index]) && writeBuf[index].blocks == map[]
      ensures forall p :: p in old(writeBuf) ==> writeBuf[p] == old(writeBuf[p])
    {
      PieceOrder(info, index);
      var lo, hi := FilesIntersectingBytes(info.files, info.PieceOffset(index), info.PieceEnd(index));
      var piece := new P.Piece<Digest>(pieceHashes[index], info.PieceLen(index), lo, hi);
      writeBuf := writeBuf[index := piece];
    }

    method PieceFor(p: nat) returns (piece: Piece)
      requires Valid() && p < info.pieceCount
      modifies this`writeBuf
      ensures Valid() && p in writeBuf && writeBuf[p] == piece
      ensures piece.blocks == if p in old(Buffer()) then old(Buffer())[p] else map[]
      ensures Buffer() == old(Buffer())[p := piece.blocks]
      ensures fresh(writeBuf.Values - old(writeBuf.Values))
    {
      hide FiledPiece, P.Infos, P.Distinct, StorageInfo.Valid;
      ghost var before := Buffer();
      if p !in writeBuf {
        StartNewPiece(p);
      }
      piece := writeBuf[p];
      assert Buffer() == before[p := piece.blocks];
    }

    method EnqueueIn(p: nat, offset: nat, data: seq<byte>)
      requires Valid() && p in writeBuf
      modifies writeBuf[p]
      ensures Valid() && Buffer() == old(Buffer())[p := Enqueue(old(Buffer())[p], offset, data)]
    {
      hide Enqueue, FiledPiece;
      ghost var before := Buffer();
      writeBuf[p].EnqueueBlock(offset, data);
      forall q | q in writeBuf && q != p ensures writeBuf[q].blocks == before[q] {
        assert writeBuf[q] != writeBuf[p];
      }
    }

    /** `write_block`: the piece, once it has all its blocks, leaves the buffer to be flushed. */
    method WriteBlock(block: BlockInfo, data: seq<byte>) returns (flush: Option<Piece>)
      requires Valid() && block.pieceIndex < info.pieceCount
      modifies this`writeBuf, writeBuf.Values
      ensures Valid()
      ensures var p := block.pieceIndex;
        var before := old(Buffer());
        var m := Enqueue(if p in before then before[p] else map[], block.offset, data);
        && flush.Some? == (|m| == BlockCount(info.PieceLen(p)))
        && (flush.Some? ==> flush.value.blocks == m && FiledPiece(info, pieceHashes, p, flush.value) && Buffer() == before - {p})
        && (flush.None? ==> Buffer() == before[p := m])
        && FirstStays(if p in before then before[p] else map[], if flush.Some? then flush.value.blocks else Buffer()[p], block.offset, data)
    {
      EnqueueMeans(if block.pieceIndex in Buffer() then Buffer()[block.pieceIndex] else map[], block.offset, data);
      hide Enqueue, FirstStays, FiledPiece, P.Infos, P.Distinct, StorageInfo.Valid;
      ghost var before := Buffer();
      var p := block.pieceIndex;
      var piece := PieceFor(p);
      ghost var m := piece.blocks;
      EnqueueIn(p, block.offset, data);
      UpdateTwice(before, p, m, Enqueue(m, block.offset, data));
      FiledLen(info, pieceHashes, p, piece);
      var complete := piece.IsComplete();
      if complete {
        Remove(p);
        flush := Some(piece);
      } else {
        flush := None;
      }
    }

    method Remove(p: nat)
      requires Valid() && p in writeBuf
      modifies this`writeBuf
      ensures Valid() && Buffer() == old(Buffer()) - {p}
    {
      hide FiledPiece;
      writeBuf := writeBuf - {p};
    }

    /** The flush job: hash, write if valid, report. */
    method Flush(index: nat, piece: Piece, hash: seq<byte> -> Digest) returns (completion: PieceCompletion)
      requires Valid() && FiledPiece(info, pieceHashes, index, piece)
      requires GridShaped(piece.blocks, piece.len) && |piece.blocks| == BlockCount(piece.len)
      modifies files
      ensures completion.index == index
      ensures completion.isValid <==> hash(Assemble(piece.blocks)) == pieceHashes[index]
      ensures P.Contents(files) ==
        if completion.isValid then Scatter(info.files, old(P.Contents(files)), info.PieceOffset(index), Assemble(piece.blocks))
        else old(P.Contents(files))
    {
      hide Scatter, Assemble, GridShaped, IntersectingRange, P.Contents, P.Infos, P.Distinct, Contiguous, Total;
      var valid := piece.MatchesHash(hash);
      PieceOrder(info, index);
      CompleteMeansWhole(piece.blocks, piece.len);
      if valid {
        var left, ok := piece.Write(info.PieceOffset(index), files);
      }
      completion := PieceCompletion(index, valid);
    }
  }
}
