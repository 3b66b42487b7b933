/** A piece's write buffer, and scattering a piece over the torrent's files and gathering it back
    (cratetorrent/src/disk/io/piece.rs). */
module PieceIo {
  import opened Wrappers
  import opened Blocks
  import opened Storage
  import opened FlatDisk
  import opened FileIo
  import opened PieceBuffer
  import opened PieceCuts
  import V = IoVecs

  ghost predicate Distinct(files: seq<TorrentFile>) {
    forall i, j :: 0 <= i < j < |files| ==> files[i] != files[j]
  }

  function Infos(files: seq<TorrentFile>): (r: seq<FileInfo>)
    ensures |r| == |files| && forall i :: 0 <= i < |files| ==> r[i] == files[i].info
  {
    seq(|files|, i requires 0 <= i < |files| => files[i].info)
  }

  function Contents(files: seq<TorrentFile>): (r: seq<seq<byte>>)
    reads files
    ensures |r| == |files| && forall i :: 0 <= i < |files| ==> r[i] == files[i].content
  {
    seq(|files|, i requires 0 <= i < |files| reads files => files[i].content)
  }

  lemma OneFileChanged(files: seq<TorrentFile>, i: nat, pre: seq<seq<byte>>)
    requires i < |files| == |pre|
    requires forall k :: 0 <= k < |files| && k != i ==> files[k].content == pre[k]
    ensures Contents(files) == pre[i := files[i].content]
  {
  }

  /** What the files hold once the walk has come to file i. */
  ghost function Partway(infos: seq<FileInfo>, before: seq<seq<byte>>, offset: nat, data: seq<byte>, lo: nat, i: nat): (r: seq<seq<byte>>)
    requires |before| == |infos|
    ensures |r| == |infos|
  {
    seq(|infos|, k requires 0 <= k < |infos| =>
      if lo <= k < i then ScatterFile(infos[k], before[k], offset, data) else before[k])
  }

  lemma PartwayStart(infos: seq<FileInfo>, before: seq<seq<byte>>, offset: nat, data: seq<byte>, lo: nat)
    requires |before| == |infos|
    ensures Partway(infos, before, offset, data, lo, lo) == before
  {
  }

  lemma PartwayStep(infos: seq<FileInfo>, before: seq<seq<byte>>, offset: nat, data: seq<byte>, lo: nat, i: nat)
    requires |before| == |infos| && lo <= i < |infos|
    ensures Partway(infos, before, offset, data, lo, i)[i] == before[i]
    ensures Partway(infos, before, offset, data, lo, i + 1)
      == Partway(infos, before, offset, data, lo, i)[i := ScatterFile(infos[i], before[i], offset, data)]
  {
    hide ScatterFile;
  }

  /** The walk over the files done, every file has its share: files outside the range get none. */
  lemma PartwayDone(infos: seq<FileInfo>, before: seq<seq<byte>>, offset: nat, data: seq<byte>, lo: nat, hi: nat)
    requires Contiguous(infos) && |before| == |infos| && data != [] && offset + |data| <= Total(infos)
    requires (lo, hi) == IntersectingRange(infos, offset, offset + |data|)
    ensures Partway(infos, before, offset, data, lo, hi) == Scatter(infos, before, offset, data)
  {
    hide ScatterFile, IntersectingRange, Contiguous, Total;
    forall k | 0 <= k < |infos|
      ensures Partway(infos, before, offset, data, lo, hi)[k] == Scatter(infos, before, offset, data)[k]
    {
      LookupExactAt(infos, offset, offset + |data|, k);
      if !infos[k].Overlaps(offset, offset + |data|) {
        NoShare(infos[k], before[k], offset, data);
      }
    }
  }

  lemma NoShare(f: FileInfo, c: seq<byte>, offset: nat, data: seq<byte>)
    requires !f.Overlaps(offset, offset + |data|)
    ensures ScatterFile(f, c, offset, data) == c
  {
  }

  /** Writing the slice the walk takes at file i is that file's share of the scatter. */
  lemma SliceIsShare(infos: seq<FileInfo>, c: seq<byte>, start: nat, data: seq<byte>, i: nat, offset: nat)
    requires Contiguous(infos) && data != [] && start + |data| <= Total(infos)
    requires IntersectingRange(infos, start, start + |data|).0 <= i < IntersectingRange(infos, start, start + |data|).1
    requires offset == Max(start, infos[i].torrentOffset)
    ensures infos[i].torrentOffset <= offset < infos[i].End() && offset < start + |data|
    ensures var s := infos[i].GetSlice(offset, start + |data| - offset);
      && 0 < s.len <= |data[offset - start..]|
      && PWrite(c, s.offset, data[offset - start..][..s.len]) == ScatterFile(infos[i], c, start, data)
      && data[offset - start..][s.len..] == data[offset + s.len - start..]
  {
    hide PWrite, ScatterFile, IntersectingRange, Contiguous, Total, FileInfo.GetSlice;
    WalkStep(infos, start, start + |data|, i, offset);
    SliceStart(infos[i], offset, start + |data| - offset);
    ShareIs(infos[i], c, start, data, offset, infos[i].GetSlice(offset, start + |data| - offset).len);
  }

  lemma SliceStart(f: FileInfo, offset: nat, n: nat)
    requires Storage.Holds(f, offset)
    ensures f.GetSlice(offset, n).offset == offset - f.torrentOffset
  {
  }

  /** The part of the data from `offset` on that fits the file is the file's share. */
  lemma ShareIs(f: FileInfo, c: seq<byte>, start: nat, data: seq<byte>, offset: nat, len: nat)
    requires len > 0 && offset == Max(start, f.torrentOffset) && offset + len == Min(start + |data|, f.End())
    ensures var rest := data[offset - start..];
      && len <= |rest| && PWrite(c, offset - f.torrentOffset, rest[..len]) == ScatterFile(f, c, start, data)
      && rest[len..] == data[offset + len - start..]
  {
    hide PWrite;
    assert data[offset - start..][..len] == data[offset - start..offset + len - start];
  }

  /** After that slice the walk is where the next file's share begins, or done. */
  lemma SliceNext(infos: seq<FileInfo>, start: nat, end: nat, i: nat, offset: nat)
    requires Contiguous(infos) && start < end <= Total(infos)
    requires IntersectingRange(infos, start, end).0 <= i < IntersectingRange(infos, start, end).1
    requires offset == Max(start, infos[i].torrentOffset)
    ensures infos[i].torrentOffset <= offset < infos[i].End() && offset < end
    ensures 0 < infos[i].GetSlice(offset, end - offset).len
    ensures var next := offset + infos[i].GetSlice(offset, end - offset).len;
      if i + 1 < IntersectingRange(infos, start, end).1 then
        i + 1 < |infos| && next == Max(start, infos[i + 1].torrentOffset) < end
      else next == end
  {
    hide IntersectingRange, Contiguous;
    WalkStep(infos, start, end, i, offset);
  }

  class Piece<D(==)> {
    const expectedHash: D
    const len: nat
    var blocks: BlockMap
    const lo: nat
    const hi: nat

    constructor (expectedHash: D, len: nat, lo: nat, hi: nat)
      ensures this.expectedHash == expectedHash && this.len == len && blocks == map[]
      ensures this.lo == lo && this.hi == hi
    {
      this.expectedHash, this.len, this.blocks, this.lo, this.hi := expectedHash, len, map[], lo, hi;
    }

    method EnqueueBlock(offset: nat, data: seq<byte>)
      modifies this
      ensures blocks == Enqueue(old(blocks), offset, data) && FirstStays(old(blocks), blocks, offset, data)
    {
      if offset !in blocks {
        blocks := blocks[offset := data];
      }
    }

    predicate IsComplete()
      reads this
    {
      |blocks| == BlockCount(len)
    }

    /** The blocks in the order the sorted map yields them. */
    method BlockList() returns (list: seq<seq<byte>>)
      ensures list == Ordered(blocks)
    {
      list := [];
      var rest := blocks;
      while rest != map[]
        invariant list + Ordered(rest) == Ordered(blocks)
        decreases |rest|
      {
        LeastExists(rest.Keys);
        var k :| k in rest.Keys && forall j :: j in rest.Keys ==> k <= j;
        assert k == Least(rest.Keys);
        assert |rest.Keys - {k}| == |rest| - 1 && (rest - {k}).Keys == rest.Keys - {k};
        list := list + [rest[k]];
        rest := rest - {k};
      }
    }

    /** Feeds the blocks to the hasher one by one, which comes to hashing the assembled piece. */
    method MatchesHash(hash: seq<byte> -> D) returns (valid: bool)
      ensures valid <==> hash(Assemble(blocks)) == expectedHash
    {
      var list := BlockList();
      var fed := [];
      for i := 0 to |list|
        invariant fed == Flatten(list[..i])
      {
        assert list[..i + 1] == list[..i] + [list[i]];
        FlattenSnoc(list[..i], list[i]);
        fed := fed + list[i];
      }
      assert list[..|list|] == list;
      valid := hash(fed) == expectedHash;
    }

    /** One turn of the loop over the piece's files: file i gets its share. */
    method WriteShare(start: nat, files: seq<TorrentFile>, i: nat, store: array<seq<byte>>, bufs: nat, writeOffset: nat, ghost data: seq<byte>)
      returns (tail: nat, written: nat)
      requires Contiguous(Infos(files)) && Distinct(files)
      requires 0 < len == |data| && start + len <= Total(Infos(files))
      requires (lo, hi) == IntersectingRange(Infos(files), start, start + len) && lo <= i < hi
      requires start <= writeOffset == Max(start, files[i].info.torrentOffset) < start + len
      requires bufs <= store.Length && Flatten(store[bufs..]) == data[writeOffset - start..]
      modifies files, store
      ensures Contents(files) == old(Contents(files))[i := ScatterFile(files[i].info, old(files[i].content), start, data)]
      ensures 0 < written && writeOffset + written <= start + len
      ensures if i + 1 < hi then writeOffset + written == Max(start, files[i + 1].info.torrentOffset) < start + len
        else writeOffset + written == start + len
      ensures tail <= store.Length && Flatten(store[tail..]) == data[writeOffset + written - start..]
      ensures store[tail..] == V.TailOnceUsed(old(store[bufs..]), written)
    {
      hide ScatterFile, PWrite, Flatten, Contiguous, IntersectingRange, FileInfo.GetSlice, V.TailOnceUsed, Contents;
      ghost var pre := Contents(files);
      SliceIsShare(Infos(files), files[i].content, start, data, i, writeOffset);
      SliceNext(Infos(files), start, start + len, i, writeOffset);
      var slice := files[i].info.GetSlice(writeOffset, start + len - writeOffset);
      tail := files[i].WriteSlice(slice, store, bufs);
      written := slice.len;
      OneFileChanged(files, i, pre);
    }

    /** The loop over the piece's files, from a list of buffers that holds the whole piece; `ok` is what
        comes of its assertions, that the first buffer left is never empty and that none is left. */
    method WriteFiles(start: nat, files: seq<TorrentFile>, store: array<seq<byte>>, ghost data: seq<byte>) returns (tail: nat, ok: bool)
      requires Contiguous(Infos(files)) && Distinct(files)
      requires 0 < len == |data| && start + len <= Total(Infos(files))
      requires (lo, hi) == IntersectingRange(Infos(files), start, start + len)
      requires Flatten(store[0..]) == data
      modifies files, store
      ensures Contents(files) == Scatter(Infos(files), old(Contents(files)), start, data)
      ensures tail <= store.Length && Flatten(store[tail..]) == []
      ensures old(store[0..]) == Cut(data) ==> store[tail..] == [] && (ok <==> NoneBad(Infos(files), start, len, |files|))
    {
      hide Scatter, Flatten, Contiguous, IntersectingRange, Contents, NoneBad, V.TailOnceUsed, Cut, Walking, ScatterFile;
      ghost var infos, before, grid := Infos(files), Contents(files), store[0..] == Cut(data);
      RangeStart(infos, start, start + len);
      tail, ok := 0, true;
      var writeOffset: nat := start;
      var i := lo;
      WalkStarts(infos, before, start, data, store[0..], grid);
      while i < hi
        invariant lo <= i <= hi <= |files| && tail <= store.Length
        invariant Walking(infos, before, start, data, i, writeOffset, Contents(files), store[tail..], grid, ok)
      {
        WalkAt(infos, before, start, data, i, writeOffset, Contents(files), store[tail..], grid, ok);
        ghost var contents, bufs, was := Contents(files), store[tail..], ok;
        if tail == store.Length || store[tail] == [] {
          ok := false;
        }
        var written;
        tail, written := WriteShare(start, files, i, store, tail, writeOffset, data);
        WalkTurn(infos, before, start, data, i, writeOffset, contents, bufs, grid, was, written, store[tail..]);
        writeOffset := writeOffset + written;
        i := i + 1;
      }
      WalkEnds(infos, before, start, data, writeOffset, Contents(files), store[tail..], grid, ok);
      if tail != store.Length {
        ok := false;
      }
    }

    /** Scatters the piece over its files with the documented write loop: every byte of the piece
        lands at its torrent offset, no other byte of any file changes, and no bytes are left over. For a
        piece of blocks on the grid no buffer is left over either, and the source's assertions on the
        way hold exactly when no file ends inside the piece on a block boundary of it. */
    method Write(torrentPieceOffset: nat, files: seq<TorrentFile>) returns (left: seq<seq<byte>>, ok: bool)
      requires Contiguous(Infos(files)) && Distinct(files)
      requires 0 < len == |Assemble(blocks)| && torrentPieceOffset + len <= Total(Infos(files))
      requires (lo, hi) == IntersectingRange(Infos(files), torrentPieceOffset, torrentPieceOffset + len)
      modifies files
      ensures Contents(files) == Scatter(Infos(files), old(Contents(files)), torrentPieceOffset, Assemble(blocks))
      ensures Flatten(left) == []
      ensures GridShaped(blocks, len) && |blocks| == BlockCount(len) ==>
        left == [] && (ok <==> NoneBad(Infos(files), torrentPieceOffset, len, |files|))
    {
      hide Scatter, Contiguous, IntersectingRange, Flatten, Cut, NoneBad, GridShaped, Ordered;
      var list := BlockList();
      var store := new seq<byte>[|list|](i requires 0 <= i < |list| => list[i]);
      assert store[0..] == list;
      if GridShaped(blocks, len) && |blocks| == BlockCount(len) {
        CompleteMeansWhole(blocks, len);
      }
      var tail;
      tail, ok := WriteFiles(torrentPieceOffset, files, store, Assemble(blocks));
      left := store[tail..];
    }
  }

  /** Where the loop of `write` stands before the turn of file i, with `bufs` still to write. For a piece
      of blocks on the grid they are known buffer by buffer, and so is what came of the checks. */
  ghost predicate Walking(infos: seq<FileInfo>, before: seq<seq<byte>>, start: nat, data: seq<byte>, i: nat, offset: nat,
      contents: seq<seq<byte>>, bufs: seq<seq<byte>>, grid: bool, ok: bool)
    requires |infos| > 0
  {
    var (lo, hi) := IntersectingRange(infos, start, start + |data|);
    && |before| == |infos| && lo <= i <= hi <= |infos| && start <= offset <= start + |data|
    && (i < hi ==> offset == Max(start, infos[i].torrentOffset) < start + |data|)
    && (i == hi ==> offset == start + |data|)
    && Flatten(bufs) == data[offset - start..]
    && contents == Partway(infos, before, start, data, lo, i)
    && (grid ==> bufs == Left(data, offset - start) && (ok <==> OkSoFar(infos, start, |data|, lo, i)))
  }

  lemma WalkStarts(infos: seq<FileInfo>, before: seq<seq<byte>>, start: nat, data: seq<byte>, bufs: seq<seq<byte>>, grid: bool)
    requires |infos| > 0
    requires Contiguous(infos) && |before| == |infos| && data != [] && start + |data| <= Total(infos)
    requires Flatten(bufs) == data && (grid ==> bufs == Cut(data))
    ensures Walking(infos, before, start, data, IntersectingRange(infos, start, start + |data|).0, start, before, bufs, grid, true)
  {
    hide IntersectingRange, Contiguous, Total, Partway, Left, Cut, Flatten, OkSoFar;
    var lo := IntersectingRange(infos, start, start + |data|).0;
    RangeStart(infos, start, start + |data|);
    PartwayStart(infos, before, start, data, lo);
    LeftStart(data);
    NoneChecked(infos, start, |data|, lo);
    assert data[0..] == data;
  }

  lemma WalkAt(infos: seq<FileInfo>, before: seq<seq<byte>>, start: nat, data: seq<byte>, i: nat, offset: nat,
      contents: seq<seq<byte>>, bufs: seq<seq<byte>>, grid: bool, ok: bool)
    requires |infos| > 0
    requires Walking(infos, before, start, data, i, offset, contents, bufs, grid, ok)
    ensures i < IntersectingRange(infos, start, start + |data|).1 ==> i < |infos| && start <= offset == Max(start, infos[i].torrentOffset) < start + |data|
    ensures start <= offset <= start + |data| && Flatten(bufs) == data[offset - start..]
  {
    hide IntersectingRange, Partway, Left, Flatten, OkSoFar;
  }

  /** The turn of file i keeps the loop on its way. */
  lemma WalkTurn(infos: seq<FileInfo>, before: seq<seq<byte>>, start: nat, data: seq<byte>, i: nat, offset: nat,
      contents: seq<seq<byte>>, bufs: seq<seq<byte>>, grid: bool, ok: bool, written: nat, left: seq<seq<byte>>)
    requires |infos| > 0
    requires Contiguous(infos) && data != [] && start + |data| <= Total(infos) && |contents| == |infos|
    requires Walking(infos, before, start, data, i, offset, contents, bufs, grid, ok) && i < IntersectingRange(infos, start, start + |data|).1 <= |infos|
    requires 0 < written && offset + written <= start + |data| && Flatten(left) == data[offset + written - start..]
    requires if i + 1 < IntersectingRange(infos, start, start + |data|).1
      then offset + written == Max(start, infos[i + 1].torrentOffset) < start + |data| else offset + written == start + |data|
    requires start <= offset && left == V.TailOnceUsed(bufs, written)
    ensures Walking(infos, before, start, data, i + 1, offset + written, contents[i := ScatterFile(infos[i], contents[i], start, data)], left, grid,
      ok && bufs != [] && bufs[0] != [])
  {
    hide IntersectingRange, Contiguous, Total, Partway, ScatterFile, Left, Flatten, OkSoFar, V.TailOnceUsed;
    PartwayStep(infos, before, start, data, IntersectingRange(infos, start, start + |data|).0, i);
    CheckTurn(infos, start, data, i, offset);
    LeftNext(data, offset - start, written);
  }

  lemma WalkEnds(infos: seq<FileInfo>, before: seq<seq<byte>>, start: nat, data: seq<byte>, offset: nat,
      contents: seq<seq<byte>>, bufs: seq<seq<byte>>, grid: bool, ok: bool)
    requires |infos| > 0
    requires Contiguous(infos) && |before| == |infos| && data != [] && start + |data| <= Total(infos)
    requires Walking(infos, before, start, data, IntersectingRange(infos, start, start + |data|).1, offset, contents, bufs, grid, ok)
    ensures contents == Scatter(infos, before, start, data) && Flatten(bufs) == []
    ensures grid ==> bufs == [] && (ok <==> NoneBad(infos, start, |data|, |infos|))
  {
    hide IntersectingRange, Contiguous, Total, Partway, Scatter, Left, Flatten, OkSoFar, NoneBad;
    var (lo, hi) := IntersectingRange(infos, start, start + |data|);
    PartwayDone(infos, before, start, data, lo, hi);
    CheckEnd(infos, start, |data|);
    LeftFirst(data, |data|);
  }

  lemma LeftStart(data: seq<byte>)
    ensures Left(data, 0) == Cut(data)
  {
    CutStart(data);
    assert [] + CutFrom(data, 0) == CutFrom(data, 0);
  }

  /** The windows of a read buffer: one per block. */
  function BlockWindows(len: nat): (r: seq<V.Window>)
    ensures |r| == BlockCount(len)
  {
    seq(BlockCount(len), i requires 0 <= i < BlockCount(len) => V.Window(i * BLOCK_LEN, BlockLen(len, i)))
  }

  lemma {:induction false} BlockWindowsConsecutive(len: nat, i: nat)
    requires i <= BlockCount(len)
    ensures V.Consecutive(BlockWindows(len)[i..], Min(i * BLOCK_LEN, len), len)
    decreases BlockCount(len) - i
  {
    if i < BlockCount(len) {
      BlockWindowsConsecutive(len, i + 1);
      assert BlockWindows(len)[i..][1..] == BlockWindows(len)[i + 1..];
    }
  }

  /** Under these conditions every file gives each slice in one read: the kernel transfers in full, the
      range has been written, and no file is longer than declared. */
  ghost predicate CleanRead(infos: seq<FileInfo>, contents: seq<seq<byte>>, start: nat, end: nat, full: bool)
    requires |contents| == |infos|
  {
    full && Bounded(infos, contents) && Present(infos, contents, start, end)
  }

  /** A clean range is there, and the files in it end no later than declared. */
  lemma CleanSlice(infos: seq<FileInfo>, contents: seq<seq<byte>>, start: nat, end: nat, full: bool, i: nat, offset: nat, s: FileSlice)
    requires Contiguous(infos) && start < end <= Total(infos) && |contents| == |infos|
    requires CleanRead(infos, contents, start, end, full)
    requires IntersectingRange(infos, start, end).0 <= i < IntersectingRange(infos, start, end).1
    requires offset == Max(start, infos[i].torrentOffset)
    requires offset < infos[i].End() && offset < end && s == infos[i].GetSlice(offset, end - offset)
    ensures full && OneReadDoes(contents[i], s, end - offset)
  {
    hide Contiguous, IntersectingRange;
    WalkStep(infos, start, end, i, offset);
    assert infos[i].Overlaps(start, end);
  }

  /** One read of a present slice puts the torrent's own bytes into memory. */
  lemma ReadIsSlice(infos: seq<FileInfo>, contents: seq<seq<byte>>, i: nat, offset: nat, n: nat, s: FileSlice)
    requires Contiguous(infos) && |contents| == |infos| && i < |infos|
    requires infos[i].torrentOffset <= offset < infos[i].End() && s == infos[i].GetSlice(offset, n)
    requires s.offset + s.len <= |contents[i]|
    ensures offset + s.len <= |Flat(infos, contents)|
    ensures SameOffsetRead(contents[i], s.offset, [s.len]) == Flat(infos, contents)[offset..offset + s.len]
  {
    hide Flat, Contiguous, SameOffsetRead, Fit, PadTo;
    SliceOfFlat(infos, contents, i, offset, offset + s.len);
    OneChunk(contents[i], s.offset, s.len);
  }

  lemma OneChunk(c: seq<byte>, offset: nat, n: nat)
    requires offset + n <= |c|
    ensures SameOffsetRead(c, offset, [n]) == c[offset..offset + n]
  {
    assert [n][..0] == [];
    assert SameOffsetRead(c, offset, []) == [];
  }

  /** File i has nothing of the part of the range that lies in it. */
  predicate Lacks(infos: seq<FileInfo>, contents: seq<seq<byte>>, start: nat, i: nat) {
    i < |infos| && i < |contents| && |contents[i]| <= Max(start, infos[i].torrentOffset) - infos[i].torrentOffset
  }

  lemma SliceLacks(files: seq<TorrentFile>, i: nat, start: nat, end: nat, offset: nat)
    requires i < |files| && files[i].info.torrentOffset <= offset < files[i].info.End() && offset < end
    requires offset == Max(start, files[i].info.torrentOffset)
    ensures Lacks(Infos(files), Contents(files), start, i) <==> |files[i].content| <= files[i].info.GetSlice(offset, end - offset).offset
  {
  }

  /** One turn of the loop over the piece's files: file i gives its share. None is the missing-data error. */
  method ReadShare(start: nat, files: seq<TorrentFile>, i: nat, end: nat, offset: nat, mem: array<byte>, ws: array<V.Window>, bufs: nat,
                   full: bool, ghost at: nat)
    returns (next: Option<nat>, sliceLen: nat, ghost got: nat)
    requires Contiguous(Infos(files)) && start < end <= Total(Infos(files))
    requires IntersectingRange(Infos(files), start, end).0 <= i < IntersectingRange(Infos(files), start, end).1
    requires offset == Max(start, files[i].info.torrentOffset) < end
    requires bufs <= ws.Length && at <= mem.Length && V.Consecutive(ws[bufs..], at, mem.Length)
    modifies mem, ws
    ensures 0 < sliceLen && offset + sliceLen <= end
    ensures if i + 1 < IntersectingRange(Infos(files), start, end).1
      then i + 1 < |files| && offset + sliceLen == Max(start, files[i + 1].info.torrentOffset) < end
      else offset + sliceLen == end
    ensures next.None? <==> Lacks(Infos(files), Contents(files), start, i) && at < mem.Length
    ensures next.Some? ==> next.value <= ws.Length && at + got <= mem.Length && V.Consecutive(ws[next.value..], at + got, mem.Length)
    ensures CleanRead(Infos(files), Contents(files), start, end, full) && mem.Length - at == end - offset ==>
      && next.Some? && got == sliceLen && offset + got <= |Flat(Infos(files), Contents(files))|
      && mem[..] == Overwrite(old(mem[..]), at, Flat(Infos(files), Contents(files))[offset..offset + got])
  {
    hide Contiguous, IntersectingRange, Flat, V.Consecutive, CleanRead, Fetched, SameOffsetRead, OneReadDoes, FileInfo.GetSlice, Overwrite, Contents, Infos;
    SliceNext(Infos(files), start, end, i, offset);
    var slice := files[i].info.GetSlice(offset, end - offset);
    SliceLacks(files, i, start, end, offset);
    ghost var clean := CleanRead(Infos(files), Contents(files), start, end, full) && mem.Length - at == end - offset;
    if clean {
      CleanSlice(Infos(files), Contents(files), start, end, full, i, offset, slice);
      NotMissing(files[i].content, slice, end - offset);
      ReadIsSlice(Infos(files), Contents(files), i, offset, end - offset, slice);
    }
    ghost var before, chunk := mem[..], SameOffsetRead(files[i].content, slice.offset, [slice.len]);
    var counts;
    next, counts := files[i].Read(slice, mem, ws, bufs, full, at, mem.Length);
    sliceLen, got := slice.len, V.Sum(counts);
    if clean {
      FetchedWhole(files[i].content, slice, before, mem[..], at, chunk);
    }
  }

  /** `piece::read`: gathers a piece from its files into block buffers. The missing-data error means that
      some file has nothing of its part, and comes for sure when the first file has not. */
  method Read(start: nat, lo: nat, hi: nat, files: seq<TorrentFile>, len: nat, full: bool) returns (r: Option<seq<seq<byte>>>)
    requires Contiguous(Infos(files)) && 0 < len && start + len <= Total(Infos(files))
    requires (lo, hi) == IntersectingRange(Infos(files), start, start + len)
    ensures CleanRead(Infos(files), Contents(files), start, start + len, full) ==>
      && start + len <= |Flat(Infos(files), Contents(files))|
      && r == Some(Cut(Flat(Infos(files), Contents(files))[start..start + len]))
    ensures r.None? ==> exists i :: lo <= i < hi && Lacks(Infos(files), Contents(files), start, i)
    ensures Lacks(Infos(files), Contents(files), start, lo) ==> r.None?
    ensures r.Some? ==> |r.value| == BlockCount(len)
  {
    hide Contiguous, IntersectingRange, Flat, Cut, V.Consecutive, CleanRead, Overwrite, BlockWindows, Contents, Infos, Lacks;
    ghost var infos, contents := Infos(files), Contents(files);
    var end := start + len;
    ghost var clean, flat := CleanRead(infos, contents, start, end, full), Flat(infos, contents);
    ghost var first := Lacks(infos, contents, start, lo);
    FlatLen(infos, contents);
    RangeStart(infos, start, end);
    var mem := new byte[len](_ => 0);
    var ws := new V.Window[BlockCount(len)](i requires 0 <= i < BlockCount(len) => BlockWindows(len)[i]);
    BlockWindowsConsecutive(len, 0);
    assert ws[0..] == BlockWindows(len)[0..];
    var i, offset: nat, bufs: nat := lo, start, 0;
    ghost var at: nat := 0;
    while i < hi
      invariant lo <= i <= hi <= |files| && start <= offset <= end
      invariant if i < hi then offset == Max(start, files[i].info.torrentOffset) < end else offset == end
      invariant bufs <= ws.Length && at <= len && V.Consecutive(ws[bufs..], at, len)
      invariant clean ==> at == offset - start && mem[..at] == flat[start..offset]
      invariant Contents(files) == contents && (i == lo ==> at == 0) && (i > lo ==> !first)
    {
      ghost var before := mem[..];
      var next, sliceLen, got := ReadShare(start, files, i, end, offset, mem, ws, bufs, full, at);
      if next.None? {
        return None;
      }
      if clean { Extend(flat, start, offset, got, mem[..], before, at); }
      at := at + got;
      bufs := next.value;
      offset := offset + sliceLen;
      i := i + 1;
    }
    if clean { assert mem[..] == mem[..at]; }
    r := Some(Cut(mem[..]));
  }

  lemma NotMissing(c: seq<byte>, s: FileSlice, room: int)
    requires OneReadDoes(c, s, room)
    ensures s.offset < |c| && s.offset + s.len <= |c|
  {
  }

  lemma FetchedWhole(c: seq<byte>, s: FileSlice, before: seq<byte>, mem: seq<byte>, a: nat, chunk: seq<byte>)
    requires Fetched(c, s.offset, before, mem, a, [s.len])
    requires SameOffsetRead(c, s.offset, [s.len]) == chunk
    ensures V.Sum([s.len]) == s.len == |chunk| && a + s.len <= |before| && mem == Overwrite(before, a, chunk)
  {
    assert [s.len][1..] == [];
  }

  lemma Extend(flat: seq<byte>, start: nat, offset: nat, n: nat, mem: seq<byte>, before: seq<byte>, at: nat)
    requires start <= offset <= offset + n <= |flat| && at == offset - start && at + n <= |before|
    requires before[..at] == flat[start..offset] && mem == Overwrite(before, at, flat[offset..offset + n])
    ensures mem[..at + n] == flat[start..offset + n]
  {
  }

  /** Gathering inverts scattering: after a write of grid-shaped blocks over any bounded files, the
      region cut into blocks is the blocks, and it is present, so `Read` returns exactly them. */
  lemma GatherInvertsScatter(infos: seq<FileInfo>, contents: seq<seq<byte>>, off: nat, m: BlockMap, pieceLen: nat)
    requires Contiguous(infos) && |contents| == |infos| && Bounded(infos, contents) && 0 < pieceLen && off + pieceLen <= Total(infos)
    requires GridShaped(m, pieceLen) && |m| == BlockCount(pieceLen)
    ensures var after := Scatter(infos, contents, off, Assemble(m));
      && CleanRead(infos, after, off, off + pieceLen, true)
      && |Flat(infos, after)| == Total(infos)
      && Flat(infos, after)[off..off + pieceLen] == Assemble(m)
      && Cut(Flat(infos, after)[off..off + pieceLen]) == Ordered(m)
  {
    hide Flat, Scatter, Contiguous, Ordered, Assemble, Cut, Present, Bounded, GridShaped;
    CompleteMeansWhole(m, pieceLen);
    var data := Assemble(m);
    ScatterIsOverwrite(infos, contents, off, data);
    ScatterBounded(infos, contents, off, data);
    FlatLen(infos, Scatter(infos, contents, off, data));
    assert Overwrite(Flat(infos, contents), off, data)[off..off + pieceLen] == data;
  }
}
