/** `Piece::write` with `TorrentFile::write` as it is coded, on a kernel that transfers in full: when
    it scatters a piece correctly, and when it does not (cratetorrent/src/disk/io/piece.rs,
    cratetorrent/src/disk/io/file.rs). */
module AsCoded {
  import opened Wrappers
  import opened Blocks
  import opened Storage
  import opened FlatDisk
  import opened FileIo
  import V = IoVecs
  import opened PieceCuts
  import P = PieceIo

  /** The walk over files `i..hi`: each writes the first half of the bounded buffers at its slice's
      offset, and the next continues with the tail. */
  function WriteFrom(files: seq<FileInfo>, contents: seq<seq<byte>>, i: nat, hi: nat, off: nat, n: nat, bufs: seq<seq<byte>>): (r: seq<seq<byte>>)
    requires |contents| == |files| && hi <= |files|
    ensures |r| == |files|
    decreases hi - i
  {
    if i >= hi || n == 0 || !Storage.Holds(files[i], off) then contents
    else
      var s := files[i].GetSlice(off, n);
      V.BoundedMeaning(bufs, s.len);
      var v := V.BoundedView(bufs, s.len);
      WriteFrom(files, contents[i := PWrite(contents[i], s.offset, v.Front())], i + 1, hi, off + s.len, n - s.len, V.TailView(v))
  }

  /** The buffers left after that walk. */
  function LeftFrom(files: seq<FileInfo>, i: nat, hi: nat, off: nat, n: nat, bufs: seq<seq<byte>>): seq<seq<byte>>
    requires hi <= |files|
    decreases hi - i
  {
    if i >= hi || n == 0 || !Storage.Holds(files[i], off) then bufs
    else
      var s := files[i].GetSlice(off, n);
      V.BoundedMeaning(bufs, s.len);
      LeftFrom(files, i + 1, hi, off + s.len, n - s.len, V.TailView(V.BoundedView(bufs, s.len)))
  }

  /** A single transfer of the whole slice is what `TorrentFile::write` does in one turn of its loop. */
  lemma FullTransfer(c: seq<byte>, offset: nat, bufs: seq<seq<byte>>, n: nat)
    requires 0 < n <= |Flatten(bufs)|
    ensures Served(bufs, n, [n]) && V.BoundedView(bufs, n).Valid()
    ensures TailAsCoded(bufs, n, [n]) == V.TailView(V.BoundedView(bufs, n))
    ensures SameOffset(c, offset, Flatten(bufs)[..n], [n]) == PWrite(c, offset, V.BoundedView(bufs, n).Front())
  {
    hide PWrite, Flatten, V.BoundedView, V.Vecs.Front, V.Vecs.AsSlice, V.TailView;
    V.BoundedMeaning(bufs, n);
    assert [n][..0] == [] && [n][1..] == [];
    assert V.Sum([n]) == n;
    assert Flatten(bufs)[..n][..n] == Flatten(bufs)[..n];
  }

  lemma TailCons(bufs: seq<seq<byte>>, n: nat)
    requires bufs != [] && |bufs[0]| < n
    ensures V.BoundedView(bufs, n).Valid() && V.BoundedView(bufs[1..], n - |bufs[0]|).Valid()
    ensures V.TailView(V.BoundedView(bufs, n)) == V.TailView(V.BoundedView(bufs[1..], n - |bufs[0]|))
  {
    hide Flatten, V.Vecs.Valid, V.Vecs.AsSlice, V.Vecs.Front, V.Vecs.Rest;
    V.BoundedMeaning(bufs, n);
    V.BoundedMeaning(bufs[1..], n - |bufs[0]|);
    var v, w := V.BoundedView(bufs, n), V.BoundedView(bufs[1..], n - |bufs[0]|);
    assert v.bufs[1..] == w.bufs;
    if v.split.Some? {
      var pos := v.split.value.pos;
      assert w.split == Some(V.Split(pos - 1, v.split.value.second));
      assert v.bufs[pos..] == w.bufs[pos - 1..] && v.bufs[pos + 1..] == w.bufs[pos..];
    }
  }

  lemma HeadTail(bufs: seq<seq<byte>>, n: nat)
    requires bufs != [] && 0 < n <= |bufs[0]|
    ensures V.BoundedView(bufs, n).Valid()
    ensures V.TailView(V.BoundedView(bufs, n)) ==
      if n < |bufs[0]| then [bufs[0][n..]] + bufs[1..] else if |bufs| == 1 then [] else bufs
  {
  }

  /** Bounding a piece's remaining blocks: off a block boundary the tail is the rest of the blocks; on
      one the last written block comes back in front of them. */
  lemma {:induction false} TailOfCut(data: seq<byte>, done: nat, n: nat) returns (x: nat)
    requires n > 0 && done + n <= |data|
    ensures V.BoundedView(CutFrom(data, done), n).Valid()
    ensures done <= x < done + n
    ensures V.TailView(V.BoundedView(CutFrom(data, done), n)) ==
      if OnBoundary(done + n, |data|) then [data[x..done + n]] + CutFrom(data, done + n) else CutFrom(data, done + n)
    decreases |data| - done
  {
    hide V.BoundedView, V.TailView, V.Vecs.Valid;
    var next := NextCut(done, |data|);
    var bufs := CutFrom(data, done);
    assert bufs == [data[done..next]] + CutFrom(data, next) && bufs[1..] == CutFrom(data, next);
    if next - done < n {
      TailCons(bufs, n);
      x := TailOfCut(data, next, n - (next - done));
    } else {
      HeadTail(bufs, n);
      x := done;
      SameCut(data, done, n);
    }
  }

  /** One turn: the state after file i. */
  lemma OneTurn(files: seq<FileInfo>, contents: seq<seq<byte>>, start: nat, data: seq<byte>, i: nat, off: nat) returns (x: nat)
    requires Contiguous(files) && |contents| == |files| && data != [] && start + |data| <= Total(files)
    requires IntersectingRange(files, start, start + |data|).0 <= i < IntersectingRange(files, start, start + |data|).1
    requires off == Max(start, files[i].torrentOffset) < start + |data|
    ensures Storage.Holds(files[i], off)
    ensures var hi := IntersectingRange(files, start, start + |data|).1;
      var next := off + files[i].GetSlice(off, start + |data| - off).len;
      && off < next <= start + |data| && off <= x + start < next
      && next == Min(start + |data|, files[i].End())
      && WriteFrom(files, contents, i, hi, off, start + |data| - off, CutFrom(data, off - start))
        == WriteFrom(files, contents[i := ScatterFile(files[i], contents[i], start, data)], i + 1, hi, next, start + |data| - next,
             if BadEnd(files, start, |data|, i) then [data[x..next - start]] + CutFrom(data, next - start) else CutFrom(data, next - start))
      && LeftFrom(files, i, hi, off, start + |data| - off, CutFrom(data, off - start))
        == LeftFrom(files, i + 1, hi, next, start + |data| - next,
             if BadEnd(files, start, |data|, i) then [data[x..next - start]] + CutFrom(data, next - start) else CutFrom(data, next - start))
  {
    hide PWrite, ScatterFile, IntersectingRange, Contiguous, CutFrom, Flatten, V.TailView, V.BoundedView, V.Vecs.Front, V.Vecs.Rest, V.Vecs.Valid;
    var n := start + |data| - off;
    WalkStep(files, start, start + |data|, i, off);
    P.SliceIsShare(files, contents[i], start, data, i, off);
    var s := files[i].GetSlice(off, n);
    FlattenCutFrom(data, off - start);
    x := TailOfCut(data, off - start, s.len);
    V.BoundedMeaning(CutFrom(data, off - start), s.len);
    assert OnBoundary(off - start + s.len, |data|) <==> BadEnd(files, start, |data|, i);
  }

  /** The state the walk reaches is the scatter when no file end it passes is bad. */
  lemma {:induction false} GoodWalk(files: seq<FileInfo>, before: seq<seq<byte>>, start: nat, data: seq<byte>, i: nat, off: nat)
    requires Contiguous(files) && |before| == |files| && data != [] && start + |data| <= Total(files)
    requires IntersectingRange(files, start, start + |data|).0 <= i < IntersectingRange(files, start, start + |data|).1
    requires off == Max(start, files[i].torrentOffset) < start + |data|
    requires forall k :: i <= k < |files| ==> !BadEnd(files, start, |data|, k)
    ensures var (lo, hi) := IntersectingRange(files, start, start + |data|);
      WriteFrom(files, P.Partway(files, before, start, data, lo, i), i, hi, off, start + |data| - off, CutFrom(data, off - start))
        == Scatter(files, before, start, data)
      && LeftFrom(files, i, hi, off, start + |data| - off, CutFrom(data, off - start)) == []
    decreases |files| - i
  {
    hide P.Partway, Scatter, ScatterFile, IntersectingRange, Contiguous, CutFrom, BadEnd, WriteFrom, LeftFrom;
    var lo, hi := IntersectingRange(files, start, start + |data|).0, IntersectingRange(files, start, start + |data|).1;
    P.PartwayStep(files, before, start, data, lo, i);
    var x := OneTurn(files, P.Partway(files, before, start, data, lo, i), start, data, i, off);
    P.SliceNext(files, start, start + |data|, i, off);
    if i + 1 < hi {
      GoodWalk(files, before, start, data, i + 1, Max(start, files[i + 1].torrentOffset));
    } else {
      P.PartwayDone(files, before, start, data, lo, hi);
      WriteFromEnd(files, P.Partway(files, before, start, data, lo, hi), hi, start + |data|, 0, CutFrom(data, |data|));
      NoCut(data);
    }
  }

  lemma WriteFromEnd(files: seq<FileInfo>, contents: seq<seq<byte>>, hi: nat, off: nat, n: nat, bufs: seq<seq<byte>>)
    requires |contents| == |files| && hi <= |files|
    ensures WriteFrom(files, contents, hi, hi, off, n, bufs) == contents && LeftFrom(files, hi, hi, off, n, bufs) == bufs
  {
  }

  lemma NoCut(data: seq<byte>)
    ensures CutFrom(data, |data|) == []
  {
  }

  lemma {:induction false} Untouched(files: seq<FileInfo>, contents: seq<seq<byte>>, i: nat, hi: nat, off: nat, n: nat, bufs: seq<seq<byte>>, k: nat)
    requires |contents| == |files| && hi <= |files| && k < i && k < |files|
    ensures WriteFrom(files, contents, i, hi, off, n, bufs)[k] == contents[k]
    decreases hi - i
  {
    if i < hi && n > 0 && Storage.Holds(files[i], off) {
      var s := files[i].GetSlice(off, n);
      V.BoundedMeaning(bufs, s.len);
      var v := V.BoundedView(bufs, s.len);
      Untouched(files, contents[i := PWrite(contents[i], s.offset, v.Front())], i + 1, hi, off + s.len, n - s.len, V.TailView(v), k);
    }
  }

  lemma FlattenHead(bufs: seq<seq<byte>>)
    requires bufs != [] && bufs[0] != []
    ensures Flatten(bufs) != [] && Flatten(bufs)[0] == bufs[0][0]
  {
  }

  lemma PWriteHead(c: seq<byte>, data: seq<byte>)
    requires data != []
    ensures PWrite(c, 0, data) != [] && PWrite(c, 0, data)[0] == data[0]
  {
  }

  /** After a bad file end the next file begins with bytes already written: its first byte is `b`. */
  lemma AfterBadEnd(files: seq<FileInfo>, contents: seq<seq<byte>>, i: nat, hi: nat, off: nat, n: nat, bufs: seq<seq<byte>>, b: byte)
    requires |contents| == |files| && i < hi <= |files| && n > 0 && files[i].len > 0 && off == files[i].torrentOffset
    requires bufs != [] && bufs[0] != [] && bufs[0][0] == b
    ensures var r := WriteFrom(files, contents, i, hi, off, n, bufs); r[i] != [] && r[i][0] == b
  {
    hide Flatten, PWrite, V.BoundedView, V.Vecs.Front, V.Vecs.Rest, V.Vecs.Valid, V.TailView;
    var s := files[i].GetSlice(off, n);
    V.BoundedMeaning(bufs, s.len);
    var v := V.BoundedView(bufs, s.len);
    FlattenHead(bufs);
    PWriteHead(contents[i], v.Front());
    var after := contents[i := PWrite(contents[i], s.offset, v.Front())];
    Untouched(files, after, i + 1, hi, off + s.len, n - s.len, V.TailView(v), i);
  }

  /** A walk that meets its first bad end at file j writes a wrong byte at the start of file j + 1,
      when the piece's bytes differ on the two sides of that end. */
  lemma {:induction false} BadWalk(files: seq<FileInfo>, contents: seq<seq<byte>>, start: nat, data: seq<byte>, i: nat, off: nat, j: nat)
    requires Contiguous(files) && |contents| == |files| && data != [] && start + |data| <= Total(files)
    requires IntersectingRange(files, start, start + |data|).0 <= i <= j < IntersectingRange(files, start, start + |data|).1
    requires off == Max(start, files[i].torrentOffset) < start + |data|
    requires BadEnd(files, start, |data|, j) && forall k :: i <= k < j ==> !BadEnd(files, start, |data|, k)
    requires forall k :: 0 <= k < files[j].End() - start && k < |data| ==> data[k] == 0
    ensures var r := WriteFrom(files, contents, i, IntersectingRange(files, start, start + |data|).1, off, start + |data| - off, CutFrom(data, off - start));
      j + 1 < |files| && r[j + 1] != [] && r[j + 1][0] == 0
    decreases j - i
  {
    hide Scatter, ScatterFile, IntersectingRange, Contiguous, CutFrom, WriteFrom, LeftFrom;
    var hi := IntersectingRange(files, start, start + |data|).1;
    var x := OneTurn(files, contents, start, data, i, off);
    P.SliceNext(files, start, start + |data|, i, off);
    var after := contents[i := ScatterFile(files[i], contents[i], start, data)];
    var next := off + files[i].GetSlice(off, start + |data| - off).len;
    if i < j {
      BadWalk(files, after, start, data, i + 1, next, j);
    } else {
      var bufs := [data[x..next - start]] + CutFrom(data, next - start);
      FileNotEmpty(files, i + 1);
      AfterBadEnd(files, after, i + 1, hi, next, start + |data| - next, bufs, 0);
    }
  }

  /** The tail never holds fewer bytes than the slice left of the buffers. */
  lemma TailEnough(bufs: seq<seq<byte>>, n: nat, counts: seq<nat>)
    requires 0 < n && Served(bufs, n, counts)
    ensures |Flatten(TailAsCoded(bufs, n, counts))| >= |Flatten(bufs)| - n
  {
    hide Flatten, V.BoundedView, V.TailView, V.Vecs.Rest, V.Vecs.Front, V.Vecs.AsSlice;
    V.RefinesByteString(bufs, n, counts[..|counts| - 1]);
    V.TailMeaning(V.Run(V.BoundedView(bufs, n), counts[..|counts| - 1]));
  }

  lemma TailEnoughAtOnce(bufs: seq<seq<byte>>, n: nat)
    requires 0 < n
    ensures V.BoundedView(bufs, n).Valid() && |Flatten(V.TailView(V.BoundedView(bufs, n)))| >= |Flatten(bufs)| - n
  {
    hide Flatten, V.BoundedView, V.TailView, V.Vecs.Rest, V.Vecs.Front, V.Vecs.AsSlice;
    V.BoundedMeaning(bufs, n);
    V.TailMeaning(V.BoundedView(bufs, n));
  }

  /** Buffers with more bytes than the walk has to write are not used up. */
  lemma {:induction false} Surplus(files: seq<FileInfo>, i: nat, hi: nat, off: nat, n: nat, bufs: seq<seq<byte>>)
    requires hi <= |files|
    ensures |Flatten(LeftFrom(files, i, hi, off, n, bufs))| >= |Flatten(bufs)| - n
    decreases hi - i
  {
    hide Flatten, V.BoundedView, V.TailView, V.Vecs.Valid, V.Vecs.Rest, V.Vecs.Front, V.Vecs.AsSlice;
    if i < hi && n > 0 && Storage.Holds(files[i], off) {
      var s := files[i].GetSlice(off, n);
      V.BoundedMeaning(bufs, s.len);
      TailEnoughAtOnce(bufs, s.len);
      Surplus(files, i + 1, hi, off + s.len, n - s.len, V.TailView(V.BoundedView(bufs, s.len)));
    }
  }

  /** A walk that meets its first bad end at file j has bytes left over at the end. */
  lemma {:induction false} BadLeft(files: seq<FileInfo>, contents: seq<seq<byte>>, start: nat, data: seq<byte>, i: nat, off: nat, j: nat)
    requires Contiguous(files) && |contents| == |files| && data != [] && start + |data| <= Total(files)
    requires IntersectingRange(files, start, start + |data|).0 <= i <= j < IntersectingRange(files, start, start + |data|).1
    requires off == Max(start, files[i].torrentOffset) < start + |data|
    requires BadEnd(files, start, |data|, j) && forall k :: i <= k < j ==> !BadEnd(files, start, |data|, k)
    ensures LeftFrom(files, i, IntersectingRange(files, start, start + |data|).1, off, start + |data| - off, CutFrom(data, off - start)) != []
    decreases j - i
  {
    hide ScatterFile, IntersectingRange, Contiguous, CutFrom, WriteFrom, LeftFrom;
    var hi := IntersectingRange(files, start, start + |data|).1;
    var x := OneTurn(files, contents, start, data, i, off);
    P.SliceNext(files, start, start + |data|, i, off);
    var next := off + files[i].GetSlice(off, start + |data| - off).len;
    if i < j {
      BadLeft(files, contents, start, data, i + 1, next, j);
    } else {
      var bufs := [data[x..next - start]] + CutFrom(data, next - start);
      FlattenCutFrom(data, next - start);
      assert bufs[1..] == CutFrom(data, next - start);
      Surplus(files, i + 1, hi, next, start + |data| - next, bufs);
    }
  }

  lemma FileNotEmpty(files: seq<FileInfo>, i: nat)
    requires Contiguous(files) && i < |files|
    ensures files[i].len > 0
  {
  }

  lemma {:induction false} FirstBad(files: seq<FileInfo>, start: nat, len: nat, j: nat) returns (k: nat)
    requires j < |files| && BadEnd(files, start, len, j)
    ensures k <= j && BadEnd(files, start, len, k) && forall i :: 0 <= i < k ==> !BadEnd(files, start, len, i)
  {
    if i :| 0 <= i < j && BadEnd(files, start, len, i) {
      k := FirstBad(files, start, len, i);
    } else {
      k := j;
    }
  }

  /** The right first byte of the file after a bad end. */
  lemma RightByte(files: seq<FileInfo>, contents: seq<seq<byte>>, start: nat, data: seq<byte>, j: nat)
    requires Contiguous(files) && |contents| == |files| && start + |data| <= Total(files)
    requires j + 1 < |files| && BadEnd(files, start, |data|, j) && files[j].End() - start < |data|
    ensures Scatter(files, contents, start, data)[j + 1] != []
    ensures Scatter(files, contents, start, data)[j + 1][0] == data[files[j].End() - start]
  {
    hide ScatterFile, Total;
    assert files[j].End() == files[j + 1].torrentOffset && files[j + 1].len > 0;
    PartHead(files[j + 1], contents[j + 1], start, data);
  }

  /** A file that begins inside the piece gets the piece's byte there as its first. */
  lemma PartHead(f: FileInfo, c: seq<byte>, start: nat, data: seq<byte>)
    requires f.len > 0 && start <= f.torrentOffset < start + |data|
    ensures ScatterFile(f, c, start, data) != [] && ScatterFile(f, c, start, data)[0] == data[f.torrentOffset - start]
  {
    hide PWrite, ScatterFile;
    var len := Min(start + |data|, f.End()) - f.torrentOffset;
    P.ShareIs(f, c, start, data, f.torrentOffset, len);
    PWriteHead(c, data[f.torrentOffset - start..][..len]);
  }

  ghost predicate WritesRight(files: seq<FileInfo>, start: nat, contents: seq<seq<byte>>, data: seq<byte>)
    requires |contents| == |files| && |files| > 0
  {
    var (lo, hi) := IntersectingRange(files, start, start + |data|);
    WriteFrom(files, contents, lo, hi, start, |data|, Cut(data)) == Scatter(files, contents, start, data)
  }

  /** As coded, and with full transfers, `Piece::write` puts every piece of the given place and length
      where it belongs exactly when no file ends inside the piece on a block boundary of it. */
  lemma PieceWriteRightIff(files: seq<FileInfo>, start: nat, len: nat)
    requires Contiguous(files) && 0 < len && start + len <= Total(files)
    ensures (forall contents: seq<seq<byte>>, data: seq<byte> :: |contents| == |files| && |data| == len ==> WritesRight(files, start, contents, data))
      <==> (forall i :: 0 <= i < |files| ==> !BadEnd(files, start, len, i))
  {
    hide Scatter, IntersectingRange, WriteFrom, BadEnd, CutFrom, Cut;
    var lo, hi := IntersectingRange(files, start, start + len).0, IntersectingRange(files, start, start + len).1;
    RangeStart(files, start, start + len);
    if forall i :: 0 <= i < |files| ==> !BadEnd(files, start, len, i) {
      forall contents: seq<seq<byte>>, data: seq<byte> | |contents| == |files| && |data| == len
        ensures WritesRight(files, start, contents, data)
      {
        GoodPiece(files, start, contents, data);
      }
    } else {
      var j :| 0 <= j < |files| && BadEnd(files, start, len, j);
      j := FirstBad(files, start, len, j);
      var contents: seq<seq<byte>> := seq(|files|, _ => []);
      BadPiece(files, start, len, contents, j);
    }
  }

  lemma GoodPiece(files: seq<FileInfo>, start: nat, contents: seq<seq<byte>>, data: seq<byte>)
    requires Contiguous(files) && data != [] && start + |data| <= Total(files) && |contents| == |files|
    requires forall i :: 0 <= i < |files| ==> !BadEnd(files, start, |data|, i)
    ensures WritesRight(files, start, contents, data)
  {
    hide Scatter, IntersectingRange, WriteFrom, BadEnd, CutFrom, Cut, P.Partway;
    var lo := IntersectingRange(files, start, start + |data|).0;
    RangeStart(files, start, start + |data|);
    CutStart(data);
    P.PartwayStart(files, contents, start, data, lo);
    GoodWalk(files, contents, start, data, lo, start);
  }

  lemma BadPiece(files: seq<FileInfo>, start: nat, len: nat, contents: seq<seq<byte>>, j: nat)
    requires Contiguous(files) && 0 < len && start + len <= Total(files) && |contents| == |files|
    requires j < |files| && BadEnd(files, start, len, j) && forall i :: 0 <= i < j ==> !BadEnd(files, start, len, i)
    ensures exists data: seq<byte> :: |data| == len && !WritesRight(files, start, contents, data)
  {
    hide Scatter, IntersectingRange, WriteFrom, CutFrom, Cut;
    var b := files[j].End() - start;
    var data: seq<byte> := seq(len, k => if k < b then 0 else 1);
    RangeStart(files, start, start + len);
    BadEndInRange(files, start, len, j);
    CutStart(data);
    BadWalk(files, contents, start, data, IntersectingRange(files, start, start + len).0, start, j);
    RightByte(files, contents, start, data, j);
    assert |data| == len && !WritesRight(files, start, contents, data);
  }

  /** As coded, and with full transfers, `Piece::write` has used up its buffers exactly when no file ends
      inside the piece on a block boundary of it; otherwise its last assertion does not hold. */
  lemma NothingLeftIff(files: seq<FileInfo>, start: nat, data: seq<byte>)
    requires Contiguous(files) && data != [] && start + |data| <= Total(files)
    ensures var (lo, hi) := IntersectingRange(files, start, start + |data|);
      LeftFrom(files, lo, hi, start, |data|, Cut(data)) == [] <==> NoneBad(files, start, |data|, |files|)
  {
    hide Scatter, IntersectingRange, WriteFrom, LeftFrom, BadEnd, CutFrom, Cut, P.Partway;
    var lo := IntersectingRange(files, start, start + |data|).0;
    var contents: seq<seq<byte>> := seq(|files|, _ => []);
    RangeStart(files, start, start + |data|);
    CutStart(data);
    if NoneBad(files, start, |data|, |files|) {
      P.PartwayStart(files, contents, start, data, lo);
      GoodWalk(files, contents, start, data, lo, start);
    } else {
      var j :| 0 <= j < |files| && BadEnd(files, start, |data|, j);
      j := FirstBad(files, start, |data|, j);
      BadEndInRange(files, start, |data|, j);
      BadLeft(files, contents, start, data, lo, start, j);
    }
  }

  predicate NoneEmpty(bufs: seq<seq<byte>>) {
    forall k :: 0 <= k < |bufs| ==> bufs[k] != []
  }

  lemma TailNoneEmpty(bufs: seq<seq<byte>>, n: nat)
    requires 0 < n
    ensures V.BoundedView(bufs, n).Valid() && (NoneEmpty(bufs) ==> NoneEmpty(V.TailView(V.BoundedView(bufs, n))))
  {
    V.BoundedMeaning(bufs, n);
  }

  lemma HasBuffer(bufs: seq<seq<byte>>)
    requires Flatten(bufs) != []
    ensures bufs != [] && (NoneEmpty(bufs) ==> bufs[0] != [])
  {
  }

  /** A turn whose file took its slice in one transfer is a turn of the walk. */
  lemma TurnInFull(files: seq<FileInfo>, contents: seq<seq<byte>>, i: nat, hi: nat, off: nat, n: nat, bufs: seq<seq<byte>>, counts: seq<nat>)
    requires |contents| == |files| && i < hi <= |files| && n > 0 && Storage.Holds(files[i], off)
    requires var len := files[i].GetSlice(off, n).len; 0 < len <= |Flatten(bufs)| && Served(bufs, len, counts)
    requires |counts| == 1
    ensures var s := files[i].GetSlice(off, n);
      var after := contents[i := SameOffset(contents[i], s.offset, Flatten(bufs)[..s.len], counts)];
      && WriteFrom(files, contents, i, hi, off, n, bufs) == WriteFrom(files, after, i + 1, hi, off + s.len, n - s.len, TailAsCoded(bufs, s.len, counts))
      && LeftFrom(files, i, hi, off, n, bufs) == LeftFrom(files, i + 1, hi, off + s.len, n - s.len, TailAsCoded(bufs, s.len, counts))
      && TailAsCoded(bufs, s.len, counts) == V.TailView(V.BoundedView(bufs, s.len))
  {
    hide Flatten, V.BoundedView, V.TailView, V.Vecs.Front, SameOffset, PWrite, Served, TailAsCoded;
    var s := files[i].GetSlice(off, n);
    ServedOnce(bufs, s.len, counts);
    FullTransfer(contents[i], s.offset, bufs, s.len);
    V.BoundedMeaning(bufs, s.len);
  }

  lemma ServedOnce(bufs: seq<seq<byte>>, n: nat, counts: seq<nat>)
    requires Served(bufs, n, counts) && |counts| == 1
    ensures counts == [n]
  {
    assert counts[1..] == [] && V.Sum(counts[1..]) == 0;
    assert counts == [counts[0]];
  }

  /** One turn of the loop over the files. */
  method WriteShare(files: seq<TorrentFile>, i: nat, hi: nat, off: nat, n: nat, store: array<seq<byte>>, bufs: nat)
    returns (tail: nat, written: nat, once: bool)
    requires P.Distinct(files) && i < hi <= |files| && n > 0 && Storage.Holds(files[i].info, off)
    requires bufs <= store.Length && 0 < files[i].info.GetSlice(off, n).len <= |Flatten(store[bufs..])|
    modifies files, store
    ensures tail <= store.Length && written == files[i].info.GetSlice(off, n).len <= n
    ensures |Flatten(store[tail..])| >= |Flatten(old(store[bufs..]))| - written
    ensures once ==>
      && WriteFrom(P.Infos(files), old(P.Contents(files)), i, hi, off, n, old(store[bufs..]))
        == WriteFrom(P.Infos(files), P.Contents(files), i + 1, hi, off + written, n - written, store[tail..])
      && LeftFrom(P.Infos(files), i, hi, off, n, old(store[bufs..]))
        == LeftFrom(P.Infos(files), i + 1, hi, off + written, n - written, store[tail..])
      && (NoneEmpty(old(store[bufs..])) ==> NoneEmpty(store[tail..]))
  {
    hide Flatten, WriteFrom, LeftFrom, SameOffset, NoneEmpty, Served, TailAsCoded, P.Contents;
    ghost var pre, rest := P.Contents(files), store[bufs..];
    var slice := files[i].info.GetSlice(off, n);
    var counts;
    tail, counts := files[i].Write(slice, store, bufs);
    written, once := slice.len, |counts| == 1;
    P.OneFileChanged(files, i, pre);
    TailEnough(rest, slice.len, counts);
    if once {
      TurnInFull(P.Infos(files), pre, i, hi, off, n, rest, counts);
      TailNoneEmpty(rest, slice.len);
    }
  }

  /** `Piece::write` as coded: `ok` is what comes of its assertions, `full` says that every file took its
      slice in one transfer. The walk functions above are what it then does, and no assertion on the way
      can fail: it is the last one that finds buffers left over. */
  method Write(files: seq<TorrentFile>, lo: nat, hi: nat, start: nat, len: nat, store: array<seq<byte>>)
    returns (tail: nat, full: bool, ok: bool)
    requires Contiguous(P.Infos(files)) && P.Distinct(files)
    requires 0 < len <= |Flatten(store[0..])| && start + len <= Total(P.Infos(files))
    requires (lo, hi) == IntersectingRange(P.Infos(files), start, start + len)
    modifies files, store
    ensures tail <= store.Length
    ensures full ==>
      && P.Contents(files) == WriteFrom(P.Infos(files), old(P.Contents(files)), lo, hi, start, len, old(store[0..]))
      && store[tail..] == LeftFrom(P.Infos(files), lo, hi, start, len, old(store[0..]))
    ensures full && NoneEmpty(old(store[0..])) ==> (ok <==> store[tail..] == [])
  {
    hide Contiguous, IntersectingRange, Flatten, WriteFrom, LeftFrom, FileInfo.GetSlice, NoneEmpty, P.Contents;
    ghost var infos, before, bufs := P.Infos(files), P.Contents(files), store[0..];
    RangeStart(infos, start, start + len);
    tail, full, ok := 0, true, true;
    var writeOffset, i := start, lo;
    while i < hi
      invariant lo <= i <= hi <= |files|
      invariant start <= writeOffset <= start + len
      invariant if i < hi then writeOffset == Max(start, infos[i].torrentOffset) < start + len else writeOffset == start + len
      invariant tail <= store.Length && |Flatten(store[tail..])| >= start + len - writeOffset
      invariant full ==>
        && WriteFrom(infos, before, lo, hi, start, len, bufs)
          == WriteFrom(infos, P.Contents(files), i, hi, writeOffset, start + len - writeOffset, store[tail..])
        && LeftFrom(infos, lo, hi, start, len, bufs)
          == LeftFrom(infos, i, hi, writeOffset, start + len - writeOffset, store[tail..])
      invariant full && NoneEmpty(bufs) ==> ok && NoneEmpty(store[tail..])
    {
      HasBuffer(store[tail..]);
      if tail == store.Length || store[tail] == [] {
        ok := false;
      }
      P.SliceNext(infos, start, start + len, i, writeOffset);
      var written, once;
      tail, written, once := WriteShare(files, i, hi, writeOffset, start + len - writeOffset, store, tail);
      full := full && once;
      writeOffset := writeOffset + written;
      i := i + 1;
    }
    WriteFromEnd(infos, P.Contents(files), hi, writeOffset, 0, store[tail..]);
    if tail != store.Length {
      ok := false;
    }
  }
}
