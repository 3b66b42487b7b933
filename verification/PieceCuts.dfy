/** A piece's blocks from some byte on, and what a walk over the piece's files leaves of them. */
module PieceCuts {
  import opened Wrappers
  import opened Blocks
  import opened Storage
  import V = IoVecs

  function NextCut(done: nat, len: nat): (r: nat)
    ensures done < len ==> done < r <= len
  {
    Min((done / BLOCK_LEN + 1) * BLOCK_LEN, len)
  }

  /** The blocks of a piece from byte `done` on, the first of them cut short. */
  function CutFrom(data: seq<byte>, done: nat): seq<seq<byte>>
    decreases |data| - done
  {
    if done >= |data| then [] else [data[done..NextCut(done, |data|)]] + CutFrom(data, NextCut(done, |data|))
  }

  lemma {:induction false} CutIsCutFrom(data: seq<byte>, k: nat)
    requires k <= BlockCount(|data|)
    ensures Cut(data)[k..] == CutFrom(data, Min(k * BLOCK_LEN, |data|))
    decreases BlockCount(|data|) - k
  {
    if k < BlockCount(|data|) {
      CutIsCutFrom(data, k + 1);
      assert (k * BLOCK_LEN) / BLOCK_LEN == k;
      assert Cut(data)[k..] == [Cut(data)[k]] + Cut(data)[k + 1..];
    }
  }

  lemma {:induction false} FlattenCutFrom(data: seq<byte>, done: nat)
    requires done <= |data|
    ensures Flatten(CutFrom(data, done)) == data[done..]
    decreases |data| - done
  {
    if done < |data| {
      var next := NextCut(done, |data|);
      FlattenCutFrom(data, next);
      assert CutFrom(data, done)[1..] == CutFrom(data, next);
      assert data[done..next] + data[next..] == data[done..];
    }
  }

  lemma CutStart(data: seq<byte>)
    ensures Cut(data) == CutFrom(data, 0)
  {
    CutIsCutFrom(data, 0);
    assert Cut(data)[0..] == Cut(data);
  }

  /** The bound falls on a block boundary with more of the piece to come. */
  predicate OnBoundary(at: nat, len: nat) { at < len && at % BLOCK_LEN == 0 }

  lemma SameCut(data: seq<byte>, done: nat, n: nat)
    requires 0 < n && done + n <= NextCut(done, |data|) && done < |data|
    ensures done + n < NextCut(done, |data|) ==> !OnBoundary(done + n, |data|)
    ensures done + n < NextCut(done, |data|) ==>
      CutFrom(data, done + n) == [data[done..NextCut(done, |data|)][n..]] + CutFrom(data, NextCut(done, |data|))
    ensures done + n == NextCut(done, |data|) ==> (OnBoundary(done + n, |data|) <==> CutFrom(data, done + n) != [])
  {
    var next := NextCut(done, |data|);
    if done + n < next {
      assert (done + n) / BLOCK_LEN == done / BLOCK_LEN;
      assert (done + n) % BLOCK_LEN != 0;
      assert NextCut(done + n, |data|) == next;
      assert data[done..next][n..] == data[done + n..next];
    } else if next < |data| {
      assert next == (done / BLOCK_LEN + 1) * BLOCK_LEN;
    }
  }

  /** File i ends strictly inside the piece, on a block boundary of it. */
  predicate BadEnd(files: seq<FileInfo>, start: nat, len: nat, i: nat)
    requires i < |files|
  {
    start < files[i].End() && OnBoundary(files[i].End() - start, len)
  }

  lemma BadEndInRange(files: seq<FileInfo>, start: nat, len: nat, j: nat)
    requires Contiguous(files) && 0 < len && start + len <= Total(files)
    requires j < |files| && BadEnd(files, start, len, j)
    ensures IntersectingRange(files, start, start + len).0 <= j < IntersectingRange(files, start, start + len).1
    ensures j + 1 < IntersectingRange(files, start, start + len).1
  {
    LookupExactAt(files, start, start + len, j);
    assert ExactAt(files, start, start + len, j);
    WalkStep(files, start, start + len, j, Max(start, files[j].torrentOffset));
  }

  /** No file up to file m ends inside the piece on a block boundary of it. */
  predicate NoneBad(files: seq<FileInfo>, start: nat, len: nat, m: nat)
    requires m <= |files|
  {
    forall k :: 0 <= k < m ==> !BadEnd(files, start, len, k)
  }

  /** What the check before file i's turn finds: an empty first buffer exactly when the file before it
      ends on a block boundary. */
  lemma CheckBefore(files: seq<FileInfo>, start: nat, data: seq<byte>, i: nat, offset: nat)
    requires Contiguous(files) && data != [] && start + |data| <= Total(files)
    requires IntersectingRange(files, start, start + |data|).0 <= i < IntersectingRange(files, start, start + |data|).1
    requires offset == Max(start, files[i].torrentOffset) < start + |data|
    ensures Left(data, offset - start) != []
    ensures i == IntersectingRange(files, start, start + |data|).0 ==> Left(data, offset - start)[0] != [] && NoneBad(files, start, |data|, i)
    ensures i > IntersectingRange(files, start, start + |data|).0 ==>
      (Left(data, offset - start)[0] == [] <==> BadEnd(files, start, |data|, i - 1))
  {
    hide IntersectingRange, Contiguous, Total, Left, BadEnd;
    var r := IntersectingRange(files, start, start + |data|);
    RangeStart(files, start, start + |data|);
    LeftFirst(data, offset - start);
    if i == r.0 {
      forall k | 0 <= k < i ensures !BadEnd(files, start, |data|, k) {
        if BadEnd(files, start, |data|, k) { BadEndInRange(files, start, |data|, k); }
      }
    } else {
      EndBefore(files, start, |data|, i, offset);
    }
  }

  lemma EndBefore(files: seq<FileInfo>, start: nat, len: nat, i: nat, offset: nat)
    requires Contiguous(files) && len > 0 && start + len <= Total(files)
    requires IntersectingRange(files, start, start + len).0 < i < IntersectingRange(files, start, start + len).1
    requires offset == Max(start, files[i].torrentOffset) < start + len
    ensures start < offset == files[i - 1].End()
    ensures BadEnd(files, start, len, i - 1) <==> OnBoundary(offset - start, len)
  {
    hide IntersectingRange, Total;
    LookupExactAt(files, start, start + len, i - 1);
    assert ExactAt(files, start, start + len, i - 1);
    assert files[i - 1].End() == files[i].torrentOffset;
  }

  /** After the last turn no further file can be bad. */
  lemma NoneBadAfter(files: seq<FileInfo>, start: nat, len: nat)
    requires Contiguous(files) && len > 0 && start + len <= Total(files)
    ensures 0 < IntersectingRange(files, start, start + len).1 <= |files|
    ensures NoneBad(files, start, len, IntersectingRange(files, start, start + len).1 - 1) <==> NoneBad(files, start, len, |files|)
  {
    hide IntersectingRange, Contiguous, Total, BadEnd;
    RangeStart(files, start, start + len);
    var hi := IntersectingRange(files, start, start + len).1;
    forall k | hi - 1 <= k < |files| ensures !BadEnd(files, start, len, k) {
      if BadEnd(files, start, len, k) { BadEndInRange(files, start, len, k); }
    }
  }

  /** Whether the checks before the turns of files lo up to i have all found a buffer to write. */
  predicate OkSoFar(files: seq<FileInfo>, start: nat, len: nat, lo: nat, i: nat)
    requires i <= |files|
  {
    i <= lo || NoneBad(files, start, len, i - 1)
  }

  lemma NoneChecked(files: seq<FileInfo>, start: nat, len: nat, lo: nat)
    requires lo <= |files|
    ensures OkSoFar(files, start, len, lo, lo)
  {
  }

  lemma CheckTurn(files: seq<FileInfo>, start: nat, data: seq<byte>, i: nat, offset: nat)
    requires Contiguous(files) && data != [] && start + |data| <= Total(files)
    requires IntersectingRange(files, start, start + |data|).0 <= i < IntersectingRange(files, start, start + |data|).1
    requires offset == Max(start, files[i].torrentOffset) < start + |data|
    ensures Left(data, offset - start) != []
    ensures var lo := IntersectingRange(files, start, start + |data|).0;
      OkSoFar(files, start, |data|, lo, i + 1) <==> OkSoFar(files, start, |data|, lo, i) && Left(data, offset - start)[0] != []
  {
    hide IntersectingRange, Contiguous, Total, Left, BadEnd;
    CheckBefore(files, start, data, i, offset);
  }

  lemma CheckEnd(files: seq<FileInfo>, start: nat, len: nat)
    requires Contiguous(files) && len > 0 && start + len <= Total(files)
    ensures var (lo, hi) := IntersectingRange(files, start, start + len);
      OkSoFar(files, start, len, lo, hi) <==> NoneBad(files, start, len, |files|)
  {
    hide IntersectingRange, Contiguous, Total, NoneBad;
    RangeStart(files, start, start + len);
    NoneBadAfter(files, start, len);
  }

  lemma UsedCons(bufs: seq<seq<byte>>, n: nat)
    requires bufs != [] && |bufs[0]| < n
    ensures V.TailOnceUsed(bufs, n) == V.TailOnceUsed(bufs[1..], n - |bufs[0]|)
  {
    var v, w := V.BoundedView(bufs, n), V.BoundedView(bufs[1..], n - |bufs[0]|);
    if v.split.Some? {
      var pos := v.split.value.pos;
      assert w.split == Some(V.Split(pos - 1, v.split.value.second));
      assert v.bufs[pos + 1..] == w.bufs[pos..];
    }
  }

  lemma UsedHead(bufs: seq<seq<byte>>, n: nat)
    requires bufs != [] && 0 < n <= |bufs[0]|
    ensures V.TailOnceUsed(bufs, n) ==
      if n < |bufs[0]| then [bufs[0][n..]] + bufs[1..] else if |bufs| == 1 then [] else [[]] + bufs[1..]
  {
  }

  /** The mark that a file ended on a block boundary: an empty buffer in front. */
  function Mark(at: nat, len: nat): seq<seq<byte>> {
    if at > 0 && OnBoundary(at, len) then [[]] else []
  }

  lemma {:induction false} UsedCut(data: seq<byte>, done: nat, n: nat)
    requires n > 0 && done + n <= |data|
    ensures V.TailOnceUsed(CutFrom(data, done), n) == Mark(done + n, |data|) + CutFrom(data, done + n)
    decreases |data| - done
  {
    hide V.TailOnceUsed, NextCut;
    var next := NextCut(done, |data|);
    var bufs := CutFrom(data, done);
    assert bufs == [data[done..next]] + CutFrom(data, next) && bufs[1..] == CutFrom(data, next);
    if next - done < n {
      UsedCons(bufs, n);
      UsedCut(data, next, n - (next - done));
    } else {
      UsedHead(bufs, n);
      SameCut(data, done, n);
    }
  }

  /** The buffers a walk with the documented loop has when `done` bytes of the piece are written. */
  function Left(data: seq<byte>, done: nat): seq<seq<byte>> {
    Mark(done, |data|) + CutFrom(data, done)
  }

  /** Each file leaves the next one exactly the blocks from its end on, behind the mark if it ends on a
      block boundary. */
  lemma LeftNext(data: seq<byte>, done: nat, n: nat)
    requires n > 0 && done + n <= |data|
    ensures V.TailOnceUsed(Left(data, done), n) == Left(data, done + n)
  {
    hide V.TailOnceUsed, CutFrom;
    UsedCut(data, done, n);
    if Mark(done, |data|) != [] {
      UsedCons(Left(data, done), n);
      assert Left(data, done)[1..] == CutFrom(data, done);
    } else {
      assert Left(data, done) == CutFrom(data, done);
    }
  }

  /** The first buffer is empty exactly behind the mark; at the end there is no buffer at all. */
  lemma LeftFirst(data: seq<byte>, done: nat)
    requires done <= |data|
    ensures done < |data| ==> Left(data, done) != [] && (Left(data, done)[0] == [] <==> done > 0 && OnBoundary(done, |data|))
    ensures done == |data| ==> Left(data, done) == []
  {
  }
}
