/** The client's count of downloaded bytes per file (cratetorrent-cli/src/app.rs). */
module FileProgress {
  import opened Wrappers
  import opened Storage
  import P = PieceIo

  /** The bytes of the file that lie in the range. */
  function Share(f: FileInfo, start: nat, end: nat): nat {
    var lo, hi := Max(start, f.torrentOffset), Min(end, f.End());
    if lo < hi then hi - lo else 0
  }

  function PieceShare(s: StorageInfo, i: nat, p: nat): nat
    requires i < |s.files| && p < s.pieceCount
  {
    Share(s.files[i], s.PieceOffset(p), s.PieceEnd(p))
  }

  /** The bytes of file i in those of the first n pieces that are done. */
  function DoneShare(s: StorageInfo, i: nat, done: set<nat>, n: nat): nat
    requires i < |s.files| && n <= s.pieceCount
  {
    if n == 0 then 0 else DoneShare(s, i, done, n - 1) + if n - 1 in done then PieceShare(s, i, n - 1) else 0
  }

  lemma {:induction false} DoneMore(s: StorageInfo, i: nat, done: set<nat>, p: nat, n: nat)
    requires i < |s.files| && n <= s.pieceCount && p < s.pieceCount && p !in done
    ensures DoneShare(s, i, done + {p}, n) == DoneShare(s, i, done, n) + if p < n then PieceShare(s, i, p) else 0
  {
    hide PieceShare;
    if n > 0 { DoneMore(s, i, done, p, n - 1); }
  }

  predicate AllBelow(done: set<nat>, n: nat) { forall p :: 0 <= p < n ==> p in done }

  lemma PieceNext(s: StorageInfo, n: nat)
    requires s.Valid() && n < s.pieceCount
    ensures s.PieceOffset(n) < s.PieceEnd(n) <= s.downloadLen
    ensures n > 0 ==> s.PieceEnd(n - 1) == s.PieceOffset(n)
  {
    PieceOrder(s, n);
    if n > 0 { assert (n - 1) * s.pieceLen + s.pieceLen == n * s.pieceLen; }
  }

  lemma ShareSplits(f: FileInfo, a: nat, b: nat, c: nat)
    requires a <= b <= c
    ensures Share(f, a, c) == Share(f, a, b) + Share(f, b, c)
  {
  }

  /** The pieces up to n share out the file's bytes up to where piece n begins: all of them if all are
      done, never more. */
  lemma {:induction false} DoneWithin(s: StorageInfo, i: nat, done: set<nat>, n: nat)
    requires s.Valid() && i < |s.files| && n <= s.pieceCount
    ensures var end := if n == 0 then 0 else s.PieceEnd(n - 1);
      && DoneShare(s, i, done, n) <= Share(s.files[i], 0, end)
      && (AllBelow(done, n) ==> DoneShare(s, i, done, n) == Share(s.files[i], 0, end))
  {
    hide Share, StorageInfo.Valid;
    if n > 0 {
      DoneWithin(s, i, done, n - 1);
      PieceNext(s, n - 1);
      var before := if n == 1 then 0 else s.PieceEnd(n - 2);
      assert before == s.PieceOffset(n - 1);
      ShareSplits(s.files[i], 0, before, s.PieceEnd(n - 1));
    } else {
      NoShare(s.files[i]);
    }
  }

  lemma NoShare(f: FileInfo)
    ensures Share(f, 0, 0) == 0
  {
  }

  /** No file ever counts more than its length, and once all pieces are in, each counts exactly its
      length. */
  lemma ProgressBounded(s: StorageInfo, i: nat, done: set<nat>)
    requires s.Valid() && i < |s.files|
    ensures DoneShare(s, i, done, s.pieceCount) <= s.files[i].len
    ensures AllBelow(done, s.pieceCount) ==> DoneShare(s, i, done, s.pieceCount) == s.files[i].len
  {
    DoneWithin(s, i, done, s.pieceCount);
    EndBelowTotal(s.files, i);
  }

  /** The files' counts when the pieces in `done` have been counted. */
  predicate Counts(s: StorageInfo, complete: seq<nat>, done: set<nat>) {
    |complete| == |s.files| && forall i :: 0 <= i < |complete| ==> complete[i] == DoneShare(s, i, done, s.pieceCount)
  }

  lemma WalkShare(files: seq<FileInfo>, start: nat, end: nat, i: nat, offset: nat)
    requires Contiguous(files) && start < end <= Total(files)
    requires IntersectingRange(files, start, end).0 <= i < IntersectingRange(files, start, end).1
    requires offset == Max(start, files[i].torrentOffset)
    ensures files[i].torrentOffset <= offset < files[i].End() && offset < end
    ensures files[i].GetSlice(offset, end - offset).len == Share(files[i], start, end)
  {
    hide IntersectingRange, Contiguous, FileInfo.GetSlice;
    WalkStep(files, start, end, i, offset);
  }

  lemma OutsideShare(files: seq<FileInfo>, start: nat, end: nat, i: nat)
    requires Contiguous(files) && start < end <= Total(files) && i < |files|
    requires !(IntersectingRange(files, start, end).0 <= i < IntersectingRange(files, start, end).1)
    ensures Share(files[i], start, end) == 0
  {
    hide IntersectingRange, Contiguous;
    LookupExactAt(files, start, end, i);
    assert ExactAt(files, start, end, i);
  }

  /** The counts once the walk over a piece's files has come to file k. */
  predicate CountedTo(s: StorageInfo, before: seq<nat>, after: seq<nat>, p: nat, lo: nat, k: nat)
    requires p < s.pieceCount
  {
    && |before| == |after| == |s.files|
    && forall i :: 0 <= i < |after| ==> after[i] == before[i] + if lo <= i < k then PieceShare(s, i, p) else 0
  }

  lemma CountedAll(s: StorageInfo, before: seq<nat>, after: seq<nat>, p: nat, done: set<nat>)
    requires s.Valid() && p < s.pieceCount && p !in done && Counts(s, before, done)
    requires var (lo, hi) := IntersectingRange(s.files, s.PieceOffset(p), s.PieceEnd(p)); CountedTo(s, before, after, p, lo, hi)
    ensures Counts(s, after, done + {p})
  {
    hide IntersectingRange, Contiguous, Total, Share;
    PieceNext(s, p);
    forall i | 0 <= i < |after| ensures after[i] == DoneShare(s, i, done + {p}, s.pieceCount) {
      DoneMore(s, i, done, p, s.pieceCount);
      var r := IntersectingRange(s.files, s.PieceOffset(p), s.PieceEnd(p));
      if !(r.0 <= i < r.1) { OutsideShare(s.files, s.PieceOffset(p), s.PieceEnd(p), i); }
    }
  }

  class Torrent {
    const storage: StorageInfo
    /** Per file, the bytes downloaded so far. */
    var complete: seq<nat>

    constructor (storage: StorageInfo)
      requires storage.Valid()
      ensures this.storage == storage && Counts(storage, complete, {})
    {
      this.storage := storage;
      complete := seq(|storage.files|, _ => 0);
      new;
      forall i | 0 <= i < |complete| ensures DoneShare(storage, i, {}, storage.pieceCount) == 0 {
        NoneDone(storage, i, storage.pieceCount);
      }
    }

    /** One completed piece: walk its files and add each slice. */
    method CountPiece(piece: nat)
      requires storage.Valid() && piece < storage.pieceCount && |complete| == |storage.files|
      modifies this`complete
      ensures var (lo, hi) := IntersectingRange(storage.files, storage.PieceOffset(piece), storage.PieceEnd(piece));
        CountedTo(storage, old(complete), complete, piece, lo, hi)
    {
      hide IntersectingRange, Contiguous, Total, Share, FileInfo.GetSlice;
      PieceNext(storage, piece);
      var start, end := storage.PieceOffset(piece), storage.PieceEnd(piece);
      RangeStart(storage.files, start, end);
      var lo, hi := FilesIntersectingBytes(storage.files, start, end);
      var offset, consumed: nat := start, 0;
      var i := lo;
      while i < hi
        invariant lo <= i <= hi <= |storage.files| && offset == start + consumed <= end
        invariant i < hi ==> offset == Max(start, storage.files[i].torrentOffset) < end
        invariant CountedTo(storage, old(complete), complete, piece, lo, i)
      {
        WalkShare(storage.files, start, end, i, offset);
        P.SliceNext(storage.files, start, end, i, offset);
        var slice := storage.files[i].GetSlice(offset, storage.PieceLen(piece) - consumed);
        offset := offset + slice.len;
        consumed := consumed + slice.len;
        complete := complete[i := complete[i] + slice.len];
        i := i + 1;
      }
    }

    /** The pieces completed since the last report, none of them counted before. The source's assertion
        that no file counts more than its length never trips. */
    method Update(latest: seq<nat>, ghost done: set<nat>)
      requires storage.Valid() && Counts(storage, complete, done)
      requires forall k :: 0 <= k < |latest| ==> latest[k] < storage.pieceCount && latest[k] !in done
      requires forall j, k :: 0 <= j < k < |latest| ==> latest[j] != latest[k]
      modifies this`complete
      ensures Counts(storage, complete, done + set p | p in latest)
      ensures forall i :: 0 <= i < |complete| ==> complete[i] <= storage.files[i].len
    {
      hide IntersectingRange, StorageInfo.Valid, DoneShare, CountedTo;
      ghost var counted := done;
      for k := 0 to |latest|
        invariant Counts(storage, complete, counted) && counted == done + set p | p in latest[..k]
      {
        ghost var before := complete;
        assert latest[k] !in counted;
        CountPiece(latest[k]);
        CountedAll(storage, before, complete, latest[k], counted);
        counted := counted + {latest[k]};
        assert latest[..k + 1] == latest[..k] + [latest[k]];
      }
      assert latest[..|latest|] == latest;
      forall i | 0 <= i < |complete| ensures complete[i] <= storage.files[i].len {
        ProgressBounded(storage, i, counted);
      }
    }
  }

  lemma {:induction false} NoneDone(s: StorageInfo, i: nat, n: nat)
    requires i < |s.files| && n <= s.pieceCount
    ensures DoneShare(s, i, {}, n) == 0
  {
    if n > 0 { NoneDone(s, i, n - 1); }
  }
}
