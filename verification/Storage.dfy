/** Where pieces and files lie in the torrent (cratetorrent/src/storage_info.rs). */
module Storage {
  import opened Wrappers

  const U32_LIMIT: nat := 0x1_0000_0000

  datatype FileSlice = FileSlice(offset: nat, len: nat)

  datatype FileInfo = FileInfo(len: nat, torrentOffset: nat) {
    function End(): nat { torrentOffset + len }

    /** The part of the byte range that lies in this file; the source panics outside the file. */
    function GetSlice(offset: nat, n: nat): FileSlice
      requires torrentOffset <= offset < End()
    {
      FileSlice(offset - torrentOffset, Min(n, End() - offset))
    }

    predicate Overlaps(start: nat, end: nat) {
      torrentOffset < end && start < End()
    }
  }

  /** Non-empty files laid out one after the other, as metainfo parsing builds them. */
  predicate Contiguous(files: seq<FileInfo>) {
    && |files| > 0
    && files[0].torrentOffset == 0
    && (forall i :: 0 <= i < |files| ==> files[i].len > 0)
    && (forall i {:trigger files[i].End()} :: 0 <= i < |files| - 1 ==> files[i].End() == files[i + 1].torrentOffset)
  }

  function Total(files: seq<FileInfo>): nat {
    if files == [] then 0 else files[|files| - 1].End()
  }

  lemma {:induction false} ContiguousOrder(files: seq<FileInfo>, i: nat, j: nat)
    requires Contiguous(files) && i < j < |files|
    ensures files[i].End() <= files[j].torrentOffset
    ensures files[i].End() <= files[j].End() <= Total(files)
  {
    if i + 1 < j {
      ContiguousOrder(files, i, j - 1);
      assert files[j - 1].End() == files[j].torrentOffset;
    } else {
      assert files[i].End() == files[i + 1].torrentOffset;
    }
    EndBelowTotal(files, j);
  }

  lemma {:induction false} EndBelowTotal(files: seq<FileInfo>, j: nat)
    requires Contiguous(files) && j < |files|
    ensures files[j].End() <= Total(files)
    decreases |files| - j
  {
    if j + 1 < |files| {
      assert files[j].End() == files[j + 1].torrentOffset;
      EndBelowTotal(files, j + 1);
    }
  }

  /** Every byte of the torrent lies in some file. */
  lemma {:induction false} FindFile(files: seq<FileInfo>, t: nat, n: nat) returns (i: nat)
    requires Contiguous(files) && n <= |files|
    requires n > 0 && t < files[n - 1].End()
    ensures i < n && files[i].torrentOffset <= t < files[i].End()
  {
    if files[n - 1].torrentOffset <= t {
      i := n - 1;
    } else {
      assert n > 1 && files[n - 2].End() == files[n - 1].torrentOffset;
      i := FindFile(files, t, n - 1);
    }
  }

  predicate Holds(f: FileInfo, t: nat) { f.torrentOffset <= t < f.End() }

  predicate StartsIn(f: FileInfo, start: nat, end: nat) { start <= f.torrentOffset < end }

  /** Index of the first file from `i` on whose byte range contains `start`. */
  function FirstContaining(files: seq<FileInfo>, start: nat, i: nat): (r: nat)
    requires i <= |files|
    ensures i <= r <= |files|
    decreases |files| - i
  {
    if i == |files| || Holds(files[i], start) then i else FirstContaining(files, start, i + 1)
  }

  /** One past the last file, from `i` on, in the unbroken row of files that begin inside the range. */
  function RowEnd(files: seq<FileInfo>, start: nat, end: nat, i: nat): (r: nat)
    requires i <= |files|
    ensures i <= r <= |files|
    decreases |files| - i
  {
    if i == |files| || !StartsIn(files[i], start, end) then i else RowEnd(files, start, end, i + 1)
  }

  lemma {:induction false} FirstContainingIsFirst(files: seq<FileInfo>, start: nat, i: nat, k: nat)
    requires i <= k < |files|
    ensures var r := FirstContaining(files, start, i);
      && (r < |files| ==> Holds(files[r], start))
      && (k < r ==> !Holds(files[k], start))
    decreases |files| - i
  {
    if !Holds(files[i], start) && i + 1 < |files| {
      FirstContainingIsFirst(files, start, i + 1, if k == i then i + 1 else k);
    }
  }

  lemma {:induction false} RowEndIsEnd(files: seq<FileInfo>, start: nat, end: nat, i: nat, k: nat)
    requires i <= k < |files|
    ensures var r := RowEnd(files, start, end, i);
      && (r < |files| ==> !StartsIn(files[r], start, end))
      && (k < r ==> StartsIn(files[k], start, end))
    decreases |files| - i
  {
    if StartsIn(files[i], start, end) && i + 1 < |files| {
      RowEndIsEnd(files, start, end, i + 1, if k == i then i + 1 else k);
    }
  }

  /** The half-open range of file indices that the lookup answers. */
  function IntersectingRange(files: seq<FileInfo>, start: nat, end: nat): (r: (nat, nat))
    requires |files| > 0
    ensures r.0 <= r.1 <= |files|
  {
    if |files| == 1 then (0, 1)
    else
      var first := FirstContaining(files, start, 0);
      if first == |files| then (0, 0) else (first, RowEnd(files, start, end, first + 1))
  }

  method FilesIntersectingBytes(files: seq<FileInfo>, start: nat, end: nat) returns (lo: nat, hi: nat)
    requires |files| > 0
    ensures (lo, hi) == IntersectingRange(files, start, end)
  {
    if |files| == 1 {
      return 0, 1;
    }
    var first := 0;
    while first < |files| && !Holds(files[first], start)
      invariant first <= |files|
      invariant FirstContaining(files, start, 0) == FirstContaining(files, start, first)
    {
      first := first + 1;
    }
    if first == |files| {
      return 0, 0;
    }
    lo, hi := first, first + 1;
    var index := first + 1;
    while index < |files|
      invariant hi == index <= |files|
      invariant RowEnd(files, start, end, first + 1) == RowEnd(files, start, end, index)
    {
      if !StartsIn(files[index], start, end) {
        break;
      }
      hi := index + 1;
      index := index + 1;
    }
  }

  /** The lookup's answer is right about file i. */
  predicate ExactAt(files: seq<FileInfo>, start: nat, end: nat, i: nat)
    requires i < |files|
  {
    IntersectingRange(files, start, end).0 <= i < IntersectingRange(files, start, end).1
    <==> files[i].Overlaps(start, end)
  }

  lemma LookupExactAt(files: seq<FileInfo>, start: nat, end: nat, i: nat)
    requires Contiguous(files) && start < end && i < |files|
    requires |files| > 1 || start < Total(files)
    ensures ExactAt(files, start, end, i)
  {
    EndBelowTotal(files, i);
    if |files| > 1 {
      var lo := FirstContaining(files, start, 0);
      FirstContainingIsFirst(files, start, 0, i);
      if lo < |files| {
        if i < lo { ContiguousOrder(files, i, lo); }
        if lo < i {
          var hi := RowEnd(files, start, end, lo + 1);
          ContiguousOrder(files, lo, i);
          RowEndIsEnd(files, start, end, lo + 1, i);
          if hi < i { ContiguousOrder(files, hi, i); ContiguousOrder(files, lo, hi); }
        }
      } else if start < Total(files) {
        var f := FindFile(files, start, |files|);
        FirstContainingIsFirst(files, start, 0, f);
        assert false;
      }
    }
  }

  /** The lookup answers exactly the overlapping files, for every non-empty range, with one
      exception: a single-file torrent answers its file even for a range past the end. */
  lemma LookupExact(files: seq<FileInfo>, start: nat, end: nat)
    requires Contiguous(files) && start < end
    ensures (forall i :: 0 <= i < |files| ==> ExactAt(files, start, end, i))
      <==> (|files| > 1 || start < Total(files))
  {
    if |files| > 1 || start < Total(files) {
      forall i | 0 <= i < |files| ensures ExactAt(files, start, end, i) {
        LookupExactAt(files, start, end, i);
      }
    } else {
      assert !ExactAt(files, start, end, 0);
    }
  }

  /** What one iteration of the walk over a piece's files relies on and establishes. */
  lemma WalkStep(files: seq<FileInfo>, start: nat, end: nat, i: nat, offset: nat)
    requires Contiguous(files) && start < end <= Total(files)
    requires IntersectingRange(files, start, end).0 <= i < IntersectingRange(files, start, end).1
    requires offset == Max(start, files[i].torrentOffset)
    ensures files[i].torrentOffset <= offset < files[i].End() && offset < end
    ensures offset + files[i].GetSlice(offset, end - offset).len == Min(end, files[i].End()) > offset
    ensures end <= files[i].End() <==> i + 1 == IntersectingRange(files, start, end).1
    ensures files[i].End() < end ==> i + 1 < |files| && files[i].End() == Max(start, files[i + 1].torrentOffset)
  {
    LookupExactAt(files, start, end, i);
    assert ExactAt(files, start, end, i);
    if i + 1 < |files| {
      assert files[i].End() == files[i + 1].torrentOffset;
      LookupExactAt(files, start, end, i + 1);
      assert ExactAt(files, start, end, i + 1);
    } else {
      EndBelowTotal(files, i);
    }
  }

  lemma RangeStart(files: seq<FileInfo>, start: nat, end: nat)
    requires Contiguous(files) && start < end <= Total(files)
    ensures IntersectingRange(files, start, end).0 < IntersectingRange(files, start, end).1
    ensures start == Max(start, files[IntersectingRange(files, start, end).0].torrentOffset)
  {
    var f := FindFile(files, start, |files|);
    LookupExactAt(files, start, end, f);
    assert ExactAt(files, start, end, f);
    FirstContainingIsFirst(files, start, 0, f);
  }

  /** The slices a walk over files `i..hi` takes, from torrent offset `offset` with `n` bytes left;
      None if a slice request would trip an assertion. */
  function Walk(files: seq<FileInfo>, i: nat, hi: nat, offset: nat, n: nat): Option<seq<FileSlice>>
    requires i <= hi <= |files|
    decreases hi - i
  {
    if i == hi then Some([])
    else if n == 0 || !(files[i].torrentOffset <= offset < files[i].End()) then None
    else
      var s := files[i].GetSlice(offset, n);
      match Walk(files, i + 1, hi, offset + s.len, n - s.len)
      case None => None
      case Some(rest) => Some([s] + rest)
  }

  function SliceSum(s: seq<FileSlice>): nat {
    if s == [] then 0 else s[0].len + SliceSum(s[1..])
  }

  /** Slice k of a walk starting at file i stays inside its file, is not empty, and begins where it should. */
  predicate SliceFits(files: seq<FileInfo>, start: nat, j: nat, s: FileSlice)
    requires j < |files|
  {
    && 0 < s.len
    && files[j].torrentOffset + s.offset == Max(start, files[j].torrentOffset)
    && s.offset + s.len <= files[j].len
  }

  lemma {:induction false} WalkFrom(files: seq<FileInfo>, start: nat, end: nat, i: nat, offset: nat) returns (w: seq<FileSlice>)
    requires Contiguous(files) && start < end <= Total(files)
    requires IntersectingRange(files, start, end).0 <= i < IntersectingRange(files, start, end).1
    requires offset == Max(start, files[i].torrentOffset)
    ensures offset < end
    ensures Walk(files, i, IntersectingRange(files, start, end).1, offset, end - offset) == Some(w)
    ensures |w| == IntersectingRange(files, start, end).1 - i
    ensures forall k :: 0 <= k < |w| ==> SliceFits(files, start, i + k, w[k])
    ensures SliceSum(w) == end - offset
    decreases |files| - i
  {
    hide IntersectingRange, Contiguous, Total;
    WalkStep(files, start, end, i, offset);
    var hi := IntersectingRange(files, start, end).1;
    var s := files[i].GetSlice(offset, end - offset);
    var rest := [];
    if i + 1 < hi {
      rest := WalkFrom(files, start, end, i + 1, offset + s.len);
      assert end - offset - s.len == end - (offset + s.len);
    }
    w := [s] + rest;
    assert w[1..] == rest;
    assert SliceFits(files, start, i, s);
    forall k | 0 <= k < |w| ensures SliceFits(files, start, i + k, w[k]) {
      if k > 0 { assert SliceFits(files, start, i + 1 + (k - 1), rest[k - 1]); }
    }
  }

  datatype StorageInfo = StorageInfo(pieceCount: nat, pieceLen: nat, lastPieceLen: nat, downloadLen: nat, files: seq<FileInfo>)
  {
    function PieceLen(p: nat): nat
      requires p < pieceCount
    {
      if p == pieceCount - 1 then lastPieceLen else pieceLen
    }

    function PieceOffset(p: nat): nat { p * pieceLen }

    function PieceEnd(p: nat): nat
      requires p < pieceCount
    {
      PieceOffset(p) + PieceLen(p)
    }

    /** The pieces are non-empty, disjoint, and cover exactly the torrent's bytes. */
    ghost predicate PiecesPartition() {
      && (forall p :: 0 <= p < pieceCount ==> PieceLen(p) > 0)
      && (forall p, q :: 0 <= p < q < pieceCount ==> PieceEnd(p) <= PieceOffset(q))
      && (forall t: nat :: t < downloadLen <==> Covers(t))
    }

    ghost predicate Covers(t: nat) {
      exists p :: 0 <= p < pieceCount && PieceOffset(p) <= t < PieceEnd(p)
    }

    /** What the engine expects of a torrent's metainfo. */
    predicate Valid() {
      && pieceCount > 0 && pieceLen > 0 && lastPieceLen > 0
      && Contiguous(files) && Total(files) == downloadLen
      && PieceEnd(pieceCount - 1) == downloadLen
    }
  }

  /** `StorageInfo::new`: the last piece's length is a u64 difference cast to u32. */
  function NewStorage(pieceCount: nat, pieceLen: nat, files: seq<FileInfo>): StorageInfo
    requires pieceCount > 0
  {
    var downloadLen := Total(files);
    StorageInfo(pieceCount, pieceLen, (downloadLen - pieceLen * (pieceCount - 1)) % U32_LIMIT, downloadLen, files)
  }

  lemma {:induction false} MulStep(p: nat, q: nat, n: nat)
    requires p < q
    ensures p * n + n <= q * n
  {
    if p + 1 < q {
      MulStep(p, q - 1, n);
      assert q * n == (q - 1) * n + n;
    } else {
      assert (p + 1) * n == p * n + n;
    }
  }

  /** Pieces of a valid torrent are ordered and inside the torrent. */
  lemma PieceOrder(s: StorageInfo, p: nat)
    requires s.Valid() && p < s.pieceCount
    ensures 0 < s.PieceLen(p) && s.PieceEnd(p) <= s.downloadLen
    ensures forall q :: p < q < s.pieceCount ==> s.PieceEnd(p) <= s.PieceOffset(q)
  {
    forall q | p < q < s.pieceCount ensures s.PieceEnd(p) <= s.PieceOffset(q) {
      MulStep(p, q, s.pieceLen);
    }
    if p < s.pieceCount - 1 {
      MulStep(p, s.pieceCount - 1, s.pieceLen);
    }
  }

  lemma {:induction false} FindPiece(s: StorageInfo, t: nat, last: nat) returns (p: nat)
    requires last < s.pieceCount && t < s.PieceEnd(last)
    ensures p <= last && s.PieceOffset(p) <= t < s.PieceEnd(p)
  {
    if s.PieceOffset(last) <= t {
      p := last;
    } else {
      MulStep(last - 1, last, s.pieceLen);
      p := FindPiece(s, t, last - 1);
    }
  }

  /** The constructor's pieces partition the torrent exactly when the last piece's length is
      positive and survives the cast to u32. */
  lemma NewPartitionsIff(pieceCount: nat, pieceLen: nat, files: seq<FileInfo>)
    requires pieceCount > 0 && pieceLen > 0
    ensures NewStorage(pieceCount, pieceLen, files).PiecesPartition()
      <==> 0 < Total(files) - pieceLen * (pieceCount - 1) < U32_LIMIT
  {
    var s := NewStorage(pieceCount, pieceLen, files);
    var last := pieceCount - 1;
    assert s.PieceOffset(last) == pieceLen * last;
    forall p, q | 0 <= p < q < pieceCount ensures s.PieceEnd(p) <= s.PieceOffset(q) {
      MulStep(p, q, pieceLen);
    }
    if 0 < Total(files) - pieceLen * last < U32_LIMIT {
      assert s.lastPieceLen == Total(files) - pieceLen * last;
      forall t: nat ensures t < s.downloadLen <==> s.Covers(t) {
        if t < s.downloadLen {
          var p := FindPiece(s, t, last);
        }
      }
    } else {
      var end := s.PieceEnd(last);
      assert !s.Covers(end);
      if s.PieceLen(last) > 0 {
        assert s.Covers(end - 1) by { assert s.PieceOffset(last) <= end - 1 < s.PieceEnd(last); }
        assert end < s.downloadLen || s.downloadLen < end;
      }
    }
  }

  /** Walking a piece's files with `get_slice` never trips an assertion, takes only non-empty
      slices inside the files, and consumes exactly the piece. */
  lemma WalkTilesPiece(s: StorageInfo, p: nat) returns (w: seq<FileSlice>)
    requires s.Valid() && p < s.pieceCount
    ensures
      var (lo, hi) := IntersectingRange(s.files, s.PieceOffset(p), s.PieceEnd(p));
      && lo < hi
      && Walk(s.files, lo, hi, s.PieceOffset(p), s.PieceLen(p)) == Some(w)
      && |w| == hi - lo
      && (forall k :: 0 <= k < |w| ==> SliceFits(s.files, s.PieceOffset(p), lo + k, w[k]))
    ensures forall i :: 0 <= i < |s.files| ==> ExactAt(s.files, s.PieceOffset(p), s.PieceEnd(p), i)
    ensures SliceSum(w) == s.PieceLen(p)
  {
    PieceOrder(s, p);
    var (start, end) := (s.PieceOffset(p), s.PieceEnd(p));
    RangeStart(s.files, start, end);
    LookupExact(s.files, start, end);
    w := WalkFrom(s.files, start, end, IntersectingRange(s.files, start, end).0, start);
  }
}
