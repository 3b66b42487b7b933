/** The torrent's files seen as one flat byte string: what a positioned write does to a file, what
    scattering a piece over files does to the torrent, and why the second is a plain overwrite. */
module FlatDisk {
  import opened Wrappers
  import opened Storage

  function PadTo(c: seq<byte>, n: nat): (r: seq<byte>)
    ensures |r| == Max(|c|, n)
    ensures forall k {:trigger r[k]} :: 0 <= k < |r| ==> r[k] == if k < |c| then c[k] else 0
  {
    if |c| >= n then c else c + seq(n - |c|, _ => 0)
  }

  /** A positioned write: the file grows, with zeros in any gap, when it is too short. */
  function PWrite(c: seq<byte>, offset: nat, data: seq<byte>): (r: seq<byte>)
    ensures data != [] ==> |r| == Max(|c|, offset + |data|)
    ensures data != [] ==> forall k {:trigger r[k]} :: 0 <= k < |r| ==>
      r[k] == if offset <= k < offset + |data| then data[k - offset] else if k < |c| then c[k] else 0
  {
    if data == [] then c else Overwrite(PadTo(c, offset + |data|), offset, data)
  }

  /** Two writes, the second where the first ended, are one. */
  lemma PWriteTwice(c: seq<byte>, offset: nat, a: seq<byte>, b: seq<byte>)
    ensures PWrite(PWrite(c, offset, a), offset + |a|, b) == PWrite(c, offset, a + b)
  {
    if a == [] {
      assert a + b == b;
    } else if b == [] {
      assert a + b == a;
    } else {
      var l, r := PWrite(PWrite(c, offset, a), offset + |a|, b), PWrite(c, offset, a + b);
      assert |l| == |r|;
    }
  }

  /** The first `n` bytes of a file, reading zeros past its end. */
  function Fit(c: seq<byte>, n: nat): (r: seq<byte>)
    ensures |r| == n
    ensures forall k {:trigger r[k]} :: 0 <= k < n ==> r[k] == if k < |c| then c[k] else 0
  {
    PadTo(c, n)[..n]
  }

  /** The whole torrent as one byte string. */
  function Flat(files: seq<FileInfo>, contents: seq<seq<byte>>): seq<byte>
    requires |contents| == |files|
    decreases |files|
  {
    if files == [] then []
    else Flat(files[..|files| - 1], contents[..|files| - 1]) + Fit(contents[|files| - 1], files[|files| - 1].len)
  }

  lemma {:induction false} FlatLen(files: seq<FileInfo>, contents: seq<seq<byte>>)
    requires Contiguous(files) && |contents| == |files|
    ensures |Flat(files, contents)| == Total(files)
    decreases |files|
  {
    var n := |files|;
    if n > 1 {
      ContiguousInit(files);
      FlatLen(files[..n - 1], contents[..n - 1]);
      assert files[n - 2].End() == files[n - 1].torrentOffset;
    } else {
      assert files[..n - 1] == [];
    }
  }

  lemma ContiguousInit(files: seq<FileInfo>)
    requires Contiguous(files) && |files| > 1
    ensures Contiguous(files[..|files| - 1])
    ensures Total(files[..|files| - 1]) == files[|files| - 1].torrentOffset
  {
    var n := |files|;
    var init := files[..n - 1];
    assert files[n - 2].End() == files[n - 1].torrentOffset;
    forall i | 0 <= i < |init| - 1 ensures init[i].End() == init[i + 1].torrentOffset {
      assert files[i].End() == files[i + 1].torrentOffset;
    }
  }

  /** Byte t of the torrent is the byte of the file that holds it. */
  lemma {:induction false} FlatAt(files: seq<FileInfo>, contents: seq<seq<byte>>, i: nat, t: nat)
    requires Contiguous(files) && |contents| == |files| && i < |files|
    requires Storage.Holds(files[i], t)
    ensures t < |Flat(files, contents)|
    ensures Flat(files, contents)[t] == Fit(contents[i], files[i].len)[t - files[i].torrentOffset]
    decreases |files|
  {
    hide Fit;
    var n := |files|;
    if n == 1 {
      assert files[..0] == [] && contents[..0] == [];
    } else {
      ContiguousInit(files);
      var (f, c) := (files[..n - 1], contents[..n - 1]);
      FlatLen(f, c);
      if i < n - 1 {
        ContiguousOrder(files, i, n - 1);
        FlatAt(f, c, i, t);
      }
    }
  }

  /** Writes the bytes `lo..hi` of the torrent, which `data` at `off` holds, to the file. */
  function WritePart(f: FileInfo, c: seq<byte>, off: nat, data: seq<byte>, lo: nat, hi: nat): seq<byte>
    requires lo < hi ==> off <= lo && hi <= off + |data| && f.torrentOffset <= lo
  {
    if lo < hi then PWrite(c, lo - f.torrentOffset, data[lo - off..hi - off]) else c
  }

  /** What scattering `data` at torrent offset `off` does to one file. */
  function ScatterFile(f: FileInfo, c: seq<byte>, off: nat, data: seq<byte>): seq<byte> {
    WritePart(f, c, off, data, Max(off, f.torrentOffset), Min(off + |data|, f.End()))
  }

  function Scatter(files: seq<FileInfo>, contents: seq<seq<byte>>, off: nat, data: seq<byte>): (r: seq<seq<byte>>)
    requires |contents| == |files|
    ensures |r| == |files|
  {
    seq(|files|, i requires 0 <= i < |files| => ScatterFile(files[i], contents[i], off, data))
  }

  lemma PWriteFit(c: seq<byte>, n: nat, o: nat, d: seq<byte>, k: nat)
    requires d != [] && k < n
    ensures Fit(PWrite(c, o, d), n)[k] == if o <= k < o + |d| then d[k - o] else Fit(c, n)[k]
  {
  }

  lemma WritePartAt(f: FileInfo, c: seq<byte>, off: nat, data: seq<byte>, lo: nat, hi: nat, t: nat)
    requires off <= lo < hi <= off + |data| && f.torrentOffset <= lo && Storage.Holds(f, t)
    ensures Fit(WritePart(f, c, off, data, lo, hi), f.len)[t - f.torrentOffset]
      == if lo <= t < hi then data[t - off] else Fit(c, f.len)[t - f.torrentOffset]
  {
    var part := data[lo - off..hi - off];
    var o, k := lo - f.torrentOffset, t - f.torrentOffset;
    assert lo <= t < hi ==> part[k - o] == data[t - off];
    PWriteFit(c, f.len, o, part, k);
  }

  /** Within one file, scattering overwrites exactly the bytes of the range. */
  lemma ScatterFileAt(f: FileInfo, c: seq<byte>, off: nat, data: seq<byte>, t: nat)
    requires Storage.Holds(f, t)
    ensures Fit(ScatterFile(f, c, off, data), f.len)[t - f.torrentOffset]
      == if off <= t < off + |data| then data[t - off] else Fit(c, f.len)[t - f.torrentOffset]
  {
    if Max(off, f.torrentOffset) < Min(off + |data|, f.End()) {
      WritePartAt(f, c, off, data, Max(off, f.torrentOffset), Min(off + |data|, f.End()), t);
    }
  }

  lemma ScatterAt(files: seq<FileInfo>, contents: seq<seq<byte>>, off: nat, data: seq<byte>, t: nat)
    requires Contiguous(files) && |contents| == |files| && t < Total(files)
    ensures var after := Scatter(files, contents, off, data);
      && t < |Flat(files, contents)| && t < |Flat(files, after)|
      && Flat(files, after)[t] == if off <= t < off + |data| then data[t - off] else Flat(files, contents)[t]
  {
    hide Flat, ScatterFile, Fit;
    var after := Scatter(files, contents, off, data);
    var i := FindFile(files, t, |files|);
    FlatAt(files, contents, i, t);
    FlatAt(files, after, i, t);
    ScatterFileAt(files[i], contents[i], off, data, t);
  }

  /** Scattering over the files puts byte k of the data at torrent offset off + k and touches no
      other byte of the torrent. */
  lemma ScatterIsOverwrite(files: seq<FileInfo>, contents: seq<seq<byte>>, off: nat, data: seq<byte>)
    requires Contiguous(files) && |contents| == |files| && off + |data| <= Total(files)
    ensures |Flat(files, contents)| == Total(files)
    ensures Flat(files, Scatter(files, contents, off, data)) == Overwrite(Flat(files, contents), off, data)
  {
    hide Flat, Scatter, Contiguous, Total;
    var after := Scatter(files, contents, off, data);
    FlatLen(files, contents);
    FlatLen(files, after);
    forall t | 0 <= t < Total(files)
      ensures Flat(files, after)[t] == Overwrite(Flat(files, contents), off, data)[t]
    {
      ScatterAt(files, contents, off, data, t);
    }
  }

  /** No file is longer than the metainfo says. */
  predicate Bounded(files: seq<FileInfo>, contents: seq<seq<byte>>) {
    |contents| == |files| && forall i :: 0 <= i < |files| ==> |contents[i]| <= files[i].len
  }

  /** Every byte of the range has been written to its file at some time. */
  predicate Present(files: seq<FileInfo>, contents: seq<seq<byte>>, start: nat, end: nat)
    requires |contents| == |files|
  {
    forall i :: 0 <= i < |files| && files[i].Overlaps(start, end) ==>
      Min(end, files[i].End()) - files[i].torrentOffset <= |contents[i]|
  }

  lemma ScatterFileLen(f: FileInfo, c: seq<byte>, off: nat, data: seq<byte>)
    requires |c| <= f.len && data != []
    ensures |c| <= |ScatterFile(f, c, off, data)| <= f.len
    ensures f.Overlaps(off, off + |data|) && f.len > 0 ==>
      Min(off + |data|, f.End()) - f.torrentOffset <= |ScatterFile(f, c, off, data)|
  {
  }

  /** Scattering never grows a file past its declared length, makes its range present, and keeps
      every range present that was. */
  lemma ScatterBounded(files: seq<FileInfo>, contents: seq<seq<byte>>, off: nat, data: seq<byte>)
    requires Contiguous(files) && Bounded(files, contents) && data != []
    ensures Bounded(files, Scatter(files, contents, off, data))
    ensures Present(files, Scatter(files, contents, off, data), off, off + |data|)
    ensures forall s, e :: Present(files, contents, s, e) ==> Present(files, Scatter(files, contents, off, data), s, e)
  {
    var after := Scatter(files, contents, off, data);
    forall i | 0 <= i < |files|
      ensures |contents[i]| <= |after[i]| <= files[i].len
      ensures files[i].Overlaps(off, off + |data|) ==>
        Min(off + |data|, files[i].End()) - files[i].torrentOffset <= |after[i]|
    {
      ScatterFileLen(files[i], contents[i], off, data);
    }
  }

  /** A slice that has been written reads the same in the file and in the flat torrent. */
  lemma {:induction false} SliceOfFlat(files: seq<FileInfo>, contents: seq<seq<byte>>, i: nat, lo: nat, hi: nat)
    requires Contiguous(files) && |contents| == |files| && i < |files|
    requires files[i].torrentOffset <= lo <= hi <= files[i].End()
    requires hi - files[i].torrentOffset <= |contents[i]|
    ensures hi <= |Flat(files, contents)|
    ensures Flat(files, contents)[lo..hi] == contents[i][lo - files[i].torrentOffset..hi - files[i].torrentOffset]
  {
    FlatLen(files, contents);
    EndBelowTotal(files, i);
    forall t | lo <= t < hi ensures Flat(files, contents)[t] == contents[i][t - files[i].torrentOffset] {
      FlatAt(files, contents, i, t);
    }
  }
}
