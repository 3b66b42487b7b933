/** Writing one file's share of a list of buffers: the loop the `iovecs` module documents, and the
    loop of `TorrentFile::write` (cratetorrent/src/iovecs.rs, cratetorrent/src/disk/io/file.rs).
    The kernel may transfer any non-empty prefix of what it is given. */
module FileIo {
  import opened Wrappers
  import opened Storage
  import opened FlatDisk
  import V = IoVecs

  /** The bytes on file after transfers of the given counts, each made at the same offset. */
  function SameOffset(c: seq<byte>, offset: nat, data: seq<byte>, counts: seq<nat>): seq<byte>
    decreases |counts|
  {
    if counts == [] || |data| < counts[0] then c
    else SameOffset(PWrite(c, offset, data[..counts[0]]), offset, data[counts[0]..], counts[1..])
  }

  lemma {:induction false} SameOffsetSnoc(c: seq<byte>, offset: nat, data: seq<byte>, counts: seq<nat>, n: nat)
    requires V.Sum(counts) + n <= |data|
    ensures SameOffset(c, offset, data, counts + [n])
      == PWrite(SameOffset(c, offset, data, counts), offset, data[V.Sum(counts)..V.Sum(counts) + n])
    decreases |counts|
  {
    hide PWrite, SameOffset;
    var s := V.Sum(counts);
    if counts == [] {
      assert counts + [n] == [n] && [n][1..] == [];
      assert data[s..s + n] == data[..n];
      SameOffsetCons(c, offset, data, [n]);
      SameOffsetNone(PWrite(c, offset, data[..n]), offset, data[n..]);
      SameOffsetNone(c, offset, data);
    } else {
      assert (counts + [n])[1..] == counts[1..] + [n];
      var d := data[counts[0]..];
      SameOffsetCons(c, offset, data, counts);
      SameOffsetCons(c, offset, data, counts + [n]);
      SameOffsetSnoc(PWrite(c, offset, data[..counts[0]]), offset, d, counts[1..], n);
      assert d[s - counts[0]..s - counts[0] + n] == data[s..s + n];
    }
  }

  lemma SameOffsetCons(c: seq<byte>, offset: nat, data: seq<byte>, counts: seq<nat>)
    requires counts != [] && counts[0] <= |data|
    ensures SameOffset(c, offset, data, counts) == SameOffset(PWrite(c, offset, data[..counts[0]]), offset, data[counts[0]..], counts[1..])
  {
    hide PWrite;
  }

  lemma SameOffsetNone(c: seq<byte>, offset: nat, data: seq<byte>)
    ensures SameOffset(c, offset, data, []) == c
  {
  }

  lemma NothingLeft(v: V.Vecs)
    requires v.Valid() && v.AsSlice() == []
    ensures v.Front() == []
  {
  }

  lemma WriteNothing(c: seq<byte>, offset: nat, data: seq<byte>)
    ensures PWrite(c, offset, data[..0]) == c && SameOffset(c, offset, data, []) == c
  {
  }

  lemma WriteProgress(c: seq<byte>, start: nat, front: seq<byte>, total: nat, n: nat)
    requires total + n <= |front|
    ensures PWrite(PWrite(c, start, front[..total]), start + total, front[total..][..n]) == PWrite(c, start, front[..total + n])
    ensures front[total..][n..] == front[total + n..]
  {
    hide PWrite;
    PWriteTwice(c, start, front[..total], front[total..][..n]);
    assert front[..total] + front[total..][..n] == front[..total + n];
  }

  lemma {:induction false} SumSnoc(s: seq<nat>, x: nat)
    ensures V.Sum(s + [x]) == V.Sum(s) + x
  {
    if s == [] {
      assert [x][1..] == [];
    } else {
      assert (s + [x])[1..] == s[1..] + [x];
      SumSnoc(s[1..], x);
    }
  }

  predicate Positive(counts: seq<nat>) {
    forall i :: 0 <= i < |counts| ==> counts[i] > 0
  }

  lemma {:induction false} SumAtLeast(s: seq<nat>, i: nat)
    requires Positive(s) && i < |s|
    ensures V.Sum(s) >= s[i]
    ensures |s| > 1 ==> V.Sum(s) > s[i]
  {
    if i > 0 {
      SumAtLeast(s[1..], i - 1);
    } else if |s| > 1 {
      SumAtLeast(s[1..], 0);
    }
  }

  lemma {:induction false} SameOffsetShort(c: seq<byte>, offset: nat, data: seq<byte>, counts: seq<nat>, max: nat)
    requires forall i :: 0 <= i < |counts| ==> counts[i] <= max
    requires |c| <= offset + max
    ensures |SameOffset(c, offset, data, counts)| <= offset + max
    decreases |counts|
  {
    if counts != [] && counts[0] <= |data| {
      SameOffsetShort(PWrite(c, offset, data[..counts[0]]), offset, data[counts[0]..], counts[1..], max);
    }
  }

  /** Reusing the offset is right, for all contents and all data, exactly when one transfer does it all. */
  lemma SameOffsetRightIff(offset: nat, counts: seq<nat>, n: nat)
    requires n > 0 && Positive(counts) && V.Sum(counts) == n
    ensures (forall c: seq<byte>, data: seq<byte> :: |data| == n ==>
        SameOffset(c, offset, data, counts) == PWrite(c, offset, data))
      <==> |counts| == 1
  {
    if |counts| == 1 {
      assert counts[1..] == [];
      forall c: seq<byte>, data: seq<byte> | |data| == n
        ensures SameOffset(c, offset, data, counts) == PWrite(c, offset, data)
      {
        hide PWrite;
        assert data[..n] == data;
      }
    } else {
      forall i | 0 <= i < |counts| ensures counts[i] <= n - 1 { SumAtLeast(counts, i); }
      var data: seq<byte> := seq(n, _ => 0);
      SameOffsetShort([], offset, data, counts, n - 1);
      assert |PWrite([], offset, data)| == offset + n;
      assert SameOffset([], offset, data, counts) != PWrite([], offset, data);
    }
  }

  lemma {:induction false} RunSnoc(v: V.Vecs, steps: seq<nat>, n: nat)
    requires V.LegalRun(v, steps) && V.Run(v, steps).Legal(n)
    ensures V.LegalRun(v, steps + [n])
    ensures V.Run(v, steps + [n]) == V.AdvanceView(V.Run(v, steps), n)
    decreases |steps|
  {
    if steps == [] {
      assert ([n])[1..] == [];
      assert steps + [n] == [n];
    } else {
      assert (steps + [n])[1..] == steps[1..] + [n];
      RunSnoc(V.AdvanceView(v, steps[0]), steps[1..], n);
    }
  }

  /** Transfer counts that fill a slice of `n` bytes, all but the last followed by an advance. */
  ghost predicate Served(bufs: seq<seq<byte>>, n: nat, counts: seq<nat>) {
    && counts != [] && Positive(counts) && V.Sum(counts) == n
    && V.LegalRun(V.BoundedView(bufs, n), counts[..|counts| - 1])
    && V.Run(V.BoundedView(bufs, n), counts[..|counts| - 1]).Valid()
  }

  /** The buffers `TorrentFile::write` hands back: it leaves its loop before the last advance. */
  ghost function TailAsCoded(bufs: seq<seq<byte>>, n: nat, counts: seq<nat>): seq<seq<byte>>
    requires Served(bufs, n, counts)
  {
    V.TailView(V.Run(V.BoundedView(bufs, n), counts[..|counts| - 1]))
  }

  /** The slice ends between two buffers. */
  predicate EndsBetween(bufs: seq<seq<byte>>, n: nat) {
    var (pos, cut) := V.SplitPoint(bufs, n);
    pos + 1 < |bufs| && cut == |bufs[pos]|
  }

  /** Whatever the transfer counts, the buffers handed back are the unwritten bytes exactly when the
      slice does not end between two buffers. */
  lemma TailRightIff(bufs: seq<seq<byte>>, n: nat, counts: seq<nat>)
    requires 0 < n <= |Flatten(bufs)| && Served(bufs, n, counts)
    ensures Flatten(TailAsCoded(bufs, n, counts)) == Flatten(bufs)[n..] <==> !EndsBetween(bufs, n)
  {
    hide V.TailView, V.Run, V.LegalRun, V.Vecs.AsSlice, V.Vecs.Front, V.Vecs.Rest, Flatten;
    var init := counts[..|counts| - 1];
    assert counts == init + [counts[|counts| - 1]];
    SumSnoc(init, counts[|counts| - 1]);
    V.RefinesByteString(bufs, n, init);
  }

  lemma OverwriteTwice(s: seq<byte>, a: nat, x: seq<byte>, y: seq<byte>)
    requires a + |x| + |y| <= |s|
    ensures Overwrite(Overwrite(s, a, x), a + |x|, y) == Overwrite(s, a, x + y)
  {
  }

  lemma OverwriteNone(s: seq<byte>, a: nat, data: seq<byte>)
    requires a <= |s| && data == []
    ensures Overwrite(s, a, data) == s
  {
  }

  lemma OverwriteNext(s: seq<byte>, a: nat, c: seq<byte>, offset: nat, j: nat)
    requires a + j < |s| && offset + j < |c|
    ensures Overwrite(s, a, c[offset..offset + j + 1]) == Overwrite(s, a, c[offset..offset + j])[a + j := c[offset + j]]
  {
  }

  /** Where the loop of `read` stands: the memory from `a` on holds what the reads so far delivered. */
  ghost predicate Fetched(c: seq<byte>, offset: nat, before: seq<byte>, mem: seq<byte>, a: nat, counts: seq<nat>) {
    && Readable(c, offset, counts)
    && |SameOffsetRead(c, offset, counts)| == V.Sum(counts)
    && a + V.Sum(counts) <= |before|
    && mem == Overwrite(before, a, SameOffsetRead(c, offset, counts))
  }

  lemma FetchedOne(c: seq<byte>, offset: nat, before: seq<byte>, mem: seq<byte>, a: nat, counts: seq<nat>, n: nat, after: seq<byte>)
    requires Fetched(c, offset, before, mem, a, counts)
    requires n > 0 && offset + n <= |c| && a + V.Sum(counts) + n <= |before|
    requires after == Overwrite(mem, a + V.Sum(counts), c[offset..offset + n])
    ensures V.Sum(counts + [n]) == V.Sum(counts) + n
    ensures Fetched(c, offset, before, after, a, counts + [n])
  {
    hide Overwrite, SameOffsetRead, V.Sum;
    ReadOne(c, offset, counts, n);
    OverwriteTwice(before, a, SameOffsetRead(c, offset, counts), c[offset..offset + n]);
  }

  lemma FetchedNone(c: seq<byte>, offset: nat, mem: seq<byte>, a: nat)
    requires a <= |mem|
    ensures Fetched(c, offset, mem, mem, a, []) && V.Sum([]) == 0
  {
  }

  /** The file has the whole slice, and a read of all it can give stops at the slice's end. */
  predicate OneReadDoes(c: seq<byte>, slice: FileSlice, room: int) {
    && 0 < slice.len <= room && slice.offset + slice.len <= |c|
    && (slice.len == room || slice.offset + slice.len == |c|)
  }

  /** The room in a list of windows. */
  function Capacity(ws: seq<V.Window>, ghost a: nat, ghost b: nat): (n: nat)
    requires V.Consecutive(ws, a, b)
    ensures a + n == b
  {
    if ws == [] then 0 else ws[0].len + Capacity(ws[1..], a + ws[0].len, b)
  }

  class TorrentFile {
    const info: FileInfo
    var content: seq<byte>

    constructor (info: FileInfo, content: seq<byte>)
      ensures this.info == info && this.content == content
    {
      this.info, this.content := info, content;
    }

    /** `pwritev`: some non-empty prefix of the buffers goes to the file. */
    method Pwritev(bufs: seq<seq<byte>>, offset: nat) returns (n: nat)
      modifies this
      ensures n <= |Flatten(bufs)| && (Flatten(bufs) != [] ==> n > 0)
      ensures content == PWrite(old(content), offset, Flatten(bufs)[..n])
    {
      var data := Flatten(bufs);
      n := 0;
      if data != [] {
        n :| 0 < n <= |data|;
      }
      content := PWrite(content, offset, data[..n]);
    }

    /** One turn of the documented loop: a transfer, and the buffers moved on by its count. */
    method TransferAndAdvance(offset: nat, vecs: V.IoVecs) returns (n: nat)
      requires vecs.Valid() && vecs.View().AsSlice() != []
      modifies this, vecs, vecs.store
      ensures vecs.Valid() && vecs.start >= old(vecs.start)
      ensures n <= |old(vecs.View().Front())|
      ensures vecs.View().Front() == old(vecs.View().Front())[n..]
      ensures vecs.View().Rest() == old(vecs.View().Rest()) && V.Kept(vecs.View()) == V.Kept(old(vecs.View()))
      ensures content == PWrite(old(content), offset, old(vecs.View().Front())[..n])
      ensures n > 0 || vecs.View().AsSlice() == []
      ensures vecs.store[..old(vecs.start)] == old(vecs.store[..vecs.start])
    {
      ghost var v := vecs.View();
      n := Pwritev(vecs.View().AsSlice(), offset);
      assert vecs.View() == v;
      V.AdvanceMeaning(v, n);
      V.AdvanceProgress(v, n);
      var panics := vecs.Advance(n);
    }

    /** `preadv`: fills some stretch at the front of the windows, all of it that the file can fill when
        the kernel transfers in full; nothing past the end of the file. */
    method Preadv(mem: array<byte>, ws: seq<V.Window>, offset: nat, full: bool, ghost a: nat, ghost b: nat) returns (n: nat)
      requires V.Consecutive(ws, a, b) && b <= mem.Length
      modifies mem
      ensures a + n <= b && (n > 0 ==> offset + n <= |content|)
      ensures n == 0 <==> a == b || |content| <= offset
      ensures full && a < b && offset < |content| ==> n == b - a || offset + n == |content|
      ensures n > 0 ==> mem[..] == Overwrite(old(mem[..]), a, content[offset..offset + n])
      ensures n == 0 ==> mem[..] == old(mem[..])
    {
      hide Overwrite, V.Consecutive;
      V.ConsecutiveOrder(ws, a, b);
      n := 0;
      if ws == [] || |content| <= offset {
        return;
      }
      V.ConsecutiveFirst(ws, a, b);
      var first := ws[0].off;
      var cap := Capacity(ws, a, b);
      n := Min(cap, |content| - offset);
      if !full {
        var m :| 0 < m <= n;
        n := m;
      }
      ghost var before := mem[..];
      OverwriteNone(before, a, content[offset..offset + 0]);
      for j := 0 to n
        invariant mem[..] == Overwrite(before, a, content[offset..offset + j])
      {
        OverwriteNext(before, a, content, offset, j);
        mem[first + j] := content[offset + j];
      }
    }

    /** `TorrentFile::read`: None is the missing-data error. Every read is made at the slice's own offset. */
    method Read(slice: FileSlice, mem: array<byte>, ws: array<V.Window>, start: nat, full: bool, ghost a: nat, ghost b: nat)
      returns (r: Option<nat>, counts: seq<nat>)
      requires start <= ws.Length && V.Consecutive(ws[start..], a, b) && b <= mem.Length
      modifies mem, ws
      ensures Fetched(content, slice.offset, old(mem[..]), mem[..], a, counts) && a + V.Sum(counts) <= b
      ensures r.Some? ==> start <= r.value <= ws.Length && V.Consecutive(ws[r.value..], a + V.Sum(counts), b)
      ensures r.None? <==> |content| <= slice.offset && a < b && slice.len > 0
      ensures full && OneReadDoes(content, slice, b - a) ==> counts == [slice.len]
    {
      hide Fetched, V.Consecutive, V.Sum, Overwrite;
      V.ConsecutiveOrder(ws[start..], a, b);
      counts := [];
      var total, iovecs := 0, start;
      FetchedNone(content, slice.offset, mem[..], a);
      while iovecs < ws.Length && total < slice.len
        invariant start <= iovecs <= ws.Length && V.Consecutive(ws[iovecs..], a + total, b) && a + total <= b
        invariant V.Sum(counts) == total && Fetched(content, slice.offset, old(mem[..]), mem[..], a, counts)
        invariant counts != [] ==> slice.offset < |content|
        invariant counts == [] ==> iovecs == start && total == 0
        invariant full && OneReadDoes(content, slice, b - a) ==> counts == [] || (counts == [slice.len] && total == slice.len)
        decreases b - a - total
      {
        V.ConsecutiveOrder(ws[iovecs..], a + total, b);
        ghost var before := mem[..];
        var n := Preadv(mem, ws[iovecs..], slice.offset, full, a + total, b);
        if n == 0 {
          return None, counts;
        }
        FetchedOne(content, slice.offset, old(mem[..]), before, a, counts, n, mem[..]);
        counts := counts + [n];
        iovecs := V.AdvanceWindows(ws, iovecs, n, a + total, b);
        total := total + n;
      }
      V.ConsecutiveOrder(ws[iovecs..], a + total, b);
      r := Some(iovecs);
    }

    /** The documented loop, which moves the buffers and the offset on by each transfer. It ends, and
        the file holds the whole first half at `start`. */
    method WriteVectoredAt(start: nat, vecs: V.IoVecs) returns (total: nat)
      requires vecs.Valid()
      modifies this, vecs, vecs.store
      ensures vecs.Valid() && vecs.start >= old(vecs.start)
      ensures vecs.View().AsSlice() == [] && vecs.View().Rest() == old(vecs.View().Rest())
      ensures V.Kept(vecs.View()) == V.Kept(old(vecs.View()))
      ensures total == |old(vecs.View().Front())|
      ensures content == PWrite(old(content), start, old(vecs.View().Front()))
      ensures vecs.store[..old(vecs.start)] == old(vecs.store[..vecs.start])
    {
      hide PWrite, Flatten, V.Vecs.Valid, V.Vecs.AsSlice, V.Vecs.Front, V.Vecs.Rest, V.Kept;
      ghost var front, c := vecs.View().Front(), content;
      total := 0;
      var offset := start;
      WriteNothing(c, start, front);
      while vecs.View().AsSlice() != []
        invariant vecs.Valid() && vecs.start >= old(vecs.start)
        invariant total <= |front| && offset == start + total
        invariant vecs.View().Front() == front[total..] && vecs.View().Rest() == old(vecs.View().Rest())
        invariant V.Kept(vecs.View()) == V.Kept(old(vecs.View()))
        invariant content == PWrite(c, start, front[..total])
        invariant vecs.store[..old(vecs.start)] == old(vecs.store[..vecs.start])
        decreases |front| - total, |vecs.View().AsSlice()|
      {
        ghost var s := vecs.start;
        var n := TransferAndAdvance(offset, vecs);
        WriteProgress(c, start, front, total, n);
        assert vecs.store[..old(vecs.start)] == vecs.store[..s][..old(vecs.start)];
        total := total + n;
        offset := offset + n;
      }
      NothingLeft(vecs.View());
      assert front[..total] == front;
    }

    /** Bound, write with the documented loop, take the tail: the file gets the slice's bytes and
        the buffers handed back hold exactly the others. */
    method WriteSlice(slice: FileSlice, store: array<seq<byte>>, start: nat) returns (tail: nat)
      requires slice.len > 0 && start <= store.Length
      modifies this, store
      ensures start <= tail <= store.Length
      ensures var all := Flatten(old(store[start..])); var n := Min(slice.len, |all|);
        && content == PWrite(old(content), slice.offset, all[..n])
        && Flatten(store[tail..]) == all[n..]
      ensures store[tail..] == V.TailOnceUsed(old(store[start..]), slice.len)
    {
      hide PWrite, Flatten, V.Kept, V.BoundedView, V.TailOnceUsed;
      ghost var bufs := store[start..];
      V.BoundedMeaning(store[start..], slice.len);
      var vecs := V.IoVecs.Bounded(store, start, slice.len);
      var total := WriteVectoredAt(slice.offset, vecs);
      V.TailMeaning(vecs.View());
      NothingLeft(vecs.View());
      V.UsedUpTail(bufs, slice.len, vecs.View());
      tail := vecs.IntoTail();
    }

    /** `TorrentFile::write`: every transfer is made at the slice's own offset, and the loop is left
        before the last advance once the slice is full. Buffers that hold less than the slice run out. */
    method Write(slice: FileSlice, store: array<seq<byte>>, start: nat) returns (tail: nat, counts: seq<nat>)
      requires slice.len > 0 && start <= store.Length
      modifies this, store
      ensures start <= tail <= store.Length
      ensures var all := Flatten(old(store[start..])); var n := Min(slice.len, |all|);
        && V.Sum(counts) == n
        && content == SameOffset(old(content), slice.offset, all[..n], counts)
      ensures slice.len <= |Flatten(old(store[start..]))| ==>
        && Served(old(store[start..]), slice.len, counts)
        && store[tail..] == TailAsCoded(old(store[start..]), slice.len, counts)
      ensures |Flatten(old(store[start..]))| < slice.len ==> store[tail..] == []
    {
      hide PWrite, SameOffset, Sent, Served, TailAsCoded, V.Run, V.LegalRun, V.Sum, Flatten;
      hide V.BoundedView, V.AdvanceView, V.TailView, V.Vecs.Valid, V.Vecs.AsSlice, V.Vecs.Rest;
      ghost var bufs := store[start..];
      ghost var enough, data := slice.len <= |Flatten(bufs)|, Flatten(bufs)[..Min(slice.len, |Flatten(bufs)|)];
      ghost var v0 := V.BoundedView(bufs, slice.len);
      WriteNothing(content, slice.offset, data);
      V.BoundedMeaning(bufs, slice.len);
      var vecs := V.IoVecs.Bounded(store, start, slice.len);
      counts := [];
      var total := 0;
      if !enough { RunningOut(bufs, slice.len); }
      SentStart(v0, data, enough);
      while vecs.View().AsSlice() != []
        invariant vecs.Valid() && vecs.start >= start && vecs.store == store
        invariant total < slice.len
        invariant Sent(v0, vecs.View(), data, counts, total, enough)
        invariant content == SameOffset(old(content), slice.offset, data, counts)
        decreases |data| - total, |vecs.View().AsSlice()|
      {
        ghost var v, before := vecs.View(), counts;
        SentBytes(v0, v, data, counts, total, enough);
        var n := Pwritev(vecs.View().AsSlice(), slice.offset);
        assert vecs.View() == v;
        SentCounts(v0, v, data, before, total, n, enough);
        SentContent(v0, v, data, before, total, n, old(content), slice.offset, enough);
        counts := counts + [n];
        total := total + n;
        if total == slice.len {
          ServedAll(bufs, slice.len, v, data, before, total - n, n);
          tail := vecs.IntoTail();
          return;
        }
        SentNext(v0, v, data, before, total - n, n, enough);
        V.AdvanceProgress(v, n);
        var panics := vecs.Advance(n);
      }
      NothingLeft(vecs.View());
      SentBytes(v0, vecs.View(), data, counts, total, enough);
      UnsplitTail(vecs.View());
      tail := vecs.IntoTail();
    }
  }

  /** The bytes of the file that a read of `n` bytes at the offset delivers. */
  function Chunk(c: seq<byte>, offset: nat, n: nat): seq<byte> {
    if offset + n <= |c| then c[offset..offset + n] else []
  }

  predicate Readable(c: seq<byte>, offset: nat, counts: seq<nat>) {
    forall i :: 0 <= i < |counts| ==> 0 < counts[i] && offset + counts[i] <= |c|
  }

  /** What reads of the given counts, each made at the same offset, deliver. */
  function SameOffsetRead(c: seq<byte>, offset: nat, counts: seq<nat>): seq<byte>
    decreases |counts|
  {
    if counts == [] then []
    else SameOffsetRead(c, offset, counts[..|counts| - 1]) + Chunk(c, offset, counts[|counts| - 1])
  }

  lemma {:induction false} SameOffsetReadStart(c: seq<byte>, offset: nat, counts: seq<nat>)
    requires counts != [] && Readable(c, offset, counts)
    ensures var r := SameOffsetRead(c, offset, counts);
      && |r| >= counts[0] && r[..counts[0]] == Chunk(c, offset, counts[0])
      && (if |counts| == 1 then |r| == counts[0] else |r| > counts[0] && r[counts[0]] == c[offset])
    decreases |counts|
  {
    var n := |counts| - 1;
    var init := counts[..n];
    if n == 0 {
      assert SameOffsetRead(c, offset, init) == [];
    } else {
      SameOffsetReadStart(c, offset, init);
      var before := SameOffsetRead(c, offset, init);
      assert SameOffsetRead(c, offset, counts) == before + Chunk(c, offset, counts[n]);
      assert (before + Chunk(c, offset, counts[n]))[..counts[0]] == before[..counts[0]];
    }
  }

  lemma ReadOne(c: seq<byte>, offset: nat, counts: seq<nat>, n: nat)
    requires Readable(c, offset, counts) && n > 0 && offset + n <= |c|
    ensures Readable(c, offset, counts + [n]) && V.Sum(counts + [n]) == V.Sum(counts) + n
    ensures SameOffsetRead(c, offset, counts + [n]) == SameOffsetRead(c, offset, counts) + c[offset..offset + n]
  {
    hide V.Sum;
    SumSnoc(counts, n);
    assert (counts + [n])[..|counts|] == counts;
    assert Chunk(c, offset, n) == c[offset..offset + n];
  }

  /** Rereading the slice's start is right, whatever the file holds, exactly when one read does it all. */
  lemma SameOffsetReadRightIff(offset: nat, counts: seq<nat>, n: nat)
    requires n > 0 && Positive(counts) && V.Sum(counts) == n
    ensures (forall c :: |c| >= offset + n ==> SameOffsetRead(c, offset, counts) == Chunk(c, offset, n))
      <==> |counts| == 1
  {
    hide SameOffsetRead, Chunk;
    if |counts| == 1 {
      forall c: seq<byte> | |c| >= offset + n ensures SameOffsetRead(c, offset, counts) == Chunk(c, offset, n) {
        OneReadRight(c, offset, counts, n);
      }
    } else {
      ManyReadsWrong(offset, counts, n);
    }
  }

  lemma OneReadRight(c: seq<byte>, offset: nat, counts: seq<nat>, n: nat)
    requires |counts| == 1 && V.Sum(counts) == n
    ensures SameOffsetRead(c, offset, counts) == Chunk(c, offset, n)
  {
    assert counts[..0] == [] && counts[1..] == [];
    assert SameOffsetRead(c, offset, counts[..0]) == [];
  }

  lemma ManyReadsWrong(offset: nat, counts: seq<nat>, n: nat)
    requires n > 0 && Positive(counts) && V.Sum(counts) == n && |counts| != 1
    ensures exists c :: |c| >= offset + n && SameOffsetRead(c, offset, counts) != Chunk(c, offset, n)
  {
    hide SameOffsetRead;
    forall i | 0 <= i < |counts| ensures counts[i] <= n { SumAtLeast(counts, i); }
    SumAtLeast(counts, 0);
    var c: seq<byte> := seq(offset + n, i => if i == offset then 1 else 0);
    SameOffsetReadStart(c, offset, counts);
    assert Chunk(c, offset, n)[counts[0]] == 0;
    assert SameOffsetRead(c, offset, counts) != Chunk(c, offset, n);
  }

  /** Where the loop of `write` stands: the transfers so far, each followed by an advance; with enough
      bytes for the slice some are still to go, without there is no split to stop at. */
  ghost predicate Sent(v0: V.Vecs, v: V.Vecs, data: seq<byte>, counts: seq<nat>, total: nat, enough: bool) {
    && V.Sum(counts) == total <= |data|
    && v.Valid() && v.Front() == data[total..]
    && (enough ==> Positive(counts) && total < |data| && V.LegalRun(v0, counts) && v == V.Run(v0, counts))
    && (!enough ==> v.split == None)
  }

  /** Buffers that hold less than the bound are not split. */
  lemma RunningOut(bufs: seq<seq<byte>>, n: nat)
    requires n > |Flatten(bufs)|
    ensures V.BoundedView(bufs, n).split == None
  {
    if V.BoundedView(bufs, n).split.Some? { V.BoundedSplit(bufs, n); }
  }

  lemma UnsplitTail(v: V.Vecs)
    requires v.Valid() && v.split == None
    ensures V.TailView(v) == []
  {
  }

  lemma SentStart(v0: V.Vecs, data: seq<byte>, enough: bool)
    requires v0.Valid() && v0.Front() == data
    requires if enough then data != [] else v0.split == None
    ensures Sent(v0, v0, data, [], 0, enough)
  {
  }

  lemma SentBytes(v0: V.Vecs, v: V.Vecs, data: seq<byte>, counts: seq<nat>, total: nat, enough: bool)
    requires Sent(v0, v, data, counts, total, enough)
    ensures v.Valid() && V.Sum(counts) == total && |v.Front()| == |data| - total
    ensures enough ==> v.Front() != []
    ensures !enough ==> v.split == None
  {
  }

  lemma ServedAll(bufs: seq<seq<byte>>, n: nat, v: V.Vecs, data: seq<byte>, counts: seq<nat>, total: nat, last: nat)
    requires Sent(V.BoundedView(bufs, n), v, data, counts, total, true)
    requires 0 < last <= |v.Front()| && total + last == n
    ensures Served(bufs, n, counts + [last]) && TailAsCoded(bufs, n, counts + [last]) == V.TailView(v)
  {
    hide V.BoundedView, V.TailView;
    SentCounts(V.BoundedView(bufs, n), v, data, counts, total, last, true);
  }

  lemma SentCounts(v0: V.Vecs, v: V.Vecs, data: seq<byte>, counts: seq<nat>, total: nat, n: nat, enough: bool)
    requires Sent(v0, v, data, counts, total, enough) && n <= |v.Front()| && (enough ==> n > 0)
    ensures V.Sum(counts + [n]) == total + n <= |data|
    ensures enough ==> Positive(counts + [n])
    ensures (counts + [n])[..|counts + [n]| - 1] == counts
    ensures v.Legal(n)
  {
    SumSnoc(counts, n);
  }

  lemma SentContent(v0: V.Vecs, v: V.Vecs, data: seq<byte>, counts: seq<nat>, total: nat, n: nat, c: seq<byte>, offset: nat, enough: bool)
    requires Sent(v0, v, data, counts, total, enough) && n <= |v.Front()|
    ensures SameOffset(c, offset, data, counts + [n])
      == PWrite(SameOffset(c, offset, data, counts), offset, v.Front()[..n])
  {
    hide PWrite, SameOffset;
    SameOffsetSnoc(c, offset, data, counts, n);
    SumSnoc(counts, n);
    assert data[total..][..n] == data[total..total + n];
  }

  lemma SentNext(v0: V.Vecs, v: V.Vecs, data: seq<byte>, counts: seq<nat>, total: nat, n: nat, enough: bool)
    requires Sent(v0, v, data, counts, total, enough) && n <= |v.Front()| && v.Legal(n)
    requires enough ==> 0 < n && total + n < |data|
    ensures Sent(v0, V.AdvanceView(v, n), data, counts + [n], total + n, enough)
  {
    hide V.AdvanceView;
    SumSnoc(counts, n);
    V.AdvanceMeaning(v, n);
    if enough { RunSnoc(v0, counts, n); }
    assert data[total..][n..] == data[total + n..];
  }
}
