/** How a session fills its request pipeline from the shared downloads and the piece picker
    (`make_requests` in cratetorrent/src/peer.rs). */
module Requests {
  import opened Blocks
  import opened Storage
  import opened Downloads
  import opened PiecePicking

  type DownloadMap = map<nat, Download>

  /** Every download is filed under its piece and has one status per block of that piece. */
  ghost predicate Filed(s: StorageInfo, ds: DownloadMap) {
    forall p :: p in ds ==> FiledAt(s, ds[p], p)
  }

  predicate FiledAt(s: StorageInfo, d: Download, p: nat) {
    p < s.pieceCount && d.index == p && d.len == s.PieceLen(p) && d.Valid()
  }

  predicate Sound(ds: DownloadMap) {
    forall p :: p in ds ==> ds[p].Valid() && ds[p].index == p
  }

  predicate Covers(ds: DownloadMap, order: seq<nat>) {
    forall k :: 0 <= k < |order| ==> order[k] in ds
  }

  /** The first half of `make_requests`: go through the active downloads in the order the map yields
      them and pick from each as many blocks as there is still room for. */
  function Continue(ds: DownloadMap, order: seq<nat>, room: nat, endgame: bool, prev: set<BlockInfo>): (r: (DownloadMap, seq<BlockInfo>))
    requires Sound(ds) && Covers(ds, order)
    ensures Sound(r.0) && r.0.Keys == ds.Keys
    decreases |order|
  {
    if order == [] || room == 0 then (ds, [])
    else
      var pick := PickBlocks(ds[order[0]], room, endgame, prev);
      var rest := Continue(ds[order[0] := pick.0], order[1..], room - |pick.1|, endgame, prev);
      (rest.0, pick.1 + rest.1)
  }

  /** `b` is a block of a listed piece that may be picked. */
  predicate PickedFrom(ds: DownloadMap, order: seq<nat>, endgame: bool, prev: set<BlockInfo>, b: BlockInfo)
    requires Sound(ds)
  {
    b.pieceIndex in order && b.pieceIndex in ds && MayPick(ds[b.pieceIndex], endgame, prev, b)
  }

  lemma Apart(a: seq<BlockInfo>, b: seq<BlockInfo>, p: nat)
    requires Unrepeated(a) && Unrepeated(b)
    requires forall x :: x in a ==> x.pieceIndex == p
    requires forall x :: x in b ==> x.pieceIndex != p
    ensures Unrepeated(a + b)
  {
    forall i, j | 0 <= i < j < |a + b| ensures (a + b)[i] != (a + b)[j] {
      if i < |a| <= j { assert (a + b)[i] in a && (a + b)[j] in b; }
    }
  }

  lemma HeadApart<T>(order: seq<T>)
    requires order != [] && Unrepeated(order)
    ensures Unrepeated(order[1..]) && order[0] !in order[1..]
    ensures forall x :: x in order <==> x == order[0] || x in order[1..]
  {
    assert order == [order[0]] + order[1..];
  }

  /** The blocks picked come from the listed downloads, each could be picked, none is there twice, and
      they are no more than there is room for. */
  lemma {:induction false} ContinueFits(ds: DownloadMap, order: seq<nat>, room: nat, endgame: bool, prev: set<BlockInfo>)
    requires Sound(ds) && Covers(ds, order) && Unrepeated(order)
    ensures var batch := Continue(ds, order, room, endgame, prev).1;
      && |batch| <= room && Unrepeated(batch)
      && forall b :: b in batch ==> PickedFrom(ds, order, endgame, prev, b)
    decreases |order|
  {
    hide PickBlocks, Download.Valid, Unrepeated;
    if order == [] || room == 0 {
      NoneRepeated<BlockInfo>();
    } else {
      var d := ds[order[0]];
      var pick := PickBlocks(d, room, endgame, prev);
      var next := ds[order[0] := pick.0];
      HeadApart(order);
      ContinueFits(next, order[1..], room - |pick.1|, endgame, prev);
      PickFits(d, room, endgame, prev);
      var rest := Continue(next, order[1..], room - |pick.1|, endgame, prev).1;
      forall b | b in rest ensures PickedFrom(ds, order, endgame, prev, b) && b.pieceIndex != order[0] {
        assert PickedFrom(next, order[1..], endgame, prev, b);
      }
      Apart(pick.1, rest, order[0]);
    }
  }

  lemma NoneRepeated<T>()
    ensures Unrepeated<T>([])
  {
  }

  lemma SameDownload(d: Download, batch: seq<BlockInfo>)
    requires d.Valid()
    ensures OnlyRequested(d, d, batch)
  {
  }

  lemma MoreBatch(d: Download, e: Download, a: seq<BlockInfo>, b: seq<BlockInfo>)
    requires d.Valid() && e.Valid() && OnlyRequested(d, e, a) && forall x :: x in a ==> x in b
    ensures OnlyRequested(d, e, b)
  {
    forall i | 0 <= i < |d.blocks| ensures StatusStep(d, e, i, b) {
      assert StatusStep(d, e, i, a);
    }
  }

  /** Outside the listed pieces nothing changes; inside, free blocks that were picked become requested. */
  lemma {:induction false} ContinueRequests(ds: DownloadMap, order: seq<nat>, room: nat, endgame: bool, prev: set<BlockInfo>, p: nat)
    requires Sound(ds) && Covers(ds, order) && Unrepeated(order) && p in ds
    ensures var r := Continue(ds, order, room, endgame, prev);
      OnlyRequested(ds[p], r.0[p], r.1) && (p !in order ==> r.0[p] == ds[p])
    decreases |order|
  {
    hide PickBlocks, Download.Valid, Unrepeated, OnlyRequested;
    if order == [] || room == 0 {
      SameDownload(ds[p], []);
    } else {
      var d := ds[order[0]];
      var pick := PickBlocks(d, room, endgame, prev);
      var next := ds[order[0] := pick.0];
      HeadApart(order);
      ContinueRequests(next, order[1..], room - |pick.1|, endgame, prev, p);
      var rest := Continue(next, order[1..], room - |pick.1|, endgame, prev);
      if p == order[0] {
        PickOnlyRequests(d, room, endgame, prev);
        MoreBatch(d, pick.0, pick.1, pick.1 + rest.1);
      } else {
        MoreBatch(ds[p], rest.0[p], rest.1, pick.1 + rest.1);
      }
    }
  }

  /** A pass that comes back with room to spare leaves nothing to ask for in any listed download. */
  lemma {:induction false} ContinueExhausts(ds: DownloadMap, order: seq<nat>, room: nat, endgame: bool, prev: set<BlockInfo>, p: nat)
    requires Sound(ds) && Covers(ds, order) && Unrepeated(order) && p in order
    requires |Continue(ds, order, room, endgame, prev).1| < room
    ensures var r := Continue(ds, order, room, endgame, prev);
      p in r.0 && Exhausted(r.0[p], endgame, prev + Elements(r.1))
    decreases |order|
  {
    hide PickBlocks, Download.Valid, Unrepeated, OnlyRequested, Exhausted, Elements;
    var d := ds[order[0]];
    var pick := PickBlocks(d, room, endgame, prev);
    var next := ds[order[0] := pick.0];
    HeadApart(order);
    var rest := Continue(next, order[1..], room - |pick.1|, endgame, prev);
    if p == order[0] {
      ShortPick(d, room, endgame, prev);
      ContinueRequests(next, order[1..], room - |pick.1|, endgame, prev, p);
      StillExhausted(pick.0, endgame, prev, pick.1, pick.1 + rest.1);
    } else {
      ContinueExhausts(next, order[1..], room - |pick.1|, endgame, prev, p);
      StillExhausted(rest.0[p], endgame, prev, rest.1, pick.1 + rest.1);
    }
  }

  lemma StillExhausted(d: Download, endgame: bool, prev: set<BlockInfo>, a: seq<BlockInfo>, b: seq<BlockInfo>)
    requires d.Valid() && Exhausted(d, endgame, prev + Elements(a)) && forall x :: x in a ==> x in b
    ensures Exhausted(d, endgame, prev + Elements(b))
  {
    forall i | 0 <= i < |d.blocks| ensures !d.Eligible(i, endgame, prev + Elements(b)) {
      assert !d.Eligible(i, endgame, prev + Elements(a));
    }
  }

  /** What the second half of `make_requests` works on: the picker, the shared downloads and the
      requests collected so far. */
  datatype Pipeline = Pipeline(picker: Picker, downloads: DownloadMap, batch: seq<BlockInfo>)

  predicate InGrid(s: StorageInfo, b: BlockInfo) {
    b.pieceIndex < s.pieceCount && OnGrid(b, s.PieceLen(b.pieceIndex))
  }

  /** The pieces under download were picked, and the requests are for distinct blocks of theirs. */
  ghost predicate Flowing(s: StorageInfo, q: Pipeline) {
    && q.picker.Valid() && |q.picker.own| == s.pieceCount
    && Filed(s, q.downloads) && q.downloads.Keys <= PendingSet(q.picker)
    && Unrepeated(q.batch) && forall b :: b in q.batch ==> InGrid(s, b) && b.pieceIndex in q.downloads
  }

  /** Starts the download of piece i and picks from it. */
  function Open(s: StorageInfo, q: Pipeline, i: nat, room: nat, endgame: bool, prev: set<BlockInfo>): Pipeline
    requires q.picker.SameShape() && i < |q.picker.own| == s.pieceCount
  {
    var pick := PickBlocks(NewDownload(i, s.PieceLen(i)), room, endgame, prev);
    Pipeline(Pick(q.picker, i), q.downloads[i := pick.0], q.batch + pick.1)
  }

  lemma OpenFlows(s: StorageInfo, q: Pipeline, i: nat, room: nat, endgame: bool, prev: set<BlockInfo>)
    requires Flowing(s, q) && i < |q.picker.own| && q.picker.IsFree(i)
    ensures Flowing(s, Open(s, q, i, room, endgame, prev)) && i !in q.downloads
    ensures 0 <= Open(s, q, i, room, endgame, prev).picker.free < q.picker.free
  {
    hide PickBlocks, MissingSet, FreeSet, PendingSet, Unrepeated, Picker.IsFree;
    var d := NewDownload(i, s.PieceLen(i));
    PickKeeps(q.picker, i);
    PendingCount(Pick(q.picker, i));
    PickFits(d, room, endgame, prev);
    var asked := PickBlocks(d, room, endgame, prev).1;
    assert i !in q.downloads;
    forall b | b in asked ensures InGrid(s, b) && b.pieceIndex == i {
      assert MayPick(d, endgame, prev, b);
      IndexInverts(i, d.len, b.IndexInPiece());
    }
    Apart2(q.batch, asked, i);
  }

  lemma Apart2(a: seq<BlockInfo>, b: seq<BlockInfo>, p: nat)
    requires Unrepeated(a) && Unrepeated(b)
    requires forall x :: x in a ==> x.pieceIndex != p
    requires forall x :: x in b ==> x.pieceIndex == p
    ensures Unrepeated(a + b)
  {
    forall i, j | 0 <= i < j < |a + b| ensures (a + b)[i] != (a + b)[j] {
      if i < |a| <= j { assert (a + b)[i] in a && (a + b)[j] in b; }
    }
  }

  /** The second half of `make_requests`: open new pieces until the room is used or none can be picked. */
  function OpenAll(s: StorageInfo, q: Pipeline, room: nat, endgame: bool, prev: set<BlockInfo>): (r: Pipeline)
    requires Flowing(s, q)
    ensures Flowing(s, r)
    decreases q.picker.free
  {
    var index := FirstPickable(q.picker, 0);
    if room == 0 || index.None? then q
    else
      OpenFlows(s, q, index.value, room, endgame, prev);
      var next := Open(s, q, index.value, room, endgame, prev);
      OpenAll(s, next, room - (|next.batch| - |q.batch|), endgame, prev)
  }

  ghost predicate AllExhausted(ds: DownloadMap, endgame: bool, prev: set<BlockInfo>)
    requires Sound(ds)
  {
    forall p :: p in ds ==> Exhausted(ds[p], endgame, prev)
  }

  /** A download opened here: all its requested blocks are in the batch, and none is received. */
  predicate FreshlyOpened(d: Download, batch: seq<BlockInfo>)
    requires d.Valid()
  {
    forall i :: 0 <= i < |d.blocks| ==> d.blocks[i].Free? || (d.blocks[i].Requested? && d.Block(i) in batch)
  }

  lemma NewIsFresh(i: nat, len: nat, room: nat, endgame: bool, prev: set<BlockInfo>, batch: seq<BlockInfo>)
    requires forall b :: b in PickBlocks(NewDownload(i, len), room, endgame, prev).1 ==> b in batch
    ensures FreshlyOpened(PickBlocks(NewDownload(i, len), room, endgame, prev).0, batch)
  {
    var d := NewDownload(i, len);
    var r := PickBlocks(d, room, endgame, prev);
    PickOnlyRequests(d, room, endgame, prev);
    forall k | 0 <= k < |r.0.blocks|
      ensures r.0.blocks[k].Free? || (r.0.blocks[k].Requested? && r.0.Block(k) in batch)
    {
      assert StatusStep(d, r.0, k, r.1);
    }
  }

  lemma PrefixHolds<T>(a: seq<T>, b: seq<T>, c: seq<T>)
    requires a + b <= c
    ensures forall x :: x in b ==> x in c
  {
    forall x | x in b ensures x in c {
      var j :| 0 <= j < |b| && b[j] == x;
      assert (a + b)[|a| + j] == x;
    }
  }

  lemma {:induction false} OpenAllStays(s: StorageInfo, q: Pipeline, room: nat, endgame: bool, prev: set<BlockInfo>)
    requires Flowing(s, q)
    ensures var r := OpenAll(s, q, room, endgame, prev);
      && q.batch <= r.batch && |r.batch| <= |q.batch| + room
      && q.downloads.Keys <= r.downloads.Keys && (forall p :: p in q.downloads ==> r.downloads[p] == q.downloads[p])
      && (forall i :: i in r.downloads && i !in q.downloads ==> FreshlyOpened(r.downloads[i], r.batch))
      && r.picker.own == q.picker.own
    decreases q.picker.free
  {
    hide PickBlocks, MissingSet, FreeSet, PendingSet, Unrepeated, Filed, FreshlyOpened, InGrid;
    var index := FirstPickable(q.picker, 0);
    if room > 0 && index.Some? {
      OpenFlows(s, q, index.value, room, endgame, prev);
      var next := Open(s, q, index.value, room, endgame, prev);
      OpenAllStays(s, next, room - (|next.batch| - |q.batch|), endgame, prev);
      var r := OpenAll(s, q, room, endgame, prev);
      PrefixHolds(q.batch, PickBlocks(NewDownload(index.value, s.PieceLen(index.value)), room, endgame, prev).1, r.batch);
      NewIsFresh(index.value, s.PieceLen(index.value), room, endgame, prev, r.batch);
    }
  }

  lemma OpenKeys(s: StorageInfo, q: Pipeline, i: nat, room: nat, endgame: bool, prev: set<BlockInfo>)
    requires q.picker.SameShape() && i < |q.picker.own| == s.pieceCount
    ensures var r := Open(s, q, i, room, endgame, prev);
      r.downloads.Keys == q.downloads.Keys + {i} && r.picker == Pick(q.picker, i) && |q.batch| <= |r.batch| <= |q.batch| + room
  {
    hide PickBlocks;
  }

  lemma KeysStep(a: set<nat>, i: nat, c: set<nat>)
    requires i !in a && a + {i} <= c
    ensures c - a == (c - (a + {i})) + {i}
  {
    assert i in a + {i};
  }

  /** The downloads opened are for exactly the pieces that have become pending. */
  lemma {:induction false} OpenAllPending(s: StorageInfo, q: Pipeline, room: nat, endgame: bool, prev: set<BlockInfo>)
    requires Flowing(s, q)
    ensures var r := OpenAll(s, q, room, endgame, prev);
      PendingSet(r.picker) == PendingSet(q.picker) + (r.downloads.Keys - q.downloads.Keys)
    decreases q.picker.free
  {
    hide PickBlocks, MissingSet, FreeSet, PendingSet, Unrepeated, Filed, InGrid, Open;
    var index := FirstPickable(q.picker, 0);
    if room > 0 && index.Some? {
      OpenFlows(s, q, index.value, room, endgame, prev);
      PickKeeps(q.picker, index.value);
      var next := Open(s, q, index.value, room, endgame, prev);
      OpenKeys(s, q, index.value, room, endgame, prev);
      OpenAllPending(s, next, room - (|next.batch| - |q.batch|), endgame, prev);
      OpenAllStays(s, next, room - (|next.batch| - |q.batch|), endgame, prev);
      var r := OpenAll(s, q, room, endgame, prev);
      KeysStep(q.downloads.Keys, index.value, r.downloads.Keys);
    }
  }

  /** When the second half stops short of its room, no piece can be picked any more; and if the shared
      downloads had nothing left to ask for at its start, they have nothing left now. */
  lemma {:induction false} OpenAllExhausts(s: StorageInfo, q: Pipeline, room: nat, endgame: bool, prev: set<BlockInfo>)
    requires Flowing(s, q)
    requires |OpenAll(s, q, room, endgame, prev).batch| < |q.batch| + room
    requires AllExhausted(q.downloads, endgame, prev + Elements(q.batch))
    ensures var r := OpenAll(s, q, room, endgame, prev);
      FirstPickable(r.picker, 0).None? && AllExhausted(r.downloads, endgame, prev + Elements(r.batch))
    decreases q.picker.free
  {
    hide PickBlocks, MissingSet, FreeSet, PendingSet, Unrepeated, Filed, InGrid, AllExhausted, Elements;
    var index := FirstPickable(q.picker, 0);
    if index.Some? {
      OpenFlows(s, q, index.value, room, endgame, prev);
      var next := Open(s, q, index.value, room, endgame, prev);
      OpenAllStays(s, next, room - (|next.batch| - |q.batch|), endgame, prev);
      OpenExhausts(s, q, index.value, room, endgame, prev);
      OpenAllExhausts(s, next, room - (|next.batch| - |q.batch|), endgame, prev);
    }
  }

  lemma OpenExhausts(s: StorageInfo, q: Pipeline, i: nat, room: nat, endgame: bool, prev: set<BlockInfo>)
    requires Flowing(s, q) && i < |q.picker.own| && Flowing(s, Open(s, q, i, room, endgame, prev))
    requires AllExhausted(q.downloads, endgame, prev + Elements(q.batch))
    requires |Open(s, q, i, room, endgame, prev).batch| < |q.batch| + room
    ensures var r := Open(s, q, i, room, endgame, prev);
      AllExhausted(r.downloads, endgame, prev + Elements(r.batch))
  {
    hide PickBlocks, Picker.Valid, PendingSet, Unrepeated, InGrid, Exhausted, Elements;
    var d := NewDownload(i, s.PieceLen(i));
    var pick := PickBlocks(d, room, endgame, prev);
    ShortPick(d, room, endgame, prev);
    StillExhausted(pick.0, endgame, prev, pick.1, q.batch + pick.1);
    forall p | p in q.downloads ensures Exhausted(q.downloads[p], endgame, prev + Elements(q.batch + pick.1)) {
      StillExhausted(q.downloads[p], endgame, prev, q.batch, q.batch + pick.1);
    }
  }

  /** `make_requests` of a session that has room for `room` more requests; `order` is the order in which
      the map of downloads yields its keys. */
  function FillPipeline(s: StorageInfo, p: Picker, ds: DownloadMap, order: seq<nat>, room: nat, endgame: bool, prev: set<BlockInfo>): (r: Pipeline)
    requires Flowing(s, Pipeline(p, ds, [])) && OrderOf(ds, order)
    ensures Flowing(s, r)
  {
    var c := Continue(ds, order, room, endgame, prev);
    ContinueFlows(s, p, ds, order, room, endgame, prev);
    OpenAll(s, Pipeline(p, c.0, c.1), room - |c.1|, endgame, prev)
  }

  /** Every key once, in any order. */
  predicate OrderOf(ds: DownloadMap, order: seq<nat>) {
    Covers(ds, order) && Unrepeated(order) && forall p :: p in ds ==> p in order
  }

  lemma FiledIsSound(s: StorageInfo, ds: DownloadMap)
    requires Filed(s, ds)
    ensures Sound(ds)
  {
    forall p | p in ds ensures ds[p].Valid() && ds[p].index == p { assert FiledAt(s, ds[p], p); }
  }

  lemma ContinueFlows(s: StorageInfo, p: Picker, ds: DownloadMap, order: seq<nat>, room: nat, endgame: bool, prev: set<BlockInfo>)
    requires Flowing(s, Pipeline(p, ds, [])) && OrderOf(ds, order)
    ensures Sound(ds) && var c := Continue(ds, order, room, endgame, prev);
      |c.1| <= room && Flowing(s, Pipeline(p, c.0, c.1))
  {
    hide Continue, Picker.Valid, PendingSet, Unrepeated, OnlyRequested, MayPick, FiledAt;
    FiledIsSound(s, ds);
    var c := Continue(ds, order, room, endgame, prev);
    ContinueFits(ds, order, room, endgame, prev);
    forall q | q in c.0 ensures FiledAt(s, c.0[q], q) {
      ContinueFiles(s, ds, order, room, endgame, prev, q);
    }
    forall b | b in c.1 ensures InGrid(s, b) && b.pieceIndex in c.0 {
      assert PickedFrom(ds, order, endgame, prev, b);
      PickInGrid(s, ds[b.pieceIndex], b.pieceIndex, endgame, prev, b);
    }
  }

  lemma ContinueFiles(s: StorageInfo, ds: DownloadMap, order: seq<nat>, room: nat, endgame: bool, prev: set<BlockInfo>, q: nat)
    requires Filed(s, ds) && Sound(ds) && Covers(ds, order) && Unrepeated(order) && q in ds
    ensures FiledAt(s, Continue(ds, order, room, endgame, prev).0[q], q)
  {
    hide Continue;
    ContinueRequests(ds, order, room, endgame, prev, q);
    assert FiledAt(s, ds[q], q);
  }

  lemma PickInGrid(s: StorageInfo, d: Download, p: nat, endgame: bool, prev: set<BlockInfo>, b: BlockInfo)
    requires FiledAt(s, d, p) && MayPick(d, endgame, prev, b)
    ensures InGrid(s, b)
  {
    IndexInverts(p, d.len, b.IndexInPiece());
  }

  /** The request pipeline's contract. The batch holds distinct blocks of the torrent's grid, no more
      than there is room for; and if it leaves room, then no piece can be picked and no shared download
      has a block left that this peer may ask for. */
  lemma PipelineContract(s: StorageInfo, p: Picker, ds: DownloadMap, order: seq<nat>, room: nat, endgame: bool, prev: set<BlockInfo>)
    requires Flowing(s, Pipeline(p, ds, [])) && OrderOf(ds, order)
    ensures var r := FillPipeline(s, p, ds, order, room, endgame, prev);
      && |r.batch| <= room && Unrepeated(r.batch) && (forall b :: b in r.batch ==> InGrid(s, b))
      && (|r.batch| < room ==> FirstPickable(r.picker, 0).None? && AllExhausted(r.downloads, endgame, prev + Elements(r.batch)))
  {
    hide Continue, OpenAll, Picker.Valid, PendingSet, Unrepeated, Filed, InGrid, Elements, Exhausted;
    FiledIsSound(s, ds);
    var c := Continue(ds, order, room, endgame, prev);
    ContinueFlows(s, p, ds, order, room, endgame, prev);
    var q := Pipeline(p, c.0, c.1);
    OpenAllStays(s, q, room - |c.1|, endgame, prev);
    var r := OpenAll(s, q, room - |c.1|, endgame, prev);
    if |r.batch| < room {
      forall k | k in c.0 ensures Exhausted(c.0[k], endgame, prev + Elements(c.1)) {
        ContinueExhausts(ds, order, room, endgame, prev, k);
      }
      OpenAllExhausts(s, q, room - |c.1|, endgame, prev);
    }
  }

  /** What the shared state sees of it: statuses go from free to requested only, and only for blocks in
      the batch; the pieces newly under download are those newly pending. */
  lemma PipelineEffect(s: StorageInfo, p: Picker, ds: DownloadMap, order: seq<nat>, room: nat, endgame: bool, prev: set<BlockInfo>)
    requires Flowing(s, Pipeline(p, ds, [])) && OrderOf(ds, order)
    ensures var r := FillPipeline(s, p, ds, order, room, endgame, prev);
      && Sound(ds) && Sound(r.downloads) && ds.Keys <= r.downloads.Keys && r.picker.own == p.own
      && (forall k :: k in ds ==> OnlyRequested(ds[k], r.downloads[k], r.batch))
      && (forall k :: k in r.downloads && k !in ds ==> FreshlyOpened(r.downloads[k], r.batch))
      && PendingSet(r.picker) == PendingSet(p) + (r.downloads.Keys - ds.Keys)
  {
    hide Continue, OpenAll, Picker.Valid, PendingSet, Unrepeated, Filed, InGrid, OnlyRequested, FreshlyOpened;
    FiledIsSound(s, ds);
    var c := Continue(ds, order, room, endgame, prev);
    ContinueFlows(s, p, ds, order, room, endgame, prev);
    var q := Pipeline(p, c.0, c.1);
    OpenAllStays(s, q, room - |c.1|, endgame, prev);
    var r := OpenAll(s, q, room - |c.1|, endgame, prev);
    OpenAllPending(s, q, room - |c.1|, endgame, prev);
    FiledIsSound(s, r.downloads);
    forall k | k in ds ensures OnlyRequested(ds[k], r.downloads[k], r.batch) {
      ContinueRequests(ds, order, room, endgame, prev, k);
      MoreBatch(ds[k], c.0[k], c.1, r.batch);
    }
  }
}
