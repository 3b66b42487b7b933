/** What a session's requests come to: they reach its target, they are marked, and they are new ones but for
    blocks that have become free again (cratetorrent/src/peer.rs, cratetorrent/src/download.rs). */
module Repeats {
  import opened Blocks
  import opened Storage
  import opened Downloads
  import opened PiecePicking
  import opened Requests

  /** The block's download has it free. */
  predicate FreeIn(ds: DownloadMap, b: BlockInfo) {
    b.pieceIndex in ds && b.IndexInPiece() < |ds[b.pieceIndex].blocks| && ds[b.pieceIndex].blocks[b.IndexInPiece()].Free?
  }

  /** The requests outstanding are for the grid's blocks of pieces that have been picked. */
  ghost predicate Begun(s: StorageInfo, p: Picker, prev: set<BlockInfo>)
    requires p.SameShape() && |p.own| == s.pieceCount
  {
    forall b :: b in prev ==> InGrid(s, b) && !p.IsFree(b.pieceIndex)
  }

  predicate NoneFree(ds: DownloadMap, prev: set<BlockInfo>) { forall b :: b in prev ==> !FreeIn(ds, b) }

  /** A piece opened was free, so nobody can have asked for its blocks before. */
  lemma {:induction false} OpenAllAnew(s: StorageInfo, q: Pipeline, room: nat, endgame: bool, prev: set<BlockInfo>)
    requires Flowing(s, q) && Begun(s, q.picker, prev)
    requires forall b :: b in q.batch ==> b !in prev
    ensures forall b :: b in OpenAll(s, q, room, endgame, prev).batch ==> b !in prev
    decreases q.picker.free
  {
    hide PickBlocks, MissingSet, FreeSet, PendingSet, Unrepeated, Filed, InGrid, MayPick;
    var index := FirstPickable(q.picker, 0);
    if room > 0 && index.Some? {
      var i := index.value;
      OpenFlows(s, q, i, room, endgame, prev);
      PickFits(NewDownload(i, s.PieceLen(i)), room, endgame, prev);
      var asked := PickBlocks(NewDownload(i, s.PieceLen(i)), room, endgame, prev).1;
      forall b | b in asked ensures b.pieceIndex == i && b !in prev {
        assert MayPick(NewDownload(i, s.PieceLen(i)), endgame, prev, b);
        PickedPiece(NewDownload(i, s.PieceLen(i)), endgame, prev, b);
      }
      PickedBegun(s, q.picker, i, prev);
      var next := Open(s, q, i, room, endgame, prev);
      OpenAllAnew(s, next, room - (|next.batch| - |q.batch|), endgame, prev);
    }
  }

  lemma PickedPiece(d: Download, endgame: bool, prev: set<BlockInfo>, b: BlockInfo)
    requires d.Valid() && MayPick(d, endgame, prev, b)
    ensures b.pieceIndex == d.index && (b in prev ==> d.blocks[b.IndexInPiece()].Free?)
  {
  }

  lemma PickedBegun(s: StorageInfo, p: Picker, i: nat, prev: set<BlockInfo>)
    requires p.SameShape() && |p.own| == s.pieceCount && i < |p.own| && Begun(s, p, prev)
    ensures Begun(s, Pick(p, i), prev)
  {
    hide OnGrid;
  }

  lemma {:induction false} OpenAllBegun(s: StorageInfo, q: Pipeline, room: nat, endgame: bool, prev: set<BlockInfo>)
    requires Flowing(s, q) && Begun(s, q.picker, prev)
    ensures Begun(s, OpenAll(s, q, room, endgame, prev).picker, prev)
    decreases q.picker.free
  {
    hide PickBlocks, MissingSet, FreeSet, PendingSet, Unrepeated, Filed, InGrid;
    var index := FirstPickable(q.picker, 0);
    if room > 0 && index.Some? {
      OpenFlows(s, q, index.value, room, endgame, prev);
      PickedBegun(s, q.picker, index.value, prev);
      var next := Open(s, q, index.value, room, endgame, prev);
      OpenAllBegun(s, next, room - (|next.batch| - |q.batch|), endgame, prev);
    }
  }

  /** Old requests and new ones are for pieces that have been picked. */
  lemma FillBegun(s: StorageInfo, p: Picker, ds: DownloadMap, order: seq<nat>, room: nat, endgame: bool, prev: set<BlockInfo>, n: nat)
    requires Flowing(s, Pipeline(p, ds, [])) && OrderOf(ds, order) && Begun(s, p, prev)
    requires n <= |FillPipeline(s, p, ds, order, room, endgame, prev).batch|
    ensures var r := FillPipeline(s, p, ds, order, room, endgame, prev); Begun(s, r.picker, prev + Elements(r.batch[..n]))
  {
    hide Continue, OpenAll, MissingSet, FreeSet, Filed, Unrepeated, InGrid;
    FiledIsSound(s, ds);
    ContinueFlows(s, p, ds, order, room, endgame, prev);
    var c := Continue(ds, order, room, endgame, prev);
    OpenAllBegun(s, Pipeline(p, c.0, c.1), room - |c.1|, endgame, prev);
    var r := FillPipeline(s, p, ds, order, room, endgame, prev);
    forall b | b in r.batch[..n] ensures InGrid(s, b) && !r.picker.IsFree(b.pieceIndex) {
      assert b in r.batch && b.pieceIndex in PendingSet(r.picker);
    }
  }

  /** While no block outstanding is free, every request made is a new one. */
  lemma AskedAnew(s: StorageInfo, p: Picker, ds: DownloadMap, order: seq<nat>, room: nat, endgame: bool, prev: set<BlockInfo>)
    requires Flowing(s, Pipeline(p, ds, [])) && OrderOf(ds, order) && Begun(s, p, prev) && NoneFree(ds, prev)
    ensures forall b :: b in FillPipeline(s, p, ds, order, room, endgame, prev).batch ==> b !in prev
  {
    hide Continue, OpenAll, Picker.Valid, PendingSet, Unrepeated, Filed, InGrid, MayPick;
    FiledIsSound(s, ds);
    ContinueFlows(s, p, ds, order, room, endgame, prev);
    ContinueFits(ds, order, room, endgame, prev);
    var c := Continue(ds, order, room, endgame, prev);
    forall b | b in c.1 ensures b !in prev {
      assert PickedFrom(ds, order, endgame, prev, b);
      PickedPiece(ds[b.pieceIndex], endgame, prev, b);
      PickedIn(ds[b.pieceIndex], endgame, prev, b);
    }
    OpenAllAnew(s, Pipeline(p, c.0, c.1), room - |c.1|, endgame, prev);
  }

  lemma PickedIn(d: Download, endgame: bool, prev: set<BlockInfo>, b: BlockInfo)
    requires d.Valid() && MayPick(d, endgame, prev, b)
    ensures b.IndexInPiece() < |d.blocks|
  {
  }

  /** All blocks under download. */
  ghost function BlocksOf(ds: DownloadMap): set<BlockInfo>
    requires Sound(ds)
  {
    set p, i | p in ds && 0 <= i < |ds[p].blocks| :: ds[p].Block(i)
  }

  /** Distinct elements are as many as the list is long. */
  lemma {:induction false} Count<T>(s: seq<T>)
    requires Unrepeated(s)
    ensures |Elements(s)| == |s|
    decreases |s|
  {
    if s == [] {
      assert Elements(s) == {};
    } else {
      Count(s[1..]);
      HeadApart(s);
      assert Elements(s) == {s[0]} + Elements(s[1..]);
    }
  }

  lemma {:induction false} Fewer<T>(a: set<T>, b: set<T>)
    requires a <= b
    ensures |a| <= |b|
    decreases |a|
  {
    if x :| x in a {
      Fewer(a - {x}, b - {x});
    }
  }

  /** A pass over the downloads with more room than they have blocks asks for every free one. */
  lemma FreeIsPicked(s: StorageInfo, ds: DownloadMap, order: seq<nat>, room: nat, endgame: bool, prev: set<BlockInfo>, b: BlockInfo)
    requires Filed(s, ds) && Sound(ds) && OrderOf(ds, order) && FreeIn(ds, b) && InGrid(s, b) && room > |BlocksOf(ds)|
    ensures b in Continue(ds, order, room, endgame, prev).1
  {
    hide Continue, Filed, Unrepeated, Exhausted, FreeIn, InGrid, OnlyRequested, Elements;
    ContinueFits(ds, order, room, endgame, prev);
    var c := Continue(ds, order, room, endgame, prev);
    AllOf(ds, order, endgame, prev, c.1);
    Count(c.1);
    Fewer(Elements(c.1), BlocksOf(ds));
    HasPiece(ds, b);
    ContinueExhausts(ds, order, room, endgame, prev, b.pieceIndex);
    ContinueRequests(ds, order, room, endgame, prev, b.pieceIndex);
    NotLeft(s, ds, c.0[b.pieceIndex], endgame, prev + Elements(c.1), c.1, b);
  }

  lemma HasPiece(ds: DownloadMap, b: BlockInfo)
    requires FreeIn(ds, b)
    ensures b.pieceIndex in ds
  {
  }

  lemma AllOf(ds: DownloadMap, order: seq<nat>, endgame: bool, prev: set<BlockInfo>, batch: seq<BlockInfo>)
    requires Sound(ds) && forall x :: x in batch ==> PickedFrom(ds, order, endgame, prev, x)
    ensures Elements(batch) <= BlocksOf(ds)
  {
    forall x | x in Elements(batch) ensures x in BlocksOf(ds) {
      assert PickedFrom(ds, order, endgame, prev, x);
    }
  }

  /** With enough room a free block is asked for. */
  lemma FreeIsAsked(s: StorageInfo, p: Picker, ds: DownloadMap, order: seq<nat>, endgame: bool, prev: set<BlockInfo>, b: BlockInfo) returns (room: nat)
    requires Flowing(s, Pipeline(p, ds, [])) && OrderOf(ds, order) && FreeIn(ds, b) && InGrid(s, b)
    ensures b in FillPipeline(s, p, ds, order, room, endgame, prev).batch
  {
    hide Continue, OpenAll, Picker.Valid, PendingSet, Filed, Unrepeated, BlocksOf, FreeIn, InGrid;
    FiledIsSound(s, ds);
    room := |BlocksOf(ds)| + 1;
    ContinueFlows(s, p, ds, order, room, endgame, prev);
    FreeIsPicked(s, ds, order, room, endgame, prev, b);
    var c := Continue(ds, order, room, endgame, prev);
    OpenAllStays(s, Pipeline(p, c.0, c.1), room - |c.1|, endgame, prev);
    var batch := OpenAll(s, Pipeline(p, c.0, c.1), room - |c.1|, endgame, prev).batch;
    var k :| 0 <= k < |c.1| && c.1[k] == b;
    assert batch[k] == b;
  }

  lemma NotLeft(s: StorageInfo, ds: DownloadMap, d: Download, endgame: bool, held: set<BlockInfo>, batch: seq<BlockInfo>, b: BlockInfo)
    requires FreeIn(ds, b) && InGrid(s, b) && Filed(s, ds) && Sound(ds) && d.Valid()
    requires OnlyRequested(ds[b.pieceIndex], d, batch) && Exhausted(d, endgame, held)
    ensures b in batch
  {
    var i := b.IndexInPiece();
    assert FiledAt(s, ds[b.pieceIndex], b.pieceIndex);
    assert StatusStep(ds[b.pieceIndex], d, i, batch);
    assert !d.Eligible(i, endgame, held);
  }

  /** No request repeats one that is outstanding. */
  ghost predicate Anew(s: StorageInfo, p: Picker, ds: DownloadMap, order: seq<nat>, room: nat, endgame: bool, prev: set<BlockInfo>)
    requires Flowing(s, Pipeline(p, ds, [])) && OrderOf(ds, order)
  {
    forall b :: b in FillPipeline(s, p, ds, order, room, endgame, prev).batch ==> b !in prev
  }

  /** Whatever the room, no request is repeated, exactly when no block outstanding is free. One is when
      another session, that had asked for it as well, has dropped its request. */
  lemma AskedAnewIff(s: StorageInfo, p: Picker, ds: DownloadMap, order: seq<nat>, endgame: bool, prev: set<BlockInfo>)
    requires Flowing(s, Pipeline(p, ds, [])) && OrderOf(ds, order) && Begun(s, p, prev)
    ensures (forall room: nat :: Anew(s, p, ds, order, room, endgame, prev)) <==> NoneFree(ds, prev)
  {
    hide Flowing, OrderOf, FillPipeline, FreeIn, InGrid, Picker.IsFree;
    if NoneFree(ds, prev) {
      forall room: nat ensures Anew(s, p, ds, order, room, endgame, prev) { AskedAnew(s, p, ds, order, room, endgame, prev); }
    } else {
      var b :| b in prev && FreeIn(ds, b);
      var room := FreeIsAsked(s, p, ds, order, endgame, prev, b);
      assert !Anew(s, p, ds, order, room, endgame, prev);
    }
  }

  /** The requests outstanding once distinct new ones are added. */
  lemma AddedUp(prev: set<BlockInfo>, batch: seq<BlockInfo>)
    requires Unrepeated(batch)
    ensures |prev + Elements(batch)| <= |prev| + |batch|
    ensures (forall b :: b in batch ==> b !in prev) ==> |prev + Elements(batch)| == |prev| + |batch|
  {
    hide Unrepeated;
    Count(batch);
    if forall b :: b in batch ==> b !in prev {
      assert prev !! Elements(batch);
    } else {
      Fewer(prev + Elements(batch), prev + (Elements(batch) - prev));
      Fewer(Elements(batch) - prev, Elements(batch));
    }
  }

  lemma FirstOnes<T>(s: seq<T>, n: nat)
    requires Unrepeated(s) && n <= |s|
    ensures Unrepeated(s[..n])
  {
  }

  /** The session has as many requests as it is to have, or there is nothing more to ask for. */
  ghost predicate Filled(p: Picker, ds: DownloadMap, target: nat, count: nat, endgame: bool, held: set<BlockInfo>) {
    count >= target || (p.SameShape() && FirstPickable(p, 0).None? && Sound(ds) && AllExhausted(ds, endgame, held))
  }

  /** The batch brings the requests to the target, where that is more than are outstanding, and not past it,
      unless there is nothing left to ask for. */
  lemma BatchFills(s: StorageInfo, p: Picker, ds: DownloadMap, order: seq<nat>, target: nat, endgame: bool, prev: set<BlockInfo>, n: nat)
    requires Flowing(s, Pipeline(p, ds, [])) && OrderOf(ds, order) && Begun(s, p, prev)
    requires var room := if |prev| >= target then 0 else target - |prev|; n <= |FillPipeline(s, p, ds, order, room, endgame, prev).batch|
    ensures var room := if |prev| >= target then 0 else target - |prev|;
      var r := FillPipeline(s, p, ds, order, room, endgame, prev);
      && |prev + Elements(r.batch[..n])| <= (if |prev| >= target then |prev| else target)
      && Filled(r.picker, r.downloads, target, |prev| + |r.batch|, endgame, prev + Elements(r.batch))
      && (NoneFree(ds, prev) ==> Filled(r.picker, r.downloads, target, |prev + Elements(r.batch)|, endgame, prev + Elements(r.batch)))
  {
    hide FillPipeline, MissingSet, FreeSet, Filed, PendingSet, Unrepeated, InGrid, Elements, AllExhausted, FirstPickable, NoneFree, Begun, OrderOf;
    var room := if |prev| >= target then 0 else target - |prev|;
    PipelineContract(s, p, ds, order, room, endgame, prev);
    var r := FillPipeline(s, p, ds, order, room, endgame, prev);
    FiledIsSound(s, r.downloads);
    FirstOnes(r.batch, n);
    AddedUp(prev, r.batch[..n]);
    if NoneFree(ds, prev) {
      AskedAnew(s, p, ds, order, room, endgame, prev);
      AddedUp(prev, r.batch);
    }
  }

  /** What the first loop leaves room for, no active download has. */
  lemma PassFills(ds: DownloadMap, order: seq<nat>, target: nat, endgame: bool, prev: set<BlockInfo>)
    requires Sound(ds) && OrderOf(ds, order)
    ensures var c := Continue(ds, order, if |prev| >= target then 0 else target - |prev|, endgame, prev);
      && |prev| + |c.1| <= (if |prev| >= target then |prev| else target)
      && (|prev| + |c.1| >= target || AllExhausted(c.0, endgame, prev + Elements(c.1)))
  {
    hide Continue, Unrepeated, Exhausted, Elements;
    var room := if |prev| >= target then 0 else target - |prev|;
    ContinueFits(ds, order, room, endgame, prev);
    var c := Continue(ds, order, room, endgame, prev);
    if |c.1| < room {
      forall p | p in c.0 ensures Exhausted(c.0[p], endgame, prev + Elements(c.1)) {
        ContinueExhausts(ds, order, room, endgame, prev, p);
      }
    }
  }

  /** What the second loop leaves room for, no piece is there. */
  lemma {:induction false} OpeningFills(s: StorageInfo, q: Pipeline, room: nat, endgame: bool, prev: set<BlockInfo>)
    requires Flowing(s, q)
    ensures var r := OpenAll(s, q, room, endgame, prev);
      |r.batch| <= |q.batch| + room && (|r.batch| == |q.batch| + room || (r.picker.SameShape() && FirstPickable(r.picker, 0).None?))
    decreases q.picker.free
  {
    hide PickBlocks, MissingSet, FreeSet, PendingSet, Unrepeated, Filed, InGrid;
    var index := FirstPickable(q.picker, 0);
    if room > 0 && index.Some? {
      OpenFlows(s, q, index.value, room, endgame, prev);
      var next := Open(s, q, index.value, room, endgame, prev);
      OpeningFills(s, next, room - (|next.batch| - |q.batch|), endgame, prev);
    }
  }

  const TWO_BLOCKS := StorageInfo(1, 2 * BLOCK_LEN, 2 * BLOCK_LEN, 2 * BLOCK_LEN, [FileInfo(2 * BLOCK_LEN, 0)])

  /** A piece of two blocks, both free, the first of which the session has outstanding: with a target of two
      it asks for the first one again, comes to no more than one request, and leaves the second block. */
  lemma FallsShort()
    ensures var s := TWO_BLOCKS;
      var p := Picker([false], [PieceMeta(1, true)], 1, 0);
      var ds := map[0 := Download(0, 2 * BLOCK_LEN, [Free, Free])];
      var first := BlockAt(0, 2 * BLOCK_LEN, 0);
      && s.Valid() && Flowing(s, Pipeline(p, ds, [])) && OrderOf(ds, [0]) && Begun(s, p, {first})
      && var r := FillPipeline(s, p, ds, [0], 1, false, {first});
        && r.batch == [first] && {first} + Elements(r.batch) == {first}
        && r.downloads == map[0 := Download(0, 2 * BLOCK_LEN, [Requested, Free])]
  {
    var s := TWO_BLOCKS;
    var p := Picker([false], [PieceMeta(1, true)], 1, 0);
    var d := Download(0, 2 * BLOCK_LEN, [Free, Free]);
    var ds := map[0 := d];
    var first := BlockAt(0, 2 * BLOCK_LEN, 0);
    assert MissingSet(p) == {0} && FreeSet(p) == {} && PendingSet(p) == {0};
    assert OnGrid(first, 2 * BLOCK_LEN) by { IndexInverts(0, 2 * BLOCK_LEN, 0); }
    assert FiledAt(s, d, 0);
    assert Taken(d, 0, 1, false, {first}) == [0] + Taken(d, 1, 0, false, {first});
    var pick := PickBlocks(d, 1, false, {first});
    assert pick.1 == [first] && pick.0.blocks == [Requested, Free];
    assert [0][1..] == [];
    assert Continue(ds, [0], 1, false, {first}) == (ds[0 := pick.0], [first] + []);
  }

  // What is asked for is marked.

  /** The block's download has it requested. */
  predicate RequestedIn(ds: DownloadMap, b: BlockInfo) {
    b.pieceIndex in ds && b.IndexInPiece() < |ds[b.pieceIndex].blocks| && ds[b.pieceIndex].blocks[b.IndexInPiece()].Requested?
  }

  predicate AllMarked(ds: DownloadMap, batch: seq<BlockInfo>) { forall k :: 0 <= k < |batch| ==> RequestedIn(ds, batch[k]) }

  lemma PickMarks(d: Download, count: nat, endgame: bool, prev: set<BlockInfo>, b: BlockInfo)
    requires d.Valid() && b in PickBlocks(d, count, endgame, prev).1
    ensures b.pieceIndex == d.index
    ensures var e := PickBlocks(d, count, endgame, prev).0; b.IndexInPiece() < |e.blocks| && e.blocks[b.IndexInPiece()].Requested?
  {
    hide PickBlocks;
    PickFits(d, count, endgame, prev);
    assert MayPick(d, endgame, prev, b);
    PickMeans(d, count, endgame, prev);
    assert d.Block(b.IndexInPiece()) == b;
  }

  lemma {:induction false} PassMarks(ds: DownloadMap, order: seq<nat>, room: nat, endgame: bool, prev: set<BlockInfo>, b: BlockInfo)
    requires Sound(ds) && Covers(ds, order) && Unrepeated(order) && b in Continue(ds, order, room, endgame, prev).1
    ensures RequestedIn(Continue(ds, order, room, endgame, prev).0, b)
    decreases |order|
  {
    hide PickBlocks, Download.Valid, Unrepeated, OnlyRequested;
    var d := ds[order[0]];
    var pick := PickBlocks(d, room, endgame, prev);
    var next := ds[order[0] := pick.0];
    HeadApart(order);
    if b in pick.1 {
      PickMarks(d, room, endgame, prev, b);
      ContinueRequests(next, order[1..], room - |pick.1|, endgame, prev, order[0]);
    } else {
      PassMarks(next, order[1..], room - |pick.1|, endgame, prev, b);
    }
  }

  lemma {:induction false} OpeningMarks(s: StorageInfo, q: Pipeline, room: nat, endgame: bool, prev: set<BlockInfo>)
    requires Flowing(s, q) && AllMarked(q.downloads, q.batch)
    ensures var r := OpenAll(s, q, room, endgame, prev); AllMarked(r.downloads, r.batch)
    decreases q.picker.free
  {
    hide PickBlocks, MissingSet, FreeSet, PendingSet, Unrepeated, Filed, InGrid;
    var index := FirstPickable(q.picker, 0);
    if room > 0 && index.Some? {
      var i := index.value;
      OpenFlows(s, q, i, room, endgame, prev);
      var next := Open(s, q, i, room, endgame, prev);
      OpenMarks(s, q, i, room, endgame, prev);
      OpeningMarks(s, next, room - (|next.batch| - |q.batch|), endgame, prev);
    }
  }

  lemma OpenMarks(s: StorageInfo, q: Pipeline, i: nat, room: nat, endgame: bool, prev: set<BlockInfo>)
    requires Flowing(s, q) && AllMarked(q.downloads, q.batch) && i < |q.picker.own| && i !in q.downloads
    ensures var r := Open(s, q, i, room, endgame, prev); AllMarked(r.downloads, r.batch)
  {
    hide PickBlocks, MissingSet, FreeSet, PendingSet, Unrepeated, Filed, InGrid;
    var r := Open(s, q, i, room, endgame, prev);
    var d := NewDownload(i, s.PieceLen(i));
    forall k | 0 <= k < |r.batch| ensures RequestedIn(r.downloads, r.batch[k]) {
      if k >= |q.batch| { PickMarks(d, room, endgame, prev, r.batch[k]); }
    }
  }

  /** Whatever `make_requests` asks for is marked requested, for every session to see. */
  lemma AskedIsMarked(s: StorageInfo, p: Picker, ds: DownloadMap, order: seq<nat>, room: nat, endgame: bool, prev: set<BlockInfo>)
    requires Flowing(s, Pipeline(p, ds, [])) && OrderOf(ds, order)
    ensures var r := FillPipeline(s, p, ds, order, room, endgame, prev); AllMarked(r.downloads, r.batch)
  {
    hide Continue, OpenAll, Picker.Valid, PendingSet, Filed, InGrid, Unrepeated, RequestedIn;
    FiledIsSound(s, ds);
    ContinueFlows(s, p, ds, order, room, endgame, prev);
    var c := Continue(ds, order, room, endgame, prev);
    forall k | 0 <= k < |c.1| ensures RequestedIn(c.0, c.1[k]) { PassMarks(ds, order, room, endgame, prev, c.1[k]); }
    OpeningMarks(s, Pipeline(p, c.0, c.1), room - |c.1|, endgame, prev);
  }
}
