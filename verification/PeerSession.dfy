/** A peer session's handling of its outgoing requests (cratetorrent/src/peer.rs). */
module PeerSession {
  import opened Wrappers
  import opened Blocks
  import opened Storage
  import opened Downloads
  import opened PiecePicking
  import opened Requests
  import R = Repeats

  datatype WriteBlock = WriteBlock(block: BlockInfo, data: seq<byte>)

  /** What the sessions of a torrent share. */
  class TorrentContext {
    const storage: StorageInfo
    const picker: PiecePicker
    var downloads: DownloadMap
    /** The blocks sent to the disk task, oldest first. */
    var diskQueue: seq<WriteBlock>

    ghost predicate Valid()
      reads this, picker
    {
      Flowing(storage, Pipeline(picker.View(), downloads, []))
    }

    constructor (storage: StorageInfo, own: seq<bool>)
      requires |own| == storage.pieceCount
      ensures Valid() && downloads == map[] && diskQueue == []
      ensures fresh(picker) && picker.View() == NewPicker(own)
    {
      this.storage := storage;
      picker := new PiecePicker(own);
      downloads := map[];
      diskQueue := [];
    }
  }

  function Room(target: Option<nat>, pending: nat): nat {
    var len := if target.Some? then target.value else 0;
    if pending >= len then 0 else len - pending
  }

  /** The blocks freed when the requests in `blocks` are dropped. */
  function FreedAll(s: StorageInfo, ds: DownloadMap, blocks: set<BlockInfo>): DownloadMap
    requires Filed(s, ds)
  {
    map p | p in ds :: ds[p].(blocks := seq(|ds[p].blocks|, i requires 0 <= i < |ds[p].blocks| =>
      if BlockAt(p, s.PieceLen(p), i) in blocks then Free else ds[p].blocks[i]))
  }

  lemma FreedFiles(s: StorageInfo, ds: DownloadMap, blocks: set<BlockInfo>)
    requires Filed(s, ds)
    ensures Filed(s, FreedAll(s, ds, blocks))
  {
    forall p | p in ds ensures FiledAt(s, FreedAll(s, ds, blocks)[p], p) {
      assert FiledAt(s, ds[p], p);
    }
  }

  lemma FreedNone(s: StorageInfo, ds: DownloadMap)
    requires Filed(s, ds)
    ensures FreedAll(s, ds, {}) == ds
  {
    forall p | p in ds ensures FreedAll(s, ds, {})[p] == ds[p] {
      assert FiledAt(s, ds[p], p);
      assert FreedAll(s, ds, {})[p].blocks == ds[p].blocks;
    }
  }

  lemma FreedOne(s: StorageInfo, ds: DownloadMap, done: set<BlockInfo>, b: BlockInfo)
    requires Filed(s, ds) && InGrid(s, b) && Filed(s, FreedAll(s, ds, done))
    ensures b.pieceIndex in ds ==> b.IndexInPiece() < |ds[b.pieceIndex].blocks|
    ensures FreedAll(s, ds, done + {b}) ==
      if b.pieceIndex in ds then FreedAll(s, ds, done)[b.pieceIndex := Freed(FreedAll(s, ds, done)[b.pieceIndex], b.IndexInPiece())]
      else FreedAll(s, ds, done)
  {
    var before, after := FreedAll(s, ds, done), FreedAll(s, ds, done + {b});
    if b.pieceIndex in ds {
      assert FiledAt(s, ds[b.pieceIndex], b.pieceIndex) && FiledAt(s, before[b.pieceIndex], b.pieceIndex);
      FreedAt(s, ds, done, b);
    }
    forall p | p in ds && p != b.pieceIndex ensures after[p] == before[p] {
      FreedElsewhere(s, ds, done, b, p);
    }
  }

  lemma FreedAt(s: StorageInfo, ds: DownloadMap, done: set<BlockInfo>, b: BlockInfo)
    requires Filed(s, ds) && InGrid(s, b) && b.pieceIndex in ds && FiledAt(s, ds[b.pieceIndex], b.pieceIndex)
    requires FiledAt(s, FreedAll(s, ds, done)[b.pieceIndex], b.pieceIndex)
    ensures FreedAll(s, ds, done + {b})[b.pieceIndex] == Freed(FreedAll(s, ds, done)[b.pieceIndex], b.IndexInPiece())
  {
    var p := b.pieceIndex;
    forall i | 0 <= i < |ds[p].blocks|
      ensures BlockAt(p, s.PieceLen(p), i) == b <==> i == b.IndexInPiece()
    {
      IndexInverts(p, s.PieceLen(p), i);
    }
    assert FreedAll(s, ds, done + {b})[p].blocks == Freed(FreedAll(s, ds, done)[p], b.IndexInPiece()).blocks;
  }

  lemma FreedElsewhere(s: StorageInfo, ds: DownloadMap, done: set<BlockInfo>, b: BlockInfo, p: nat)
    requires Filed(s, ds) && p in ds && p != b.pieceIndex && FiledAt(s, ds[p], p)
    ensures FreedAll(s, ds, done + {b})[p] == FreedAll(s, ds, done)[p]
  {
    forall i | 0 <= i < |ds[p].blocks| ensures BlockAt(p, s.PieceLen(p), i) != b {
    }
    assert FreedAll(s, ds, done + {b})[p].blocks == FreedAll(s, ds, done)[p].blocks;
  }

  class PeerSession {
    const torrent: TorrentContext
    var outgoing: set<BlockInfo>
    var isChoked: bool
    var isInterested: bool
    var inEndgame: bool
    var target: Option<nat>
    var waste: nat
    /** The request messages put on the wire, oldest first. */
    var sent: seq<BlockInfo>

    constructor (torrent: TorrentContext)
      ensures this.torrent == torrent && outgoing == {} && isChoked && !isInterested && !inEndgame
    {
      this.torrent := torrent;
      outgoing, isChoked, isInterested, inEndgame := {}, true, false, false;
      target, waste, sent := None, 0, [];
    }

    /** All requests outstanding are for blocks of the torrent's grid, of pieces that have been picked, and
        a choked session has none. */
    ghost predicate Valid()
      reads this, torrent, torrent.picker
    {
      && torrent.Valid()
      && R.Begun(torrent.storage, torrent.picker.View(), outgoing)
      && (isChoked ==> outgoing == {})
    }

    /** The first loop of `make_requests`, under the write lock of the download map. */
    method ContinueDownloads(order: seq<nat>) returns (requests: seq<BlockInfo>)
      requires Valid() && OrderOf(torrent.downloads, order) && Sound(torrent.downloads)
      modifies torrent`downloads
      ensures Sound(old(torrent.downloads))
      ensures var c := Continue(old(torrent.downloads), order, Room(target, |outgoing|), inEndgame, outgoing);
        torrent.downloads == c.0 && requests == c.1
      ensures var len := if target.Some? then target.value else 0;
        && |outgoing| + |requests| <= Max(|outgoing|, len)
        && (|outgoing| + |requests| >= len || AllExhausted(torrent.downloads, inEndgame, outgoing + Elements(requests)))
    {
      hide Continue, PickBlocks, Flowing, InGrid, Continuing, Download.Valid, Unrepeated, AllExhausted, Elements;
      requests := [];
      var len := if target.Some? then target.value else 0;
      R.PassFills(torrent.downloads, order, len, inEndgame, outgoing);
      ghost var room := Room(target, |outgoing|);
      ghost var whole := Continue(torrent.downloads, order, room, inEndgame, outgoing);
      ContinueStart(torrent.downloads, order, room, inEndgame, outgoing);
      var todo := order;
      while todo != []
        invariant Continuing(whole, room, inEndgame, outgoing, torrent.downloads, todo, requests)
        decreases |todo|
      {
        var count := |requests| + |outgoing|;
        if count >= len {
          break;
        }
        ContinuingBound(whole, room, inEndgame, outgoing, torrent.downloads, todo, requests);
        ContinueTurn(whole, room, inEndgame, outgoing, torrent.downloads, todo, requests);
        var pick := PickBlocks(torrent.downloads[todo[0]], len - count, inEndgame, outgoing);
        torrent.downloads := torrent.downloads[todo[0] := pick.0];
        requests := requests + pick.1;
        todo := todo[1..];
      }
      ContinuingBound(whole, room, inEndgame, outgoing, torrent.downloads, todo, requests);
      ContinueDone(whole, room, inEndgame, outgoing, torrent.downloads, todo, requests);
    }

    /** The second loop of `make_requests`: each turn takes one piece off the picker. */
    method OpenDownloads(requests: seq<BlockInfo>) returns (all: seq<BlockInfo>)
      requires Flowing(torrent.storage, Pipeline(torrent.picker.View(), torrent.downloads, requests))
      modifies torrent`downloads, torrent.picker
      ensures Flowing(torrent.storage, old(Pipeline(torrent.picker.View(), torrent.downloads, requests)))
      ensures Pipeline(torrent.picker.View(), torrent.downloads, all) ==
        OpenAll(torrent.storage, old(Pipeline(torrent.picker.View(), torrent.downloads, requests)),
          Room(target, |requests| + |outgoing|), inEndgame, outgoing)
      ensures var len := if target.Some? then target.value else 0;
        && |outgoing| + |all| <= Max(|outgoing| + |requests|, len)
        && (|outgoing| + |all| >= len || FirstPickable(torrent.picker.View(), 0).None?)
    {
      hide PickBlocks, Flowing, OpenAll, Open, FirstPickable, Picker.Valid;
      R.OpeningFills(torrent.storage, Pipeline(torrent.picker.View(), torrent.downloads, requests), Room(target, |requests| + |outgoing|), inEndgame, outgoing);
      all := requests;
      var len := if target.Some? then target.value else 0;
      ghost var q := Pipeline(torrent.picker.View(), torrent.downloads, all);
      ghost var whole := OpenAll(torrent.storage, q, Room(target, |all| + |outgoing|), inEndgame, outgoing);
      while true
        invariant q == Pipeline(torrent.picker.View(), torrent.downloads, all)
        invariant Opening(whole, torrent.storage, q, Room(target, |all| + |outgoing|), inEndgame, outgoing)
        decreases torrent.picker.freeCount
      {
        var count := |all| + |outgoing|;
        if count >= len {
          break;
        }
        OpeningTurn(whole, torrent.storage, q, len - count, inEndgame, outgoing);
        var index := torrent.picker.PickPiece();
        if index.None? {
          break;
        }
        var pick := PickBlocks(NewDownload(index.value, torrent.storage.PieceLen(index.value)), len - count, inEndgame, outgoing);
        all := all + pick.1;
        torrent.downloads := torrent.downloads[index.value := pick.0];
        OpenIs(torrent.storage, q, index.value, len - count, inEndgame, outgoing);
        q := Open(torrent.storage, q, index.value, len - count, inEndgame, outgoing);
      }
      OpeningDone(whole, torrent.storage, q, Room(target, |all| + |outgoing|), inEndgame, outgoing);
    }

    /** `order` is the order in which the download map yields its keys, `sends` how many messages the
        socket takes before it fails. When it fails, the request that did not get out is registered all
        the same; those behind it are not. */
    method MakeRequests(order: seq<nat>, sends: nat) returns (ok: bool)
      requires Valid() && OrderOf(torrent.downloads, order)
      modifies this`outgoing, this`sent, torrent`downloads, torrent.picker
      ensures Valid() && old(Valid())
      ensures isChoked || !isInterested ==>
        ok && outgoing == old(outgoing) && sent == old(sent) && torrent.downloads == old(torrent.downloads)
        && torrent.picker.View() == old(torrent.picker.View())
      ensures !isChoked && isInterested ==>
        var r := FillPipeline(torrent.storage, old(torrent.picker.View()), old(torrent.downloads), order,
          Room(target, |old(outgoing)|), inEndgame, old(outgoing));
        && torrent.picker.View() == r.picker && torrent.downloads == r.downloads
        && ok == (|r.batch| <= sends)
        && sent == old(sent) + r.batch[..Min(sends, |r.batch|)]
        && outgoing == old(outgoing) + Elements(r.batch[..Min(sends + 1, |r.batch|)])
      ensures |outgoing| <= Max(|old(outgoing)|, if target.Some? then target.value else 0)
      ensures ok && target.Some? && !isChoked && isInterested ==>
        && |old(sent)| <= |sent|
        && R.Filled(torrent.picker.View(), torrent.downloads, target.value, |old(outgoing)| + |sent| - |old(sent)|, inEndgame, outgoing)
        && (R.NoneFree(old(torrent.downloads), old(outgoing)) ==>
          R.Filled(torrent.picker.View(), torrent.downloads, target.value, |outgoing|, inEndgame, outgoing))
    {
      hide Continue, R.Begun, R.Filled, R.NoneFree, OpenAll, FillPipeline, Flowing, Picker.Valid, Elements, InGrid, OrderOf;
      ok := true;
      if isChoked || !isInterested {
        return;
      }
      FillIs(torrent.storage, torrent.picker.View(), torrent.downloads, order, Room(target, |outgoing|), inEndgame, outgoing);
      ghost var r := FillPipeline(torrent.storage, torrent.picker.View(), torrent.downloads, order, Room(target, |outgoing|), inEndgame, outgoing);
      FlowingBatch(torrent.storage, r, Min(sends + 1, |r.batch|));
      R.FillBegun(torrent.storage, torrent.picker.View(), torrent.downloads, order, Room(target, |outgoing|), inEndgame, outgoing, Min(sends + 1, |r.batch|));
      R.BatchFills(torrent.storage, torrent.picker.View(), torrent.downloads, order, if target.Some? then target.value else 0, inEndgame, outgoing, Min(sends + 1, |r.batch|));
      assert r.batch[..|r.batch|] == r.batch;
      var requests := ContinueDownloads(order);
      requests := OpenDownloads(requests);
      ok := Send(requests, sends);
    }

    method Send(requests: seq<BlockInfo>, sends: nat) returns (ok: bool)
      modifies this`outgoing, this`sent
      ensures ok == (|requests| <= sends)
      ensures sent == old(sent) + requests[..Min(sends, |requests|)]
      ensures outgoing == old(outgoing) + Elements(requests[..Min(sends + 1, |requests|)])
    {
      var i := 0;
      assert Elements(requests[..0]) == {};
      while i < |requests|
        invariant 0 <= i <= |requests| && i <= sends
        invariant outgoing == old(outgoing) + Elements(requests[..i])
        invariant sent == old(sent) + requests[..i]
      {
        outgoing := outgoing + {requests[i]};
        assert requests[..i + 1] == requests[..i] + [requests[i]];
        ElementsSnoc(requests[..i], requests[i]);
        if i == sends {
          return false;
        }
        sent := sent + [requests[i]];
        i := i + 1;
      }
      return true;
    }

    /** Drains the outstanding requests and frees their blocks where the download is still there. */
    method FreePendingBlocks()
      requires Valid()
      modifies this`outgoing, torrent`downloads
      ensures Valid() && old(Valid()) && outgoing == {}
      ensures torrent.downloads == FreedAll(torrent.storage, old(torrent.downloads), old(outgoing))
    {
      hide FreedAll, Freed, InGrid, PendingSet, Picker.Valid, Unrepeated;
      ghost var done: set<BlockInfo> := {};
      ghost var ds := torrent.downloads;
      FreedNone(torrent.storage, ds);
      while outgoing != {}
        invariant done + outgoing == old(outgoing) && forall b :: b in outgoing ==> InGrid(torrent.storage, b)
        invariant Filed(torrent.storage, ds) && torrent.downloads == FreedAll(torrent.storage, ds, done)
        invariant torrent.diskQueue == old(torrent.diskQueue)
        decreases |outgoing|
      {
        var block :| block in outgoing;
        outgoing := outgoing - {block};
        FreedFiles(torrent.storage, ds, done);
        FreedKeys(torrent.storage, ds, done);
        FreedOne(torrent.storage, ds, done, block);
        if block.pieceIndex in torrent.downloads {
          assert FiledAt(torrent.storage, torrent.downloads[block.pieceIndex], block.pieceIndex);
          torrent.downloads := torrent.downloads[block.pieceIndex := Freed(torrent.downloads[block.pieceIndex], block.IndexInPiece())];
        }
        done := done + {block};
      }
      FreedFiles(torrent.storage, ds, done);
      FreedKeys(torrent.storage, ds, done);
    }

    /** A block from the peer. It goes to the disk task unless the piece is not being downloaded or the
        block is there already; those two count as waste. Where in a 16 KiB block of the piece the data
        begins, and how long it is, is not looked at. */
    method HandleBlock(block: BlockInfo, data: seq<byte>)
      requires Valid()
      requires block.pieceIndex in torrent.downloads ==> block.IndexInPiece() < |torrent.downloads[block.pieceIndex].blocks|
      modifies this`outgoing, this`waste, torrent`downloads, torrent`diskQueue
      ensures Valid() && outgoing == old(outgoing) - {block}
      ensures var ds := old(torrent.downloads);
        var p, i := block.pieceIndex, block.IndexInPiece();
        && (p in ds ==> ds[p].Valid() && i < |ds[p].blocks|)
        && (p !in ds || ds[p].blocks[i].Received? ==>
          torrent.downloads == ds && torrent.diskQueue == old(torrent.diskQueue) && waste == old(waste) + block.len)
        && (p in ds && !ds[p].blocks[i].Received? ==>
          torrent.downloads == ds[p := Marked(ds[p], i)] && torrent.diskQueue == old(torrent.diskQueue) + [WriteBlock(block, data)]
          && waste == old(waste))
    {
      outgoing := outgoing - {block};
      if block.pieceIndex !in torrent.downloads {
        waste := waste + block.len;
        return;
      }
      var d := torrent.downloads[block.pieceIndex];
      assert FiledAt(torrent.storage, d, block.pieceIndex);
      var prev := d.blocks[block.IndexInPiece()];
      torrent.downloads := torrent.downloads[block.pieceIndex := Marked(d, block.IndexInPiece())];
      assert forall p :: p in torrent.downloads && p != block.pieceIndex ==> FiledAt(torrent.storage, torrent.downloads[p], p);
      if prev.Received? {
        waste := waste + block.len;
        assert Marked(d, block.IndexInPiece()) == d;
        assert torrent.downloads == old(torrent.downloads);
      } else {
        torrent.diskQueue := torrent.diskQueue + [WriteBlock(block, data)];
      }
    }

    method HandleChoke()
      requires Valid()
      modifies this`outgoing, this`isChoked, torrent`downloads
      ensures Valid() && old(Valid()) && isChoked && outgoing == {}
      ensures torrent.downloads == FreedAll(torrent.storage, old(torrent.downloads), old(outgoing))
    {
      if !isChoked {
        FreePendingBlocks();
        isChoked := true;
      } else {
        FreedNone(torrent.storage, torrent.downloads);
      }
    }

    /** The end of `start`: the error of a session that has failed goes out as an alert, and when that finds
        nobody listening, the method returns before its cleanup. */
    method End(failed: bool, heard: bool) returns (ok: bool)
      requires Valid()
      modifies this`outgoing, torrent`downloads
      ensures old(Valid()) && ok == (heard || !failed)
      ensures ok ==> Valid() && outgoing == {} && torrent.downloads == FreedAll(torrent.storage, old(torrent.downloads), old(outgoing))
      ensures !ok ==> outgoing == old(outgoing) && torrent.downloads == old(torrent.downloads)
    {
      hide FreedAll, Flowing;
      ok := true;
      if failed && !heard {
        return false;
      }
      if outgoing != {} {
        FreePendingBlocks();
      } else {
        FreedNothing();
      }
    }

    lemma FreedNothing()
      requires Valid()
      ensures torrent.downloads == FreedAll(torrent.storage, torrent.downloads, {})
    {
      hide FreedAll;
      StillFiled(torrent.storage, torrent.picker.View(), torrent.downloads);
      FreedNone(torrent.storage, torrent.downloads);
    }

    /** After a timeout the requests are dropped and, with the queue cut to one, one is made again; the
        block just freed is as good as any other. */
    method HandleTimeout(order: seq<nat>, sends: nat) returns (ok: bool)
      requires Valid() && OrderOf(torrent.downloads, order)
      modifies this`outgoing, this`sent, this`target, torrent`downloads, torrent.picker
      ensures Valid() && old(Valid()) && target == Some(1) && |outgoing| <= 1
      ensures isChoked || !isInterested ==>
        ok && outgoing == {} && sent == old(sent) && torrent.picker.View() == old(torrent.picker.View())
        && torrent.downloads == FreedAll(torrent.storage, old(torrent.downloads), old(outgoing))
      ensures !isChoked && isInterested ==>
        var freed := FreedAll(torrent.storage, old(torrent.downloads), old(outgoing));
        && Flowing(torrent.storage, Pipeline(old(torrent.picker.View()), freed, [])) && OrderOf(freed, order)
        && var r := FillPipeline(torrent.storage, old(torrent.picker.View()), freed, order, 1, inEndgame, {});
        && torrent.picker.View() == r.picker && torrent.downloads == r.downloads
        && ok == (|r.batch| <= sends)
        && sent == old(sent) + r.batch[..Min(sends, |r.batch|)]
        && outgoing == Elements(r.batch[..Min(sends + 1, |r.batch|)])
    {
      hide Flowing, FillPipeline, Elements, OrderOf, FreedAll, AllExhausted, Unrepeated, FirstPickable, FreeSet, MissingSet;
      ghost var ds, dropped := torrent.downloads, outgoing;
      StillFiled(torrent.storage, torrent.picker.View(), ds);
      FreePendingBlocks();
      FreedKeys(torrent.storage, ds, dropped);
      OrderSame(ds, torrent.downloads, order);
      target := Some(1);
      if !isChoked && isInterested {
        PipelineContract(torrent.storage, torrent.picker.View(), torrent.downloads, order, 1, inEndgame, outgoing);
        ghost var r := FillPipeline(torrent.storage, torrent.picker.View(), torrent.downloads, order, 1, inEndgame, outgoing);
        OneElement(r.batch[..Min(sends + 1, |r.batch|)]);
      }
      ok := MakeRequests(order, sends);
    }
  }

  /** What is left to do of the second loop is the whole loop. */
  ghost predicate Opening(whole: Pipeline, s: StorageInfo, q: Pipeline, room: nat, endgame: bool, prev: set<BlockInfo>) {
    Flowing(s, q) && whole == OpenAll(s, q, room, endgame, prev)
  }

  lemma OpeningTurn(whole: Pipeline, s: StorageInfo, q: Pipeline, room: nat, endgame: bool, prev: set<BlockInfo>)
    requires Opening(whole, s, q, room, endgame, prev) && room > 0
    ensures q.picker.Valid() && q.picker.SameShape() && |q.picker.own| == s.pieceCount
    ensures var index := FirstPickable(q.picker, 0);
      if index.None? then q == whole
      else var next := Open(s, q, index.value, room, endgame, prev);
        0 <= next.picker.free < q.picker.free && |next.batch| - |q.batch| <= room
        && Opening(whole, s, next, room - (|next.batch| - |q.batch|), endgame, prev)
  {
    hide PickBlocks, Filed, PendingSet, MissingSet, FreeSet, Unrepeated, InGrid;
    var index := FirstPickable(q.picker, 0);
    if index.Some? {
      OpenFlows(s, q, index.value, room, endgame, prev);
    }
  }

  lemma OpenIs(s: StorageInfo, q: Pipeline, i: nat, room: nat, endgame: bool, prev: set<BlockInfo>)
    requires q.picker.SameShape() && i < |q.picker.own| == s.pieceCount
    ensures var pick := PickBlocks(NewDownload(i, s.PieceLen(i)), room, endgame, prev);
      Open(s, q, i, room, endgame, prev) == Pipeline(Pick(q.picker, i), q.downloads[i := pick.0], q.batch + pick.1)
  {
  }

  lemma OpeningDone(whole: Pipeline, s: StorageInfo, q: Pipeline, room: nat, endgame: bool, prev: set<BlockInfo>)
    requires Opening(whole, s, q, room, endgame, prev)
    ensures q.picker.SameShape() && (room == 0 || FirstPickable(q.picker, 0).None? ==> q == whole)
  {
  }

  lemma FillIs(s: StorageInfo, p: Picker, ds: DownloadMap, order: seq<nat>, room: nat, endgame: bool, prev: set<BlockInfo>)
    requires Flowing(s, Pipeline(p, ds, [])) && OrderOf(ds, order)
    ensures Sound(ds) && Covers(ds, order)
    ensures var c := Continue(ds, order, room, endgame, prev);
      && |c.1| <= room && Flowing(s, Pipeline(p, c.0, c.1))
      && FillPipeline(s, p, ds, order, room, endgame, prev) == OpenAll(s, Pipeline(p, c.0, c.1), room - |c.1|, endgame, prev)
  {
    FiledIsSound(s, ds);
    ContinueFlows(s, p, ds, order, room, endgame, prev);
  }

  lemma FlowingBatch(s: StorageInfo, q: Pipeline, n: nat)
    requires Flowing(s, q) && n <= |q.batch|
    ensures Flowing(s, Pipeline(q.picker, q.downloads, []))
    ensures forall b :: b in Elements(q.batch[..n]) ==> InGrid(s, b)
  {
  }

  lemma StillFiled(s: StorageInfo, p: Picker, ds: DownloadMap)
    requires Flowing(s, Pipeline(p, ds, []))
    ensures Filed(s, ds)
  {
  }

  lemma OrderSame(a: DownloadMap, b: DownloadMap, order: seq<nat>)
    requires OrderOf(a, order) && a.Keys == b.Keys
    ensures OrderOf(b, order)
  {
    assert forall k :: k in b <==> k in a;
  }

  lemma OneElement<T>(s: seq<T>)
    requires |s| <= 1
    ensures |Elements(s)| <= 1
  {
    if s == [] { assert Elements(s) == {}; } else { assert Elements(s) == {s[0]}; }
  }

  lemma ElementsSnoc<T>(s: seq<T>, x: T)
    ensures Elements(s + [x]) == Elements(s) + {x}
  {
    assert (s + [x])[|s|] == x;
    forall y | y in s ensures y in s + [x] {
      var j :| 0 <= j < |s| && s[j] == y;
      assert (s + [x])[j] == y;
    }
  }

  lemma FreedKeys(s: StorageInfo, ds: DownloadMap, blocks: set<BlockInfo>)
    requires Filed(s, ds)
    ensures FreedAll(s, ds, blocks).Keys == ds.Keys
  {
  }

  /** What is left to do of the loop, done after what it has done, is the whole loop. */
  ghost predicate Continuing(whole: (DownloadMap, seq<BlockInfo>), room: nat, endgame: bool, prev: set<BlockInfo>,
      ds: DownloadMap, todo: seq<nat>, requests: seq<BlockInfo>)
  {
    && Sound(ds) && Covers(ds, todo) && |requests| <= room
    && var rest := Continue(ds, todo, room - |requests|, endgame, prev);
      whole.0 == rest.0 && whole.1 == requests + rest.1
  }

  lemma ContinueStart(ds: DownloadMap, order: seq<nat>, room: nat, endgame: bool, prev: set<BlockInfo>)
    requires Sound(ds) && Covers(ds, order)
    ensures Continuing(Continue(ds, order, room, endgame, prev), room, endgame, prev, ds, order, [])
  {
    hide Continue;
    var r := Continue(ds, order, room, endgame, prev);
    assert [] + r.1 == r.1;
  }

  lemma ContinueStep(ds: DownloadMap, todo: seq<nat>, room: nat, endgame: bool, prev: set<BlockInfo>)
    requires Sound(ds) && Covers(ds, todo) && todo != [] && room > 0
    ensures var pick := PickBlocks(ds[todo[0]], room, endgame, prev);
      var next := ds[todo[0] := pick.0];
      && Sound(next) && Covers(next, todo[1..])
      && var after := Continue(next, todo[1..], room - |pick.1|, endgame, prev);
        Continue(ds, todo, room, endgame, prev) == (after.0, pick.1 + after.1)
  {
    hide PickBlocks, Download.Valid;
  }

  lemma ContinueTurn(whole: (DownloadMap, seq<BlockInfo>), room: nat, endgame: bool, prev: set<BlockInfo>,
      ds: DownloadMap, todo: seq<nat>, requests: seq<BlockInfo>)
    requires Continuing(whole, room, endgame, prev, ds, todo, requests) && todo != [] && |requests| < room
    ensures todo[0] in ds && ds[todo[0]].Valid()
    ensures var pick := PickBlocks(ds[todo[0]], room - |requests|, endgame, prev);
      Continuing(whole, room, endgame, prev, ds[todo[0] := pick.0], todo[1..], requests + pick.1)
  {
    hide PickBlocks, Continue, Download.Valid;
    ContinueStep(ds, todo, room - |requests|, endgame, prev);
    var pick := PickBlocks(ds[todo[0]], room - |requests|, endgame, prev);
    var after := Continue(ds[todo[0] := pick.0], todo[1..], room - |requests| - |pick.1|, endgame, prev);
    assert requests + (pick.1 + after.1) == (requests + pick.1) + after.1;
  }

  lemma ContinuingBound(whole: (DownloadMap, seq<BlockInfo>), room: nat, endgame: bool, prev: set<BlockInfo>,
      ds: DownloadMap, todo: seq<nat>, requests: seq<BlockInfo>)
    requires Continuing(whole, room, endgame, prev, ds, todo, requests)
    ensures |requests| <= room
  {
  }

  lemma ContinueDone(whole: (DownloadMap, seq<BlockInfo>), room: nat, endgame: bool, prev: set<BlockInfo>,
      ds: DownloadMap, todo: seq<nat>, requests: seq<BlockInfo>)
    requires Continuing(whole, room, endgame, prev, ds, todo, requests) && (todo == [] || |requests| == room)
    ensures whole.0 == ds && whole.1 == requests
  {
    assert requests + [] == requests;
  }
}
