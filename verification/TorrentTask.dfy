/** The torrent task's handling of completed pieces and of its sessions' reports
    (cratetorrent/src/torrent.rs). */
module TorrentTask {
  import opened Storage
  import opened Downloads
  import opened PiecePicking
  import opened Requests
  import opened PeerSession
  import opened Counters
  import Swarm
  import Runs = SwarmRuns
  import T = Stats

  type Command = Swarm.Command

  /** Everybody is told. */
  function ToldAll(peers: map<nat, seq<Command>>, c: Command): map<nat, seq<Command>> {
    map addr | addr in peers :: peers[addr] + [c]
  }

  class Torrent {
    const ctx: TorrentContext
    var inEndgame: bool
    /** The sessions by address, each with the commands sent to it. */
    var peers: map<nat, seq<Command>>
    const down: Counter
    const up: Counter
    const waste: Counter

    ghost predicate Valid()
      reads this, ctx, ctx.picker, down, up, waste
    {
      && ctx.Valid() && down.Valid() && up.Valid() && waste.Valid()
      && down != up && down != waste && up != waste
    }

    constructor (ctx: TorrentContext)
      requires ctx.Valid()
      ensures Valid() && this.ctx == ctx && !inEndgame && peers == map[]
      ensures fresh(down) && fresh(up) && fresh(waste)
    {
      this.ctx, inEndgame, peers := ctx, false, map[];
      down := new Counter();
      up := new Counter();
      waste := new Counter();
    }

    /** A valid piece leaves the downloads, becomes owned, and is announced to all sessions, with the
        torrent in endgame from when all missing pieces are picked. An invalid one has its blocks freed.
        A valid piece that is owned already is a panic. */
    method HandlePieceCompletion(piece: Swarm.PieceCompletion)
      requires Valid() && piece.index < ctx.storage.pieceCount && (piece.isValid ==> !ctx.picker.ownPieces[piece.index])
      modifies this, ctx`downloads, ctx.picker
      ensures Valid()
      ensures piece.isValid ==>
        var after := Owned(old(ctx.picker.View()), piece.index);
        && ctx.picker.View() == after && ctx.downloads == old(ctx.downloads) - {piece.index}
        && inEndgame == (old(inEndgame) || (MissingSet(after) != {} && FreeSet(after) == {}))
        && peers.Keys == old(peers).Keys
        && forall addr :: addr in peers ==> peers[addr] == old(peers)[addr] + [Swarm.Command(piece.index, inEndgame)]
      ensures !piece.isValid ==>
        && ctx.picker.View() == old(ctx.picker.View()) && inEndgame == old(inEndgame) && peers == old(peers)
        && ctx.downloads.Keys == old(ctx.downloads).Keys
        && forall p :: p in ctx.downloads ==>
          ctx.downloads[p] == if p == piece.index then AllFreed(old(ctx.downloads[p])) else old(ctx.downloads[p])
    {
      hide MissingSet, FreeSet, PendingSet, InGrid, StorageInfo.PieceLen, AllFreed;
      if piece.isValid {
        ReceivedKeeps(ctx.picker.View(), piece.index);
        ctx.downloads := ctx.downloads - {piece.index};
        ctx.picker.ReceivedPiece(piece.index);
        var missing := ctx.picker.missingCount;
        CountsEmpty(ctx.picker.View());
        if !inEndgame && missing > 0 && ctx.picker.freeCount == 0 {
          inEndgame := true;
        }
        peers := ToldAll(peers, Swarm.Command(piece.index, inEndgame));
      } else if piece.index in ctx.downloads {
        assert FiledAt(ctx.storage, ctx.downloads[piece.index], piece.index);
        AllFreedFiled(ctx.storage, ctx.downloads[piece.index], piece.index);
        ctx.downloads := ctx.downloads[piece.index := AllFreed(ctx.downloads[piece.index])];
      }
    }

    /** A session's report: its round goes into the totals if the torrent still knows the session, and a
        disconnected session is forgotten. */
    method HandlePeerState(report: T.Report)
      requires Valid()
      modifies this, down, up, waste
      ensures Valid() && inEndgame == old(inEndgame)
      ensures report.addr !in old(peers) ==>
        peers == old(peers) && down.total == old(down.total) && up.total == old(up.total) && waste.total == old(waste.total)
      ensures report.addr in old(peers) ==>
        && peers == (if report.disconnected then old(peers) - {report.addr} else old(peers))
        && down.total == old(down.total) + report.round.down && up.total == old(up.total) + report.round.up
        && waste.total == old(waste.total) + report.round.waste
    {
      hide Requests.Flowing, Average, Peak;
      if report.addr in peers {
        down.Add(report.round.down);
        up.Add(report.round.up);
        waste.Add(report.round.waste);
        if report.disconnected {
          peers := peers - {report.addr};
        }
      }
    }

    method BuildStats() returns (stats: Runs.PieceStats)
      requires Valid()
      ensures stats.total == ctx.storage.pieceCount && stats.complete == ctx.storage.pieceCount - |MissingSet(ctx.picker.View())|
      ensures stats.pending == |ctx.downloads.Keys|
    {
      stats := Runs.PieceStats(ctx.storage.pieceCount, ctx.storage.pieceCount - ctx.picker.missingCount, |ctx.downloads|);
    }
  }

  lemma AllFreedFiled(s: StorageInfo, d: Download, p: nat)
    requires FiledAt(s, d, p)
    ensures FiledAt(s, AllFreed(d), p)
  {
  }
}
