/** No requested block is forgotten and no received block gets stuck, in every state. */
module SwarmLiveness {
  import opened Wrappers
  import opened Blocks
  import opened Storage
  import opened FlatDisk
  import opened PieceBuffer
  import opened Downloads
  import opened PiecePicking
  import opened Requests
  import opened PeerSession
  import opened Swarm
  import opened SwarmShape

  /** The block's status in the shared downloads. */
  predicate Is(s: StorageInfo, ds: DownloadMap, b: BlockInfo, status: BlockStatus) {
    InGrid(s, b) && StatusOf(ds, b) == Some(status)
  }

  predicate HeldBy(sessions: SessionMap, id: nat, b: BlockInfo) {
    id in sessions && b in sessions[id].Hand()
  }

  ghost predicate Held(sessions: SessionMap, lost: set<BlockInfo>, b: BlockInfo) {
    b in lost || exists id :: HeldBy(sessions, id, b)
  }

  /** Somebody answers for every requested block. */
  ghost predicate Covered(s: StorageInfo, ds: DownloadMap, sessions: SessionMap, lost: set<BlockInfo>) {
    forall b :: Is(s, ds, b, Requested) ==> Held(sessions, lost, b)
  }

  predicate HandedBy(sessions: SessionMap, id: nat, b: BlockInfo) {
    id in sessions && sessions[id].mode.Handing? && sessions[id].mode.block == b
  }

  ghost predicate Handed(sessions: SessionMap, b: BlockInfo) {
    exists id :: HandedBy(sessions, id, b)
  }

  ghost predicate Queued(queue: seq<WriteBlock>, b: BlockInfo) {
    exists k :: 0 <= k < |queue| && queue[k].block == b
  }

  predicate InBuffer(buffer: map<nat, BlockMap>, b: BlockInfo) {
    b.pieceIndex in buffer && b.offset in buffer[b.pieceIndex]
  }

  ghost predicate Flushing(jobs: seq<Job>, p: nat) {
    exists k :: 0 <= k < |jobs| && jobs[k].index == p
  }

  ghost predicate Reported(queue: seq<PieceCompletion>, p: nat) {
    exists k :: 0 <= k < |queue| && queue[k].index == p
  }

  /** On its way to the disk task, in its buffer, or in a flushed piece that is not accounted for yet. */
  ghost predicate InFlight(sessions: SessionMap, d: Disk, queue: seq<PieceCompletion>, b: BlockInfo) {
    || Handed(sessions, b) || Queued(d.queue, b) || InBuffer(d.buffer, b)
    || Flushing(d.jobs, b.pieceIndex) || Reported(queue, b.pieceIndex)
  }

  ghost predicate Unstuck(s: StorageInfo, ds: DownloadMap, sessions: SessionMap, d: Disk, queue: seq<PieceCompletion>) {
    forall b :: Is(s, ds, b, Received) ==> InFlight(sessions, d, queue, b)
  }

  ghost predicate Live(cfg: Config, s: State) {
    && Covered(cfg.storage, s.downloads, s.sessions, s.lost)
    && Unstuck(cfg.storage, s.downloads, s.sessions, s.disk, s.torrent.queue)
  }

  // How the steps change statuses

  lemma SetStatusAt(s: StorageInfo, ds: DownloadMap, b: BlockInfo, status: BlockStatus, c: BlockInfo)
    requires InGrid(s, b) && InGrid(s, c)
    ensures StatusOf(SetStatus(ds, b, status), c) ==
      if c == b && StatusOf(ds, b).Some? then Some(status) else StatusOf(ds, c)
  {
  }

  lemma ContinueStatus(s: StorageInfo, ds: DownloadMap, order: seq<nat>, room: nat, endgame: bool, prev: set<BlockInfo>, b: BlockInfo)
    requires Filed(s, ds) && OrderOf(ds, order) && InGrid(s, b) && Sound(ds)
    ensures var c := Continue(ds, order, room, endgame, prev);
      StatusOf(c.0, b) == StatusOf(ds, b) || (StatusOf(ds, b) == Some(Free) && StatusOf(c.0, b) == Some(Requested) && b in c.1)
  {
    hide Continue;
    if b.pieceIndex in ds {
      assert FiledAt(s, ds[b.pieceIndex], b.pieceIndex);
      ContinueRequests(ds, order, room, endgame, prev, b.pieceIndex);
      var c := Continue(ds, order, room, endgame, prev);
      assert StatusStep(ds[b.pieceIndex], c.0[b.pieceIndex], b.IndexInPiece(), c.1);
    }
  }

  lemma InsertStatus(s: StorageInfo, ds: DownloadMap, d: Download, batch: seq<BlockInfo>, b: BlockInfo)
    requires FiledAt(s, d, d.index) && FreshlyOpened(d, batch) && InGrid(s, b)
    ensures StatusOf(ds[d.index := d], b) == StatusOf(ds, b) || StatusOf(ds[d.index := d], b) == Some(Free)
      || (StatusOf(ds[d.index := d], b) == Some(Requested) && b in batch)
  {
  }

  // Keeping requests covered

  /** Whatever one session lets go of is not requested afterwards or among the lost; whatever becomes
      requested, it holds. */
  lemma CoverSession(s: StorageInfo, ds: DownloadMap, after: DownloadMap, sessions: SessionMap, lost: set<BlockInfo>, kept: set<BlockInfo>, id: nat, x: Session)
    requires Covered(s, ds, sessions, lost)
    requires id in sessions ==> forall b :: b in sessions[id].Hand() ==> b in x.Hand() || b in kept || !Is(s, after, b, Requested)
    requires forall b :: b in lost ==> b in kept || !Is(s, after, b, Requested)
    requires forall b :: Is(s, after, b, Requested) ==> Is(s, ds, b, Requested) || b in x.Hand()
    ensures Covered(s, after, sessions[id := x], kept)
  {
    hide Is, Session.Hand;
    forall b | Is(s, after, b, Requested) ensures Held(sessions[id := x], kept, b) {
      if b in x.Hand() {
        assert HeldBy(sessions[id := x], id, b);
      } else {
        assert Held(sessions, lost, b);
        if b !in kept {
          var k :| HeldBy(sessions, k, b);
          if k != id { assert HeldBy(sessions[id := x], k, b); }
        }
      }
    }
  }

  lemma SameCover(s: StorageInfo, ds: DownloadMap, sessions: SessionMap, lost: set<BlockInfo>, id: nat, x: Session)
    requires Covered(s, ds, sessions, lost) && (id in sessions ==> sessions[id].Hand() <= x.Hand())
    ensures Covered(s, ds, sessions[id := x], lost)
  {
    CoverSession(s, ds, ds, sessions, lost, lost, id, x);
  }

  lemma HandSplit(batch: seq<BlockInfo>)
    requires batch != []
    ensures Elements(batch) == {batch[0]} + Elements(batch[1..])
  {
    assert batch == [batch[0]] + batch[1..];
  }

  lemma StartRequestsCover(cfg: Config, s: State, id: nat, target: nat, order: seq<nat>)
    requires Formed(cfg, s) && Covered(cfg.storage, s.downloads, s.sessions, s.lost) && MakeEnabled(cfg, s, id, StartRequests(target, order))
    ensures var t := StartRequestsStep(cfg, s, id, target, order); Covered(cfg.storage, t.downloads, t.sessions, t.lost)
  {
    hide SessionsOk, DiskOk, TorrentOk, ConfigOk, PickerOk, SessionsBegun, DiskBegun, TorrentBegun, Begun, FiledAt, Filed, InGrid, StatusOf, OrderOf, Continue, Covered;
    var x := s.sessions[id];
    var room := Room(Some(target), |x.outgoing|);
    FiledIsSound(cfg.storage, s.downloads);
    OrderCovers(s.downloads, order);
    var c := Continue(s.downloads, order, room, x.inEndgame, x.outgoing);
    var y := x.(mode := Picking(c.1, target));
    assert x.Hand() == x.outgoing by { NoElements<BlockInfo>(); }
    forall b | Is(cfg.storage, c.0, b, Requested) ensures Is(cfg.storage, s.downloads, b, Requested) || b in y.Hand() {
      ContinueStatus(cfg.storage, s.downloads, order, room, x.inEndgame, x.outgoing, b);
    }
    CoverSession(cfg.storage, s.downloads, c.0, s.sessions, s.lost, s.lost, id, y);
  }

  lemma NoElements<T>()
    ensures Elements<T>([]) == {}
  {
  }

  lemma InsertDownloadCover(cfg: Config, s: State, id: nat)
    requires Formed(cfg, s) && Covered(cfg.storage, s.downloads, s.sessions, s.lost) && MakeEnabled(cfg, s, id, InsertDownload)
    ensures var t := InsertDownloadStep(s, id); Covered(cfg.storage, t.downloads, t.sessions, t.lost)
  {
    hide SessionsOk, DiskOk, TorrentOk, ConfigOk, PickerOk, SessionsBegun, DiskBegun, TorrentBegun, Begun, FiledAt, Filed, InGrid, StatusOf, Covered, FreshlyOpened;
    SessionAt(cfg, s, id);
    var x := s.sessions[id];
    var d := x.mode.download;
    var y := x.(mode := Picking(x.mode.batch, x.mode.target));
    var after := s.downloads[d.index := d];
    forall b | Is(cfg.storage, after, b, Requested) ensures Is(cfg.storage, s.downloads, b, Requested) || b in y.Hand() {
      InsertStatus(cfg.storage, s.downloads, d, x.mode.batch, b);
    }
    CoverSession(cfg.storage, s.downloads, after, s.sessions, s.lost, s.lost, id, y);
  }

  lemma MoreElements<T>(a: seq<T>, b: seq<T>)
    ensures Elements(a) <= Elements(a + b)
  {
    forall x | x in a ensures x in a + b { var j :| 0 <= j < |a| && a[j] == x; assert (a + b)[j] == x; }
  }

  lemma PickPieceCover(cfg: Config, s: State, id: nat)
    requires Formed(cfg, s) && Covered(cfg.storage, s.downloads, s.sessions, s.lost) && MakeEnabled(cfg, s, id, PickPiece)
    ensures var t := PickPieceStep(cfg, s, id, FirstPickable(s.picker, 0).value); Covered(cfg.storage, t.downloads, t.sessions, t.lost)
  {
    hide SessionsOk, DiskOk, TorrentOk, ConfigOk, SessionsBegun, DiskBegun, TorrentBegun, Begun, Filed, Covered, PickBlocks, MissingSet, FreeSet, Elements;
    var x := s.sessions[id];
    var i := FirstPickable(s.picker, 0).value;
    var pick := PickBlocks(NewDownload(i, cfg.storage.PieceLen(i)), RoomLeft(x), x.inEndgame, x.outgoing);
    MoreElements(x.mode.batch, pick.1);
    SameCover(cfg.storage, s.downloads, s.sessions, s.lost, id, x.(mode := Opening(x.mode.batch + pick.1, x.mode.target, pick.0)));
  }

  lemma StartSendingCover(s: StorageInfo, t: State, id: nat)
    requires Covered(s, t.downloads, t.sessions, t.lost) && id in t.sessions && t.sessions[id].mode.Picking?
    ensures var u := StartSendingStep(t, id); Covered(s, u.downloads, u.sessions, u.lost)
  {
    hide Covered, Elements;
    SameCover(s, t.downloads, t.sessions, t.lost, id, StartSendingStep(t, id).sessions[id]);
  }

  lemma SendRequestCover(s: StorageInfo, t: State, id: nat)
    requires Covered(s, t.downloads, t.sessions, t.lost) && id in t.sessions && t.sessions[id].mode.Sending? && t.sessions[id].mode.batch != []
    ensures var u := SendRequestStep(t, id); Covered(s, u.downloads, u.sessions, u.lost)
  {
    hide Covered, Elements;
    HandSplit(t.sessions[id].mode.batch);
    SameCover(s, t.downloads, t.sessions, t.lost, id, SendRequestStep(t, id).sessions[id]);
  }

  lemma VanishCover(s: StorageInfo, t: State, id: nat)
    requires Covered(s, t.downloads, t.sessions, t.lost) && id in t.sessions
    ensures var u := VanishStep(t, id); Covered(s, u.downloads, u.sessions, u.lost)
  {
    hide Covered, Session.Hand;
    CoverSession(s, t.downloads, t.downloads, t.sessions, t.lost, VanishStep(t, id).lost, id, VanishStep(t, id).sessions[id]);
  }

  /** What the failing session forgets is lost. */
  lemma FailSendCover(s: StorageInfo, t: State, id: nat)
    requires Covered(s, t.downloads, t.sessions, t.lost) && id in t.sessions && t.sessions[id].mode.Sending? && t.sessions[id].mode.batch != []
    ensures var u := FailSendStep(t, id); Covered(s, u.downloads, u.sessions, u.lost)
  {
    hide Covered, Elements;
    var batch := t.sessions[id].mode.batch;
    HandSplit(batch);
    if !t.heard {
      VanishCover(s, t, id);
      return;
    }
    CoverSession(s, t.downloads, t.downloads, t.sessions, t.lost, FailSendStep(t, id).lost, id, FailSendStep(t, id).sessions[id]);
  }

  lemma EndSendingCover(s: StorageInfo, t: State, id: nat)
    requires Covered(s, t.downloads, t.sessions, t.lost) && id in t.sessions && t.sessions[id].mode.Sending? && t.sessions[id].mode.batch == []
    ensures var u := SetMode(t, id, Idle); Covered(s, u.downloads, u.sessions, u.lost)
  {
    hide Covered;
    NoElements<BlockInfo>();
    SameCover(s, t.downloads, t.sessions, t.lost, id, SetMode(t, id, Idle).sessions[id]);
  }

  lemma FreeOneCover(cfg: Config, s: State, id: nat, block: BlockInfo)
    requires Formed(cfg, s) && Covered(cfg.storage, s.downloads, s.sessions, s.lost) && PeerEnabled(cfg, s, id, FreeOne(block))
    ensures var t := FreeOneStep(s, id, block); Covered(cfg.storage, t.downloads, t.sessions, t.lost)
  {
    hide SessionsOk, DiskOk, TorrentOk, ConfigOk, PickerOk, SessionsBegun, DiskBegun, TorrentBegun, Begun, Filed, Covered, InGrid, StatusOf, SetStatus;
    SessionAt(cfg, s, id);
    var x := s.sessions[id];
    var y := x.(outgoing := x.outgoing - {block});
    var after := SetStatus(s.downloads, block, Free);
    forall b | InGrid(cfg.storage, b) ensures Is(cfg.storage, after, b, Requested) ==> Is(cfg.storage, s.downloads, b, Requested) && b != block {
      SetStatusAt(cfg.storage, s.downloads, block, Free, b);
    }
    CoverSession(cfg.storage, s.downloads, after, s.sessions, s.lost, s.lost - {block}, id, y);
  }

  lemma MarkBlockCover(cfg: Config, s: State, id: nat)
    requires Formed(cfg, s) && Covered(cfg.storage, s.downloads, s.sessions, s.lost) && PeerEnabled(cfg, s, id, MarkBlock)
    ensures var t := MarkBlockStep(s, id); Covered(cfg.storage, t.downloads, t.sessions, t.lost)
  {
    hide SessionsOk, DiskOk, TorrentOk, ConfigOk, PickerOk, SessionsBegun, DiskBegun, TorrentBegun, Begun, Filed, Covered, InGrid, StatusOf, SetStatus;
    SessionAt(cfg, s, id);
    var x := s.sessions[id];
    var block := x.mode.block;
    var t := MarkBlockStep(s, id);
    forall b | InGrid(cfg.storage, b) ensures Is(cfg.storage, t.downloads, b, Requested) ==> Is(cfg.storage, s.downloads, b, Requested) && b != block {
      SetStatusAt(cfg.storage, s.downloads, block, Received, b);
    }
    CoverSession(cfg.storage, s.downloads, t.downloads, s.sessions, s.lost, t.lost, id, t.sessions[id]);
  }

  lemma HandsOutgoing(x: Session)
    ensures x.outgoing <= x.Hand()
    ensures !x.InMake() && !x.mode.Delivering? ==> x.Hand() == x.outgoing
    ensures x.mode.Delivering? ==> x.Hand() == x.outgoing + {x.mode.block}
  {
    NoElements<BlockInfo>();
  }

  /** A step of one session that leaves the downloads alone and lets go of nothing. */
  lemma PlainPeerCover(cfg: Config, s: State, id: nat, a: PeerStep)
    requires Shape(cfg, s) && Covered(cfg.storage, s.downloads, s.sessions, s.lost) && PeerEnabled(cfg, s, id, a)
    requires !a.MarkBlock? && !a.FreeOne? && !a.Vanish?
    ensures var t := PeerApply(cfg, s, id, a); Covered(cfg.storage, t.downloads, t.sessions, t.lost)
  {
    hide SessionsOk, DiskOk, TorrentOk, ConfigOk, Filed, Covered, Elements, InGrid, MissingSet, FreeSet, Register, Interesting, MarkBlockStep, FreeOneStep, Session.Hand;
    var t := PeerApply(cfg, s, id, a);
    assert t.downloads == s.downloads && t.lost == s.lost && t.sessions == s.sessions[id := t.sessions[id]];
    HandsOutgoing(t.sessions[id]);
    if id in s.sessions { HandsOutgoing(s.sessions[id]); }
    SameCover(cfg.storage, s.downloads, s.sessions, s.lost, id, t.sessions[id]);
  }

  lemma PeerCover(cfg: Config, s: State, id: nat, a: PeerStep)
    requires Formed(cfg, s) && Covered(cfg.storage, s.downloads, s.sessions, s.lost) && PeerEnabled(cfg, s, id, a)
    ensures var t := PeerApply(cfg, s, id, a); Covered(cfg.storage, t.downloads, t.sessions, t.lost)
  {
    hide SessionsOk, DiskOk, TorrentOk, ConfigOk, SessionsBegun, DiskBegun, TorrentBegun, Begun, Filed, Covered, InGrid, MissingSet, FreeSet,
      MarkBlockStep, FreeOneStep, BlockStep, BitfieldStep, HaveStep, HandBlockStep, EndDrainStep, TakeCommandStep, SetMode, SetSession;
    match a
    case MarkBlock => MarkBlockCover(cfg, s, id);
    case FreeOne(block) => FreeOneCover(cfg, s, id, block);
    case Vanish(_) => VanishCover(cfg.storage, s, id);
    case _ => PlainPeerCover(cfg, s, id, a);
  }

  lemma BroadcastHand(sessions: SessionMap, c: Command, id: nat)
    requires id in sessions
    ensures Broadcast(sessions, c)[id].Hand() == sessions[id].Hand() && Broadcast(sessions, c)[id].mode == sessions[id].mode
  {
  }

  lemma BroadcastCover(s: StorageInfo, ds: DownloadMap, sessions: SessionMap, lost: set<BlockInfo>, c: Command)
    requires Covered(s, ds, sessions, lost)
    ensures Covered(s, ds, Broadcast(sessions, c), lost)
  {
    hide Is, Session.Hand, Broadcast;
    BroadcastKeys(sessions, c);
    forall b | Is(s, ds, b, Requested) ensures Held(Broadcast(sessions, c), lost, b) {
      assert Held(sessions, lost, b);
      if b !in lost {
        var k :| HeldBy(sessions, k, b);
        BroadcastHand(sessions, c, k);
        assert HeldBy(Broadcast(sessions, c), k, b);
      }
    }
  }

  lemma BroadcastKeys(sessions: SessionMap, c: Command)
    ensures Broadcast(sessions, c).Keys == sessions.Keys
  {
  }

  /** Taking a completion leaves statuses as they are, or makes them free or absent. */
  lemma CompletionStatus(s: State, b: BlockInfo)
    requires s.torrent.queue != []
    ensures var t := TakeCompletionStep(s);
      && (StatusOf(t.downloads, b) == StatusOf(s.downloads, b) || StatusOf(t.downloads, b) == None || StatusOf(t.downloads, b) == Some(Free))
      && (b.pieceIndex == s.torrent.queue[0].index ==> StatusOf(t.downloads, b) == None || StatusOf(t.downloads, b) == Some(Free))
  {
  }

  lemma HeldElsewhere(sessions: SessionMap, lost: set<BlockInfo>, p: nat, b: BlockInfo)
    requires Held(sessions, lost, b) && b.pieceIndex != p
    ensures Held(sessions, Elsewhere(lost, p), b)
  {
  }

  lemma CoreCover(cfg: Config, s: State, a: CoreStep)
    requires Formed(cfg, s) && Covered(cfg.storage, s.downloads, s.sessions, s.lost) && CoreEnabled(cfg, s, a)
    ensures var t := CoreApply(cfg, s, a); Covered(cfg.storage, t.downloads, t.sessions, t.lost)
  {
    hide SessionsOk, DiskOk, TorrentOk, ConfigOk, SessionsBegun, DiskBegun, TorrentBegun, Begun, Filed, InGrid, StatusOf, MissingSet, FreeSet, Held,
      Enqueue, Assemble, Scatter, Broadcast;
    var t := CoreApply(cfg, s, a);
    if a.TakeCompletion? {
      forall b | Is(cfg.storage, t.downloads, b, Requested) ensures Held(t.sessions, t.lost, b) {
        CompletionStatus(s, b);
        assert Is(cfg.storage, s.downloads, b, Requested);
        HeldElsewhere(s.sessions, s.lost, s.torrent.queue[0].index, b);
      }
    } else if a.RegisterPiece? {
      BroadcastCover(cfg.storage, s.downloads, s.sessions, s.lost, Command(s.torrent.retiring.value, t.torrent.inEndgame));
    }
  }

  // Keeping received blocks moving

  lemma HandedSet(sessions: SessionMap, id: nat, x: Session, b: BlockInfo)
    requires Handed(sessions, b)
    requires HandedBy(sessions, id, b) ==> x.mode.Handing? && x.mode.block == b
    ensures Handed(sessions[id := x], b)
  {
    var k :| HandedBy(sessions, k, b);
    assert HandedBy(sessions[id := x], k, b);
  }

  /** A session that makes nothing received and hands on nothing leaves the received blocks moving. */
  lemma FlowSession(s: StorageInfo, ds: DownloadMap, after: DownloadMap, sessions: SessionMap, d: Disk, queue: seq<PieceCompletion>, id: nat, x: Session)
    requires Unstuck(s, ds, sessions, d, queue) && (id in sessions ==> !sessions[id].mode.Handing?)
    requires forall b :: Is(s, after, b, Received) ==> Is(s, ds, b, Received) || (x.mode.Handing? && x.mode.block == b)
    ensures Unstuck(s, after, sessions[id := x], d, queue)
  {
    hide Is, Queued, InBuffer, Flushing, Reported, Handed;
    forall b | Is(s, after, b, Received) ensures InFlight(sessions[id := x], d, queue, b) {
      if x.mode.Handing? && x.mode.block == b {
        NowHanded(sessions, id, x, b);
      } else if Handed(sessions, b) {
        HandedSet(sessions, id, x, b);
      }
    }
  }

  lemma NowHanded(sessions: SessionMap, id: nat, x: Session, b: BlockInfo)
    requires x.mode.Handing? && x.mode.block == b
    ensures Handed(sessions[id := x], b)
  {
    assert HandedBy(sessions[id := x], id, b);
  }

  lemma MakeFlow(cfg: Config, s: State, id: nat, a: MakeStep)
    requires Formed(cfg, s) && Unstuck(cfg.storage, s.downloads, s.sessions, s.disk, s.torrent.queue) && MakeEnabled(cfg, s, id, a)
    ensures var t := MakeApply(cfg, s, id, a); Unstuck(cfg.storage, t.downloads, t.sessions, t.disk, t.torrent.queue)
  {
    hide SessionsOk, DiskOk, TorrentOk, ConfigOk, SessionsBegun, DiskBegun, TorrentBegun, Begun, Filed, Unstuck, InGrid, StatusOf, MissingSet, FreeSet,
      Continue, OrderOf, PickBlocks, Elements, FreshlyOpened;
    var t := MakeApply(cfg, s, id, a);
    var x := s.sessions[id];
    if a.StartRequests? {
      FiledIsSound(cfg.storage, s.downloads);
      OrderCovers(s.downloads, a.order);
      forall b | Is(cfg.storage, t.downloads, b, Received) ensures Is(cfg.storage, s.downloads, b, Received) {
        ContinueStatus(cfg.storage, s.downloads, a.order, Room(Some(a.target), |x.outgoing|), x.inEndgame, x.outgoing, b);
      }
    } else if a.InsertDownload? {
      SessionAt(cfg, s, id);
      forall b | Is(cfg.storage, t.downloads, b, Received) ensures Is(cfg.storage, s.downloads, b, Received) {
        InsertStatus(cfg.storage, s.downloads, x.mode.download, x.mode.batch, b);
      }
    }
    FlowSession(cfg.storage, s.downloads, t.downloads, s.sessions, s.disk, s.torrent.queue, id, t.sessions[id]);
  }

  lemma QueueSnoc(queue: seq<WriteBlock>, w: WriteBlock, b: BlockInfo)
    ensures Queued(queue, b) ==> Queued(queue + [w], b)
    ensures Queued(queue + [w], w.block)
  {
    if Queued(queue, b) {
      var k :| 0 <= k < |queue| && queue[k].block == b;
      assert (queue + [w])[k].block == b;
    }
    assert (queue + [w])[|queue|] == w;
  }

  lemma HandBlockFlow(cfg: Config, s: State, id: nat)
    requires Formed(cfg, s) && Unstuck(cfg.storage, s.downloads, s.sessions, s.disk, s.torrent.queue) && PeerEnabled(cfg, s, id, HandBlock)
    ensures var t := HandBlockStep(s, id); Unstuck(cfg.storage, t.downloads, t.sessions, t.disk, t.torrent.queue)
  {
    hide SessionsOk, DiskOk, TorrentOk, ConfigOk, PickerOk, SessionsBegun, DiskBegun, TorrentBegun, Begun, Filed, Is, Queued, InBuffer, Flushing, Reported, Handed;
    var t := HandBlockStep(s, id);
    var m := s.sessions[id].mode;
    forall b | Is(cfg.storage, t.downloads, b, Received) ensures InFlight(t.sessions, t.disk, t.torrent.queue, b) {
      QueueSnoc(s.disk.queue, WriteBlock(m.block, m.data), b);
      if b != m.block && Handed(s.sessions, b) {
        HandedSet(s.sessions, id, t.sessions[id], b);
      }
    }
  }

  lemma PeerFlow(cfg: Config, s: State, id: nat, a: PeerStep)
    requires Formed(cfg, s) && Unstuck(cfg.storage, s.downloads, s.sessions, s.disk, s.torrent.queue) && PeerEnabled(cfg, s, id, a)
    ensures var t := PeerApply(cfg, s, id, a); Unstuck(cfg.storage, t.downloads, t.sessions, t.disk, t.torrent.queue)
  {
    hide SessionsOk, DiskOk, TorrentOk, ConfigOk, SessionsBegun, DiskBegun, TorrentBegun, Begun, Filed, Unstuck, InGrid, StatusOf, SetStatus, MissingSet, FreeSet,
      HandBlockStep;
    var t := PeerApply(cfg, s, id, a);
    if a.HandBlock? {
      HandBlockFlow(cfg, s, id);
    } else {
      if a.MarkBlock? || a.FreeOne? {
        SessionAt(cfg, s, id);
        var block := if a.FreeOne? then a.block else s.sessions[id].mode.block;
        forall b | Is(cfg.storage, t.downloads, b, Received)
          ensures Is(cfg.storage, s.downloads, b, Received) || (t.sessions[id].mode.Handing? && t.sessions[id].mode.block == b)
        {
          SetStatusAt(cfg.storage, s.downloads, block, if a.FreeOne? then Free else Received, b);
        }
      }
      FlowSession(cfg.storage, s.downloads, t.downloads, s.sessions, s.disk, s.torrent.queue, id, t.sessions[id]);
    }
  }

  lemma JobSnoc(jobs: seq<Job>, j: Job, p: nat)
    ensures Flushing(jobs, p) ==> Flushing(jobs + [j], p)
    ensures Flushing(jobs + [j], j.index)
  {
    if Flushing(jobs, p) {
      var k :| 0 <= k < |jobs| && jobs[k].index == p;
      assert (jobs + [j])[k].index == p;
    }
    assert (jobs + [j])[|jobs|] == j;
  }

  lemma QueueTail(queue: seq<WriteBlock>, b: BlockInfo)
    requires queue != [] && Queued(queue, b) && b != queue[0].block
    ensures Queued(queue[1..], b)
  {
    var k :| 0 <= k < |queue| && queue[k].block == b;
    assert queue[1..][k - 1].block == b;
  }

  lemma BufferNow(s: StorageInfo, d: Disk, b: BlockInfo)
    requires d.queue != [] && InGrid(s, d.queue[0].block) && InGrid(s, b)
    ensures var w := d.queue[0];
      var p := w.block.pieceIndex;
      var m := Enqueue(Buffered(d, p), w.block.offset, w.data);
      && InBuffer(d.buffer[p := m], w.block)
      && (InBuffer(d.buffer, b) ==> InBuffer(d.buffer[p := m], b))
      && (InBuffer(d.buffer, b) && b.pieceIndex != p ==> InBuffer(d.buffer - {p}, b))
  {
  }

  /** Writing a block to the buffer keeps it, and completing the piece turns the buffer into a job. */
  lemma WriteToDiskFlow(cfg: Config, s: State)
    requires Formed(cfg, s) && Unstuck(cfg.storage, s.downloads, s.sessions, s.disk, s.torrent.queue) && CoreEnabled(cfg, s, WriteToDisk)
    ensures var t := WriteToDiskStep(cfg, s); Unstuck(cfg.storage, t.downloads, t.sessions, t.disk, t.torrent.queue)
  {
    hide SessionsOk, BufferOk, JobsOk, TorrentOk, PickerOk, SessionsBegun, DiskBegun, TorrentBegun, Begun, Filed, Queued, InBuffer, Flushing, Reported, Handed,
      InGrid, StatusOf, StorageInfo.Valid, Enqueue, BlockCount;
    var w := s.disk.queue[0];
    var p := w.block.pieceIndex;
    assert WriteOk(cfg.storage, w);
    var t := WriteToDiskStep(cfg, s);
    var m := Enqueue(Buffered(s.disk, p), w.block.offset, w.data);
    forall b | Is(cfg.storage, t.downloads, b, Received) ensures InFlight(t.sessions, t.disk, t.torrent.queue, b) {
      BufferNow(cfg.storage, s.disk, b);
      JobSnoc(s.disk.jobs, Job(p, m), b.pieceIndex);
      if b != w.block && Queued(s.disk.queue, b) {
        QueueTail(s.disk.queue, b);
      }
    }
  }

  lemma JobOut(jobs: seq<Job>, k: nat, p: nat)
    requires k < |jobs| && Flushing(jobs, p) && jobs[k].index != p
    ensures Flushing(jobs[..k] + jobs[k + 1..], p)
  {
    var i :| 0 <= i < |jobs| && jobs[i].index == p;
    var rest := jobs[..k] + jobs[k + 1..];
    assert rest[if i < k then i else i - 1] == jobs[i];
  }

  lemma ReportSnoc(queue: seq<PieceCompletion>, c: PieceCompletion, p: nat)
    ensures Reported(queue, p) ==> Reported(queue + [c], p)
    ensures Reported(queue + [c], c.index)
  {
    if Reported(queue, p) {
      var k :| 0 <= k < |queue| && queue[k].index == p;
      assert (queue + [c])[k].index == p;
    }
    assert (queue + [c])[|queue|] == c;
  }

  lemma ReportTail(queue: seq<PieceCompletion>, p: nat)
    requires queue != [] && Reported(queue, p) && p != queue[0].index
    ensures Reported(queue[1..], p)
  {
    var k :| 0 <= k < |queue| && queue[k].index == p;
    assert queue[1..][k - 1].index == p;
  }

  lemma FinishJobFlow(cfg: Config, s: State, k: nat)
    requires Formed(cfg, s) && Unstuck(cfg.storage, s.downloads, s.sessions, s.disk, s.torrent.queue) && CoreEnabled(cfg, s, FinishJob(k))
    ensures var t := FinishJobStep(cfg, s, k); Unstuck(cfg.storage, t.downloads, t.sessions, t.disk, t.torrent.queue)
  {
    hide SessionsOk, DiskOk, TorrentOk, PickerOk, ConfigOk, SessionsBegun, DiskBegun, TorrentBegun, Begun, Filed, Queued, InBuffer, Flushing, Reported, Handed,
      Is, Assemble, Scatter, Hashes;
    var j := s.disk.jobs[k];
    var t := FinishJobStep(cfg, s, k);
    var c := t.torrent.queue[|s.torrent.queue|];
    assert t.torrent.queue == s.torrent.queue + [c] && c.index == j.index;
    forall b | Is(cfg.storage, t.downloads, b, Received) ensures InFlight(t.sessions, t.disk, t.torrent.queue, b) {
      ReportSnoc(s.torrent.queue, c, b.pieceIndex);
      if b.pieceIndex != j.index && Flushing(s.disk.jobs, b.pieceIndex) {
        JobOut(s.disk.jobs, k, b.pieceIndex);
      }
    }
  }

  lemma TakeCompletionFlow(cfg: Config, s: State)
    requires Formed(cfg, s) && Unstuck(cfg.storage, s.downloads, s.sessions, s.disk, s.torrent.queue) && CoreEnabled(cfg, s, TakeCompletion)
    ensures var t := TakeCompletionStep(s); Unstuck(cfg.storage, t.downloads, t.sessions, t.disk, t.torrent.queue)
  {
    hide SessionsOk, DiskOk, TorrentOk, PickerOk, ConfigOk, SessionsBegun, DiskBegun, TorrentBegun, Begun, Filed, Queued, InBuffer, Flushing, Reported, Handed,
      StatusOf, InGrid;
    var t := TakeCompletionStep(s);
    forall b | Is(cfg.storage, t.downloads, b, Received) ensures InFlight(t.sessions, t.disk, t.torrent.queue, b) {
      CompletionStatus(s, b);
      assert Is(cfg.storage, s.downloads, b, Received);
      if Reported(s.torrent.queue, b.pieceIndex) {
        ReportTail(s.torrent.queue, b.pieceIndex);
      }
    }
  }

  lemma RegisterPieceFlow(cfg: Config, s: State)
    requires Formed(cfg, s) && Unstuck(cfg.storage, s.downloads, s.sessions, s.disk, s.torrent.queue) && CoreEnabled(cfg, s, RegisterPiece)
    ensures var t := RegisterPieceStep(s); Unstuck(cfg.storage, t.downloads, t.sessions, t.disk, t.torrent.queue)
  {
    hide SessionsOk, DiskOk, ConfigOk, SessionsBegun, DiskBegun, TorrentBegun, Begun, Filed, Queued, InBuffer, Flushing, Reported, Handed,
      StatusOf, InGrid, Is, Broadcast, MissingSet, FreeSet;
    var t := RegisterPieceStep(s);
    if !s.picker.own[s.torrent.retiring.value] {
      forall b | Is(cfg.storage, t.downloads, b, Received) ensures InFlight(t.sessions, t.disk, t.torrent.queue, b) {
        if Handed(s.sessions, b) {
          BroadcastHanded(s.sessions, Command(s.torrent.retiring.value, t.torrent.inEndgame), b);
        }
      }
    }
  }

  lemma BroadcastHanded(sessions: SessionMap, c: Command, b: BlockInfo)
    requires Handed(sessions, b)
    ensures Handed(Broadcast(sessions, c), b)
  {
    var k :| HandedBy(sessions, k, b);
    assert HandedBy(Broadcast(sessions, c), k, b);
  }

  lemma DropFlow(cfg: Config, s: State)
    requires Unstuck(cfg.storage, s.downloads, s.sessions, s.disk, s.torrent.queue)
    ensures var t := s.(heard := false); Unstuck(cfg.storage, t.downloads, t.sessions, t.disk, t.torrent.queue)
  {
  }

  lemma CoreFlow(cfg: Config, s: State, a: CoreStep)
    requires Formed(cfg, s) && Unstuck(cfg.storage, s.downloads, s.sessions, s.disk, s.torrent.queue) && CoreEnabled(cfg, s, a)
    ensures var t := CoreApply(cfg, s, a); Unstuck(cfg.storage, t.downloads, t.sessions, t.disk, t.torrent.queue)
  {
    hide Shape, Touched, Unstuck, WriteToDiskStep, FinishJobStep, TakeCompletionStep, RegisterPieceStep;
    match a
    case WriteToDisk => WriteToDiskFlow(cfg, s);
    case FinishJob(k) => FinishJobFlow(cfg, s, k);
    case TakeCompletion => TakeCompletionFlow(cfg, s);
    case RegisterPiece => RegisterPieceFlow(cfg, s);
    case DropAlerts => DropFlow(cfg, s);
  }

  lemma MakeLive(cfg: Config, s: State, id: nat, a: MakeStep)
    requires Formed(cfg, s) && Live(cfg, s) && MakeEnabled(cfg, s, id, a)
    ensures Live(cfg, MakeApply(cfg, s, id, a))
  {
    hide Touched, SessionsOk, DiskOk, TorrentOk, ConfigOk, Filed, Unstuck, Covered, StartRequestsStep, InsertDownloadStep, PickPieceStep, StartSendingStep, SendRequestStep, FailSendStep;
    MakeFlow(cfg, s, id, a);
    match a
    case StartRequests(target, order) => StartRequestsCover(cfg, s, id, target, order);
    case PickPiece => PickPieceCover(cfg, s, id);
    case InsertDownload => InsertDownloadCover(cfg, s, id);
    case StartSending => StartSendingCover(cfg.storage, s, id);
    case SendRequest => SendRequestCover(cfg.storage, s, id);
    case FailSend => FailSendCover(cfg.storage, s, id);
    case EndSending => EndSendingCover(cfg.storage, s, id);
  }

  lemma StepKeepsLive(cfg: Config, s: State, a: Action)
    requires Formed(cfg, s) && Live(cfg, s) && Enabled(cfg, s, a)
    ensures Live(cfg, Apply(cfg, s, a))
  {
    hide Shape, Touched, Unstuck, Covered, MakeEnabled, PeerEnabled, CoreEnabled, MakeApply, PeerApply, CoreApply;
    match a
    case Make(id, m) => MakeLive(cfg, s, id, m);
    case Peer(id, p) => PeerCover(cfg, s, id, p); PeerFlow(cfg, s, id, p);
    case Core(c) => CoreCover(cfg, s, c); CoreFlow(cfg, s, c);
  }

  lemma InitLive(cfg: Config)
    ensures Live(cfg, Init(cfg))
  {
  }
}
