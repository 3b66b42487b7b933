/** What it takes for a piece to be flushed twice: a session must free a block that has been received. In
    every other run each piece is flushed and found valid at most once, and the torrent task does not
    panic (cratetorrent/src/download.rs, cratetorrent/src/disk/io/torrent.rs, cratetorrent/src/torrent.rs). */
module SwarmOnce {
  import opened Wrappers
  import opened Blocks
  import opened Storage
  import opened FlatDisk
  import opened PieceBuffer
  import opened Downloads
  import opened PiecePicking
  import opened Requests
  import opened PeerSession
  import opened Swarm
  import opened SwarmShape
  import opened SwarmBooks
  import opened SwarmLiveness
  import opened SwarmIntegrity
  import opened SwarmRuns
  import opened SwarmPanic

  /** A session drops its request for a block of piece q that somebody has delivered meanwhile, and frees
      it. */
  predicate FreesReceived(s: State, a: Action, q: nat) {
    a.Peer? && a.peer.FreeOne? && a.peer.block.pieceIndex == q && StatusOf(s.downloads, a.peer.block) == Some(Received)
  }

  /** No step of the run does that. */
  ghost predicate Gentle(cfg: Config, s: State, acts: seq<Action>, q: nat)
    decreases |acts|
  {
    acts == []
    || (Shape(cfg, s) && Enabled(cfg, s, acts[0]) && !FreesReceived(s, acts[0], q) && Gentle(cfg, Apply(cfg, s, acts[0]), acts[1..], q))
  }

  predicate QueuedAt(queue: seq<WriteBlock>, k: int, b: BlockInfo) { 0 <= k < |queue| && queue[k].block == b }

  predicate FlushingAt(jobs: seq<Job>, k: int, p: nat) { 0 <= k < |jobs| && jobs[k].index == p }

  predicate ReportedAt(queue: seq<PieceCompletion>, k: int, p: nat) { 0 <= k < |queue| && queue[k].index == p }

  /** Between its session and the disk task's buffer. */
  ghost predicate Somewhere(s: State, b: BlockInfo) {
    Handed(s.sessions, b) || Queued(s.disk.queue, b) || InBuffer(s.disk.buffer, b)
  }

  /** The block is in one place at most. */
  ghost predicate Single(s: State, b: BlockInfo) {
    && (forall i, j :: HandedBy(s.sessions, i, b) && HandedBy(s.sessions, j, b) ==> i == j)
    && (forall k, l :: QueuedAt(s.disk.queue, k, b) && QueuedAt(s.disk.queue, l, b) ==> k == l)
    && !(Handed(s.sessions, b) && Queued(s.disk.queue, b))
    && !(Handed(s.sessions, b) && InBuffer(s.disk.buffer, b))
    && !(Queued(s.disk.queue, b) && InBuffer(s.disk.buffer, b))
  }

  ghost predicate Under(s: State, p: nat) { Flushing(s.disk.jobs, p) || Reported(s.torrent.queue, p) }

  predicate Done(s: State, p: nat) { s.torrent.retiring == Some(p) || (p < |s.picker.own| && s.picker.own[p]) }

  /** The piece is flushed, reported, being retired, and owned one after the other. */
  ghost predicate Once(s: State, p: nat) {
    && (forall k, l :: FlushingAt(s.disk.jobs, k, p) && FlushingAt(s.disk.jobs, l, p) ==> k == l)
    && (forall k, l :: ReportedAt(s.torrent.queue, k, p) && ReportedAt(s.torrent.queue, l, p) ==> k == l)
    && !(Flushing(s.disk.jobs, p) && Reported(s.torrent.queue, p))
    && !(Under(s, p) && Done(s, p))
    && !(s.torrent.retiring == Some(p) && p < |s.picker.own| && s.picker.own[p])
  }

  /** Where the block is: received blocks are in exactly one place until the piece is flushed, and then in
      none; others are in none. */
  ghost predicate Placed(cfg: Config, s: State, b: BlockInfo) {
    && (Under(s, b.pieceIndex) || Done(s, b.pieceIndex) ==> !Somewhere(s, b))
    && (!Under(s, b.pieceIndex) && !Done(s, b.pieceIndex) ==> Single(s, b) && (Somewhere(s, b) <==> Is(cfg.storage, s.downloads, b, Received)))
    && (Under(s, b.pieceIndex) ==> Is(cfg.storage, s.downloads, b, Received))
  }

  ghost predicate Tidy(cfg: Config, s: State, q: nat) {
    Once(s, q) && forall b :: InGrid(cfg.storage, b) && b.pieceIndex == q ==> Placed(cfg, s, b)
  }

  /** A step that leaves what is handed over, queued, buffered, flushed, reported and owned, and the received
      blocks of piece q, as they are. */
  ghost predicate Alike(cfg: Config, s: State, t: State, q: nat) {
    && t.disk.queue == s.disk.queue && t.disk.buffer == s.disk.buffer && t.disk.jobs == s.disk.jobs
    && t.torrent.queue == s.torrent.queue && t.torrent.retiring == s.torrent.retiring && t.picker.own == s.picker.own
    && (forall id, b :: HandedBy(t.sessions, id, b) <==> HandedBy(s.sessions, id, b))
    && (forall b :: InGrid(cfg.storage, b) && b.pieceIndex == q ==> (Is(cfg.storage, t.downloads, b, Received) <==> Is(cfg.storage, s.downloads, b, Received)))
  }

  lemma AlikeKeeps(cfg: Config, s: State, t: State, q: nat)
    requires Tidy(cfg, s, q) && Alike(cfg, s, t, q)
    ensures Tidy(cfg, t, q)
  {
    hide Is, HandedBy, InBuffer, Queued, QueuedAt, Flushing, FlushingAt, Reported, ReportedAt, InGrid;
    forall b | InGrid(cfg.storage, b) && b.pieceIndex == q ensures Placed(cfg, t, b) {
      assert Placed(cfg, s, b);
      assert Handed(t.sessions, b) <==> Handed(s.sessions, b);
    }
  }

  // The sessions.

  lemma SameHanded(sessions: SessionMap, id: nat, x: Session)
    requires !x.mode.Handing? && (id in sessions ==> !sessions[id].mode.Handing?)
    ensures forall k, b :: HandedBy(sessions[id := x], k, b) <==> HandedBy(sessions, k, b)
  {
  }

  lemma MakeAlike(cfg: Config, s: State, id: nat, a: MakeStep, q: nat)
    requires Formed(cfg, s) && Books(s) && MakeEnabled(cfg, s, id, a)
    ensures Alike(cfg, s, MakeApply(cfg, s, id, a), q)
  {
    hide Touched, Books, SessionsOk, DiskOk, TorrentOk, ConfigOk, Filed, PickerOk, InGrid, StatusOf, MakeApply, HandedBy, OrderOf, RoomLeft, PickerFree;
    MakeActs(cfg, s, id, a);
    var t := MakeApply(cfg, s, id, a);
    SameHanded(s.sessions, id, t.sessions[id]);
    MakeOwns(cfg, s, id, a);
    forall b | InGrid(cfg.storage, b) && b.pieceIndex == q ensures Is(cfg.storage, t.downloads, b, Received) <==> Is(cfg.storage, s.downloads, b, Received) {
      MakeReceived(cfg, s, id, a, b);
    }
  }

  lemma MakeOwns(cfg: Config, s: State, id: nat, a: MakeStep)
    requires Shape(cfg, s) && MakeEnabled(cfg, s, id, a)
    ensures MakeApply(cfg, s, id, a).picker.own == s.picker.own
  {
    hide SessionsOk, DiskOk, TorrentOk, ConfigOk, Filed, FirstPickable, Continue, OrderOf, Elements, PickBlocks, Asked, Session.Hand, PickerFree, MissingSet, FreeSet;
  }

  lemma MakeReceived(cfg: Config, s: State, id: nat, a: MakeStep, b: BlockInfo)
    requires Formed(cfg, s) && Books(s) && MakeEnabled(cfg, s, id, a) && InGrid(cfg.storage, b)
    ensures Is(cfg.storage, MakeApply(cfg, s, id, a).downloads, b, Received) <==> Is(cfg.storage, s.downloads, b, Received)
  {
    hide Books, SessionsOk, DiskOk, TorrentOk, ConfigOk, PickerOk, SessionsBegun, DiskBegun, TorrentBegun, Begun, Filed, FiledAt, InGrid, StatusOf, OrderOf, Continue,
      PickBlocks, FirstPickable, Elements, Asked, Session.Hand, PickerFree, InsertDownloadStep, FreshlyOpened;
    var x := s.sessions[id];
    if a.StartRequests? {
      FiledIsSound(cfg.storage, s.downloads);
      ContinueStatus(cfg.storage, s.downloads, a.order, Room(Some(a.target), |x.outgoing|), x.inEndgame, x.outgoing, b);
    } else if a.InsertDownload? {
      InsertReceived(cfg, s, id, b);
    }
  }

  lemma InsertReceived(cfg: Config, s: State, id: nat, b: BlockInfo)
    requires Formed(cfg, s) && Books(s) && MakeEnabled(cfg, s, id, InsertDownload) && InGrid(cfg.storage, b)
    ensures Is(cfg.storage, InsertDownloadStep(s, id).downloads, b, Received) <==> Is(cfg.storage, s.downloads, b, Received)
  {
    hide SessionsOk, DiskOk, TorrentOk, ConfigOk, PickerOk, SessionsBegun, DiskBegun, TorrentBegun, Begun, Filed, InGrid, FreshlyOpened,
      OneOpener, AllLanded, EndgameKnown, PickedOnce, PendingSet, RetiringSet;
    SessionAt(cfg, s, id);
    var d := s.sessions[id].mode.download;
    assert d.index in OpeningSet(s.sessions);
    InsertStatus(cfg.storage, s.downloads, d, s.sessions[id].mode.batch, b);
  }

  lemma PlainAlike(cfg: Config, s: State, id: nat, a: PeerStep, q: nat)
    requires Formed(cfg, s) && PeerEnabled(cfg, s, id, a) && !a.MarkBlock? && !a.HandBlock? && !a.FreeOne?
    ensures Alike(cfg, s, PeerApply(cfg, s, id, a), q)
  {
    hide Touched, SessionsOk, DiskOk, TorrentOk, ConfigOk, Filed, InGrid, StatusOf, Register, Interesting, Asked, Session.Hand, HandedBy, PickerFree, MissingSet, FreeSet,
      MarkBlockStep, HandBlockStep, FreeOneStep;
    var t := PeerApply(cfg, s, id, a);
    PeerActs(cfg, s, id, a);
    SameHanded(s.sessions, id, t.sessions[id]);
  }

  lemma FreeAlike(cfg: Config, s: State, id: nat, block: BlockInfo, q: nat)
    requires Formed(cfg, s) && PeerEnabled(cfg, s, id, FreeOne(block)) && (block.pieceIndex == q ==> StatusOf(s.downloads, block) != Some(Received))
    ensures Alike(cfg, s, FreeOneStep(s, id, block), q)
  {
    hide SessionsOk, DiskOk, TorrentOk, ConfigOk, PickerOk, SessionsBegun, DiskBegun, TorrentBegun, Begun, Filed, InGrid, StatusOf, SetStatus, HandedBy;
    SessionAt(cfg, s, id);
    var t := FreeOneStep(s, id, block);
    SameHanded(s.sessions, id, t.sessions[id]);
    forall b | InGrid(cfg.storage, b) && b.pieceIndex == q ensures Is(cfg.storage, t.downloads, b, Received) <==> Is(cfg.storage, s.downloads, b, Received) {
      SetStatusAt(cfg.storage, s.downloads, block, Free, b);
    }
  }

  /** A piece with a block that is not received is neither on its way to being owned nor owned. */
  lemma NotYet(cfg: Config, s: State, b: BlockInfo)
    requires Formed(cfg, s) && Books(s) && Tidy(cfg, s, b.pieceIndex) && InGrid(cfg.storage, b)
    requires StatusOf(s.downloads, b).Some? && StatusOf(s.downloads, b) != Some(Received)
    ensures !Under(s, b.pieceIndex) && !Done(s, b.pieceIndex) && Single(s, b) && !Somewhere(s, b)
  {
    hide SessionsOk, DiskOk, TorrentOk, ConfigOk, SessionsBegun, DiskBegun, TorrentBegun, Begun, Filed, Flushing, Reported, Somewhere, Single, OpeningSet,
      OneOpener, AllLanded, EndgameKnown, PickedOnce;
    assert Placed(cfg, s, b) && Once(s, b.pieceIndex);
    assert b.pieceIndex in s.downloads;
    assert b.pieceIndex in PendingSet(s.picker);
  }

  lemma MarkOnce(cfg: Config, s: State, id: nat, q: nat)
    requires Formed(cfg, s) && Books(s) && Tidy(cfg, s, q) && PeerEnabled(cfg, s, id, MarkBlock)
    ensures Tidy(cfg, MarkBlockStep(s, id), q)
  {
    hide Books, SessionsOk, DiskOk, TorrentOk, ConfigOk, PickerOk, SessionsBegun, DiskBegun, TorrentBegun, Begun, Filed, InGrid, StatusOf, SetStatus,
      Queued, InBuffer, Flushing, FlushingAt, Reported, ReportedAt;
    SessionAt(cfg, s, id);
    var t := MarkBlockStep(s, id);
    var block := s.sessions[id].mode.block;
    if StatusOf(s.downloads, block) == None || StatusOf(s.downloads, block) == Some(Received) {
      SameHanded(s.sessions, id, t.sessions[id]);
      AlikeKeeps(cfg, s, t, q);
    } else {
      if block.pieceIndex == q { NotYet(cfg, s, block); }
        forall b | InGrid(cfg.storage, b) && b.pieceIndex == q ensures Placed(cfg, t, b) {
        assert Placed(cfg, s, b);
        SetStatusAt(cfg.storage, s.downloads, block, Received, b);
        if b == block { HandedNow(s.sessions, t.sessions, id, b); } else { HandedOther(s.sessions, t.sessions, id, b); }
      }
    }
  }

  lemma HandedNow(sessions: SessionMap, after: SessionMap, id: nat, b: BlockInfo)
    requires id in after && after == sessions[id := after[id]] && !Handed(sessions, b) && HandedBy(after, id, b)
    ensures Handed(after, b) && forall k :: HandedBy(after, k, b) ==> k == id
  {
    forall k | HandedBy(after, k, b) ensures k == id {
      if k != id { assert HandedBy(sessions, k, b); }
    }
  }

  /** The session takes up or hands on another block. */
  lemma HandedOther(sessions: SessionMap, after: SessionMap, id: nat, b: BlockInfo)
    requires id in after && after == sessions[id := after[id]] && !HandedBy(sessions, id, b) && !HandedBy(after, id, b)
    ensures forall k :: HandedBy(after, k, b) <==> HandedBy(sessions, k, b)
    ensures Handed(after, b) <==> Handed(sessions, b)
  {
    forall k ensures HandedBy(after, k, b) <==> HandedBy(sessions, k, b) {}
    if k :| HandedBy(sessions, k, b) { assert HandedBy(after, k, b); }
    if k :| HandedBy(after, k, b) { assert HandedBy(sessions, k, b); }
  }

  /** The only session that has the block hands it on. */
  lemma HandedGone(sessions: SessionMap, after: SessionMap, id: nat, b: BlockInfo)
    requires id in after && after == sessions[id := after[id]] && HandedBy(sessions, id, b) && !HandedBy(after, id, b)
    requires forall i, j :: HandedBy(sessions, i, b) && HandedBy(sessions, j, b) ==> i == j
    ensures !Handed(after, b)
  {
    forall k ensures !HandedBy(after, k, b) { if HandedBy(after, k, b) { assert HandedBy(sessions, k, b); } }
  }

  lemma QueuedLast(queue: seq<WriteBlock>, w: WriteBlock, b: BlockInfo)
    ensures Queued(queue + [w], b) <==> Queued(queue, b) || w.block == b
    ensures forall k :: QueuedAt(queue + [w], k, b) <==> QueuedAt(queue, k, b) || (k == |queue| && w.block == b)
  {
    if Queued(queue, b) {
      var k :| 0 <= k < |queue| && queue[k].block == b;
      assert (queue + [w])[k].block == b;
    }
    assert (queue + [w])[|queue|] == w;
  }

  lemma HandOnce(cfg: Config, s: State, id: nat, q: nat)
    requires Formed(cfg, s) && Tidy(cfg, s, q) && PeerEnabled(cfg, s, id, HandBlock)
    ensures Tidy(cfg, HandBlockStep(s, id), q)
  {
    hide SessionsOk, DiskOk, TorrentOk, ConfigOk, PickerOk, SessionsBegun, DiskBegun, TorrentBegun, Begun, Filed, InGrid, Is,
      Queued, QueuedAt, InBuffer, Flushing, FlushingAt, Reported, ReportedAt;
    SessionAt(cfg, s, id);
    var t := HandBlockStep(s, id);
    var m := s.sessions[id].mode;
    forall b | InGrid(cfg.storage, b) && b.pieceIndex == q ensures Placed(cfg, t, b) {
      assert Placed(cfg, s, b);
      QueuedLast(s.disk.queue, WriteBlock(m.block, m.data), b);
      if b == m.block {
        assert HandedBy(s.sessions, id, b);
        NotAt(s.disk.queue, b);
        HandedGone(s.sessions, t.sessions, id, b);
      } else {
        HandedOther(s.sessions, t.sessions, id, b);
      }
    }
  }

  lemma NotAt(queue: seq<WriteBlock>, b: BlockInfo)
    ensures !Queued(queue, b) ==> forall k :: !QueuedAt(queue, k, b)
  {
  }

  // The disk task and its jobs.

  lemma QueuedFirst(queue: seq<WriteBlock>, b: BlockInfo)
    requires queue != [] && forall k, l :: QueuedAt(queue, k, b) && QueuedAt(queue, l, b) ==> k == l
    ensures Queued(queue[1..], b) <==> Queued(queue, b) && queue[0].block != b
    ensures forall k, l :: QueuedAt(queue[1..], k, b) && QueuedAt(queue[1..], l, b) ==> k == l
  {
    var rest := queue[1..];
    forall k, l | QueuedAt(rest, k, b) && QueuedAt(rest, l, b) ensures k == l {
      assert QueuedAt(queue, k + 1, b) && QueuedAt(queue, l + 1, b);
    }
    if queue[0].block == b {
      forall k ensures !(0 <= k < |rest| && rest[k].block == b) { assert QueuedAt(queue, 0, b) && (QueuedAt(rest, k, b) ==> QueuedAt(queue, k + 1, b)); }
    } else if k :| 0 <= k < |queue| && queue[k].block == b {
      assert rest[k - 1].block == b;
    }
    if k :| 0 <= k < |rest| && rest[k].block == b { assert queue[k + 1].block == b; }
  }

  /** Two blocks of one piece's grid have different offsets. */
  lemma OffsetsApart(s: StorageInfo, a: BlockInfo, b: BlockInfo)
    requires InGrid(s, a) && InGrid(s, b) && a.pieceIndex == b.pieceIndex && a != b
    ensures a.offset != b.offset
  {
  }

  lemma BufferGrows(s: StorageInfo, d: Disk, b: BlockInfo)
    requires d.queue != [] && InGrid(s, d.queue[0].block) && InGrid(s, b)
    ensures var w := d.queue[0]; var p := w.block.pieceIndex;
      InBuffer(d.buffer[p := Enqueue(Buffered(d, p), w.block.offset, w.data)], b) <==> InBuffer(d.buffer, b) || b == w.block
  {
    var w := d.queue[0];
    if b.pieceIndex == w.block.pieceIndex && b != w.block { OffsetsApart(s, b, w.block); }
  }

  lemma BufferLeaves(buffer: map<nat, BlockMap>, p: nat, b: BlockInfo)
    ensures InBuffer(buffer - {p}, b) <==> InBuffer(buffer, b) && b.pieceIndex != p
  {
  }

  /** The piece's last block arrived, so every block of it is in the buffer or just arriving. */
  lemma AllIn(cfg: Config, s: State, b: BlockInfo)
    requires Formed(cfg, s) && CoreEnabled(cfg, s, WriteToDisk) && InGrid(cfg.storage, b)
    requires var w := s.disk.queue[0]; var p := w.block.pieceIndex;
      b.pieceIndex == p && |Enqueue(Buffered(s.disk, p), w.block.offset, w.data)| == BlockCount(cfg.storage.PieceLen(p))
    ensures InBuffer(s.disk.buffer, b) || b == s.disk.queue[0].block
  {
    hide SessionsOk, JobsOk, TorrentOk, PickerOk, Touched, Filed, StorageInfo.Valid, GridShaped, BlockCount, BufferOk, GridOffsets;
    var w := s.disk.queue[0];
    var p := w.block.pieceIndex;
    assert WriteOk(cfg.storage, w);
    var m := Enqueue(Buffered(s.disk, p), w.block.offset, w.data);
    BufferedShape(cfg.storage, s.disk, p);
    EnqueueShape(cfg.storage, Buffered(s.disk, p), w);
    FullByCounting(m, cfg.storage.PieceLen(p));
    OffsetOnGrid(cfg.storage, b);
    if b != w.block { OffsetsApart(cfg.storage, b, w.block); }
  }

  lemma JobLast(jobs: seq<Job>, j: Job, p: nat)
    ensures Flushing(jobs + [j], p) <==> Flushing(jobs, p) || j.index == p
    ensures forall k :: FlushingAt(jobs + [j], k, p) <==> FlushingAt(jobs, k, p) || (k == |jobs| && j.index == p)
    ensures !Flushing(jobs, p) ==> forall k :: !FlushingAt(jobs, k, p)
  {
    if k :| 0 <= k < |jobs| && jobs[k].index == p { assert (jobs + [j])[k].index == p; }
    assert (jobs + [j])[|jobs|] == j;
  }

  lemma WriteOnce(cfg: Config, s: State, q: nat)
    requires Formed(cfg, s) && Tidy(cfg, s, q) && CoreEnabled(cfg, s, WriteToDisk)
    ensures Tidy(cfg, WriteToDiskStep(cfg, s), q)
  {
    hide SessionsOk, BufferOk, JobsOk, TorrentOk, PickerOk, SessionsBegun, DiskBegun, TorrentBegun, Begun, Filed, InGrid, Is, StorageInfo.Valid, BlockCount,
      Handed, HandedBy, Queued, QueuedAt, InBuffer, Flushing, FlushingAt, Reported, ReportedAt, Enqueue;
    var w := s.disk.queue[0];
    var p := w.block.pieceIndex;
    assert WriteOk(cfg.storage, w);
    PieceOfGrid(cfg.storage, w.block);
    var t := WriteToDiskStep(cfg, s);
    var m := Enqueue(Buffered(s.disk, p), w.block.offset, w.data);
    var full := |m| == BlockCount(cfg.storage.PieceLen(p));
    HeadQueued(s.disk.queue);
    assert p == q ==> Placed(cfg, s, w.block);
    JobLast(s.disk.jobs, Job(p, m), q);
    forall b | InGrid(cfg.storage, b) && b.pieceIndex == q ensures Placed(cfg, t, b) {
      assert Placed(cfg, s, b);
      JobLast(s.disk.jobs, Job(p, m), b.pieceIndex);
      BufferGrows(cfg.storage, s.disk, b);
      BufferLeaves(s.disk.buffer, p, b);
      NotAt(s.disk.queue, b);
      QueuedFirst(s.disk.queue, b);
      if full && b.pieceIndex == p { AllIn(cfg, s, b); }
    }
  }

  lemma HeadQueued(queue: seq<WriteBlock>)
    requires queue != []
    ensures Queued(queue, queue[0].block)
  {
  }

  /** A job that is the only one of its piece leaves none. */
  lemma JobGone(jobs: seq<Job>, k: nat, p: nat)
    requires k < |jobs| && forall i, j :: FlushingAt(jobs, i, p) && FlushingAt(jobs, j, p) ==> i == j
    ensures var rest := jobs[..k] + jobs[k + 1..];
      && (Flushing(rest, p) <==> Flushing(jobs, p) && jobs[k].index != p)
      && forall i, j :: FlushingAt(rest, i, p) && FlushingAt(rest, j, p) ==> i == j
  {
    var rest := jobs[..k] + jobs[k + 1..];
    forall i, j | FlushingAt(rest, i, p) && FlushingAt(rest, j, p) ensures i == j {
      assert FlushingAt(jobs, if i < k then i else i + 1, p) && FlushingAt(jobs, if j < k then j else j + 1, p);
    }
    if i :| 0 <= i < |rest| && rest[i].index == p {
      assert FlushingAt(jobs, if i < k then i else i + 1, p);
      assert jobs[k].index == p ==> FlushingAt(jobs, k, p);
    }
    if i :| 0 <= i < |jobs| && jobs[i].index == p && jobs[k].index != p {
      assert rest[if i < k then i else i - 1] == jobs[i];
    }
  }

  lemma ReportLast(queue: seq<PieceCompletion>, c: PieceCompletion, p: nat)
    ensures Reported(queue + [c], p) <==> Reported(queue, p) || c.index == p
    ensures forall k :: ReportedAt(queue + [c], k, p) <==> ReportedAt(queue, k, p) || (k == |queue| && c.index == p)
    ensures !Reported(queue, p) ==> forall k :: !ReportedAt(queue, k, p)
  {
    if k :| 0 <= k < |queue| && queue[k].index == p { assert (queue + [c])[k].index == p; }
    assert (queue + [c])[|queue|] == c;
  }

  lemma FinishOnce(cfg: Config, s: State, k: nat, q: nat)
    requires Formed(cfg, s) && Tidy(cfg, s, q) && CoreEnabled(cfg, s, FinishJob(k))
    ensures Tidy(cfg, FinishJobStep(cfg, s, k), q)
  {
    hide SessionsOk, QueueOk, BufferOk, TorrentOk, PickerOk, SessionsBegun, DiskBegun, TorrentBegun, Begun, Filed, InGrid, Is, StorageInfo.Valid, GridShaped,
      Single, Handed, Queued, InBuffer, Flushing, FlushingAt, Reported, ReportedAt, Assemble, Scatter, Hashes;
    var j := s.disk.jobs[k];
    assert JobOk(cfg.storage, j);
    var t := FinishJobStep(cfg, s, k);
    var c := t.torrent.queue[|s.torrent.queue|];
    assert t.torrent.queue == s.torrent.queue + [c] && c.index == j.index;
    AtFlushing(s.disk.jobs, k);
    JobGone(s.disk.jobs, k, q);
    ReportLast(s.torrent.queue, c, q);
    forall b | InGrid(cfg.storage, b) && b.pieceIndex == q ensures Placed(cfg, t, b) {
      assert Placed(cfg, s, b);
      assert Single(t, b) <==> Single(s, b) by { SameSingle(s, t, b); }
    }
  }

  lemma PieceOfGrid(s: StorageInfo, b: BlockInfo)
    requires InGrid(s, b)
    ensures b.pieceIndex < s.pieceCount
  {
  }

  lemma AtFlushing(jobs: seq<Job>, k: nat)
    requires k < |jobs|
    ensures Flushing(jobs, jobs[k].index)
  {
  }

  lemma SameSingle(s: State, t: State, b: BlockInfo)
    requires t.sessions == s.sessions && t.disk.queue == s.disk.queue && t.disk.buffer == s.disk.buffer
    ensures Single(t, b) <==> Single(s, b)
  {
    hide Handed, HandedBy, Queued, QueuedAt, InBuffer;
  }

  // The torrent task.

  lemma ReportGone(queue: seq<PieceCompletion>, p: nat)
    requires queue != [] && forall i, j :: ReportedAt(queue, i, p) && ReportedAt(queue, j, p) ==> i == j
    ensures var rest := queue[1..];
      && (Reported(rest, p) <==> Reported(queue, p) && queue[0].index != p)
      && forall i, j :: ReportedAt(rest, i, p) && ReportedAt(rest, j, p) ==> i == j
  {
    var rest := queue[1..];
    forall i, j | ReportedAt(rest, i, p) && ReportedAt(rest, j, p) ensures i == j {
      assert ReportedAt(queue, i + 1, p) && ReportedAt(queue, j + 1, p);
    }
    if i :| 0 <= i < |rest| && rest[i].index == p {
      assert ReportedAt(queue, i + 1, p);
      assert queue[0].index == p ==> ReportedAt(queue, 0, p);
    }
    if i :| 0 <= i < |queue| && queue[i].index == p && queue[0].index != p {
      assert rest[i - 1] == queue[i];
    }
  }

  lemma HeadReported(queue: seq<PieceCompletion>)
    requires queue != []
    ensures Reported(queue, queue[0].index)
  {
  }

  lemma TakeReceived(s: StorageInfo, t: State, b: BlockInfo)
    requires t.torrent.queue != [] && InGrid(s, b)
    ensures b.pieceIndex != t.torrent.queue[0].index ==> (Is(s, TakeCompletionStep(t).downloads, b, Received) <==> Is(s, t.downloads, b, Received))
    ensures b.pieceIndex == t.torrent.queue[0].index ==> !Is(s, TakeCompletionStep(t).downloads, b, Received)
  {
  }

  lemma TakeOnce(cfg: Config, s: State, q: nat)
    requires Formed(cfg, s) && Tidy(cfg, s, q) && CoreEnabled(cfg, s, TakeCompletion)
    ensures Tidy(cfg, TakeCompletionStep(s), q)
  {
    hide SessionsOk, DiskOk, PickerOk, ConfigOk, SessionsBegun, DiskBegun, TorrentBegun, Begun, Filed, InGrid, Once, Placed, TakeCompletionStep;
    var t := TakeCompletionStep(s);
    var c := s.torrent.queue[0];
    TakePiece(s, q);
    forall b | InGrid(cfg.storage, b) && b.pieceIndex == q ensures Placed(cfg, t, b) {
      assert Placed(cfg, s, b);
      TakePlaced(cfg, s, b);
    }
  }

  lemma TakePiece(s: State, q: nat)
    requires s.torrent.queue != [] && s.torrent.retiring.None? && Once(s, q)
    ensures Once(TakeCompletionStep(s), q)
    ensures Under(TakeCompletionStep(s), q) <==> Under(s, q) && q != s.torrent.queue[0].index
    ensures Done(TakeCompletionStep(s), q) <==> Done(s, q) || (q == s.torrent.queue[0].index && s.torrent.queue[0].isValid)
  {
    hide Flushing, FlushingAt, Reported, ReportedAt;
    HeadReported(s.torrent.queue);
    ReportGone(s.torrent.queue, q);
  }

  lemma TakePlaced(cfg: Config, s: State, b: BlockInfo)
    requires InGrid(cfg.storage, b) && s.torrent.queue != [] && s.torrent.retiring.None? && Once(s, b.pieceIndex) && Placed(cfg, s, b)
    ensures Placed(cfg, TakeCompletionStep(s), b)
  {
    hide Is, InGrid, Single, Handed, Queued, InBuffer, Once, Under, Done;
    var t := TakeCompletionStep(s);
    TakePiece(s, b.pieceIndex);
    TakeReceived(cfg.storage, s, b);
    SameSingle(s, t, b);
    NowhereSingle(s, b);
    HeadUnder(s);
  }

  lemma HeadUnder(s: State)
    requires s.torrent.queue != []
    ensures Under(s, s.torrent.queue[0].index)
  {
  }

  lemma NowhereSingle(s: State, b: BlockInfo)
    ensures !Somewhere(s, b) ==> Single(s, b)
  {
    hide InBuffer;
    if !Somewhere(s, b) {
      forall i ensures !HandedBy(s.sessions, i, b) {}
      NotAt(s.disk.queue, b);
    }
  }

  lemma BroadcastModes(sessions: SessionMap, c: Command)
    ensures forall k, b :: HandedBy(Broadcast(sessions, c), k, b) <==> HandedBy(sessions, k, b)
    ensures forall b :: Handed(Broadcast(sessions, c), b) <==> Handed(sessions, b)
  {
    var after := Broadcast(sessions, c);
    forall k, b ensures HandedBy(after, k, b) <==> HandedBy(sessions, k, b) {}
    forall b ensures Handed(after, b) <==> Handed(sessions, b) {
      if k :| HandedBy(sessions, k, b) { assert HandedBy(after, k, b); }
      if k :| HandedBy(after, k, b) { assert HandedBy(sessions, k, b); }
    }
  }

  lemma RegisterOnce(cfg: Config, s: State, q: nat)
    requires Formed(cfg, s) && Tidy(cfg, s, q) && CoreEnabled(cfg, s, RegisterPiece)
    ensures Tidy(cfg, RegisterPieceStep(s), q)
  {
    hide SessionsOk, DiskOk, ConfigOk, SessionsBegun, DiskBegun, TorrentBegun, Begun, Filed, InGrid, Is,
      Handed, HandedBy, Queued, QueuedAt, InBuffer, Flushing, FlushingAt, Reported, ReportedAt, Broadcast, MissingSet, FreeSet, PickerFree;
    var p := s.torrent.retiring.value;
    var t := RegisterPieceStep(s);
    BroadcastModes(s.sessions, Command(p, t.torrent.inEndgame));
    forall b | InGrid(cfg.storage, b) && b.pieceIndex == q ensures Placed(cfg, t, b) { assert Placed(cfg, s, b); }
  }

  // Runs.

  lemma StepOnce(cfg: Config, s: State, a: Action, q: nat)
    requires Good(cfg, s) && Tidy(cfg, s, q) && Enabled(cfg, s, a) && !FreesReceived(s, a, q)
    ensures Tidy(cfg, Apply(cfg, s, a), q)
  {
    hide Shape, Touched, Books, Live, Sane, Tidy, MakeEnabled, PeerEnabled, CoreEnabled, MakeApply, PeerApply, CoreApply, Alike;
    match a
    case Make(id, m) => MakeOnce(cfg, s, id, m, q);
    case Peer(id, p) => PeerOnce(cfg, s, id, p, q);
    case Core(c) => CoreOnce(cfg, s, c, q);
  }

  lemma MakeOnce(cfg: Config, s: State, id: nat, m: MakeStep, q: nat)
    requires Formed(cfg, s) && Books(s) && Tidy(cfg, s, q) && MakeEnabled(cfg, s, id, m)
    ensures Tidy(cfg, MakeApply(cfg, s, id, m), q)
  {
    hide Shape, Touched, Books, Tidy, MakeEnabled, MakeApply, Alike;
    MakeAlike(cfg, s, id, m, q);
    AlikeKeeps(cfg, s, MakeApply(cfg, s, id, m), q);
  }

  lemma PeerOnce(cfg: Config, s: State, id: nat, p: PeerStep, q: nat)
    requires Formed(cfg, s) && Books(s) && Tidy(cfg, s, q) && PeerEnabled(cfg, s, id, p) && !FreesReceived(s, Peer(id, p), q)
    ensures Tidy(cfg, PeerApply(cfg, s, id, p), q)
  {
    hide Shape, Touched, Books, Tidy, PeerEnabled, Alike, StatusOf, MarkBlockStep, HandBlockStep, FreeOneStep, BlockStep, BitfieldStep, HaveStep, EndDrainStep,
      VanishStep, TakeCommandStep, SetMode, SetSession;
    match p
    case MarkBlock => MarkOnce(cfg, s, id, q);
    case HandBlock => HandOnce(cfg, s, id, q);
    case FreeOne(block) => FreeAlike(cfg, s, id, block, q); AlikeKeeps(cfg, s, PeerApply(cfg, s, id, p), q);
    case _ => PlainAlike(cfg, s, id, p, q); AlikeKeeps(cfg, s, PeerApply(cfg, s, id, p), q);
  }

  lemma CoreOnce(cfg: Config, s: State, c: CoreStep, q: nat)
    requires Formed(cfg, s) && Tidy(cfg, s, q) && CoreEnabled(cfg, s, c)
    ensures Tidy(cfg, CoreApply(cfg, s, c), q)
  {
    hide Touched, SessionsOk, DiskOk, TorrentOk, ConfigOk, Filed, PickerOk, Tidy, MissingSet, FreeSet, Enqueue, Assemble, Scatter, Hashes, Broadcast, PickerFree;
    match c
    case WriteToDisk => WriteOnce(cfg, s, q);
    case FinishJob(k) => FinishOnce(cfg, s, k, q);
    case TakeCompletion => TakeOnce(cfg, s, q);
    case RegisterPiece => RegisterOnce(cfg, s, q);
    case DropAlerts => DropOnce(cfg, s, q);
  }

  lemma DropOnce(cfg: Config, s: State, q: nat)
    requires Tidy(cfg, s, q)
    ensures Tidy(cfg, s.(heard := false), q)
  {
    hide Is, InGrid, HandedBy, InBuffer, Flushing, Reported;
    AlikeKeeps(cfg, s, s.(heard := false), q);
  }

  lemma {:induction false} RunOnce(cfg: Config, s: State, acts: seq<Action>, t: State, q: nat)
    requires Good(cfg, s) && Tidy(cfg, s, q) && Run(cfg, s, acts, t) && Gentle(cfg, s, acts, q)
    ensures Tidy(cfg, t, q)
    decreases |acts|
  {
    hide Good, Shape, Enabled, Apply, Tidy, FreesReceived;
    if acts != [] {
      StepKeepsGood(cfg, s, acts[0]);
      StepOnce(cfg, s, acts[0], q);
      RunOnce(cfg, Apply(cfg, s, acts[0]), acts[1..], t, q);
    }
  }

  lemma InitOnce(cfg: Config, q: nat)
    ensures Tidy(cfg, Init(cfg), q)
  {
    var s := Init(cfg);
    forall p: nat ensures !Under(s, p) && Once(s, p) {}
    forall b ensures !Somewhere(s, b) && Single(s, b) {}
  }

  lemma {:induction false} NoReports(queue: seq<PieceCompletion>, p: nat)
    requires !Reported(queue, p)
    ensures ValidReports(queue, p) == 0
  {
    if queue != [] {
      assert queue[0].index != p;
      forall k | 0 <= k < |queue[1..]| ensures queue[1..][k].index != p { assert queue[k + 1].index != p; }
      NoReports(queue[1..], p);
    }
  }

  lemma {:induction false} OneReport(queue: seq<PieceCompletion>, p: nat)
    requires forall i, j :: ReportedAt(queue, i, p) && ReportedAt(queue, j, p) ==> i == j
    ensures ValidReports(queue, p) <= 1
  {
    if queue != [] {
      ReportGone(queue, p);
      if queue[0].index == p { NoReports(queue[1..], p); } else { OneReport(queue[1..], p); }
    }
  }

  lemma AccountedOnce(s: State, p: nat)
    requires Once(s, p)
    ensures Accounted(s, p) <= 1
  {
    hide ReportedAt, FlushingAt, Flushing;
    OneReport(s.torrent.queue, p);
    if !Reported(s.torrent.queue, p) { NoReports(s.torrent.queue, p); }
  }

  /** In every run in which no session frees a received block of piece q, that piece is flushed and found
      valid at most once. */
  lemma FlushedOnce(cfg: Config, acts: seq<Action>, t: State, q: nat)
    requires ConfigOk(cfg) && Run(cfg, Init(cfg), acts, t) && Gentle(cfg, Init(cfg), acts, q)
    ensures FlushCount(cfg, Init(cfg), acts, q) <= 1
  {
    hide Good, Run, Gentle, FlushCount, ConfigOk, Accounted, Once, Placed;
    InitGood(cfg);
    InitOnce(cfg, q);
    RunOnce(cfg, Init(cfg), acts, t, q);
    FlushesAccounted(cfg, acts, t, q);
    AccountedOnce(t, q);
  }

  /** The torrent task panics over a piece of which a session has freed a received block. */
  lemma PanicNeedsFree(cfg: Config, acts: seq<Action>, t: State) returns (q: nat)
    requires ConfigOk(cfg) && Run(cfg, Init(cfg), acts, t) && t.torrent.panicked
    ensures PanicOver(t, q) && !Gentle(cfg, Init(cfg), acts, q)
  {
    hide Good, Run, Gentle, FlushCount, ConfigOk, Accounted, PanicOver;
    q := PanicHas(cfg, Init(cfg), acts, t);
    AccountedTwice(t, q);
    FlushesAccounted(cfg, acts, t, q);
    if Gentle(cfg, Init(cfg), acts, q) { FlushedOnce(cfg, acts, t, q); }
  }
}
