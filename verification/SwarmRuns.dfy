/** What holds in every state of every run of a download that starts with no pieces. */
module SwarmRuns {
  import opened Wrappers
  import opened Blocks
  import opened Storage
  import opened FlatDisk
  import opened PieceBuffer
  import opened Downloads
  import opened PiecePicking
  import opened Requests
  import opened Swarm
  import opened SwarmShape
  import opened SwarmBooks
  import opened SwarmLiveness
  import opened SwarmIntegrity

  ghost predicate Good(cfg: Config, s: State) {
    Formed(cfg, s) && Books(s) && Live(cfg, s) && Sane(cfg, s)
  }

  lemma StepKeepsGood(cfg: Config, s: State, a: Action)
    requires Good(cfg, s) && Enabled(cfg, s, a)
    ensures Good(cfg, Apply(cfg, s, a))
  {
    hide Shape, Touched, Books, Live, Sane, Enabled, Apply;
    StepKeepsForm(cfg, s, a);
    StepKeepsBooks(cfg, s, a);
    StepKeepsLive(cfg, s, a);
    StepKeepsSane(cfg, s, a);
  }

  lemma InitGood(cfg: Config)
    requires ConfigOk(cfg)
    ensures Good(cfg, Init(cfg))
  {
    hide Shape, Touched, Books, Live, Sane, ConfigOk;
    InitFormed(cfg);
    InitBooks(cfg);
    InitLive(cfg);
    InitSane(cfg);
  }

  lemma {:induction false} RunKeepsGood(cfg: Config, s: State, acts: seq<Action>, t: State)
    requires Good(cfg, s) && Run(cfg, s, acts, t)
    ensures Good(cfg, t)
    decreases |acts|
  {
    hide Good, Shape, Enabled, Apply;
    if acts != [] {
      StepKeepsGood(cfg, s, acts[0]);
      RunKeepsGood(cfg, Apply(cfg, s, acts[0]), acts[1..], t);
    }
  }

  /** Some run of a fresh download ends in s. */
  ghost predicate Reachable(cfg: Config, s: State) {
    ConfigOk(cfg) && exists acts :: Run(cfg, Init(cfg), acts, s)
  }

  lemma ReachableGood(cfg: Config, s: State)
    requires Reachable(cfg, s)
    ensures Good(cfg, s)
  {
    hide Good, ConfigOk, Run;
    var acts :| Run(cfg, Init(cfg), acts, s);
    InitGood(cfg);
    RunKeepsGood(cfg, Init(cfg), acts, s);
  }

  /** Integrity: the bytes on disk of an owned piece, across all the files it spans, hash to what the
      metainfo expects. */
  lemma Integrity(cfg: Config, s: State, p: nat)
    requires Reachable(cfg, s) && p < |s.picker.own| && s.picker.own[p]
    ensures ConfigOk(cfg) && p < cfg.storage.pieceCount && |s.disk.files| == |cfg.storage.files|
    ensures var flat := Flat(cfg.storage.files, s.disk.files);
      && |flat| == cfg.storage.downloadLen && cfg.storage.PieceEnd(p) <= |flat|
      && cfg.hash(flat[cfg.storage.PieceOffset(p)..cfg.storage.PieceEnd(p)]) == cfg.expected[p]
  {
    hide Touched, Books, Live, SessionsOk, QueueOk, BufferOk, JobsOk, TorrentOk, Filed, Flat, StorageInfo.Valid, MissingSet, FreeSet, Run;
    ReachableGood(cfg, s);
    RegionFits(cfg.storage, s.disk.files, p);
    assert Vouched(s.picker.own, s.torrent, p);
    assert Intact(cfg, s.disk.files, p);
  }

  /** The block's request is somebody's business: a session that is still alive has it outstanding or
      is about to send it or is just taking it in. */
  ghost predicate Answered(s: State, b: BlockInfo) {
    exists id :: HeldBy(s.sessions, id, b) && !s.sessions[id].mode.Dead?
  }

  lemma HolderAlive(cfg: Config, s: State, id: nat, b: BlockInfo)
    requires Formed(cfg, s) && HeldBy(s.sessions, id, b)
    ensures !s.sessions[id].mode.Dead?
  {
    SessionAt(cfg, s, id);
    NoElements<BlockInfo>();
  }

  /** No orphaned request: a requested block that no live session answers for was forgotten by a session,
      behind a request whose send failed or at an end without cleanup, and has been requested ever since. */
  lemma NoOrphan(cfg: Config, s: State, b: BlockInfo)
    requires Reachable(cfg, s) && Is(cfg.storage, s.downloads, b, Requested)
    ensures Answered(s, b) || b in s.lost
  {
    hide Shape, Touched, Books, Sane, Unstuck, Is, Session.Hand, Run;
    ReachableGood(cfg, s);
    assert Held(s.sessions, s.lost, b);
    if b !in s.lost {
      var id :| HeldBy(s.sessions, id, b);
      HolderAlive(cfg, s, id, b);
    }
  }

  /** The steps that may end with a session forgetting requests. */
  predicate Fails(a: Action) { (a.Make? && a.make.FailSend?) || (a.Peer? && a.peer.Vanish?) }

  lemma NothingLost(cfg: Config, s: State, a: Action)
    requires Shape(cfg, s) && Enabled(cfg, s, a) && !Fails(a)
    ensures Apply(cfg, s, a).lost <= s.lost
  {
    hide SessionsOk, DiskOk, TorrentOk, ConfigOk, Filed, MissingSet, FreeSet, Continue, OrderOf, Elements, PickBlocks, Interesting, SetStatus, InGrid, Enqueue, Broadcast,
      Assemble, Scatter, Hashes, StorageInfo.Valid;
    match a
    case Make(id, m) => {}
    case Peer(id, p) => {}
    case Core(c) => {}
  }

  lemma {:induction false} LostOnlyByFailure(cfg: Config, s: State, acts: seq<Action>, t: State)
    requires Run(cfg, s, acts, t) && forall k :: 0 <= k < |acts| ==> !Fails(acts[k])
    ensures t.lost <= s.lost
    decreases |acts|
  {
    hide Shape, Enabled, Apply, Fails;
    if acts != [] {
      assert !Fails(acts[0]);
      NothingLost(cfg, s, acts[0]);
      LostOnlyByFailure(cfg, Apply(cfg, s, acts[0]), acts[1..], t);
    }
  }

  /** In a run in which every send succeeds and every session that ends cleans up, every requested block
      has its session. */
  lemma NoOrphanWhenSendsSucceed(cfg: Config, acts: seq<Action>, s: State, b: BlockInfo)
    requires ConfigOk(cfg) && Run(cfg, Init(cfg), acts, s) && forall k :: 0 <= k < |acts| ==> !Fails(acts[k])
    requires Is(cfg.storage, s.downloads, b, Requested)
    ensures Answered(s, b)
  {
    hide Answered, Run, Is, ConfigOk, Fails;
    NoOrphan(cfg, s, b);
    LostOnlyByFailure(cfg, Init(cfg), acts, s);
  }

  /** No stalled piece: a received block is on its way to the disk task, in its buffer, or in a flushed
      piece whose completion is outstanding. */
  lemma NoStall(cfg: Config, s: State, b: BlockInfo)
    requires Reachable(cfg, s) && Is(cfg.storage, s.downloads, b, Received)
    ensures InFlight(s.sessions, s.disk, s.torrent.queue, b)
  {
    hide Shape, Touched, Books, Sane, Covered, Is, InFlight, Run;
    ReachableGood(cfg, s);
  }

  /** Something is still to happen to the piece. */
  ghost predicate Moving(s: State, p: nat) {
    || Flushing(s.disk.jobs, p) || Reported(s.torrent.queue, p)
    || exists b :: OnTheWay(s, p, b)
  }

  ghost predicate OnTheWay(s: State, p: nat, b: BlockInfo) {
    b.pieceIndex == p && (Handed(s.sessions, b) || Queued(s.disk.queue, b))
  }

  predicate AllReceived(d: Download) {
    forall i :: 0 <= i < |d.blocks| ==> d.blocks[i].Received?
  }

  /** All blocks received and nothing in flight does not happen: the buffer alone never has the whole
      piece, by counting. */
  lemma NeverAllReceivedAndIdle(cfg: Config, s: State, p: nat)
    requires Reachable(cfg, s) && p in s.downloads && AllReceived(s.downloads[p])
    ensures Moving(s, p)
  {
    hide Touched, Books, Sane, Covered, Handed, Queued, Flushing, Reported, SessionsOk, QueueOk, JobsOk, TorrentOk, Run, Is, StorageInfo.Valid, GridShaped;
    ReachableGood(cfg, s);
    assert FiledAt(cfg.storage, s.downloads[p], p);
    if !Moving(s, p) {
      var len := cfg.storage.PieceLen(p);
      var m := Buffered(s.disk, p);
      BufferedShape(cfg.storage, s.disk, p);
      forall i | 0 <= i < BlockCount(len) ensures i * BLOCK_LEN in m {
        var b := BlockAt(p, len, i);
        IndexInverts(p, len, i);
        IsReceived(cfg, s, p, i);
        NoStall(cfg, s, b);
        assert !OnTheWay(s, p, b);
      }
      FullCount(m, len);
    }
  }

  lemma IsReceived(cfg: Config, s: State, p: nat, i: nat)
    requires Filed(cfg.storage, s.downloads) && p in s.downloads && FiledAt(cfg.storage, s.downloads[p], p)
    requires AllReceived(s.downloads[p]) && i < BlockCount(cfg.storage.PieceLen(p))
    ensures Is(cfg.storage, s.downloads, BlockAt(p, cfg.storage.PieceLen(p), i), Received)
  {
    IndexInverts(p, cfg.storage.PieceLen(p), i);
  }

  lemma FullCount(m: BlockMap, len: nat)
    requires GridShaped(m, len) && forall i :: 0 <= i < BlockCount(len) ==> Has(m, i)
    ensures |m| == BlockCount(len)
  {
    assert m.Keys == GridOffsets(len) by {
      forall o | o in GridOffsets(len) ensures o in m {
        var i :| 0 <= i < BlockCount(len) && i * BLOCK_LEN == o;
        assert Has(m, i);
      }
    }
    CompleteByCounting(m.Keys, len);
  }

  /** `PieceStats` as `build_stats` fills it in. */
  datatype PieceStats = PieceStats(total: int, complete: int, pending: int) {
    predicate IsInEndgame() { pending + complete == total }
    predicate IsSeed() { complete == total }
  }

  function BuildStats(cfg: Config, s: State): PieceStats {
    PieceStats(cfg.storage.pieceCount, cfg.storage.pieceCount - s.picker.missing, |s.downloads|)
  }

  lemma FilingCounts(pending: set<nat>, keys: set<nat>, opening: set<nat>)
    requires Filing(pending, keys, opening, {})
    ensures |pending| == |keys| + |opening|
  {
  }

  /** Nobody is in the middle of opening a piece while the picker's lock is free, and never more than one. */
  ghost predicate OneAtATime(sessions: SessionMap) {
    forall a, b :: a in sessions && b in sessions && sessions[a].mode.Opening? && sessions[b].mode.Opening? ==> a == b
  }

  lemma StepKeepsOne(cfg: Config, s: State, a: Action)
    requires Shape(cfg, s) && Enabled(cfg, s, a) && OneAtATime(s.sessions)
    ensures OneAtATime(Apply(cfg, s, a).sessions)
  {
    hide PickerOk, SessionsOk, DiskOk, ConfigOk, Filed, MakeApply, PeerApply, PeerEnabled, FinishJobStep, WriteToDiskStep, MissingSet, FreeSet, RoomLeft, OrderOf;
    match a
    case Make(id, m) => MakeActs(cfg, s, id, m);
    case Peer(id, p) => {
      PeerActs(cfg, s, id, p);
    }
    case Core(c) => CoreActs(cfg, s, c);
  }

  lemma {:induction false} RunKeepsOne(cfg: Config, s: State, acts: seq<Action>, t: State)
    requires OneAtATime(s.sessions) && Run(cfg, s, acts, t)
    ensures OneAtATime(t.sessions)
    decreases |acts|
  {
    hide Shape, Enabled, Apply, OneAtATime;
    if acts != [] {
      StepKeepsOne(cfg, s, acts[0]);
      RunKeepsOne(cfg, Apply(cfg, s, acts[0]), acts[1..], t);
    }
  }

  lemma OpeningCount(sessions: SessionMap)
    requires OneAtATime(sessions)
    ensures |OpeningSet(sessions)| <= 1 && (OpeningSet(sessions) == {} <==> PickerFree(sessions))
  {
    if id :| id in sessions && sessions[id].mode.Opening? {
      assert sessions[id].mode.download.index in OpeningSet(sessions);
      assert OpeningSet(sessions) == {sessions[id].mode.download.index};
    } else {
      assert OpeningSet(sessions) == {};
    }
  }

  /** The counters are what they say they count. Whenever the picker can be read, the downloads are exactly
      the pieces pending and unowned; while its lock is held from a pick to the filing of the download,
      the one piece picked is missing among them. So the statistics, which count the downloads without
      that lock, say endgame exactly when every piece is picked and none is between the two. */
  lemma StatsAgree(cfg: Config, s: State)
    requires Reachable(cfg, s) && s.torrent.retiring.None?
    ensures s.picker.SameShape() && s.picker.missing == |MissingSet(s.picker)| && s.picker.free == |FreeSet(s.picker)|
    ensures PickerFree(s.sessions) ==> s.downloads.Keys == PendingSet(s.picker) && |s.downloads| == s.picker.missing - s.picker.free
    ensures !PickerFree(s.sessions) ==> s.downloads.Keys < PendingSet(s.picker) && |s.downloads| == s.picker.missing - s.picker.free - 1
    ensures BuildStats(cfg, s).IsInEndgame() <==> s.picker.free == 0 && PickerFree(s.sessions)
    ensures BuildStats(cfg, s).IsSeed() <==> MissingSet(s.picker) == {}
  {
    hide Touched, Live, Sane, OneOpener, AllLanded, EndgameKnown, PickedOnce, SessionsOk, DiskOk, TorrentOk, Run, Filed, StorageInfo.Valid,
      MissingSet, FreeSet, PendingSet, OpeningSet, PickerFree, OneAtATime;
    ReachableGood(cfg, s);
    ReachableOne(cfg, s);
    OpeningCount(s.sessions);
    PendingCount(s.picker);
    FilingCounts(PendingSet(s.picker), s.downloads.Keys, OpeningSet(s.sessions));
    assert |s.downloads| == |s.downloads.Keys|;
  }

  lemma ReachableOne(cfg: Config, s: State)
    requires Reachable(cfg, s)
    ensures OneAtATime(s.sessions)
  {
    hide Run, ConfigOk;
    var acts :| Run(cfg, Init(cfg), acts, s);
    RunKeepsOne(cfg, Init(cfg), acts, s);
  }

  /** When the torrent task finds that endgame has begun, the missing pieces are exactly those under
      download. */
  lemma EndgameBegins(cfg: Config, s: State)
    requires Reachable(cfg, s) && Shape(cfg, s) && Enabled(cfg, s, Core(RegisterPiece))
    requires var t := Apply(cfg, s, Core(RegisterPiece)); !s.torrent.inEndgame && t.torrent.inEndgame
    ensures var t := Apply(cfg, s, Core(RegisterPiece)); t.picker.SameShape() && t.downloads.Keys == MissingSet(t.picker) != {}
  {
    hide Shape, Enabled, Apply, Good, Run;
    ReachableGood(cfg, s);
    var t := Apply(cfg, s, Core(RegisterPiece));
    StepKeepsGood(cfg, s, Core(RegisterPiece));
    Registered(cfg, s);
    AllFiled(cfg, t);
  }

  lemma Registered(cfg: Config, s: State)
    requires Shape(cfg, s) && Enabled(cfg, s, Core(RegisterPiece))
    requires !s.torrent.inEndgame && Apply(cfg, s, Core(RegisterPiece)).torrent.inEndgame
    ensures var t := Apply(cfg, s, Core(RegisterPiece)); PickerFree(t.sessions) && t.torrent.retiring.None? && t.picker.missing > 0 && t.picker.free == 0
  {
    hide SessionsOk, DiskOk, ConfigOk, Filed, MissingSet, FreeSet;
  }

  lemma AllFiled(cfg: Config, s: State)
    requires Good(cfg, s) && PickerFree(s.sessions) && s.torrent.retiring.None? && s.picker.missing > 0 && s.picker.free == 0
    ensures s.picker.SameShape() && s.downloads.Keys == MissingSet(s.picker) != {}
  {
    hide Touched, Live, Sane, OneOpener, AllLanded, EndgameKnown, PickedOnce, SessionsOk, DiskOk, TorrentOk, Filed, OpeningSet, MissingSet, FreeSet, PendingSet;
    NoneOpening(s.sessions);
    AllPending(s.picker);
  }

  lemma NoneOpening(sessions: SessionMap)
    requires PickerFree(sessions)
    ensures OpeningSet(sessions) == {}
  {
  }

  lemma AllPending(p: Picker)
    requires p.Valid() && p.free == 0
    ensures PendingSet(p) == MissingSet(p) && |MissingSet(p)| == p.missing
  {
    assert FreeSet(p) == {};
    forall i | i in MissingSet(p) ensures i in PendingSet(p) { assert i !in FreeSet(p); }
  }

  /** What only ever goes one way. */
  ghost predicate Later(s: State, t: State) {
    && (s.torrent.inEndgame ==> t.torrent.inEndgame)
    && t.picker.free <= s.picker.free
    && |s.picker.own| == |t.picker.own| && (forall p :: 0 <= p < |s.picker.own| ==> s.picker.own[p] ==> t.picker.own[p])
    && s.picks <= t.picks
  }

  lemma StepIsLater(cfg: Config, s: State, a: Action)
    requires Shape(cfg, s) && Enabled(cfg, s, a)
    ensures Later(s, Apply(cfg, s, a))
  {
    hide SessionsOk, DiskOk, TorrentOk, ConfigOk, Filed, PickerOk, MakeEnabled, PeerEnabled, CoreEnabled, MakeApply, PeerApply, CoreApply;
    match a
    case Make(id, m) => MakeActs(cfg, s, id, m);
    case Peer(id, p) => PeerActs(cfg, s, id, p);
    case Core(c) => CoreIsLater(cfg, s, c);
  }

  lemma CoreIsLater(cfg: Config, s: State, c: CoreStep)
    requires Shape(cfg, s) && CoreEnabled(cfg, s, c)
    ensures Later(s, CoreApply(cfg, s, c))
  {
    hide SessionsOk, DiskOk, ConfigOk, Filed, MissingSet, FreeSet, Enqueue, Broadcast, Assemble, Scatter, Hashes, PickerFree;
  }

  lemma LaterStill(s: State, t: State, u: State)
    requires Later(s, t) && Later(t, u)
    ensures Later(s, u)
  {
  }

  lemma {:induction false} RunIsLater(cfg: Config, s: State, acts: seq<Action>, t: State)
    requires Run(cfg, s, acts, t)
    ensures Later(s, t)
    decreases |acts|
  {
    hide Shape, Enabled, Apply, Later;
    if acts == [] {
      LaterSame(s);
    } else {
      var next := Apply(cfg, s, acts[0]);
      StepIsLater(cfg, s, acts[0]);
      RunIsLater(cfg, next, acts[1..], t);
      LaterStill(s, next, t);
    }
  }

  lemma LaterSame(s: State)
    ensures Later(s, s)
  {
  }

  /** Believing in endgame: a session's flag, or a command on its way to one. */
  ghost predicate Believes(s: State, id: nat) {
    id in s.sessions && !FlagsOf(s.sessions[id], false)
  }

  /** Endgame safety. Whoever believes in endgame, the torrent is in it; then it stays in it, every
      piece stays picked, and no piece is picked in any later state. */
  lemma EndgameSafety(cfg: Config, s: State, acts: seq<Action>, t: State, id: nat)
    requires Reachable(cfg, s) && Run(cfg, s, acts, t)
    requires s.torrent.inEndgame || Believes(s, id)
    ensures t.torrent.inEndgame && t.picker.free == 0
    ensures Good(cfg, t) && forall k :: k in t.sessions ==> !Enabled(cfg, t, Make(k, PickPiece))
  {
    hide Touched, Live, Sane, Filing, OneOpener, AllLanded, PickedOnce, SessionsOk, DiskOk, TorrentOk, Run, Filed, StorageInfo.Valid, MissingSet, PendingSet, OpeningSet;
    ReachableGood(cfg, s);
    RunKeepsGood(cfg, s, acts, t);
    RunIsLater(cfg, s, acts, t);
    if Believes(s, id) {
      assert FlagsOf(s.sessions[id], s.torrent.inEndgame);
    }
    NothingPickable(t.picker);
  }

  lemma NothingPickable(p: Picker)
    requires p.Valid() && p.free == 0
    ensures FirstPickable(p, 0).None?
  {
    assert forall i :: 0 <= i < |p.own| && p.IsFree(i) ==> i in FreeSet(p);
  }

  /** No piece is picked twice in a whole run, and the pieces picked are those pending. */
  lemma PickedAtMostOnce(cfg: Config, s: State)
    requires Reachable(cfg, s)
    ensures Unrepeated(s.picks) && Elements(s.picks) == Begun(s.picker)
  {
    hide Shape, Touched, Live, Sane, Filing, OneOpener, AllLanded, EndgameKnown, Run, Unrepeated, Elements, Begun;
    ReachableGood(cfg, s);
  }

  /** A choked session has no request outstanding and makes none. */
  lemma ChokedHasNone(cfg: Config, s: State, id: nat)
    requires Reachable(cfg, s) && id in s.sessions && s.sessions[id].isChoked
    ensures s.sessions[id].outgoing == {} && s.sessions[id].Batch() == []
  {
    hide Touched, Books, Live, Sane, PickerOk, DiskOk, TorrentOk, ConfigOk, Filed, Run;
    ReachableGood(cfg, s);
    assert SessionOk(cfg.storage, s.sessions[id]);
  }

  /** While a session makes requests, what it has outstanding and what it has picked together never
      exceed the target, or what was outstanding before where that is more; and the batch holds
      distinct blocks of the grid. */
  lemma BatchBounded(cfg: Config, s: State, id: nat)
    requires Reachable(cfg, s) && id in s.sessions && s.sessions[id].InMake()
    ensures var x := s.sessions[id];
      && Unrepeated(x.Batch()) && (forall b :: b in x.Batch() ==> InGrid(cfg.storage, b))
      && |x.outgoing| + |x.Batch()| <= if x.mode.Sending? then x.mode.limit else Max(x.mode.target, |x.outgoing|)
  {
    hide Touched, Books, Live, Sane, PickerOk, DiskOk, TorrentOk, ConfigOk, Filed, Run, Unrepeated, InGrid;
    ReachableGood(cfg, s);
    assert SessionOk(cfg.storage, s.sessions[id]);
  }

  /** Only a flush of the piece itself touches its bytes on disk. */
  lemma OthersLeaveRegion(cfg: Config, s: State, a: Action, p: nat)
    requires Reachable(cfg, s) && Shape(cfg, s) && Enabled(cfg, s, a) && p < cfg.storage.pieceCount
    requires !(a.Core? && a.core.FinishJob? && s.disk.jobs[a.core.k].index == p)
    ensures var t := Apply(cfg, s, a);
      && |s.disk.files| == |t.disk.files| == |cfg.storage.files|
      && |Flat(cfg.storage.files, s.disk.files)| == |Flat(cfg.storage.files, t.disk.files)| == cfg.storage.downloadLen
      && cfg.storage.PieceEnd(p) <= cfg.storage.downloadLen
      && Region(cfg.storage, t.disk.files, p) == Region(cfg.storage, s.disk.files, p)
  {
    hide SessionsOk, QueueOk, BufferOk, JobsOk, TorrentOk, Filed, PickerOk, Run, Region, Flat, StorageInfo.Valid, MakeEnabled, PeerEnabled, MakeApply, PeerApply,
      FinishJobStep, MissingSet, FreeSet, Enqueue, Broadcast;
    RegionFits(cfg.storage, s.disk.files, p);
    match a
    case Make(id, m) => MakeActs(cfg, s, id, m);
    case Peer(id, q) => SameFiles(cfg, s, id, q);
    case Core(c) => if c.FinishJob? { OtherFlush(cfg, s, c.k, p); }
  }

  lemma SameFiles(cfg: Config, s: State, id: nat, a: PeerStep)
    requires Shape(cfg, s) && PeerEnabled(cfg, s, id, a)
    ensures PeerApply(cfg, s, id, a).disk.files == s.disk.files
  {
    hide SessionsOk, DiskOk, TorrentOk, ConfigOk, Filed, PickerOk, PeerEnabled, MarkBlockStep, FreeOneStep, VanishStep, BlockStep, BitfieldStep, HaveStep, EndDrainStep,
      TakeCommandStep;
    PeerActs(cfg, s, id, a);
  }

  lemma OtherFlush(cfg: Config, s: State, k: nat, p: nat)
    requires ConfigOk(cfg) && DiskOk(cfg.storage, s.disk) && k < |s.disk.jobs| && p < cfg.storage.pieceCount && s.disk.jobs[k].index != p
    ensures SameRegion(cfg.storage, s.disk.files, FinishJobStep(cfg, s, k).disk.files, p)
  {
    hide QueueOk, BufferOk, JobsOk, Region, Flat, StorageInfo.Valid, Assemble, Scatter, Hashes, FinishJobStep;
    RegionFits(cfg.storage, s.disk.files, p);
    FlushFiles(cfg, s, k);
    var j := s.disk.jobs[k];
    if FinishJobStep(cfg, s, k).disk.files != s.disk.files {
      WriteRegion(cfg.storage, s.disk.files, j.index, Assemble(j.blocks), p);
    }
  }

  ghost predicate SameRegion(s: StorageInfo, files: seq<seq<byte>>, after: seq<seq<byte>>, p: nat)
    requires p < s.pieceCount && |files| == |s.files|
  {
    && |after| == |s.files| && |Flat(s.files, files)| == |Flat(s.files, after)| == s.downloadLen && s.PieceEnd(p) <= s.downloadLen
    && Region(s, after, p) == Region(s, files, p)
  }

  lemma FlushFiles(cfg: Config, s: State, k: nat)
    requires ConfigOk(cfg) && DiskOk(cfg.storage, s.disk) && k < |s.disk.jobs|
    ensures var j := s.disk.jobs[k];
      && j.index < cfg.storage.pieceCount && |Assemble(j.blocks)| == cfg.storage.PieceLen(j.index) && |s.disk.files| == |cfg.storage.files|
      && FinishJobStep(cfg, s, k).disk.files == if Hashes(cfg, j.index, Assemble(j.blocks))
        then Scatter(cfg.storage.files, s.disk.files, cfg.storage.PieceOffset(j.index), Assemble(j.blocks)) else s.disk.files
  {
    hide QueueOk, BufferOk, StorageInfo.Valid, Assemble, Scatter, Hashes, GridShaped;
    var j := s.disk.jobs[k];
    assert JobOk(cfg.storage, j);
    CompleteMeansWhole(j.blocks, cfg.storage.PieceLen(j.index));
  }
}
