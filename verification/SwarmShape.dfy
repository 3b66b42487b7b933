/** Every step keeps the shape of the state, and every piece anyone deals with has been picked. */
module SwarmShape {
  import opened Wrappers
  import opened Blocks
  import opened Storage
  import opened FlatDisk
  import opened PieceBuffer
  import opened Downloads
  import opened PiecePicking
  import opened Requests
  import opened PeerSession
  import opened Swarm

  /** The pieces picked so far; `is_pending` is never reset. */
  ghost function Begun(p: Picker): set<nat> {
    set i | 0 <= i < |p.pieces| && p.pieces[i].isPending
  }

  ghost predicate SessionBegun(begun: set<nat>, x: Session) {
    && (forall b :: b in x.Batch() ==> b.pieceIndex in begun)
    && (x.mode.Opening? ==> x.mode.download.index in begun)
    && (x.mode.Handing? ==> x.mode.block.pieceIndex in begun)
  }

  ghost predicate SessionsBegun(begun: set<nat>, sessions: SessionMap) {
    forall id :: id in sessions ==> SessionBegun(begun, sessions[id])
  }

  ghost predicate DiskBegun(begun: set<nat>, d: Disk) {
    && (forall k :: 0 <= k < |d.queue| ==> d.queue[k].block.pieceIndex in begun)
    && d.buffer.Keys <= begun
    && (forall k :: 0 <= k < |d.jobs| ==> d.jobs[k].index in begun)
  }

  ghost predicate TorrentBegun(begun: set<nat>, t: Torrent) {
    && (forall k :: 0 <= k < |t.queue| ==> t.queue[k].index in begun)
    && (t.retiring.Some? ==> t.retiring.value in begun)
  }

  ghost predicate Touched(s: State) {
    var begun := Begun(s.picker);
    && s.downloads.Keys <= begun && SessionsBegun(begun, s.sessions)
    && DiskBegun(begun, s.disk) && TorrentBegun(begun, s.torrent)
  }

  ghost predicate Formed(cfg: Config, s: State) { Shape(cfg, s) && Touched(s) }

  lemma SetOk(s: StorageInfo, sessions: SessionMap, id: nat, x: Session)
    requires SessionsOk(s, sessions) && SessionOk(s, x)
    ensures SessionsOk(s, sessions[id := x])
  {
    hide SessionOk;
  }

  lemma SetBegun(begun: set<nat>, sessions: SessionMap, id: nat, x: Session)
    requires SessionsBegun(begun, sessions) && SessionBegun(begun, x)
    ensures SessionsBegun(begun, sessions[id := x])
  {
    hide SessionBegun;
  }

  lemma MoreBegun(a: set<nat>, b: set<nat>, s: State)
    requires a <= b && SessionsBegun(a, s.sessions) && DiskBegun(a, s.disk) && TorrentBegun(a, s.torrent)
    ensures SessionsBegun(b, s.sessions) && DiskBegun(b, s.disk) && TorrentBegun(b, s.torrent)
  {
    forall id | id in s.sessions ensures SessionBegun(b, s.sessions[id]) {
      assert SessionBegun(a, s.sessions[id]);
    }
  }

  /** A session's change that leaves the shared state alone. */
  lemma SessionKeeps(cfg: Config, s: State, id: nat, x: Session)
    requires Formed(cfg, s) && SessionOk(cfg.storage, x) && SessionBegun(Begun(s.picker), x)
    ensures Formed(cfg, s.(sessions := s.sessions[id := x]))
  {
    hide PickerOk, Filed, SessionsOk, SessionOk, DiskOk, TorrentOk, ConfigOk, SessionsBegun, SessionBegun, DiskBegun, TorrentBegun, Begun;
    SetOk(cfg.storage, s.sessions, id, x);
    SetBegun(Begun(s.picker), s.sessions, id, x);
  }

  lemma SessionAt(cfg: Config, s: State, id: nat)
    requires Formed(cfg, s) && id in s.sessions
    ensures SessionOk(cfg.storage, s.sessions[id]) && SessionBegun(Begun(s.picker), s.sessions[id])
  {
  }

  /** A step of `make_requests` changes one session, which is opening a piece only if it has just picked
      one, and nothing of the disk and torrent tasks. */
  lemma MakeActs(cfg: Config, s: State, id: nat, a: MakeStep)
    requires Shape(cfg, s) && MakeEnabled(cfg, s, id, a)
    ensures var t := MakeApply(cfg, s, id, a);
      && id in s.sessions && id in t.sessions && t.sessions == s.sessions[id := t.sessions[id]]
      && t.disk == s.disk && t.torrent == s.torrent && t.heard == s.heard
      && t.picker.own == s.picker.own && t.picker.free <= s.picker.free && s.picks <= t.picks
      && (t.sessions[id].mode.Opening? <==> a.PickPiece?)
      && !s.sessions[id].mode.Handing? && !t.sessions[id].mode.Handing? && !t.sessions[id].mode.Delivering?
  {
    hide PickerOk, SessionsOk, DiskOk, TorrentOk, ConfigOk, Filed, FirstPickable, Continue, OrderOf, Elements, PickBlocks, Asked, Session.Hand, PickerFree;
  }

  /** So does any other step of a session, which never opens a piece; only handing a block over reaches the
      disk task. */
  lemma PeerActs(cfg: Config, s: State, id: nat, a: PeerStep)
    requires Shape(cfg, s) && PeerEnabled(cfg, s, id, a)
    ensures OneSession(s, PeerApply(cfg, s, id, a), id) && (!a.HandBlock? ==> PeerApply(cfg, s, id, a).disk == s.disk)
  {
    hide SessionsOk, DiskOk, TorrentOk, ConfigOk, Filed, Register, Interesting, InGrid, PickerFree, MissingSet, FreeSet,
      MarkBlockStep, FreeOneStep, HandBlockStep, VanishStep, EndDrainStep, OneSession;
    match a
    case MarkBlock => MarkActs(s, id);
    case HandBlock => HandActs(s, id);
    case FreeOne(b) => FreeActs(s, id, b);
    case EndDrain => EndActs(s, id);
    case Vanish(_) => VanishActs(s, id);
    case _ => PlainActs(cfg, s, id, a);
  }

  /** Nothing changes but one session, the picker and the downloads, and that session opens nothing. */
  predicate OneSession(s: State, t: State, id: nat) {
    && id in t.sessions && t.sessions == s.sessions[id := t.sessions[id]] && !t.sessions[id].mode.Opening?
    && t.torrent == s.torrent && t.heard == s.heard
    && t.picker.own == s.picker.own && t.picker.free == s.picker.free && t.picks == s.picks
  }

  lemma MarkActs(s: State, id: nat)
    requires id in s.sessions && s.sessions[id].mode.Delivering?
    ensures OneSession(s, MarkBlockStep(s, id), id) && MarkBlockStep(s, id).disk == s.disk
  {
    hide StatusOf, SetStatus;
  }

  lemma HandActs(s: State, id: nat)
    requires id in s.sessions && s.sessions[id].mode.Handing?
    ensures OneSession(s, HandBlockStep(s, id), id)
  {
  }

  lemma FreeActs(s: State, id: nat, b: BlockInfo)
    requires id in s.sessions && s.sessions[id].mode.Draining?
    ensures OneSession(s, FreeOneStep(s, id, b), id) && FreeOneStep(s, id, b).disk == s.disk
  {
    hide SetStatus;
  }

  lemma EndActs(s: State, id: nat)
    requires id in s.sessions && s.sessions[id].mode.Draining?
    ensures OneSession(s, EndDrainStep(s, id), id) && EndDrainStep(s, id).disk == s.disk
  {
  }

  lemma VanishActs(s: State, id: nat)
    requires id in s.sessions
    ensures OneSession(s, VanishStep(s, id), id) && VanishStep(s, id).disk == s.disk
  {
    hide Asked, Session.Hand;
  }

  lemma PlainActs(cfg: Config, s: State, id: nat, a: PeerStep)
    requires Shape(cfg, s) && PeerEnabled(cfg, s, id, a)
    requires !a.MarkBlock? && !a.HandBlock? && !a.FreeOne? && !a.EndDrain? && !a.Vanish?
    ensures OneSession(s, PeerApply(cfg, s, id, a), id) && PeerApply(cfg, s, id, a).disk == s.disk
  {
    hide SessionsOk, DiskOk, TorrentOk, ConfigOk, Filed, Register, Interesting, InGrid, PickerFree, MissingSet, FreeSet,
      MarkBlockStep, FreeOneStep, HandBlockStep, VanishStep, EndDrainStep;
  }

  /** The disk and torrent tasks leave the sessions alone but for the commands on their way to them. */
  lemma CoreActs(cfg: Config, s: State, a: CoreStep)
    requires Shape(cfg, s) && CoreEnabled(cfg, s, a)
    ensures var t := CoreApply(cfg, s, a);
      && t.sessions.Keys == s.sessions.Keys
      && (forall id :: id in s.sessions ==> t.sessions[id].mode == s.sessions[id].mode && t.sessions[id].outgoing == s.sessions[id].outgoing)
      && (!a.DropAlerts? ==> t.heard == s.heard)
  {
    hide SessionsOk, DiskOk, ConfigOk, Filed, MissingSet, FreeSet, Enqueue, Assemble, Scatter, Hashes;
  }

  // make_requests

  lemma OrderCovers(ds: DownloadMap, order: seq<nat>)
    requires OrderOf(ds, order)
    ensures Covers(ds, order)
  {
  }

  lemma ContinueShape(s: StorageInfo, ds: DownloadMap, order: seq<nat>, room: nat, endgame: bool, prev: set<BlockInfo>)
    requires Filed(s, ds) && OrderOf(ds, order)
    ensures Sound(ds)
    ensures var c := Continue(ds, order, room, endgame, prev);
      && Filed(s, c.0) && c.0.Keys == ds.Keys && |c.1| <= room
      && BatchOk(s, c.1) && forall b :: b in c.1 ==> b.pieceIndex in ds
  {
    hide Continue, FiledAt, MayPick, InGrid, Unrepeated;
    FiledIsSound(s, ds);
    ContinueFits(ds, order, room, endgame, prev);
    var c := Continue(ds, order, room, endgame, prev);
    forall p | p in c.0 ensures FiledAt(s, c.0[p], p) {
      ContinueFiles(s, ds, order, room, endgame, prev, p);
    }
    forall b | b in c.1 ensures InGrid(s, b) && b.pieceIndex in ds {
      assert PickedFrom(ds, order, endgame, prev, b);
      PickInGrid(s, ds[b.pieceIndex], b.pieceIndex, endgame, prev, b);
    }
  }

  lemma StartRequestsKeeps(cfg: Config, s: State, id: nat, target: nat, order: seq<nat>)
    requires Formed(cfg, s) && id in s.sessions && OrderOf(s.downloads, order) && !s.sessions[id].isChoked
    ensures Formed(cfg, StartRequestsStep(cfg, s, id, target, order))
  {
    hide PickerOk, SessionsOk, DiskOk, TorrentOk, ConfigOk, SessionsBegun, DiskBegun, TorrentBegun, Begun, Continue, Filed, BatchOk, Unrepeated, Sound;
    SessionAt(cfg, s, id);
    var x := s.sessions[id];
    var room := Room(Some(target), |x.outgoing|);
    ContinueShape(cfg.storage, s.downloads, order, room, x.inEndgame, x.outgoing);
    var c := Continue(s.downloads, order, room, x.inEndgame, x.outgoing);
    SessionKeeps(cfg, s.(downloads := c.0), id, x.(mode := Picking(c.1, target)));
  }

  lemma PickBegins(p: Picker, i: nat)
    requires p.SameShape() && i < |p.own|
    ensures Begun(Pick(p, i)) == Begun(p) + {i}
    ensures p.IsFree(i) ==> i !in Begun(p)
  {
  }

  lemma OpenedBatch(s: StorageInfo, batch: seq<BlockInfo>, i: nat, room: nat, endgame: bool, prev: set<BlockInfo>)
    requires i < s.pieceCount && BatchOk(s, batch) && forall b :: b in batch ==> b.pieceIndex != i
    ensures var pick := PickBlocks(NewDownload(i, s.PieceLen(i)), room, endgame, prev);
      && BatchOk(s, batch + pick.1) && (forall b :: b in pick.1 ==> b.pieceIndex == i)
      && FiledAt(s, pick.0, i) && FreshlyOpened(pick.0, batch + pick.1)
  {
    hide PickBlocks, Unrepeated, FreshlyOpened, MayPick, InGrid;
    var d := NewDownload(i, s.PieceLen(i));
    var pick := PickBlocks(d, room, endgame, prev);
    PickFits(d, room, endgame, prev);
    forall b | b in pick.1 ensures InGrid(s, b) && b.pieceIndex == i {
      PickIsOf(d, endgame, prev, b);
      PickInGrid(s, d, i, endgame, prev, b);
    }
    Apart2(batch, pick.1, i);
    NewIsFresh(i, s.PieceLen(i), room, endgame, prev, batch + pick.1);
  }

  lemma PickIsOf(d: Download, endgame: bool, prev: set<BlockInfo>, b: BlockInfo)
    requires d.Valid() && MayPick(d, endgame, prev, b)
    ensures b.pieceIndex == d.index
  {
  }

  lemma PickPieceKeeps(cfg: Config, s: State, id: nat)
    requires Formed(cfg, s) && MakeEnabled(cfg, s, id, PickPiece)
    ensures Formed(cfg, PickPieceStep(cfg, s, id, FirstPickable(s.picker, 0).value))
  {
    hide SessionsOk, DiskOk, TorrentOk, ConfigOk, SessionsBegun, DiskBegun, TorrentBegun, Begun, PickBlocks, FiledAt, InGrid, Unrepeated, FreshlyOpened,
      MissingSet, FreeSet, Filed;
    SessionAt(cfg, s, id);
    var x := s.sessions[id];
    var i := FirstPickable(s.picker, 0).value;
    PickKeeps(s.picker, i);
    PickBegins(s.picker, i);
    OpenedBatch(cfg.storage, x.mode.batch, i, RoomLeft(x), x.inEndgame, x.outgoing);
    MoreBegun(Begun(s.picker), Begun(Pick(s.picker, i)), s);
    var pick := PickBlocks(NewDownload(i, cfg.storage.PieceLen(i)), RoomLeft(x), x.inEndgame, x.outgoing);
    var y := x.(mode := Opening(x.mode.batch + pick.1, x.mode.target, pick.0));
    assert SessionOk(cfg.storage, y) && SessionBegun(Begun(Pick(s.picker, i)), y);
    SessionKeeps(cfg, s.(picker := Pick(s.picker, i), picks := s.picks + [i]), id, y);
  }

  lemma FiledSet(s: StorageInfo, ds: DownloadMap, p: nat, d: Download)
    requires Filed(s, ds) && FiledAt(s, d, p)
    ensures Filed(s, ds[p := d])
  {
  }

  lemma InsertDownloadKeeps(cfg: Config, s: State, id: nat)
    requires Formed(cfg, s) && MakeEnabled(cfg, s, id, InsertDownload)
    ensures Formed(cfg, InsertDownloadStep(s, id))
  {
    hide SessionsOk, DiskOk, TorrentOk, ConfigOk, PickerOk, SessionsBegun, DiskBegun, TorrentBegun, Begun, FiledAt, BatchOk, FreshlyOpened, Filed;
    SessionAt(cfg, s, id);
    var x := s.sessions[id];
    FiledSet(cfg.storage, s.downloads, x.mode.download.index, x.mode.download);
    SessionKeeps(cfg, s.(downloads := s.downloads[x.mode.download.index := x.mode.download]), id, x.(mode := Picking(x.mode.batch, x.mode.target)));
  }

  lemma TailOk(s: StorageInfo, begun: set<nat>, batch: seq<BlockInfo>)
    requires batch != [] && BatchOk(s, batch) && forall b :: b in batch ==> b.pieceIndex in begun
    ensures BatchOk(s, batch[1..]) && InGrid(s, batch[0]) && forall b :: b in batch[1..] ==> b.pieceIndex in begun
  {
    hide InGrid;
    forall b | b in batch[1..] ensures b in batch { assert batch == [batch[0]] + batch[1..]; }
    forall i, j | 0 <= i < j < |batch[1..]| ensures batch[1..][i] != batch[1..][j] {
      assert batch[i + 1] != batch[j + 1];
    }
  }

  lemma SendingKeeps(cfg: Config, s: State, id: nat, a: MakeStep)
    requires Formed(cfg, s) && MakeEnabled(cfg, s, id, a) && (a.StartSending? || a.SendRequest? || a.EndSending?)
    ensures Formed(cfg, MakeApply(cfg, s, id, a))
  {
    hide SessionsOk, DiskOk, TorrentOk, ConfigOk, PickerOk, SessionsBegun, DiskBegun, TorrentBegun, Begun, FiledAt, BatchOk, FreshlyOpened, Filed, Elements, InGrid;
    SessionAt(cfg, s, id);
    var x := s.sessions[id];
    if a.StartSending? {
      SessionKeeps(cfg, s, id, x.(mode := Sending(x.mode.batch, Max(x.mode.target, |x.outgoing|))));
    } else if a.SendRequest? {
      TailOk(cfg.storage, Begun(s.picker), x.mode.batch);
      SessionKeeps(cfg, s, id, x.(mode := Sending(x.mode.batch[1..], x.mode.limit), outgoing := x.outgoing + {x.mode.batch[0]}));
    } else {
      SessionKeeps(cfg, s, id, x.(mode := Idle));
    }
  }

  lemma FailSendKeeps(cfg: Config, s: State, id: nat)
    requires Formed(cfg, s) && MakeEnabled(cfg, s, id, FailSend)
    ensures Formed(cfg, FailSendStep(s, id))
  {
    hide SessionsOk, DiskOk, TorrentOk, ConfigOk, PickerOk, SessionsBegun, DiskBegun, TorrentBegun, Begun, FiledAt, BatchOk, FreshlyOpened, Filed, Elements, InGrid,
      Asked, VanishStep;
    SessionAt(cfg, s, id);
    var x := s.sessions[id];
    if s.heard {
      TailOk(cfg.storage, Begun(s.picker), x.mode.batch);
      EmptyBatch(cfg.storage);
      SessionKeeps(cfg, s.(lost := s.lost + Asked(s.downloads, Elements(x.mode.batch[1..]))), id, x.(mode := Draining(Stop), outgoing := x.outgoing + {x.mode.batch[0]}));
    } else {
      VanishKeeps(cfg, s, id);
    }
  }

  lemma VanishKeeps(cfg: Config, s: State, id: nat)
    requires Formed(cfg, s) && id in s.sessions
    ensures Formed(cfg, VanishStep(s, id))
  {
    hide SessionsOk, DiskOk, TorrentOk, ConfigOk, PickerOk, SessionsBegun, DiskBegun, TorrentBegun, Begun, Filed, Elements, InGrid, Asked, Session.Hand;
    EmptyBatch(cfg.storage);
    var x := s.sessions[id];
    SessionKeeps(cfg, s.(lost := s.lost + Asked(s.downloads, x.Hand())), id, x.(mode := Dead, outgoing := {}));
  }

  lemma EmptyBatch(s: StorageInfo)
    ensures BatchOk(s, [])
  {
  }

  lemma MakeKeeps(cfg: Config, s: State, id: nat, a: MakeStep)
    requires Formed(cfg, s) && MakeEnabled(cfg, s, id, a)
    ensures Formed(cfg, MakeApply(cfg, s, id, a))
  {
    hide Shape, Touched, StartRequestsStep, PickPieceStep, InsertDownloadStep, FailSendStep;
    match a
    case StartRequests(target, order) => StartRequestsKeeps(cfg, s, id, target, order);
    case PickPiece => PickPieceKeeps(cfg, s, id);
    case InsertDownload => InsertDownloadKeeps(cfg, s, id);
    case FailSend => FailSendKeeps(cfg, s, id);
    case _ => SendingKeeps(cfg, s, id, a);
  }

  // The session's other steps

  lemma RegisterBegins(p: Picker, bits: seq<bool>)
    requires p.SameShape() && |bits| == |p.own|
    ensures Begun(Register(p, bits)) == Begun(p)
  {
  }

  lemma StatusFiles(s: StorageInfo, ds: DownloadMap, b: BlockInfo, status: BlockStatus)
    requires Filed(s, ds)
    ensures Filed(s, SetStatus(ds, b, status)) && SetStatus(ds, b, status).Keys == ds.Keys
  {
    if b.pieceIndex in ds && b.IndexInPiece() < |ds[b.pieceIndex].blocks| {
      assert FiledAt(s, ds[b.pieceIndex], b.pieceIndex);
      FiledSet(s, ds, b.pieceIndex, ds[b.pieceIndex].(blocks := ds[b.pieceIndex].blocks[b.IndexInPiece() := status]));
    }
  }

  lemma AvailabilityKeeps(cfg: Config, s: State, id: nat, bits: seq<bool>, interested: bool)
    requires Formed(cfg, s) && id in s.sessions && |bits| == cfg.storage.pieceCount
    ensures Formed(cfg, SetSession(s, id, s.sessions[id].(isInterested := interested)).(picker := Register(s.picker, bits)))
  {
    hide SessionsOk, DiskOk, TorrentOk, ConfigOk, SessionsBegun, DiskBegun, TorrentBegun, Begun, FiledAt, BatchOk, FreshlyOpened, Filed, MissingSet, FreeSet;
    SessionAt(cfg, s, id);
    RegisterKeeps(s.picker, bits);
    RegisterBegins(s.picker, bits);
    SessionKeeps(cfg, s.(picker := Register(s.picker, bits)), id, s.sessions[id].(isInterested := interested));
  }

  lemma StatusKeeps(cfg: Config, s: State, b: BlockInfo, status: BlockStatus)
    requires Formed(cfg, s)
    ensures Formed(cfg, s.(downloads := SetStatus(s.downloads, b, status)))
  {
    hide SessionsOk, DiskOk, TorrentOk, ConfigOk, PickerOk, SessionsBegun, DiskBegun, TorrentBegun, Begun, Filed, SetStatus;
    StatusFiles(cfg.storage, s.downloads, b, status);
  }

  lemma MarkBlockKeeps(cfg: Config, s: State, id: nat)
    requires Formed(cfg, s) && PeerEnabled(cfg, s, id, MarkBlock)
    ensures Formed(cfg, MarkBlockStep(s, id))
  {
    hide SessionsOk, DiskOk, TorrentOk, ConfigOk, PickerOk, SessionsBegun, DiskBegun, TorrentBegun, Begun, FiledAt, FreshlyOpened, Filed, SetStatus, InGrid;
    SessionAt(cfg, s, id);
    var x := s.sessions[id];
    var b := x.mode.block;
    if StatusOf(s.downloads, b) == None || StatusOf(s.downloads, b) == Some(Received) {
      SessionKeeps(cfg, s, id, x.(mode := Idle));
    } else {
      SessionKeeps(cfg, s, id, x.(mode := Handing(b, x.mode.data)));
      StatusKeeps(cfg, s.(sessions := s.sessions[id := x.(mode := Handing(b, x.mode.data))]), b, Received);
    }
  }

  lemma HandBlockKeeps(cfg: Config, s: State, id: nat)
    requires Formed(cfg, s) && PeerEnabled(cfg, s, id, HandBlock)
    ensures Formed(cfg, HandBlockStep(s, id))
  {
    hide SessionsOk, TorrentOk, ConfigOk, PickerOk, SessionsBegun, TorrentBegun, Begun, FiledAt, FreshlyOpened, Filed, BufferOk, JobsOk, InGrid;
    SessionAt(cfg, s, id);
    var x := s.sessions[id];
    var d := s.disk.(queue := s.disk.queue + [WriteBlock(x.mode.block, x.mode.data)]);
    assert DiskOk(cfg.storage, d) && DiskBegun(Begun(s.picker), d);
    SessionKeeps(cfg, s.(disk := d), id, x.(mode := Idle));
  }

  lemma PeerKeeps(cfg: Config, s: State, id: nat, a: PeerStep)
    requires Formed(cfg, s) && PeerEnabled(cfg, s, id, a)
    ensures Formed(cfg, PeerApply(cfg, s, id, a))
  {
    match a
    case Bitfield(bits) => AvailabilityKeeps(cfg, s, id, bits, Interesting(s.picker, bits));
    case Have(piece) => AvailabilityKeeps(cfg, s, id, OnlyBit(|s.picker.own|, piece), s.picker.own[piece]);
    case MarkBlock => MarkBlockKeeps(cfg, s, id);
    case HandBlock => HandBlockKeeps(cfg, s, id);
    case FreeOne(block) => FreeOneKeeps(cfg, s, id, block);
    case EndDrain => EndDrainKeeps(cfg, s, id);
    case Vanish(_) => VanishKeeps(cfg, s, id);
    case _ => SimplePeerKeeps(cfg, s, id, a);
  }

  lemma SimplePeerKeeps(cfg: Config, s: State, id: nat, a: PeerStep)
    requires Formed(cfg, s) && PeerEnabled(cfg, s, id, a)
    requires a.Connect? || a.Unchoke? || a.TakeBlock? || a.StartDrain? || a.TakeCommand?
    ensures Formed(cfg, PeerApply(cfg, s, id, a))
  {
    hide SessionsOk, DiskOk, TorrentOk, ConfigOk, PickerOk, SessionsBegun, DiskBegun, TorrentBegun, Begun, FiledAt, FreshlyOpened, Filed, SetStatus, InGrid;
    if a.Connect? {
      SessionKeeps(cfg, s, id, NewSession());
    } else {
      SessionAt(cfg, s, id);
      var x := s.sessions[id];
      match a
      case Unchoke => SessionKeeps(cfg, s, id, x.(isChoked := false));
      case TakeBlock(info, data) => SessionKeeps(cfg, s, id, x.(mode := Delivering(info, data), outgoing := x.outgoing - {info}));
      case StartDrain(reason) => SessionKeeps(cfg, s, id, x.(mode := Draining(reason)));
      case TakeCommand =>
        SessionKeeps(cfg, s, id, x.(inEndgame := x.commands[0].inEndgame, commands := x.commands[1..]));
    }
  }

  lemma FreeOneKeeps(cfg: Config, s: State, id: nat, block: BlockInfo)
    requires Formed(cfg, s) && PeerEnabled(cfg, s, id, FreeOne(block))
    ensures Formed(cfg, FreeOneStep(s, id, block))
  {
    hide SessionsOk, DiskOk, TorrentOk, ConfigOk, PickerOk, SessionsBegun, DiskBegun, TorrentBegun, Begun, FiledAt, FreshlyOpened, Filed, SetStatus, InGrid;
    SessionAt(cfg, s, id);
    var x := s.sessions[id];
    SessionKeeps(cfg, s, id, x.(outgoing := x.outgoing - {block}));
    StatusKeeps(cfg, s.(sessions := s.sessions[id := x.(outgoing := x.outgoing - {block})]), block, Free);
  }

  lemma EndDrainKeeps(cfg: Config, s: State, id: nat)
    requires Formed(cfg, s) && PeerEnabled(cfg, s, id, EndDrain)
    ensures Formed(cfg, EndDrainStep(s, id))
  {
    hide SessionsOk, DiskOk, TorrentOk, ConfigOk, PickerOk, SessionsBegun, DiskBegun, TorrentBegun, Begun, FiledAt, FreshlyOpened, Filed, InGrid;
    SessionAt(cfg, s, id);
    var x := s.sessions[id];
    SessionKeeps(cfg, s, id, match x.mode.reason
                             case Choke => x.(mode := Idle, isChoked := true)
                             case Timeout => x.(mode := Idle)
                             case Stop => x.(mode := Dead));
  }

  // The disk task, its jobs, and the torrent task

  lemma OffsetOnGrid(s: StorageInfo, b: BlockInfo)
    requires InGrid(s, b)
    ensures b.offset in GridOffsets(s.PieceLen(b.pieceIndex)) && b.len == BlockLen(s.PieceLen(b.pieceIndex), b.offset / BLOCK_LEN)
  {
  }

  /** Adding a block keeps the buffer on its grid, and its count does not pass the piece's. */
  lemma EnqueueShape(s: StorageInfo, m: BlockMap, w: WriteBlock)
    requires WriteOk(s, w) && GridShaped(m, s.PieceLen(w.block.pieceIndex)) && |m| < BlockCount(s.PieceLen(w.block.pieceIndex))
    ensures GridShaped(Enqueue(m, w.block.offset, w.data), s.PieceLen(w.block.pieceIndex))
    ensures |Enqueue(m, w.block.offset, w.data)| <= BlockCount(s.PieceLen(w.block.pieceIndex))
  {
    hide InGrid, GridOffsets;
    OffsetOnGrid(s, w.block);
    if w.block.offset !in m {
      assert (m[w.block.offset := w.data]).Keys == m.Keys + {w.block.offset};
    }
  }

  lemma BufferedShape(s: StorageInfo, d: Disk, p: nat)
    requires s.Valid() && BufferOk(s, d.buffer) && p < s.pieceCount
    ensures GridShaped(Buffered(d, p), s.PieceLen(p)) && |Buffered(d, p)| < BlockCount(s.PieceLen(p))
  {
    hide StorageInfo.Valid;
    PieceOrder(s, p);
    if p in d.buffer { assert BufferAt(s, d.buffer[p], p); }
  }

  lemma WriteToDiskShape(s: StorageInfo, begun: set<nat>, d: Disk)
    requires s.Valid() && DiskOk(s, d) && DiskBegun(begun, d) && d.queue != []
    ensures WriteOk(s, d.queue[0])
    ensures var w := d.queue[0];
      var p := w.block.pieceIndex;
      var m := Enqueue(Buffered(d, p), w.block.offset, w.data);
      var rest := d.(queue := d.queue[1..]);
      var after := if |m| == BlockCount(s.PieceLen(p)) then rest.(buffer := d.buffer - {p}, jobs := d.jobs + [Job(p, m)])
                   else rest.(buffer := d.buffer[p := m]);
      DiskOk(s, after) && DiskBegun(begun, after)
  {
    hide GridShaped, OnGrid, Enqueue, StorageInfo.Valid, BlockCount, BlockLen;
    var w := d.queue[0];
    assert WriteOk(s, w);
    BufferedShape(s, d, w.block.pieceIndex);
    EnqueueShape(s, Buffered(d, w.block.pieceIndex), w);
  }

  lemma WriteToDiskKeeps(cfg: Config, s: State)
    requires Formed(cfg, s) && CoreEnabled(cfg, s, WriteToDisk)
    ensures Formed(cfg, WriteToDiskStep(cfg, s))
  {
    hide SessionsOk, DiskOk, TorrentOk, PickerOk, SessionsBegun, DiskBegun, TorrentBegun, Begun, Filed, Enqueue, StorageInfo.Valid;
    WriteToDiskShape(cfg.storage, Begun(s.picker), s.disk);
  }

  lemma FinishJobKeeps(cfg: Config, s: State, k: nat)
    requires Formed(cfg, s) && CoreEnabled(cfg, s, FinishJob(k))
    ensures Formed(cfg, FinishJobStep(cfg, s, k))
  {
    hide SessionsOk, QueueOk, BufferOk, PickerOk, SessionsBegun, Begun, Filed, Assemble, Hashes, StorageInfo.Valid, GridShaped, Scatter;
    var j := s.disk.jobs[k];
    assert JobOk(cfg.storage, j);
    var rest := s.disk.jobs[..k] + s.disk.jobs[k + 1..];
    assert forall i :: 0 <= i < |rest| ==> rest[i] == s.disk.jobs[if i < k then i else i + 1];
  }

  lemma TakeCompletionKeeps(cfg: Config, s: State)
    requires Formed(cfg, s) && CoreEnabled(cfg, s, TakeCompletion)
    ensures Formed(cfg, TakeCompletionStep(s))
  {
    hide SessionsOk, DiskOk, PickerOk, ConfigOk, SessionsBegun, DiskBegun, Begun;
    var c := s.torrent.queue[0];
    if !c.isValid && c.index in s.downloads {
      assert FiledAt(cfg.storage, s.downloads[c.index], c.index);
    }
    var t := TakeCompletionStep(s);
    assert forall i :: 0 <= i < |t.torrent.queue| ==> t.torrent.queue[i] == s.torrent.queue[i + 1];
  }

  lemma BroadcastKeeps(s: StorageInfo, begun: set<nat>, sessions: SessionMap, c: Command)
    requires SessionsOk(s, sessions) && SessionsBegun(begun, sessions)
    ensures SessionsOk(s, Broadcast(sessions, c)) && SessionsBegun(begun, Broadcast(sessions, c))
  {
    forall id | id in sessions
      ensures SessionOk(s, Broadcast(sessions, c)[id]) && SessionBegun(begun, Broadcast(sessions, c)[id])
    {
      assert SessionOk(s, sessions[id]) && SessionBegun(begun, sessions[id]);
    }
  }

  lemma RegisterPieceKeeps(cfg: Config, s: State)
    requires Formed(cfg, s) && CoreEnabled(cfg, s, RegisterPiece)
    ensures Formed(cfg, RegisterPieceStep(s))
  {
    hide SessionsOk, DiskOk, ConfigOk, SessionsBegun, DiskBegun, Begun, Filed, MissingSet, FreeSet, Broadcast;
    var p := s.torrent.retiring.value;
    if !s.picker.own[p] {
      ReceivedKeeps(s.picker, p);
      OwnedBegun(s.picker, p);
      var t := RegisterPieceStep(s);
      BroadcastKeeps(cfg.storage, Begun(s.picker), s.sessions, Command(p, t.torrent.inEndgame));
    }
  }

  lemma OwnedBegun(p: Picker, i: nat)
    requires p.SameShape() && i < |p.own|
    ensures Begun(Owned(p, i)) == Begun(p)
  {
  }

  lemma CoreKeeps(cfg: Config, s: State, a: CoreStep)
    requires Formed(cfg, s) && CoreEnabled(cfg, s, a)
    ensures Formed(cfg, CoreApply(cfg, s, a))
  {
    hide Shape, Touched, WriteToDiskStep, FinishJobStep, TakeCompletionStep, RegisterPieceStep;
    match a
    case WriteToDisk => WriteToDiskKeeps(cfg, s);
    case FinishJob(k) => FinishJobKeeps(cfg, s, k);
    case TakeCompletion => TakeCompletionKeeps(cfg, s);
    case RegisterPiece => RegisterPieceKeeps(cfg, s);
    case DropAlerts => DropKeeps(cfg, s);
  }

  lemma DropKeeps(cfg: Config, s: State)
    requires Formed(cfg, s)
    ensures Formed(cfg, s.(heard := false))
  {
    hide PickerOk, Filed, SessionsOk, DiskOk, TorrentOk, ConfigOk, SessionsBegun, DiskBegun, TorrentBegun, Begun;
  }

  lemma StepKeepsForm(cfg: Config, s: State, a: Action)
    requires Formed(cfg, s) && Enabled(cfg, s, a)
    ensures Formed(cfg, Apply(cfg, s, a))
  {
    hide Shape, Touched, MakeEnabled, PeerEnabled, CoreEnabled, MakeApply, PeerApply, CoreApply;
    match a
    case Make(id, m) => MakeKeeps(cfg, s, id, m);
    case Peer(id, p) => PeerKeeps(cfg, s, id, p);
    case Core(c) => CoreKeeps(cfg, s, c);
  }

  lemma InitFormed(cfg: Config)
    requires ConfigOk(cfg)
    ensures Formed(cfg, Init(cfg))
  {
    hide StorageInfo.Valid, MissingSet, FreeSet;
    NewValid(seq(cfg.storage.pieceCount, _ => false));
  }
}
