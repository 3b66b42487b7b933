/** The picker, the shared downloads, the statistics and the endgame flags agree in every state. */
module SwarmBooks {
  import opened Wrappers
  import opened Blocks
  import opened Storage
  import opened FlatDisk
  import opened PieceBuffer
  import opened Downloads
  import opened PiecePicking
  import opened Requests
  import opened PeerSession
  import opened Swarm
  import opened SwarmShape

  /** The pieces some session has picked and not yet put in the shared map. */
  ghost function OpeningSet(sessions: SessionMap): set<nat> {
    set id | id in sessions && sessions[id].mode.Opening? :: sessions[id].mode.download.index
  }

  /** The piece whose download is gone and which the picker does not know as owned yet. */
  ghost function RetiringSet(p: Picker, retiring: Option<nat>): set<nat> {
    if retiring.Some? && retiring.value < |p.own| && !p.own[retiring.value] then {retiring.value} else {}
  }

  /** The picked pieces that are not owned are those under download, being opened, or retiring. */
  ghost predicate Filing(pending: set<nat>, keys: set<nat>, opening: set<nat>, retiring: set<nat>) {
    && pending == keys + opening + retiring
    && keys !! opening && keys !! retiring && opening !! retiring
  }

  predicate OpensAt(sessions: SessionMap, id: nat, p: nat) {
    id in sessions && sessions[id].mode.Opening? && sessions[id].mode.download.index == p
  }

  ghost predicate OneOpener(sessions: SessionMap) {
    forall a, b, p :: OpensAt(sessions, a, p) && OpensAt(sessions, b, p) ==> a == b
  }

  /** Pieces that have a download or had one. */
  ghost function Landed(s: State): set<nat> { Begun(s.picker) - OpeningSet(s.sessions) }

  ghost predicate HandingIn(begun: set<nat>, sessions: SessionMap) {
    forall id :: id in sessions && sessions[id].mode.Handing? ==> sessions[id].mode.block.pieceIndex in begun
  }

  ghost predicate AllLanded(begun: set<nat>, s: State) {
    DiskBegun(begun, s.disk) && TorrentBegun(begun, s.torrent) && HandingIn(begun, s.sessions)
  }

  predicate FlagsOf(x: Session, flag: bool) {
    (x.inEndgame ==> flag) && forall k :: 0 <= k < |x.commands| ==> x.commands[k].inEndgame ==> flag
  }

  /** Whoever believes in endgame is right, and in endgame nothing is left to pick. */
  ghost predicate EndgameKnown(flag: bool, free: int, sessions: SessionMap) {
    (flag ==> free == 0) && forall id :: id in sessions ==> FlagsOf(sessions[id], flag)
  }

  /** No piece was picked twice. */
  ghost predicate PickedOnce(picks: seq<nat>, begun: set<nat>) {
    Unrepeated(picks) && Elements(picks) == begun
  }

  ghost predicate Books(s: State) {
    && s.picker.SameShape()
    && Filing(PendingSet(s.picker), s.downloads.Keys, OpeningSet(s.sessions), RetiringSet(s.picker, s.torrent.retiring))
    && OneOpener(s.sessions)
    && AllLanded(Landed(s), s)
    && EndgameKnown(s.torrent.inEndgame, s.picker.free, s.sessions)
    && PickedOnce(s.picks, Begun(s.picker))
  }

  // How a change of one session shows in the sets

  lemma OpeningSame(sessions: SessionMap, id: nat, x: Session)
    requires !x.mode.Opening? && (id in sessions ==> !sessions[id].mode.Opening?)
    ensures OpeningSet(sessions[id := x]) == OpeningSet(sessions)
    ensures OneOpener(sessions) ==> OneOpener(sessions[id := x])
  {
    var after := sessions[id := x];
    forall p | p in OpeningSet(sessions) ensures p in OpeningSet(after) {
      var k :| k in sessions && sessions[k].mode.Opening? && sessions[k].mode.download.index == p;
      assert after[k] == sessions[k];
    }
    forall p | p in OpeningSet(after) ensures p in OpeningSet(sessions) {
      var k :| k in after && after[k].mode.Opening? && after[k].mode.download.index == p;
      assert after[k] == sessions[k];
    }
    if OneOpener(sessions) {
      forall a, b, p | OpensAt(after, a, p) && OpensAt(after, b, p) ensures a == b {
        assert OpensAt(sessions, a, p) && OpensAt(sessions, b, p);
      }
    }
  }

  lemma OpeningAdds(sessions: SessionMap, id: nat, x: Session)
    requires x.mode.Opening? && id in sessions && !sessions[id].mode.Opening?
    requires x.mode.download.index !in OpeningSet(sessions) && OneOpener(sessions)
    ensures OpeningSet(sessions[id := x]) == OpeningSet(sessions) + {x.mode.download.index}
    ensures OneOpener(sessions[id := x])
  {
    var after := sessions[id := x];
    forall p | p in OpeningSet(sessions) ensures p in OpeningSet(after) {
      var k :| k in sessions && sessions[k].mode.Opening? && sessions[k].mode.download.index == p;
      assert after[k] == sessions[k];
    }
    assert after[id] == x;
    forall p | p in OpeningSet(after) ensures p in OpeningSet(sessions) + {x.mode.download.index} {
      var k :| k in after && after[k].mode.Opening? && after[k].mode.download.index == p;
      assert k != id ==> after[k] == sessions[k];
    }
    forall a, b, p | OpensAt(after, a, p) && OpensAt(after, b, p) ensures a == b {
      assert a != id ==> OpensAt(sessions, a, p) && p in OpeningSet(sessions);
      assert b != id ==> OpensAt(sessions, b, p) && p in OpeningSet(sessions);
    }
  }

  lemma OpeningDrops(sessions: SessionMap, id: nat, x: Session)
    requires !x.mode.Opening? && id in sessions && sessions[id].mode.Opening? && OneOpener(sessions)
    ensures OpeningSet(sessions[id := x]) == OpeningSet(sessions) - {sessions[id].mode.download.index}
    ensures sessions[id].mode.download.index in OpeningSet(sessions)
    ensures OneOpener(sessions[id := x])
  {
    var after := sessions[id := x];
    var i := sessions[id].mode.download.index;
    forall p | p in OpeningSet(sessions) && p != i ensures p in OpeningSet(after) {
      var k :| k in sessions && sessions[k].mode.Opening? && sessions[k].mode.download.index == p;
      assert after[k] == sessions[k];
    }
    forall p | p in OpeningSet(after) ensures p in OpeningSet(sessions) && p != i {
      var k :| k in after && after[k].mode.Opening? && after[k].mode.download.index == p;
      assert after[k] == sessions[k];
      assert OpensAt(sessions, k, p) && OpensAt(sessions, id, i);
    }
    forall a, b, p | OpensAt(after, a, p) && OpensAt(after, b, p) ensures a == b {
      assert OpensAt(sessions, a, p) && OpensAt(sessions, b, p);
    }
  }

  lemma HandingSet(begun: set<nat>, sessions: SessionMap, id: nat, x: Session)
    requires HandingIn(begun, sessions) && (x.mode.Handing? ==> x.mode.block.pieceIndex in begun)
    ensures HandingIn(begun, sessions[id := x])
  {
  }

  lemma FlagsSet(flag: bool, free: int, sessions: SessionMap, id: nat, x: Session)
    requires EndgameKnown(flag, free, sessions) && FlagsOf(x, flag)
    ensures EndgameKnown(flag, free, sessions[id := x])
  {
    hide FlagsOf;
  }

  lemma MoreLanded(a: set<nat>, b: set<nat>, s: State)
    requires a <= b && AllLanded(a, s)
    ensures AllLanded(b, s)
  {
  }

  /** A session's change that opens no piece and raises no flag keeps the books. */
  lemma SessionBooks(s: State, id: nat, x: Session)
    requires Books(s)
    requires !x.mode.Opening? && (id in s.sessions ==> !s.sessions[id].mode.Opening?)
    requires x.mode.Handing? ==> x.mode.block.pieceIndex in Landed(s)
    requires FlagsOf(x, s.torrent.inEndgame)
    ensures Books(s.(sessions := s.sessions[id := x]))
  {
    hide Filing, OneOpener, OpeningSet, Begun, PendingSet, EndgameKnown, HandingIn, DiskBegun, TorrentBegun, PickedOnce, FlagsOf;
    OpeningSame(s.sessions, id, x);
    HandingSet(Landed(s), s.sessions, id, x);
    FlagsSet(s.torrent.inEndgame, s.picker.free, s.sessions, id, x);
  }

  lemma FlagsAt(s: State, id: nat)
    requires Books(s) && id in s.sessions
    ensures FlagsOf(s.sessions[id], s.torrent.inEndgame)
  {
    hide Filing, OneOpener, OpeningSet, Begun, PendingSet, HandingIn, DiskBegun, TorrentBegun, PickedOnce, FlagsOf;
  }

  /** Changing statuses inside the downloads keeps the books: only the keys are in them. */
  lemma StatusBooks(s: State, ds: DownloadMap)
    requires Books(s) && ds.Keys == s.downloads.Keys
    ensures Books(s.(downloads := ds))
  {
    hide Filing, OneOpener, OpeningSet, Begun, PendingSet, EndgameKnown, HandingIn, DiskBegun, TorrentBegun, PickedOnce;
  }

  // make_requests

  lemma PicksSnoc(picks: seq<nat>, begun: set<nat>, i: nat)
    requires PickedOnce(picks, begun) && i !in begun
    ensures PickedOnce(picks + [i], begun + {i})
  {
    ElementsSnoc(picks, i);
    forall a, b | 0 <= a < b < |picks + [i]| ensures (picks + [i])[a] != (picks + [i])[b] {
      assert picks[a] in Elements(picks);
    }
  }

  lemma PickPieceBooks(cfg: Config, s: State, id: nat)
    requires Formed(cfg, s) && Books(s) && MakeEnabled(cfg, s, id, PickPiece)
    ensures Books(PickPieceStep(cfg, s, id, FirstPickable(s.picker, 0).value))
  {
    hide SessionsOk, DiskOk, TorrentOk, ConfigOk, SessionsBegun, Filed, Filing, OneOpener, OpeningSet, Begun, PendingSet, MissingSet, FreeSet,
      HandingIn, DiskBegun, TorrentBegun, PickedOnce, EndgameKnown, FlagsOf, PickBlocks;
    var x := s.sessions[id];
    var i := FirstPickable(s.picker, 0).value;
    var p := Pick(s.picker, i);
    PickKeeps(s.picker, i);
    PickBegins(s.picker, i);
    FlagsAt(s, id);
    var pick := PickBlocks(NewDownload(i, cfg.storage.PieceLen(i)), RoomLeft(x), x.inEndgame, x.outgoing);
    var y := x.(mode := Opening(x.mode.batch + pick.1, x.mode.target, pick.0));
    PickFiling(PendingSet(s.picker), s.downloads.Keys, OpeningSet(s.sessions), RetiringSet(s.picker, s.torrent.retiring), i);
    OpeningAdds(s.sessions, id, y);
    OpeningIsBegun(cfg, s);
    assert Begun(p) - OpeningSet(s.sessions[id := y]) == Landed(s);
    HandingSet(Landed(s), s.sessions, id, y);
    SameFlags(x, y, s.torrent.inEndgame);
    PickEndgame(s.torrent.inEndgame, s.picker.free, s.sessions, id, y);
    PicksSnoc(s.picks, Begun(s.picker), i);
  }

  lemma PickFiling(pending: set<nat>, keys: set<nat>, opening: set<nat>, retiring: set<nat>, i: nat)
    requires Filing(pending, keys, opening, retiring) && i !in pending
    ensures Filing(pending + {i}, keys, opening + {i}, retiring) && i !in opening
  {
  }

  lemma PickEndgame(flag: bool, free: int, sessions: SessionMap, id: nat, x: Session)
    requires EndgameKnown(flag, free, sessions) && FlagsOf(x, flag) && free > 0
    ensures EndgameKnown(flag, free - 1, sessions[id := x])
  {
    hide FlagsOf;
  }

  lemma OpeningIsBegun(cfg: Config, s: State)
    requires Formed(cfg, s)
    ensures OpeningSet(s.sessions) <= Begun(s.picker)
  {
    hide Begun;
    forall p | p in OpeningSet(s.sessions) ensures p in Begun(s.picker) {
      var k :| k in s.sessions && s.sessions[k].mode.Opening? && s.sessions[k].mode.download.index == p;
      assert SessionBegun(Begun(s.picker), s.sessions[k]);
    }
  }

  lemma InsertDownloadBooks(cfg: Config, s: State, id: nat)
    requires Formed(cfg, s) && Books(s) && MakeEnabled(cfg, s, id, InsertDownload)
    ensures Books(InsertDownloadStep(s, id))
  {
    hide SessionsOk, DiskOk, TorrentOk, ConfigOk, SessionsBegun, Filed, Filing, OneOpener, OpeningSet, Begun, PendingSet, MissingSet, FreeSet,
      HandingIn, DiskBegun, TorrentBegun, PickedOnce, EndgameKnown, FlagsOf;
    var x := s.sessions[id];
    var y := x.(mode := Picking(x.mode.batch, x.mode.target));
    var i := x.mode.download.index;
    FlagsAt(s, id);
    OpeningDrops(s.sessions, id, y);
    SameFlags(x, y, s.torrent.inEndgame);
    FlagsSet(s.torrent.inEndgame, s.picker.free, s.sessions, id, y);
    InsertFiling(PendingSet(s.picker), s.downloads.Keys, OpeningSet(s.sessions), RetiringSet(s.picker, s.torrent.retiring), i);
    assert s.downloads[i := x.mode.download].Keys == s.downloads.Keys + {i};
    var t := InsertDownloadStep(s, id);
    MoreLanded(Landed(s), Landed(t), s);
    HandingSet(Landed(t), s.sessions, id, y);
  }

  lemma InsertFiling(pending: set<nat>, keys: set<nat>, opening: set<nat>, retiring: set<nat>, i: nat)
    requires Filing(pending, keys, opening, retiring) && i in opening
    ensures Filing(pending, keys + {i}, opening - {i}, retiring)
  {
  }

  lemma StartRequestsBooks(cfg: Config, s: State, id: nat, target: nat, order: seq<nat>)
    requires Formed(cfg, s) && Books(s) && MakeEnabled(cfg, s, id, StartRequests(target, order))
    ensures Books(StartRequestsStep(cfg, s, id, target, order))
  {
    hide SessionsOk, DiskOk, TorrentOk, ConfigOk, SessionsBegun, Filed, Filing, OneOpener, OpeningSet, Begun, PendingSet, MissingSet, FreeSet,
      HandingIn, DiskBegun, TorrentBegun, PickedOnce, EndgameKnown, FlagsOf, Continue, OrderOf, Sound;
    var x := s.sessions[id];
    var room := Room(Some(target), |x.outgoing|);
    ContinueShape(cfg.storage, s.downloads, order, room, x.inEndgame, x.outgoing);
    OrderCovers(s.downloads, order);
    var c := Continue(s.downloads, order, room, x.inEndgame, x.outgoing);
    FlagsAt(s, id);
    StatusBooks(s, c.0);
    SameFlags(x, x.(mode := Picking(c.1, target)), s.torrent.inEndgame);
    SessionBooks(s.(downloads := c.0), id, x.(mode := Picking(c.1, target)));
  }

  lemma SendingBooks(cfg: Config, s: State, id: nat, a: MakeStep)
    requires Formed(cfg, s) && Books(s) && MakeEnabled(cfg, s, id, a) && (a.StartSending? || a.SendRequest? || a.FailSend? || a.EndSending?)
    ensures Books(MakeApply(cfg, s, id, a))
  {
    hide SessionsOk, DiskOk, TorrentOk, ConfigOk, SessionsBegun, Filed, Filing, OneOpener, OpeningSet, Begun, PendingSet, MissingSet, FreeSet,
      HandingIn, DiskBegun, TorrentBegun, PickedOnce, EndgameKnown, FlagsOf, Elements;
    FlagsAt(s, id);
    var x := s.sessions[id];
    if a.FailSend? && !s.heard {
      VanishBooks(s, id);
    } else if a.StartSending? {
      SameFlags(x, x.(mode := Sending(x.mode.batch, Max(x.mode.target, |x.outgoing|))), s.torrent.inEndgame);
      SessionBooks(s, id, x.(mode := Sending(x.mode.batch, Max(x.mode.target, |x.outgoing|))));
    } else if a.SendRequest? {
      var y := x.(mode := Sending(x.mode.batch[1..], x.mode.limit), outgoing := x.outgoing + {x.mode.batch[0]});
      SameFlags(x, y, s.torrent.inEndgame);
      SessionBooks(s, id, y);
    } else if a.FailSend? {
      var y := x.(mode := Draining(Stop), outgoing := x.outgoing + {x.mode.batch[0]});
      SameFlags(x, y, s.torrent.inEndgame);
      SessionBooks(s, id, y);
      LostBooks(s.(sessions := s.sessions[id := y]), s.lost + Asked(s.downloads, Elements(x.mode.batch[1..])));
    } else {
      SameFlags(x, x.(mode := Idle), s.torrent.inEndgame);
      SessionBooks(s, id, x.(mode := Idle));
    }
  }

  lemma VanishBooks(s: State, id: nat)
    requires Books(s) && id in s.sessions && !s.sessions[id].mode.Opening?
    ensures Books(VanishStep(s, id))
  {
    hide Books, FlagsOf, OpeningSet, Asked, Session.Hand;
    FlagsAt(s, id);
    var x := s.sessions[id];
    var y := x.(mode := Dead, outgoing := {});
    SameFlags(x, y, s.torrent.inEndgame);
    SessionBooks(s, id, y);
    LostBooks(s.(sessions := s.sessions[id := y]), s.lost + Asked(s.downloads, x.Hand()));
  }

  lemma SameFlags(x: Session, y: Session, flag: bool)
    requires FlagsOf(x, flag) && y.inEndgame == x.inEndgame && y.commands == x.commands
    ensures FlagsOf(y, flag)
  {
  }

  lemma LostBooks(s: State, lost: set<BlockInfo>)
    requires Books(s)
    ensures Books(s.(lost := lost))
  {
    hide Filing, OneOpener, OpeningSet, Begun, PendingSet, EndgameKnown, HandingIn, DiskBegun, TorrentBegun, PickedOnce;
  }

  lemma MakeBooks(cfg: Config, s: State, id: nat, a: MakeStep)
    requires Formed(cfg, s) && Books(s) && MakeEnabled(cfg, s, id, a)
    ensures Books(MakeApply(cfg, s, id, a))
  {
    hide Touched, StartRequestsStep, InsertDownloadStep, Books, SessionsOk, DiskOk, TorrentOk, ConfigOk, Filed;
    MakeKeeps(cfg, s, id, a);
    match a
    case StartRequests(target, order) => StartRequestsBooks(cfg, s, id, target, order);
    case PickPiece => PickPieceBooks(cfg, s, id);
    case InsertDownload => InsertDownloadBooks(cfg, s, id);
    case _ => SendingBooks(cfg, s, id, a);
  }

  // The session's other steps

  lemma AvailabilityBooks(s: State, id: nat, bits: seq<bool>, interested: bool)
    requires s.picker.Valid() && Books(s) && id in s.sessions && s.sessions[id].mode.Idle? && |bits| == |s.picker.own|
    ensures Books(SetSession(s, id, s.sessions[id].(isInterested := interested)).(picker := Register(s.picker, bits)))
  {
    hide Filing, OneOpener, OpeningSet, Begun, PendingSet, MissingSet, FreeSet, HandingIn, DiskBegun, TorrentBegun, PickedOnce, EndgameKnown, FlagsOf;
    var x := s.sessions[id].(isInterested := interested);
    RegisterKeeps(s.picker, bits);
    RegisterBegins(s.picker, bits);
    FlagsAt(s, id);
    SameFlags(s.sessions[id], x, s.torrent.inEndgame);
    SessionBooks(s, id, x);
  }

  /** A block of a piece in the shared map belongs to a piece that has landed. */
  lemma DownloadLanded(s: State, p: nat)
    requires Books(s) && p in s.downloads && s.downloads.Keys <= Begun(s.picker)
    ensures p in Landed(s)
  {
    hide OneOpener, OpeningSet, Begun, PendingSet, HandingIn, DiskBegun, TorrentBegun, PickedOnce, EndgameKnown;
  }

  lemma MarkBlockBooks(cfg: Config, s: State, id: nat)
    requires Formed(cfg, s) && Books(s) && PeerEnabled(cfg, s, id, MarkBlock)
    ensures Books(MarkBlockStep(s, id))
  {
    hide SessionsOk, DiskOk, TorrentOk, ConfigOk, PickerOk, SessionsBegun, DiskBegun, TorrentBegun, Begun, Filed, SetStatus, FlagsOf, Books, Landed, InGrid;
    ShapeOk(cfg, s);
    FlagsAt(s, id);
    var x := s.sessions[id];
    var b := x.mode.block;
    if StatusOf(s.downloads, b) == None || StatusOf(s.downloads, b) == Some(Received) {
      SameFlags(x, x.(mode := Idle), s.torrent.inEndgame);
      SessionBooks(s, id, x.(mode := Idle));
    } else {
      var y := x.(mode := Handing(b, x.mode.data));
      DownloadLanded(s, b.pieceIndex);
      SameFlags(x, y, s.torrent.inEndgame);
      SessionBooks(s, id, y);
      StatusFiles(cfg.storage, s.downloads, b, Received);
      StatusBooks(s.(sessions := s.sessions[id := y]), SetStatus(s.downloads, b, Received));
      LostBooks(s.(sessions := s.sessions[id := y], downloads := SetStatus(s.downloads, b, Received)), s.lost - {b});
    }
  }

  lemma ShapeOk(cfg: Config, s: State)
    requires Formed(cfg, s)
    ensures s.picker.SameShape() && s.picker.Valid() && |s.picker.own| == cfg.storage.pieceCount
  {
  }

  lemma HandingAt(s: State, id: nat)
    requires Books(s) && id in s.sessions && s.sessions[id].mode.Handing?
    ensures s.sessions[id].mode.block.pieceIndex in Landed(s)
  {
    hide OneOpener, Filing, OpeningSet, Begun, PendingSet, DiskBegun, TorrentBegun, PickedOnce, EndgameKnown;
  }

  lemma DiskBooks(s: State, d: Disk)
    requires Books(s) && DiskBegun(Landed(s), d)
    ensures Books(s.(disk := d))
  {
    hide Filing, OneOpener, OpeningSet, Begun, PendingSet, EndgameKnown, HandingIn, DiskBegun, TorrentBegun, PickedOnce;
  }

  lemma DiskLanded(s: State)
    requires Books(s)
    ensures DiskBegun(Landed(s), s.disk) && TorrentBegun(Landed(s), s.torrent)
  {
    hide Filing, OneOpener, OpeningSet, Begun, PendingSet, EndgameKnown, HandingIn, DiskBegun, TorrentBegun, PickedOnce;
  }

  lemma HandBlockBooks(cfg: Config, s: State, id: nat)
    requires Formed(cfg, s) && Books(s) && PeerEnabled(cfg, s, id, HandBlock)
    ensures Books(HandBlockStep(s, id))
  {
    hide SessionsOk, DiskOk, TorrentOk, ConfigOk, PickerOk, SessionsBegun, TorrentBegun, Begun, Filed, FlagsOf, Books, OpeningSet;
    ShapeOk(cfg, s);
    FlagsAt(s, id);
    HandingAt(s, id);
    DiskLanded(s);
    var x := s.sessions[id];
    var d := s.disk.(queue := s.disk.queue + [WriteBlock(x.mode.block, x.mode.data)]);
    DiskBooks(s, d);
    SameFlags(x, x.(mode := Idle), s.torrent.inEndgame);
    SessionBooks(s.(disk := d), id, x.(mode := Idle));
  }

  lemma FreeOneBooks(cfg: Config, s: State, id: nat, block: BlockInfo)
    requires Formed(cfg, s) && Books(s) && PeerEnabled(cfg, s, id, FreeOne(block))
    ensures Books(FreeOneStep(s, id, block))
  {
    hide SessionsOk, DiskOk, TorrentOk, ConfigOk, PickerOk, SessionsBegun, DiskBegun, TorrentBegun, Begun, Filed, FlagsOf, Books, OpeningSet, SetStatus;
    ShapeOk(cfg, s);
    FlagsAt(s, id);
    var x := s.sessions[id];
    var y := x.(outgoing := x.outgoing - {block});
    SameFlags(x, y, s.torrent.inEndgame);
    SessionBooks(s, id, y);
    StatusFiles(cfg.storage, s.downloads, block, Free);
    StatusBooks(s.(sessions := s.sessions[id := y]), SetStatus(s.downloads, block, Free));
    LostBooks(s.(sessions := s.sessions[id := y], downloads := SetStatus(s.downloads, block, Free)), s.lost - {block});
  }

  lemma NewFlags(flag: bool)
    ensures FlagsOf(NewSession(), flag)
  {
  }

  lemma CommandFlags(x: Session, flag: bool)
    requires FlagsOf(x, flag) && x.commands != []
    ensures FlagsOf(x.(inEndgame := x.commands[0].inEndgame, commands := x.commands[1..]), flag)
  {
    assert x.commands == [x.commands[0]] + x.commands[1..];
    var y := x.commands[1..];
    assert forall k :: 0 <= k < |y| ==> y[k] == x.commands[k + 1];
  }

  lemma SimplePeerBooks(cfg: Config, s: State, id: nat, a: PeerStep)
    requires Formed(cfg, s) && Books(s) && PeerEnabled(cfg, s, id, a)
    requires a.Connect? || a.Unchoke? || a.TakeBlock? || a.StartDrain? || a.TakeCommand?
    ensures Books(PeerApply(cfg, s, id, a))
  {
    hide SessionsOk, DiskOk, TorrentOk, ConfigOk, PickerOk, SessionsBegun, DiskBegun, TorrentBegun, Begun, Filed, FlagsOf, Books, OpeningSet, InGrid;
    ShapeOk(cfg, s);
    if a.Connect? {
      NewFlags(s.torrent.inEndgame);
      SessionBooks(s, id, NewSession());
    } else {
      FlagsAt(s, id);
      var x := s.sessions[id];
      var y := match a
        case Unchoke => x.(isChoked := false)
        case TakeBlock(info, data) => x.(mode := Delivering(info, data), outgoing := x.outgoing - {info})
        case StartDrain(reason) => x.(mode := Draining(reason))
        case TakeCommand => x.(inEndgame := x.commands[0].inEndgame, commands := x.commands[1..]);
      if a.TakeCommand? { CommandFlags(x, s.torrent.inEndgame); } else { SameFlags(x, y, s.torrent.inEndgame); }
      SessionBooks(s, id, y);
    }
  }

  lemma EndDrainBooks(cfg: Config, s: State, id: nat)
    requires Formed(cfg, s) && Books(s) && PeerEnabled(cfg, s, id, EndDrain)
    ensures Books(EndDrainStep(s, id))
  {
    hide SessionsOk, DiskOk, TorrentOk, ConfigOk, PickerOk, SessionsBegun, DiskBegun, TorrentBegun, Begun, Filed, FlagsOf, Books, OpeningSet;
    ShapeOk(cfg, s);
    FlagsAt(s, id);
    var x := s.sessions[id];
    var y := match x.mode.reason
      case Choke => x.(mode := Idle, isChoked := true)
      case Timeout => x.(mode := Idle)
      case Stop => x.(mode := Dead);
    SameFlags(x, y, s.torrent.inEndgame);
    SessionBooks(s, id, y);
  }

  lemma PeerBooks(cfg: Config, s: State, id: nat, a: PeerStep)
    requires Formed(cfg, s) && Books(s) && PeerEnabled(cfg, s, id, a)
    ensures Books(PeerApply(cfg, s, id, a))
  {
    hide Touched, Books, SessionsOk, DiskOk, TorrentOk, ConfigOk, Filed, MissingSet, FreeSet;
    PeerKeeps(cfg, s, id, a);
    match a
    case Bitfield(bits) => AvailabilityBooks(s, id, bits, Interesting(s.picker, bits));
    case Have(piece) => AvailabilityBooks(s, id, OnlyBit(|s.picker.own|, piece), s.picker.own[piece]);
    case MarkBlock => MarkBlockBooks(cfg, s, id);
    case HandBlock => HandBlockBooks(cfg, s, id);
    case FreeOne(block) => FreeOneBooks(cfg, s, id, block);
    case EndDrain => EndDrainBooks(cfg, s, id);
    case Vanish(_) => VanishBooks(s, id);
    case _ => SimplePeerBooks(cfg, s, id, a);
  }

  // The disk task, its jobs, and the torrent task

  lemma WriteToDiskBooks(cfg: Config, s: State)
    requires Formed(cfg, s) && Books(s) && CoreEnabled(cfg, s, WriteToDisk)
    ensures Books(WriteToDiskStep(cfg, s))
  {
    hide SessionsOk, DiskOk, TorrentOk, PickerOk, SessionsBegun, DiskBegun, TorrentBegun, Begun, Filed, Books, OpeningSet, Landed, Enqueue, StorageInfo.Valid;
    ShapeOk(cfg, s);
    DiskLanded(s);
    WriteToDiskShape(cfg.storage, Landed(s), s.disk);
    DiskBooks(s, WriteToDiskStep(cfg, s).disk);
  }

  lemma TorrentBooks(s: State, t: Torrent)
    requires Books(s) && TorrentBegun(Landed(s), t)
    requires t.inEndgame == s.torrent.inEndgame && t.retiring == s.torrent.retiring
    ensures Books(s.(torrent := t))
  {
    hide Filing, OneOpener, OpeningSet, Begun, PendingSet, EndgameKnown, HandingIn, DiskBegun, TorrentBegun, PickedOnce;
  }

  lemma FinishJobBooks(cfg: Config, s: State, k: nat)
    requires Formed(cfg, s) && Books(s) && CoreEnabled(cfg, s, FinishJob(k))
    ensures Books(FinishJobStep(cfg, s, k))
  {
    hide SessionsOk, QueueOk, BufferOk, PickerOk, SessionsBegun, Begun, Filed, Assemble, Hashes, StorageInfo.Valid, GridShaped, Scatter, Books, OpeningSet;
    ShapeOk(cfg, s);
    DiskLanded(s);
    var rest := s.disk.jobs[..k] + s.disk.jobs[k + 1..];
    assert forall i :: 0 <= i < |rest| ==> rest[i] == s.disk.jobs[if i < k then i else i + 1];
    var t := FinishJobStep(cfg, s, k);
    DiskBooks(s, t.disk);
    TorrentBooks(s.(disk := t.disk), t.torrent);
  }

  lemma LandedPending(s: State, p: nat)
    requires Books(s) && p in Landed(s) && p < |s.picker.own| && s.torrent.retiring.None?
    ensures if s.picker.own[p] then p !in s.downloads && p !in PendingSet(s.picker)
      else p in s.downloads
  {
    hide OneOpener, OpeningSet, HandingIn, DiskBegun, TorrentBegun, PickedOnce, EndgameKnown;
  }

  lemma TakeCompletionBooks(cfg: Config, s: State)
    requires Formed(cfg, s) && Books(s) && CoreEnabled(cfg, s, TakeCompletion)
    ensures Books(TakeCompletionStep(s))
  {
    hide SessionsOk, DiskOk, ConfigOk, PickerOk, SessionsBegun, DiskBegun, Begun, Filed, Books, OpeningSet;
    ShapeOk(cfg, s);
    DiskLanded(s);
    var c := s.torrent.queue[0];
    var t := TakeCompletionStep(s);
    assert forall i :: 0 <= i < |t.torrent.queue| ==> t.torrent.queue[i] == s.torrent.queue[i + 1];
    if c.isValid {
      LandedPending(s, c.index);
      RetireBooks(s, c.index, t.torrent.queue);
    } else {
      assert t.downloads.Keys == s.downloads.Keys;
      StatusBooks(s, t.downloads);
      TorrentBooks(s.(downloads := t.downloads), t.torrent);
    }
    LostBooks(t.(lost := s.lost), t.lost);
  }

  lemma RetireBooks(s: State, p: nat, queue: seq<PieceCompletion>)
    requires Books(s) && p < |s.picker.own| && s.torrent.retiring.None?
    requires p in Landed(s) && (if s.picker.own[p] then p !in s.downloads else p in s.downloads)
    requires forall k :: 0 <= k < |queue| ==> queue[k].index in Landed(s)
    ensures Books(s.(downloads := s.downloads - {p}, torrent := s.torrent.(queue := queue, retiring := Some(p))))
  {
    hide OneOpener, OpeningSet, Begun, PendingSet, HandingIn, DiskBegun, PickedOnce, EndgameKnown;
    assert (s.downloads - {p}).Keys == s.downloads.Keys - {p};
  }

  lemma BroadcastOpening(sessions: SessionMap, c: Command)
    ensures OpeningSet(Broadcast(sessions, c)) == OpeningSet(sessions)
    ensures OneOpener(sessions) ==> OneOpener(Broadcast(sessions, c))
  {
    var after := Broadcast(sessions, c);
    forall p | p in OpeningSet(sessions) ensures p in OpeningSet(after) {
      var k :| k in sessions && sessions[k].mode.Opening? && sessions[k].mode.download.index == p;
      assert after[k].mode == sessions[k].mode;
    }
    forall p | p in OpeningSet(after) ensures p in OpeningSet(sessions) {
      var k :| k in after && after[k].mode.Opening? && after[k].mode.download.index == p;
      assert after[k].mode == sessions[k].mode;
    }
    if OneOpener(sessions) {
      forall a, b, p | OpensAt(after, a, p) && OpensAt(after, b, p) ensures a == b {
        assert OpensAt(sessions, a, p) && OpensAt(sessions, b, p);
      }
    }
  }

  lemma BroadcastFlags(flag: bool, free: int, sessions: SessionMap, after: bool, afterFree: int, p: nat)
    requires EndgameKnown(flag, free, sessions) && (flag ==> after) && (after ==> afterFree == 0)
    ensures EndgameKnown(after, afterFree, Broadcast(sessions, Command(p, after)))
  {
    forall id | id in sessions ensures FlagsOf(Broadcast(sessions, Command(p, after))[id], after) {
      assert FlagsOf(sessions[id], flag);
    }
  }

  /** What is left to show of the books once a piece is owned, part by part. */
  lemma RegisterPieceBooks(cfg: Config, s: State)
    requires Formed(cfg, s) && Books(s) && CoreEnabled(cfg, s, RegisterPiece)
    ensures Books(RegisterPieceStep(s))
  {
    hide SessionsOk, DiskOk, ConfigOk, SessionsBegun, DiskBegun, TorrentBegun, Begun, Filed, MissingSet, FreeSet, PendingSet, OpeningSet, OneOpener,
      EndgameKnown, PickedOnce, Filing, AllLanded, Owned, Broadcast, Picker.Valid;
    var p := s.torrent.retiring.value;
    var t := RegisterPieceStep(s);
    if !s.picker.own[p] {
      ShapeOk(cfg, s);
      RetiringPicked(cfg, s);
      ReceivedKeeps(s.picker, p);
      OwnedBegun(s.picker, p);
      BroadcastOpening(s.sessions, Command(p, t.torrent.inEndgame));
      OwnedFiling(s, p);
      BroadcastLanded(s, Command(p, t.torrent.inEndgame), t);
      RegisterFlags(s, p);
    } else {
      PanicBooks(s);
    }
  }

  lemma PanicBooks(s: State)
    requires Books(s)
    ensures Books(s.(torrent := s.torrent.(panicked := true)))
  {
    hide Filing, OneOpener, OpeningSet, Begun, PendingSet, EndgameKnown, HandingIn, DiskBegun, PickedOnce;
  }

  lemma OwnedFiling(s: State, p: nat)
    requires Books(s) && s.torrent.retiring == Some(p) && p < |s.picker.own| && !s.picker.own[p]
    ensures Filing(PendingSet(s.picker) - {p}, s.downloads.Keys, OpeningSet(s.sessions), {})
  {
    hide OneOpener, AllLanded, OpeningSet, Begun, PendingSet, EndgameKnown, PickedOnce;
  }

  lemma BroadcastLanded(s: State, c: Command, t: State)
    requires AllLanded(Landed(s), s) && Landed(t) == Landed(s) && t.sessions == Broadcast(s.sessions, c)
    requires t.disk == s.disk && t.torrent.queue == s.torrent.queue && t.torrent.retiring.None?
    ensures AllLanded(Landed(t), t)
  {
    hide Landed, DiskBegun;
  }

  lemma RegisterFlags(s: State, p: nat)
    requires Books(s) && s.picker.Valid() && s.torrent.retiring == Some(p) && p < |s.picker.own| && !s.picker.own[p] && s.picker.pieces[p].isPending
    ensures var t := RegisterPieceStep(s); EndgameKnown(t.torrent.inEndgame, t.picker.free, t.sessions)
  {
    hide Filing, OneOpener, AllLanded, OpeningSet, Begun, PendingSet, EndgameKnown, PickedOnce, MissingSet, FreeSet, Broadcast;
    var t := RegisterPieceStep(s);
    ReceivedKeeps(s.picker, p);
    FlagsBefore(s);
    BroadcastFlags(s.torrent.inEndgame, s.picker.free, s.sessions, t.torrent.inEndgame, t.picker.free, p);
  }

  lemma FlagsBefore(s: State)
    requires Books(s)
    ensures EndgameKnown(s.torrent.inEndgame, s.picker.free, s.sessions) && (s.torrent.inEndgame ==> s.picker.free == 0)
  {
  }

  lemma RetiringPicked(cfg: Config, s: State)
    requires Formed(cfg, s) && s.torrent.retiring.Some?
    ensures s.torrent.retiring.value < |s.picker.pieces| && s.picker.pieces[s.torrent.retiring.value].isPending
  {
    hide SessionsOk, DiskOk, ConfigOk, SessionsBegun, DiskBegun, Filed;
  }

  lemma DropBooks(s: State)
    requires Books(s)
    ensures Books(s.(heard := false))
  {
    hide Filing, OneOpener, OpeningSet, Begun, PendingSet, EndgameKnown, HandingIn, DiskBegun, TorrentBegun, PickedOnce;
  }

  lemma CoreBooks(cfg: Config, s: State, a: CoreStep)
    requires Formed(cfg, s) && Books(s) && CoreEnabled(cfg, s, a)
    ensures Books(CoreApply(cfg, s, a))
  {
    hide Touched, Books, SessionsOk, DiskOk, TorrentOk, ConfigOk, Filed, WriteToDiskStep, FinishJobStep, TakeCompletionStep, RegisterPieceStep;
    CoreKeeps(cfg, s, a);
    match a
    case WriteToDisk => WriteToDiskBooks(cfg, s);
    case FinishJob(k) => FinishJobBooks(cfg, s, k);
    case TakeCompletion => TakeCompletionBooks(cfg, s);
    case RegisterPiece => RegisterPieceBooks(cfg, s);
    case DropAlerts => DropBooks(s);
  }

  lemma StepKeepsBooks(cfg: Config, s: State, a: Action)
    requires Formed(cfg, s) && Books(s) && Enabled(cfg, s, a)
    ensures Books(Apply(cfg, s, a))
  {
    hide Touched, Books, MakeEnabled, PeerEnabled, CoreEnabled, MakeApply, PeerApply, CoreApply;
    match a
    case Make(id, m) => MakeBooks(cfg, s, id, m);
    case Peer(id, p) => PeerBooks(cfg, s, id, p);
    case Core(c) => CoreBooks(cfg, s, c);
  }

  lemma InitBooks(cfg: Config)
    ensures Books(Init(cfg))
  {
    NewValid(seq(cfg.storage.pieceCount, _ => false));
    assert OpeningSet(map[]) == {};
    assert Begun(Init(cfg).picker) == {};
    assert Elements<nat>([]) == {};
  }
}
