/** Requested blocks that no session answers for: exactly which step leaves one behind, and exactly what
    picks one up again (cratetorrent/src/peer.rs, cratetorrent/src/torrent.rs). */
module SwarmOrphans {
  import opened Wrappers
  import opened Blocks
  import opened Storage
  import opened FlatDisk
  import opened PieceBuffer
  import opened Downloads
  import opened PiecePicking
  import opened Requests
  import opened PeerSession
  import opened Swarm
  import opened SwarmShape
  import opened SwarmBooks
  import opened SwarmLiveness
  import opened SwarmIntegrity
  import opened SwarmRuns
  import opened SwarmSequential

  /** Requested, so that no session outside endgame asks for it, and nobody's business. */
  ghost predicate Orphan(cfg: Config, s: State, b: BlockInfo) {
    Is(cfg.storage, s.downloads, b, Requested) && !Answered(s, b)
  }

  ghost predicate HeldByOther(s: State, id: nat, b: BlockInfo) {
    exists k :: k != id && HeldBy(s.sessions, k, b)
  }

  /** The step makes its session forget the block, which it answered for: behind a request whose send fails,
      or at an end without cleanup, be it an error that finds nobody listening for alerts or a panic. */
  predicate Forgets(s: State, a: Action, b: BlockInfo) {
    match a
    case Make(id, FailSend) =>
      && id in s.sessions && s.sessions[id].mode.Sending? && s.sessions[id].mode.batch != []
      && (if s.heard then b in s.sessions[id].mode.batch[1..] && b !in s.sessions[id].outgoing else b in s.sessions[id].Hand())
    case Peer(id, Vanish(_)) => HeldBy(s.sessions, id, b)
    case _ => false
  }

  /** The step makes its session forget the requested block, and no other session has it. */
  ghost predicate Abandons(cfg: Config, s: State, a: Action, b: BlockInfo) {
    Forgets(s, a, b) && Is(cfg.storage, s.downloads, b, Requested) && !HeldByOther(s, if a.Core? then 0 else a.id, b)
  }

  /** A peer delivers the block, a session picks it, or the piece is retired or started over. */
  ghost predicate Rescues(cfg: Config, s: State, a: Action, b: BlockInfo)
    requires Shape(cfg, s) && Enabled(cfg, s, a)
  {
    match a
    case Peer(_, TakeBlock(info, _)) => info == b
    case Make(id, StartRequests(_, _)) => id in Apply(cfg, s, a).sessions && b in Apply(cfg, s, a).sessions[id].Batch()
    case Core(TakeCompletion) => s.torrent.queue[0].index == b.pieceIndex
    case _ => false
  }

  lemma AnsweredIff(cfg: Config, s: State, id: nat, b: BlockInfo)
    requires Formed(cfg, s)
    ensures Answered(s, b) <==> HeldBy(s.sessions, id, b) || HeldByOther(s, id, b)
  {
    hide Formed, Session.Hand;
    if HeldBy(s.sessions, id, b) { HolderAlive(cfg, s, id, b); }
    if k :| k != id && HeldBy(s.sessions, k, b) { HolderAlive(cfg, s, k, b); }
  }

  /** A step of one session: who answers afterwards. */
  lemma SessionAnswers(cfg: Config, s: State, t: State, id: nat, b: BlockInfo)
    requires Formed(cfg, t) && id in t.sessions && t.sessions == s.sessions[id := t.sessions[id]]
    ensures Answered(t, b) <==> b in t.sessions[id].Hand() || HeldByOther(s, id, b)
  {
    hide Formed, Session.Hand;
    AnsweredIff(cfg, t, id, b);
    if k :| k != id && HeldBy(s.sessions, k, b) { assert HeldBy(t.sessions, k, b); }
    if k :| k != id && HeldBy(t.sessions, k, b) { assert HeldBy(s.sessions, k, b); }
  }

  // Requesting: a requested block stays requested, and the one session's hand moves on.

  lemma StartHand(cfg: Config, s: State, id: nat, target: nat, order: seq<nat>, b: BlockInfo)
    requires Formed(cfg, s) && MakeEnabled(cfg, s, id, StartRequests(target, order)) && InGrid(cfg.storage, b)
    ensures var t := StartRequestsStep(cfg, s, id, target, order);
      && id in t.sessions && t.sessions == s.sessions[id := t.sessions[id]]
      && (Is(cfg.storage, s.downloads, b, Requested) ==> Is(cfg.storage, t.downloads, b, Requested))
      && (Is(cfg.storage, t.downloads, b, Requested) ==> Is(cfg.storage, s.downloads, b, Requested) || b in t.sessions[id].Batch())
      && (b in t.sessions[id].Hand() <==> b in s.sessions[id].Hand() || b in t.sessions[id].Batch())
  {
    hide SessionsOk, DiskOk, TorrentOk, ConfigOk, PickerOk, SessionsBegun, DiskBegun, TorrentBegun, Begun, Filed, FiledAt, InGrid, StatusOf, OrderOf, Continue;
    var x := s.sessions[id];
    FiledIsSound(cfg.storage, s.downloads);
    ContinueStatus(cfg.storage, s.downloads, order, Room(Some(target), |x.outgoing|), x.inEndgame, x.outgoing, b);
    HandsOutgoing(x);
  }

  lemma InsertHand(cfg: Config, s: State, id: nat, b: BlockInfo)
    requires Formed(cfg, s) && Books(s) && MakeEnabled(cfg, s, id, InsertDownload) && InGrid(cfg.storage, b)
    ensures var t := InsertDownloadStep(s, id);
      && id in t.sessions && t.sessions == s.sessions[id := t.sessions[id]]
      && (Is(cfg.storage, s.downloads, b, Requested) ==> Is(cfg.storage, t.downloads, b, Requested))
      && (Is(cfg.storage, t.downloads, b, Requested) ==> Is(cfg.storage, s.downloads, b, Requested) || b in t.sessions[id].Hand())
      && t.sessions[id].Hand() == s.sessions[id].Hand()
  {
    hide SessionsOk, DiskOk, TorrentOk, ConfigOk, PickerOk, SessionsBegun, DiskBegun, TorrentBegun, Begun, Filed, InGrid, FreshlyOpened,
      OneOpener, AllLanded, EndgameKnown, PickedOnce, PendingSet, RetiringSet;
    SessionAt(cfg, s, id);
    var x := s.sessions[id];
    assert x.mode.download.index in OpeningSet(s.sessions);
    InsertStatus(cfg.storage, s.downloads, x.mode.download, x.mode.batch, b);
  }

  lemma PickHand(cfg: Config, s: State, id: nat, b: BlockInfo)
    requires Formed(cfg, s) && MakeEnabled(cfg, s, id, PickPiece) && InGrid(cfg.storage, b)
    ensures var t := PickPieceStep(cfg, s, id, FirstPickable(s.picker, 0).value);
      && id in t.sessions && t.sessions == s.sessions[id := t.sessions[id]]
      && (Is(cfg.storage, s.downloads, b, Requested) ==> (b in t.sessions[id].Hand() <==> b in s.sessions[id].Hand()))
  {
    hide SessionsOk, DiskOk, TorrentOk, ConfigOk, SessionsBegun, DiskBegun, TorrentBegun, Filed, InGrid, PickBlocks, MissingSet, FreeSet;
    var x := s.sessions[id];
    var i := FirstPickable(s.picker, 0).value;
    var d := NewDownload(i, cfg.storage.PieceLen(i));
    PickFits(d, RoomLeft(x), x.inEndgame, x.outgoing);
    MemberOfSum(x.mode.batch, PickBlocks(d, RoomLeft(x), x.inEndgame, x.outgoing).1, b);
    if Is(cfg.storage, s.downloads, b, Requested) {
      assert b.pieceIndex in Begun(s.picker) && i !in Begun(s.picker);
    }
  }

  lemma MemberOfSum<T>(a: seq<T>, b: seq<T>, x: T)
    ensures x in Elements(a + b) <==> x in a || x in b
  {
  }

  lemma SendHands(x: Session, limit: nat)
    ensures x.mode.Picking? ==> x.(mode := Sending(x.mode.batch, limit)).Hand() == x.Hand()
    ensures x.mode.Sending? && x.mode.batch == [] ==> x.(mode := Idle).Hand() == x.Hand()
    ensures x.mode.Sending? && x.mode.batch != [] ==>
      x.(mode := Sending(x.mode.batch[1..], x.mode.limit), outgoing := x.outgoing + {x.mode.batch[0]}).Hand() == x.Hand()
  {
    hide Elements;
    NoElements<BlockInfo>();
    if x.mode.Sending? && x.mode.batch != [] { HandSplit(x.mode.batch); }
  }

  lemma SendingHand(cfg: Config, s: State, id: nat, a: MakeStep)
    requires Formed(cfg, s) && MakeEnabled(cfg, s, id, a) && (a.StartSending? || a.SendRequest? || a.EndSending?)
    ensures var t := MakeApply(cfg, s, id, a);
      && id in t.sessions && t.sessions == s.sessions[id := t.sessions[id]] && t.downloads == s.downloads
      && t.sessions[id].Hand() == s.sessions[id].Hand()
  {
    hide Touched, SessionsOk, DiskOk, TorrentOk, ConfigOk, PickerOk, Filed, InGrid, Elements, Session.Hand;
    var x := s.sessions[id];
    SendHands(x, if a.StartSending? then Max(x.mode.target, |x.outgoing|) else 0);
  }

  lemma FailHand(cfg: Config, s: State, id: nat, b: BlockInfo)
    requires Formed(cfg, s) && MakeEnabled(cfg, s, id, FailSend)
    ensures var t := FailSendStep(s, id);
      && id in t.sessions && t.sessions == s.sessions[id := t.sessions[id]] && t.downloads == s.downloads
      && (b in t.sessions[id].Hand() <==> b in s.sessions[id].Hand() && !Forgets(s, Make(id, FailSend), b))
  {
    hide SessionsOk, DiskOk, TorrentOk, ConfigOk, PickerOk, SessionsBegun, DiskBegun, TorrentBegun, Begun, Filed, InGrid, Asked, Unrepeated, Session.Hand, Elements;
    SessionAt(cfg, s, id);
    var x := s.sessions[id];
    HandsOutgoing(FailSendStep(s, id).sessions[id]);
    FailParts(x, b);
    if b in x.mode.batch[1..] { BehindHead(x.mode.batch, b); }
  }

  lemma FailParts(x: Session, b: BlockInfo)
    requires x.mode.Sending? && x.mode.batch != []
    ensures b in x.Hand() <==> b in x.outgoing || b == x.mode.batch[0] || b in x.mode.batch[1..]
  {
    hide Elements;
    HandSplit(x.mode.batch);
    InElements(x.mode.batch[1..], b);
  }

  lemma BehindHead(batch: seq<BlockInfo>, b: BlockInfo)
    requires batch != [] && Unrepeated(batch) && b in batch[1..]
    ensures b != batch[0]
  {
    var j :| 0 <= j < |batch[1..]| && batch[1..][j] == b;
    assert batch[j + 1] == b;
  }

  lemma InElements<T>(s: seq<T>, x: T)
    ensures x in Elements(s) <==> x in s
  {
  }

  /** What a step of `make_requests` does to a block's request and to the acting session's hand. */
  ghost predicate MakeMoves(cfg: Config, s: State, id: nat, a: MakeStep, t: State, b: BlockInfo) {
    && id in s.sessions && id in t.sessions && t.sessions == s.sessions[id := t.sessions[id]]
    && (Is(cfg.storage, s.downloads, b, Requested) ==> Is(cfg.storage, t.downloads, b, Requested))
    && (Is(cfg.storage, t.downloads, b, Requested) ==> Is(cfg.storage, s.downloads, b, Requested) || b in t.sessions[id].Hand())
    && (Is(cfg.storage, s.downloads, b, Requested) ==>
        (b in t.sessions[id].Hand() <==>
          if a.FailSend? then b in s.sessions[id].Hand() && !Forgets(s, Make(id, a), b)
          else b in s.sessions[id].Hand() || (a.StartRequests? && b in t.sessions[id].Batch())))
  }

  lemma MakeMovesOn(cfg: Config, s: State, id: nat, a: MakeStep, b: BlockInfo)
    requires Formed(cfg, s) && Books(s) && MakeEnabled(cfg, s, id, a) && InGrid(cfg.storage, b)
    ensures MakeMoves(cfg, s, id, a, MakeApply(cfg, s, id, a), b)
  {
    hide Touched, Books, SessionsOk, DiskOk, TorrentOk, ConfigOk, Filed, PickerOk, InGrid, Session.Hand, StartRequestsStep, InsertDownloadStep, PickPieceStep,
      StartSendingStep, SendRequestStep, FailSendStep, StatusOf;
    match a
    case StartRequests(target, order) =>
      StartHand(cfg, s, id, target, order, b);
      BatchInHand(StartRequestsStep(cfg, s, id, target, order).sessions[id], b);
    case PickPiece => PickHand(cfg, s, id, b); PickDownloads(cfg, s, id);
    case InsertDownload => InsertHand(cfg, s, id, b);
    case FailSend => FailHand(cfg, s, id, b);
    case _ => SendingHand(cfg, s, id, a);
  }

  lemma BatchInHand(x: Session, b: BlockInfo)
    ensures b in x.Batch() ==> b in x.Hand()
  {
  }

  lemma PickDownloads(cfg: Config, s: State, id: nat)
    requires Shape(cfg, s) && MakeEnabled(cfg, s, id, PickPiece)
    ensures PickPieceStep(cfg, s, id, FirstPickable(s.picker, 0).value).downloads == s.downloads
  {
    hide SessionsOk, DiskOk, TorrentOk, ConfigOk, Filed;
  }

  lemma OrphansAfterMake(cfg: Config, s: State, id: nat, m: MakeStep, b: BlockInfo)
    requires Good(cfg, s) && Enabled(cfg, s, Make(id, m)) && Good(cfg, Apply(cfg, s, Make(id, m)))
    ensures var a := Make(id, m);
      Orphan(cfg, Apply(cfg, s, a), b) <==> (Orphan(cfg, s, b) && !Rescues(cfg, s, a, b)) || Abandons(cfg, s, a, b)
  {
    hide Shape, Touched, Books, Live, Sane, MakeEnabled, MakeApply, InGrid, Session.Hand, StatusOf, HeldByOther, Answered;
    var t := MakeApply(cfg, s, id, m);
    if InGrid(cfg.storage, b) {
      MakeMovesOn(cfg, s, id, m, b);
      AnsweredIff(cfg, s, id, b);
      SessionAnswers(cfg, s, t, id, b);
      if m.FailSend? { BehindInHand(cfg, s, id, b); }
    }
  }

  lemma BehindInHand(cfg: Config, s: State, id: nat, b: BlockInfo)
    requires Shape(cfg, s) && MakeEnabled(cfg, s, id, FailSend)
    ensures id in s.sessions && s.sessions[id].mode.Sending? && s.sessions[id].mode.batch != []
    ensures Forgets(s, Make(id, FailSend), b) ==> b in s.sessions[id].Hand()
    ensures b in s.sessions[id].mode.batch[1..] && b !in s.sessions[id].outgoing ==> Forgets(s, Make(id, FailSend), b)
  {
    hide SessionsOk, DiskOk, TorrentOk, ConfigOk, Filed, PickerOk;
    HandSplit(s.sessions[id].mode.batch);
  }

  // A session's other steps.

  /** What another step of a session does to a requested block and to the session's hand. */
  ghost predicate PeerMoves(cfg: Config, s: State, id: nat, a: PeerStep, t: State, b: BlockInfo) {
    && id in t.sessions && t.sessions == s.sessions[id := t.sessions[id]]
    && (Is(cfg.storage, t.downloads, b, Requested) ==> Is(cfg.storage, s.downloads, b, Requested))
    && (Is(cfg.storage, s.downloads, b, Requested) && !Is(cfg.storage, t.downloads, b, Requested) ==> HeldBy(s.sessions, id, b) && !a.Vanish?)
    && (Is(cfg.storage, t.downloads, b, Requested) ==>
        (b in t.sessions[id].Hand() <==> (HeldBy(s.sessions, id, b) && !a.Vanish?) || (a.TakeBlock? && a.info == b)))
  }

  lemma MarkStatus(cfg: Config, s: State, id: nat, b: BlockInfo)
    requires Formed(cfg, s) && PeerEnabled(cfg, s, id, MarkBlock) && InGrid(cfg.storage, b)
    ensures Is(cfg.storage, MarkBlockStep(s, id).downloads, b, Requested) <==> Is(cfg.storage, s.downloads, b, Requested) && b != s.sessions[id].mode.block
  {
    hide SessionsOk, DiskOk, TorrentOk, ConfigOk, PickerOk, SessionsBegun, DiskBegun, TorrentBegun, Begun, Filed, InGrid, StatusOf, SetStatus, Session.Hand, Elements;
    SessionAt(cfg, s, id);
    SetStatusAt(cfg.storage, s.downloads, s.sessions[id].mode.block, Received, b);
  }

  lemma MarkHand(s: State, id: nat)
    requires id in s.sessions && s.sessions[id].mode.Delivering?
    ensures var t := MarkBlockStep(s, id);
      && id in t.sessions && t.sessions == s.sessions[id := t.sessions[id]]
      && t.sessions[id].Hand() == s.sessions[id].outgoing && s.sessions[id].Hand() == s.sessions[id].outgoing + {s.sessions[id].mode.block}
  {
    hide StatusOf, SetStatus, Session.Hand, Elements;
    HandsOutgoing(s.sessions[id]);
    HandsOutgoing(MarkBlockStep(s, id).sessions[id]);
  }

  lemma MarkMoves(cfg: Config, s: State, id: nat, b: BlockInfo)
    requires Formed(cfg, s) && PeerEnabled(cfg, s, id, MarkBlock) && InGrid(cfg.storage, b)
    ensures PeerMoves(cfg, s, id, MarkBlock, MarkBlockStep(s, id), b)
  {
    hide Formed, SessionsOk, DiskOk, TorrentOk, ConfigOk, PickerOk, Filed, Is, Session.Hand, MarkBlockStep;
    MarkStatus(cfg, s, id, b);
    MarkHand(s, id);
  }

  lemma FreeMoves(cfg: Config, s: State, id: nat, block: BlockInfo, b: BlockInfo)
    requires Formed(cfg, s) && PeerEnabled(cfg, s, id, FreeOne(block)) && InGrid(cfg.storage, b)
    ensures PeerMoves(cfg, s, id, FreeOne(block), FreeOneStep(s, id, block), b)
  {
    hide SessionsOk, DiskOk, TorrentOk, ConfigOk, PickerOk, SessionsBegun, DiskBegun, TorrentBegun, Begun, Filed, InGrid, StatusOf, SetStatus;
    SessionAt(cfg, s, id);
    var x := s.sessions[id];
    SetStatusAt(cfg.storage, s.downloads, block, Free, b);
    HandsOutgoing(x);
    HandsOutgoing(FreeOneStep(s, id, block).sessions[id]);
  }

  lemma VanishMoves(cfg: Config, s: State, id: nat, panics: bool, b: BlockInfo)
    requires Shape(cfg, s) && PeerEnabled(cfg, s, id, Vanish(panics))
    ensures PeerMoves(cfg, s, id, Vanish(panics), VanishStep(s, id), b)
  {
    hide SessionsOk, DiskOk, TorrentOk, ConfigOk, PickerOk, Filed, InGrid, StatusOf, Asked;
    HandsOutgoing(VanishStep(s, id).sessions[id]);
  }

  /** What a step that leaves the downloads alone may do to its session. */
  predicate PlainChange(s: State, id: nat, a: PeerStep, y: Session) {
    if a.Connect? then id !in s.sessions && y == NewSession()
    else
      && id in s.sessions && !s.sessions[id].InMake() && !y.InMake() && !s.sessions[id].mode.Delivering?
      && (a.TakeBlock? ==> y.mode.Delivering? && y.mode.block == a.info && y.outgoing == s.sessions[id].outgoing - {a.info})
      && (!a.TakeBlock? ==> !y.mode.Delivering? && y.outgoing == s.sessions[id].outgoing)
  }

  lemma PlainStep(cfg: Config, s: State, id: nat, a: PeerStep)
    requires Shape(cfg, s) && PeerEnabled(cfg, s, id, a) && !a.MarkBlock? && !a.FreeOne? && !a.Vanish?
    ensures var t := PeerApply(cfg, s, id, a);
      && id in t.sessions && t.sessions == s.sessions[id := t.sessions[id]] && t.downloads == s.downloads
      && PlainChange(s, id, a, t.sessions[id])
  {
    hide PickerOk, SessionsOk, DiskOk, TorrentOk, ConfigOk, Filed, InGrid, PickerFree, BitfieldStep, HaveStep, MarkBlockStep, FreeOneStep, VanishStep, EndDrainStep,
      HandBlockStep, Elements;
    if a.Bitfield? || a.Have? {
      AvailabilityChange(cfg, s, id, a);
    } else if a.HandBlock? || a.EndDrain? {
      RestChange(s, id);
    }
  }

  lemma AvailabilityChange(cfg: Config, s: State, id: nat, a: PeerStep)
    requires Shape(cfg, s) && PeerEnabled(cfg, s, id, a) && (a.Bitfield? || a.Have?)
    ensures var t := PeerApply(cfg, s, id, a);
      && id in t.sessions && t.sessions == s.sessions[id := t.sessions[id]] && t.downloads == s.downloads
      && t.sessions[id].mode == s.sessions[id].mode && t.sessions[id].outgoing == s.sessions[id].outgoing
  {
    hide SessionsOk, DiskOk, TorrentOk, ConfigOk, Filed, Register, Interesting, MissingSet, FreeSet, PickerFree;
  }

  lemma RestChange(s: State, id: nat)
    requires id in s.sessions
    ensures s.sessions[id].mode.Handing? ==>
      var t := HandBlockStep(s, id);
      && id in t.sessions && t.sessions == s.sessions[id := t.sessions[id]] && t.downloads == s.downloads
      && t.sessions[id].mode.Idle? && t.sessions[id].outgoing == s.sessions[id].outgoing
    ensures s.sessions[id].mode.Draining? ==>
      var t := EndDrainStep(s, id);
      && id in t.sessions && t.sessions == s.sessions[id := t.sessions[id]] && t.downloads == s.downloads
      && (t.sessions[id].mode.Idle? || t.sessions[id].mode.Dead?) && t.sessions[id].outgoing == s.sessions[id].outgoing
  {
  }

  lemma PlainMoves(cfg: Config, s: State, id: nat, a: PeerStep, b: BlockInfo)
    requires Shape(cfg, s) && PeerEnabled(cfg, s, id, a) && !a.MarkBlock? && !a.FreeOne? && !a.Vanish?
    ensures PeerMoves(cfg, s, id, a, PeerApply(cfg, s, id, a), b)
  {
    hide Shape, PeerEnabled, PeerApply, Is, Session.Hand;
    PlainStep(cfg, s, id, a);
    HandsOutgoing(PeerApply(cfg, s, id, a).sessions[id]);
    if id in s.sessions { HandsOutgoing(s.sessions[id]); }
  }

  lemma OrphansAfterPeer(cfg: Config, s: State, id: nat, p: PeerStep, b: BlockInfo)
    requires Good(cfg, s) && Enabled(cfg, s, Peer(id, p)) && Good(cfg, Apply(cfg, s, Peer(id, p)))
    ensures var a := Peer(id, p);
      Orphan(cfg, Apply(cfg, s, a), b) <==> (Orphan(cfg, s, b) && !Rescues(cfg, s, a, b)) || Abandons(cfg, s, a, b)
  {
    hide Shape, Touched, Books, Live, Sane, PeerEnabled, InGrid, Session.Hand, StatusOf, HeldByOther, Answered, MarkBlockStep, FreeOneStep, BlockStep,
      BitfieldStep, HaveStep, HandBlockStep, EndDrainStep, VanishStep, TakeCommandStep, SetMode, SetSession;
    var t := PeerApply(cfg, s, id, p);
    if InGrid(cfg.storage, b) {
      match p {
        case MarkBlock => MarkMoves(cfg, s, id, b);
        case FreeOne(block) => FreeMoves(cfg, s, id, block, b);
        case Vanish(panics) => VanishMoves(cfg, s, id, panics, b);
        case _ => PlainMoves(cfg, s, id, p, b);
      }
      AnsweredIff(cfg, s, id, b);
      SessionAnswers(cfg, s, t, id, b);
    }
  }

  // The disk and torrent tasks.

  lemma BroadcastAnswered(s: State, t: State, c: Command, b: BlockInfo)
    requires t.sessions == Broadcast(s.sessions, c)
    ensures Answered(t, b) <==> Answered(s, b)
  {
    hide Session.Hand, Broadcast;
    BroadcastKeys(s.sessions, c);
    forall id | id in s.sessions ensures HeldBy(t.sessions, id, b) <==> HeldBy(s.sessions, id, b) { BroadcastHand(s.sessions, c, id); }
    if id :| HeldBy(s.sessions, id, b) && !s.sessions[id].mode.Dead? { BroadcastHand(s.sessions, c, id); assert HeldBy(t.sessions, id, b); }
    if id :| HeldBy(t.sessions, id, b) && !t.sessions[id].mode.Dead? { BroadcastHand(s.sessions, c, id); assert HeldBy(s.sessions, id, b); }
  }

  lemma CompletionIs(s: StorageInfo, t: State, b: BlockInfo)
    requires t.torrent.queue != [] && InGrid(s, b)
    ensures Is(s, TakeCompletionStep(t).downloads, b, Requested) <==> Is(s, t.downloads, b, Requested) && b.pieceIndex != t.torrent.queue[0].index
  {
  }

  lemma OrphansAfterCore(cfg: Config, s: State, c: CoreStep, b: BlockInfo)
    requires Good(cfg, s) && Enabled(cfg, s, Core(c))
    ensures var a := Core(c);
      Orphan(cfg, Apply(cfg, s, a), b) <==> (Orphan(cfg, s, b) && !Rescues(cfg, s, a, b)) || Abandons(cfg, s, a, b)
  {
    hide Touched, Books, Live, Sane, SessionsOk, DiskOk, ConfigOk, Filed, InGrid, StatusOf, MissingSet, FreeSet, Answered,
      Enqueue, Assemble, Hashes, Broadcast;
    if InGrid(cfg.storage, b) {
      if c.TakeCompletion? {
        CompletionIs(cfg.storage, s, b);
        assert TakeCompletionStep(s).sessions == s.sessions;
        SameAnswered(s, TakeCompletionStep(s), b);
      } else if c.RegisterPiece? {
        var t := RegisterPieceStep(s);
        if s.picker.own[s.torrent.retiring.value] { SameAnswered(s, t, b); }
        else { BroadcastAnswered(s, t, Command(s.torrent.retiring.value, t.torrent.inEndgame), b); }
      } else {
        SameAnswered(s, CoreApply(cfg, s, c), b);
      }
    }
  }

  lemma SameAnswered(s: State, t: State, b: BlockInfo)
    requires t.sessions == s.sessions
    ensures Answered(t, b) <==> Answered(s, b)
  {
  }

  /** Exactly which blocks are orphans after any step of anybody: those that were and are not rescued by
      it, and those that it abandons. */
  lemma OrphansAfterStep(cfg: Config, s: State, a: Action, b: BlockInfo)
    requires Good(cfg, s) && Shape(cfg, s) && Enabled(cfg, s, a)
    ensures Orphan(cfg, Apply(cfg, s, a), b) <==> (Orphan(cfg, s, b) && !Rescues(cfg, s, a, b)) || Abandons(cfg, s, a, b)
  {
    hide Good, Shape, Enabled, Apply, Orphan, Rescues, Abandons;
    StepKeepsGood(cfg, s, a);
    match a
    case Make(id, m) => OrphansAfterMake(cfg, s, id, m, b);
    case Peer(id, p) => OrphansAfterPeer(cfg, s, id, p, b);
    case Core(c) => OrphansAfterCore(cfg, s, c, b);
  }

  /** Exactly which blocks behind a failed request become orphans: the requested ones that no other session
      has. */
  lemma FailedSendOrphansIff(cfg: Config, s: State, id: nat, b: BlockInfo)
    requires Reachable(cfg, s) && Shape(cfg, s) && Enabled(cfg, s, Make(id, FailSend))
    requires b in s.sessions[id].mode.batch[1..] && b !in s.sessions[id].outgoing
    ensures Orphan(cfg, Apply(cfg, s, Make(id, FailSend)), b) <==> Is(cfg.storage, s.downloads, b, Requested) && !HeldByOther(s, id, b)
  {
    hide Good, SessionsOk, DiskOk, TorrentOk, ConfigOk, PickerOk, Filed, Run, Is, HeldByOther, Session.Hand, Apply;
    ReachableGood(cfg, s);
    OrphansAfterStep(cfg, s, Make(id, FailSend), b);
    BehindInHand(cfg, s, id, b);
    GoodFormed(cfg, s);
    AnsweredIff(cfg, s, id, b);
  }

  lemma GoodFormed(cfg: Config, s: State)
    requires Good(cfg, s)
    ensures Formed(cfg, s) && Shape(cfg, s)
  {
    hide Shape, Touched, Books, Live, Sane;
  }

  /** A session picks a block that is requested already only in endgame, and not one it has outstanding. */
  lemma OnlyEndgamePicksAgain(cfg: Config, s: State, id: nat, target: nat, order: seq<nat>, b: BlockInfo)
    requires Good(cfg, s) && Shape(cfg, s) && Enabled(cfg, s, Make(id, StartRequests(target, order)))
    requires Is(cfg.storage, s.downloads, b, Requested) && Rescues(cfg, s, Make(id, StartRequests(target, order)), b)
    ensures s.sessions[id].inEndgame && b !in s.sessions[id].outgoing
  {
    hide Touched, Books, Live, Sane, SessionsOk, DiskOk, TorrentOk, ConfigOk, PickerOk, Continue, InGrid;
    var x := s.sessions[id];
    FiledIsSound(cfg.storage, s.downloads);
    var room := Room(Some(target), |x.outgoing|);
    ContinueFits(s.downloads, order, room, x.inEndgame, x.outgoing);
    assert PickedFrom(s.downloads, order, x.inEndgame, x.outgoing, b);
  }

  /** No step of the run rescues the block. */
  ghost predicate NeverRescued(cfg: Config, s: State, acts: seq<Action>, b: BlockInfo)
    decreases |acts|
  {
    acts == [] || (Shape(cfg, s) && Enabled(cfg, s, acts[0]) && !Rescues(cfg, s, acts[0], b) && NeverRescued(cfg, Apply(cfg, s, acts[0]), acts[1..], b))
  }

  /** Some step of the run abandons the block, and no later one rescues it. */
  ghost predicate LeftBehind(cfg: Config, s: State, acts: seq<Action>, b: BlockInfo)
    decreases |acts|
  {
    acts != [] && Shape(cfg, s) && Enabled(cfg, s, acts[0])
    && var next := Apply(cfg, s, acts[0]);
      (Abandons(cfg, s, acts[0], b) && NeverRescued(cfg, next, acts[1..], b)) || LeftBehind(cfg, next, acts[1..], b)
  }

  lemma {:induction false} OrphansAfterRun(cfg: Config, s: State, acts: seq<Action>, t: State, b: BlockInfo)
    requires Good(cfg, s) && Run(cfg, s, acts, t)
    ensures Orphan(cfg, t, b) <==> (Orphan(cfg, s, b) && NeverRescued(cfg, s, acts, b)) || LeftBehind(cfg, s, acts, b)
    decreases |acts|
  {
    hide Good, Shape, Enabled, Apply, Orphan, Rescues, Abandons;
    if acts != [] {
      StepKeepsGood(cfg, s, acts[0]);
      OrphansAfterStep(cfg, s, acts[0], b);
      OrphansAfterRun(cfg, Apply(cfg, s, acts[0]), acts[1..], t, b);
    }
  }

  /** The whole story of orphans: after any run of a fresh download, a block is requested with no live
      session to answer for it if and only if some step abandoned it and nothing has rescued it since. */
  lemma OrphanIffLeftBehind(cfg: Config, acts: seq<Action>, t: State, b: BlockInfo)
    requires ConfigOk(cfg) && Run(cfg, Init(cfg), acts, t)
    ensures Orphan(cfg, t, b) <==> LeftBehind(cfg, Init(cfg), acts, b)
  {
    hide Good, Run, ConfigOk, LeftBehind, NeverRescued, Answered;
    InitGood(cfg);
    OrphansAfterRun(cfg, Init(cfg), acts, t, b);
  }

  /** What is recorded as lost is still requested. */
  ghost predicate LostAsked(cfg: Config, s: State) {
    forall b :: b in s.lost ==> Is(cfg.storage, s.downloads, b, Requested)
  }

  lemma MakeKeepsLost(cfg: Config, s: State, id: nat, m: MakeStep)
    requires Good(cfg, s) && LostAsked(cfg, s) && Enabled(cfg, s, Make(id, m))
    ensures LostAsked(cfg, MakeApply(cfg, s, id, m))
  {
    hide Touched, Books, Live, Sane, SessionsOk, DiskOk, TorrentOk, ConfigOk, PickerOk, Filed, InGrid, StatusOf, Continue, OrderOf, PickBlocks, Elements,
      Session.Hand, MissingSet, FreeSet;
    var t := MakeApply(cfg, s, id, m);
    forall b | b in t.lost ensures Is(cfg.storage, t.downloads, b, Requested) {
      if b in s.lost {
        MakeMovesOn(cfg, s, id, m, b);
      } else {
        ForgottenInGrid(cfg, s, id, b);
      }
    }
  }

  lemma ForgottenInGrid(cfg: Config, s: State, id: nat, b: BlockInfo)
    requires Formed(cfg, s) && id in s.sessions
    ensures b in s.sessions[id].Hand() ==> InGrid(cfg.storage, b)
    ensures s.sessions[id].mode.Sending? && s.sessions[id].mode.batch != [] && b in Elements(s.sessions[id].mode.batch[1..]) ==> InGrid(cfg.storage, b)
  {
    hide SessionsOk, DiskOk, TorrentOk, ConfigOk, PickerOk, SessionsBegun, DiskBegun, TorrentBegun, Begun, Filed, InGrid, Unrepeated;
    SessionAt(cfg, s, id);
  }

  lemma OtherStepsKeepLost(cfg: Config, s: State, a: Action)
    requires Good(cfg, s) && LostAsked(cfg, s) && Enabled(cfg, s, a) && !a.Make?
    ensures LostAsked(cfg, Apply(cfg, s, a))
  {
    hide Touched, Books, Live, Sane, DiskOk, ConfigOk, Filed, InGrid, StatusOf, SetStatus, OrderOf, PickBlocks, Elements, Interesting,
      Session.Hand, MissingSet, FreeSet, Enqueue, Assemble, Hashes, Broadcast, Scatter;
    var t := Apply(cfg, s, a);
    forall b | b in t.lost ensures Is(cfg.storage, t.downloads, b, Requested) {
      match a
      case Peer(id, MarkBlock) =>
        SessionAt(cfg, s, id);
        SetStatusAt(cfg.storage, s.downloads, s.sessions[id].mode.block, Received, b);
      case Peer(id, FreeOne(block)) =>
        SessionAt(cfg, s, id);
        SetStatusAt(cfg.storage, s.downloads, block, Free, b);
      case Peer(id, Vanish(_)) => ForgottenInGrid(cfg, s, id, b);
      case Core(TakeCompletion) => CompletionIs(cfg.storage, s, b);
      case _ =>
    }
  }

  lemma {:induction false} RunKeepsLost(cfg: Config, s: State, acts: seq<Action>, t: State)
    requires Good(cfg, s) && LostAsked(cfg, s) && Run(cfg, s, acts, t)
    ensures LostAsked(cfg, t)
    decreases |acts|
  {
    hide Good, LostAsked, Shape, Enabled, MakeApply;
    if acts != [] {
      StepKeepsGood(cfg, s, acts[0]);
      match acts[0] {
        case Make(id, m) => MakeKeepsLost(cfg, s, id, m);
        case _ => OtherStepsKeepLost(cfg, s, acts[0]);
      }
      RunKeepsLost(cfg, Apply(cfg, s, acts[0]), acts[1..], t);
    }
  }

  /** The record is exact: an orphan is a block recorded as lost that no live session has taken up, and
      whatever is recorded is requested still. */
  lemma OrphanIffLost(cfg: Config, s: State, b: BlockInfo)
    requires Reachable(cfg, s)
    ensures Orphan(cfg, s, b) <==> b in s.lost && !Answered(s, b)
  {
    hide Good, ConfigOk, Run, Answered, Is;
    var acts :| Run(cfg, Init(cfg), acts, s);
    InitGood(cfg);
    RunKeepsLost(cfg, Init(cfg), acts, s);
    if Orphan(cfg, s, b) { NoOrphan(cfg, s, b); }
  }

  // A whole call of make_requests that fails.

  /** A picked block is requested in the download the pick leaves. */
  lemma PickedAsked(d: Download, count: nat, endgame: bool, prev: set<BlockInfo>, b: BlockInfo)
    requires d.Valid() && b in PickBlocks(d, count, endgame, prev).1
    ensures var r := PickBlocks(d, count, endgame, prev);
      b.pieceIndex == d.index && b.IndexInPiece() < |r.0.blocks| && r.0.blocks[b.IndexInPiece()].Requested?
  {
    PickFits(d, count, endgame, prev);
    var r := PickBlocks(d, count, endgame, prev);
    var j :| 0 <= j < |r.1| && r.1[j] == b;
    PickAt(d, count, endgame, prev, j);
    var t := Taken(d, 0, count, endgame, prev);
    assert r.0 == AfterPick(d, t) && t[j] in t;
  }

  predicate AllAsked(ds: DownloadMap, batch: seq<BlockInfo>) {
    forall b :: b in batch ==> StatusOf(ds, b) == Some(Requested)
  }

  lemma AskedHere(ds: DownloadMap, d: Download, room: nat, endgame: bool, prev: set<BlockInfo>)
    requires d.Valid() && d.index in ds && ds[d.index] == PickBlocks(d, room, endgame, prev).0
    ensures AllAsked(ds, PickBlocks(d, room, endgame, prev).1)
  {
    hide PickBlocks;
    var asked := PickBlocks(d, room, endgame, prev).1;
    forall b | b in asked ensures StatusOf(ds, b) == Some(Requested) { PickedAsked(d, room, endgame, prev, b); }
  }

  lemma {:induction false} ContinueAsked(ds: DownloadMap, order: seq<nat>, room: nat, endgame: bool, prev: set<BlockInfo>)
    requires Sound(ds) && Covers(ds, order) && Unrepeated(order)
    ensures var r := Continue(ds, order, room, endgame, prev); AllAsked(r.0, r.1)
    decreases |order|
  {
    hide PickBlocks, Download.Valid, Unrepeated, StatusOf, OnlyRequested;
    if order != [] && room > 0 {
      var d := ds[order[0]];
      var pick := PickBlocks(d, room, endgame, prev);
      var next := ds[order[0] := pick.0];
      HeadApart(order);
      ContinueAsked(next, order[1..], room - |pick.1|, endgame, prev);
      ContinueRequests(next, order[1..], room - |pick.1|, endgame, prev, order[0]);
      var rest := Continue(next, order[1..], room - |pick.1|, endgame, prev);
      AskedHere(rest.0, d, room, endgame, prev);
    }
  }

  lemma StillAsked(a: DownloadMap, b: DownloadMap, batch: seq<BlockInfo>)
    requires AllAsked(a, batch) && forall p :: p in a ==> p in b && a[p] == b[p]
    ensures AllAsked(b, batch)
  {
  }

  lemma {:induction false} OpenAllAsked(s: StorageInfo, q: Pipeline, room: nat, endgame: bool, prev: set<BlockInfo>)
    requires Requests.Flowing(s, q) && AllAsked(q.downloads, q.batch)
    ensures var r := OpenAll(s, q, room, endgame, prev); AllAsked(r.downloads, r.batch)
    decreases q.picker.free
  {
    hide PickBlocks, MissingSet, FreeSet, PendingSet, Unrepeated, Filed, InGrid, StatusOf;
    var index := FirstPickable(q.picker, 0);
    if room > 0 && index.Some? {
      OpenFlows(s, q, index.value, room, endgame, prev);
      var next := Open(s, q, index.value, room, endgame, prev);
      StillAsked(q.downloads, next.downloads, q.batch);
      AskedHere(next.downloads, NewDownload(index.value, s.PieceLen(index.value)), room, endgame, prev);
      OpenAllAsked(s, next, room - (|next.batch| - |q.batch|), endgame, prev);
    }
  }

  /** After the picks, all of the batch is requested, and of the other blocks those that were. */
  lemma FillStatus(s: StorageInfo, p: Picker, ds: DownloadMap, order: seq<nat>, room: nat, endgame: bool, prev: set<BlockInfo>, b: BlockInfo)
    requires Requests.Flowing(s, Pipeline(p, ds, [])) && OrderOf(ds, order) && InGrid(s, b)
    ensures var r := FillPipeline(s, p, ds, order, room, endgame, prev);
      Is(s, r.downloads, b, Requested) <==> b in r.batch || Is(s, ds, b, Requested)
  {
    hide Continue, OpenAll, Picker.Valid, PendingSet, Unrepeated, InGrid;
    PipelineEffect(s, p, ds, order, room, endgame, prev);
    FillAsked(s, p, ds, order, room, endgame, prev);
    var r := FillPipeline(s, p, ds, order, room, endgame, prev);
    var k := b.pieceIndex;
    if k in r.downloads {
      assert FiledAt(s, r.downloads[k], k);
      GridIndex(s, r.downloads[k], b);
      if k in ds {
        assert FiledAt(s, ds[k], k);
        assert StatusStep(ds[k], r.downloads[k], b.IndexInPiece(), r.batch);
      }
    }
  }

  lemma GridIndex(s: StorageInfo, d: Download, b: BlockInfo)
    requires InGrid(s, b) && FiledAt(s, d, b.pieceIndex)
    ensures b.IndexInPiece() < |d.blocks| && d.Block(b.IndexInPiece()) == b
  {
  }

  lemma FillAsked(s: StorageInfo, p: Picker, ds: DownloadMap, order: seq<nat>, room: nat, endgame: bool, prev: set<BlockInfo>)
    requires Requests.Flowing(s, Pipeline(p, ds, [])) && OrderOf(ds, order)
    ensures var r := FillPipeline(s, p, ds, order, room, endgame, prev); AllAsked(r.downloads, r.batch)
  {
    hide Continue, OpenAll, AllAsked;
    ContinueFlows(s, p, ds, order, room, endgame, prev);
    ContinueAsked(ds, order, room, endgame, prev);
    var c := Continue(ds, order, room, endgame, prev);
    OpenAllAsked(s, Pipeline(p, c.0, c.1), room - |c.1|, endgame, prev);
  }

  /** Exactly which blocks are orphans when send number `k` of a whole `make_requests` fails. With somebody
      listening for the alert they are those it picked behind that request and nobody answered for before
      the call, and those it did not pick that were orphans already: a block requested already and picked
      once more in endgame is none, unless it was one before. With nobody listening they are all requested
      blocks that no other session has. */
  lemma FailedCallOrphansIff(cfg: Config, s: State, id: nat, target: nat, order: seq<nat>, k: nat) returns (acts: seq<Action>, t: State)
    requires Good(cfg, s) && Shape(cfg, s) && PickerFree(s.sessions) && Enabled(cfg, s, Make(id, StartRequests(target, order)))
    requires Requests.Flowing(cfg.storage, Pipeline(s.picker, s.downloads, []))
    requires var x := s.sessions[id];
      k < |FillPipeline(cfg.storage, s.picker, s.downloads, order, Room(Some(target), |x.outgoing|), x.inEndgame, x.outgoing).batch|
    ensures Orderly(acts)
    ensures Run(cfg, s, acts, t) && Good(cfg, t) && t.sessions.Keys == s.sessions.Keys && t.torrent == s.torrent
    ensures id in t.sessions && t.sessions[id].mode == if s.heard then Draining(Stop) else Dead
    ensures var x := s.sessions[id];
      var r := FillPipeline(cfg.storage, s.picker, s.downloads, order, Room(Some(target), |x.outgoing|), x.inEndgame, x.outgoing);
      && t.downloads == r.downloads
      && (s.heard ==> forall b :: Orphan(cfg, t, b) <==> (b in r.batch[k + 1..] && !Answered(s, b)) || (b !in r.batch && Orphan(cfg, s, b)))
      && (!s.heard ==> forall b :: Orphan(cfg, t, b) <==> (b in r.batch || Is(cfg.storage, s.downloads, b, Requested)) && !HeldByOther(s, id, b))
  {
    hide Good, Run, SessionsOk, DiskOk, TorrentOk, ConfigOk, PickerOk, Filed, Elements, FillPipeline, Requests.Flowing, Asked, Orphan, Answered, HeldByOther, Is,
      PickerFree;
    acts, t := FailedRequestsRun(cfg, s, id, target, order, k);
    var x := s.sessions[id];
    var r := FillPipeline(cfg.storage, s.picker, s.downloads, order, Room(Some(target), |x.outgoing|), x.inEndgame, x.outgoing);
    forall b
      ensures s.heard ==> (Orphan(cfg, t, b) <==> (b in r.batch[k + 1..] && !Answered(s, b)) || (b !in r.batch && Orphan(cfg, s, b)))
      ensures !s.heard ==> (Orphan(cfg, t, b) <==> (b in r.batch || Is(cfg.storage, s.downloads, b, Requested)) && !HeldByOther(s, id, b))
    {
      FailedCallAt(cfg, s, id, order, Room(Some(target), |x.outgoing|), k, t, b);
    }
  }

  lemma FailedCallAt(cfg: Config, s: State, id: nat, order: seq<nat>, room: nat, k: nat, t: State, b: BlockInfo)
    requires Good(cfg, s) && Good(cfg, t) && id in s.sessions && s.sessions[id].mode.Idle? && OrderOf(s.downloads, order)
    requires Requests.Flowing(cfg.storage, Pipeline(s.picker, s.downloads, []))
    requires var x := s.sessions[id];
      var r := FillPipeline(cfg.storage, s.picker, s.downloads, order, room, x.inEndgame, x.outgoing);
      && k < |r.batch| && t.downloads == r.downloads
      && t.sessions == s.sessions[id := if s.heard then x.(mode := Draining(Stop), outgoing := x.outgoing + Elements(r.batch[..k + 1]))
        else x.(mode := Dead, outgoing := {})]
    ensures var x := s.sessions[id];
      var r := FillPipeline(cfg.storage, s.picker, s.downloads, order, room, x.inEndgame, x.outgoing);
      && (s.heard ==> (Orphan(cfg, t, b) <==> (b in r.batch[k + 1..] && !Answered(s, b)) || (b !in r.batch && Orphan(cfg, s, b))))
      && (!s.heard ==> (Orphan(cfg, t, b) <==> (b in r.batch || Is(cfg.storage, s.downloads, b, Requested)) && !HeldByOther(s, id, b)))
  {
    hide Good, OrderOf, Elements, FillPipeline, Requests.Flowing, Answered, HeldByOther, InGrid, Session.Hand, StatusOf, Unrepeated;
    var x := s.sessions[id];
    var r := FillPipeline(cfg.storage, s.picker, s.downloads, order, room, x.inEndgame, x.outgoing);
    PipelineContract(cfg.storage, s.picker, s.downloads, order, room, x.inEndgame, x.outgoing);
    BatchParts(r.batch, k + 1, b);
    InElements(r.batch[..k + 1], b);
    HandsOutgoing(x);
    HandsOutgoing(t.sessions[id]);
    GoodFormed(cfg, s);
    GoodFormed(cfg, t);
    AnsweredIff(cfg, s, id, b);
    SessionAnswers(cfg, s, t, id, b);
    if InGrid(cfg.storage, b) { FillStatus(cfg.storage, s.picker, s.downloads, order, room, x.inEndgame, x.outgoing, b); }
  }

  lemma BatchParts(batch: seq<BlockInfo>, n: nat, b: BlockInfo)
    requires Unrepeated(batch) && n <= |batch|
    ensures b in batch <==> b in batch[..n] || b in batch[n..]
    ensures !(b in batch[..n] && b in batch[n..])
  {
    assert batch == batch[..n] + batch[n..];
    forall i, j | 0 <= i < n && 0 <= j < |batch[n..]| ensures batch[..n][i] != batch[n..][j] {
      assert batch[i] != batch[n + j];
    }
  }
}
