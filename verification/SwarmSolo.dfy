/** A session on its own frees no block that has been received: while at most one session is live at any
    time, no piece is flushed twice and the torrent task does not panic (cratetorrent/src/peer.rs). */
module SwarmSolo {
  import opened Wrappers
  import opened Blocks
  import opened FlatDisk
  import opened PieceBuffer
  import opened Downloads
  import opened PiecePicking
  import opened Requests
  import opened PeerSession
  import opened Swarm
  import opened SwarmShape
  import opened SwarmBooks
  import opened SwarmLiveness
  import opened SwarmIntegrity
  import opened SwarmRuns
  import opened SwarmPanic
  import opened SwarmOnce
  import O = SwarmOrphans

  /** At most one session is still running. */
  ghost predicate OneLive(s: State) {
    forall i, j :: i in s.sessions && j in s.sessions && !s.sessions[i].mode.Dead? && !s.sessions[j].mode.Dead? ==> i == j
  }

  ghost predicate SoloRun(cfg: Config, s: State, acts: seq<Action>)
    decreases |acts|
  {
    OneLive(s) && (acts == [] || (Shape(cfg, s) && Enabled(cfg, s, acts[0]) && SoloRun(cfg, Apply(cfg, s, acts[0]), acts[1..])))
  }

  predicate Wants(x: Session, b: BlockInfo) { b in x.outgoing || b in x.Batch() }

  /** No session waits for a block that has been received or that it is just taking in. */
  ghost predicate Waiting(s: State, id: nat, b: BlockInfo) {
    id in s.sessions && Wants(s.sessions[id], b) ==>
      StatusOf(s.downloads, b) != Some(Received) && !(s.sessions[id].mode.Delivering? && s.sessions[id].mode.block == b)
  }

  ghost predicate NoneReceived(s: State) {
    forall id, b :: Waiting(s, id, b)
  }

  lemma WantsInGrid(cfg: Config, s: State, id: nat, b: BlockInfo)
    requires Formed(cfg, s) && id in s.sessions && Wants(s.sessions[id], b)
    ensures InGrid(cfg.storage, b) && !s.sessions[id].mode.Dead?
  {
    hide SessionsOk, DiskOk, TorrentOk, ConfigOk, PickerOk, SessionsBegun, DiskBegun, TorrentBegun, Begun, Filed, InGrid, Unrepeated;
    SessionAt(cfg, s, id);
  }

  /** A session that comes to want a block has just picked it, and it was not received. */
  lemma MakeWants(cfg: Config, s: State, id: nat, a: MakeStep, b: BlockInfo)
    requires Formed(cfg, s) && MakeEnabled(cfg, s, id, a) && InGrid(cfg.storage, b)
    requires id in MakeApply(cfg, s, id, a).sessions && Wants(MakeApply(cfg, s, id, a).sessions[id], b)
    ensures Wants(s.sessions[id], b) || StatusOf(s.downloads, b) != Some(Received)
  {
    hide SessionsOk, DiskOk, TorrentOk, ConfigOk, SessionsBegun, DiskBegun, TorrentBegun, Filed, InGrid, Continue, PickBlocks, FirstPickable, Elements, Asked,
      Session.Hand, MissingSet, FreeSet, PickerFree, OrderOf, StatusOf;
    var x := s.sessions[id];
    match a
    case StartRequests(target, order) =>
      if b !in x.outgoing { PickedFree(cfg, s, id, target, order, b); }
    case PickPiece =>
      if !Wants(x, b) { PickedNew(cfg, s, id, b); }
    case SendRequest =>
      if b in x.mode.batch[1..] { TailIn(x.mode.batch, b); }
    case FailSend =>
    case _ =>
  }

  lemma TailIn<T>(s: seq<T>, x: T)
    requires s != [] && x in s[1..]
    ensures x in s
  {
  }

  lemma PickedFree(cfg: Config, s: State, id: nat, target: nat, order: seq<nat>, b: BlockInfo)
    requires Formed(cfg, s) && MakeEnabled(cfg, s, id, StartRequests(target, order))
    requires b in StartRequestsStep(cfg, s, id, target, order).sessions[id].mode.batch
    ensures StatusOf(s.downloads, b) != Some(Received)
  {
    hide Touched, SessionsOk, DiskOk, TorrentOk, ConfigOk, PickerOk, Continue;
    var x := s.sessions[id];
    FiledIsSound(cfg.storage, s.downloads);
    var room := Room(Some(target), |x.outgoing|);
    ContinueFits(s.downloads, order, room, x.inEndgame, x.outgoing);
    assert PickedFrom(s.downloads, order, x.inEndgame, x.outgoing, b);
  }

  lemma PickedNew(cfg: Config, s: State, id: nat, b: BlockInfo)
    requires Formed(cfg, s) && MakeEnabled(cfg, s, id, PickPiece) && !Wants(s.sessions[id], b)
    requires Wants(PickPieceStep(cfg, s, id, FirstPickable(s.picker, 0).value).sessions[id], b)
    ensures StatusOf(s.downloads, b) == None
  {
    hide SessionsOk, DiskOk, TorrentOk, ConfigOk, SessionsBegun, DiskBegun, TorrentBegun, Filed, PickBlocks, MissingSet, FreeSet, PickerFree;
    var x := s.sessions[id];
    var i := FirstPickable(s.picker, 0).value;
    var d := NewDownload(i, cfg.storage.PieceLen(i));
    PickFits(d, RoomLeft(x), x.inEndgame, x.outgoing);
    assert b in PickBlocks(d, RoomLeft(x), x.inEndgame, x.outgoing).1;
    assert i !in Begun(s.picker);
  }

  lemma MakeWaits(cfg: Config, s: State, id: nat, a: MakeStep)
    requires Formed(cfg, s) && Books(s) && MakeEnabled(cfg, s, id, a) && NoneReceived(s) && Formed(cfg, MakeApply(cfg, s, id, a))
    ensures NoneReceived(MakeApply(cfg, s, id, a))
  {
    hide Shape, Touched, Books, MakeEnabled, MakeApply, StatusOf, Wants, InGrid;
    var t := MakeApply(cfg, s, id, a);
    MakeActs(cfg, s, id, a);
    forall k, b ensures Waiting(t, k, b) {
      assert Waiting(s, k, b);
      if k in t.sessions && Wants(t.sessions[k], b) {
        WantsInGrid(cfg, t, k, b);
        MakeReceived(cfg, s, id, a, b);
        if k == id { MakeWants(cfg, s, id, a, b); }
      }
    }
  }

  lemma PeerWaits(cfg: Config, s: State, id: nat, a: PeerStep)
    requires Formed(cfg, s) && PeerEnabled(cfg, s, id, a) && NoneReceived(s) && OneLive(s)
    ensures NoneReceived(PeerApply(cfg, s, id, a))
  {
    hide Touched, SessionsOk, DiskOk, TorrentOk, ConfigOk, Filed, PickerOk, MissingSet, FreeSet, StatusOf, InGrid, PeerEnabled, PeerApply;
    var t := PeerApply(cfg, s, id, a);
    forall k, b ensures Waiting(t, k, b) {
      assert Waiting(s, k, b);
      PeerWaitsAt(cfg, s, id, a, k, b);
    }
  }

  lemma PeerWaitsAt(cfg: Config, s: State, id: nat, a: PeerStep, k: nat, b: BlockInfo)
    requires Formed(cfg, s) && PeerEnabled(cfg, s, id, a) && Waiting(s, k, b) && OneLive(s)
    ensures Waiting(PeerApply(cfg, s, id, a), k, b)
  {
    hide Shape, Touched, PeerEnabled, Waiting, OneLive, MarkBlockStep, FreeOneStep, VanishStep, HandBlockStep, EndDrainStep, BlockStep, BitfieldStep, HaveStep,
      TakeCommandStep, SetMode, SetSession;
    match a
    case MarkBlock => MarkWaits(cfg, s, id, k, b);
    case FreeOne(block) => FreeWaits(cfg, s, id, block, k, b);
    case Vanish(panics) => VanishWaits(cfg, s, id, panics, k, b);
    case _ => PlainWaits(cfg, s, id, a, k, b);
  }

  lemma PlainWaits(cfg: Config, s: State, id: nat, a: PeerStep, k: nat, b: BlockInfo)
    requires Shape(cfg, s) && PeerEnabled(cfg, s, id, a) && Waiting(s, k, b) && !a.MarkBlock? && !a.FreeOne? && !a.Vanish?
    ensures Waiting(PeerApply(cfg, s, id, a), k, b)
  {
    hide Shape, PeerEnabled, PeerApply, StatusOf;
    O.PlainStep(cfg, s, id, a);
  }

  lemma VanishWaits(cfg: Config, s: State, id: nat, panics: bool, k: nat, b: BlockInfo)
    requires Shape(cfg, s) && PeerEnabled(cfg, s, id, Vanish(panics)) && Waiting(s, k, b)
    ensures Waiting(VanishStep(s, id), k, b)
  {
    hide SessionsOk, DiskOk, TorrentOk, ConfigOk, PickerOk, Filed, InGrid, StatusOf, Asked, Session.Hand;
  }

  /** Only the session that takes the block in is live, so no other waits for it. */
  lemma MarkWaits(cfg: Config, s: State, id: nat, k: nat, b: BlockInfo)
    requires Formed(cfg, s) && PeerEnabled(cfg, s, id, MarkBlock) && Waiting(s, k, b) && OneLive(s)
    ensures Waiting(MarkBlockStep(s, id), k, b)
  {
    hide SessionsOk, DiskOk, TorrentOk, ConfigOk, PickerOk, SessionsBegun, DiskBegun, TorrentBegun, Begun, Filed, InGrid, StatusOf, SetStatus, Wants, Session.Hand;
    SessionAt(cfg, s, id);
    if k in s.sessions && Wants(s.sessions[k], b) {
      WantsInGrid(cfg, s, k, b);
      SetStatusAt(cfg.storage, s.downloads, s.sessions[id].mode.block, Received, b);
    }
    WantsSame(s.sessions[id], MarkBlockStep(s, id).sessions[id], b);
  }

  lemma WantsSame(x: Session, y: Session, b: BlockInfo)
    requires !x.InMake() && !y.InMake() && y.outgoing <= x.outgoing
    ensures Wants(y, b) ==> Wants(x, b)
  {
  }

  lemma FreeWaits(cfg: Config, s: State, id: nat, block: BlockInfo, k: nat, b: BlockInfo)
    requires Formed(cfg, s) && PeerEnabled(cfg, s, id, FreeOne(block)) && Waiting(s, k, b)
    ensures Waiting(FreeOneStep(s, id, block), k, b)
  {
    hide SessionsOk, DiskOk, TorrentOk, ConfigOk, PickerOk, SessionsBegun, DiskBegun, TorrentBegun, Begun, Filed, InGrid, StatusOf, SetStatus, Wants, Session.Hand;
    SessionAt(cfg, s, id);
    if k in s.sessions && Wants(s.sessions[k], b) {
      WantsInGrid(cfg, s, k, b);
      SetStatusAt(cfg.storage, s.downloads, block, Free, b);
    }
    WantsSame(s.sessions[id], FreeOneStep(s, id, block).sessions[id], b);
  }

  lemma CoreWaits(cfg: Config, s: State, a: CoreStep)
    requires Formed(cfg, s) && CoreEnabled(cfg, s, a) && NoneReceived(s)
    ensures NoneReceived(CoreApply(cfg, s, a))
  {
    hide SessionsOk, DiskOk, TorrentOk, ConfigOk, PickerOk, SessionsBegun, DiskBegun, TorrentBegun, Begun, Filed, InGrid, StatusOf, CoreApply;
    var t := CoreApply(cfg, s, a);
    CoreActs(cfg, s, a);
    CoreStatus(cfg, s, a);
    forall k, b ensures Waiting(t, k, b) { assert Waiting(s, k, b); }
  }

  lemma CoreStatus(cfg: Config, s: State, a: CoreStep)
    requires Shape(cfg, s) && CoreEnabled(cfg, s, a)
    ensures forall b :: StatusOf(CoreApply(cfg, s, a).downloads, b) == Some(Received) ==> StatusOf(s.downloads, b) == Some(Received)
  {
    hide SessionsOk, DiskOk, ConfigOk, Filed, MissingSet, FreeSet, Enqueue, Assemble, Scatter, Hashes, Broadcast, StatusOf, TakeCompletionStep;
    if a.TakeCompletion? {
      forall b ensures StatusOf(CoreApply(cfg, s, a).downloads, b) == Some(Received) ==> StatusOf(s.downloads, b) == Some(Received) { CompletionStatus(s, b); }
    }
  }

  lemma StepWaits(cfg: Config, s: State, a: Action)
    requires Good(cfg, s) && Enabled(cfg, s, a) && NoneReceived(s) && OneLive(s)
    ensures NoneReceived(Apply(cfg, s, a)) && forall q :: !FreesReceived(s, a, q)
  {
    hide Shape, Touched, Books, Live, Sane, NoneReceived, OneLive, MakeEnabled, PeerEnabled, CoreEnabled, MakeApply, PeerApply, CoreApply;
    StepKeepsForm(cfg, s, a);
    match a
    case Make(id, m) => MakeWaits(cfg, s, id, m);
    case Peer(id, p) => PeerWaits(cfg, s, id, p); FreesWaiting(cfg, s, id, p);
    case Core(c) => CoreWaits(cfg, s, c);
  }

  lemma FreesWaiting(cfg: Config, s: State, id: nat, p: PeerStep)
    requires Shape(cfg, s) && PeerEnabled(cfg, s, id, p) && NoneReceived(s)
    ensures forall q :: !FreesReceived(s, Peer(id, p), q)
  {
    hide PickerOk, SessionsOk, DiskOk, TorrentOk, ConfigOk, Filed, StatusOf, InGrid;
    if p.FreeOne? { assert Waiting(s, id, p.block); }
  }

  lemma {:induction false} SoloIsGentle(cfg: Config, s: State, acts: seq<Action>, q: nat)
    requires Good(cfg, s) && NoneReceived(s) && SoloRun(cfg, s, acts)
    ensures Gentle(cfg, s, acts, q)
    decreases |acts|
  {
    hide Good, Shape, Enabled, Apply, NoneReceived, OneLive, FreesReceived;
    if acts != [] {
      StepKeepsGood(cfg, s, acts[0]);
      StepWaits(cfg, s, acts[0]);
      SoloIsGentle(cfg, Apply(cfg, s, acts[0]), acts[1..], q);
    }
  }

  /** A run in which at most one session is live at any time frees no received block, and so flushes each
      piece at most once and does not panic. */
  lemma SoloFlushedOnce(cfg: Config, acts: seq<Action>, t: State)
    requires ConfigOk(cfg) && Run(cfg, Init(cfg), acts, t) && SoloRun(cfg, Init(cfg), acts)
    ensures forall q :: Gentle(cfg, Init(cfg), acts, q)
    ensures !t.torrent.panicked && forall q :: FlushCount(cfg, Init(cfg), acts, q) <= 1
  {
    hide Good, Run, Gentle, SoloRun, FlushCount, ConfigOk, PanicOver;
    InitGood(cfg);
    forall q: nat ensures Gentle(cfg, Init(cfg), acts, q) && FlushCount(cfg, Init(cfg), acts, q) <= 1 {
      SoloIsGentle(cfg, Init(cfg), acts, q);
      FlushedOnce(cfg, acts, t, q);
    }
    if t.torrent.panicked { var q := PanicNeedsFree(cfg, acts, t); }
  }
}
