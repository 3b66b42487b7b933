/** When orphans happen at all. While every session that ends cleans up, a torrent can come to a requested
    block nobody answers for exactly when it has more than one block; once a session ends without its
    cleanup, every torrent can (cratetorrent/src/peer.rs). */
module SwarmOrphanRun {
  import opened Wrappers
  import opened Blocks
  import opened Storage
  import opened Downloads
  import opened PiecePicking
  import opened Requests
  import opened PeerSession
  import opened Swarm
  import opened SwarmShape
  import opened SwarmBooks
  import opened SwarmLiveness
  import opened SwarmIntegrity
  import opened SwarmRuns
  import opened SwarmSequential
  import opened SwarmOrphans
  import opened SwarmScene
  import S = SessionState

  ghost predicate ManyBlocks(s: StorageInfo)
    requires s.pieceCount > 0
  {
    s.pieceCount > 1 || BlockCount(s.PieceLen(0)) > 1
  }

  lemma FirstTwo(p: Picker)
    requires p.SameShape() && forall i :: 0 <= i < |p.own| ==> p.Pickable(i)
    ensures |p.own| > 0 ==> FirstPickable(p, 0) == Some(0) && p.IsFree(0)
    ensures |p.own| > 1 ==> FirstPickable(Pick(p, 0), 0) == Some(1)
  {
    if |p.own| > 1 { assert p.Pickable(0) && p.Pickable(1) && Pick(p, 0).Pickable(1); }
  }

  /** With more than one block, all of them available, the first batch holds at least two requests. */
  lemma OpensTwo(s: StorageInfo, q: Pipeline)
    requires Requests.Flowing(s, q) && q.picker.SameShape() && |q.picker.own| == s.pieceCount > 0 && ManyBlocks(s)
    requires forall i :: 0 <= i < s.pieceCount ==> s.PieceLen(i) > 0 && q.picker.Pickable(i)
    requires q.batch == []
    ensures |OpenAll(s, q, S.START_REQUEST_QUEUE_LEN, false, {}).batch| > 1
  {
    hide PickBlocks, Requests.Flowing, BlockCount, StorageInfo.PieceLen, Picker.Pickable, Picker.IsFree, FirstPickable, Pick, OpenAll;
    var room := S.START_REQUEST_QUEUE_LEN;
    FirstTwo(q.picker);
    OpensMore(s, q, room);
    if s.pieceCount > 1 { OpensSecond(s, q, room); }
  }

  lemma OpensSecond(s: StorageInfo, q: Pipeline, room: nat)
    requires Requests.Flowing(s, q) && q.picker.SameShape() && |q.picker.own| == s.pieceCount > 1 && room > 1
    requires FirstPickable(q.picker, 0) == Some(0) && q.picker.IsFree(0) && FirstPickable(Pick(q.picker, 0), 0) == Some(1)
    requires s.PieceLen(0) > 0 && s.PieceLen(1) > 0 && q.batch == []
    ensures |OpenAll(s, q, room, false, {}).batch| > 1
  {
    hide PickBlocks, Requests.Flowing, StorageInfo.PieceLen, Picker.IsFree, FirstPickable, Pick;
    var next := Open(s, q, 0, room, false, {});
    OpenFlows(s, q, 0, room, false, {});
    OpenAllStays(s, next, room - |next.batch|, false, {});
    PicksSome(0, s.PieceLen(0), room);
    if |next.batch| == 1 { OpensMore(s, next, room - 1); }
  }

  /** The state in which a session that may ask for everything asks for the first time. */
  ghost predicate Fresh(cfg: Config, s: State) {
    && Good(cfg, s) && !s.torrent.panicked && s.heard && s.downloads == map[] && s.sessions == map[0 := Joined(true)]
    && s.picker.SameShape() && |s.picker.own| == cfg.storage.pieceCount > 0
    && forall i :: 0 <= i < cfg.storage.pieceCount ==> s.picker.Pickable(i)
  }

  /** The one peer has every piece and unchokes. */
  lemma Begin(cfg: Config) returns (acts: seq<Action>, t: State)
    requires ConfigOk(cfg)
    ensures Run(cfg, Init(cfg), acts, t) && Fresh(cfg, t) && Quiet(acts)
  {
    hide Good, Run, SessionsOk, DiskOk, TorrentOk, MissingSet, FreeSet, Filed, Contiguous, Total;
    var s := Init(cfg);
    var bits := seq(cfg.storage.pieceCount, _ => true);
    InitGood(cfg);
    GoodShape(cfg, s);
    NoStep(cfg, s);
    assert bits[0] && s.picker.Missing(0);
    acts, t := Joins(cfg, s, [], s, 0, bits, true);
  }

  lemma FreshBatch(cfg: Config, s: State, order: seq<nat>)
    requires Fresh(cfg, s) && ConfigOk(cfg) && |order| == 0
    ensures Requests.Flowing(cfg.storage, Pipeline(s.picker, s.downloads, [])) && OrderOf(s.downloads, order)
    ensures var r := FillPipeline(cfg.storage, s.picker, s.downloads, order, S.START_REQUEST_QUEUE_LEN, false, {});
      r.batch != [] && (ManyBlocks(cfg.storage) ==> |r.batch| > 1)
  {
    hide Good, OpenAll, Continue, Requests.Flowing, ManyBlocks, FirstPickable, FillPipeline;
    GoodShape(cfg, s);
    forall i | 0 <= i < cfg.storage.pieceCount ensures cfg.storage.PieceLen(i) > 0 { LenPositive(cfg.storage, i); }
    FirstTwo(s.picker);
    FirstBatch(cfg.storage, s.picker, s.downloads, order, S.START_REQUEST_QUEUE_LEN);
    if ManyBlocks(cfg.storage) { OpensTwo(cfg.storage, Pipeline(s.picker, s.downloads, [])); }
  }

  /** A session asks for its first blocks, and the first send fails: the second block is an orphan. */
  lemma Abandoned(cfg: Config, s0: State, acts: seq<Action>, s: State) returns (more: seq<Action>, t: State, b: BlockInfo)
    requires ConfigOk(cfg) && Run(cfg, s0, acts, s) && Fresh(cfg, s) && ManyBlocks(cfg.storage) && Quiet(acts)
    ensures Run(cfg, s0, more, t) && Good(cfg, t) && Orphan(cfg, t, b) && Orderly(more)
    ensures !t.torrent.panicked && t.sessions.Keys == {0} && t.sessions[0].mode == Draining(Stop)
  {
    hide Good, Run, SessionsOk, DiskOk, TorrentOk, PickerOk, Filed, Requests.Flowing, FillPipeline, Orphan, ManyBlocks, StorageInfo.Valid, Orderly, Quiet;
    GoodShape(cfg, s);
    var none: seq<nat> := [];
    FreshBatch(cfg, s, none);
    var r := FillPipeline(cfg.storage, s.picker, s.downloads, none, S.START_REQUEST_QUEUE_LEN, false, {});
    var steps;
    steps, t := FailedCallOrphansIff(cfg, s, 0, S.START_REQUEST_QUEUE_LEN, none, 0);
    b := r.batch[1];
    assert r.batch[0 + 1..][0] == b && s.sessions[0].Hand() == {};
    more := acts + steps;
    QuietIsOrderly(acts);
    OrderlyAppend(acts, steps);
    RunAppend(cfg, s0, acts, s, steps, t);
  }

  /** The session cleans up and is gone; nobody is left, and the block is requested still. */
  lemma Deserted(cfg: Config, acts: seq<Action>, s: State, b: BlockInfo) returns (more: seq<Action>, t: State)
    requires ConfigOk(cfg) && Run(cfg, Init(cfg), acts, s) && Good(cfg, s) && Orphan(cfg, s, b) && Orderly(acts)
    requires !s.torrent.panicked && s.sessions.Keys == {0} && s.sessions[0].mode == Draining(Stop)
    ensures Run(cfg, Init(cfg), more, t) && Orphan(cfg, t, b) && Orderly(more) && t.sessions.Keys == {0} && t.sessions[0].mode.Dead?
  {
    hide Good, Run, SessionsOk, DiskOk, TorrentOk, PickerOk, Filed, FreedAll, Is, ConfigOk, Orderly, Quiet;
    GoodShape(cfg, s);
    FreedNone(cfg.storage, s.downloads);
    var frees, u := DrainsRun(cfg, s, s, 0, {});
    RunAppend(cfg, Init(cfg), acts, s, frees, u);
    QuietIsOrderly(frees);
    OrderlyAppend(acts, frees);
    GoodShape(cfg, u);
    more, t := Step(cfg, Init(cfg), acts + frees, u, Peer(0, EndDrain));
    OrphanIffLost(cfg, s, b);
    OrphanIffLost(cfg, t, b);
    HandsOutgoing(s.sessions[0]);
    assert !HeldBy(s.sessions, 0, b);
  }

  /** Every torrent of more than one block has a run in which its one session fails on its first send,
      cleans up and ends, and a block stays requested with no session left. */
  lemma OrphanHappens(cfg: Config)
    requires ConfigOk(cfg) && cfg.storage.pieceCount > 0 && ManyBlocks(cfg.storage)
    ensures exists acts, t, b ::
      Run(cfg, Init(cfg), acts, t) && Orderly(acts) && Orphan(cfg, t, b) && t.sessions.Keys == {0} && t.sessions[0].mode.Dead?
  {
    hide Run, Fresh, Good, Orphan, ManyBlocks, ConfigOk, Orderly, Quiet;
    var acts, s := Begin(cfg);
    var b;
    acts, s, b := Abandoned(cfg, Init(cfg), acts, s);
    acts, s := Deserted(cfg, acts, s, b);
  }

  // Ends without cleanup.

  /** A run in which every send succeeds, and which ends with the one session ending without its cleanup. */
  predicate EndsUncleanly(acts: seq<Action>, id: nat, panics: bool) {
    && |acts| >= (if panics then 1 else 2) && acts[|acts| - 1] == Peer(id, Vanish(panics))
    && if panics then Quiet(acts[..|acts| - 1]) else Quiet(acts[..|acts| - 2]) && acts[|acts| - 2] == Core(DropAlerts)
  }

  /** The session has asked for a block. */
  lemma Asks(cfg: Config, acts: seq<Action>, s: State) returns (more: seq<Action>, t: State, b: BlockInfo)
    requires ConfigOk(cfg) && Run(cfg, Init(cfg), acts, s) && Fresh(cfg, s) && Quiet(acts)
    ensures Run(cfg, Init(cfg), more, t) && Good(cfg, t) && Shape(cfg, t) && Quiet(more)
    ensures !t.torrent.panicked && t.heard && t.sessions.Keys == {0} && t.sessions[0].mode.Idle?
    ensures Is(cfg.storage, t.downloads, b, Requested) && b in t.sessions[0].outgoing
  {
    hide Good, Run, SessionsOk, DiskOk, TorrentOk, PickerOk, Filed, Requests.Flowing, FillPipeline, StorageInfo.Valid, Quiet, StatusOf, InGrid, Unrepeated, AllExhausted, FirstPickable;
    GoodShape(cfg, s);
    var none: seq<nat> := [];
    FreshBatch(cfg, s, none);
    var r := FillPipeline(cfg.storage, s.picker, s.downloads, none, S.START_REQUEST_QUEUE_LEN, false, {});
    PipelineContract(cfg.storage, s.picker, s.downloads, none, S.START_REQUEST_QUEUE_LEN, false, {});
    b := r.batch[0];
    FillStatus(cfg.storage, s.picker, s.downloads, none, S.START_REQUEST_QUEUE_LEN, false, {}, b);
    var steps;
    steps, t := MakeRequestsRuns(cfg, s, 0, S.START_REQUEST_QUEUE_LEN, none);
    more := acts + steps;
    QuietAppend(acts, steps);
    RunAppend(cfg, Init(cfg), acts, s, steps, t);
    RunKeepsGood(cfg, s, steps, t);
    GoodShape(cfg, t);
    assert b in r.batch && b in Elements(r.batch);
    assert t.sessions.Keys == {0};
  }

  /** Every torrent has a run in which all sends succeed and its one session, with a block outstanding,
      ends without cleanup, so that the block stays requested with no session left. The session panics, or
      it ends in an error after the user has let go of the alerts. */
  lemma UncleanEndOrphans(cfg: Config, panics: bool)
    requires ConfigOk(cfg)
    ensures exists acts, t, b ::
      Run(cfg, Init(cfg), acts, t) && EndsUncleanly(acts, 0, panics) && Orphan(cfg, t, b) && t.sessions.Keys == {0} && t.sessions[0].mode.Dead?
  {
    hide Run, Fresh, Good, Shape, Orphan, ConfigOk, Is, Quiet;
    var acts, s := Begin(cfg);
    var b;
    acts, s, b := Asks(cfg, acts, s);
    var more, t := acts, s;
    if !panics { more, t := Deafens(cfg, acts, s); }
    more, t := Vanishes(cfg, more, t, b, panics);
    assert more[..|more| - 1] == if panics then acts else acts + [Core(DropAlerts)];
    assert !panics ==> more[..|more| - 2] == acts;
  }

  lemma Deafens(cfg: Config, acts: seq<Action>, s: State) returns (more: seq<Action>, t: State)
    requires Run(cfg, Init(cfg), acts, s) && Good(cfg, s) && Shape(cfg, s) && !s.torrent.panicked && s.heard
    ensures more == acts + [Core(DropAlerts)] && t == s.(heard := false) && Run(cfg, Init(cfg), more, t) && Good(cfg, t) && Shape(cfg, t)
  {
    hide Run, Good, SessionsOk, DiskOk, TorrentOk, ConfigOk, PickerOk, Filed;
    more, t := Step(cfg, Init(cfg), acts, s, Core(DropAlerts));
  }

  lemma Vanishes(cfg: Config, acts: seq<Action>, s: State, b: BlockInfo, panics: bool) returns (more: seq<Action>, t: State)
    requires Run(cfg, Init(cfg), acts, s) && Good(cfg, s) && Shape(cfg, s) && !s.torrent.panicked && (panics || !s.heard)
    requires s.sessions.Keys == {0} && s.sessions[0].mode.Idle? && Is(cfg.storage, s.downloads, b, Requested) && b in s.sessions[0].outgoing
    ensures more == acts + [Peer(0, Vanish(panics))] && Run(cfg, Init(cfg), more, t) && Orphan(cfg, t, b)
    ensures t.sessions.Keys == {0} && t.sessions[0].mode.Dead?
  {
    hide Run, Good, SessionsOk, DiskOk, TorrentOk, ConfigOk, PickerOk, Filed, Is, Asked, Orphan, Session.Hand;
    more, t := Step(cfg, Init(cfg), acts, s, Peer(0, Vanish(panics)));
    OrphansAfterStep(cfg, s, Peer(0, Vanish(panics)), b);
    HandsOutgoing(s.sessions[0]);
    assert Abandons(cfg, s, Peer(0, Vanish(panics)), b);
  }

  // Where there are none.

  /** In a torrent of one block no batch has a request behind its first. */
  lemma NoneBehind(cfg: Config, s: State, a: Action, b: BlockInfo)
    requires Good(cfg, s) && Shape(cfg, s) && Enabled(cfg, s, a) && cfg.storage.pieceCount > 0 && !ManyBlocks(cfg.storage)
    requires s.heard && !a.IsVanish()
    ensures !Abandons(cfg, s, a, b)
  {
    hide Touched, Books, Live, Sane, PickerOk, DiskOk, TorrentOk, ConfigOk, Filed, Is, HeldByOther, MakeApply;
    if Forgets(s, a, b) {
      var batch := s.sessions[a.id].mode.batch;
      assert SessionOk(cfg.storage, s.sessions[a.id]);
      assert b in batch[1..];
      assert batch[0] in batch && batch[1] in batch;
      OnlyOne(cfg.storage, batch[0], batch[1]);
      assert false;
    }
  }

  lemma OnlyOne(s: StorageInfo, a: BlockInfo, b: BlockInfo)
    requires InGrid(s, a) && InGrid(s, b) && s.pieceCount > 0 && !ManyBlocks(s)
    ensures a == b
  {
  }

  lemma StillHeard(cfg: Config, s: State, a: Action)
    requires Shape(cfg, s) && Enabled(cfg, s, a) && a != Core(DropAlerts)
    ensures Apply(cfg, s, a).heard == s.heard
  {
    hide PickerOk, SessionsOk, DiskOk, ConfigOk, Filed, MakeApply, PeerApply, CoreApply, PeerEnabled, MissingSet, FreeSet, RoomLeft, OrderOf;
    match a
    case Make(id, m) => MakeActs(cfg, s, id, m);
    case Peer(id, p) => PeerActs(cfg, s, id, p);
    case Core(c) => CoreActs(cfg, s, c);
  }

  lemma {:induction false} NeverLeftBehind(cfg: Config, s: State, acts: seq<Action>, b: BlockInfo)
    requires Good(cfg, s) && cfg.storage.pieceCount > 0 && !ManyBlocks(cfg.storage) && s.heard && Orderly(acts)
    ensures !LeftBehind(cfg, s, acts, b)
    decreases |acts|
  {
    hide Good, Shape, Enabled, Apply, Abandons, NeverRescued, ManyBlocks;
    if acts != [] && Shape(cfg, s) && Enabled(cfg, s, acts[0]) {
      assert !acts[0].IsVanish() && acts[0] != Core(DropAlerts);
      assert Orderly(acts[1..]) by { forall k | 0 <= k < |acts[1..]| ensures acts[1..][k] == acts[k + 1] {} }
      NoneBehind(cfg, s, acts[0], b);
      StepKeepsGood(cfg, s, acts[0]);
      StillHeard(cfg, s, acts[0]);
      NeverLeftBehind(cfg, Apply(cfg, s, acts[0]), acts[1..], b);
    }
  }

  /** While every session that ends cleans up, a download can come to a block that is requested and forgotten
      if and only if the torrent has more than one block. */
  lemma OrphanPossibleIff(cfg: Config)
    requires ConfigOk(cfg)
    ensures cfg.storage.pieceCount > 0
    ensures (exists acts, t, b :: Run(cfg, Init(cfg), acts, t) && Orderly(acts) && Orphan(cfg, t, b)) <==> ManyBlocks(cfg.storage)
  {
    hide Run, Good, Orphan, ManyBlocks, LeftBehind, Orderly;
    if ManyBlocks(cfg.storage) {
      OrphanHappens(cfg);
    } else {
      InitGood(cfg);
      forall acts, t, b | Run(cfg, Init(cfg), acts, t) && Orderly(acts) ensures !Orphan(cfg, t, b) {
        NeverLeftBehind(cfg, Init(cfg), acts, b);
        OrphanIffLeftBehind(cfg, acts, t, b);
      }
    }
  }
}
