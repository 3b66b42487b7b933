/** Runs that a torrent has for each of its pieces for which there is data its hash accepts: one that
    downloads the piece, and one that ends in the picker's panic, where the sessions that had asked for the
    piece free its blocks after another has delivered them, they are delivered again, and the piece is
    flushed twice (cratetorrent/src/peer.rs, cratetorrent/src/piece_picker.rs). */
module SwarmExample {
  import opened Wrappers
  import opened Blocks
  import opened Storage
  import opened FlatDisk
  import opened PieceBuffer
  import opened Downloads
  import opened PiecePicking
  import opened Requests
  import opened PeerSession
  import opened Swarm
  import opened SwarmShape
  import opened SwarmBooks
  import opened SwarmLiveness
  import opened SwarmIntegrity
  import opened SwarmRuns
  import opened SwarmSequential
  import opened SwarmScene
  import C = SessionState
  import P = SwarmPanic
  import O = SwarmOrphans

  /** Data that piece p's hash accepts. */
  ghost predicate Acceptable(cfg: Config, p: nat, data: seq<byte>) {
    ConfigOk(cfg) && p < cfg.storage.pieceCount && |data| == cfg.storage.PieceLen(p) && Hashes(cfg, p, data)
  }

  predicate AllIdle(sessions: SessionMap) {
    forall id :: id in sessions ==> sessions[id].mode.Idle?
  }

  /** Nothing is on its way to or from the disk task. */
  predicate AtRest(s: State) {
    s.disk.queue == [] && s.disk.buffer == map[] && s.disk.jobs == [] && s.torrent.queue == []
  }

  /** The sessions rest, the first of them with a peer that chokes us, and the one piece anybody has is not
      owned; nothing is lost. */
  ghost predicate Stage(cfg: Config, p: nat, s: State) {
    && Good(cfg, s) && Shape(cfg, s) && !s.torrent.panicked && s.torrent.retiring.None? && s.lost == {}
    && AllIdle(s.sessions) && 0 in s.sessions && s.sessions[0] == Joined(false)
    && s.picker.SameShape() && |s.picker.own| == cfg.storage.pieceCount && p < |s.picker.own| && !s.picker.own[p]
  }

  // Asking for all of the piece.

  lemma {:induction false} Above(ids: set<nat>) returns (k: nat)
    ensures k !in ids && k > 0 && forall i :: i in ids ==> i < k
    decreases |ids|
  {
    k := 1;
    if i :| i in ids {
      var j := Above(ids - {i});
      k := if j > i then j else i + 1;
      forall x | x in ids ensures x < k { assert x == i || x in ids - {i}; }
    }
  }

  /** Only piece p can be picked. */
  predicate OnlyHere(picker: Picker, p: nat)
    requires picker.SameShape()
  {
    forall q :: 0 <= q < |picker.own| && picker.Pickable(q) ==> q == p
  }

  function FreeIn(d: Download): set<nat> { set i | 0 <= i < |d.blocks| && d.blocks[i].Free? }

  predicate NoneThere(d: Download) { forall i :: 0 <= i < |d.blocks| ==> !d.blocks[i].Received? }

  ghost predicate Asking(cfg: Config, p: nat, s: State) {
    && Stage(cfg, p, s) && AtRest(s) && OnlyHere(s.picker, p)
    && s.downloads.Keys <= {p} && (p in s.downloads ==> NoneThere(s.downloads[p])) && (p !in s.downloads ==> s.picker.Pickable(p))
  }

  /** Whatever `OpenAll` opens could be picked, and it makes nothing pickable. */
  lemma {:induction false} OpensPickable(s: StorageInfo, q: Pipeline, room: nat)
    requires Requests.Flowing(s, q) && q.picker.SameShape()
    ensures var r := OpenAll(s, q, room, false, {});
      && r.picker.SameShape() && |r.picker.own| == |q.picker.own|
      && (forall i :: i in r.downloads && i !in q.downloads ==> i < |q.picker.own| && q.picker.Pickable(i))
      && (forall i :: 0 <= i < |r.picker.own| && r.picker.Pickable(i) ==> q.picker.Pickable(i))
    decreases q.picker.free
  {
    hide PickBlocks, MissingSet, FreeSet, PendingSet, Unrepeated, Filed, InGrid, Open, Pick;
    var index := FirstPickable(q.picker, 0);
    if room > 0 && index.Some? {
      OpenFlows(s, q, index.value, room, false, {});
      OpenKeys(s, q, index.value, room, false, {});
      var next := Open(s, q, index.value, room, false, {});
      OpensPickable(s, next, room - (|next.batch| - |q.batch|));
      PickPickable(q.picker, index.value);
    }
  }

  lemma PickPickable(p: Picker, i: nat)
    requires p.SameShape() && i < |p.own|
    ensures forall k :: 0 <= k < |p.own| && Pick(p, i).Pickable(k) ==> p.Pickable(k)
  {
  }

  lemma NonePickable(p: Picker, ds: DownloadMap, q: nat)
    requires p.SameShape() && OnlyHere(p, q) && q in ds && ds.Keys <= PendingSet(p)
    ensures FirstPickable(p, 0).None?
  {
    assert q in PendingSet(p);
  }

  /** A first session's batch: it opens the piece. */
  lemma AskNew(cfg: Config, p: nat, s: State, order: seq<nat>)
    requires ConfigOk(cfg) && p < cfg.storage.pieceCount && s.picker.SameShape() && |s.picker.own| == cfg.storage.pieceCount
    requires Requests.Flowing(cfg.storage, Pipeline(s.picker, s.downloads, [])) && s.downloads == map[] && |order| == 0
    requires OnlyHere(s.picker, p) && s.picker.Pickable(p)
    ensures OrderOf(s.downloads, order)
    ensures var r := FillPipeline(cfg.storage, s.picker, s.downloads, order, C.START_REQUEST_QUEUE_LEN, false, {});
      && r.picker.SameShape() && OnlyHere(r.picker, p) && r.picker.own == s.picker.own
      && r.downloads.Keys == {p} && FiledAt(cfg.storage, r.downloads[p], p) && NoneThere(r.downloads[p])
  {
    hide OpenAll, Continue, FillPipeline, Picker.Valid, InGrid, FirstPickable;
    var room := C.START_REQUEST_QUEUE_LEN;
    var q := Pipeline(s.picker, s.downloads, []);
    LenPositive(cfg.storage, p);
    FirstHere(s.picker, p);
    FirstBatch(cfg.storage, s.picker, s.downloads, order, room);
    OpensPickable(cfg.storage, q, room);
    OpenAllStays(cfg.storage, q, room, false, {});
    var r := OpenAll(cfg.storage, q, room, false, {});
    assert r.batch[0] in r.batch;
    assert FiledAt(cfg.storage, r.downloads[p], p);
  }

  lemma FirstHere(picker: Picker, p: nat)
    requires picker.SameShape() && p < |picker.own| && OnlyHere(picker, p) && picker.Pickable(p)
    ensures FirstPickable(picker, 0) == Some(p)
  {
  }

  /** A later session's batch: it takes up free blocks of the piece. */
  lemma AskRest(cfg: Config, p: nat, s: State, order: seq<nat>)
    requires s.picker.SameShape() && Requests.Flowing(cfg.storage, Pipeline(s.picker, s.downloads, [])) && s.downloads.Keys == {p} && order == [p]
    requires OnlyHere(s.picker, p) && NoneThere(s.downloads[p])
    ensures OrderOf(s.downloads, order)
    ensures var r := FillPipeline(cfg.storage, s.picker, s.downloads, order, C.START_REQUEST_QUEUE_LEN, false, {});
      && r.picker == s.picker && r.downloads.Keys == {p} && NoneThere(r.downloads[p])
      && (FreeIn(r.downloads[p]) == {} || |FreeIn(r.downloads[p])| < |FreeIn(s.downloads[p])|)
  {
    hide OpenAll, Continue, FillPipeline, Requests.Flowing, OnlyHere, FirstPickable, NoneThere, FreeIn, OnlyRequested;
    var room := C.START_REQUEST_QUEUE_LEN;
    FlowingKeys(cfg.storage, s.picker, s.downloads);
    FillIs(cfg.storage, s.picker, s.downloads, order, room, false, {});
    NonePickable(s.picker, s.downloads, p);
    var c := Continue(s.downloads, order, room, false, {});
    OpensNone(cfg.storage, Pipeline(s.picker, c.0, c.1), room - |c.1|);
    AskedLess(s.downloads, order, room, p);
    StillNone(s.downloads[p], c.0[p], c.1);
  }

  lemma FlowingKeys(s: StorageInfo, p: Picker, ds: DownloadMap)
    requires Requests.Flowing(s, Pipeline(p, ds, []))
    ensures p.SameShape() && ds.Keys <= PendingSet(p) && Sound(ds)
  {
    FiledIsSound(s, ds);
  }

  lemma StillNone(d: Download, e: Download, batch: seq<BlockInfo>)
    requires d.Valid() && e.Valid() && OnlyRequested(d, e, batch) && NoneThere(d)
    ensures NoneThere(e)
  {
    forall i | 0 <= i < |e.blocks| ensures !e.blocks[i].Received? { assert StatusStep(d, e, i, batch); }
  }

  lemma OpensNone(s: StorageInfo, q: Pipeline, room: nat)
    requires Requests.Flowing(s, q) && FirstPickable(q.picker, 0).None?
    ensures OpenAll(s, q, room, false, {}) == q
  {
  }

  lemma AskedLess(ds: DownloadMap, order: seq<nat>, room: nat, p: nat)
    requires Sound(ds) && Covers(ds, order) && order == [p] && room > 0 && p in ds
    ensures var c := Continue(ds, order, room, false, {});
      p in c.0 && OnlyRequested(ds[p], c.0[p], c.1) && (FreeIn(c.0[p]) == {} || |FreeIn(c.0[p])| < |FreeIn(ds[p])|)
  {
    hide Continue, PickBlocks;
    var c := Continue(ds, order, room, false, {});
    ContinueRequests(ds, order, room, false, {}, p);
    ContinueFits(ds, order, room, false, {});
    O.ContinueAsked(ds, order, room, false, {});
    if |c.1| < room {
      ContinueExhausts(ds, order, room, false, {}, p);
      NoFreeLeft(c.0[p], c.1);
    } else {
      var b := c.1[0];
      assert b in c.1 && PickedFrom(ds, order, false, {}, b);
      FewerFree(ds[p], c.0[p], c.1, b.IndexInPiece());
    }
  }

  lemma NoFreeLeft(d: Download, batch: seq<BlockInfo>)
    requires d.Valid() && Exhausted(d, false, {} + Elements(batch))
    ensures FreeIn(d) == {}
  {
    forall i | 0 <= i < |d.blocks| ensures !d.blocks[i].Free? { assert !d.Eligible(i, false, {} + Elements(batch)); }
  }

  lemma FewerFree(d: Download, e: Download, batch: seq<BlockInfo>, i: nat)
    requires d.Valid() && e.Valid() && OnlyRequested(d, e, batch) && i < |d.blocks| && d.blocks[i].Free? && !e.blocks[i].Free?
    ensures |FreeIn(e)| < |FreeIn(d)|
  {
    forall k | k in FreeIn(e) ensures k in FreeIn(d) { assert StatusStep(d, e, k, batch); }
    SubsetOfSameSize(FreeIn(e), FreeIn(d) - {i});
  }

  /** One more session joins and asks for the first blocks of the piece nobody has asked for. */
  lemma AskMore(cfg: Config, p: nat, s0: State, acts: seq<Action>, s: State) returns (more: seq<Action>, t: State)
    requires Run(cfg, s0, acts, s) && p < cfg.storage.pieceCount && Asking(cfg, p, s) && Quiet(acts)
    ensures Run(cfg, s0, more, t) && Asking(cfg, p, t) && Quiet(more) && p in t.downloads
    ensures p in s.downloads ==> FreeIn(t.downloads[p]) == {} || |FreeIn(t.downloads[p])| < |FreeIn(s.downloads[p])|
  {
    hide Good, Run, Shape, Quiet, OnlyHere, NoneThere, FreeIn, Picker.Pickable, Register, Interesting, OnlyBit;
    var id := Above(s.sessions.Keys);
    ShowsPiece(s.picker, p);
    var a;
    more, a := Joins(cfg, s0, acts, s, id, OnlyBit(|s.picker.own|, p), true);
    more, t := AsksNow(cfg, p, s0, more, a, id);
  }

  /** The session that has just joined makes its requests. */
  lemma AsksNow(cfg: Config, p: nat, s0: State, acts: seq<Action>, s: State, id: nat) returns (more: seq<Action>, t: State)
    requires Run(cfg, s0, acts, s) && p < cfg.storage.pieceCount && Asking(cfg, p, s) && Quiet(acts)
    requires id in s.sessions && id != 0 && s.sessions[id] == Joined(true)
    ensures Run(cfg, s0, more, t) && Asking(cfg, p, t) && Quiet(more) && p in t.downloads
    ensures p in s.downloads ==> FreeIn(t.downloads[p]) == {} || |FreeIn(t.downloads[p])| < |FreeIn(s.downloads[p])|
  {
    hide Good, Run, SessionsOk, DiskOk, TorrentOk, PickerOk, ConfigOk, Filed, Quiet, Requests.Flowing, FillPipeline, OnlyHere, NoneThere, FreeIn, Picker.Pickable, OrderOf;
    GoodShape(cfg, s);
    var order: seq<nat> := if p in s.downloads then [p] else [];
    if p in s.downloads { AskRest(cfg, p, s, order); } else { AskNew(cfg, p, s, order); }
    var steps;
    steps, t := MakeRequestsRuns(cfg, s, id, C.START_REQUEST_QUEUE_LEN, order);
    RunAppend(cfg, s0, acts, s, steps, t);
    QuietAppend(acts, steps);
    more := acts + steps;
    RunKeepsGood(cfg, s, steps, t);
    GoodShape(cfg, t);
  }

  lemma ShowsPiece(picker: Picker, p: nat)
    requires picker.SameShape() && p < |picker.own| && !picker.own[p] && OnlyHere(picker, p)
    ensures Interesting(picker, OnlyBit(|picker.own|, p)) && |OnlyBit(|picker.own|, p)| == |picker.own|
    ensures OnlyHere(Register(picker, OnlyBit(|picker.own|, p)), p)
    ensures picker.Pickable(p) ==> Register(picker, OnlyBit(|picker.own|, p)).Pickable(p)
  {
    assert OnlyBit(|picker.own|, p)[p] && picker.Missing(p);
    var r := Register(picker, OnlyBit(|picker.own|, p));
    forall q | 0 <= q < |r.own| && r.Pickable(q) ensures q == p { assert q != p ==> picker.Pickable(q); }
  }

  /** Every block of the piece is requested. */
  predicate AllAsked(s: State, p: nat) { p in s.downloads && NoneThere(s.downloads[p]) && FreeIn(s.downloads[p]) == {} }

  lemma {:induction false} AskAll(cfg: Config, p: nat, s0: State, acts: seq<Action>, s: State) returns (more: seq<Action>, t: State)
    requires Run(cfg, s0, acts, s) && p < cfg.storage.pieceCount && Asking(cfg, p, s) && Quiet(acts)
    ensures Run(cfg, s0, more, t) && Asking(cfg, p, t) && Quiet(more) && AllAsked(t, p)
    decreases p !in s.downloads, if p in s.downloads then |FreeIn(s.downloads[p])| else 0
  {
    hide Good, Run, Shape, Quiet, OnlyHere, NoneThere, FreeIn, Picker.Pickable;
    if p in s.downloads && FreeIn(s.downloads[p]) == {} {
      more, t := acts, s;
    } else {
      var a;
      more, a := AskMore(cfg, p, s0, acts, s);
      more, t := AskAll(cfg, p, s0, more, a);
    }
  }

  /** The deliverer joins, with a peer that shows the piece and does not unchoke. */
  lemma Begin(cfg: Config, p: nat) returns (acts: seq<Action>, t: State)
    requires ConfigOk(cfg) && p < cfg.storage.pieceCount
    ensures Run(cfg, Init(cfg), acts, t) && Asking(cfg, p, t) && Quiet(acts)
  {
    hide Good, Run, Shape, Quiet, Register, Interesting, OnlyBit, ConfigOk;
    var s := Init(cfg);
    InitGood(cfg);
    GoodShape(cfg, s);
    NoStep(cfg, s);
    QuietNone();
    FreshPicker(s.picker, p);
    acts, t := Joins(cfg, s, [], s, 0, OnlyBit(|s.picker.own|, p), false);
  }

  lemma FreshPicker(picker: Picker, p: nat)
    requires picker == NewPicker(seq(|picker.own|, _ => false)) && p < |picker.own|
    ensures picker.SameShape() && !picker.own[p]
    ensures Interesting(picker, OnlyBit(|picker.own|, p)) && |OnlyBit(|picker.own|, p)| == |picker.own|
    ensures OnlyHere(Register(picker, OnlyBit(|picker.own|, p)), p) && Register(picker, OnlyBit(|picker.own|, p)).Pickable(p)
  {
    ShowsPiece(picker, p);
  }

  // Delivering the piece.

  function BlockOf(cfg: Config, p: nat, i: nat): BlockInfo
    requires p < cfg.storage.pieceCount && i < BlockCount(cfg.storage.PieceLen(p))
  {
    BlockAt(p, cfg.storage.PieceLen(p), i)
  }

  /** The piece's blocks from the i-th on, as they go to the disk task. */
  function Writes(cfg: Config, p: nat, data: seq<byte>, i: nat): seq<WriteBlock>
    requires p < cfg.storage.pieceCount && |data| == cfg.storage.PieceLen(p)
    decreases BlockCount(|data|) - i
  {
    if i >= BlockCount(|data|) then [] else [WriteBlock(BlockOf(cfg, p, i), Cut(data)[i])] + Writes(cfg, p, data, i + 1)
  }

  /** The first i blocks are received, the others are not. */
  predicate ReceivedUpTo(d: Download, i: nat) {
    forall k :: 0 <= k < |d.blocks| ==> (d.blocks[k].Received? <==> k < i)
  }

  function AllThere(d: Download): Download { d.(blocks := seq(|d.blocks|, _ => Received)) }

  /** What delivering changes. */
  function Delivered(s: State, p: nat, writes: seq<WriteBlock>): State
    requires p in s.downloads
  {
    s.(downloads := s.downloads[p := AllThere(s.downloads[p])], disk := s.disk.(queue := s.disk.queue + writes))
  }

  lemma {:induction false} Delivers(cfg: Config, p: nat, data: seq<byte>, s0: State, acts: seq<Action>, s: State, i: nat) returns (more: seq<Action>, t: State)
    requires Run(cfg, s0, acts, s) && Quiet(acts) && Acceptable(cfg, p, data) && Stage(cfg, p, s)
    requires p in s.downloads && i <= BlockCount(|data|) && ReceivedUpTo(s.downloads[p], i)
    ensures Run(cfg, s0, more, t) && Quiet(more) && Stage(cfg, p, t)
    ensures t == Delivered(s, p, Writes(cfg, p, data, i))
    decreases BlockCount(|data|) - i
  {
    hide Good, Run, Shape, Quiet, Acceptable, ReceivedUpTo, AllThere, AllIdle, Cut;
    DeliveryOk(cfg, p, data, s);
    if i == BlockCount(|data|) {
      more, t := acts, s;
      NothingToDeliver(s, p, i);
    } else {
      var a;
      more, a := DeliversOne(cfg, p, data, s0, acts, s, i);
      more, t := Delivers(cfg, p, data, s0, more, a, i + 1);
      var w := WriteBlock(BlockOf(cfg, p, i), Cut(data)[i]);
      assert s.disk.queue + [w] + Writes(cfg, p, data, i + 1) == s.disk.queue + ([w] + Writes(cfg, p, data, i + 1));
      SameThere(s.downloads[p], i);
    }
  }

  lemma DeliveryOk(cfg: Config, p: nat, data: seq<byte>, s: State)
    requires Acceptable(cfg, p, data) && Good(cfg, s) && Shape(cfg, s) && p in s.downloads
    ensures p < cfg.storage.pieceCount && |data| == cfg.storage.PieceLen(p) && FiledAt(cfg.storage, s.downloads[p], p)
    ensures |s.downloads[p].blocks| == BlockCount(|data|)
  {
    hide Good, SessionsOk, DiskOk, TorrentOk, ConfigOk, PickerOk, Hashes;
  }

  lemma NothingToDeliver(s: State, p: nat, n: nat)
    requires p in s.downloads && n == |s.downloads[p].blocks| && ReceivedUpTo(s.downloads[p], n)
    ensures Delivered(s, p, []) == s
  {
    assert AllThere(s.downloads[p]).blocks == s.downloads[p].blocks;
    assert s.disk.queue + [] == s.disk.queue;
  }

  lemma SameThere(d: Download, i: nat)
    requires d.Valid() && i < |d.blocks|
    ensures AllThere(Marked(d, i)) == AllThere(d)
  {
  }

  lemma DeliversOne(cfg: Config, p: nat, data: seq<byte>, s0: State, acts: seq<Action>, s: State, i: nat) returns (more: seq<Action>, t: State)
    requires Run(cfg, s0, acts, s) && Quiet(acts) && Acceptable(cfg, p, data) && Stage(cfg, p, s) && p < cfg.storage.pieceCount && |data| == cfg.storage.PieceLen(p)
    requires p in s.downloads && i < BlockCount(|data|) && ReceivedUpTo(s.downloads[p], i) && FiledAt(cfg.storage, s.downloads[p], p)
    ensures Run(cfg, s0, more, t) && Quiet(more) && Stage(cfg, p, t)
    ensures t == s.(downloads := s.downloads[p := Marked(s.downloads[p], i)],
      disk := s.disk.(queue := s.disk.queue + [WriteBlock(BlockOf(cfg, p, i), Cut(data)[i])]))
    ensures ReceivedUpTo(t.downloads[p], i + 1)
  {
    hide Good, Run, SessionsOk, DiskOk, TorrentOk, PickerOk, ConfigOk, Filed, Quiet, Acceptable;
    var b := BlockOf(cfg, p, i);
    BlockOk(cfg, p, data, i);
    var steps;
    steps, t := HandleBlockRuns(cfg, s, 0, b, Cut(data)[i]);
    assert {} - {b} == {} && s.lost - {b} == s.lost;
    assert s.sessions[0 := s.sessions[0].(outgoing := s.sessions[0].outgoing - {b})] == s.sessions;
    more := acts + steps;
    QuietAppend(acts, steps);
    RunAppend(cfg, s0, acts, s, steps, t);
    RunKeepsGood(cfg, s, steps, t);
    GoodShape(cfg, t);
  }

  lemma BlockOk(cfg: Config, p: nat, data: seq<byte>, i: nat)
    requires p < cfg.storage.pieceCount && |data| == cfg.storage.PieceLen(p) && i < BlockCount(|data|)
    ensures InGrid(cfg.storage, BlockOf(cfg, p, i)) && BlockOf(cfg, p, i).IndexInPiece() == i && BlockOf(cfg, p, i).pieceIndex == p
    ensures |Cut(data)[i]| == BlockOf(cfg, p, i).len
  {
    IndexInverts(p, |data|, i);
  }

  // Dropping all requests.

  predicate Wanted(sessions: SessionMap, id: nat, b: BlockInfo) { id in sessions && b in sessions[id].outgoing }

  ghost predicate Outstanding(sessions: SessionMap, b: BlockInfo) { exists id :: Wanted(sessions, id, b) }

  /** Every block of the piece is free or outstanding with somebody. */
  ghost predicate FreeOrWanted(cfg: Config, p: nat, s: State)
    requires p < cfg.storage.pieceCount
  {
    p in s.downloads && |s.downloads[p].blocks| == BlockCount(cfg.storage.PieceLen(p))
    && forall i :: 0 <= i < |s.downloads[p].blocks| ==>
      s.downloads[p].blocks[i].Free? || Outstanding(s.sessions, BlockOf(cfg, p, i))
  }

  ghost predicate AllWanted(cfg: Config, p: nat, s: State)
    requires p < cfg.storage.pieceCount
  {
    p in s.downloads && |s.downloads[p].blocks| == BlockCount(cfg.storage.PieceLen(p))
    && forall i :: 0 <= i < |s.downloads[p].blocks| ==> Outstanding(s.sessions, BlockOf(cfg, p, i))
  }

  lemma WantedStays(cfg: Config, p: nat, s: State, t: State)
    requires p < cfg.storage.pieceCount && AllWanted(cfg, p, s) && t.sessions == s.sessions
    requires p in t.downloads && |t.downloads[p].blocks| == |s.downloads[p].blocks|
    ensures FreeOrWanted(cfg, p, t)
  {
    forall i | 0 <= i < |t.downloads[p].blocks|
      ensures t.downloads[p].blocks[i].Free? || Outstanding(t.sessions, BlockOf(cfg, p, i))
    {
      var id :| Wanted(s.sessions, id, BlockOf(cfg, p, i));
      assert Wanted(t.sessions, id, BlockOf(cfg, p, i));
    }
  }

  lemma AskedNotThere(s: State, p: nat)
    requires AllAsked(s, p)
    ensures p in s.downloads && ReceivedUpTo(s.downloads[p], 0)
  {
  }

  /** While the piece is asked for by sessions that live, all of it is outstanding. */
  lemma AskedIsWanted(cfg: Config, p: nat, s: State)
    requires p < cfg.storage.pieceCount && Stage(cfg, p, s) && AllAsked(s, p)
    ensures AllWanted(cfg, p, s)
  {
    hide BlockOf, Outstanding, BlockCount, Good, AllAsked, SessionsOk, DiskOk, TorrentOk, PickerOk, ConfigOk;
    assert p in s.downloads by { AskedNotThere(s, p); }
    assert FiledAt(cfg.storage, s.downloads[p], p);
    forall i | 0 <= i < |s.downloads[p].blocks| ensures Outstanding(s.sessions, BlockOf(cfg, p, i)) {
      WantedAt(cfg, p, s, i);
    }
  }

  lemma WantedAt(cfg: Config, p: nat, s: State, i: nat)
    requires p < cfg.storage.pieceCount && Stage(cfg, p, s) && AllAsked(s, p) && i < BlockCount(cfg.storage.PieceLen(p))
    ensures Outstanding(s.sessions, BlockOf(cfg, p, i))
  {
    hide Touched, Books, Sane, Unstuck, SessionsOk, DiskOk, TorrentOk, PickerOk, ConfigOk, StorageInfo.Valid, Session.Hand;
    assert FiledAt(cfg.storage, s.downloads[p], p);
    var d := s.downloads[p];
    var b := BlockOf(cfg, p, i);
    IndexInverts(p, cfg.storage.PieceLen(p), i);
    assert i !in FreeIn(d) && !d.blocks[i].Received?;
    assert Is(cfg.storage, s.downloads, b, Requested);
    assert Held(s.sessions, s.lost, b);
    var id :| HeldBy(s.sessions, id, b);
    HandsOutgoing(s.sessions[id]);
    assert Wanted(s.sessions, id, b);
  }

  function Holders(sessions: SessionMap): set<nat> { set id | id in sessions && sessions[id].outgoing != {} }

  /** One session after the other is choked, until nothing is outstanding; the piece is free then. */
  lemma {:induction false} Chokes(cfg: Config, p: nat, s0: State, acts: seq<Action>, s: State) returns (more: seq<Action>, t: State)
    requires Run(cfg, s0, acts, s) && Quiet(acts) && p < cfg.storage.pieceCount && Stage(cfg, p, s) && FreeOrWanted(cfg, p, s)
    ensures Run(cfg, s0, more, t) && Quiet(more) && Stage(cfg, p, t) && t.disk == s.disk && t.torrent == s.torrent
    ensures p in t.downloads && ReceivedUpTo(t.downloads[p], 0)
    decreases |Holders(s.sessions)|
  {
    hide Good, Run, Shape, Quiet, AllIdle, FreeOrWanted;
    if Holders(s.sessions) == {} {
      more, t := acts, s;
      AllFree(cfg, p, s);
    } else {
      var id :| id in Holders(s.sessions);
      var a;
      more, a := ChokesOne(cfg, p, s0, acts, s, id);
      FewerHolders(s.sessions, a.sessions, id);
      more, t := Chokes(cfg, p, s0, more, a);
    }
  }

  lemma AllFree(cfg: Config, p: nat, s: State)
    requires p < cfg.storage.pieceCount && FreeOrWanted(cfg, p, s) && Holders(s.sessions) == {}
    ensures p in s.downloads && ReceivedUpTo(s.downloads[p], 0)
  {
    forall i | 0 <= i < |s.downloads[p].blocks| ensures s.downloads[p].blocks[i].Free? {
      NoneWanted(s.sessions, BlockOf(cfg, p, i));
    }
  }

  lemma NoneWanted(sessions: SessionMap, b: BlockInfo)
    requires Holders(sessions) == {}
    ensures !Outstanding(sessions, b)
  {
    forall id ensures !Wanted(sessions, id, b) { assert id !in Holders(sessions); }
  }

  lemma FewerHolders(sessions: SessionMap, after: SessionMap, id: nat)
    requires id in Holders(sessions) && id in after && after == sessions[id := after[id]] && after[id].outgoing == {}
    ensures |Holders(after)| < |Holders(sessions)|
  {
    assert Holders(after) == Holders(sessions) - {id};
  }

  lemma ChokesOne(cfg: Config, p: nat, s0: State, acts: seq<Action>, s: State, id: nat) returns (more: seq<Action>, t: State)
    requires Run(cfg, s0, acts, s) && Quiet(acts) && p < cfg.storage.pieceCount && Stage(cfg, p, s) && FreeOrWanted(cfg, p, s)
    requires id in Holders(s.sessions)
    ensures Run(cfg, s0, more, t) && Quiet(more) && Stage(cfg, p, t) && t.disk == s.disk && t.torrent == s.torrent
    ensures FreeOrWanted(cfg, p, t) && id in t.sessions && t.sessions == s.sessions[id := t.sessions[id]] && t.sessions[id].outgoing == {}
  {
    hide Good, Run, SessionsOk, DiskOk, TorrentOk, PickerOk, ConfigOk, Filed, Quiet, FreedAll, FreeOrWanted;
    NotChoked(cfg, s, id);
    var steps;
    steps, t := FreePendingRuns(cfg, s, id, Choke);
    more := acts + steps;
    QuietAppend(acts, steps);
    RunAppend(cfg, s0, acts, s, steps, t);
    RunKeepsGood(cfg, s, steps, t);
    GoodShape(cfg, t);
    ChokeFrees(cfg, p, s, id, t);
  }

  lemma NotChoked(cfg: Config, s: State, id: nat)
    requires Shape(cfg, s) && id in s.sessions && s.sessions[id].outgoing != {}
    ensures !s.sessions[id].isChoked
  {
    hide DiskOk, TorrentOk, PickerOk, ConfigOk, Filed, InGrid;
    assert SessionOk(cfg.storage, s.sessions[id]);
  }

  lemma ChokeFrees(cfg: Config, p: nat, s: State, id: nat, t: State)
    requires p < cfg.storage.pieceCount && FreeOrWanted(cfg, p, s) && id in s.sessions && Filed(cfg.storage, s.downloads)
    requires t.downloads == FreedAll(cfg.storage, s.downloads, s.sessions[id].outgoing) && id in t.sessions && t.sessions == s.sessions[id := t.sessions[id]]
    ensures FreeOrWanted(cfg, p, t)
  {
    FreedKeys(cfg.storage, s.downloads, s.sessions[id].outgoing);
    assert FiledAt(cfg.storage, s.downloads[p], p);
    var d := t.downloads[p];
    forall i | 0 <= i < |d.blocks| ensures d.blocks[i].Free? || Outstanding(t.sessions, BlockOf(cfg, p, i)) {
      var b := BlockOf(cfg, p, i);
      if b !in s.sessions[id].outgoing && !s.downloads[p].blocks[i].Free? {
        var k :| Wanted(s.sessions, k, b);
        assert Wanted(t.sessions, k, b);
      }
    }
  }

  // The disk task.

  function GridUpTo(i: nat): set<nat> { set k | 0 <= k < i :: k * BLOCK_LEN }

  /** The first i blocks of the piece. */
  function FirstBlocks(data: seq<byte>, i: nat): BlockMap
    requires i <= BlockCount(|data|)
  {
    map o | o in GridUpTo(i) :: Cut(data)[o / BLOCK_LEN]
  }

  lemma GridStep(i: nat)
    ensures |GridUpTo(i)| == i && i * BLOCK_LEN !in GridUpTo(i) && GridUpTo(i + 1) == GridUpTo(i) + {i * BLOCK_LEN}
    ensures (i * BLOCK_LEN) / BLOCK_LEN == i
  {
    OffsetSetSize(i);
  }

  lemma FirstBlocksStep(data: seq<byte>, i: nat)
    requires i < BlockCount(|data|)
    ensures Enqueue(FirstBlocks(data, i), i * BLOCK_LEN, Cut(data)[i]) == FirstBlocks(data, i + 1)
    ensures |FirstBlocks(data, i)| == i && |FirstBlocks(data, i + 1)| == i + 1
  {
    hide Cut, BlockCount, GridUpTo;
    GridStep(i);
    GridStep(i + 1);
    assert FirstBlocks(data, i).Keys == GridUpTo(i) && FirstBlocks(data, i + 1).Keys == GridUpTo(i + 1);
  }

  function TheJob(p: nat, data: seq<byte>): Job { Job(p, FirstBlocks(data, BlockCount(|data|))) }

  /** All blocks of the piece, assembled, are its data. */
  lemma JobData(cfg: Config, p: nat, data: seq<byte>)
    requires p < cfg.storage.pieceCount && |data| == cfg.storage.PieceLen(p) && |data| > 0 && JobOk(cfg.storage, TheJob(p, data))
    ensures Assemble(TheJob(p, data).blocks) == data
  {
    hide Assemble, GridShaped, Ordered;
    var m := TheJob(p, data).blocks;
    CompleteMeansWhole(m, |data|);
    var whole := Assemble(m);
    forall i | 0 <= i < BlockCount(|data|) ensures Cut(whole)[i] == Cut(data)[i] {
      assert Has(m, i) && (i * BLOCK_LEN) / BLOCK_LEN == i;
    }
    assert Cut(whole) == Cut(data);
    CutFlatten(whole);
    CutFlatten(data);
  }

  lemma WritesHead(cfg: Config, p: nat, data: seq<byte>, i: nat, rest: seq<WriteBlock>)
    requires p < cfg.storage.pieceCount && |data| == cfg.storage.PieceLen(p) && i < BlockCount(|data|)
    ensures var queue := Writes(cfg, p, data, i) + rest;
      queue != [] && queue[0] == WriteBlock(BlockOf(cfg, p, i), Cut(data)[i]) && queue[1..] == Writes(cfg, p, data, i + 1) + rest
    ensures i + 1 == BlockCount(|data|) ==> Writes(cfg, p, data, i + 1) + rest == rest
    ensures BlockOf(cfg, p, i).offset == i * BLOCK_LEN && BlockOf(cfg, p, i).pieceIndex == p
  {
    hide Cut;
    var w := WriteBlock(BlockOf(cfg, p, i), Cut(data)[i]);
    assert Writes(cfg, p, data, i) == [w] + Writes(cfg, p, data, i + 1);
    assert [w] + Writes(cfg, p, data, i + 1) + rest == [w] + (Writes(cfg, p, data, i + 1) + rest);
  }

  /** The disk after the i-th block of the piece, with `rest` behind it. */
  function DiskAfter(cfg: Config, p: nat, data: seq<byte>, d: Disk, i: nat, rest: seq<WriteBlock>): Disk
    requires p < cfg.storage.pieceCount && |data| == cfg.storage.PieceLen(p) && i < BlockCount(|data|)
  {
    if i + 1 == BlockCount(|data|) then Disk(rest, map[], d.jobs + [TheJob(p, data)], d.files)
    else Disk(Writes(cfg, p, data, i + 1) + rest, map[p := FirstBlocks(data, i + 1)], d.jobs, d.files)
  }

  function BufferAfter(p: nat, data: seq<byte>, i: nat): map<nat, BlockMap>
    requires i <= BlockCount(|data|)
  {
    if i == 0 then map[] else map[p := FirstBlocks(data, i)]
  }

  lemma WritesOne(cfg: Config, p: nat, data: seq<byte>, s0: State, acts: seq<Action>, s: State, i: nat, rest: seq<WriteBlock>)
    returns (more: seq<Action>, t: State)
    requires p < cfg.storage.pieceCount && |data| == cfg.storage.PieceLen(p) && i < BlockCount(|data|)
    requires Run(cfg, s0, acts, s) && Quiet(acts) && Stage(cfg, p, s)
    requires s.disk.queue == Writes(cfg, p, data, i) + rest && s.disk.buffer == BufferAfter(p, data, i)
    ensures Run(cfg, s0, more, t) && Quiet(more) && Stage(cfg, p, t)
    ensures t == s.(disk := DiskAfter(cfg, p, data, s.disk, i, rest))
  {
    hide Good, Run, SessionsOk, BufferOk, JobsOk, TorrentOk, PickerOk, ConfigOk, Filed, Quiet, Cut, FirstBlocks, Writes, Enqueue, BlockOf, InGrid, BlockCount;
    WritesHead(cfg, p, data, i, rest);
    FirstBlocksStep(data, i);
    NoBlocks(data);
    more, t := Step(cfg, s0, acts, s, Core(WriteToDisk));
    assert s.disk.buffer - {p} == map[] && s.disk.buffer[p := FirstBlocks(data, i + 1)] == map[p := FirstBlocks(data, i + 1)];
  }

  /** The disk task takes the piece's blocks one by one, and flushes the piece with the last. */
  lemma {:induction false} Flushed(cfg: Config, p: nat, data: seq<byte>, s0: State, acts: seq<Action>, s: State, i: nat, rest: seq<WriteBlock>)
    returns (more: seq<Action>, t: State)
    requires p < cfg.storage.pieceCount && |data| == cfg.storage.PieceLen(p) && i < BlockCount(|data|)
    requires Run(cfg, s0, acts, s) && Quiet(acts) && Stage(cfg, p, s)
    requires s.disk.queue == Writes(cfg, p, data, i) + rest && s.disk.buffer == BufferAfter(p, data, i)
    ensures Run(cfg, s0, more, t) && Quiet(more) && Stage(cfg, p, t)
    ensures t == s.(disk := Disk(rest, map[], s.disk.jobs + [TheJob(p, data)], s.disk.files))
    decreases BlockCount(|data|) - i
  {
    hide Good, Run, Shape, Quiet, AllIdle, Cut, FirstBlocks, Writes, BlockCount;
    var a;
    more, a := WritesOne(cfg, p, data, s0, acts, s, i, rest);
    if i + 1 < BlockCount(|data|) {
      more, t := Flushed(cfg, p, data, s0, more, a, i + 1, rest);
    } else {
      t := a;
    }
  }

  lemma NoBlocks(data: seq<byte>)
    ensures FirstBlocks(data, 0) == map[]
  {
    assert GridUpTo(0) == {};
  }

  /** A flush job of the piece finds it valid. */
  lemma Reports(cfg: Config, p: nat, data: seq<byte>, s0: State, acts: seq<Action>, s: State, jobs: seq<Job>) returns (more: seq<Action>, t: State)
    requires Run(cfg, s0, acts, s) && Quiet(acts) && Acceptable(cfg, p, data) && Stage(cfg, p, s) && s.disk.jobs == [TheJob(p, data)] + jobs
    ensures Run(cfg, s0, more, t) && Quiet(more) && Stage(cfg, p, t)
    ensures t.disk.jobs == jobs && t.torrent.queue == s.torrent.queue + [PieceCompletion(p, true)] && t.downloads == s.downloads
  {
    hide Good, Run, SessionsOk, QueueOk, BufferOk, TorrentOk, PickerOk, Filed, Quiet, Assemble, Scatter, Contiguous, Total, FirstBlocks;
    assert s.disk.jobs[0] == TheJob(p, data);
    assert JobOk(cfg.storage, s.disk.jobs[0]);
    LenPositive(cfg.storage, p);
    JobData(cfg, p, data);
    more, t := Step(cfg, s0, acts, s, Core(FinishJob(0)));
    assert s.disk.jobs[..0] + s.disk.jobs[1..] == jobs;
  }

  /** The torrent task makes the piece owned. */
  lemma Owns(cfg: Config, p: nat, s0: State, acts: seq<Action>, s: State) returns (more: seq<Action>, t: State)
    requires Run(cfg, s0, acts, s) && Quiet(acts) && Stage(cfg, p, s) && s.torrent.queue != [] && s.torrent.queue[0] == PieceCompletion(p, true)
    ensures Run(cfg, s0, more, t) && Quiet(more) && Good(cfg, t) && Shape(cfg, t)
    ensures p < |t.picker.own| && t.picker.own[p] && !t.torrent.panicked && t.torrent.retiring.None? && t.torrent.queue == s.torrent.queue[1..]
    ensures PickerFree(t.sessions)
  {
    hide Good, Run, SessionsOk, DiskOk, TorrentOk, ConfigOk, Filed, Quiet, MissingSet, FreeSet, Broadcast;
    t := CompletionRuns(cfg, s);
    var steps := [Core(TakeCompletion), Core(RegisterPiece)];
    QuietCompletion();
    QuietAppend(acts, steps);
    more := acts + steps;
    RunAppend(cfg, s0, acts, s, steps, t);
    RunKeepsGood(cfg, s, steps, t);
    GoodShape(cfg, t);
    BroadcastIdle(s.sessions, Command(p, t.torrent.inEndgame));
  }

  lemma QuietCompletion()
    ensures Quiet([Core(TakeCompletion), Core(RegisterPiece)])
  {
  }

  lemma BroadcastIdle(sessions: SessionMap, c: Command)
    requires AllIdle(sessions)
    ensures AllIdle(Broadcast(sessions, c))
  {
  }

  /** Told of it once more, it panics. */
  lemma Panics(cfg: Config, p: nat, s0: State, acts: seq<Action>, s: State) returns (more: seq<Action>, t: State)
    requires Run(cfg, s0, acts, s) && Quiet(acts) && Good(cfg, s) && Shape(cfg, s) && !s.torrent.panicked && s.torrent.retiring.None? && PickerFree(s.sessions)
    requires s.torrent.queue != [] && s.torrent.queue[0] == PieceCompletion(p, true) && p < |s.picker.own| && s.picker.own[p]
    ensures Run(cfg, s0, more, t) && Quiet(more) && t.torrent.panicked && P.PanicOver(t, p)
  {
    hide Good, Run, SessionsOk, DiskOk, ConfigOk, Filed, Quiet, MissingSet, FreeSet, Broadcast;
    var a;
    more, a := Step(cfg, s0, acts, s, Core(TakeCompletion));
    more, t := Step(cfg, s0, more, a, Core(RegisterPiece));
  }

  /** The piece asked for by sessions that hold all of it, and delivered once. */
  lemma FirstRound(cfg: Config, p: nat, data: seq<byte>) returns (acts: seq<Action>, t: State)
    requires Acceptable(cfg, p, data)
    ensures Run(cfg, Init(cfg), acts, t) && Quiet(acts) && p < cfg.storage.pieceCount && |data| == cfg.storage.PieceLen(p) && Stage(cfg, p, t)
    ensures t.disk.queue == Writes(cfg, p, data, 0) && t.disk.buffer == map[] && t.disk.jobs == [] && t.torrent.queue == []
    ensures FreeOrWanted(cfg, p, t)
  {
    hide Good, Run, Shape, Quiet, AllIdle, FreeOrWanted, AllWanted, OnlyHere, Writes, AllAsked;
    var s0 := Init(cfg);
    AcceptableOk(cfg, p, data);
    var a, b;
    acts, a := Begin(cfg, p);
    acts, b := AskAll(cfg, p, s0, acts, a);
    AskedIsWanted(cfg, p, b);
    AskedNotThere(b, p);
    acts, t := Delivers(cfg, p, data, s0, acts, b, 0);
    assert b.disk.queue + Writes(cfg, p, data, 0) == Writes(cfg, p, data, 0);
    WantedStays(cfg, p, b, t);
  }

  lemma AcceptableOk(cfg: Config, p: nat, data: seq<byte>)
    requires Acceptable(cfg, p, data)
    ensures ConfigOk(cfg) && p < cfg.storage.pieceCount && |data| == cfg.storage.PieceLen(p) && BlockCount(|data|) > 0
  {
    hide Contiguous, Total;
    LenPositive(cfg.storage, p);
  }

  /** The block list of a torrent's piece that the torrent can come to own. */
  lemma DownloadHappens(cfg: Config, p: nat, data: seq<byte>)
    requires Acceptable(cfg, p, data)
    ensures exists acts, t ::
      Run(cfg, Init(cfg), acts, t) && Quiet(acts) && p < |t.picker.own| && t.picker.own[p] && !t.torrent.panicked
  {
    hide Good, Run, Shape, Quiet, AllIdle, FreeOrWanted, Writes, Acceptable, TheJob;
    var s0, none := Init(cfg), [];
    AcceptableOk(cfg, p, data);
    var acts, s := FirstRound(cfg, p, data);
    assert Writes(cfg, p, data, 0) + none == Writes(cfg, p, data, 0);
    acts, s := Flushed(cfg, p, data, s0, acts, s, 0, none);
    assert [] + [TheJob(p, data)] == [TheJob(p, data)] + [];
    acts, s := Reports(cfg, p, data, s0, acts, s, []);
    acts, s := Owns(cfg, p, s0, acts, s);
  }

  /** Every piece for which there is acceptable data can make the torrent task panic over it: sessions ask
      for all of it, a peer delivers it unasked, the sessions are choked and free it, and the peer delivers
      it again. */
  lemma PanicHappens(cfg: Config, p: nat, data: seq<byte>)
    requires Acceptable(cfg, p, data)
    ensures exists acts, t :: Run(cfg, Init(cfg), acts, t) && Quiet(acts) && t.torrent.panicked && P.PanicOver(t, p)
  {
    hide Good, Run, Shape, Quiet, AllIdle, FreeOrWanted, Writes, Acceptable, TheJob, ReceivedUpTo, AllThere, P.PanicOver;
    var s0, none := Init(cfg), [];
    AcceptableOk(cfg, p, data);
    var job, said := TheJob(p, data), PieceCompletion(p, true);
    var acts, s := FirstRound(cfg, p, data);
    acts, s := Chokes(cfg, p, s0, acts, s);
    acts, s := Delivers(cfg, p, data, s0, acts, s, 0);
    acts, s := Flushed(cfg, p, data, s0, acts, s, 0, Writes(cfg, p, data, 0));
    assert Writes(cfg, p, data, 0) + none == Writes(cfg, p, data, 0);
    acts, s := Flushed(cfg, p, data, s0, acts, s, 0, none);
    assert [] + [job] + [job] == [job] + [job];
    acts, s := Reports(cfg, p, data, s0, acts, s, [job]);
    assert [job] == [job] + [];
    acts, s := Reports(cfg, p, data, s0, acts, s, []);
    assert [] + [said] + [said] == [said, said] && [said, said][1..] == [said];
    acts, s := Owns(cfg, p, s0, acts, s);
    acts, s := Panics(cfg, p, s0, acts, s);
  }

  // Where there is no such data.

  lemma FlushData(cfg: Config, s: State, a: Action, p: nat)
    requires Shape(cfg, s) && Enabled(cfg, s, a) && P.Flushes(cfg, s, a, p)
    ensures Acceptable(cfg, p, Assemble(s.disk.jobs[a.core.k].blocks))
  {
    hide PickerOk, Filed, SessionsOk, QueueOk, BufferOk, TorrentOk, Assemble, Hashes, GridShaped, StorageInfo.Valid;
    var j := s.disk.jobs[a.core.k];
    assert JobOk(cfg.storage, j);
    CompleteMeansWhole(j.blocks, cfg.storage.PieceLen(p));
  }

  lemma {:induction false} FlushHasData(cfg: Config, s: State, acts: seq<Action>, p: nat)
    requires P.FlushCount(cfg, s, acts, p) > 0
    ensures exists data :: Acceptable(cfg, p, data)
    decreases |acts|
  {
    hide Shape, Enabled, Apply, P.Flushes, Acceptable;
    if P.Flushes(cfg, s, acts[0], p) {
      FlushData(cfg, s, acts[0], p);
      FlushIs(cfg, s, acts[0], p);
    } else {
      FlushHasData(cfg, Apply(cfg, s, acts[0]), acts[1..], p);
    }
  }

  lemma FlushIs(cfg: Config, s: State, a: Action, p: nat)
    requires Shape(cfg, s) && Enabled(cfg, s, a) && P.Flushes(cfg, s, a, p)
    ensures a.Core? && a.core.FinishJob? && a.core.k < |s.disk.jobs|
  {
    hide Shape;
  }

  /** The torrent task can panic if and only if there is data that some piece's hash accepts. */
  lemma PanicPossibleIff(cfg: Config)
    requires ConfigOk(cfg)
    ensures (exists acts, t :: Run(cfg, Init(cfg), acts, t) && t.torrent.panicked) <==> exists p, data :: Acceptable(cfg, p, data)
  {
    hide Run, Acceptable, P.FlushCount, P.Accounted, P.PanicOver;
    if p, data :| Acceptable(cfg, p, data) { PanicHappens(cfg, p, data); }
    if acts, t :| Run(cfg, Init(cfg), acts, t) && t.torrent.panicked {
      var p := P.PanicHas(cfg, Init(cfg), acts, t);
      P.AccountedTwice(t, p);
      P.FlushesAccounted(cfg, acts, t, p);
      FlushHasData(cfg, Init(cfg), acts, p);
    }
  }

  /** A piece can come to be owned if and only if there is data that its hash accepts. */
  lemma DownloadPossibleIff(cfg: Config, p: nat)
    requires ConfigOk(cfg)
    ensures (exists acts, t :: Run(cfg, Init(cfg), acts, t) && p < |t.picker.own| && t.picker.own[p]) <==> exists data :: Acceptable(cfg, p, data)
  {
    hide Run, Acceptable, Flat;
    if data :| Acceptable(cfg, p, data) { DownloadHappens(cfg, p, data); }
    if acts, t :| Run(cfg, Init(cfg), acts, t) && p < |t.picker.own| && t.picker.own[p] {
      Integrity(cfg, t, p);
      OwnedData(cfg, t, p);
    }
  }

  lemma OwnedData(cfg: Config, t: State, p: nat)
    requires ConfigOk(cfg) && p < cfg.storage.pieceCount && |t.disk.files| == |cfg.storage.files|
    requires var flat := Flat(cfg.storage.files, t.disk.files);
      cfg.storage.PieceEnd(p) <= |flat| && cfg.hash(flat[cfg.storage.PieceOffset(p)..cfg.storage.PieceEnd(p)]) == cfg.expected[p]
    ensures exists data :: Acceptable(cfg, p, data)
  {
    hide Flat, StorageInfo.Valid;
    var data := Flat(cfg.storage.files, t.disk.files)[cfg.storage.PieceOffset(p)..cfg.storage.PieceEnd(p)];
    assert Acceptable(cfg, p, data);
  }
}
