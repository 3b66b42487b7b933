/** A session or the torrent task left to itself does in the step machine exactly what its method does:
    the steps of `make_requests`, `handle_block_msg`, `free_pending_blocks` and `handle_piece_completion`
    put together, and those of the disk task (cratetorrent/src/peer.rs, cratetorrent/src/torrent.rs,
    cratetorrent/src/disk/io/torrent.rs). */
module SwarmSequential {
  import opened Wrappers
  import opened Blocks
  import opened Storage
  import opened FlatDisk
  import opened PieceBuffer
  import opened Downloads
  import opened PiecePicking
  import opened Requests
  import opened PeerSession
  import opened Swarm
  import opened SwarmShape
  import opened SwarmBooks
  import opened SwarmLiveness
  import opened SwarmIntegrity
  import opened SwarmRuns

  /** Every session that ends cleans up: none panics, and the user listens to the alerts. */
  predicate Orderly(acts: seq<Action>) {
    forall k :: 0 <= k < |acts| ==> !acts[k].IsVanish() && acts[k] != Core(DropAlerts)
  }

  /** Besides, every send succeeds. */
  predicate Quiet(acts: seq<Action>) {
    forall k :: 0 <= k < |acts| ==> acts[k].IsQuiet()
  }

  lemma QuietIsOrderly(acts: seq<Action>)
    ensures Quiet(acts) ==> Orderly(acts)
  {
  }

  lemma OrderlyAppend(a: seq<Action>, b: seq<Action>)
    requires Orderly(a) && Orderly(b)
    ensures Orderly(a + b)
  {
  }

  lemma QuietNone()
    ensures Quiet([])
  {
  }

  lemma QuietPeer(id: nat, a: PeerStep)
    requires !a.Vanish?
    ensures Quiet([Peer(id, a)])
  {
  }

  lemma QuietTwo(id: nat)
    ensures Quiet([Make(id, PickPiece), Make(id, InsertDownload)])
  {
  }

  lemma QuietAppend(a: seq<Action>, b: seq<Action>)
    requires Quiet(a) && Quiet(b)
    ensures Quiet(a + b)
  {
  }

  lemma {:induction false} RunAppend(cfg: Config, s: State, a: seq<Action>, t: State, b: seq<Action>, u: State)
    requires Run(cfg, s, a, t) && Run(cfg, t, b, u)
    ensures Run(cfg, s, a + b, u)
    decreases |a|
  {
    hide Shape, Enabled, Apply;
    if a == [] {
      assert a + b == b;
    } else {
      assert (a + b)[0] == a[0] && (a + b)[1..] == a[1..] + b;
      RunAppend(cfg, Apply(cfg, s, a[0]), a[1..], t, b, u);
    }
  }

  lemma OneStep(cfg: Config, s: State, a: Action)
    requires Good(cfg, s) && Enabled(cfg, s, a)
    ensures Run(cfg, s, [a], Apply(cfg, s, a)) && Good(cfg, Apply(cfg, s, a))
  {
    hide Books, Live, Sane, Touched, Enabled, Apply, Shape;
    StepKeepsGood(cfg, s, a);
    assert [a][1..] == [];
  }

  lemma PeerStepRuns(cfg: Config, s: State, id: nat, a: PeerStep)
    requires Good(cfg, s) && Shape(cfg, s) && !s.torrent.panicked && PeerEnabled(cfg, s, id, a)
    ensures Run(cfg, s, [Peer(id, a)], PeerApply(cfg, s, id, a)) && Good(cfg, PeerApply(cfg, s, id, a))
  {
    hide Good, Shape, PeerEnabled, PeerApply, Run;
    assert Enabled(cfg, s, Peer(id, a)) && Apply(cfg, s, Peer(id, a)) == PeerApply(cfg, s, id, a);
    OneStep(cfg, s, Peer(id, a));
  }

  lemma NoStep(cfg: Config, s: State)
    ensures Run(cfg, s, [], s)
  {
  }

  lemma GoodShape(cfg: Config, s: State)
    requires Good(cfg, s)
    ensures Shape(cfg, s) && s.picker.SameShape() && s.picker.Valid() && |s.picker.own| == cfg.storage.pieceCount && Filed(cfg.storage, s.downloads)
    ensures Requests.Flowing(cfg.storage, Pipeline(s.picker, s.downloads, []))
  {
    hide SessionsOk, DiskOk, TorrentOk, ConfigOk, Touched, Live, Sane, OneOpener, AllLanded, EndgameKnown, PickedOnce, MissingSet, FreeSet, PendingSet, OpeningSet;
  }

  /** The effect on the shared state and on one session; `picks` is history. */
  function Effect(s: State, id: nat, x: Session, p: Picker, ds: DownloadMap, picks: seq<nat>): State {
    s.(picker := p, downloads := ds, sessions := s.sessions[id := x], picks := picks)
  }

  /** A session picking pieces, nobody else moving. */
  ghost predicate Filling(cfg: Config, s: State, id: nat) {
    && Good(cfg, s) && !s.torrent.panicked && id in s.sessions && s.sessions[id].mode.Picking? && PickerFree(s.sessions)
    && Requests.Flowing(cfg.storage, Pipeline(s.picker, s.downloads, s.sessions[id].mode.batch))
  }

  /** One turn of the second loop: two steps, which come to opening the piece. */
  lemma OpenTurn(cfg: Config, s: State, id: nat) returns (t: State)
    requires Filling(cfg, s, id) && s.picker.SameShape() && RoomLeft(s.sessions[id]) > 0 && FirstPickable(s.picker, 0).Some?
    requires |s.picker.own| == cfg.storage.pieceCount
    ensures var x := s.sessions[id];
      var i := FirstPickable(s.picker, 0).value;
      var q := Open(cfg.storage, Pipeline(s.picker, s.downloads, x.mode.batch), i, RoomLeft(x), x.inEndgame, x.outgoing);
      && t == Effect(s, id, x.(mode := Picking(q.batch, x.mode.target)), q.picker, q.downloads, s.picks + [i])
      && Run(cfg, s, [Make(id, PickPiece), Make(id, InsertDownload)], t)
      && Filling(cfg, t, id) && q.picker.free < s.picker.free
  {
    hide Touched, Books, Live, Sane, SessionsOk, DiskOk, TorrentOk, ConfigOk, Filed, MissingSet, FreeSet, PendingSet, PickBlocks, Unrepeated, InGrid, Run;
    var x := s.sessions[id];
    var i := FirstPickable(s.picker, 0).value;
    var mid := PickPieceStep(cfg, s, id, i);
    assert Enabled(cfg, s, Make(id, PickPiece)) && Apply(cfg, s, Make(id, PickPiece)) == mid;
    OneStep(cfg, s, Make(id, PickPiece));
    t := InsertDownloadStep(mid, id);
    assert Enabled(cfg, mid, Make(id, InsertDownload)) && Apply(cfg, mid, Make(id, InsertDownload)) == t;
    OneStep(cfg, mid, Make(id, InsertDownload));
    RunAppend(cfg, s, [Make(id, PickPiece)], mid, [Make(id, InsertDownload)], t);
    assert [Make(id, PickPiece)] + [Make(id, InsertDownload)] == [Make(id, PickPiece), Make(id, InsertDownload)];
    OpenFlows(cfg.storage, Pipeline(s.picker, s.downloads, x.mode.batch), i, RoomLeft(x), x.inEndgame, x.outgoing);
  }

  /** The second loop run to its end opens what `OpenAll` opens. */
  lemma {:induction false} OpensRun(cfg: Config, s: State, id: nat) returns (acts: seq<Action>, t: State)
    requires Filling(cfg, s, id)
    ensures Quiet(acts)
    ensures Filling(cfg, t, id) && Run(cfg, s, acts, t)
    ensures var x := s.sessions[id];
      var r := OpenAll(cfg.storage, Pipeline(s.picker, s.downloads, x.mode.batch), RoomLeft(x), x.inEndgame, x.outgoing);
      t == Effect(s, id, x.(mode := Picking(r.batch, x.mode.target)), r.picker, r.downloads, t.picks)
    ensures t.picker.SameShape() && (RoomLeft(t.sessions[id]) == 0 || FirstPickable(t.picker, 0).None?)
    decreases s.picker.free
  {
    hide Quiet, Good, Open, Run, OpenAll, PickBlocks, Requests.Flowing, Picker.Valid, FirstPickable, PickerFree, Shape, Filed;
    var x := s.sessions[id];
    var q := Pipeline(s.picker, s.downloads, x.mode.batch);
    var whole := OpenAll(cfg.storage, q, RoomLeft(x), x.inEndgame, x.outgoing);
    OpeningDone(whole, cfg.storage, q, RoomLeft(x), x.inEndgame, x.outgoing);
    GoodShape(cfg, s);
    if RoomLeft(x) == 0 || FirstPickable(s.picker, 0).None? {
      acts, t := [], s;
      NoStep(cfg, s);
      QuietNone();
    } else {
      OpeningTurn(whole, cfg.storage, q, RoomLeft(x), x.inEndgame, x.outgoing);
      var next := OpenTurn(cfg, s, id);
      var two := [Make(id, PickPiece), Make(id, InsertDownload)];
      QuietTwo(id);
      var rest;
      rest, t := OpensRun(cfg, next, id);
      UpdateTwice(s.sessions, id, next.sessions[id], t.sessions[id]);
      acts := two + rest;
      RunAppend(cfg, s, two, next, rest, t);
      QuietAppend(two, rest);
    }
  }

  /** Sending the first `k` requests of the batch makes them outstanding. */
  lemma {:induction false} SendsSome(cfg: Config, s: State, id: nat, k: nat) returns (acts: seq<Action>, t: State)
    requires Good(cfg, s) && !s.torrent.panicked && id in s.sessions && s.sessions[id].mode.Sending? && k <= |s.sessions[id].mode.batch|
    ensures Quiet(acts)
    ensures Good(cfg, t) && Run(cfg, s, acts, t)
    ensures var x := s.sessions[id];
      t == s.(sessions := s.sessions[id := x.(mode := Sending(x.mode.batch[k..], x.mode.limit), outgoing := x.outgoing + Elements(x.mode.batch[..k]))])
    decreases k
  {
    hide Good, Run, SessionsOk, DiskOk, TorrentOk, ConfigOk, PickerOk, Filed, Elements;
    GoodShape(cfg, s);
    var x := s.sessions[id];
    if k == 0 {
      NoElements<BlockInfo>();
      assert x.mode.batch[..0] == [] && x.mode.batch[0..] == x.mode.batch && x.outgoing + {} == x.outgoing;
      acts, t := [], s;
      NoStep(cfg, s);
    } else {
      var next := SendRequestStep(s, id);
      assert Enabled(cfg, s, Make(id, SendRequest)) && Apply(cfg, s, Make(id, SendRequest)) == next;
      OneStep(cfg, s, Make(id, SendRequest));
      SomeSent(x.outgoing, x.mode.batch, k);
      var rest;
      rest, t := SendsSome(cfg, next, id, k - 1);
      acts := [Make(id, SendRequest)] + rest;
      RunAppend(cfg, s, [Make(id, SendRequest)], next, rest, t);
    }
  }

  lemma SomeSent(outgoing: set<BlockInfo>, batch: seq<BlockInfo>, k: nat)
    requires 0 < k <= |batch|
    ensures (outgoing + {batch[0]}) + Elements(batch[1..][..k - 1]) == outgoing + Elements(batch[..k])
    ensures batch[1..][k - 1..] == batch[k..]
  {
    hide Elements;
    HandSplit(batch[..k]);
    assert batch[..k][1..] == batch[1..][..k - 1];
  }

  /** Sending the batch makes all of it outstanding. */
  lemma SendsRun(cfg: Config, s: State, id: nat) returns (acts: seq<Action>, t: State)
    requires Good(cfg, s) && !s.torrent.panicked && id in s.sessions && s.sessions[id].mode.Sending?
    ensures Quiet(acts)
    ensures Good(cfg, t) && Run(cfg, s, acts, t)
    ensures var x := s.sessions[id];
      t == s.(sessions := s.sessions[id := x.(mode := Idle, outgoing := x.outgoing + Elements(x.mode.batch))])
  {
    hide Good, Run, SessionsOk, DiskOk, TorrentOk, ConfigOk, PickerOk, Filed, Elements;
    var batch := s.sessions[id].mode.batch;
    assert batch[..|batch|] == batch && batch[|batch|..] == [];
    var sends, mid := SendsSome(cfg, s, id, |batch|);
    GoodShape(cfg, mid);
    t := SetMode(mid, id, Idle);
    assert Enabled(cfg, mid, Make(id, EndSending)) && Apply(cfg, mid, Make(id, EndSending)) == t;
    OneStep(cfg, mid, Make(id, EndSending));
    acts := sends + [Make(id, EndSending)];
    RunAppend(cfg, s, sends, mid, [Make(id, EndSending)], t);
    UpdateTwice(s.sessions, id, mid.sessions[id], t.sessions[id]);
  }

  lemma StartFills(cfg: Config, s: State, id: nat, target: nat, order: seq<nat>) returns (t: State)
    requires Good(cfg, s) && Shape(cfg, s) && PickerFree(s.sessions) && Enabled(cfg, s, Make(id, StartRequests(target, order)))
    ensures Sound(s.downloads)
    ensures var x := s.sessions[id];
      var c := Continue(s.downloads, order, Room(Some(target), |x.outgoing|), x.inEndgame, x.outgoing);
      && t == Effect(s, id, x.(mode := Picking(c.1, target)), s.picker, c.0, s.picks)
      && Run(cfg, s, [Make(id, StartRequests(target, order))], t) && Filling(cfg, t, id)
  {
    hide Touched, Books, Live, Sane, SessionsOk, DiskOk, TorrentOk, ConfigOk, MissingSet, FreeSet, PendingSet, Unrepeated, InGrid, Run, Continue, Filed, Picker.Valid;
    GoodShape(cfg, s);
    FiledIsSound(cfg.storage, s.downloads);
    var x := s.sessions[id];
    t := StartRequestsStep(cfg, s, id, target, order);
    assert t == Apply(cfg, s, Make(id, StartRequests(target, order)));
    OneStep(cfg, s, Make(id, StartRequests(target, order)));
    ContinueFlows(cfg.storage, s.picker, s.downloads, order, Room(Some(target), |x.outgoing|), x.inEndgame, x.outgoing);
  }

  lemma StartSendingRuns(cfg: Config, s: State, id: nat)
    requires Filling(cfg, s, id) && s.picker.SameShape() && (RoomLeft(s.sessions[id]) == 0 || FirstPickable(s.picker, 0).None?)
    ensures Run(cfg, s, [Make(id, StartSending)], StartSendingStep(s, id)) && Good(cfg, StartSendingStep(s, id))
  {
    hide Good, Run, SessionsOk, DiskOk, TorrentOk, ConfigOk, PickerOk, Filed, Requests.Flowing;
    GoodShape(cfg, s);
    assert Enabled(cfg, s, Make(id, StartSending)) && Apply(cfg, s, Make(id, StartSending)) == StartSendingStep(s, id);
    OneStep(cfg, s, Make(id, StartSending));
  }

  /** `make_requests` up to where it sends: the batch is what `FillPipeline` picks, and the picker and the
      downloads are as `FillPipeline` leaves them. */
  lemma FillsRun(cfg: Config, s: State, id: nat, target: nat, order: seq<nat>) returns (acts: seq<Action>, t: State)
    requires Good(cfg, s) && Shape(cfg, s) && PickerFree(s.sessions) && Enabled(cfg, s, Make(id, StartRequests(target, order)))
    ensures Quiet(acts)
    ensures Requests.Flowing(cfg.storage, Pipeline(s.picker, s.downloads, []))
    ensures Good(cfg, t) && Run(cfg, s, acts, t)
    ensures var x := s.sessions[id];
      var r := FillPipeline(cfg.storage, s.picker, s.downloads, order, Room(Some(target), |x.outgoing|), x.inEndgame, x.outgoing);
      t == Effect(s, id, x.(mode := Sending(r.batch, Max(target, |x.outgoing|))), r.picker, r.downloads, t.picks)
  {
    hide Good, Run, SessionsOk, DiskOk, TorrentOk, ConfigOk, PickerOk, Filed, Continue, OpenAll, FillPipeline, Requests.Flowing, Unrepeated;
    GoodShape(cfg, s);
    var x := s.sessions[id];
    var room := Room(Some(target), |x.outgoing|);
    FillIs(cfg.storage, s.picker, s.downloads, order, room, x.inEndgame, x.outgoing);
    var a := StartFills(cfg, s, id, target, order);
    var opens, b := OpensRun(cfg, a, id);
    var start := Make(id, StartRequests(target, order));
    RunAppend(cfg, s, [start], a, opens, b);
    t := StartSendingStep(b, id);
    StartSendingRuns(cfg, b, id);
    RunAppend(cfg, s, [start] + opens, b, [Make(id, StartSending)], t);
    acts := [start] + opens + [Make(id, StartSending)];
    UpdateTwice(s.sessions, id, a.sessions[id], b.sessions[id]);
    UpdateTwice(s.sessions, id, b.sessions[id], t.sessions[id]);
  }

  /** `make_requests` as one piece: left to itself, a session that starts it comes to have outstanding what
      `FillPipeline` picks, with the picker and the downloads as `FillPipeline` leaves them. */
  lemma MakeRequestsRuns(cfg: Config, s: State, id: nat, target: nat, order: seq<nat>) returns (acts: seq<Action>, t: State)
    requires Good(cfg, s) && Shape(cfg, s) && PickerFree(s.sessions) && Enabled(cfg, s, Make(id, StartRequests(target, order)))
    ensures Quiet(acts)
    ensures Requests.Flowing(cfg.storage, Pipeline(s.picker, s.downloads, []))
    ensures Run(cfg, s, acts, t)
    ensures var x := s.sessions[id];
      var r := FillPipeline(cfg.storage, s.picker, s.downloads, order, Room(Some(target), |x.outgoing|), x.inEndgame, x.outgoing);
      t == Effect(s, id, x.(mode := Idle, outgoing := x.outgoing + Elements(r.batch)), r.picker, r.downloads, t.picks)
  {
    hide Good, Run, SessionsOk, DiskOk, TorrentOk, ConfigOk, PickerOk, Filed, Elements, FillPipeline, Requests.Flowing;
    var fills, c := FillsRun(cfg, s, id, target, order);
    var sends;
    sends, t := SendsRun(cfg, c, id);
    acts := fills + sends;
    RunAppend(cfg, s, fills, c, sends, t);
    UpdateTwice(s.sessions, id, c.sessions[id], t.sessions[id]);
  }

  /** `make_requests` when send number `k` fails: with somebody listening for the alert, that request and
      those before it are registered, those behind it are not, and the session goes on to its cleanup;
      with nobody, it is gone at once. */
  lemma FailedRequestsRun(cfg: Config, s: State, id: nat, target: nat, order: seq<nat>, k: nat) returns (acts: seq<Action>, t: State)
    requires Good(cfg, s) && Shape(cfg, s) && PickerFree(s.sessions) && Enabled(cfg, s, Make(id, StartRequests(target, order)))
    requires Requests.Flowing(cfg.storage, Pipeline(s.picker, s.downloads, []))
    requires var x := s.sessions[id];
      k < |FillPipeline(cfg.storage, s.picker, s.downloads, order, Room(Some(target), |x.outgoing|), x.inEndgame, x.outgoing).batch|
    ensures Orderly(acts)
    ensures Good(cfg, t) && Run(cfg, s, acts, t)
    ensures var x := s.sessions[id];
      var r := FillPipeline(cfg.storage, s.picker, s.downloads, order, Room(Some(target), |x.outgoing|), x.inEndgame, x.outgoing);
      t == if s.heard
        then Effect(s, id, x.(mode := Draining(Stop), outgoing := x.outgoing + Elements(r.batch[..k + 1])), r.picker, r.downloads, t.picks)
          .(lost := s.lost + Asked(r.downloads, Elements(r.batch[k + 1..])))
        else Effect(s, id, x.(mode := Dead, outgoing := {}), r.picker, r.downloads, t.picks)
          .(lost := s.lost + Asked(r.downloads, x.outgoing + Elements(r.batch)))
  {
    hide Good, Run, SessionsOk, DiskOk, TorrentOk, ConfigOk, PickerOk, Filed, Elements, FillPipeline, Requests.Flowing, Asked, FailSendStep, PickerFree;
    var fills, c := FillsRun(cfg, s, id, target, order);
    var batch := c.sessions[id].mode.batch;
    var sends, d := SendsSome(cfg, c, id, k);
    GoodShape(cfg, d);
    t := FailSendStep(d, id);
    assert Enabled(cfg, d, Make(id, FailSend)) && t == Apply(cfg, d, Make(id, FailSend));
    OneStep(cfg, d, Make(id, FailSend));
    RunAppend(cfg, s, fills, c, sends, d);
    RunAppend(cfg, s, fills + sends, d, [Make(id, FailSend)], t);
    acts := fills + sends + [Make(id, FailSend)];
    QuietIsOrderly(fills);
    QuietIsOrderly(sends);
    FailIs(d, id, s.sessions[id].outgoing, batch, k);
    UpdateTwice(s.sessions, id, c.sessions[id], d.sessions[id]);
    UpdateTwice(s.sessions, id, d.sessions[id], t.sessions[id]);
  }

  /** The failing send of a batch of which `k` requests are out. */
  lemma FailIs(d: State, id: nat, outgoing: set<BlockInfo>, batch: seq<BlockInfo>, k: nat)
    requires id in d.sessions && k < |batch| && d.sessions[id].outgoing == outgoing + Elements(batch[..k])
    requires d.sessions[id].mode.Sending? && d.sessions[id].mode.batch == batch[k..]
    ensures FailSendStep(d, id) ==
      if d.heard
      then SetSession(d, id, d.sessions[id].(mode := Draining(Stop), outgoing := outgoing + Elements(batch[..k + 1])))
        .(lost := d.lost + Asked(d.downloads, Elements(batch[k + 1..])))
      else SetSession(d, id, d.sessions[id].(mode := Dead, outgoing := {})).(lost := d.lost + Asked(d.downloads, outgoing + Elements(batch)))
  {
    hide Elements, Asked;
    assert batch[..k + 1] == batch[..k] + [batch[k]] && batch[k..][1..] == batch[k + 1..];
    ElementsSnoc(batch[..k], batch[k]);
    assert (outgoing + Elements(batch[..k])) + {batch[k]} == outgoing + Elements(batch[..k + 1]);
    ElementsSum(batch[..k], batch[k..]);
    assert batch[..k] + batch[k..] == batch;
    assert d.sessions[id].Hand() == outgoing + Elements(batch);
  }

  lemma ElementsSum<T>(a: seq<T>, b: seq<T>)
    ensures Elements(a + b) == Elements(a) + Elements(b)
  {
    forall x ensures x in a + b <==> x in a || x in b {}
  }

  // Taking in a block.

  /** `handle_block_msg` as one piece: an unexpected block or one that is there already changes nothing but
      the outstanding requests; any other is marked and goes to the disk task. */
  lemma HandleBlockRuns(cfg: Config, s: State, id: nat, b: BlockInfo, data: seq<byte>) returns (acts: seq<Action>, t: State)
    requires Good(cfg, s) && Shape(cfg, s) && Enabled(cfg, s, Peer(id, TakeBlock(b, data)))
    ensures Quiet(acts)
    ensures Run(cfg, s, acts, t)
    ensures var sessions := s.sessions[id := s.sessions[id].(outgoing := s.sessions[id].outgoing - {b})];
      var p, i := b.pieceIndex, b.IndexInPiece();
      && (p in s.downloads ==> s.downloads[p].Valid() && i < |s.downloads[p].blocks|)
      && t == if p !in s.downloads || s.downloads[p].blocks[i].Received? then s.(sessions := sessions)
              else s.(sessions := sessions, downloads := s.downloads[p := Marked(s.downloads[p], i)], lost := s.lost - {b},
                      disk := s.disk.(queue := s.disk.queue + [WriteBlock(b, data)]))
  {
    hide Good, Run, Shape, PeerEnabled, PeerApply, Filed, InGrid, SetStatus, StatusOf;
    GoodShape(cfg, s);
    TakeBlockRuns(cfg, s, id, b, data);
    InRange(cfg.storage, s.downloads, b);
    DownloadFiled(cfg.storage, s.downloads, b.pieceIndex);
    StatusIs(s.downloads, b);
    var a := BlockStep(s, id, b, data);
    t := MarkBlockStep(a, id);
    MarkBlockRuns(cfg, a, id);
    acts := [Peer(id, TakeBlock(b, data))] + [Peer(id, MarkBlock)];
    RunAppend(cfg, s, [Peer(id, TakeBlock(b, data))], a, [Peer(id, MarkBlock)], t);
    UpdateTwice(s.sessions, id, a.sessions[id], t.sessions[id]);
    if t.sessions[id].mode.Handing? {
      var m := t;
      t := HandBlockStep(m, id);
      HandBlockRuns(cfg, m, id);
      RunAppend(cfg, s, acts, m, [Peer(id, HandBlock)], t);
      UpdateTwice(s.sessions, id, m.sessions[id], t.sessions[id]);
      acts := acts + [Peer(id, HandBlock)];
    }
  }

  lemma StatusIs(ds: DownloadMap, b: BlockInfo)
    requires b.pieceIndex in ds ==> ds[b.pieceIndex].Valid() && b.IndexInPiece() < |ds[b.pieceIndex].blocks|
    ensures b.pieceIndex !in ds ==> StatusOf(ds, b) == None
    ensures b.pieceIndex in ds ==> StatusOf(ds, b) == Some(ds[b.pieceIndex].blocks[b.IndexInPiece()])
    ensures b.pieceIndex in ds ==> SetStatus(ds, b, Received) == ds[b.pieceIndex := Marked(ds[b.pieceIndex], b.IndexInPiece())]
  {
  }

  lemma DownloadFiled(s: StorageInfo, ds: DownloadMap, p: nat)
    requires Filed(s, ds)
    ensures p in ds ==> ds[p].Valid()
  {
    if p in ds { assert FiledAt(s, ds[p], p); }
  }

  lemma TakeBlockRuns(cfg: Config, s: State, id: nat, b: BlockInfo, data: seq<byte>)
    requires Good(cfg, s) && Shape(cfg, s) && Enabled(cfg, s, Peer(id, TakeBlock(b, data)))
    ensures id in s.sessions && s.sessions[id].mode.Idle? && !s.torrent.panicked && InGrid(cfg.storage, b)
    ensures Run(cfg, s, [Peer(id, TakeBlock(b, data))], BlockStep(s, id, b, data)) && Good(cfg, BlockStep(s, id, b, data))
  {
    hide Good, Run, SessionsOk, DiskOk, TorrentOk, ConfigOk, PickerOk, InGrid;
    PeerStepRuns(cfg, s, id, TakeBlock(b, data));
  }

  lemma MarkBlockRuns(cfg: Config, s: State, id: nat)
    requires Good(cfg, s) && !s.torrent.panicked && id in s.sessions && s.sessions[id].mode.Delivering?
    ensures Run(cfg, s, [Peer(id, MarkBlock)], MarkBlockStep(s, id)) && Good(cfg, MarkBlockStep(s, id))
  {
    hide Good, Run, SessionsOk, DiskOk, TorrentOk, ConfigOk, PickerOk, InGrid, SetStatus;
    GoodShape(cfg, s);
    PeerStepRuns(cfg, s, id, MarkBlock);
  }

  lemma HandBlockRuns(cfg: Config, s: State, id: nat)
    requires Good(cfg, s) && !s.torrent.panicked && id in s.sessions && s.sessions[id].mode.Handing?
    ensures Run(cfg, s, [Peer(id, HandBlock)], HandBlockStep(s, id)) && Good(cfg, HandBlockStep(s, id))
  {
    hide Good, Run, SessionsOk, DiskOk, TorrentOk, ConfigOk, PickerOk, InGrid;
    GoodShape(cfg, s);
    PeerStepRuns(cfg, s, id, HandBlock);
  }

  // Dropping the outstanding requests.

  lemma FreeStatus(s: StorageInfo, ds: DownloadMap, done: set<BlockInfo>, b: BlockInfo)
    requires Filed(s, ds) && InGrid(s, b)
    ensures FreedAll(s, ds, done + {b}) == SetStatus(FreedAll(s, ds, done), b, Free)
  {
    hide InGrid, FreedAll, Filed;
    FreedFiles(s, ds, done);
    FreedKeys(s, ds, done);
    FreedOne(s, ds, done, b);
    InRange(s, FreedAll(s, ds, done), b);
  }

  lemma InRange(s: StorageInfo, ds: DownloadMap, b: BlockInfo)
    requires Filed(s, ds) && InGrid(s, b)
    ensures b.pieceIndex in ds ==> b.IndexInPiece() < |ds[b.pieceIndex].blocks|
  {
    if b.pieceIndex in ds { assert FiledAt(s, ds[b.pieceIndex], b.pieceIndex); }
  }

  lemma FreeOneRuns(cfg: Config, s: State, id: nat, b: BlockInfo)
    requires Good(cfg, s) && !s.torrent.panicked && id in s.sessions && s.sessions[id].mode.Draining? && b in s.sessions[id].outgoing
    ensures Run(cfg, s, [Peer(id, FreeOne(b))], FreeOneStep(s, id, b)) && Good(cfg, FreeOneStep(s, id, b))
    ensures InGrid(cfg.storage, b)
  {
    hide Good, Run, DiskOk, TorrentOk, ConfigOk, PickerOk, Filed, SetStatus, InGrid;
    GoodShape(cfg, s);
    assert SessionOk(cfg.storage, s.sessions[id]);
    PeerStepRuns(cfg, s, id, FreeOne(b));
  }

  lemma OneLess(done: set<BlockInfo>, lost: set<BlockInfo>, outgoing: set<BlockInfo>, b: BlockInfo)
    requires b in outgoing
    ensures done + {b} + (outgoing - {b}) == done + outgoing && lost - {b} - (outgoing - {b}) == lost - outgoing
  {
  }

  /** The drain in progress: the requests in `done` are dropped already. */
  lemma {:induction false} DrainsRun(cfg: Config, s0: State, s: State, id: nat, done: set<BlockInfo>) returns (acts: seq<Action>, t: State)
    requires Good(cfg, s) && !s.torrent.panicked && id in s.sessions && s.sessions[id].mode.Draining?
    requires Filed(cfg.storage, s0.downloads) && s.downloads == FreedAll(cfg.storage, s0.downloads, done)
    ensures Quiet(acts)
    ensures Good(cfg, t) && Run(cfg, s, acts, t)
    ensures t == s.(downloads := FreedAll(cfg.storage, s0.downloads, done + s.sessions[id].outgoing), lost := s.lost - s.sessions[id].outgoing,
                    sessions := s.sessions[id := s.sessions[id].(outgoing := {})])
    decreases |s.sessions[id].outgoing|
  {
    hide Good, Run, Quiet, Filed, FreedAll, SetStatus, InGrid;
    var x := s.sessions[id];
    if x.outgoing == {} {
      acts, t := [], s;
      NoStep(cfg, s);
      QuietNone();
      assert done + x.outgoing == done && s.lost - x.outgoing == s.lost;
    } else {
      var b :| b in x.outgoing;
      var next := FreeOneStep(s, id, b);
      FreeOneRuns(cfg, s, id, b);
      FreeStatus(cfg.storage, s0.downloads, done, b);
      var rest;
      rest, t := DrainsRun(cfg, s0, next, id, done + {b});
      OneLess(done, s.lost, x.outgoing, b);
      UpdateTwice(s.sessions, id, next.sessions[id], x.(outgoing := {}));
      acts := [Peer(id, FreeOne(b))] + rest;
      RunAppend(cfg, s, [Peer(id, FreeOne(b))], next, rest, t);
      QuietPeer(id, FreeOne(b));
      QuietAppend([Peer(id, FreeOne(b))], rest);
    }
  }

  lemma StartDrainRuns(cfg: Config, s: State, id: nat, reason: Reason)
    requires Good(cfg, s) && Shape(cfg, s) && Enabled(cfg, s, Peer(id, StartDrain(reason)))
    ensures id in s.sessions && !s.torrent.panicked
    ensures Run(cfg, s, [Peer(id, StartDrain(reason))], SetMode(s, id, Draining(reason))) && Good(cfg, SetMode(s, id, Draining(reason)))
  {
    hide Good, Run, SessionsOk, DiskOk, TorrentOk, ConfigOk, PickerOk, Filed;
    PeerStepRuns(cfg, s, id, StartDrain(reason));
  }

  lemma EndDrainRuns(cfg: Config, s: State, id: nat)
    requires Good(cfg, s) && !s.torrent.panicked && id in s.sessions && s.sessions[id].mode.Draining? && s.sessions[id].outgoing == {}
    ensures Run(cfg, s, [Peer(id, EndDrain)], EndDrainStep(s, id)) && Good(cfg, EndDrainStep(s, id))
  {
    hide Good, Run, SessionsOk, DiskOk, TorrentOk, ConfigOk, PickerOk, Filed, EndDrainStep;
    GoodShape(cfg, s);
    PeerStepRuns(cfg, s, id, EndDrain);
  }

  /** `free_pending_blocks` as one piece, around a choke, a timeout or the session's end: all outstanding
      requests are dropped and exactly their blocks freed. */
  lemma FreePendingRuns(cfg: Config, s: State, id: nat, reason: Reason) returns (acts: seq<Action>, t: State)
    requires Good(cfg, s) && Shape(cfg, s) && Enabled(cfg, s, Peer(id, StartDrain(reason)))
    ensures Quiet(acts)
    ensures Filed(cfg.storage, s.downloads) && Run(cfg, s, acts, t)
    ensures var x := s.sessions[id];
      t == s.(downloads := FreedAll(cfg.storage, s.downloads, x.outgoing), lost := s.lost - x.outgoing,
              sessions := s.sessions[id := x.(outgoing := {}, isChoked := x.isChoked || reason.Choke?, mode := if reason.Stop? then Dead else Idle)])
  {
    hide Good, Run, Shape, PeerEnabled, Filed, FreedAll;
    GoodShape(cfg, s);
    FreedNone(cfg.storage, s.downloads);
    StartDrainRuns(cfg, s, id, reason);
    var start := [Peer(id, StartDrain(reason))];
    var a := SetMode(s, id, Draining(reason));
    var frees, b := DrainsRun(cfg, s, a, id, {});
    assert {} + s.sessions[id].outgoing == s.sessions[id].outgoing;
    RunAppend(cfg, s, start, a, frees, b);
    EndDrainRuns(cfg, b, id);
    t := EndDrainStep(b, id);
    RunAppend(cfg, s, start + frees, b, [Peer(id, EndDrain)], t);
    UpdateTwice(s.sessions, id, a.sessions[id], b.sessions[id]);
    UpdateTwice(s.sessions, id, b.sessions[id], t.sessions[id]);
    acts := start + frees + [Peer(id, EndDrain)];
  }

  // A completed piece.

  /** `handle_piece_completion` of a valid piece as one piece: the download goes, the piece becomes owned,
      endgame begins when nothing is left to pick and something is missing, and every session is told. */
  lemma CompletionRuns(cfg: Config, s: State) returns (t: State)
    requires Good(cfg, s) && Shape(cfg, s) && Enabled(cfg, s, Core(TakeCompletion)) && s.torrent.queue[0].isValid
    requires !s.picker.own[s.torrent.queue[0].index] && PickerFree(s.sessions)
    ensures Run(cfg, s, [Core(TakeCompletion), Core(RegisterPiece)], t)
    ensures var p := s.torrent.queue[0].index;
      var after := Owned(s.picker, p);
      var endgame := s.torrent.inEndgame || (MissingSet(after) != {} && FreeSet(after) == {});
      t == s.(picker := after, downloads := s.downloads - {p}, lost := Elsewhere(s.lost, p), sessions := Broadcast(s.sessions, Command(p, endgame)),
              torrent := s.torrent.(queue := s.torrent.queue[1..], inEndgame := endgame))
  {
    hide Good, Run, SessionsOk, DiskOk, ConfigOk, Filed, Broadcast, MissingSet, FreeSet;
    GoodShape(cfg, s);
    var p := s.torrent.queue[0].index;
    var a := TakeCompletionStep(s);
    assert a == Apply(cfg, s, Core(TakeCompletion));
    OneStep(cfg, s, Core(TakeCompletion));
    GoodShape(cfg, a);
    t := RegisterPieceStep(a);
    assert Enabled(cfg, a, Core(RegisterPiece)) && t == Apply(cfg, a, Core(RegisterPiece));
    OneStep(cfg, a, Core(RegisterPiece));
    RunAppend(cfg, s, [Core(TakeCompletion)], a, [Core(RegisterPiece)], t);
    assert [Core(TakeCompletion)] + [Core(RegisterPiece)] == [Core(TakeCompletion), Core(RegisterPiece)];
    ReceivedKeeps(s.picker, p);
    CountsEmpty(Owned(s.picker, p));
  }

  predicate StartedOver(d: Download, e: Download) {
    e.index == d.index && e.len == d.len && |e.blocks| == |d.blocks| && forall i :: 0 <= i < |e.blocks| ==> e.blocks[i].Free?
  }

  /** And of an invalid one: all blocks of its download become free, and nothing else changes. */
  lemma InvalidRuns(cfg: Config, s: State)
    requires Shape(cfg, s) && Enabled(cfg, s, Core(TakeCompletion)) && !s.torrent.queue[0].isValid
    ensures var t := Apply(cfg, s, Core(TakeCompletion));
      var p := s.torrent.queue[0].index;
      && t == s.(downloads := t.downloads, lost := t.lost, torrent := s.torrent.(queue := s.torrent.queue[1..]))
      && t.downloads.Keys == s.downloads.Keys && (forall q :: q in s.downloads && q != p ==> t.downloads[q] == s.downloads[q])
      && (p in s.downloads ==> StartedOver(s.downloads[p], t.downloads[p]))
  {
    hide SessionsOk, DiskOk, PickerOk, ConfigOk, Filed;
  }

  // The disk task.

  /** From `d` to `e` the block has joined its piece's buffer, where the first block at an offset stays, and
      the piece has left the buffers for a job of its own exactly when that makes it complete. */
  ghost predicate Written(s: StorageInfo, d: Disk, e: Disk, w: WriteBlock)
    requires w.block.pieceIndex < s.pieceCount
  {
    var p := w.block.pieceIndex;
    var m := if p in e.buffer then e.buffer[p] else if e.jobs != [] then e.jobs[|e.jobs| - 1].blocks else map[];
    && FirstStays(Buffered(d, p), m, w.block.offset, w.data) && (p in e.buffer <==> |m| < BlockCount(s.PieceLen(p)))
    && e.buffer - {p} == d.buffer - {p} && e.jobs == (if p in e.buffer then d.jobs else d.jobs + [Job(p, m)])
  }

  /** `write_block` takes the oldest block, and touches nothing but the buffers and the jobs. */
  lemma WriteBlockRuns(cfg: Config, s: State)
    requires Shape(cfg, s) && Enabled(cfg, s, Core(WriteToDisk))
    ensures var t := Apply(cfg, s, Core(WriteToDisk));
      && s.disk.queue[0].block.pieceIndex < cfg.storage.pieceCount && Written(cfg.storage, s.disk, t.disk, s.disk.queue[0])
      && t == s.(disk := t.disk) && t.disk.files == s.disk.files && t.disk.queue == s.disk.queue[1..]
  {
    hide SessionsOk, TorrentOk, PickerOk, ConfigOk, Filed, Written, BufferOk, JobsOk, InGrid, Enqueue;
    var w := s.disk.queue[0];
    WriteFits(cfg.storage, s.disk, w);
    var p := w.block.pieceIndex;
    var m := Enqueue(Buffered(s.disk, p), w.block.offset, w.data);
    WriteIs(cfg.storage, s.disk, Apply(cfg, s, Core(WriteToDisk)).disk, w, m);
  }

  lemma WriteIs(s: StorageInfo, d: Disk, e: Disk, w: WriteBlock, m: BlockMap)
    requires w.block.pieceIndex < s.pieceCount && m == Enqueue(Buffered(d, w.block.pieceIndex), w.block.offset, w.data)
    requires |m| <= BlockCount(s.PieceLen(w.block.pieceIndex))
    requires var p := w.block.pieceIndex;
      if |m| == BlockCount(s.PieceLen(p)) then e.buffer == d.buffer - {p} && e.jobs == d.jobs + [Job(p, m)]
      else e.buffer == d.buffer[p := m] && e.jobs == d.jobs
    ensures Written(s, d, e, w)
  {
    hide Enqueue, FirstStays, StorageInfo.PieceLen, BlockCount;
    EnqueueMeans(Buffered(d, w.block.pieceIndex), w.block.offset, w.data);
  }

  /** A block does not overfill its piece's buffer. */
  lemma WriteFits(s: StorageInfo, d: Disk, w: WriteBlock)
    requires DiskOk(s, d) && WriteOk(s, w)
    ensures w.block.pieceIndex < s.pieceCount
    ensures |Enqueue(Buffered(d, w.block.pieceIndex), w.block.offset, w.data)| <= BlockCount(s.PieceLen(w.block.pieceIndex))
  {
    hide QueueOk, JobsOk, GridShaped;
    var p := w.block.pieceIndex;
    if p in d.buffer { assert BufferAt(s, d.buffer[p], p); } else { assert |map[w.block.offset := w.data]| == 1; }
  }

  /** A flush job reports whether its piece's bytes hash to what is expected, behind the reports already
      waiting, and the files change by exactly the piece when they do. */
  lemma FlushRuns(cfg: Config, s: State, k: nat)
    requires Shape(cfg, s) && Enabled(cfg, s, Core(FinishJob(k)))
    ensures var t := Apply(cfg, s, Core(FinishJob(k)));
      var j := s.disk.jobs[k];
      && j.index < cfg.storage.pieceCount == |cfg.expected| && |Assemble(j.blocks)| == cfg.storage.PieceLen(j.index)
      && |s.disk.files| == |cfg.storage.files|
      && var valid := cfg.hash(Assemble(j.blocks)) == cfg.expected[j.index];
        && t == s.(disk := t.disk, torrent := s.torrent.(queue := s.torrent.queue + [PieceCompletion(j.index, valid)]))
        && t.disk == s.disk.(jobs := s.disk.jobs[..k] + s.disk.jobs[k + 1..], files := t.disk.files)
        && t.disk.files == if valid
          then Scatter(cfg.storage.files, s.disk.files, cfg.storage.PieceOffset(j.index), Assemble(j.blocks)) else s.disk.files
  {
    hide SessionsOk, TorrentOk, PickerOk, Filed, QueueOk, BufferOk, StorageInfo.Valid, Assemble, Scatter, GridShaped;
    var j := s.disk.jobs[k];
    assert JobOk(cfg.storage, j);
    CompleteMeansWhole(j.blocks, cfg.storage.PieceLen(j.index));
  }
}
