/** What the steps come to: who changes what of a session, that every session learns of endgame, that a
    session's requests reach its target, what a piece's availability counts, and that nobody is stuck
    (cratetorrent/src/peer.rs, cratetorrent/src/torrent.rs, cratetorrent/src/piece_picker.rs). */
module SwarmProgress {
  import opened FlatDisk
  import opened PieceBuffer
  import opened Downloads
  import opened PiecePicking
  import opened Requests
  import opened Swarm
  import opened SwarmShape
  import opened SwarmRuns
  import R = Repeats

  // Who changes what of a session.

  /** The step is the session's own. */
  predicate Own(a: Action, id: nat) { (a.Make? || a.Peer?) && a.id == id }

  predicate TellsAll(s: State, a: Action) {
    a == Core(RegisterPiece) && s.torrent.retiring.Some? && s.torrent.retiring.value < |s.picker.own| && !s.picker.own[s.torrent.retiring.value]
  }

  /** The choke state follows the peer, the endgame flag the commands, and interest what the picker said of
      the peer's last announcement; nothing else touches them. */
  ghost predicate Follows(s: State, a: Action, t: State, id: nat)
    requires id in s.sessions
  {
    && id in t.sessions
    && var (x, y) := (s.sessions[id], t.sessions[id]);
    && (!Own(a, id) ==> y == x.(commands := y.commands))
    && y.isChoked == (
      if a == Peer(id, Unchoke) then false
      else if a == Peer(id, EndDrain) && x.mode == Draining(Choke) then true
      else x.isChoked)
    && (y.isInterested <==>
      if Own(a, id) && a.Peer? && a.peer.Bitfield? then exists i :: 0 <= i < |a.peer.bits| && i < |s.picker.own| && a.peer.bits[i] && !s.picker.own[i]
      else if Own(a, id) && a.Peer? && a.peer.Have? then a.peer.piece < |s.picker.own| && s.picker.own[a.peer.piece]
      else x.isInterested)
    && (a == Peer(id, TakeCommand) ==> x.commands != [])
    && y.inEndgame == (if a == Peer(id, TakeCommand) then x.commands[0].inEndgame else x.inEndgame)
    && y.commands == (
      if a == Peer(id, TakeCommand) then x.commands[1..]
      else if TellsAll(s, a) then x.commands + [Command(s.torrent.retiring.value, t.torrent.inEndgame)]
      else x.commands)
  }

  lemma MakeFollows(cfg: Config, s: State, id: nat, a: MakeStep)
    requires Shape(cfg, s) && MakeEnabled(cfg, s, id, a) && id in s.sessions
    ensures Follows(s, Make(id, a), MakeApply(cfg, s, id, a), id)
  {
    hide PickerOk, SessionsOk, DiskOk, TorrentOk, ConfigOk, Filed, FirstPickable, Continue, OrderOf, Elements, PickBlocks, Asked, Session.Hand, PickerFree;
  }

  lemma PlainFollows(cfg: Config, s: State, id: nat, a: PeerStep)
    requires Shape(cfg, s) && PeerEnabled(cfg, s, id, a) && id in s.sessions
    requires a.Unchoke? || a.Bitfield? || a.Have? || a.EndDrain? || a.TakeCommand? || a.TakeBlock? || a.HandBlock? || a.StartDrain?
    ensures Follows(s, Peer(id, a), PeerApply(cfg, s, id, a), id)
  {
    hide SessionsOk, DiskOk, TorrentOk, ConfigOk, Filed, Register, InGrid, PickerFree, MissingSet, FreeSet;
  }

  lemma OtherFollows(cfg: Config, s: State, id: nat, a: PeerStep)
    requires Shape(cfg, s) && PeerEnabled(cfg, s, id, a) && id in s.sessions
    requires a.MarkBlock? || a.FreeOne? || a.Vanish?
    ensures Follows(s, Peer(id, a), PeerApply(cfg, s, id, a), id)
  {
    hide SessionsOk, DiskOk, TorrentOk, ConfigOk, Filed, Register, Interesting, InGrid, PickerFree, MissingSet, FreeSet, StatusOf, SetStatus, Asked, Session.Hand;
  }

  lemma CoreFollows(cfg: Config, s: State, a: CoreStep, id: nat)
    requires Shape(cfg, s) && CoreEnabled(cfg, s, a) && id in s.sessions
    ensures Follows(s, Core(a), CoreApply(cfg, s, a), id)
  {
    hide SessionsOk, DiskOk, ConfigOk, Filed, MissingSet, FreeSet, WriteToDiskStep, FinishJobStep, TakeCompletionStep, PickerFree;
    if !a.RegisterPiece? { CoreSameSessions(cfg, s, a); }
  }

  lemma CoreSameSessions(cfg: Config, s: State, a: CoreStep)
    requires Shape(cfg, s) && CoreEnabled(cfg, s, a) && !a.RegisterPiece?
    ensures CoreApply(cfg, s, a).sessions == s.sessions
  {
    hide SessionsOk, DiskOk, ConfigOk, Filed, MissingSet, FreeSet, Enqueue, Assemble, Scatter, Hashes;
  }

  lemma StepFollows(cfg: Config, s: State, a: Action, id: nat)
    requires Shape(cfg, s) && Enabled(cfg, s, a) && id in s.sessions
    ensures Follows(s, a, Apply(cfg, s, a), id)
  {
    hide PickerOk, SessionsOk, DiskOk, TorrentOk, ConfigOk, Filed, MakeEnabled, CoreEnabled, MakeApply, PeerApply, CoreApply;
    match a
    case Make(k, m) =>
      if k == id { MakeFollows(cfg, s, id, m); } else { MakeActs(cfg, s, k, m); }
    case Peer(k, p) =>
      if k != id { PeerActs(cfg, s, k, p); }
      else if p.MarkBlock? || p.FreeOne? || p.Vanish? { OtherFollows(cfg, s, id, p); }
      else { PlainFollows(cfg, s, id, p); }
    case Core(c) => CoreFollows(cfg, s, c, id);
  }

  /** A session begins choked, not interested, not in endgame, and with nothing to do. */
  lemma NewcomerStarts(cfg: Config, s: State, id: nat)
    requires Shape(cfg, s) && Enabled(cfg, s, Peer(id, Connect))
    ensures id !in s.sessions && id in Apply(cfg, s, Peer(id, Connect)).sessions
    ensures var x := Apply(cfg, s, Peer(id, Connect)).sessions[id];
      x.isChoked && !x.isInterested && !x.inEndgame && x.outgoing == {} && x.commands == [] && x.Batch() == []
  {
    hide SessionsOk, DiskOk, TorrentOk, ConfigOk, Filed;
  }

  // Endgame reaches everybody.

  /** The session is in endgame, or will be when it has taken the commands sent to it. */
  predicate Told(x: Session) {
    if x.commands == [] then x.inEndgame else x.commands[|x.commands| - 1].inEndgame
  }

  lemma StepTold(cfg: Config, s: State, a: Action, id: nat)
    requires Shape(cfg, s) && Enabled(cfg, s, a) && id in s.sessions && Told(s.sessions[id]) && s.torrent.inEndgame
    ensures id in Apply(cfg, s, a).sessions && Told(Apply(cfg, s, a).sessions[id]) && Apply(cfg, s, a).torrent.inEndgame
  {
    hide Shape, Enabled, Apply;
    StepFollows(cfg, s, a, id);
    StepIsLater(cfg, s, a);
    var x := s.sessions[id];
    if a == Peer(id, TakeCommand) && |x.commands| > 1 {
      assert x.commands[1..][|x.commands| - 2] == x.commands[|x.commands| - 1];
    }
  }

  lemma {:induction false} RunTold(cfg: Config, s: State, acts: seq<Action>, t: State, id: nat)
    requires Run(cfg, s, acts, t) && id in s.sessions && Told(s.sessions[id]) && s.torrent.inEndgame
    ensures id in t.sessions && Told(t.sessions[id])
    decreases |acts|
  {
    hide Shape, Enabled, Apply, Told;
    if acts != [] {
      StepTold(cfg, s, acts[0], id);
      RunTold(cfg, Apply(cfg, s, acts[0]), acts[1..], t, id);
    }
  }

  lemma Registers(cfg: Config, s: State)
    requires Shape(cfg, s) && Enabled(cfg, s, Core(RegisterPiece)) && !Apply(cfg, s, Core(RegisterPiece)).torrent.panicked
    ensures TellsAll(s, Core(RegisterPiece))
  {
    hide SessionsOk, DiskOk, ConfigOk, Filed, MissingSet, FreeSet, Broadcast;
  }

  /** Once the torrent has registered a piece and is in endgame, every session there was then is in endgame
      for good as soon as it has taken the commands that wait for it. */
  lemma EndgameReachesAll(cfg: Config, s: State, acts: seq<Action>, t: State, id: nat)
    requires Shape(cfg, s) && Enabled(cfg, s, Core(RegisterPiece)) && id in s.sessions
    requires var u := Apply(cfg, s, Core(RegisterPiece)); u.torrent.inEndgame && !u.torrent.panicked && Run(cfg, u, acts, t)
    ensures id in t.sessions
    ensures var x := t.sessions[id]; if x.commands == [] then x.inEndgame else x.commands[|x.commands| - 1].inEndgame
  {
    hide Shape, Run, Enabled, Apply;
    Registers(cfg, s);
    StepFollows(cfg, s, Core(RegisterPiece), id);
    RunTold(cfg, Apply(cfg, s, Core(RegisterPiece)), acts, t, id);
  }

  // The pipeline is filled.

  /** The session makes requests as it did when it looked like `y`, and has picked no fewer. */
  predicate InLoop(x: Session, y: Session, target: nat) {
    && (x.mode.Picking? || x.mode.Opening?) && x.mode.target == target
    && x.outgoing == y.outgoing && x.inEndgame == y.inEndgame && |y.Batch()| <= |x.Batch()|
  }

  /** No step of the session but picking pieces. */
  predicate OnlyPicks(acts: seq<Action>, id: nat) {
    forall k :: 0 <= k < |acts| ==> PicksOnly(acts[k], id)
  }

  predicate PicksOnly(a: Action, id: nat) {
    match a
    case Make(k, m) => k == id ==> m.PickPiece? || m.InsertDownload?
    case Peer(k, _) => k != id
    case Core(_) => true
  }

  lemma CoreLeaves(cfg: Config, s: State, a: CoreStep, id: nat)
    requires Shape(cfg, s) && CoreEnabled(cfg, s, a) && id in s.sessions
    ensures id in CoreApply(cfg, s, a).sessions
    ensures var x := CoreApply(cfg, s, a).sessions[id]; x.inEndgame == s.sessions[id].inEndgame
  {
    hide SessionsOk, DiskOk, ConfigOk, Filed, MissingSet, FreeSet, Enqueue, Assemble, Scatter, Hashes;
  }

  lemma PicksOn(cfg: Config, s: State, id: nat, a: MakeStep, y: Session, target: nat)
    requires Shape(cfg, s) && MakeEnabled(cfg, s, id, a) && (a.PickPiece? || a.InsertDownload?) && InLoop(s.sessions[id], y, target)
    ensures id in MakeApply(cfg, s, id, a).sessions && InLoop(MakeApply(cfg, s, id, a).sessions[id], y, target)
  {
    hide PickerOk, SessionsOk, DiskOk, TorrentOk, ConfigOk, Filed, FirstPickable, PickBlocks, PickerFree;
  }

  lemma StepInLoop(cfg: Config, s: State, a: Action, id: nat, y: Session, target: nat)
    requires Shape(cfg, s) && Enabled(cfg, s, a) && id in s.sessions && InLoop(s.sessions[id], y, target) && PicksOnly(a, id)
    ensures id in Apply(cfg, s, a).sessions && InLoop(Apply(cfg, s, a).sessions[id], y, target)
  {
    hide PickerOk, SessionsOk, DiskOk, TorrentOk, ConfigOk, Filed, MakeEnabled, PeerEnabled, CoreEnabled, MakeApply, PeerApply, CoreApply;
    match a
    case Make(k, m) =>
      MakeActs(cfg, s, k, m);
      if k == id { PicksOn(cfg, s, id, m, y, target); }
    case Peer(k, p) =>
      PeerActs(cfg, s, k, p);
    case Core(c) =>
      CoreActs(cfg, s, c);
      CoreLeaves(cfg, s, c, id);
  }

  lemma {:induction false} RunInLoop(cfg: Config, s: State, acts: seq<Action>, t: State, id: nat, y: Session, target: nat)
    requires Run(cfg, s, acts, t) && id in s.sessions && InLoop(s.sessions[id], y, target) && OnlyPicks(acts, id)
    ensures id in t.sessions && InLoop(t.sessions[id], y, target)
    decreases |acts|
  {
    hide Shape, Enabled, Apply, InLoop, PicksOnly;
    if acts != [] {
      assert PicksOnly(acts[0], id);
      StepInLoop(cfg, s, acts[0], id, y, target);
      RunInLoop(cfg, Apply(cfg, s, acts[0]), acts[1..], t, id, y, target);
    }
  }

  /** The first loop leaves the session with its target or with nothing it could ask for in the downloads. */
  lemma StartFillsUp(cfg: Config, s: State, id: nat, target: nat, order: seq<nat>)
    requires Shape(cfg, s) && Enabled(cfg, s, Make(id, StartRequests(target, order)))
    ensures var u := Apply(cfg, s, Make(id, StartRequests(target, order)));
      && id in s.sessions && id in u.sessions && u.sessions[id].mode.Picking? && Sound(u.downloads)
      && var x := u.sessions[id];
        && InLoop(x, x, target) && x.outgoing == s.sessions[id].outgoing
        && (|x.outgoing| + |x.mode.batch| >= target || AllExhausted(u.downloads, x.inEndgame, x.outgoing + Elements(x.mode.batch)))
  {
    hide PickerOk, SessionsOk, DiskOk, TorrentOk, ConfigOk, Filed, Continue, OrderOf, AllExhausted, Elements;
    FiledIsSound(cfg.storage, s.downloads);
    R.PassFills(s.downloads, order, target, s.sessions[id].inEndgame, s.sessions[id].outgoing);
  }

  /** Whatever others do meanwhile, a session that begins to make requests and comes to send them has its
      target in requests outstanding and about to be sent; or its first loop left nothing in the shared
      downloads that it could ask for, and now no piece can be picked. */
  lemma PipelineFills(cfg: Config, s: State, id: nat, target: nat, order: seq<nat>, acts: seq<Action>, t: State)
    requires Shape(cfg, s) && Enabled(cfg, s, Make(id, StartRequests(target, order)))
    requires Run(cfg, Apply(cfg, s, Make(id, StartRequests(target, order))), acts, t) && OnlyPicks(acts, id)
    requires Shape(cfg, t) && Enabled(cfg, t, Make(id, StartSending))
    ensures var u := Apply(cfg, s, Make(id, StartRequests(target, order)));
      && id in u.sessions && u.sessions[id].mode.Picking? && Sound(u.downloads) && t.picker.SameShape()
      && id in t.sessions && t.sessions[id].mode.Picking? && t.sessions[id].outgoing == s.sessions[id].outgoing
      && var (x, y) := (t.sessions[id], u.sessions[id]);
        || |x.outgoing| + |x.mode.batch| >= target
        || (FirstPickable(t.picker, 0).None? && AllExhausted(u.downloads, y.inEndgame, y.outgoing + Elements(y.mode.batch)))
  {
    hide SessionsOk, DiskOk, TorrentOk, ConfigOk, Filed, Run, Apply, AllExhausted, Elements, OrderOf, PickerFree, OnlyPicks, MissingSet, FreeSet;
    StartFillsUp(cfg, s, id, target, order);
    var u := Apply(cfg, s, Make(id, StartRequests(target, order)));
    RunInLoop(cfg, u, acts, t, id, u.sessions[id], target);
  }

  /** A piece the session opens gives it its target, or all of its blocks. */
  lemma OpeningFills(cfg: Config, s: State, id: nat)
    requires Shape(cfg, s) && Enabled(cfg, s, Make(id, PickPiece))
    ensures var t := Apply(cfg, s, Make(id, PickPiece));
      && id in t.sessions && t.sessions[id].mode.Opening? && t.sessions[id].mode.download.Valid()
      && var x := t.sessions[id];
        || |x.outgoing| + |x.mode.batch| >= x.mode.target
        || Exhausted(x.mode.download, x.inEndgame, x.outgoing + Elements(x.mode.batch))
  {
    hide SessionsOk, DiskOk, TorrentOk, ConfigOk, Filed, PickBlocks, Exhausted, Elements, PickerFree, MissingSet, FreeSet;
    var x := s.sessions[id];
    var d := NewDownload(FirstPickable(s.picker, 0).value, cfg.storage.PieceLen(FirstPickable(s.picker, 0).value));
    var pick := PickBlocks(d, RoomLeft(x), x.inEndgame, x.outgoing);
    if |pick.1| < RoomLeft(x) {
      ShortPick(d, RoomLeft(x), x.inEndgame, x.outgoing);
      StillExhausted(pick.0, x.inEndgame, x.outgoing, pick.1, x.mode.batch + pick.1);
    }
  }

  // Availability.

  /** The step announces that a peer has the piece. */
  predicate Announces(a: Action, p: nat) {
    a.Peer? && ((a.peer.Bitfield? && p < |a.peer.bits| && a.peer.bits[p]) || a.peer == Have(p))
  }

  function Announced(acts: seq<Action>, p: nat): nat {
    if acts == [] then 0 else (if Announces(acts[0], p) then 1 else 0) + Announced(acts[1..], p)
  }

  lemma StepCounts(cfg: Config, s: State, a: Action, p: nat)
    requires Shape(cfg, s) && Enabled(cfg, s, a) && p < |s.picker.pieces|
    ensures var t := Apply(cfg, s, a);
      |t.picker.pieces| == |s.picker.pieces| && t.picker.pieces[p].frequency == s.picker.pieces[p].frequency + if Announces(a, p) then 1 else 0
  {
    hide SessionsOk, DiskOk, TorrentOk, ConfigOk, Filed, MissingSet, FreeSet, FirstPickable, Continue, OrderOf, Elements, PickBlocks, Asked, Session.Hand, PickerFree,
      Interesting, InGrid, StatusOf, SetStatus, Enqueue, Broadcast, Assemble, Scatter, Hashes;
    match a
    case Make(id, m) => {}
    case Peer(id, q) => {}
    case Core(c) => {}
  }

  lemma {:induction false} RunCounts(cfg: Config, s: State, acts: seq<Action>, t: State, p: nat)
    requires Run(cfg, s, acts, t) && p < |s.picker.pieces|
    ensures |t.picker.pieces| == |s.picker.pieces| && t.picker.pieces[p].frequency == s.picker.pieces[p].frequency + Announced(acts, p)
    decreases |acts|
  {
    hide Shape, Enabled, Apply, Announces;
    if acts != [] {
      StepCounts(cfg, s, acts[0], p);
      RunCounts(cfg, Apply(cfg, s, acts[0]), acts[1..], t, p);
    }
  }

  /** A piece's availability is the number of times peers have announced it. */
  lemma AvailabilityCounts(cfg: Config, acts: seq<Action>, t: State, p: nat)
    requires Run(cfg, Init(cfg), acts, t) && p < cfg.storage.pieceCount
    ensures |t.picker.pieces| == cfg.storage.pieceCount && t.picker.pieces[p].frequency == Announced(acts, p)
  {
    hide Run;
    RunCounts(cfg, Init(cfg), acts, t, p);
  }

  // Nobody is stuck.

  /** The holder of the picker's lock files its download. */
  predicate Files(s: State, a: Action) {
    a.Make? && a.make.InsertDownload? && a.id in s.sessions && s.sessions[a.id].mode.Opening?
  }

  lemma MakeGoesOn(cfg: Config, s: State, id: nat) returns (a: Action)
    requires Shape(cfg, s) && !s.torrent.panicked && id in s.sessions && s.sessions[id].InMake()
    ensures Enabled(cfg, s, a) && (Own(a, id) || Files(s, a))
  {
    hide MissingSet, FreeSet, SessionsOk, DiskOk, TorrentOk, ConfigOk, Filed, FirstPickable;
    var x := s.sessions[id];
    match x.mode
    case Picking(_, _) =>
      if RoomLeft(x) == 0 {
        a := Make(id, StartSending);
      } else if PickerFree(s.sessions) {
        a := Make(id, if FirstPickable(s.picker, 0).Some? then PickPiece else StartSending);
      } else {
        var k :| k in s.sessions && s.sessions[k].mode.Opening?;
        a := Make(k, InsertDownload);
      }
    case Opening(_, _, _) => a := Make(id, InsertDownload);
    case Sending(batch, _) => a := Make(id, if batch != [] then SendRequest else EndSending);
  }

  lemma PeerGoesOn(cfg: Config, s: State, id: nat) returns (a: Action)
    requires Shape(cfg, s) && !s.torrent.panicked && id in s.sessions
    requires s.sessions[id].mode.Draining? || s.sessions[id].mode.Delivering? || s.sessions[id].mode.Handing?
    ensures Enabled(cfg, s, a) && Own(a, id)
  {
    hide PickerOk, SessionsOk, DiskOk, TorrentOk, ConfigOk, Filed, PickerFree;
    var x := s.sessions[id];
    if x.mode.Draining? {
      if b :| b in x.outgoing { a := Peer(id, FreeOne(b)); } else { a := Peer(id, EndDrain); }
    } else {
      a := Peer(id, if x.mode.Delivering? then MarkBlock else HandBlock);
    }
  }

  /** A session in the middle of anything can go on, or waits for the picker's lock, whose holder can. */
  lemma SessionGoesOn(cfg: Config, s: State, id: nat) returns (a: Action)
    requires Shape(cfg, s) && !s.torrent.panicked && id in s.sessions && !s.sessions[id].mode.Idle? && !s.sessions[id].mode.Dead?
    ensures Enabled(cfg, s, a) && (Own(a, id) || Files(s, a))
  {
    hide Shape, Enabled;
    if s.sessions[id].InMake() { a := MakeGoesOn(cfg, s, id); } else { a := PeerGoesOn(cfg, s, id); }
  }

  /** So can the disk task and each of its flush jobs, and the torrent task. */
  lemma TasksGoOn(cfg: Config, s: State)
    requires Shape(cfg, s) && !s.torrent.panicked
    ensures s.disk.queue != [] ==> Enabled(cfg, s, Core(WriteToDisk))
    ensures forall k: nat :: k < |s.disk.jobs| ==> Enabled(cfg, s, Core(FinishJob(k)))
    ensures s.torrent.queue != [] || s.torrent.retiring.Some? ==>
      Enabled(cfg, s, Core(if s.torrent.retiring.Some? then RegisterPiece else TakeCompletion)) || exists a :: Files(s, a) && Enabled(cfg, s, a)
  {
    hide PickerOk, SessionsOk, DiskOk, TorrentOk, ConfigOk, Filed;
    if k :| k in s.sessions && s.sessions[k].mode.Opening? { assert Files(s, Make(k, InsertDownload)) && Enabled(cfg, s, Make(k, InsertDownload)); }
  }
}
