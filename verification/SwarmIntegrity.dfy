/** What is on disk of an owned piece hashes to what the metainfo says, in every state. */
module SwarmIntegrity {
  import opened Wrappers
  import opened Storage
  import opened FlatDisk
  import opened PieceBuffer
  import opened Downloads
  import opened PiecePicking
  import opened Requests
  import opened Swarm
  import opened SwarmShape

  /** The bytes of piece p as the files hold them, across all files it spans. */
  function Region(s: StorageInfo, files: seq<seq<byte>>, p: nat): seq<byte>
    requires |files| == |s.files| && p < s.pieceCount
    requires |Flat(s.files, files)| == s.downloadLen && s.PieceEnd(p) <= s.downloadLen
  {
    Flat(s.files, files)[s.PieceOffset(p)..s.PieceEnd(p)]
  }

  lemma RegionFits(s: StorageInfo, files: seq<seq<byte>>, p: nat)
    requires s.Valid() && |files| == |s.files| && p < s.pieceCount
    ensures |Flat(s.files, files)| == s.downloadLen && s.PieceEnd(p) <= s.downloadLen
    ensures |Region(s, files, p)| == s.PieceLen(p)
  {
    FlatLen(s.files, files);
    PieceOrder(s, p);
  }

  ghost predicate Intact(cfg: Config, files: seq<seq<byte>>, p: nat)
    requires ConfigOk(cfg) && |files| == |cfg.storage.files| && p < cfg.storage.pieceCount
  {
    RegionFits(cfg.storage, files, p);
    Hashes(cfg, p, Region(cfg.storage, files, p))
  }

  predicate SaidValid(queue: seq<PieceCompletion>, k: nat, p: nat) {
    k < |queue| && queue[k] == PieceCompletion(p, true)
  }

  /** Owned, or reported valid and on the way to being owned. */
  ghost predicate Vouched(own: seq<bool>, t: Torrent, p: nat) {
    (p < |own| && own[p]) || t.retiring == Some(p) || exists k: nat :: SaidValid(t.queue, k, p)
  }

  ghost predicate AllIntact(cfg: Config, own: seq<bool>, t: Torrent, files: seq<seq<byte>>)
    requires ConfigOk(cfg) && |files| == |cfg.storage.files|
  {
    forall p :: 0 <= p < cfg.storage.pieceCount && Vouched(own, t, p) ==> Intact(cfg, files, p)
  }

  ghost predicate Sane(cfg: Config, s: State)
    requires Shape(cfg, s)
  {
    AllIntact(cfg, s.picker.own, s.torrent, s.disk.files)
  }

  /** Writing a whole piece replaces its region and leaves every other piece's alone. */
  lemma WriteRegion(s: StorageInfo, files: seq<seq<byte>>, p: nat, data: seq<byte>, q: nat)
    requires s.Valid() && |files| == |s.files| && p < s.pieceCount && q < s.pieceCount && |data| == s.PieceLen(p)
    ensures var after := Scatter(s.files, files, s.PieceOffset(p), data);
      && |Flat(s.files, files)| == s.downloadLen && |Flat(s.files, after)| == s.downloadLen && s.PieceEnd(q) <= s.downloadLen
      && Region(s, after, q) == if q == p then data else Region(s, files, q)
  {
    hide Scatter, Flat, Contiguous, Total;
    PieceOrder(s, p);
    PieceOrder(s, q);
    RegionFits(s, files, q);
    ScatterIsOverwrite(s.files, files, s.PieceOffset(p), data);
    var after := Scatter(s.files, files, s.PieceOffset(p), data);
    RegionFits(s, after, q);
  }

  lemma WriteIntact(cfg: Config, files: seq<seq<byte>>, p: nat, data: seq<byte>, q: nat)
    requires ConfigOk(cfg) && |files| == |cfg.storage.files| && p < cfg.storage.pieceCount && q < cfg.storage.pieceCount
    requires |data| == cfg.storage.PieceLen(p) && Hashes(cfg, p, data)
    requires q == p || Intact(cfg, files, q)
    ensures Intact(cfg, Scatter(cfg.storage.files, files, cfg.storage.PieceOffset(p), data), q)
  {
    hide Scatter, Flat, Region;
    WriteRegion(cfg.storage, files, p, data, q);
  }

  lemma ReportVouches(own: seq<bool>, t: Torrent, c: PieceCompletion, p: nat)
    ensures Vouched(own, t.(queue := t.queue + [c]), p) ==> Vouched(own, t, p) || c == PieceCompletion(p, true)
  {
    var u := t.(queue := t.queue + [c]);
    if Vouched(own, u, p) && !Vouched(own, t, p) {
      var k: nat :| SaidValid(u.queue, k, p);
      if k < |t.queue| { assert SaidValid(t.queue, k, p); }
    }
  }

  lemma FinishJobSane(cfg: Config, s: State, k: nat)
    requires Formed(cfg, s) && Sane(cfg, s) && CoreEnabled(cfg, s, FinishJob(k))
    requires Shape(cfg, FinishJobStep(cfg, s, k))
    ensures Sane(cfg, FinishJobStep(cfg, s, k))
  {
    hide SessionsOk, QueueOk, BufferOk, TorrentOk, PickerOk, SessionsBegun, DiskBegun, TorrentBegun, Begun, Filed, Assemble, Scatter, Hashes, Vouched, Intact, GridShaped,
      StorageInfo.Valid;
    var j := s.disk.jobs[k];
    assert JobOk(cfg.storage, j);
    CompleteMeansWhole(j.blocks, cfg.storage.PieceLen(j.index));
    var data := Assemble(j.blocks);
    var t := FinishJobStep(cfg, s, k);
    var c := t.torrent.queue[|s.torrent.queue|];
    forall p | 0 <= p < cfg.storage.pieceCount && Vouched(t.picker.own, t.torrent, p) ensures Intact(cfg, t.disk.files, p) {
      ReportVouches(s.picker.own, s.torrent, c, p);
      if Hashes(cfg, j.index, data) {
        WriteIntact(cfg, s.disk.files, j.index, data, p);
      }
    }
  }

  lemma TakeVouches(own: seq<bool>, t: Torrent, p: nat)
    requires t.queue != []
    ensures var u := t.(queue := t.queue[1..], retiring := if t.queue[0].isValid then Some(t.queue[0].index) else t.retiring);
      Vouched(own, u, p) ==> Vouched(own, t, p)
  {
    var u := t.(queue := t.queue[1..], retiring := if t.queue[0].isValid then Some(t.queue[0].index) else t.retiring);
    if Vouched(own, u, p) {
      if u.retiring == Some(p) && t.retiring != Some(p) {
        assert SaidValid(t.queue, 0, p);
      } else if k: nat :| SaidValid(u.queue, k, p) {
        assert SaidValid(t.queue, k + 1, p);
      }
    }
  }

  lemma CoreSane(cfg: Config, s: State, a: CoreStep)
    requires Formed(cfg, s) && Sane(cfg, s) && CoreEnabled(cfg, s, a) && Shape(cfg, CoreApply(cfg, s, a))
    ensures Sane(cfg, CoreApply(cfg, s, a))
  {
    hide SessionsOk, QueueOk, BufferOk, JobsOk, SessionsBegun, DiskBegun, TorrentBegun, Begun, Filed, Hashes, Intact, StorageInfo.Valid,
      FinishJobStep, MissingSet, FreeSet, Enqueue, Broadcast;
    match a
    case FinishJob(k) => FinishJobSane(cfg, s, k);
    case TakeCompletion => {
      var t := TakeCompletionStep(s);
      forall p | 0 <= p < cfg.storage.pieceCount && Vouched(t.picker.own, t.torrent, p) ensures Intact(cfg, t.disk.files, p) {
        TakeVouches(s.picker.own, s.torrent, p);
      }
    }
    case RegisterPiece => {
      var t := RegisterPieceStep(s);
      forall p | 0 <= p < cfg.storage.pieceCount && Vouched(t.picker.own, t.torrent, p) ensures Intact(cfg, t.disk.files, p) {
        assert Vouched(s.picker.own, s.torrent, p);
      }
    }
    case WriteToDisk => {}
    case DropAlerts => {}
  }

  /** The sessions touch neither the files nor what is owned or reported. */
  lemma MakeSane(cfg: Config, s: State, id: nat, a: MakeStep)
    requires Shape(cfg, s) && Sane(cfg, s) && MakeEnabled(cfg, s, id, a) && Shape(cfg, MakeApply(cfg, s, id, a))
    ensures Sane(cfg, MakeApply(cfg, s, id, a))
  {
    hide SessionsOk, DiskOk, TorrentOk, Filed, AllIntact, StorageInfo.Valid, MissingSet, FreeSet, Continue, OrderOf, Elements, PickBlocks;
    var t := MakeApply(cfg, s, id, a);
    assert t.disk == s.disk && t.torrent == s.torrent && t.picker.own == s.picker.own;
  }

  lemma PeerSane(cfg: Config, s: State, id: nat, a: PeerStep)
    requires Shape(cfg, s) && Sane(cfg, s) && PeerEnabled(cfg, s, id, a) && Shape(cfg, PeerApply(cfg, s, id, a))
    ensures Sane(cfg, PeerApply(cfg, s, id, a))
  {
    hide SessionsOk, DiskOk, TorrentOk, Filed, AllIntact, StorageInfo.Valid, MissingSet, FreeSet, Interesting, SetStatus, InGrid;
    var t := PeerApply(cfg, s, id, a);
    assert t.disk.files == s.disk.files && t.torrent == s.torrent && t.picker.own == s.picker.own;
  }

  lemma StepKeepsSane(cfg: Config, s: State, a: Action)
    requires Formed(cfg, s) && Sane(cfg, s) && Enabled(cfg, s, a)
    ensures Shape(cfg, Apply(cfg, s, a)) && Sane(cfg, Apply(cfg, s, a))
  {
    hide Shape, Touched, Sane, MakeEnabled, PeerEnabled, CoreEnabled, MakeApply, PeerApply, CoreApply;
    StepKeepsForm(cfg, s, a);
    match a
    case Make(id, m) => MakeSane(cfg, s, id, m);
    case Peer(id, p) => PeerSane(cfg, s, id, p);
    case Core(c) => CoreSane(cfg, s, c);
  }

  lemma InitSane(cfg: Config)
    requires ConfigOk(cfg)
    ensures Shape(cfg, Init(cfg)) && Sane(cfg, Init(cfg))
  {
    hide StorageInfo.Valid, Intact;
    InitFormed(cfg);
  }
}
