/** The first steps of runs: how a session joins, and what its first batch holds. */
module SwarmScene {
  import opened Wrappers
  import opened Blocks
  import opened Storage
  import opened Downloads
  import opened PiecePicking
  import opened Requests
  import opened PeerSession
  import opened Swarm
  import opened SwarmRuns
  import opened SwarmSequential

  lemma Step(cfg: Config, s0: State, acts: seq<Action>, s: State, a: Action) returns (more: seq<Action>, t: State)
    requires Run(cfg, s0, acts, s) && Good(cfg, s) && Shape(cfg, s) && Enabled(cfg, s, a)
    ensures t == Apply(cfg, s, a) && Good(cfg, t) && Shape(cfg, t) && Run(cfg, s0, more, t)
    ensures more == acts + [a] && (Quiet(acts) && a.IsQuiet() ==> Quiet(more)) && (Orderly(acts) && a.IsQuiet() ==> Orderly(more))
  {
    hide Good, Enabled, Apply, Run, Shape;
    t := Apply(cfg, s, a);
    OneStep(cfg, s, a);
    GoodShape(cfg, t);
    more := acts + [a];
    RunAppend(cfg, s0, acts, s, [a], t);
  }

  function Joined(unchoked: bool): Session { Session(Idle, !unchoked, true, false, {}, []) }

  /** A peer connects, shows a piece that is missing here, and unchokes or not. */
  lemma Joins(cfg: Config, s0: State, acts: seq<Action>, s: State, id: nat, bits: seq<bool>, unchokes: bool) returns (more: seq<Action>, t: State)
    requires Run(cfg, s0, acts, s) && Good(cfg, s) && Shape(cfg, s) && !s.torrent.panicked && PickerFree(s.sessions) && id !in s.sessions
    requires s.picker.SameShape() && |bits| == |s.picker.own| == cfg.storage.pieceCount && Interesting(s.picker, bits)
    ensures Run(cfg, s0, more, t) && Good(cfg, t) && Shape(cfg, t) && (Quiet(acts) ==> Quiet(more))
    ensures t == s.(picker := Register(s.picker, bits), sessions := s.sessions[id := Joined(unchokes)])
  {
    hide Good, Run, SessionsOk, DiskOk, TorrentOk, ConfigOk, PickerOk, Filed, MissingSet, FreeSet, Register, Interesting, Quiet, Orderly;
    var a, b;
    more, a := Step(cfg, s0, acts, s, Peer(id, Connect));
    more, b := Step(cfg, s0, more, a, Peer(id, Bitfield(bits)));
    UpdateTwice(s.sessions, id, a.sessions[id], b.sessions[id]);
    t := b;
    if unchokes {
      more, t := Step(cfg, s0, more, b, Peer(id, Unchoke));
      UpdateTwice(s.sessions, id, b.sessions[id], t.sessions[id]);
    }
  }

  lemma ContinueNothing(ds: DownloadMap, order: seq<nat>, room: nat)
    requires Sound(ds) && Covers(ds, order) && |order| == 0
    ensures Continue(ds, order, room, false, {}) == (ds, [])
  {
  }

  /** A pick from a new download takes a block, and a second if it may and there is one. */
  lemma PicksSome(i: nat, len: nat, count: nat)
    requires len > 0 && count > 0
    ensures var asked := PickBlocks(NewDownload(i, len), count, false, {}).1;
      asked != [] && (count > 1 && BlockCount(len) > 1 ==> |asked| > 1)
  {
    hide PickBlocks;
    var d := NewDownload(i, len);
    var r := PickBlocks(d, count, false, {});
    if |r.1| < count {
      ShortPick(d, count, false, {});
      PickOnlyRequests(d, count, false, {});
      forall k | 0 <= k < BlockCount(len) ensures d.Block(k) in r.1 {
        assert StatusStep(d, r.0, k, r.1);
      }
      assert d.Block(0) in r.1;
      if BlockCount(len) > 1 { assert d.Block(1) in r.1 && d.Block(1) != d.Block(0); }
    }
  }

  lemma OpensMore(s: StorageInfo, q: Pipeline, room: nat)
    requires Requests.Flowing(s, q) && q.picker.SameShape() && |q.picker.own| == s.pieceCount && room > 0
    requires FirstPickable(q.picker, 0).Some? && s.PieceLen(FirstPickable(q.picker, 0).value) > 0
    ensures |OpenAll(s, q, room, false, {}).batch| > |q.batch|
    ensures room > 1 && BlockCount(s.PieceLen(FirstPickable(q.picker, 0).value)) > 1 ==> |OpenAll(s, q, room, false, {}).batch| > |q.batch| + 1
  {
    hide PickBlocks, Filed, MissingSet, FreeSet, PendingSet, InGrid, Unrepeated;
    var i := FirstPickable(q.picker, 0).value;
    OpenFlows(s, q, i, room, false, {});
    PicksSome(i, s.PieceLen(i), room);
    var next := Open(s, q, i, room, false, {});
    OpenAllStays(s, next, room - (|next.batch| - |q.batch|), false, {});
  }

  /** A batch whose session begins with no downloads to continue is not empty when a piece can be picked. */
  lemma FirstBatch(s: StorageInfo, p: Picker, ds: DownloadMap, order: seq<nat>, room: nat)
    requires Requests.Flowing(s, Pipeline(p, ds, [])) && OrderOf(ds, order) && |order| == 0 && room > 0
    requires p.SameShape() && |p.own| == s.pieceCount && FirstPickable(p, 0).Some? && s.PieceLen(FirstPickable(p, 0).value) > 0
    ensures FillPipeline(s, p, ds, order, room, false, {}).batch != []
    ensures FillPipeline(s, p, ds, order, room, false, {}) == OpenAll(s, Pipeline(p, ds, []), room, false, {})
  {
    hide OpenAll, Continue, Requests.Flowing, FirstPickable;
    FillIs(s, p, ds, order, room, false, {});
    ContinueNothing(ds, order, room);
    OpensMore(s, Pipeline(p, ds, []), room);
  }

  lemma LenPositive(s: StorageInfo, p: nat)
    requires s.Valid() && p < s.pieceCount
    ensures s.PieceLen(p) > 0 && BlockCount(s.PieceLen(p)) > 0
  {
    hide Contiguous, Total;
  }
}
