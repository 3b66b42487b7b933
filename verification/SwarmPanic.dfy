/** When the torrent task panics: the ledger of pieces found valid by their flush jobs. */
module SwarmPanic {
  import opened Wrappers
  import opened Storage
  import opened FlatDisk
  import opened PieceBuffer
  import opened PiecePicking
  import opened Requests
  import opened Swarm
  import opened SwarmShape

  /** How often the queue reports the piece valid. */
  function ValidReports(queue: seq<PieceCompletion>, p: nat): nat {
    if queue == [] then 0 else (if queue[0] == PieceCompletion(p, true) then 1 else 0) + ValidReports(queue[1..], p)
  }

  lemma {:induction false} ReportsSnoc(queue: seq<PieceCompletion>, c: PieceCompletion, p: nat)
    ensures ValidReports(queue + [c], p) == ValidReports(queue, p) + if c == PieceCompletion(p, true) then 1 else 0
    decreases |queue|
  {
    if queue == [] {
      assert (queue + [c])[1..] == [];
    } else {
      assert (queue + [c])[1..] == queue[1..] + [c];
      ReportsSnoc(queue[1..], c, p);
    }
  }

  function One(b: bool): nat { if b then 1 else 0 }

  /** The valid reports of a piece that are accounted for: made good by owning it, being handled, or
      waiting. */
  function Accounted(s: State, p: nat): nat {
    One(p < |s.picker.own| && s.picker.own[p]) + One(s.torrent.retiring == Some(p)) + ValidReports(s.torrent.queue, p)
  }

  /** The step is a flush job that finds piece p valid. */
  ghost predicate Flushes(cfg: Config, s: State, a: Action, p: nat)
    requires Shape(cfg, s) && Enabled(cfg, s, a)
  {
    a.Core? && a.core.FinishJob? && s.disk.jobs[a.core.k].index == p
    && p < |cfg.expected| && Hashes(cfg, p, Assemble(s.disk.jobs[a.core.k].blocks))
  }

  ghost function FlushCount(cfg: Config, s: State, acts: seq<Action>, p: nat): nat
    decreases |acts|
  {
    if acts == [] || !Shape(cfg, s) || !Enabled(cfg, s, acts[0]) then 0
    else One(Flushes(cfg, s, acts[0], p)) + FlushCount(cfg, Apply(cfg, s, acts[0]), acts[1..], p)
  }

  lemma FinishJobAccounts(cfg: Config, s: State, k: nat, p: nat)
    requires Shape(cfg, s) && Enabled(cfg, s, Core(FinishJob(k)))
    ensures Accounted(FinishJobStep(cfg, s, k), p) == Accounted(s, p) + One(Flushes(cfg, s, Core(FinishJob(k)), p))
  {
    hide SessionsOk, QueueOk, BufferOk, TorrentOk, PickerOk, Filed, Assemble, Hashes, GridShaped, Scatter, StorageInfo.Valid, ValidReports;
    var j := s.disk.jobs[k];
    assert JobOk(cfg.storage, j);
    ReportsSnoc(s.torrent.queue, PieceCompletion(j.index, Hashes(cfg, j.index, Assemble(j.blocks))), p);
  }

  lemma CoreAccounts(cfg: Config, s: State, a: CoreStep, p: nat)
    requires Shape(cfg, s) && Enabled(cfg, s, Core(a))
    ensures Accounted(CoreApply(cfg, s, a), p) == Accounted(s, p) + One(Flushes(cfg, s, Core(a), p))
  {
    hide SessionsOk, DiskOk, ConfigOk, Filed, MissingSet, FreeSet, WriteToDiskStep, FinishJobStep, TakeCompletionStep, RegisterPieceStep, Flushes, Accounted;
    match a
    case FinishJob(k) => FinishJobAccounts(cfg, s, k, p);
    case TakeCompletion => NotFlush(cfg, s, Core(a), p); TakeAccounts(s, p);
    case RegisterPiece => NotFlush(cfg, s, Core(a), p); RegisterAccounts(s, p);
    case WriteToDisk => NotFlush(cfg, s, Core(a), p); WriteAccounts(cfg, s, p);
    case DropAlerts => NotFlush(cfg, s, Core(a), p); DropAccounts(s, p);
  }

  lemma TakeAccounts(s: State, p: nat)
    requires s.torrent.queue != [] && s.torrent.retiring.None?
    ensures Accounted(TakeCompletionStep(s), p) == Accounted(s, p)
  {
  }

  lemma RegisterAccounts(s: State, p: nat)
    requires s.torrent.retiring.Some? && s.picker.SameShape() && s.torrent.retiring.value < |s.picker.own|
    ensures Accounted(RegisterPieceStep(s), p) == Accounted(s, p)
  {
    hide ValidReports, Broadcast;
  }

  lemma WriteAccounts(cfg: Config, s: State, p: nat)
    requires Shape(cfg, s) && CoreEnabled(cfg, s, WriteToDisk)
    ensures Accounted(WriteToDiskStep(cfg, s), p) == Accounted(s, p)
  {
    hide ValidReports, Enqueue, PickerOk, Filed, SessionsOk, TorrentOk, ConfigOk, BufferOk, JobsOk, InGrid;
  }

  lemma DropAccounts(s: State, p: nat)
    ensures Accounted(s.(heard := false), p) == Accounted(s, p)
  {
  }

  lemma NotFlush(cfg: Config, s: State, a: Action, p: nat)
    requires Shape(cfg, s) && Enabled(cfg, s, a) && !(a.Core? && a.core.FinishJob?)
    ensures !Flushes(cfg, s, a, p)
  {
  }

  /** The sessions leave the account alone. */
  lemma PeerAccounts(cfg: Config, s: State, a: Action, p: nat)
    requires Shape(cfg, s) && Enabled(cfg, s, a) && !a.Core?
    ensures Accounted(Apply(cfg, s, a), p) == Accounted(s, p)
  {
    hide SessionsOk, DiskOk, TorrentOk, ConfigOk, Filed, PickerOk, ValidReports, MakeEnabled, PeerEnabled, MakeApply, PeerApply;
    match a
    case Make(id, m) => MakeActs(cfg, s, id, m);
    case Peer(id, q) => PeerActs(cfg, s, id, q);
  }

  lemma {:induction false} RunAccounts(cfg: Config, s: State, acts: seq<Action>, t: State, p: nat)
    requires Run(cfg, s, acts, t)
    ensures Accounted(t, p) == Accounted(s, p) + FlushCount(cfg, s, acts, p)
    decreases |acts|
  {
    hide Shape, Enabled, Accounted, Flushes, CoreApply;
    if acts != [] {
      if acts[0].Core? {
        CoreAccounts(cfg, s, acts[0].core, p);
      } else {
        PeerAccounts(cfg, s, acts[0], p);
        NotFlush(cfg, s, acts[0], p);
      }
      RunAccounts(cfg, Apply(cfg, s, acts[0]), acts[1..], t, p);
    }
  }

  /** Conservation: every flush that found a piece valid is accounted for once, whatever the run. */
  lemma FlushesAccounted(cfg: Config, acts: seq<Action>, s: State, p: nat)
    requires Run(cfg, Init(cfg), acts, s)
    ensures FlushCount(cfg, Init(cfg), acts, p) == Accounted(s, p)
  {
    hide Run, FlushCount;
    RunAccounts(cfg, Init(cfg), acts, s, p);
  }

  /** The torrent task has panicked only over a piece it owned and was told about again. */
  ghost predicate PanicOver(s: State, p: nat) {
    s.torrent.retiring == Some(p) && p < |s.picker.own| && s.picker.own[p]
  }

  lemma PanicStep(cfg: Config, s: State, a: Action)
    requires Shape(cfg, s) && Enabled(cfg, s, a) && Apply(cfg, s, a).torrent.panicked
    ensures s.torrent.retiring.Some?
    ensures PanicOver(Apply(cfg, s, a), s.torrent.retiring.value)
  {
    hide SessionsOk, DiskOk, ConfigOk, Filed, PickerOk, MakeEnabled, PeerEnabled, CoreEnabled, MakeApply, PeerApply, CoreApply, PanicOver;
    match a
    case Make(id, m) => MakeActs(cfg, s, id, m);
    case Peer(id, p) => PeerActs(cfg, s, id, p);
    case Core(c) => PanicCore(cfg, s, c);
  }

  lemma PanicCore(cfg: Config, s: State, c: CoreStep)
    requires Shape(cfg, s) && CoreEnabled(cfg, s, c) && !s.torrent.panicked && CoreApply(cfg, s, c).torrent.panicked
    ensures s.torrent.retiring.Some? && PanicOver(CoreApply(cfg, s, c), s.torrent.retiring.value)
  {
    hide SessionsOk, DiskOk, ConfigOk, Filed, MissingSet, FreeSet, Enqueue, Broadcast, Assemble, Scatter, Hashes;
  }

  lemma {:induction false} PanicHas(cfg: Config, s: State, acts: seq<Action>, t: State) returns (p: nat)
    requires Run(cfg, s, acts, t) && !s.torrent.panicked && t.torrent.panicked
    ensures PanicOver(t, p)
    decreases |acts|
  {
    hide Shape, Enabled, Apply, PanicOver;
    var next := Apply(cfg, s, acts[0]);
    if next.torrent.panicked {
      PanicStep(cfg, s, acts[0]);
      p := s.torrent.retiring.value;
      NothingAfterPanic(cfg, next, acts[1..], t);
    } else {
      p := PanicHas(cfg, next, acts[1..], t);
    }
  }

  lemma NothingAfterPanic(cfg: Config, s: State, acts: seq<Action>, t: State)
    requires Run(cfg, s, acts, t) && s.torrent.panicked
    ensures s == t
  {
    hide Shape, MakeEnabled, PeerEnabled, CoreEnabled;
  }

  /** Nothing is left for the torrent task to do. */
  predicate TorrentDone(s: State) {
    s.torrent.panicked || (s.torrent.queue == [] && s.torrent.retiring.None?)
  }

  lemma AccountedDone(s: State, p: nat)
    requires s.torrent.queue == [] && s.torrent.retiring.None?
    ensures Accounted(s, p) <= 1
  {
    var queue := s.torrent.queue;
    assert |queue| == 0;
  }

  lemma AccountedTwice(s: State, p: nat)
    requires PanicOver(s, p)
    ensures Accounted(s, p) >= 2
  {
    hide ValidReports;
  }

  /** Once the torrent task has nothing left to do, it has panicked if and only if some piece was flushed
      and found valid more than once. */
  lemma PanicIffFlushedTwice(cfg: Config, acts: seq<Action>, s: State)
    requires Run(cfg, Init(cfg), acts, s) && TorrentDone(s)
    ensures s.torrent.panicked <==> exists p :: FlushCount(cfg, Init(cfg), acts, p) >= 2
  {
    hide Run, FlushCount, Accounted, PanicOver;
    if s.torrent.panicked {
      var p := PanicHas(cfg, Init(cfg), acts, s);
      AccountedTwice(s, p);
      FlushesAccounted(cfg, acts, s, p);
    } else {
      forall p: nat ensures FlushCount(cfg, Init(cfg), acts, p) <= 1 {
        FlushesAccounted(cfg, acts, s, p);
        AccountedDone(s, p);
      }
    }
  }
}
