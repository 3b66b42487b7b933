/** The download of one torrent as a step machine: the peer sessions, the disk task with its flush jobs,
    and the torrent task, over the shared picker and downloads and the queues between them
    (cratetorrent/src/peer.rs, cratetorrent/src/torrent.rs, cratetorrent/src/disk/io/torrent.rs). A step
    ends where the source releases a lock or awaits. */
module Swarm {
  import opened Wrappers
  import opened Blocks
  import opened Storage
  import opened FlatDisk
  import opened PieceBuffer
  import opened Downloads
  import opened PiecePicking
  import opened Requests
  import opened PeerSession

  type Digest = seq<byte>

  /** The metainfo, and the hash function it was made with. */
  datatype Config = Config(storage: StorageInfo, expected: seq<Digest>, hash: seq<byte> -> Digest)

  datatype Reason = Choke | Timeout | Stop

  /** Where a session is. `batch` is what its `make_requests` has picked and not yet registered;
      `limit` bounds what may be outstanding when it is done. */
  datatype Mode =
    | Idle
    | Picking(batch: seq<BlockInfo>, target: nat)
    | Opening(batch: seq<BlockInfo>, target: nat, download: Download)
    | Sending(batch: seq<BlockInfo>, limit: nat)
    | Draining(reason: Reason)
    | Delivering(block: BlockInfo, data: seq<byte>)
    | Handing(block: BlockInfo, data: seq<byte>)
    | Dead

  datatype Command = Command(index: nat, inEndgame: bool)

  datatype Session = Session(mode: Mode, isChoked: bool, isInterested: bool, inEndgame: bool, outgoing: set<BlockInfo>, commands: seq<Command>) {
    predicate InMake() { mode.Picking? || mode.Opening? || mode.Sending? }

    function Batch(): seq<BlockInfo> { if InMake() then mode.batch else [] }

    /** The blocks the session answers for. */
    function Hand(): set<BlockInfo> {
      outgoing + Elements(Batch()) + if mode.Delivering? then {mode.block} else {}
    }
  }

  type SessionMap = map<nat, Session>

  /** A complete piece on its way through hashing and writing. */
  datatype Job = Job(index: nat, blocks: BlockMap)

  datatype Disk = Disk(queue: seq<WriteBlock>, buffer: map<nat, BlockMap>, jobs: seq<Job>, files: seq<seq<byte>>)

  datatype PieceCompletion = PieceCompletion(index: nat, isValid: bool)

  /** `retiring` is the piece whose download is removed and which the picker is yet to be told about. */
  datatype Torrent = Torrent(queue: seq<PieceCompletion>, inEndgame: bool, retiring: Option<nat>, panicked: bool)

  /** `heard` says that somebody still listens for the engine's alerts. `lost` collects the requested
      blocks their session has forgotten, until they are received or freed; `picks` the pieces in the
      order they were picked. Neither of these two is consulted by any step. */
  datatype State = State(picker: Picker, downloads: DownloadMap, sessions: SessionMap, disk: Disk, torrent: Torrent, heard: bool,
    lost: set<BlockInfo>, picks: seq<nat>)

  /** The steps of `make_requests`. */
  datatype MakeStep =
    | StartRequests(target: nat, order: seq<nat>)
    | PickPiece
    | InsertDownload
    | StartSending
    | SendRequest
    | FailSend
    | EndSending

  /** A session's other steps. */
  datatype PeerStep =
    | Connect
    | Bitfield(bits: seq<bool>)
    | Have(piece: nat)
    | Unchoke
    | TakeBlock(info: BlockInfo, data: seq<byte>)
    | MarkBlock
    | HandBlock
    | StartDrain(reason: Reason)
    | FreeOne(block: BlockInfo)
    | EndDrain
    | Vanish(panics: bool)
    | TakeCommand

  /** The steps of the disk task, its flush jobs, and the torrent task, and the user's letting go of the
      alerts. */
  datatype CoreStep =
    | WriteToDisk
    | FinishJob(k: nat)
    | TakeCompletion
    | RegisterPiece
    | DropAlerts

  datatype Action = Make(id: nat, make: MakeStep) | Peer(id: nat, peer: PeerStep) | Core(core: CoreStep) {
    predicate IsVanish() { Peer? && peer.Vanish? }

    /** Neither a failing send, nor a session's end without cleanup, nor what makes one more likely. */
    predicate IsQuiet() { !IsVanish() && !(Make? && make.FailSend?) && this != Core(DropAlerts) }
  }

  function Init(cfg: Config): State {
    var n := cfg.storage.pieceCount;
    State(NewPicker(seq(n, _ => false)), map[], map[],
      Disk([], map[], [], seq(|cfg.storage.files|, _ => [])), Torrent([], false, None, false), true, {}, [])
  }

  // The shape every reachable state has; the steps below need it to be defined.

  ghost predicate BatchOk(s: StorageInfo, batch: seq<BlockInfo>) {
    Unrepeated(batch) && forall b :: b in batch ==> InGrid(s, b)
  }

  ghost predicate SessionOk(s: StorageInfo, x: Session) {
    && (forall b :: b in x.outgoing ==> InGrid(s, b))
    && BatchOk(s, x.Batch())
    && (x.mode.Opening? ==> FiledAt(s, x.mode.download, x.mode.download.index) && FreshlyOpened(x.mode.download, x.mode.batch))
    && (x.mode.Delivering? || x.mode.Handing? ==> InGrid(s, x.mode.block) && |x.mode.data| == x.mode.block.len)
    && (x.mode.Picking? || x.mode.Opening? ==> |x.outgoing| + |x.mode.batch| <= Max(x.mode.target, |x.outgoing|))
    && (x.mode.Sending? ==> |x.outgoing| + |x.mode.batch| <= x.mode.limit)
    && (x.isChoked ==> x.outgoing == {} && !x.InMake())
    && (x.mode.Dead? ==> x.outgoing == {})
  }

  ghost predicate SessionsOk(s: StorageInfo, sessions: SessionMap) {
    forall id :: id in sessions ==> SessionOk(s, sessions[id])
  }

  predicate WriteOk(s: StorageInfo, w: WriteBlock) {
    InGrid(s, w.block) && |w.data| == w.block.len
  }

  predicate QueueOk(s: StorageInfo, queue: seq<WriteBlock>) {
    forall k :: 0 <= k < |queue| ==> WriteOk(s, queue[k])
  }

  /** A piece's buffer is on the piece's grid and still lacks a block. */
  ghost predicate BufferAt(s: StorageInfo, m: BlockMap, p: nat) {
    p < s.pieceCount && GridShaped(m, s.PieceLen(p)) && |m| < BlockCount(s.PieceLen(p))
  }

  ghost predicate BufferOk(s: StorageInfo, buffer: map<nat, BlockMap>) {
    forall p :: p in buffer ==> BufferAt(s, buffer[p], p)
  }

  ghost predicate JobOk(s: StorageInfo, j: Job) {
    j.index < s.pieceCount && GridShaped(j.blocks, s.PieceLen(j.index)) && |j.blocks| == BlockCount(s.PieceLen(j.index))
  }

  ghost predicate JobsOk(s: StorageInfo, jobs: seq<Job>) {
    forall k :: 0 <= k < |jobs| ==> JobOk(s, jobs[k])
  }

  ghost predicate DiskOk(s: StorageInfo, d: Disk) {
    QueueOk(s, d.queue) && BufferOk(s, d.buffer) && JobsOk(s, d.jobs) && |d.files| == |s.files|
  }

  ghost predicate TorrentOk(s: StorageInfo, t: Torrent) {
    && (forall k :: 0 <= k < |t.queue| ==> t.queue[k].index < s.pieceCount)
    && (t.retiring.Some? ==> t.retiring.value < s.pieceCount)
  }

  ghost predicate ConfigOk(cfg: Config) {
    cfg.storage.Valid() && |cfg.expected| == cfg.storage.pieceCount
  }

  ghost predicate PickerOk(s: StorageInfo, p: Picker) {
    p.Valid() && |p.own| == s.pieceCount
  }

  ghost predicate Shape(cfg: Config, s: State) {
    && ConfigOk(cfg)
    && PickerOk(cfg.storage, s.picker)
    && Filed(cfg.storage, s.downloads)
    && SessionsOk(cfg.storage, s.sessions)
    && DiskOk(cfg.storage, s.disk)
    && TorrentOk(cfg.storage, s.torrent)
  }

  function SetMode(s: State, id: nat, m: Mode): State
    requires id in s.sessions
  {
    s.(sessions := s.sessions[id := s.sessions[id].(mode := m)])
  }

  function SetSession(s: State, id: nat, x: Session): State {
    s.(sessions := s.sessions[id := x])
  }

  // Peer sessions.

  function NewSession(): Session { Session(Idle, true, false, false, {}, []) }

  /** The requests a session may still add. */
  function RoomLeft(x: Session): nat
    requires x.mode.Picking?
  {
    Room(Some(x.mode.target), |x.mode.batch| + |x.outgoing|)
  }

  /** The first loop of `make_requests`, under the write lock of the download map. */
  ghost function StartRequestsStep(cfg: Config, s: State, id: nat, target: nat, order: seq<nat>): State
    requires Filed(cfg.storage, s.downloads) && id in s.sessions && OrderOf(s.downloads, order)
  {
    FiledIsSound(cfg.storage, s.downloads);
    var x := s.sessions[id];
    var c := Continue(s.downloads, order, Room(Some(target), |x.outgoing|), x.inEndgame, x.outgoing);
    s.(downloads := c.0, sessions := s.sessions[id := x.(mode := Picking(c.1, target))])
  }

  /** One turn of the second loop, up to where the new download is put in the shared map. */
  function PickPieceStep(cfg: Config, s: State, id: nat, i: nat): State
    requires id in s.sessions && s.sessions[id].mode.Picking?
    requires s.picker.SameShape() && i < |s.picker.own| == cfg.storage.pieceCount
  {
    var x := s.sessions[id];
    var pick := PickBlocks(NewDownload(i, cfg.storage.PieceLen(i)), RoomLeft(x), x.inEndgame, x.outgoing);
    s.(picker := Pick(s.picker, i), picks := s.picks + [i],
       sessions := s.sessions[id := x.(mode := Opening(x.mode.batch + pick.1, x.mode.target, pick.0))])
  }

  function InsertDownloadStep(s: State, id: nat): State
    requires id in s.sessions && s.sessions[id].mode.Opening?
  {
    var x := s.sessions[id];
    s.(downloads := s.downloads[x.mode.download.index := x.mode.download],
       sessions := s.sessions[id := x.(mode := Picking(x.mode.batch, x.mode.target))])
  }

  function StartSendingStep(s: State, id: nat): State
    requires id in s.sessions && s.sessions[id].mode.Picking?
  {
    var x := s.sessions[id];
    SetMode(s, id, Sending(x.mode.batch, Max(x.mode.target, |x.outgoing|)))
  }

  function SendRequestStep(s: State, id: nat): State
    requires id in s.sessions && s.sessions[id].mode.Sending? && s.sessions[id].mode.batch != []
  {
    var x := s.sessions[id];
    SetSession(s, id, x.(mode := Sending(x.mode.batch[1..], x.mode.limit), outgoing := x.outgoing + {x.mode.batch[0]}))
  }

  /** The session's task ends without its cleanup, and all its requests are forgotten. */
  function VanishStep(s: State, id: nat): State
    requires id in s.sessions
  {
    var x := s.sessions[id];
    SetSession(s, id, x.(mode := Dead, outgoing := {})).(lost := s.lost + Asked(s.downloads, x.Hand()))
  }

  /** The socket fails under a request: the session goes on to its cleanup, and the requests behind this
      one are forgotten. Its error goes out as an alert first; with nobody listening that is its end. */
  function FailSendStep(s: State, id: nat): State
    requires id in s.sessions && s.sessions[id].mode.Sending? && s.sessions[id].mode.batch != []
  {
    var x := s.sessions[id];
    if !s.heard then VanishStep(s, id)
    else
      SetSession(s, id, x.(mode := Draining(Stop), outgoing := x.outgoing + {x.mode.batch[0]}))
        .(lost := s.lost + Asked(s.downloads, Elements(x.mode.batch[1..])))
  }

  /** Those of the blocks that are requested. */
  function Asked(ds: DownloadMap, blocks: set<BlockInfo>): set<BlockInfo> {
    set b | b in blocks && StatusOf(ds, b) == Some(Requested)
  }

  function BitfieldStep(s: State, id: nat, bits: seq<bool>): State
    requires id in s.sessions && s.picker.SameShape() && |bits| == |s.picker.own|
  {
    SetSession(s, id, s.sessions[id].(isInterested := Interesting(s.picker, bits))).(picker := Register(s.picker, bits))
  }

  /** A Have makes the session interested in pieces owned here, as the picker answers it. */
  function HaveStep(s: State, id: nat, piece: nat): State
    requires id in s.sessions && s.picker.SameShape() && piece < |s.picker.own|
  {
    SetSession(s, id, s.sessions[id].(isInterested := s.picker.own[piece]))
      .(picker := Register(s.picker, OnlyBit(|s.picker.own|, piece)))
  }

  function BlockStep(s: State, id: nat, info: BlockInfo, data: seq<byte>): State
    requires id in s.sessions
  {
    var x := s.sessions[id];
    SetSession(s, id, x.(mode := Delivering(info, data), outgoing := x.outgoing - {info}))
  }

  /** The block's status before it is marked, when its piece is being downloaded. */
  function StatusOf(ds: DownloadMap, b: BlockInfo): Option<BlockStatus> {
    if b.pieceIndex in ds && b.IndexInPiece() < |ds[b.pieceIndex].blocks|
    then Some(ds[b.pieceIndex].blocks[b.IndexInPiece()]) else None
  }

  function SetStatus(ds: DownloadMap, b: BlockInfo, status: BlockStatus): DownloadMap {
    if b.pieceIndex in ds && b.IndexInPiece() < |ds[b.pieceIndex].blocks|
    then ds[b.pieceIndex := ds[b.pieceIndex].(blocks := ds[b.pieceIndex].blocks[b.IndexInPiece() := status])] else ds
  }

  /** An unexpected block, or one that is there already, goes no further. */
  function MarkBlockStep(s: State, id: nat): State
    requires id in s.sessions && s.sessions[id].mode.Delivering?
  {
    var x := s.sessions[id];
    var b := x.mode.block;
    if StatusOf(s.downloads, b) == None || StatusOf(s.downloads, b) == Some(Received) then SetMode(s, id, Idle)
    else SetMode(s, id, Handing(b, x.mode.data)).(downloads := SetStatus(s.downloads, b, Received), lost := s.lost - {b})
  }

  function HandBlockStep(s: State, id: nat): State
    requires id in s.sessions && s.sessions[id].mode.Handing?
  {
    var m := s.sessions[id].mode;
    SetMode(s, id, Idle).(disk := s.disk.(queue := s.disk.queue + [WriteBlock(m.block, m.data)]))
  }

  function FreeOneStep(s: State, id: nat, info: BlockInfo): State
    requires id in s.sessions
  {
    var x := s.sessions[id];
    SetSession(s, id, x.(outgoing := x.outgoing - {info})).(downloads := SetStatus(s.downloads, info, Free), lost := s.lost - {info})
  }

  function EndDrainStep(s: State, id: nat): State
    requires id in s.sessions && s.sessions[id].mode.Draining?
  {
    var x := s.sessions[id];
    match x.mode.reason
    case Choke => SetSession(s, id, x.(mode := Idle, isChoked := true))
    case Timeout => SetMode(s, id, Idle)
    case Stop => SetMode(s, id, Dead)
  }

  function TakeCommandStep(s: State, id: nat): State
    requires id in s.sessions && s.sessions[id].commands != []
  {
    var x := s.sessions[id];
    SetSession(s, id, x.(inEndgame := x.commands[0].inEndgame, commands := x.commands[1..]))
  }

  // The disk task.

  function Buffered(d: Disk, p: nat): BlockMap { if p in d.buffer then d.buffer[p] else map[] }

  /** `write_block`: the piece leaves the buffer as a flush job once it has all its blocks. */
  function WriteToDiskStep(cfg: Config, s: State): State
    requires s.disk.queue != [] && WriteOk(cfg.storage, s.disk.queue[0])
  {
    var w := s.disk.queue[0];
    var p := w.block.pieceIndex;
    var m := Enqueue(Buffered(s.disk, p), w.block.offset, w.data);
    var d := s.disk.(queue := s.disk.queue[1..]);
    s.(disk := if |m| == BlockCount(cfg.storage.PieceLen(p))
               then d.(buffer := s.disk.buffer - {p}, jobs := s.disk.jobs + [Job(p, m)])
               else d.(buffer := s.disk.buffer[p := m]))
  }

  ghost function Hashes(cfg: Config, p: nat, data: seq<byte>): bool
    requires p < |cfg.expected|
  {
    cfg.hash(data) == cfg.expected[p]
  }

  /** A flush job hashes its piece, writes it to the files if it is valid, and reports. */
  ghost function FinishJobStep(cfg: Config, s: State, k: nat): State
    requires ConfigOk(cfg) && DiskOk(cfg.storage, s.disk) && k < |s.disk.jobs|
  {
    var j := s.disk.jobs[k];
    assert JobOk(cfg.storage, j);
    var data := Assemble(j.blocks);
    var valid := Hashes(cfg, j.index, data);
    var files := if valid then Scatter(cfg.storage.files, s.disk.files, cfg.storage.PieceOffset(j.index), data) else s.disk.files;
    s.(disk := s.disk.(jobs := s.disk.jobs[..k] + s.disk.jobs[k + 1..], files := files),
       torrent := s.torrent.(queue := s.torrent.queue + [PieceCompletion(j.index, valid)]))
  }

  // The torrent task.

  /** Takes the next completion: the download of a valid piece is removed, that of an invalid one has all
      its blocks freed. */
  function TakeCompletionStep(s: State): State
    requires s.torrent.queue != []
  {
    var c := s.torrent.queue[0];
    var t := s.torrent.(queue := s.torrent.queue[1..]);
    if c.isValid
    then s.(downloads := s.downloads - {c.index}, torrent := t.(retiring := Some(c.index)), lost := Elsewhere(s.lost, c.index))
    else if c.index in s.downloads
    then s.(downloads := s.downloads[c.index := AllFreed(s.downloads[c.index])], torrent := t, lost := Elsewhere(s.lost, c.index))
    else s.(torrent := t)
  }

  function Elsewhere(blocks: set<BlockInfo>, p: nat): set<BlockInfo> { set b | b in blocks && b.pieceIndex != p }

  function Broadcast(sessions: SessionMap, c: Command): SessionMap {
    map id | id in sessions :: sessions[id].(commands := sessions[id].commands + [c])
  }

  /** Tells the picker and all sessions about the piece. A piece owned already trips the picker's
      assertion, which ends the torrent task. */
  function RegisterPieceStep(s: State): State
    requires s.torrent.retiring.Some? && s.picker.SameShape() && s.torrent.retiring.value < |s.picker.own|
  {
    var p := s.torrent.retiring.value;
    if s.picker.own[p] then s.(torrent := s.torrent.(panicked := true))
    else
      var picker := Owned(s.picker, p);
      var endgame := s.torrent.inEndgame || (picker.missing > 0 && picker.free == 0);
      s.(picker := picker, torrent := s.torrent.(inEndgame := endgame, retiring := None),
         sessions := Broadcast(s.sessions, Command(p, endgame)))
  }

  /** The picker's lock is free: a session keeps it from picking a piece to filing its download. */
  ghost predicate PickerFree(sessions: SessionMap) {
    forall id :: id in sessions ==> !sessions[id].mode.Opening?
  }

  ghost predicate MakeEnabled(cfg: Config, s: State, id: nat, a: MakeStep)
    requires Shape(cfg, s)
  {
    id in s.sessions &&
    var x := s.sessions[id];
    match a
    case StartRequests(_, order) => x.mode.Idle? && !x.isChoked && x.isInterested && OrderOf(s.downloads, order)
    case PickPiece => x.mode.Picking? && RoomLeft(x) > 0 && PickerFree(s.sessions) && FirstPickable(s.picker, 0).Some?
    case InsertDownload => x.mode.Opening?
    case StartSending => x.mode.Picking? && (RoomLeft(x) == 0 || (PickerFree(s.sessions) && FirstPickable(s.picker, 0).None?))
    case SendRequest => x.mode.Sending? && x.mode.batch != []
    case FailSend => x.mode.Sending? && x.mode.batch != []
    case EndSending => x.mode.Sending? && x.mode.batch == []
  }

  ghost function MakeApply(cfg: Config, s: State, id: nat, a: MakeStep): State
    requires Shape(cfg, s) && MakeEnabled(cfg, s, id, a)
  {
    match a
    case StartRequests(target, order) => StartRequestsStep(cfg, s, id, target, order)
    case PickPiece => PickPieceStep(cfg, s, id, FirstPickable(s.picker, 0).value)
    case InsertDownload => InsertDownloadStep(s, id)
    case StartSending => StartSendingStep(s, id)
    case SendRequest => SendRequestStep(s, id)
    case FailSend => FailSendStep(s, id)
    case EndSending => SetMode(s, id, Idle)
  }

  ghost predicate PeerEnabled(cfg: Config, s: State, id: nat, a: PeerStep)
    requires Shape(cfg, s)
  {
    if a.Connect? then id !in s.sessions
    else
      id in s.sessions &&
      var x := s.sessions[id];
      match a
      case Bitfield(bits) => x.mode.Idle? && PickerFree(s.sessions) && |bits| == cfg.storage.pieceCount
      case Have(piece) => x.mode.Idle? && PickerFree(s.sessions) && piece < cfg.storage.pieceCount
      case TakeBlock(info, data) => x.mode.Idle? && InGrid(cfg.storage, info) && |data| == info.len
      case MarkBlock => x.mode.Delivering?
      case HandBlock => x.mode.Handing?
      case StartDrain(reason) => x.mode.Idle? && (reason.Choke? ==> !x.isChoked)
      case FreeOne(block) => x.mode.Draining? && block in x.outgoing
      case EndDrain => x.mode.Draining? && x.outgoing == {}
      case Vanish(panics) => x.mode.Idle? && (panics || !s.heard)
      case TakeCommand => x.mode.Idle? && x.commands != []
      case _ => x.mode.Idle?
  }

  ghost function PeerApply(cfg: Config, s: State, id: nat, a: PeerStep): State
    requires Shape(cfg, s) && PeerEnabled(cfg, s, id, a)
  {
    match a
    case Connect => SetSession(s, id, NewSession())
    case Bitfield(bits) => BitfieldStep(s, id, bits)
    case Have(piece) => HaveStep(s, id, piece)
    case Unchoke => SetSession(s, id, s.sessions[id].(isChoked := false))
    case TakeBlock(info, data) => BlockStep(s, id, info, data)
    case MarkBlock => MarkBlockStep(s, id)
    case HandBlock => HandBlockStep(s, id)
    case StartDrain(reason) => SetMode(s, id, Draining(reason))
    case FreeOne(block) => FreeOneStep(s, id, block)
    case EndDrain => EndDrainStep(s, id)
    case Vanish(_) => VanishStep(s, id)
    case TakeCommand => TakeCommandStep(s, id)
  }

  ghost predicate CoreEnabled(cfg: Config, s: State, a: CoreStep)
    requires Shape(cfg, s)
  {
    match a
    case WriteToDisk => s.disk.queue != []
    case FinishJob(k) => k < |s.disk.jobs|
    case TakeCompletion => s.torrent.queue != [] && s.torrent.retiring.None?
    case RegisterPiece => s.torrent.retiring.Some? && PickerFree(s.sessions)
    case DropAlerts => s.heard
  }

  ghost function CoreApply(cfg: Config, s: State, a: CoreStep): State
    requires Shape(cfg, s) && CoreEnabled(cfg, s, a)
  {
    match a
    case WriteToDisk => WriteToDiskStep(cfg, s)
    case FinishJob(k) => FinishJobStep(cfg, s, k)
    case TakeCompletion => TakeCompletionStep(s)
    case RegisterPiece => RegisterPieceStep(s)
    case DropAlerts => s.(heard := false)
  }

  /** No step is taken once the torrent task has panicked. */
  ghost predicate Enabled(cfg: Config, s: State, a: Action)
    requires Shape(cfg, s)
  {
    !s.torrent.panicked &&
    match a
    case Make(id, m) => MakeEnabled(cfg, s, id, m)
    case Peer(id, p) => PeerEnabled(cfg, s, id, p)
    case Core(c) => CoreEnabled(cfg, s, c)
  }

  ghost function Apply(cfg: Config, s: State, a: Action): State
    requires Shape(cfg, s) && Enabled(cfg, s, a)
  {
    match a
    case Make(id, m) => MakeApply(cfg, s, id, m)
    case Peer(id, p) => PeerApply(cfg, s, id, p)
    case Core(c) => CoreApply(cfg, s, c)
  }

  /** The actions take the state `s` to `t`. */
  ghost predicate Run(cfg: Config, s: State, acts: seq<Action>, t: State)
    decreases |acts|
  {
    if acts == [] then s == t
    else Shape(cfg, s) && Enabled(cfg, s, acts[0]) && Run(cfg, Apply(cfg, s, acts[0]), acts[1..], t)
  }
}
