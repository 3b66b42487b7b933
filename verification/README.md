# cratetorrent: verified model of the download engine

cratetorrent is a BitTorrent v1 engine (BEP 3). This project models the logic under its sockets and
tokio tasks and proves what that logic keeps. It has four parts that meet in the middle.

* **The storage path** (`Blocks`, `Storage`, `FlatDisk`, `IoVecs`, `FileIo`, `PieceBuffer`, `PieceCuts`,
  `PieceIo`, `AsCoded`, `DiskTask`, `ReadCache`, `FileProgress`). The torrent is one flat byte string cut
  two ways, into files and into pieces, and pieces again into 16 KiB blocks. `FlatDisk.Flat` is that byte
  string; bounding, splitting and advancing a slice of buffers, scattering a piece over its files, gathering
  it again and caching it are all proved against it.
* **The download protocol** (`Downloads`, `PiecePicking`, `Requests`, `Repeats`, `PeerSession`, `TorrentTask`,
  `Swarm` and the `Swarm...` proofs). The methods of the source are classes proved against value
  functions. `Swarm` is a step machine in which any number of peer sessions, the disk task, its flush jobs
  and the torrent task interleave; a step ends where the source releases a lock or awaits.
  `SwarmRuns`, `SwarmProgress`, `SwarmPanic`, `SwarmOnce`, `SwarmSolo` and `SwarmOrphans` state what holds in
  every run. `SwarmExample` and `SwarmOrphanRun`, which build on `SwarmScene`, give runs that show when the
  failures found can happen. `SwarmSequential` ties the machine back to the methods: a session, the torrent
  task or the disk task that is left to itself does exactly what its method does.
* **The wire codec** (`Codec`, `CodecExact`, `CodecBuffers`). Encoders and incremental decoders as functions on
  byte strings, exactly what they accept, the buffer-consuming methods proved against them, and whole streams
  under any chunking.
* **The pipeline arithmetic** (`Avg`, `Counters`, `SessionState`, `Stats`). The fixed-point average, the
  weighted counter over `real`, the request queue length over any run of events, and the statistics that
  travel from the sessions to the torrent.

The hash is a function parameter of which nothing is assumed. The kernel's transfer counts, the order in
which a hash map yields its keys, the moment a socket fails, the peers' messages and elapsed times are
arbitrary. Channels are FIFO queues that stay open while their receiver lives; the receiver of alerts may
be dropped at any time.

The source is of Rust's edition 2018, in which the write guard in the condition of an `if let` lives until
the end of its body. So a session holds the picker's lock from picking a piece to filing its download, and
every step of the machine that needs the picker waits for that.

Debug assertions are in the model as follows. The decoder is modelled for both builds, with and without
them, by its parameter `debug`. `PieceIo.Piece.Write` and `AsCoded.Write` return what comes of the
assertions of `Piece::write` and go on as a build without them does. Those of the walk over a piece's
files and of the file progress are proved to hold. The one in `received_block` is absent.

## Where the code and its documentation differ

* `IoVecs::advance` is documented to panic past the end. It does so exactly when the buffers are split;
  unsplit buffers run out silently (`IoVecs.IoVecs.Advance`).
* `TorrentFile::write` and `TorrentFile::read` reuse the slice's own offset after a short transfer, where
  the module documentation of `iovecs` moves the offset on. Reusing it is right exactly when one transfer
  does it all (`FileIo.SameOffsetRightIff`, `FileIo.SameOffsetReadRightIff`).
* `TorrentFile::write` leaves its loop before the last `advance`, so that after a slice that ends between
  two buffers `into_tail` hands back a buffer that has been written already (`FileIo.TailRightIff`). For
  a kernel that transfers in full, `Piece::write` as coded is right exactly when no file ends inside the
  piece on a block boundary of it (`AsCoded.PieceWriteRightIff`), and it uses up its buffers, as its last
  assertion has it, exactly then (`AsCoded.NothingLeftIff`). `PieceIo.Piece.Write` and the flush jobs of
  the step machine use the documented loop, which writes every piece right.
* The documented loop does not meet all the assertions of `Piece::write` either. A file that ends inside the
  piece on a block boundary of it leaves an empty buffer in front for the next file, where a non-empty one
  is asserted; without such a file all of them hold (`PieceIo.Piece.Write`).
* A block message without data encodes and, in a build without debug assertions, comes back as itself; with
  them the decoder panics on it (`Codec.BlockRoundTripIff`).
* `register_peer_piece` answers whether the piece is owned here; its caller takes the answer for interest.
  The model keeps that (`PiecePicking.PiecePicker.RegisterPeerPiece`).
* `make_requests` is meant to fill the pipeline to its target, and counts every request it makes. A block that
  the session has outstanding is free again when its piece was started over, or when another session that had
  asked for it too dropped its request; then it is asked for again and adds nothing (`Repeats.FallsShort`).
  Every request is a new one exactly as long as no block outstanding is free (`Repeats.AskedAnewIff`), and then
  the target is reached unless nothing is left to ask for (`PeerSession.PeerSession.MakeRequests`).
* A request whose send fails takes the requests behind it down with it: those that nobody else has stay
  marked requested, and no session frees them (`SwarmOrphans.FailedCallOrphansIff`). Such a block, an
  orphan, is asked for again only in endgame, and otherwise waits for a peer to send it unasked or for its
  piece to be retired or started over (`SwarmOrphans.OrphansAfterStep`, `SwarmOrphans.OnlyEndgamePicksAgain`).
* A session that fails sends an alert before its cleanup, and returns when that send fails. Whoever uses
  the engine may drop the receiver of alerts, and then what such a session alone has requested is
  orphaned (`PeerSession.PeerSession.End`). A session task that panics leaves the same behind. Either way
  every torrent can come to it, with all sends on the wire succeeding (`SwarmOrphanRun.UncleanEndOrphans`).
  As long as every session that ends cleans up, exactly the torrents of more than one block can
  (`SwarmOrphanRun.OrphanPossibleIff`).
* `received_block` asserts in debug builds that the block was requested, although late blocks are accepted
  by design; the model has no such assertion.
* A piece that is flushed and found valid a second time trips the picker's assertion, and the torrent task
  ends (`SwarmPanic.PanicIffFlushedTwice`). The cause is `free_block`, which frees a block whatever its
  status: a session that is choked, times out or ends frees a block which another session has delivered
  meanwhile, and the block is delivered again. Without that no piece is flushed twice
  (`SwarmOnce.FlushedOnce`, `SwarmOnce.PanicNeedsFree`), and one session at a time never does it
  (`SwarmSolo.SoloFlushedOnce`). With it the panic is possible exactly when there is data that some piece's
  hash accepts (`SwarmExample.PanicPossibleIff`).

## Model

| member | source | states |
|---|---|---|
| Blocks.BlocksPartition | cratetorrent/src/lib.rs:280-293 | every byte of a piece of any length lies in exactly one block |
| Blocks.IndexInverts | cratetorrent/src/lib.rs:252-258 | the index computed from a grid block's offset is the index it was made from; grid blocks are non-empty and at most 16 KiB |
| Blocks.CompleteByCounting | cratetorrent/src/disk/io/piece.rs:56-58 | distinct grid offsets are all of them exactly when there are `block_count` of them |
| Blocks.CutFlatten | cratetorrent/src/lib.rs:280-293 | cutting a piece into its blocks loses and reorders nothing |
| Storage.FilesIntersectingBytes | cratetorrent/src/storage_info.rs:151-207 | the search loop answers the specified row of files |
| Storage.LookupExact | cratetorrent/src/storage_info.rs:151-207 | the row answered is exactly the overlapping files, if and only if the range starts inside the torrent or there is more than one file |
| Storage.WalkStep | cratetorrent/src/disk/io/piece.rs:110-137 | each turn of the walk over a piece's files stays inside its file, takes the whole overlap, and leads to the next file's start |
| Storage.WalkTilesPiece | cratetorrent/src/disk/io/piece.rs:110-137 | walking a piece's files with `get_slice` trips no assertion, takes non-empty slices that tile the piece, and consumes exactly its length |
| Storage.NewPartitionsIff | cratetorrent/src/storage_info.rs:105-128 | the constructed pieces partition the torrent if and only if the last piece's length is positive and survives the cast to u32 |
| Storage.PieceOrder | cratetorrent/src/storage_info.rs:210-229 | pieces are non-empty, ordered and inside the torrent |
| FlatDisk.ScatterIsOverwrite | cratetorrent/src/disk/io/piece.rs:86-144 | giving every file its share puts byte k at torrent offset off + k and touches no other byte of the flat torrent |
| FlatDisk.ScatterBounded | cratetorrent/src/disk/io/piece.rs:86-144 | no file grows past its declared length, what is written is present, and what was present stays present |
| FlatDisk.SliceOfFlat | cratetorrent/src/storage_info.rs:44-60 | a written slice of a file is the same slice of the flat torrent |
| IoVecs.BoundedMeaning | cratetorrent/src/iovecs.rs:145-218 | bounding keeps the first `max_len` bytes in front and the rest aside, losing none |
| IoVecs.BoundedKeepsOthers | cratetorrent/src/iovecs.rs:145-218 | no buffer but the one at the bound changes |
| IoVecs.FindSplit | cratetorrent/src/iovecs.rs:153-182 | the search loop finds the buffer holding the last byte of the bound, and the place in it |
| IoVecs.IoVecs.Bounded | cratetorrent/src/iovecs.rs:145-218 | the constructor shrinks the split buffer in place and yields the bounded view; buffers before the slice are untouched |
| IoVecs.IoVecs.SplitWithinBuffer | cratetorrent/src/iovecs.rs:242-301 | the buffer at the bound is cut in place and the part cut off is remembered |
| IoVecs.AdvanceMeaning | cratetorrent/src/iovecs.rs:340-441 | an advance drops exactly n bytes of the front and nothing past the bound |
| IoVecs.AdvanceProgress | cratetorrent/src/iovecs.rs:340-441 | every advance uses up bytes or drops the empty buffers that are left |
| IoVecs.CountWhole | cratetorrent/src/iovecs.rs:340-441 | the counting loop finds how many buffers lie wholly within the bytes advanced |
| IoVecs.IoVecs.Advance | cratetorrent/src/iovecs.rs:340-441 | the in-place advance, split position and shrunk buffer included, is the specified advance, and it panics if and only if the buffers are split and it goes past the front |
| IoVecs.TailMeaning | cratetorrent/src/iovecs.rs:446-477 | the tail is exactly the bytes past the bound, if and only if the split is inside a buffer, there is none, or the front is used up |
| IoVecs.IoVecs.IntoTail | cratetorrent/src/iovecs.rs:446-477 | the method restores the split buffer in place and answers that tail |
| IoVecs.RefinesByteString | cratetorrent/src/iovecs.rs:145-477 | for any buffers, positive bound and legal advances: the slice is the original from consumed to bound, the rest is untouched, and the tail is right exactly under the condition above |
| IoVecs.AdvanceWindows | cratetorrent/src/iovecs.rs:524-563 | the free `advance` leaves windows that cover exactly the memory after the bytes read |
| FileIo.TorrentFile.WriteVectoredAt | cratetorrent/src/iovecs.rs:93-107 | the documented loop ends for any positive transfer counts, with the whole front at its offset in the file and the rest untouched |
| FileIo.TorrentFile.WriteSlice | cratetorrent/src/iovecs.rs:93-107 | bound, documented loop and tail: the file gets the slice's bytes and exactly the others are handed back |
| FileIo.TorrentFile.Write | cratetorrent/src/disk/io/file.rs:61-110 | `TorrentFile::write` as coded: what it leaves in the file and which buffers it hands back, for any transfer counts; buffers that hold less than the slice are written out and none is handed back |
| FileIo.TorrentFile.Read | cratetorrent/src/disk/io/file.rs:125-168 | `TorrentFile::read` as coded: what it delivers for any transfer counts, and missing data exactly when the file ends before the slice |
| FileIo.SameOffsetRightIff | cratetorrent/src/disk/io/file.rs:83-106 | writing every transfer at the slice's offset is right for all contents and data if and only if there is one transfer |
| FileIo.SameOffsetReadRightIff | cratetorrent/src/disk/io/file.rs:138-168 | reading every transfer at the slice's offset is right for all contents if and only if there is one transfer |
| FileIo.TailRightIff | cratetorrent/src/disk/io/file.rs:95-109 | the buffers handed back are the unwritten bytes if and only if the slice does not end between two buffers |
| PieceBuffer.FullByCounting | cratetorrent/src/disk/io/piece.rs:56-58 | a grid-shaped buffer has every block exactly when it has `block_count` blocks |
| PieceBuffer.CompleteMeansWhole | cratetorrent/src/disk/io/piece.rs:56-78 | then its blocks in offset order are the piece cut on the grid, of exactly the piece's length |
| PieceIo.Piece.EnqueueBlock | cratetorrent/src/disk/io/piece.rs:45-53 | the first block at an offset stays, a new one is added, and no other changes |
| PieceIo.Piece.MatchesHash | cratetorrent/src/disk/io/piece.rs:67-78 | feeding the blocks one by one compares the hash of the assembled piece |
| PieceIo.Piece.Write | cratetorrent/src/disk/io/piece.rs:86-144 | the piece is scattered over exactly its files, with the documented loop and any transfer counts, and no bytes are left; for a complete piece of grid blocks no buffer is left either, and the assertions on the buffers hold if and only if no file ends inside the piece on a block boundary of it |
| PieceCuts.LeftNext | cratetorrent/src/disk/io/piece.rs:119-137 | each file leaves the next one exactly the blocks from its end on, behind an empty buffer when it ends on a block boundary |
| PieceIo.Read | cratetorrent/src/disk/io/piece.rs:159-222 | on a clean range the read returns the region of the flat torrent cut into blocks; missing data means that some file has nothing of its part, and is reported for sure when the first has not |
| PieceIo.GatherInvertsScatter | cratetorrent/src/disk/io/piece.rs:86-222 | after a write of grid-shaped blocks the range is clean and the region cut into blocks is those blocks |
| AsCoded.PieceWriteRightIff | cratetorrent/src/disk/io/piece.rs:86-144 | `Piece::write` with `TorrentFile::write` as coded and full transfers is right for all data if and only if no file ends inside the piece on a block boundary of it |
| AsCoded.NothingLeftIff | cratetorrent/src/disk/io/piece.rs:139-141 | it ends with no buffers left, for any data, if and only if no file ends there |
| AsCoded.Write | cratetorrent/src/disk/io/piece.rs:86-144 | the loop over the files with `TorrentFile::write` as coded: when each file takes its slice in one transfer, the files and the buffers left are those the two statements above are about, and of its assertions on non-empty blocks only the last can fail |
| DiskTask.DiskTorrent.WriteBlock | cratetorrent/src/disk/io/torrent.rs:223-323 | the block joins its piece's buffer, where the first at an offset stays and the others are as they were, and the piece leaves the buffers to be flushed, with these blocks, exactly when that makes it complete |
| DiskTask.DiskTorrent.StartNewPiece | cratetorrent/src/disk/io/torrent.rs:329-364 | the new buffer is empty and filed with its hash, length and files; no other changes |
| DiskTask.DiskTorrent.Flush | cratetorrent/src/disk/io/torrent.rs:252-320 | the job reports the hash comparison, and the files change by exactly that piece when it is valid |
| ReadCache.LruCache.Get | cratetorrent/src/disk/io/torrent.rs:394-396 | a hit becomes the most recent entry |
| ReadCache.LruCache.Put | cratetorrent/src/disk/io/torrent.rs:451 | the new entry becomes the most recent within the bound |
| ReadCache.TouchKeepsFind | cratetorrent/src/disk/io/torrent.rs:394-396 | looking a piece up changes no lookup |
| ReadCache.InsertFind | cratetorrent/src/disk/io/torrent.rs:447-451 | after an insertion the new entry is found and any other is as before or evicted |
| ReadCache.EvictsLeastRecent | cratetorrent/src/disk/io/torrent.rs:501 | only the least recently used entry is evicted, and only from a full cache by a piece not in it |
| ReadCache.RecentStays | cratetorrent/src/disk/io/torrent.rs:394-451 | a piece looked up or put in is the most recent entry, and stays in the cache as it is until as many other pieces as the cache holds have been looked up or put in since |
| ReadCache.Reader.ReadBlock | cratetorrent/src/disk/io/torrent.rs:383-496 | a hit answers the cached block, or an invalid offset if there is none there; a miss on a clean piece answers and caches the piece's blocks from disk, or panics on an offset past the piece before anything is cached; a miss whose first file has nothing of the piece is a read error, and a read error means that some file has nothing of its part and leaves the cache alone |
| ReadCache.CacheAgreesWithDisk | cratetorrent/src/disk/io/torrent.rs:383-496 | through any hits, misses, evictions, racing reads and writes of other pieces, every answer for a written piece is what is on disk |
| ReadCache.AnsweredOnce | cratetorrent/src/disk/io/torrent.rs:383-496 | every request is answered once or still being read |
| ReadCache.ReadIsCached | cratetorrent/src/disk/io/torrent.rs:447-451 | a piece that has been read is the most recent entry of the cache |
| ReadCache.HitIsRecent | cratetorrent/src/disk/io/torrent.rs:394-496 | a request for a cached piece makes it the most recent entry and starts no read; any other leaves the cache alone and is read |
| FileProgress.Torrent.Update | cratetorrent-cli/src/app.rs:120-146 | each file's count is its share of the pieces done, and the assertion that it does not pass the file's length never trips |
| FileProgress.ProgressBounded | cratetorrent-cli/src/app.rs:139-143 | a file counts at most its length, and exactly its length once all pieces are done |
| Downloads.TakenFits | cratetorrent/src/download.rs:46-110 | a pick takes eligible blocks only, in order, each once, and no more than asked for |
| Downloads.TakenFirst | cratetorrent/src/download.rs:46-110 | a pick passes over an eligible block only when it is full of earlier ones |
| Downloads.TakenUnique | cratetorrent/src/download.rs:46-110 | these two conditions determine the pick |
| Downloads.PickOnlyRequests | cratetorrent/src/download.rs:71-94 | a pick changes only free blocks, and those only to requested and in the batch |
| Downloads.ShortPick | cratetorrent/src/download.rs:46-110 | a pick that comes back short leaves no free block and nothing this peer may still ask for |
| Downloads.PickMeans | cratetorrent/src/download.rs:46-110 | what is asked for nobody had asked for, or in endgame only others had; it is marked requested and nothing else changes; a pick that comes back short leaves no block free and, in endgame, none that this peer has not asked for |
| Downloads.PieceDownload.Pick | cratetorrent/src/download.rs:46-110 | the loop over the statuses is that pick |
| Downloads.PieceDownload.ReceivedBlock | cratetorrent/src/download.rs:116-139 | the block is marked received and its previous status answered |
| Downloads.PieceDownload.FreeAllBlocks | cratetorrent/src/download.rs:142-147 | all blocks become free |
| Downloads.PieceDownload.FreeBlock | cratetorrent/src/download.rs:150-165 | the one block becomes free, whatever it was |
| PiecePicking.PendingCount | cratetorrent/src/piece_picker.rs:58-66 | the pieces pending and not owned are as many as missing minus free |
| PiecePicking.NewValid | cratetorrent/src/piece_picker.rs:39-49 | a new picker's caches count what they are to count |
| PiecePicking.PickKeeps | cratetorrent/src/piece_picker.rs:70-94 | a pick keeps both counts right and makes exactly that piece pending |
| PiecePicking.ReceivedKeeps | cratetorrent/src/piece_picker.rs:154-185 | so does receiving a piece, picked before or not |
| PiecePicking.PiecePicker.PickPiece | cratetorrent/src/piece_picker.rs:70-94 | the loop picks the first piece that is available, not owned and not pending, and none only if there is none; it becomes pending, and nothing else changes |
| PiecePicking.PiecePicker.AllPiecesPicked | cratetorrent/src/piece_picker.rs:64-66 | the cached count is zero exactly when no piece is free |
| PiecePicking.PiecePicker.RegisterPeerPieces | cratetorrent/src/piece_picker.rs:104-129 | only frequencies change, and the answer says whether the peer has a missing piece |
| PiecePicking.PiecePicker.RegisterPeerPiece | cratetorrent/src/piece_picker.rs:140-146 | the answer is ownership, the opposite of interest |
| PiecePicking.PiecePicker.ReceivedPiece | cratetorrent/src/piece_picker.rs:154-185 | the piece becomes owned and the counts follow; frequencies and pending marks stay |
| Requests.ContinueFits | cratetorrent/src/peer.rs:829-852 | the first loop picks distinct eligible blocks of active downloads within the room, in whatever order the map is walked |
| Requests.ContinueExhausts | cratetorrent/src/peer.rs:829-852 | if it leaves room, no active download has a block left for this peer |
| Requests.OpenAllPending | cratetorrent/src/peer.rs:855-901 | the downloads opened are for exactly the pieces that became pending |
| Requests.PipelineContract | cratetorrent/src/peer.rs:805-924 | the whole batch is duplicate-free, on the grid and within the target, and either reaches it or leaves no eligible block and no piece |
| Requests.PipelineEffect | cratetorrent/src/peer.rs:805-924 | others see only free blocks turning requested, all of them in the batch |
| Repeats.AskedAnewIff | cratetorrent/src/download.rs:71-94 | whatever the room, no request repeats one outstanding, if and only if no block outstanding is free |
| Repeats.FallsShort | cratetorrent/src/peer.rs:823-924 | a piece of two free blocks, one of them outstanding, and a target of two: the call ends with that one request outstanding |
| Repeats.AskedIsMarked | cratetorrent/src/peer.rs:805-924 | every block in the batch is marked requested in the shared downloads |
| PeerSession.PeerSession.MakeRequests | cratetorrent/src/peer.rs:805-924 | nothing while choked or uninterested; else the batch is registered and sent, up to the send that fails. Requests outstanding never pass the target, or what was outstanding before; when no send fails, outstanding and new requests reach it unless no piece can be picked and no download has a block left to ask for, and so do the requests then outstanding unless a block outstanding was free |
| PeerSession.PeerSession.ContinueDownloads | cratetorrent/src/peer.rs:829-852 | the first loop is the specified pass; it reaches the target, never passes it, or leaves nothing to ask for in any download |
| PeerSession.PeerSession.OpenDownloads | cratetorrent/src/peer.rs:855-901 | the second loop is the specified one; it ends because free pieces run out, with the target reached, never passed, or no piece left to pick |
| PeerSession.PeerSession.FreePendingBlocks | cratetorrent/src/peer.rs:624-640 | all outstanding requests go and exactly their blocks become free |
| PeerSession.PeerSession.HandleBlock | cratetorrent/src/peer.rs:930-1007 | an unexpected or repeated block is waste and changes nothing else; any other is marked and goes to the disk task, once |
| PeerSession.PeerSession.HandleChoke | cratetorrent/src/peer.rs:721-731 | choked means no request outstanding and their blocks free |
| PeerSession.PeerSession.HandleTimeout | cratetorrent/src/peer.rs:579-620 | all outstanding requests go and exactly their blocks become free; then, with a target of one, what `make_requests` picks from that state is registered and sent, and at most one request is outstanding |
| PeerSession.PeerSession.End | cratetorrent/src/peer.rs:334-373 | a session that has failed while nobody listens for alerts returns with its requests and their blocks as they were; any other frees exactly those blocks |
| TorrentTask.Torrent.HandlePieceCompletion | cratetorrent/src/torrent.rs:722-815 | download, picker, endgame flag and the command to each session after a valid piece; freed blocks after an invalid one |
| TorrentTask.Torrent.HandlePeerState | cratetorrent/src/torrent.rs:696-718 | a known session's round is added and a disconnected one forgotten; an unknown one is ignored |
| TorrentTask.Torrent.BuildStats | cratetorrent/src/torrent.rs:650-687 | the statistics count the pieces missing and the downloads |
| SwarmShape.StepKeepsForm | cratetorrent/src/peer.rs:805-1007 | every step keeps blocks on the grid, buffers incomplete, batches duplicate-free and bounded, and every piece anyone deals with picked |
| SwarmBooks.StepKeepsBooks | cratetorrent/src/piece_picker.rs:39-185 | every step keeps picker, downloads, pieces being opened and endgame flags in agreement |
| SwarmLiveness.StepKeepsLive | cratetorrent/src/peer.rs:624-1007 | every step, ends without cleanup included, keeps requested blocks held by somebody or recorded as forgotten, and received blocks moving |
| SwarmIntegrity.StepKeepsSane | cratetorrent/src/disk/io/torrent.rs:252-320 | every step keeps owned and reported pieces intact on disk |
| SwarmIntegrity.WriteRegion | cratetorrent/src/disk/io/piece.rs:86-144 | writing a piece replaces its region and leaves every other piece's alone |
| SwarmRuns.Integrity | cratetorrent/src/torrent.rs:722-738 | in every reachable state the bytes on disk of an owned piece, across all its files, hash to the expected hash |
| SwarmRuns.OthersLeaveRegion | cratetorrent/src/disk/io/torrent.rs:252-320 | no step but a flush of the piece itself changes its bytes on disk |
| SwarmRuns.NoOrphan | cratetorrent/src/peer.rs:624-640 | in every reachable state a requested block is answered for by a live session, or has been requested ever since a session forgot it, behind a failed send or at an end without cleanup |
| SwarmRuns.NoOrphanWhenSendsSucceed | cratetorrent/src/peer.rs:805-924 | in a run in which all sends succeed and every session that ends cleans up, every requested block has its session |
| SwarmRuns.NoStall | cratetorrent/src/peer.rs:930-1007 | a received block is on its way to the disk task, buffered, or in a flushed piece not accounted for yet |
| SwarmRuns.NeverAllReceivedAndIdle | cratetorrent/src/disk/io/torrent.rs:230-320 | a download with all blocks received always has something in flight, by counting the buffer |
| SwarmRuns.StatsAgree | cratetorrent/src/torrent/stats.rs:58-65 | counters, download keys and statistics agree: whenever the picker can be locked, the downloads are exactly the pieces pending and not owned; between a pick and its filing that one is missing, which only the statistics, counting downloads without the lock, can see |
| SwarmRuns.EndgameSafety | cratetorrent/src/torrent.rs:740-778 | whoever believes in endgame is right; from then on, for ever, the torrent is in it, nothing is free and no piece can be picked |
| SwarmRuns.EndgameBegins | cratetorrent/src/torrent.rs:733-752 | when the torrent task finds that endgame has begun, the missing pieces are exactly those under download |
| SwarmRuns.PickedAtMostOnce | cratetorrent/src/piece_picker.rs:70-94 | no piece is picked twice in a whole run |
| SwarmRuns.RunIsLater | cratetorrent/src/piece_picker.rs:70-185 | over any run free pieces never grow, owned pieces stay owned, endgame stays |
| SwarmRuns.ChokedHasNone | cratetorrent/src/peer.rs:721-743 | a choked session has nothing outstanding and nothing picked |
| SwarmRuns.BatchBounded | cratetorrent/src/peer.rs:805-924 | outstanding and picked together never exceed the target, or what was outstanding before; the batch is duplicate-free and on the grid |
| SwarmProgress.StepFollows | cratetorrent/src/peer.rs:470-479 | no step touches a session's choke state but the peer's choke and unchoke, its interest but a bitfield or have, its endgame flag and commands but their sending and taking; and those set them as the source does |
| SwarmProgress.NewcomerStarts | cratetorrent/src/peer.rs:196-236 | a session begins choked, not interested, not in endgame, with nothing outstanding |
| SwarmProgress.EndgameReachesAll | cratetorrent/src/torrent.rs:740-778 | when the torrent has registered a piece and is in endgame, then in every later state every session there was then is in endgame, or a command waits for it that puts it there for good |
| SwarmProgress.PipelineFills | cratetorrent/src/peer.rs:805-924 | whatever others do meanwhile, a session that comes to send has its target in requests outstanding and picked, or its first loop left nothing to ask for and no piece can be picked |
| SwarmProgress.OpeningFills | cratetorrent/src/peer.rs:868-889 | a piece it opens gives the session its target or all of the piece's blocks |
| SwarmProgress.AvailabilityCounts | cratetorrent/src/piece_picker.rs:104-146 | over any run a piece's frequency is the number of times peers have announced it |
| SwarmProgress.SessionGoesOn | cratetorrent/src/peer.rs:805-1007 | a session in the middle of anything has a next step, or waits for the picker's lock, whose holder has one |
| SwarmProgress.TasksGoOn | cratetorrent/src/disk/io/torrent.rs:223-323 | so have the disk task, every flush job in whatever order, and the torrent task |
| SwarmPanic.FlushesAccounted | cratetorrent/src/disk/io/torrent.rs:252-320 | every flush that finds a piece valid is accounted for once: owned, being handled, or reported |
| SwarmPanic.PanicIffFlushedTwice | cratetorrent/src/piece_picker.rs:154-169 | once the torrent task has nothing left to do, it has panicked if and only if some piece was flushed and found valid more than once |
| SwarmOnce.FlushedOnce | cratetorrent/src/download.rs:150-165 | in a run in which no session frees a received block of a piece, that piece is flushed and found valid at most once |
| SwarmOnce.PanicNeedsFree | cratetorrent/src/piece_picker.rs:154-169 | in a run in which the torrent task panics, it does so over a piece of which some session has freed a received block |
| SwarmSolo.SoloFlushedOnce | cratetorrent/src/peer.rs:624-640 | in a run in which at most one session is live at any time, no received block is freed, every piece is flushed and found valid at most once, and the torrent task does not panic |
| SwarmOrphans.OrphansAfterStep | cratetorrent/src/peer.rs:805-1007 | after any step of anybody the orphans, blocks requested with no live session to answer for them, are exactly those that were and are not delivered, picked again, retired or started over by it, and those that it makes a session forget and nobody else has |
| SwarmOrphans.OnlyEndgamePicksAgain | cratetorrent/src/download.rs:71-94 | of these, picking again takes a session in endgame that does not have the block outstanding |
| SwarmOrphans.FailedSendOrphansIff | cratetorrent/src/peer.rs:903-920 | a block behind a failed request becomes an orphan if and only if it is requested and no other session has it |
| SwarmOrphans.FailedCallOrphansIff | cratetorrent/src/peer.rs:805-924 | when send k of a whole `make_requests` fails and somebody listens for alerts, the orphans are exactly the blocks picked behind request k that nobody answered for before the call, and the old orphans it did not pick; a block picked a second time in endgame is none unless it was one. When nobody listens, they are exactly the blocks requested before or picked by the call that no other session has |
| SwarmOrphans.OrphanIffLeftBehind | cratetorrent/src/peer.rs:805-924 | after any run of a fresh download a block is an orphan if and only if some failed send or end without cleanup abandoned it and no later step rescued it |
| SwarmOrphans.OrphanIffLost | cratetorrent/src/peer.rs:903-920 | the blocks recorded as forgotten by a session are requested still, and those of them that no live session has are the orphans |
| SwarmOrphanRun.OrphanHappens | cratetorrent/src/peer.rs:903-920 | every torrent of more than one block has a run in which its only session fails on its first send and ends with its cleanup, and a block stays requested with no session left |
| SwarmOrphanRun.UncleanEndOrphans | cratetorrent/src/peer.rs:334-373 | every torrent has a run in which all sends succeed and the only session then ends without cleanup, failing while nobody listens for alerts or panicking, and a block stays requested with no session left |
| SwarmOrphanRun.OrphanPossibleIff | cratetorrent/src/peer.rs:805-924 | a download in which every session that ends cleans up can come to an orphan if and only if the torrent has more than one block |
| SwarmExample.PanicHappens | cratetorrent/src/piece_picker.rs:154-169 | for every piece of every torrent and all data that its hash accepts there is a run, without a failed send, that ends in that panic over the piece |
| SwarmExample.PanicPossibleIff | cratetorrent/src/piece_picker.rs:154-169 | the torrent task can panic if and only if there is data that some piece's hash accepts |
| SwarmExample.DownloadHappens | cratetorrent/src/torrent.rs:722-738 | for the same pieces and data there is a run that ends with the piece owned |
| SwarmExample.DownloadPossibleIff | cratetorrent/src/torrent.rs:722-738 | a piece can come to be owned if and only if there is data that its hash accepts |
| SwarmSequential.MakeRequestsRuns | cratetorrent/src/peer.rs:805-924 | a session left to itself, with the picker's lock free, comes to have outstanding exactly what the pipeline specification picks |
| SwarmSequential.FailedRequestsRun | cratetorrent/src/peer.rs:903-920 | one whose send k fails has the requests up to and including that one outstanding, the downloads as picked, and goes on to its cleanup; when nobody listens for alerts it is gone at once, with all its requests forgotten |
| SwarmSequential.HandleBlockRuns | cratetorrent/src/peer.rs:930-1007 | its steps for a block add up to the method's effect |
| SwarmSequential.FreePendingRuns | cratetorrent/src/peer.rs:624-640 | its steps around a choke, timeout or end drop all requests and free exactly their blocks |
| SwarmSequential.CompletionRuns | cratetorrent/src/torrent.rs:722-778 | the torrent task's two steps for a valid piece add up to the method's effect |
| SwarmSequential.InvalidRuns | cratetorrent/src/torrent.rs:802-812 | its step for an invalid piece frees all blocks of the download and changes nothing else |
| SwarmSequential.WriteBlockRuns | cratetorrent/src/disk/io/torrent.rs:223-323 | the disk task's step takes the oldest block and does what `write_block` does |
| SwarmSequential.FlushRuns | cratetorrent/src/disk/io/torrent.rs:252-320 | a flush job's step writes exactly its valid piece and reports behind the reports that wait |
| Codec.U32RoundTrip | cratetorrent/src/peer/codec.rs:267-280 | a number read back is the number written, cast to 32 bits |
| CodecExact.BigEndian | cratetorrent/src/peer/codec.rs:267-280 | numbers of 32 bits are in the order of their bytes on the wire, the most significant first (BEP 3) |
| Codec.MostSignificantFirst | cratetorrent/src/peer/codec.rs:302-313 | piece i of a bitfield is bit 7 - i % 8 of byte i / 8 (BEP 3, "peer messages") |
| Codec.BytesRoundTrip | cratetorrent/src/peer/codec.rs:302-313 | bits packed into bytes and unpacked are the same bits |
| CodecExact.UnpackRoundTrip | cratetorrent/src/peer/codec.rs:302-313 | bytes unpacked into bits and packed again are the same bytes |
| Codec.HandshakeRoundTrip | cratetorrent/src/peer/codec.rs:64-153 | a handshake decodes to itself whatever follows, and all of that is left over |
| Codec.HandshakePrefix | cratetorrent/src/peer/codec.rs:94-131 | of an incomplete handshake nothing is consumed |
| CodecExact.HandshakeLayout | cratetorrent/src/peer/codec.rs:64-89 | the parts of an encoded handshake stand in the places BEP 3 gives them |
| CodecExact.HandshakeExact | cratetorrent/src/peer/codec.rs:94-153 | of any bytes: a handshake is decoded if and only if they begin with an encoded one, more is waited for if and only if they are a proper beginning of one, and an error is reported if and only if no handshake has their first byte |
| Codec.MessageRoundTrip | cratetorrent/src/peer/codec.rs:286-531 | a well-formed message decodes to what the receiver is to see, whatever follows, and all of that is left over |
| Codec.MessagePrefix | cratetorrent/src/peer/codec.rs:410-448 | of an incomplete message nothing is consumed |
| CodecExact.DecodesIff | cratetorrent/src/peer/codec.rs:410-531 | of any bytes: a message is decoded, and what follows left, if and only if the frame is all there and begins with the message's body; the length in front counts for bitfields and blocks only |
| CodecExact.ErrorIff | cratetorrent/src/peer/codec.rs:410-459 | more is waited for if and only if the frame is not all there; a frame that is there and is no keep alive is an error if and only if no message has its id |
| CodecExact.EncodeFailsIff | cratetorrent/src/peer/codec.rs:268-280 | encoding fails if and only if there is a piece index and it does not fit, with the length and the id written by then |
| Codec.BlockRoundTripIff | cratetorrent/src/peer/codec.rs:490-515 | a block message whose numbers fit comes back if and only if it has data or the build is without debug assertions |
| Codec.BitfieldRoundTrip | cratetorrent/src/peer/codec.rs:302-313 | resized to the piece count, the bits received are the bits sent, whatever the padding |
| CodecExact.ResizedBits | cratetorrent/src/peer.rs:668-675 | a bitfield resized keeps its bits as far as they go and has no others set |
| Codec.DecodeMonotone | cratetorrent/src/peer/codec.rs:410-531 | more bytes change nothing about a message that is all there, well-formed or not |
| Codec.ChunkingIrrelevant | cratetorrent/src/peer.rs:310-321 | for any bytes at all, how they are cut makes no difference as long as no cut fails, across the codec switch |
| Codec.StreamArrives | cratetorrent/src/peer.rs:310-321 | a handshake and any well-formed messages, cut anywhere, arrive as exactly those with nothing left over |
| CodecExact.FailsIff | cratetorrent/src/peer.rs:310-321 | a connection has failed if and only if no handshake has its first byte, or what is left behind the handshake and the messages decoded begins with an error or makes the decoder panic; otherwise it waits for more |
| CodecBuffers.EncodeTo | cratetorrent/src/peer/codec.rs:289-405 | the encoder appends the specified bytes, and what it had appended when the piece index did not fit |
| CodecBuffers.EncodeHandshakeTo | cratetorrent/src/peer/codec.rs:64-89 | the handshake encoder appends the specified bytes |
| CodecBuffers.DecodeFrom | cratetorrent/src/peer/codec.rs:410-531 | the decoder consumes exactly what the specification says, nothing when it needs more, and fails where the specification does |
| CodecBuffers.DecodeHandshakeFrom | cratetorrent/src/peer/codec.rs:94-153 | likewise the handshake decoder |
| Avg.StaysInHull | cratetorrent/src/avg.rs:61-97 | mean and deviation never leave the range of the samples and its width, truncation and rounding included |
| Avg.TimeoutBounded | cratetorrent/src/peer/state.rs:166-171 | the request timeout is at least two seconds and at least lo, and at most the larger of two seconds and hi + 4 (hi - lo) |
| Avg.TimeoutIsLeast | cratetorrent/src/peer/state.rs:166-171 | it is the least time that is two seconds and the mean with four deviations |
| Avg.EarlySamplesWeighSame | cratetorrent/src/avg.rs:61-81 | until the gain is reached the mean is the plain average of all samples but for a bounded truncation error |
| Avg.UpdateMoves | cratetorrent/src/avg.rs:61-81 | a sample moves the mean towards it by an n-th of the distance, truncated, and the deviation towards that distance by an (n - 1)-th, n being the number of samples up to the gain: past it the average goes on moving |
| Avg.GettersRound | cratetorrent/src/avg.rs:83-97 | the getters round to the nearest whole number |
| Avg.SlidingAvg.Update | cratetorrent/src/avg.rs:61-81 | the in-place update is the specified one, and moves both averages that far |
| Counters.AverageIsWeightedSum | cratetorrent/src/counter.rs:104-113 | the running average is the closed-form weighted sum of all past rounds |
| Counters.AverageBounded | cratetorrent/src/counter.rs:104-113 | it is never above the largest round |
| Counters.PeakIsLargest | cratetorrent/src/counter.rs:110-112 | the peak is the largest average there has been |
| Counters.PeakBetween | cratetorrent/src/counter.rs:104-113 | average, peak and largest round are ordered |
| Counters.Nearest | cratetorrent/src/counter.rs:116-118 | the rate is the whole number nearest to the average |
| Counters.Counter.Add | cratetorrent/src/counter.rs:94-97 | the total is the sum of all adds |
| Counters.Counter.Reset | cratetorrent/src/counter.rs:104-113 | ending a round keeps total, average and peak what they are to be |
| SessionState.TargetAtLeastOne | cratetorrent/src/peer/state.rs:318-351 | over any run of events the target, once set, is at least one |
| SessionState.TargetAfterTick | cratetorrent/src/peer/state.rs:318-351 | a tick outside slow start and timeout sets it to the least number of blocks, and at least one, that holds the new average to half a byte; that is at most the blocks in the largest round |
| SessionState.SlowStartCounts | cratetorrent/src/peer/state.rs:188-257 | in slow start it is four, and one more for every block received since the start |
| SessionState.SlowStartEnds | cratetorrent/src/peer/state.rs:298-314 | a tick ends slow start if and only if the session is unchoked and has a target, and the round brought something but at least 10000 bytes less than the average to half a byte |
| SessionState.SlowStartBounds | cratetorrent/src/peer/state.rs:188-260 | nothing else but a timeout ends it, nothing but the start of the pipeline begins it, and outside it no block moves the target |
| SessionState.TimeoutHolds | cratetorrent/src/peer/state.rs:174-183 | after a timeout it stays one until a block is on time or the peer unchokes anew |
| SessionState.TimeoutEndsIff | cratetorrent/src/peer/state.rs:234-238 | a timeout is over if and only if a block has come since that was no later than the timeout then allowed |
| SessionState.ContextRemembers | cratetorrent/src/peer/state.rs:217-285 | over any run the rounds hold all bytes received, one round per tick, the average is that of all round trips, and all timeouts are counted |
| SessionState.SessionContext.Tick | cratetorrent/src/peer/state.rs:277-351 | the tick, in its order of slow start, round and target, is the specified step, and sets the target to the new average in blocks |
| SessionState.SessionContext.UpdateDownloadStats | cratetorrent/src/peer/state.rs:217-260 | a block's effect on timeout flag, round trip, round and slow-start target; the flag falls exactly on a block within the timeout |
| SessionState.SessionContext.RegisterRequestTimeout | cratetorrent/src/peer/state.rs:174-183 | a timeout's effect on target, flag and slow start |
| SessionState.SessionContext.PrepareForDownload | cratetorrent/src/peer/state.rs:188-196 | the pipeline starts in slow start with four requests |
| Stats.ExactlyOnce | cratetorrent/src/peer.rs:335-381 | in every run the bytes counted are those in the torrent's totals, in reports it will add up, and not reported yet, although a failing session reports its last round twice |
| Stats.TickReports | cratetorrent/src/peer.rs:525-532 | a tick leaves the session with nothing unreported: what it had is on its way to the totals, and nobody else is touched |
| Stats.NotedIsReported | cratetorrent/src/peer/state.rs:198-212 | whatever is noted makes the next tick report |
| Stats.CountsAll | cratetorrent/src/peer.rs:335-381 | over any run, payload down and up and waste each come to the sum of what was counted |
| Stats.TotalsComplete | cratetorrent/src/torrent.rs:696-718 | when all sessions have ended and all reports are in, the totals are what was counted, payload down and up and waste each by itself, and no peer is left |

## Left out

- Sockets, tokio tasks, timers, logging, trackers, bencode, URLs, the terminal UI and directory creation: I/O and foreign calls.
- SHA-1 is any function; Rust lifetimes and the unsafe replacement of buffers in `IoVecs` are slices of byte strings held in one array.
- 64-bit overflow of counters, offsets and samples is not modelled; the casts to u32 in `StorageInfo::new` and in the codec's length prefixes are.
- Blocks off the grid, which the source does not check for, reach `PeerSession.PeerSession.HandleBlock` but not the step machine or the disk task.
- PeerSession.PeerSession.MakeRequests: the shared downloads are a map of values that the method reassigns, so locks and aliasing of single downloads are not in it; the interleaving of sessions is in `Swarm`, which takes the locks' extents as its steps.
- Codec.MessageRoundTrip: indices, offsets and lengths fit 32 bits, and in a build with debug assertions a block has data; `Codec.BlockRoundTripIff` has the empty block, `Codec.Encode` the index that does not fit.
- Codec.StreamArrives: that the framing layer asks the decoder again after the codec switch is taken from its contract; it is not part of this repository.
- ReadCache.CacheAgreesWithDisk: requests are for whole blocks of pieces already written, transfers are full, and a piece written again is written with the same bytes.
- PieceIo.Read: what the buffers hold after a read that is not clean is described by `FileIo.TorrentFile.Read` only, file by file.
- SwarmRuns.Integrity: a flush job's writes are one step, done with the documented write loop, and the branch for a failed write, whose retry the source leaves open, is not taken; `AsCoded.PieceWriteRightIff` says for which pieces the coded loop does the same.
- SwarmRuns.NoStall: sessions' sends to the disk task and the torrent task succeed, as they do while those tasks live.
- SwarmPanic.PanicIffFlushedTwice: nothing steps after the torrent task has panicked, although the source's sessions and flush jobs go on until they find its channel closed.
- AsCoded.PieceWriteRightIff: a kernel that transfers a slice in several goes is described file by file only, by `FileIo.TorrentFile.Write`.
- SwarmExample.PanicHappens: in a build with debug assertions the session that is handed the freed block again stops earlier, at the assertion in `received_block`.
- SwarmOrphanRun.UncleanEndOrphans: what makes a session task panic, such as a block message of declared length below 9 or a block past the end of its piece, is not in the step machine, whose sessions may panic whenever they are at rest.
- "Received is final" is not claimed: a session's choke or timeout may free a block that another session has delivered.
- Interest in the step machine follows the picker's answers; whether a peer has the pieces requested from it is not checked by the source either.
- Uploading (`send_block`, incoming requests) would need the peers' side of choking and interest, the set of incoming requests, and the cancels that race with the disk's answers; of it only the read path and its cache are here, and the source unchokes any interested peer.
- Announcing to trackers and choosing peers to connect to would need the trackers' answers and the clock; in `Swarm` a session may begin at any time.
- Stats.ExactlyOnce: payload and waste only, since protocol bytes are counted without marking the session changed; every session has its own address.
