/** Reading blocks back through the LRU cache of whole pieces (cratetorrent/src/disk/io/torrent.rs). */
module ReadCache {
  import opened Wrappers
  import opened Blocks
  import opened Storage
  import opened FlatDisk
  import opened FileIo
  import opened Requests
  import opened SwarmIntegrity
  import P = PieceIo

  type PieceBlocks = seq<seq<byte>>

  datatype Entry = Entry(piece: nat, blocks: PieceBlocks)

  const READ_CACHE_UPPER_BOUND: nat := 1000

  /** The cache's entries, most recently used first. */
  type Entries = seq<Entry>

  function Find(e: Entries, p: nat): Option<PieceBlocks> {
    if e == [] then None else if e[0].piece == p then Some(e[0].blocks) else Find(e[1..], p)
  }

  function Without(e: Entries, p: nat): (r: Entries)
    ensures |r| <= |e|
  {
    if e == [] then [] else if e[0].piece == p then Without(e[1..], p) else [e[0]] + Without(e[1..], p)
  }

  /** `get`: the entry found becomes the most recent. */
  function Touched(e: Entries, p: nat): Entries {
    if Find(e, p).Some? then [Entry(p, Find(e, p).value)] + Without(e, p) else e
  }

  /** `put`: the entry becomes the most recent, and the least recent goes when there is no room. */
  function Inserted(e: Entries, p: nat, blocks: PieceBlocks, bound: nat): Entries {
    var all := [Entry(p, blocks)] + Without(e, p);
    if |all| > bound then all[..bound] else all
  }

  predicate Distinct(e: Entries) {
    forall i, j :: 0 <= i < j < |e| ==> e[i].piece != e[j].piece
  }

  lemma {:induction false} WithoutFind(e: Entries, p: nat, q: nat)
    ensures Find(Without(e, p), q) == if q == p then None else Find(e, q)
  {
    if e != [] {
      WithoutFind(e[1..], p, q);
      assert ([e[0]] + Without(e[1..], p))[1..] == Without(e[1..], p);
    }
  }

  lemma {:induction false} WithoutDistinct(e: Entries, p: nat)
    requires Distinct(e)
    ensures Distinct(Without(e, p)) && forall i :: 0 <= i < |Without(e, p)| ==> Without(e, p)[i].piece != p && Without(e, p)[i] in e
  {
    if e != [] {
      assert forall i :: 0 <= i < |e[1..]| ==> e[1..][i] == e[i + 1];
      WithoutDistinct(e[1..], p);
      forall i | 0 <= i < |Without(e[1..], p)| ensures Without(e[1..], p)[i].piece != e[0].piece && Without(e[1..], p)[i] in e {
        assert Without(e[1..], p)[i] in e[1..];
      }
    }
  }

  /** Looking a piece up changes no lookup. */
  lemma TouchKeepsFind(e: Entries, p: nat, q: nat)
    ensures Find(Touched(e, p), q) == Find(e, q)
  {
    WithoutFind(e, p, q);
    if Find(e, p).Some? {
      assert Touched(e, p)[1..] == Without(e, p);
    }
  }

  lemma {:induction false} FindTake(e: Entries, n: nat, q: nat)
    requires n <= |e|
    ensures Find(e[..n], q) == Find(e, q) || Find(e[..n], q) == None
  {
    if n > 0 && e[0].piece != q {
      FindTake(e[1..], n - 1, q);
      assert e[..n][1..] == e[1..][..n - 1];
    }
  }

  /** After an insertion the new entry is found, and any other is as before or evicted. */
  lemma InsertFind(e: Entries, p: nat, blocks: PieceBlocks, bound: nat, q: nat)
    requires bound > 0
    ensures Find(Inserted(e, p, blocks, bound), q) == (if q == p then Some(blocks) else Find(e, q))
      || (q != p && Find(Inserted(e, p, blocks, bound), q) == None)
  {
    var all := [Entry(p, blocks)] + Without(e, p);
    WithoutFind(e, p, q);
    assert all[1..] == Without(e, p);
    if |all| > bound {
      FindTake(all, bound, q);
      assert all[..bound][0] == all[0];
    }
  }

  /** Only the least recently used piece is evicted, and only when the cache was full and the piece put
      in was not there. */
  lemma EvictsLeastRecent(e: Entries, p: nat, blocks: PieceBlocks, bound: nat)
    requires Distinct(e) && 0 < |e| <= bound
    ensures Distinct(Inserted(e, p, blocks, bound)) && |Inserted(e, p, blocks, bound)| <= bound
    ensures Find(e, p).None? && |e| == bound ==> Inserted(e, p, blocks, bound) == [Entry(p, blocks)] + e[..bound - 1]
    ensures !(Find(e, p).None? && |e| == bound) ==> Inserted(e, p, blocks, bound) == [Entry(p, blocks)] + Without(e, p)
  {
    hide Find, Without;
    WithoutDistinct(e, p);
    var all := [Entry(p, blocks)] + Without(e, p);
    if Find(e, p).None? {
      WithoutNone(e, p);
      assert |e| == bound ==> all[..bound] == [Entry(p, blocks)] + e[..bound - 1];
    } else {
      WithoutSome(e, p);
    }
  }

  lemma {:induction false} WithoutNone(e: Entries, p: nat)
    requires Find(e, p).None?
    ensures Without(e, p) == e
  {
    if e != [] { WithoutNone(e[1..], p); }
  }

  lemma {:induction false} WithoutSome(e: Entries, p: nat)
    requires Find(e, p).Some?
    ensures |Without(e, p)| < |e|
  {
    if e[0].piece != p { WithoutSome(e[1..], p); }
  }

  // What has been used recently stays.

  datatype Use = Look(piece: nat) | Store(piece: nat, blocks: PieceBlocks)

  function AfterUse(e: Entries, u: Use, bound: nat): Entries {
    match u
    case Look(p) => Touched(e, p)
    case Store(p, blocks) => Inserted(e, p, blocks, bound)
  }

  function AfterUses(e: Entries, uses: seq<Use>, bound: nat): Entries
    decreases |uses|
  {
    if uses == [] then e else AfterUses(AfterUse(e, uses[0], bound), uses[1..], bound)
  }

  function Pieces(uses: seq<Use>): set<nat> { set u | u in uses :: u.piece }

  /** The pieces used since p was. */
  function Ahead(e: Entries, p: nat): set<nat> {
    if e == [] || e[0].piece == p then {} else {e[0].piece} + Ahead(e[1..], p)
  }

  lemma {:induction false} AheadIn(e: Entries, p: nat, x: nat)
    requires forall i :: 0 <= i < |e| ==> e[i].piece != x
    ensures x !in Ahead(e, p)
  {
    if e != [] && e[0].piece != p {
      assert forall i :: 0 <= i < |e[1..]| ==> e[1..][i] == e[i + 1];
      AheadIn(e[1..], p, x);
    }
  }

  lemma TailDistinct(e: Entries)
    requires Distinct(e) && e != []
    ensures Distinct(e[1..]) && forall i :: 0 <= i < |e[1..]| ==> e[1..][i].piece != e[0].piece
  {
  }

  lemma NotHere(e: Entries, p: nat)
    requires Distinct(e) && e != [] && e[0].piece != p
    ensures Find(e, p) == Find(e[1..], p) && Ahead(e, p) == {e[0].piece} + Ahead(e[1..], p)
    ensures Distinct(e[1..]) && |Ahead(e, p)| == 1 + |Ahead(e[1..], p)|
  {
    TailDistinct(e);
    AheadIn(e[1..], p, e[0].piece);
  }

  /** An entry with fewer than n ahead of it is among the first n. */
  lemma {:induction false} FindAhead(e: Entries, p: nat, n: nat)
    requires Distinct(e) && n <= |e| && |Ahead(e, p)| < n
    ensures Find(e[..n], p) == Find(e, p) && Ahead(e[..n], p) == Ahead(e, p)
  {
    if e[0].piece != p {
      hide Find, Ahead, Distinct;
      NotHere(e, p);
      FindAhead(e[1..], p, n - 1);
      TakeDistinct(e, n);
      NotHere(e[..n], p);
      assert e[..n][1..] == e[1..][..n - 1];
    }
  }

  lemma {:induction false} AheadWithout(e: Entries, p: nat, q: nat)
    requires q != p
    ensures Ahead(Without(e, q), p) <= Ahead(e, p)
  {
    if e != [] && e[0].piece != p {
      AheadWithout(e[1..], p, q);
      if e[0].piece != q { assert ([e[0]] + Without(e[1..], q))[1..] == Without(e[1..], q); }
    } else if e != [] {
      assert Without(e, q) == [e[0]] + Without(e[1..], q);
    }
  }

  lemma FrontAhead(e: Entries, p: nat, entry: Entry)
    requires entry.piece != p && Distinct(e)
    ensures var all := [entry] + Without(e, entry.piece);
      Distinct(all) && Find(all, p) == Find(e, p) && Ahead(all, p) <= Ahead(e, p) + {entry.piece}
  {
    var all := [entry] + Without(e, entry.piece);
    WithoutDistinct(e, entry.piece);
    WithoutFind(e, entry.piece, p);
    AheadWithout(e, p, entry.piece);
    assert all[1..] == Without(e, entry.piece);
  }

  lemma {:induction false} SubsetSize(a: set<nat>, b: set<nat>)
    requires a <= b
    ensures |a| <= |b|
    decreases |a|
  {
    if x :| x in a { SubsetSize(a - {x}, b - {x}); }
  }

  /** Using another piece moves p back by no more than that piece, and leaves it in the cache while fewer
      than `bound` pieces are ahead. */
  lemma UseElsewhere(e: Entries, p: nat, u: Use, bound: nat, used: set<nat>)
    requires Distinct(e) && u.piece != p && Ahead(e, p) <= used && |used + {u.piece}| < bound
    ensures var after := AfterUse(e, u, bound);
      Distinct(after) && Find(after, p) == Find(e, p) && Ahead(after, p) <= used + {u.piece}
  {
    hide Ahead, Find, Without, Distinct;
    match u
    case Look(q) =>
      if Find(e, q).Some? { FrontAhead(e, p, Entry(q, Find(e, q).value)); }
    case Store(q, blocks) =>
      FrontAhead(e, p, Entry(q, blocks));
      var all := [Entry(q, blocks)] + Without(e, q);
      SubsetSize(Ahead(all, p), used + {q});
      if |all| > bound {
        FindAhead(all, p, bound);
        TakeDistinct(all, bound);
      }
  }

  lemma TakeDistinct(e: Entries, n: nat)
    requires Distinct(e) && n <= |e|
    ensures Distinct(e[..n])
  {
  }

  lemma {:induction false} UsesElsewhere(e: Entries, p: nat, uses: seq<Use>, bound: nat, used: set<nat>)
    requires Distinct(e) && Ahead(e, p) <= used && |used + Pieces(uses)| < bound && p !in Pieces(uses)
    ensures Find(AfterUses(e, uses, bound), p) == Find(e, p)
    decreases |uses|
  {
    hide Ahead, Find, Distinct, AfterUse;
    if uses != [] {
      var u := uses[0];
      assert u in uses && u.piece in Pieces(uses);
      assert used + Pieces(uses) == (used + {u.piece}) + Pieces(uses[1..]) by {
        assert uses == [u] + uses[1..];
      }
      SubsetSize(used + {u.piece}, used + Pieces(uses));
      UseElsewhere(e, p, u, bound, used);
      assert forall q :: q in Pieces(uses[1..]) ==> q in Pieces(uses);
      UsesElsewhere(AfterUse(e, u, bound), p, uses[1..], bound, used + {u.piece});
    }
  }

  /** A piece looked up or put in is the most recent, and stays in the cache, as it is, until at least
      `bound` other pieces have been looked up or put in since. */
  lemma RecentStays(e: Entries, p: nat, blocks: PieceBlocks, first: Use, uses: seq<Use>, bound: nat)
    requires Distinct(e) && 0 < bound && first.piece == p
    requires first == Store(p, blocks) || (first == Look(p) && Find(e, p) == Some(blocks))
    requires p !in Pieces(uses) && |Pieces(uses)| < bound
    ensures var after := AfterUse(e, first, bound);
      after != [] && after[0] == Entry(p, blocks) && Find(AfterUses(after, uses, bound), p) == Some(blocks)
  {
    hide AfterUses, Without;
    WithoutDistinct(e, p);
    var all := [Entry(p, blocks)] + Without(e, p);
    assert Distinct(all);
    if |all| > bound { TakeDistinct(all, bound); }
    var after := AfterUse(e, first, bound);
    assert Ahead(after, p) == {} && {} + Pieces(uses) == Pieces(uses);
    UsesElsewhere(after, p, uses, bound, {});
  }

  class LruCache {
    var entries: Entries
    const bound: nat

    constructor (bound: nat)
      ensures entries == [] && this.bound == bound
    {
      entries, this.bound := [], bound;
    }

    method Get(p: nat) returns (blocks: Option<PieceBlocks>)
      modifies this`entries
      ensures blocks == Find(old(entries), p) && entries == Touched(old(entries), p)
      ensures if blocks.Some? then entries != [] && entries[0] == Entry(p, blocks.value) else entries == old(entries)
    {
      blocks := Find(entries, p);
      if blocks.Some? {
        entries := [Entry(p, blocks.value)] + Without(entries, p);
      }
    }

    method Put(p: nat, blocks: PieceBlocks)
      modifies this`entries
      ensures entries == Inserted(old(entries), p, blocks, bound) && |entries| <= bound
      ensures bound > 0 ==> entries != [] && entries[0] == Entry(p, blocks)
    {
      entries := [Entry(p, blocks)] + Without(entries, p);
      if |entries| > bound {
        entries := entries[..bound];
      }
    }
  }

  datatype Answer = Block(data: seq<byte>) | InvalidBlockOffset | ReadError | Panic

  class Reader {
    const info: StorageInfo
    const files: seq<TorrentFile>
    const cache: LruCache

    ghost predicate Valid()
      reads files, cache
    {
      info.Valid() && P.Infos(files) == info.files && cache.bound > 0
    }

    constructor (info: StorageInfo, files: seq<TorrentFile>)
      requires info.Valid() && P.Infos(files) == info.files
      ensures Valid() && this.info == info && this.files == files && fresh(cache) && cache.entries == [] && cache.bound == 1000
    {
      this.info, this.files := info, files;
      cache := new LruCache(READ_CACHE_UPPER_BOUND);
    }

    /** `read_block`, with the read of a miss done at once. `full` says whether the kernel transfers in
        full. An offset past the piece is an error answer when the piece is cached and a panic, which
        leaves the cache as it is, when the piece is read. */
    method ReadBlock(block: BlockInfo, full: bool) returns (answer: Answer)
      requires Valid() && (Find(cache.entries, block.pieceIndex).None? ==> block.pieceIndex < info.pieceCount)
      modifies cache`entries
      ensures Valid()
      ensures Find(old(cache.entries), block.pieceIndex).Some? ==>
        var blocks := Find(old(cache.entries), block.pieceIndex).value;
        && cache.entries == Touched(old(cache.entries), block.pieceIndex)
        && answer == if block.IndexInPiece() < |blocks| then Block(blocks[block.IndexInPiece()]) else InvalidBlockOffset
      ensures Find(old(cache.entries), block.pieceIndex).None? && Clean(info, files, block.pieceIndex, full) ==>
        var data := PieceOf(info, files, block.pieceIndex);
        && |data| == info.PieceLen(block.pieceIndex)
        && (block.IndexInPiece() < BlockCount(|data|) ==>
          && cache.entries == Inserted(old(cache.entries), block.pieceIndex, Cut(data), cache.bound)
          && answer == Block(Cut(data)[block.IndexInPiece()]))
        && (block.IndexInPiece() >= BlockCount(|data|) ==> cache.entries == old(cache.entries) && answer == Panic)
      ensures Find(old(cache.entries), block.pieceIndex).None? ==>
        && (FirstLacks(info, files, block.pieceIndex) ==> answer == ReadError)
        && (answer == ReadError ==> cache.entries == old(cache.entries) && SomeLacks(info, files, block.pieceIndex))
        && (answer == Panic ==> block.IndexInPiece() >= BlockCount(info.PieceLen(block.pieceIndex)))
    {
      hide Touched, Inserted, Cut, P.Contents, StorageInfo.Valid, IntersectingRange, P.CleanRead, Flat;
      var p := block.pieceIndex;
      var hit := cache.Get(p);
      if hit.Some? {
        if block.IndexInPiece() >= |hit.value| {
          return InvalidBlockOffset;
        }
        return Block(hit.value[block.IndexInPiece()]);
      }
      assert cache.entries == old(cache.entries) by { TouchedMiss(cache.entries, old(cache.entries), p); }
      PieceInside(info, P.Contents(files), p);
      var lo, hi := FilesIntersectingBytes(info.files, info.PieceOffset(p), info.PieceEnd(p));
      var got := P.Read(info.PieceOffset(p), lo, hi, files, info.PieceLen(p), full);
      if got.None? {
        return ReadError;
      }
      if block.IndexInPiece() >= |got.value| {
        return Panic;
      }
      cache.Put(p, got.value);
      return Block(got.value[block.IndexInPiece()]);
    }
  }

  lemma TouchedMiss(after: Entries, before: Entries, p: nat)
    requires after == Touched(before, p) && Find(before, p).None?
    ensures after == before
  {
  }

  lemma PieceInside(s: StorageInfo, contents: seq<seq<byte>>, p: nat)
    requires s.Valid() && p < s.pieceCount && |contents| == |s.files|
    ensures |s.files| > 0 && Contiguous(s.files) && 0 < s.PieceLen(p) && s.PieceEnd(p) <= Total(s.files) == |Flat(s.files, contents)|
  {
    PieceOrder(s, p);
    FlatLen(s.files, contents);
  }

  /** The first file of the piece has nothing of it. */
  ghost predicate FirstLacks(s: StorageInfo, files: seq<TorrentFile>, p: nat)
    reads files
    requires s.Valid() && P.Infos(files) == s.files && p < s.pieceCount
  {
    PieceInside(s, P.Contents(files), p);
    P.Lacks(s.files, P.Contents(files), s.PieceOffset(p), IntersectingRange(s.files, s.PieceOffset(p), s.PieceEnd(p)).0)
  }

  /** Some file of the piece has nothing of its part of it. */
  ghost predicate SomeLacks(s: StorageInfo, files: seq<TorrentFile>, p: nat)
    reads files
    requires s.Valid() && P.Infos(files) == s.files && p < s.pieceCount
  {
    PieceInside(s, P.Contents(files), p);
    var (lo, hi) := IntersectingRange(s.files, s.PieceOffset(p), s.PieceEnd(p));
    exists i :: lo <= i < hi && P.Lacks(s.files, P.Contents(files), s.PieceOffset(p), i)
  }

  ghost predicate Clean(s: StorageInfo, files: seq<TorrentFile>, p: nat, full: bool)
    reads files
    requires P.Infos(files) == s.files && p < s.pieceCount
  {
    P.CleanRead(s.files, P.Contents(files), s.PieceOffset(p), s.PieceEnd(p), full)
  }

  /** The bytes of the piece in the files. */
  ghost function PieceOf(s: StorageInfo, files: seq<TorrentFile>, p: nat): seq<byte>
    reads files
    requires s.Valid() && P.Infos(files) == s.files && p < s.pieceCount
  {
    PieceInside(s, P.Contents(files), p);
    Flat(s.files, P.Contents(files))[s.PieceOffset(p)..s.PieceEnd(p)]
  }

  // The read path as a step machine: requests, reads that finish in any order, and pieces written meanwhile.

  /** None stands for a read error. */
  datatype Reply = Reply(block: BlockInfo, answer: Option<seq<byte>>)

  datatype State = State(files: seq<seq<byte>>, written: set<nat>, cache: Entries, pending: seq<BlockInfo>, replies: seq<Reply>)

  datatype Action = WritePiece(p: nat, data: seq<byte>) | Request(block: BlockInfo) | FinishRead(k: nat)

  ghost predicate FilesOk(s: StorageInfo, files: seq<seq<byte>>) {
    s.Valid() && |files| == |s.files|
  }

  /** The piece as it is on disk. */
  ghost function OnDisk(s: StorageInfo, files: seq<seq<byte>>, p: nat): seq<byte>
    requires FilesOk(s, files) && p < s.pieceCount
  {
    RegionFits(s, files, p);
    Region(s, files, p)
  }

  /** The block as it is on disk. */
  ghost function DirectRead(s: StorageInfo, files: seq<seq<byte>>, b: BlockInfo): seq<byte>
    requires FilesOk(s, files) && InGrid(s, b)
  {
    RegionFits(s, files, b.pieceIndex);
    Region(s, files, b.pieceIndex)[b.offset..b.offset + b.len]
  }

  /** What `piece::read` gives when the kernel transfers in full: the piece's blocks, or an error when
      the files do not have all of it. */
  ghost function Gathered(s: StorageInfo, files: seq<seq<byte>>, p: nat): Option<PieceBlocks>
    requires FilesOk(s, files) && p < s.pieceCount
  {
    if P.CleanRead(s.files, files, s.PieceOffset(p), s.PieceEnd(p), true) then Some(Cut(OnDisk(s, files, p))) else None
  }

  function Pick(blocks: PieceBlocks, b: BlockInfo): Option<seq<byte>> {
    if b.IndexInPiece() < |blocks| then Some(blocks[b.IndexInPiece()]) else None
  }

  /** Requests are for blocks of pieces already written, and what is written again is the same. */
  ghost predicate Enabled(s: StorageInfo, t: State, a: Action)
    requires FilesOk(s, t.files)
  {
    match a
    case WritePiece(p, data) => p < s.pieceCount && |data| == s.PieceLen(p) && (p in t.written ==> data == OnDisk(s, t.files, p))
    case Request(b) => InGrid(s, b) && b.pieceIndex in t.written
    case FinishRead(k) => k < |t.pending| && t.pending[k].pieceIndex < s.pieceCount
  }

  /** The second of two racing reads of a piece puts it in the cache again. */
  ghost function Apply(s: StorageInfo, t: State, a: Action): State
    requires FilesOk(s, t.files) && Enabled(s, t, a)
  {
    match a
    case WritePiece(p, data) => t.(files := Scatter(s.files, t.files, s.PieceOffset(p), data), written := t.written + {p})
    case Request(b) =>
      var hit := Find(t.cache, b.pieceIndex);
      if hit.None? then t.(pending := t.pending + [b])
      else t.(cache := Touched(t.cache, b.pieceIndex), replies := t.replies + [Reply(b, Pick(hit.value, b))])
    case FinishRead(k) =>
      var b := t.pending[k];
      var got := Gathered(s, t.files, b.pieceIndex);
      var u := t.(pending := t.pending[..k] + t.pending[k + 1..]);
      if got.None? then u.(replies := t.replies + [Reply(b, None)])
      else u.(cache := Inserted(t.cache, b.pieceIndex, got.value, READ_CACHE_UPPER_BOUND),
              replies := t.replies + [Reply(b, Pick(got.value, b))])
  }

  ghost predicate WrittenOk(s: StorageInfo, files: seq<seq<byte>>, written: set<nat>)
    requires FilesOk(s, files)
  {
    && Bounded(s.files, files)
    && forall p :: p in written ==> p < s.pieceCount && Present(s.files, files, s.PieceOffset(p), s.PieceEnd(p))
  }

  /** A cached piece is a written one, as it is on disk. */
  ghost predicate CacheOk(s: StorageInfo, files: seq<seq<byte>>, written: set<nat>, cache: Entries)
    requires FilesOk(s, files)
  {
    forall p: nat :: Find(cache, p).Some? ==> p in written && p < s.pieceCount && Find(cache, p).value == Cut(OnDisk(s, files, p))
  }

  ghost predicate ReadOk(s: StorageInfo, written: set<nat>, b: BlockInfo) {
    InGrid(s, b) && b.pieceIndex in written
  }

  ghost predicate ReplyOk(s: StorageInfo, files: seq<seq<byte>>, written: set<nat>, r: Reply)
    requires FilesOk(s, files)
  {
    ReadOk(s, written, r.block) && r.answer == Some(DirectRead(s, files, r.block))
  }

  ghost predicate Sound(s: StorageInfo, t: State) {
    && FilesOk(s, t.files) && WrittenOk(s, t.files, t.written) && CacheOk(s, t.files, t.written, t.cache)
    && (forall k :: 0 <= k < |t.pending| ==> ReadOk(s, t.written, t.pending[k]))
    && (forall k :: 0 <= k < |t.replies| ==> ReplyOk(s, t.files, t.written, t.replies[k]))
  }

  /** A block picked from the piece's blocks is the block on disk. */
  lemma PickIsDirect(s: StorageInfo, files: seq<seq<byte>>, b: BlockInfo)
    requires FilesOk(s, files) && InGrid(s, b)
    ensures Pick(Cut(OnDisk(s, files, b.pieceIndex)), b) == Some(DirectRead(s, files, b))
  {
    hide Region;
    RegionFits(s, files, b.pieceIndex);
  }

  lemma RequestSound(s: StorageInfo, t: State, b: BlockInfo)
    requires Sound(s, t) && Enabled(s, t, Request(b))
    ensures Sound(s, Apply(s, t, Request(b)))
  {
    hide InGrid, OnDisk, DirectRead, WrittenOk, Cut;
    var u := Apply(s, t, Request(b));
    if Find(t.cache, b.pieceIndex).Some? {
      PickIsDirect(s, t.files, b);
      forall p: nat | Find(u.cache, p).Some? ensures p in t.written && p < s.pieceCount && Find(u.cache, p).value == Cut(OnDisk(s, t.files, p)) {
        TouchKeepsFind(t.cache, b.pieceIndex, p);
      }
    }
  }

  lemma WrittenIsGathered(s: StorageInfo, files: seq<seq<byte>>, written: set<nat>, p: nat)
    requires FilesOk(s, files) && WrittenOk(s, files, written) && p in written && p < s.pieceCount
    ensures Gathered(s, files, p) == Some(Cut(OnDisk(s, files, p)))
  {
  }

  lemma FinishReadSound(s: StorageInfo, t: State, k: nat)
    requires Sound(s, t) && Enabled(s, t, FinishRead(k))
    ensures Sound(s, Apply(s, t, FinishRead(k)))
  {
    hide InGrid, OnDisk, DirectRead, WrittenOk, Cut, Gathered, Inserted;
    var u := Apply(s, t, FinishRead(k));
    var b := t.pending[k];
    assert ReadOk(s, t.written, b);
    WrittenIsGathered(s, t.files, t.written, b.pieceIndex);
    PickIsDirect(s, t.files, b);
    forall p: nat | Find(u.cache, p).Some? ensures p in t.written && p < s.pieceCount && Find(u.cache, p).value == Cut(OnDisk(s, t.files, p)) {
      InsertFind(t.cache, b.pieceIndex, Cut(OnDisk(s, t.files, b.pieceIndex)), READ_CACHE_UPPER_BOUND, p);
    }
  }

  /** Writing a piece leaves what is on disk of the pieces already written. */
  lemma WriteKeepsWritten(s: StorageInfo, t: State, p: nat, data: seq<byte>, q: nat)
    requires Sound(s, t) && Enabled(s, t, WritePiece(p, data)) && q in t.written && q < s.pieceCount
    ensures var after := Scatter(s.files, t.files, s.PieceOffset(p), data);
      FilesOk(s, after) && OnDisk(s, after, q) == OnDisk(s, t.files, q)
  {
    hide Scatter, Region, StorageInfo.Valid, WrittenOk, CacheOk;
    WriteRegion(s, t.files, p, data, q);
  }

  lemma DirectIsOnDisk(s: StorageInfo, files: seq<seq<byte>>, after: seq<seq<byte>>, b: BlockInfo)
    requires FilesOk(s, files) && FilesOk(s, after) && InGrid(s, b) && OnDisk(s, after, b.pieceIndex) == OnDisk(s, files, b.pieceIndex)
    ensures DirectRead(s, after, b) == DirectRead(s, files, b)
  {
  }

  lemma WriteSound(s: StorageInfo, t: State, p: nat, data: seq<byte>)
    requires Sound(s, t) && Enabled(s, t, WritePiece(p, data))
    ensures Sound(s, Apply(s, t, WritePiece(p, data)))
  {
    hide InGrid, OnDisk, DirectRead, Cut, Scatter, StorageInfo.Valid, Present, Bounded;
    var u := Apply(s, t, WritePiece(p, data));
    WriteWritten(s, t.files, t.written, p, data);
    forall q: nat | Find(u.cache, q).Some? ensures q in u.written && q < s.pieceCount && Find(u.cache, q).value == Cut(OnDisk(s, u.files, q)) {
      WriteKeepsWritten(s, t, p, data, q);
    }
    forall k | 0 <= k < |u.replies| ensures ReplyOk(s, u.files, u.written, u.replies[k]) {
      var b := t.replies[k].block;
      assert ReplyOk(s, t.files, t.written, t.replies[k]);
      GridPiece(s, b);
      WriteKeepsWritten(s, t, p, data, b.pieceIndex);
      DirectIsOnDisk(s, t.files, u.files, b);
    }
  }

  lemma GridPiece(s: StorageInfo, b: BlockInfo)
    requires InGrid(s, b)
    ensures b.pieceIndex < s.pieceCount
  {
  }

  lemma WriteWritten(s: StorageInfo, files: seq<seq<byte>>, written: set<nat>, p: nat, data: seq<byte>)
    requires FilesOk(s, files) && WrittenOk(s, files, written) && p < s.pieceCount && |data| == s.PieceLen(p)
    ensures FilesOk(s, Scatter(s.files, files, s.PieceOffset(p), data))
    ensures WrittenOk(s, Scatter(s.files, files, s.PieceOffset(p), data), written + {p})
  {
    hide Scatter, Present, Bounded;
    PieceOrder(s, p);
    ScatterBounded(s.files, files, s.PieceOffset(p), data);
  }

  ghost predicate Run(s: StorageInfo, t: State, acts: seq<Action>, u: State)
    decreases |acts|
  {
    if acts == [] then t == u
    else FilesOk(s, t.files) && Enabled(s, t, acts[0]) && Run(s, Apply(s, t, acts[0]), acts[1..], u)
  }

  lemma {:induction false} RunSound(s: StorageInfo, t: State, acts: seq<Action>, u: State)
    requires Sound(s, t) && Run(s, t, acts, u)
    ensures Sound(s, u)
    decreases |acts|
  {
    hide Sound, FilesOk, Enabled, Apply;
    if acts != [] {
      match acts[0] {
        case WritePiece(p, data) => WriteSound(s, t, p, data);
        case Request(b) => RequestSound(s, t, b);
        case FinishRead(k) => FinishReadSound(s, t, k);
      }
      RunSound(s, Apply(s, t, acts[0]), acts[1..], u);
    }
  }

  function Fresh(s: StorageInfo): State { State(seq(|s.files|, _ => []), {}, [], [], []) }

  /** Through any hits, misses, evictions and racing reads, every request for a block of a written piece
      is answered with the bytes that are on disk, now as at the time. */
  lemma CacheAgreesWithDisk(s: StorageInfo, acts: seq<Action>, t: State, k: nat)
    requires s.Valid() && Run(s, Fresh(s), acts, t) && k < |t.replies|
    ensures FilesOk(s, t.files) && InGrid(s, t.replies[k].block)
    ensures t.replies[k].answer == Some(DirectRead(s, t.files, t.replies[k].block))
  {
    hide Run, StorageInfo.Valid, InGrid, DirectRead, CacheOk, WrittenOk;
    FreshSound(s);
    RunSound(s, Fresh(s), acts, t);
    assert ReplyOk(s, t.files, t.written, t.replies[k]);
  }

  lemma FreshSound(s: StorageInfo)
    requires s.Valid()
    ensures Sound(s, Fresh(s))
  {
    hide StorageInfo.Valid;
  }

  /** The blocks replied to. */
  function Replied(replies: seq<Reply>): multiset<BlockInfo> {
    if replies == [] then multiset{} else Replied(replies[..|replies| - 1]) + multiset{replies[|replies| - 1].block}
  }

  /** The blocks requested. */
  function Requested(acts: seq<Action>): multiset<BlockInfo> {
    if acts == [] then multiset{} else (if acts[0].Request? then multiset{acts[0].block} else multiset{}) + Requested(acts[1..])
  }

  function Accounted(t: State): multiset<BlockInfo> { multiset(t.pending) + Replied(t.replies) }

  lemma RepliedSnoc(replies: seq<Reply>, r: Reply)
    ensures Replied(replies + [r]) == Replied(replies) + multiset{r.block}
  {
    assert (replies + [r])[..|replies|] == replies;
  }

  lemma StepAccounts(s: StorageInfo, t: State, a: Action)
    requires FilesOk(s, t.files) && Enabled(s, t, a)
    ensures Accounted(Apply(s, t, a)) == Accounted(t) + if a.Request? then multiset{a.block} else multiset{}
  {
    hide FilesOk, InGrid, OnDisk, Touched, Inserted, Gathered, Find, Pick, Replied, Scatter;
    match a
    case WritePiece(p, data) =>
    case Request(b) =>
      var hit := Find(t.cache, b.pieceIndex);
      if hit.Some? { RepliedSnoc(t.replies, Reply(b, Pick(hit.value, b))); }
    case FinishRead(k) =>
      var b := t.pending[k];
      assert t.pending == t.pending[..k] + [b] + t.pending[k + 1..];
      var got := Gathered(s, t.files, b.pieceIndex);
      RepliedSnoc(t.replies, Reply(b, if got.None? then None else Pick(got.value, b)));
  }

  lemma {:induction false} RunAccounts(s: StorageInfo, t: State, acts: seq<Action>, u: State)
    requires Run(s, t, acts, u)
    ensures Accounted(u) == Accounted(t) + Requested(acts)
    decreases |acts|
  {
    hide FilesOk, Enabled, Apply, Accounted;
    if acts != [] {
      StepAccounts(s, t, acts[0]);
      RunAccounts(s, Apply(s, t, acts[0]), acts[1..], u);
    }
  }

  /** Every request is answered once or still being read: none is dropped and none is answered twice. */
  lemma AnsweredOnce(s: StorageInfo, acts: seq<Action>, t: State)
    requires s.Valid() && Run(s, Fresh(s), acts, t)
    ensures multiset(t.pending) + Replied(t.replies) == Requested(acts)
  {
    hide Run;
    RunAccounts(s, Fresh(s), acts, t);
  }

  /** A piece that has been read is in the cache, so that the next request for it finds it there. */
  lemma ReadIsCached(s: StorageInfo, acts: seq<Action>, t: State, k: nat)
    requires s.Valid() && Run(s, Fresh(s), acts, t) && FilesOk(s, t.files) && Enabled(s, t, FinishRead(k))
    ensures var p := t.pending[k].pieceIndex;
      var u := Apply(s, t, FinishRead(k));
      u.cache != [] && u.cache[0] == Entry(p, Cut(OnDisk(s, t.files, p)))
  {
    hide Run, StorageInfo.Valid, InGrid, DirectRead, CacheOk, WrittenOk, OnDisk, Gathered, Without;
    FreshSound(s);
    RunSound(s, Fresh(s), acts, t);
    var b := t.pending[k];
    assert ReadOk(s, t.written, b);
    WrittenIsGathered(s, t.files, t.written, b.pieceIndex);
  }

  /** A request for a piece in the cache is answered and makes it the most recent entry; any other leaves the
      cache alone and is read. */
  lemma HitIsRecent(s: StorageInfo, t: State, b: BlockInfo)
    requires FilesOk(s, t.files) && Enabled(s, t, Request(b))
    ensures var u := Apply(s, t, Request(b));
      if Find(t.cache, b.pieceIndex).None? then u.cache == t.cache && u.pending == t.pending + [b] && u.replies == t.replies
      else u.cache != [] && u.cache[0] == Entry(b.pieceIndex, Find(t.cache, b.pieceIndex).value) && u.pending == t.pending
  {
    hide FilesOk, InGrid, OnDisk, Without;
  }
}
