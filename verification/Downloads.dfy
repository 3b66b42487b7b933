/** The block statuses of a piece being downloaded (cratetorrent/src/download.rs). */
module Downloads {
  import opened Blocks

  datatype BlockStatus = Free | Requested | Received

  datatype Download = Download(index: nat, len: nat, blocks: seq<BlockStatus>) {
    predicate Valid() { |blocks| == BlockCount(len) }

    function Block(i: nat): BlockInfo
      requires Valid() && i < |blocks|
    {
      BlockAt(index, len, i)
    }

    /** What `pick_blocks` may take: a free block, or in endgame one requested by someone else. */
    predicate Eligible(i: nat, endgame: bool, prev: set<BlockInfo>)
      requires Valid()
    {
      i < |blocks| && (blocks[i].Free? || (endgame && blocks[i].Requested? && Block(i) !in prev))
    }
  }

  function NewDownload(index: nat, len: nat): (d: Download)
    ensures d.Valid()
  {
    Download(index, len, seq(BlockCount(len), _ => Free))
  }

  /** The indices `pick_blocks` takes from k on, in order, when it still wants `count` blocks. */
  function Taken(d: Download, k: nat, count: nat, endgame: bool, prev: set<BlockInfo>): seq<nat>
    requires d.Valid()
    decreases |d.blocks| - k
  {
    if k >= |d.blocks| || count == 0 then []
    else if d.Eligible(k, endgame, prev) then [k] + Taken(d, k + 1, count - 1, endgame, prev)
    else Taken(d, k + 1, count, endgame, prev)
  }

  function AfterPick(d: Download, taken: seq<nat>): (r: Download)
    requires d.Valid()
    ensures r.Valid() && r.index == d.index && r.len == d.len
    ensures forall i {:trigger r.blocks[i]} :: 0 <= i < |d.blocks| ==>
      r.blocks[i] == if d.blocks[i].Free? && i in taken then Requested else d.blocks[i]
  {
    d.(blocks := seq(|d.blocks|, i requires 0 <= i < |d.blocks| =>
      if d.blocks[i].Free? && i in taken then Requested else d.blocks[i]))
  }

  function Infos(d: Download, taken: seq<nat>): (r: seq<BlockInfo>)
    requires d.Valid() && forall j :: 0 <= j < |taken| ==> taken[j] < |d.blocks|
    ensures |r| == |taken|
    ensures forall j {:trigger r[j]} :: 0 <= j < |r| ==> r[j] == d.Block(taken[j])
  {
    seq(|taken|, j requires 0 <= j < |taken| => d.Block(taken[j]))
  }

  predicate Ascending(s: seq<nat>) {
    forall i, j :: 0 <= i < j < |s| ==> s[i] < s[j]
  }

  /** A pick takes eligible blocks only, in ascending order and each once, no more than asked for. */
  lemma {:induction false} TakenFits(d: Download, k: nat, count: nat, endgame: bool, prev: set<BlockInfo>)
    requires d.Valid()
    ensures var t := Taken(d, k, count, endgame, prev);
      && |t| <= count && Ascending(t)
      && forall j :: 0 <= j < |t| ==> k <= t[j] && d.Eligible(t[j], endgame, prev)
    decreases |d.blocks| - k
  {
    if k < |d.blocks| && count > 0 {
      TakenFits(d, k + 1, if d.Eligible(k, endgame, prev) then count - 1 else count, endgame, prev);
    }
  }

  /** A pick passes over no eligible block: one is left out only past the last block taken, and then
      only because the pick already had as many as asked for. */
  lemma {:induction false} TakenFirst(d: Download, k: nat, count: nat, endgame: bool, prev: set<BlockInfo>, i: nat)
    requires d.Valid() && k <= i && d.Eligible(i, endgame, prev)
    ensures var t := Taken(d, k, count, endgame, prev);
      i in t || (|t| == count && forall j :: 0 <= j < |t| ==> t[j] < i)
    decreases |d.blocks| - k
  {
    if count > 0 {
      if d.Eligible(k, endgame, prev) {
        if i > k {
          TakenFirst(d, k + 1, count - 1, endgame, prev, i);
          var t := Taken(d, k + 1, count - 1, endgame, prev);
          assert forall j :: 0 <= j < |t| ==> ([k] + t)[j + 1] == t[j];
        }
      } else {
        TakenFirst(d, k + 1, count, endgame, prev, i);
      }
    }
  }

  /** `t` takes no more than asked for, in order, and only what may be taken. */
  predicate Fits(d: Download, k: nat, count: nat, endgame: bool, prev: set<BlockInfo>, t: seq<nat>)
    requires d.Valid()
  {
    && |t| <= count && Ascending(t)
    && forall j :: 0 <= j < |t| ==> k <= t[j] && d.Eligible(t[j], endgame, prev)
  }

  /** `t` passes over i only because it is full of earlier blocks. */
  predicate Justly(t: seq<nat>, count: nat, i: nat) {
    i in t || (|t| == count && forall j :: 0 <= j < |t| ==> t[j] < i)
  }

  predicate NonePassed(d: Download, k: nat, count: nat, endgame: bool, prev: set<BlockInfo>, t: seq<nat>)
    requires d.Valid()
  {
    forall i :: k <= i < |d.blocks| && d.Eligible(i, endgame, prev) ==> Justly(t, count, i)
  }

  lemma DropFirst(d: Download, k: nat, count: nat, endgame: bool, prev: set<BlockInfo>, t: seq<nat>)
    requires d.Valid() && count > 0 && Fits(d, k, count, endgame, prev, t) && NonePassed(d, k, count, endgame, prev, t)
    requires d.Eligible(k, endgame, prev)
    ensures t != [] && t[0] == k
    ensures Fits(d, k + 1, count - 1, endgame, prev, t[1..]) && NonePassed(d, k + 1, count - 1, endgame, prev, t[1..])
  {
    assert Justly(t, count, k);
    assert t[0] == k;
    forall i: nat | k + 1 <= i && d.Eligible(i, endgame, prev) ensures Justly(t[1..], count - 1, i) {
      assert Justly(t, count, i);
      assert t == [t[0]] + t[1..];
    }
  }

  /** The two conditions fix the pick: any list that meets them is the list taken. */
  lemma {:induction false} TakenUnique(d: Download, k: nat, count: nat, endgame: bool, prev: set<BlockInfo>, t: seq<nat>)
    requires d.Valid() && Fits(d, k, count, endgame, prev, t) && NonePassed(d, k, count, endgame, prev, t)
    ensures t == Taken(d, k, count, endgame, prev)
    decreases |d.blocks| - k
  {
    hide NonePassed, Justly;
    if k >= |d.blocks| || count == 0 {
      assert t != [] ==> d.Eligible(t[0], endgame, prev);
    } else if d.Eligible(k, endgame, prev) {
      DropFirst(d, k, count, endgame, prev, t);
      TakenUnique(d, k + 1, count - 1, endgame, prev, t[1..]);
      assert t == [t[0]] + t[1..];
    } else {
      assert NonePassed(d, k + 1, count, endgame, prev, t) by { NonePassedFrom(d, k, count, endgame, prev, t); }
      TakenUnique(d, k + 1, count, endgame, prev, t);
    }
  }

  lemma NonePassedFrom(d: Download, k: nat, count: nat, endgame: bool, prev: set<BlockInfo>, t: seq<nat>)
    requires d.Valid() && NonePassed(d, k, count, endgame, prev, t)
    ensures NonePassed(d, k + 1, count, endgame, prev, t)
  {
  }

  predicate NoFree(d: Download) {
    forall i :: 0 <= i < |d.blocks| ==> !d.blocks[i].Free?
  }

  predicate Exhausted(d: Download, endgame: bool, prev: set<BlockInfo>)
    requires d.Valid()
  {
    forall i :: 0 <= i < |d.blocks| ==> !d.Eligible(i, endgame, prev)
  }

  /** `pick_blocks`: the download afterwards and the blocks to request. */
  function PickBlocks(d: Download, count: nat, endgame: bool, prev: set<BlockInfo>): (r: (Download, seq<BlockInfo>))
    requires d.Valid()
    ensures r.0.Valid() && r.0.index == d.index && r.0.len == d.len
    ensures |r.1| <= count
  {
    TakenFits(d, 0, count, endgame, prev);
    var t := Taken(d, 0, count, endgame, prev);
    (AfterPick(d, t), Infos(d, t))
  }

  predicate Unrepeated<T(==)>(s: seq<T>) {
    forall i, j :: 0 <= i < j < |s| ==> s[i] != s[j]
  }

  function Elements<T>(s: seq<T>): set<T> { set x | x in s }

  /** `b` is a block of the download that may be picked. */
  predicate MayPick(d: Download, endgame: bool, prev: set<BlockInfo>, b: BlockInfo)
    requires d.Valid()
  {
    && b.pieceIndex == d.index
    && d.Eligible(b.IndexInPiece(), endgame, prev) && b == d.Block(b.IndexInPiece())
  }

  lemma PickAt(d: Download, count: nat, endgame: bool, prev: set<BlockInfo>, j: nat)
    requires d.Valid() && j < |PickBlocks(d, count, endgame, prev).1|
    ensures j < |Taken(d, 0, count, endgame, prev)|
    ensures var b := PickBlocks(d, count, endgame, prev).1[j];
      MayPick(d, endgame, prev, b) && b.IndexInPiece() == Taken(d, 0, count, endgame, prev)[j]
  {
    TakenFits(d, 0, count, endgame, prev);
    IndexInverts(d.index, d.len, Taken(d, 0, count, endgame, prev)[j]);
  }

  /** The requests are for blocks that may be picked, each once. */
  lemma PickFits(d: Download, count: nat, endgame: bool, prev: set<BlockInfo>)
    requires d.Valid()
    ensures var asked := PickBlocks(d, count, endgame, prev).1;
      Unrepeated(asked) && forall b :: b in asked ==> MayPick(d, endgame, prev, b)
  {
    hide MayPick, PickBlocks;
    TakenFits(d, 0, count, endgame, prev);
    var asked := PickBlocks(d, count, endgame, prev).1;
    forall i, j | 0 <= i < j < |asked| ensures asked[i] != asked[j] {
      PickAt(d, count, endgame, prev, i);
      PickAt(d, count, endgame, prev, j);
    }
    forall b | b in asked ensures MayPick(d, endgame, prev, b) {
      var j :| 0 <= j < |asked| && asked[j] == b;
      PickAt(d, count, endgame, prev, j);
    }
  }

  /** The new status of a block is the old one, or the block was free and is now requested in `batch`. */
  predicate StatusStep(d: Download, e: Download, i: nat, batch: seq<BlockInfo>)
    requires d.Valid() && e.Valid() && i < |d.blocks| == |e.blocks|
  {
    e.blocks[i] == d.blocks[i] || (d.blocks[i].Free? && e.blocks[i].Requested? && d.Block(i) in batch)
  }

  predicate OnlyRequested(d: Download, e: Download, batch: seq<BlockInfo>)
    requires d.Valid() && e.Valid()
  {
    && d.index == e.index && d.len == e.len && |d.blocks| == |e.blocks|
    && forall i :: 0 <= i < |d.blocks| ==> StatusStep(d, e, i, batch)
  }

  /** A pick changes nothing but free blocks, and those only to requested and in the batch. */
  lemma PickOnlyRequests(d: Download, count: nat, endgame: bool, prev: set<BlockInfo>)
    requires d.Valid()
    ensures var r := PickBlocks(d, count, endgame, prev); OnlyRequested(d, r.0, r.1)
  {
    var t := Taken(d, 0, count, endgame, prev);
    TakenFits(d, 0, count, endgame, prev);
    var r := PickBlocks(d, count, endgame, prev);
    forall i | 0 <= i < |d.blocks| ensures StatusStep(d, r.0, i, r.1) {
      if i in t {
        var j :| 0 <= j < |t| && t[j] == i;
        assert r.1[j] == d.Block(i);
      }
    }
  }

  /** A pick that comes back short leaves nothing behind: every block the peer could still ask for
      in this piece is in the pick. */
  lemma ShortPick(d: Download, count: nat, endgame: bool, prev: set<BlockInfo>)
    requires d.Valid() && |PickBlocks(d, count, endgame, prev).1| < count
    ensures var r := PickBlocks(d, count, endgame, prev);
      NoFree(r.0) && Exhausted(r.0, endgame, prev + Elements(r.1))
  {
    var t := Taken(d, 0, count, endgame, prev);
    TakenFits(d, 0, count, endgame, prev);
    var r := PickBlocks(d, count, endgame, prev);
    forall i | 0 <= i < |r.0.blocks|
      ensures !r.0.blocks[i].Free? && !r.0.Eligible(i, endgame, prev + Elements(r.1))
    {
      if d.Eligible(i, endgame, prev) {
        TakenFirst(d, 0, count, endgame, prev, i);
        var j :| 0 <= j < |t| && t[j] == i;
        assert r.1[j] == r.0.Block(i);
      }
    }
  }

  /** What a pick means for the peer and for the others. It asks for blocks that nobody has asked for and,
      in endgame, for those that only others have asked for; what it asks for is marked requested, and
      nothing else changes. When it comes back short no block is free, and in endgame this peer has asked
      for every block that is missing. */
  lemma PickMeans(d: Download, count: nat, endgame: bool, prev: set<BlockInfo>)
    requires d.Valid()
    ensures var (e, asked) := PickBlocks(d, count, endgame, prev);
      && |e.blocks| == |d.blocks|
      && forall i: nat {:trigger d.Block(i)} :: i < |d.blocks| ==> (
        && (d.Block(i) in asked ==> d.blocks[i].Free? || (endgame && d.blocks[i].Requested? && d.Block(i) !in prev))
        && e.blocks[i] == (if d.Block(i) in asked then Requested else d.blocks[i])
        && (|asked| < count ==> !e.blocks[i].Free? && (endgame && !e.blocks[i].Received? ==> d.Block(i) in prev || d.Block(i) in asked)))
  {
    var t := Taken(d, 0, count, endgame, prev);
    TakenFits(d, 0, count, endgame, prev);
    var (e, asked) := PickBlocks(d, count, endgame, prev);
    forall i: nat | i < |d.blocks|
      ensures i in t <==> d.Block(i) in asked
      ensures i in t ==> d.Eligible(i, endgame, prev)
      ensures |asked| < count && d.Eligible(i, endgame, prev) ==> i in t
    {
      if i in t {
        var j :| 0 <= j < |t| && t[j] == i;
        assert asked[j] == d.Block(i);
      }
      if d.Block(i) in asked {
        var j :| 0 <= j < |asked| && asked[j] == d.Block(i);
        SameIndex(d, i, t[j]);
      }
      if d.Eligible(i, endgame, prev) { TakenFirst(d, 0, count, endgame, prev, i); }
    }
  }

  lemma SameIndex(d: Download, i: nat, j: nat)
    requires d.Valid() && i < |d.blocks| && j < |d.blocks| && d.Block(i) == d.Block(j)
    ensures i == j
  {
    IndexInverts(d.index, d.len, i);
    IndexInverts(d.index, d.len, j);
  }

  function Marked(d: Download, i: nat): (r: Download)
    requires d.Valid() && i < |d.blocks|
    ensures r.Valid()
  {
    d.(blocks := d.blocks[i := Received])
  }

  function Freed(d: Download, i: nat): (r: Download)
    requires d.Valid() && i < |d.blocks|
    ensures r.Valid()
  {
    d.(blocks := d.blocks[i := Free])
  }

  function AllFreed(d: Download): (r: Download)
    ensures d.Valid() ==> r.Valid()
  {
    d.(blocks := seq(|d.blocks|, _ => Free))
  }

  /** The state of the pick loop before block i: `t` is taken so far. */
  ghost predicate Picking(d: Download, count: nat, endgame: bool, prev: set<BlockInfo>, buf: seq<BlockInfo>,
      i: nat, t: seq<nat>, blocks: seq<BlockStatus>, pickBuf: seq<BlockInfo>)
    requires d.Valid()
  {
    && i <= |blocks| == |d.blocks| && |t| <= count
    && Taken(d, 0, count, endgame, prev) == t + Taken(d, i, count - |t|, endgame, prev)
    && (forall j :: 0 <= j < |t| ==> t[j] < i)
    && pickBuf == buf + Infos(d, t)
    && blocks == AfterPick(d, t).blocks
  }

  lemma PickStart(d: Download, count: nat, endgame: bool, prev: set<BlockInfo>, buf: seq<BlockInfo>)
    requires d.Valid()
    ensures Picking(d, count, endgame, prev, buf, 0, [], d.blocks, buf)
  {
  }

  lemma PickTurn(d: Download, count: nat, endgame: bool, prev: set<BlockInfo>, buf: seq<BlockInfo>,
      i: nat, t: seq<nat>, blocks: seq<BlockStatus>, pickBuf: seq<BlockInfo>)
    requires d.Valid() && Picking(d, count, endgame, prev, buf, i, t, blocks, pickBuf) && i < |blocks| && |t| < count
    ensures blocks[i] == d.blocks[i]
    ensures !d.Eligible(i, endgame, prev) ==> Picking(d, count, endgame, prev, buf, i + 1, t, blocks, pickBuf)
    ensures d.Eligible(i, endgame, prev) ==>
      Picking(d, count, endgame, prev, buf, i + 1, t + [i], if blocks[i].Free? then blocks[i := Requested] else blocks, pickBuf + [d.Block(i)])
  {
    hide Download.Block;
    if d.Eligible(i, endgame, prev) {
      assert t + Taken(d, i, count - |t|, endgame, prev) == (t + [i]) + Taken(d, i + 1, count - |t| - 1, endgame, prev);
      assert Infos(d, t + [i]) == Infos(d, t) + [d.Block(i)];
      var after := if blocks[i].Free? then blocks[i := Requested] else blocks;
      assert after == AfterPick(d, t + [i]).blocks;
    }
  }

  lemma PickEnd(d: Download, count: nat, endgame: bool, prev: set<BlockInfo>, buf: seq<BlockInfo>,
      i: nat, t: seq<nat>, blocks: seq<BlockStatus>, pickBuf: seq<BlockInfo>)
    requires d.Valid() && Picking(d, count, endgame, prev, buf, i, t, blocks, pickBuf) && (i == |blocks| || |t| == count)
    ensures t == Taken(d, 0, count, endgame, prev)
    ensures d.(blocks := blocks) == AfterPick(d, t) && pickBuf == buf + Infos(d, t)
  {
  }

  class PieceDownload {
    const index: nat
    const len: nat
    var blocks: seq<BlockStatus>

    ghost predicate Valid() reads this { |blocks| == BlockCount(len) }

    ghost function View(): Download reads this { Download(index, len, blocks) }

    constructor (index: nat, len: nat)
      ensures Valid() && View() == NewDownload(index, len)
    {
      this.index := index;
      this.len := len;
      this.blocks := seq(BlockCount(len), _ => Free);
    }

    method Pick(count: nat, buf: seq<BlockInfo>, endgame: bool, prev: set<BlockInfo>) returns (pickBuf: seq<BlockInfo>)
      requires Valid()
      modifies this`blocks
      ensures Valid()
      ensures var r := PickBlocks(old(View()), count, endgame, prev);
        View() == r.0 && pickBuf == buf + r.1
    {
      hide Taken, AfterPick, Infos;
      ghost var d := View();
      ghost var t: seq<nat> := [];
      pickBuf := buf;
      var picked: nat, i: nat := 0, 0;
      TakenFits(d, 0, count, endgame, prev);
      PickStart(d, count, endgame, prev, buf);
      while i < |blocks|
        invariant i <= |blocks| && Picking(d, count, endgame, prev, buf, i, t, blocks, pickBuf) && picked == |t|
      {
        if picked == count {
          break;
        }
        PickTurn(d, count, endgame, prev, buf, i, t, blocks, pickBuf);
        if blocks[i].Free? {
          pickBuf := pickBuf + [BlockAt(index, len, i)];
          blocks := blocks[i := Requested];
          picked := picked + 1;
          t := t + [i];
        } else if endgame && blocks[i].Requested? {
          var info := BlockAt(index, len, i);
          if info !in prev {
            pickBuf := pickBuf + [info];
            picked := picked + 1;
            t := t + [i];
          }
        }
        i := i + 1;
      }
      PickEnd(d, count, endgame, prev, buf, i, t, blocks, pickBuf);
    }

    /** Answers the status the block had before. */
    method ReceivedBlock(block: BlockInfo) returns (prev: BlockStatus)
      requires Valid() && block.IndexInPiece() < |blocks|
      modifies this`blocks
      ensures Valid() && View() == Marked(old(View()), block.IndexInPiece())
      ensures prev == old(blocks)[block.IndexInPiece()]
    {
      var i := block.IndexInPiece();
      prev := blocks[i];
      blocks := blocks[i := Received];
    }

    method FreeAllBlocks()
      requires Valid()
      modifies this`blocks
      ensures Valid() && View() == AllFreed(old(View()))
    {
      var i := 0;
      while i < |blocks|
        invariant 0 <= i <= |blocks| == old(|blocks|)
        invariant forall j :: 0 <= j < i ==> blocks[j] == Free
      {
        blocks := blocks[i := Free];
        i := i + 1;
      }
    }

    method FreeBlock(block: BlockInfo)
      requires Valid() && block.IndexInPiece() < |blocks|
      modifies this`blocks
      ensures Valid() && View() == Freed(old(View()), block.IndexInPiece())
    {
      blocks := blocks[block.IndexInPiece() := Free];
    }
  }
}
