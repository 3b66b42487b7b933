/** Which piece to download next (cratetorrent/src/piece_picker.rs). */
module PiecePicking {
  import opened Wrappers

  datatype PieceMeta = PieceMeta(frequency: nat, isPending: bool)

  datatype Picker = Picker(own: seq<bool>, pieces: seq<PieceMeta>, missing: int, free: int) {
    predicate SameShape() { |own| == |pieces| }

    predicate Missing(i: nat)
      requires i < |own|
    {
      !own[i]
    }

    /** Neither owned nor being downloaded. */
    predicate IsFree(i: nat)
      requires SameShape() && i < |own|
    {
      !own[i] && !pieces[i].isPending
    }

    predicate Pickable(i: nat)
      requires SameShape() && i < |own|
    {
      IsFree(i) && pieces[i].frequency > 0
    }

    /** The caches agree with what they count. */
    ghost predicate Valid() {
      && SameShape()
      && missing == |MissingSet(this)|
      && free == |FreeSet(this)|
    }
  }

  ghost function Zeros(own: seq<bool>): set<nat> {
    set i | 0 <= i < |own| && !own[i]
  }

  ghost function MissingSet(p: Picker): set<nat> { Zeros(p.own) }

  ghost function FreeSet(p: Picker): set<nat>
    requires p.SameShape()
  {
    set i | 0 <= i < |p.own| && p.IsFree(i)
  }

  /** Picked but not received: the pieces that are being downloaded. */
  ghost function PendingSet(p: Picker): set<nat>
    requires p.SameShape()
  {
    set i | 0 <= i < |p.own| && !p.own[i] && p.pieces[i].isPending
  }

  lemma PendingCount(p: Picker)
    requires p.Valid()
    ensures |PendingSet(p)| == p.missing - p.free
    ensures p.free >= 0 && p.missing >= p.free
  {
    assert MissingSet(p) == PendingSet(p) + FreeSet(p);
  }

  lemma CountsEmpty(p: Picker)
    requires p.Valid()
    ensures p.missing > 0 <==> MissingSet(p) != {}
    ensures p.free == 0 <==> FreeSet(p) == {}
  {
  }

  function CountZeros(own: seq<bool>): nat {
    if own == [] then 0 else CountZeros(own[..|own| - 1]) + if own[|own| - 1] then 0 else 1
  }

  lemma ZerosSnoc(own: seq<bool>, b: bool)
    ensures Zeros(own + [b]) == Zeros(own) + if b then {} else {|own|}
  {
  }

  lemma {:induction false} ZerosAreMissing(own: seq<bool>)
    ensures CountZeros(own) == |Zeros(own)|
  {
    hide Zeros;
    if own == [] {
      NoZeros();
    } else {
      var n := |own| - 1;
      ZerosAreMissing(own[..n]);
      assert own == own[..n] + [own[n]];
      ZerosSnoc(own[..n], own[n]);
      ZerosBelow(own[..n]);
    }
  }

  lemma NoZeros()
    ensures Zeros([]) == {}
  {
  }

  lemma ZerosBelow(own: seq<bool>)
    ensures |own| !in Zeros(own)
  {
  }

  function NewPicker(own: seq<bool>): Picker {
    Picker(own, seq(|own|, _ => PieceMeta(0, false)), CountZeros(own), CountZeros(own))
  }

  lemma NewValid(own: seq<bool>)
    ensures NewPicker(own).Valid() && PendingSet(NewPicker(own)) == {}
  {
    var p := NewPicker(own);
    ZerosAreMissing(own);
    assert FreeSet(p) == MissingSet(p);
  }

  /** The first piece from k on that can be picked. */
  function FirstPickable(p: Picker, k: nat): (r: Option<nat>)
    requires p.SameShape()
    ensures r.Some? ==> k <= r.value < |p.own| && p.Pickable(r.value)
    ensures forall i {:trigger p.Pickable(i)} :: k <= i < (if r.Some? then r.value else |p.own|) ==> !p.Pickable(i)
    decreases |p.own| - k
  {
    if k >= |p.own| then None
    else if p.Pickable(k) then Some(k)
    else FirstPickable(p, k + 1)
  }

  function Pick(p: Picker, i: nat): (r: Picker)
    requires p.SameShape() && i < |p.own|
    ensures r.SameShape() && r.own == p.own
  {
    p.(pieces := p.pieces[i := p.pieces[i].(isPending := true)], free := p.free - 1)
  }

  lemma PickKeeps(p: Picker, i: nat)
    requires p.Valid() && i < |p.own| && p.IsFree(i)
    ensures Pick(p, i).Valid() && p.free > 0 && Pick(p, i).free == p.free - 1
    ensures PendingSet(Pick(p, i)) == PendingSet(p) + {i} && i !in PendingSet(p)
  {
    var r := Pick(p, i);
    assert MissingSet(r) == MissingSet(p);
    assert i in FreeSet(p);
    assert FreeSet(r) == FreeSet(p) - {i};
  }

  /** The peer's availability counted in; only frequencies change. */
  function Register(p: Picker, bits: seq<bool>): (r: Picker)
    requires p.SameShape() && |bits| == |p.own|
    ensures r.SameShape() && r.own == p.own && r.missing == p.missing && r.free == p.free
    ensures forall i {:trigger r.pieces[i]} :: 0 <= i < |p.own| ==>
      r.pieces[i] == PieceMeta(p.pieces[i].frequency + (if bits[i] then 1 else 0), p.pieces[i].isPending)
  {
    p.(pieces := seq(|p.pieces|, i requires 0 <= i < |p.pieces| =>
      PieceMeta(p.pieces[i].frequency + (if bits[i] then 1 else 0), p.pieces[i].isPending)))
  }

  lemma RegisterKeeps(p: Picker, bits: seq<bool>)
    requires p.Valid() && |bits| == |p.own|
    ensures Register(p, bits).Valid() && PendingSet(Register(p, bits)) == PendingSet(p)
  {
    var r := Register(p, bits);
    assert MissingSet(r) == MissingSet(p);
    assert FreeSet(r) == FreeSet(p);
  }

  /** The peer has some piece that is still missing here. */
  predicate Interesting(p: Picker, bits: seq<bool>)
    requires |bits| == |p.own|
  {
    exists i :: 0 <= i < |bits| && bits[i] && p.Missing(i)
  }

  function OnlyBit(n: nat, i: nat): (r: seq<bool>)
    ensures |r| == n
  {
    seq(n, k => k == i)
  }

  function Owned(p: Picker, i: nat): (r: Picker)
    requires p.SameShape() && i < |p.own|
    ensures r.SameShape()
  {
    Picker(p.own[i := true], p.pieces, p.missing - 1, if p.pieces[i].isPending then p.free else p.free - 1)
  }

  lemma ReceivedKeeps(p: Picker, i: nat)
    requires p.Valid() && i < |p.own| && p.Missing(i)
    ensures Owned(p, i).Valid() && p.missing > 0
    ensures Owned(p, i).free == p.free - (if p.IsFree(i) then 1 else 0)
    ensures PendingSet(Owned(p, i)) == PendingSet(p) - {i}
  {
    var r := Owned(p, i);
    assert i in MissingSet(p) && MissingSet(r) == MissingSet(p) - {i};
    assert FreeSet(r) == FreeSet(p) - {i};
  }

  /** Some peer has it, it is missing, and nobody has picked it. */
  predicate CanPick(own: seq<bool>, pieces: seq<PieceMeta>, k: nat) {
    k < |own| && k < |pieces| && pieces[k].frequency > 0 && !own[k] && !pieces[k].isPending
  }

  class PiecePicker {
    var ownPieces: seq<bool>
    var pieces: seq<PieceMeta>
    var missingCount: int
    var freeCount: int

    ghost function View(): Picker reads this { Picker(ownPieces, pieces, missingCount, freeCount) }

    ghost predicate Valid() reads this { View().Valid() }

    constructor (own: seq<bool>)
      ensures Valid() && View() == NewPicker(own)
    {
      ownPieces := own;
      pieces := seq(|own|, _ => PieceMeta(0, false));
      missingCount := CountZeros(own);
      freeCount := CountZeros(own);
      new;
      NewValid(own);
    }

    /** Every piece is owned or being downloaded. */
    predicate AllPiecesPicked()
      requires Valid()
      reads this
      ensures AllPiecesPicked() <==> FreeSet(View()) == {}
    {
      freeCount == 0
    }

    method PickPiece() returns (index: Option<nat>)
      requires Valid()
      modifies this`pieces, this`freeCount
      ensures Valid()
      ensures index == FirstPickable(old(View()), 0)
      ensures index.Some? ==> index.value < |ownPieces| && CanPick(ownPieces, old(pieces), index.value)
      ensures forall k :: 0 <= k < (if index.Some? then index.value else |ownPieces|) ==> !CanPick(ownPieces, old(pieces), k)
      ensures View() == if index.Some? then Pick(old(View()), index.value) else old(View())
      ensures ownPieces == old(ownPieces)
      ensures pieces == if index.Some? then old(pieces)[index.value := PieceMeta(old(pieces)[index.value].frequency, true)] else old(pieces)
    {
      var i := 0;
      while i < |ownPieces|
        invariant 0 <= i <= |ownPieces|
        invariant View() == old(View()) && FirstPickable(View(), 0) == FirstPickable(View(), i)
        invariant forall k :: 0 <= k < i ==> !CanPick(ownPieces, pieces, k)
      {
        if !ownPieces[i] && pieces[i].frequency > 0 && !pieces[i].isPending {
          PickKeeps(View(), i);
          pieces := pieces[i := pieces[i].(isPending := true)];
          freeCount := freeCount - 1;
          return Some(i);
        }
        i := i + 1;
      }
      return None;
    }

    /** Answers whether the peer is interesting; a bitfield of another length is a panic. */
    method RegisterPeerPieces(bits: seq<bool>) returns (interested: bool)
      requires Valid() && |bits| == |ownPieces|
      modifies this`pieces
      ensures Valid() && View() == Register(old(View()), bits)
      ensures interested == Interesting(old(View()), bits) == exists i :: 0 <= i < |bits| && bits[i] && !ownPieces[i]
    {
      interested := false;
      RegisterKeeps(View(), bits);
      var i := 0;
      while i < |ownPieces|
        invariant 0 <= i <= |ownPieces| == |pieces| == old(|pieces|)
        invariant interested <==> exists k :: 0 <= k < i && bits[k] && old(View()).Missing(k)
        invariant forall k :: 0 <= k < |pieces| ==>
          pieces[k] == if k < i then Register(old(View()), bits).pieces[k] else old(pieces)[k]
      {
        if bits[i] {
          pieces := pieces[i := pieces[i].(frequency := pieces[i].frequency + 1)];
          if !ownPieces[i] {
            assert old(View()).Missing(i);
            interested := true;
          }
        }
        i := i + 1;
      }
      assert pieces == Register(old(View()), bits).pieces;
      assert interested <==> exists k :: 0 <= k < |bits| && bits[k] && old(View()).Missing(k);
    }

    /** Answers whether the piece is owned here, although its callers take the answer for interest. */
    method RegisterPeerPiece(index: nat) returns (owned: bool)
      requires Valid() && index < |ownPieces|
      modifies this`pieces
      ensures Valid() && View() == Register(old(View()), OnlyBit(|ownPieces|, index))
      ensures ownPieces == old(ownPieces) && pieces == old(pieces)[index := PieceMeta(old(pieces)[index].frequency + 1, old(pieces)[index].isPending)]
      ensures owned == ownPieces[index] == !Interesting(old(View()), OnlyBit(|ownPieces|, index))
    {
      RegisterKeeps(View(), OnlyBit(|ownPieces|, index));
      owned := ownPieces[index];
      pieces := pieces[index := pieces[index].(frequency := pieces[index].frequency + 1)];
      assert pieces == Register(old(View()), OnlyBit(|ownPieces|, index)).pieces;
      assert !owned ==> OnlyBit(|ownPieces|, index)[index] && old(View()).Missing(index);
    }

    /** A piece owned already is a panic. */
    method ReceivedPiece(index: nat)
      requires Valid() && index < |ownPieces| && !ownPieces[index]
      modifies this
      ensures Valid() && View() == Owned(old(View()), index)
      ensures ownPieces == old(ownPieces)[index := true] && pieces == old(pieces)
    {
      ReceivedKeeps(View(), index);
      ownPieces := ownPieces[index := true];
      missingCount := missingCount - 1;
      if !pieces[index].isPending {
        freeCount := freeCount - 1;
        pieces := pieces[index := pieces[index].(isPending := false)];
      }
      assert pieces == old(pieces);
    }
  }
}
