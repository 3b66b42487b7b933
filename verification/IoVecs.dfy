/** Bounding, advancing and restoring a list of IO buffers in place (cratetorrent/src/iovecs.rs).
    A buffer is the byte string its slice points to. The list of buffers is an array shared with
    the caller and changed in place, of which an `IoVecs` sees a suffix. */
module IoVecs {
  import opened Wrappers

  /** `pos` is the last buffer of the first half; `second` is what the bound cut off that buffer. */
  datatype Split = Split(pos: nat, second: Option<seq<byte>>)

  datatype Vecs = Vecs(bufs: seq<seq<byte>>, split: Option<Split>) {
    predicate Valid() {
      split.Some? ==>
        && split.value.pos < |bufs|
        && (split.value.pos > 0 ==> bufs[split.value.pos] != [])
    }

    /** The buffers of the first half. */
    function AsSlice(): seq<seq<byte>>
      requires Valid()
    {
      if split.None? then bufs
      else if split.value.pos == 0 && bufs[0] == [] then []
      else bufs[..split.value.pos + 1]
    }

    /** The bytes still to be transferred. */
    function Front(): seq<byte>
      requires Valid()
    {
      Flatten(AsSlice())
    }

    /** The bytes past the bound. */
    function Rest(): seq<byte>
      requires Valid()
    {
      if split.None? then []
      else (match split.value.second case None => [] case Some(b) => b) + Flatten(bufs[split.value.pos + 1..])
    }

    /** Advancing is legal up to the end of the first half, and any distance when there is no split. */
    predicate Legal(n: nat)
    {
      Valid() && (split.Some? ==> n <= |Front()|)
    }
  }

  /** The buffer at which the accumulated length reaches `n`, and how many of its bytes that takes. */
  function SplitPoint(bufs: seq<seq<byte>>, n: nat): (r: (nat, nat))
    ensures r.0 <= |bufs|
    ensures r.0 < |bufs| ==> r.1 <= |bufs[r.0]|
    ensures r.0 < |bufs| && n > 0 ==> r.1 > 0
  {
    if bufs == [] then (0, n)
    else if |bufs[0]| >= n then (0, n)
    else
      var r := SplitPoint(bufs[1..], n - |bufs[0]|);
      (r.0 + 1, r.1)
  }

  /** How many whole buffers fit in the first `n` bytes, and how many bytes are left over. */
  function TakePoint(bufs: seq<seq<byte>>, n: nat): (r: (nat, nat))
    ensures r.0 <= |bufs|
    ensures r.0 < |bufs| ==> r.1 < |bufs[r.0]|
  {
    if bufs == [] then (0, n)
    else if |bufs[0]| > n then (0, n)
    else
      var r := TakePoint(bufs[1..], n - |bufs[0]|);
      (r.0 + 1, r.1)
  }

  /** The byte string on both sides of a cut inside buffer k. */
  lemma {:induction false} CutAt(bufs: seq<seq<byte>>, k: nat, m: nat, before: seq<seq<byte>>, after: seq<seq<byte>>)
    requires k < |bufs| && m <= |bufs[k]|
    requires before == bufs[..k] + [bufs[k][..m]] && after == [bufs[k][m..]] + bufs[k + 1..]
    ensures Flatten(bufs) == Flatten(before) + Flatten(after)
    ensures Flatten(after) == bufs[k][m..] + Flatten(bufs[k + 1..])
    ensures |Flatten(before)| == |Flatten(bufs[..k])| + m
  {
    FlattenSplit(bufs, k);
    assert bufs[k..][1..] == bufs[k + 1..];
    FlattenSnoc(bufs[..k], bufs[k][..m]);
    assert after[1..] == bufs[k + 1..];
  }

  lemma {:induction false} SplitPointMeaning(bufs: seq<seq<byte>>, n: nat)
    ensures var (k, m) := SplitPoint(bufs, n);
      if k < |bufs| then |Flatten(bufs[..k])| + m == n else |Flatten(bufs)| < n || bufs == []
  {
    if bufs != [] && |bufs[0]| < n {
      SplitPointMeaning(bufs[1..], n - |bufs[0]|);
      var k := SplitPoint(bufs, n).0;
      assert bufs[..k][1..] == bufs[1..][..k - 1];
    }
  }

  lemma {:induction false} TakePointMeaning(bufs: seq<seq<byte>>, n: nat)
    ensures var (k, m) := TakePoint(bufs, n); |Flatten(bufs[..k])| + m == n
  {
    var k := TakePoint(bufs, n).0;
    if k > 0 {
      TakePointMeaning(bufs[1..], n - |bufs[0]|);
      assert bufs[..k][1..] == bufs[1..][..k - 1];
    }
  }

  /** `IoVecs::bounded` on values. */
  function BoundedView(bufs: seq<seq<byte>>, maxLen: nat): Vecs {
    var (pos, cut) := SplitPoint(bufs, maxLen);
    if pos == |bufs| then Vecs(bufs, None)
    else if cut == |bufs[pos]| then
      if pos + 1 == |bufs| then Vecs(bufs, None) else Vecs(bufs, Some(Split(pos, None)))
    else Vecs(bufs[pos := bufs[pos][..cut]], Some(Split(pos, Some(bufs[pos][cut..]))))
  }

  lemma Halves(all: seq<byte>, a: seq<byte>, b: seq<byte>, n: nat)
    requires all == a + b && |a| == n
    ensures n <= |all| && a == all[..n] && b == all[n..]
  {
  }

  lemma BoundedShape(bufs: seq<seq<byte>>, pos: nat, cut: nat, v: Vecs, before: seq<seq<byte>>)
    requires pos < |bufs| && 0 < cut <= |bufs[pos]| && before == bufs[..pos] + [bufs[pos][..cut]]
    requires v == Vecs(if cut == |bufs[pos]| then bufs else bufs[pos := bufs[pos][..cut]],
                       Some(Split(pos, if cut == |bufs[pos]| then None else Some(bufs[pos][cut..]))))
    ensures v.Valid() && v.AsSlice() == before
    ensures v.Rest() == bufs[pos][cut..] + Flatten(bufs[pos + 1..])
  {
    if cut == |bufs[pos]| { assert bufs[pos][..cut] == bufs[pos]; }
    assert v.bufs[..pos + 1] == before;
    assert v.bufs[pos + 1..] == bufs[pos + 1..];
  }

  lemma BoundedSplit(bufs: seq<seq<byte>>, maxLen: nat)
    requires maxLen > 0 && BoundedView(bufs, maxLen).split.Some?
    ensures var v := BoundedView(bufs, maxLen);
      && v.Valid() && maxLen <= |Flatten(bufs)|
      && v.Front() == Flatten(bufs)[..maxLen]
      && v.Rest() == Flatten(bufs)[maxLen..]
  {
    SplitPointMeaning(bufs, maxLen);
    var (pos, cut) := SplitPoint(bufs, maxLen);
    var before, after := bufs[..pos] + [bufs[pos][..cut]], [bufs[pos][cut..]] + bufs[pos + 1..];
    CutAt(bufs, pos, cut, before, after);
    Halves(Flatten(bufs), Flatten(before), Flatten(after), maxLen);
    BoundedShape(bufs, pos, cut, BoundedView(bufs, maxLen), before);
  }

  lemma BoundedUnsplit(bufs: seq<seq<byte>>, maxLen: nat)
    requires maxLen > 0 && BoundedView(bufs, maxLen).split.None?
    ensures BoundedView(bufs, maxLen) == Vecs(bufs, None) && |Flatten(bufs)| <= maxLen
  {
    SplitPointMeaning(bufs, maxLen);
    var pos := SplitPoint(bufs, maxLen).0;
    if pos < |bufs| {
      assert bufs == bufs[..pos] + [bufs[pos]];
      FlattenSnoc(bufs[..pos], bufs[pos]);
    }
  }

  /** Bounding keeps the first `maxLen` bytes in front and the others aside, losing none. */
  lemma BoundedMeaning(bufs: seq<seq<byte>>, maxLen: nat)
    requires maxLen > 0
    ensures var v := BoundedView(bufs, maxLen); var n := Min(maxLen, |Flatten(bufs)|);
      && v.Valid()
      && v.Front() == Flatten(bufs)[..n]
      && v.Rest() == Flatten(bufs)[n..]
  {
    if BoundedView(bufs, maxLen).split.Some? {
      BoundedSplit(bufs, maxLen);
    } else {
      BoundedUnsplit(bufs, maxLen);
    }
  }

  /** No buffer but the one at the bound is changed. */
  lemma BoundedKeepsOthers(bufs: seq<seq<byte>>, maxLen: nat)
    ensures |BoundedView(bufs, maxLen).bufs| == |bufs|
    ensures forall k :: 0 <= k < |bufs| && k != SplitPoint(bufs, maxLen).0 ==> BoundedView(bufs, maxLen).bufs[k] == bufs[k]
  {
  }

  /** The whole buffers an advance removes and the bytes it takes off the next one. The buffer at
      the split is always kept. */
  function AdvancePoint(v: Vecs, n: nat): (r: (nat, nat))
    requires v.Valid()
    ensures r.0 <= |v.bufs|
    ensures r.0 < |v.bufs| && r.0 < |v.AsSlice()| ==> r.1 <= |v.bufs[r.0]|
    ensures v.split.Some? ==> r.0 <= v.split.value.pos
    ensures v.split.Some? && v.AsSlice() == [] ==> r == (0, n)
  {
    var (k, m) := TakePoint(v.AsSlice(), n);
    if v.split.Some? && k == v.split.value.pos + 1 then (k - 1, |v.bufs[k - 1]|) else (k, m)
  }

  /** `IoVecs::advance` on values. */
  function AdvanceView(v: Vecs, n: nat): Vecs
    requires v.Legal(n)
  {
    var (k, m) := AdvancePoint(v, n);
    var bufs := v.bufs[k..];
    Vecs(if k < |v.AsSlice()| then bufs[0 := bufs[0][m..]] else bufs,
         if v.split.Some? then Some(v.split.value.(pos := v.split.value.pos - k)) else None)
  }

  lemma AdvancePointMeaning(v: Vecs, n: nat)
    requires v.Legal(n)
    ensures var (k, m) := AdvancePoint(v, n);
      && (k < |v.AsSlice()| ==> |Flatten(v.AsSlice()[..k])| + m == n)
      && (k >= |v.AsSlice()| ==> |v.Front()| <= n)
  {
    var s := v.AsSlice();
    TakePointMeaning(s, n);
    var (k, m) := TakePoint(s, n);
    if k == |s| {
      assert s[..k] == s;
      if v.split.Some? && k > 0 {
        assert s == s[..k - 1] + [s[k - 1]];
        FlattenSnoc(s[..k - 1], s[k - 1]);
      }
    }
  }

  /** Where the count of whole buffers ends, by how far the advance goes. */
  lemma PastEnd(v: Vecs, n: nat)
    requires v.Valid()
    ensures v.split.None? ==> v.Legal(n)
    ensures v.split.Some? && v.AsSlice() != [] ==> |v.AsSlice()| == v.split.value.pos + 1 && v.AsSlice()[v.split.value.pos] == v.bufs[v.split.value.pos]
    ensures v.split.Some? && v.AsSlice() != [] && TakePoint(v.AsSlice(), n).0 == v.split.value.pos + 1 ==>
      (v.Legal(n) <==> TakePoint(v.AsSlice(), n).1 == 0)
    ensures v.split.Some? && v.AsSlice() != [] && TakePoint(v.AsSlice(), n).0 != v.split.value.pos + 1 ==> v.Legal(n)
    ensures v.split.Some? && v.AsSlice() == [] ==>
      v.bufs != [] && v.bufs[0] == [] && v.split.value.pos == 0 && TakePoint(v.AsSlice(), n) == (0, n) && (v.Legal(n) <==> n == 0)
  {
    var s := v.AsSlice();
    var (k, m) := TakePoint(s, n);
    TakePointMeaning(s, n);
    if k < |s| {
      FlattenSplit(s, k);
      assert s[k..][0] == s[k];
    } else {
      assert s[..k] == s;
    }
  }

  lemma TrimFits(v: Vecs, n: nat, removeCount: nat, m: nat)
    requires v.Valid()
    requires if v.Legal(n) then (removeCount, m) == AdvancePoint(v, n) else removeCount == 0 && v.bufs != []
    ensures removeCount <= |v.bufs|
    ensures v.Legal(n) && removeCount < |v.bufs| && m > 0 ==> removeCount < |v.AsSlice()| && m <= |v.bufs[removeCount]|
    ensures v.Legal(n) && v.split.Some? ==> removeCount <= v.split.value.pos
  {
    if v.Legal(n) && removeCount < |v.bufs| && m > 0 && removeCount >= |v.AsSlice()| { AdvancePointMeaning(v, n); }
  }

  /** What the trimmed buffers are. */
  lemma AdvancedTo(v: Vecs, n: nat, removeCount: nat, m: nat, w: Vecs)
    requires v.Legal(n) && (removeCount, m) == AdvancePoint(v, n)
    requires w.split == if v.split.Some? then Some(v.split.value.(pos := if removeCount >= v.split.value.pos then 0 else v.split.value.pos - removeCount)) else None
    requires removeCount < |v.bufs| && m > 0 ==> m <= |v.bufs[removeCount]|
    requires w.bufs == if removeCount < |v.bufs| && m > 0 then v.bufs[removeCount..][0 := v.bufs[removeCount][m..]] else v.bufs[removeCount..]
    ensures w.Valid() && w == AdvanceView(v, n)
  {
    hide TakePoint, Vecs.Front;
    AdvanceMeaning(v, n);
    TrimFits(v, n, removeCount, m);
    if removeCount < |v.AsSlice()| && m == 0 { assert v.bufs[removeCount][0..] == v.bufs[removeCount]; }
  }

  /** The shape of the buffers after an advance that keeps buffer k of the first half. */
  lemma AdvanceShape(v: Vecs, n: nat, k: nat, m: nat, after: seq<seq<byte>>)
    requires v.Legal(n) && (k, m) == AdvancePoint(v, n) && k < |v.AsSlice()|
    requires after == [v.AsSlice()[k][m..]] + v.AsSlice()[k + 1..]
    ensures var w := AdvanceView(v, n);
      w.Valid() && (w.AsSlice() == after || (w.AsSlice() == [] && after == [[]]))
  {
    hide TakePoint, AdvancePoint, Vecs.Front;
    var w := AdvanceView(v, n);
    assert w.bufs == [v.bufs[k][m..]] + v.bufs[k + 1..];
    if v.split.Some? {
      var pos := v.split.value.pos;
      var past := v.bufs[k + 1..];
      assert past[..pos - k] == v.AsSlice()[k + 1..];
      assert w.split.value.pos > 0 ==> w.bufs[pos - k] == v.bufs[pos];
      assert w.bufs[..pos - k + 1] == [v.bufs[k][m..]] + past[..pos - k];
    }
  }

  lemma AdvanceFront(v: Vecs, n: nat)
    requires v.Legal(n)
    ensures var w := AdvanceView(v, n);
      w.Valid() && w.Front() == v.Front()[Min(n, |v.Front()|)..]
  {
    AdvancePointMeaning(v, n);
    var s := v.AsSlice();
    var (k, m) := AdvancePoint(v, n);
    if k < |s| {
      var before, after := s[..k] + [s[k][..m]], [s[k][m..]] + s[k + 1..];
      CutAt(s, k, m, before, after);
      Halves(Flatten(s), Flatten(before), Flatten(after), n);
      AdvanceShape(v, n, k, m, after);
      if after == [[]] { assert after[1..] == []; }
    }
  }

  /** What an advance does not touch: the part cut off the buffer at the split, and the buffers past it. */
  function Kept(v: Vecs): Option<(Option<seq<byte>>, seq<seq<byte>>)> {
    if v.split.None? || v.split.value.pos >= |v.bufs| then None
    else Some((v.split.value.second, v.bufs[v.split.value.pos + 1..]))
  }

  /** Advancing drops exactly `n` bytes of the front and leaves what is past the bound alone. */
  lemma AdvanceMeaning(v: Vecs, n: nat)
    requires v.Legal(n)
    ensures var w := AdvanceView(v, n);
      && w.Valid()
      && w.Front() == v.Front()[Min(n, |v.Front()|)..]
      && w.Rest() == v.Rest()
      && w.split.Some? == v.split.Some?
      && (v.split.Some? ==> w.split.value.second == v.split.value.second)
      && Kept(w) == Kept(v)
  {
    AdvanceFront(v, n);
    var w := AdvanceView(v, n);
    if v.split.Some? {
      assert w.bufs[w.split.value.pos + 1..] == v.bufs[v.split.value.pos + 1..];
    }
  }

  /** In a split, a first half with buffers left has bytes left. */
  lemma SplitHasBytes(v: Vecs)
    requires v.Valid() && v.split.Some? && v.AsSlice() != []
    ensures v.Front() != []
  {
    if v.Front() == [] { AllEmpty(v.AsSlice()); }
  }

  /** Every advance makes progress: bytes are used up or the empty buffers are dropped. */
  lemma AdvanceProgress(v: Vecs, n: nat)
    requires v.Legal(n) && v.AsSlice() != [] && (n > 0 || v.Front() == [])
    ensures var w := AdvanceView(v, n);
      w.Valid() && (|w.Front()| < |v.Front()| || (w.Front() == v.Front() && w.AsSlice() == []))
  {
    AdvanceMeaning(v, n);
    if v.split.Some? { SplitHasBytes(v); }
    if v.Front() == [] {
      AllEmpty(v.bufs);
      TakeAll(v.bufs, n);
    }
  }

  lemma {:induction false} AllEmpty(s: seq<seq<byte>>)
    requires Flatten(s) == []
    ensures forall k :: 0 <= k < |s| ==> s[k] == []
  {
    if s != [] { AllEmpty(s[1..]); }
  }

  lemma {:induction false} TakeAll(s: seq<seq<byte>>, n: nat)
    requires forall k :: 0 <= k < |s| ==> s[k] == []
    ensures TakePoint(s, n).0 == |s|
  {
    if s != [] { TakeAll(s[1..], n); }
  }

  /** `IoVecs::into_tail` on values: the buffers handed back. */
  function TailView(v: Vecs): seq<seq<byte>>
    requires v.Valid()
  {
    if v.split.None? then []
    else
      var pos := v.split.value.pos;
      match v.split.value.second
      case Some(b) => [b] + v.bufs[pos + 1..]
      case None => v.bufs[pos..]
  }

  /** The buffers handed back when the first half of a slice of `n` bytes is used up: an empty one in
      front when the slice ends between two buffers. */
  function TailOnceUsed(bufs: seq<seq<byte>>, n: nat): seq<seq<byte>> {
    match Kept(BoundedView(bufs, n))
    case None => []
    case Some((second, past)) => [if second.Some? then second.value else []] + past
  }

  lemma UsedUpTail(bufs: seq<seq<byte>>, n: nat, v: Vecs)
    requires n > 0 && v.Valid() && v.AsSlice() == [] && Kept(v) == Kept(BoundedView(bufs, n))
    ensures TailView(v) == TailOnceUsed(bufs, n)
  {
    if v.split.Some? {
      assert v.split.value.pos == 0 && v.bufs[0] == [];
      assert v.bufs == [v.bufs[0]] + v.bufs[1..];
    }
  }

  /** The tail holds exactly the bytes past the bound, unless the split is on a buffer boundary and
      the first half is not used up: then the last buffer of the first half comes back in front. */
  lemma TailMeaning(v: Vecs)
    requires v.Valid()
    ensures Flatten(TailView(v)) == v.Rest()
      <==> (v.split.None? || v.split.value.second.Some? || v.Front() == [])
    ensures v.split.Some? && v.split.value.second.None? ==>
      Flatten(TailView(v)) == v.bufs[v.split.value.pos] + v.Rest()
  {
    if v.split.Some? {
      var pos := v.split.value.pos;
      if v.split.value.second.Some? {
        assert TailView(v)[1..] == v.bufs[pos + 1..];
      } else {
        assert TailView(v)[1..] == v.bufs[pos + 1..];
        if v.AsSlice() != [] { SplitHasBytes(v); }
      }
    }
  }

  /** Over any sequence of legal advances after bounding, the front is the original bytes from the
      consumed count up to the bound, and the bytes past the bound never change. */
  ghost predicate LegalRun(v: Vecs, steps: seq<nat>)
    decreases |steps|
  {
    steps == [] || (v.Legal(steps[0]) && LegalRun(AdvanceView(v, steps[0]), steps[1..]))
  }

  ghost function Run(v: Vecs, steps: seq<nat>): Vecs
    requires LegalRun(v, steps)
    decreases |steps|
  {
    if steps == [] then v else Run(AdvanceView(v, steps[0]), steps[1..])
  }

  function Sum(s: seq<nat>): nat {
    if s == [] then 0 else s[0] + Sum(s[1..])
  }

  lemma DropTwice<T>(s: seq<T>, a: nat, b: nat)
    ensures var r := s[Min(a, |s|)..]; r[Min(b, |r|)..] == s[Min(a + b, |s|)..]
  {
  }

  lemma RunTurn(v: Vecs, steps: seq<nat>)
    requires LegalRun(v, steps)
    ensures steps == [] ==> Run(v, steps) == v && Sum(steps) == 0
    ensures steps != [] ==> v.Legal(steps[0]) && LegalRun(AdvanceView(v, steps[0]), steps[1..])
    ensures steps != [] ==> Run(v, steps) == Run(AdvanceView(v, steps[0]), steps[1..]) && Sum(steps) == steps[0] + Sum(steps[1..])
  {
    hide Vecs.Valid, Vecs.Front, Vecs.Rest, Vecs.Legal, AdvanceView;
  }

  lemma {:induction false} RunMeaning(v: Vecs, steps: seq<nat>)
    requires v.Valid() && LegalRun(v, steps)
    ensures Run(v, steps).Valid()
    ensures Run(v, steps).Front() == v.Front()[Min(Sum(steps), |v.Front()|)..]
    ensures Run(v, steps).Rest() == v.Rest()
    ensures Run(v, steps).split.Some? == v.split.Some?
    ensures v.split.Some? ==> (Run(v, steps).split.value.second == v.split.value.second)
    decreases |steps|
  {
    hide Vecs.Valid, Vecs.Front, Vecs.Rest, Vecs.Legal, AdvanceView, Run, LegalRun, Sum;
    RunTurn(v, steps);
    if steps != [] {
      AdvanceMeaning(v, steps[0]);
      RunMeaning(AdvanceView(v, steps[0]), steps[1..]);
      DropTwice(v.Front(), steps[0], Sum(steps[1..]));
    }
  }

  /** The refinement in one statement: for any buffers, any positive bound and any legal advances. */
  lemma RefinesByteString(bufs: seq<seq<byte>>, maxLen: nat, steps: seq<nat>)
    requires maxLen > 0 && LegalRun(BoundedView(bufs, maxLen), steps)
    ensures
      var all := Flatten(bufs);
      var bound := Min(maxLen, |all|);
      var start := BoundedView(bufs, maxLen);
      var v := Run(start, steps);
      && v.Valid()
      && v.Front() == all[Min(Sum(steps), bound)..bound]
      && v.Rest() == all[bound..]
      && (Flatten(TailView(v)) == all[bound..]
          <==> start.split.None? || start.split.value.second.Some? || Sum(steps) >= bound)
  {
    BoundedMeaning(bufs, maxLen);
    RunMeaning(BoundedView(bufs, maxLen), steps);
    TailMeaning(Run(BoundedView(bufs, maxLen), steps));
  }

  /** The counting loop of both advances: whole buffers within the first `n` bytes, and their length. */
  method CountWhole(bufs: seq<seq<byte>>, n: nat) returns (count: nat, len: nat)
    ensures len <= n && (count, n - len) == TakePoint(bufs, n)
  {
    hide TakePoint;
    count, len := 0, 0;
    assert bufs[0..] == bufs;
    while count < |bufs| && len + |bufs[count]| <= n
      invariant count <= |bufs| && len <= n
      invariant TakePoint(bufs, n) == (count + TakePoint(bufs[count..], n - len).0, TakePoint(bufs[count..], n - len).1)
    {
      TakeTurn(bufs, count, n - len);
      len := len + |bufs[count]|;
      count := count + 1;
    }
    TakeEnd(bufs[count..], n - len);
  }

  lemma TakeTurn(bufs: seq<seq<byte>>, k: nat, m: nat)
    requires k < |bufs| && |bufs[k]| <= m
    ensures TakePoint(bufs[k..], m) == (TakePoint(bufs[k + 1..], m - |bufs[k]|).0 + 1, TakePoint(bufs[k + 1..], m - |bufs[k]|).1)
  {
    assert bufs[k..][1..] == bufs[k + 1..];
  }

  lemma TakeEnd(bufs: seq<seq<byte>>, m: nat)
    requires bufs == [] || |bufs[0]| > m
    ensures TakePoint(bufs, m) == (0, m)
  {
  }

  /** The search of `bounded`: the buffer holding the last byte of the bound, and where in it that is. */
  method FindSplit(bufs: seq<seq<byte>>, maxLen: nat) returns (pos: nat, bufSplitPos: nat)
    requires maxLen > 0
    ensures pos == SplitPoint(bufs, maxLen).0
    ensures pos < |bufs| ==> bufSplitPos == SplitPoint(bufs, maxLen).1
  {
    var bufsLen := 0;
    pos, bufSplitPos := 0, 0;
    while pos < |bufs| && bufsLen + |bufs[pos]| < maxLen
      invariant pos <= |bufs| && bufsLen < maxLen
      invariant SplitPoint(bufs, maxLen) == (pos + SplitPoint(bufs[pos..], maxLen - bufsLen).0, SplitPoint(bufs[pos..], maxLen - bufsLen).1)
    {
      assert bufs[pos..][1..] == bufs[pos + 1..];
      bufsLen := bufsLen + |bufs[pos]|;
      pos := pos + 1;
    }
    if pos < |bufs| {
      bufSplitPos := maxLen - bufsLen;
    }
  }

  /** A mutable buffer of a vectored read: a stretch of the memory being filled. */
  datatype Window = Window(off: nat, len: nat)

  /** The windows cover the stretch `a..b` of memory, in order. */
  predicate Consecutive(ws: seq<Window>, a: nat, b: nat) {
    if ws == [] then a == b
    else ws[0].off == a && ws[0].len > 0 && a + ws[0].len <= b && Consecutive(ws[1..], a + ws[0].len, b)
  }

  function TakeWindows(ws: seq<Window>, n: nat): (r: (nat, nat))
    ensures r.0 <= |ws| && r.1 <= n
    ensures r.0 < |ws| ==> r.1 < ws[r.0].len
  {
    if ws == [] || ws[0].len > n then (0, n)
    else
      var r := TakeWindows(ws[1..], n - ws[0].len);
      (r.0 + 1, r.1)
  }

  lemma {:induction false} TakeWindowsMeaning(ws: seq<Window>, a: nat, b: nat, n: nat)
    requires Consecutive(ws, a, b) && n <= b - a
    ensures var (k, m) := TakeWindows(ws, n);
      if k < |ws| then Consecutive([Window(ws[k].off + m, ws[k].len - m)] + ws[k + 1..], a + n, b)
      else n == b - a
  {
    if ws != [] {
      if ws[0].len <= n {
        TakeWindowsMeaning(ws[1..], a + ws[0].len, b, n - ws[0].len);
        var k := TakeWindows(ws[1..], n - ws[0].len).0;
        assert k < |ws| - 1 ==> ws[1..][k + 1..] == ws[k + 2..];
      } else {
        var rest := [Window(ws[0].off + n, ws[0].len - n)] + ws[1..];
        assert rest[1..] == ws[1..];
      }
    }
  }

  lemma {:induction false} ConsecutiveOrder(ws: seq<Window>, a: nat, b: nat)
    requires Consecutive(ws, a, b)
    ensures a <= b && (ws == [] <==> a == b)
  {
    if ws != [] { ConsecutiveOrder(ws[1..], a + ws[0].len, b); }
  }

  lemma ConsecutiveFirst(ws: seq<Window>, a: nat, b: nat)
    requires Consecutive(ws, a, b) && ws != []
    ensures ws[0].off == a
  {
  }

  /** The free function `advance`: the windows left after `n` bytes, changed in place. */
  method AdvanceWindows(ws: array<Window>, start: nat, n: nat, ghost a: nat, ghost b: nat) returns (next: nat)
    requires start <= ws.Length && Consecutive(ws[start..], a, b) && n <= b - a
    modifies ws
    ensures start <= next <= ws.Length && Consecutive(ws[next..], a + n, b)
    ensures ws[..start] == old(ws[..start])
  {
    hide Consecutive, TakeWindows;
    var s := ws[start..];
    TakeWindowsMeaning(s, a, b, n);
    var count, m := CountWindows(s, n);
    next := start + count;
    if next < ws.Length {
      ws[next] := Window(s[count].off + m, s[count].len - m);
      assert ws[next..] == [Window(s[count].off + m, s[count].len - m)] + s[count + 1..];
    } else {
      ConsecutiveNone(a + n);
    }
  }

  lemma ConsecutiveNone(a: nat)
    ensures Consecutive([], a, a)
  {
  }

  method CountWindows(ws: seq<Window>, n: nat) returns (count: nat, m: nat)
    ensures (count, m) == TakeWindows(ws, n)
  {
    var len := 0;
    count := 0;
    while count < |ws| && len + ws[count].len <= n
      invariant count <= |ws| && len <= n
      invariant TakeWindows(ws, n) == (count + TakeWindows(ws[count..], n - len).0, TakeWindows(ws[count..], n - len).1)
    {
      assert ws[count..][1..] == ws[count + 1..];
      len := len + ws[count].len;
      count := count + 1;
    }
    m := n - len;
  }

  class IoVecs {
    const store: array<seq<byte>>
    var start: nat
    var split: Option<Split>

    ghost predicate Valid()
      reads this, store
    {
      start <= store.Length && Vecs(store[start..], split).Valid()
    }

    function View(): Vecs
      requires start <= store.Length
      reads this, store
    {
      Vecs(store[start..], split)
    }

    constructor Unbounded(store: array<seq<byte>>, start: nat)
      requires start <= store.Length
      ensures this.store == store && this.start == start && split == None
    {
      this.store, this.start, this.split := store, start, None;
    }

    constructor SplitAtBufferBoundary(store: array<seq<byte>>, start: nat, pos: nat)
      requires start <= store.Length
      ensures this.store == store && this.start == start && split == Some(Split(pos, None))
    {
      this.store, this.start, this.split := store, start, Some(Split(pos, None));
    }

    /** Shrinks the buffer at the bound and remembers the part cut off. */
    constructor SplitWithinBuffer(store: array<seq<byte>>, start: nat, splitPos: nat, bufSplitPos: nat)
      requires start + splitPos < store.Length && bufSplitPos < |store[start + splitPos]|
      modifies store
      ensures this.store == store && this.start == start
      ensures split == Some(Split(splitPos, Some(old(store[start + splitPos])[bufSplitPos..])))
      ensures store[..] == old(store[..])[start + splitPos := old(store[start + splitPos])[..bufSplitPos]]
    {
      var buf := store[start + splitPos];
      this.store, this.start, this.split := store, start, Some(Split(splitPos, Some(buf[bufSplitPos..])));
      new;
      store[start + splitPos] := buf[..bufSplitPos];
    }

    /** Only buffers of the suffix are touched. */
    static method Bounded(store: array<seq<byte>>, start: nat, maxLen: nat) returns (v: IoVecs)
      requires start <= store.Length && maxLen > 0
      modifies store
      ensures fresh(v) && v.store == store && v.start == start
      ensures v.Valid() && v.View() == BoundedView(old(store[start..]), maxLen)
      ensures store[..start] == old(store[..start])
    {
      var bufs := store[start..];
      BoundedMeaning(bufs, maxLen);
      var pos, bufSplitPos := FindSplit(bufs, maxLen);
      if pos == |bufs| || (bufSplitPos == |bufs[pos]| && pos + 1 == |bufs|) {
        v := new IoVecs.Unbounded(store, start);
      } else if bufSplitPos == |bufs[pos]| {
        v := new IoVecs.SplitAtBufferBoundary(store, start, pos);
      } else {
        v := new IoVecs.SplitWithinBuffer(store, start, pos, bufSplitPos);
        assert store[start..] == bufs[pos := bufs[pos][..bufSplitPos]];
      }
    }

    /** The whole buffers to trim and the bytes to take off the next one; a panic when the first half of a
        split is not all there is to take. */
    method TrimCounts(n: nat) returns (removeCount: nat, m: nat, panics: bool)
      requires Valid()
      ensures panics <==> !View().Legal(n) && View().AsSlice() != []
      ensures View().Legal(n) ==> (removeCount, m) == AdvancePoint(View(), n)
      ensures !View().Legal(n) && !panics ==> start < store.Length && store[start] == [] && removeCount == 0 && m == n > 0
    {
      hide Flatten, TakePoint, Vecs.AsSlice, Vecs.Legal, Vecs.Valid;
      var slice := View().AsSlice();
      var removedLen;
      removeCount, removedLen := CountWhole(slice, n);
      PastEnd(View(), n);
      m, panics := n - removedLen, false;
      if split.Some? && removeCount == split.value.pos + 1 {
        if n > removedLen {
          panics := true;
          return;
        }
        removeCount := removeCount - 1;
        removedLen := removedLen - |slice[|slice| - 1]|;
        m := n - removedLen;
      }
    }

    /** The source panics in two places, and together they are any distance past the end of the first half
        of a split; unsplit buffers run out silently. */
    method Advance(n: nat) returns (panics: bool)
      requires Valid()
      modifies this, store
      ensures panics <==> old(split.Some? && n > |View().Front()|)
      ensures !panics ==> Valid() && View() == AdvanceView(old(View()), n)
      ensures start >= old(start) && store[..old(start)] == old(store[..start])
    {
      hide Flatten, Vecs.Front, Vecs.Rest, Vecs.AsSlice;
      ghost var v := View();
      var removeCount, m;
      removeCount, m, panics := TrimCounts(n);
      if panics {
        return;
      }
      TrimFits(v, n, removeCount, m);
      start := start + removeCount;
      if split.Some? {
        split := Some(split.value.(pos := if removeCount >= split.value.pos then 0 else split.value.pos - removeCount));
      }
      assert store[start..] == v.bufs[removeCount..];
      if start < store.Length && m > 0 {
        if |store[start]| < m {
          panics := true;
          return;
        }
        store[start] := store[start][m..];
      }
      if v.Legal(n) { AdvancedTo(v, n, removeCount, m, View()); }
    }

    /** Where the second half begins in `store`, with the split buffer restored. */
    method IntoTail() returns (tail: nat)
      requires Valid()
      modifies store
      ensures start <= tail <= store.Length && store[tail..] == TailView(old(View()))
      ensures store[..tail] == old(store[..tail])
    {
      if split.Some? {
        tail := start + split.value.pos;
        if split.value.second.Some? {
          store[tail] := split.value.second.value;
        }
      } else {
        tail := store.Length;
      }
    }
  }
}
