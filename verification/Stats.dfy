/** How the transfer statistics of the sessions reach the torrent: every byte once
    (cratetorrent/src/peer.rs, cratetorrent/src/peer/state.rs, cratetorrent/src/torrent.rs). */
module Stats {
  /** Payload down and up, and waste. The protocol counters are not part of this: sessions add to them
      without noting a change. */
  datatype Bytes = Bytes(down: nat, up: nat, waste: nat) {
    function Plus(b: Bytes): Bytes { Bytes(down + b.down, up + b.up, waste + b.waste) }
  }

  const ZERO := Bytes(0, 0, 0)

  /** Failing: the session has reported its failure and is yet to report its end. */
  datatype Phase = Running | Failing | Gone

  datatype Session = Session(phase: Phase, round: Bytes, changed: bool) {
    /** What the session has counted and not reported. */
    function Unreported(): Bytes { if phase.Running? then round else ZERO }
  }

  datatype Report = Report(addr: nat, disconnected: bool, round: Bytes)

  /** A session's address is its place in the list. `counted` is all that sessions ever counted; no
      step consults it. */
  datatype State = State(sessions: seq<Session>, queue: seq<Report>, peers: set<nat>, total: Bytes, counted: Bytes)

  datatype Action =
    | Connect
    | Count(addr: nat, bytes: Bytes)
    | Note(addr: nat)
    | Tick(addr: nat)
    | Fail(addr: nat)
    | Finish(addr: nat)
    | TakeReport

  function Init(): State { State([], [], {}, ZERO, ZERO) }

  predicate IsRunning(s: State, addr: nat) { addr < |s.sessions| && s.sessions[addr].phase.Running? }

  predicate Enabled(s: State, a: Action) {
    match a
    case Connect => true
    case Count(addr, _) => IsRunning(s, addr)
    case Note(addr) => IsRunning(s, addr)
    case Tick(addr) => IsRunning(s, addr)
    case Fail(addr) => IsRunning(s, addr)
    case Finish(addr) => addr < |s.sessions| && !s.sessions[addr].phase.Gone?
    case TakeReport => s.queue != []
  }

  /** `handle_peer_state_change`: reports of peers the torrent does not know any more are ignored, and a
      disconnected peer is forgotten. */
  function Handle(s: State, r: Report): State {
    if r.addr !in s.peers then s
    else s.(total := s.total.Plus(r.round), peers := if r.disconnected then s.peers - {r.addr} else s.peers)
  }

  function Apply(s: State, a: Action): State
    requires Enabled(s, a)
  {
    match a
    case Connect => s.(sessions := s.sessions + [Session(Running, ZERO, false)], peers := s.peers + {|s.sessions|})
    case Count(addr, bytes) =>
      var x := s.sessions[addr];
      s.(sessions := s.sessions[addr := x.(round := x.round.Plus(bytes), changed := true)], counted := s.counted.Plus(bytes))
    case Note(addr) => s.(sessions := s.sessions[addr := s.sessions[addr].(changed := true)])
    case Tick(addr) =>
      var x := s.sessions[addr];
      s.(sessions := s.sessions[addr := x.(round := ZERO, changed := false)],
         queue := if x.changed then s.queue + [Report(addr, false, x.round)] else s.queue)
    case Fail(addr) =>
      var x := s.sessions[addr];
      s.(sessions := s.sessions[addr := x.(phase := Failing)], queue := s.queue + [Report(addr, true, x.round)])
    case Finish(addr) =>
      var x := s.sessions[addr];
      s.(sessions := s.sessions[addr := x.(phase := Gone)], queue := s.queue + [Report(addr, true, x.round)])
    case TakeReport => Handle(s.(queue := s.queue[1..]), s.queue[0])
  }

  /** What of the queue the torrent will still add up, given who it knows. */
  function InTransit(queue: seq<Report>, peers: set<nat>): Bytes {
    if queue == [] then ZERO
    else if queue[0].addr !in peers then InTransit(queue[1..], peers)
    else queue[0].round.Plus(InTransit(queue[1..], if queue[0].disconnected then peers - {queue[0].addr} else peers))
  }

  /** Who it will still know at the end of the queue. */
  function KnownAfter(queue: seq<Report>, peers: set<nat>): set<nat> {
    if queue == [] then peers
    else KnownAfter(queue[1..], if queue[0].disconnected then peers - {queue[0].addr} else peers)
  }

  /** What the first n sessions have not reported. */
  function FirstUnreported(sessions: seq<Session>, n: nat): Bytes
    requires n <= |sessions|
  {
    if n == 0 then ZERO else FirstUnreported(sessions, n - 1).Plus(sessions[n - 1].Unreported())
  }

  function AllUnreported(sessions: seq<Session>): Bytes { FirstUnreported(sessions, |sessions|) }

  /** The torrent will still know exactly the running sessions, and a session with nothing to note has
      nothing to report. */
  predicate SessionFits(s: State, addr: nat)
    requires addr < |s.sessions|
  {
    && (addr in KnownAfter(s.queue, s.peers) <==> s.sessions[addr].phase.Running?)
    && (!s.sessions[addr].changed ==> s.sessions[addr].round == ZERO)
  }

  predicate Fits(s: State) {
    && (forall addr :: 0 <= addr < |s.sessions| ==> SessionFits(s, addr))
    && (forall addr :: addr in s.peers ==> addr < |s.sessions|)
    && (forall k :: 0 <= k < |s.queue| ==> s.queue[k].addr < |s.sessions|)
  }

  /** Every byte counted is in the torrent's total, in a report it will add up, or not reported yet, and
      in one of these only. */
  predicate Conserved(s: State) {
    s.counted == s.total.Plus(InTransit(s.queue, s.peers)).Plus(AllUnreported(s.sessions))
  }

  lemma {:induction false} KnownSubset(queue: seq<Report>, peers: set<nat>)
    ensures KnownAfter(queue, peers) <= peers
    decreases |queue|
  {
    if queue != [] {
      KnownSubset(queue[1..], if queue[0].disconnected then peers - {queue[0].addr} else peers);
    }
  }

  lemma {:induction false} Snoc(queue: seq<Report>, peers: set<nat>, r: Report)
    ensures InTransit(queue + [r], peers) == if r.addr in KnownAfter(queue, peers) then InTransit(queue, peers).Plus(r.round) else InTransit(queue, peers)
    ensures KnownAfter(queue + [r], peers) == if r.disconnected then KnownAfter(queue, peers) - {r.addr} else KnownAfter(queue, peers)
    decreases |queue|
  {
    if queue != [] {
      assert (queue + [r])[1..] == queue[1..] + [r];
      var next := if queue[0].disconnected then peers - {queue[0].addr} else peers;
      Snoc(queue[1..], next, r);
      if queue[0].addr !in peers {
        assert next == peers;
      }
    } else {
      assert (queue + [r])[1..] == [];
      assert InTransit([], if r.disconnected then peers - {r.addr} else peers) == ZERO;
    }
  }

  /** A peer the queue does not mention is nobody's business in it. */
  lemma {:induction false} NewPeer(queue: seq<Report>, peers: set<nat>, addr: nat)
    requires addr !in peers && forall k :: 0 <= k < |queue| ==> queue[k].addr != addr
    ensures InTransit(queue, peers + {addr}) == InTransit(queue, peers)
    ensures KnownAfter(queue, peers + {addr}) == KnownAfter(queue, peers) + {addr}
    decreases |queue|
  {
    if queue != [] {
      var next := if queue[0].disconnected then peers - {queue[0].addr} else peers;
      assert (if queue[0].disconnected then (peers + {addr}) - {queue[0].addr} else peers + {addr}) == next + {addr};
      if queue[0].addr !in peers {
        assert next == peers;
      }
      NewPeer(queue[1..], next, addr);
    }
  }

  lemma {:induction false} UnreportedSet(sessions: seq<Session>, addr: nat, x: Session, n: nat)
    requires addr < |sessions| && n <= |sessions|
    ensures addr < n ==>
      FirstUnreported(sessions[addr := x], n).Plus(sessions[addr].Unreported()) == FirstUnreported(sessions, n).Plus(x.Unreported())
    ensures n <= addr ==> FirstUnreported(sessions[addr := x], n) == FirstUnreported(sessions, n)
  {
    if n > 0 {
      UnreportedSet(sessions, addr, x, n - 1);
    }
  }

  lemma {:induction false} UnreportedPrefix(sessions: seq<Session>, x: Session, n: nat)
    requires n <= |sessions|
    ensures FirstUnreported(sessions + [x], n) == FirstUnreported(sessions, n)
  {
    if n > 0 {
      UnreportedPrefix(sessions, x, n - 1);
    }
  }

  lemma UnreportedSnoc(sessions: seq<Session>, x: Session)
    ensures AllUnreported(sessions + [x]) == AllUnreported(sessions).Plus(x.Unreported())
  {
    UnreportedPrefix(sessions, x, |sessions|);
  }

  lemma ConnectKeeps(s: State)
    requires Fits(s) && Conserved(s)
    ensures Fits(Apply(s, Connect)) && Conserved(Apply(s, Connect))
  {
    var t := Apply(s, Connect);
    NewPeer(s.queue, s.peers, |s.sessions|);
    UnreportedSnoc(s.sessions, Session(Running, ZERO, false));
    forall addr | 0 <= addr < |t.sessions| ensures SessionFits(t, addr) {
      if addr < |s.sessions| { assert SessionFits(s, addr); }
    }
  }

  /** A session changes and may add one report of its own. */
  lemma SessionStep(s: State, t: State, addr: nat, x: Session, reports: seq<Report>, bytes: Bytes)
    requires Fits(s) && Conserved(s) && addr < |s.sessions| && |reports| <= 1
    requires t == State(s.sessions[addr := x], s.queue + reports, s.peers, s.total, s.counted.Plus(bytes))
    requires reports != [] ==> reports[0].addr == addr
    requires s.sessions[addr].Unreported().Plus(bytes)
      == x.Unreported().Plus(if reports != [] && s.sessions[addr].phase.Running? then reports[0].round else ZERO)
    requires !x.changed ==> x.round == ZERO
    requires x.phase.Running? <==> s.sessions[addr].phase.Running? && (reports != [] ==> !reports[0].disconnected)
    ensures Fits(t) && Conserved(t)
  {
    hide InTransit, KnownAfter, FirstUnreported;
    assert SessionFits(s, addr);
    UnreportedSet(s.sessions, addr, x, |s.sessions|);
    if reports != [] {
      Snoc(s.queue, s.peers, reports[0]);
      assert reports == [reports[0]];
    } else {
      assert s.queue + reports == s.queue;
    }
    forall k | 0 <= k < |t.sessions| ensures SessionFits(t, k) {
      assert SessionFits(s, k);
    }
  }

  lemma TakeReportKeeps(s: State)
    requires Fits(s) && Conserved(s) && s.queue != []
    ensures Fits(Apply(s, TakeReport)) && Conserved(Apply(s, TakeReport))
  {
    var t := Apply(s, TakeReport);
    assert s.queue[0].addr !in s.peers ==> s.peers - {s.queue[0].addr} == s.peers;
    forall addr | 0 <= addr < |t.sessions| ensures SessionFits(t, addr) {
      assert SessionFits(s, addr);
    }
  }

  lemma CountKeeps(s: State, addr: nat, bytes: Bytes)
    requires Fits(s) && Conserved(s) && IsRunning(s, addr)
    ensures Fits(Apply(s, Count(addr, bytes))) && Conserved(Apply(s, Count(addr, bytes)))
  {
    hide Fits, Conserved, Handle;
    SessionAt(s, addr);
    var x := s.sessions[addr];
    assert s.queue + [] == s.queue;
    SessionStep(s, Apply(s, Count(addr, bytes)), addr, x.(round := x.round.Plus(bytes), changed := true), [], bytes);
  }

  lemma NoteKeeps(s: State, addr: nat)
    requires Fits(s) && Conserved(s) && IsRunning(s, addr)
    ensures Fits(Apply(s, Note(addr))) && Conserved(Apply(s, Note(addr)))
  {
    hide Fits, Conserved, Handle;
    assert s.queue + [] == s.queue && s.counted.Plus(ZERO) == s.counted;
    SessionStep(s, Apply(s, Note(addr)), addr, s.sessions[addr].(changed := true), [], ZERO);
  }

  lemma TickKeeps(s: State, addr: nat)
    requires Fits(s) && Conserved(s) && IsRunning(s, addr)
    ensures Fits(Apply(s, Tick(addr))) && Conserved(Apply(s, Tick(addr)))
  {
    hide Fits, Conserved, Handle;
    SessionAt(s, addr);
    var x := s.sessions[addr];
    assert s.queue + [] == s.queue && s.counted.Plus(ZERO) == s.counted;
    SessionStep(s, Apply(s, Tick(addr)), addr, x.(round := ZERO, changed := false), if x.changed then [Report(addr, false, x.round)] else [], ZERO);
  }

  lemma EndKeeps(s: State, addr: nat, phase: Phase)
    requires Fits(s) && Conserved(s) && addr < |s.sessions| && !phase.Running?
    ensures var x := s.sessions[addr];
      var t := s.(sessions := s.sessions[addr := x.(phase := phase)], queue := s.queue + [Report(addr, true, x.round)]);
      Fits(t) && Conserved(t)
  {
    hide Fits, Conserved, Handle;
    SessionAt(s, addr);
    var x := s.sessions[addr];
    var t := s.(sessions := s.sessions[addr := x.(phase := phase)], queue := s.queue + [Report(addr, true, x.round)]);
    assert s.counted.Plus(ZERO) == s.counted;
    SessionStep(s, t, addr, x.(phase := phase), [Report(addr, true, x.round)], ZERO);
  }

  lemma StepKeeps(s: State, a: Action)
    requires Fits(s) && Conserved(s) && Enabled(s, a)
    ensures Fits(Apply(s, a)) && Conserved(Apply(s, a))
  {
    hide Fits, Conserved, Handle;
    match a
    case Connect => ConnectKeeps(s);
    case Count(addr, bytes) => CountKeeps(s, addr, bytes);
    case Note(addr) => NoteKeeps(s, addr);
    case Tick(addr) => TickKeeps(s, addr);
    case Fail(addr) => EndKeeps(s, addr, Failing);
    case Finish(addr) => EndKeeps(s, addr, Gone);
    case TakeReport => TakeReportKeeps(s);
  }

  lemma SessionAt(s: State, addr: nat)
    requires Fits(s) && addr < |s.sessions|
    ensures !s.sessions[addr].changed ==> s.sessions[addr].round == ZERO
  {
    assert SessionFits(s, addr);
  }

  predicate Run(s: State, acts: seq<Action>, t: State)
    decreases |acts|
  {
    if acts == [] then s == t
    else Enabled(s, acts[0]) && Run(Apply(s, acts[0]), acts[1..], t)
  }

  lemma {:induction false} RunKeeps(s: State, acts: seq<Action>, t: State)
    requires Fits(s) && Conserved(s) && Run(s, acts, t)
    ensures Fits(t) && Conserved(t)
    decreases |acts|
  {
    hide Fits, Conserved, Enabled, Apply;
    if acts != [] {
      StepKeeps(s, acts[0]);
      RunKeeps(Apply(s, acts[0]), acts[1..], t);
    }
  }

  lemma NoneInTransit(queue: seq<Report>, peers: set<nat>)
    requires |queue| == 0
    ensures InTransit(queue, peers) == ZERO && KnownAfter(queue, peers) == peers
  {
  }

  lemma InitFits()
    ensures Fits(Init()) && Conserved(Init())
  {
    hide InTransit, KnownAfter;
    NoneInTransit(Init().queue, Init().peers);
  }

  /** Exactly once: in every state of every run the bytes counted are those in the torrent's totals, in
      reports it will add up, and in the sessions' unreported rounds, although a session that fails
      reports its last round twice. */
  lemma ExactlyOnce(acts: seq<Action>, s: State)
    requires Run(Init(), acts, s)
    ensures s.counted == s.total.Plus(InTransit(s.queue, s.peers)).Plus(AllUnreported(s.sessions))
  {
    hide Run, Fits, InTransit, AllUnreported, Init;
    InitFits();
    RunKeeps(Init(), acts, s);
  }

  /** A tick leaves the session with nothing unreported: what it had is on its way to the torrent's totals,
      and no other session is touched. */
  lemma TickReports(s: State, addr: nat)
    requires Fits(s) && IsRunning(s, addr)
    ensures var t := Apply(s, Tick(addr));
      && |t.sessions| == |s.sessions| && t.sessions[addr].Unreported() == ZERO && t.sessions[addr].phase.Running?
      && (forall k :: 0 <= k < |s.sessions| && k != addr ==> t.sessions[k] == s.sessions[k])
      && InTransit(t.queue, t.peers) == InTransit(s.queue, s.peers).Plus(s.sessions[addr].Unreported())
      && t.total == s.total && s.queue <= t.queue
  {
    hide Handle, InTransit, KnownAfter;
    assert SessionFits(s, addr);
    var x := s.sessions[addr];
    if x.changed { Snoc(s.queue, s.peers, Report(addr, false, x.round)); }
  }

  /** Anything noted makes the next tick report, bytes or not. */
  lemma NotedIsReported(s: State, addr: nat, t: State)
    requires IsRunning(s, addr) && Run(s, [Note(addr), Tick(addr)], t)
    ensures t.queue == s.queue + [Report(addr, false, s.sessions[addr].round)]
  {
    var u := Apply(s, Note(addr));
    assert [Note(addr), Tick(addr)][1..] == [Tick(addr)] && [Tick(addr)][1..] == [];
    assert Run(u, [Tick(addr)], t);
    assert Run(Apply(u, Tick(addr)), [], t);
  }

  function DownOf(a: Action): nat { if a.Count? then a.bytes.down else 0 }

  function UpOf(a: Action): nat { if a.Count? then a.bytes.up else 0 }

  function WasteOf(a: Action): nat { if a.Count? then a.bytes.waste else 0 }

  function Sum(acts: seq<Action>, of: Action -> nat): nat {
    if acts == [] then 0 else of(acts[0]) + Sum(acts[1..], of)
  }

  lemma {:induction false} RunCounts(s: State, acts: seq<Action>, t: State)
    requires Run(s, acts, t)
    ensures t.counted.down == s.counted.down + Sum(acts, DownOf) && t.counted.up == s.counted.up + Sum(acts, UpOf)
    ensures t.counted.waste == s.counted.waste + Sum(acts, WasteOf)
    decreases |acts|
  {
    if acts != [] { RunCounts(Apply(s, acts[0]), acts[1..], t); }
  }

  lemma CountsAll(acts: seq<Action>, s: State)
    requires Run(Init(), acts, s)
    ensures s.counted == Bytes(Sum(acts, DownOf), Sum(acts, UpOf), Sum(acts, WasteOf))
  {
    hide Run, Sum;
    RunCounts(Init(), acts, s);
  }

  lemma {:induction false} NobodyRunning(sessions: seq<Session>, n: nat)
    requires n <= |sessions| && forall k :: 0 <= k < |sessions| ==> !sessions[k].phase.Running?
    ensures FirstUnreported(sessions, n) == ZERO
  {
    if n > 0 {
      NobodyRunning(sessions, n - 1);
    }
  }

  /** When all sessions have ended and their reports are in, the torrent's totals are what they counted:
      payload down and up, and waste, each by itself. */
  lemma TotalsComplete(acts: seq<Action>, s: State)
    requires Run(Init(), acts, s) && s.queue == [] && forall k :: 0 <= k < |s.sessions| ==> !s.sessions[k].phase.Running?
    ensures s.total == s.counted && s.peers == {}
    ensures s.total == Bytes(Sum(acts, DownOf), Sum(acts, UpOf), Sum(acts, WasteOf))
  {
    hide Run, FirstUnreported, InTransit, KnownAfter, Init, Sum;
    CountsAll(acts, s);
    InitFits();
    RunKeeps(Init(), acts, s);
    NoneInTransit(s.queue, s.peers);
    NobodyRunning(s.sessions, |s.sessions|);
    assert forall addr :: addr in s.peers ==> SessionFits(s, addr);
  }
}
