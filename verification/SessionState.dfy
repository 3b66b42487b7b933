/** A session's request queue length: slow start, timeouts and the tick (cratetorrent/src/peer/state.rs). */
module SessionState {
  import opened Wrappers
  import opened Blocks
  import opened Counters
  import opened Avg

  const SLOW_START_ERROR_MARGIN: nat := 10000
  const START_REQUEST_QUEUE_LEN: nat := 4

  /** `rounds` and `round` are the download counter's finished rounds and the current one, `rtt` the
      average round trip in milliseconds. */
  datatype Context = Context(isChoked: bool, inSlowStart: bool, target: Option<nat>, timedOut: bool, timeouts: nat, rounds: seq<nat>, round: nat, rtt: Sliding)

  /** What happens to a session. A block comes with the time since the last request, if there was one. */
  datatype Event = Choked(choked: bool) | Prepare | TimedOut | Block(len: nat, elapsed: Option<nat>) | Tick

  function Rate(rounds: seq<nat>): nat
    requires Average(rounds) >= 0.0
  {
    Rounded(Average(rounds))
  }

  lemma AveragePositive(rounds: seq<nat>)
    ensures Average(rounds) >= 0.0
  {
    var max := Total(rounds);
    TotalCovers(rounds);
    AverageBounded(rounds, max);
  }

  lemma {:induction false} TotalCovers(rounds: seq<nat>)
    ensures AtMost(rounds, Total(rounds))
    decreases |rounds|
  {
    if rounds != [] {
      var n := |rounds| - 1;
      TotalCovers(rounds[..n]);
      forall k | 0 <= k < |rounds| ensures rounds[k] <= Total(rounds) {
        assert k < n ==> rounds[..n][k] <= Total(rounds[..n]);
      }
    }
  }

  /** The current download rate, rounded to whole bytes. */
  function RateOf(rounds: seq<nat>): nat {
    AveragePositive(rounds);
    Rate(rounds)
  }

  /** Slow start ends when the round brought noticeably less than the average. */
  function MaybeExitSlowStart(c: Context): Context {
    if !c.isChoked && c.inSlowStart && c.target.Some? && c.round > 0 && c.round + SLOW_START_ERROR_MARGIN < RateOf(c.rounds)
    then c.(inSlowStart := false) else c
  }

  function UpdateTarget(c: Context): Context {
    if c.target.None? then c
    else
      var t := if c.inSlowStart then c.target.value else BlockCount(RateOf(c.rounds));
      c.(target := Some(if t < 1 then 1 else t))
  }

  function EndRound(c: Context): Context { c.(rounds := c.rounds + [c.round], round := 0) }

  function TickStep(c: Context): Context {
    var d := EndRound(MaybeExitSlowStart(c));
    if d.timedOut then d else UpdateTarget(d)
  }

  function BlockStep(c: Context, len: nat, elapsed: Option<nat>): Context
    requires c.rtt.Valid()
  {
    var d := if elapsed.Some?
      then c.(timedOut := c.timedOut && elapsed.value > RequestTimeout(c.rtt), rtt := Updated(c.rtt, elapsed.value))
      else c;
    d.(round := d.round + len,
       target := if d.inSlowStart && d.target.Some? then Some(d.target.value + 1) else d.target)
  }

  function Step(c: Context, e: Event): (d: Context)
    requires c.rtt.Valid()
    ensures d.rtt.Valid()
  {
    match e
    case Choked(choked) => c.(isChoked := choked)
    case Prepare => c.(inSlowStart := true, target := Some(START_REQUEST_QUEUE_LEN))
    case TimedOut => c.(target := Some(1), timeouts := c.timeouts + 1, timedOut := true, inSlowStart := false)
    case Block(len, elapsed) => BlockStep(c, len, elapsed)
    case Tick => TickStep(c)
  }

  function Initial(gain: nat): Context { Context(true, false, None, false, 0, [], 0, New(gain)) }

  function RunFrom(c: Context, events: seq<Event>): (d: Context)
    requires c.rtt.Valid()
    ensures d.rtt.Valid()
    decreases |events|
  {
    if events == [] then c else Step(RunFrom(c, events[..|events| - 1]), events[|events| - 1])
  }

  /** Once set, the target is never below one. */
  lemma {:induction false} TargetAtLeastOne(gain: nat, events: seq<Event>)
    requires gain >= 1
    ensures var c := RunFrom(Initial(gain), events); c.target.Some? ==> c.target.value >= 1
    decreases |events|
  {
    hide Step;
    if events != [] {
      var n := |events| - 1;
      TargetAtLeastOne(gain, events[..n]);
      StepKeepsTarget(RunFrom(Initial(gain), events[..n]), events[n]);
    }
  }

  lemma StepKeepsTarget(c: Context, e: Event)
    requires c.rtt.Valid() && (c.target.Some? ==> c.target.value >= 1)
    ensures Step(c, e).target.Some? ==> Step(c, e).target.value >= 1
  {
    hide RateOf, Updated, BlockCount, RequestTimeout;
  }

  lemma RateAtMost(rounds: seq<nat>, max: nat)
    requires AtMost(rounds, max)
    ensures RateOf(rounds) <= max
  {
    AverageBounded(rounds, max);
    RoundedAtMost(Average(rounds), max);
  }

  /** The least number of blocks, and at least one, that hold the average to half a byte. */
  ghost predicate Matches(target: nat, average: real) {
    target >= 1 && forall n: nat :: n >= 1 ==> (target <= n <==> BytesIn(n) > average - 0.5)
  }

  function BytesIn(blocks: nat): real { (blocks * BLOCK_LEN) as real }

  lemma RateInBlocks(average: real)
    requires average >= 0.0
    ensures Matches(Max(1, BlockCount(Rounded(average))), average)
  {
    var rate := Rounded(average);
    Nearest(average);
    forall n: nat | n >= 1 ensures Max(1, BlockCount(rate)) <= n <==> BytesIn(n) > average - 0.5 {
      assert BlockCount(rate) <= n <==> rate <= n * BLOCK_LEN;
      assert rate <= n * BLOCK_LEN <==> BytesIn(n) > average - 0.5 by {
        if rate > n * BLOCK_LEN { assert (rate - 1) as real >= BytesIn(n); }
      }
    }
  }

  /** A tick outside slow start and outside a timeout sets the target to the new average in blocks, rounded
      up and at least one; with no round above `max` bytes that is at most the blocks in `max`. */
  lemma TargetAfterTick(c: Context, max: nat)
    requires c.rtt.Valid() && c.target.Some? && AtMost(c.rounds, max) && c.round <= max
    requires !TickStep(c).inSlowStart && !c.timedOut
    ensures TickStep(c).target.Some? && Matches(TickStep(c).target.value, Average(c.rounds + [c.round]))
    ensures TickStep(c).target.value <= Max(1, BlockCount(max))
  {
    hide Average, Matches, Rounded, AtMost;
    var rounds := c.rounds + [c.round];
    assert AtMost(rounds, max) by { MoreAtMost(c.rounds, c.round, max); }
    RateAtMost(rounds, max);
    AveragePositive(rounds);
    RateInBlocks(Average(rounds));
  }

  lemma MoreAtMost(rounds: seq<nat>, round: nat, max: nat)
    requires AtMost(rounds, max) && round <= max
    ensures AtMost(rounds + [round], max)
  {
  }

  /** A tick ends slow start exactly when the session is unchoked, has a target, and the round brought
      something, but less than the average by 10000 bytes. */
  lemma SlowStartEnds(c: Context)
    requires c.inSlowStart
    ensures TickStep(c).inSlowStart <==>
      c.isChoked || c.target.None? || c.round == 0 || (c.round + 10000) as real > Average(c.rounds) - 0.5
  {
    hide Average, BlockCount;
    AveragePositive(c.rounds);
    Nearest(Average(c.rounds));
  }

  /** Only the start of the pipeline begins slow start, and only a timeout or a tick ends it. Choking leaves
      the target alone, and so does a block outside slow start and a tick in it or in a timeout. */
  lemma SlowStartBounds(c: Context, e: Event)
    requires c.rtt.Valid() && (c.target.Some? ==> c.target.value >= 1)
    ensures var d := Step(c, e);
      && (e.Prepare? ==> d.inSlowStart) && (e.TimedOut? ==> !d.inSlowStart)
      && (e.Choked? || e.Block? ==> d.inSlowStart == c.inSlowStart) && (e.Tick? && d.inSlowStart ==> c.inSlowStart)
      && (e.Choked? || (e.Block? && !c.inSlowStart) || (e.Tick? && (d.inSlowStart || c.timedOut)) ==> d.target == c.target)
  {
    hide Updated, RequestTimeout, RateOf, BlockCount;
  }

  // What the context remembers of a run.

  function BytesOf(e: Event): nat { if e.Block? then e.len else 0 }

  function AllBytes(events: seq<Event>): nat {
    if events == [] then 0 else AllBytes(events[..|events| - 1]) + BytesOf(events[|events| - 1])
  }

  /** The bytes since the last tick. */
  function BytesSinceTick(events: seq<Event>): nat {
    if events == [] || events[|events| - 1].Tick? then 0
    else BytesSinceTick(events[..|events| - 1]) + BytesOf(events[|events| - 1])
  }

  function Ticks(events: seq<Event>): nat {
    if events == [] then 0 else Ticks(events[..|events| - 1]) + if events[|events| - 1].Tick? then 1 else 0
  }

  function Timeouts(events: seq<Event>): nat {
    if events == [] then 0 else Timeouts(events[..|events| - 1]) + if events[|events| - 1].TimedOut? then 1 else 0
  }

  /** The round trips measured. */
  function Samples(events: seq<Event>): seq<int> {
    if events == [] then []
    else
      var last := events[|events| - 1];
      Samples(events[..|events| - 1]) + if last.Block? && last.elapsed.Some? then [last.elapsed.value] else []
  }

  /** Whether the peer's last word on it was to choke us. */
  predicate ChokedLast(events: seq<Event>) {
    events == [] || (if events[|events| - 1].Choked? then events[|events| - 1].choked else ChokedLast(events[..|events| - 1]))
  }

  /** What one event adds to it. */
  lemma StepRemembers(c: Context, e: Event)
    requires c.rtt.Valid()
    ensures var d := Step(c, e);
      && (if e.Tick? then d.rounds == c.rounds + [c.round] && d.round == 0 else d.rounds == c.rounds && d.round == c.round + BytesOf(e))
      && d.timeouts == c.timeouts + (if e.TimedOut? then 1 else 0)
      && d.rtt == (if e.Block? && e.elapsed.Some? then Updated(c.rtt, e.elapsed.value) else c.rtt)
      && d.isChoked == if e.Choked? then e.choked else c.isChoked
  {
    hide RateOf, Updated, BlockCount, RequestTimeout;
  }

  lemma {:induction false} RoundsHold(gain: nat, events: seq<Event>)
    requires gain >= 1
    ensures var c := RunFrom(Initial(gain), events);
      Total(c.rounds) + c.round == AllBytes(events) && c.round == BytesSinceTick(events) && |c.rounds| == Ticks(events)
    decreases |events|
  {
    hide Step;
    if events != [] {
      var n := |events| - 1;
      RoundsHold(gain, events[..n]);
      var c := RunFrom(Initial(gain), events[..n]);
      StepRemembers(c, events[n]);
      OneMore(c.rounds, c.round);
    }
  }

  lemma {:induction false} AverageHolds(gain: nat, events: seq<Event>)
    requires gain >= 1
    ensures RunFrom(Initial(gain), events).rtt == After(gain, Samples(events))
    decreases |events|
  {
    hide Step, Updated;
    if events != [] {
      var n := |events| - 1;
      AverageHolds(gain, events[..n]);
      StepRemembers(RunFrom(Initial(gain), events[..n]), events[n]);
      var samples := Samples(events[..n]);
      if events[n].Block? && events[n].elapsed.Some? {
        assert (samples + [events[n].elapsed.value])[..|samples|] == samples;
      } else {
        assert Samples(events) == samples;
      }
    }
  }

  lemma {:induction false} FlagsHold(gain: nat, events: seq<Event>)
    requires gain >= 1
    ensures var c := RunFrom(Initial(gain), events); c.timeouts == Timeouts(events) && c.isChoked == ChokedLast(events)
    decreases |events|
  {
    hide Step;
    if events != [] {
      var n := |events| - 1;
      FlagsHold(gain, events[..n]);
      StepRemembers(RunFrom(Initial(gain), events[..n]), events[n]);
    }
  }

  /** The finished rounds and the current one hold all bytes received, one round per tick; the average is
      that of all round trips, and every timeout has been counted. */
  lemma ContextRemembers(gain: nat, events: seq<Event>)
    requires gain >= 1
    ensures var c := RunFrom(Initial(gain), events);
      && Total(c.rounds) + c.round == AllBytes(events) && c.round == BytesSinceTick(events) && |c.rounds| == Ticks(events)
      && c.timeouts == Timeouts(events) && c.rtt == After(gain, Samples(events)) && c.isChoked == ChokedLast(events)
  {
    RoundsHold(gain, events);
    AverageHolds(gain, events);
    FlagsHold(gain, events);
  }

  /** A block that came no later than the timeout allows. */
  predicate OnTime(c: Context, e: Event) {
    e.Block? && e.elapsed.Some? && e.elapsed.value <= RequestTimeout(c.rtt)
  }

  predicate NoTimeout(events: seq<Event>) {
    forall k :: 0 <= k < |events| ==> !events[k].TimedOut?
  }

  ghost predicate LateAt(c: Context, events: seq<Event>, k: nat)
    requires c.rtt.Valid() && k < |events|
  {
    !OnTime(RunFrom(c, events[..k]), events[k])
  }

  /** A timeout is over exactly when a block has come on time since. */
  lemma {:induction false} TimeoutEndsIff(c: Context, events: seq<Event>)
    requires c.rtt.Valid() && NoTimeout(events)
    ensures RunFrom(c, events).timedOut <==> c.timedOut && forall k: nat :: k < |events| ==> LateAt(c, events, k)
    decreases |events|
  {
    hide RateOf, Updated, BlockCount, RequestTimeout;
    if events != [] {
      var n := |events| - 1;
      var init := events[..n];
      assert NoTimeout(init);
      TimeoutEndsIff(c, init);
      forall k: nat | k < n ensures LateAt(c, events, k) == LateAt(c, init, k) {
        assert init[..k] == events[..k];
      }
      assert LateAt(c, events, n) <==> !OnTime(RunFrom(c, init), events[n]);
    }
  }

  /** The blocks received since the pipeline was last started. */
  function BlocksSinceStart(events: seq<Event>): nat {
    if events == [] || events[|events| - 1].Prepare? then 0
    else BlocksSinceStart(events[..|events| - 1]) + if events[|events| - 1].Block? then 1 else 0
  }

  /** In slow start the target is four, and one more for every block received since. */
  lemma {:induction false} SlowStartCounts(gain: nat, events: seq<Event>)
    requires gain >= 1
    ensures var c := RunFrom(Initial(gain), events);
      c.inSlowStart ==> c.target == Some(4 + BlocksSinceStart(events))
    decreases |events|
  {
    hide RateOf, Updated, BlockCount, RequestTimeout;
    if events != [] {
      SlowStartCounts(gain, events[..|events| - 1]);
    }
  }

  predicate NoStart(events: seq<Event>) {
    forall k :: 0 <= k < |events| ==> !events[k].Prepare?
  }

  /** After a timeout, as long as no request is answered in time, one request is all that is allowed:
      only being unchoked anew lifts that. */
  lemma {:induction false} TimeoutHolds(c: Context, events: seq<Event>)
    requires c.rtt.Valid() && NoStart(events)
    ensures var d := RunFrom(Step(c, TimedOut), events);
      !d.inSlowStart && (d.timedOut ==> d.target == Some(1))
    decreases |events|
  {
    hide RateOf, Updated;
    if events != [] {
      assert !events[|events| - 1].Prepare?;
      TimeoutHolds(c, events[..|events| - 1]);
    }
  }

  class SessionContext {
    var isChoked: bool
    var inSlowStart: bool
    var targetRequestQueueLen: Option<nat>
    var requestTimedOut: bool
    var timedOutRequestCount: nat
    const down: Counter
    const avgRequestRtt: SlidingAvg

    ghost predicate Valid()
      reads this, down, avgRequestRtt
    {
      down.Valid() && avgRequestRtt.View().Valid()
    }

    ghost function View(): Context
      reads this, down, avgRequestRtt
    {
      Context(isChoked, inSlowStart, targetRequestQueueLen, requestTimedOut, timedOutRequestCount, down.rounds, down.round, avgRequestRtt.View())
    }

    constructor (gain: nat)
      requires gain >= 1
      ensures Valid() && View() == Initial(gain) && fresh(down) && fresh(avgRequestRtt)
    {
      isChoked, inSlowStart, targetRequestQueueLen, requestTimedOut, timedOutRequestCount := true, false, None, false, 0;
      down := new Counter();
      avgRequestRtt := new SlidingAvg(gain);
    }

    method RegisterRequestTimeout()
      requires Valid()
      modifies this
      ensures Valid() && View() == Step(old(View()), TimedOut)
    {
      targetRequestQueueLen := Some(1);
      timedOutRequestCount := timedOutRequestCount + 1;
      requestTimedOut := true;
      inSlowStart := false;
    }

    method PrepareForDownload()
      requires Valid()
      modifies this
      ensures Valid() && View() == Step(old(View()), Prepare)
    {
      inSlowStart := true;
      targetRequestQueueLen := Some(START_REQUEST_QUEUE_LEN);
    }

    method UpdateDownloadStats(blockLen: nat, elapsed: Option<nat>)
      requires Valid()
      modifies this, down, avgRequestRtt
      ensures Valid() && old(Valid()) && View() == Step(old(View()), Block(blockLen, elapsed))
      ensures requestTimedOut == (old(requestTimedOut) && !(elapsed.Some? && elapsed.value <= RequestTimeout(old(avgRequestRtt.View()))))
    {
      hide Average, Peak, Total, Updated, RequestTimeout;
      if elapsed.Some? {
        if requestTimedOut && elapsed.value <= RequestTimeout(avgRequestRtt.View()) {
          requestTimedOut := false;
        }
        avgRequestRtt.Update(elapsed.value);
      }
      down.Add(blockLen);
      if inSlowStart && targetRequestQueueLen.Some? {
        targetRequestQueueLen := Some(targetRequestQueueLen.value + 1);
      }
    }

    method Tick()
      requires Valid()
      modifies this, down
      ensures Valid() && View() == Step(old(View()), Event.Tick)
      ensures targetRequestQueueLen.Some? && !inSlowStart && !requestTimedOut ==> Matches(targetRequestQueueLen.value, down.avg)
    {
      hide Average, Peak, Total, Matches, Rounded;
      TotalCovers(down.rounds);
      var rate := down.Avg(Total(down.rounds));
      if !isChoked && inSlowStart && targetRequestQueueLen.Some? && down.round > 0 && down.round + SLOW_START_ERROR_MARGIN < rate {
        inSlowStart := false;
      }
      down.Reset();
      if !requestTimedOut && targetRequestQueueLen.Some? {
        TotalCovers(down.rounds);
        rate := down.Avg(Total(down.rounds));
        var t := targetRequestQueueLen.value;
        if !inSlowStart {
          t := (rate + (BLOCK_LEN - 1)) / BLOCK_LEN;
        }
        if t < 1 {
          t := 1;
        }
        RateInBlocks(down.avg);
        targetRequestQueueLen := Some(t);
      }
    }
  }
}
