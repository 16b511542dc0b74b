/** What risk rules read: today's realised profit, rolled over lazily at midnight UTC, and the
    number of recent signals, evicted lazily as it is asked for. */
module RiskStates {
  import opened Types

  const NS_PER_DAY: int := 86_400_000_000_000

  function Day(now: int): int { now / NS_PER_DAY }

  lemma {:induction false} DayGrows(a: int, b: int)
    requires a <= b
    ensures Day(a) <= Day(b)
  {
  }

  // ----- Daily profit -----

  datatype DailyPnl = DailyPnl(baseline: real, dayIndex: int, realized: real)

  type Buckets = map<StrategyId, DailyPnl>

  function Rolled(b: DailyPnl, day: int): DailyPnl {
    if b.dayIndex != day then b.(baseline := b.realized, dayIndex := day) else b
  }

  datatype PnlEvent =
    | Reported(strategy: StrategyId, at: int, realized: real)
    | Read(strategy: StrategyId, at: int)
    | NewSession(at: int)

  function AfterEvent(bs: Buckets, e: PnlEvent): Buckets {
    match e
    case Reported(id, at, realized) =>
      if id in bs then bs[id := Rolled(bs[id], Day(at)).(realized := realized)]
      else bs[id := DailyPnl(0.0, Day(at), realized)]
    case Read(id, at) => if id in bs then bs[id := Rolled(bs[id], Day(at))] else bs
    case NewSession(at) => map id | id in bs :: bs[id].(baseline := bs[id].realized, dayIndex := Day(at))
  }

  /** What a read returns. */
  function Today(bs: Buckets, id: StrategyId, now: int): real {
    if id !in bs then 0.0
    else
      var b := Rolled(bs[id], Day(now));
      b.realized - b.baseline
  }

  function After(events: seq<PnlEvent>): Buckets {
    if events == [] then map[] else AfterEvent(After(events[..|events| - 1]), events[|events| - 1])
  }

  predicate Concerns(e: PnlEvent, id: StrategyId) { e.Reported? && e.strategy == id }

  /** The cumulative profit last reported, zero before the first report. */
  function LastReported(events: seq<PnlEvent>, id: StrategyId): real {
    if events == [] then 0.0
    else
      var e := events[|events| - 1];
      if Concerns(e, id) then e.realized else LastReported(events[..|events| - 1], id)
  }

  /** The cumulative profit the day opened with: the last one reported on an earlier day, or
      before the session was last restarted. */
  function Opening(events: seq<PnlEvent>, id: StrategyId, day: int): real {
    if events == [] then 0.0
    else
      var e := events[|events| - 1];
      var before := events[..|events| - 1];
      if e.NewSession? then LastReported(before, id)
      else if Concerns(e, id) && Day(e.at) < day then e.realized
      else Opening(before, id, day)
  }

  predicate Chronological(events: seq<PnlEvent>) {
    forall i, j :: 0 <= i < j < |events| ==> events[i].at <= events[j].at
  }

  /** The bucket agrees with the history, as of the day it was last touched. */
  predicate Faithful(events: seq<PnlEvent>, bs: Buckets, id: StrategyId) {
    if id in bs then
      && bs[id].realized == LastReported(events, id)
      && bs[id].baseline == Opening(events, id, bs[id].dayIndex)
      && events != [] && bs[id].dayIndex <= Day(events[|events| - 1].at)
    else LastReported(events, id) == 0.0
  }

  /** Nothing was reported on or after `day`. */
  predicate Quiet(events: seq<PnlEvent>, id: StrategyId, day: int) {
    forall e :: e in events && Concerns(e, id) ==> Day(e.at) < day
  }

  lemma {:induction false} QuietDayOpensWithTheLast(events: seq<PnlEvent>, id: StrategyId, day: int)
    requires Quiet(events, id, day)
    ensures Opening(events, id, day) == LastReported(events, id)
  {
    if events != [] {
      var e := events[|events| - 1];
      assert e in events;
      QuietDayOpensWithTheLast(events[..|events| - 1], id, day);
    }
  }

  /** No report is later than the day of the bucket. */
  predicate NoneLater(events: seq<PnlEvent>, bs: Buckets, id: StrategyId) {
    if id in bs then forall e :: e in events && Concerns(e, id) ==> Day(e.at) <= bs[id].dayIndex
    else forall e :: e in events ==> !Concerns(e, id)
  }

  lemma {:induction false} RolledIsFaithful(events: seq<PnlEvent>, bs: Buckets, id: StrategyId, now: int)
    requires Faithful(events, bs, id) && NoneLater(events, bs, id) && id in bs
    requires forall e :: e in events ==> e.at <= now
    ensures var b := Rolled(bs[id], Day(now));
            b.realized == LastReported(events, id) && b.baseline == Opening(events, id, Day(now))
  {
    assert events[|events| - 1] in events;
    DayGrows(events[|events| - 1].at, now);
    if bs[id].dayIndex != Day(now) {
      QuietDayOpensWithTheLast(events, id, Day(now));
    }
  }

  lemma {:induction false} NeverReported(events: seq<PnlEvent>, id: StrategyId, day: int)
    requires forall e :: e in events ==> !Concerns(e, id)
    ensures LastReported(events, id) == 0.0 && Opening(events, id, day) == 0.0
  {
    if events != [] {
      assert events[|events| - 1] in events;
      NeverReported(events[..|events| - 1], id, day);
    }
  }

  lemma {:induction false} EventKeepsFaithful(before: seq<PnlEvent>, e: PnlEvent, bs: Buckets, id: StrategyId)
    requires Faithful(before, bs, id) && NoneLater(before, bs, id)
    requires forall b :: b in before ==> b.at <= e.at
    ensures Faithful(before + [e], AfterEvent(bs, e), id)
    ensures NoneLater(before + [e], AfterEvent(bs, e), id)
  {
    var events := before + [e];
    assert events[..|events| - 1] == before;
    assert forall b :: b in events <==> b in before || b == e;
    forall b | b in before ensures Day(b.at) <= Day(e.at) {
      DayGrows(b.at, e.at);
    }
    if id in bs {
      assert before[|before| - 1] in before;
      RolledIsFaithful(before, bs, id, e.at);
    } else {
      NeverReported(before, id, Day(e.at));
    }
  }

  lemma {:induction false} BucketsAreFaithful(events: seq<PnlEvent>, id: StrategyId)
    requires Chronological(events)
    ensures Faithful(events, After(events), id) && NoneLater(events, After(events), id)
  {
    if events != [] {
      var n := |events| - 1;
      BucketsAreFaithful(events[..n], id);
      assert events == events[..n] + [events[n]];
      forall b | b in events[..n] ensures b.at <= events[n].at {
        var i :| 0 <= i < n && events[i] == b;
      }
      EventKeepsFaithful(events[..n], events[n], After(events[..n]), id);
    }
  }

  /** However reads, reports and session restarts interleave: today's profit is the last
      cumulative reported less the one the day (or session) opened with. */
  lemma {:induction false} TodayIsTheHistory(events: seq<PnlEvent>, id: StrategyId, now: int)
    requires Chronological(events) && forall e :: e in events ==> e.at <= now
    ensures Today(After(events), id, now) == LastReported(events, id) - Opening(events, id, Day(now))
  {
    BucketsAreFaithful(events, id);
    if id in After(events) {
      RolledIsFaithful(events, After(events), id, now);
    } else {
      NeverReported(events, id, Day(now));
    }
  }

  // ----- Signals in a window -----

  datatype SignalEvent =
    | Recorded(at: int)
    | Counted(at: int, window: nat)

  /** Stale entries go from the front. */
  function Evicted(queue: seq<int>, cutoff: int): seq<int> {
    if queue != [] && queue[0] < cutoff then Evicted(queue[1..], cutoff) else queue
  }

  function QueueAfter(events: seq<SignalEvent>): seq<int> {
    if events == [] then []
    else
      var before := QueueAfter(events[..|events| - 1]);
      match events[|events| - 1]
      case Recorded(at) => before + [at]
      case Counted(at, window) => Evicted(before, at - window)
  }

  predicate InOrder(events: seq<SignalEvent>) {
    forall i, j :: 0 <= i < j < |events| ==> events[i].at <= events[j].at
  }

  /** The furthest any count so far has evicted. */
  function Reach(events: seq<SignalEvent>): Option<int> {
    if events == [] then None
    else
      var before := Reach(events[..|events| - 1]);
      match events[|events| - 1]
      case Recorded(_) => before
      case Counted(at, window) => Further(before, at - window)
  }

  function Further(reach: Option<int>, cutoff: int): Option<int> {
    if reach.Some? && reach.value > cutoff then reach else Some(cutoff)
  }

  /** Every timestamp ever recorded. */
  function AllRecorded(events: seq<SignalEvent>): seq<int> {
    if events == [] then []
    else
      var e := events[|events| - 1];
      AllRecorded(events[..|events| - 1]) + if e.Recorded? then [e.at] else []
  }

  predicate Sorted(xs: seq<int>) { forall i, j :: 0 <= i < j < |xs| ==> xs[i] <= xs[j] }

  /** Those at `from` or later. */
  function Since(xs: seq<int>, from: int): seq<int> {
    if xs == [] then []
    else Since(xs[..|xs| - 1], from) + if xs[|xs| - 1] >= from then [xs[|xs| - 1]] else []
  }

  lemma {:induction false} SinceSplits(a: seq<int>, b: seq<int>, from: int)
    ensures Since(a + b, from) == Since(a, from) + Since(b, from)
  {
    if b == [] {
      assert a + b == a;
    } else {
      assert (a + b)[..|a + b| - 1] == a + b[..|b| - 1];
      SinceSplits(a, b[..|b| - 1], from);
    }
  }

  lemma {:induction false} AllSince(xs: seq<int>, from: int)
    requires forall i :: 0 <= i < |xs| ==> xs[i] >= from
    ensures Since(xs, from) == xs
  {
    if xs != [] {
      AllSince(xs[..|xs| - 1], from);
    }
  }

  lemma {:induction false} EvictionKeepsTheRecent(queue: seq<int>, cutoff: int)
    requires Sorted(queue)
    ensures Evicted(queue, cutoff) == Since(queue, cutoff)
  {
    if queue != [] && queue[0] < cutoff {
      EvictionKeepsTheRecent(queue[1..], cutoff);
      assert queue == [queue[0]] + queue[1..];
      SinceSplits([queue[0]], queue[1..], cutoff);
    } else {
      AllSince(queue, cutoff);
    }
  }

  lemma {:induction false} SinceTwice(xs: seq<int>, from: int, later: int)
    ensures Since(Since(xs, from), later) == Since(xs, if from > later then from else later)
  {
    if xs != [] {
      var n := |xs| - 1;
      SinceTwice(xs[..n], from, later);
      SinceSplits(Since(xs[..n], from), if xs[n] >= from then [xs[n]] else [], later);
      AllSince([], later);
    }
  }

  lemma {:induction false} SortedSnoc(xs: seq<int>, x: int)
    requires Sorted(xs) && forall y :: y in xs ==> y <= x
    ensures Sorted(xs + [x])
  {
    assert forall i :: 0 <= i < |xs| ==> xs[i] in xs;
  }

  lemma {:induction false} SinceKeepsSorted(xs: seq<int>, from: int)
    requires Sorted(xs)
    ensures Sorted(Since(xs, from)) && forall x :: x in Since(xs, from) ==> x in xs
  {
    if xs != [] {
      var n := |xs| - 1;
      SinceKeepsSorted(xs[..n], from);
      forall y | y in Since(xs[..n], from) ensures y <= xs[n] {
        var i :| 0 <= i < n && xs[..n][i] == y;
      }
      if xs[n] >= from {
        SortedSnoc(Since(xs[..n], from), xs[n]);
      } else {
        assert Since(xs, from) == Since(xs[..n], from);
      }
    }
  }

  lemma {:induction false} RecordsAreSorted(events: seq<SignalEvent>)
    requires InOrder(events)
    ensures Sorted(AllRecorded(events))
    ensures forall x :: x in AllRecorded(events) ==> events != [] && x <= events[|events| - 1].at
  {
    if events != [] {
      var before := events[..|events| - 1];
      var e := events[|events| - 1];
      RecordsAreSorted(before);
      if e.Recorded? {
        SortedSnoc(AllRecorded(before), e.at);
      } else {
        assert AllRecorded(events) == AllRecorded(before);
      }
    }
  }

  lemma {:induction false} ReachIsPast(events: seq<SignalEvent>)
    requires InOrder(events)
    ensures Reach(events).Some? ==> events != [] && Reach(events).value <= events[|events| - 1].at
  {
    if events != [] {
      ReachIsPast(events[..|events| - 1]);
    }
  }

  function Kept(all: seq<int>, reach: Option<int>): seq<int> {
    if reach.None? then all else Since(all, reach.value)
  }

  lemma {:induction false} EvictedFrom(all: seq<int>, reach: Option<int>, cutoff: int)
    requires Sorted(all)
    ensures Evicted(Kept(all, reach), cutoff) == Kept(all, Further(reach, cutoff))
  {
    if reach.Some? {
      SinceKeepsSorted(all, reach.value);
      SinceTwice(all, reach.value, cutoff);
    }
    EvictionKeepsTheRecent(Kept(all, reach), cutoff);
  }

  /** The queue holds what no count has reached yet. */
  lemma {:induction false} QueueIsWhatIsKept(events: seq<SignalEvent>)
    requires InOrder(events)
    ensures QueueAfter(events) == Kept(AllRecorded(events), Reach(events))
  {
    if events != [] {
      var before := events[..|events| - 1];
      QueueIsWhatIsKept(before);
      RecordsAreSorted(before);
      ReachIsPast(before);
      match events[|events| - 1] {
        case Recorded(at) =>
        case Counted(at, window) =>
          assert AllRecorded(events) == AllRecorded(before);
          EvictedFrom(AllRecorded(before), Reach(before), at - window);
      }
    }
  }

  /** What `signals_in_window` returns. */
  function CountNow(events: seq<SignalEvent>, now: int, window: nat): nat {
    |Evicted(QueueAfter(events), now - window)|
  }

  lemma {:induction false} FewerSinceLater(xs: seq<int>, from: int, later: int)
    requires from <= later
    ensures |Since(xs, later)| <= |Since(xs, from)|
    ensures |Since(xs, later)| == |Since(xs, from)| <==> forall x :: x in xs ==> !(from <= x < later)
  {
    if xs != [] {
      var n := |xs| - 1;
      FewerSinceLater(xs[..n], from, later);
      assert xs[n] in xs && forall x :: x in xs[..n] ==> x in xs;
      assert forall x :: x in xs ==> x in xs[..n] || x == xs[n];
    }
  }

  /** The count is right exactly when no signal inside the window was evicted by an earlier,
      tighter count; otherwise it is too low. */
  lemma {:induction false} CountIsRightIffNothingEvicted(events: seq<SignalEvent>, now: int, window: nat)
    requires InOrder(events)
    ensures CountNow(events, now, window) <= |Since(AllRecorded(events), now - window)|
    ensures CountNow(events, now, window) == |Since(AllRecorded(events), now - window)| <==>
              (Reach(events).Some? ==> forall x :: x in AllRecorded(events) ==> !(now - window <= x < Reach(events).value))
  {
    QueueIsWhatIsKept(events);
    RecordsAreSorted(events);
    EvictedFrom(AllRecorded(events), Reach(events), now - window);
    if Reach(events).Some? && Reach(events).value > now - window {
      FewerSinceLater(AllRecorded(events), now - window, Reach(events).value);
    }
  }

  /** A signal ten nanoseconds old, counted once over the last one and then over the last
      twenty: the second count misses it. */
  lemma {:induction false} TighterCountEvicts()
    ensures var events := [Recorded(0), Counted(10, 1)];
            InOrder(events) && CountNow(events, 10, 20) == 0 && |Since(AllRecorded(events), 10 - 20)| == 1
  {
    var first, events := [Recorded(0)], [Recorded(0), Counted(10, 1)];
    assert first[..|first| - 1] == [] && events[..|events| - 1] == first;
    assert [0][..0] == [] && [0][1..] == [] && [] + [0] == [0] && [0] + [] == [0];
    assert QueueAfter(first) == [0] && AllRecorded(first) == [0];
    assert Evicted([0], 9) == [];
    assert QueueAfter(events) == [] && AllRecorded(events) == [0];
    assert Since([0], -10) == [0];
  }

  lemma {:induction false} OneWindowReach(events: seq<SignalEvent>, window: nat, now: int)
    requires forall e :: e in events ==> e.at <= now && (e.Counted? ==> e.window == window)
    ensures Reach(events).Some? ==> Reach(events).value <= now - window
  {
    if events != [] {
      assert events[|events| - 1] in events;
      OneWindowReach(events[..|events| - 1], window, now);
    }
  }

  /** With one window size the lazy count is the direct count. */
  lemma {:induction false} OneWindowCountsDirectly(events: seq<SignalEvent>, window: nat, now: int)
    requires InOrder(events)
    requires forall e :: e in events ==> e.at <= now && (e.Counted? ==> e.window == window)
    ensures CountNow(events, now, window) == |Since(AllRecorded(events), now - window)|
  {
    OneWindowReach(events, window, now);
    CountIsRightIffNothingEvicted(events, now, window);
  }

  // ----- In place -----

  class RiskState {
    const throttleWindowNs: nat
    var dailyPnl: Buckets
    var recentSignals: map<StrategyId, seq<int>>

    constructor (throttleWindowNs: nat)
      ensures dailyPnl == map[] && recentSignals == map[] && this.throttleWindowNs == throttleWindowNs
    {
      this.throttleWindowNs, dailyPnl, recentSignals := throttleWindowNs, map[], map[];
    }

    ghost function SignalsOf(id: StrategyId): seq<int>
      reads this
    {
      if id in recentSignals then recentSignals[id] else []
    }

    method MaybeRollover(id: StrategyId, now: int)
      requires id in dailyPnl
      modifies this`dailyPnl
      ensures dailyPnl == old(dailyPnl)[id := Rolled(old(dailyPnl)[id], Day(now))]
    {
      var today := now / NS_PER_DAY;
      var bucket := dailyPnl[id];
      if bucket.dayIndex != today {
        bucket := bucket.(baseline := bucket.realized, dayIndex := today);
        dailyPnl := dailyPnl[id := bucket];
      }
    }

    method GetRealizedPnlToday(id: StrategyId, now: int) returns (pnl: real)
      modifies this`dailyPnl
      ensures dailyPnl == AfterEvent(old(dailyPnl), Read(id, now))
      ensures pnl == Today(old(dailyPnl), id, now)
    {
      if id !in dailyPnl {
        return 0.0;
      }
      MaybeRollover(id, now);
      pnl := dailyPnl[id].realized - dailyPnl[id].baseline;
    }

    method ApplyPositionUpdate(id: StrategyId, realized: real, now: int)
      modifies this`dailyPnl
      ensures dailyPnl == AfterEvent(old(dailyPnl), Reported(id, now, realized))
    {
      if id !in dailyPnl {
        dailyPnl := dailyPnl[id := DailyPnl(0.0, now / NS_PER_DAY, realized)];
      } else {
        MaybeRollover(id, now);
        dailyPnl := dailyPnl[id := dailyPnl[id].(realized := realized)];
      }
    }

    method StartNewSession(now: int)
      modifies this`dailyPnl
      ensures dailyPnl == AfterEvent(old(dailyPnl), NewSession(now))
    {
      var todo := dailyPnl.Keys;
      while todo != {}
        invariant dailyPnl.Keys == old(dailyPnl).Keys && todo <= dailyPnl.Keys
        invariant forall id :: id in todo ==> dailyPnl[id] == old(dailyPnl)[id]
        invariant forall id :: id in dailyPnl.Keys - todo ==> dailyPnl[id] == AfterEvent(old(dailyPnl), NewSession(now))[id]
        decreases todo
      {
        var id :| id in todo;
        var bucket := dailyPnl[id];
        dailyPnl := dailyPnl[id := bucket.(baseline := bucket.realized, dayIndex := now / NS_PER_DAY)];
        todo := todo - {id};
      }
    }

    method RecordSignal(id: StrategyId, now: int)
      modifies this`recentSignals
      ensures recentSignals == old(recentSignals)[id := old(SignalsOf(id)) + [now]]
    {
      recentSignals := recentSignals[id := (if id in recentSignals then recentSignals[id] else []) + [now]];
    }

    method SignalsInWindow(id: StrategyId, windowNs: Option<nat>, now: int) returns (count: nat)
      modifies this`recentSignals
      ensures var window := if windowNs.Some? then windowNs.value else throttleWindowNs;
              && count == |Evicted(old(SignalsOf(id)), now - window)|
              && recentSignals == if id in old(recentSignals) then old(recentSignals)[id := Evicted(old(SignalsOf(id)), now - window)]
                                  else old(recentSignals)
    {
      var window := if windowNs.Some? then windowNs.value else throttleWindowNs;
      var cutoff := now - window;
      if id !in recentSignals {
        return 0;
      }
      var queue := recentSignals[id];
      while queue != [] && queue[0] < cutoff
        invariant Evicted(queue, cutoff) == Evicted(old(SignalsOf(id)), cutoff)
        decreases |queue|
      {
        queue := queue[1..];
      }
      recentSignals := recentSignals[id := queue];
      count := |queue|;
    }
  }
}
