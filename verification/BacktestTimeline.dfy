/** The schedule of a backtest's venue events: a priority queue by due time, and by order of
    submission among equals. */
module BacktestTimeline {
  import opened Types
  import opened BacktestMatching

  datatype Scheduled = Scheduled(dueNs: int, seqNo: nat, message: Message)

  datatype Publication = Publication(atNs: int, item: Scheduled)

  /** `submitted` is everything ever scheduled, in order; `schedule` is what is waiting, the
      earliest first; `published` is what has been published, and when. */
  datatype Timeline = Timeline(submitted: seq<Scheduled>, schedule: seq<Scheduled>, published: seq<Publication>)

  const EmptyTimeline := Timeline([], [], [])

  const NS_PER_MS: real := 1_000_000.0

  /** Conversion to int truncates toward zero. */
  function Truncated(r: real): int {
    if r >= 0.0 then r.Floor else -((-r).Floor)
  }

  function DelayNs(delayMs: real): nat {
    var ns := Truncated(delayMs * NS_PER_MS);
    if ns > 0 then ns else 0
  }

  /** A delay is the whole nanoseconds of its milliseconds; a negative one counts as none. */
  lemma {:induction false} DelayIsWholeNanoseconds(delayMs: real)
    ensures delayMs >= 0.0 ==> DelayNs(delayMs) as real <= delayMs * 1_000_000.0 < DelayNs(delayMs) as real + 1.0
    ensures delayMs < 0.0 ==> DelayNs(delayMs) == 0
  {
  }

  predicate Before(a: Scheduled, b: Scheduled) {
    a.dueNs < b.dueNs || (a.dueNs == b.dueNs && a.seqNo < b.seqNo)
  }

  /** The queue's contract for a push: the item goes in before the first later one. */
  function Inserted(queue: seq<Scheduled>, x: Scheduled): seq<Scheduled> {
    if queue == [] then [x]
    else if Before(x, queue[0]) then [x] + queue
    else [queue[0]] + Inserted(queue[1..], x)
  }

  function WithItem(t: Timeline, x: Scheduled): Timeline {
    t.(submitted := t.submitted + [x], schedule := Inserted(t.schedule, x))
  }

  function Pushed(t: Timeline, nowNs: int, e: Emission): Timeline {
    WithItem(t, Scheduled(nowNs + DelayNs(e.delayMs), |t.submitted|, e.message))
  }

  function PushedAll(t: Timeline, nowNs: int, es: seq<Emission>): Timeline {
    if es == [] then t else Pushed(PushedAll(t, nowNs, es[..|es| - 1]), nowNs, es[|es| - 1])
  }

  function Popped(t: Timeline, nowNs: int): Timeline
    requires t.schedule != []
  {
    t.(schedule := t.schedule[1..], published := t.published + [Publication(nowNs, t.schedule[0])])
  }

  // ----- The invariant -----

  function Items(published: seq<Publication>): seq<Scheduled> {
    seq(|published|, i requires 0 <= i < |published| => published[i].item)
  }

  /** What was published, then what waits. */
  function Whole(t: Timeline): seq<Scheduled> { Items(t.published) + t.schedule }

  predicate Sorted(q: seq<Scheduled>) {
    forall i, j :: 0 <= i < j < |q| ==> Before(q[i], q[j])
  }

  /** Nothing is lost or doubled, everything is in order, nothing waiting is overdue, and
      everything published was published at its due time. */
  predicate Sound(t: Timeline, nowNs: int) {
    && Sorted(Whole(t))
    && multiset(Whole(t)) == multiset(t.submitted)
    && (forall i :: 0 <= i < |t.submitted| ==> t.submitted[i].seqNo == i)
    && (forall i :: 0 <= i < |t.schedule| ==> t.schedule[i].dueNs >= nowNs)
    && (forall i :: 0 <= i < |t.published| ==> t.published[i].atNs == t.published[i].item.dueNs <= nowNs)
  }

  // ----- What keeps it -----

  lemma {:induction false} InsertMembers(queue: seq<Scheduled>, x: Scheduled)
    ensures forall y :: y in Inserted(queue, x) <==> y in queue || y == x
  {
    if queue != [] && !Before(x, queue[0]) {
      InsertMembers(queue[1..], x);
      assert queue == [queue[0]] + queue[1..];
    }
  }

  lemma {:induction false} InsertKeepsSorted(queue: seq<Scheduled>, x: Scheduled)
    requires Sorted(queue) && forall i :: 0 <= i < |queue| ==> queue[i].seqNo < x.seqNo
    ensures Sorted(Inserted(queue, x))
  {
    if queue != [] && !Before(x, queue[0]) {
      var rest := queue[1..];
      InsertKeepsSorted(rest, x);
      InsertMembers(rest, x);
      var r := Inserted(rest, x);
      forall j | 0 <= j < |r| ensures Before(queue[0], r[j]) {
        assert r[j] in r;
      }
    }
  }

  lemma {:induction false} SortedJoin(a: seq<Scheduled>, b: seq<Scheduled>)
    ensures Sorted(a + b) <==> Sorted(a) && Sorted(b) && forall x, y :: x in a && y in b ==> Before(x, y)
  {
    if Sorted(a + b) {
      forall x, y | x in a && y in b ensures Before(x, y) {
        var i :| 0 <= i < |a| && a[i] == x;
        var j :| 0 <= j < |b| && b[j] == y;
        assert (a + b)[i] == x && (a + b)[|a| + j] == y;
      }
      forall i, j | 0 <= i < j < |b| ensures Before(b[i], b[j]) {
        assert (a + b)[|a| + i] == b[i] && (a + b)[|a| + j] == b[j];
      }
      forall i, j | 0 <= i < j < |a| ensures Before(a[i], a[j]) {
        assert (a + b)[i] == a[i] && (a + b)[j] == a[j];
      }
    }
  }

  lemma {:induction false} SeqNosBelow(t: Timeline, nowNs: int, x: Scheduled)
    requires Sound(t, nowNs) && x in Whole(t)
    ensures x.seqNo < |t.submitted|
  {
    assert x in multiset(Whole(t));
    assert x in multiset(t.submitted);
    assert x in t.submitted;
  }

  function MessagesOf(items: seq<Scheduled>): seq<Message> {
    seq(|items|, i requires 0 <= i < |items| => items[i].message)
  }

  /** An item submitted last and not overdue goes after everything published. */
  lemma {:induction false} PublishedComesFirst(t: Timeline, nowNs: int, x: Scheduled, a: Scheduled)
    requires Sound(t, nowNs) && x.dueNs >= nowNs && x.seqNo == |t.submitted| && a in Items(t.published)
    ensures Before(a, x)
  {
    assert a in Whole(t);
    SeqNosBelow(t, nowNs, a);
    var i :| 0 <= i < |t.published| && Items(t.published)[i] == a;
    assert t.published[i].item == a;
  }

  lemma {:induction false} WaitingNumbersBelow(t: Timeline, nowNs: int)
    requires Sound(t, nowNs)
    ensures forall i :: 0 <= i < |t.schedule| ==> t.schedule[i].seqNo < |t.submitted|
  {
    forall i | 0 <= i < |t.schedule| ensures t.schedule[i].seqNo < |t.submitted| {
      assert t.schedule[i] in Whole(t);
      SeqNosBelow(t, nowNs, t.schedule[i]);
    }
  }

  lemma {:induction false} PushKeepsOrder(t: Timeline, nowNs: int, x: Scheduled)
    requires Sound(t, nowNs) && x.dueNs >= nowNs && x.seqNo == |t.submitted|
    ensures Sorted(Items(t.published) + Inserted(t.schedule, x))
  {
    var done := Items(t.published);
    SortedJoin(done, t.schedule);
    WaitingNumbersBelow(t, nowNs);
    InsertKeepsSorted(t.schedule, x);
    InsertMembers(t.schedule, x);
    var queue := Inserted(t.schedule, x);
    forall a, b | a in done && b in queue ensures Before(a, b) {
      if b == x {
        PublishedComesFirst(t, nowNs, x, a);
      }
    }
    SortedJoin(done, queue);
  }

  lemma {:induction false} InsertAdds(queue: seq<Scheduled>, x: Scheduled)
    ensures multiset(Inserted(queue, x)) == multiset(queue) + multiset{x}
  {
    if queue != [] && !Before(x, queue[0]) {
      InsertAdds(queue[1..], x);
      assert queue == [queue[0]] + queue[1..];
    }
  }

  lemma {:induction false} InsertKeepsDue(queue: seq<Scheduled>, x: Scheduled, nowNs: int)
    requires x.dueNs >= nowNs && forall i :: 0 <= i < |queue| ==> queue[i].dueNs >= nowNs
    ensures var q := Inserted(queue, x); forall i :: 0 <= i < |q| ==> q[i].dueNs >= nowNs
  {
    InsertMembers(queue, x);
    var q := Inserted(queue, x);
    assert forall i :: 0 <= i < |q| ==> q[i] in q;
  }

  lemma {:induction false} PushLosesNothing(t: Timeline, x: Scheduled)
    requires multiset(Whole(t)) == multiset(t.submitted)
    ensures multiset(Items(t.published) + Inserted(t.schedule, x)) == multiset(t.submitted + [x])
  {
    InsertAdds(t.schedule, x);
  }

  lemma {:induction false} ItemKeepsSound(t: Timeline, nowNs: int, x: Scheduled)
    requires Sound(t, nowNs) && x.dueNs >= nowNs && x.seqNo == |t.submitted|
    ensures Sound(WithItem(t, x), nowNs)
  {
    PushKeepsOrder(t, nowNs, x);
    PushLosesNothing(t, x);
    InsertKeepsDue(t.schedule, x, nowNs);
  }

  lemma {:induction false} PushKeepsSound(t: Timeline, nowNs: int, e: Emission)
    requires Sound(t, nowNs)
    ensures Sound(Pushed(t, nowNs, e), nowNs)
  {
    var x := Scheduled(nowNs + DelayNs(e.delayMs), |t.submitted|, e.message);
    ItemKeepsSound(t, nowNs, x);
    assert Pushed(t, nowNs, e) == WithItem(t, x);
  }

  /** What is pushed is due its delay from now, and comes after everything submitted before. */
  lemma {:induction false} PushedIsDueLater(t: Timeline, nowNs: int, e: Emission)
    ensures var t' := Pushed(t, nowNs, e);
            && t'.published == t.published && |t'.submitted| == |t.submitted| + 1 && t.submitted <= t'.submitted
            && var x := t'.submitted[|t.submitted|];
            && x.message == e.message && x.seqNo == |t.submitted|
            && x.dueNs >= nowNs && (e.delayMs >= 0.0 ==> (x.dueNs - nowNs) as real <= e.delayMs * 1_000_000.0 < (x.dueNs - nowNs) as real + 1.0)
            && (e.delayMs < 0.0 ==> x.dueNs == nowNs)
            && multiset(t'.schedule) == multiset(t.schedule) + multiset{x}
  {
    DelayIsWholeNanoseconds(e.delayMs);
    InsertAdds(t.schedule, Scheduled(nowNs + DelayNs(e.delayMs), |t.submitted|, e.message));
  }

  lemma {:induction false} PushAllKeepsSound(t: Timeline, nowNs: int, es: seq<Emission>)
    requires Sound(t, nowNs)
    ensures Sound(PushedAll(t, nowNs, es), nowNs)
  {
    if es != [] {
      var n := |es| - 1;
      PushAllKeepsSound(t, nowNs, es[..n]);
      PushKeepsSound(PushedAll(t, nowNs, es[..n]), nowNs, es[n]);
    }
  }

  /** Pushing publishes nothing and submits exactly the messages. */
  lemma {:induction false} PushAllSubmits(t: Timeline, nowNs: int, es: seq<Emission>)
    ensures PushedAll(t, nowNs, es).published == t.published
    ensures MessagesOf(PushedAll(t, nowNs, es).submitted) == MessagesOf(t.submitted) + Messages(es)
  {
    if es != [] {
      var n := |es| - 1;
      PushAllSubmits(t, nowNs, es[..n]);
      var t1 := PushedAll(t, nowNs, es[..n]);
      assert MessagesOf(Pushed(t1, nowNs, es[n]).submitted) == MessagesOf(t1.submitted) + [es[n].message];
      assert Messages(es) == Messages(es[..n]) + [es[n].message];
    }
  }

  lemma {:induction false} PopKeepsSound(t: Timeline, nowNs: int)
    requires Sound(t, nowNs) && t.schedule != [] && t.schedule[0].dueNs <= nowNs
    ensures Sound(Popped(t, nowNs), nowNs)
  {
    var t' := Popped(t, nowNs);
    assert Whole(t') == Whole(t);
    assert t.schedule[0].dueNs == nowNs;
  }

  lemma {:induction false} TimePassesSound(t: Timeline, nowNs: int, laterNs: int)
    requires Sound(t, nowNs) && nowNs <= laterNs
    requires t.schedule != [] ==> laterNs <= t.schedule[0].dueNs
    ensures Sound(t, laterNs)
  {
    forall i | 0 <= i < |t.schedule| ensures t.schedule[i].dueNs >= laterNs {
      if i > 0 {
        var n := |t.published|;
        assert Whole(t)[n] == t.schedule[0] && Whole(t)[n + i] == t.schedule[i];
      }
    }
  }

  /** A run that ends with nothing waiting has published exactly what was submitted, each
      event once and at its due time, in strictly increasing order of due time and
      submission. */
  lemma {:induction false} EverythingPublishedOnTime(t: Timeline, nowNs: int)
    requires Sound(t, nowNs) && t.schedule == []
    ensures multiset(Items(t.published)) == multiset(t.submitted)
    ensures forall i :: 0 <= i < |t.published| ==> t.published[i].atNs == t.published[i].item.dueNs
    ensures forall i, j :: 0 <= i < j < |t.published| ==> Before(t.published[i].item, t.published[j].item)
  {
    assert Whole(t) == Items(t.published);
    forall i, j | 0 <= i < j < |t.published| ensures Before(t.published[i].item, t.published[j].item) {
      assert Whole(t)[i] == t.published[i].item && Whole(t)[j] == t.published[j].item;
    }
  }
}
