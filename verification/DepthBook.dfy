/** Keeping a book in step with a venue's depth stream: diffs are buffered until a snapshot
    arrives, the buffer is replayed over it, and from there each diff must follow on. */
module DepthBooks {
  import opened Types
  import opened OrderBooks

  /** A depth update covering the venue's update ids `first`..`last`. */
  datatype Diff = Diff(first: nat, last: nat, bids: seq<Level>, asks: seq<Level>)

  datatype Snapshot = Snapshot(id: nat, bids: seq<Level>, asks: seq<Level>)

  const SNAPSHOT_LIMIT: nat := 1000

  datatype Manager = Manager(
    book: BookState,
    buffer: seq<Diff>,
    pending: bool,
    snapshotId: Option<nat>,
    lastU: Option<nat>
  )

  const NewManager := Manager(EmptyBook, [], false, None, None)

  datatype Event =
    | BeginBootstrap
    | SnapshotArrives(snapshot: Snapshot)
    | DiffArrives(diff: Diff)

  function NextSequence(b: BookState): int {
    (if b.sequence.Some? then b.sequence.value else 0) + 1
  }

  function ApplyEvent(m: Manager, d: Diff): Manager {
    m.(book := AfterDelta(m.book, NextSequence(m.book), d.bids, d.asks), lastU := Some(d.last))
  }

  function Covers(d: Diff, id: nat): bool { d.first <= id <= d.last }

  function Abort(m: Manager): Manager {
    m.(book := EmptyBook, lastU := None, snapshotId := None)
  }

  /** Replay of the buffer over snapshot `id`. `applied` tells whether a diff was applied. */
  function Replay(m: Manager, id: nat, applied: bool): Manager
    decreases |m.buffer|
  {
    if m.buffer == [] then m
    else
      var d := m.buffer[0];
      var popped := m.(buffer := m.buffer[1..]);
      if d.last <= id then Replay(popped, id, applied)
      else if !applied && !Covers(d, id + 1) then Abort(popped)
      else Replay(ApplyEvent(popped, d), id, true)
  }

  function Primed(m: Manager, s: Snapshot): Manager {
    m.(book := AfterSnapshot(s.id, s.bids, s.asks), snapshotId := Some(s.id), lastU := Some(s.id))
  }

  predicate Buffers(m: Manager) { m.pending || !m.book.initialized }

  /** The live diff does not follow on; the source raises after resetting. */
  predicate Gap(m: Manager, d: Diff) { m.lastU.Some? && d.first != m.lastU.value + 1 }

  function Step(m: Manager, e: Event): Manager {
    match e
    case BeginBootstrap => m.(pending := true)
    case SnapshotArrives(s) => Replay(Primed(m, s), s.id, false).(pending := false)
    case DiffArrives(d) =>
      if Buffers(m) then m.(buffer := m.buffer + [d])
      else if Gap(m, d) then m.(book := EmptyBook, lastU := None)
      else ApplyEvent(m, d)
  }

  // ----- The manager in place -----

  class DepthBookManager {
    const book: L2OrderBook
    var buffer: seq<Diff>
    var pending: bool
    var snapshotId: Option<nat>
    var lastU: Option<nat>

    ghost function View(): Manager
      reads this, book
    {
      Manager(book.View(), buffer, pending, snapshotId, lastU)
    }

    ghost predicate Valid()
      reads this, book
    {
      book.initialized ==> book.sequence.Some?
    }

    constructor ()
      ensures Valid() && View() == NewManager
      ensures fresh(book)
    {
      book := new L2OrderBook();
      buffer, pending, snapshotId, lastU := [], false, None, None;
    }

    /** Up to the request for the snapshot; a failed request leaves it at that. */
    method BeginBootstrap()
      requires Valid()
      modifies this
      ensures Valid() && View() == Step(old(View()), Event.BeginBootstrap)
    {
      pending := true;
    }

    /** From the snapshot's arrival on. */
    method FinishBootstrap(s: Snapshot)
      requires Valid()
      modifies this, book
      ensures Valid() && View() == Step(old(View()), SnapshotArrives(s))
    {
      book.ApplySnapshot(s.id, s.bids, s.asks);
      snapshotId := Some(s.id);
      lastU := Some(s.id);
      ReplayBuffer(s.id);
      pending := false;
    }

    method ReplayBuffer(id: nat)
      requires book.initialized && book.sequence.Some?
      modifies this, book
      ensures Valid() && View() == Replay(old(View()), id, false)
    {
      var target := id + 1;
      var firstApplied := false;
      while buffer != []
        invariant book.initialized && book.sequence.Some?
        invariant Replay(View(), id, firstApplied) == Replay(old(View()), id, false)
        decreases |buffer|
      {
        var d := buffer[0];
        buffer := buffer[1..];
        if d.last <= id {
          continue;
        }
        if !firstApplied {
          if !(d.first <= target <= d.last) {
            book.Reset();
            lastU := None;
            snapshotId := None;
            return;
          }
          firstApplied := true;
        }
        ApplyEventToBook(d);
      }
    }

    /** `gap` is the error the source raises. */
    method ApplyDiff(d: Diff) returns (gap: bool)
      requires Valid()
      modifies this, book
      ensures Valid() && View() == Step(old(View()), DiffArrives(d))
      ensures gap <==> !Buffers(old(View())) && Gap(old(View()), d)
      ensures !old(pending) && old(book.initialized) && !gap ==> book.initialized && lastU == Some(d.last)
      ensures old(pending) || !old(book.initialized) ==> buffer == old(buffer) + [d]
    {
      if pending || !book.initialized {
        buffer := buffer + [d];
        return false;
      }
      if lastU.Some? && d.first != lastU.value + 1 {
        book.Reset();
        lastU := None;
        return true;
      }
      ApplyEventToBook(d);
      gap := false;
    }

    /** The book's own gap check never fires here. */
    method ApplyEventToBook(d: Diff)
      requires book.initialized && book.sequence.Some?
      modifies this, book
      ensures View() == ApplyEvent(old(View()), d)
      ensures book.initialized && book.sequence.Some?
    {
      var current := if book.sequence.Some? then book.sequence.value else 0;
      var outcome := book.ApplyDelta(current + 1, d.bids, d.asks);
      assert outcome == Done;
      lastU := Some(d.last);
    }
  }

  // ----- The venue -----

  /** One side of the venue's book as a history: `changes[k]` is what update k + 1 did. */
  type History = seq<seq<Level>>

  datatype Venue = Venue(bids: History, asks: History)

  function LevelsAt(changes: History, k: nat): Levels
    requires k <= |changes|
  {
    if k == 0 then map[] else Applied(LevelsAt(changes, k - 1), changes[k - 1])
  }

  /** A diff's listing of one side: each price it names at its quantity as of `last`, and
      every price the updates `first`..`last` touched. */
  ghost predicate TruthfulListing(changes: History, first: nat, last: nat, listing: seq<Level>)
    requires 1 <= first <= last <= |changes|
  {
    && (forall i :: 0 <= i < |listing| ==> listing[i].quantity == Quoted(LevelsAt(changes, last), listing[i].price))
    && (forall k, p | first - 1 <= k < last && Names(changes[k], p) :: Names(listing, p))
  }

  ghost predicate TruthfulDiff(v: Venue, d: Diff) {
    && 1 <= d.first <= d.last <= |v.bids| && d.last <= |v.asks|
    && TruthfulListing(v.bids, d.first, d.last, d.bids)
    && TruthfulListing(v.asks, d.first, d.last, d.asks)
  }

  /** The prices a listing of the best levels speaks for: all of them unless it was cut off
      at the limit, otherwise those no worse than its worst. */
  ghost function BidReach(listing: seq<Level>): iset<Price> {
    iset p | NoWorseBid(listing, p)
  }

  predicate NoWorseBid(listing: seq<Level>, p: Price) {
    |listing| < SNAPSHOT_LIMIT || exists i :: 0 <= i < |listing| && listing[i].price <= p
  }

  ghost function AskReach(listing: seq<Level>): iset<Price> {
    iset p | NoWorseAsk(listing, p)
  }

  predicate NoWorseAsk(listing: seq<Level>, p: Price) {
    |listing| < SNAPSHOT_LIMIT || exists i :: 0 <= i < |listing| && listing[i].price >= p
  }

  ghost predicate TruthfulSide(truth: Levels, listing: seq<Level>, reach: iset<Price>) {
    && (forall i :: 0 <= i < |listing| ==> listing[i].quantity == Quoted(truth, listing[i].price) >= 0.0)
    && (forall p :: p in truth && p in reach ==> Names(listing, p))
  }

  ghost predicate TruthfulSnapshot(v: Venue, s: Snapshot) {
    && s.id <= |v.bids| && s.id <= |v.asks|
    && TruthfulSide(LevelsAt(v.bids, s.id), s.bids, BidReach(s.bids))
    && TruthfulSide(LevelsAt(v.asks, s.id), s.asks, AskReach(s.asks))
  }

  /** Every level kept is right, and none within reach is missing. */
  ghost predicate Agrees(levels: Levels, truth: Levels, reach: iset<Price>) {
    forall p :: p in levels || p in reach ==> Quoted(levels, p) == Quoted(truth, p)
  }

  predicate NoZeros(levels: Levels) { forall p :: p in levels ==> levels[p] != 0.0 }

  datatype Reach = Reach(bids: iset<Price>, asks: iset<Price>)

  ghost predicate BookIsTrue(v: Venue, m: Manager, r: Reach) {
    && m.lastU.Some? && m.lastU.value <= |v.bids| && m.lastU.value <= |v.asks|
    && Agrees(m.book.bids, LevelsAt(v.bids, m.lastU.value), r.bids)
    && Agrees(m.book.asks, LevelsAt(v.asks, m.lastU.value), r.asks)
    && NoZeros(m.book.bids) && NoZeros(m.book.asks)
  }

  // ----- Diffs and snapshots against the venue -----

  lemma {:induction false} UntouchedStays(changes: History, from: nat, to: nat, p: Price)
    requires from <= to <= |changes|
    requires forall k :: from <= k < to ==> !Names(changes[k], p)
    ensures Quoted(LevelsAt(changes, from), p) == Quoted(LevelsAt(changes, to), p)
  {
    if from < to {
      UntouchedStays(changes, from, to - 1, p);
      assert !Names(changes[to - 1], p);
      var updates := changes[to - 1];
      assert forall i :: 0 <= i < |updates| ==> updates[i].price != p;
      AppliedQuotes(LevelsAt(changes, to - 1), updates, p, 0.0);
    }
  }

  /** A diff covering `first`..`last` brings a book that is true at k to `last`, for any k
      with first <= k + 1 <= last. */
  lemma {:induction false} DiffAdvances(changes: History, levels: Levels, k: nat, first: nat, last: nat, listing: seq<Level>, reach: iset<Price>)
    requires 1 <= first <= k + 1 <= last <= |changes|
    requires TruthfulListing(changes, first, last, listing)
    requires Agrees(levels, LevelsAt(changes, k), reach)
    ensures Agrees(Applied(levels, listing), LevelsAt(changes, last), reach)
  {
    var levels' := Applied(levels, listing);
    var truth := LevelsAt(changes, last);
    forall p | p in levels' || p in reach ensures Quoted(levels', p) == Quoted(truth, p) {
      AppliedQuotes(levels, listing, p, Quoted(truth, p));
      if !Names(listing, p) {
        KeptWhereSilent(levels, listing, p);
        UntouchedStays(changes, k, last, p);
      }
    }
  }

  lemma {:induction false} KeptWhereSilent(levels: Levels, updates: seq<Level>, p: Price)
    requires !Names(updates, p)
    ensures p in Applied(levels, updates) <==> p in levels
  {
    if updates != [] {
      var n := |updates| - 1;
      assert updates[n].price != p;
      assert forall i :: 0 <= i < n ==> updates[..n][i] == updates[i];
      KeptWhereSilent(levels, updates[..n], p);
    }
  }

  lemma {:induction false} AppliedHasNoZeros(levels: Levels, updates: seq<Level>)
    requires NoZeros(levels)
    ensures NoZeros(Applied(levels, updates))
  {
    if updates != [] {
      AppliedHasNoZeros(levels, updates[..|updates| - 1]);
    }
  }

  lemma {:induction false} ListedHasNoZeros(listing: seq<Level>)
    ensures NoZeros(Listed(listing))
  {
    if listing != [] {
      ListedHasNoZeros(listing[..|listing| - 1]);
    }
  }

  lemma {:induction false} TruthHasNoZeros(changes: History, k: nat)
    requires k <= |changes|
    ensures NoZeros(LevelsAt(changes, k))
  {
    if k > 0 {
      TruthHasNoZeros(changes, k - 1);
      AppliedHasNoZeros(LevelsAt(changes, k - 1), changes[k - 1]);
    }
  }

  lemma {:induction false} AgreementEverywhereIsEquality(levels: Levels, changes: History, k: nat, reach: iset<Price>)
    requires k <= |changes| && NoZeros(levels) && Agrees(levels, LevelsAt(changes, k), reach)
    requires forall p :: p in reach
    ensures levels == LevelsAt(changes, k)
  {
    var truth := LevelsAt(changes, k);
    TruthHasNoZeros(changes, k);
    forall p: Price ensures p in levels.Keys <==> p in truth.Keys {
      assert p in reach;
      assert Quoted(levels, p) == Quoted(truth, p);
    }
    assert levels.Keys == truth.Keys;
    forall p | p in levels ensures levels[p] == truth[p] {
      assert Quoted(levels, p) == Quoted(truth, p);
    }
  }

  lemma {:induction false} SnapshotAgrees(truth: Levels, listing: seq<Level>, reach: iset<Price>)
    requires TruthfulSide(truth, listing, reach)
    ensures Agrees(Listed(listing), truth, reach) && NoZeros(Listed(listing))
  {
    ListedHasNoZeros(listing);
    forall p | p in Listed(listing) || p in reach ensures Quoted(Listed(listing), p) == Quoted(truth, p) {
      if Names(listing, p) {
        ListedQuotes(listing, p, Quoted(truth, p));
      } else {
        ListedQuotes(listing, p, 0.0);
      }
    }
  }

  lemma {:induction false} EventKeepsBook(v: Venue, m: Manager, d: Diff, r: Reach)
    requires m.book.initialized && m.book.sequence.Some? && BookIsTrue(v, m, r)
    requires TruthfulDiff(v, d) && Covers(d, m.lastU.value + 1)
    ensures BookIsTrue(v, ApplyEvent(m, d), r)
    ensures ApplyEvent(m, d).book.initialized && ApplyEvent(m, d).book.sequence.Some?
  {
    DiffAdvances(v.bids, m.book.bids, m.lastU.value, d.first, d.last, d.bids, r.bids);
    DiffAdvances(v.asks, m.book.asks, m.lastU.value, d.first, d.last, d.asks, r.asks);
    AppliedHasNoZeros(m.book.bids, d.bids);
    AppliedHasNoZeros(m.book.asks, d.asks);
  }

  // ----- The invariant -----

  /** Each buffered diff that reaches beyond `id` is followed on by the next, which may
      overlap it. */
  predicate ChainedBeyond(buffer: seq<Diff>, id: nat) {
    forall i :: 0 <= i < |buffer| - 1 && buffer[i].last > id ==> Covers(buffer[i + 1], buffer[i].last + 1)
  }

  predicate Chained(buffer: seq<Diff>) {
    forall i :: 0 <= i < |buffer| - 1 ==> Covers(buffer[i + 1], buffer[i].last + 1)
  }

  ghost predicate Inv(v: Venue, m: Manager, r: Reach) {
    Synced(v, m, r) && Chained(m.buffer)
  }

  ghost predicate Synced(v: Venue, m: Manager, r: Reach) {
    && (m.book.initialized ==> m.book.sequence.Some? && BookIsTrue(v, m, r))
    && (forall d :: d in m.buffer ==> TruthfulDiff(v, d))
  }

  /** Once a diff is applied, the next one buffered follows on from it. */
  predicate FollowsOn(m: Manager, id: nat, applied: bool) {
    && m.lastU.Some? && (if applied then m.lastU.value > id else m.lastU.value == id)
    && (applied && m.buffer != [] ==> Covers(m.buffer[0], m.lastU.value + 1))
  }

  lemma {:induction false} ReplayKeepsSynced(v: Venue, m: Manager, id: nat, applied: bool, r: Reach)
    requires Synced(v, m, r) && m.book.initialized && FollowsOn(m, id, applied) && ChainedBeyond(m.buffer, id)
    ensures Synced(v, Replay(m, id, applied), r)
    decreases |m.buffer|
  {
    if m.buffer != [] {
      var d := m.buffer[0];
      assert d in m.buffer;
      var popped := m.(buffer := m.buffer[1..]);
      assert forall e :: e in popped.buffer ==> e in m.buffer;
      assert forall i :: 0 <= i < |popped.buffer| - 1 ==> popped.buffer[i] == m.buffer[i + 1];
      if d.last <= id {
        ReplayKeepsSynced(v, popped, id, applied, r);
      } else if applied || Covers(d, id + 1) {
        EventKeepsBook(v, popped, d, r);
        assert popped.buffer != [] ==> Covers(m.buffer[1], d.last + 1);
        ReplayKeepsSynced(v, ApplyEvent(popped, d), id, true, r);
      }
    }
  }

  /** What replay leaves in the buffer is the end of it. */
  lemma {:induction false} ReplayKeepsChain(m: Manager, id: nat, applied: bool)
    requires Chained(m.buffer)
    ensures Chained(Replay(m, id, applied).buffer)
    decreases |m.buffer|
  {
    if m.buffer != [] {
      var popped := m.(buffer := m.buffer[1..]);
      assert forall i :: 0 <= i < |popped.buffer| - 1 ==> popped.buffer[i] == m.buffer[i + 1];
      ReplayKeepsChain(popped, id, applied);
      ReplayKeepsChain(ApplyEvent(popped, m.buffer[0]), id, true);
    }
  }

  ghost function ReachOf(s: Snapshot): Reach { Reach(BidReach(s.bids), AskReach(s.asks)) }

  /** What the environment owes: truthful messages, and no hole in what is buffered. Live
      diffs may skip any number of updates. */
  ghost predicate Honest(v: Venue, m: Manager, e: Event) {
    match e
    case BeginBootstrap => true
    case SnapshotArrives(s) => TruthfulSnapshot(v, s)
    case DiffArrives(d) =>
      && TruthfulDiff(v, d)
      && (Buffers(m) && m.buffer != [] ==> Covers(d, m.buffer[|m.buffer| - 1].last + 1))
  }

  ghost function ReachAfter(r: Reach, e: Event): Reach {
    if e.SnapshotArrives? then ReachOf(e.snapshot) else r
  }

  lemma {:induction false} StepKeepsInv(v: Venue, m: Manager, e: Event, r: Reach)
    requires Inv(v, m, r) && Honest(v, m, e)
    ensures Inv(v, Step(m, e), ReachAfter(r, e))
  {
    match e {
      case BeginBootstrap =>
      case SnapshotArrives(s) =>
        SnapshotAgrees(LevelsAt(v.bids, s.id), s.bids, BidReach(s.bids));
        SnapshotAgrees(LevelsAt(v.asks, s.id), s.asks, AskReach(s.asks));
        ReplayKeepsSynced(v, Primed(m, s), s.id, false, ReachOf(s));
        ReplayKeepsChain(Primed(m, s), s.id, false);
      case DiffArrives(d) =>
        if !Buffers(m) && !Gap(m, d) {
          EventKeepsBook(v, m, d, r);
        }
    }
  }

  // ----- Runs -----

  function After(events: seq<Event>): Manager {
    if events == [] then NewManager else Step(After(events[..|events| - 1]), events[|events| - 1])
  }

  function Latest(events: seq<Event>): Option<Snapshot> {
    if events == [] then None
    else
      var e := events[|events| - 1];
      if e.SnapshotArrives? then Some(e.snapshot) else Latest(events[..|events| - 1])
  }

  /** What the latest snapshot spoke for. */
  ghost function Reached(events: seq<Event>): Reach {
    match Latest(events)
    case None => Reach(iset{}, iset{})
    case Some(s) => ReachOf(s)
  }

  ghost predicate HonestRun(v: Venue, events: seq<Event>) {
    events == [] ||
    (HonestRun(v, events[..|events| - 1]) && Honest(v, After(events[..|events| - 1]), events[|events| - 1]))
  }

  lemma {:induction false} RunKeepsInv(v: Venue, events: seq<Event>)
    requires HonestRun(v, events)
    ensures Inv(v, After(events), Reached(events))
  {
    if events != [] {
      var before := events[..|events| - 1];
      RunKeepsInv(v, before);
      StepKeepsInv(v, After(before), events[|events| - 1], Reached(before));
    }
  }

  /** Over every interleaving of diffs, bootstraps, snapshots and gaps: whenever the book is
      initialised, it is the venue's book at update `lastU`. Every level it holds is right,
      and it misses none the last snapshot spoke for. */
  lemma {:induction false} InitialisedBookIsTrue(v: Venue, events: seq<Event>)
    requires HonestRun(v, events)
    ensures var m := After(events);
            m.book.initialized ==> m.book.sequence.Some? && BookIsTrue(v, m, Reached(events))
  {
    RunKeepsInv(v, events);
  }

  /** After a snapshot that was not cut off at the limit, the two books are equal. */
  lemma {:induction false} InitialisedBookIsEqual(v: Venue, events: seq<Event>, s: Snapshot)
    requires HonestRun(v, events) && After(events).book.initialized
    requires Latest(events) == Some(s) && |s.bids| < 1000 && |s.asks| < 1000
    ensures var m := After(events);
            && m.lastU.Some? && m.lastU.value <= |v.bids| && m.lastU.value <= |v.asks|
            && m.book.bids == LevelsAt(v.bids, m.lastU.value)
            && m.book.asks == LevelsAt(v.asks, m.lastU.value)
  {
    InitialisedBookIsTrue(v, events);
    var m := After(events);
    AgreementEverywhereIsEquality(m.book.bids, v.bids, m.lastU.value, BidReach(s.bids));
    AgreementEverywhereIsEquality(m.book.asks, v.asks, m.lastU.value, AskReach(s.asks));
  }

  // ----- When a bootstrap succeeds -----

  predicate Rising(buffer: seq<Diff>) {
    forall i :: 0 <= i < |buffer| - 1 ==> buffer[i].last < buffer[i + 1].last
  }

  /** The first buffered diff beyond the snapshot, if any, follows on from it. */
  predicate Usable(buffer: seq<Diff>, id: nat) {
    if buffer == [] then true
    else if buffer[0].last <= id then Usable(buffer[1..], id)
    else Covers(buffer[0], id + 1)
  }

  function Newest(buffer: seq<Diff>, id: nat, otherwise: Option<nat>): Option<nat> {
    if buffer == [] || buffer[|buffer| - 1].last <= id then otherwise else Some(buffer[|buffer| - 1].last)
  }

  lemma {:induction false} ReplayReaches(m: Manager, id: nat, applied: bool)
    requires m.book.initialized && m.book.sequence.Some? && Rising(m.buffer)
    requires applied && m.buffer != [] ==> m.buffer[0].last > id
    ensures var m' := Replay(m, id, applied);
            if applied || Usable(m.buffer, id)
            then m'.book.initialized && m'.buffer == [] && m'.lastU == Newest(m.buffer, id, m.lastU)
            else !m'.book.initialized && m'.lastU.None?
    decreases |m.buffer|
  {
    if m.buffer != [] {
      var d := m.buffer[0];
      var popped := m.(buffer := m.buffer[1..]);
      assert forall i :: 0 <= i < |popped.buffer| - 1 ==> popped.buffer[i] == m.buffer[i + 1];
      if d.last <= id {
        ReplayReaches(popped, id, applied);
      } else if applied || Covers(d, id + 1) {
        assert popped.buffer != [] ==> m.buffer[1].last > d.last;
        ReplayReaches(ApplyEvent(popped, d), id, true);
        NewestIsLast(m.buffer, id);
      }
    }
  }

  lemma {:induction false} NewestIsLast(buffer: seq<Diff>, id: nat)
    requires buffer != [] && buffer[0].last > id && Rising(buffer)
    ensures buffer[|buffer| - 1].last > id
  {
    if |buffer| > 1 {
      var rest := buffer[1..];
      assert rest[0] == buffer[1];
      assert forall i :: 0 <= i < |rest| - 1 ==> rest[i] == buffer[i + 1];
      NewestIsLast(rest, id);
    }
  }

  lemma {:induction false} UsableIffReached(buffer: seq<Diff>, id: nat)
    requires Chained(buffer)
    ensures Usable(buffer, id) <==> buffer == [] || buffer[0].first <= id + 1 || buffer[0].last <= id
  {
    if buffer != [] && buffer[0].last <= id {
      var rest := buffer[1..];
      assert forall i :: 0 <= i < |rest| - 1 ==> rest[i] == buffer[i + 1];
      assert rest != [] ==> rest[0] == buffer[1] && Covers(buffer[1], buffer[0].last + 1);
      UsableIffReached(rest, id);
    }
  }

  /** A bootstrap succeeds exactly when the buffer is empty or starts no later than just
      after the snapshot; the book is then at the newest update known. */
  lemma {:induction false} BootstrapSucceedsIffReached(v: Venue, m: Manager, s: Snapshot, r: Reach)
    requires Inv(v, m, r) && TruthfulSnapshot(v, s)
    ensures var m' := Step(m, SnapshotArrives(s));
            && (m'.book.initialized <==> m.buffer == [] || m.buffer[0].first <= s.id + 1)
            && (m'.book.initialized ==> m'.buffer == [] && m'.lastU == Newest(m.buffer, s.id, Some(s.id)))
            && !m'.pending
  {
    assert m.buffer != [] ==> m.buffer[0] in m.buffer;
    UsableIffReached(m.buffer, s.id);
    ReplayReaches(Primed(m, s), s.id, false);
  }

  // ----- The feed from then on -----

  /** Each diff starts just after the one before, the first just after `id`. */
  predicate Contiguous(id: nat, diffs: seq<Diff>) {
    forall i :: 0 <= i < |diffs| ==> Follows(id, diffs, i)
  }

  predicate Follows(id: nat, diffs: seq<Diff>, i: nat)
    requires i < |diffs|
  {
    diffs[i].first == (if i == 0 then id else diffs[i - 1].last) + 1
  }

  function LastId(id: nat, diffs: seq<Diff>): nat {
    if diffs == [] then id else diffs[|diffs| - 1].last
  }

  function Arrivals(diffs: seq<Diff>): seq<Event> {
    seq(|diffs|, i requires 0 <= i < |diffs| => DiffArrives(diffs[i]))
  }

  lemma {:induction false} OneMoreArrival(events: seq<Event>, diffs: seq<Diff>)
    requires diffs != []
    ensures var n := |diffs| - 1;
            After(events + Arrivals(diffs)) == Step(After(events + Arrivals(diffs[..n])), DiffArrives(diffs[n]))
  {
    var all := events + Arrivals(diffs);
    assert all[..|all| - 1] == events + Arrivals(diffs[..|diffs| - 1]);
  }

  lemma {:induction false} NoArrivals(events: seq<Event>)
    ensures events + Arrivals([]) == events
  {
  }

  /** While a snapshot is awaited, diffs wait in the order of their arrival. */
  lemma {:induction false} DiffsWait(events: seq<Event>, diffs: seq<Diff>)
    requires After(events).pending
    ensures var m, m' := After(events), After(events + Arrivals(diffs));
            m'.buffer == m.buffer + diffs && m'.pending && m'.book == m.book
  {
    if diffs == [] {
      NoArrivals(events);
    } else {
      OneMoreArrival(events, diffs);
      DiffsWait(events, diffs[..|diffs| - 1]);
    }
  }

  /** A live diff is applied if it follows on, bringing the book to the diff's last update;
      otherwise the book is given up. */
  lemma {:induction false} LiveDiffIsApplied(v: Venue, m: Manager, d: Diff, r: Reach)
    requires Inv(v, m, r) && m.book.initialized && !m.pending && TruthfulDiff(v, d)
    ensures var m' := Step(m, DiffArrives(d));
            && (m'.book.initialized <==> m.lastU == Some(d.first - 1))
            && (m'.book.initialized ==> m'.lastU == Some(d.last) && BookIsTrue(v, m', r))
            && (!m'.book.initialized ==> m'.book == EmptyBook && m'.lastU.None?)
            && Inv(v, m', r) && !m'.pending
  {
    if d.first == m.lastU.value + 1 {
      EventKeepsBook(v, m, d, r);
    }
  }

  lemma {:induction false} OneMoreContiguous(id: nat, diffs: seq<Diff>)
    requires diffs != []
    ensures var n := |diffs| - 1;
            Contiguous(id, diffs) <==> Contiguous(id, diffs[..n]) && diffs[n].first == LastId(id, diffs[..n]) + 1
  {
    var n := |diffs| - 1;
    assert LastId(id, diffs[..n]) == if n == 0 then id else diffs[n - 1].last;
    assert forall i :: 0 <= i < n ==> Follows(id, diffs[..n], i) == Follows(id, diffs, i);
    if Contiguous(id, diffs) {
      assert Follows(id, diffs, n);
    }
  }

  /** From a book initialised at update `id` on: the live diffs keep it in step, at the last
      one's update, exactly as long as each follows on from the one before. */
  lemma {:induction false} FeedIsFollowedIffContiguous(v: Venue, events: seq<Event>, id: nat, diffs: seq<Diff>)
    requires HonestRun(v, events)
    requires var m := After(events); m.book.initialized && !m.pending && m.lastU == Some(id)
    requires forall i :: 0 <= i < |diffs| ==> TruthfulDiff(v, diffs[i])
    ensures var m := After(events + Arrivals(diffs));
            && (m.book.initialized <==> Contiguous(id, diffs))
            && (m.book.initialized ==> m.lastU == Some(LastId(id, diffs)) && BookIsTrue(v, m, Reached(events)))
  {
    FeedRun(v, events, id, diffs);
  }

  /** The manager `m` after live diffs from a book at `id`. */
  ghost predicate InStep(v: Venue, m: Manager, id: nat, diffs: seq<Diff>, r: Reach) {
    && !m.pending && (m.book.initialized <==> Contiguous(id, diffs))
    && (m.book.initialized ==> m.lastU == Some(LastId(id, diffs)) && Inv(v, m, r))
  }

  lemma {:induction false} OneMoreLiveDiff(v: Venue, m: Manager, id: nat, diffs: seq<Diff>, r: Reach)
    requires diffs != [] && InStep(v, m, id, diffs[..|diffs| - 1], r) && TruthfulDiff(v, diffs[|diffs| - 1])
    ensures InStep(v, Step(m, DiffArrives(diffs[|diffs| - 1])), id, diffs, r)
  {
    OneMoreContiguous(id, diffs);
    if m.book.initialized {
      LiveDiffIsApplied(v, m, diffs[|diffs| - 1], r);
    }
  }

  lemma {:induction false} FeedRun(v: Venue, events: seq<Event>, id: nat, diffs: seq<Diff>)
    requires HonestRun(v, events)
    requires var m := After(events); m.book.initialized && !m.pending && m.lastU == Some(id)
    requires forall i :: 0 <= i < |diffs| ==> TruthfulDiff(v, diffs[i])
    ensures InStep(v, After(events + Arrivals(diffs)), id, diffs, Reached(events))
  {
    if diffs == [] {
      NoArrivals(events);
      RunKeepsInv(v, events);
    } else {
      FeedRun(v, events, id, diffs[..|diffs| - 1]);
      OneMoreArrival(events, diffs);
      OneMoreLiveDiff(v, After(events + Arrivals(diffs[..|diffs| - 1])), id, diffs, Reached(events));
    }
  }

  /** A whole start-up: diffs that arrive while the snapshot is awaited wait for it, and the
      snapshot brings the book to the newest update known exactly when no update between
      the snapshot and the oldest diff waiting is missing. */
  lemma {:induction false} StartUp(v: Venue, events: seq<Event>, early: seq<Diff>, s: Snapshot)
    requires HonestRun(v, events + [BeginBootstrap] + Arrivals(early) + [SnapshotArrives(s)])
    ensures var waiting := After(events).buffer + early;
            var m := After(events + [BeginBootstrap] + Arrivals(early) + [SnapshotArrives(s)]);
            && !m.pending
            && (m.book.initialized <==> waiting == [] || waiting[0].first <= s.id + 1)
            && (m.book.initialized ==>
                  && m.buffer == []
                  && m.lastU == Some(if LastId(s.id, waiting) > s.id then LastId(s.id, waiting) else s.id)
                  && m.snapshotId == Some(s.id))
            && (!m.book.initialized ==>
                  m.book == EmptyBook && m.lastU.None? && m.snapshotId.None? && m.buffer == AfterFirstBeyond(waiting, s.id))
  {
    var begun := events + [BeginBootstrap];
    var ready := begun + Arrivals(early);
    assert begun[..|events|] == events;
    DiffsWait(begun, early);
    var all := ready + [SnapshotArrives(s)];
    assert all[..|all| - 1] == ready;
    RunKeepsInv(v, ready);
    BootstrapSucceedsIffReached(v, After(ready), s, Reached(ready));
    ReplayKeepsSnapshot(Primed(After(ready), s), s.id, false);
    FailedReplayLeaves(Primed(After(ready), s), s.id);
  }

  /** The diffs after the first that reaches beyond `id`. */
  function AfterFirstBeyond(diffs: seq<Diff>, id: nat): seq<Diff> {
    if diffs == [] then [] else if diffs[0].last > id then diffs[1..] else AfterFirstBeyond(diffs[1..], id)
  }

  lemma {:induction false} AppliedStaysInitialised(m: Manager, id: nat)
    requires m.book.initialized
    ensures Replay(m, id, true).book.initialized
    decreases |m.buffer|
  {
    if m.buffer != [] {
      var popped := m.(buffer := m.buffer[1..]);
      AppliedStaysInitialised(popped, id);
      AppliedStaysInitialised(ApplyEvent(popped, m.buffer[0]), id);
    }
  }

  /** A replay fails at the first diff that counts, and drops it. */
  lemma {:induction false} FailedReplayLeaves(m: Manager, id: nat)
    requires m.book.initialized
    ensures var m' := Replay(m, id, false);
            !m'.book.initialized ==> m' == Abort(m.(buffer := AfterFirstBeyond(m.buffer, id)))
    decreases |m.buffer|
  {
    if m.buffer != [] {
      var d := m.buffer[0];
      var popped := m.(buffer := m.buffer[1..]);
      if d.last <= id {
        FailedReplayLeaves(popped, id);
      } else if Covers(d, id + 1) {
        AppliedStaysInitialised(ApplyEvent(popped, d), id);
      }
    }
  }

  lemma {:induction false} ReplayKeepsSnapshot(m: Manager, id: nat, applied: bool)
    ensures var m' := Replay(m, id, applied); m'.book.initialized ==> m'.snapshotId == m.snapshotId
    decreases |m.buffer|
  {
    if m.buffer != [] {
      var popped := m.(buffer := m.buffer[1..]);
      ReplayKeepsSnapshot(popped, id, applied);
      ReplayKeepsSnapshot(ApplyEvent(popped, m.buffer[0]), id, true);
    }
  }

  // ----- Why the buffer must have no hole -----

  /** Diffs with the given ids, a snapshot at `id`, all truthful. */
  ghost predicate Fits(v: Venue, s: Snapshot, diffs: seq<Diff>, shape: seq<Diff>, id: nat) {
    && TruthfulSnapshot(v, s) && s.id == id
    && |diffs| == |shape|
    && (forall i :: 0 <= i < |diffs| ==>
          diffs[i].first == shape[i].first && diffs[i].last == shape[i].last && TruthfulDiff(v, diffs[i]))
  }

  function Bootstrapped(diffs: seq<Diff>, s: Snapshot): Manager {
    Step(NewManager.(buffer := diffs, pending := true), SnapshotArrives(s))
  }

  /** Whatever the venue did, a buffer with these ids never yields a wrong book. */
  ghost predicate NeverWrong(shape: seq<Diff>, id: nat) {
    forall v, s, diffs :: Fits(v, s, diffs, shape, id) && Bootstrapped(diffs, s).book.initialized ==>
      BookIsTrue(v, Bootstrapped(diffs, s), ReachOf(s))
  }

  predicate InOrder(shape: seq<Diff>) {
    && (forall i :: 0 <= i < |shape| ==> 1 <= shape[i].first <= shape[i].last)
    && (forall i, j :: 0 <= i < j < |shape| ==> shape[i].last < shape[j].first)
  }

  lemma {:induction false} SameIdsSameUse(a: seq<Diff>, b: seq<Diff>, id: nat)
    requires |a| == |b| && forall i :: 0 <= i < |a| ==> a[i].first == b[i].first && a[i].last == b[i].last
    ensures Usable(a, id) <==> Usable(b, id)
  {
    if a != [] {
      SameIdsSameUse(a[1..], b[1..], id);
    }
  }

  /** The replay checks only its first diff. Over diffs in order that pass that check, it is
      right for every venue exactly when no hole follows. */
  lemma {:induction false} NeverWrongIffNoHole(shape: seq<Diff>, id: nat)
    requires InOrder(shape)
    ensures NeverWrong(shape, id) <==> !Usable(shape, id) || ChainedBeyond(shape, id)
  {
    if !Usable(shape, id) || ChainedBeyond(shape, id) {
      forall v, s, diffs | Fits(v, s, diffs, shape, id) && Bootstrapped(diffs, s).book.initialized
        ensures BookIsTrue(v, Bootstrapped(diffs, s), ReachOf(s))
      {
        ChainedIsRight(v, s, diffs, shape, id);
      }
    } else {
      var h :| 0 <= h < |shape| - 1 && shape[h].last > id && !Covers(shape[h + 1], shape[h].last + 1);
      var v, s, diffs := HoleMakesBookWrong(shape, id, h);
    }
  }

  lemma {:induction false} ChainedIsRight(v: Venue, s: Snapshot, diffs: seq<Diff>, shape: seq<Diff>, id: nat)
    requires InOrder(shape) && Fits(v, s, diffs, shape, id) && Bootstrapped(diffs, s).book.initialized
    requires !Usable(shape, id) || ChainedBeyond(shape, id)
    ensures BookIsTrue(v, Bootstrapped(diffs, s), ReachOf(s))
  {
    var m := Primed(NewManager.(buffer := diffs, pending := true), s);
    SameIdsSameUse(diffs, shape, id);
    ReplayReaches(m, id, false);
    SnapshotAgrees(LevelsAt(v.bids, s.id), s.bids, BidReach(s.bids));
    SnapshotAgrees(LevelsAt(v.asks, s.id), s.asks, AskReach(s.asks));
    ReplayKeepsSynced(v, m, id, false, ReachOf(s));
  }

  /** A history whose only event is a bid appearing at update `x`. */
  function OneBid(x: nat, length: nat): Venue {
    Venue(seq(length, k => if k + 1 == x then [Level(1.0, 1.0)] else []), seq(length, _ => []))
  }

  lemma {:induction false} AppliedOnce(levels: Levels, l: Level)
    ensures Applied(levels, [l]) == Set(levels, l)
  {
    assert [l][..0] == [];
  }

  lemma {:induction false} OneBidLevels(x: nat, length: nat, k: nat)
    requires k <= length && x >= 1
    ensures LevelsAt(OneBid(x, length).bids, k) == if x <= k then map[1.0 := 1.0] else map[]
    ensures LevelsAt(OneBid(x, length).asks, k) == map[]
  {
    if k > 0 {
      OneBidLevels(x, length, k - 1);
      AppliedOnce(LevelsAt(OneBid(x, length).bids, k - 1), Level(1.0, 1.0));
    }
  }

  function Emptied(shape: seq<Diff>): seq<Diff> {
    seq(|shape|, i requires 0 <= i < |shape| => Diff(shape[i].first, shape[i].last, [], []))
  }

  lemma {:induction false} EmptyDiffsChangeNothing(m: Manager, id: nat, applied: bool)
    requires forall d :: d in m.buffer ==> d.bids == []
    requires m.book.bids == map[]
    ensures Replay(m, id, applied).book.bids == map[]
    decreases |m.buffer|
  {
    if m.buffer != [] {
      var d := m.buffer[0];
      assert d in m.buffer;
      var popped := m.(buffer := m.buffer[1..]);
      assert forall e :: e in popped.buffer ==> e in m.buffer;
      EmptyDiffsChangeNothing(popped, id, applied);
      EmptyDiffsChangeNothing(ApplyEvent(popped, d), id, true);
    }
  }

  lemma {:induction false} SilentDiffIsTruthful(x: nat, length: nat, d: Diff)
    requires 1 <= d.first <= d.last <= length && d.bids == [] && d.asks == [] && !Covers(d, x)
    ensures TruthfulDiff(OneBid(x, length), d)
  {
    var v := OneBid(x, length);
    assert forall k :: d.first - 1 <= k < d.last ==> v.bids[k] == [] && v.asks[k] == [];
  }

  lemma {:induction false} HoleMakesBookWrong(shape: seq<Diff>, id: nat, h: nat) returns (v: Venue, s: Snapshot, diffs: seq<Diff>)
    requires InOrder(shape) && Usable(shape, id)
    requires h < |shape| - 1 && shape[h].last > id && !Covers(shape[h + 1], shape[h].last + 1)
    ensures Fits(v, s, diffs, shape, id) && Bootstrapped(diffs, s).book.initialized
    ensures !BookIsTrue(v, Bootstrapped(diffs, s), ReachOf(s))
  {
    var x := shape[h].last + 1;
    var length := shape[|shape| - 1].last;
    v, s, diffs := OneBid(x, length), Snapshot(id, [], []), Emptied(shape);
    forall i | 0 <= i < |shape| ensures TruthfulDiff(v, diffs[i]) {
      SilentDiffIsTruthful(x, length, diffs[i]);
    }
    OneBidLevels(x, length, id);
    OneBidLevels(x, length, length);
    MissesTheBid(s, diffs, shape, id);
    MissedBid(v, Bootstrapped(diffs, s), s, length);
  }

  lemma {:induction false} MissesTheBid(s: Snapshot, diffs: seq<Diff>, shape: seq<Diff>, id: nat)
    requires InOrder(shape) && Usable(shape, id) && shape != [] && shape[|shape| - 1].last > id
    requires s == Snapshot(id, [], []) && diffs == Emptied(shape)
    ensures var m := Bootstrapped(diffs, s);
            m.book.initialized && m.book.bids == map[] && m.lastU == Some(shape[|shape| - 1].last)
  {
    var m := Primed(NewManager.(buffer := diffs, pending := true), s);
    SameIdsSameUse(diffs, shape, id);
    ReplayReaches(m, id, false);
    EmptyDiffsChangeNothing(m, id, false);
  }

  lemma {:induction false} MissedBid(v: Venue, m: Manager, s: Snapshot, last: nat)
    requires m.lastU == Some(last) && last <= |v.bids| && m.book.bids == map[]
    requires s.bids == [] && LevelsAt(v.bids, last) == map[1.0 := 1.0]
    ensures !BookIsTrue(v, m, ReachOf(s))
  {
    assert 1.0 in ReachOf(s).bids;
    assert Quoted(m.book.bids, 1.0) != Quoted(LevelsAt(v.bids, last), 1.0);
  }
}
