/** A signal is a snapshot: reconciling a satisfied book changes nothing, and reconciling
    a settled book leads to exactly the signal's legs once the venue has confirmed. */
module Convergence {
  import opened Types
  import opened StateMachine
  import opened Orders
  import opened OmsModel
  import opened Accumulation

  /** What reconcile compares: side, price and remaining quantity. */
  datatype Key = Key(side: Side, price: Option<Price>, leaves: Quantity)

  function KeyOf(o: OrderState): Key { Key(o.side, o.price, o.Leaves()) }

  function LegKey(leg: Leg): Key { Key(leg.side, leg.price, leg.quantity) }

  function LegKeys(legs: seq<Leg>): multiset<Key> {
    if legs == [] then multiset{} else multiset{LegKey(legs[0])} + LegKeys(legs[1..])
  }

  /** The keys of the resting orders no leg has taken yet. */
  function FreeKeys(orders: seq<OrderState>, resting: seq<OrderId>, matched: set<OrderId>): multiset<Key>
    requires Known(orders, resting)
  {
    if resting == [] then multiset{}
    else (if resting[0] in matched then multiset{} else multiset{KeyOf(orders[resting[0]])})
         + FreeKeys(orders, resting[1..], matched)
  }

  ghost predicate Distinct(ids: seq<OrderId>) {
    forall i, j :: 0 <= i < j < |ids| ==> ids[i] != ids[j]
  }

  // ----- A satisfied book is a fixpoint -----

  lemma {:induction false} FreeKeyHasOrder(orders: seq<OrderState>, resting: seq<OrderId>, matched: set<OrderId>, leg: Leg)
    requires Known(orders, resting) && LegKey(leg) in FreeKeys(orders, resting, matched)
    ensures exists id :: id in resting && id !in matched && Suits(orders[id], leg, true)
  {
    if resting[0] in matched || KeyOf(orders[resting[0]]) != LegKey(leg) {
      FreeKeyHasOrder(orders, resting[1..], matched, leg);
      var id :| id in resting[1..] && id !in matched && Suits(orders[id], leg, true);
      assert id in resting;
    } else {
      assert resting[0] in resting;
    }
  }

  lemma {:induction false} UnrelatedIdKeepsFreeKeys(orders: seq<OrderState>, resting: seq<OrderId>, matched: set<OrderId>, id: OrderId)
    requires Known(orders, resting) && id !in resting
    ensures FreeKeys(orders, resting, matched + {id}) == FreeKeys(orders, resting, matched)
  {
    if resting != [] {
      assert resting[0] in resting;
      UnrelatedIdKeepsFreeKeys(orders, resting[1..], matched, id);
    }
  }

  lemma {:induction false} TakingRemovesKey(orders: seq<OrderState>, resting: seq<OrderId>, matched: set<OrderId>, id: OrderId)
    requires Known(orders, resting) && Distinct(resting)
    requires id in resting && id !in matched
    ensures FreeKeys(orders, resting, matched)
            == FreeKeys(orders, resting, matched + {id}) + multiset{KeyOf(orders[id])}
  {
    if resting[0] == id {
      assert forall k :: 0 <= k < |resting[1..]| ==> resting[1..][k] == resting[k + 1];
      UnrelatedIdKeepsFreeKeys(orders, resting[1..], matched, id);
    } else {
      TakingRemovesKey(orders, resting[1..], matched, id);
    }
  }

  lemma {:induction false} CancelCommon<T>(k: T, a: multiset<T>, b: multiset<T>)
    ensures multiset{k} + a <= b + multiset{k} ==> a <= b
    ensures (b + multiset{k}) - (multiset{k} + a) == b - a
  {
    assert forall x :: (multiset{k} + a)[x] == a[x] + (if x == k then 1 else 0);
    assert forall x :: (b + multiset{k})[x] == b[x] + (if x == k then 1 else 0);
  }

  /** When every leg finds its key among the free orders, matching touches nothing and
      leaves exactly the surplus free. */
  lemma {:induction false} SatisfiedLegsMatchExactly(cfg: Config, s: Oms, sig: Signal, resting: seq<OrderId>, matched: set<OrderId>,
                                                     legs: seq<Leg>, now: int)
    requires Known(s.orders, resting) && Distinct(resting)
    requires LegKeys(legs) <= FreeKeys(s.orders, resting, matched)
    ensures var (s', matched') := MatchLegs(cfg, s, sig, resting, matched, legs, now);
            && s' == s
            && FreeKeys(s.orders, resting, matched') == FreeKeys(s.orders, resting, matched) - LegKeys(legs)
    decreases |legs|
  {
    if legs != [] {
      assert LegKey(legs[0]) in LegKeys(legs);
      FreeKeyHasOrder(s.orders, resting, matched, legs[0]);
      var id := FirstSuiting(s.orders, resting, matched, legs[0], true).value;
      TakingRemovesKey(s.orders, resting, matched, id);
      assert KeyOf(s.orders[id]) == LegKey(legs[0]);
      CancelCommon(LegKey(legs[0]), LegKeys(legs[1..]), FreeKeys(s.orders, resting, matched + {id}));
      SatisfiedLegsMatchExactly(cfg, s, sig, resting, matched + {id}, legs[1..], now);
    }
  }

  lemma {:induction false} RestingIdsDistinct(orders: seq<OrderState>, strategy: StrategyId, instrument: InstrumentId)
    ensures Distinct(RestingIds(orders, strategy, instrument))
  {
  }

  function RestingKeys(orders: seq<OrderState>, strategy: StrategyId, instrument: InstrumentId): multiset<Key> {
    FreeKeys(orders, RestingIds(orders, strategy, instrument), {})
  }

  /** The orders left over by a satisfied signal. */
  predicate SurplusOf(s: Oms, sig: Signal, legs: seq<Leg>, surplus: set<OrderId>) {
    var resting := RestingIds(s.orders, sig.strategy, sig.instrument);
    && (forall id :: id in surplus ==> id in resting)
    && FreeKeys(s.orders, resting, (set id | id in resting) - surplus)
       == RestingKeys(s.orders, sig.strategy, sig.instrument) - LegKeys(legs)
  }

  lemma {:induction false} FreeKeysDependOnRestingOnly(orders: seq<OrderState>, resting: seq<OrderId>,
                                                       a: set<OrderId>, b: set<OrderId>)
    requires Known(orders, resting)
    requires forall id :: id in resting ==> (id in a <==> id in b)
    ensures FreeKeys(orders, resting, a) == FreeKeys(orders, resting, b)
  {
    if resting != [] {
      assert resting[0] in resting;
      FreeKeysDependOnRestingOnly(orders, resting[1..], a, b);
    }
  }

  lemma {:induction false} CancelUnmatchedIsPointwise(s: Oms, resting: seq<OrderId>, matched: set<OrderId>, now: int)
    requires Known(s.orders, resting) && Distinct(resting)
    ensures var s' := CancelUnmatched(s, resting, matched, now);
            && |s'.orders| == |s.orders|
            && s.sent <= s'.sent
            && (forall i :: 0 <= i < |s.orders| ==>
                  s'.orders[i] == if i in resting && i !in matched && s.orders[i].status != PendingAmend
                                  then CancelSent(s.orders[i], now) else s.orders[i])
            && (forall k :: |s.sent| <= k < |s'.sent| ==> s'.sent[k].CancelRequest?)
    decreases |resting|
  {
    if resting != [] {
      var id := resting[0];
      var s1 := if id !in matched && s.orders[id].status != PendingAmend then CancelOrder(s, id, now) else s;
      forall k | 0 <= k < |resting[1..]| ensures resting[1..][k] != id {
        assert resting[1..][k] == resting[k + 1];
      }
      CancelUnmatchedIsPointwise(s1, resting[1..], matched, now);
      assert forall i :: i in resting <==> i == id || i in resting[1..];
    }
  }

  /** The given orders were sent a cancel where their status allows one; no other changed. */
  predicate OnlyCancelled(s: Oms, s': Oms, ids: set<OrderId>, now: int) {
    && |s'.orders| == |s.orders|
    && forall i :: 0 <= i < |s.orders| ==>
         s'.orders[i] == if i in ids && s.orders[i].status != PendingAmend then CancelSent(s.orders[i], now) else s.orders[i]
  }

  /** Reconciling a book that already holds every leg places and amends nothing; the only
      messages are cancels, and what is cancelled is exactly the multiset surplus, except
      orders in statuses that cannot be cancelled now. */
  lemma {:induction false} SatisfiedBookIsFixpoint(cfg: Config, s: Oms, sig: Signal, legs: seq<Leg>, now: int)
    requires LegKeys(legs) <= RestingKeys(s.orders, sig.strategy, sig.instrument)
    ensures var s' := ReconcileImmediate(cfg, s, sig, legs, now);
            && |s'.orders| == |s.orders| && s.sent <= s'.sent
            && (forall k :: |s.sent| <= k < |s'.sent| ==> s'.sent[k].CancelRequest?)
            && exists surplus :: SurplusOf(s, sig, legs, surplus) && OnlyCancelled(s, s', surplus, now)
  {
    var resting := RestingIds(s.orders, sig.strategy, sig.instrument);
    RestingIdsDistinct(s.orders, sig.strategy, sig.instrument);
    SatisfiedLegsMatchExactly(cfg, s, sig, resting, {}, legs, now);
    var (s1, matched) := MatchLegs(cfg, s, sig, resting, {}, legs, now);
    CancelUnmatchedIsPointwise(s, resting, matched, now);
    var surplus := set id | id in resting && id !in matched;
    assert OnlyCancelled(s, CancelUnmatched(s, resting, matched, now), surplus, now);
    FreeKeysDependOnRestingOnly(s.orders, resting, (set id | id in resting) - surplus, matched);
    assert SurplusOf(s, sig, legs, surplus);
  }

  lemma {:induction false} NoKeysMeansAllMatched(orders: seq<OrderState>, resting: seq<OrderId>, matched: set<OrderId>)
    requires Known(orders, resting) && FreeKeys(orders, resting, matched) == multiset{}
    ensures forall id :: id in resting ==> id in matched
  {
    if resting != [] {
      assert |FreeKeys(orders, resting, matched)| == 0;
      NoKeysMeansAllMatched(orders, resting[1..], matched);
    }
  }

  lemma {:induction false} CancelUnmatchedNothing(s: Oms, resting: seq<OrderId>, matched: set<OrderId>, now: int)
    requires Known(s.orders, resting)
    requires forall id :: id in resting ==> id in matched
    ensures CancelUnmatched(s, resting, matched, now) == s
    decreases |resting|
  {
    if resting != [] {
      assert resting[0] in resting;
      CancelUnmatchedNothing(s, resting[1..], matched, now);
    }
  }

  /** When the legs are exactly what rests, nothing happens at all. */
  lemma {:induction false} ExactBookIsUntouched(cfg: Config, s: Oms, sig: Signal, legs: seq<Leg>, now: int)
    requires LegKeys(legs) == RestingKeys(s.orders, sig.strategy, sig.instrument)
    ensures ReconcileImmediate(cfg, s, sig, legs, now) == s
  {
    var resting := RestingIds(s.orders, sig.strategy, sig.instrument);
    RestingIdsDistinct(s.orders, sig.strategy, sig.instrument);
    SatisfiedLegsMatchExactly(cfg, s, sig, resting, {}, legs, now);
    var (s1, matched) := MatchLegs(cfg, s, sig, resting, {}, legs, now);
    NoKeysMeansAllMatched(s.orders, resting, matched);
    CancelUnmatchedNothing(s, resting, matched, now);
  }

  // ----- Keys of the whole book, order by order -----

  /** The keys of the live plain orders of a scope, as one pass over the book. */
  function ScopeKeys(orders: seq<OrderState>, strategy: StrategyId, instrument: InstrumentId): multiset<Key> {
    if orders == [] then multiset{}
    else
      var n := |orders| - 1;
      ScopeKeys(orders[..n], strategy, instrument)
      + if InScope(orders[n], strategy, instrument) && Active(orders[n]) then multiset{KeyOf(orders[n])} else multiset{}
  }

  lemma {:induction false} FreeKeysAppend(orders: seq<OrderState>, resting: seq<OrderId>, id: OrderId, matched: set<OrderId>)
    requires Known(orders, resting) && id < |orders|
    ensures FreeKeys(orders, resting + [id], matched)
            == FreeKeys(orders, resting, matched) + if id in matched then multiset{} else multiset{KeyOf(orders[id])}
    decreases |resting|
  {
    if resting == [] {
      assert (resting + [id])[1..] == [];
    } else {
      assert (resting + [id])[1..] == resting[1..] + [id];
      FreeKeysAppend(orders, resting[1..], id, matched);
    }
  }

  lemma {:induction false} FreeKeysPrefix(orders: seq<OrderState>, more: seq<OrderState>, resting: seq<OrderId>, matched: set<OrderId>)
    requires Known(orders, resting)
    ensures FreeKeys(orders + more, resting, matched) == FreeKeys(orders, resting, matched)
    decreases |resting|
  {
    if resting != [] {
      FreeKeysPrefix(orders, more, resting[1..], matched);
    }
  }

  lemma {:induction false} RestingKeysAreScopeKeys(orders: seq<OrderState>, strategy: StrategyId, instrument: InstrumentId)
    ensures RestingKeys(orders, strategy, instrument) == ScopeKeys(orders, strategy, instrument)
    decreases |orders|
  {
    if orders != [] {
      var n := |orders| - 1;
      var resting := RestingIds(orders[..n], strategy, instrument);
      RestingKeysAreScopeKeys(orders[..n], strategy, instrument);
      FreeKeysPrefix(orders[..n], [orders[n]], resting, {});
      assert orders[..n] + [orders[n]] == orders;
      FreeKeysAppend(orders, resting, n, {});
    }
  }

  // ----- Confirmation -----

  /** The order once the venue has confirmed whatever was asked of it. */
  function Confirmed(o: OrderState, ts: int): OrderState {
    match o.status
    case PendingNew => Handled(o, Ack("", ts))
    case PendingAmend => Handled(o, Amended(None, None, None, ts))
    case PendingCancel => Handled(o, CancelDone(ts))
    case _ => o
  }

  function ConfirmAll(orders: seq<OrderState>, ts: int): seq<OrderState> {
    seq(|orders|, i requires 0 <= i < |orders| => Confirmed(orders[i], ts))
  }

  /** No live plain order of the scope is waiting for an answer. */
  ghost predicate Settled(orders: seq<OrderState>, strategy: StrategyId, instrument: InstrumentId) {
    forall i :: 0 <= i < |orders| && InScope(orders[i], strategy, instrument) && Active(orders[i]) ==>
      Amendable(orders[i]) && orders[i].filled >= 0.0
  }

  ghost predicate NoneBlocked(cfg: Config, orders: seq<OrderState>, sig: Signal, legs: seq<Leg>) {
    forall k :: 0 <= k < |legs| ==> !StpBlocks(cfg, orders, sig.strategy, sig.instrument, legs[k])
  }

  /** The order a leg will amend, if any. */
  function ToAmend(orders: seq<OrderState>, resting: seq<OrderId>, matched: set<OrderId>, leg: Leg): Option<OrderId>
    requires Known(orders, resting)
  {
    if FirstSuiting(orders, resting, matched, leg, true).Some? then None
    else FirstSuiting(orders, resting, matched, leg, false)
  }

  /** How much of the leg will be missing: an amend sets the total quantity to the leg's,
      so what the amended order had already filled is not put back. */
  function Missing(orders: seq<OrderState>, resting: seq<OrderId>, matched: set<OrderId>, leg: Leg): Quantity
    requires Known(orders, resting)
  {
    var id := ToAmend(orders, resting, matched, leg);
    if id.Some? then orders[id.value].filled else 0.0
  }

  function PromisedKey(s: Oms, resting: seq<OrderId>, matched: set<OrderId>, leg: Leg): Key
    requires Known(s.orders, resting)
  {
    Key(leg.side, leg.price, leg.quantity - Missing(s.orders, resting, matched, leg))
  }

  /** The key each leg ends up with. */
  function PromisedKeys(cfg: Config, s: Oms, sig: Signal, resting: seq<OrderId>, matched: set<OrderId>,
                        legs: seq<Leg>, now: int): multiset<Key>
    requires Known(s.orders, resting)
    decreases |legs|
  {
    if legs == [] then multiset{}
    else
      var leg := legs[0];
      var (s1, matched1) := MatchLeg(cfg, s, sig, resting, matched, leg, now);
      multiset{PromisedKey(s, resting, matched, leg)}
      + PromisedKeys(cfg, s1, sig, resting, matched1, legs[1..], now)
  }

  function Shortfall(cfg: Config, s: Oms, sig: Signal, resting: seq<OrderId>, matched: set<OrderId>,
                     legs: seq<Leg>, now: int): Quantity
    requires Known(s.orders, resting)
    decreases |legs|
  {
    if legs == [] then 0.0
    else
      var (s1, matched1) := MatchLeg(cfg, s, sig, resting, matched, legs[0], now);
      Missing(s.orders, resting, matched, legs[0]) + Shortfall(cfg, s1, sig, resting, matched1, legs[1..], now)
  }

  // ----- What one leg contributes -----

  function IdSet(ids: seq<OrderId>): set<OrderId> { set id | id in ids }

  /** Keys after confirmation of the taken resting orders and of the orders from `from` on. */
  function BookKeys(orders: seq<OrderState>, resting: seq<OrderId>, matched: set<OrderId>, from: nat,
                    strategy: StrategyId, instrument: InstrumentId, ts: int): multiset<Key>
    requires Known(orders, resting) && from <= |orders|
  {
    FreeKeys(ConfirmAll(orders, ts), resting, IdSet(resting) - matched)
    + ScopeKeys(ConfirmAll(orders, ts)[from..], strategy, instrument)
  }

  lemma {:induction false} FreeKeysFrame(a: seq<OrderState>, b: seq<OrderState>, resting: seq<OrderId>, excluded: set<OrderId>)
    requires Known(a, resting) && Known(b, resting)
    requires forall id :: id in resting && id !in excluded ==> a[id] == b[id]
    ensures FreeKeys(a, resting, excluded) == FreeKeys(b, resting, excluded)
    decreases |resting|
  {
    if resting != [] {
      assert resting[0] in resting;
      FreeKeysFrame(a, b, resting[1..], excluded);
    }
  }

  /** A resting order being taken, possibly with changed terms. */
  lemma {:induction false} TakingAddsKey(a: seq<OrderState>, b: seq<OrderState>, resting: seq<OrderId>, matched: set<OrderId>, id: OrderId)
    requires Known(a, resting) && Known(b, resting) && Distinct(resting)
    requires id in resting && id !in matched && id < |b|
    requires forall i :: i in resting && i != id ==> a[i] == b[i]
    ensures FreeKeys(b, resting, IdSet(resting) - (matched + {id}))
            == FreeKeys(a, resting, IdSet(resting) - matched) + multiset{KeyOf(b[id])}
  {
    var out := IdSet(resting) - matched;
    var out' := IdSet(resting) - (matched + {id});
    assert out' + {id} == out;
    TakingRemovesKey(b, resting, out', id);
    FreeKeysFrame(a, b, resting, out);
  }

  ghost predicate FreeAreSettled(orders: seq<OrderState>, resting: seq<OrderId>, matched: set<OrderId>)
    requires Known(orders, resting)
  {
    forall id :: id in resting && id !in matched ==> Amendable(orders[id]) && orders[id].filled >= 0.0
  }

  lemma {:induction false} PlacedKeys(s: Oms, sig: Signal, resting: seq<OrderId>, matched: set<OrderId>, leg: Leg, from: nat, ts: int)
    requires Known(s.orders, resting) && from <= |s.orders|
    ensures var s' := PlaceQuote(s, sig, leg);
            BookKeys(s'.orders, resting, matched, from, sig.strategy, sig.instrument, ts)
            == BookKeys(s.orders, resting, matched, from, sig.strategy, sig.instrument, ts) + multiset{LegKey(leg)}
  {
    var s' := PlaceQuote(s, sig, leg);
    var n := |s.orders|;
    var before, after := ConfirmAll(s.orders, ts), ConfirmAll(s'.orders, ts);
    assert after == before + [after[n]];
    FreeKeysPrefix(before, [after[n]], resting, IdSet(resting) - matched);
    assert after[from..] == before[from..] + [after[n]];
    assert after[from..][..|after[from..]| - 1] == before[from..];
    assert KeyOf(after[n]) == LegKey(leg);
  }

  lemma {:induction false} TakenKeys(s: Oms, s': Oms, sig: Signal, resting: seq<OrderId>, matched: set<OrderId>, id: OrderId, from: nat, ts: int)
    requires Known(s.orders, resting) && Distinct(resting) && from <= |s.orders| == |s'.orders|
    requires forall i :: i in resting ==> i < from
    requires id in resting && id !in matched
    requires forall i :: 0 <= i < |s.orders| && i != id ==> s'.orders[i] == s.orders[i]
    ensures BookKeys(s'.orders, resting, matched + {id}, from, sig.strategy, sig.instrument, ts)
            == BookKeys(s.orders, resting, matched, from, sig.strategy, sig.instrument, ts)
               + multiset{KeyOf(Confirmed(s'.orders[id], ts))}
  {
    var before, after := ConfirmAll(s.orders, ts), ConfirmAll(s'.orders, ts);
    TakingAddsKey(before, after, resting, matched, id);
    assert after[from..] == before[from..];
  }

  lemma {:induction false} UnchangedKey(o: OrderState, leg: Leg, ts: int)
    requires Amendable(o) && Suits(o, leg, true)
    ensures KeyOf(Confirmed(o, ts)) == LegKey(leg)
  {
  }

  lemma {:induction false} AmendedKey(o: OrderState, leg: Leg, now: int, ts: int)
    requires Amendable(o) && o.side == leg.side
    ensures KeyOf(Confirmed(AmendSent(o, Amend(leg.price, leg.quantity), now), ts))
            == Key(leg.side, leg.price, leg.quantity - o.filled)
  {
  }

  /** A moment of the matching loop: the book and the orders taken so far. */
  type Progress = (Oms, set<OrderId>)

  /** What matching the remaining legs starts from: distinct old resting orders of the
      strategy, the free ones settled, and no leg held back by self-trade prevention. */
  ghost predicate Ready(cfg: Config, sig: Signal, resting: seq<OrderId>, from: nat, p: Progress, legs: seq<Leg>) {
    && Known(p.0.orders, resting) && Distinct(resting) && from <= |p.0.orders|
    && (forall i :: i in resting ==> i < from && p.0.orders[i].strategy == sig.strategy)
    && FreeAreSettled(p.0.orders, resting, p.1) && NoneBlocked(cfg, p.0.orders, sig, legs)
  }

  /** Between the two moments the book gained exactly the given keys. */
  ghost predicate Gained(sig: Signal, resting: seq<OrderId>, from: nat, ts: int, p: Progress, p': Progress, keys: multiset<Key>) {
    && Known(p.0.orders, resting) && from <= |p.0.orders|
    && Known(p'.0.orders, resting) && from <= |p'.0.orders|
    && BookKeys(p'.0.orders, resting, p'.1, from, sig.strategy, sig.instrument, ts)
       == BookKeys(p.0.orders, resting, p.1, from, sig.strategy, sig.instrument, ts) + keys
  }

  lemma {:induction false} GainedTransitive(sig: Signal, resting: seq<OrderId>, from: nat, ts: int,
                         a: Progress, b: Progress, c: Progress, x: multiset<Key>, y: multiset<Key>)
    requires Gained(sig, resting, from, ts, a, b, x) && Gained(sig, resting, from, ts, b, c, y)
    ensures Gained(sig, resting, from, ts, a, c, x + y)
  {
  }

  lemma {:induction false} TakenGains(s: Oms, s': Oms, sig: Signal, resting: seq<OrderId>, matched: set<OrderId>, id: OrderId, from: nat, ts: int)
    requires Known(s.orders, resting) && Distinct(resting) && from <= |s.orders| == |s'.orders|
    requires forall i :: i in resting ==> i < from
    requires id in resting && id !in matched
    requires forall i :: 0 <= i < |s.orders| && i != id ==> s'.orders[i] == s.orders[i]
    ensures Gained(sig, resting, from, ts, (s, matched), (s', matched + {id}), multiset{KeyOf(Confirmed(s'.orders[id], ts))})
  {
    TakenKeys(s, s', sig, resting, matched, id, from, ts);
  }

  lemma {:induction false} PlacedGains(s: Oms, sig: Signal, resting: seq<OrderId>, matched: set<OrderId>, leg: Leg, from: nat, ts: int)
    requires Known(s.orders, resting) && from <= |s.orders|
    ensures Gained(sig, resting, from, ts, (s, matched), (PlaceQuote(s, sig, leg), matched), multiset{LegKey(leg)})
  {
    PlacedKeys(s, sig, resting, matched, leg, from, ts);
  }

  lemma {:induction false} AmendQuoteEffect(s: Oms, id: OrderId, leg: Leg, now: int)
    requires id < |s.orders| && Amendable(s.orders[id])
    ensures AmendQuote(s, id, leg, now).orders
            == s.orders[id := AmendSent(s.orders[id], Amend(leg.price, leg.quantity), now)]
  {
  }

  lemma {:induction false} AmendedGains(s: Oms, sig: Signal, resting: seq<OrderId>, matched: set<OrderId>, id: OrderId, leg: Leg, now: int,
                     from: nat, ts: int)
    requires Known(s.orders, resting) && Distinct(resting) && from <= |s.orders|
    requires forall i :: i in resting ==> i < from
    requires id in resting && id !in matched && Amendable(s.orders[id]) && s.orders[id].side == leg.side
    ensures Gained(sig, resting, from, ts, (s, matched), (AmendQuote(s, id, leg, now), matched + {id}),
                   multiset{Key(leg.side, leg.price, leg.quantity - s.orders[id].filled)})
  {
    AmendedKey(s.orders[id], leg, now, ts);
    AmendQuoteEffect(s, id, leg, now);
    var s' := AmendQuote(s, id, leg, now);
    TakenGains(s, s', sig, resting, matched, id, from, ts);
  }

  lemma {:induction false} ExactGains(s: Oms, sig: Signal, resting: seq<OrderId>, matched: set<OrderId>, id: OrderId, leg: Leg, from: nat, ts: int)
    requires Known(s.orders, resting) && Distinct(resting) && from <= |s.orders|
    requires forall i :: i in resting ==> i < from
    requires id in resting && id !in matched && Amendable(s.orders[id]) && Suits(s.orders[id], leg, true)
    ensures Gained(sig, resting, from, ts, (s, matched), (s, matched + {id}), multiset{LegKey(leg)})
  {
    UnchangedKey(s.orders[id], leg, ts);
    TakenGains(s, s, sig, resting, matched, id, from, ts);
  }

  /** Where one leg leads, and the key it delivers, in the three cases. */
  lemma {:induction false} MatchLegLeadsTo(cfg: Config, s: Oms, sig: Signal, resting: seq<OrderId>, matched: set<OrderId>, leg: Leg, now: int)
    returns (after: Progress)
    requires Known(s.orders, resting)
    requires FreeAreSettled(s.orders, resting, matched)
    requires !StpBlocks(cfg, s.orders, sig.strategy, sig.instrument, leg)
    ensures MatchLeg(cfg, s, sig, resting, matched, leg, now) == after
    ensures var exact := FirstSuiting(s.orders, resting, matched, leg, true);
            var candidate := FirstSuiting(s.orders, resting, matched, leg, false);
            if exact.Some? then
              after == (s, matched + {exact.value}) && PromisedKey(s, resting, matched, leg) == LegKey(leg)
            else if candidate.None? then
              after == (PlaceQuote(s, sig, leg), matched) && PromisedKey(s, resting, matched, leg) == LegKey(leg)
            else
              && after == (AmendQuote(s, candidate.value, leg, now), matched + {candidate.value})
              && PromisedKey(s, resting, matched, leg)
                 == Key(leg.side, leg.price, leg.quantity - s.orders[candidate.value].filled)
  {
    after := MatchLeg(cfg, s, sig, resting, matched, leg, now);
  }

  /** One leg adds its promised key. */
  lemma {:induction false} MatchLegDelivers(cfg: Config, s: Oms, sig: Signal, resting: seq<OrderId>, matched: set<OrderId>, legs: seq<Leg>, now: int,
                         from: nat, ts: int)
    requires legs != [] && Ready(cfg, sig, resting, from, (s, matched), legs)
    ensures Gained(sig, resting, from, ts, (s, matched), MatchLeg(cfg, s, sig, resting, matched, legs[0], now),
                   multiset{PromisedKey(s, resting, matched, legs[0])})
  {
    var leg := legs[0];
    assert !StpBlocks(cfg, s.orders, sig.strategy, sig.instrument, leg);
    var after := MatchLegLeadsTo(cfg, s, sig, resting, matched, leg, now);
    var exact := FirstSuiting(s.orders, resting, matched, leg, true);
    var candidate := FirstSuiting(s.orders, resting, matched, leg, false);
    if exact.Some? {
      ExactGains(s, sig, resting, matched, exact.value, leg, from, ts);
    } else if candidate.None? {
      PlacedGains(s, sig, resting, matched, leg, from, ts);
    } else {
      AmendedGains(s, sig, resting, matched, candidate.value, leg, now, from, ts);
    }
  }

  /** Matching changes own orders only, and of the resting ones only the one taken. */
  lemma {:induction false} MatchLegIsLocal(cfg: Config, s: Oms, sig: Signal, resting: seq<OrderId>, matched: set<OrderId>, leg: Leg, now: int)
    requires Known(s.orders, resting)
    requires forall id :: id in resting ==> s.orders[id].strategy == sig.strategy
    ensures var (s', matched') := MatchLeg(cfg, s, sig, resting, matched, leg, now);
            && |s.orders| <= |s'.orders| && matched <= matched'
            && (forall i :: 0 <= i < |s.orders| ==>
                  s'.orders[i] == s.orders[i]
                  || (i in resting && i in matched' && s'.orders[i].strategy == sig.strategy))
            && (forall i :: |s.orders| <= i < |s'.orders| ==> s'.orders[i].strategy == sig.strategy)
  {
  }

  lemma {:induction false} MatchLegKeepsReady(cfg: Config, s: Oms, sig: Signal, resting: seq<OrderId>, matched: set<OrderId>, legs: seq<Leg>, now: int,
                           from: nat)
    requires legs != [] && Ready(cfg, sig, resting, from, (s, matched), legs)
    ensures Ready(cfg, sig, resting, from, MatchLeg(cfg, s, sig, resting, matched, legs[0], now), legs[1..])
  {
    var (s', matched') := MatchLeg(cfg, s, sig, resting, matched, legs[0], now);
    MatchLegIsLocal(cfg, s, sig, resting, matched, legs[0], now);
    forall k | 0 <= k < |legs[1..]| ensures !StpBlocks(cfg, s'.orders, sig.strategy, sig.instrument, legs[1..][k]) {
      assert legs[1..][k] == legs[k + 1];
      assert !StpBlocks(cfg, s.orders, sig.strategy, sig.instrument, legs[k + 1]);
    }
  }

  lemma {:induction false} MatchLegsDeliver(cfg: Config, s: Oms, sig: Signal, resting: seq<OrderId>, matched: set<OrderId>,
                                            legs: seq<Leg>, now: int, from: nat, ts: int)
    requires Ready(cfg, sig, resting, from, (s, matched), legs)
    ensures Gained(sig, resting, from, ts, (s, matched), MatchLegs(cfg, s, sig, resting, matched, legs, now),
                   PromisedKeys(cfg, s, sig, resting, matched, legs, now))
    ensures Ready(cfg, sig, resting, from, MatchLegs(cfg, s, sig, resting, matched, legs, now), [])
    decreases |legs|
  {
    if legs != [] {
      var (s1, matched1) := MatchLeg(cfg, s, sig, resting, matched, legs[0], now);
      MatchLegDelivers(cfg, s, sig, resting, matched, legs, now, from, ts);
      MatchLegKeepsReady(cfg, s, sig, resting, matched, legs, now, from);
      MatchLegsDeliver(cfg, s1, sig, resting, matched1, legs[1..], now, from, ts);
      GainedTransitive(sig, resting, from, ts, (s, matched), (s1, matched1),
                       MatchLegs(cfg, s1, sig, resting, matched1, legs[1..], now),
                       multiset{PromisedKey(s, resting, matched, legs[0])},
                       PromisedKeys(cfg, s1, sig, resting, matched1, legs[1..], now));
    }
  }

  // ----- The whole reconcile -----

  /** After matching, an old order is untouched or is a taken one waiting for its amend. */
  lemma {:induction false} MatchLegsAmendsTakenOnly(cfg: Config, s: Oms, sig: Signal, resting: seq<OrderId>, matched: set<OrderId>,
                                                    legs: seq<Leg>, now: int)
    requires Known(s.orders, resting)
    ensures var (s', matched') := MatchLegs(cfg, s, sig, resting, matched, legs, now);
            && |s.orders| <= |s'.orders| && matched <= matched'
            && (forall i :: 0 <= i < |s.orders| ==>
                  s'.orders[i] == s.orders[i]
                  || (i in resting && i in matched' && s'.orders[i].status == PendingAmend
                      && SameIdentity(s.orders[i], s'.orders[i])))
    decreases |legs|
  {
    if legs != [] {
      var (s1, matched1) := MatchLeg(cfg, s, sig, resting, matched, legs[0], now);
      MatchLegAmendsTakenOnly(cfg, s, sig, resting, matched, legs[0], now);
      MatchLegsAmendsTakenOnly(cfg, s1, sig, resting, matched1, legs[1..], now);
    }
  }

  lemma {:induction false} MatchLegAmendsTakenOnly(cfg: Config, s: Oms, sig: Signal, resting: seq<OrderId>, matched: set<OrderId>, leg: Leg, now: int)
    requires Known(s.orders, resting)
    ensures var (s', matched') := MatchLeg(cfg, s, sig, resting, matched, leg, now);
            && |s.orders| <= |s'.orders| && matched <= matched'
            && (forall i :: 0 <= i < |s.orders| ==>
                  s'.orders[i] == s.orders[i]
                  || (i in resting && i in matched' && s'.orders[i].status == PendingAmend
                      && SameIdentity(s.orders[i], s'.orders[i])))
  {
  }

  lemma {:induction false} UnionsRegroup<T>(a: multiset<T>, b: multiset<T>, c: multiset<T>)
    ensures a + (b + c) == (a + b) + c
  {
  }

  lemma {:induction false} OneMoreScopeKey(orders: seq<OrderState>, o: OrderState, strategy: StrategyId, instrument: InstrumentId)
    ensures ScopeKeys(orders + [o], strategy, instrument)
            == ScopeKeys(orders, strategy, instrument)
               + if InScope(o, strategy, instrument) && Active(o) then multiset{KeyOf(o)} else multiset{}
  {
    assert (orders + [o])[..|orders|] == orders;
  }

  lemma {:induction false} ScopeKeysSplit(a: seq<OrderState>, b: seq<OrderState>, strategy: StrategyId, instrument: InstrumentId)
    ensures ScopeKeys(a + b, strategy, instrument) == ScopeKeys(a, strategy, instrument) + ScopeKeys(b, strategy, instrument)
    decreases |b|
  {
    if b == [] {
      assert a + b == a;
    } else {
      var n := |b| - 1;
      ScopeKeysSplit(a, b[..n], strategy, instrument);
      assert b[..n] + [b[n]] == b && (a + b[..n]) + [b[n]] == a + b;
      OneMoreScopeKey(b[..n], b[n], strategy, instrument);
      OneMoreScopeKey(a + b[..n], b[n], strategy, instrument);
      UnionsRegroup(ScopeKeys(a, strategy, instrument), ScopeKeys(b[..n], strategy, instrument),
                    if InScope(b[n], strategy, instrument) && Active(b[n]) then multiset{KeyOf(b[n])} else multiset{});
    }
  }

  ghost predicate LiveExactly(final: seq<OrderState>, ids: seq<OrderId>, excluded: set<OrderId>,
                              strategy: StrategyId, instrument: InstrumentId)
  {
    forall i :: 0 <= i < |final| ==>
      (InScope(final[i], strategy, instrument) && Active(final[i]) <==> i in ids && i !in excluded)
  }

  lemma {:induction false} ScopeKeysOfSurvivors(orders: seq<OrderState>, final: seq<OrderState>, excluded: set<OrderId>,
                                                strategy: StrategyId, instrument: InstrumentId)
    requires |final| == |orders|
    requires LiveExactly(final, RestingIds(orders, strategy, instrument), excluded, strategy, instrument)
    ensures ScopeKeys(final, strategy, instrument)
            == FreeKeys(final, RestingIds(orders, strategy, instrument), excluded)
    decreases |orders|
  {
    if orders != [] {
      var n := |orders| - 1;
      var rests := InScope(orders[n], strategy, instrument) && Active(orders[n]);
      LiveExactlyBefore(orders, final, excluded, strategy, instrument);
      ScopeKeysOfSurvivors(orders[..n], final[..n], excluded, strategy, instrument);
      LastSurvives(orders, final, excluded, strategy, instrument);
      OneMoreSurvivor(final, RestingIds(orders[..n], strategy, instrument), excluded, strategy, instrument, rests);
    }
  }

  lemma {:induction false} LastSurvives(orders: seq<OrderState>, final: seq<OrderState>, excluded: set<OrderId>,
                                        strategy: StrategyId, instrument: InstrumentId)
    requires |final| == |orders| > 0
    requires LiveExactly(final, RestingIds(orders, strategy, instrument), excluded, strategy, instrument)
    ensures var n := |orders| - 1;
            var rests := InScope(orders[n], strategy, instrument) && Active(orders[n]);
            && RestingIds(orders, strategy, instrument)
               == (if rests then RestingIds(orders[..n], strategy, instrument) + [n] else RestingIds(orders[..n], strategy, instrument))
            && (InScope(final[n], strategy, instrument) && Active(final[n]) <==> rests && n !in excluded)
  {
  }

  lemma {:induction false} OneMoreSurvivor(final: seq<OrderState>, before: seq<OrderId>, excluded: set<OrderId>,
                                           strategy: StrategyId, instrument: InstrumentId, rests: bool)
    requires final != [] && Known(final[..|final| - 1], before)
    requires ScopeKeys(final[..|final| - 1], strategy, instrument) == FreeKeys(final[..|final| - 1], before, excluded)
    requires var n := |final| - 1;
             InScope(final[n], strategy, instrument) && Active(final[n]) <==> rests && n !in excluded
    ensures ScopeKeys(final, strategy, instrument)
            == FreeKeys(final, if rests then before + [|final| - 1] else before, excluded)
  {
    var n := |final| - 1;
    assert final == final[..n] + [final[n]];
    FreeKeysPrefix(final[..n], [final[n]], before, excluded);
    OneMoreScopeKey(final[..n], final[n], strategy, instrument);
    if rests {
      FreeKeysAppend(final, before, n, excluded);
    }
  }

  lemma {:induction false} LiveExactlyBefore(orders: seq<OrderState>, final: seq<OrderState>, excluded: set<OrderId>,
                                             strategy: StrategyId, instrument: InstrumentId)
    requires |final| == |orders| > 0
    requires LiveExactly(final, RestingIds(orders, strategy, instrument), excluded, strategy, instrument)
    ensures LiveExactly(final[..|orders| - 1], RestingIds(orders[..|orders| - 1], strategy, instrument), excluded,
                        strategy, instrument)
  {
    var n := |orders| - 1;
    var before, ids := RestingIds(orders[..n], strategy, instrument), RestingIds(orders, strategy, instrument);
    forall i | 0 <= i < n
      ensures InScope(final[..n][i], strategy, instrument) && Active(final[..n][i]) <==> i in before && i !in excluded
    {
      assert i in ids <==> i in before;
    }
  }

  /** Which old orders are live once the venue has confirmed everything. */
  lemma {:induction false} SurvivorsAreTheTaken(cfg: Config, s: Oms, sig: Signal, legs: seq<Leg>, now: int, ts: int)
    requires Settled(s.orders, sig.strategy, sig.instrument)
    ensures var resting := RestingIds(s.orders, sig.strategy, sig.instrument);
            var (s1, matched) := MatchLegs(cfg, s, sig, resting, {}, legs, now);
            var s2 := CancelUnmatched(s1, resting, matched, now);
            && |s.orders| <= |s1.orders| == |s2.orders|
            && (forall i :: 0 <= i < |s1.orders| && (i in matched || i !in resting) ==> s2.orders[i] == s1.orders[i])
            && LiveExactly(ConfirmAll(s2.orders, ts)[..|s.orders|], resting, IdSet(resting) - matched,
                           sig.strategy, sig.instrument)
  {
    var resting := RestingIds(s.orders, sig.strategy, sig.instrument);
    var (s1, matched) := MatchLegs(cfg, s, sig, resting, {}, legs, now);
    var s2 := CancelUnmatched(s1, resting, matched, now);
    RestingIdsDistinct(s.orders, sig.strategy, sig.instrument);
    MatchLegsAmendsTakenOnly(cfg, s, sig, resting, {}, legs, now);
    CancelUnmatchedIsPointwise(s1, resting, matched, now);
    var final := ConfirmAll(s2.orders, ts)[..|s.orders|];
    forall i | 0 <= i < |s.orders|
      ensures InScope(final[i], sig.strategy, sig.instrument) && Active(final[i])
              <==> i in resting && i !in IdSet(resting) - matched
    {
      SurvivorIffTaken(s.orders[i], s1.orders[i], s2.orders[i], i in resting, i in matched, sig, now, ts);
    }
  }

  lemma {:induction false} SurvivorIffTaken(o: OrderState, o1: OrderState, o2: OrderState, isResting: bool, taken: bool, sig: Signal, now: int, ts: int)
    requires isResting <==> InScope(o, sig.strategy, sig.instrument) && Active(o)
    requires isResting ==> Amendable(o)
    requires o1 == o || (isResting && taken && o1.status == PendingAmend && SameIdentity(o, o1))
    requires o2 == if isResting && !taken && o1.status != PendingAmend then CancelSent(o1, now) else o1
    ensures InScope(Confirmed(o2, ts), sig.strategy, sig.instrument) && Active(Confirmed(o2, ts)) <==> isResting && taken
  {
    ActiveIsLive(o);
  }

  /** Reconciling a settled book, once confirmed, leaves exactly the promised keys resting. */
  lemma {:induction false} SettledBookDelivers(cfg: Config, s: Oms, sig: Signal, legs: seq<Leg>, now: int, ts: int)
    requires Settled(s.orders, sig.strategy, sig.instrument) && NoneBlocked(cfg, s.orders, sig, legs)
    ensures ScopeKeys(ConfirmAll(ReconcileImmediate(cfg, s, sig, legs, now).orders, ts), sig.strategy, sig.instrument)
            == PromisedKeys(cfg, s, sig, RestingIds(s.orders, sig.strategy, sig.instrument), {}, legs, now)
  {
    var resting := RestingIds(s.orders, sig.strategy, sig.instrument);
    var n := |s.orders|;
    StartsReady(cfg, s, sig, legs, ts);
    MatchLegsDeliver(cfg, s, sig, resting, {}, legs, now, n, ts);
    var (s1, matched) := MatchLegs(cfg, s, sig, resting, {}, legs, now);
    var s2 := CancelUnmatched(s1, resting, matched, now);
    SurvivorsAreTheTaken(cfg, s, sig, legs, now, ts);
    FinalKeys(s.orders, s1.orders, s2.orders, sig, resting, matched, ts);
  }

  lemma {:induction false} StartsReady(cfg: Config, s: Oms, sig: Signal, legs: seq<Leg>, ts: int)
    requires Settled(s.orders, sig.strategy, sig.instrument) && NoneBlocked(cfg, s.orders, sig, legs)
    ensures var resting := RestingIds(s.orders, sig.strategy, sig.instrument);
            && Ready(cfg, sig, resting, |s.orders|, (s, {}), legs)
            && BookKeys(s.orders, resting, {}, |s.orders|, sig.strategy, sig.instrument, ts) == multiset{}
  {
    var resting := RestingIds(s.orders, sig.strategy, sig.instrument);
    RestingIdsDistinct(s.orders, sig.strategy, sig.instrument);
    AllExcludedNoKeys(ConfirmAll(s.orders, ts), resting, IdSet(resting) - {});
  }

  lemma {:induction false} AllExcludedNoKeys(orders: seq<OrderState>, resting: seq<OrderId>, excluded: set<OrderId>)
    requires Known(orders, resting)
    requires forall id :: id in resting ==> id in excluded
    ensures FreeKeys(orders, resting, excluded) == multiset{}
    decreases |resting|
  {
    if resting != [] {
      assert resting[0] in resting;
      AllExcludedNoKeys(orders, resting[1..], excluded);
    }
  }

  lemma {:induction false} FinalHead(orders: seq<OrderState>, matchedOrders: seq<OrderState>, final: seq<OrderState>, sig: Signal,
                  resting: seq<OrderId>, matched: set<OrderId>, ts: int)
    requires |orders| <= |matchedOrders| == |final| && resting == RestingIds(orders, sig.strategy, sig.instrument)
    requires forall i :: 0 <= i < |final| && i in matched ==> final[i] == matchedOrders[i]
    requires LiveExactly(ConfirmAll(final, ts)[..|orders|], resting, IdSet(resting) - matched, sig.strategy, sig.instrument)
    ensures Known(ConfirmAll(matchedOrders, ts), resting)
    ensures ScopeKeys(ConfirmAll(final, ts)[..|orders|], sig.strategy, sig.instrument)
            == FreeKeys(ConfirmAll(matchedOrders, ts), resting, IdSet(resting) - matched)
  {
    ScopeKeysOfSurvivors(orders, ConfirmAll(final, ts)[..|orders|], IdSet(resting) - matched, sig.strategy, sig.instrument);
    TakenUnchanged(matchedOrders, final, resting, matched, |orders|, ts);
  }

  lemma {:induction false} FinalTail(a: seq<OrderState>, b: seq<OrderState>, n: nat, ts: int)
    requires n <= |a| == |b|
    requires forall i :: n <= i < |a| ==> a[i] == b[i]
    ensures ConfirmAll(a, ts)[n..] == ConfirmAll(b, ts)[n..]
  {
  }

  lemma {:induction false} SplitScopeKeys(orders: seq<OrderState>, n: nat, strategy: StrategyId, instrument: InstrumentId)
    requires n <= |orders|
    ensures ScopeKeys(orders, strategy, instrument)
            == ScopeKeys(orders[..n], strategy, instrument) + ScopeKeys(orders[n..], strategy, instrument)
  {
    assert orders == orders[..n] + orders[n..];
    ScopeKeysSplit(orders[..n], orders[n..], strategy, instrument);
  }

  lemma {:induction false} FinalKeys(orders: seq<OrderState>, matchedOrders: seq<OrderState>, final: seq<OrderState>, sig: Signal,
                  resting: seq<OrderId>, matched: set<OrderId>, ts: int)
    requires |orders| <= |matchedOrders| == |final| && resting == RestingIds(orders, sig.strategy, sig.instrument)
    requires forall i :: 0 <= i < |final| && (i in matched || i !in resting) ==> final[i] == matchedOrders[i]
    requires LiveExactly(ConfirmAll(final, ts)[..|orders|], resting, IdSet(resting) - matched, sig.strategy, sig.instrument)
    ensures Known(matchedOrders, resting)
    ensures ScopeKeys(ConfirmAll(final, ts), sig.strategy, sig.instrument)
            == BookKeys(matchedOrders, resting, matched, |orders|, sig.strategy, sig.instrument, ts)
  {
    SplitScopeKeys(ConfirmAll(final, ts), |orders|, sig.strategy, sig.instrument);
    FinalHead(orders, matchedOrders, final, sig, resting, matched, ts);
    FinalTail(matchedOrders, final, |orders|, ts);
  }

  lemma {:induction false} TakenUnchanged(a: seq<OrderState>, b: seq<OrderState>, resting: seq<OrderId>, matched: set<OrderId>, n: nat, ts: int)
    requires n <= |a| == |b|
    requires forall id :: id in resting ==> id < n
    requires forall i :: 0 <= i < |b| && i in matched ==> b[i] == a[i]
    ensures Known(ConfirmAll(b, ts)[..n], resting) && Known(ConfirmAll(a, ts), resting)
    ensures FreeKeys(ConfirmAll(b, ts)[..n], resting, IdSet(resting) - matched)
            == FreeKeys(ConfirmAll(a, ts), resting, IdSet(resting) - matched)
  {
    forall i | 0 <= i < |resting| ensures resting[i] < n {
      assert resting[i] in resting;
    }
    FreeKeysFrame(ConfirmAll(b, ts)[..n], ConfirmAll(a, ts), resting, IdSet(resting) - matched);
  }

  // ----- When the snapshot is reached exactly -----

  ghost function TotalLeaves(m: multiset<Key>): Quantity
    decreases |m|
  {
    if m == multiset{} then 0.0
    else
      var k :| k in m;
      k.leaves + TotalLeaves(m - multiset{k})
  }

  lemma {:induction false} TotalLeavesAdd(m: multiset<Key>, k: Key)
    ensures TotalLeaves(m + multiset{k}) == TotalLeaves(m) + k.leaves
    decreases |m|
  {
    var m' := m + multiset{k};
    var x :| x in m' && TotalLeaves(m') == x.leaves + TotalLeaves(m' - multiset{x});
    var rest := m - multiset{x};
    RemoveOther(m, k, x);
    if x != k {
      TotalLeavesAdd(rest, k);
      TotalLeavesAdd(rest, x);
    }
  }

  lemma {:induction false} RemoveOther<T>(m: multiset<T>, k: T, x: T)
    requires x in m + multiset{k}
    ensures x == k ==> m + multiset{k} - multiset{x} == m
    ensures x != k ==> m == m - multiset{x} + multiset{x}
                       && m + multiset{k} - multiset{x} == m - multiset{x} + multiset{k}
                       && |m - multiset{x}| < |m|
  {
  }

  lemma {:induction false} PromisedTotal(cfg: Config, s: Oms, sig: Signal, resting: seq<OrderId>, matched: set<OrderId>,
                                         legs: seq<Leg>, now: int)
    requires Known(s.orders, resting)
    ensures TotalLeaves(PromisedKeys(cfg, s, sig, resting, matched, legs, now))
            == TotalLeaves(LegKeys(legs)) - Shortfall(cfg, s, sig, resting, matched, legs, now)
    decreases |legs|
  {
    if legs != [] {
      var (s1, matched1) := MatchLeg(cfg, s, sig, resting, matched, legs[0], now);
      PromisedTotal(cfg, s1, sig, resting, matched1, legs[1..], now);
      var promised := PromisedKeys(cfg, s1, sig, resting, matched1, legs[1..], now);
      var k := PromisedKey(s, resting, matched, legs[0]);
      TotalLeavesAdd(promised, k);
      assert multiset{k} + promised == promised + multiset{k};
      TotalLeavesAdd(LegKeys(legs[1..]), LegKey(legs[0]));
      assert LegKeys(legs) == LegKeys(legs[1..]) + multiset{LegKey(legs[0])};
    }
  }

  lemma {:induction false} NoShortfallNoDifference(cfg: Config, s: Oms, sig: Signal, resting: seq<OrderId>, matched: set<OrderId>,
                                                   legs: seq<Leg>, now: int, from: nat)
    requires Ready(cfg, sig, resting, from, (s, matched), legs)
    ensures Shortfall(cfg, s, sig, resting, matched, legs, now) >= 0.0
    ensures Shortfall(cfg, s, sig, resting, matched, legs, now) == 0.0 ==>
            PromisedKeys(cfg, s, sig, resting, matched, legs, now) == LegKeys(legs)
    decreases |legs|
  {
    if legs != [] {
      var (s1, matched1) := MatchLeg(cfg, s, sig, resting, matched, legs[0], now);
      MatchLegKeepsReady(cfg, s, sig, resting, matched, legs, now, from);
      NoShortfallNoDifference(cfg, s1, sig, resting, matched1, legs[1..], now, from);
      MissingIsNonNegative(s, resting, matched, legs[0]);
    }
  }

  lemma {:induction false} MissingIsNonNegative(s: Oms, resting: seq<OrderId>, matched: set<OrderId>, leg: Leg)
    requires Known(s.orders, resting) && FreeAreSettled(s.orders, resting, matched)
    ensures Missing(s.orders, resting, matched, leg) >= 0.0
    ensures Missing(s.orders, resting, matched, leg) == 0.0 ==> PromisedKey(s, resting, matched, leg) == LegKey(leg)
  {
  }

  /** No amend request from position `from` on is for a part-filled order of the book. */
  predicate AmendsUnfilledOnly(orders: seq<OrderState>, sent: seq<Msg>, from: nat) {
    forall k :: from <= k < |sent| && sent[k].AmendRequest? ==>
      sent[k].order < |orders| && orders[sent[k].order].filled == 0.0
  }

  ghost predicate SameFills(orders: seq<OrderState>, later: seq<OrderState>) {
    |orders| <= |later| && forall i :: 0 <= i < |orders| ==> later[i].filled == orders[i].filled
  }

  /** What one leg sends: an amend exactly of the order it takes as a fallback. */
  lemma {:induction false} MatchLegSends(cfg: Config, s: Oms, sig: Signal, resting: seq<OrderId>, matched: set<OrderId>,
                                         legs: seq<Leg>, now: int, from: nat)
    requires legs != [] && Ready(cfg, sig, resting, from, (s, matched), legs)
    ensures var (s1, _) := MatchLeg(cfg, s, sig, resting, matched, legs[0], now);
            var amended := ToAmend(s.orders, resting, matched, legs[0]);
            && s.sent <= s1.sent && |s1.sent| <= |s.sent| + 1 && SameFills(s.orders, s1.orders)
            && (amended.Some? ==> |s1.sent| == |s.sent| + 1 && s1.sent[|s.sent|].AmendRequest? && s1.sent[|s.sent|].order == amended.value)
            && (amended.None? ==> forall k :: |s.sent| <= k < |s1.sent| ==> !s1.sent[k].AmendRequest?)
  {
    assert !StpBlocks(cfg, s.orders, sig.strategy, sig.instrument, legs[0]);
  }

  lemma {:induction false} ShortfallIffPartFilledAmended(cfg: Config, orders: seq<OrderState>, s: Oms, sig: Signal, resting: seq<OrderId>,
                                                         matched: set<OrderId>, legs: seq<Leg>, now: int, from: nat)
    requires Ready(cfg, sig, resting, from, (s, matched), legs)
    requires SameFills(orders, s.orders) && Known(orders, resting)
    ensures var s' := MatchLegs(cfg, s, sig, resting, matched, legs, now).0;
            && s.sent <= s'.sent
            && (Shortfall(cfg, s, sig, resting, matched, legs, now) == 0.0 <==> AmendsUnfilledOnly(orders, s'.sent, |s.sent|))
    decreases |legs|
  {
    if legs != [] {
      var (s1, matched1) := MatchLeg(cfg, s, sig, resting, matched, legs[0], now);
      MatchLegSends(cfg, s, sig, resting, matched, legs, now, from);
      MatchLegKeepsReady(cfg, s, sig, resting, matched, legs, now, from);
      ShortfallIffPartFilledAmended(cfg, orders, s1, sig, resting, matched1, legs[1..], now, from);
      MissingIsNonNegative(s, resting, matched, legs[0]);
      NoShortfallNoDifference(cfg, s1, sig, resting, matched1, legs[1..], now, from);
      var s' := MatchLegs(cfg, s1, sig, resting, matched1, legs[1..], now).0;
      OneMoreSent(cfg, orders, s, s1.sent, s'.sent, resting, matched, legs[0]);
    }
  }

  lemma {:induction false} OneMoreSent(cfg: Config, orders: seq<OrderState>, s: Oms, sent1: seq<Msg>, sent': seq<Msg>, resting: seq<OrderId>,
                                       matched: set<OrderId>, leg: Leg)
    requires Known(s.orders, resting) && Known(orders, resting) && SameFills(orders, s.orders)
    requires s.sent <= sent1 <= sent' && |sent1| <= |s.sent| + 1
    requires var amended := ToAmend(s.orders, resting, matched, leg);
             && (amended.Some? ==> |sent1| == |s.sent| + 1 && sent1[|s.sent|].AmendRequest? && sent1[|s.sent|].order == amended.value)
             && (amended.None? ==> forall k :: |s.sent| <= k < |sent1| ==> !sent1[k].AmendRequest?)
    ensures AmendsUnfilledOnly(orders, sent', |s.sent|) <==>
            Missing(s.orders, resting, matched, leg) == 0.0 && AmendsUnfilledOnly(orders, sent', |sent1|)
  {
    var amended := ToAmend(s.orders, resting, matched, leg);
    if amended.Some? {
      assert sent'[|s.sent|] == sent1[|s.sent|];
    } else {
      assert forall k :: |s.sent| <= k < |sent1| ==> sent'[k] == sent1[k];
    }
  }

  lemma {:induction false} CancelsAmendNothing(orders: seq<OrderState>, s: Oms, resting: seq<OrderId>, matched: set<OrderId>, now: int, from: nat)
    requires Known(s.orders, resting) && from <= |s.sent|
    ensures s.sent <= CancelUnmatched(s, resting, matched, now).sent
    ensures AmendsUnfilledOnly(orders, CancelUnmatched(s, resting, matched, now).sent, from) <==> AmendsUnfilledOnly(orders, s.sent, from)
    decreases |resting|
  {
    if resting != [] {
      var id := resting[0];
      var s1 := if id !in matched && s.orders[id].status != PendingAmend then CancelOrder(s, id, now) else s;
      CancelsAmendNothing(orders, s1, resting[1..], matched, now, from);
      assert forall k :: 0 <= k < |s.sent| ==> s1.sent[k] == s.sent[k];
    }
  }

  lemma {:induction false} ReachedIffNoShortfall(cfg: Config, s: Oms, sig: Signal, legs: seq<Leg>, now: int, ts: int)
    requires Settled(s.orders, sig.strategy, sig.instrument) && NoneBlocked(cfg, s.orders, sig, legs)
    ensures ScopeKeys(ConfirmAll(ReconcileImmediate(cfg, s, sig, legs, now).orders, ts), sig.strategy, sig.instrument)
            == LegKeys(legs)
            <==> Shortfall(cfg, s, sig, RestingIds(s.orders, sig.strategy, sig.instrument), {}, legs, now) == 0.0
  {
    var resting := RestingIds(s.orders, sig.strategy, sig.instrument);
    SettledBookDelivers(cfg, s, sig, legs, now, ts);
    StartsReady(cfg, s, sig, legs, ts);
    PromisedTotal(cfg, s, sig, resting, {}, legs, now);
    NoShortfallNoDifference(cfg, s, sig, resting, {}, legs, now, |s.orders|);
  }

  /** The snapshot contract: on a settled book with no leg held back, the confirmed book is
      exactly the signal's legs if and only if no order that reconcile sent an amend for was
      part filled. */
  lemma {:induction false} SnapshotReachedIffNothingMissing(cfg: Config, s: Oms, sig: Signal, legs: seq<Leg>, now: int, ts: int)
    requires Settled(s.orders, sig.strategy, sig.instrument) && NoneBlocked(cfg, s.orders, sig, legs)
    ensures var s' := ReconcileImmediate(cfg, s, sig, legs, now);
            && s.sent <= s'.sent
            && (ScopeKeys(ConfirmAll(s'.orders, ts), sig.strategy, sig.instrument) == LegKeys(legs)
                <==> AmendsUnfilledOnly(s.orders, s'.sent, |s.sent|))
  {
    var resting := RestingIds(s.orders, sig.strategy, sig.instrument);
    ReachedIffNoShortfall(cfg, s, sig, legs, now, ts);
    StartsReady(cfg, s, sig, legs, ts);
    ShortfallIffPartFilledAmended(cfg, s.orders, s, sig, resting, {}, legs, now, |s.orders|);
    var (s1, matched) := MatchLegs(cfg, s, sig, resting, {}, legs, now);
    CancelsAmendNothing(s.orders, s1, resting, matched, now, |s.sent|);
  }

  /** One buy of ten lots at 100, of which `filled` are done. */
  function PartFilledBook(filled: Quantity): Oms {
    EmptyOms.(orders := [FreshOrder(0, Minted("mm", 0), "mm", "BTC-USDT", Buy, None, 10.0, Some(100.0))
                         .(status := PartiallyFilled, filled := filled)])
  }

  const Requote: Leg := Leg("bid", Buy, Some(101.0), 10.0)

  lemma {:induction false} RequoteAmends(cfg: Config, filled: Quantity, now: int)
    ensures var s := PartFilledBook(filled);
            var sig := Signal(1, "mm", "BTC-USDT", [Requote]);
            && RestingIds(s.orders, "mm", "BTC-USDT") == [0] && NoneBlocked(cfg, s.orders, sig, [Requote])
            && MatchLeg(cfg, s, sig, [0], {}, Requote, now) == (AmendQuote(s, 0, Requote, now), {0})
  {
    var s := PartFilledBook(filled);
    assert s.orders[..0] == [] && [] + [0] == [0];
    assert RestingIds(s.orders[..0], "mm", "BTC-USDT") == [];
    assert InScope(s.orders[0], "mm", "BTC-USDT") && Active(s.orders[0]);
    assert !CrossesSibling(s.orders[0], "mm", "BTC-USDT", Buy, 101.0);
    assert !StpBlocks(cfg, s.orders, "mm", "BTC-USDT", Requote);
    assert [0][1..] == [];
    assert FirstSuiting(s.orders, [0], {}, Requote, true).None?;
    assert FirstSuiting(s.orders, [0], {}, Requote, false) == Some(0);
    var none: set<OrderId> := {};
    assert none + {0} == {0};
  }

  lemma {:induction false} RequoteReconciles(cfg: Config, filled: Quantity, now: int)
    ensures var s := PartFilledBook(filled);
            ReconcileImmediate(cfg, s, Signal(1, "mm", "BTC-USDT", [Requote]), [Requote], now) == AmendQuote(s, 0, Requote, now)
  {
    var s := PartFilledBook(filled);
    var sig := Signal(1, "mm", "BTC-USDT", [Requote]);
    RequoteAmends(cfg, filled, now);
    assert [Requote][1..] == [] && [0][1..] == [];
    var s1 := AmendQuote(s, 0, Requote, now);
    assert MatchLegs(cfg, s, sig, [0], {}, [Requote], now) == (s1, {0});
  }

  /** A book the contract fails on: one part-filled order and one leg at another price. What
      was filled is missing once the amend is confirmed. */
  lemma {:induction false} PartFilledOrderEndsShort(cfg: Config, filled: Quantity, now: int, ts: int)
    requires 0.0 < filled < 10.0
    ensures var s := PartFilledBook(filled);
            var sig := Signal(1, "mm", "BTC-USDT", [Requote]);
            var s' := ReconcileImmediate(cfg, s, sig, [Requote], now);
            && Settled(s.orders, "mm", "BTC-USDT") && NoneBlocked(cfg, s.orders, sig, [Requote])
            && s'.sent == [AmendRequest(0, Some(101.0), 10.0)]
            && ScopeKeys(ConfirmAll(s'.orders, ts), "mm", "BTC-USDT") == multiset{Key(Buy, Some(101.0), 10.0 - filled)}
            && LegKeys([Requote]) == multiset{Key(Buy, Some(101.0), 10.0)}
            && ScopeKeys(ConfirmAll(s'.orders, ts), "mm", "BTC-USDT") != LegKeys([Requote])
  {
    RequoteAmends(cfg, filled, now);
    RequoteReconciles(cfg, filled, now);
    RequoteConfirmed(filled, now, ts);
    var s := PartFilledBook(filled);
    forall i | 0 <= i < |s.orders| ensures Amendable(s.orders[i]) && s.orders[i].filled >= 0.0 {
    }
    assert [Requote][1..] == [];
    assert Key(Buy, Some(101.0), 10.0) !in multiset{Key(Buy, Some(101.0), 10.0 - filled)};
  }

  lemma {:induction false} RequoteConfirmed(filled: Quantity, now: int, ts: int)
    ensures var s' := AmendQuote(PartFilledBook(filled), 0, Requote, now);
            && s'.sent == [AmendRequest(0, Some(101.0), 10.0)]
            && ScopeKeys(ConfirmAll(s'.orders, ts), "mm", "BTC-USDT") == multiset{Key(Buy, Some(101.0), 10.0 - filled)}
  {
    var final := ConfirmAll(AmendQuote(PartFilledBook(filled), 0, Requote, now).orders, ts);
    assert |final| == 1 && final[..0] == [];
    assert KeyOf(final[0]) == Key(Buy, Some(101.0), 10.0 - filled);
    assert InScope(final[0], "mm", "BTC-USDT") && Active(final[0]);
  }

  ghost predicate ScopeUnfilled(orders: seq<OrderState>, strategy: StrategyId, instrument: InstrumentId) {
    forall i :: 0 <= i < |orders| && InScope(orders[i], strategy, instrument) && Active(orders[i]) ==>
      orders[i].filled == 0.0
  }

  lemma {:induction false} UnfilledNothingMissing(cfg: Config, s: Oms, sig: Signal, resting: seq<OrderId>, matched: set<OrderId>,
                                                  legs: seq<Leg>, now: int)
    requires Known(s.orders, resting)
    requires forall id :: id in resting && id !in matched ==> s.orders[id].filled == 0.0
    ensures Shortfall(cfg, s, sig, resting, matched, legs, now) == 0.0
    decreases |legs|
  {
    if legs != [] {
      MatchLegAmendsTakenOnly(cfg, s, sig, resting, matched, legs[0], now);
      var (s1, matched1) := MatchLeg(cfg, s, sig, resting, matched, legs[0], now);
      UnfilledNothingMissing(cfg, s1, sig, resting, matched1, legs[1..], now);
    }
  }

  /** On an unfilled settled book a signal is reached exactly, and sending it again then
      changes nothing at all. */
  lemma {:induction false} UnfilledBookConverges(cfg: Config, s: Oms, sig: Signal, legs: seq<Leg>, now: int, ts: int, later: int)
    requires Settled(s.orders, sig.strategy, sig.instrument) && NoneBlocked(cfg, s.orders, sig, legs)
    requires ScopeUnfilled(s.orders, sig.strategy, sig.instrument)
    ensures var s1 := ReconcileImmediate(cfg, s, sig, legs, now);
            var s2 := s1.(orders := ConfirmAll(s1.orders, ts));
            && RestingKeys(s2.orders, sig.strategy, sig.instrument) == LegKeys(legs)
            && ReconcileImmediate(cfg, s2, sig, legs, later) == s2
  {
    var s1 := ReconcileImmediate(cfg, s, sig, legs, now);
    var s2 := s1.(orders := ConfirmAll(s1.orders, ts));
    UnfilledNothingMissing(cfg, s, sig, RestingIds(s.orders, sig.strategy, sig.instrument), {}, legs, now);
    ReachedIffNoShortfall(cfg, s, sig, legs, now, ts);
    RestingKeysAreScopeKeys(s2.orders, sig.strategy, sig.instrument);
    ExactBookIsUntouched(cfg, s2, sig, legs, later);
  }

  /** Re-sending a fully placed signal before any answer sends nothing. */
  lemma {:induction false} ResendIsSilent(cfg: Config, s: Oms, sig: Signal, legs: seq<Leg>, now: int, later: int)
    requires RestingIds(s.orders, sig.strategy, sig.instrument) == []
    requires NoneBlocked(cfg, s.orders, sig, legs)
    ensures var s1 := ReconcileImmediate(cfg, s, sig, legs, now);
            ReconcileImmediate(cfg, s1, sig, legs, later) == s1
  {
    PlacedFromEmpty(cfg, s, sig, {}, legs, now);
    var s1 := ReconcileImmediate(cfg, s, sig, legs, now);
    RestingKeysAreScopeKeys(s.orders, sig.strategy, sig.instrument);
    RestingKeysAreScopeKeys(s1.orders, sig.strategy, sig.instrument);
    ExactBookIsUntouched(cfg, s1, sig, legs, later);
  }

  lemma {:induction false} PlaceOneFromEmpty(cfg: Config, s: Oms, sig: Signal, matched: set<OrderId>, legs: seq<Leg>, now: int)
    requires legs != [] && NoneBlocked(cfg, s.orders, sig, legs)
    ensures MatchLeg(cfg, s, sig, [], matched, legs[0], now) == (PlaceQuote(s, sig, legs[0]), matched)
    ensures NoneBlocked(cfg, PlaceQuote(s, sig, legs[0]).orders, sig, legs[1..])
  {
    assert !StpBlocks(cfg, s.orders, sig.strategy, sig.instrument, legs[0]);
    var s1 := PlaceQuote(s, sig, legs[0]);
    forall k | 0 <= k < |legs[1..]| ensures !StpBlocks(cfg, s1.orders, sig.strategy, sig.instrument, legs[1..][k]) {
      assert !StpBlocks(cfg, s.orders, sig.strategy, sig.instrument, legs[k + 1]);
    }
  }

  lemma {:induction false} PlacedScopeKeys(s: Oms, sig: Signal, leg: Leg)
    ensures ScopeKeys(PlaceQuote(s, sig, leg).orders, sig.strategy, sig.instrument)
            == ScopeKeys(s.orders, sig.strategy, sig.instrument) + multiset{LegKey(leg)}
  {
    var s1 := PlaceQuote(s, sig, leg);
    assert s1.orders[..|s.orders|] == s.orders;
    assert KeyOf(s1.orders[|s.orders|]) == LegKey(leg);
  }

  lemma {:induction false} PlacedFromEmpty(cfg: Config, s: Oms, sig: Signal, matched: set<OrderId>, legs: seq<Leg>, now: int)
    requires NoneBlocked(cfg, s.orders, sig, legs)
    ensures ScopeKeys(MatchLegs(cfg, s, sig, [], matched, legs, now).0.orders, sig.strategy, sig.instrument)
            == ScopeKeys(s.orders, sig.strategy, sig.instrument) + LegKeys(legs)
    decreases |legs|
  {
    if legs != [] {
      PlaceOneFromEmpty(cfg, s, sig, matched, legs, now);
      PlacedScopeKeys(s, sig, legs[0]);
      PlacedFromEmpty(cfg, PlaceQuote(s, sig, legs[0]), sig, matched, legs[1..], now);
    }
  }
}
