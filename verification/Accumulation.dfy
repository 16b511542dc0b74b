/** Orders never pile up: reconciling leaves no more live plain orders on a side than
    there were, or than the signal asks for. */
module Accumulation {
  import opened Types
  import opened StateMachine
  import opened Orders
  import opened OmsModel
  import opened OmsInvariants

  predicate LivePlain(o: OrderState, strategy: StrategyId, instrument: InstrumentId, side: Side) {
    InScope(o, strategy, instrument) && o.side == side && !o.Terminal()
  }

  /** The live plain orders of a strategy on one side of an instrument. */
  function LiveIds(orders: seq<OrderState>, strategy: StrategyId, instrument: InstrumentId, side: Side): set<OrderId> {
    set i | 0 <= i < |orders| && LivePlain(orders[i], strategy, instrument, side)
  }

  function LegsOnSide(legs: seq<Leg>, side: Side): nat {
    if legs == [] then 0 else (if legs[0].side == side then 1 else 0) + LegsOnSide(legs[1..], side)
  }

  function Max(a: nat, b: nat): nat { if a < b then b else a }

  lemma {:induction false} ActiveIsLive(o: OrderState)
    ensures Active(o) <==> !o.Terminal()
  {
    LiveOrdersAcceptVenueFate(o.status);
  }

  lemma {:induction false} SubsetIsSmaller<T>(a: set<T>, b: set<T>)
    requires a <= b
    ensures |a| <= |b|
  {
    assert b == a + (b - a);
  }

  predicate SameIdentity(o: OrderState, o': OrderState) {
    o'.strategy == o.strategy && o'.instrument == o.instrument && o'.side == o.side && o'.parentLeg == o.parentLeg
  }

  /** No order is lost or re-attributed. */
  ghost predicate KeepsIdentities(s: Oms, s': Oms) {
    && |s.orders| <= |s'.orders|
    && forall i :: 0 <= i < |s.orders| ==> SameIdentity(s.orders[i], s'.orders[i])
  }

  /** Every order added later is an algorithm's child. */
  ghost predicate OnlyChildrenAdded(s: Oms, s': Oms) {
    && KeepsIdentities(s, s')
    && forall i :: |s.orders| <= i < |s'.orders| ==> s'.orders[i].parentLeg.Some?
  }

  lemma {:induction false} ExtendsKeepsIdentities(s: Oms, s': Oms)
    requires Extends(s, s')
    ensures KeepsIdentities(s, s')
  {
    forall i | 0 <= i < |s.orders| ensures SameIdentity(s.orders[i], s'.orders[i]) {
      assert Descends(s.orders[i], s'.orders[i]);
    }
  }

  lemma {:induction false} OnlyChildrenTransitive(a: Oms, b: Oms, c: Oms)
    requires OnlyChildrenAdded(a, b) && OnlyChildrenAdded(b, c)
    ensures OnlyChildrenAdded(a, c)
  {
    forall i | |a.orders| <= i < |c.orders| ensures c.orders[i].parentLeg.Some? {
      if i < |b.orders| {
        assert SameIdentity(b.orders[i], c.orders[i]);
      }
    }
    forall i | 0 <= i < |a.orders| ensures SameIdentity(a.orders[i], c.orders[i]) {
      assert SameIdentity(a.orders[i], b.orders[i]) && SameIdentity(b.orders[i], c.orders[i]);
    }
  }

  lemma {:induction false} LiveIdsShrink(s: Oms, s': Oms, strategy: StrategyId, instrument: InstrumentId, side: Side)
    requires Extends(s, s') && OnlyChildrenAdded(s, s')
    ensures LiveIds(s'.orders, strategy, instrument, side) <= LiveIds(s.orders, strategy, instrument, side)
    ensures |LiveIds(s'.orders, strategy, instrument, side)| <= |LiveIds(s.orders, strategy, instrument, side)|
  {
    forall i | i in LiveIds(s'.orders, strategy, instrument, side)
      ensures i in LiveIds(s.orders, strategy, instrument, side)
    {
      assert i < |s.orders|;
      assert Descends(s.orders[i], s'.orders[i]);
    }
    SubsetIsSmaller(LiveIds(s'.orders, strategy, instrument, side), LiveIds(s.orders, strategy, instrument, side));
  }

  // ----- Matching legs -----

  /** The new orders on a side. */
  function Added(orders: seq<OrderState>, from: nat, side: Side): set<OrderId> {
    set i | from <= i < |orders| && orders[i].side == side
  }

  /** Each leg used up one resting order or one fresh order, and a fresh order is placed
      only when every resting order of the side is taken. */
  ghost predicate Budget(resting: set<OrderId>, matched: set<OrderId>, added: set<OrderId>, legs: nat) {
    && |matched * resting| + |added| <= legs
    && (added != {} ==> resting <= matched)
  }

  /** What matching one leg can do: place a fresh order because the side has no free
      order, take one free order of the side, or nothing. */
  ghost predicate AddsOneFor(s: Oms, s': Oms, sig: Signal, leg: Leg) {
    && |s'.orders| == |s.orders| + 1 && KeepsIdentities(s, s')
    && var o := s'.orders[|s.orders|];
       o.side == leg.side && o.strategy == sig.strategy && o.instrument == sig.instrument
  }

  ghost predicate MatchOutcome(s: Oms, sig: Signal, resting: seq<OrderId>, matched: set<OrderId>, leg: Leg,
                               s': Oms, matched': set<OrderId>)
    requires Known(s.orders, resting)
  {
    || (AddsOneFor(s, s', sig, leg) && matched' == matched
        && forall id :: id in resting && id !in matched ==> s.orders[id].side != leg.side)
    || (|s'.orders| == |s.orders| && KeepsIdentities(s, s')
        && exists id :: id in resting && id !in matched && s.orders[id].side == leg.side && matched' == matched + {id})
    || (s' == s && matched' == matched)
  }

  lemma {:induction false} MatchLegCases(cfg: Config, s: Oms, sig: Signal, resting: seq<OrderId>, matched: set<OrderId>, leg: Leg, now: int)
    requires Known(s.orders, resting)
    ensures var (s', matched') := MatchLeg(cfg, s, sig, resting, matched, leg, now);
            MatchOutcome(s, sig, resting, matched, leg, s', matched')
  {
    var exact := FirstSuiting(s.orders, resting, matched, leg, true);
    var candidate := FirstSuiting(s.orders, resting, matched, leg, false);
    var (s', matched') := MatchLeg(cfg, s, sig, resting, matched, leg, now);
    if exact.Some? {
      assert matched' == matched + {exact.value};
    } else if candidate.Some? {
      assert matched' == matched + {candidate.value};
    }
  }

  lemma {:induction false} TakingUsesOneLeg(resting: set<OrderId>, matched: set<OrderId>, added: set<OrderId>, legs: nat, id: OrderId)
    requires Budget(resting, matched, added, legs) && id !in matched
    ensures Budget(resting, matched + {id}, added, if id in resting then legs + 1 else legs)
  {
    if id in resting {
      assert (matched + {id}) * resting == matched * resting + {id};
    } else {
      assert (matched + {id}) * resting == matched * resting;
    }
  }

  lemma {:induction false} OutcomeKeepsBudget(s: Oms, sig: Signal, resting: seq<OrderId>, matched: set<OrderId>, leg: Leg,
                           s': Oms, matched': set<OrderId>,
                           side: Side, onSide: set<OrderId>, from: nat, used: nat)
    requires Known(s.orders, resting) && from <= |s.orders|
    requires MatchOutcome(s, sig, resting, matched, leg, s', matched')
    requires forall id :: id in onSide <==> id in resting && s.orders[id].side == side
    requires Budget(onSide, matched, Added(s.orders, from, side), used)
    ensures KeepsIdentities(s, s')
    ensures Budget(onSide, matched', Added(s'.orders, from, side), if leg.side == side then used + 1 else used)
  {
    var added := Added(s.orders, from, side);
    AddedAfter(s, s', from, side);
    if |s'.orders| > |s.orders| {
      if leg.side == side {
        PlacingUsesOneLeg(onSide, matched, added, used, |s.orders|);
      }
    } else if matched' != matched {
      var id :| id in resting && id !in matched && s.orders[id].side == leg.side && matched' == matched + {id};
      TakingUsesOneLeg(onSide, matched, added, used, id);
    }
  }

  lemma {:induction false} AddedAfter(s: Oms, s': Oms, from: nat, side: Side)
    requires s' == s || KeepsIdentities(s, s')
    requires from <= |s.orders| && |s'.orders| <= |s.orders| + 1
    ensures Added(s'.orders, from, side) ==
            Added(s.orders, from, side)
            + if |s'.orders| > |s.orders| && s'.orders[|s.orders|].side == side then {|s.orders|} else {}
  {
    forall i | 0 <= i < |s.orders| ensures s'.orders[i].side == s.orders[i].side {
      assert s' != s ==> SameIdentity(s.orders[i], s'.orders[i]);
    }
  }

  lemma {:induction false} PlacingUsesOneLeg(resting: set<OrderId>, matched: set<OrderId>, added: set<OrderId>, legs: nat, id: OrderId)
    requires Budget(resting, matched, added, legs) && resting <= matched
    ensures Budget(resting, matched, added + {id}, legs + 1)
  {
  }

  lemma {:induction false} MatchLegsBudget(cfg: Config, s: Oms, sig: Signal, resting: seq<OrderId>, matched: set<OrderId>,
                                           legs: seq<Leg>, now: int, side: Side, onSide: set<OrderId>, from: nat, used: nat)
    requires Known(s.orders, resting) && from <= |s.orders|
    requires forall id :: id in onSide <==> id in resting && s.orders[id].side == side
    requires Budget(onSide, matched, Added(s.orders, from, side), used)
    ensures var (s', matched') := MatchLegs(cfg, s, sig, resting, matched, legs, now);
            && |s.orders| <= |s'.orders|
            && Budget(onSide, matched', Added(s'.orders, from, side), used + LegsOnSide(legs, side))
    decreases |legs|
  {
    if legs != [] {
      var (s1, matched1) := MatchLeg(cfg, s, sig, resting, matched, legs[0], now);
      MatchLegCases(cfg, s, sig, resting, matched, legs[0], now);
      OutcomeKeepsBudget(s, sig, resting, matched, legs[0], s1, matched1, side, onSide, from, used);
      forall id ensures id in onSide <==> id in resting && s1.orders[id].side == side {
        if id in resting {
          assert SameIdentity(s.orders[id], s1.orders[id]);
        }
      }
      MatchLegsBudget(cfg, s1, sig, resting, matched1, legs[1..], now, side, onSide, from,
                      if legs[0].side == side then used + 1 else used);
    }
  }

  lemma {:induction false} CancelUnmatchedAddsNothing(s: Oms, resting: seq<OrderId>, matched: set<OrderId>, now: int)
    requires Known(s.orders, resting)
    ensures |CancelUnmatched(s, resting, matched, now).orders| == |s.orders|
    ensures forall i :: 0 <= i < |s.orders| ==> CancelUnmatched(s, resting, matched, now).orders[i].side == s.orders[i].side
    decreases |resting|
  {
    if resting != [] {
      var id := resting[0];
      var s1 := if id !in matched && s.orders[id].status != PendingAmend then CancelOrder(s, id, now) else s;
      CancelUnmatchedAddsNothing(s1, resting[1..], matched, now);
    }
  }

  /** One reconcile of plain legs, on one side. */
  lemma {:induction false} ReconcileDoesNotPileUp(cfg: Config, s: Oms, sig: Signal, legs: seq<Leg>, now: int, side: Side)
    requires Good(s)
    ensures |LiveIds(ReconcileImmediate(cfg, s, sig, legs, now).orders, sig.strategy, sig.instrument, side)|
            <= Max(|LiveIds(s.orders, sig.strategy, sig.instrument, side)|, LegsOnSide(legs, side))
  {
    var resting := RestingIds(s.orders, sig.strategy, sig.instrument);
    var onSide := LiveIds(s.orders, sig.strategy, sig.instrument, side);
    forall i | 0 <= i < |s.orders| ensures Active(s.orders[i]) <==> !s.orders[i].Terminal() {
      ActiveIsLive(s.orders[i]);
    }
    var n := |s.orders|;
    assert Added(s.orders, n, side) == {} && {} * onSide == {};
    MatchLegsBudget(cfg, s, sig, resting, {}, legs, now, side, onSide, n, 0);
    var (s1, matched) := MatchLegs(cfg, s, sig, resting, {}, legs, now);
    var s' := CancelUnmatched(s1, resting, matched, now);
    CancelUnmatchedAddsNothing(s1, resting, matched, now);
    ReconcileImmediateKeeps(cfg, s, sig, legs, now);
    BudgetBoundsLive(s, s', sig, side, onSide, matched, Added(s1.orders, n, side), LegsOnSide(legs, side));
  }

  lemma {:induction false} BudgetBoundsLive(s: Oms, s': Oms, sig: Signal, side: Side, onSide: set<OrderId>, matched: set<OrderId>,
                         added: set<OrderId>, legs: nat)
    requires Extends(s, s') && Budget(onSide, matched, added, legs)
    requires onSide == LiveIds(s.orders, sig.strategy, sig.instrument, side)
    requires forall i :: |s.orders| <= i < |s'.orders| && s'.orders[i].side == side ==> i in added
    ensures |LiveIds(s'.orders, sig.strategy, sig.instrument, side)| <= Max(|onSide|, legs)
  {
    var live := LiveIds(s'.orders, sig.strategy, sig.instrument, side);
    forall i | i in live ensures i in onSide + added {
      if i < |s.orders| {
        assert Descends(s.orders[i], s'.orders[i]);
      }
    }
    SubsetIsSmaller(live, onSide + added);
    if added == {} {
      assert onSide + added == onSide;
    } else {
      assert matched * onSide == onSide;
    }
  }

  // ----- The rest of the engine adds children only -----

  lemma {:induction false} CancelFromAddsNothing(s: Oms, scope: Scope, k: nat, now: int)
    ensures OnlyChildrenAdded(s, CancelFrom(s, scope, k, now))
    decreases |s.orders| - k
  {
    if k < |s.orders| {
      var s1 := if Covers(scope, s.orders[k]) then CancelOrder(s, k, now) else s;
      CancelFromAddsNothing(s1, scope, k + 1, now);
      OnlyChildrenTransitive(s, s1, CancelFrom(s, scope, k, now));
    }
  }

  lemma {:induction false} DriveAlgoAddsChildren(s: Oms, leg: LegId, now: int)
    ensures OnlyChildrenAdded(s, DriveAlgo(s, leg, now))
  {
  }

  lemma {:induction false} DriveAllAddsChildren(s: Oms, keys: seq<LegId>, now: int)
    ensures OnlyChildrenAdded(s, DriveAll(s, keys, now))
    decreases |keys|
  {
    if keys != [] {
      var s1 := DriveAlgo(s, keys[0], now);
      DriveAlgoAddsChildren(s, keys[0], now);
      DriveAllAddsChildren(s1, keys[1..], now);
      OnlyChildrenTransitive(s, s1, DriveAll(s, keys, now));
    }
  }

  lemma {:induction false} RetireAllAddsNothing(s: Oms, keys: seq<LegId>)
    ensures RetireAll(s, keys).orders == s.orders
    decreases |keys|
  {
    if keys != [] {
      RetireAllAddsNothing(Retire(s, keys[0]), keys[1..]);
    }
  }

  lemma {:induction false} WithdrawAddsNothing(s: Oms, keys: seq<LegId>, sig: Signal, desired: set<LegId>, now: int)
    ensures OnlyChildrenAdded(s, Withdraw(s, keys, sig, desired, now))
    decreases |keys|
  {
    if keys != [] {
      var leg := keys[0];
      CancelFromAddsNothing(Retire(s, leg), ChildrenOf(leg), 0, now);
      var s1 :=
        if leg in s.algoCtx && s.algoCtx[leg].strategy == sig.strategy
           && s.algoCtx[leg].instrument == sig.instrument && leg !in desired
        then CancelScope(Retire(s, leg), ChildrenOf(leg), now)
        else s;
      WithdrawAddsNothing(s1, keys[1..], sig, desired, now);
      OnlyChildrenTransitive(s, s1, Withdraw(s, keys, sig, desired, now));
    }
  }

  lemma {:induction false} StartOrResumeAddsChildren(s: Oms, sig: Signal, sliced: SlicedLeg, now: int)
    ensures OnlyChildrenAdded(s, StartOrResume(s, sig, sliced, now))
  {
    var leg := sliced.leg.id;
    if leg !in s.algos {
      var s1 := s.(algoKeys := s.algoKeys + [leg], algos := s.algos[leg := sliced.algo],
                   algoCtx := s.algoCtx[leg := AlgoCtx(sig.strategy, sig.instrument, sliced.leg, |s.sent|)]);
      DriveAlgoAddsChildren(s1, leg, now);
    }
  }

  lemma {:induction false} StartAllAddsChildren(s: Oms, sig: Signal, sliced: seq<SlicedLeg>, now: int)
    ensures OnlyChildrenAdded(s, StartAll(s, sig, sliced, now))
    decreases |sliced|
  {
    if sliced != [] {
      var s1 := StartOrResume(s, sig, sliced[0], now);
      StartOrResumeAddsChildren(s, sig, sliced[0], now);
      StartAllAddsChildren(s1, sig, sliced[1..], now);
      OnlyChildrenTransitive(s, s1, StartAll(s, sig, sliced, now));
    }
  }

  // ----- Whole runs -----

  /** How many plain orders on the side this event asks for, on the given book. */
  function Desired(s: Oms, e: Event, strategy: StrategyId, instrument: InstrumentId, side: Side): nat {
    if e.DecisionArrives? && e.id in s.signals && e.verdict.Some?
       && s.signals[e.id].strategy == strategy && s.signals[e.id].instrument == instrument
    then LegsOnSide(ImmediateLegs(ApprovedLegs(s.signals[e.id].legs, e.verdict.value), e.route), side)
    else 0
  }

  /** The largest number of plain legs any signal reconciled so far had on the side. */
  function MostDesired(cfg: Config, es: seq<Event>, strategy: StrategyId, instrument: InstrumentId, side: Side): nat {
    if es == [] then 0
    else
      var n := |es| - 1;
      Max(MostDesired(cfg, es[..n], strategy, instrument, side),
          Desired(Run(cfg, EmptyOms, es[..n]), es[n], strategy, instrument, side))
  }

  lemma {:induction false} ReconcileStepBound(cfg: Config, s: Oms, sig: Signal, route: Router, now: int,
                           strategy: StrategyId, instrument: InstrumentId, side: Side)
    requires Good(s)
    requires forall leg :: route(leg).Some? ==> route(leg).value.sent == 0
    ensures |LiveIds(Reconcile(cfg, s, sig, route, now).orders, strategy, instrument, side)|
            <= Max(|LiveIds(s.orders, strategy, instrument, side)|,
                   if sig.strategy == strategy && sig.instrument == instrument
                   then LegsOnSide(ImmediateLegs(sig.legs, route), side) else 0)
  {
    var legs := ImmediateLegs(sig.legs, route);
    var s1 := ReconcileImmediate(cfg, s, sig, legs, now);
    ReconcileImmediateKeeps(cfg, s, sig, legs, now);
    if sig.strategy == strategy && sig.instrument == instrument {
      ReconcileDoesNotPileUp(cfg, s, sig, legs, now, side);
    } else {
      ForeignScopeShrinks(cfg, s, sig, legs, now, strategy, instrument, side);
      SubsetIsSmaller(LiveIds(s1.orders, strategy, instrument, side), LiveIds(s.orders, strategy, instrument, side));
    }
    SlicedPartShrinks(s1, sig, SlicedLegs(sig.legs, route), now, strategy, instrument, side, route, sig.legs);
  }

  lemma {:induction false} SlicedPartShrinks(s: Oms, sig: Signal, sliced: seq<SlicedLeg>, now: int,
                          strategy: StrategyId, instrument: InstrumentId, side: Side, route: Router, legs: seq<Leg>)
    requires Good(s) && sliced == SlicedLegs(legs, route)
    requires forall leg :: route(leg).Some? ==> route(leg).value.sent == 0
    ensures |LiveIds(ReconcileSliced(s, sig, sliced, now).orders, strategy, instrument, side)|
            <= |LiveIds(s.orders, strategy, instrument, side)|
  {
    var desired := set l | l in sliced :: l.leg.id;
    var s1 := Withdraw(s, s.algoKeys, sig, desired, now);
    var s2 := StartAll(s1, sig, sliced, now);
    SlicedLegsAreFresh(legs, route);
    WithdrawKeeps(s, s.algoKeys, sig, desired, now);
    WithdrawAddsNothing(s, s.algoKeys, sig, desired, now);
    StartAllKeeps(s1, sig, sliced, now);
    StartAllAddsChildren(s1, sig, sliced, now);
    LiveIdsShrink(s, s1, strategy, instrument, side);
    LiveIdsShrink(s1, s2, strategy, instrument, side);
  }

  /** Matching adds orders of the signal's own scope only. */
  ghost predicate OnlyOwnAdded(s: Oms, s': Oms, sig: Signal) {
    && KeepsIdentities(s, s')
    && forall i :: |s.orders| <= i < |s'.orders| ==>
         s'.orders[i].strategy == sig.strategy && s'.orders[i].instrument == sig.instrument
  }

  lemma {:induction false} OnlyOwnTransitive(a: Oms, b: Oms, c: Oms, sig: Signal)
    requires OnlyOwnAdded(a, b, sig) && OnlyOwnAdded(b, c, sig)
    ensures OnlyOwnAdded(a, c, sig)
  {
    forall i | |a.orders| <= i < |c.orders|
      ensures c.orders[i].strategy == sig.strategy && c.orders[i].instrument == sig.instrument
    {
      if i < |b.orders| {
        assert SameIdentity(b.orders[i], c.orders[i]);
      }
    }
    forall i | 0 <= i < |a.orders| ensures SameIdentity(a.orders[i], c.orders[i]) {
      assert SameIdentity(a.orders[i], b.orders[i]) && SameIdentity(b.orders[i], c.orders[i]);
    }
  }

  lemma {:induction false} MatchLegsAddsOwnOrders(cfg: Config, s: Oms, sig: Signal, resting: seq<OrderId>, matched: set<OrderId>,
                                                  legs: seq<Leg>, now: int)
    requires Known(s.orders, resting)
    ensures OnlyOwnAdded(s, MatchLegs(cfg, s, sig, resting, matched, legs, now).0, sig)
    decreases |legs|
  {
    if legs != [] {
      var (s1, matched1) := MatchLeg(cfg, s, sig, resting, matched, legs[0], now);
      MatchLegCases(cfg, s, sig, resting, matched, legs[0], now);
      MatchLegsAddsOwnOrders(cfg, s1, sig, resting, matched1, legs[1..], now);
      OnlyOwnTransitive(s, s1, MatchLegs(cfg, s, sig, resting, matched, legs, now).0, sig);
    }
  }

  lemma {:induction false} ForeignScopeShrinks(cfg: Config, s: Oms, sig: Signal, legs: seq<Leg>, now: int,
                            strategy: StrategyId, instrument: InstrumentId, side: Side)
    requires Good(s)
    requires sig.strategy != strategy || sig.instrument != instrument
    ensures LiveIds(ReconcileImmediate(cfg, s, sig, legs, now).orders, strategy, instrument, side)
            <= LiveIds(s.orders, strategy, instrument, side)
  {
    var resting := RestingIds(s.orders, sig.strategy, sig.instrument);
    MatchLegsAddsOwnOrders(cfg, s, sig, resting, {}, legs, now);
    var (s1, matched) := MatchLegs(cfg, s, sig, resting, {}, legs, now);
    MatchLegsKeeps(cfg, s, sig, resting, {}, legs, now);
    var s' := CancelUnmatched(s1, resting, matched, now);
    CancelUnmatchedKeeps(s1, resting, matched, now);
    CancelUnmatchedAddsNothing(s1, resting, matched, now);
    ForeignLiveIds(s, s1, s', sig, strategy, instrument, side);
  }

  lemma {:induction false} ForeignLiveIds(s: Oms, s1: Oms, s': Oms, sig: Signal, strategy: StrategyId, instrument: InstrumentId, side: Side)
    requires Extends(s, s1) && Extends(s1, s') && OnlyOwnAdded(s, s1, sig) && |s'.orders| == |s1.orders|
    requires sig.strategy != strategy || sig.instrument != instrument
    ensures LiveIds(s'.orders, strategy, instrument, side) <= LiveIds(s.orders, strategy, instrument, side)
  {
    forall i | i in LiveIds(s'.orders, strategy, instrument, side)
      ensures i in LiveIds(s.orders, strategy, instrument, side)
    {
      assert Descends(s1.orders[i], s'.orders[i]);
      assert i < |s.orders|;
      assert Descends(s.orders[i], s1.orders[i]);
    }
  }

  lemma {:induction false} DecisionStepBound(cfg: Config, s: Oms, e: Event, strategy: StrategyId, instrument: InstrumentId, side: Side)
    requires Good(s) && Admissible(s, e) && e.DecisionArrives?
    ensures |LiveIds(Step(cfg, s, e).orders, strategy, instrument, side)|
            <= Max(|LiveIds(s.orders, strategy, instrument, side)|, Desired(s, e, strategy, instrument, side))
  {
    if e.id in s.signals {
      var sig := s.signals[e.id];
      var s1 := s.(signals := s.signals - {e.id});
      assert Good(s1);
      match e.verdict {
        case None =>
          StepKeeps(cfg, s, e);
          CancelFromAddsNothing(s1, PlainOrders(sig.strategy, sig.instrument), 0, e.now);
          LiveIdsShrink(s, Step(cfg, s, e), strategy, instrument, side);
        case Some(approved) =>
          ReconcileStepBound(cfg, s1, sig.(legs := ApprovedLegs(sig.legs, approved)), e.route, e.now,
                             strategy, instrument, side);
      }
    }
  }

  lemma {:induction false} RetireThenCancelAddsNothing(s: Oms, keys: seq<LegId>, scope: Scope, now: int)
    ensures OnlyChildrenAdded(s, CancelScope(RetireAll(s, keys), scope, now))
  {
    RetireAllAddsNothing(s, keys);
    CancelFromAddsNothing(RetireAll(s, keys), scope, 0, now);
  }

  lemma {:induction false} MessagesAddNothing(cfg: Config, s: Oms, e: Event)
    requires e.ResponseArrives? || e.FillArrives? || e.VenueTerminalizes?
    ensures OnlyChildrenAdded(s, Step(cfg, s, e))
  {
    if e.order < |s.orders| {
      var o := s.orders[e.order];
      var o' := match e
        case ResponseArrives(_, r) => Handled(o, r)
        case FillArrives(_, f) => Filling(o, f)
        case VenueTerminalizes(_, status, filled, now) => Terminalized(o, status, filled, now)
        case _ => o;
      assert SameIdentity(o, o');
      PutAddsNothing(s, e.order, o');
    }
  }

  lemma {:induction false} OtherStepsAddChildrenOnly(cfg: Config, s: Oms, e: Event)
    requires !e.DecisionArrives? && !e.VenueOrderAdopted?
    ensures OnlyChildrenAdded(s, Step(cfg, s, e))
  {
    match e {
      case DriverWakes(now) => DriveAllAddsChildren(s, s.algoKeys, now);
      case KillSwitch(now) => RetireThenCancelAddsNothing(s, s.algoKeys, Everything, now);
      case StrategyPaused(strategy, now) =>
        RetireThenCancelAddsNothing(s, StrategyLegs(s.algoKeys, s.orders, strategy), OfStrategy(strategy), now);
      case OperatorCancels(id, now) =>
        if id < |s.orders| { PutAddsNothing(s, id, CancelSent(s.orders[id], now)); }
      case SignalArrives(_) =>
      case SignalsEvicted(_) =>
      case _ => MessagesAddNothing(cfg, s, e);
    }
  }

  lemma {:induction false} PutAddsNothing(s: Oms, id: OrderId, o': OrderState)
    requires id < |s.orders| && SameIdentity(s.orders[id], o')
    ensures OnlyChildrenAdded(s, Put(s, id, o'))
  {
  }

  /** Over any run without adoption, the live plain orders of a strategy on one side of an
      instrument never outnumber the largest same-side leg count of any signal so far. */
  lemma {:induction false} OrdersNeverPileUp(cfg: Config, es: seq<Event>,
                                             strategy: StrategyId, instrument: InstrumentId, side: Side)
    requires AdmissibleRun(cfg, EmptyOms, es)
    requires forall k :: 0 <= k < |es| ==> !es[k].VenueOrderAdopted?
    ensures |LiveIds(Run(cfg, EmptyOms, es).orders, strategy, instrument, side)|
            <= MostDesired(cfg, es, strategy, instrument, side)
    decreases |es|
  {
    if es == [] {
      assert LiveIds(EmptyOms.orders, strategy, instrument, side) == {};
    } else {
      var n := |es| - 1;
      var s := Run(cfg, EmptyOms, es[..n]);
      AdmissiblePrefix(cfg, EmptyOms, es, n);
      OrdersNeverPileUp(cfg, es[..n], strategy, instrument, side);
      RunKeepsInvariant(cfg, EmptyOms, es[..n]);
      if es[n].DecisionArrives? {
        DecisionStepBound(cfg, s, es[n], strategy, instrument, side);
      } else {
        StepKeeps(cfg, s, es[n]);
        OtherStepsAddChildrenOnly(cfg, s, es[n]);
        LiveIdsShrink(s, Step(cfg, s, es[n]), strategy, instrument, side);
      }
    }
  }
}
