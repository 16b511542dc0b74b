/** What a decision asks of the venue for its plain legs, and which signal it goes by. */
module Quotes {
  import opened Types
  import opened StateMachine
  import opened Orders
  import opened ExecutionAlgos
  import opened OmsModel
  import opened OmsInvariants
  import opened Accumulation
  import opened ChildOrders
  import SelfTrade

  // ----- The signal a decision goes by -----

  /** The last signal received under an id that has been neither decided nor evicted since. */
  function LatestSignal(es: seq<Event>, id: SignalId): Option<Signal> {
    if es == [] then None
    else
      var before := es[..|es| - 1];
      match es[|es| - 1]
      case SignalArrives(sig) => if sig.id == id then Some(sig) else LatestSignal(before, id)
      case SignalsEvicted(ids) => if id in ids then None else LatestSignal(before, id)
      case DecisionArrives(decided, _, _, _) => if decided == id then None else LatestSignal(before, id)
      case _ => LatestSignal(before, id)
  }

  lemma {:induction false} CancelFromKeepsSignals(s: Oms, scope: Scope, k: nat, now: int)
    ensures CancelFrom(s, scope, k, now).signals == s.signals
    decreases |s.orders| - k
  {
    if k < |s.orders| {
      CancelFromKeepsSignals(if Covers(scope, s.orders[k]) then CancelOrder(s, k, now) else s, scope, k + 1, now);
    }
  }

  lemma {:induction false} MatchLegsKeepsSignals(cfg: Config, s: Oms, sig: Signal, resting: seq<OrderId>, matched: set<OrderId>,
                                                 legs: seq<Leg>, now: int)
    requires Known(s.orders, resting)
    ensures MatchLegs(cfg, s, sig, resting, matched, legs, now).0.signals == s.signals
    decreases |legs|
  {
    if legs != [] {
      var (s1, matched1) := MatchLeg(cfg, s, sig, resting, matched, legs[0], now);
      MatchLegsKeepsSignals(cfg, s1, sig, resting, matched1, legs[1..], now);
    }
  }

  lemma {:induction false} CancelUnmatchedKeepsSignals(s: Oms, resting: seq<OrderId>, matched: set<OrderId>, now: int)
    requires Known(s.orders, resting)
    ensures CancelUnmatched(s, resting, matched, now).signals == s.signals
    decreases |resting|
  {
    if resting != [] {
      var id := resting[0];
      var s1 := if id !in matched && s.orders[id].status != PendingAmend then CancelOrder(s, id, now) else s;
      CancelUnmatchedKeepsSignals(s1, resting[1..], matched, now);
    }
  }

  lemma {:induction false} WithdrawKeepsSignals(s: Oms, keys: seq<LegId>, sig: Signal, desired: set<LegId>, now: int)
    ensures Withdraw(s, keys, sig, desired, now).signals == s.signals
    decreases |keys|
  {
    if keys != [] {
      var leg := keys[0];
      CancelFromKeepsSignals(Retire(s, leg), ChildrenOf(leg), 0, now);
      var s1 :=
        if leg in s.algoCtx && s.algoCtx[leg].strategy == sig.strategy
           && s.algoCtx[leg].instrument == sig.instrument && leg !in desired
        then CancelScope(Retire(s, leg), ChildrenOf(leg), now)
        else s;
      WithdrawKeepsSignals(s1, keys[1..], sig, desired, now);
    }
  }

  lemma {:induction false} StartAllKeepsSignals(s: Oms, sig: Signal, sliced: seq<SlicedLeg>, now: int)
    ensures StartAll(s, sig, sliced, now).signals == s.signals
    decreases |sliced|
  {
    if sliced != [] {
      StartAllKeepsSignals(StartOrResume(s, sig, sliced[0], now), sig, sliced[1..], now);
    }
  }

  lemma {:induction false} ReconcileKeepsSignals(cfg: Config, s: Oms, sig: Signal, route: Router, now: int)
    ensures Reconcile(cfg, s, sig, route, now).signals == s.signals
  {
    var resting := RestingIds(s.orders, sig.strategy, sig.instrument);
    var legs, sliced := ImmediateLegs(sig.legs, route), SlicedLegs(sig.legs, route);
    MatchLegsKeepsSignals(cfg, s, sig, resting, {}, legs, now);
    var (s1, matched) := MatchLegs(cfg, s, sig, resting, {}, legs, now);
    CancelUnmatchedKeepsSignals(s1, resting, matched, now);
    var s2 := CancelUnmatched(s1, resting, matched, now);
    var desired := set l | l in sliced :: l.leg.id;
    WithdrawKeepsSignals(s2, s2.algoKeys, sig, desired, now);
    StartAllKeepsSignals(Withdraw(s2, s2.algoKeys, sig, desired, now), sig, sliced, now);
  }

  lemma {:induction false} DriveAllKeepsSignals(s: Oms, keys: seq<LegId>, now: int)
    ensures DriveAll(s, keys, now).signals == s.signals
    decreases |keys|
  {
    if keys != [] {
      DriveAllKeepsSignals(DriveAlgo(s, keys[0], now), keys[1..], now);
    }
  }

  lemma {:induction false} RetireAllKeepsSignals(s: Oms, keys: seq<LegId>)
    ensures RetireAll(s, keys).signals == s.signals
    decreases |keys|
  {
    if keys != [] {
      RetireAllKeepsSignals(Retire(s, keys[0]), keys[1..]);
    }
  }

  lemma {:induction false} DecisionTakesSignal(cfg: Config, s: Oms, e: Event)
    requires e.DecisionArrives?
    ensures Step(cfg, s, e).signals == s.signals - {e.id}
  {
    if e.id in s.signals {
      var sig := s.signals[e.id];
      var s1 := s.(signals := s.signals - {e.id});
      match e.verdict {
        case None => CancelFromKeepsSignals(s1, PlainOrders(sig.strategy, sig.instrument), 0, e.now);
        case Some(approved) => ReconcileKeepsSignals(cfg, s1, sig.(legs := ApprovedLegs(sig.legs, approved)), e.route, e.now);
      }
    } else {
      assert s.signals - {e.id} == s.signals;
    }
  }

  lemma {:induction false} OthersKeepSignals(cfg: Config, s: Oms, e: Event)
    requires !e.DecisionArrives? && !e.SignalArrives? && !e.SignalsEvicted?
    ensures Step(cfg, s, e).signals == s.signals
  {
    match e {
      case DriverWakes(now) => DriveAllKeepsSignals(s, s.algoKeys, now);
      case KillSwitch(now) =>
        RetireAllKeepsSignals(s, s.algoKeys);
        CancelFromKeepsSignals(RetireAll(s, s.algoKeys), Everything, 0, now);
      case StrategyPaused(strategy, now) =>
        var legs := StrategyLegs(s.algoKeys, s.orders, strategy);
        RetireAllKeepsSignals(s, legs);
        CancelFromKeepsSignals(RetireAll(s, legs), OfStrategy(strategy), 0, now);
      case _ =>
    }
  }

  /** A decision goes by the signal last received under its id, once; without one it is
      ignored. */
  lemma {:induction false} DecisionGoesByLatestSignal(cfg: Config, es: seq<Event>, id: SignalId)
    ensures var signals := Run(cfg, EmptyOms, es).signals;
            LatestSignal(es, id) == if id in signals then Some(signals[id]) else None
    decreases |es|
  {
    if es != [] {
      var n := |es| - 1;
      var s := Run(cfg, EmptyOms, es[..n]);
      DecisionGoesByLatestSignal(cfg, es[..n], id);
      if es[n].DecisionArrives? {
        DecisionTakesSignal(cfg, s, es[n]);
      } else if !es[n].SignalArrives? && !es[n].SignalsEvicted? {
        OthersKeepSignals(cfg, s, es[n]);
      }
    }
  }

  lemma {:induction false} UnknownSignalIsIgnored(cfg: Config, s: Oms, e: Event)
    requires e.DecisionArrives? && e.id !in s.signals
    ensures Step(cfg, s, e) == s
  {
  }

  // ----- Which legs are placed directly -----

  function LegsOf(sliced: seq<SlicedLeg>): seq<Leg> {
    if sliced == [] then [] else [sliced[0].leg] + LegsOf(sliced[1..])
  }

  lemma {:induction false} ImmediateLegsAreUnrouted(legs: seq<Leg>, route: Router)
    ensures forall l :: l in ImmediateLegs(legs, route) ==> route(l).None?
    decreases |legs|
  {
    if legs != [] {
      ImmediateLegsAreUnrouted(legs[1..], route);
    }
  }

  lemma {:induction false} SlicedLegsAreRouted(legs: seq<Leg>, route: Router)
    ensures forall l :: l in SlicedLegs(legs, route) ==> route(l.leg) == Some(l.algo)
    decreases |legs|
  {
    if legs != [] {
      SlicedLegsAreRouted(legs[1..], route);
    }
  }

  lemma {:induction false} LegsOfOneMore(l: SlicedLeg, sliced: seq<SlicedLeg>)
    ensures LegsOf([l] + sliced) == [l.leg] + LegsOf(sliced)
  {
    assert ([l] + sliced)[1..] == sliced;
  }

  lemma {:induction false} OneMore(a: Leg, x: seq<Leg>)
    ensures multiset([a] + x) == multiset{a} + multiset(x)
  {
  }

  lemma {:induction false} RoutedLegsAddUp(legs: seq<Leg>, route: Router)
    ensures multiset(ImmediateLegs(legs, route)) + multiset(LegsOf(SlicedLegs(legs, route))) == multiset(legs)
    decreases |legs|
  {
    if legs != [] {
      RoutedLegsAddUp(legs[1..], route);
      FirstLegRouted(legs, route);
      OneMore(legs[0], legs[1..]);
      assert legs == [legs[0]] + legs[1..];
    }
  }

  lemma {:induction false} FirstLegRouted(legs: seq<Leg>, route: Router)
    requires legs != []
    ensures multiset(ImmediateLegs(legs, route)) + multiset(LegsOf(SlicedLegs(legs, route))) ==
            multiset{legs[0]} + (multiset(ImmediateLegs(legs[1..], route)) + multiset(LegsOf(SlicedLegs(legs[1..], route))))
  {
    var direct, sliced := ImmediateLegs(legs[1..], route), SlicedLegs(legs[1..], route);
    if route(legs[0]).Some? {
      LegsOfOneMore(SlicedLeg(legs[0], route(legs[0]).value), sliced);
      OneMore(legs[0], LegsOf(sliced));
      assert ImmediateLegs(legs, route) == direct;
    } else {
      OneMore(legs[0], direct);
      assert SlicedLegs(legs, route) == sliced;
    }
  }

  /** Every leg is either placed directly or sliced, as the router says, and none twice. */
  lemma {:induction false} RouterSplitsLegs(legs: seq<Leg>, route: Router)
    ensures multiset(ImmediateLegs(legs, route)) + multiset(LegsOf(SlicedLegs(legs, route))) == multiset(legs)
    ensures forall l :: l in ImmediateLegs(legs, route) ==> route(l).None?
    ensures forall l :: l in SlicedLegs(legs, route) ==> route(l.leg) == Some(l.algo)
  {
    RoutedLegsAddUp(legs, route);
    ImmediateLegsAreUnrouted(legs, route);
    SlicedLegsAreRouted(legs, route);
  }

  // ----- Plain orders and amends -----

  /** The order as the leg wants it placed. */
  predicate IsQuote(o: OrderState, sig: Signal, leg: Leg) {
    && o.parentLeg.None? && o.strategy == sig.strategy && o.instrument == sig.instrument
    && o.side == leg.side && o.price == leg.price && o.quantity == leg.quantity
  }

  /** The request gives one of the strategy's plain orders the leg's terms. */
  predicate IsRequote(m: Msg, orders: seq<OrderState>, sig: Signal, leg: Leg) {
    && m.AmendRequest? && m.order < |orders| && m.newPrice == leg.price && m.newQuantity == leg.quantity
    && var o := orders[m.order];
    && o.parentLeg.None? && o.strategy == sig.strategy && o.instrument == sig.instrument && o.side == leg.side
  }

  predicate IsQuoteOf(o: OrderState, sig: Signal, legs: seq<Leg>) {
    exists j :: 0 <= j < |legs| && IsQuote(o, sig, legs[j])
  }

  predicate IsRequoteOf(m: Msg, orders: seq<OrderState>, sig: Signal, legs: seq<Leg>) {
    exists j :: 0 <= j < |legs| && IsRequote(m, orders, sig, legs[j])
  }

  /** No terms change, and what is placed or amended from `s` to `s'` is for one of the legs. */
  ghost predicate QuotesLegs(s: Oms, s': Oms, sig: Signal, legs: seq<Leg>) {
    && |s.orders| <= |s'.orders| && s.sent <= s'.sent
    && (forall i :: 0 <= i < |s.orders| ==> SameTerms(s.orders[i], s'.orders[i]))
    && (forall i :: |s.orders| <= i < |s'.orders| && s'.orders[i].parentLeg.None? ==> IsQuoteOf(s'.orders[i], sig, legs))
    && (forall k :: |s.sent| <= k < |s'.sent| && s'.sent[k].AmendRequest? ==> IsRequoteOf(s'.sent[k], s'.orders, sig, legs))
  }

  lemma {:induction false} QuoteOfMore(o: OrderState, o': OrderState, sig: Signal, legs: seq<Leg>, all: seq<Leg>)
    requires IsQuoteOf(o, sig, legs) && SameTerms(o, o') && forall l :: l in legs ==> l in all
    ensures IsQuoteOf(o', sig, all)
  {
    var j :| 0 <= j < |legs| && IsQuote(o, sig, legs[j]);
    assert legs[j] in legs && legs[j] in all;
    var i :| 0 <= i < |all| && all[i] == legs[j];
    assert IsQuote(o', sig, all[i]);
  }

  lemma {:induction false} RequoteOfMore(m: Msg, a: seq<OrderState>, b: seq<OrderState>, sig: Signal, legs: seq<Leg>, all: seq<Leg>)
    requires IsRequoteOf(m, a, sig, legs) && |a| <= |b| && forall l :: l in legs ==> l in all
    requires forall i :: 0 <= i < |a| ==> SameTerms(a[i], b[i])
    ensures IsRequoteOf(m, b, sig, all)
  {
    var j :| 0 <= j < |legs| && IsRequote(m, a, sig, legs[j]);
    assert legs[j] in legs && legs[j] in all;
    var i :| 0 <= i < |all| && all[i] == legs[j];
    assert SameTerms(a[m.order], b[m.order]);
    assert IsRequote(m, b, sig, all[i]);
  }

  lemma {:induction false} QuotesBoth(a: Oms, b: Oms, c: Oms, sig: Signal, first: seq<Leg>, second: seq<Leg>, all: seq<Leg>)
    requires QuotesLegs(a, b, sig, first) && QuotesLegs(b, c, sig, second)
    requires forall l :: l in first || l in second ==> l in all
    ensures QuotesLegs(a, c, sig, all)
  {
    forall i | 0 <= i < |a.orders| ensures SameTerms(a.orders[i], c.orders[i]) {
      assert SameTerms(a.orders[i], b.orders[i]) && SameTerms(b.orders[i], c.orders[i]);
    }
    forall i | |a.orders| <= i < |c.orders| && c.orders[i].parentLeg.None? ensures IsQuoteOf(c.orders[i], sig, all) {
      if i < |b.orders| {
        QuoteOfMore(b.orders[i], c.orders[i], sig, first, all);
      } else {
        QuoteOfMore(c.orders[i], c.orders[i], sig, second, all);
      }
    }
    forall k | |a.sent| <= k < |c.sent| && c.sent[k].AmendRequest? ensures IsRequoteOf(c.sent[k], c.orders, sig, all) {
      if k < |b.sent| {
        assert b.sent[k] == c.sent[k];
        RequoteOfMore(b.sent[k], b.orders, c.orders, sig, first, all);
      } else {
        RequoteOfMore(c.sent[k], c.orders, c.orders, sig, second, all);
      }
    }
  }

  lemma {:induction false} PlacingQuotes(s: Oms, sig: Signal, leg: Leg)
    ensures QuotesLegs(s, PlaceQuote(s, sig, leg), sig, [leg])
  {
    assert IsQuote(PlaceQuote(s, sig, leg).orders[|s.orders|], sig, [leg][0]);
  }

  lemma {:induction false} AmendingQuotes(s: Oms, sig: Signal, id: OrderId, leg: Leg, now: int)
    requires id < |s.orders| && InScope(s.orders[id], sig.strategy, sig.instrument) && s.orders[id].side == leg.side
    ensures QuotesLegs(s, AmendQuote(s, id, leg, now), sig, [leg])
  {
    var s' := AmendQuote(s, id, leg, now);
    if SendsAmend(s.orders[id]) {
      assert IsRequote(s'.sent[|s.sent|], s'.orders, sig, [leg][0]);
    }
  }

  ghost predicate RestingInScope(orders: seq<OrderState>, resting: seq<OrderId>, sig: Signal)
    requires Known(orders, resting)
  {
    forall id :: id in resting ==> id < |orders| && InScope(orders[id], sig.strategy, sig.instrument)
  }

  lemma {:induction false} MatchLegQuotes(cfg: Config, s: Oms, sig: Signal, resting: seq<OrderId>, matched: set<OrderId>, leg: Leg, now: int)
    requires Known(s.orders, resting) && RestingInScope(s.orders, resting, sig)
    ensures QuotesLegs(s, MatchLeg(cfg, s, sig, resting, matched, leg, now).0, sig, [leg])
  {
    var s' := MatchLeg(cfg, s, sig, resting, matched, leg, now).0;
    if s' != s {
      var candidate := FirstSuiting(s.orders, resting, matched, leg, false);
      if candidate.None? {
        assert s' == PlaceQuote(s, sig, leg);
        PlacingQuotes(s, sig, leg);
      } else {
        assert s' == AmendQuote(s, candidate.value, leg, now);
        AmendingQuotes(s, sig, candidate.value, leg, now);
      }
    }
  }

  lemma {:induction false} MatchLegsQuotes(cfg: Config, s: Oms, sig: Signal, resting: seq<OrderId>, matched: set<OrderId>,
                                           legs: seq<Leg>, now: int)
    requires Known(s.orders, resting) && RestingInScope(s.orders, resting, sig)
    ensures QuotesLegs(s, MatchLegs(cfg, s, sig, resting, matched, legs, now).0, sig, legs)
    decreases |legs|
  {
    if legs != [] {
      var (s1, matched1) := MatchLeg(cfg, s, sig, resting, matched, legs[0], now);
      MatchLegQuotes(cfg, s, sig, resting, matched, legs[0], now);
      forall id | id in resting ensures id < |s1.orders| && InScope(s1.orders[id], sig.strategy, sig.instrument) {
        assert SameTerms(s.orders[id], s1.orders[id]);
      }
      MatchLegsQuotes(cfg, s1, sig, resting, matched1, legs[1..], now);
      QuotesBoth(s, s1, MatchLegs(cfg, s, sig, resting, matched, legs, now).0, sig, [legs[0]], legs[1..], legs);
    }
  }

  /** After the plain legs, nothing plain is placed and nothing amended. */
  lemma {:induction false} RestQuotesNothing(s: Oms, sig: Signal, resting: seq<OrderId>, matched: set<OrderId>, sliced: seq<SlicedLeg>, now: int)
    requires Known(s.orders, resting)
    ensures QuotesLegs(s, ReconcileSliced(CancelUnmatched(s, resting, matched, now), sig, sliced, now), sig, [])
  {
    var s1 := CancelUnmatched(s, resting, matched, now);
    CancelUnmatchedAdds(s, resting, matched, now, iset{});
    CancelUnmatchedAddsNothing(s, resting, matched, now);
    SelfTrade.CancelUnmatchedNoAmends(s, resting, matched, now);
    assert QuotesLegs(s, s1, sig, []);
    var desired := set l | l in sliced :: l.leg.id;
    var s2 := Withdraw(s1, s1.algoKeys, sig, desired, now);
    SelfTrade.SlicedPartNoNewQuotes(s1, sig, sliced, now);
    WithdrawAdds(s1, s1.algoKeys, sig, desired, now, FirstSlices(sig, sliced, now));
    StartAllAdds(s2, sig, sliced, now);
    AddsTransitive(s1, s2, StartAll(s2, sig, sliced, now), FirstSlices(sig, sliced, now));
    QuotesBoth(s, s1, ReconcileSliced(s1, sig, sliced, now), sig, [], [], []);
  }

  lemma {:induction false} ReconcileQuotes(cfg: Config, s: Oms, sig: Signal, route: Router, now: int)
    ensures QuotesLegs(s, Reconcile(cfg, s, sig, route, now), sig, ImmediateLegs(sig.legs, route))
  {
    var legs := ImmediateLegs(sig.legs, route);
    var resting := RestingIds(s.orders, sig.strategy, sig.instrument);
    MatchLegsQuotes(cfg, s, sig, resting, {}, legs, now);
    var (s1, matched) := MatchLegs(cfg, s, sig, resting, {}, legs, now);
    RestQuotesNothing(s1, sig, resting, matched, SlicedLegs(sig.legs, route), now);
    QuotesBoth(s, s1, Reconcile(cfg, s, sig, route, now), sig, legs, [], legs);
  }

  // ----- One decision -----

  /** The leg is approved, and the router leaves it to be placed directly. */
  predicate IsDirect(leg: Leg, approved: map<LegId, Quantity>, route: Router) {
    leg.id in approved && route(leg.(quantity := approved[leg.id])).None?
  }

  predicate QuotesDirectLeg(o: OrderState, sig: Signal, approved: map<LegId, Quantity>, route: Router, j: nat) {
    && j < |sig.legs| && IsDirect(sig.legs[j], approved, route)
    && IsQuote(o, sig, sig.legs[j].(quantity := approved[sig.legs[j].id]))
  }

  predicate RequotesDirectLeg(m: Msg, orders: seq<OrderState>, sig: Signal, approved: map<LegId, Quantity>, route: Router, j: nat) {
    && j < |sig.legs| && IsDirect(sig.legs[j], approved, route)
    && IsRequote(m, orders, sig, sig.legs[j].(quantity := approved[sig.legs[j].id]))
  }

  lemma {:induction false} ImmediateLegsAre(legs: seq<Leg>, approved: map<LegId, Quantity>, route: Router, l: Leg) returns (j: nat)
    requires l in ImmediateLegs(ApprovedLegs(legs, approved), route)
    ensures j < |legs| && IsDirect(legs[j], approved, route) && l == legs[j].(quantity := approved[legs[j].id])
    decreases |legs|
  {
    j := 0;
    var rest := ApprovedLegs(legs[1..], approved);
    if legs[0].id !in approved {
      assert ApprovedLegs(legs, approved) == rest;
      var i := ImmediateLegsAre(legs[1..], approved, route, l);
      j := i + 1;
    } else {
      var first := legs[0].(quantity := approved[legs[0].id]);
      assert ApprovedLegs(legs, approved) == [first] + rest && ([first] + rest)[1..] == rest;
      if route(first).Some? || l != first {
        var i := ImmediateLegsAre(legs[1..], approved, route, l);
        j := i + 1;
      }
    }
  }

  /** Every plain order a decision places, and every amend it asks for, has the side, price and
      approved size of a leg that is approved and not sliced, for the signal's strategy and
      on its instrument. */
  lemma {:induction false} QuotesFollowLegs(cfg: Config, s: Oms, e: Event)
    requires e.DecisionArrives? && e.id in s.signals && e.verdict.Some?
    ensures var s', sig := Step(cfg, s, e), s.signals[e.id];
            && |s.orders| <= |s'.orders| && s.sent <= s'.sent
            && (forall i :: |s.orders| <= i < |s'.orders| && s'.orders[i].parentLeg.None? ==>
                  exists j :: QuotesDirectLeg(s'.orders[i], sig, e.verdict.value, e.route, j))
            && (forall k :: |s.sent| <= k < |s'.sent| && s'.sent[k].AmendRequest? ==>
                  exists j :: RequotesDirectLeg(s'.sent[k], s'.orders, sig, e.verdict.value, e.route, j))
  {
    var s', sig, approved := Step(cfg, s, e), s.signals[e.id], e.verdict.value;
    var sig' := sig.(legs := ApprovedLegs(sig.legs, approved));
    ReconcileQuotes(cfg, s.(signals := s.signals - {e.id}), sig', e.route, e.now);
    var legs := ImmediateLegs(sig'.legs, e.route);
    forall i | |s.orders| <= i < |s'.orders| && s'.orders[i].parentLeg.None?
      ensures exists j :: QuotesDirectLeg(s'.orders[i], sig, approved, e.route, j)
    {
      var k :| 0 <= k < |legs| && IsQuote(s'.orders[i], sig', legs[k]);
      var j := ImmediateLegsAre(sig.legs, approved, e.route, legs[k]);
      assert QuotesDirectLeg(s'.orders[i], sig, approved, e.route, j);
    }
    forall k | |s.sent| <= k < |s'.sent| && s'.sent[k].AmendRequest?
      ensures exists j :: RequotesDirectLeg(s'.sent[k], s'.orders, sig, approved, e.route, j)
    {
      var i :| 0 <= i < |legs| && IsRequote(s'.sent[k], s'.orders, sig', legs[i]);
      var j := ImmediateLegsAre(sig.legs, approved, e.route, legs[i]);
      assert RequotesDirectLeg(s'.sent[k], s'.orders, sig, approved, e.route, j);
    }
  }
}
