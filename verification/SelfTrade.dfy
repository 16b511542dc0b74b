/** Self-trade prevention: no order is placed, and no amend is sent, into a cross with a
    live order of another strategy. */
module SelfTrade {
  import opened Types
  import opened StateMachine
  import opened Orders
  import opened OmsModel
  import opened OmsInvariants
  import opened Accumulation

  /** A priced order of another strategy on the instrument, trading or about to. */
  predicate Rival(o: OrderState, strategy: StrategyId, instrument: InstrumentId) {
    && o.strategy != strategy && o.instrument == instrument && o.price.Some?
    && o.status in {PendingNew, Acknowledged, PartiallyFilled, PendingAmend}
  }

  /** The bid is strictly below the ask, where one of the two orders bids and the other asks. */
  predicate Apart(side: Side, price: Price, o: OrderState)
    requires o.price.Some?
  {
    match side
    case Buy => o.side == Sell ==> price < o.price.value
    case Sell => o.side == Buy ==> o.price.value < price
  }

  /** An order like this would trade with no rival. */
  ghost predicate NoCross(orders: seq<OrderState>, strategy: StrategyId, instrument: InstrumentId, side: Side, price: Price) {
    forall i :: 0 <= i < |orders| && Rival(orders[i], strategy, instrument) ==> Apart(side, price, orders[i])
  }

  // ----- Changes that cannot create a cross -----

  predicate Quieter(o: OrderState, o': OrderState) {
    SameIdentity(o, o') && o'.price == o.price && (StpLive(o') ==> StpLive(o))
  }

  /** Existing orders keep their prices and none comes alive; new ones belong to `owner`. */
  ghost predicate Quiet(s: Oms, s': Oms, owner: StrategyId) {
    && |s.orders| <= |s'.orders|
    && (forall i :: 0 <= i < |s.orders| ==> Quieter(s.orders[i], s'.orders[i]))
    && (forall i :: |s.orders| <= i < |s'.orders| ==> s'.orders[i].strategy == owner)
  }

  lemma {:induction false} QuietTransitive(a: Oms, b: Oms, c: Oms, owner: StrategyId)
    requires Quiet(a, b, owner) && Quiet(b, c, owner)
    ensures Quiet(a, c, owner)
  {
    forall i | 0 <= i < |b.orders| ensures Quieter(b.orders[i], c.orders[i]) {
    }
    forall i | 0 <= i < |a.orders| ensures Quieter(a.orders[i], c.orders[i]) {
      assert Quieter(a.orders[i], b.orders[i]) && Quieter(b.orders[i], c.orders[i]);
    }
  }

  lemma {:induction false} QuietKeepsNoCross(s: Oms, s': Oms, owner: StrategyId, instrument: InstrumentId, side: Side, price: Price)
    requires Quiet(s, s', owner) && NoCross(s.orders, owner, instrument, side, price)
    ensures NoCross(s'.orders, owner, instrument, side, price)
  {
    forall i | 0 <= i < |s'.orders| && Rival(s'.orders[i], owner, instrument) ensures Apart(side, price, s'.orders[i]) {
      assert Quieter(s.orders[i], s'.orders[i]);
      assert Rival(s.orders[i], owner, instrument);
    }
  }

  lemma {:induction false} CancelOrderQuiet(s: Oms, id: OrderId, now: int, owner: StrategyId)
    ensures Quiet(s, CancelOrder(s, id, now), owner)
  {
  }

  lemma {:induction false} CancelUnmatchedQuiet(s: Oms, resting: seq<OrderId>, matched: set<OrderId>, now: int, owner: StrategyId)
    requires Known(s.orders, resting)
    ensures Quiet(s, CancelUnmatched(s, resting, matched, now), owner)
    decreases |resting|
  {
    if resting != [] {
      var id := resting[0];
      CancelOrderQuiet(s, id, now, owner);
      var s1 := if id !in matched && s.orders[id].status != PendingAmend then CancelOrder(s, id, now) else s;
      CancelUnmatchedQuiet(s1, resting[1..], matched, now, owner);
      QuietTransitive(s, s1, CancelUnmatched(s, resting, matched, now), owner);
    }
  }

  lemma {:induction false} CancelFromQuiet(s: Oms, scope: Scope, k: nat, now: int, owner: StrategyId)
    ensures Quiet(s, CancelFrom(s, scope, k, now), owner)
    decreases |s.orders| - k
  {
    if k < |s.orders| {
      CancelOrderQuiet(s, k, now, owner);
      var s1 := if Covers(scope, s.orders[k]) then CancelOrder(s, k, now) else s;
      CancelFromQuiet(s1, scope, k + 1, now, owner);
      QuietTransitive(s, s1, CancelFrom(s, scope, k, now), owner);
    }
  }

  lemma {:induction false} WithdrawQuiet(s: Oms, keys: seq<LegId>, sig: Signal, desired: set<LegId>, now: int, owner: StrategyId)
    ensures Quiet(s, Withdraw(s, keys, sig, desired, now), owner)
    decreases |keys|
  {
    if keys != [] {
      var leg := keys[0];
      CancelFromQuiet(Retire(s, leg), ChildrenOf(leg), 0, now, owner);
      var s1 :=
        if leg in s.algoCtx && s.algoCtx[leg].strategy == sig.strategy
           && s.algoCtx[leg].instrument == sig.instrument && leg !in desired
        then CancelScope(Retire(s, leg), ChildrenOf(leg), now)
        else s;
      WithdrawQuiet(s1, keys[1..], sig, desired, now, owner);
      QuietTransitive(s, s1, Withdraw(s, keys, sig, desired, now), owner);
    }
  }

  lemma {:induction false} DriveAlgoQuiet(s: Oms, leg: LegId, now: int)
    requires leg in s.algoCtx
    ensures Quiet(s, DriveAlgo(s, leg, now), s.algoCtx[leg].strategy)
  {
  }

  lemma {:induction false} StartOrResumeQuiet(s: Oms, sig: Signal, sliced: SlicedLeg, now: int)
    ensures Quiet(s, StartOrResume(s, sig, sliced, now), sig.strategy)
  {
    var leg := sliced.leg.id;
    if leg !in s.algos {
      DriveAlgoQuiet(s.(algoKeys := s.algoKeys + [leg], algos := s.algos[leg := sliced.algo],
                        algoCtx := s.algoCtx[leg := AlgoCtx(sig.strategy, sig.instrument, sliced.leg, |s.sent|)]), leg, now);
    }
  }

  lemma {:induction false} StartAllQuiet(s: Oms, sig: Signal, sliced: seq<SlicedLeg>, now: int)
    ensures Quiet(s, StartAll(s, sig, sliced, now), sig.strategy)
    decreases |sliced|
  {
    if sliced != [] {
      var s1 := StartOrResume(s, sig, sliced[0], now);
      StartOrResumeQuiet(s, sig, sliced[0], now);
      StartAllQuiet(s1, sig, sliced[1..], now);
      QuietTransitive(s, s1, StartAll(s, sig, sliced, now), sig.strategy);
    }
  }

  // ----- Placing and amending -----

  /** A new plain quote, or a new price asked for by an amend, crosses nothing. */
  ghost predicate QuoteClean(orders: seq<OrderState>, id: OrderId, price: Option<Price>) {
    id < |orders| && (price.Some? ==>
      NoCross(orders, orders[id].strategy, orders[id].instrument, orders[id].side, price.value))
  }

  /** Everything added between `s` and `s'` for a signal of `owner` is clean in `s'`. */
  ghost predicate Clean(s: Oms, s': Oms, owner: StrategyId) {
    && Quiet(s, s', owner)
    && s.sent <= s'.sent
    && (forall i :: |s.orders| <= i < |s'.orders| ==> QuoteClean(s'.orders, i, s'.orders[i].price))
    && (forall k :: |s.sent| <= k < |s'.sent| && s'.sent[k].AmendRequest? ==>
          && QuoteClean(s'.orders, s'.sent[k].order, s'.sent[k].newPrice)
          && s'.orders[s'.sent[k].order].strategy == owner)
  }

  lemma {:induction false} QuietKeepsQuoteClean(s: Oms, s': Oms, owner: StrategyId, id: OrderId, price: Option<Price>)
    requires Quiet(s, s', owner) && QuoteClean(s.orders, id, price) && s.orders[id].strategy == owner
    ensures QuoteClean(s'.orders, id, price) && s'.orders[id].strategy == owner
  {
    assert Quieter(s.orders[id], s'.orders[id]);
    if price.Some? {
      QuietKeepsNoCross(s, s', owner, s.orders[id].instrument, s.orders[id].side, price.value);
    }
  }

  lemma {:induction false} CleanTransitive(a: Oms, b: Oms, c: Oms, owner: StrategyId)
    requires Clean(a, b, owner) && Clean(b, c, owner)
    ensures Clean(a, c, owner)
  {
    QuietTransitive(a, b, c, owner);
    forall i | |a.orders| <= i < |c.orders| ensures QuoteClean(c.orders, i, c.orders[i].price) {
      if i < |b.orders| {
        assert Quieter(b.orders[i], c.orders[i]);
        QuietKeepsQuoteClean(b, c, owner, i, b.orders[i].price);
      }
    }
    forall k | |a.sent| <= k < |c.sent| && c.sent[k].AmendRequest?
      ensures QuoteClean(c.orders, c.sent[k].order, c.sent[k].newPrice) && c.orders[c.sent[k].order].strategy == owner
    {
      if k < |b.sent| {
        assert b.sent[k] == c.sent[k];
        QuietKeepsQuoteClean(b, c, owner, b.sent[k].order, b.sent[k].newPrice);
      }
    }
  }

  /** A leg is held back exactly when it would trade with a rival. */
  lemma {:induction false} BlockedIffCrossing(cfg: Config, orders: seq<OrderState>, strategy: StrategyId, instrument: InstrumentId, leg: Leg)
    ensures StpBlocks(cfg, orders, strategy, instrument, leg) <==>
            cfg.selfTradePrevention && leg.price.Some? && !NoCross(orders, strategy, instrument, leg.side, leg.price.value)
  {
    if leg.price.Some? {
      forall i | 0 <= i < |orders|
        ensures CrossesSibling(orders[i], strategy, instrument, leg.side, leg.price.value) <==>
                Rival(orders[i], strategy, instrument) && !Apart(leg.side, leg.price.value, orders[i])
      {
      }
    }
  }

  /** A leg with no order of its side to take is placed on its terms, unless prevention is on
      and it would trade with a rival; then nothing happens. */
  lemma {:induction false} NewQuoteIsPlacedUnlessCrossing(cfg: Config, s: Oms, sig: Signal, resting: seq<OrderId>,
                                                          matched: set<OrderId>, leg: Leg, now: int)
    requires Known(s.orders, resting)
    requires forall id :: id in resting && id !in matched ==> s.orders[id].side != leg.side
    ensures var s' := MatchLeg(cfg, s, sig, resting, matched, leg, now).0;
            if cfg.selfTradePrevention && leg.price.Some? && !NoCross(s.orders, sig.strategy, sig.instrument, leg.side, leg.price.value)
            then s' == s
            else
              && s'.sent == s.sent + [OrderRequest(|s.orders|, sig.strategy, sig.instrument, leg.side, leg.price, leg.quantity, None)]
              && |s'.orders| == |s.orders| + 1 && s'.orders[..|s.orders|] == s.orders
  {
    BlockedIffCrossing(cfg, s.orders, sig.strategy, sig.instrument, leg);
  }

  lemma {:induction false} PlaceQuoteClean(cfg: Config, s: Oms, sig: Signal, leg: Leg)
    requires cfg.selfTradePrevention
    requires !StpBlocks(cfg, s.orders, sig.strategy, sig.instrument, leg)
    ensures Clean(s, PlaceQuote(s, sig, leg), sig.strategy)
  {
    var s' := PlaceQuote(s, sig, leg);
    assert Quiet(s, s', sig.strategy);
    if leg.price.Some? {
      BlockedIffCrossing(cfg, s.orders, sig.strategy, sig.instrument, leg);
      QuietKeepsNoCross(s, s', sig.strategy, sig.instrument, leg.side, leg.price.value);
    }
  }

  lemma {:induction false} AmendQuoteClean(cfg: Config, s: Oms, sig: Signal, id: OrderId, leg: Leg, now: int)
    requires cfg.selfTradePrevention && id < |s.orders|
    requires s.orders[id].strategy == sig.strategy && s.orders[id].instrument == sig.instrument
    requires s.orders[id].side == leg.side
    requires !StpBlocks(cfg, s.orders, sig.strategy, sig.instrument, leg)
    ensures Clean(s, AmendQuote(s, id, leg, now), sig.strategy)
  {
    var s' := AmendQuote(s, id, leg, now);
    assert Quiet(s, s', sig.strategy);
    if leg.price.Some? {
      BlockedIffCrossing(cfg, s.orders, sig.strategy, sig.instrument, leg);
      QuietKeepsNoCross(s, s', sig.strategy, sig.instrument, leg.side, leg.price.value);
    }
  }

  ghost predicate RestingIsOwn(orders: seq<OrderState>, resting: seq<OrderId>, sig: Signal)
    requires Known(orders, resting)
  {
    forall k :: 0 <= k < |resting| ==>
      orders[resting[k]].strategy == sig.strategy && orders[resting[k]].instrument == sig.instrument
  }

  lemma {:induction false} MatchLegClean(cfg: Config, s: Oms, sig: Signal, resting: seq<OrderId>, matched: set<OrderId>, leg: Leg, now: int)
    requires cfg.selfTradePrevention
    requires Known(s.orders, resting) && RestingIsOwn(s.orders, resting, sig)
    ensures Clean(s, MatchLeg(cfg, s, sig, resting, matched, leg, now).0, sig.strategy)
  {
    var s' := MatchLeg(cfg, s, sig, resting, matched, leg, now).0;
    if s' != s {
      var candidate := FirstSuiting(s.orders, resting, matched, leg, false);
      if candidate.None? {
        assert s' == PlaceQuote(s, sig, leg);
        PlaceQuoteClean(cfg, s, sig, leg);
      } else {
        assert s' == AmendQuote(s, candidate.value, leg, now);
        AmendQuoteClean(cfg, s, sig, candidate.value, leg, now);
      }
    }
  }

  lemma {:induction false} MatchLegsClean(cfg: Config, s: Oms, sig: Signal, resting: seq<OrderId>, matched: set<OrderId>,
                                          legs: seq<Leg>, now: int)
    requires cfg.selfTradePrevention
    requires Known(s.orders, resting) && RestingIsOwn(s.orders, resting, sig)
    ensures Clean(s, MatchLegs(cfg, s, sig, resting, matched, legs, now).0, sig.strategy)
    decreases |legs|
  {
    if legs != [] {
      MatchLegClean(cfg, s, sig, resting, matched, legs[0], now);
      var (s1, matched1) := MatchLeg(cfg, s, sig, resting, matched, legs[0], now);
      forall k | 0 <= k < |resting|
        ensures s1.orders[resting[k]].strategy == sig.strategy && s1.orders[resting[k]].instrument == sig.instrument
      {
        assert Quieter(s.orders[resting[k]], s1.orders[resting[k]]);
      }
      MatchLegsClean(cfg, s1, sig, resting, matched1, legs[1..], now);
      CleanTransitive(s, s1, MatchLegs(cfg, s, sig, resting, matched, legs, now).0, sig.strategy);
    }
  }

  // ----- One decision -----

  /** Every plain quote placed and every amend sent by a step is clean afterwards. */
  ghost predicate StepClean(s: Oms, s': Oms) {
    && |s.orders| <= |s'.orders| && s.sent <= s'.sent
    && (forall i :: |s.orders| <= i < |s'.orders| && s'.orders[i].parentLeg.None? ==>
          QuoteClean(s'.orders, i, s'.orders[i].price))
    && (forall k :: |s.sent| <= k < |s'.sent| && s'.sent[k].AmendRequest? ==>
          QuoteClean(s'.orders, s'.sent[k].order, s'.sent[k].newPrice))
  }

  /** After the quotes are out, only cancels and child orders of the same strategy follow. */
  ghost predicate NoNewQuotes(s: Oms, s': Oms, owner: StrategyId) {
    && Quiet(s, s', owner) && s.sent <= s'.sent
    && (forall i :: |s.orders| <= i < |s'.orders| ==> s'.orders[i].parentLeg.Some?)
    && (forall k :: |s.sent| <= k < |s'.sent| ==> !s'.sent[k].AmendRequest?)
  }

  lemma {:induction false} CleanThenQuiet(a: Oms, b: Oms, c: Oms, owner: StrategyId)
    requires Clean(a, b, owner) && NoNewQuotes(b, c, owner)
    ensures StepClean(a, c)
  {
    forall i | |a.orders| <= i < |c.orders| && c.orders[i].parentLeg.None?
      ensures QuoteClean(c.orders, i, c.orders[i].price)
    {
      assert i < |b.orders|;
      assert Quieter(b.orders[i], c.orders[i]);
      QuietKeepsQuoteClean(b, c, owner, i, b.orders[i].price);
    }
    forall k | |a.sent| <= k < |c.sent| && c.sent[k].AmendRequest?
      ensures QuoteClean(c.orders, c.sent[k].order, c.sent[k].newPrice)
    {
      assert k < |b.sent| && b.sent[k] == c.sent[k];
      QuietKeepsQuoteClean(b, c, owner, b.sent[k].order, b.sent[k].newPrice);
    }
  }

  /** No amend among the messages added. */
  ghost predicate NoAmends(s: Oms, s': Oms) {
    s.sent <= s'.sent && forall k :: |s.sent| <= k < |s'.sent| ==> !s'.sent[k].AmendRequest?
  }

  lemma {:induction false} NoAmendsTransitive(a: Oms, b: Oms, c: Oms)
    requires NoAmends(a, b) && NoAmends(b, c)
    ensures NoAmends(a, c)
  {
  }

  lemma {:induction false} CancelUnmatchedNoAmends(s: Oms, resting: seq<OrderId>, matched: set<OrderId>, now: int)
    requires Known(s.orders, resting)
    ensures NoAmends(s, CancelUnmatched(s, resting, matched, now))
    decreases |resting|
  {
    if resting != [] {
      var id := resting[0];
      var s1 := if id !in matched && s.orders[id].status != PendingAmend then CancelOrder(s, id, now) else s;
      CancelUnmatchedNoAmends(s1, resting[1..], matched, now);
      NoAmendsTransitive(s, s1, CancelUnmatched(s, resting, matched, now));
    }
  }

  lemma {:induction false} CancelFromNoAmends(s: Oms, scope: Scope, k: nat, now: int)
    ensures NoAmends(s, CancelFrom(s, scope, k, now))
    decreases |s.orders| - k
  {
    if k < |s.orders| {
      var s1 := if Covers(scope, s.orders[k]) then CancelOrder(s, k, now) else s;
      CancelFromNoAmends(s1, scope, k + 1, now);
      NoAmendsTransitive(s, s1, CancelFrom(s, scope, k, now));
    }
  }

  lemma {:induction false} WithdrawNoAmends(s: Oms, keys: seq<LegId>, sig: Signal, desired: set<LegId>, now: int)
    ensures NoAmends(s, Withdraw(s, keys, sig, desired, now))
    decreases |keys|
  {
    if keys != [] {
      var leg := keys[0];
      CancelFromNoAmends(Retire(s, leg), ChildrenOf(leg), 0, now);
      var s1 :=
        if leg in s.algoCtx && s.algoCtx[leg].strategy == sig.strategy
           && s.algoCtx[leg].instrument == sig.instrument && leg !in desired
        then CancelScope(Retire(s, leg), ChildrenOf(leg), now)
        else s;
      WithdrawNoAmends(s1, keys[1..], sig, desired, now);
      NoAmendsTransitive(s, s1, Withdraw(s, keys, sig, desired, now));
    }
  }

  lemma {:induction false} StartAllNoAmends(s: Oms, sig: Signal, sliced: seq<SlicedLeg>, now: int)
    ensures NoAmends(s, StartAll(s, sig, sliced, now))
    decreases |sliced|
  {
    if sliced != [] {
      var s1 := StartOrResume(s, sig, sliced[0], now);
      StartAllNoAmends(s1, sig, sliced[1..], now);
      NoAmendsTransitive(s, s1, StartAll(s, sig, sliced, now));
    }
  }

  lemma {:induction false} ReconcileClean(cfg: Config, s: Oms, sig: Signal, route: Router, now: int)
    requires cfg.selfTradePrevention
    ensures StepClean(s, Reconcile(cfg, s, sig, route, now))
  {
    var legs, sliced := ImmediateLegs(sig.legs, route), SlicedLegs(sig.legs, route);
    var resting := RestingIds(s.orders, sig.strategy, sig.instrument);
    assert RestingIsOwn(s.orders, resting, sig) by {
      forall k | 0 <= k < |resting|
        ensures s.orders[resting[k]].strategy == sig.strategy && s.orders[resting[k]].instrument == sig.instrument
      {
        assert resting[k] in resting;
      }
    }
    MatchLegsClean(cfg, s, sig, resting, {}, legs, now);
    var (s1, matched) := MatchLegs(cfg, s, sig, resting, {}, legs, now);
    var s2 := CancelUnmatched(s1, resting, matched, now);
    CancelUnmatchedQuiet(s1, resting, matched, now, sig.strategy);
    CancelUnmatchedAddsNothing(s1, resting, matched, now);
    CancelUnmatchedNoAmends(s1, resting, matched, now);
    SlicedPartNoNewQuotes(s2, sig, sliced, now);
    var s' := ReconcileSliced(s2, sig, sliced, now);
    QuietTransitive(s1, s2, s', sig.strategy);
    NoAmendsTransitive(s1, s2, s');
    CleanThenQuiet(s, s1, s', sig.strategy);
  }

  lemma {:induction false} SlicedPartNoNewQuotes(s: Oms, sig: Signal, sliced: seq<SlicedLeg>, now: int)
    ensures NoNewQuotes(s, ReconcileSliced(s, sig, sliced, now), sig.strategy)
  {
    var desired := set l | l in sliced :: l.leg.id;
    var s1 := Withdraw(s, s.algoKeys, sig, desired, now);
    var s2 := StartAll(s1, sig, sliced, now);
    WithdrawQuiet(s, s.algoKeys, sig, desired, now, sig.strategy);
    WithdrawAddsNothing(s, s.algoKeys, sig, desired, now);
    WithdrawNoAmends(s, s.algoKeys, sig, desired, now);
    StartAllQuiet(s1, sig, sliced, now);
    StartAllAddsChildren(s1, sig, sliced, now);
    StartAllNoAmends(s1, sig, sliced, now);
    QuietTransitive(s, s1, s2, sig.strategy);
    OnlyChildrenTransitive(s, s1, s2);
    NoAmendsTransitive(s, s1, s2);
  }

  /** Each decision, on any book whatever: the quotes it places and the prices it asks
      for by amend cross no live order of another strategy. */
  lemma {:induction false} DecisionNeverCrosses(cfg: Config, s: Oms, e: Event)
    requires cfg.selfTradePrevention && e.DecisionArrives?
    ensures StepClean(s, Step(cfg, s, e))
  {
    if e.id in s.signals {
      var sig := s.signals[e.id];
      var s1 := s.(signals := s.signals - {e.id});
      match e.verdict {
        case None =>
          var scope := PlainOrders(sig.strategy, sig.instrument);
          CancelFromAddsNothing(s1, scope, 0, e.now);
          CancelFromNoAmends(s1, scope, 0, e.now);
        case Some(approved) =>
          ReconcileClean(cfg, s1, sig.(legs := ApprovedLegs(sig.legs, approved)), e.route, e.now);
      }
    }
  }

  // ----- Whole runs -----

  predicate PriceStands(placed: seq<OrderState>, later: seq<OrderState>, id: OrderId) {
    id < |placed| && id < |later| && later[id].price == placed[id].price
  }

  /** A buy and a sell of different strategies on one instrument: the bid stays below the
      ask as long as both prices are what they were when the later order was placed as a
      quote and the earlier one was live. */
  lemma {:induction false} NoSelfTradeWhilePricesStand(cfg: Config, s0: Oms, es: seq<Event>, t: nat, n: nat, early: OrderId, late: OrderId)
    requires cfg.selfTradePrevention && AdmissibleRun(cfg, s0, es) && Good(s0)
    requires t < n <= |es| && es[t].DecisionArrives?
    requires var placed, later := Run(cfg, s0, es[..t + 1]).orders, Run(cfg, s0, es[..n]).orders;
             && PriceStands(placed, later, early) && PriceStands(placed, later, late)
             && late >= |Run(cfg, s0, es[..t]).orders| && placed[late].parentLeg.None?
             && placed[early].status in {PendingNew, Acknowledged, PartiallyFilled, PendingAmend}
    ensures var a, b := Run(cfg, s0, es[..n]).orders[early], Run(cfg, s0, es[..n]).orders[late];
            a.strategy != b.strategy && a.instrument == b.instrument && a.price.Some? && b.price.Some? ==>
              && (a.side == Buy && b.side == Sell ==> a.price.value < b.price.value)
              && (a.side == Sell && b.side == Buy ==> b.price.value < a.price.value)
  {
    var before, placed, later := Run(cfg, s0, es[..t]), Run(cfg, s0, es[..t + 1]), Run(cfg, s0, es[..n]);
    RunLastStep(cfg, s0, es, t);
    DecisionNeverCrosses(cfg, before, es[t]);
    IdentitiesNeverChange(cfg, s0, es, t + 1, n);
    CleanQuoteStaysClean(placed.orders, later.orders, early, late);
  }

  lemma {:induction false} CleanQuoteStaysClean(placed: seq<OrderState>, later: seq<OrderState>, early: OrderId, late: OrderId)
    requires PriceStands(placed, later, early) && PriceStands(placed, later, late)
    requires SameIdentity(placed[early], later[early]) && SameIdentity(placed[late], later[late])
    requires placed[early].status in {PendingNew, Acknowledged, PartiallyFilled, PendingAmend}
    requires QuoteClean(placed, late, placed[late].price)
    ensures var a, b := later[early], later[late];
            a.strategy != b.strategy && a.instrument == b.instrument && a.price.Some? && b.price.Some? ==>
              Apart(b.side, b.price.value, a)
  {
    var a, b := placed[early], placed[late];
    if a.strategy != b.strategy && a.instrument == b.instrument && a.price.Some? && b.price.Some? {
      assert Rival(a, b.strategy, b.instrument);
    }
  }

  lemma {:induction false} RunLastStep(cfg: Config, s0: Oms, es: seq<Event>, t: nat)
    requires t < |es|
    ensures Run(cfg, s0, es[..t + 1]) == Step(cfg, Run(cfg, s0, es[..t]), es[t])
  {
    assert es[..t + 1][..t] == es[..t];
  }

  lemma {:induction false} KeepsIdentitiesTransitive(a: Oms, b: Oms, c: Oms)
    requires KeepsIdentities(a, b) && KeepsIdentities(b, c)
    ensures KeepsIdentities(a, c)
  {
    forall i | 0 <= i < |a.orders| ensures SameIdentity(a.orders[i], c.orders[i]) {
      assert SameIdentity(a.orders[i], b.orders[i]) && SameIdentity(b.orders[i], c.orders[i]);
    }
  }

  lemma {:induction false} StepKeepsIdentities(cfg: Config, s: Oms, e: Event)
    requires Good(s) && Admissible(s, e)
    ensures KeepsIdentities(s, Step(cfg, s, e))
  {
    StepKeeps(cfg, s, e);
    ExtendsKeepsIdentities(s, Step(cfg, s, e));
  }

  lemma {:induction false} LastStepKeepsIdentities(cfg: Config, s0: Oms, es: seq<Event>, n: nat)
    requires Good(s0) && AdmissibleRun(cfg, s0, es) && n < |es|
    ensures KeepsIdentities(Run(cfg, s0, es[..n]), Run(cfg, s0, es[..n + 1]))
  {
    AdmissiblePrefix(cfg, s0, es, n);
    RunKeepsInvariant(cfg, s0, es[..n]);
    RunLastStep(cfg, s0, es, n);
    StepKeepsIdentities(cfg, Run(cfg, s0, es[..n]), es[n]);
  }

  lemma {:induction false} IdentitiesNeverChange(cfg: Config, s0: Oms, es: seq<Event>, m: nat, n: nat)
    requires Good(s0) && AdmissibleRun(cfg, s0, es) && m <= n <= |es|
    ensures KeepsIdentities(Run(cfg, s0, es[..m]), Run(cfg, s0, es[..n]))
    decreases n - m
  {
    if m < n {
      var k := n - 1;
      IdentitiesNeverChange(cfg, s0, es, m, k);
      var a, b := Run(cfg, s0, es[..m]), Run(cfg, s0, es[..k]);
      assert KeepsIdentities(a, b);
      assert KeepsIdentities(b, Run(cfg, s0, es[..n])) by {
        LastStepKeepsIdentities(cfg, s0, es, k);
      }
      KeepsIdentitiesTransitive(a, b, Run(cfg, s0, es[..n]));
    }
  }
}
