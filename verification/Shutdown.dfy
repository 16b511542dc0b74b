/** What the kill switch and a paused strategy leave behind: which orders are asked to cancel,
    which algorithms go, and what can still be placed afterwards. */
module Shutdown {
  import opened Types
  import opened StateMachine
  import opened Orders
  import opened ExecutionAlgos
  import opened OmsModel
  import opened OmsInvariants
  import Risk = RiskEngines

  // ----- Cancelling by scope, order by order -----

  /** The requests sent for the orders from `k` on. */
  function CancelRequests(orders: seq<OrderState>, scope: Scope, k: nat): seq<Msg>
    decreases |orders| - k
  {
    if k >= |orders| then []
    else (if Covers(scope, orders[k]) && SendsCancel(orders[k]) then [CancelRequest(k)] else []) + CancelRequests(orders, scope, k + 1)
  }

  lemma {:induction false} LaterRequestsOnly(a: seq<OrderState>, b: seq<OrderState>, scope: Scope, k: nat)
    requires |a| == |b| && forall i :: k <= i < |a| ==> a[i] == b[i]
    ensures CancelRequests(a, scope, k) == CancelRequests(b, scope, k)
    decreases |a| - k
  {
    if k < |a| {
      LaterRequestsOnly(a, b, scope, k + 1);
    }
  }

  lemma {:induction false} CancelOneOrder(s: Oms, id: OrderId, now: int)
    requires id < |s.orders|
    ensures var s' := CancelOrder(s, id, now);
            s' == s.(orders := s.orders[id := CancelSent(s.orders[id], now)], sent := s'.sent)
  {
    assert s.orders[id := s.orders[id]] == s.orders;
  }

  lemma {:induction false} CancelFromOrders(s: Oms, scope: Scope, k: nat, now: int)
    ensures var s' := CancelFrom(s, scope, k, now);
            && s' == s.(orders := s'.orders, sent := s'.sent)
            && forall i :: 0 <= i < |s.orders| ==>
                 s'.orders[i] == if i >= k && Covers(scope, s.orders[i]) then CancelSent(s.orders[i], now) else s.orders[i]
    decreases |s.orders| - k
  {
    if k < |s.orders| {
      var s1 := if Covers(scope, s.orders[k]) then CancelOrder(s, k, now) else s;
      CancelOneOrder(s, k, now);
      CancelFromOrders(s1, scope, k + 1, now);
    }
  }

  lemma {:induction false} CancelFromSends(s: Oms, scope: Scope, k: nat, now: int)
    ensures CancelFrom(s, scope, k, now).sent == s.sent + CancelRequests(s.orders, scope, k)
    decreases |s.orders| - k
  {
    if k >= |s.orders| {
      assert s.sent + [] == s.sent;
    } else {
      var s1 := if Covers(scope, s.orders[k]) then CancelOrder(s, k, now) else s;
      var first := if Covers(scope, s.orders[k]) && SendsCancel(s.orders[k]) then [CancelRequest(k)] else [];
      CancelFromSends(s1, scope, k + 1, now);
      LaterRequestsOnly(s.orders, s1.orders, scope, k + 1);
      assert s1.sent == s.sent + first;
      Regroup(s.sent, first, CancelRequests(s.orders, scope, k + 1));
    }
  }

  lemma {:induction false} Regroup(a: seq<Msg>, b: seq<Msg>, c: seq<Msg>)
    ensures (a + b) + c == a + (b + c)
  {
  }

  lemma {:induction false} CancelFromIsPointwise(s: Oms, scope: Scope, k: nat, now: int)
    ensures var s' := CancelFrom(s, scope, k, now);
            && s' == s.(orders := s'.orders, sent := s.sent + CancelRequests(s.orders, scope, k))
            && |s'.orders| == |s.orders|
            && forall i :: 0 <= i < |s.orders| ==>
                 s'.orders[i] == if i >= k && Covers(scope, s.orders[i]) then CancelSent(s.orders[i], now) else s.orders[i]
  {
    CancelFromOrders(s, scope, k, now);
    CancelFromSends(s, scope, k, now);
  }

  /** An order that can be cancelled waits for that; any other is as it was. */
  predicate AskedToCancel(o: OrderState, o': OrderState, now: int) {
    if o.status in {Acknowledged, PartiallyFilled, PendingAmend} then o' == o.(status := PendingCancel, lastUpdate := now)
    else o' == o
  }

  lemma {:induction false} CancelSentAsks(o: OrderState, now: int)
    ensures AskedToCancel(o, CancelSent(o, now), now)
    ensures SendsCancel(o) <==> o.status in {Acknowledged, PartiallyFilled, PendingAmend}
  {
    CancelNeedsAnAckedOrder(o.status);
  }

  lemma {:induction false} RetireAllRemoves(s: Oms, keys: seq<LegId>)
    ensures var s' := RetireAll(s, keys);
            && s' == s.(algoKeys := s'.algoKeys, algos := s'.algos, algoCtx := s'.algoCtx)
            && (forall leg :: leg in s'.algos <==> leg in s.algos && leg !in keys)
            && (forall leg :: leg in s'.algoKeys <==> leg in s.algoKeys && leg !in keys)
            && (forall leg :: leg in s'.algoCtx <==> leg in s.algoCtx && leg !in keys)
    decreases |keys|
  {
    if keys != [] {
      WithoutFacts(s.algoKeys, keys[0]);
      RetireAllRemoves(Retire(s, keys[0]), keys[1..]);
      assert keys == [keys[0]] + keys[1..];
    }
  }

  /** What becomes of the orders, whatever the state of the algorithm tables. */
  lemma {:induction false} KillSwitchAsks(s: Oms, now: int)
    ensures var s' := KillAll(s, now);
            && s'.algoKeys == [] && |s'.orders| == |s.orders|
            && forall i :: 0 <= i < |s.orders| ==> AskedToCancel(s.orders[i], s'.orders[i], now)
  {
    var s1 := RetireAll(s, s.algoKeys);
    RetireAllRemoves(s, s.algoKeys);
    SomeKey(s1.algoKeys);
    CancelFromIsPointwise(s1, Everything, 0, now);
    forall i | 0 <= i < |s.orders| ensures AskedToCancel(s.orders[i], KillAll(s, now).orders[i], now) {
      CancelSentAsks(s.orders[i], now);
    }
  }

  lemma {:induction false} PauseAsks(s: Oms, strategy: StrategyId, now: int)
    ensures var s' := CancelStrategy(s, strategy, now);
            && |s'.orders| == |s.orders|
            && forall i :: 0 <= i < |s.orders| ==>
                 if s.orders[i].strategy == strategy then AskedToCancel(s.orders[i], s'.orders[i], now) else s'.orders[i] == s.orders[i]
  {
    var legs := StrategyLegs(s.algoKeys, s.orders, strategy);
    RetireAllRemoves(s, legs);
    CancelFromIsPointwise(RetireAll(s, legs), OfStrategy(strategy), 0, now);
    forall i | 0 <= i < |s.orders| && s.orders[i].strategy == strategy
      ensures AskedToCancel(s.orders[i], CancelStrategy(s, strategy, now).orders[i], now)
    {
      CancelSentAsks(s.orders[i], now);
    }
  }

  lemma {:induction false} SomeKey(keys: seq<LegId>)
    ensures keys != [] ==> exists leg :: leg in keys
  {
    if keys != [] {
      assert keys[0] in keys;
    }
  }

  // ----- The kill switch -----

  /** Every algorithm is gone. Every order that can be cancelled waits for it, with exactly one
      request sent for each, oldest first; every other order is as it was. Of the live ones,
      exactly those the venue has not acknowledged yet have not been asked to cancel. */
  lemma {:induction false} KillSwitchEffect(s: Oms, now: int)
    requires Good(s)
    ensures var s' := KillAll(s, now);
            && s'.algoKeys == [] && s'.algos == map[] && s'.algoCtx == map[]
            && |s'.orders| == |s.orders| && s'.sent == s.sent + CancelRequests(s.orders, Everything, 0)
            && (forall i :: 0 <= i < |s.orders| ==> AskedToCancel(s.orders[i], s'.orders[i], now))
            && (forall i :: 0 <= i < |s.orders| ==>
                  (!s'.orders[i].Terminal() && s'.orders[i].status != PendingCancel <==> s.orders[i].status == PendingNew))
  {
    var s1, s' := RetireAll(s, s.algoKeys), KillAll(s, now);
    KillSwitchAsks(s, now);
    RetireAllRemoves(s, s.algoKeys);
    CancelFromIsPointwise(s1, Everything, 0, now);
    assert s1.algos == map[] && s1.algoCtx == map[];
    forall i | 0 <= i < |s.orders|
      ensures !s'.orders[i].Terminal() && s'.orders[i].status != PendingCancel <==> s.orders[i].status == PendingNew
    {
      assert AskedToCancel(s.orders[i], s'.orders[i], now);
    }
  }

  // ----- A paused strategy -----

  predicate HasChild(orders: seq<OrderState>, strategy: StrategyId, leg: LegId) {
    exists i :: 0 <= i < |orders| && orders[i].strategy == strategy && orders[i].parentLeg == Some(leg)
  }

  lemma {:induction false} StrategyLegsAreParents(keys: seq<LegId>, orders: seq<OrderState>, strategy: StrategyId)
    ensures forall leg :: leg in StrategyLegs(keys, orders, strategy) <==> leg in keys && HasChild(orders, strategy, leg)
    decreases |keys|
  {
    if keys != [] {
      StrategyLegsAreParents(keys[1..], orders, strategy);
      assert keys == [keys[0]] + keys[1..];
    }
  }

  /** The strategy's orders are treated as by the kill switch, every other order is as it was.
      An algorithm goes exactly when one of the strategy's orders is a child of it. */
  lemma {:induction false} PauseEffect(s: Oms, strategy: StrategyId, now: int)
    requires Good(s)
    ensures var s' := CancelStrategy(s, strategy, now);
            && |s'.orders| == |s.orders| && s'.sent == s.sent + CancelRequests(s.orders, OfStrategy(strategy), 0)
            && (forall i :: 0 <= i < |s.orders| && s.orders[i].strategy == strategy ==> AskedToCancel(s.orders[i], s'.orders[i], now))
            && (forall i :: 0 <= i < |s.orders| && s.orders[i].strategy != strategy ==> s'.orders[i] == s.orders[i])
            && (forall leg :: leg in s'.algos <==> leg in s.algos && !HasChild(s.orders, strategy, leg))
  {
    var legs := StrategyLegs(s.algoKeys, s.orders, strategy);
    PauseAsks(s, strategy, now);
    StrategyLegsAreParents(s.algoKeys, s.orders, strategy);
    RetireAllRemoves(s, legs);
    CancelFromIsPointwise(RetireAll(s, legs), OfStrategy(strategy), 0, now);
  }

  /** A strategy's algorithm that has not placed a child yet. */
  function UnstartedAlgo(): Oms {
    EmptyOms.(algoKeys := ["leg"], algos := map["leg" := Algo([5.0], None, false, 0, 1, 0, false)],
              algoCtx := map["leg" := AlgoCtx("mm", "BTC-USDT", Leg("leg", Buy, None, 5.0), 0)])
  }

  /** Such an algorithm is not found through its orders, survives the pause, and goes on. */
  lemma {:induction false} PausedStrategyMayStillPlace(cfg: Config, now: int)
    requires now >= 0
    ensures var s := CancelStrategy(UnstartedAlgo(), "mm", now);
            && s == UnstartedAlgo()
            && DriverWake(cfg, s, now).sent == [OrderRequest(0, "mm", "BTC-USDT", Buy, None, 5.0, Some("leg"))]
  {
    var s := UnstartedAlgo();
    assert ["leg"][1..] == [] && StrategyLegs(["leg"], [], "mm") == [];
    var s1 := DriveAlgo(s, "leg", now);
    assert s1.sent == [OrderRequest(0, "mm", "BTC-USDT", Buy, None, 5.0, Some("leg"))];
    assert DriveAll(s, ["leg"], now) == s1;
  }

  // ----- What can still be placed -----

  ghost predicate NoOrderSent(sent: seq<Msg>, sent': seq<Msg>) {
    sent <= sent' && forall k :: |sent| <= k < |sent'| ==> !sent'[k].OrderRequest?
  }

  predicate NoAlgos(s: Oms) { s.algoKeys == [] && s.algos == map[] }

  predicate Approves(e: Event) { e.DecisionArrives? && e.verdict.Some? }

  lemma {:induction false} RequestsPlaceNothing(orders: seq<OrderState>, scope: Scope, k: nat)
    ensures forall m :: m in CancelRequests(orders, scope, k) ==> m.CancelRequest?
    decreases |orders| - k
  {
    if k < |orders| {
      RequestsPlaceNothing(orders, scope, k + 1);
    }
  }

  lemma {:induction false} CancelScopePlacesNothing(s: Oms, scope: Scope, now: int)
    ensures var s' := CancelScope(s, scope, now); NoOrderSent(s.sent, s'.sent) && (NoAlgos(s) ==> NoAlgos(s'))
  {
    CancelFromIsPointwise(s, scope, 0, now);
    RequestsPlaceNothing(s.orders, scope, 0);
    var more := CancelRequests(s.orders, scope, 0);
    forall k | |s.sent| <= k < |s.sent + more| ensures !(s.sent + more)[k].OrderRequest? {
      assert (s.sent + more)[k] in more;
    }
  }

  lemma {:induction false} StepPlacesNothing(cfg: Config, s: Oms, e: Event)
    requires NoAlgos(s) && !Approves(e)
    ensures NoAlgos(Step(cfg, s, e)) && NoOrderSent(s.sent, Step(cfg, s, e).sent)
  {
    match e {
      case DecisionArrives(id, _, _, now) =>
        if id in s.signals {
          CancelScopePlacesNothing(s.(signals := s.signals - {id}), PlainOrders(s.signals[id].strategy, s.signals[id].instrument), now);
        }
      case KillSwitch(now) => CancelScopePlacesNothing(s, Everything, now);
      case StrategyPaused(strategy, now) => CancelScopePlacesNothing(s, OfStrategy(strategy), now);
      case DriverWakes(now) => assert DriveAll(s, s.algoKeys, now) == s;
      case _ =>
    }
  }

  lemma {:induction false} RunPlacesNothing(cfg: Config, s: Oms, es: seq<Event>)
    requires NoAlgos(s) && forall e :: e in es ==> !Approves(e)
    ensures NoAlgos(Run(cfg, s, es)) && NoOrderSent(s.sent, Run(cfg, s, es).sent)
    decreases |es|
  {
    if es != [] {
      var n := |es| - 1;
      RunPlacesNothing(cfg, s, es[..n]);
      assert es[n] in es;
      StepPlacesNothing(cfg, Run(cfg, s, es[..n]), es[n]);
    }
  }

  /** After the kill switch has cancelled everything, whatever arrives, the OMS places no order
      unless a decision that approves legs reaches it. */
  lemma {:induction false} OnlyApprovalsPlaceAfterKill(cfg: Config, s: Oms, now: int, es: seq<Event>)
    requires Good(s) && forall e :: e in es ==> !Approves(e)
    ensures NoOrderSent(KillAll(s, now).sent, Run(cfg, KillAll(s, now), es).sent)
  {
    KillSwitchEffect(s, now);
    RunPlacesNothing(cfg, KillAll(s, now), es);
  }

  // ----- Which approvals can still come -----

  /** A signal one of whose legs kills is approved all the same exactly when it is not atomic
      and some leg passes; such legs come before every leg that kills. (Signals evaluated
      later are rejected: `LatchedUntilReset`.) */
  lemma {:induction false} KillingSignalIsApprovedIffLegPassed<World>(rules: seq<Risk.Rule<World>>, world: World, sig: Signal,
                                                                      atomic: bool, minNotional: Option<Price>, j: nat)
    requires j < |sig.legs| && Risk.Kills(rules, world, sig, sig.legs[j])
    ensures Risk.DecisionOn(rules, world, sig, atomic, minNotional).approved <==>
            !atomic && exists i :: 0 <= i < |sig.legs| && Risk.Passes(rules, world, sig, minNotional, i)
    ensures forall i :: 0 <= i < |sig.legs| && Risk.Passes(rules, world, sig, minNotional, i) ==> i < j
  {
    Risk.ApprovedIffLegsPass(rules, world, sig, atomic, minNotional);
    assert !Risk.Passes(rules, world, sig, minNotional, j);
  }

  // ----- A leg that outlives the kill switch -----

  /** Approves buys, kills on a sell. */
  function SellKills(): seq<Risk.Rule<()>> {
    [Risk.Rule("no-sells", (_: (), _: Signal, leg: Leg) =>
       Some(if leg.side.Buy? then Risk.RuleResult("no-sells", true, Risk.Info, None)
            else Risk.RuleResult("no-sells", false, Risk.Severity.Kill, None)))]
  }

  function BuyThenSell(): Signal {
    Signal(1, "mm", "BTC-USDT", [Leg("bid", Buy, Some(100.0), 1.0), Leg("ask", Sell, Some(101.0), 1.0)])
  }

  lemma {:induction false} BuyThenSellVerdicts()
    ensures Risk.Verdicts(SellKills(), (), BuyThenSell(), None, 2) ==
            ([Risk.Approve(Risk.ApprovedLeg("bid", Buy, 1.0, None)),
              Risk.Refuse(Risk.RejectedLeg("ask", Sell, "no-sells", Risk.Severity.Kill), true)], Some("no-sells"))
  {
    var sig := BuyThenSell();
    var buy, sell := Risk.ResultsOf(SellKills(), (), sig, sig.legs[0]), Risk.ResultsOf(SellKills(), (), sig, sig.legs[1]);
    assert buy == [Risk.RuleResult("no-sells", true, Risk.Info, None)] && buy[..0] == [] && buy[1..] == [];
    assert sell == [Risk.RuleResult("no-sells", false, Risk.Severity.Kill, None)];
    assert Risk.FirstReject(buy).None? && Risk.Clamped(buy, 1.0) == (1.0, None);
    assert Risk.FirstReject(sell) == Some(sell[0]);
    var bid := Risk.Approve(Risk.ApprovedLeg("bid", Buy, 1.0, None));
    assert Risk.Judge(buy, sig.legs[0], None) == bid && [] + [bid] == [bid];
    var ask := Risk.Refuse(Risk.RejectedLeg("ask", Sell, "no-sells", Risk.Severity.Kill), true);
    assert Risk.Judge(sell, sig.legs[1], None) == ask && [bid] + [ask] == [bid, ask];
    assert Risk.Verdicts(SellKills(), (), sig, None, 0) == ([], None);
    assert Risk.Verdicts(SellKills(), (), sig, None, 1) == ([Risk.Approve(Risk.ApprovedLeg("bid", Buy, 1.0, None))], None);
  }

  lemma {:induction false} ApprovedThenRefused(approved: Risk.ApprovedLeg, refused: Risk.RejectedLeg, kills: bool)
    ensures Risk.Approvals([Risk.Approve(approved), Risk.Refuse(refused, kills)]) == [approved]
    ensures Risk.Refusals([Risk.Approve(approved), Risk.Refuse(refused, kills)]) == [refused]
  {
    var verdicts := [Risk.Approve(approved), Risk.Refuse(refused, kills)];
    var first := [verdicts[0]];
    assert first[..0] == [] && verdicts[..1] == first;
    assert Risk.Approvals(first) == [approved];
    assert Risk.Refusals(first) == [];
  }

  /** The sell engages the switch and the buy is approved in the same decision. */
  lemma {:induction false} BuyThenSellDecision(now: int)
    ensures Risk.Evaluated(Risk.Engine(Risk.Off, [], [], []), SellKills(), (), BuyThenSell(), false, None, now) ==
            Risk.Engine(Risk.Engaged("no-sells", now),
                        [Risk.Decision(1, true, None, [Risk.ApprovedLeg("bid", Buy, 1.0, None)],
                                       [Risk.RejectedLeg("ask", Sell, "no-sells", Risk.Severity.Kill)])],
                        [Risk.Engaged("no-sells", now)], [("mm", now)])
  {
    BuyThenSellVerdicts();
    ApprovedThenRefused(Risk.ApprovedLeg("bid", Buy, 1.0, None), Risk.RejectedLeg("ask", Sell, "no-sells", Risk.Severity.Kill), true);
    var e: Risk.Engine := Risk.Engine(Risk.Off, [], [], []);
    var e0 := e.(recorded := [("mm", now)]);
    assert e.recorded + [("mm", now)] == [("mm", now)];
    assert Risk.Evaluated(e, SellKills(), (), BuyThenSell(), false, None, now) ==
           Risk.WithVerdicts(e0, SellKills(), (), BuyThenSell(), false, None, now);
    assert e0.kills + [Risk.Engaged("no-sells", now)] == [Risk.Engaged("no-sells", now)];
  }

  /** The OMS handles the kill event first, then that decision: it places the buy after it has
      cancelled everything. */
  lemma {:induction false} ApprovedLegOutlivesKill(cfg: Config, now: int)
    ensures var s := KillAll(EmptyOms.(signals := map[1 := BuyThenSell()]), now);
            var s' := DecideSignal(cfg, s, 1, Some(Risk.ById([Risk.ApprovedLeg("bid", Buy, 1.0, None)])), _ => None, now);
            && s.orders == [] && s'.sent == s.sent + [OrderRequest(0, "mm", "BTC-USDT", Buy, Some(100.0), 1.0, None)]
            && |s'.orders| == 1 && s'.orders[0].status == PendingNew
  {
    var s := KillAll(EmptyOms.(signals := map[1 := BuyThenSell()]), now);
    var s1 := s.(signals := s.signals - {1});
    var bid := Leg("bid", Buy, Some(100.0), 1.0);
    var route: Router := _ => None;
    var sig := BuyThenSell().(legs := [bid]);
    ApprovedBuyOnly();
    assert ImmediateLegs([bid], route) == [bid] && SlicedLegs([bid], route) == [] by {
      assert [bid][1..] == [] && ImmediateLegs([], route) == [] && SlicedLegs([], route) == [];
    }
    assert RestingIds(s1.orders, "mm", "BTC-USDT") == [];
    assert MatchLeg(cfg, s1, sig, [], {}, bid, now) == (PlaceQuote(s1, sig, bid), {});
    assert [bid][1..] == [];
    var s2 := PlaceQuote(s1, sig, bid);
    assert MatchLegs(cfg, s2, sig, [], {}, [], now) == (s2, {});
    assert MatchLegs(cfg, s1, sig, [], {}, [bid], now) == (s2, {});
    assert ReconcileImmediate(cfg, s1, sig, [bid], now) == s2;
    assert ReconcileSliced(s2, sig, [], now) == s2;
  }

  lemma {:induction false} ApprovedBuyOnly()
    ensures ApprovedLegs(BuyThenSell().legs, Risk.ById([Risk.ApprovedLeg("bid", Buy, 1.0, None)])) == [Leg("bid", Buy, Some(100.0), 1.0)]
  {
    var approved := [Risk.ApprovedLeg("bid", Buy, 1.0, None)];
    assert approved[..0] == [];
    assert Risk.ById(approved) == map["bid" := 1.0];
    var legs := BuyThenSell().legs;
    assert legs[1..] == [legs[1]] && legs[1..][1..] == [];
    assert ApprovedLegs(legs[1..], map["bid" := 1.0]) == [];
  }
}
