/** The OMS engine itself: a mutable order book and tables updated in place. Each handler
    is proved to take the engine's state where the corresponding function of OmsModel does. */
module OmsEngine {
  import opened Types
  import opened StateMachine
  import opened Orders
  import opened ExecutionAlgos
  import opened OmsModel
  import Shutdown
  import SelfTrade

  class Engine {
    const cfg: Config
    // insertion-ordered map of orders; the key of an order is its position
    var orders: seq<Order>
    var coids: map<ClientOrderId, OrderId>
    var algoKeys: seq<LegId>
    var algos: map<LegId, Algo>
    var algoCtx: map<LegId, AlgoCtx>
    var lastSweep: int
    var signals: map<SignalId, Signal>
    var sent: seq<Msg>

    ghost predicate Valid()
      reads this
    {
      forall i :: 0 <= i < |orders| ==> orders[i].id == i
    }

    ghost function Book(): seq<OrderState>
      reads this, orders
    {
      seq(|orders|, i requires 0 <= i < |orders| reads this, orders => orders[i].View())
    }

    ghost function State(): Oms
      reads this, orders
    {
      Oms(Book(), coids, algoKeys, algos, algoCtx, lastSweep, signals, sent)
    }

    /** The order objects of before are still there; later ones were created meanwhile. */
    twostate predicate Grown()
      reads this
    {
      old(orders) <= orders && forall i :: |old(orders)| <= i < |orders| ==> fresh(orders[i])
    }

    constructor (cfg: Config)
      ensures Valid() && State() == EmptyOms && this.cfg == cfg
    {
      this.cfg := cfg;
      orders, coids, algoKeys, algos, algoCtx := [], map[], [], map[], map[];
      lastSweep, signals, sent := 0, map[], [];
    }

    // ----- Single orders -----

    method CancelOrder(id: OrderId, now: int)
      requires Valid()
      modifies this`sent, orders
      ensures Valid() && State() == OmsModel.CancelOrder(old(State()), id, now)
    {
      if id >= |orders| {
        return;
      }
      var order := orders[id];
      if IsTerminal(order.status) {
        return;
      }
      var ok := order.TransitionTo(PendingCancel, now);
      assert Book() == old(Book())[id := order.View()];
      if !ok {
        return;
      }
      sent := sent + [CancelRequest(id)];
    }

    method AmendQuote(id: OrderId, leg: Leg, now: int)
      requires Valid() && id < |orders|
      modifies this`sent, orders
      ensures Valid() && State() == OmsModel.AmendQuote(old(State()), id, leg, now)
    {
      var order := orders[id];
      var ok := order.TransitionTo(PendingAmend, now);
      if !ok {
        assert Book() == old(Book());
        return;
      }
      order.pendingAmend := Some(Amend(leg.price, leg.quantity));
      assert Book() == old(Book())[id := order.View()];
      sent := sent + [AmendRequest(id, leg.price, leg.quantity)];
    }

    method PlaceOrder(strategy: StrategyId, instrument: InstrumentId, side: Side,
                      price: Option<Price>, quantity: Quantity, parentLeg: Option<LegId>)
      requires Valid()
      modifies this`orders, this`coids, this`sent
      ensures Valid() && Grown()
      ensures State() == OmsModel.PlaceOrder(old(State()), strategy, instrument, side, price, quantity, parentLeg)
    {
      var id := |orders|;
      var coid := Minted(strategy, id);
      var order := new Order(id, coid, strategy, instrument, side, parentLeg, quantity, price);
      orders := orders + [order];
      coids := coids[coid := id];
      sent := sent + [OrderRequest(id, strategy, instrument, side, price, quantity, parentLeg)];
      assert Book() == old(Book()) + [order.View()];
    }

    // ----- Reconciling plain orders -----

    method RestingOrders(strategy: StrategyId, instrument: InstrumentId) returns (resting: seq<OrderId>)
      requires Valid()
      ensures resting == RestingIds(Book(), strategy, instrument)
    {
      resting := [];
      for i := 0 to |orders|
        invariant resting == RestingIds(Book()[..i], strategy, instrument)
      {
        var o := orders[i];
        assert Book()[..i + 1][..i] == Book()[..i];
        assert Book()[..i + 1][i] == o.View();
        if o.strategy == strategy && o.instrument == instrument && o.parentLeg.None?
           && o.status in {PendingNew, Acknowledged, PartiallyFilled, PendingAmend, PendingCancel}
        {
          resting := resting + [i];
        }
      }
      assert Book()[..|orders|] == Book();
    }

    method FindResting(resting: seq<OrderId>, matched: set<OrderId>, leg: Leg, exact: bool) returns (found: Option<OrderId>)
      requires Valid() && Known(Book(), resting)
      ensures found == FirstSuiting(Book(), resting, matched, leg, exact)
    {
      for k := 0 to |resting|
        invariant FirstSuiting(Book(), resting, matched, leg, exact)
                  == FirstSuiting(Book(), resting[k..], matched, leg, exact)
      {
        var o := orders[resting[k]];
        assert Book()[resting[k]] == o.View();
        if resting[k] !in matched && o.side == leg.side
           && (exact ==> o.price == leg.price && o.LeavesQuantity() == leg.quantity)
        {
          return Some(resting[k]);
        }
        assert resting[k..][1..] == resting[k + 1..];
      }
      return None;
    }

    method Blocks(strategy: StrategyId, instrument: InstrumentId, leg: Leg) returns (blocked: bool)
      requires Valid()
      ensures blocked == StpBlocks(cfg, Book(), strategy, instrument, leg)
      ensures blocked <==> cfg.selfTradePrevention && leg.price.Some?
                           && !SelfTrade.NoCross(Book(), strategy, instrument, leg.side, leg.price.value)
    {
      SelfTrade.BlockedIffCrossing(cfg, Book(), strategy, instrument, leg);
      if !cfg.selfTradePrevention || leg.price.None? {
        return false;
      }
      for i := 0 to |orders|
        invariant forall j :: 0 <= j < i ==> !CrossesSibling(Book()[j], strategy, instrument, leg.side, leg.price.value)
      {
        var o := orders[i];
        assert Book()[i] == o.View();
        if o.strategy != strategy && o.instrument == instrument
           && o.status in {PendingNew, Acknowledged, PartiallyFilled, PendingAmend} && o.price.Some?
        {
          if (leg.side == Buy && o.side == Sell && leg.price.value >= o.price.value)
             || (leg.side == Sell && o.side == Buy && leg.price.value <= o.price.value)
          {
            return true;
          }
        }
      }
      return false;
    }

    method ReconcileLeg(sig: Signal, resting: seq<OrderId>, matched: set<OrderId>, leg: Leg, now: int)
      returns (matched': set<OrderId>)
      requires Valid() && Known(Book(), resting)
      modifies this`orders, this`coids, this`sent, orders
      ensures Valid() && Grown()
      ensures (State(), matched') == MatchLeg(cfg, old(State()), sig, resting, matched, leg, now)
    {
      var exact := FindResting(resting, matched, leg, true);
      if exact.Some? {
        return matched + {exact.value};
      }
      var candidate := FindResting(resting, matched, leg, false);
      if candidate.None? {
        var blocked := Blocks(sig.strategy, sig.instrument, leg);
        if !blocked {
          PlaceOrder(sig.strategy, sig.instrument, leg.side, leg.price, leg.quantity, None);
        }
        return matched;
      }
      var o := orders[candidate.value];
      assert Book()[candidate.value] == o.View();
      if o.status in {Acknowledged, PartiallyFilled} {
        var blocked := Blocks(sig.strategy, sig.instrument, leg);
        if !blocked {
          AmendQuote(candidate.value, leg, now);
        }
      }
      return matched + {candidate.value};
    }

    method ReconcileImmediate(sig: Signal, legs: seq<Leg>, now: int)
      requires Valid()
      modifies this`orders, this`coids, this`sent, orders
      ensures Valid() && Grown()
      ensures State() == OmsModel.ReconcileImmediate(cfg, old(State()), sig, legs, now)
    {
      var resting := RestingOrders(sig.strategy, sig.instrument);
      var matched: set<OrderId> := {};
      for k := 0 to |legs|
        invariant Valid() && Grown() && Known(Book(), resting)
        invariant MatchLegs(cfg, State(), sig, resting, matched, legs[k..], now)
                  == MatchLegs(cfg, old(State()), sig, resting, {}, legs, now)
      {
        assert legs[k..][1..] == legs[k + 1..];
        matched := ReconcileLeg(sig, resting, matched, legs[k], now);
      }
      CancelSurplus(resting, matched, now);
    }

    method CancelSurplus(resting: seq<OrderId>, matched: set<OrderId>, now: int)
      requires Valid() && Known(Book(), resting)
      modifies this`sent, orders
      ensures Valid() && State() == CancelUnmatched(old(State()), resting, matched, now)
    {
      for k := 0 to |resting|
        invariant Valid() && Known(Book(), resting)
        invariant CancelUnmatched(State(), resting[k..], matched, now) == CancelUnmatched(old(State()), resting, matched, now)
      {
        assert resting[k..][1..] == resting[k + 1..];
        var o := orders[resting[k]];
        assert Book()[resting[k]] == o.View();
        if resting[k] !in matched && o.status != PendingAmend {
          CancelOrder(resting[k], now);
        }
      }
    }

    // ----- Cancelling by scope -----

    method CancelScope(scope: Scope, now: int)
      requires Valid()
      modifies this`sent, orders
      ensures Valid() && State() == OmsModel.CancelScope(old(State()), scope, now)
    {
      for k := 0 to |orders|
        invariant Valid()
        invariant CancelFrom(State(), scope, k, now) == CancelFrom(old(State()), scope, 0, now)
      {
        var o := orders[k];
        assert Book()[k] == o.View();
        var covered := match scope
          case PlainOrders(strategy, instrument) =>
            o.strategy == strategy && o.instrument == instrument && o.parentLeg.None?
          case Everything => true
          case OfStrategy(strategy) => o.strategy == strategy
          case ChildrenOf(leg) => o.parentLeg == Some(leg);
        if covered {
          CancelOrder(k, now);
        }
      }
    }

    // ----- Responses -----

    method HandleAck(id: OrderId, exchangeId: ExchangeId, ts: int)
      requires Valid()
      modifies orders
      ensures Valid() && State() == Respond(old(State()), id, Ack(exchangeId, ts))
    {
      if id < |orders| {
        var order := orders[id];
        var ok := order.TransitionTo(Acknowledged, ts);
        if ok {
          order.exchangeId := Some(exchangeId);
        }
        assert Book() == old(Book())[id := order.View()];
      }
    }

    /** Reject, cancel and cancel-reject each try one move and ignore an illegal one. */
    method HandleMove(id: OrderId, to: OrderStatus, ts: int)
      requires Valid() && to in {Rejected, Cancelled, Acknowledged}
      modifies orders
      ensures Valid()
      ensures State() == Respond(old(State()), id, if to == Rejected then Reject(ts)
                                                   else if to == Cancelled then CancelDone(ts)
                                                   else CancelRejected(ts))
    {
      if id < |orders| {
        var order := orders[id];
        var ok := order.TransitionTo(to, ts);
        assert Book() == old(Book())[id := order.View()];
      }
    }

    method HandleAmendRejected(id: OrderId, now: int)
      requires Valid()
      modifies orders
      ensures Valid() && State() == Respond(old(State()), id, AmendRejected(now))
    {
      if id < |orders| {
        var order := orders[id];
        order.pendingAmend := None;
        var ok: bool;
        if order.LeavesQuantity() == 0.0 {
          ok := order.TransitionTo(Filled, now);
        } else {
          ok := order.TransitionTo(Acknowledged, now);
        }
        assert Book() == old(Book())[id := order.View()];
      }
    }

    method HandleAmend(id: OrderId, newPrice: Option<Price>, newQuantity: Option<Quantity>,
                       newExchangeId: Option<ExchangeId>, ts: int)
      requires Valid()
      modifies orders
      ensures Valid()
      ensures State() == Respond(old(State()), id, Amended(newPrice, newQuantity, newExchangeId, ts))
    {
      if id >= |orders| {
        return;
      }
      var order := orders[id];
      if order.status == PendingCancel {
        order.pendingAmend := None;
        assert Book() == old(Book())[id := order.View()];
        return;
      }
      ConfirmAmend(order, newPrice, newQuantity, newExchangeId, ts);
      assert Book() == old(Book())[id := order.View()];
    }

    static method ConfirmAmend(order: Order, newPrice: Option<Price>, newQuantity: Option<Quantity>,
                               newExchangeId: Option<ExchangeId>, ts: int)
      requires order.status != PendingCancel
      modifies order
      ensures order.View() == Handled(old(order.View()), Amended(newPrice, newQuantity, newExchangeId, ts))
    {
      var ok := order.TransitionTo(Acknowledged, ts);
      if ok {
        if newPrice.Some? {
          order.price := newPrice;
        } else if order.pendingAmend.Some? {
          order.price := order.pendingAmend.value.price;
        }
        if newQuantity.Some? {
          order.quantity := newQuantity.value;
        } else if order.pendingAmend.Some? {
          order.quantity := order.pendingAmend.value.quantity;
        }
        if newExchangeId.Some? {
          order.exchangeId := newExchangeId;
        }
      }
      order.pendingAmend := None;
    }

    // ----- Timer -----

    method SweepOrder(order: Order, now: int)
      modifies order
      ensures order.View() == Swept(old(order.View()), now, cfg.amendTimeout)
    {
      if order.status == PendingAmend && now - order.lastUpdate >= cfg.amendTimeout {
        order.pendingAmend := None;
        var target := if order.LeavesQuantity() == 0.0 then Filled else Acknowledged;
        var ok := order.TransitionTo(target, now);
      }
    }

    method SweepStalePendingAmends(now: int)
      requires Valid()
      modifies this`lastSweep, orders
      ensures Valid() && State() == Sweep(cfg, old(State()), now)
    {
      if now - lastSweep < NS_PER_SECOND {
        return;
      }
      lastSweep := now;
      for i := 0 to |orders|
        invariant Valid() && lastSweep == now
        invariant forall j :: 0 <= j < i ==> orders[j].View() == Swept(old(orders[j].View()), now, cfg.amendTimeout)
        invariant forall j :: i <= j < |orders| ==> orders[j].View() == old(orders[j].View())
      {
        SweepOrder(orders[i], now);
      }
      assert Book() == SweepOrders(old(Book()), now, cfg.amendTimeout);
    }

    // ----- Algorithms -----

    method RetireAlgo(leg: LegId)
      requires Valid()
      modifies this`algoKeys, this`algos, this`algoCtx
      ensures Valid() && State() == Retire(old(State()), leg)
    {
      algoKeys := Without(algoKeys, leg);
      algos := algos - {leg};
      algoCtx := algoCtx - {leg};
    }

    method LegHasLiveChildren(leg: LegId) returns (live: bool)
      requires Valid()
      ensures live == HasLiveChildren(Book(), leg)
    {
      for i := 0 to |orders|
        invariant forall j :: 0 <= j < i ==> !(Book()[j].parentLeg == Some(leg) && !Book()[j].Terminal())
      {
        var o := orders[i];
        assert Book()[i] == o.View();
        if o.parentLeg == Some(leg) && !IsTerminal(o.status) {
          return true;
        }
      }
      return false;
    }

    method RetireFinished(leg: LegId)
      requires Valid()
      modifies this`algoKeys, this`algos, this`algoCtx
      ensures Valid() && State() == RetireIfFinished(old(State()), leg)
    {
      if leg in algos && Done(algos[leg]) {
        var live := LegHasLiveChildren(leg);
        if !live {
          RetireAlgo(leg);
        }
      }
    }

    method DriveAlgo(leg: LegId, now: int)
      requires Valid()
      modifies this, orders
      ensures Valid() && Grown()
      ensures State() == OmsModel.DriveAlgo(old(State()), leg, now)
    {
      if leg !in algos {
        return;
      }
      var (algo, slice) := NextSlice(algos[leg], now);
      algos := algos[leg := algo];
      ghost var s1 := State();
      assert s1 == old(State()).(algos := algos);
      if slice.Some? && leg in algoCtx {
        var ctx := algoCtx[leg];
        PlaceOrder(ctx.strategy, ctx.instrument, ctx.leg.side, algo.price, slice.value, Some(leg));
      }
      assert State() == if slice.Some? then SubmitChild(s1, leg, algo.price, slice.value) else s1;
      RetireFinished(leg);
    }

    method DriverWakes(now: int)
      requires Valid()
      modifies this, orders
      ensures Valid() && Grown() && State() == DriverWake(cfg, old(State()), now)
    {
      var keys := algoKeys;
      for k := 0 to |keys|
        invariant Valid() && Grown()
        invariant DriveAll(State(), keys[k..], now) == DriveAll(old(State()), keys, now)
      {
        assert keys[k..][1..] == keys[k + 1..];
        DriveAlgo(keys[k], now);
      }
      SweepStalePendingAmends(now);
    }

    method OnFill(id: OrderId, f: Fill)
      requires Valid()
      modifies this`algoKeys, this`algos, this`algoCtx, orders
      ensures Valid() && State() == OmsModel.OnFill(old(State()), id, f)
    {
      if id >= |orders| {
        return;
      }
      var order := orders[id];
      if IsTerminal(order.status) {
        var recorded := order.RecordFill(f);
        assert Book() == old(Book())[id := order.View()];
        return;
      }
      var isNew := order.ApplyFill(f);
      assert Book() == old(Book())[id := order.View()];
      if isNew && order.parentLeg.Some? {
        RetireFinished(order.parentLeg.value);
      }
    }

    // ----- Sliced legs -----

    method WithdrawAlgos(sig: Signal, desired: set<LegId>, now: int)
      requires Valid()
      modifies this`algoKeys, this`algos, this`algoCtx, this`sent, orders
      ensures Valid() && State() == Withdraw(old(State()), old(algoKeys), sig, desired, now)
    {
      var keys := algoKeys;
      for k := 0 to |keys|
        invariant Valid()
        invariant Withdraw(State(), keys[k..], sig, desired, now) == Withdraw(old(State()), keys, sig, desired, now)
      {
        assert keys[k..][1..] == keys[k + 1..];
        var leg := keys[k];
        if leg in algoCtx && algoCtx[leg].strategy == sig.strategy
           && algoCtx[leg].instrument == sig.instrument && leg !in desired
        {
          RetireAlgo(leg);
          CancelScope(ChildrenOf(leg), now);
        }
      }
    }

    method StartOrResumeAlgo(sig: Signal, sliced: SlicedLeg, now: int)
      requires Valid()
      modifies this, orders
      ensures Valid() && Grown()
      ensures State() == StartOrResume(old(State()), sig, sliced, now)
    {
      var leg := sliced.leg.id;
      if leg in algos {
        var since := if leg in algoCtx then algoCtx[leg].since else |sent|;
        algoCtx := algoCtx[leg := AlgoCtx(sig.strategy, sig.instrument, sliced.leg, since)];
        return;
      }
      algoKeys := algoKeys + [leg];
      algos := algos[leg := sliced.algo];
      algoCtx := algoCtx[leg := AlgoCtx(sig.strategy, sig.instrument, sliced.leg, |sent|)];
      assert State() == old(State()).(algoKeys := algoKeys, algos := algos, algoCtx := algoCtx);
      DriveAlgo(leg, now);
    }

    method ReconcileSliced(sig: Signal, sliced: seq<SlicedLeg>, now: int)
      requires Valid()
      modifies this, orders
      ensures Valid() && Grown()
      ensures State() == OmsModel.ReconcileSliced(old(State()), sig, sliced, now)
    {
      WithdrawAlgos(sig, set l | l in sliced :: l.leg.id, now);
      ghost var s1 := State();
      for k := 0 to |sliced|
        invariant Valid() && Grown()
        invariant StartAll(State(), sig, sliced[k..], now) == StartAll(s1, sig, sliced, now)
      {
        assert sliced[k..][1..] == sliced[k + 1..];
        StartOrResumeAlgo(sig, sliced[k], now);
      }
    }

    // ----- Signals and decisions -----

    /** Splits the legs by the router's verdict, keeping their order. */
    static method RouteLegs(legs: seq<Leg>, route: Router) returns (immediate: seq<Leg>, sliced: seq<SlicedLeg>)
      ensures immediate == ImmediateLegs(legs, route) && sliced == SlicedLegs(legs, route)
    {
      immediate, sliced := [], [];
      for k := 0 to |legs|
        invariant immediate + ImmediateLegs(legs[k..], route) == ImmediateLegs(legs, route)
        invariant sliced + SlicedLegs(legs[k..], route) == SlicedLegs(legs, route)
      {
        assert legs[k..][1..] == legs[k + 1..];
        var leg := legs[k];
        match route(leg) {
          case None =>
            assert immediate + ([leg] + ImmediateLegs(legs[k + 1..], route)) == (immediate + [leg]) + ImmediateLegs(legs[k + 1..], route);
            immediate := immediate + [leg];
          case Some(algo) =>
            var s := SlicedLeg(leg, algo);
            assert sliced + ([s] + SlicedLegs(legs[k + 1..], route)) == (sliced + [s]) + SlicedLegs(legs[k + 1..], route);
            sliced := sliced + [s];
        }
      }
    }

    method ReconcileQuotes(sig: Signal, route: Router, now: int)
      requires Valid()
      modifies this, orders
      ensures Valid() && Grown()
      ensures State() == Reconcile(cfg, old(State()), sig, route, now)
    {
      var immediate, sliced := RouteLegs(sig.legs, route);
      ReconcileImmediate(sig, immediate, now);
      ReconcileSliced(sig, sliced, now);
    }

    method OnSignal(sig: Signal)
      requires Valid()
      modifies this`signals
      ensures Valid() && State() == Step(cfg, old(State()), SignalArrives(sig))
    {
      signals := signals[sig.id := sig];
    }

    method OnRiskDecision(id: SignalId, verdict: Option<map<LegId, Quantity>>, route: Router, now: int)
      requires Valid()
      modifies this, orders
      ensures Valid() && Grown()
      ensures State() == DecideSignal(cfg, old(State()), id, verdict, route, now)
    {
      if id !in signals {
        return;
      }
      var sig := signals[id];
      signals := signals - {id};
      assert State() == old(State()).(signals := signals);
      match verdict {
        case None => CancelScope(PlainOrders(sig.strategy, sig.instrument), now);
        case Some(approved) =>
          ReconcileQuotes(sig.(legs := ApprovedLegs(sig.legs, approved)), route, now);
      }
    }

    // ----- Operator and venue -----

    method CancelAllResting(now: int)
      requires Valid()
      modifies this`algoKeys, this`algos, this`algoCtx, this`sent, orders
      ensures Valid() && State() == KillAll(old(State()), now)
      ensures algoKeys == [] && |Book()| == |old(Book())|
      ensures forall i :: 0 <= i < |old(Book())| ==> Shutdown.AskedToCancel(old(Book())[i], Book()[i], now)
    {
      Shutdown.KillSwitchAsks(State(), now);
      var keys := algoKeys;
      for k := 0 to |keys|
        invariant Valid() && orders == old(orders)
        invariant RetireAll(State(), keys[k..]) == RetireAll(old(State()), keys)
      {
        assert keys[k..][1..] == keys[k + 1..];
        RetireAlgo(keys[k]);
      }
      CancelScope(Everything, now);
    }

    method CancelStrategyOrders(strategy: StrategyId, now: int)
      requires Valid()
      modifies this`algoKeys, this`algos, this`algoCtx, this`sent, orders
      ensures Valid() && State() == CancelStrategy(old(State()), strategy, now)
      ensures |Book()| == |old(Book())|
      ensures forall i :: 0 <= i < |old(Book())| ==>
                if old(Book())[i].strategy == strategy then Shutdown.AskedToCancel(old(Book())[i], Book()[i], now)
                else Book()[i] == old(Book())[i]
    {
      Shutdown.PauseAsks(State(), strategy, now);
      var strategyLegs := set i | 0 <= i < |orders| && orders[i].strategy == strategy && orders[i].parentLeg.Some?
                              :: orders[i].parentLeg.value;
      var keys := algoKeys;
      ghost var book := Book();
      forall leg
        ensures leg in strategyLegs <==>
                exists i :: 0 <= i < |book| && book[i].strategy == strategy && book[i].parentLeg == Some(leg)
      {
        if leg in strategyLegs {
          var i :| 0 <= i < |orders| && orders[i].strategy == strategy && orders[i].parentLeg == Some(leg);
          assert book[i] == orders[i].View();
        }
        if i :| 0 <= i < |book| && book[i].strategy == strategy && book[i].parentLeg == Some(leg) {
          assert book[i] == orders[i].View();
        }
      }
      for k := 0 to |keys|
        invariant Valid() && orders == old(orders) && Book() == book
        invariant RetireAll(State(), StrategyLegs(keys[k..], book, strategy))
                  == RetireAll(old(State()), StrategyLegs(keys, book, strategy))
      {
        assert keys[k..][1..] == keys[k + 1..];
        if keys[k] in strategyLegs {
          assert StrategyLegs(keys[k..], book, strategy)[1..] == StrategyLegs(keys[k + 1..], book, strategy);
          RetireAlgo(keys[k]);
        } else {
          assert StrategyLegs(keys[k..], book, strategy) == StrategyLegs(keys[k + 1..], book, strategy);
        }
      }
      CancelScope(OfStrategy(strategy), now);
    }

    static method RefreshAdopted(order: Order, v: VenueOrder)
      modifies order
      ensures order.View() == Refreshed(old(order.View()), v)
    {
      if IsTerminal(order.status) {
        return;
      }
      if v.filled > order.filled {
        order.filled := v.filled;
      }
      order.quantity := v.quantity;
      if v.price.Some? {
        order.price := v.price;
      }
    }

    method AdoptOrder(v: VenueOrder)
      requires Valid()
      modifies this`orders, this`coids, this`sent, orders
      ensures Valid() && Grown() && State() == Adopt(old(State()), v)
    {
      if v.coid in coids {
        var id := coids[v.coid];
        if id < |orders| {
          RefreshAdopted(orders[id], v);
          assert Book() == old(Book())[id := orders[id].View()];
        }
        return;
      }
      AdoptUnknown(v);
    }

    static method AdoptedOrder(id: OrderId, v: VenueOrder) returns (order: Order)
      ensures fresh(order)
      ensures order.View() == FreshOrder(id, v.coid, Owner(v.coid), v.instrument, v.side, None, v.quantity, v.price).(
                                status := if v.filled > 0.0 then PartiallyFilled else Acknowledged,
                                filled := v.filled, exchangeId := v.exchangeId)
    {
      order := new Order(id, v.coid, Owner(v.coid), v.instrument, v.side, None, v.quantity, v.price);
      order.status := if v.filled > 0.0 then PartiallyFilled else Acknowledged;
      order.filled := v.filled;
      order.exchangeId := v.exchangeId;
    }

    method AdoptUnknown(v: VenueOrder)
      requires Valid() && v.coid !in coids
      modifies this`orders, this`coids, this`sent
      ensures Valid() && Grown() && State() == Adopt(old(State()), v)
    {
      var id := |orders|;
      var order := AdoptedOrder(id, v);
      orders := orders + [order];
      coids := coids[v.coid := id];
      if v.exchangeId.Some? {
        sent := sent + [OrderAdopted(id)];
      }
      assert Book() == old(Book()) + [order.View()];
    }

    method Terminalize(id: OrderId, status: OrderStatus, filled: Option<Quantity>, now: int)
      requires Valid()
      modifies orders
      ensures Valid() && State() == TerminalizeFromVenue(old(State()), id, status, filled, now)
    {
      if id >= |orders| {
        return;
      }
      var order := orders[id];
      if !IsTerminal(order.status) && IsTerminal(status) {
        if filled.Some? && filled.value > order.filled {
          order.filled := filled.value;
        }
        var ok := order.TransitionTo(status, now);
      }
      assert Book() == old(Book())[id := order.View()];
    }
  }
}
