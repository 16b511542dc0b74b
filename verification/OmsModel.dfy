/** The OMS engine as a value: its state, and every handler as a function on it.
    Handlers never suspend half-way, so each is one atomic step. */
module OmsModel {
  import opened Types
  import opened StateMachine
  import opened Orders
  import opened ExecutionAlgos

  datatype Leg = Leg(id: LegId, side: Side, price: Option<Price>, quantity: Quantity)

  /** A strategy's complete desired resting state for one instrument. */
  datatype Signal = Signal(id: SignalId, strategy: StrategyId, instrument: InstrumentId, legs: seq<Leg>)

  /** What the engine publishes on the orders topic. */
  datatype Msg =
    | OrderRequest(order: OrderId, strategy: StrategyId, instrument: InstrumentId, side: Side,
                   price: Option<Price>, quantity: Quantity, parentLeg: Option<LegId>)
    | CancelRequest(order: OrderId)
    | AmendRequest(order: OrderId, newPrice: Option<Price>, newQuantity: Quantity)
    | OrderAdopted(order: OrderId)

  /** The latest approved leg behind an algorithm, and how many messages had been
      published when the algorithm was started. */
  datatype AlgoCtx = AlgoCtx(strategy: StrategyId, instrument: InstrumentId, leg: Leg, since: nat)

  datatype Config = Config(selfTradePrevention: bool, amendTimeout: int)

  datatype Oms = Oms(
    orders: seq<OrderState>,
    coids: map<ClientOrderId, OrderId>,
    algoKeys: seq<LegId>,
    algos: map<LegId, Algo>,
    algoCtx: map<LegId, AlgoCtx>,
    lastSweep: int,
    signals: map<SignalId, Signal>,
    sent: seq<Msg>
  )

  const EmptyOms: Oms := Oms([], map[], [], map[], map[], 0, map[], [])

  // ----- Single-order changes -----

  function Put(s: Oms, id: OrderId, o: OrderState): Oms
    requires id < |s.orders|
  {
    s.(orders := s.orders[id := o])
  }

  /** `cancel_order`: unknown orders and illegal moves are skipped. */
  function CancelOrder(s: Oms, id: OrderId, now: int): Oms {
    if id < |s.orders| && SendsCancel(s.orders[id])
    then Put(s, id, CancelSent(s.orders[id], now)).(sent := s.sent + [CancelRequest(id)])
    else s
  }

  function AmendQuote(s: Oms, id: OrderId, leg: Leg, now: int): Oms
    requires id < |s.orders|
  {
    if SendsAmend(s.orders[id])
    then Put(s, id, AmendSent(s.orders[id], Amend(leg.price, leg.quantity), now))
         .(sent := s.sent + [AmendRequest(id, leg.price, leg.quantity)])
    else s
  }

  /** A new order enters the book and its request goes out. */
  function PlaceOrder(s: Oms, strategy: StrategyId, instrument: InstrumentId, side: Side,
                      price: Option<Price>, quantity: Quantity, parentLeg: Option<LegId>): Oms
  {
    var id := |s.orders|;
    var coid := Minted(strategy, id);
    s.(orders := s.orders + [FreshOrder(id, coid, strategy, instrument, side, parentLeg, quantity, price)],
       coids := s.coids[coid := id],
       sent := s.sent + [OrderRequest(id, strategy, instrument, side, price, quantity, parentLeg)])
  }

  function PlaceQuote(s: Oms, sig: Signal, leg: Leg): Oms {
    PlaceOrder(s, sig.strategy, sig.instrument, leg.side, leg.price, leg.quantity, None)
  }

  // ----- Reconciling plain orders -----

  /** The statuses reconcile treats as occupying a slot. */
  predicate Active(o: OrderState) {
    o.status in {PendingNew, Acknowledged, PartiallyFilled, PendingAmend, PendingCancel}
  }

  predicate InScope(o: OrderState, strategy: StrategyId, instrument: InstrumentId) {
    o.strategy == strategy && o.instrument == instrument && o.parentLeg.None?
  }

  /** The resting plain orders of one strategy on one instrument, oldest first. */
  function RestingIds(orders: seq<OrderState>, strategy: StrategyId, instrument: InstrumentId): (r: seq<OrderId>)
    ensures Known(orders, r)
    ensures forall id :: id in r <==>
              0 <= id < |orders| && InScope(orders[id], strategy, instrument) && Active(orders[id])
    ensures forall i, j :: 0 <= i < j < |r| ==> r[i] < r[j]
  {
    if orders == [] then []
    else
      var n := |orders| - 1;
      var r := RestingIds(orders[..n], strategy, instrument);
      if InScope(orders[n], strategy, instrument) && Active(orders[n]) then r + [n] else r
  }

  /** An order a leg may take: an exact one keeps its queue position, otherwise any
      order on the leg's side. Status plays no part here. */
  predicate Suits(o: OrderState, leg: Leg, exact: bool) {
    o.side == leg.side && (exact ==> o.price == leg.price && o.Leaves() == leg.quantity)
  }

  ghost predicate Known(orders: seq<OrderState>, ids: seq<OrderId>) {
    forall i :: 0 <= i < |ids| ==> ids[i] < |orders|
  }

  /** The oldest unmatched resting order that suits the leg. */
  function FirstSuiting(orders: seq<OrderState>, resting: seq<OrderId>, matched: set<OrderId>,
                        leg: Leg, exact: bool): (r: Option<OrderId>)
    requires Known(orders, resting)
    ensures r.Some? ==> r.value in resting && r.value !in matched && r.value < |orders| && Suits(orders[r.value], leg, exact)
    ensures r.None? ==> forall id :: id in resting && id !in matched ==> !Suits(orders[id], leg, exact)
  {
    if resting == [] then None
    else if resting[0] !in matched && Suits(orders[resting[0]], leg, exact) then Some(resting[0])
    else FirstSuiting(orders, resting[1..], matched, leg, exact)
  }

  /** Orders that can trade, or are about to. */
  predicate StpLive(o: OrderState) {
    o.status in {PendingNew, Acknowledged, PartiallyFilled, PendingAmend}
  }

  /** A priced order on `side` at `price` would trade against the priced order `o`. */
  predicate PricesCross(side: Side, price: Price, o: OrderState) {
    o.price.Some? &&
    match side
    case Buy => o.side == Sell && price >= o.price.value
    case Sell => o.side == Buy && price <= o.price.value
  }

  predicate CrossesSibling(o: OrderState, strategy: StrategyId, instrument: InstrumentId, side: Side, price: Price) {
    o.strategy != strategy && o.instrument == instrument && StpLive(o) && PricesCross(side, price, o)
  }

  /** Self-trade prevention holds the leg back. Unpriced legs are never checked. */
  predicate StpBlocks(cfg: Config, orders: seq<OrderState>, strategy: StrategyId, instrument: InstrumentId, leg: Leg) {
    cfg.selfTradePrevention && leg.price.Some? &&
    exists i :: 0 <= i < |orders| && CrossesSibling(orders[i], strategy, instrument, leg.side, leg.price.value)
  }

  predicate Amendable(o: OrderState) { o.status in {Acknowledged, PartiallyFilled} }

  /** One leg: keep an exact order, else take the side's oldest free order and amend it
      if it can be amended, else place a fresh order. */
  function MatchLeg(cfg: Config, s: Oms, sig: Signal, resting: seq<OrderId>, matched: set<OrderId>,
                    leg: Leg, now: int): (r: (Oms, set<OrderId>))
    requires Known(s.orders, resting)
    ensures Known(r.0.orders, resting)
  {
    var exact := FirstSuiting(s.orders, resting, matched, leg, true);
    if exact.Some? then (s, matched + {exact.value})
    else
      var candidate := FirstSuiting(s.orders, resting, matched, leg, false);
      if candidate.None? then
        (if StpBlocks(cfg, s.orders, sig.strategy, sig.instrument, leg) then s else PlaceQuote(s, sig, leg), matched)
      else
        var id := candidate.value;
        (if Amendable(s.orders[id]) && !StpBlocks(cfg, s.orders, sig.strategy, sig.instrument, leg)
         then AmendQuote(s, id, leg, now) else s,
         matched + {id})
  }

  function MatchLegs(cfg: Config, s: Oms, sig: Signal, resting: seq<OrderId>, matched: set<OrderId>,
                     legs: seq<Leg>, now: int): (r: (Oms, set<OrderId>))
    requires Known(s.orders, resting)
    ensures Known(r.0.orders, resting)
    decreases |legs|
  {
    if legs == [] then (s, matched)
    else
      var (s1, matched1) := MatchLeg(cfg, s, sig, resting, matched, legs[0], now);
      MatchLegs(cfg, s1, sig, resting, matched1, legs[1..], now)
  }

  /** Cancels every resting order no leg took, except those waiting for an amend. */
  function CancelUnmatched(s: Oms, resting: seq<OrderId>, matched: set<OrderId>, now: int): Oms
    requires Known(s.orders, resting)
    decreases |resting|
  {
    if resting == [] then s
    else
      var id := resting[0];
      var s1 := if id !in matched && s.orders[id].status != PendingAmend then CancelOrder(s, id, now) else s;
      CancelUnmatched(s1, resting[1..], matched, now)
  }

  /** `_reconcile_immediate`. */
  function ReconcileImmediate(cfg: Config, s: Oms, sig: Signal, legs: seq<Leg>, now: int): Oms {
    var resting := RestingIds(s.orders, sig.strategy, sig.instrument);
    var (s1, matched) := MatchLegs(cfg, s, sig, resting, {}, legs, now);
    CancelUnmatched(s1, resting, matched, now)
  }

  // ----- Cancelling by scope -----

  datatype Scope =
    | PlainOrders(strategy: StrategyId, instrument: InstrumentId)
    | Everything
    | OfStrategy(owner: StrategyId)
    | ChildrenOf(leg: LegId)

  predicate Covers(scope: Scope, o: OrderState) {
    match scope
    case PlainOrders(strategy, instrument) => InScope(o, strategy, instrument)
    case Everything => true
    case OfStrategy(strategy) => o.strategy == strategy
    case ChildrenOf(leg) => o.parentLeg == Some(leg)
  }

  /** Tries to cancel every order from position `k` on that the scope covers. */
  function CancelFrom(s: Oms, scope: Scope, k: nat, now: int): (r: Oms)
    ensures |r.orders| == |s.orders|
    decreases |s.orders| - k
  {
    if k >= |s.orders| then s
    else CancelFrom(if Covers(scope, s.orders[k]) then CancelOrder(s, k, now) else s, scope, k + 1, now)
  }

  function CancelScope(s: Oms, scope: Scope, now: int): Oms { CancelFrom(s, scope, 0, now) }

  // ----- Sliced legs -----

  function Retire(s: Oms, leg: LegId): Oms {
    s.(algoKeys := Without(s.algoKeys, leg), algos := s.algos - {leg}, algoCtx := s.algoCtx - {leg})
  }

  predicate HasLiveChildren(orders: seq<OrderState>, leg: LegId) {
    exists i :: 0 <= i < |orders| && orders[i].parentLeg == Some(leg) && !orders[i].Terminal()
  }

  function RetireIfFinished(s: Oms, leg: LegId): Oms {
    if leg in s.algos && Done(s.algos[leg]) && !HasLiveChildren(s.orders, leg) then Retire(s, leg) else s
  }

  function SubmitChild(s: Oms, leg: LegId, price: Option<Price>, quantity: Quantity): Oms {
    if leg !in s.algoCtx then s
    else
      var ctx := s.algoCtx[leg];
      PlaceOrder(s, ctx.strategy, ctx.instrument, ctx.leg.side, price, quantity, Some(leg))
  }

  /** `_drive_algo`: ask for a slice, submit it, retire the algorithm when finished. */
  function DriveAlgo(s: Oms, leg: LegId, now: int): Oms {
    if leg !in s.algos then s
    else
      var (algo, slice) := NextSlice(s.algos[leg], now);
      var s1 := s.(algos := s.algos[leg := algo]);
      RetireIfFinished(if slice.Some? then SubmitChild(s1, leg, algo.price, slice.value) else s1, leg)
  }

  function DriveAll(s: Oms, keys: seq<LegId>, now: int): Oms
    decreases |keys|
  {
    if keys == [] then s else DriveAll(DriveAlgo(s, keys[0], now), keys[1..], now)
  }

  /** Retires the scope's algorithms whose leg is no longer desired, and cancels their children. */
  function Withdraw(s: Oms, keys: seq<LegId>, sig: Signal, desired: set<LegId>, now: int): Oms
    decreases |keys|
  {
    if keys == [] then s
    else
      var leg := keys[0];
      var s1 :=
        if leg in s.algoCtx && s.algoCtx[leg].strategy == sig.strategy
           && s.algoCtx[leg].instrument == sig.instrument && leg !in desired
        then CancelScope(Retire(s, leg), ChildrenOf(leg), now)
        else s;
      Withdraw(s1, keys[1..], sig, desired, now)
  }

  datatype SlicedLeg = SlicedLeg(leg: Leg, algo: Algo)

  /** A known leg resumes its running algorithm with the latest terms; a new one starts. */
  function StartOrResume(s: Oms, sig: Signal, sliced: SlicedLeg, now: int): Oms {
    var leg := sliced.leg.id;
    if leg in s.algos then
      s.(algoCtx := s.algoCtx[leg := AlgoCtx(sig.strategy, sig.instrument, sliced.leg,
                                             if leg in s.algoCtx then s.algoCtx[leg].since else |s.sent|)])
    else
      DriveAlgo(s.(algoKeys := s.algoKeys + [leg], algos := s.algos[leg := sliced.algo],
                   algoCtx := s.algoCtx[leg := AlgoCtx(sig.strategy, sig.instrument, sliced.leg, |s.sent|)]),
                leg, now)
  }

  function StartAll(s: Oms, sig: Signal, sliced: seq<SlicedLeg>, now: int): Oms
    decreases |sliced|
  {
    if sliced == [] then s else StartAll(StartOrResume(s, sig, sliced[0], now), sig, sliced[1..], now)
  }

  function ReconcileSliced(s: Oms, sig: Signal, sliced: seq<SlicedLeg>, now: int): Oms {
    var desired := set l | l in sliced :: l.leg.id;
    StartAll(Withdraw(s, s.algoKeys, sig, desired, now), sig, sliced, now)
  }

  // ----- Signals and risk decisions -----

  /** The router: `None` for a leg placed directly, otherwise the algorithm to slice it. */
  type Router = Leg -> Option<Algo>

  function ImmediateLegs(legs: seq<Leg>, route: Router): seq<Leg> {
    if legs == [] then []
    else (if route(legs[0]).None? then [legs[0]] else []) + ImmediateLegs(legs[1..], route)
  }

  function SlicedLegs(legs: seq<Leg>, route: Router): seq<SlicedLeg> {
    if legs == [] then []
    else (if route(legs[0]).Some? then [SlicedLeg(legs[0], route(legs[0]).value)] else [])
         + SlicedLegs(legs[1..], route)
  }

  /** `_reconcile_quotes`. */
  function Reconcile(cfg: Config, s: Oms, sig: Signal, route: Router, now: int): Oms {
    ReconcileSliced(ReconcileImmediate(cfg, s, sig, ImmediateLegs(sig.legs, route), now),
                    sig, SlicedLegs(sig.legs, route), now)
  }

  /** Only the approved legs, at their approved sizes, in the signal's order. */
  function ApprovedLegs(legs: seq<Leg>, approved: map<LegId, Quantity>): seq<Leg> {
    if legs == [] then []
    else (if legs[0].id in approved then [legs[0].(quantity := approved[legs[0].id])] else [])
         + ApprovedLegs(legs[1..], approved)
  }

  /** `_on_risk_decision`: `verdict` is `None` for a rejected signal. */
  function DecideSignal(cfg: Config, s: Oms, id: SignalId, verdict: Option<map<LegId, Quantity>>,
                        route: Router, now: int): Oms
  {
    if id !in s.signals then s
    else
      var sig := s.signals[id];
      var s1 := s.(signals := s.signals - {id});
      match verdict
      case None => CancelScope(s1, PlainOrders(sig.strategy, sig.instrument), now)
      case Some(approved) => Reconcile(cfg, s1, sig.(legs := ApprovedLegs(sig.legs, approved)), route, now)
  }

  // ----- Venue responses -----

  function Respond(s: Oms, id: OrderId, r: Response): Oms {
    if id < |s.orders| then Put(s, id, Handled(s.orders[id], r)) else s
  }

  /** `_on_fill`, including the owning algorithm's retirement. */
  function OnFill(s: Oms, id: OrderId, f: Fill): Oms {
    if id >= |s.orders| then s
    else
      var o := s.orders[id];
      var s1 := Put(s, id, Filling(o, f));
      if o.Terminal() || f.id in o.applied || o.parentLeg.None? then s1
      else RetireIfFinished(s1, o.parentLeg.value)
  }

  // ----- Timer -----

  function SweepOrders(orders: seq<OrderState>, now: int, timeout: int): seq<OrderState> {
    seq(|orders|, i requires 0 <= i < |orders| => Swept(orders[i], now, timeout))
  }

  /** `_sweep_stale_pending_amends`, at most once a second. */
  function Sweep(cfg: Config, s: Oms, now: int): Oms {
    if now - s.lastSweep < NS_PER_SECOND then s
    else s.(lastSweep := now, orders := SweepOrders(s.orders, now, cfg.amendTimeout))
  }

  /** One wake-up of the driver task. */
  function DriverWake(cfg: Config, s: Oms, now: int): Oms {
    Sweep(cfg, DriveAll(s, s.algoKeys, now), now)
  }

  // ----- Operator actions -----

  function RetireAll(s: Oms, keys: seq<LegId>): Oms
    decreases |keys|
  {
    if keys == [] then s else RetireAll(Retire(s, keys[0]), keys[1..])
  }

  /** Kill switch: tear down every algorithm, then cancel everything. */
  function KillAll(s: Oms, now: int): Oms {
    CancelScope(RetireAll(s, s.algoKeys), Everything, now)
  }

  function StrategyLegs(keys: seq<LegId>, orders: seq<OrderState>, strategy: StrategyId): seq<LegId> {
    if keys == [] then []
    else (if exists i :: 0 <= i < |orders| && orders[i].strategy == strategy && orders[i].parentLeg == Some(keys[0])
          then [keys[0]] else [])
         + StrategyLegs(keys[1..], orders, strategy)
  }

  /** `cancel_strategy_orders`. */
  function CancelStrategy(s: Oms, strategy: StrategyId, now: int): Oms {
    CancelScope(RetireAll(s, StrategyLegs(s.algoKeys, s.orders, strategy)), OfStrategy(strategy), now)
  }

  // ----- Venue state taken over at start-up and on resync -----

  datatype VenueOrder = VenueOrder(coid: ClientOrderId, instrument: InstrumentId, side: Side, quantity: Quantity,
                                   filled: Quantity, price: Option<Price>, exchangeId: Option<ExchangeId>)

  function Owner(coid: ClientOrderId): StrategyId {
    match coid
    case Minted(strategy, _) => strategy
    case Foreign(_, owner) => owner
  }

  function Refreshed(o: OrderState, v: VenueOrder): OrderState {
    if o.Terminal() then o
    else o.(filled := if v.filled > o.filled then v.filled else o.filled,
            quantity := v.quantity,
            price := if v.price.Some? then v.price else o.price)
  }

  /** `adopt_order`: idempotent on the client order id. */
  function Adopt(s: Oms, v: VenueOrder): Oms {
    if v.coid in s.coids then
      var id := s.coids[v.coid];
      if id < |s.orders| then Put(s, id, Refreshed(s.orders[id], v)) else s
    else
      var id := |s.orders|;
      var o := FreshOrder(id, v.coid, Owner(v.coid), v.instrument, v.side, None, v.quantity, v.price)
        .(status := if v.filled > 0.0 then PartiallyFilled else Acknowledged,
          filled := v.filled, exchangeId := v.exchangeId);
      s.(orders := s.orders + [o], coids := s.coids[v.coid := id],
         sent := if v.exchangeId.Some? then s.sent + [OrderAdopted(id)] else s.sent)
  }

  function Terminalized(o: OrderState, status: OrderStatus, filled: Option<Quantity>, now: int): OrderState {
    if o.Terminal() || !IsTerminal(status) then o
    else Moved(o.(filled := if filled.Some? && filled.value > o.filled then filled.value else o.filled), status, now)
  }

  /** `terminalize_from_venue`. */
  function TerminalizeFromVenue(s: Oms, id: OrderId, status: OrderStatus, filled: Option<Quantity>, now: int): Oms {
    if id < |s.orders| then Put(s, id, Terminalized(s.orders[id], status, filled, now)) else s
  }

  // ----- Runs -----

  datatype Event =
    | SignalArrives(signal: Signal)
    | SignalsEvicted(ids: set<SignalId>)
    | DecisionArrives(id: SignalId, verdict: Option<map<LegId, Quantity>>, route: Router, now: int)
    | ResponseArrives(order: OrderId, response: Response)
    | FillArrives(order: OrderId, fill: Fill)
    | DriverWakes(now: int)
    | KillSwitch(now: int)
    | StrategyPaused(strategy: StrategyId, now: int)
    | OperatorCancels(order: OrderId, now: int)
    | VenueOrderAdopted(report: VenueOrder)
    | VenueTerminalizes(order: OrderId, status: OrderStatus, filled: Option<Quantity>, now: int)

  function Step(cfg: Config, s: Oms, e: Event): Oms {
    match e
    case SignalArrives(sig) => s.(signals := s.signals[sig.id := sig])
    case SignalsEvicted(ids) => s.(signals := s.signals - ids)
    case DecisionArrives(id, verdict, route, now) => DecideSignal(cfg, s, id, verdict, route, now)
    case ResponseArrives(id, r) => Respond(s, id, r)
    case FillArrives(id, f) => OnFill(s, id, f)
    case DriverWakes(now) => DriverWake(cfg, s, now)
    case KillSwitch(now) => KillAll(s, now)
    case StrategyPaused(strategy, now) => CancelStrategy(s, strategy, now)
    case OperatorCancels(id, now) => CancelOrder(s, id, now)
    case VenueOrderAdopted(v) => Adopt(s, v)
    case VenueTerminalizes(id, status, filled, now) => TerminalizeFromVenue(s, id, status, filled, now)
  }

  function Run(cfg: Config, s: Oms, es: seq<Event>): Oms {
    if es == [] then s else Step(cfg, Run(cfg, s, es[..|es| - 1]), es[|es| - 1])
  }

  /** What the environment is trusted for: fills have positive quantities, the router
      hands out unstarted algorithms, and a client order id read off the venue that
      this process does not know was not minted by it. */
  ghost predicate Admissible(s: Oms, e: Event) {
    match e
    case FillArrives(_, f) => f.quantity > 0.0
    case DecisionArrives(_, _, route, _) => forall leg :: route(leg).Some? ==> route(leg).value.sent == 0
    case VenueOrderAdopted(v) => v.coid in s.coids || v.coid.Foreign?
    case _ => true
  }

  ghost predicate AdmissibleRun(cfg: Config, s: Oms, es: seq<Event>) {
    forall k :: 0 <= k < |es| ==> Admissible(Run(cfg, s, es[..k]), es[k])
  }
}
