/** One order as the OMS sees it: the mutable record, the pure functions that
    specify its mutators, and the venue-response handlers acting on one order. */
module Orders {
  import opened Types
  import opened StateMachine

  datatype Amend = Amend(price: Option<Price>, quantity: Quantity)

  /** The value of an `Order` object at one moment. */
  datatype OrderState = OrderState(
    id: OrderId,
    coid: ClientOrderId,
    strategy: StrategyId,
    instrument: InstrumentId,
    side: Side,
    parentLeg: Option<LegId>,
    quantity: Quantity,
    price: Option<Price>,
    status: OrderStatus,
    exchangeId: Option<ExchangeId>,
    filled: Quantity,
    average: Price,
    lastUpdate: int,
    applied: set<FillId>,
    pendingAmend: Option<Amend>
  ) {
    function Leaves(): Quantity { quantity - filled }

    predicate Terminal() { IsTerminal(status) }
  }

  function FreshOrder(id: OrderId, coid: ClientOrderId, strategy: StrategyId, instrument: InstrumentId,
                      side: Side, parentLeg: Option<LegId>, quantity: Quantity, price: Option<Price>): OrderState
  {
    OrderState(id, coid, strategy, instrument, side, parentLeg, quantity, price,
               PendingNew, None, 0.0, 0.0, 0, {}, None)
  }

  // ----- Specification of the mutators -----

  /** `transition_to` when legal; where the source raises, the order is unchanged
      (every caller in the engine catches the exception and leaves the status alone). */
  function Moved(o: OrderState, to: OrderStatus, at: int): OrderState {
    if Legal(o.status, to) then o.(status := to, lastUpdate := at) else o
  }

  /** `record_fill`: accounting only, duplicates ignored. */
  function Recorded(o: OrderState, f: Fill): OrderState {
    if f.id in o.applied then o
    else o.(applied := o.applied + {f.id}, filled := o.filled + f.quantity, average := Averaged(o.average, o.filled, f))
  }

  /** The average price once a fill joins `filled` at `average`. */
  function Averaged(average: Price, filled: Quantity, f: Fill): Price {
    var newQuantity := filled + f.quantity;
    if newQuantity > 0.0 then (average * filled + f.price * f.quantity) / newQuantity else average
  }

  /** `apply_fill`: accounting, then PARTIALLY_FILLED or FILLED. */
  function Applied(o: OrderState, f: Fill): OrderState {
    if f.id in o.applied then o
    else
      var r := Recorded(o, f);
      Moved(r, if r.Leaves() == 0.0 then Filled else PartiallyFilled, f.tsEvent)
  }

  class Order {
    const id: OrderId
    const coid: ClientOrderId
    const strategy: StrategyId
    const instrument: InstrumentId
    const side: Side
    const parentLeg: Option<LegId>
    var quantity: Quantity
    var price: Option<Price>
    var status: OrderStatus
    var exchangeId: Option<ExchangeId>
    var filled: Quantity
    var average: Price
    var lastUpdate: int
    var applied: set<FillId>
    var pendingAmend: Option<Amend>

    ghost function View(): OrderState
      reads this
    {
      OrderState(id, coid, strategy, instrument, side, parentLeg, quantity, price, status,
                 exchangeId, filled, average, lastUpdate, applied, pendingAmend)
    }

    constructor (id: OrderId, coid: ClientOrderId, strategy: StrategyId, instrument: InstrumentId,
                 side: Side, parentLeg: Option<LegId>, quantity: Quantity, price: Option<Price>)
      ensures View() == FreshOrder(id, coid, strategy, instrument, side, parentLeg, quantity, price)
    {
      this.id, this.coid, this.strategy, this.instrument := id, coid, strategy, instrument;
      this.side, this.parentLeg, this.quantity, this.price := side, parentLeg, quantity, price;
      status, exchangeId, filled, average := PendingNew, None, 0.0, 0.0;
      lastUpdate, applied, pendingAmend := 0, {}, None;
    }

    function LeavesQuantity(): Quantity
      reads this
    {
      quantity - filled
    }

    /** Returns false, and changes nothing, where the source raises. */
    method TransitionTo(to: OrderStatus, at: int) returns (ok: bool)
      modifies this
      ensures ok == Legal(old(status), to)
      ensures View() == Moved(old(View()), to, at)
    {
      ok := Legal(status, to);
      if ok {
        status, lastUpdate := to, at;
      }
    }

    method RecordFill(f: Fill) returns (isNew: bool)
      modifies this
      ensures isNew == (f.id !in old(applied))
      ensures View() == Recorded(old(View()), f)
    {
      if f.id in applied {
        return false;
      }
      applied := applied + {f.id};
      average := Averaged(average, filled, f);
      filled := filled + f.quantity;
      return true;
    }

    /** On a live order the transition never raises: the two possible targets are
        legal from every non-terminal status. */
    method ApplyFill(f: Fill) returns (isNew: bool)
      requires !IsTerminal(status)
      modifies this
      ensures isNew == (f.id !in old(applied))
      ensures View() == Applied(old(View()), f)
      ensures isNew ==> status == if LeavesQuantity() == 0.0 then Filled else PartiallyFilled
    {
      isNew := RecordFill(f);
      if isNew {
        var next := if LeavesQuantity() == 0.0 then Filled else PartiallyFilled;
        LiveOrdersAcceptVenueFate(status);
        var ok := TransitionTo(next, f.tsEvent);
        assert ok;
      }
    }
  }

  // ----- Handlers: what one message does to the order it names -----

  datatype Response =
    | Ack(exchangeId: ExchangeId, ts: int)
    | Reject(ts: int)
    | CancelDone(ts: int)
    | CancelRejected(ts: int)
    | AmendRejected(now: int)
    | Amended(newPrice: Option<Price>, newQuantity: Option<Quantity>, newExchangeId: Option<ExchangeId>, ts: int)

  function AfterAmendRejected(o: OrderState, now: int): OrderState {
    var o1 := o.(pendingAmend := None);
    Moved(o1, if o1.Leaves() == 0.0 then Filled else Acknowledged, now)
  }

  function AfterAmended(o: OrderState, price: Option<Price>, quantity: Option<Quantity>,
                        exchangeId: Option<ExchangeId>, ts: int): OrderState
  {
    if o.status == PendingCancel || !Legal(o.status, Acknowledged) then o.(pendingAmend := None)
    else
      Moved(o, Acknowledged, ts).(
        price := if price.Some? then price
                 else if o.pendingAmend.Some? then o.pendingAmend.value.price else o.price,
        quantity := if quantity.Some? then quantity.value
                    else if o.pendingAmend.Some? then o.pendingAmend.value.quantity else o.quantity,
        pendingAmend := None,
        exchangeId := if exchangeId.Some? then exchangeId else o.exchangeId)
  }

  /** The order after the OMS has handled one gateway response for it. */
  function Handled(o: OrderState, r: Response): OrderState {
    match r
    case Ack(exchangeId, ts) =>
      if Legal(o.status, Acknowledged)
      then Moved(o, Acknowledged, ts).(exchangeId := Some(exchangeId))
      else o
    case Reject(ts) => Moved(o, Rejected, ts)
    case CancelDone(ts) => Moved(o, Cancelled, ts)
    case CancelRejected(ts) => Moved(o, Acknowledged, ts)
    case AmendRejected(now) => AfterAmendRejected(o, now)
    case Amended(price, quantity, exchangeId, ts) => AfterAmended(o, price, quantity, exchangeId, ts)
  }

  /** `_on_fill`: a fill on a terminal order is recorded, never a transition. */
  function Filling(o: OrderState, f: Fill): OrderState {
    if o.Terminal() then Recorded(o, f) else Applied(o, f)
  }

  /** `cancel_order` on a known order; the request goes out iff the move is legal. */
  function CancelSent(o: OrderState, now: int): OrderState {
    Moved(o, PendingCancel, now)
  }

  predicate SendsCancel(o: OrderState) { Legal(o.status, PendingCancel) }

  /** `_amend_quote`; the request goes out iff the move is legal. */
  function AmendSent(o: OrderState, amend: Amend, now: int): OrderState {
    if Legal(o.status, PendingAmend)
    then Moved(o, PendingAmend, now).(pendingAmend := Some(amend))
    else o
  }

  predicate SendsAmend(o: OrderState) { Legal(o.status, PendingAmend) }

  predicate Overdue(o: OrderState, now: int, timeout: int) {
    o.status == PendingAmend && now - o.lastUpdate >= timeout
  }

  /** One order of `_sweep_stale_pending_amends`. */
  function Swept(o: OrderState, now: int, timeout: int): OrderState {
    if Overdue(o, now, timeout) then AfterAmendRejected(o, now) else o
  }

  // ----- The handlers, status by status -----

  /** What a gateway response does: an order that waits is moved on and takes over what the
      response carries; one that does not is left alone. */
  lemma {:induction false} ResponseEffect(o: OrderState, r: Response)
    ensures var o' := Handled(o, r);
            match r
            case Ack(exchangeId, ts) =>
              o' == if o.status in {PendingNew, PendingCancel, PendingAmend}
                    then o.(status := Acknowledged, exchangeId := Some(exchangeId), lastUpdate := ts) else o
            case Reject(ts) =>
              o' == if o.status in {PendingNew, PendingAmend} then o.(status := Rejected, lastUpdate := ts) else o
            case CancelDone(ts) =>
              o' == if o.status in {Filled, Cancelled, Rejected, Expired} then o else o.(status := Cancelled, lastUpdate := ts)
            case CancelRejected(ts) =>
              o' == if o.status in {PendingNew, PendingCancel, PendingAmend}
                    then o.(status := Acknowledged, lastUpdate := ts) else o
            case AmendRejected(now) =>
              o' == if o.filled == o.quantity && o.status !in {Filled, Cancelled, Rejected, Expired}
                    then o.(status := Filled, lastUpdate := now, pendingAmend := None)
                    else if o.filled != o.quantity && o.status in {PendingNew, PendingCancel, PendingAmend}
                    then o.(status := Acknowledged, lastUpdate := now, pendingAmend := None)
                    else o.(pendingAmend := None)
            case Amended(price, quantity, exchangeId, ts) =>
              if o.status in {PendingNew, PendingAmend} then
                && o'.status == Acknowledged && o'.lastUpdate == ts && o'.pendingAmend.None?
                && (price.Some? ==> o'.price == price) && (quantity.Some? ==> o'.quantity == quantity.value)
                && (exchangeId.Some? ==> o'.exchangeId == exchangeId) && (exchangeId.None? ==> o'.exchangeId == o.exchangeId)
                && (price.None? ==> o'.price == if o.pendingAmend.Some? then o.pendingAmend.value.price else o.price)
                && (quantity.None? ==> o'.quantity == if o.pendingAmend.Some? then o.pendingAmend.value.quantity else o.quantity)
              else o' == o.(pendingAmend := None)
  {
  }

  /** A fill counts once. On a live order it fills it or fills it in part, whatever the order
      was waiting for; on a finished one it is only accounted for. */
  lemma {:induction false} FillEffect(o: OrderState, f: Fill)
    ensures var o' := Filling(o, f);
            if f.id in o.applied then o' == o
            else
              && o'.filled == o.filled + f.quantity && o'.applied == o.applied + {f.id}
              && (o'.filled > 0.0 ==> o'.average * o'.filled == o.average * o.filled + f.price * f.quantity)
              && o'.status == (if o.status in {Filled, Cancelled, Rejected, Expired} then o.status
                               else if o'.filled == o.quantity then Filled else PartiallyFilled)
              && o'.quantity == o.quantity && o'.price == o.price && o'.pendingAmend == o.pendingAmend
              && o'.lastUpdate == if o.status in {Filled, Cancelled, Rejected, Expired} then o.lastUpdate else f.tsEvent
  {
    LiveOrdersAcceptVenueFate(o.status);
  }

  // ----- What every handler keeps -----

  /** One step in the life of an order: identity is fixed, the status stays or moves
      along the table, a terminal order keeps its status and terms for ever, fills are
      never forgotten. */
  ghost predicate Evolves(o: OrderState, o': OrderState) {
    && o'.id == o.id && o'.coid == o.coid && o'.strategy == o.strategy
    && o'.instrument == o.instrument && o'.side == o.side && o'.parentLeg == o.parentLeg
    && (o'.status == o.status || Legal(o.status, o'.status))
    && (o.Terminal() ==> o'.status == o.status && o'.quantity == o.quantity && o'.price == o.price)
    && o'.filled >= o.filled
    && o'.applied >= o.applied
  }

  /** An order waiting for an amend remembers what it asked for. */
  predicate AmendTracked(o: OrderState) {
    o.status == PendingAmend ==> o.pendingAmend.Some?
  }

  /** A filled order has nothing left. */
  predicate FilledDone(o: OrderState) {
    o.status == Filled ==> o.Leaves() <= 0.0
  }

  lemma {:induction false} MovedEvolves(o: OrderState, to: OrderStatus, at: int)
    ensures Evolves(o, Moved(o, to, at))
    ensures AmendTracked(o) && to != PendingAmend ==> AmendTracked(Moved(o, to, at))
    ensures FilledDone(o) && (to == Filled ==> o.Leaves() <= 0.0) ==> FilledDone(Moved(o, to, at))
  {
  }

  lemma {:induction false} ResponseEvolves(o: OrderState, r: Response)
    ensures Evolves(o, Handled(o, r))
    ensures AmendTracked(o) ==> AmendTracked(Handled(o, r))
    ensures FilledDone(o) ==> FilledDone(Handled(o, r))
  {
    match r
    case Ack(_, ts) => MovedEvolves(o, Acknowledged, ts);
    case Reject(ts) => MovedEvolves(o, Rejected, ts);
    case CancelDone(ts) => MovedEvolves(o, Cancelled, ts);
    case CancelRejected(ts) => MovedEvolves(o, Acknowledged, ts);
    case AmendRejected(now) => AmendRejectedEvolves(o, now);
    case Amended(_, _, _, ts) => MovedEvolves(o, Acknowledged, ts);
  }

  lemma {:induction false} AmendRejectedEvolves(o: OrderState, now: int)
    ensures Evolves(o, AfterAmendRejected(o, now))
    ensures AmendTracked(o) ==> AmendTracked(AfterAmendRejected(o, now))
    ensures FilledDone(o) ==> FilledDone(AfterAmendRejected(o, now))
  {
    var o1 := o.(pendingAmend := None);
    MovedEvolves(o1, if o1.Leaves() == 0.0 then Filled else Acknowledged, now);
  }

  lemma {:induction false} FillEvolves(o: OrderState, f: Fill)
    requires f.quantity > 0.0
    ensures Evolves(o, Filling(o, f))
    ensures AmendTracked(o) ==> AmendTracked(Filling(o, f))
    ensures FilledDone(o) ==> FilledDone(Filling(o, f))
  {
    var r := Recorded(o, f);
    MovedEvolves(r, if r.Leaves() == 0.0 then Filled else PartiallyFilled, f.tsEvent);
    LiveOrdersAcceptVenueFate(o.status);
  }

  lemma {:induction false} RequestEvolves(o: OrderState, amend: Amend, now: int)
    ensures Evolves(o, CancelSent(o, now)) && Evolves(o, AmendSent(o, amend, now))
    ensures AmendTracked(o) ==> AmendTracked(CancelSent(o, now)) && AmendTracked(AmendSent(o, amend, now))
    ensures FilledDone(o) ==> FilledDone(CancelSent(o, now)) && FilledDone(AmendSent(o, amend, now))
  {
    MovedEvolves(o, PendingCancel, now);
    MovedEvolves(o, PendingAmend, now);
  }

  lemma {:induction false} SweptEvolves(o: OrderState, now: int, timeout: int)
    ensures Evolves(o, Swept(o, now, timeout))
    ensures AmendTracked(o) ==> AmendTracked(Swept(o, now, timeout))
    ensures FilledDone(o) ==> FilledDone(Swept(o, now, timeout))
  {
    AmendRejectedEvolves(o, now);
  }
}
