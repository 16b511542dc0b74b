/** Which orders the simulated venue rests, which it fills at once, and at what prices. */
module BacktestPrices {
  import opened Types
  import opened BacktestMatching

  /** The request is for this venue and is not refused at random. */
  predicate Admitted(cfg: Config, r: Request, gate: real) {
    r.exchange == cfg.venue && (cfg.rejectProbability <= 0.0 || gate >= cfg.rejectProbability)
  }

  /** The limit stays on its own side of the best opposite price, as far as that is known. */
  predicate StaysOut(v: Venue, r: Request)
    requires r.price.Some?
  {
    r.instrument in v.tops ==>
      match r.side
      case Buy => r.price.value < v.tops[r.instrument].ask
      case Sell => v.tops[r.instrument].bid < r.price.value
  }

  predicate HasFill(es: seq<Emission>) { exists e :: e in es && e.message.FillReport? }

  // ----- Who rests -----

  /** A priced order that may rest does so exactly when it stays out of the market, without a
      fill. If it does not, a post-only order is refused and any other is acknowledged and
      taken at once. */
  lemma {:induction false} RestsIffStaysOut(v: Venue, cfg: Config, r: Request, gate: real, d: Draw)
    requires Admitted(cfg, r, gate) && r.price.Some? && r.kind !in {Market, Ioc, Fok} && r.id !in v.orders
    ensures var (v', es) := Handle(v, cfg, OrderArrives(r, gate, d));
            && (r.id in v'.orders <==> StaysOut(v, r))
            && (if StaysOut(v, r) then
                  && v'.keys == v.keys + [r.id]
                  && v'.orders == v.orders[r.id := RestingOrder(r.id, r.instrument, r.side, r.quantity, r.price.value, r.quantity)]
                  && es == [Emission(cfg.submitAckMs, Acknowledgement(r.id))]
                else if r.kind.PostOnly? then v' == v && es == [Emission(cfg.submitAckMs, Rejection(r.id, PostOnlyCross))]
                else v' == v && es != [] && es[0] == Emission(cfg.submitAckMs, Acknowledgement(r.id)))
            && (r.kind.PostOnly? ==> !HasFill(es))
  {
  }

  /** A market, immediate-or-cancel or fill-or-kill order never rests; it is refused only when
      there is neither a market nor a price of its own to fill it at. */
  lemma {:induction false} TakersNeverRest(v: Venue, cfg: Config, r: Request, gate: real, d: Draw)
    requires Admitted(cfg, r, gate) && r.kind in {Market, Ioc, Fok} && r.quantity > 0.0 && SafeSplits(cfg) && Fair(cfg, d)
    ensures var (v', es) := Handle(v, cfg, OrderArrives(r, gate, d));
            && v' == v && es != [] && es[0] == Emission(cfg.submitAckMs, Acknowledgement(r.id))
            && (r.instrument !in v.tops && r.price.None? ==> es[1..] == [Emission(cfg.submitAckMs, Rejection(r.id, NoMarketData))])
            && (r.instrument in v.tops || r.price.Some? ==> WholeFill(cfg, es[1..], r.id, r.quantity))
  {
    var ack := [Emission(cfg.submitAckMs, Acknowledgement(r.id))];
    var fills := FillMarket(v, cfg, r, d);
    assert (ack + fills)[1..] == fills;
    if r.instrument in v.tops || r.price.Some? {
      var price := TakerPrice(v, cfg, r).value;
      TakerFillsAreWhole(cfg, r, cfg.rounded(r.instrument, price), cfg.submitAckMs + cfg.fillMs, d);
    }
  }

  lemma {:induction false} RefusedAtRandom(v: Venue, cfg: Config, r: Request, gate: real, d: Draw)
    requires !Admitted(cfg, r, gate)
    ensures Handle(v, cfg, OrderArrives(r, gate, d)) ==
            (v, if r.exchange == cfg.venue then [Emission(cfg.submitAckMs, Rejection(r.id, Simulated))] else [])
  {
  }

  // ----- At what price -----

  /** The best opposite price, made worse by the slippage; without a market, the order's own. */
  predicate IsTakerFill(v: Venue, cfg: Config, r: Request, e: Emission) {
    var m := e.message;
    && m.FillReport? && m.id == r.id && m.side == r.side && !m.isMaker && m.quantity > 0.0
    && (e.delayMs == cfg.submitAckMs + cfg.fillMs || e.delayMs == cfg.submitAckMs + cfg.fillMs + cfg.fillMs)
    && (if r.instrument in v.tops then
          m.price == cfg.rounded(r.instrument, match r.side
                                               case Buy => v.tops[r.instrument].ask + cfg.slippage(r.instrument)
                                               case Sell => v.tops[r.instrument].bid - cfg.slippage(r.instrument))
        else r.price.Some? && m.price == cfg.rounded(r.instrument, r.price.value))
  }

  lemma {:induction false} TakerFillsArePriced(v: Venue, cfg: Config, r: Request, gate: real, d: Draw)
    ensures forall e :: e in Handle(v, cfg, OrderArrives(r, gate, d)).1 && e.message.FillReport? ==> IsTakerFill(v, cfg, r, e)
  {
    var es := Handle(v, cfg, OrderArrives(r, gate, d)).1;
    if r.exchange == cfg.venue && TakerPrice(v, cfg, r).Some? {
      var price := cfg.rounded(r.instrument, TakerPrice(v, cfg, r).value);
      forall e | e in TakerFills(cfg, r, price, cfg.submitAckMs + cfg.fillMs, d) ensures IsTakerFill(v, cfg, r, e) {
      }
    }
  }

  predicate NoWorse(side: Side, price: Price, limit: Price) {
    match side
    case Buy => price <= limit
    case Sell => price >= limit
  }

  /** Rounding to the tick never moves the price of a fill against the order. */
  ghost predicate RoundsFairly(cfg: Config, side: Side) {
    forall i, p :: NoWorse(side, cfg.rounded(i, p), p)
  }

  lemma {:induction false} FilledOnArrivalCrosses(v: Venue, cfg: Config, r: Request, gate: real, d: Draw)
    requires r.price.Some? && r.kind !in {Market, Ioc, Fok}
    ensures HasFill(Handle(v, cfg, OrderArrives(r, gate, d)).1) ==> r.instrument in v.tops && !StaysOut(v, r)
  {
  }

  lemma {:induction false} CrossingFillIsNoWorse(v: Venue, cfg: Config, r: Request, e: Emission)
    requires r.price.Some? && r.instrument in v.tops && !StaysOut(v, r) && IsTakerFill(v, cfg, r, e)
    requires cfg.slippage(r.instrument) == 0.0 && RoundsFairly(cfg, r.side)
    ensures NoWorse(r.side, e.message.price, r.price.value)
  {
    var top := v.tops[r.instrument];
    var best := if r.side.Buy? then top.ask else top.bid;
    assert NoWorse(r.side, cfg.rounded(r.instrument, best), best);
  }

  /** An order that could have rested is never filled on arrival at a price worse than its
      limit, given no slippage and fair rounding. */
  lemma {:induction false} LimitIsHonoured(v: Venue, cfg: Config, r: Request, gate: real, d: Draw)
    requires r.price.Some? && r.kind !in {Market, Ioc, Fok} && cfg.slippage(r.instrument) == 0.0 && RoundsFairly(cfg, r.side)
    ensures forall e :: e in Handle(v, cfg, OrderArrives(r, gate, d)).1 && e.message.FillReport? ==>
              NoWorse(r.side, e.message.price, r.price.value)
  {
    TakerFillsArePriced(v, cfg, r, gate, d);
    FilledOnArrivalCrosses(v, cfg, r, gate, d);
    var es := Handle(v, cfg, OrderArrives(r, gate, d)).1;
    forall e | e in es && e.message.FillReport? ensures NoWorse(r.side, e.message.price, r.price.value) {
      assert HasFill(es);
      CrossingFillIsNoWorse(v, cfg, r, e);
    }
  }

  function Plain(slippage: Price): Config {
    Config("sim", 0.0, 0.0, 0.0, 0.0, 0.0, (_: InstrumentId) => slippage, (_: InstrumentId, p: Price) => p, 0.0)
  }

  /** An immediate-or-cancel order ignores its limit: a buy limited to 99 is filled at 100. */
  lemma {:induction false} ImmediateOrderIgnoresItsLimit(d: Draw)
    ensures var v := EmptyVenue.(tops := map["BTC-USDT" := TopOfBook(98.0, 100.0)]);
            Handle(v, Plain(0.0), OrderArrives(Request(1, "sim", "BTC-USDT", Buy, Ioc, 2.0, Some(99.0)), 0.5, d)).1 ==
            [Emission(0.0, Acknowledgement(1)), Emission(0.0, FillReport(1, Buy, 100.0, 2.0, 2.0, 0.0, false))]
  {
  }

  /** And slippage may carry a limit order past its limit. */
  lemma {:induction false} SlippageMayPassTheLimit(d: Draw)
    ensures var v := EmptyVenue.(tops := map["BTC-USDT" := TopOfBook(98.0, 100.0)]);
            Handle(v, Plain(0.5), OrderArrives(Request(1, "sim", "BTC-USDT", Buy, Limit, 2.0, Some(100.0)), 0.5, d)).1 ==
            [Emission(0.0, Acknowledgement(1)), Emission(0.0, FillReport(1, Buy, 100.5, 2.0, 2.0, 0.0, false))]
  {
  }

  // ----- What a trade fills -----

  /** A trade at `price` reaches a resting order at its own price or through it. */
  predicate Reaches(instrument: InstrumentId, price: Price, o: RestingOrder) {
    o.instrument == instrument && match o.side case Buy => price <= o.price case Sell => o.price <= price
  }

  /** A resting order reached by the trade, filled at its own price as maker. */
  predicate IsMakerFill(v: Venue, cfg: Config, instrument: InstrumentId, price: Price, e: Emission) {
    var m := e.message;
    && m.FillReport? && m.isMaker && m.quantity > 0.0 && m.id in v.orders
    && (e.delayMs == cfg.fillMs || e.delayMs == cfg.fillMs + cfg.fillMs)
    && var o := v.orders[m.id];
    m.side == o.side && m.price == o.price && Reaches(instrument, price, o)
  }

  /** Matching changes no order's terms but what is left of it. */
  predicate SamePrices(v: Venue, v': Venue) {
    forall id :: id in v'.orders ==>
      id in v.orders && v'.orders[id] == v.orders[id].(leaves := v'.orders[id].leaves)
  }

  lemma {:induction false} MatchOneFills(v: Venue, cfg: Config, x: OrderId, instrument: InstrumentId, price: Price, d: Draw)
    requires x in v.orders ==> v.orders[x].id == x
    ensures var (v', es) := MatchOne(v, cfg, x, instrument, price, d);
            SamePrices(v, v') && forall e :: e in es ==> IsMakerFill(v, cfg, instrument, price, e)
  {
  }

  lemma {:induction false} MatchAllFills(v: Venue, cfg: Config, keys: seq<OrderId>, k: nat, instrument: InstrumentId,
                                         price: Price, draws: nat -> Draw)
    requires k <= |keys| && forall id :: id in v.orders ==> v.orders[id].id == id
    ensures var (v', es) := MatchAll(v, cfg, keys, k, instrument, price, draws);
            SamePrices(v, v') && forall e :: e in es ==> IsMakerFill(v, cfg, instrument, price, e)
    decreases |keys| - k
  {
    if k < |keys| {
      MatchAllStep(v, cfg, keys, k, instrument, price, draws);
      MatchOneFills(v, cfg, keys[k], instrument, price, draws(k));
      var (v1, fills) := MatchOne(v, cfg, keys[k], instrument, price, draws(k));
      MatchAllFills(v1, cfg, keys, k + 1, instrument, price, draws);
      var (v2, more) := MatchAll(v1, cfg, keys, k + 1, instrument, price, draws);
      forall e | e in fills + more ensures IsMakerFill(v, cfg, instrument, price, e) {
        if e !in fills {
          assert IsMakerFill(v1, cfg, instrument, price, e);
        }
      }
    }
  }

  /** A trade fills only resting orders it reaches, each at its own price; and over any run,
      exactly those it reaches leave the book. */
  lemma {:induction false} TradeFillsWhatItReaches(cfg: Config, inputs: seq<Input>, instrument: InstrumentId, price: Price, draws: nat -> Draw)
    requires SafeSplits(cfg) && AdmissibleRun(cfg, inputs) && forall i: nat :: Fair(cfg, draws(i))
    ensures var v := After(cfg, inputs).venue;
            var (v', es) := Handle(v, cfg, TradeArrives(instrument, price, draws));
            && (forall e :: e in es ==> IsMakerFill(v, cfg, instrument, price, e))
            && (forall id :: id in v'.orders <==> id in v.orders && !Reaches(instrument, price, v.orders[id]))
            && (forall id :: id in v'.orders ==> v'.orders[id] == v.orders[id])
  {
    var h := After(cfg, inputs);
    EveryOrderIsAccountedFor(cfg, inputs);
    forall id | id in h.venue.orders ensures h.venue.orders[id].id == id {
      assert id in h.ledger;
    }
    MatchAllFills(h.venue, cfg, h.venue.keys, 0, instrument, price, draws);
    TradeTakesExactlyWhatItCrosses(h.venue, h.log, h.ledger, cfg, instrument, price, draws);
  }

  // ----- In how many parts -----

  /** The draw asks for two parts, and both are positive. */
  predicate SplitsInTwo(cfg: Config, d: Draw) {
    cfg.partialProbability > 0.0 && d.gate < cfg.partialProbability && cfg.partialMinFraction < 0.5 && 0.0 < d.fraction < 1.0
  }

  lemma {:induction false} PortionIsPart(q: Quantity, f: real)
    requires q > 0.0
    ensures Portion(q, f) > 0.0 <==> f > 0.0
    ensures q - Portion(q, f) > 0.0 <==> f < 1.0
    ensures f == 1.0 ==> Portion(q, f) == q
  {
    if f > 1.0 {
      assert Portion(q, f) == q + Portion(q, f - 1.0);
      assert Portion(q, f - 1.0) > 0.0;
    } else if f < 1.0 {
      assert Portion(q, 1.0 - f) == q - Portion(q, f);
      assert Portion(q, 1.0 - f) > 0.0;
    }
  }

  /** Reports of a quantity: two exactly when the draw says so, the first of the drawn
      fraction and after the first delay, the second of the rest and one delay later. */
  predicate ReportedInParts(cfg: Config, fills: seq<Emission>, q: Quantity, delayMs: real, d: Draw) {
    if SplitsInTwo(cfg, d) then
      && |fills| == 2 && fills[0].message.FillReport? && fills[1].message.FillReport?
      && fills[0].delayMs == delayMs && fills[0].message.quantity == q * d.fraction
      && fills[1].delayMs == delayMs + cfg.fillMs && fills[1].message.quantity == q - q * d.fraction
    else |fills| == 1 && fills[0].message.FillReport? && fills[0].delayMs == delayMs + LateBy(cfg, d) && fills[0].message.quantity == q
  }

  /** A drawn fraction of nothing leaves everything to the second report. */
  function LateBy(cfg: Config, d: Draw): real {
    if cfg.partialProbability > 0.0 && d.gate < cfg.partialProbability && cfg.partialMinFraction < 0.5 && d.fraction == 0.0
    then cfg.fillMs else 0.0
  }

  lemma {:induction false} TakerFillIsReportedInParts(cfg: Config, r: Request, price: Price, delayMs: real, d: Draw)
    requires r.quantity > 0.0 && SafeSplits(cfg) && Fair(cfg, d)
    ensures ReportedInParts(cfg, TakerFills(cfg, r, price, delayMs, d), r.quantity, delayMs, d)
  {
    PortionIsPart(r.quantity, d.fraction);
  }

  lemma {:induction false} MakerFillIsReportedInParts(cfg: Config, o: RestingOrder, d: Draw)
    requires o.leaves > 0.0 && SafeSplits(cfg) && Fair(cfg, d)
    ensures ReportedInParts(cfg, MakerFills(cfg, o, d).1, o.leaves, cfg.fillMs, d)
  {
    PortionIsPart(o.leaves, d.fraction);
  }

  // ----- Ticks, cancels and amends -----

  function LatestTick(inputs: seq<Input>, instrument: InstrumentId): Option<TopOfBook> {
    if inputs == [] then None
    else
      var last := inputs[|inputs| - 1];
      if last.TickArrives? && last.instrument == instrument then Some(last.top)
      else LatestTick(inputs[..|inputs| - 1], instrument)
  }

  lemma {:induction false} MatchAllKeepsTops(v: Venue, cfg: Config, keys: seq<OrderId>, k: nat, instrument: InstrumentId,
                                             price: Price, draws: nat -> Draw)
    requires k <= |keys|
    ensures MatchAll(v, cfg, keys, k, instrument, price, draws).0.tops == v.tops
    decreases |keys| - k
  {
    if k < |keys| {
      MatchAllKeepsTops(MatchOne(v, cfg, keys[k], instrument, price, draws(k)).0, cfg, keys, k + 1, instrument, price, draws);
    }
  }

  /** The market an order meets is the latest tick of its instrument. */
  lemma {:induction false} TopIsLatestTick(cfg: Config, inputs: seq<Input>, instrument: InstrumentId)
    ensures var tops := After(cfg, inputs).venue.tops;
            LatestTick(inputs, instrument) == if instrument in tops then Some(tops[instrument]) else None
  {
    if inputs != [] {
      var before := inputs[..|inputs| - 1];
      TopIsLatestTick(cfg, before, instrument);
      match inputs[|inputs| - 1] {
        case TradeArrives(i, price, draws) =>
          MatchAllKeepsTops(After(cfg, before).venue, cfg, After(cfg, before).venue.keys, 0, i, price, draws);
        case _ =>
      }
    }
  }

  /** A cancel takes the order out if it rests, and is refused otherwise. */
  lemma {:induction false} CancelTakesOutWhatRests(v: Venue, cfg: Config, id: OrderId)
    ensures var (v', es) := Handle(v, cfg, CancelArrives(id));
            && id !in v'.orders && (id in v.orders ==> id !in v'.keys) && (id !in v.orders ==> v' == v)
            && (forall other :: other != id ==> (other in v'.orders <==> other in v.orders)
                                                && (other in v.orders ==> v'.orders[other] == v.orders[other]))
            && es == [Emission(cfg.cancelAckMs, if id in v.orders then Cancellation(id) else Rejection(id, NotFound))]
  {
    WithoutKeepsOthers(v.keys, id);
  }

  /** An amend of a resting order sets what it names and leaves the rest; a new quantity
      counts as wholly unfilled. */
  lemma {:induction false} AmendSetsWhatItNames(v: Venue, cfg: Config, id: OrderId, quantity: Option<Quantity>, price: Option<Price>)
    ensures var (v', es) := Handle(v, cfg, AmendArrives(id, quantity, price));
            && es == [] && v'.keys == v.keys && v'.orders.Keys == v.orders.Keys
            && (forall other :: other in v.orders && other != id ==> v'.orders[other] == v.orders[other])
            && (id in v.orders ==>
                  var o, o' := v.orders[id], v'.orders[id];
                  && o'.id == o.id && o'.instrument == o.instrument && o'.side == o.side
                  && (price.None? ==> o'.price == o.price) && (price.Some? ==> o'.price == price.value)
                  && (quantity.None? ==> o'.quantity == o.quantity && o'.leaves == o.leaves)
                  && (quantity.Some? ==> o'.quantity == o'.leaves == quantity.value))
  {
  }
}
