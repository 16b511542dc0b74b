/** The backtest's order gateway: the matching rules applied in place, with every answer
    scheduled on the simulated clock. */
module BacktestGateways {
  import opened Types
  import opened SimulatedClocks
  import opened BacktestMatching
  import opened BacktestTimeline

  lemma {:induction false} PushedAllSplit(t: Timeline, nowNs: int, a: seq<Emission>, b: seq<Emission>)
    ensures PushedAll(t, nowNs, a + b) == PushedAll(PushedAll(t, nowNs, a), nowNs, b)
  {
    if b == [] {
      assert a + b == a;
    } else {
      var n := |b| - 1;
      assert (a + b)[..|a + b| - 1] == a + b[..n];
      PushedAllSplit(t, nowNs, a, b[..n]);
    }
  }

  lemma {:induction false} PushedOne(t: Timeline, nowNs: int, e: Emission)
    ensures PushedAll(t, nowNs, [e]) == Pushed(t, nowNs, e)
  {
    assert [e][..0] == [];
  }

  ghost predicate Resumes(total: (Venue, seq<Emission>), emitted: seq<Emission>, rest: (Venue, seq<Emission>)) {
    total.0 == rest.0 && total.1 == emitted + rest.1
  }

  lemma {:induction false} ResumesAfterOne(total: (Venue, seq<Emission>), emitted: seq<Emission>, v: Venue, cfg: Config,
                                           keys: seq<OrderId>, k: nat, instrument: InstrumentId, price: Price, draws: nat -> Draw)
    requires k < |keys| && Resumes(total, emitted, MatchAll(v, cfg, keys, k, instrument, price, draws))
    ensures var (v1, fills) := MatchOne(v, cfg, keys[k], instrument, price, draws(k));
            Resumes(total, emitted + fills, MatchAll(v1, cfg, keys, k + 1, instrument, price, draws))
  {
    MatchAllStep(v, cfg, keys, k, instrument, price, draws);
  }

  class BacktestOrderGateway {
    const clock: SimulatedClock
    const cfg: Config
    var tops: map<InstrumentId, TopOfBook>
    var keys: seq<OrderId>
    var orders: map<OrderId, RestingOrder>
    // The heap, in the order in which it gives up its items.
    var schedule: seq<Scheduled>
    var seqNo: nat
    // What this gateway has put on the bus.
    var published: seq<Publication>
    ghost var submitted: seq<Scheduled>
    // Every message the gateway's handlers have taken, in order.
    ghost var history: seq<Input>

    ghost function Venue(): Venue
      reads this
    {
      BacktestMatching.Venue(tops, keys, orders)
    }

    ghost function Timeline(): Timeline
      reads this
    {
      BacktestTimeline.Timeline(submitted, schedule, published)
    }

    ghost predicate Valid()
      reads this, clock
    {
      && seqNo == |submitted|
      && Sound(Timeline(), clock.nowNs)
      && Venue() == After(cfg, history).venue
      && MessagesOf(submitted) == After(cfg, history).log
    }

    constructor (clock: SimulatedClock, cfg: Config)
      ensures Valid() && this.clock == clock && this.cfg == cfg
      ensures history == [] && published == [] && schedule == []
    {
      this.clock, this.cfg := clock, cfg;
      tops, keys, orders := map[], [], map[];
      schedule, seqNo, published, submitted, history := [], 0, [], [], [];
    }

    // ----- Scheduling -----

    method ScheduleEvent(delayMs: real, message: Message)
      requires seqNo == |submitted|
      modifies this`schedule, this`seqNo, this`submitted
      ensures seqNo == |submitted|
      ensures Timeline() == Pushed(old(Timeline()), clock.nowNs, Emission(delayMs, message))
    {
      var x := Scheduled(clock.nowNs + DelayNs(delayMs), seqNo, message);
      schedule := Inserted(schedule, x);
      seqNo := seqNo + 1;
      submitted := submitted + [x];
    }

    /** Publishes everything due, and says how much that was. */
    method DrainDue() returns (count: nat)
      requires Valid()
      modifies this`schedule, this`published
      ensures Valid()
      ensures schedule != [] ==> schedule[0].dueNs > clock.nowNs
      ensures |schedule| == |old(schedule)| - count
      ensures old(schedule) != [] && old(schedule)[0].dueNs <= clock.nowNs ==> count > 0
    {
      count := 0;
      var now := clock.nowNs;
      while schedule != [] && schedule[0].dueNs <= now
        invariant Valid()
        invariant |schedule| == |old(schedule)| - count
        invariant count == 0 ==> schedule == old(schedule)
        decreases |schedule|
      {
        PublishNext(now);
        count := count + 1;
      }
    }

    method PublishNext(now: int)
      requires Valid() && now == clock.nowNs && schedule != [] && schedule[0].dueNs <= now
      modifies this`schedule, this`published
      ensures Valid() && |schedule| == |old(schedule)| - 1
    {
      PopKeepsSound(Timeline(), now);
      var scheduled := schedule[0];
      schedule := schedule[1..];
      published := published + [Publication(now, scheduled)];
    }

    method NextDueNs() returns (due: Option<int>)
      ensures due == if schedule == [] then None else Some(schedule[0].dueNs)
    {
      due := if schedule != [] then Some(schedule[0].dueNs) else None;
    }

    // ----- Inbound handlers -----

    method HandleOrderRequest(r: Request, rejectGate: real, d: Draw)
      requires seqNo == |submitted|
      modifies this`keys, this`orders, this`schedule, this`seqNo, this`submitted
      ensures seqNo == |submitted|
      ensures var (v, es) := OnRequest(old(Venue()), cfg, r, rejectGate, d);
              Venue() == v && Timeline() == PushedAll(old(Timeline()), clock.nowNs, es)
    {
      if r.exchange != cfg.venue {
        return;
      }
      var ackDelay := cfg.submitAckMs;
      if cfg.rejectProbability > 0.0 && rejectGate < cfg.rejectProbability {
        ScheduleReject(r, Simulated, ackDelay);
        return;
      }
      if r.kind.PostOnly? && r.instrument in tops && WouldCross(r, tops[r.instrument]) {
        ScheduleReject(r, PostOnlyCross, ackDelay);
        return;
      }
      ScheduleEvent(ackDelay, Acknowledgement(r.id));
      ghost var ack := [Emission(ackDelay, Acknowledgement(r.id))];
      PushedOne(old(Timeline()), clock.nowNs, ack[0]);
      if r.kind in {Market, Ioc, Fok} || (r.instrument in tops && WouldCross(r, tops[r.instrument])) {
        PushedAllSplit(old(Timeline()), clock.nowNs, ack, FillMarket(Venue(), cfg, r, d));
        TakeLiquidity(r, ackDelay, d);
        return;
      }
      if r.id !in orders {
        keys := keys + [r.id];
      }
      var price := if r.price.Some? then r.price.value else 0.0;
      orders := orders[r.id := RestingOrder(r.id, r.instrument, r.side, r.quantity, price, r.quantity)];
    }

    method HandleCancelRequest(id: OrderId)
      requires seqNo == |submitted|
      modifies this`keys, this`orders, this`schedule, this`seqNo, this`submitted
      ensures seqNo == |submitted|
      ensures var (v, es) := OnCancel(old(Venue()), cfg, id);
              Venue() == v && Timeline() == PushedAll(old(Timeline()), clock.nowNs, es)
    {
      var delay := cfg.cancelAckMs;
      PushedOne(Timeline(), clock.nowNs, Emission(delay, Rejection(id, NotFound)));
      PushedOne(Timeline(), clock.nowNs, Emission(delay, Cancellation(id)));
      if id !in orders {
        ScheduleEvent(delay, Rejection(id, NotFound));
        return;
      }
      PopResting(id);
      ScheduleEvent(delay, Cancellation(id));
    }

    method PopResting(id: OrderId)
      modifies this`keys, this`orders
      ensures Venue() == Pop(old(Venue()), id)
    {
      orders := orders - {id};
      keys := Without(keys, id);
    }

    method HandleAmendRequest(id: OrderId, newQuantity: Option<Quantity>, newPrice: Option<Price>)
      modifies this`orders
      ensures Venue() == OnAmend(old(Venue()), id, newQuantity, newPrice)
    {
      if id !in orders {
        return;
      }
      var o := orders[id];
      if newQuantity.Some? {
        o := o.(quantity := newQuantity.value);
        o := o.(leaves := newQuantity.value);
      }
      if newPrice.Some? {
        o := o.(price := newPrice.value);
      }
      orders := orders[id := o];
    }

    // ----- Fill paths -----

    method TakeLiquidity(r: Request, ackDelay: real, d: Draw)
      requires seqNo == |submitted| && ackDelay == cfg.submitAckMs
      modifies this`schedule, this`seqNo, this`submitted
      ensures seqNo == |submitted|
      ensures Timeline() == PushedAll(old(Timeline()), clock.nowNs, FillMarket(old(Venue()), cfg, r, d))
    {
      var price := PriceFor(r);
      ghost var fills := FillMarket(Venue(), cfg, r, d);
      if price.None? {
        assert fills == [Emission(ackDelay, Rejection(r.id, NoMarketData))];
        ScheduleReject(r, NoMarketData, ackDelay);
        return;
      }
      assert fills == TakerFills(cfg, r, cfg.rounded(r.instrument, price.value), ackDelay + cfg.fillMs, d);
      EmitFills(r, cfg.rounded(r.instrument, price.value), ackDelay + cfg.fillMs, d);
    }

    method PriceFor(r: Request) returns (price: Option<Price>)
      ensures price == TakerPrice(Venue(), cfg, r)
    {
      if r.instrument !in tops {
        return r.price;
      }
      var top := tops[r.instrument];
      var slip := cfg.slippage(r.instrument);
      price := Some(if r.side.Buy? then top.ask + slip else top.bid - slip);
    }

    method ScheduleFill(delayMs: real, fill: Message)
      requires seqNo == |submitted| && fill.FillReport?
      modifies this`schedule, this`seqNo, this`submitted
      ensures seqNo == |submitted|
      ensures Timeline() == PushedAll(old(Timeline()), clock.nowNs, Reported(delayMs, fill))
    {
      if fill.quantity > 0.0 {
        PushedOne(Timeline(), clock.nowNs, Emission(delayMs, fill));
        ScheduleEvent(delayMs, fill);
      }
    }

    method EmitFills(r: Request, price: Price, delayMs: real, d: Draw)
      requires seqNo == |submitted|
      modifies this`schedule, this`seqNo, this`submitted
      ensures seqNo == |submitted|
      ensures Timeline() == PushedAll(old(Timeline()), clock.nowNs, TakerFills(cfg, r, price, delayMs, d))
    {
      var (first, second) := Split(cfg, r.quantity, d);
      var (fill1, fill2) := TakerReports(r, price, first, second);
      PushedAllSplit(Timeline(), clock.nowNs, Reported(delayMs, fill1), Reported(delayMs + cfg.fillMs, fill2));
      ScheduleFill(delayMs, fill1);
      ScheduleFill(delayMs + cfg.fillMs, fill2);
    }

    method EmitFillsForResting(id: OrderId, d: Draw)
      requires seqNo == |submitted| && id in orders && orders[id].id == id
      modifies this`orders, this`schedule, this`seqNo, this`submitted
      ensures seqNo == |submitted|
      ensures var (o, es) := MakerFills(cfg, old(orders)[id], d);
              orders == old(orders)[id := o] && Timeline() == PushedAll(old(Timeline()), clock.nowNs, es)
    {
      var o := orders[id];
      var (first, second) := Split(cfg, o.leaves, d);
      var (fill1, fill2) := MakerReports(o, first, second);
      PushedAllSplit(Timeline(), clock.nowNs, Reported(cfg.fillMs, fill1), Reported(cfg.fillMs + cfg.fillMs, fill2));
      ScheduleFill(cfg.fillMs, fill1);
      ScheduleFill(cfg.fillMs + cfg.fillMs, fill2);
      orders := orders[id := o.(leaves := fill2.leaves)];
    }

    method ScheduleReject(r: Request, reason: RejectReason, delayMs: real)
      requires seqNo == |submitted|
      modifies this`schedule, this`seqNo, this`submitted
      ensures seqNo == |submitted|
      ensures Timeline() == PushedAll(old(Timeline()), clock.nowNs, [Emission(delayMs, Rejection(r.id, reason))])
    {
      PushedOne(Timeline(), clock.nowNs, Emission(delayMs, Rejection(r.id, reason)));
      ScheduleEvent(delayMs, Rejection(r.id, reason));
    }

    method MatchOneAgainstTrade(id: OrderId, instrument: InstrumentId, price: Price, d: Draw)
      requires seqNo == |submitted| && KeyedById()
      modifies this`keys, this`orders, this`schedule, this`seqNo, this`submitted
      ensures seqNo == |submitted| && KeyedById()
      ensures var (v, es) := MatchOne(old(Venue()), cfg, id, instrument, price, d);
              Venue() == v && Timeline() == PushedAll(old(Timeline()), clock.nowNs, es)
    {
      if id !in orders || orders[id].instrument != instrument {
        return;
      }
      var o := orders[id];
      var crosses := (o.side.Buy? && price <= o.price) || (o.side.Sell? && price >= o.price);
      if !crosses {
        return;
      }
      EmitFillsForResting(id, d);
      if orders[id].leaves == 0.0 {
        assert (old(orders)[id := orders[id]]) - {id} == old(orders) - {id};
        PopResting(id);
      }
    }

    ghost predicate KeyedById()
      reads this
    {
      forall id :: id in orders ==> orders[id].id == id
    }

    method MatchRestingAgainstTrade(instrument: InstrumentId, price: Price, draws: nat -> Draw)
      requires seqNo == |submitted| && KeyedById()
      modifies this`keys, this`orders, this`schedule, this`seqNo, this`submitted
      ensures seqNo == |submitted|
      ensures var (v, es) := MatchAll(old(Venue()), cfg, old(keys), 0, instrument, price, draws);
              Venue() == v && Timeline() == PushedAll(old(Timeline()), clock.nowNs, es)
    {
      var ids := keys;
      ghost var total := MatchAll(Venue(), cfg, ids, 0, instrument, price, draws);
      ghost var emitted: seq<Emission> := [];
      assert emitted + total.1 == total.1;
      for k := 0 to |ids|
        invariant seqNo == |submitted| && KeyedById()
        invariant Timeline() == PushedAll(old(Timeline()), clock.nowNs, emitted)
        invariant Resumes(total, emitted, MatchAll(Venue(), cfg, ids, k, instrument, price, draws))
      {
        ghost var fills := MatchOne(Venue(), cfg, ids[k], instrument, price, draws(k)).1;
        ResumesAfterOne(total, emitted, Venue(), cfg, ids, k, instrument, price, draws);
        PushedAllSplit(old(Timeline()), clock.nowNs, emitted, fills);
        MatchOneAgainstTrade(ids[k], instrument, price, draws(k));
        emitted := emitted + fills;
      }
      assert emitted + [] == emitted;
      assert MatchAll(Venue(), cfg, ids, |ids|, instrument, price, draws) == (Venue(), []);
    }

    method Dispatch(input: Input)
      requires seqNo == |submitted| && KeyedById()
      modifies this`tops, this`keys, this`orders, this`schedule, this`seqNo, this`submitted
      ensures seqNo == |submitted|
      ensures var (v, es) := Handle(old(Venue()), cfg, input);
              Venue() == v && Timeline() == PushedAll(old(Timeline()), clock.nowNs, es)
    {
      match input {
        case OrderArrives(r, gate, d) => HandleOrderRequest(r, gate, d);
        case CancelArrives(id) => HandleCancelRequest(id);
        case AmendArrives(id, q, p) => HandleAmendRequest(id, q, p);
        case TickArrives(instrument, top) => tops := tops[instrument := top];
        case TradeArrives(instrument, price, draws) => MatchRestingAgainstTrade(instrument, price, draws);
      }
    }

    /** Whatever the bus delivers to the gateway. */
    method OnInput(input: Input)
      requires Valid()
      modifies this
      ensures Valid()
      ensures published == old(published) && history == old(history) + [input]
    {
      KeyedAlways(cfg, history);
      PushAllKeepsSound(Timeline(), clock.nowNs, Handle(Venue(), cfg, input).1);
      PushAllSubmits(Timeline(), clock.nowNs, Handle(Venue(), cfg, input).1);
      OneMoreInput(cfg, history, input);
      Dispatch(input);
      history := history + [input];
    }
  }

  lemma {:induction false} OneMoreInput(cfg: Config, inputs: seq<Input>, input: Input)
    ensures var h := After(cfg, inputs);
            var (v, es) := Handle(h.venue, cfg, input);
            After(cfg, inputs + [input]).venue == v && After(cfg, inputs + [input]).log == h.log + Messages(es)
  {
    assert (inputs + [input])[..|inputs|] == inputs;
  }

  predicate Keyed(v: Venue) { forall id :: id in v.orders ==> v.orders[id].id == id }

  lemma {:induction false} MatchAllKeyed(v: Venue, cfg: Config, keys: seq<OrderId>, k: nat, instrument: InstrumentId,
                                         price: Price, draws: nat -> Draw)
    requires k <= |keys| && Keyed(v)
    ensures Keyed(MatchAll(v, cfg, keys, k, instrument, price, draws).0)
    decreases |keys| - k
  {
    if k < |keys| {
      MatchAllKeyed(MatchOne(v, cfg, keys[k], instrument, price, draws(k)).0, cfg, keys, k + 1, instrument, price, draws);
    }
  }

  lemma {:induction false} KeyedAlways(cfg: Config, inputs: seq<Input>)
    ensures Keyed(After(cfg, inputs).venue)
  {
    if inputs != [] {
      KeyedAlways(cfg, inputs[..|inputs| - 1]);
      var v := After(cfg, inputs[..|inputs| - 1]).venue;
      match inputs[|inputs| - 1] {
        case TradeArrives(instrument, price, draws) => MatchAllKeyed(v, cfg, v.keys, 0, instrument, price, draws);
        case _ =>
      }
    }
  }
}
