/** The backtest venue's matching rules: what each message arriving at the simulated venue
    does to its book, and what it sends back. */
module BacktestMatching {
  import opened Types

  datatype OrderType = Market | Limit | Stop | StopLimit | Ioc | Fok | PostOnly

  datatype Request = Request(
    id: OrderId,
    exchange: string,
    instrument: InstrumentId,
    side: Side,
    kind: OrderType,
    quantity: Quantity,
    price: Option<Price>
  )

  datatype RestingOrder = RestingOrder(
    id: OrderId,
    instrument: InstrumentId,
    side: Side,
    quantity: Quantity,
    price: Price,
    leaves: Quantity
  )

  datatype TopOfBook = TopOfBook(bid: Price, ask: Price)

  /** Latencies are in milliseconds; `slippage` is the price of the configured ticks and
      `rounded` the instrument's tick rounding. */
  datatype Config = Config(
    venue: string,
    submitAckMs: real,
    cancelAckMs: real,
    fillMs: real,
    partialProbability: real,
    partialMinFraction: real,
    slippage: InstrumentId -> Price,
    rounded: (InstrumentId, Price) -> Price,
    rejectProbability: real
  )

  /** One use of the random source by the fill splitter: the gate and the fraction. */
  datatype Draw = Draw(gate: real, fraction: real)

  datatype Input =
    | OrderArrives(request: Request, rejectGate: real, draw: Draw)
    | CancelArrives(id: OrderId)
    | AmendArrives(id: OrderId, newQuantity: Option<Quantity>, newPrice: Option<Price>)
    | TickArrives(instrument: InstrumentId, top: TopOfBook)
    | TradeArrives(instrument: InstrumentId, price: Price, draws: nat -> Draw)

  datatype RejectReason = Simulated | PostOnlyCross | NoMarketData | NotFound

  datatype Message =
    | Acknowledgement(id: OrderId)
    | Rejection(id: OrderId, reason: RejectReason)
    | Cancellation(id: OrderId)
    | FillReport(id: OrderId, side: Side, price: Price, quantity: Quantity,
                 cumulative: Quantity, leaves: Quantity, isMaker: bool)

  datatype Emission = Emission(delayMs: real, message: Message)

  /** Resting orders are an insertion-ordered dictionary: `keys` in order, `orders` by id. */
  datatype Venue = Venue(
    tops: map<InstrumentId, TopOfBook>,
    keys: seq<OrderId>,
    orders: map<OrderId, RestingOrder>
  )

  const EmptyVenue := Venue(map[], [], map[])

  function Put(v: Venue, o: RestingOrder): Venue {
    v.(keys := if o.id in v.orders then v.keys else v.keys + [o.id], orders := v.orders[o.id := o])
  }

  function Pop(v: Venue, id: OrderId): Venue {
    v.(keys := Without(v.keys, id), orders := v.orders - {id})
  }

  // ----- Splitting a fill -----

  function Portion(quantity: Quantity, fraction: real): Quantity { quantity * fraction }

  function Split(cfg: Config, quantity: Quantity, d: Draw): (Quantity, Quantity) {
    if cfg.partialProbability <= 0.0 || d.gate >= cfg.partialProbability then (quantity, 0.0)
    else if 1.0 - cfg.partialMinFraction <= cfg.partialMinFraction then (quantity, 0.0)
    else
      var first := Portion(quantity, d.fraction);
      (first, quantity - first)
  }

  /** What the random source can return. */
  predicate Fair(cfg: Config, d: Draw) {
    && 0.0 <= d.gate < 1.0
    && (cfg.partialMinFraction < 1.0 - cfg.partialMinFraction ==>
          cfg.partialMinFraction <= d.fraction <= 1.0 - cfg.partialMinFraction)
  }

  // ----- Handlers -----

  predicate WouldCross(r: Request, top: TopOfBook) {
    && r.price.Some?
    && match r.side
       case Buy => r.price.value >= top.ask
       case Sell => r.price.value <= top.bid
  }

  predicate Crosses(v: Venue, r: Request) {
    r.instrument in v.tops && WouldCross(r, v.tops[r.instrument])
  }

  function TakerPrice(v: Venue, cfg: Config, r: Request): Option<Price> {
    if r.instrument in v.tops then
      var top := v.tops[r.instrument];
      var slip := cfg.slippage(r.instrument);
      Some(if r.side.Buy? then top.ask + slip else top.bid - slip)
    else r.price
  }

  /** Only a positive quantity is reported. */
  function Reported(delayMs: real, m: Message): seq<Emission> {
    if m.FillReport? && m.quantity > 0.0 then [Emission(delayMs, m)] else []
  }

  /** The two fills of an order that takes, whether reported or not. */
  function TakerReports(r: Request, price: Price, first: Quantity, second: Quantity): (Message, Message) {
    (FillReport(r.id, r.side, price, first, first, r.quantity - first, false),
     FillReport(r.id, r.side, price, second, r.quantity, 0.0, false))
  }

  function TakerFills(cfg: Config, r: Request, price: Price, delayMs: real, d: Draw): seq<Emission> {
    var (first, second) := Split(cfg, r.quantity, d);
    var (fill1, fill2) := TakerReports(r, price, first, second);
    Reported(delayMs, fill1) + Reported(delayMs + cfg.fillMs, fill2)
  }

  function FillMarket(v: Venue, cfg: Config, r: Request, d: Draw): seq<Emission> {
    match TakerPrice(v, cfg, r)
    case None => [Emission(cfg.submitAckMs, Rejection(r.id, NoMarketData))]
    case Some(price) =>
      TakerFills(cfg, r, cfg.rounded(r.instrument, price), cfg.submitAckMs + cfg.fillMs, d)
  }

  function OnRequest(v: Venue, cfg: Config, r: Request, rejectGate: real, d: Draw): (Venue, seq<Emission>) {
    if r.exchange != cfg.venue then (v, [])
    else if cfg.rejectProbability > 0.0 && rejectGate < cfg.rejectProbability then
      (v, [Emission(cfg.submitAckMs, Rejection(r.id, Simulated))])
    else if r.kind.PostOnly? && Crosses(v, r) then
      (v, [Emission(cfg.submitAckMs, Rejection(r.id, PostOnlyCross))])
    else
      var ack := [Emission(cfg.submitAckMs, Acknowledgement(r.id))];
      if r.kind in {Market, Ioc, Fok} || Crosses(v, r) then (v, ack + FillMarket(v, cfg, r, d))
      else
        var price := if r.price.Some? then r.price.value else 0.0;
        (Put(v, RestingOrder(r.id, r.instrument, r.side, r.quantity, price, r.quantity)), ack)
  }

  function OnCancel(v: Venue, cfg: Config, id: OrderId): (Venue, seq<Emission>) {
    if id in v.orders then (Pop(v, id), [Emission(cfg.cancelAckMs, Cancellation(id))])
    else (v, [Emission(cfg.cancelAckMs, Rejection(id, NotFound))])
  }

  function Amended(o: RestingOrder, newQuantity: Option<Quantity>, newPrice: Option<Price>): RestingOrder {
    var q := if newQuantity.Some? then newQuantity.value else o.quantity;
    var leaves := if newQuantity.Some? then newQuantity.value else o.leaves;
    var price := if newPrice.Some? then newPrice.value else o.price;
    o.(quantity := q, leaves := leaves, price := price)
  }

  function OnAmend(v: Venue, id: OrderId, newQuantity: Option<Quantity>, newPrice: Option<Price>): Venue {
    if id in v.orders then v.(orders := v.orders[id := Amended(v.orders[id], newQuantity, newPrice)]) else v
  }

  predicate TradesThrough(o: RestingOrder, instrument: InstrumentId, price: Price) {
    && o.instrument == instrument
    && match o.side
       case Buy => price <= o.price
       case Sell => price >= o.price
  }

  /** The two fills of a resting order, whether reported or not. */
  function MakerReports(o: RestingOrder, first: Quantity, second: Quantity): (Message, Message) {
    var prior := o.quantity - o.leaves;
    var leaves1 := if first > 0.0 then o.leaves - first else o.leaves;
    var leaves2 := if second > 0.0 then leaves1 - second else leaves1;
    (FillReport(o.id, o.side, o.price, first, prior + first, leaves1, true),
     FillReport(o.id, o.side, o.price, second, prior + first + second, leaves2, true))
  }

  /** A resting order traded through: what remains of it, and its fills. */
  function MakerFills(cfg: Config, o: RestingOrder, d: Draw): (RestingOrder, seq<Emission>) {
    var (first, second) := Split(cfg, o.leaves, d);
    var (fill1, fill2) := MakerReports(o, first, second);
    (o.(leaves := fill2.leaves), Reported(cfg.fillMs, fill1) + Reported(cfg.fillMs + cfg.fillMs, fill2))
  }

  function MatchOne(v: Venue, cfg: Config, id: OrderId, instrument: InstrumentId, price: Price, d: Draw): (Venue, seq<Emission>) {
    if id !in v.orders || !TradesThrough(v.orders[id], instrument, price) then (v, [])
    else
      var (o, fills) := MakerFills(cfg, v.orders[id], d);
      (if o.leaves == 0.0 then Pop(v, id) else v.(orders := v.orders[id := o]), fills)
  }

  /** The orders listed in `keys`, matched in turn against a trade; the first one uses `draws(k)`. */
  function MatchAll(v: Venue, cfg: Config, keys: seq<OrderId>, k: nat, instrument: InstrumentId, price: Price,
                    draws: nat -> Draw): (Venue, seq<Emission>)
    requires k <= |keys|
    decreases |keys| - k
  {
    if k == |keys| then (v, [])
    else
      var (v1, fills) := MatchOne(v, cfg, keys[k], instrument, price, draws(k));
      var (v2, more) := MatchAll(v1, cfg, keys, k + 1, instrument, price, draws);
      (v2, fills + more)
  }

  lemma {:induction false} MatchAllStep(v: Venue, cfg: Config, keys: seq<OrderId>, k: nat, instrument: InstrumentId, price: Price,
                                        draws: nat -> Draw)
    requires k < |keys|
    ensures var (v1, fills) := MatchOne(v, cfg, keys[k], instrument, price, draws(k));
            var (v2, more) := MatchAll(v1, cfg, keys, k + 1, instrument, price, draws);
            MatchAll(v, cfg, keys, k, instrument, price, draws) == (v2, fills + more)
  {
  }

  function Handle(v: Venue, cfg: Config, input: Input): (Venue, seq<Emission>) {
    match input
    case OrderArrives(r, gate, d) => OnRequest(v, cfg, r, gate, d)
    case CancelArrives(id) => OnCancel(v, cfg, id)
    case AmendArrives(id, q, p) => (OnAmend(v, id, q, p), [])
    case TickArrives(instrument, top) => (v.(tops := v.tops[instrument := top]), [])
    case TradeArrives(instrument, price, draws) => MatchAll(v, cfg, v.keys, 0, instrument, price, draws)
  }

  // ----- When a split conserves quantity -----

  function Positive(q: Quantity): Quantity { if q > 0.0 then q else 0.0 }

  ghost predicate SplitsConserve(cfg: Config) {
    forall q: Quantity, d: Draw :: q > 0.0 && Fair(cfg, d) ==> SplitConserves(q, Split(cfg, q, d))
  }

  /** Only positive parts are reported; together they are the quantity. */
  predicate SplitConserves(q: Quantity, parts: (Quantity, Quantity)) {
    Positive(parts.0) + Positive(parts.1) == q
  }

  lemma {:induction false} Fractions(q: Quantity, f: real)
    requires q > 0.0
    ensures 0.0 <= f <= 1.0 ==> 0.0 <= Portion(q, f) <= q
    ensures f < 0.0 ==> Portion(q, f) < 0.0
  {
  }

  predicate SafeSplits(cfg: Config) {
    cfg.partialProbability <= 0.0 || cfg.partialMinFraction >= 0.0
  }

  lemma {:induction false} SplitParts(cfg: Config, q: Quantity, d: Draw)
    requires q > 0.0 && SafeSplits(cfg) && Fair(cfg, d)
    ensures var (first, second) := Split(cfg, q, d);
            first >= 0.0 && second >= 0.0 && first + second == q
  {
    if 0.0 <= d.fraction <= 1.0 {
      Fractions(q, d.fraction);
    }
  }

  lemma {:induction false} SplitsConserveIffMinFractionNonnegative(cfg: Config)
    ensures SplitsConserve(cfg) <==> SafeSplits(cfg)
  {
    if SafeSplits(cfg) {
      forall q: Quantity, d: Draw | q > 0.0 && Fair(cfg, d) ensures SplitConserves(q, Split(cfg, q, d)) {
        SplitParts(cfg, q, d);
      }
    } else {
      var d := Draw(0.0, cfg.partialMinFraction);
      Fractions(1.0, d.fraction);
      assert Fair(cfg, d);
      assert !SplitConserves(1.0, Split(cfg, 1.0, d));
    }
  }

  // ----- Fills of one order -----

  function FillsOf(log: seq<Message>, id: OrderId): seq<Message> {
    if log == [] then []
    else
      var m := log[|log| - 1];
      FillsOf(log[..|log| - 1], id) + (if m.FillReport? && m.id == id then [m] else [])
  }

  function Messages(emissions: seq<Emission>): seq<Message> {
    seq(|emissions|, i requires 0 <= i < |emissions| => emissions[i].message)
  }

  function Sum(fills: seq<Message>): Quantity {
    if fills == [] then 0.0
    else Sum(fills[..|fills| - 1]) + (if fills[|fills| - 1].FillReport? then fills[|fills| - 1].quantity else 0.0)
  }

  /** Positive fills of `q` in all, each reporting the running sum and what is left of `q`. */
  predicate Complete(fills: seq<Message>, q: Quantity) {
    && Sum(fills) == q
    && forall k :: 0 <= k < |fills| ==> Reports(fills, k, q)
  }

  predicate Reports(fills: seq<Message>, k: nat, q: Quantity)
    requires k < |fills|
  {
    && fills[k].FillReport? && fills[k].quantity > 0.0
    && fills[k].cumulative == Sum(fills[..k + 1])
    && fills[k].cumulative + fills[k].leaves == q
  }

  lemma {:induction false} FillsSplit(a: seq<Message>, b: seq<Message>, id: OrderId)
    ensures FillsOf(a + b, id) == FillsOf(a, id) + FillsOf(b, id)
  {
    if b == [] {
      assert a + b == a;
    } else {
      var n := |b| - 1;
      assert (a + b)[..|a + b| - 1] == a + b[..n];
      FillsSplit(a, b[..n], id);
    }
  }

  lemma {:induction false} NotInFills(log: seq<Message>, id: OrderId)
    requires forall m :: m in log && m.FillReport? ==> m.id != id
    ensures FillsOf(log, id) == []
  {
    if log != [] {
      NotInFills(log[..|log| - 1], id);
    }
  }

  lemma {:induction false} AllFills(log: seq<Message>, id: OrderId)
    requires forall m :: m in log ==> m.FillReport? && m.id == id
    ensures FillsOf(log, id) == log
  {
    if log != [] {
      AllFills(log[..|log| - 1], id);
    }
  }

  lemma {:induction false} OneFillIsComplete(m: Message)
    requires m.FillReport? && m.quantity > 0.0 && m.cumulative == m.quantity && m.leaves == 0.0
    ensures Complete([m], m.quantity)
  {
    assert [m][..0] == [];
    assert [m][..1] == [m];
  }

  lemma {:induction false} TwoFillsAreComplete(m: Message, n: Message)
    requires m.FillReport? && m.quantity > 0.0 && m.cumulative == m.quantity
    requires n.FillReport? && n.quantity > 0.0 && n.cumulative == m.quantity + n.quantity && n.leaves == 0.0
    requires m.leaves == n.quantity
    ensures Complete([m, n], m.quantity + n.quantity)
  {
    assert [m][..0] == [];
    assert [m, n][..1] == [m];
    assert [m, n][..2] == [m, n];
    assert Sum([m]) == m.quantity;
    assert Sum([m, n]) == m.quantity + n.quantity;
    assert Reports([m, n], 0, m.quantity + n.quantity) && Reports([m, n], 1, m.quantity + n.quantity);
  }

  /** The fills of one go: all positive parts of a quantity. */
  predicate WholeFill(cfg: Config, fills: seq<Emission>, id: OrderId, q: Quantity) {
    && Complete(Messages(fills), q)
    && forall m :: m in Messages(fills) ==> m.FillReport? && m.id == id
  }

  lemma {:induction false} TakerFillsAreWhole(cfg: Config, r: Request, price: Price, delayMs: real, d: Draw)
    requires r.quantity > 0.0 && SafeSplits(cfg) && Fair(cfg, d)
    ensures WholeFill(cfg, TakerFills(cfg, r, price, delayMs, d), r.id, r.quantity)
  {
    var fills := TakerFills(cfg, r, price, delayMs, d);
    SplitParts(cfg, r.quantity, d);
    WholeFromParts(cfg, fills, r.id, r.quantity);
  }

  lemma {:induction false} WholeFromParts(cfg: Config, fills: seq<Emission>, id: OrderId, q: Quantity)
    requires |fills| == 1 || |fills| == 2
    requires forall i :: 0 <= i < |fills| ==> fills[i].message.FillReport? && fills[i].message.id == id && fills[i].message.quantity > 0.0
    requires |fills| == 1 ==> fills[0].message.cumulative == fills[0].message.quantity == q && fills[0].message.leaves == 0.0
    requires |fills| == 2 ==>
               && fills[0].message.cumulative == fills[0].message.quantity
               && fills[0].message.leaves == fills[1].message.quantity
               && fills[1].message.cumulative == fills[0].message.quantity + fills[1].message.quantity == q
               && fills[1].message.leaves == 0.0
    ensures WholeFill(cfg, fills, id, q)
  {
    if |fills| == 1 {
      assert Messages(fills) == [fills[0].message];
      OneFillIsComplete(fills[0].message);
    } else {
      assert Messages(fills) == [fills[0].message, fills[1].message];
      TwoFillsAreComplete(fills[0].message, fills[1].message);
    }
  }

  lemma {:induction false} MakerFillsAreWhole(cfg: Config, o: RestingOrder, d: Draw)
    requires o.leaves == o.quantity > 0.0 && SafeSplits(cfg) && Fair(cfg, d)
    ensures MakerFills(cfg, o, d).0.leaves == 0.0
    ensures WholeFill(cfg, MakerFills(cfg, o, d).1, o.id, o.quantity)
  {
    SplitParts(cfg, o.leaves, d);
    WholeFromParts(cfg, MakerFills(cfg, o, d).1, o.id, o.quantity);
  }

  // ----- The invariant -----

  /** The quantity last asked for each order the venue has taken in: by its request, or by
      an amend that found it resting. */
  function Ledger(ledger: map<OrderId, Quantity>, v: Venue, cfg: Config, input: Input): map<OrderId, Quantity> {
    match input
    case OrderArrives(r, _, _) => if r.exchange == cfg.venue then ledger[r.id := r.quantity] else ledger
    case AmendArrives(id, q, _) => if id in v.orders && q.Some? then ledger[id := q.value] else ledger
    case _ => ledger
  }

  predicate WasRefused(log: seq<Message>, id: OrderId) {
    exists m :: m in log && m.Rejection? && m.id == id && m.reason != NotFound
  }

  /** What has become of an order: it rests untouched, was cancelled or refused without a
      fill, or was filled completely. */
  predicate Accounted(v: Venue, log: seq<Message>, id: OrderId, q: Quantity) {
    if id in v.orders then
      && v.orders[id].id == id && v.orders[id].quantity == v.orders[id].leaves == q
      && FillsOf(log, id) == [] && Cancellation(id) !in log && !WasRefused(log, id)
    else
      if Cancellation(id) in log || WasRefused(log, id) then FillsOf(log, id) == []
      else Complete(FillsOf(log, id), q)
  }

  predicate Unknown(v: Venue, log: seq<Message>, id: OrderId) {
    id !in v.orders && FillsOf(log, id) == [] && Cancellation(id) !in log && !WasRefused(log, id)
  }

  ghost predicate Inv(v: Venue, log: seq<Message>, ledger: map<OrderId, Quantity>) {
    && (forall id <- ledger :: ledger[id] > 0.0 && Accounted(v, log, id, ledger[id]))
    && (forall id: OrderId :: id !in ledger ==> Unknown(v, log, id))
    && (forall id :: id in v.orders ==> id in v.keys)
  }

  /** Order ids are fresh, quantities positive, and random draws possible. */
  ghost predicate Admissible(cfg: Config, ledger: map<OrderId, Quantity>, input: Input) {
    match input
    case OrderArrives(r, _, d) => r.id !in ledger && r.quantity > 0.0 && Fair(cfg, d)
    case AmendArrives(_, q, _) => q.Some? ==> q.value > 0.0
    case TradeArrives(_, _, draws) => forall i: nat :: Fair(cfg, draws(i))
    case _ => true
  }

  // ----- Every input keeps it -----

  predicate About(log: seq<Message>, id: OrderId) { forall m :: m in log ==> m.id == id }

  /** Two venues with the same resting orders apart from one. */
  ghost predicate SameBut(v: Venue, v': Venue, x: OrderId) {
    forall id :: id != x ==> (id in v.orders <==> id in v'.orders) && (id in v.orders ==> v'.orders[id] == v.orders[id])
  }

  lemma {:induction false} RefusedSplit(a: seq<Message>, b: seq<Message>, id: OrderId)
    ensures WasRefused(a + b, id) <==> WasRefused(a, id) || WasRefused(b, id)
  {
    if WasRefused(a + b, id) {
      var m :| m in a + b && m.Rejection? && m.id == id && m.reason != NotFound;
      assert m in a || m in b;
    }
    if WasRefused(a, id) {
      var m :| m in a && m.Rejection? && m.id == id && m.reason != NotFound;
      assert m in a + b;
    }
    if WasRefused(b, id) {
      var m :| m in b && m.Rejection? && m.id == id && m.reason != NotFound;
      assert m in a + b;
    }
  }

  lemma {:induction false} OthersKeep(v: Venue, v': Venue, log: seq<Message>, es: seq<Message>, x: OrderId, id: OrderId, q: Quantity)
    requires About(es, x) && SameBut(v, v', x) && id != x
    ensures Accounted(v, log, id, q) ==> Accounted(v', log + es, id, q)
    ensures Unknown(v, log, id) ==> Unknown(v', log + es, id)
  {
    RefusedSplit(log, es, id);
    FillsSplit(log, es, id);
    NotInFills(es, id);
    assert FillsOf(log, id) + [] == FillsOf(log, id);
    assert Cancellation(id) in log + es <==> Cancellation(id) in log;
  }

  lemma {:induction false} InvAfter(v: Venue, v': Venue, log: seq<Message>, es: seq<Message>, ledger: map<OrderId, Quantity>,
                 ledger': map<OrderId, Quantity>, x: OrderId)
    requires Inv(v, log, ledger) && About(es, x) && SameBut(v, v', x)
    requires ledger' - {x} == ledger - {x}
    requires x in ledger' ==> ledger'[x] > 0.0 && Accounted(v', log + es, x, ledger'[x])
    requires x !in ledger' ==> Unknown(v', log + es, x)
    requires forall id :: id in v'.orders ==> id in v'.keys
    ensures Inv(v', log + es, ledger')
  {
    forall id | id in ledger' ensures ledger'[id] > 0.0 && Accounted(v', log + es, id, ledger'[id]) {
      if id != x {
        assert id in ledger - {x} && ledger[id] == (ledger - {x})[id] == (ledger' - {x})[id];
        OthersKeep(v, v', log, es, x, id, ledger[id]);
      }
    }
    forall id: OrderId | id !in ledger' ensures Unknown(v', log + es, id) {
      if id != x {
        assert id !in ledger - {x};
        OthersKeep(v, v', log, es, x, id, 0.0);
      }
    }
  }

  lemma {:induction false} WithoutKeepsOthers(keys: seq<OrderId>, x: OrderId)
    ensures forall id :: id in Without(keys, x) <==> id in keys && id != x
  {
    if keys != [] {
      WithoutKeepsOthers(keys[1..], x);
    }
  }

  /** One message about one order. */
  lemma {:induction false} OneMessage(log: seq<Message>, m: Message, id: OrderId)
    requires !m.FillReport?
    ensures FillsOf(log + [m], id) == FillsOf(log, id)
    ensures WasRefused(log + [m], id) <==> WasRefused(log, id) || (m.Rejection? && m.id == id && m.reason != NotFound)
    ensures Cancellation(id) in log + [m] <==> Cancellation(id) in log || m == Cancellation(id)
  {
    FillsSplit(log, [m], id);
    NotInFills([m], id);
    RefusedSplit(log, [m], id);
    assert m in [m];
  }

  /** The fills that complete an order. */
  lemma {:induction false} FillsComplete(v: Venue, log: seq<Message>, fills: seq<Message>, id: OrderId, q: Quantity)
    requires id !in v.orders && FillsOf(log, id) == [] && Cancellation(id) !in log && !WasRefused(log, id)
    requires Complete(fills, q) && forall m :: m in fills ==> m.FillReport? && m.id == id
    ensures Accounted(v, log + fills, id, q)
  {
    FillsSplit(log, fills, id);
    AllFills(fills, id);
    RefusedSplit(log, fills, id);
    assert FillsOf(log + fills, id) == fills;
  }

  lemma {:induction false} MessagesOfTwo(a: seq<Emission>, b: seq<Emission>)
    ensures Messages(a + b) == Messages(a) + Messages(b)
  {
  }

  lemma {:induction false} LogOfTwo(log: seq<Message>, a: seq<Emission>, b: seq<Emission>)
    ensures log + Messages(a + b) == (log + Messages(a)) + Messages(b)
  {
  }

  lemma {:induction false} RequestKeepsInv(v: Venue, log: seq<Message>, ledger: map<OrderId, Quantity>, cfg: Config, r: Request, gate: real, d: Draw)
    requires Inv(v, log, ledger) && SafeSplits(cfg)
    requires r.id !in ledger && r.quantity > 0.0 && Fair(cfg, d) && r.exchange == cfg.venue
    ensures var (v', es) := OnRequest(v, cfg, r, gate, d); Inv(v', log + Messages(es), ledger[r.id := r.quantity])
  {
    var (v', es) := OnRequest(v, cfg, r, gate, d);
    var ms := Messages(es);
    assert Unknown(v, log, r.id);
    RequestAccounted(v, log, cfg, r, gate, d);
    InvAfter(v, v', log, ms, ledger, ledger[r.id := r.quantity], r.id);
  }

  lemma {:induction false} RequestAccounted(v: Venue, log: seq<Message>, cfg: Config, r: Request, gate: real, d: Draw)
    requires Unknown(v, log, r.id) && SafeSplits(cfg)
    requires r.quantity > 0.0 && Fair(cfg, d) && r.exchange == cfg.venue
    requires forall id :: id in v.orders ==> id in v.keys
    ensures var (v', es) := OnRequest(v, cfg, r, gate, d);
            && Accounted(v', log + Messages(es), r.id, r.quantity)
            && About(Messages(es), r.id) && SameBut(v, v', r.id)
            && (forall id :: id in v'.orders ==> id in v'.keys)
  {
    var (v', es) := OnRequest(v, cfg, r, gate, d);
    var ack := [Emission(cfg.submitAckMs, Acknowledgement(r.id))];
    if |es| == 1 {
      assert Messages(es) == [es[0].message];
    }
    if es != [] {
      OneMessage(log, es[0].message, r.id);
    }
    if r.kind in {Market, Ioc, Fok} || Crosses(v, r) {
      if es[0].message.Acknowledgement? {
        TakenAccounted(v, log, cfg, r, d);
      }
    }
  }

  lemma {:induction false} TakenAccounted(v: Venue, log: seq<Message>, cfg: Config, r: Request, d: Draw)
    requires Unknown(v, log, r.id) && SafeSplits(cfg) && r.quantity > 0.0 && Fair(cfg, d)
    ensures var es := [Emission(cfg.submitAckMs, Acknowledgement(r.id))] + FillMarket(v, cfg, r, d);
            Accounted(v, log + Messages(es), r.id, r.quantity) && About(Messages(es), r.id)
  {
    var ack := [Emission(cfg.submitAckMs, Acknowledgement(r.id))];
    var fills := FillMarket(v, cfg, r, d);
    LogOfTwo(log, ack, fills);
    assert Messages(ack) == [Acknowledgement(r.id)];
    OneMessage(log, Acknowledgement(r.id), r.id);
    LiquidityAccounted(v, log + [Acknowledgement(r.id)], cfg, r, d);
    AboutBoth(ack, fills, r.id);
  }

  lemma {:induction false} AboutBoth(a: seq<Emission>, b: seq<Emission>, id: OrderId)
    requires About(Messages(a), id) && About(Messages(b), id)
    ensures About(Messages(a + b), id)
  {
    MessagesOfTwo(a, b);
  }

  lemma {:induction false} LiquidityAccounted(v: Venue, log: seq<Message>, cfg: Config, r: Request, d: Draw)
    requires Unknown(v, log, r.id) && SafeSplits(cfg) && r.quantity > 0.0 && Fair(cfg, d)
    ensures var fills := FillMarket(v, cfg, r, d);
            Accounted(v, log + Messages(fills), r.id, r.quantity) && About(Messages(fills), r.id)
  {
    match TakerPrice(v, cfg, r) {
      case None =>
        assert Messages(FillMarket(v, cfg, r, d)) == [Rejection(r.id, NoMarketData)];
        OneMessage(log, Rejection(r.id, NoMarketData), r.id);
      case Some(price) =>
        TakerFillsAreWhole(cfg, r, cfg.rounded(r.instrument, price), cfg.submitAckMs + cfg.fillMs, d);
        FillsComplete(v, log, Messages(FillMarket(v, cfg, r, d)), r.id, r.quantity);
    }
  }

  lemma {:induction false} CancelKeepsInv(v: Venue, log: seq<Message>, ledger: map<OrderId, Quantity>, cfg: Config, x: OrderId)
    requires Inv(v, log, ledger)
    ensures var (v', es) := OnCancel(v, cfg, x); Inv(v', log + Messages(es), ledger)
  {
    var (v', es) := OnCancel(v, cfg, x);
    assert Messages(es) == [es[0].message];
    OneMessage(log, es[0].message, x);
    WithoutKeepsOthers(v.keys, x);
    InvAfter(v, v', log, Messages(es), ledger, ledger, x);
  }

  lemma {:induction false} AmendKeepsInv(v: Venue, log: seq<Message>, ledger: map<OrderId, Quantity>, cfg: Config, x: OrderId,
                      q: Option<Quantity>, p: Option<Price>)
    requires Inv(v, log, ledger) && (q.Some? ==> q.value > 0.0)
    ensures Inv(OnAmend(v, x, q, p), log, Ledger(ledger, v, cfg, AmendArrives(x, q, p)))
  {
    assert log + [] == log;
    if x in v.orders {
      assert x in ledger;
      InvAfter(v, OnAmend(v, x, q, p), log, [], ledger, Ledger(ledger, v, cfg, AmendArrives(x, q, p)), x);
    }
  }

  lemma {:induction false} MatchKeepsInv(v: Venue, log: seq<Message>, ledger: map<OrderId, Quantity>, cfg: Config, x: OrderId,
                      instrument: InstrumentId, price: Price, d: Draw)
    requires Inv(v, log, ledger) && SafeSplits(cfg) && Fair(cfg, d)
    ensures var (v', es) := MatchOne(v, cfg, x, instrument, price, d); Inv(v', log + Messages(es), ledger)
  {
    assert log + [] == log;
    if x in v.orders && TradesThrough(v.orders[x], instrument, price) {
      assert x in ledger;
      var (v', es) := MatchOne(v, cfg, x, instrument, price, d);
      MakerFillsAreWhole(cfg, v.orders[x], d);
      WithoutKeepsOthers(v.keys, x);
      FillsComplete(v', log, Messages(es), x, ledger[x]);
      InvAfter(v, v', log, Messages(es), ledger, ledger, x);
    }
  }

  lemma {:induction false} TradeKeepsInv(v: Venue, log: seq<Message>, ledger: map<OrderId, Quantity>, cfg: Config,
                                         keys: seq<OrderId>, k: nat, instrument: InstrumentId, price: Price, draws: nat -> Draw)
    requires k <= |keys| && Inv(v, log, ledger) && SafeSplits(cfg) && forall i: nat :: Fair(cfg, draws(i))
    ensures var (v', es) := MatchAll(v, cfg, keys, k, instrument, price, draws); Inv(v', log + Messages(es), ledger)
    decreases |keys| - k
  {
    if k == |keys| {
      assert log + [] == log;
    } else {
      MatchKeepsInv(v, log, ledger, cfg, keys[k], instrument, price, draws(k));
      var (v1, fills) := MatchOne(v, cfg, keys[k], instrument, price, draws(k));
      TradeKeepsInv(v1, log + Messages(fills), ledger, cfg, keys, k + 1, instrument, price, draws);
      var (v2, more) := MatchAll(v1, cfg, keys, k + 1, instrument, price, draws);
      LogOfTwo(log, fills, more);
    }
  }

  lemma {:induction false} HandleKeepsInv(v: Venue, log: seq<Message>, ledger: map<OrderId, Quantity>, cfg: Config, input: Input)
    requires Inv(v, log, ledger) && SafeSplits(cfg) && Admissible(cfg, ledger, input)
    ensures var (v', es) := Handle(v, cfg, input); Inv(v', log + Messages(es), Ledger(ledger, v, cfg, input))
  {
    assert log + Messages([]) == log;
    match input {
      case OrderArrives(r, gate, d) =>
        if r.exchange == cfg.venue {
          RequestKeepsInv(v, log, ledger, cfg, r, gate, d);
        }
      case CancelArrives(id) => CancelKeepsInv(v, log, ledger, cfg, id);
      case AmendArrives(id, q, p) => AmendKeepsInv(v, log, ledger, cfg, id, q, p);
      case TickArrives(_, _) =>
      case TradeArrives(instrument, price, draws) =>
        TradeKeepsInv(v, log, ledger, cfg, v.keys, 0, instrument, price, draws);
    }
  }

  // ----- Runs -----

  datatype History = History(venue: Venue, log: seq<Message>, ledger: map<OrderId, Quantity>)

  function After(cfg: Config, inputs: seq<Input>): History {
    if inputs == [] then History(EmptyVenue, [], map[])
    else
      var h := After(cfg, inputs[..|inputs| - 1]);
      var input := inputs[|inputs| - 1];
      var (v, es) := Handle(h.venue, cfg, input);
      History(v, h.log + Messages(es), Ledger(h.ledger, h.venue, cfg, input))
  }

  ghost predicate AdmissibleRun(cfg: Config, inputs: seq<Input>) {
    inputs == [] ||
    (AdmissibleRun(cfg, inputs[..|inputs| - 1])
     && Admissible(cfg, After(cfg, inputs[..|inputs| - 1]).ledger, inputs[|inputs| - 1]))
  }

  /** Over every sequence of inputs, every order taken in is resting untouched, or was
      cancelled or refused without a fill, or its fills sum to exactly its quantity with
      true running sums; no other order has any of these. */
  lemma {:induction false} EveryOrderIsAccountedFor(cfg: Config, inputs: seq<Input>)
    requires SafeSplits(cfg) && AdmissibleRun(cfg, inputs)
    ensures var h := After(cfg, inputs); Inv(h.venue, h.log, h.ledger)
  {
    if inputs != [] {
      var before := inputs[..|inputs| - 1];
      EveryOrderIsAccountedFor(cfg, before);
      var h := After(cfg, before);
      HandleKeepsInv(h.venue, h.log, h.ledger, cfg, inputs[|inputs| - 1]);
    }
  }

  // ----- What a trade takes -----

  predicate Untouched(v: Venue) {
    forall id :: id in v.orders ==> v.orders[id].leaves == v.orders[id].quantity > 0.0
  }

  function Survivors(v: Venue, instrument: InstrumentId, price: Price): map<OrderId, RestingOrder> {
    map id | id in v.orders && !TradesThrough(v.orders[id], instrument, price) :: v.orders[id]
  }

  lemma {:induction false} MatchOneTakes(v: Venue, cfg: Config, x: OrderId, instrument: InstrumentId, price: Price, d: Draw)
    requires Untouched(v) && SafeSplits(cfg) && Fair(cfg, d)
    ensures var v' := MatchOne(v, cfg, x, instrument, price, d).0;
            v'.orders == if x in v.orders && TradesThrough(v.orders[x], instrument, price) then v.orders - {x} else v.orders
  {
    if x in v.orders {
      MakerFillsAreWhole(cfg, v.orders[x], d);
    }
  }

  lemma {:induction false} MatchAllTakes(v: Venue, cfg: Config, keys: seq<OrderId>, k: nat, instrument: InstrumentId,
                                         price: Price, draws: nat -> Draw)
    requires k <= |keys| && Untouched(v) && SafeSplits(cfg) && forall i: nat :: Fair(cfg, draws(i))
    requires forall id :: id in v.orders && TradesThrough(v.orders[id], instrument, price) ==> id in keys[k..]
    ensures MatchAll(v, cfg, keys, k, instrument, price, draws).0.orders == Survivors(v, instrument, price)
    decreases |keys| - k
  {
    if k < |keys| {
      MatchOneTakes(v, cfg, keys[k], instrument, price, draws(k));
      var v1 := MatchOne(v, cfg, keys[k], instrument, price, draws(k)).0;
      assert keys[k..] == [keys[k]] + keys[k + 1..];
      MatchAllTakes(v1, cfg, keys, k + 1, instrument, price, draws);
      assert Survivors(v1, instrument, price) == Survivors(v, instrument, price);
    }
  }

  /** A trade takes from the book exactly the orders it trades through, and changes no other. */
  lemma {:induction false} TradeTakesExactlyWhatItCrosses(v: Venue, log: seq<Message>, ledger: map<OrderId, Quantity>, cfg: Config,
                                       instrument: InstrumentId, price: Price, draws: nat -> Draw)
    requires Inv(v, log, ledger) && SafeSplits(cfg) && forall i: nat :: Fair(cfg, draws(i))
    ensures Handle(v, cfg, TradeArrives(instrument, price, draws)).0.orders == Survivors(v, instrument, price)
  {
    assert v.keys[0..] == v.keys;
    forall id | id in v.orders ensures v.orders[id].leaves == v.orders[id].quantity > 0.0 {
      assert id in ledger;
    }
    MatchAllTakes(v, cfg, v.keys, 0, instrument, price, draws);
  }
}
