/** Trade statistics of a backtest: first-in-first-out matching of fills, and drawdown. */
module TradeStats {
  import opened Types

  datatype Key = Key(strategy: StrategyId, instrument: InstrumentId)

  datatype Trade = Trade(key: Key, side: Side, price: Price, quantity: Quantity)

  datatype Lot = Lot(price: Price, quantity: Quantity, side: Side)

  // ----- Matching one fill against a queue -----

  datatype Closing = Closing(queue: seq<Lot>, pnls: seq<real>, remaining: Quantity)

  function Pnl(lot: Lot, price: Price, quantity: Quantity): real {
    Signed(lot.side, Notional(price - lot.price, quantity))
  }

  function Notional(price: Price, quantity: Quantity): real { price * quantity }

  function Signed(side: Side, x: real): real {
    match side
    case Buy => x
    case Sell => -x
  }

  /** Opposite lots are closed from the front until none is left or the fill is used up. */
  function Close(queue: seq<Lot>, price: Price, side: Side, quantity: Quantity): Closing {
    if queue == [] || quantity <= 0.0 || queue[0].side == side then Closing(queue, [], quantity)
    else
      var lot := queue[0];
      if quantity < lot.quantity then
        Closing([lot.(quantity := lot.quantity - quantity)] + queue[1..], [Pnl(lot, price, quantity)], 0.0)
      else
        var rest := Close(queue[1..], price, side, quantity - lot.quantity);
        rest.(pnls := [Pnl(lot, price, lot.quantity)] + rest.pnls)
  }

  function Take(queue: seq<Lot>, t: Trade): (seq<Lot>, seq<real>) {
    var c := Close(queue, t.price, t.side, t.quantity);
    (if c.remaining > 0.0 then c.queue + [Lot(t.price, c.remaining, t.side)] else c.queue, c.pnls)
  }

  /** The quantity of the first `n` lots. */
  function FirstLots(queue: seq<Lot>, n: nat): Quantity
    requires n <= |queue|
  {
    if n == 0 then 0.0 else FirstLots(queue, n - 1) + queue[n - 1].quantity
  }

  /** The j-th closing: of the j-th lot, what the fill still has for it, for the difference
      in price. */
  predicate IsClosing(queue: seq<Lot>, price: Price, side: Side, quantity: Quantity, j: nat, pnl: real)
    requires j < |queue|
  {
    var left := quantity - FirstLots(queue, j);
    var closed := if queue[j].quantity < left then queue[j].quantity else left;
    && queue[j].side != side && closed > 0.0
    && pnl == match side case Sell => (price - queue[j].price) * closed case Buy => (queue[j].price - price) * closed
  }

  lemma {:induction false} FirstLotsShift(queue: seq<Lot>, n: nat)
    requires queue != [] && n <= |queue| - 1
    ensures FirstLots(queue, n + 1) == queue[0].quantity + FirstLots(queue[1..], n)
  {
    if n > 0 {
      FirstLotsShift(queue, n - 1);
    }
  }

  lemma {:induction false} PnlIsDifference(lot: Lot, price: Price, side: Side, quantity: Quantity)
    requires lot.side != side
    ensures Pnl(lot, price, quantity) ==
            match side case Sell => (price - lot.price) * quantity case Buy => (lot.price - price) * quantity
  {
    assert (lot.price - price) * quantity == -((price - lot.price) * quantity);
  }

  lemma {:induction false} ClosingShifts(queue: seq<Lot>, price: Price, side: Side, quantity: Quantity, j: nat, pnl: real)
    requires queue != [] && j < |queue| - 1 && IsClosing(queue[1..], price, side, quantity - queue[0].quantity, j, pnl)
    ensures IsClosing(queue, price, side, quantity, j + 1, pnl)
  {
    FirstLotsShift(queue, j);
  }

  lemma {:induction false} FirstClosing(queue: seq<Lot>, price: Price, side: Side, quantity: Quantity)
    requires queue != [] && quantity > 0.0 && queue[0].side != side && queue[0].quantity > 0.0
    ensures IsClosing(queue, price, side, quantity, 0, Pnl(queue[0], price, if quantity < queue[0].quantity then quantity else queue[0].quantity))
  {
    PnlIsDifference(queue[0], price, side, if quantity < queue[0].quantity then quantity else queue[0].quantity);
  }

  /** A fill closes lots of the other side from the oldest on, one profit or loss for each. */
  lemma {:induction false} ClosingsArePriced(queue: seq<Lot>, price: Price, side: Side, quantity: Quantity)
    requires forall i :: 0 <= i < |queue| ==> queue[i].quantity > 0.0
    ensures var pnls := Close(queue, price, side, quantity).pnls;
            |pnls| <= |queue| && forall j :: 0 <= j < |pnls| ==> IsClosing(queue, price, side, quantity, j, pnls[j])
  {
    if queue != [] && quantity > 0.0 && queue[0].side != side {
      FirstClosing(queue, price, side, quantity);
      if quantity >= queue[0].quantity {
        var rest := queue[1..];
        ClosingsArePriced(rest, price, side, quantity - queue[0].quantity);
        var later := Close(rest, price, side, quantity - queue[0].quantity).pnls;
        forall j | 0 <= j < |later| ensures IsClosing(queue, price, side, quantity, j + 1, later[j]) {
          ClosingShifts(queue, price, side, quantity, j, later[j]);
        }
      }
    }
  }

  /** It stops only where there is no lot left, or none of the other side, or nothing to close. */
  lemma {:induction false} ClosingGoesAsFarAsItCan(queue: seq<Lot>, price: Price, side: Side, quantity: Quantity)
    requires forall i :: 0 <= i < |queue| ==> queue[i].quantity > 0.0
    ensures var n := |Close(queue, price, side, quantity).pnls|;
            n == |queue| || (n < |queue| && (queue[n].side == side || quantity <= FirstLots(queue, n)))
  {
    if queue != [] && quantity > 0.0 && queue[0].side != side {
      assert FirstLots(queue, 1) == queue[0].quantity;
      if quantity >= queue[0].quantity {
        var rest := queue[1..];
        ClosingGoesAsFarAsItCan(rest, price, side, quantity - queue[0].quantity);
        var n := |Close(rest, price, side, quantity - queue[0].quantity).pnls|;
        if n < |rest| {
          FirstLotsShift(queue, n);
        }
      }
    }
  }

  // ----- All fills -----

  /** The queues in the order in which their keys first appeared. */
  datatype Books = Books(keys: seq<Key>, queues: map<Key, seq<Lot>>, pnls: seq<real>)

  function QueueOf(b: Books, key: Key): seq<Lot> {
    if key in b.queues then b.queues[key] else []
  }

  function Record(b: Books, t: Trade): Books {
    var (queue, pnls) := Take(QueueOf(b, t.key), t);
    Books(if t.key in b.queues then b.keys else b.keys + [t.key], b.queues[t.key := queue], b.pnls + pnls)
  }

  function Recorded(trades: seq<Trade>): Books {
    if trades == [] then Books([], map[], []) else Record(Recorded(trades[..|trades| - 1]), trades[|trades| - 1])
  }

  lemma {:induction false} SumSplit(a: seq<real>, b: seq<real>)
    ensures Sum(a + b) == Sum(a) + Sum(b)
  {
    if b == [] {
      assert a + b == a;
    } else {
      assert (a + b)[..|a + b| - 1] == a + b[..|b| - 1];
      SumSplit(a, b[..|b| - 1]);
    }
  }

  // ----- One-sided queues, and the inventory they hold -----

  predicate OneSided(queue: seq<Lot>) {
    forall i :: 0 <= i < |queue| ==> queue[i].quantity > 0.0 && queue[i].side == queue[0].side
  }

  /** Signed quantity: what the lots hold. */
  function Held(queue: seq<Lot>): real {
    if queue == [] then 0.0
    else Signed(queue[0].side, queue[0].quantity) + Held(queue[1..])
  }

  /** Signed cost: what was paid for them. */
  function Cost(queue: seq<Lot>): real {
    if queue == [] then 0.0
    else Signed(queue[0].side, Notional(queue[0].price, queue[0].quantity)) + Cost(queue[1..])
  }

  function Position(trades: seq<Trade>, key: Key): real {
    if trades == [] then 0.0
    else
      var t := trades[|trades| - 1];
      Position(trades[..|trades| - 1], key) + if t.key == key then Signed(t.side, t.quantity) else 0.0
  }

  function CashFlow(trades: seq<Trade>): real {
    if trades == [] then 0.0
    else
      var t := trades[|trades| - 1];
      CashFlow(trades[..|trades| - 1]) - Signed(t.side, Notional(t.price, t.quantity))
  }

  predicate AllPositive(trades: seq<Trade>) { forall i :: 0 <= i < |trades| ==> trades[i].quantity > 0.0 }

  lemma {:induction false} CloseKeepsOneSided(queue: seq<Lot>, price: Price, side: Side, quantity: Quantity)
    requires OneSided(queue) && quantity >= 0.0
    ensures var c := Close(queue, price, side, quantity);
            && OneSided(c.queue) && 0.0 <= c.remaining <= quantity
            && (c.remaining > 0.0 && c.queue != [] ==> c.queue[0].side == side)
            && (c.queue != [] ==> queue != [] && c.queue[0].side == queue[0].side)
  {
    if queue != [] && quantity > 0.0 && queue[0].side != side && queue[0].quantity <= quantity {
      assert forall i :: 0 <= i < |queue[1..]| ==> queue[1..][i] == queue[i + 1];
      CloseKeepsOneSided(queue[1..], price, side, quantity - queue[0].quantity);
    }
  }

  lemma {:induction false} CloseInventory(queue: seq<Lot>, price: Price, side: Side, quantity: Quantity)
    ensures var c := Close(queue, price, side, quantity);
            Held(c.queue) == Held(queue) + Signed(side, quantity - c.remaining)
  {
    if queue != [] && quantity > 0.0 && queue[0].side != side {
      CloseInventory(queue[1..], price, side, quantity - queue[0].quantity);
    }
  }

  lemma {:induction false} Spread(a: real, b: real, c: real)
    ensures Notional(a, b + c) == Notional(a, b) + Notional(a, c)
    ensures Notional(a, b - c) == Notional(a, b) - Notional(a, c)
    ensures Notional(b - c, a) == Notional(b, a) - Notional(c, a)
  {
  }

  lemma {:induction false} OnePnl(lot: Lot, price: Price, quantity: Quantity)
    ensures Sum([Pnl(lot, price, quantity)]) == Signed(lot.side, Notional(price, quantity) - Notional(lot.price, quantity))
  {
    assert [Pnl(lot, price, quantity)][..0] == [];
    Spread(quantity, price, lot.price);
  }

  /** Profit and cost over one closing: what was fetched, less what it had cost. */
  predicate MoneyBalances(queue: seq<Lot>, price: Price, side: Side, quantity: Quantity, c: Closing) {
    Sum(c.pnls) == Cost(c.queue) - Cost(queue) - Signed(side, Notional(price, quantity - c.remaining))
  }

  lemma {:induction false} PartCloses(queue: seq<Lot>, price: Price, side: Side, quantity: Quantity, c: Closing)
    requires queue != [] && queue[0].side != side
    requires var lot := queue[0];
             c == Closing([lot.(quantity := lot.quantity - quantity)] + queue[1..], [Pnl(lot, price, quantity)], 0.0)
    ensures MoneyBalances(queue, price, side, quantity, c)
  {
    var lot := queue[0];
    OnePnl(lot, price, quantity);
    Spread(lot.price, lot.quantity, quantity);
    assert c.queue[1..] == queue[1..];
    assert Cost(c.queue) == Signed(lot.side, Notional(lot.price, lot.quantity - quantity)) + Cost(queue[1..]);
    assert quantity - c.remaining == quantity;
  }

  lemma {:induction false} LotCloses(queue: seq<Lot>, price: Price, side: Side, quantity: Quantity, rest: Closing)
    requires queue != [] && queue[0].side != side
    requires MoneyBalances(queue[1..], price, side, quantity - queue[0].quantity, rest)
    ensures MoneyBalances(queue, price, side, quantity, rest.(pnls := [Pnl(queue[0], price, queue[0].quantity)] + rest.pnls))
  {
    var lot := queue[0];
    OnePnl(lot, price, lot.quantity);
    SumSplit([Pnl(lot, price, lot.quantity)], rest.pnls);
    var closed := quantity - lot.quantity - rest.remaining;
    Spread(price, closed, lot.quantity);
    assert closed + lot.quantity == quantity - rest.remaining;
  }

  lemma {:induction false} CloseMoney(queue: seq<Lot>, price: Price, side: Side, quantity: Quantity)
    ensures MoneyBalances(queue, price, side, quantity, Close(queue, price, side, quantity))
  {
    if queue == [] || quantity <= 0.0 || queue[0].side == side {
      NothingCloses(price, quantity);
    } else if quantity < queue[0].quantity {
      PartCloses(queue, price, side, quantity, Close(queue, price, side, quantity));
    } else {
      CloseMoney(queue[1..], price, side, quantity - queue[0].quantity);
      LotCloses(queue, price, side, quantity, Close(queue[1..], price, side, quantity - queue[0].quantity));
    }
  }

  lemma {:induction false} NothingCloses(price: Price, quantity: Quantity)
    ensures Notional(price, quantity - quantity) == 0.0
  {
  }

  // ----- A fill against its queue -----

  lemma {:induction false} AppendLot(queue: seq<Lot>, lot: Lot)
    ensures Held(queue + [lot]) == Held(queue) + Signed(lot.side, lot.quantity)
    ensures Cost(queue + [lot]) == Cost(queue) + Signed(lot.side, Notional(lot.price, lot.quantity))
  {
    if queue != [] {
      assert (queue + [lot])[1..] == queue[1..] + [lot];
      AppendLot(queue[1..], lot);
    } else {
      assert [lot][1..] == [];
    }
  }

  lemma {:induction false} TakeBalances(queue: seq<Lot>, t: Trade)
    requires OneSided(queue) && t.quantity > 0.0
    ensures var (q, pnls) := Take(queue, t);
            && OneSided(q)
            && Held(q) == Held(queue) + Signed(t.side, t.quantity)
            && Sum(pnls) == Cost(q) - Cost(queue) - Signed(t.side, Notional(t.price, t.quantity))
  {
    var c := Close(queue, t.price, t.side, t.quantity);
    CloseKeepsOneSided(queue, t.price, t.side, t.quantity);
    CloseInventory(queue, t.price, t.side, t.quantity);
    CloseMoney(queue, t.price, t.side, t.quantity);
    Spread(t.price, t.quantity, c.remaining);
    if c.remaining > 0.0 {
      AppendLot(c.queue, Lot(t.price, c.remaining, t.side));
    } else {
      assert c.remaining == 0.0 && Notional(t.price, 0.0) == 0.0;
    }
  }

  // ----- All queues together -----

  function TotalCost(keys: seq<Key>, queues: map<Key, seq<Lot>>): real
    requires forall k :: k in keys ==> k in queues
  {
    if keys == [] then 0.0
    else
      assert keys[0] in keys;
      Cost(queues[keys[0]]) + TotalCost(keys[1..], queues)
  }

  predicate Distinct(keys: seq<Key>) { forall i, j :: 0 <= i < j < |keys| ==> keys[i] != keys[j] }

  ghost predicate Indexed(b: Books) { Distinct(b.keys) && forall k :: k in b.keys <==> k in b.queues }

  lemma {:induction false} TotalUnchanged(keys: seq<Key>, queues: map<Key, seq<Lot>>, key: Key, queue: seq<Lot>)
    requires (forall k :: k in keys ==> k in queues) && key !in keys
    ensures TotalCost(keys, queues[key := queue]) == TotalCost(keys, queues)
  {
    if keys != [] {
      assert keys[0] in keys;
      TotalUnchanged(keys[1..], queues, key, queue);
    }
  }

  lemma {:induction false} TotalUpdated(keys: seq<Key>, queues: map<Key, seq<Lot>>, key: Key, queue: seq<Lot>)
    requires (forall k :: k in keys ==> k in queues) && Distinct(keys) && key in keys
    ensures TotalCost(keys, queues[key := queue]) == TotalCost(keys, queues) - Cost(queues[key]) + Cost(queue)
  {
    if keys[0] == key {
      assert forall i :: 0 <= i < |keys[1..]| ==> keys[1..][i] == keys[i + 1];
      TotalUnchanged(keys[1..], queues, key, queue);
    } else {
      assert key in keys[1..];
      TotalUpdated(keys[1..], queues, key, queue);
    }
  }

  lemma {:induction false} TotalExtended(keys: seq<Key>, queues: map<Key, seq<Lot>>, key: Key)
    requires forall k :: k in keys + [key] ==> k in queues
    ensures (forall k :: k in keys ==> k in queues) && key in queues
    ensures TotalCost(keys + [key], queues) == TotalCost(keys, queues) + Cost(queues[key])
  {
    assert key in keys + [key];
    assert forall k :: k in keys ==> k in keys + [key];
    if keys == [] {
      assert [key][1..] == [] && keys + [key] == [key];
    } else {
      assert (keys + [key])[1..] == keys[1..] + [key];
      TotalExtended(keys[1..], queues, key);
    }
  }

  lemma {:induction false} RecordTotal(b: Books, t: Trade, queue: seq<Lot>)
    requires Indexed(b)
    requires queue == Take(QueueOf(b, t.key), t).0
    ensures Indexed(Record(b, t))
    ensures TotalCost(Record(b, t).keys, Record(b, t).queues) == TotalCost(b.keys, b.queues) - Cost(QueueOf(b, t.key)) + Cost(queue)
  {
    if t.key in b.queues {
      TotalUpdated(b.keys, b.queues, t.key, queue);
    } else {
      TotalUnchanged(b.keys, b.queues, t.key, queue);
      TotalExtended(b.keys, b.queues[t.key := queue], t.key);
    }
  }

  ghost predicate QueuesBalance(trades: seq<Trade>, b: Books) {
    forall key :: OneSided(QueueOf(b, key)) && Held(QueueOf(b, key)) == Position(trades, key)
  }

  lemma {:induction false} QueuesHoldThePosition(trades: seq<Trade>)
    requires AllPositive(trades)
    ensures QueuesBalance(trades, Recorded(trades))
  {
    if trades != [] {
      var before := trades[..|trades| - 1];
      var t := trades[|trades| - 1];
      QueuesHoldThePosition(before);
      var b := Recorded(before);
      TakeBalances(QueueOf(b, t.key), t);
      forall key ensures OneSided(QueueOf(Recorded(trades), key)) && Held(QueueOf(Recorded(trades), key)) == Position(trades, key) {
        if key != t.key {
          assert QueueOf(Recorded(trades), key) == QueueOf(b, key);
        }
      }
    }
  }

  lemma {:induction false} RecordMoney(b: Books, t: Trade)
    requires Indexed(b) && OneSided(QueueOf(b, t.key)) && t.quantity > 0.0
    ensures var b' := Record(b, t);
            && Indexed(b')
            && Sum(b'.pnls) - Sum(b.pnls)
            == TotalCost(b'.keys, b'.queues) - TotalCost(b.keys, b.queues) - Signed(t.side, Notional(t.price, t.quantity))
  {
    var (queue, pnls) := Take(QueueOf(b, t.key), t);
    TakeBalances(QueueOf(b, t.key), t);
    RecordTotal(b, t, queue);
    SumSplit(b.pnls, pnls);
  }

  lemma {:induction false} MoneyAddsUp(trades: seq<Trade>)
    requires AllPositive(trades)
    ensures var b := Recorded(trades);
            Indexed(b) && Sum(b.pnls) == CashFlow(trades) + TotalCost(b.keys, b.queues)
  {
    if trades != [] {
      var before := trades[..|trades| - 1];
      MoneyAddsUp(before);
      QueuesHoldThePosition(before);
      RecordMoney(Recorded(before), trades[|trades| - 1]);
    }
  }

  /** For any fills: each queue holds lots of one side only and exactly the net position, and
      the profits add up to the cash that came in plus the signed cost of what is open. */
  lemma {:induction false} MatchingConserves(trades: seq<Trade>)
    requires AllPositive(trades)
    ensures var b := Recorded(trades);
            && Indexed(b)
            && (forall key :: OneSided(QueueOf(b, key)) && Held(QueueOf(b, key)) == Position(trades, key))
            && Sum(b.pnls) == CashFlow(trades) + TotalCost(b.keys, b.queues)
  {
    QueuesHoldThePosition(trades);
    MoneyAddsUp(trades);
  }

  // ----- First in, first out -----

  /** The most recent `amount` traded on `side`, oldest lot first. */
  function Latest(trades: seq<Trade>, key: Key, side: Side, amount: Quantity): seq<Lot> {
    if trades == [] || amount <= 0.0 then []
    else
      var t := trades[|trades| - 1];
      var before := trades[..|trades| - 1];
      if t.key != key || t.side != side then Latest(before, key, side, amount)
      else if amount <= t.quantity then [Lot(t.price, amount, side)]
      else Latest(before, key, side, amount - t.quantity) + [Lot(t.price, t.quantity, side)]
  }

  function Size(queue: seq<Lot>): Quantity {
    if queue == [] then 0.0 else queue[0].quantity + Size(queue[1..])
  }

  lemma {:induction false} SizeOfJoin(front: seq<Lot>, last: Lot)
    ensures Size(front + [last]) == Size(front) + last.quantity
  {
    if front == [] {
      assert front + [last] == [last] && [last][1..] == [];
    } else {
      assert (front + [last])[1..] == front[1..] + [last];
      SizeOfJoin(front[1..], last);
    }
  }

  lemma {:induction false} SizeIsPositive(queue: seq<Lot>)
    requires OneSided(queue)
    ensures queue != [] ==> Size(queue) > 0.0
  {
    if queue != [] {
      assert forall i :: 0 <= i < |queue[1..]| ==> queue[1..][i] == queue[i + 1];
      SizeIsPositive(queue[1..]);
    }
  }

  lemma {:induction false} CloseSizes(queue: seq<Lot>, price: Price, side: Side, quantity: Quantity)
    requires OneSided(queue) && quantity > 0.0 && (queue != [] ==> queue[0].side != side)
    ensures var c := Close(queue, price, side, quantity);
            if quantity <= Size(queue) then c.remaining == 0.0 && Size(c.queue) == Size(queue) - quantity
            else c.queue == [] && c.remaining == quantity - Size(queue)
  {
    if queue != [] {
      assert forall i :: 0 <= i < |queue[1..]| ==> queue[1..][i] == queue[i + 1];
      SizeIsPositive(queue[1..]);
      if queue[0].quantity < quantity {
        CloseSizes(queue[1..], price, side, quantity - queue[0].quantity);
      }
    }
  }

  predicate Facing(queue: seq<Lot>, side: Side) {
    forall i :: 0 <= i < |queue| ==> queue[i].quantity > 0.0 && queue[i].side != side
  }

  lemma {:induction false} FacingSize(queue: seq<Lot>, side: Side)
    requires Facing(queue, side)
    ensures Size(queue) >= 0.0
  {
    if queue != [] {
      FacingSize(queue[1..], side);
    }
  }

  /** Closing from the front reaches the last lot only when the others do not suffice. */
  lemma {:induction false} CloseFront(front: seq<Lot>, last: Lot, price: Price, side: Side, quantity: Quantity)
    requires Facing(front, side) && last.side != side && last.quantity > 0.0 && quantity > 0.0
    ensures Close(front + [last], price, side, quantity).queue ==
              if quantity <= Size(front) then Close(front, price, side, quantity).queue + [last]
              else Close([last], price, side, quantity - Size(front)).queue
  {
    var queue := front + [last];
    if front == [] {
      assert queue == [last];
    } else {
      assert queue[1..] == front[1..] + [last];
      FacingSize(front[1..], side);
      if front[0].quantity < quantity {
        CloseFront(front[1..], last, price, side, quantity - front[0].quantity);
      }
    }
  }

  lemma {:induction false} LatestFaces(trades: seq<Trade>, key: Key, side: Side, amount: Quantity)
    requires AllPositive(trades)
    ensures Facing(Latest(trades, key, side, amount), side.Opposite())
  {
    if trades != [] {
      var t := trades[|trades| - 1];
      LatestFaces(trades[..|trades| - 1], key, side, amount);
      LatestFaces(trades[..|trades| - 1], key, side, amount - t.quantity);
    }
  }

  /** Taking `quantity` off the front of the latest `amount` leaves the latest of the rest. */
  lemma {:induction false} CloseLeavesLatest(trades: seq<Trade>, key: Key, side: Side, amount: Quantity, price: Price, quantity: Quantity)
    requires Size(Latest(trades, key, side, amount)) == amount
    requires AllPositive(trades) && 0.0 < quantity <= amount
    ensures Close(Latest(trades, key, side, amount), price, side.Opposite(), quantity).queue
         == Latest(trades, key, side, amount - quantity)
  {
    var t := trades[|trades| - 1];
    var before := trades[..|trades| - 1];
    if t.key != key || t.side != side {
      CloseLeavesLatest(before, key, side, amount, price, quantity);
    } else if amount <= t.quantity {
      CloseOne(Lot(t.price, amount, side), price, quantity);
    } else {
      var front := Latest(before, key, side, amount - t.quantity);
      SizeOfJoin(front, Lot(t.price, t.quantity, side));
      if quantity <= Size(front) {
        CloseLeavesLatest(before, key, side, amount - t.quantity, price, quantity);
        CloseOlderFills(trades, key, side, amount, price, quantity);
      } else {
        CloseIntoLastFill(trades, key, side, amount, price, quantity);
      }
    }
  }

  lemma {:induction false} CloseOlderFills(trades: seq<Trade>, key: Key, side: Side, amount: Quantity, price: Price, quantity: Quantity)
    requires AllPositive(trades) && trades != []
    requires var t := trades[|trades| - 1]; t.key == key && t.side == side && t.quantity < amount
    requires var t := trades[|trades| - 1];
             var before := trades[..|trades| - 1];
             var front := Latest(before, key, side, amount - t.quantity);
             && 0.0 < quantity <= Size(front) == amount - t.quantity
             && Close(front, price, side.Opposite(), quantity).queue == Latest(before, key, side, amount - t.quantity - quantity)
    ensures Close(Latest(trades, key, side, amount), price, side.Opposite(), quantity).queue
         == Latest(trades, key, side, amount - quantity)
  {
    var t := trades[|trades| - 1];
    var before := trades[..|trades| - 1];
    var front := Latest(before, key, side, amount - t.quantity);
    var last := Lot(t.price, t.quantity, side);
    LatestFaces(before, key, side, amount - t.quantity);
    CloseFront(front, last, price, side.Opposite(), quantity);
    WholeLastFill(trades, key, side, amount);
    WholeLastFill(trades, key, side, amount - quantity);
    assert (amount - quantity) - t.quantity == (amount - t.quantity) - quantity;
    assert Latest(trades, key, side, amount - quantity) == Close(front, price, side.Opposite(), quantity).queue + [last];
  }

  lemma {:induction false} CloseIntoLastFill(trades: seq<Trade>, key: Key, side: Side, amount: Quantity, price: Price, quantity: Quantity)
    requires AllPositive(trades) && trades != []
    requires var t := trades[|trades| - 1]; t.key == key && t.side == side && t.quantity < amount
    requires var t := trades[|trades| - 1];
             var size := Size(Latest(trades[..|trades| - 1], key, side, amount - t.quantity));
             size == amount - t.quantity < quantity <= amount
    ensures Close(Latest(trades, key, side, amount), price, side.Opposite(), quantity).queue
         == Latest(trades, key, side, amount - quantity)
  {
    var t := trades[|trades| - 1];
    var before := trades[..|trades| - 1];
    var front := Latest(before, key, side, amount - t.quantity);
    var last := Lot(t.price, t.quantity, side);
    LatestFaces(before, key, side, amount - t.quantity);
    CloseFront(front, last, price, side.Opposite(), quantity);
    CloseOne(last, price, quantity - Size(front));
  }

  /** The latest amount that takes in all of the last fill. */
  lemma {:induction false} WholeLastFill(trades: seq<Trade>, key: Key, side: Side, amount: Quantity)
    requires trades != []
    requires var t := trades[|trades| - 1]; t.key == key && t.side == side && 0.0 < t.quantity <= amount
    ensures var t := trades[|trades| - 1];
            Latest(trades, key, side, amount)
            == Latest(trades[..|trades| - 1], key, side, amount - t.quantity) + [Lot(t.price, t.quantity, side)]
  {
  }

  lemma {:induction false} CloseOne(lot: Lot, price: Price, quantity: Quantity)
    requires 0.0 < quantity <= lot.quantity
    ensures Close([lot], price, lot.side.Opposite(), quantity).queue
         == if quantity == lot.quantity then [] else [lot.(quantity := lot.quantity - quantity)]
  {
    assert [lot][1..] == [];
  }

  /** The open lots are the most recent fills. */
  predicate IsLatest(trades: seq<Trade>, key: Key, queue: seq<Lot>) {
    OneSided(queue) && (queue != [] ==> queue == Latest(trades, key, queue[0].side, Size(queue)))
  }

  /** A fill on the queue's own side, or on an empty queue. */
  lemma {:induction false} AddingKeepsLatest(before: seq<Trade>, t: Trade, queue: seq<Lot>)
    requires IsLatest(before, t.key, queue) && t.quantity > 0.0
    requires queue != [] ==> queue[0].side == t.side
    ensures IsLatest(before + [t], t.key, queue + [Lot(t.price, t.quantity, t.side)])
  {
    assert (before + [t])[..|before|] == before;
    SizeIsPositive(queue);
    SizeOfJoin(queue, Lot(t.price, t.quantity, t.side));
  }

  /** A fill that the queue absorbs. */
  lemma {:induction false} ClosingKeepsLatest(before: seq<Trade>, t: Trade, queue: seq<Lot>)
    requires IsLatest(before, t.key, queue) && AllPositive(before)
    requires queue != [] && queue[0].side != t.side && 0.0 < t.quantity <= Size(queue)
    ensures IsLatest(before + [t], t.key, Close(queue, t.price, t.side, t.quantity).queue)
  {
    var side, left := queue[0].side, Size(queue) - t.quantity;
    CloseSizes(queue, t.price, t.side, t.quantity);
    CloseLeavesLatest(before, t.key, side, Size(queue), t.price, t.quantity);
    CloseKeepsOneSided(queue, t.price, t.side, t.quantity);
    OtherSideIsNotLatest(before, t, side, left);
  }

  lemma {:induction false} OtherSideIsNotLatest(before: seq<Trade>, t: Trade, side: Side, amount: Quantity)
    requires t.side != side
    ensures Latest(before + [t], t.key, side, amount) == Latest(before, t.key, side, amount)
  {
    assert (before + [t])[..|before|] == before;
  }

  /** A fill that turns the position round. */
  lemma {:induction false} TurningKeepsLatest(before: seq<Trade>, t: Trade, remaining: Quantity)
    requires 0.0 < remaining <= t.quantity
    ensures IsLatest(before + [t], t.key, [Lot(t.price, remaining, t.side)])
  {
    SizeOfJoin([], Lot(t.price, remaining, t.side));
    assert [] + [Lot(t.price, remaining, t.side)] == [Lot(t.price, remaining, t.side)];
  }

  lemma {:induction false} TakeKeepsLatest(before: seq<Trade>, t: Trade, queue: seq<Lot>)
    requires IsLatest(before, t.key, queue) && AllPositive(before) && t.quantity > 0.0
    ensures IsLatest(before + [t], t.key, Take(queue, t).0)
  {
    SizeIsPositive(queue);
    if queue == [] || queue[0].side == t.side {
      AddingKeepsLatest(before, t, queue);
    } else {
      CloseSizes(queue, t.price, t.side, t.quantity);
      if t.quantity <= Size(queue) {
        ClosingKeepsLatest(before, t, queue);
      } else {
        TurningKeepsLatest(before, t, t.quantity - Size(queue));
        assert [] + [Lot(t.price, t.quantity - Size(queue), t.side)] == [Lot(t.price, t.quantity - Size(queue), t.side)];
      }
    }
  }

  lemma {:induction false} SignedSize(queue: seq<Lot>)
    requires OneSided(queue) && queue != []
    ensures Held(queue) == Signed(queue[0].side, Size(queue))
  {
    if |queue| > 1 {
      assert forall i :: 0 <= i < |queue[1..]| ==> queue[1..][i] == queue[i + 1];
      SignedSize(queue[1..]);
    }
  }

  lemma {:induction false} QueueIsLatest(trades: seq<Trade>, key: Key)
    requires AllPositive(trades)
    ensures IsLatest(trades, key, QueueOf(Recorded(trades), key))
  {
    if trades != [] {
      var before := trades[..|trades| - 1];
      var t := trades[|trades| - 1];
      assert trades == before + [t];
      QueueIsLatest(before, key);
      if t.key == key {
        TakeKeepsLatest(before, t, QueueOf(Recorded(before), key));
      }
    }
  }

  /** First in, first out, with no reference to the matching: what is open under a key is
      the last |position| units filled on the position's side. */
  lemma {:induction false} OpenLotsAreTheLatestFills(trades: seq<Trade>, key: Key)
    requires AllPositive(trades)
    ensures var p := Position(trades, key);
            QueueOf(Recorded(trades), key) == Latest(trades, key, if p > 0.0 then Buy else Sell, if p > 0.0 then p else -p)
  {
    QueueIsLatest(trades, key);
    MatchingConserves(trades);
    var queue := QueueOf(Recorded(trades), key);
    SizeIsPositive(queue);
    if queue != [] {
      SignedSize(queue);
    }
  }

  // ----- The statistics -----

  function Gains(pnls: seq<real>): real {
    if pnls == [] then 0.0
    else Gains(pnls[..|pnls| - 1]) + if pnls[|pnls| - 1] > 0.0 then pnls[|pnls| - 1] else 0.0
  }

  function Losses(pnls: seq<real>): real {
    if pnls == [] then 0.0
    else Losses(pnls[..|pnls| - 1]) + if pnls[|pnls| - 1] < 0.0 then -pnls[|pnls| - 1] else 0.0
  }

  lemma {:induction false} GainsLessLosses(pnls: seq<real>)
    ensures Gains(pnls) - Losses(pnls) == Sum(pnls) && Gains(pnls) >= 0.0 && Losses(pnls) >= 0.0
  {
    if pnls != [] {
      GainsLessLosses(pnls[..|pnls| - 1]);
    }
  }

  function Wins(pnls: seq<real>): nat {
    if pnls == [] then 0 else Wins(pnls[..|pnls| - 1]) + if pnls[|pnls| - 1] > 0.0 then 1 else 0
  }

  lemma {:induction false} WinsAtMostAll(pnls: seq<real>)
    ensures Wins(pnls) <= |pnls|
  {
    if pnls != [] {
      WinsAtMostAll(pnls[..|pnls| - 1]);
    }
  }

  datatype Factor = Infinite | Finite(value: real)

  /** Number of closings, share of winners, and gains over losses. Over one when the
      matched trading made money, and only then. */
  method TradeStatistics(trades: seq<Trade>) returns (count: nat, winRate: real, factor: Factor)
    ensures var pnls := Recorded(trades).pnls;
            && count == |pnls|
            && (pnls == [] ==> winRate == 0.0 && factor == Finite(0.0))
            && (pnls != [] ==>
                  && winRate == Wins(pnls) as real / |pnls| as real && 0.0 <= winRate <= 1.0
                  && (factor.Infinite? <==> Losses(pnls) == 0.0)
                  && (factor.Finite? ==> factor.value * Losses(pnls) == Gains(pnls) && (factor.value > 1.0 <==> Sum(pnls) > 0.0)))
  {
    var books := MatchFills(trades);
    var pnls := books.pnls;
    if pnls == [] {
      return 0, 0.0, Finite(0.0);
    }
    var wins, gains, losses := Tally(pnls);
    GainsLessLosses(pnls);
    WinsAtMostAll(pnls);
    Share(wins, |pnls|);
    if losses > 0.0 {
      Ratio(gains, losses);
    }
    count, winRate := |pnls|, wins as real / |pnls| as real;
    factor := if losses > 0.0 then Finite(gains / losses) else Infinite;
  }

  method Tally(pnls: seq<real>) returns (wins: nat, gains: real, losses: real)
    ensures wins == Wins(pnls) && gains == Gains(pnls) && losses == Losses(pnls)
  {
    wins, gains, losses := 0, 0.0, 0.0;
    for i := 0 to |pnls|
      invariant wins == Wins(pnls[..i]) && gains == Gains(pnls[..i]) && losses == Losses(pnls[..i])
    {
      assert pnls[..i + 1][..i] == pnls[..i];
      if pnls[i] > 0.0 {
        wins, gains := wins + 1, gains + pnls[i];
      }
      if pnls[i] < 0.0 {
        losses := losses - pnls[i];
      }
    }
    assert pnls[..|pnls|] == pnls;
  }

  lemma {:induction false} Share(part: nat, all: nat)
    requires part <= all && all > 0
    ensures 0.0 <= part as real / all as real <= 1.0
  {
  }

  lemma {:induction false} Ratio(a: real, b: real)
    requires b > 0.0
    ensures a / b > 1.0 <==> a > b
    ensures a / b * b == a
  {
  }

  method MatchFills(trades: seq<Trade>) returns (b: Books)
    ensures b == Recorded(trades)
  {
    b := Books([], map[], []);
    for i := 0 to |trades|
      invariant b == Recorded(trades[..i])
    {
      assert trades[..i + 1][..i] == trades[..i];
      var t := trades[i];
      if t.key !in b.queues {
        b := Books(b.keys + [t.key], b.queues[t.key := []], b.pnls);
      }
      var queue, pnls := MatchFill(b.queues[t.key], t);
      b := Books(b.keys, b.queues[t.key := queue], b.pnls + pnls);
    }
    assert trades[..|trades|] == trades;
  }

  /** The inner loop: closes opposite lots until none is left or the fill is used up. */
  method MatchFill(start: seq<Lot>, t: Trade) returns (queue: seq<Lot>, pnls: seq<real>)
    ensures (queue, pnls) == Take(start, t)
  {
    var remaining := t.quantity;
    queue, pnls := start, [];
    ghost var total := Close(start, t.price, t.side, t.quantity);
    assert [] + total.pnls == total.pnls;
    while queue != [] && remaining > 0.0
      invariant Resumes(pnls, Close(queue, t.price, t.side, remaining), total)
      decreases |queue|, if remaining > 0.0 then 1 else 0
    {
      var lot := queue[0];
      if lot.side == t.side {
        break;
      }
      var closed := if lot.quantity < remaining then lot.quantity else remaining;
      ghost var c := Close(queue, t.price, t.side, remaining);
      assert c.pnls == [Pnl(lot, t.price, closed)] + c.pnls[1..];
      pnls := pnls + [Pnl(lot, t.price, closed)];
      remaining := remaining - closed;
      if closed < lot.quantity {
        queue := [lot.(quantity := lot.quantity - closed)] + queue[1..];
      } else {
        queue := queue[1..];
      }
    }
    assert pnls + [] == pnls;
    if remaining > 0.0 {
      queue := queue + [Lot(t.price, remaining, t.side)];
    }
  }

  predicate Resumes(pnls: seq<real>, c: Closing, total: Closing) {
    c.queue == total.queue && pnls + c.pnls == total.pnls && c.remaining == total.remaining
  }

  // ----- Drawdown -----

  /** The largest fall from an earlier value to a later one, and that fall as a share of
      where it started. */
  method MaxDrawdown(equity: seq<real>) returns (drawdown: real, share: real)
    ensures forall i, j :: 0 <= i <= j < |equity| ==> equity[i] - equity[j] <= drawdown
    ensures (drawdown == 0.0 && share == 0.0)
            || exists i, j :: 0 <= i <= j < |equity| && drawdown == equity[i] - equity[j] > 0.0
                              && share == if equity[i] > 0.0 then drawdown / equity[i] else 0.0
  {
    if equity == [] {
      return 0.0, 0.0;
    }
    var peak := equity[0];
    drawdown, share := 0.0, 0.0;
    ghost var top: nat := 0;
    for k := 0 to |equity|
      invariant top < |equity| && ((k == 0 && top == 0) || top < k) && peak == equity[top]
      invariant forall i :: 0 <= i < k ==> equity[i] <= peak
      invariant forall i, j :: 0 <= i <= j < k ==> equity[i] - equity[j] <= drawdown
      invariant drawdown >= 0.0
      invariant (drawdown == 0.0 && share == 0.0)
                || exists i, j :: 0 <= i <= j < k && drawdown == equity[i] - equity[j] > 0.0
                                  && share == if equity[i] > 0.0 then drawdown / equity[i] else 0.0
    {
      if equity[k] > peak {
        peak := equity[k];
        top := k;
      }
      var fall := peak - equity[k];
      if fall > drawdown {
        drawdown := fall;
        share := if peak > 0.0 then fall / peak else 0.0;
        assert equity[top] - equity[k] == fall;
      }
    }
  }
}
