/** Where the two records can part for good: an amend whose confirmation is overtaken by a
    fill or by the sweep, and requests that time out but arrive. Each is a run of the
    protocol for one order. */
module FuturesCounterexamples {
  import opened Types
  import opened StateMachine
  import opened Orders
  import opened BinanceGateway
  import opened FuturesProtocol

  function TenLot(): OrderState {
    FreshOrder(0, Minted("mm", 0), "mm", "BTC-USDT", Buy, None, 10.0, Some(100.0))
  }

  /** The order rests on both sides, acknowledged, nothing in flight. */
  lemma {:induction false} RestingRun() returns (moves: seq<Move>, l: Line)
    ensures LineAfter(FreshLine(TenLot()), moves) == Some(l)
    ensures l == Line(TenLot().(status := Acknowledged, lastUpdate := 1, exchangeId := Some("")), 10.0,
                      Resting(10.0, 0.0, 0), [], None, [], [], [], multiset{}, false, false, false, false)
  {
    var start := FreshLine(TenLot());
    var ms, l0 := AcceptedRun();
    var l1 := ResumeRun(start, ms, l0, 1);
    l := HandleRun(start, ms + [Resume(1)], l1);
    moves := ms + [Resume(1)] + [HandleResponse];
  }

  /** Accepted by the venue, not yet acknowledged. */
  lemma {:induction false} AcceptedRun() returns (moves: seq<Move>, l: Line)
    ensures LineAfter(FreshLine(TenLot()), moves) == Some(l)
    ensures l == FreshLine(TenLot()).(venue := Resting(10.0, 0.0, 0), requests := [], phase := Some(Answered(New, Post, Done)))
  {
    var start := FreshLine(TenLot());
    var l0 := Go(start, [], start, TakeRequest(true, 1));
    l := Go(start, [] + [TakeRequest(true, 1)], l0, Serve(Done));
    moves := [] + [TakeRequest(true, 1)] + [Serve(Done)];
  }

  /** The order while an amend to `quantity` is under way. */
  function Amending(quantity: Quantity): OrderState {
    TenLot().(status := PendingAmend, lastUpdate := 2, exchangeId := Some(""), pendingAmend := Some(Amend(Some(100.0), quantity)))
  }

  function AmendingLine(quantity: Quantity, phase: Option<Phase>): Line {
    Line(Amending(quantity), 10.0, Resting(10.0, 0.0, 0), [], phase, [], [], [], multiset{}, false, false, true, false)
  }

  /** An amend to `quantity` requested and sent to the venue. */
  lemma {:induction false} AmendTakenRun(quantity: Quantity) returns (moves: seq<Move>, l: Line)
    requires quantity > 0.0
    ensures LineAfter(FreshLine(TenLot()), moves) == Some(l)
    ensures l == AmendingLine(quantity, Some(Waiting(AmendTo(Some(100.0), quantity), Put(Some(100.0), quantity))))
  {
    var start := FreshLine(TenLot());
    var ms, l0 := RestingRun();
    var amend := Amend(Some(100.0), quantity);
    var l1 := AmendSentRun(start, ms, l0, amend, 2);
    l := Go(start, ms + [SendAmend(amend, 2)], l1, TakeRequest(true, 3));
    moves := ms + [SendAmend(amend, 2)] + [TakeRequest(true, 3)];
  }

  lemma {:induction false} AmendSentRun(start: Line, before: seq<Move>, l0: Line, amend: Amend, now: int) returns (l: Line)
    requires LineAfter(start, before) == Some(l0) && SendsAmend(l0.order)
    ensures LineAfter(start, before + [SendAmend(amend, now)]) == Some(l)
    ensures l == l0.(order := AmendSent(l0.order, amend, now), requests := l0.requests + [AmendTo(amend.price, amend.quantity)], amended := true)
  {
    l := Go(start, before, l0, SendAmend(amend, now));
  }

  /** And applied by the venue, but not yet answered to the OMS. */
  lemma {:induction false} AmendAppliedRun(quantity: Quantity) returns (moves: seq<Move>, l: Line)
    requires quantity > 0.0
    ensures LineAfter(FreshLine(TenLot()), moves) == Some(l)
    ensures l == AmendingLine(quantity, Some(Answered(AmendTo(Some(100.0), quantity), Put(Some(100.0), quantity), AmendApplied(None, None))))
                 .(venue := Resting(quantity, 0.0, 0))
  {
    var ms, l0 := AmendTakenRun(quantity);
    l := Go(FreshLine(TenLot()), ms, l0, Serve(AmendApplied(None, None)));
    moves := ms + [Serve(AmendApplied(None, None))];
  }

  /** From there the venue executes `traded`, and the OMS sees the fill first. */
  lemma {:induction false} FillOvertakesAmend(quantity: Quantity, traded: Quantity) returns (moves: seq<Move>, l: Line)
    requires 0.0 < traded <= quantity
    ensures LineAfter(FreshLine(TenLot()), moves) == Some(l) && Quiet(l) && !l.faulted && !l.lost
    ensures l.order.quantity == 10.0 && l.order.filled == traded && l.order.applied == {0}
    ensures l.order.status == if traded == 10.0 then Filled else PartiallyFilled
    ensures l.venue == if traded == quantity then Gone(quantity, traded, 1, true) else Resting(quantity, traded, 1)
  {
    var start := FreshLine(TenLot());
    var ms, l0 := AmendAppliedRun(quantity);
    var ms1, l1 := ExecutionRun(start, ms, l0, traded, 100.0, 4);
    FillTaken(l0.order, Fill(0, 100.0, traded, 4));
    moves, l := StaleAmendRun(start, ms1, l1);
  }

  lemma {:induction false} FillTaken(o: OrderState, f: Fill)
    requires o.status in {PendingAmend, Acknowledged} && o.quantity == 10.0 && o.filled == 0.0 && o.applied == {} && f.quantity > 0.0
    ensures var o' := Filling(o, f);
            && o'.filled == f.quantity && o'.quantity == 10.0 && o'.applied == {f.id}
            && o'.status == if f.quantity == 10.0 then Filled else PartiallyFilled
  {
  }

  /** The amend's confirmation reaches an order that has moved on, and is dropped. */
  lemma {:induction false} StaleAmendRun(start: Line, before: seq<Move>, l0: Line) returns (moves: seq<Move>, l: Line)
    requires LineAfter(start, before) == Some(l0)
    requires l0.order.status in {Filled, PartiallyFilled, Acknowledged}
    requires l0.phase.Some? && l0.phase.value.Answered? && l0.phase.value.answer == AmendApplied(None, None)
    requires l0.phase.value.request.AmendTo? && l0.phase.value.call.Put?
    requires l0.requests == [] && l0.inbox == [] && l0.fills == [] && l0.reports == [] && l0.limbo == multiset{}
    ensures LineAfter(start, moves) == Some(l) && Quiet(l)
    ensures l.order == l0.order.(pendingAmend := None) && l.venue == l0.venue
    ensures l.faulted == l0.faulted && l.lost == l0.lost
  {
    var l1 := StaleAmendResumed(start, before, l0);
    l := HandleRun(start, before + [Resume(5)], l1);
    moves := before + [Resume(5)] + [HandleResponse];
  }

  lemma {:induction false} StaleAmendResumed(start: Line, before: seq<Move>, l0: Line) returns (l: Line)
    requires LineAfter(start, before) == Some(l0)
    requires l0.phase.Some? && l0.phase.value.Answered? && l0.phase.value.answer == AmendApplied(None, None)
    requires l0.phase.value.request.AmendTo? && l0.phase.value.call.Put? && l0.inbox == []
    ensures LineAfter(start, before + [Resume(5)]) == Some(l)
    ensures l == l0.(phase := None, inbox := l.inbox) && |l.inbox| == 1 && l.inbox[0].Amended?
  {
    l := ResumeRun(start, before, l0, 5);
  }

  /** Amended up, filled by its old quantity: the OMS records FILLED while ten lots still rest. */
  lemma {:induction false} FilledMayStillRest() returns (moves: seq<Move>, l: Line)
    ensures LineAfter(FreshLine(TenLot()), moves) == Some(l) && Quiet(l) && !l.faulted && !l.lost
    ensures l.order.status == Filled && l.venue.Resting? && l.venue.quantity - l.venue.executed == 10.0
  {
    moves, l := FillOvertakesAmend(20.0, 10.0);
  }

  /** Amended down, filled by its new quantity: the OMS tracks a live order that is gone. */
  lemma {:induction false} LiveMayBeGone() returns (moves: seq<Move>, l: Line)
    ensures LineAfter(FreshLine(TenLot()), moves) == Some(l) && Quiet(l) && !l.faulted && !l.lost
    ensures !l.order.Terminal() && l.order.Leaves() == 5.0 && l.venue.Gone?
  {
    moves, l := FillOvertakesAmend(5.0, 5.0);
  }

  /** The sweep gives an amend up just before its confirmation: nothing else is in flight, and
      the OMS goes on with ten lots where the venue has five. */
  lemma {:induction false} SweptAmendGoesAstray() returns (moves: seq<Move>, l: Line)
    ensures LineAfter(FreshLine(TenLot()), moves) == Some(l) && Quiet(l) && !l.faulted && !l.lost
    ensures l.order.status == Acknowledged && l.order.quantity == 10.0 && l.order.filled == 0.0 && l.order.applied == {}
    ensures l.venue == Resting(5.0, 0.0, 0)
  {
    var start := FreshLine(TenLot());
    var ms, l0 := AmendAppliedRun(5.0);
    var l1 := SweepRun(start, ms, l0, l0.order.lastUpdate, 0);
    moves, l := StaleAmendRun(start, ms + [SweepTick(l0.order.lastUpdate, 0)], l1);
  }

  /** And then five lots are executed, which ends the order at the venue only. */
  lemma {:induction false} SweptAmendMayBeGone() returns (moves: seq<Move>, l: Line)
    ensures LineAfter(FreshLine(TenLot()), moves) == Some(l) && Quiet(l) && !l.faulted && !l.lost
    ensures l.order.status == PartiallyFilled && l.order.Leaves() == 5.0 && l.venue == Gone(5.0, 5.0, 1, true)
  {
    var ms, l0 := SweptAmendGoesAstray();
    moves, l := ExecutionRun(FreshLine(TenLot()), ms, l0, 5.0, 100.0, 7);
    FillTaken(l0.order, Fill(0, 100.0, 5.0, 7));
  }

  /** An amend that timed out, was reported refused, and is applied all the same. */
  lemma {:induction false} TimedOutAmendGoesAstray(quantity: Quantity) returns (moves: seq<Move>, l: Line)
    requires quantity > 0.0
    ensures LineAfter(FreshLine(TenLot()), moves) == Some(l) && Quiet(l) && !l.faulted && !l.lost
    ensures l.order.status == Acknowledged && l.order.quantity == 10.0 && l.venue == Resting(quantity, 0.0, 0)
  {
    var start := FreshLine(TenLot());
    var put := Put(Some(100.0), quantity);
    var ms, l0 := AmendTimedOutRun(quantity);
    l := Go(start, ms, l0, Land(put, AmendApplied(None, None)));
    moves := ms + [Land(put, AmendApplied(None, None))];
    assert multiset{put} - multiset{put} == multiset{};
  }

  lemma {:induction false} AmendTimedOutRun(quantity: Quantity) returns (moves: seq<Move>, l: Line)
    requires quantity > 0.0
    ensures LineAfter(FreshLine(TenLot()), moves) == Some(l)
    ensures l.order.status == Acknowledged && l.order.quantity == 10.0 && l.venue == Resting(10.0, 0.0, 0)
    ensures l.limbo == multiset{Put(Some(100.0), quantity)} && !l.faulted && !l.lost
    ensures l.requests == [] && l.phase.None? && l.inbox == [] && l.fills == [] && l.reports == []
  {
    var start := FreshLine(TenLot());
    var ms, l0 := AmendFaultRun(quantity);
    l := HandleRun(start, ms, l0);
    moves := ms + [HandleResponse];
  }

  lemma {:induction false} AmendFaultRun(quantity: Quantity) returns (moves: seq<Move>, l: Line)
    requires quantity > 0.0
    ensures LineAfter(FreshLine(TenLot()), moves) == Some(l)
    ensures l == AmendingLine(quantity, None).(inbox := [AmendRejected(4)], limbo := multiset{Put(Some(100.0), quantity)})
  {
    var start := FreshLine(TenLot());
    var ms, l0 := AmendTakenRun(quantity);
    var l1 := Go(start, ms, l0, TimeOut);
    l := ResumeRun(start, ms + [TimeOut], l1, 4);
    moves := ms + [TimeOut] + [Resume(4)];
  }

  /** No condition on the quantities and executions alone tells whether the records agree:
      ten lots then five make the order FILLED, fifteen at once leave it live, and both end
      with ten lots at the OMS, fifteen executed and five of twenty resting. */
  lemma {:induction false} ExecutionsDoNotDecide() returns (movesA: seq<Move>, a: Line, movesB: seq<Move>, b: Line)
    ensures LineAfter(FreshLine(TenLot()), movesA) == Some(a) && Quiet(a) && !a.faulted && !a.lost
    ensures LineAfter(FreshLine(TenLot()), movesB) == Some(b) && Quiet(b) && !b.faulted && !b.lost
    ensures a.order.quantity == b.order.quantity == 10.0 && a.order.filled == b.order.filled == 15.0
    ensures a.venue.Resting? && b.venue.Resting? && a.venue.quantity == b.venue.quantity == 20.0
    ensures a.venue.executed == b.venue.executed == 15.0
    ensures a.order.status == Filled && b.order.status == PartiallyFilled
  {
    var ms, l0 := FillOvertakesAmend(20.0, 10.0);
    movesA, a := ExecutionRun(FreshLine(TenLot()), ms, l0, 5.0, 100.0, 7);
    movesB, b := FillOvertakesAmend(20.0, 15.0);
  }

  /** An order request that timed out and arrives late: rejected at the OMS, resting at the venue. */
  lemma {:induction false} TimedOutOrderMayRest() returns (moves: seq<Move>, l: Line)
    ensures LineAfter(FreshLine(TenLot()), moves) == Some(l) && Quiet(l)
    ensures l.order.status == Rejected && l.venue.Resting?
  {
    var start := FreshLine(TenLot());
    var ms, l0 := RejectedAfterTimeOut();
    l := Go(start, ms, l0, Land(Post, Done));
    moves := ms + [Land(Post, Done)];
    assert multiset{Post} - multiset{Post} == multiset{};
  }

  lemma {:induction false} RejectedAfterTimeOut() returns (moves: seq<Move>, l: Line)
    ensures LineAfter(FreshLine(TenLot()), moves) == Some(l)
    ensures l.order.status == Rejected && l.venue.Unseen? && l.limbo == multiset{Post}
    ensures l.requests == [] && l.phase.None? && l.inbox == [] && l.fills == [] && l.reports == []
  {
    var start := FreshLine(TenLot());
    var ms, l0 := TimedOutRun();
    var l1 := ResumeRun(start, ms, l0, 2);
    l := HandleRun(start, ms + [Resume(2)], l1);
    moves := ms + [Resume(2)] + [HandleResponse];
  }

  lemma {:induction false} TimedOutRun() returns (moves: seq<Move>, l: Line)
    ensures LineAfter(FreshLine(TenLot()), moves) == Some(l)
    ensures l == FreshLine(TenLot()).(requests := [], phase := Some(Answered(New, Post, Fault)), limbo := multiset{Post},
                                      faulted := true)
  {
    var start := FreshLine(TenLot());
    var l0 := Go(start, [], start, TakeRequest(true, 1));
    l := Go(start, [] + [TakeRequest(true, 1)], l0, TimeOut);
    moves := [] + [TakeRequest(true, 1)] + [TimeOut];
  }
}
