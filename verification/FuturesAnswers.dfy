/** What comes of each answer of the venue: no request is left without one, and an amend
    refused for good takes the order off the venue. */
module FuturesAnswers {
  import opened Types
  import opened StateMachine
  import opened Orders
  import opened BinanceGateway
  import opened FuturesProtocol
  import opened FuturesAgreement
  import opened FuturesAmends

  // ----- Every request is answered -----

  predicate AtWork(phase: Option<Phase>, request: Request) { phase.Some? && phase.value.request == request }

  predicate AmendAtWork(phase: Option<Phase>) {
    && phase.Some? && phase.value.request.AmendTo?
    && !(phase.value.Answered? && phase.value.call.Put? && phase.value.answer == VenueError(-5027))
  }

  /** An order that waits for the venue's first word has something to wait for. */
  predicate NewAnswered(l: Line) {
    l.order.status == PendingNew ==> New in l.requests || AtWork(l.phase, New) || l.inbox != []
  }

  /** So has one that waits for a cancel, unless the user-data stream dropped a report. */
  predicate CancelAnswered(l: Line) {
    && (l.order.status == PendingCancel ==>
          Cancel in l.requests || AtWork(l.phase, Cancel) || CancelRefused(l.inbox) || l.lost || EndAnnounced(l))
    && (l.phase.Some? ==> CancelAnswerTrue(l.phase.value, l.venue))
  }

  /** A cancel that succeeded has ended the order. */
  predicate CancelAnswerTrue(p: Phase, v: VenueOrder) {
    p.Answered? && p.request.Cancel? ==>
      p.answer.VenueError? || p.answer.Fault? || (p.answer.Done? && v.Gone? && !v.byFill)
  }

  predicate RequestsAnswered(l: Line) { NewAnswered(l) && CancelAnswered(l) }

  predicate CancelRefused(inbox: seq<Response>) { exists r :: r in inbox && r.CancelRejected? }

  /** And one that waits for an amend, as long as the venue never answers that the amend
      would change nothing: the gateway says nothing then. */
  predicate AmendAnswered(l: Line) {
    l.order.status == PendingAmend ==> AmendAwaited(l.requests) || AmendAtWork(l.phase) || l.inbox != []
  }

  predicate AmendAwaited(requests: seq<Request>) { exists r :: r in requests && r.AmendTo? }

  lemma {:induction false} OmsKeepsAnswered(l: Line, m: Move, l': Line)
    requires RequestsAnswered(l) && CanMove(l, m) && Moves(l, m, l')
    requires m.SendCancel? || m.SendAmend? || m.SweepTick? || m.HandleFill?
    ensures RequestsAnswered(l')
  {
    assert forall r :: r in l.requests ==> r in l'.requests;
    if m.SendCancel? && l' != l {
      assert l'.requests[|l.requests|] == Cancel;
    }
  }

  /** Any response moves an order on that has none yet; a refused cancel moves one on that
      waits for its cancel. */
  lemma {:induction false} ResponseMovesOn(o: OrderState, r: Response)
    ensures Handled(o, r).status != PendingNew
    ensures Handled(o, r).status == PendingCancel ==> o.status == PendingCancel && !r.CancelRejected? && !r.CancelDone?
    ensures Handled(o, r).status != PendingAmend
  {
  }

  lemma {:induction false} HandlingKeepsAnswered(l: Line, m: Move, l': Line)
    requires RequestsAnswered(l) && CanMove(l, m) && Moves(l, m, l') && m.HandleResponse?
    ensures RequestsAnswered(l')
  {
    ResponseMovesOn(l.order, l.inbox[0]);
    assert forall r :: r in l.inbox ==> r == l.inbox[0] || r in l'.inbox;
  }

  lemma {:induction false} TakingKeepsAnswered(l: Line, m: Move, l': Line)
    requires RequestsAnswered(l) && CanMove(l, m) && Moves(l, m, l') && m.TakeRequest?
    ensures RequestsAnswered(l')
  {
    assert forall r :: r in l.requests ==> r == l.requests[0] || r in l'.requests;
    assert forall r :: r in l.inbox ==> r in l'.inbox;
  }

  lemma {:induction false} ResumingKeepsAnswered(l: Line, m: Move, l': Line)
    requires RequestsAnswered(l) && EndsKnown(l) && Safe(l) && CanMove(l, m) && Moves(l, m, l') && m.Resume?
    ensures RequestsAnswered(l')
  {
    assert forall r :: r in l.inbox ==> r in l'.inbox;
    var p := l.phase.value;
    if p.request.Cancel? && !p.answer.Done? {
      assert l'.inbox[|l.inbox|] == if p.answer.VenueError? && SaysGone(p.answer.code) then CancelDone(m.ts) else CancelRejected(m.ts);
    }
  }

  lemma {:induction false} CallsKeepAnswered(l: Line, m: Move, l': Line)
    requires RequestsAnswered(l) && Safe(l) && CanMove(l, m) && Moves(l, m, l')
    requires m.Serve? || m.Land?
    ensures RequestsAnswered(l')
  {
    assert forall x :: x in l.reports ==> x in l'.reports;
  }

  lemma {:induction false} FaultsKeepAnswered(l: Line, m: Move, l': Line)
    requires RequestsAnswered(l) && CanMove(l, m) && Moves(l, m, l')
    requires m.TimeOut? || m.Forget?
    ensures RequestsAnswered(l')
  {
  }

  lemma {:induction false} VenueKeepsAnswered(l: Line, m: Move, l': Line)
    requires RequestsAnswered(l) && CanMove(l, m) && Moves(l, m, l')
    requires m.Trade? || m.End? || m.Refuse?
    ensures RequestsAnswered(l')
  {
    assert forall x :: x in l.reports ==> x in l'.reports;
  }

  lemma {:induction false} StreamKeepsAnswered(l: Line, m: Move, l': Line)
    requires RequestsAnswered(l) && CanMove(l, m) && Moves(l, m, l')
    requires m.Forward? || m.Skip?
    ensures RequestsAnswered(l')
  {
    if m.Forward? {
      ForwardingKeepsNews(l, m, l');
    }
  }

  lemma {:induction false} ForwardingKeepsNews(l: Line, m: Move, l': Line)
    requires CanMove(l, m) && Moves(l, m, l') && m.Forward?
    ensures CancelRefused(l.inbox) ==> CancelRefused(l'.inbox)
    ensures l.inbox != [] ==> l'.inbox != []
    ensures EndAnnounced(l) ==> EndAnnounced(l')
  {
    assert forall x :: x in l.reports ==> x == l.reports[0] || x in l'.reports;
    assert forall x :: x in l.inbox ==> x in l'.inbox;
    if l.reports[0].Ended? {
      assert l'.inbox[|l.inbox|] == CancelDone(m.ts);
    }
  }

  lemma {:induction false} MovesKeepAnswered(l: Line, m: Move)
    requires RequestsAnswered(l) && Safe(l) && EndsKnown(l) && CanMove(l, m)
    ensures RequestsAnswered(LineStep(l, m))
  {
    StepMoves(l, m);
    var l' := LineStep(l, m);
    match m {
      case HandleResponse => HandlingKeepsAnswered(l, m, l');
      case TakeRequest(_, _) => TakingKeepsAnswered(l, m, l');
      case Resume(_) => ResumingKeepsAnswered(l, m, l');
      case TimeOut => FaultsKeepAnswered(l, m, l');
      case Forget(_) => FaultsKeepAnswered(l, m, l');
      case Serve(_) => CallsKeepAnswered(l, m, l');
      case Land(_, _) => CallsKeepAnswered(l, m, l');
      case Forward(_) => StreamKeepsAnswered(l, m, l');
      case Skip => StreamKeepsAnswered(l, m, l');
      case Trade(_, _, _) => VenueKeepsAnswered(l, m, l');
      case End => VenueKeepsAnswered(l, m, l');
      case Refuse => VenueKeepsAnswered(l, m, l');
      case _ => OmsKeepsAnswered(l, m, l');
    }
  }

  lemma {:induction false} QueuesKeepAmendAnswered(l: Line, m: Move, l': Line)
    requires AmendAnswered(l) && CanMove(l, m) && Moves(l, m, l')
    requires m.HandleResponse? || m.TakeRequest?
    ensures AmendAnswered(l')
  {
    if m.HandleResponse? {
      ResponseMovesOn(l.order, l.inbox[0]);
    } else {
      assert forall r :: r in l.requests ==> r == l.requests[0] || r in l'.requests;
    }
  }

  lemma {:induction false} SendingKeepsAmendAnswered(l: Line, m: Move, l': Line)
    requires AmendAnswered(l) && CanMove(l, m) && Moves(l, m, l')
    requires m.SendAmend? || m.SendCancel?
    ensures AmendAnswered(l')
  {
    assert forall r :: r in l.requests ==> r in l'.requests;
    if m.SendAmend? && l' != l {
      assert l'.requests[|l.requests|].AmendTo?;
    }
  }

  lemma {:induction false} GatewayKeepsAmendAnswered(l: Line, m: Move, l': Line)
    requires AmendAnswered(l) && Safe(l) && CanMove(l, m) && Moves(l, m, l')
    requires m.Resume? || m.TimeOut? || (m.Serve? && m != Serve(VenueError(-5027)))
    ensures AmendAnswered(l')
  {
  }

  lemma {:induction false} OrderKeepsAmendAnswered(l: Line, m: Move, l': Line)
    requires AmendAnswered(l) && CanMove(l, m) && Moves(l, m, l') && (m.SweepTick? || m.HandleFill?)
    ensures AmendAnswered(l')
  {
    assert l'.phase == l.phase && l'.requests == l.requests && l'.inbox == l.inbox;
    assert l'.order.status == PendingAmend ==> l.order.status == PendingAmend;
  }

  lemma {:induction false} OthersKeepAmendAnswered(l: Line, m: Move, l': Line)
    requires AmendAnswered(l) && CanMove(l, m) && Moves(l, m, l')
    requires m.Land? || m.Forget? || m.Trade? || m.End? || m.Refuse? || m.Skip? || m.Forward?
    ensures AmendAnswered(l')
  {
    assert l'.phase == l.phase && l'.requests == l.requests && l'.order == l.order;
    assert l.inbox != [] ==> l'.inbox != [];
  }

  /** Every move but that one answer keeps a waiting amend answered. */
  lemma {:induction false} MovesKeepAmendAnswered(l: Line, m: Move)
    requires AmendAnswered(l) && Safe(l) && CanMove(l, m) && m != Serve(VenueError(-5027))
    ensures AmendAnswered(LineStep(l, m))
  {
    StepMoves(l, m);
    if m.HandleResponse? || m.TakeRequest? {
      QueuesKeepAmendAnswered(l, m, LineStep(l, m));
    } else if m.SendAmend? || m.SendCancel? {
      SendingKeepsAmendAnswered(l, m, LineStep(l, m));
    } else if m.Resume? || m.TimeOut? || m.Serve? {
      GatewayKeepsAmendAnswered(l, m, LineStep(l, m));
    } else if m.SweepTick? || m.HandleFill? {
      OrderKeepsAmendAnswered(l, m, LineStep(l, m));
    } else {
      OthersKeepAmendAnswered(l, m, LineStep(l, m));
    }
  }

  /** Once nothing about an order is under way, it waits for nothing. */
  lemma {:induction false} QuietWaitsForNothing(l: Line)
    requires RequestsAnswered(l) && Quiet(l)
    ensures l.order.status != PendingNew
    ensures !l.lost ==> l.order.status != PendingCancel
    ensures AmendAnswered(l) ==> l.order.status != PendingAmend
  {
  }

  // ----- What one answer leads to -----

  /** The gateway resumes with an answer, and the OMS handles what it publishes. */
  lemma {:induction false} AnswerHandledAfter(start: Line, before: seq<Move>, l: Line, ts: int, news: Response) returns (l': Line)
    requires LineAfter(start, before) == Some(l) && l.phase.Some? && l.phase.value.Answered? && l.inbox == []
    requires var p := l.phase.value; AfterAnswer(p.request, p.call, p.answer, ts) == Resumption(None, [news])
    ensures LineAfter(start, before + [Resume(ts), HandleResponse]) == Some(l')
    ensures l' == l.(phase := None, order := Handled(l.order, news), strayed := l.strayed || Misses(l.order, news))
  {
    var l1 := ResumedWith(start, before, l, ts, news);
    l' := HandleRun(start, before + [Resume(ts)], l1);
    assert [news][1..] == [];
    assert before + [Resume(ts)] + [HandleResponse] == before + [Resume(ts), HandleResponse];
  }

  lemma {:induction false} ResumedWith(start: Line, before: seq<Move>, l: Line, ts: int, news: Response) returns (l': Line)
    requires LineAfter(start, before) == Some(l) && l.phase.Some? && l.phase.value.Answered? && l.inbox == []
    requires var p := l.phase.value; AfterAnswer(p.request, p.call, p.answer, ts) == Resumption(None, [news])
    ensures LineAfter(start, before + [Resume(ts)]) == Some(l')
    ensures l' == l.(phase := None, inbox := [news])
  {
    l' := ResumeRun(start, before, l, ts);
    assert [] + [news] == [news];
  }

  lemma {:induction false} AnswerHandled(l: Line, ts: int, news: Response) returns (l': Line)
    requires l.phase.Some? && l.phase.value.Answered? && l.inbox == []
    requires var p := l.phase.value; AfterAnswer(p.request, p.call, p.answer, ts) == Resumption(None, [news])
    ensures LineAfter(l, [Resume(ts), HandleResponse]) == Some(l')
    ensures l' == l.(phase := None, order := Handled(l.order, news), strayed := l.strayed || Misses(l.order, news))
  {
    assert LineAfter(l, []) == Some(l);
    l' := AnswerHandledAfter(l, [], l, ts, news);
    assert [] + [Resume(ts), HandleResponse] == [Resume(ts), HandleResponse];
  }

  /** A new order is acknowledged if the venue took it, and rejected if it refused it or if
      nobody knows. */
  lemma {:induction false} OrderRequestOutcome(l: Line, ts: int) returns (l': Line)
    requires l.phase.Some? && l.phase.value.Answered? && l.phase.value.request == New && l.phase.value.call == Post
    requires l.inbox == [] && l.order.status == PendingNew
    ensures LineAfter(l, [Resume(ts), HandleResponse]) == Some(l') && l'.phase.None? && l'.inbox == []
    ensures l'.order.status == if l.phase.value.answer.VenueError? || l.phase.value.answer.Fault? then Rejected else Acknowledged
  {
    var news := if l.phase.value.answer.VenueError? || l.phase.value.answer.Fault? then Reject(ts) else Ack("", ts);
    ResponseEffect(l.order, news);
    l' := AnswerHandled(l, ts, news);
  }

  /** A cancel that fails leaves the order working, unless the venue no longer knows it. */
  lemma {:induction false} FailedCancelOutcome(l: Line, ts: int) returns (l': Line)
    requires l.phase.Some? && l.phase.value.Answered? && l.phase.value.request == Cancel && l.phase.value.call == Delete
    requires l.phase.value.answer.VenueError? || l.phase.value.answer.Fault?
    requires l.inbox == [] && l.order.status == PendingCancel
    ensures LineAfter(l, [Resume(ts), HandleResponse]) == Some(l') && l'.phase.None? && l'.inbox == []
    ensures l'.order.status == if l.phase.value.answer in {VenueError(-2011), VenueError(-2013)} then Cancelled else Acknowledged
  {
    var news := if l.phase.value.answer in {VenueError(-2011), VenueError(-2013)} then CancelDone(ts) else CancelRejected(ts);
    ResponseEffect(l.order, news);
    l' := AnswerHandled(l, ts, news);
  }

  /** An amend the venue applied is taken over as the venue reports it, where it reports
      anything, and otherwise as it was asked for; one that ended the order, or found none,
      ends it here; one refused otherwise leaves the order as it was. */
  predicate AmendedAsAnswered(o: OrderState, asked: Request, answer: Answer, o': OrderState)
    requires asked.AmendTo?
  {
    match answer
    case AmendApplied(price, quantity) =>
      && o'.status == Acknowledged
      && o'.quantity == (if quantity.Some? then quantity.value else asked.quantity)
      && (price.Some? || asked.price.Some? ==> o'.price == if price.Some? then price else asked.price)
    case Done => o'.status == Acknowledged && o'.quantity == asked.quantity && (asked.price.Some? ==> o'.price == asked.price)
    case AmendEndedOrder => o'.status == Cancelled
    case _ =>
      && o'.quantity == o.quantity && o'.price == o.price
      && o'.status == if answer == VenueError(-2013) then Cancelled else if o.filled == o.quantity then Filled else Acknowledged
  }

  lemma {:induction false} AmendAnswerPublishes(o: OrderState, asked: Request, answer: Answer, ts: int)
    requires asked.AmendTo? && answer !in {VenueError(-5027), VenueError(-5026)} && o.status == PendingAmend
    ensures var r := AfterPut(asked, answer, ts);
            r.next.None? && |r.publish| == 1 && AmendedAsAnswered(o, asked, answer, Handled(o, r.publish[0]))
  {
  }

  lemma {:induction false} AmendOutcome(l: Line, ts: int) returns (l': Line)
    requires l.phase.Some? && l.phase.value.Answered? && l.phase.value.request.AmendTo? && l.phase.value.call.Put?
    requires l.phase.value.answer !in {VenueError(-5027), VenueError(-5026)}
    requires l.inbox == [] && l.order.status == PendingAmend
    ensures LineAfter(l, [Resume(ts), HandleResponse]) == Some(l') && l'.phase.None? && l'.inbox == []
    ensures AmendedAsAnswered(l.order, l.phase.value.request, l.phase.value.answer, l'.order)
  {
    AmendAnswerPublishes(l.order, l.phase.value.request, l.phase.value.answer, ts);
    l' := AnswerHandled(l, ts, AfterPut(l.phase.value.request, l.phase.value.answer, ts).publish[0]);
  }

  /** On the answer that an amend would change nothing, nothing is published: the order waits
      until the sweep gives the amend up. */
  lemma {:induction false} NoChangeIsNotReported(l: Line, ts: int, now: int, timeout: int) returns (l': Line)
    requires l.phase.Some? && l.phase.value.Answered? && l.phase.value.request.AmendTo? && l.phase.value.call.Put?
    requires l.phase.value.answer == VenueError(-5027) && l.order.status == PendingAmend
    ensures LineAfter(l, [Resume(ts)]) == Some(l.(phase := None))
    ensures LineAfter(l, [Resume(ts), SweepTick(now, timeout)]) == Some(l')
    ensures l'.order.status == PendingAmend <==> now - l.order.lastUpdate < timeout
  {
    assert LineAfter(l, []) == Some(l);
    NothingAdded(l);
    var l1 := ResumeRun(l, [], l, ts);
    assert [] + [Resume(ts)] == [Resume(ts)];
    l' := SweepRun(l, [Resume(ts)], l1, now, timeout);
    assert [Resume(ts)] + [SweepTick(now, timeout)] == [Resume(ts), SweepTick(now, timeout)];
  }

  // ----- Undisturbed runs -----

  /** A new order that nothing disturbs comes to rest as it was placed. */
  lemma {:induction false} OrderComesToRest(o: OrderState, ts: int) returns (l: Line)
    requires o.status == PendingNew
    ensures LineAfter(FreshLine(o), [TakeRequest(true, ts), Serve(Done), Resume(ts), HandleResponse]) == Some(l)
    ensures l.order.status == Acknowledged && l.order.quantity == o.quantity && l.venue == Resting(o.quantity, 0.0, 0) && Quiet(l)
  {
    var l0 := FreshLine(o);
    assert LineAfter(l0, []) == Some(l0);
    var l1 := Go(l0, [], l0, TakeRequest(true, ts));
    assert [] + [TakeRequest(true, ts)] == [TakeRequest(true, ts)];
    var l2 := Go(l0, [TakeRequest(true, ts)], l1, Serve(Done));
    var posted := [TakeRequest(true, ts), Serve(Done)];
    assert [TakeRequest(true, ts)] + [Serve(Done)] == posted;
    ResponseEffect(o, Ack("", ts));
    l := AnswerHandledAfter(l0, posted, l2, ts, Ack("", ts));
    assert posted + [Resume(ts), HandleResponse] == [TakeRequest(true, ts), Serve(Done), Resume(ts), HandleResponse];
  }

  /** What the OMS asks for reaches the gateway as a call on the same terms. */
  lemma {:induction false} AmendIsCalledFor(l0: Line, amend: Amend, now: int, ts: int) returns (l: Line)
    requires Quiet(l0) && l0.order.status in {Acknowledged, PartiallyFilled}
    ensures LineAfter(l0, [SendAmend(amend, now), TakeRequest(true, ts)]) == Some(l)
    ensures l.phase == Some(Waiting(AmendTo(amend.price, amend.quantity), Put(amend.price, amend.quantity)))
    ensures l.order == l0.order.(status := PendingAmend, lastUpdate := now, pendingAmend := Some(amend))
    ensures l == l0.(order := l.order, phase := l.phase, amended := true)
  {
    var l1 := AmendIsRequested(l0, amend, now);
    l := Go(l0, [SendAmend(amend, now)], l1, TakeRequest(true, ts));
    assert [SendAmend(amend, now)] + [TakeRequest(true, ts)] == [SendAmend(amend, now), TakeRequest(true, ts)];
  }

  lemma {:induction false} AmendIsRequested(l0: Line, amend: Amend, now: int) returns (l: Line)
    requires Quiet(l0) && l0.order.status in {Acknowledged, PartiallyFilled}
    ensures LineAfter(l0, [SendAmend(amend, now)]) == Some(l)
    ensures l == l0.(order := l0.order.(status := PendingAmend, lastUpdate := now, pendingAmend := Some(amend)),
                     requests := [AmendTo(amend.price, amend.quantity)], amended := true)
  {
    assert LineAfter(l0, []) == Some(l0);
    AmendSentFrom(l0.order, amend, now);
    l := Go(l0, [], l0, SendAmend(amend, now));
    assert [] + [SendAmend(amend, now)] == [SendAmend(amend, now)];
    assert l0.requests + [AmendTo(amend.price, amend.quantity)] == [AmendTo(amend.price, amend.quantity)];
  }

  lemma {:induction false} AmendSentFrom(o: OrderState, amend: Amend, now: int)
    requires o.status in {Acknowledged, PartiallyFilled}
    ensures SendsAmend(o) && AmendSent(o, amend, now) == o.(status := PendingAmend, lastUpdate := now, pendingAmend := Some(amend))
  {
  }

  /** An amend that nothing disturbs gives the order its terms on both sides. */
  lemma {:induction false} AmendRunsThrough(l0: Line, amend: Amend, now: int, ts: int) returns (l: Line)
    requires Quiet(l0) && l0.order.status in {Acknowledged, PartiallyFilled}
    requires l0.venue.Resting? && amend.quantity > l0.venue.executed
    ensures LineAfter(l0, [SendAmend(amend, now), TakeRequest(true, ts), Serve(AmendApplied(None, None)), Resume(ts), HandleResponse])
            == Some(l)
    ensures Quiet(l) && l.order.status == Acknowledged && l.order.quantity == amend.quantity
    ensures l.order.price == amend.price && l.venue == Resting(amend.quantity, l0.venue.executed, l0.venue.trades)
  {
    var applied := [SendAmend(amend, now), TakeRequest(true, ts), Serve(AmendApplied(None, None))];
    var l3 := AmendIsApplied(l0, amend, now, ts);
    var news := Amended(amend.price, Some(amend.quantity), None, ts);
    ResponseEffect(l3.order, news);
    l := AnswerHandledAfter(l0, applied, l3, ts, news);
    assert applied + [Resume(ts), HandleResponse]
           == [SendAmend(amend, now), TakeRequest(true, ts), Serve(AmendApplied(None, None)), Resume(ts), HandleResponse];
  }

  lemma {:induction false} AmendIsApplied(l0: Line, amend: Amend, now: int, ts: int) returns (l: Line)
    requires Quiet(l0) && l0.order.status in {Acknowledged, PartiallyFilled}
    requires l0.venue.Resting? && amend.quantity > l0.venue.executed
    ensures LineAfter(l0, [SendAmend(amend, now), TakeRequest(true, ts), Serve(AmendApplied(None, None))]) == Some(l)
    ensures l == l0.(order := l0.order.(status := PendingAmend, lastUpdate := now, pendingAmend := Some(amend)), amended := true,
                     venue := Resting(amend.quantity, l0.venue.executed, l0.venue.trades),
                     phase := Some(Answered(AmendTo(amend.price, amend.quantity), Put(amend.price, amend.quantity), AmendApplied(None, None))))
  {
    var l2 := AmendIsCalledFor(l0, amend, now, ts);
    l := Go(l0, [SendAmend(amend, now), TakeRequest(true, ts)], l2, Serve(AmendApplied(None, None)));
    NothingAdded(l2);
    assert [SendAmend(amend, now), TakeRequest(true, ts)] + [Serve(AmendApplied(None, None))]
           == [SendAmend(amend, now), TakeRequest(true, ts), Serve(AmendApplied(None, None))];
  }

  /** A cancel that nothing disturbs takes the order off the venue and ends it here. */
  lemma {:induction false} CancelRunsThrough(l0: Line, now: int, ts: int) returns (l: Line)
    requires Quiet(l0) && l0.order.status in {Acknowledged, PartiallyFilled} && l0.venue.Resting?
    ensures LineAfter(l0, [SendCancel(now), TakeRequest(true, ts), Serve(Done), Resume(ts), Forward(ts), HandleResponse]) == Some(l)
    ensures Quiet(l) && l.order.status == Cancelled
    ensures l.venue == Gone(l0.venue.quantity, l0.venue.executed, l0.venue.trades, false)
  {
    var served := [SendCancel(now), TakeRequest(true, ts), Serve(Done)];
    var l3 := CancelIsServed(l0, now, ts);
    var l5 := EndIsForwarded(l0, served, l3, ts);
    ResponseEffect(l3.order, CancelDone(ts));
    l := HandleRun(l0, served + [Resume(ts), Forward(ts)], l5);
    assert served + [Resume(ts), Forward(ts)] + [HandleResponse]
           == [SendCancel(now), TakeRequest(true, ts), Serve(Done), Resume(ts), Forward(ts), HandleResponse];
  }

  /** The gateway says nothing of a cancel that succeeded; the user-data stream does. */
  lemma {:induction false} EndIsForwarded(start: Line, before: seq<Move>, l: Line, ts: int) returns (l': Line)
    requires LineAfter(start, before) == Some(l) && l.phase == Some(Answered(Cancel, Delete, Done)) && l.inbox == [] && l.reports == [Ended]
    ensures LineAfter(start, before + [Resume(ts), Forward(ts)]) == Some(l')
    ensures l' == l.(phase := None, reports := [], inbox := [CancelDone(ts)])
  {
    var l1 := ResumeRun(start, before, l, ts);
    NothingAdded(l);
    l' := Go(start, before + [Resume(ts)], l1, Forward(ts));
    assert [] + [CancelDone(ts)] == [CancelDone(ts)];
    assert before + [Resume(ts)] + [Forward(ts)] == before + [Resume(ts), Forward(ts)];
  }

  lemma {:induction false} CancelIsServed(l0: Line, now: int, ts: int) returns (l: Line)
    requires Quiet(l0) && l0.order.status in {Acknowledged, PartiallyFilled} && l0.venue.Resting?
    ensures LineAfter(l0, [SendCancel(now), TakeRequest(true, ts), Serve(Done)]) == Some(l)
    ensures l == l0.(order := l0.order.(status := PendingCancel, lastUpdate := now), reports := [Ended],
                     phase := Some(Answered(Cancel, Delete, Done)),
                     venue := Gone(l0.venue.quantity, l0.venue.executed, l0.venue.trades, false))
  {
    assert LineAfter(l0, []) == Some(l0);
    var l1 := Go(l0, [], l0, SendCancel(now));
    assert [] + [SendCancel(now)] == [SendCancel(now)] && [] + [Cancel] == [Cancel];
    var l2 := Go(l0, [SendCancel(now)], l1, TakeRequest(true, ts));
    assert [SendCancel(now)] + [TakeRequest(true, ts)] == [SendCancel(now), TakeRequest(true, ts)];
    l := Go(l0, [SendCancel(now), TakeRequest(true, ts)], l2, Serve(Done));
    assert [SendCancel(now), TakeRequest(true, ts)] + [Serve(Done)] == [SendCancel(now), TakeRequest(true, ts), Serve(Done)];
    assert [] + [Ended] == [Ended];
  }

  // ----- An order that may not be amended any more -----

  /** The amend was refused for good, and the gateway is taking the order off the venue. */
  predicate Removing(phase: Option<Phase>) {
    && phase.Some? && phase.value.request.AmendTo?
    && (phase.value.call.Delete? || (phase.value.call.Put? && phase.value.Answered? && phase.value.answer == VenueError(-5026)))
  }

  /** The cancel that follows has failed: the order may still rest. */
  predicate RemovalFailed(phase: Option<Phase>) {
    && Removing(phase) && phase.value.call.Delete? && phase.value.Answered?
    && (phase.value.answer.Fault?
        || (phase.value.answer.VenueError? && phase.value.answer.code != -2011 && phase.value.answer.code != -2013))
  }

  /** The venue no longer has the order, and the OMS knows or is about to. */
  predicate Removed(l: Line) {
    l.venue.Gone? && (l.order.Terminal() || EndReported(l.inbox))
  }

  predicate EndReported(inbox: seq<Response>) { exists r :: r in inbox && r.CancelDone? }

  predicate OnTheWayOut(l: Line) {
    || Removed(l)
    || (Removing(l.phase) && (l.venue.Resting? || l.venue.Gone?)
        && (l.phase.value.call.Delete? && l.phase.value.Answered? && !RemovalFailed(l.phase) ==>
              l.venue.Gone? && (l.phase.value.answer.VenueError? || l.phase.value.answer.Done?)))
  }

  lemma {:induction false} CallsKeepGone(l: Line, m: Move, l': Line)
    requires CanMove(l, m) && Moves(l, m, l') && (m.Serve? || m.Land?)
    ensures l.venue.Gone? ==> l'.venue == l.venue
    ensures l.venue.Resting? ==> l'.venue.Resting? || l'.venue.Gone?
  {
  }

  lemma {:induction false} GoneStaysGone(l: Line, m: Move, l': Line)
    requires CanMove(l, m) && Moves(l, m, l')
    ensures l.venue.Gone? ==> l'.venue == l.venue
    ensures l.venue.Resting? ==> l'.venue.Resting? || l'.venue.Gone?
  {
    if m.Serve? || m.Land? {
      CallsKeepGone(l, m, l');
    } else if !m.Trade? && !m.End? {
      assert l'.venue == l.venue;
    }
  }

  lemma {:induction false} RemovedStays(l: Line, m: Move, l': Line)
    requires Removed(l) && l.order.status != Expired && CanMove(l, m) && Moves(l, m, l')
    ensures Removed(l')
  {
    GoneStaysGone(l, m, l');
    TerminalStaysTerminal(l, m, l');
    if m.HandleResponse? {
      assert forall r :: r in l.inbox ==> r == l.inbox[0] || r in l'.inbox;
    } else {
      assert forall r :: r in l.inbox ==> r in l'.inbox;
    }
  }

  lemma {:induction false} TerminalStaysTerminal(l: Line, m: Move, l': Line)
    requires l.order.status != Expired && CanMove(l, m) && Moves(l, m, l')
    ensures l.order.Terminal() ==> l'.order.Terminal()
    ensures m.HandleResponse? && l.inbox[0].CancelDone? ==> l'.order.Terminal()
  {
    var r := if m.HandleResponse? then l.inbox[0] else Reject(0);
    var f := if m.HandleFill? then l.fills[0] else Fill(0, 0.0, 0.0, 0);
    var now := match m case SendCancel(now) => now case SendAmend(_, now) => now case SweepTick(now, _) => now case _ => 0;
    TerminalStays(l.order, r, f, now, if m.SweepTick? then m.timeout else 0, if m.SendAmend? then m.amend else Amend(None, 0.0));
  }

  lemma {:induction false} RemovalResumes(l: Line, m: Move, l': Line)
    requires OnTheWayOut(l) && !Removed(l) && !RemovalFailed(l.phase) && CanMove(l, m) && Moves(l, m, l') && m.Resume?
    ensures OnTheWayOut(l')
  {
    if l.phase.value.call.Delete? {
      assert l'.inbox == l.inbox + [CancelDone(m.ts)];
      assert CancelDone(m.ts) in l'.inbox;
    }
  }

  lemma {:induction false} RemovalGoesOn(l: Line, m: Move, l': Line)
    requires OnTheWayOut(l) && !Removed(l) && !RemovalFailed(l.phase) && CanMove(l, m) && Moves(l, m, l')
    ensures OnTheWayOut(l')
  {
    GoneStaysGone(l, m, l');
    if m.Resume? {
      RemovalResumes(l, m, l');
    } else if !m.Serve? && !m.TimeOut? {
      assert l'.phase == l.phase;
    }
  }

  lemma {:induction false} MovesKeepTheWayOut(l: Line, m: Move)
    requires OnTheWayOut(l) && l.order.status != Expired && !RemovalFailed(l.phase) && CanMove(l, m)
    ensures OnTheWayOut(LineStep(l, m))
  {
    StepMoves(l, m);
    if Removed(l) {
      RemovedStays(l, m, LineStep(l, m));
    } else {
      RemovalGoesOn(l, m, LineStep(l, m));
    }
  }

  /** Whatever happens after the venue has refused an amend for good: as long as the cancel
      that follows does not fail, the gateway is still at it, or the order is off the venue
      and the OMS has it as ended or the news before it. */
  lemma {:induction false} AmendRefusedForGoodRemovesOrder(l0: Line, moves: seq<Move>, l: Line)
    requires LineOk(l0) && l0.venue.Resting? && LineAfter(l0, moves) == Some(l)
    requires l0.phase.Some? && l0.phase.value.Answered? && l0.phase.value.request.AmendTo? && l0.phase.value.call.Put?
    requires l0.phase.value.answer == VenueError(-5026)
    requires forall k :: 0 <= k < |moves| ==>
               LineAfter(l0, moves[..k]).Some? && !RemovalFailed(LineAfter(l0, moves[..k]).value.phase)
    ensures LineOk(l) && OnTheWayOut(l)
    ensures !Removing(l.phase) && l.inbox == [] ==> l.venue.Gone? && l.order.Terminal()
    decreases |moves|
  {
    if moves != [] {
      var n := |moves| - 1;
      var mid := LineAfter(l0, moves[..n]).value;
      forall k | 0 <= k < n ensures LineAfter(l0, moves[..n][..k]).Some? && !RemovalFailed(LineAfter(l0, moves[..n][..k]).value.phase) {
        assert moves[..n][..k] == moves[..k];
      }
      AmendRefusedForGoodRemovesOrder(l0, moves[..n], mid);
      MovesKeepLine(mid, moves[n]);
      MovesKeepTheWayOut(mid, moves[n]);
    }
  }

  /** The shortest such run: refused, cancelled, handled. */
  lemma {:induction false} RemovalRun(l: Line, ts: int) returns (l': Line)
    requires l.phase.Some? && l.phase.value.Waiting? && l.phase.value.request.AmendTo? && l.phase.value.call.Put?
    requires l.venue.Resting? && l.inbox == [] && l.order.status == PendingAmend
    ensures LineAfter(l, [Serve(VenueError(-5026)), Resume(ts), Serve(Done), Resume(ts), HandleResponse]) == Some(l')
    ensures l'.order.status == Cancelled && l'.phase.None? && l'.inbox == []
    ensures l'.venue == Gone(l.venue.quantity, l.venue.executed, l.venue.trades, false)
  {
    var asked := [Serve(VenueError(-5026)), Resume(ts), Serve(Done)];
    var l3 := RefusedThenCancelled(l, ts);
    ResponseEffect(l.order, CancelDone(ts));
    l' := AnswerHandledAfter(l, asked, l3, ts, CancelDone(ts));
    assert asked + [Resume(ts), HandleResponse] == [Serve(VenueError(-5026)), Resume(ts), Serve(Done), Resume(ts), HandleResponse];
  }

  lemma {:induction false} RefusedThenCancelled(l: Line, ts: int) returns (l': Line)
    requires l.phase.Some? && l.phase.value.Waiting? && l.phase.value.request.AmendTo? && l.phase.value.call.Put?
    requires l.venue.Resting?
    ensures LineAfter(l, [Serve(VenueError(-5026)), Resume(ts), Serve(Done)]) == Some(l')
    ensures l' == l.(phase := Some(Answered(l.phase.value.request, Delete, Done)), reports := l'.reports,
                     venue := Gone(l.venue.quantity, l.venue.executed, l.venue.trades, false))
  {
    var start := [Serve(VenueError(-5026)), Resume(ts)];
    var l2 := RefusedForGood(l, ts);
    l' := Go(l, start, l2, Serve(Done));
    assert start + [Serve(Done)] == [Serve(VenueError(-5026)), Resume(ts), Serve(Done)];
  }

  lemma {:induction false} RefusedForGood(l: Line, ts: int) returns (l': Line)
    requires l.phase.Some? && l.phase.value.Waiting? && l.phase.value.request.AmendTo? && l.phase.value.call.Put?
    requires l.venue.Resting?
    ensures LineAfter(l, [Serve(VenueError(-5026)), Resume(ts)]) == Some(l')
    ensures l' == l.(phase := Some(Waiting(l.phase.value.request, Delete)))
  {
    assert LineAfter(l, []) == Some(l);
    var l1 := Go(l, [], l, Serve(VenueError(-5026)));
    assert [] + [Serve(VenueError(-5026))] == [Serve(VenueError(-5026))];
    NothingAdded(l);
    l' := ResumeRun(l, [Serve(VenueError(-5026))], l1, ts);
    assert [Serve(VenueError(-5026))] + [Resume(ts)] == [Serve(VenueError(-5026)), Resume(ts)];
    NothingAdded(l1);
  }

  /** Had that cancel failed, the order would be working again, or filled if nothing is left. */
  lemma {:induction false} FailedRemovalOutcome(l: Line, ts: int) returns (l': Line)
    requires RemovalFailed(l.phase) && l.inbox == [] && l.order.status == PendingAmend
    ensures LineAfter(l, [Resume(ts), HandleResponse]) == Some(l') && l'.phase.None? && l'.venue == l.venue
    ensures l'.order.status == if l.order.filled == l.order.quantity then Filled else Acknowledged
    ensures l'.order.quantity == l.order.quantity && l'.order.price == l.order.price
  {
    FailedRemovalPublishes(l.order, l.phase.value.answer, ts);
    l' := AnswerHandled(l, ts, AmendRejected(ts));
  }

  lemma {:induction false} FailedRemovalPublishes(o: OrderState, answer: Answer, ts: int)
    requires o.status == PendingAmend
    requires answer.Fault? || (answer.VenueError? && answer.code != -2011 && answer.code != -2013)
    ensures AfterForcedCancel(answer, ts) == Resumption(None, [AmendRejected(ts)])
    ensures var o' := Handled(o, AmendRejected(ts));
            o'.status == (if o.filled == o.quantity then Filled else Acknowledged) && o'.quantity == o.quantity && o'.price == o.price
  {
  }
}
