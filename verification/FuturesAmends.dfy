/** Amends and quantities: what the OMS takes an order's quantity to be, what the venue does,
    and what is under way between them. */
module FuturesAmends {
  import opened Types
  import opened StateMachine
  import opened Orders
  import opened FillAccounting
  import opened BinanceGateway
  import opened FuturesProtocol
  import opened FuturesAgreement

  // ----- Orders never amended -----

  predicate NoAmendAround(l: Line) {
    && l.order.status != PendingAmend && l.order.pendingAmend.None?
    && (forall r :: r in l.requests ==> !r.AmendTo?)
    && (l.phase.Some? ==> !l.phase.value.request.AmendTo? && CallFits(l.phase.value))
    && (forall c :: c in l.limbo ==> !c.Put?)
    && (forall r :: r in l.inbox ==> !r.Amended? && !r.AmendRejected?)
  }

  /** No amend was asked for, none is around, and none went astray. */
  predicate UnamendedOk(l: Line) {
    l.amended || (NoAmendAround(l) && !l.strayed)
  }

  lemma {:induction false} OmsKeepsUnamended(l: Line, m: Move, l': Line)
    requires UnamendedOk(l) && CanMove(l, m) && Moves(l, m, l')
    requires m.SendCancel? || m.SendAmend? || m.SweepTick?
    ensures UnamendedOk(l')
  {
  }

  lemma {:induction false} ResponseKeepsUnamended(l: Line, m: Move, l': Line)
    requires UnamendedOk(l) && CanMove(l, m) && Moves(l, m, l') && m.HandleResponse?
    ensures UnamendedOk(l')
  {
    assert l.inbox[0] in l.inbox;
    assert forall r :: r in l'.inbox ==> r in l.inbox;
  }

  lemma {:induction false} HandleFillKeepsUnamended(l: Line, m: Move, l': Line)
    requires UnamendedOk(l) && CanMove(l, m) && Moves(l, m, l') && m.HandleFill?
    ensures UnamendedOk(l')
  {
  }

  lemma {:induction false} TakingKeepsUnamended(l: Line, m: Move, l': Line)
    requires UnamendedOk(l) && CanMove(l, m) && Moves(l, m, l') && m.TakeRequest?
    ensures UnamendedOk(l')
  {
    assert l.requests[0] in l.requests;
    assert forall r :: r in l'.requests ==> r in l.requests;
  }

  lemma {:induction false} ResumingKeepsUnamended(l: Line, m: Move, l': Line)
    requires UnamendedOk(l) && CanMove(l, m) && Moves(l, m, l') && m.Resume?
    ensures UnamendedOk(l')
  {
  }

  lemma {:induction false} TimeOutKeepsUnamended(l: Line, m: Move, l': Line)
    requires UnamendedOk(l) && CanMove(l, m) && Moves(l, m, l') && m.TimeOut?
    ensures UnamendedOk(l')
  {
    var call := l.phase.value.call;
    assert forall c :: c in l'.limbo <==> c in l.limbo || c == call;
  }

  lemma {:induction false} ForgettingKeepsUnamended(l: Line, m: Move, l': Line)
    requires UnamendedOk(l) && CanMove(l, m) && Moves(l, m, l') && m.Forget?
    ensures UnamendedOk(l')
  {
    assert forall c :: c in l'.limbo ==> c in l.limbo;
  }

  lemma {:induction false} CallsKeepUnamended(l: Line, m: Move, l': Line)
    requires UnamendedOk(l) && CanMove(l, m) && Moves(l, m, l')
    requires m.Serve? || m.Land?
    ensures UnamendedOk(l')
  {
    var call := if m.Serve? then l.phase.value.call else m.call;
    if !l.amended {
      assert !call.Put?;
    }
  }

  lemma {:induction false} VenueKeepsUnamended(l: Line, m: Move, l': Line)
    requires UnamendedOk(l) && CanMove(l, m) && Moves(l, m, l')
    requires m.Trade? || m.End? || m.Refuse? || m.Forward? || m.Skip?
    ensures UnamendedOk(l')
  {
  }

  lemma {:induction false} MovesKeepUnamended(l: Line, m: Move)
    requires UnamendedOk(l) && CanMove(l, m)
    ensures UnamendedOk(LineStep(l, m))
  {
    StepMoves(l, m);
    var l' := LineStep(l, m);
    match m {
      case SendCancel(_) => OmsKeepsUnamended(l, m, l');
      case SendAmend(_, _) => OmsKeepsUnamended(l, m, l');
      case SweepTick(_, _) => OmsKeepsUnamended(l, m, l');
      case HandleResponse => ResponseKeepsUnamended(l, m, l');
      case HandleFill => HandleFillKeepsUnamended(l, m, l');
      case Serve(_) => CallsKeepUnamended(l, m, l');
      case Land(_, _) => CallsKeepUnamended(l, m, l');
      case Trade(_, _, _) => VenueKeepsUnamended(l, m, l');
      case End => VenueKeepsUnamended(l, m, l');
      case Refuse => VenueKeepsUnamended(l, m, l');
      case Forward(_) => VenueKeepsUnamended(l, m, l');
      case Skip => VenueKeepsUnamended(l, m, l');
      case TakeRequest(_, _) => TakingKeepsUnamended(l, m, l');
      case Resume(_) => ResumingKeepsUnamended(l, m, l');
      case TimeOut => TimeOutKeepsUnamended(l, m, l');
      case Forget(_) => ForgettingKeepsUnamended(l, m, l');
    }
  }

  // ----- Quantities -----

  /** A resting order has something left; one that ended by a fill has nothing. */
  predicate VenueFits(v: VenueOrder) {
    && (v.Resting? ==> v.executed < v.quantity)
    && (v.Gone? ==> v.executed <= v.quantity && (v.byFill ==> v.executed == v.quantity > 0.0))
    && v.Executed() >= 0.0
  }

  predicate FilledFits(o: OrderState) {
    (o.status == Filled ==> o.filled >= o.quantity) && (o.status == PendingNew ==> o.filled == 0.0)
  }

  /** The quantity of an amend the venue has just applied, not yet published. */
  function PhaseAmend(phase: Option<Phase>): Option<Quantity> {
    if phase.Some? && phase.value.Answered? && phase.value.request.AmendTo? && phase.value.call.Put? && phase.value.answer.AmendApplied?
    then Some(if phase.value.answer.quantity.Some? then phase.value.answer.quantity.value else phase.value.request.quantity)
    else None
  }

  /** The quantity of the newest confirmation on its way to the OMS. */
  function InboxAmend(inbox: seq<Response>): Option<Quantity> {
    if inbox == [] then None
    else
      var r := inbox[|inbox| - 1];
      if r.Amended? then r.newQuantity else InboxAmend(inbox[..|inbox| - 1])
  }

  /** What the OMS will have once it has taken over every confirmation under way. */
  function Heading(l: Line): Quantity {
    if PhaseAmend(l.phase).Some? then PhaseAmend(l.phase).value
    else if InboxAmend(l.inbox).Some? then InboxAmend(l.inbox).value
    else l.order.quantity
  }

  /** Every confirmation names its quantity. */
  predicate NamesQuantity(inbox: seq<Response>) {
    forall r :: r in inbox && r.Amended? ==> r.newQuantity.Some?
  }

  predicate PutAnswered(phase: Option<Phase>) {
    phase.Some? && phase.value.Answered? && phase.value.call.Put? ==> !phase.value.answer.Done?
  }

  predicate MessagesOk(l: Line) { NamesQuantity(l.inbox) && PutAnswered(l.phase) }

  /** Until the venue accepts the order its quantity is the one placed; from then on, unless
      an amend went astray, the venue's quantity is what the OMS is heading for. */
  predicate Followed(l: Line) {
    && (NeverRested(l.venue) ==> l.order.quantity == l.placed)
    && (!NeverRested(l.venue) && !l.strayed ==> l.venue.quantity == Heading(l))
  }

  lemma {:induction false} CallsKeepVenue(l: Line, m: Move, l': Line)
    requires VenueFits(l.venue) && l.placed > 0.0 && CanMove(l, m) && Moves(l, m, l')
    requires m.Serve? || m.Land?
    ensures VenueFits(l'.venue)
  {
  }

  lemma {:induction false} OtherMovesKeepVenue(l: Line, m: Move, l': Line)
    requires VenueFits(l.venue) && CanMove(l, m) && Moves(l, m, l')
    requires !m.Serve? && !m.Land?
    ensures VenueFits(l'.venue)
  {
    if m.Trade? || m.End? {
      assert l.venue.Resting?;
    } else {
      assert l'.venue == l.venue;
    }
  }

  lemma {:induction false} ResponseKeepsFilled(o: OrderState, r: Response)
    requires FilledFits(o)
    ensures FilledFits(Handled(o, r))
  {
  }

  lemma {:induction false} SendingKeepsFilled(o: OrderState, amend: Amend, now: int, timeout: int)
    requires FilledFits(o)
    ensures FilledFits(CancelSent(o, now)) && FilledFits(AmendSent(o, amend, now)) && FilledFits(Swept(o, now, timeout))
  {
  }

  lemma {:induction false} FillKeepsFilled(l: Line)
    requires FilledFits(l.order) && FillsOk(l) && l.fills != []
    ensures FilledFits(Filling(l.order, l.fills[0]))
  {
    assert InFlight(l.fills, l.reports)[0] == l.fills[0];
    LiveOrdersAcceptVenueFate(l.order.status);
  }

  lemma {:induction false} MovesKeepFilled(l: Line, m: Move, l': Line)
    requires FilledFits(l.order) && FillsOk(l) && CanMove(l, m) && Moves(l, m, l')
    ensures FilledFits(l'.order)
  {
    match m {
      case SendCancel(now) => SendingKeepsFilled(l.order, Amend(None, 0.0), now, 0);
      case SendAmend(amend, now) => SendingKeepsFilled(l.order, amend, now, 0);
      case SweepTick(now, timeout) => SendingKeepsFilled(l.order, Amend(None, 0.0), now, timeout);
      case HandleResponse => ResponseKeepsFilled(l.order, l.inbox[0]);
      case HandleFill => FillKeepsFilled(l);
      case _ => assert l'.order == l.order;
    }
  }

  lemma {:induction false} GatewayKeepsMessages(l: Line, m: Move, l': Line)
    requires MessagesOk(l) && CanMove(l, m) && Moves(l, m, l')
    requires m.TakeRequest? || m.Resume? || m.TimeOut?
    ensures MessagesOk(l')
  {
  }

  lemma {:induction false} ServingKeepsMessages(l: Line, m: Move, l': Line)
    requires MessagesOk(l) && CanMove(l, m) && Moves(l, m, l') && m.Serve?
    ensures MessagesOk(l')
  {
    assert l'.inbox == l.inbox;
  }

  lemma {:induction false} OtherMovesKeepMessages(l: Line, m: Move, l': Line)
    requires MessagesOk(l) && CanMove(l, m) && Moves(l, m, l')
    requires !m.TakeRequest? && !m.Resume? && !m.TimeOut? && !m.Serve? && !m.HandleResponse? && !m.Forward?
    ensures MessagesOk(l')
  {
    assert l'.phase == l.phase && l'.inbox == l.inbox;
  }

  lemma {:induction false} QueuesKeepMessages(l: Line, m: Move, l': Line)
    requires MessagesOk(l) && CanMove(l, m) && Moves(l, m, l')
    requires m.HandleResponse? || m.Forward?
    ensures MessagesOk(l')
  {
    if m.HandleResponse? {
      assert forall r :: r in l'.inbox ==> r in l.inbox;
    } else {
      var news := ForwardedNews(l, m, l');
      assert forall r :: r in l'.inbox ==> r in l.inbox || r in news;
    }
  }

  lemma {:induction false} MovesKeepMessages(l: Line, m: Move, l': Line)
    requires MessagesOk(l) && CanMove(l, m) && Moves(l, m, l')
    ensures MessagesOk(l')
  {
    match m {
      case TakeRequest(_, _) => GatewayKeepsMessages(l, m, l');
      case Resume(_) => GatewayKeepsMessages(l, m, l');
      case TimeOut => GatewayKeepsMessages(l, m, l');
      case Serve(_) => ServingKeepsMessages(l, m, l');
      case HandleResponse => QueuesKeepMessages(l, m, l');
      case Forward(_) => QueuesKeepMessages(l, m, l');
      case _ => OtherMovesKeepMessages(l, m, l');
    }
  }

  // ----- The newest confirmation -----

  lemma {:induction false} InboxWithout(inbox: seq<Response>, r: Response)
    ensures InboxAmend(inbox + [r]) == if r.Amended? then r.newQuantity else InboxAmend(inbox)
  {
    assert (inbox + [r])[..|inbox|] == inbox;
  }

  /** Taking the oldest message leaves the newest confirmation, unless it was the only one. */
  lemma {:induction false} InboxTail(inbox: seq<Response>)
    requires inbox != [] && NamesQuantity(inbox)
    ensures InboxAmend(inbox[1..]).Some? ==> InboxAmend(inbox) == InboxAmend(inbox[1..])
    ensures InboxAmend(inbox[1..]).None? ==> InboxAmend(inbox) == if inbox[0].Amended? then inbox[0].newQuantity else None
  {
    if |inbox| > 1 {
      var n := |inbox| - 1;
      assert inbox[1..][..n - 1] == inbox[..n][1..];
      assert inbox[n] in inbox && forall r :: r in inbox[..n] ==> r in inbox;
      InboxTail(inbox[..n]);
    } else {
      assert inbox[..0] == [];
    }
  }

  // ----- The venue's quantity is followed -----

  lemma {:induction false} OmsKeepsFollowed(l: Line, m: Move, l': Line)
    requires Followed(l) && CanMove(l, m) && Moves(l, m, l')
    requires m.SendCancel? || m.SendAmend? || m.SweepTick? || m.HandleFill?
    ensures Followed(l')
  {
    assert l'.order.quantity == l.order.quantity;
  }

  lemma {:induction false} ResponseKeepsFollowed(l: Line, m: Move, l': Line)
    requires PlacementOk(l) && MessagesOk(l) && Followed(l) && CanMove(l, m) && Moves(l, m, l') && m.HandleResponse?
    ensures Followed(l')
  {
    var r := l.inbox[0];
    assert r in l.inbox;
    InboxTail(l.inbox);
    if !r.Amended? {
      assert l'.order.quantity == l.order.quantity;
    } else if !l'.strayed {
      assert l'.order.quantity == r.newQuantity.value;
    }
  }

  lemma {:induction false} GatewayKeepsFollowed(l: Line, m: Move, l': Line)
    requires PlacementOk(l) && MessagesOk(l) && Followed(l) && CanMove(l, m) && Moves(l, m, l')
    requires m.TakeRequest? || m.TimeOut? || m.Forget?
    ensures Followed(l')
  {
    if m.TakeRequest? && l'.inbox != l.inbox {
      InboxWithout(l.inbox, l'.inbox[|l.inbox|]);
    }
  }

  /** A resumed handler confirms an amend exactly when the venue applied it, at that quantity. */
  lemma {:induction false} ResumedAmend(p: Phase, ts: int)
    requires p.Answered? && CallFits(p) && PutAnswered(Some(p))
    ensures var r := AfterAnswer(p.request, p.call, p.answer, ts);
            && PhaseAmend(r.next).None? && |r.publish| <= 1
            && (PhaseAmend(Some(p)).Some? <==> r.publish != [] && r.publish[0].Amended?)
            && (PhaseAmend(Some(p)).Some? ==> r.publish[0].newQuantity == PhaseAmend(Some(p)))
  {
  }

  lemma {:induction false} ResumingKeepsFollowed(l: Line, m: Move, l': Line)
    requires PlacementOk(l) && MessagesOk(l) && Followed(l) && CanMove(l, m) && Moves(l, m, l') && m.Resume?
    ensures Followed(l')
  {
    var p := l.phase.value;
    ResumedAmend(p, m.ts);
    ConfirmationKeepsFollowed(l, l', AfterAnswer(p.request, p.call, p.answer, m.ts));
  }

  lemma {:induction false} ConfirmationKeepsFollowed(l: Line, l': Line, r: Resumption)
    requires Followed(l) && l' == l.(phase := r.next, inbox := l.inbox + r.publish)
    requires PhaseAmend(r.next).None? && |r.publish| <= 1
    requires PhaseAmend(l.phase).Some? <==> r.publish != [] && r.publish[0].Amended?
    requires PhaseAmend(l.phase).Some? ==> r.publish[0].newQuantity == PhaseAmend(l.phase)
    ensures Followed(l')
  {
    if r.publish == [] {
      assert l'.inbox == l.inbox;
    } else {
      assert r.publish == [r.publish[0]];
      InboxWithout(l.inbox, r.publish[0]);
    }
  }

  /** Before the venue accepts an order no amend of it is under way. */
  lemma {:induction false} NothingAppliedYet(l: Line)
    requires PlacementOk(l) && NeverRested(l.venue)
    ensures Heading(l) == l.order.quantity
  {
    NoAmendedNoQuantity(l.inbox);
  }

  lemma {:induction false} NoAmendedNoQuantity(inbox: seq<Response>)
    requires forall r :: r in inbox ==> !r.Amended?
    ensures InboxAmend(inbox).None?
  {
    if inbox != [] {
      assert inbox[|inbox| - 1] in inbox;
      NoAmendedNoQuantity(inbox[..|inbox| - 1]);
    }
  }

  lemma {:induction false} CallsKeepFollowed(l: Line, m: Move, l': Line)
    requires PlacementOk(l) && Followed(l) && CanMove(l, m) && Moves(l, m, l')
    requires m.Serve? || m.Land?
    ensures Followed(l')
  {
    if NeverRested(l.venue) {
      NothingAppliedYet(l);
    }
  }

  lemma {:induction false} VenueKeepsFollowed(l: Line, m: Move, l': Line)
    requires Followed(l) && CanMove(l, m) && Moves(l, m, l')
    requires m.Trade? || m.End? || m.Refuse? || m.Skip?
    ensures Followed(l')
  {
    assert Heading(l') == Heading(l);
  }

  lemma {:induction false} ForwardKeepsFollowed(l: Line, m: Move, l': Line)
    requires Followed(l) && CanMove(l, m) && Moves(l, m, l') && m.Forward?
    ensures Followed(l')
  {
    var news := ForwardedNews(l, m, l');
    NewsKeepsFollowed(l, l', news);
  }

  /** What the user-data stream tells the OMS beside fills, none of it about amends. */
  lemma {:induction false} ForwardedNews(l: Line, m: Move, l': Line) returns (news: seq<Response>)
    requires CanMove(l, m) && Moves(l, m, l') && m.Forward?
    ensures l' == l.(reports := l'.reports, fills := l'.fills, inbox := l.inbox + news)
    ensures |news| <= 1 && (news != [] ==> !news[0].Amended?)
  {
    match l.reports[0] {
      case Traded(_) =>
        news := [];
        assert l.inbox + [] == l.inbox;
      case Ended => news := [CancelDone(m.ts)];
      case RefusalReport => news := [Reject(m.ts)];
    }
  }

  lemma {:induction false} NewsKeepsFollowed(l: Line, l': Line, news: seq<Response>)
    requires Followed(l) && l' == l.(reports := l'.reports, fills := l'.fills, inbox := l.inbox + news)
    requires |news| <= 1 && (news != [] ==> !news[0].Amended?)
    ensures Followed(l')
  {
    if news == [] {
      assert l.inbox + [] == l.inbox;
    } else {
      assert news == [news[0]];
      InboxWithout(l.inbox, news[0]);
    }
  }

  lemma {:induction false} MovesKeepFollowed(l: Line, m: Move)
    requires PlacementOk(l) && MessagesOk(l) && Followed(l) && CanMove(l, m)
    ensures Followed(LineStep(l, m))
  {
    StepMoves(l, m);
    var l' := LineStep(l, m);
    match m {
      case HandleResponse => ResponseKeepsFollowed(l, m, l');
      case TakeRequest(_, _) => GatewayKeepsFollowed(l, m, l');
      case TimeOut => GatewayKeepsFollowed(l, m, l');
      case Forget(_) => GatewayKeepsFollowed(l, m, l');
      case Resume(_) => ResumingKeepsFollowed(l, m, l');
      case Serve(_) => CallsKeepFollowed(l, m, l');
      case Land(_, _) => CallsKeepFollowed(l, m, l');
      case Trade(_, _, _) => VenueKeepsFollowed(l, m, l');
      case End => VenueKeepsFollowed(l, m, l');
      case Refuse => VenueKeepsFollowed(l, m, l');
      case Forward(_) => ForwardKeepsFollowed(l, m, l');
      case Skip => VenueKeepsFollowed(l, m, l');
      case _ => OmsKeepsFollowed(l, m, l');
    }
  }

  // ----- A filled order does not stay live unnoticed -----

  /** The handler will end its amend by a refusal or by news that the order is gone. */
  predicate WillSettle(p: Phase) {
    p.request.AmendTo? &&
    (p.Waiting?
     || var r := AfterAnswer(p.request, p.call, p.answer, 0);
        r.next.Some? || (r.publish != [] && (r.publish[0].AmendRejected? || r.publish[0].CancelDone?)))
  }

  /** Something under way that makes a live order with nothing left terminal. */
  predicate Settling(l: Line) {
    || (exists r :: r in l.requests && r.AmendTo?)
    || (l.phase.Some? && WillSettle(l.phase.value))
    || (exists r :: r in l.inbox && (r.AmendRejected? || r.CancelDone?))
  }

  /** The venue filled the order, and the OMS has handled every fill. */
  predicate AllFillsHandled(l: Line) { l.venue.Gone? && l.venue.byFill && l.order.filled == l.venue.executed }

  /** An order that is live although all its fills were handled, and that has nothing left or
      waits for an amend, is about to be settled. */
  predicate SettledSoon(l: Line) {
    !l.order.Terminal() && AllFillsHandled(l) && (l.order.Leaves() == 0.0 || l.order.status == PendingAmend) ==> Settling(l)
  }

  lemma {:induction false} SendingKeepsSettled(l: Line, m: Move, l': Line)
    requires SettledSoon(l) && CanMove(l, m) && Moves(l, m, l')
    requires m.SendCancel? || m.SendAmend? || m.SweepTick?
    ensures SettledSoon(l')
  {
    assert forall r :: r in l.requests ==> r in l'.requests;
    if m.SendAmend? && l' != l {
      assert l'.requests[|l.requests|].AmendTo?;
    }
  }

  /** What a response does to a live order with nothing left, or one waiting for an amend. */
  lemma {:induction false} ResponseSettles(o: OrderState, r: Response)
    requires !Handled(o, r).Terminal()
    ensures !o.Terminal()
    ensures r.AmendRejected? ==> Handled(o, r).Leaves() != 0.0 && Handled(o, r).status != PendingAmend
    ensures !r.CancelDone?
    ensures Handled(o, r).status == PendingAmend ==> o.status == PendingAmend
    ensures Handled(o, r).Leaves() == 0.0 ==> o.Leaves() == 0.0 || (r.Amended? && (o.status == PendingAmend || o.status == PendingNew))
    ensures Handled(o, r).filled == o.filled
  {
    LiveOrdersAcceptVenueFate(o.status);
  }

  lemma {:induction false} HandlingKeepsSettled(l: Line, m: Move, l': Line)
    requires VenueFits(l.venue) && FilledFits(l.order) && SettledSoon(l)
    requires CanMove(l, m) && Moves(l, m, l') && m.HandleResponse?
    ensures SettledSoon(l')
  {
    var r := l.inbox[0];
    if !l'.order.Terminal() {
      ResponseSettles(l.order, r);
      assert forall x :: x in l.inbox ==> x == r || x in l'.inbox;
    }
  }

  lemma {:induction false} FillingKeepsSettled(l: Line, m: Move, l': Line)
    requires FillsOk(l) && SettledSoon(l) && CanMove(l, m) && Moves(l, m, l') && m.HandleFill?
    ensures SettledSoon(l')
  {
    assert InFlight(l.fills, l.reports)[0] == l.fills[0];
    LiveOrdersAcceptVenueFate(l.order.status);
  }

  lemma {:induction false} TakingKeepsSettled(l: Line, m: Move, l': Line)
    requires SettledSoon(l) && CanMove(l, m) && Moves(l, m, l') && m.TakeRequest?
    ensures SettledSoon(l')
  {
    assert forall r :: r in l.requests ==> r == l.requests[0] || r in l'.requests;
    assert forall r :: r in l.inbox ==> r in l'.inbox;
  }

  lemma {:induction false} ResumingKeepsSettled(l: Line, m: Move, l': Line)
    requires SettledSoon(l) && CanMove(l, m) && Moves(l, m, l') && m.Resume?
    ensures SettledSoon(l')
  {
    assert forall r :: r in l.inbox ==> r in l'.inbox;
    var p := l.phase.value;
    var r := AfterAnswer(p.request, p.call, p.answer, m.ts);
    if r.publish != [] {
      assert l'.inbox[|l.inbox|] == r.publish[0];
    }
  }

  lemma {:induction false} ServingKeepsSettled(l: Line, m: Move, l': Line)
    requires PlacementOk(l) && SettledSoon(l) && CanMove(l, m) && Moves(l, m, l') && m.Serve?
    ensures SettledSoon(l')
  {
  }

  lemma {:induction false} FaultsKeepSettled(l: Line, m: Move, l': Line)
    requires PlacementOk(l) && SettledSoon(l) && CanMove(l, m) && Moves(l, m, l')
    requires m.Land? || m.Forget?
    ensures SettledSoon(l')
  {
    LimboEndsNoOrderByFill(l, m, l');
    assert Settling(l') == Settling(l);
  }

  lemma {:induction false} LimboEndsNoOrderByFill(l: Line, m: Move, l': Line)
    requires CanMove(l, m) && Moves(l, m, l') && (m.Land? || m.Forget?)
    ensures l'.requests == l.requests && l'.phase == l.phase && l'.inbox == l.inbox && l'.order == l.order
    ensures l'.venue.Gone? && l'.venue.byFill ==> l'.venue == l.venue
  {
  }

  lemma {:induction false} TimingOutKeepsSettled(l: Line, m: Move, l': Line)
    requires PlacementOk(l) && SettledSoon(l) && CanMove(l, m) && Moves(l, m, l') && m.TimeOut?
    ensures SettledSoon(l')
  {
  }

  lemma {:induction false} VenueKeepsSettled(l: Line, m: Move, l': Line)
    requires FillsOk(l) && SettledSoon(l) && CanMove(l, m) && Moves(l, m, l')
    requires m.Trade? || m.End? || m.Refuse?
    ensures SettledSoon(l')
  {
    if m.Trade? {
      FilledAtMostExecuted(l);
    }
    assert Settling(l') == Settling(l);
  }

  lemma {:induction false} StreamKeepsSettled(l: Line, m: Move, l': Line)
    requires SettledSoon(l) && CanMove(l, m) && Moves(l, m, l')
    requires m.Forward? || m.Skip?
    ensures SettledSoon(l')
  {
    assert l'.venue == l.venue && l'.order == l.order && l'.phase == l.phase && l'.requests == l.requests;
    assert forall r :: r in l.inbox ==> r in l'.inbox;
  }

  lemma {:induction false} FilledAtMostExecuted(l: Line)
    requires FillsOk(l)
    ensures l.order.filled <= l.venue.Executed()
  {
    var inFlight := InFlight(l.fills, l.reports);
    assert Positive(inFlight);
    TotalIsNonnegative(inFlight);
  }

  lemma {:induction false} MovesKeepSettled(l: Line, m: Move)
    requires PlacementOk(l) && FillsOk(l) && VenueFits(l.venue) && FilledFits(l.order) && SettledSoon(l) && CanMove(l, m)
    ensures SettledSoon(LineStep(l, m))
  {
    StepMoves(l, m);
    var l' := LineStep(l, m);
    match m {
      case SendCancel(_) => SendingKeepsSettled(l, m, l');
      case SendAmend(_, _) => SendingKeepsSettled(l, m, l');
      case SweepTick(_, _) => SendingKeepsSettled(l, m, l');
      case HandleResponse => HandlingKeepsSettled(l, m, l');
      case HandleFill => FillingKeepsSettled(l, m, l');
      case TakeRequest(_, _) => TakingKeepsSettled(l, m, l');
      case Resume(_) => ResumingKeepsSettled(l, m, l');
      case Serve(_) => ServingKeepsSettled(l, m, l');
      case TimeOut => TimingOutKeepsSettled(l, m, l');
      case Land(_, _) => FaultsKeepSettled(l, m, l');
      case Forget(_) => FaultsKeepSettled(l, m, l');
      case Forward(_) => StreamKeepsSettled(l, m, l');
      case Skip => StreamKeepsSettled(l, m, l');
      case _ => VenueKeepsSettled(l, m, l');
    }
  }

  // ----- Quantities together -----

  predicate QuantitiesOk(l: Line) {
    && l.placed > 0.0 && VenueFits(l.venue) && FilledFits(l.order)
    && MessagesOk(l) && Followed(l) && SettledSoon(l)
  }

  lemma {:induction false} MovesKeepQuantities(l: Line, m: Move)
    requires Safe(l) && FillsOk(l) && QuantitiesOk(l) && CanMove(l, m)
    ensures QuantitiesOk(LineStep(l, m))
  {
    StepMoves(l, m);
    var l' := LineStep(l, m);
    if m.Serve? || m.Land? {
      CallsKeepVenue(l, m, l');
    } else {
      OtherMovesKeepVenue(l, m, l');
    }
    assert l'.placed == l.placed;
    MovesKeepFilled(l, m, l');
    MovesKeepMessages(l, m, l');
    MovesKeepFollowed(l, m);
    MovesKeepSettled(l, m);
  }

  // ----- All invariants of one order -----

  ghost predicate LineOk(l: Line) {
    Safe(l) && RejectsTrue(l) && EndsKnown(l) && FillsOk(l) && QuantitiesOk(l) && UnamendedOk(l)
  }

  lemma {:induction false} FreshLineOk(o: OrderState)
    requires o.status == PendingNew && o.filled == 0.0 && o.applied == {} && o.pendingAmend.None? && o.quantity > 0.0
    ensures LineOk(FreshLine(o))
  {
    var l := FreshLine(o);
    assert Safe(l);
    assert RejectsTrue(l) && EndsKnown(l);
    FreshFillsOk(o);
    assert QuantitiesOk(l);
    assert UnamendedOk(l);
  }

  lemma {:induction false} FreshFillsOk(o: OrderState)
    requires o.filled == 0.0 && o.applied == {}
    ensures FillsOk(FreshLine(o))
  {
    assert InFlight([], []) == [];
  }

  lemma {:induction false} MovesKeepLine(l: Line, m: Move)
    requires LineOk(l) && CanMove(l, m)
    ensures LineOk(LineStep(l, m))
  {
    MovesKeepSafe(l, m);
    MovesKeepRejects(l, m);
    MovesKeepEnds(l, m);
    MovesKeepFills(l, m);
    MovesKeepQuantities(l, m);
    MovesKeepUnamended(l, m);
  }

  // ----- What follows at every moment, and when nothing is under way -----

  /** A cancelled order never rests; nor does a rejected one unless its request timed out. */
  lemma {:induction false} FinalRecordsAreTrue(l: Line)
    requires LineOk(l)
    ensures l.order.status == Cancelled ==> l.venue.Gone?
    ensures l.order.status == Rejected && !l.faulted ==> NeverRested(l.venue)
  {
  }

  /** A rejected order that the venue has not accepted can still come to rest exactly while
      its timed-out order request may yet arrive. */
  lemma {:induction false} RejectedMayComeToRestIffRequestInLimbo(l: Line)
    requires Safe(l) && l.order.status == Rejected && NeverRested(l.venue)
    ensures (exists m :: CanMove(l, m) && LineStep(l, m).venue.Resting?) <==> Post in l.limbo
  {
    if Post in l.limbo {
      assert CanMove(l, Land(Post, Done)) && LineStep(l, Land(Post, Done)).venue.Resting?;
    } else {
      forall m | CanMove(l, m) ensures !LineStep(l, m).venue.Resting? {
        StepMoves(l, m);
      }
    }
  }

  /** The OMS tracks the order as live exactly when it rests. */
  predicate Agree(o: OrderState, v: VenueOrder) { o.Terminal() <==> !v.Resting? }

  /** The OMS's record and the venue's have the same quantity. */
  predicate SameQuantity(o: OrderState, v: VenueOrder) { !NeverRested(v) && o.quantity == v.quantity }

  /** When nothing about an order is under way and nothing about it was lost: the OMS has
      exactly the venue's executions; an order the venue ended or refused is terminal; if no
      amend of it went astray, its quantity is the venue's; and whenever the quantities are
      the same, amends or not, it is live exactly when it rests. */
  lemma {:induction false} QuietRecordsAgree(l: Line)
    requires LineOk(l) && Quiet(l) && !l.faulted && !l.lost
    ensures l.order.filled == l.venue.Executed()
    ensures l.venue.Gone? && !l.venue.byFill ==> l.order.Terminal()
    ensures NeverRested(l.venue) ==> l.order.status == Rejected
    ensures !l.strayed && !NeverRested(l.venue) ==> SameQuantity(l.order, l.venue)
    ensures SameQuantity(l.order, l.venue) || !l.strayed ==> Agree(l.order, l.venue)
    ensures !l.amended ==> !l.strayed
  {
    assert InFlight(l.fills, l.reports) == [];
    assert InboxAmend(l.inbox).None?;
  }

  /** How the two records can differ: FILLED below the venue's quantity, or live at another. */
  lemma {:induction false} HowRecordsDiffer(l: Line)
    requires LineOk(l) && Quiet(l) && !l.faulted && !l.lost && !Agree(l.order, l.venue)
    ensures l.strayed && l.order.quantity != l.venue.quantity
    ensures l.venue.Resting? ==> l.order.status == Filled && l.order.quantity <= l.venue.executed < l.venue.quantity
    ensures !l.venue.Resting? ==> !l.order.Terminal() && l.venue.Gone? && l.venue.byFill
                                  && l.order.filled == l.venue.quantity != l.order.quantity
  {
    QuietRecordsAgree(l);
  }

  // ----- What will happen to a resting order -----

  predicate OnlyExecutions(moves: seq<Move>) {
    forall m :: m in moves ==> m.Trade? || m.Forward? || m.HandleFill?
  }

  lemma {:induction false} ExecutionsKeepQuantities(l: Line, m: Move)
    requires CanMove(l, m) && (m.Trade? || m.Forward? || m.HandleFill?) && !NeverRested(l.venue)
    ensures var l' := LineStep(l, m);
            && l'.order.quantity == l.order.quantity && !NeverRested(l'.venue) && l'.venue.quantity == l.venue.quantity
            && l'.faulted == l.faulted && l'.lost == l.lost
  {
    StepMoves(l, m);
  }

  lemma {:induction false} ExecutedLine(l: Line, moves: seq<Move>, l': Line)
    requires LineOk(l) && !NeverRested(l.venue) && OnlyExecutions(moves) && LineAfter(l, moves) == Some(l')
    ensures LineOk(l') && !NeverRested(l'.venue)
    ensures l'.order.quantity == l.order.quantity && l'.venue.quantity == l.venue.quantity
    ensures l'.faulted == l.faulted && l'.lost == l.lost
    decreases |moves|
  {
    if moves != [] {
      var n := |moves| - 1;
      var mid := LineAfter(l, moves[..n]).value;
      assert moves[n] in moves && forall m :: m in moves[..n] ==> m in moves;
      ExecutedLine(l, moves[..n], mid);
      MovesKeepLine(mid, moves[n]);
      ExecutionsKeepQuantities(mid, moves[n]);
    }
  }

  /** Whatever is executed from now on, the records agree whenever nothing is under way. */
  ghost predicate StaysInStep(l: Line) {
    forall moves, l' :: OnlyExecutions(moves) && LineAfter(l, moves) == Some(l') && Quiet(l') ==> Agree(l'.order, l'.venue)
  }

  /** A live order that rests quietly stays in step with the venue, however it is executed,
      exactly when the two recorded quantities are the same. */
  lemma {:induction false} StaysInStepIffSameQuantity(l: Line)
    requires LineOk(l) && Quiet(l) && !l.faulted && !l.lost && l.venue.Resting? && !l.order.Terminal()
    ensures StaysInStep(l) <==> l.order.quantity == l.venue.quantity
  {
    if l.order.quantity == l.venue.quantity {
      forall moves, l' | OnlyExecutions(moves) && LineAfter(l, moves) == Some(l') && Quiet(l') ensures Agree(l'.order, l'.venue) {
        ExecutedLine(l, moves, l');
        QuietRecordsAgree(l');
      }
    } else {
      var moves, l' := ExecutedOut(l);
      assert !Agree(l'.order, l'.venue);
    }
  }

  /** All that rests is executed at once. */
  lemma {:induction false} ExecutedOut(l: Line) returns (moves: seq<Move>, l': Line)
    requires LineOk(l) && Quiet(l) && !l.faulted && !l.lost && l.venue.Resting? && !l.order.Terminal()
    ensures OnlyExecutions(moves) && LineAfter(l, moves) == Some(l') && Quiet(l') && l'.venue.Gone?
    ensures l'.order.Terminal() <==> l.order.quantity == l.venue.quantity
  {
    QuietRecordsAgree(l);
    var v := l.venue;
    moves, l' := ExecutionRun(l, [], l, v.quantity - v.executed, 0.0, 0);
    assert v.trades !in l.order.applied;
    LiveOrdersAcceptVenueFate(l.order.status);
    assert Recorded(l.order, Fill(v.trades, 0.0, v.quantity - v.executed, 0)).filled == v.quantity;
  }
}
