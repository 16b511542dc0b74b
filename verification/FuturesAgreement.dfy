/** What the OMS's record of an order and the venue's record owe to each other. */
module FuturesAgreement {
  import opened Types
  import opened StateMachine
  import opened Orders
  import opened FillAccounting
  import opened BinanceGateway
  import opened FuturesProtocol

  // ----- Rejections -----

  /** The venue did not accept the order, and no call can still make it. */
  predicate NeverPlaced(l: Line) {
    || l.venue.Refused?
    || (l.venue.Unseen? && New !in l.requests && l.phase != Some(Waiting(New, Post)) && Post !in l.limbo)
  }

  /** Unless the order request timed out, a rejection is right about the venue, and an
      order the venue will never have is rejected or about to be. */
  predicate RejectsTrue(l: Line) {
    l.faulted ||
    (&& (l.order.status == Rejected ==> NeverPlaced(l))
     && (forall r :: r in l.inbox && r.Reject? ==> NeverPlaced(l))
     && (RefusalReport in l.reports ==> l.venue.Refused?)
     && (NeverPlaced(l) ==>
           l.order.status == Rejected || l.inbox != [] || l.phase.Some?)
     && (l.phase.Some? && l.phase.value.request.New? && NeverRested(l.venue) ==>
           l.phase.value == Waiting(New, Post) || (l.phase.value.Answered? && l.phase.value.answer.VenueError?)))
  }

  lemma {:induction false} OmsChangeKeepsRejects(l: Line, l': Line, o: OrderState, extra: seq<Request>)
    requires RejectsTrue(l) && l' == l.(order := o, requests := l.requests + extra, amended := l'.amended)
    requires New !in extra
    requires NeverRested(l.venue) ==> o == l.order && extra == []
    requires o.status == Rejected ==> l.order.status == Rejected
    ensures RejectsTrue(l')
  {
    assert NeverPlaced(l') <==> NeverPlaced(l);
  }

  lemma {:induction false} OmsKeepsRejects(l: Line, m: Move, l': Line)
    requires Safe(l) && RejectsTrue(l) && CanMove(l, m) && Moves(l, m, l')
    requires m.SendCancel? || m.SendAmend? || m.SweepTick?
    ensures RejectsTrue(l')
  {
    if l' != l {
      NothingAdded(l);
      var extra := match m
        case SendCancel(_) => [Cancel]
        case SendAmend(amend, _) => [AmendTo(amend.price, amend.quantity)]
        case _ => [];
      OmsChangeKeepsRejects(l, l', l'.order, extra);
    }
  }

  lemma {:induction false} HandlingKeepsRejects(l: Line, m: Move, l': Line)
    requires Safe(l) && RejectsTrue(l) && CanMove(l, m) && Moves(l, m, l')
    requires m.HandleResponse? || m.HandleFill?
    ensures RejectsTrue(l')
  {
    assert NeverPlaced(l') <==> NeverPlaced(l);
    if m.HandleResponse? {
      assert l.inbox[0] in l.inbox;
      assert forall r :: r in l'.inbox ==> r in l.inbox;
    }
  }

  lemma {:induction false} TakingKeepsRejects(l: Line, m: Move, l': Line)
    requires Safe(l) && RejectsTrue(l) && CanMove(l, m) && Moves(l, m, l') && m.TakeRequest?
    ensures RejectsTrue(l')
  {
    assert l.requests[0] in l.requests;
    assert forall r :: r in l'.requests ==> r in l.requests;
  }

  /** What a resumed handler can say of a new order, and of one it does not place. */
  lemma {:induction false} ResumedNews(p: Phase, ts: int)
    requires p.Answered?
    ensures var r := AfterAnswer(p.request, p.call, p.answer, ts);
            && (r.next.Some? ==> p.request.AmendTo? && r.next.value.request == p.request)
            && (p.request.New? ==> r.next.None? && |r.publish| == 1)
            && (p.request.New? ==> (r.publish[0].Reject? <==> p.answer.VenueError? || p.answer.Fault?))
            && (!p.request.New? ==> forall x :: x in r.publish ==> !x.Reject?)
  {
  }

  lemma {:induction false} ResumingKeepsRejects(l: Line, m: Move, l': Line)
    requires Safe(l) && RejectsTrue(l) && CanMove(l, m) && Moves(l, m, l') && m.Resume?
    ensures RejectsTrue(l')
  {
    var p := l.phase.value;
    ResumedNews(p, m.ts);
    NewsKeepsRejects(l, l', AfterAnswer(p.request, p.call, p.answer, m.ts));
  }

  lemma {:induction false} NewsKeepsRejects(l: Line, l': Line, r: Resumption)
    requires Safe(l) && RejectsTrue(l) && l.phase.Some? && l.phase.value.Answered?
    requires l' == l.(phase := r.next, inbox := l.inbox + r.publish)
    requires r.next.Some? ==> l.phase.value.request.AmendTo? && r.next.value.request == l.phase.value.request
    requires l.phase.value.request.New? ==> r.next.None? && |r.publish| == 1
    requires l.phase.value.request.New? ==> (r.publish[0].Reject? <==> l.phase.value.answer.VenueError? || l.phase.value.answer.Fault?)
    requires !l.phase.value.request.New? ==> forall x :: x in r.publish ==> !x.Reject?
    ensures RejectsTrue(l')
  {
  }

  lemma {:induction false} ServingKeepsRejects(l: Line, m: Move, l': Line)
    requires Safe(l) && RejectsTrue(l) && CanMove(l, m) && Moves(l, m, l') && m.Serve?
    ensures RejectsTrue(l')
  {
  }

  lemma {:induction false} LandingKeepsRejects(l: Line, m: Move, l': Line)
    requires Safe(l) && RejectsTrue(l) && CanMove(l, m) && Moves(l, m, l') && m.Land?
    ensures RejectsTrue(l')
  {
  }

  lemma {:induction false} FaultsKeepRejects(l: Line, m: Move, l': Line)
    requires Safe(l) && RejectsTrue(l) && CanMove(l, m) && Moves(l, m, l')
    requires m.TimeOut? || m.Forget?
    ensures RejectsTrue(l')
  {
  }

  lemma {:induction false} VenueKeepsRejects(l: Line, m: Move, l': Line)
    requires Safe(l) && RejectsTrue(l) && CanMove(l, m) && Moves(l, m, l')
    requires m.Trade? || m.End? || m.Refuse?
    ensures RejectsTrue(l')
  {
    assert NeverPlaced(l') <==> NeverPlaced(l);
  }

  lemma {:induction false} StreamKeepsRejects(l: Line, m: Move, l': Line)
    requires Safe(l) && RejectsTrue(l) && CanMove(l, m) && Moves(l, m, l')
    requires m.Forward? || m.Skip?
    ensures RejectsTrue(l')
  {
    assert NeverPlaced(l') <==> NeverPlaced(l);
    assert l.reports[0] in l.reports;
    assert forall r :: r in l'.reports ==> r in l.reports;
  }

  lemma {:induction false} MovesKeepRejects(l: Line, m: Move)
    requires Safe(l) && RejectsTrue(l) && CanMove(l, m)
    ensures RejectsTrue(LineStep(l, m))
  {
    StepMoves(l, m);
    var l' := LineStep(l, m);
    match m {
      case SendCancel(_) => OmsKeepsRejects(l, m, l');
      case SendAmend(_, _) => OmsKeepsRejects(l, m, l');
      case SweepTick(_, _) => OmsKeepsRejects(l, m, l');
      case HandleResponse => HandlingKeepsRejects(l, m, l');
      case HandleFill => HandlingKeepsRejects(l, m, l');
      case TakeRequest(_, _) => TakingKeepsRejects(l, m, l');
      case Resume(_) => ResumingKeepsRejects(l, m, l');
      case Forward(_) => StreamKeepsRejects(l, m, l');
      case Skip => StreamKeepsRejects(l, m, l');
      case Trade(_, _, _) => VenueKeepsRejects(l, m, l');
      case End => VenueKeepsRejects(l, m, l');
      case Refuse => VenueKeepsRejects(l, m, l');
      case Serve(_) => ServingKeepsRejects(l, m, l');
      case Land(_, _) => LandingKeepsRejects(l, m, l');
      case _ => FaultsKeepRejects(l, m, l');
    }
  }

  // ----- Cancellations become known -----

  predicate EndAnnounced(l: Line) {
    l.order.Terminal() || Ended in l.reports || exists r :: r in l.inbox && r.CancelDone?
  }

  /** An order the venue ended without filling it is terminal at the OMS or the news is on
      its way, unless the user-data stream dropped a report. */
  predicate EndsKnown(l: Line) {
    && (l.venue.Gone? && !l.venue.byFill && !l.lost ==> EndAnnounced(l))
    && l.order.status != Expired
  }

  lemma {:induction false} TerminalStays(o: OrderState, r: Response, f: Fill, now: int, timeout: int, amend: Amend)
    requires o.status != Expired
    ensures Handled(o, r).status != Expired && Filling(o, f).status != Expired && CancelSent(o, now).status != Expired
    ensures AmendSent(o, amend, now).status != Expired && Swept(o, now, timeout).status != Expired
    ensures o.Terminal() ==> Handled(o, r).Terminal() && Filling(o, f).Terminal() && CancelSent(o, now).Terminal()
                             && AmendSent(o, amend, now).Terminal() && Swept(o, now, timeout).Terminal()
    ensures r.CancelDone? ==> Handled(o, r).Terminal()
  {
    LiveOrdersAcceptVenueFate(o.status);
  }

  lemma {:induction false} OmsKeepsEnds(l: Line, m: Move, l': Line)
    requires EndsKnown(l) && CanMove(l, m) && Moves(l, m, l')
    requires m.SendCancel? || m.SendAmend? || m.SweepTick?
    ensures EndsKnown(l')
  {
    var now := match m case SendCancel(now) => now case SendAmend(_, now) => now case SweepTick(now, _) => now case _ => 0;
    var timeout := if m.SweepTick? then m.timeout else 0;
    TerminalStays(l.order, Reject(0), Fill(0, 0.0, 0.0, 0), now, timeout, if m.SendAmend? then m.amend else Amend(None, 0.0));
  }

  lemma {:induction false} HandlingKeepsEnds(l: Line, m: Move, l': Line)
    requires EndsKnown(l) && CanMove(l, m) && Moves(l, m, l')
    requires m.HandleResponse? || m.HandleFill?
    ensures EndsKnown(l')
  {
    var r := if m.HandleResponse? then l.inbox[0] else Reject(0);
    var f := if m.HandleFill? then l.fills[0] else Fill(0, 0.0, 0.0, 0);
    TerminalStays(l.order, r, f, 0, 0, Amend(None, 0.0));
    if m.HandleResponse? {
      assert forall x :: x in l.inbox ==> x == l.inbox[0] || x in l'.inbox;
    }
  }

  lemma {:induction false} GatewayKeepsEnds(l: Line, m: Move, l': Line)
    requires EndsKnown(l) && CanMove(l, m) && Moves(l, m, l')
    requires m.TakeRequest? || m.Resume? || m.TimeOut?
    ensures EndsKnown(l')
  {
    assert forall x :: x in l.inbox ==> x in l'.inbox;
  }

  lemma {:induction false} VenueKeepsEnds(l: Line, m: Move, l': Line)
    requires EndsKnown(l) && CanMove(l, m) && Moves(l, m, l')
    requires m.Serve? || m.Land? || m.Forget? || m.Trade? || m.End? || m.Refuse?
    ensures EndsKnown(l')
  {
    assert forall x :: x in l.reports ==> x in l'.reports;
    if m.End? {
      assert l'.reports[|l.reports|] == Ended;
    }
  }

  lemma {:induction false} StreamKeepsEnds(l: Line, m: Move, l': Line)
    requires EndsKnown(l) && CanMove(l, m) && Moves(l, m, l')
    requires m.Forward? || m.Skip?
    ensures EndsKnown(l')
  {
    assert forall x :: x in l.reports ==> x == l.reports[0] || x in l'.reports;
    if m.Forward? {
      assert forall x :: x in l.inbox ==> x in l'.inbox;
      if l.reports[0].Ended? {
        assert l'.inbox[|l.inbox|] == CancelDone(m.ts);
      }
    }
  }

  lemma {:induction false} MovesKeepEnds(l: Line, m: Move)
    requires EndsKnown(l) && CanMove(l, m)
    ensures EndsKnown(LineStep(l, m))
  {
    StepMoves(l, m);
    var l' := LineStep(l, m);
    match m {
      case SendCancel(_) => OmsKeepsEnds(l, m, l');
      case SendAmend(_, _) => OmsKeepsEnds(l, m, l');
      case SweepTick(_, _) => OmsKeepsEnds(l, m, l');
      case HandleResponse => HandlingKeepsEnds(l, m, l');
      case HandleFill => HandlingKeepsEnds(l, m, l');
      case TakeRequest(_, _) => GatewayKeepsEnds(l, m, l');
      case Resume(_) => GatewayKeepsEnds(l, m, l');
      case TimeOut => GatewayKeepsEnds(l, m, l');
      case Forward(_) => StreamKeepsEnds(l, m, l');
      case Skip => StreamKeepsEnds(l, m, l');
      case _ => VenueKeepsEnds(l, m, l');
    }
  }

  // ----- Fills in flight -----

  function FillsOf(reports: seq<Report>): seq<Fill> {
    if reports == [] then []
    else (if reports[0].Traded? then [reports[0].fill] else []) + FillsOf(reports[1..])
  }

  /** The executions the OMS has not accounted for yet, oldest first. */
  function InFlight(fills: seq<Fill>, reports: seq<Report>): seq<Fill> { fills + FillsOf(reports) }

  /** Fill ids are fresh, fills positive, and what the OMS has plus what is in flight is what
      the venue executed; a dropped report can only lose some of it. */
  ghost predicate FillsTrue(o: OrderState, inFlight: seq<Fill>, executed: Quantity, trades: nat, lost: bool) {
    && (forall i, j :: 0 <= i < j < |inFlight| ==> inFlight[i].id < inFlight[j].id)
    && (forall i :: 0 <= i < |inFlight| ==> inFlight[i].id < trades && inFlight[i].quantity > 0.0)
    && (forall a :: a in o.applied ==> a < trades)
    && (forall a, i :: a in o.applied && 0 <= i < |inFlight| ==> a < inFlight[i].id)
    && o.filled + Total(inFlight, QuantityOf) <= executed
    && (!lost ==> o.filled + Total(inFlight, QuantityOf) == executed)
  }

  ghost predicate FillsOk(l: Line) {
    FillsTrue(l.order, InFlight(l.fills, l.reports), l.venue.Executed(), l.venue.Trades(), l.lost)
  }

  lemma {:induction false} FillsOfAppend(a: seq<Report>, b: seq<Report>)
    ensures FillsOf(a + b) == FillsOf(a) + FillsOf(b)
    decreases |a|
  {
    if a == [] {
      assert a + b == b;
    } else {
      assert (a + b)[1..] == a[1..] + b && (a + b)[0] == a[0];
      FillsOfAppend(a[1..], b);
      var head := if a[0].Traded? then [a[0].fill] else [];
      assert head + (FillsOf(a[1..]) + FillsOf(b)) == (head + FillsOf(a[1..])) + FillsOf(b);
    }
  }

  lemma {:induction false} DropFirst(fs: seq<Fill>)
    requires fs != []
    ensures Total(fs, QuantityOf) == fs[0].quantity + Total(fs[1..], QuantityOf)
  {
    assert [fs[0]] + fs[1..] == fs;
    TotalsSplit([fs[0]], fs[1..], QuantityOf);
    assert [fs[0]][..0] == [];
  }

  /** Changes that touch neither fills nor the venue's executions. */
  lemma {:induction false} SameAccounts(l: Line, l': Line)
    requires FillsOk(l)
    requires l'.order.filled == l.order.filled && l'.order.applied == l.order.applied
    requires InFlight(l'.fills, l'.reports) == InFlight(l.fills, l.reports)
    requires l'.venue.Executed() == l.venue.Executed() && l'.venue.Trades() == l.venue.Trades() && l'.lost == l.lost
    ensures FillsOk(l')
  {
  }

  lemma {:induction false} OtherMovesKeepFills(l: Line, m: Move, l': Line)
    requires FillsOk(l) && CanMove(l, m) && Moves(l, m, l')
    requires m.SendCancel? || m.SendAmend? || m.SweepTick? || m.HandleResponse?
             || m.TakeRequest? || m.Resume? || m.TimeOut? || m.Forget?
    ensures FillsOk(l')
  {
    SameAccounts(l, l');
  }

  lemma {:induction false} NewReportKeepsInFlight(l: Line, r: Report)
    requires !r.Traded?
    ensures InFlight(l.fills, l.reports + [r]) == InFlight(l.fills, l.reports)
  {
    FillsOfAppend(l.reports, [r]);
    assert [r][1..] == [];
  }

  lemma {:induction false} ServedExecutesNothing(v: VenueOrder, placed: Quantity, call: Call, answer: Answer)
    requires Truthful(v, call, answer)
    ensures var (v', reports) := Served(v, placed, call, answer);
            v'.Executed() == v.Executed() && v'.Trades() == v.Trades() && (reports == [] || reports == [Ended])
  {
  }

  lemma {:induction false} CallsKeepFills(l: Line, m: Move, l': Line)
    requires FillsOk(l) && CanMove(l, m) && Moves(l, m, l')
    requires m.Serve? || m.Land?
    ensures FillsOk(l')
  {
    ServedExecutesNothing(l.venue, l.placed, if m.Serve? then l.phase.value.call else m.call, m.answer);
    NewReportKeepsInFlight(l, Ended);
    assert l.reports + [] == l.reports;
    SameAccounts(l, l');
  }

  lemma {:induction false} EndKeepsFills(l: Line, m: Move, l': Line)
    requires FillsOk(l) && CanMove(l, m) && Moves(l, m, l')
    requires m.End? || m.Refuse?
    ensures FillsOk(l')
  {
    NewReportKeepsInFlight(l, Ended);
    NewReportKeepsInFlight(l, RefusalReport);
    SameAccounts(l, l');
  }

  lemma {:induction false} NewFillInFlight(o: OrderState, inFlight: seq<Fill>, executed: Quantity, trades: nat, lost: bool, f: Fill)
    requires FillsTrue(o, inFlight, executed, trades, lost) && f.id == trades && f.quantity > 0.0
    ensures FillsTrue(o, inFlight + [f], executed + f.quantity, trades + 1, lost)
  {
    var all := inFlight + [f];
    assert forall i :: 0 <= i < |inFlight| ==> all[i] == inFlight[i];
    assert all[|inFlight|] == f;
    assert (inFlight + [f])[..|inFlight|] == inFlight;
    assert Total(inFlight + [f], QuantityOf) == Total(inFlight, QuantityOf) + f.quantity;
  }

  lemma {:induction false} TradeReportInFlight(fills: seq<Fill>, reports: seq<Report>, f: Fill)
    ensures InFlight(fills, reports + [Traded(f)]) == InFlight(fills, reports) + [f]
  {
    FillsOfAppend(reports, [Traded(f)]);
    assert [Traded(f)][1..] == [];
  }

  lemma {:induction false} ReportedTradeKeepsFills(l: Line, l': Line, f: Fill)
    requires FillsOk(l) && f.id == l.venue.Trades() && f.quantity > 0.0
    requires l'.order == l.order && l'.lost == l.lost && l'.fills == l.fills && l'.reports == l.reports + [Traded(f)]
    requires l'.venue.Executed() == l.venue.Executed() + f.quantity && l'.venue.Trades() == l.venue.Trades() + 1
    ensures FillsOk(l')
  {
    TradeReportInFlight(l.fills, l.reports, f);
    NewFillInFlight(l.order, InFlight(l.fills, l.reports), l.venue.Executed(), l.venue.Trades(), l.lost, f);
  }

  lemma {:induction false} TradeKeepsFills(l: Line, m: Move, l': Line)
    requires FillsOk(l) && CanMove(l, m) && Moves(l, m, l') && m.Trade?
    ensures FillsOk(l')
  {
    ReportedTradeKeepsFills(l, l', Fill(l.venue.trades, m.price, m.quantity, m.ts));
  }

  lemma {:induction false} OldestFillHandled(o: OrderState, inFlight: seq<Fill>, executed: Quantity, trades: nat, lost: bool)
    requires inFlight != [] && FillsTrue(o, inFlight, executed, trades, lost)
    ensures FillsTrue(Recorded(o, inFlight[0]), inFlight[1..], executed, trades, lost)
  {
    DropFirst(inFlight);
    assert inFlight[0].id !in o.applied;
  }

  lemma {:induction false} HandleFillKeepsFills(l: Line, m: Move, l': Line)
    requires FillsOk(l) && CanMove(l, m) && Moves(l, m, l') && m.HandleFill?
    ensures FillsOk(l')
  {
    var before, after := InFlight(l.fills, l.reports), InFlight(l'.fills, l'.reports);
    assert before[0] == l.fills[0] && after == before[1..];
    OldestFillHandled(l.order, before, l.venue.Executed(), l.venue.Trades(), l.lost);
    var r := Recorded(l.order, l.fills[0]);
    assert l'.order.filled == r.filled && l'.order.applied == r.applied;
  }

  lemma {:induction false} ForwardKeepsFills(l: Line, m: Move, l': Line)
    requires FillsOk(l) && CanMove(l, m) && Moves(l, m, l') && m.Forward?
    ensures FillsOk(l')
  {
    assert InFlight(l'.fills, l'.reports) == InFlight(l.fills, l.reports);
    SameAccounts(l, l');
  }

  lemma {:induction false} FillDropped(o: OrderState, a: seq<Fill>, f: Fill, b: seq<Fill>, executed: Quantity, trades: nat, lost: bool)
    requires FillsTrue(o, a + [f] + b, executed, trades, lost)
    ensures FillsTrue(o, a + b, executed, trades, true)
  {
    var all, less := a + [f] + b, a + b;
    forall i | 0 <= i < |less| ensures less[i] == all[if i < |a| then i else i + 1] {
    }
    TotalsSplit(a + [f], b, QuantityOf);
    TotalsSplit(a, b, QuantityOf);
    assert (a + [f])[..|a|] == a;
    assert all[|a|] == f && f.quantity > 0.0;
    assert Total(a + [f], QuantityOf) == Total(a, QuantityOf) + f.quantity;
  }

  lemma {:induction false} SkipKeepsFills(l: Line, l': Line)
    requires FillsOk(l) && CanMove(l, Skip) && Moves(l, Skip, l')
    ensures FillsOk(l')
  {
    if l.reports[0].Traded? {
      var f := l.reports[0].fill;
      assert InFlight(l.fills, l.reports) == l.fills + [f] + FillsOf(l.reports[1..]);
      FillDropped(l.order, l.fills, f, FillsOf(l.reports[1..]), l.venue.Executed(), l.venue.Trades(), l.lost);
    } else {
      assert InFlight(l'.fills, l'.reports) == InFlight(l.fills, l.reports);
      SameAccounts(l, l'.(lost := l.lost));
    }
  }

  lemma {:induction false} MovesKeepFills(l: Line, m: Move)
    requires FillsOk(l) && CanMove(l, m)
    ensures FillsOk(LineStep(l, m))
  {
    StepMoves(l, m);
    var l' := LineStep(l, m);
    match m {
      case HandleFill => HandleFillKeepsFills(l, m, l');
      case Serve(_) => CallsKeepFills(l, m, l');
      case Land(_, _) => CallsKeepFills(l, m, l');
      case End => EndKeepsFills(l, m, l');
      case Refuse => EndKeepsFills(l, m, l');
      case Trade(_, _, _) => TradeKeepsFills(l, m, l');
      case Forward(_) => ForwardKeepsFills(l, m, l');
      case Skip => SkipKeepsFills(l, l');
      case _ => OtherMovesKeepFills(l, m, l');
    }
  }
}
