/** One order as seen by all parties at once: the OMS, the gateway, the venue, and every
    message in flight between them that concerns it. */
module FuturesProtocol {
  import opened Types
  import opened StateMachine
  import opened Orders
  import opened BinanceGateway

  /** The venue's record. `trades` numbers the order's executions. */
  datatype VenueOrder =
    | Unseen
    | Refused
    | Resting(quantity: Quantity, executed: Quantity, trades: nat)
    | Gone(quantity: Quantity, executed: Quantity, trades: nat, byFill: bool)
  {
    function Executed(): Quantity {
      match this
      case Resting(_, executed, _) => executed
      case Gone(_, executed, _, _) => executed
      case _ => 0.0
    }

    function Trades(): nat {
      match this
      case Resting(_, _, trades) => trades
      case Gone(_, _, trades, _) => trades
      case _ => 0
    }
  }

  /** User-data stream reports on one order. */
  datatype Report =
    | Traded(fill: Fill)
    | Ended
    | RefusalReport

  /** Everything about one order. `placed` is the quantity of its order request; `limbo`
      holds calls that timed out and may still reach the venue. The last four fields
      record whether its order request timed out, whether the user-data stream skipped a
      report on it, whether an amend was ever requested, and whether one that the venue
      applied was not taken over: its confirmation met an order no longer waiting for an
      amend, or its request timed out and was applied all the same. */
  datatype Line = Line(
    order: OrderState,
    placed: Quantity,
    venue: VenueOrder,
    requests: seq<Request>,
    phase: Option<Phase>,
    inbox: seq<Response>,
    fills: seq<Fill>,
    reports: seq<Report>,
    limbo: multiset<Call>,
    faulted: bool,
    lost: bool,
    amended: bool,
    strayed: bool
  )

  function FreshLine(order: OrderState): Line {
    Line(order, order.quantity, Unseen, [New], None, [], [], [], multiset{}, false, false, false, false)
  }

  /** Nothing about the order is under way. */
  predicate Quiet(l: Line) {
    && l.requests == [] && l.phase.None? && l.inbox == [] && l.fills == [] && l.reports == [] && l.limbo == multiset{}
  }

  datatype Move =
    // the OMS acts on its own account
    | SendCancel(now: int)
    | SendAmend(amend: Amend, now: int)
    | SweepTick(now: int, timeout: int)
    // the OMS handles a message
    | HandleResponse
    | HandleFill
    // the gateway
    | TakeRequest(translates: bool, ts: int)
    | Resume(ts: int)
    // the venue answers a call, or the call times out and lands late or never
    | Serve(answer: Answer)
    | TimeOut
    | Land(call: Call, answer: Answer)
    | Forget(call: Call)
    // the venue on its own account
    | Trade(quantity: Quantity, price: Price, ts: int)
    | End
    | Refuse
    // the user-data stream
    | Forward(ts: int)
    | Skip

  // ----- The venue -----

  /** The answers an honest venue can give. Only of a resting order does it say that the
      amend would change nothing. */
  predicate Truthful(v: VenueOrder, call: Call, answer: Answer) {
    match call
    case Post => v.Unseen? && (answer.Done? || answer.VenueError?)
    case Delete =>
      if v.Resting? then answer.Done? || (answer.VenueError? && !SaysGone(answer.code)) else answer.VenueError?
    case Put(_, quantity) =>
      if v.Resting? then
        || answer.AmendEndedOrder?
        || (answer.VenueError? && answer.code != NO_SUCH_ORDER)
        || (answer.AmendApplied?
            && (if answer.quantity.Some? then answer.quantity.value else quantity) > v.executed)
      else answer.VenueError? && answer.code != AMEND_NOOP
  }

  function Ending(v: VenueOrder): VenueOrder
    requires v.Resting?
  {
    Gone(v.quantity, v.executed, v.trades, false)
  }

  function AfterTrade(v: VenueOrder, traded: Quantity): VenueOrder
    requires v.Resting?
  {
    var executed := v.executed + traded;
    if executed == v.quantity then Gone(v.quantity, executed, v.trades + 1, true)
    else Resting(v.quantity, executed, v.trades + 1)
  }

  function Served(v: VenueOrder, placed: Quantity, call: Call, answer: Answer): (VenueOrder, seq<Report>)
    requires Truthful(v, call, answer)
  {
    match call
    case Post => (if answer.Done? then Resting(placed, 0.0, 0) else Refused, [])
    case Delete => if v.Resting? && answer.Done? then (Ending(v), [Ended]) else (v, [])
    case Put(_, quantity) =>
      if !v.Resting? then (v, [])
      else if answer.AmendEndedOrder? then (Ending(v), [Ended])
      else if answer.AmendApplied? then
        (Resting(if answer.quantity.Some? then answer.quantity.value else quantity, v.executed, v.trades), [])
      else (v, [])
  }

  // ----- Moves -----

  predicate CanMove(l: Line, m: Move) {
    match m
    case HandleResponse => l.inbox != []
    case HandleFill => l.fills != []
    case TakeRequest(_, _) => l.phase.None? && l.requests != []
    case Resume(_) => l.phase.Some? && l.phase.value.Answered?
    case Serve(answer) => l.phase.Some? && l.phase.value.Waiting? && Truthful(l.venue, l.phase.value.call, answer)
    case TimeOut => l.phase.Some? && l.phase.value.Waiting?
    case Land(call, answer) => call in l.limbo && Truthful(l.venue, call, answer)
    case Forget(call) => call in l.limbo
    case Trade(quantity, _, _) => l.venue.Resting? && 0.0 < quantity <= l.venue.quantity - l.venue.executed
    case End => l.venue.Resting?
    case Refuse => l.venue.Refused?
    case Forward(_) => l.reports != []
    case Skip => l.reports != []
    case _ => true
  }

  /** An amend's confirmation meets an order that no longer waits for one. */
  predicate Misses(o: OrderState, r: Response) { r.Amended? && o.status != PendingAmend }

  /** What a move does: the order's new state at the OMS, the venue and the gateway, what is
      taken from the head of each queue and what is added at its end. */
  datatype Effect = Effect(
    order: OrderState, venue: VenueOrder, phase: Option<Phase>,
    takesRequest: bool, requests: seq<Request>,
    takesResponse: bool, inbox: seq<Response>,
    takesFill: bool, fills: seq<Fill>,
    takesReport: bool, reports: seq<Report>,
    limbo: multiset<Call>, faulted: bool, lost: bool, amended: bool, strayed: bool)

  function NoEffect(l: Line): Effect {
    Effect(l.order, l.venue, l.phase, false, [], false, [], false, [], false, [], l.limbo, l.faulted, l.lost, l.amended,
           l.strayed)
  }

  function Act(l: Line, m: Move): Effect
    requires CanMove(l, m)
  {
    var e := NoEffect(l);
    match m
    case SendCancel(now) =>
      e.(order := CancelSent(l.order, now), requests := if SendsCancel(l.order) then [Cancel] else [])
    case SendAmend(amend, now) =>
      if SendsAmend(l.order)
      then e.(order := AmendSent(l.order, amend, now), requests := [AmendTo(amend.price, amend.quantity)], amended := true)
      else e
    case SweepTick(now, timeout) => e.(order := Swept(l.order, now, timeout))
    case HandleResponse =>
      e.(order := Handled(l.order, l.inbox[0]), takesResponse := true, strayed := l.strayed || Misses(l.order, l.inbox[0]))
    case HandleFill => e.(order := Filling(l.order, l.fills[0]), takesFill := true)
    case TakeRequest(translates, ts) =>
      var r := l.requests[0];
      if r.New? && !translates then e.(takesRequest := true, inbox := [Reject(ts)])
      else e.(takesRequest := true, phase := Some(Waiting(r, FirstCall(r))))
    case Resume(ts) =>
      var p := l.phase.value;
      var r := AfterAnswer(p.request, p.call, p.answer, ts);
      e.(phase := r.next, inbox := r.publish)
    case Serve(answer) =>
      var p := l.phase.value;
      var (v, reports) := Served(l.venue, l.placed, p.call, answer);
      e.(venue := v, reports := reports, phase := Some(Answered(p.request, p.call, answer)))
    case TimeOut =>
      var p := l.phase.value;
      e.(phase := Some(Answered(p.request, p.call, Fault)), limbo := l.limbo + multiset{p.call},
         faulted := l.faulted || p.call.Post?)
    case Land(call, answer) =>
      var (v, reports) := Served(l.venue, l.placed, call, answer);
      e.(venue := v, reports := reports, limbo := l.limbo - multiset{call}, strayed := l.strayed || answer.AmendApplied?)
    case Forget(call) => e.(limbo := l.limbo - multiset{call})
    case Trade(quantity, price, ts) =>
      e.(venue := AfterTrade(l.venue, quantity), reports := [Traded(Fill(l.venue.trades, price, quantity, ts))])
    case End => e.(venue := Ending(l.venue), reports := [Ended])
    case Refuse => e.(reports := [RefusalReport])
    case Forward(ts) =>
      (match l.reports[0]
       case Traded(fill) => e.(takesReport := true, fills := [fill])
       case Ended => e.(takesReport := true, inbox := [CancelDone(ts)])
       case RefusalReport => e.(takesReport := true, inbox := [Reject(ts)]))
    case Skip => e.(takesReport := true, lost := true)
  }

  function Rest<T>(q: seq<T>, takes: bool): seq<T> {
    if takes && q != [] then q[1..] else q
  }

  function Apply(l: Line, e: Effect): Line {
    Line(e.order, l.placed, e.venue, Rest(l.requests, e.takesRequest) + e.requests, e.phase,
         Rest(l.inbox, e.takesResponse) + e.inbox, Rest(l.fills, e.takesFill) + e.fills,
         Rest(l.reports, e.takesReport) + e.reports, e.limbo, e.faulted, e.lost, e.amended, e.strayed)
  }

  function LineStep(l: Line, m: Move): Line
    requires CanMove(l, m)
  {
    Apply(l, Act(l, m))
  }

  /** Each move spelled out as a change of the line. */
  predicate Moves(l: Line, m: Move, l': Line)
    requires CanMove(l, m)
  {
    match m
    case SendCancel(now) =>
      l' == if SendsCancel(l.order)
            then l.(order := CancelSent(l.order, now), requests := l.requests + [Cancel]) else l
    case SendAmend(amend, now) =>
      l' == if SendsAmend(l.order)
            then l.(order := AmendSent(l.order, amend, now),
                    requests := l.requests + [AmendTo(amend.price, amend.quantity)], amended := true) else l
    case SweepTick(now, timeout) => l' == l.(order := Swept(l.order, now, timeout))
    case HandleResponse =>
      l' == l.(order := Handled(l.order, l.inbox[0]), inbox := l.inbox[1..], strayed := l.strayed || Misses(l.order, l.inbox[0]))
    case HandleFill => l' == l.(order := Filling(l.order, l.fills[0]), fills := l.fills[1..])
    case TakeRequest(translates, ts) =>
      l' == if l.requests[0].New? && !translates
            then l.(requests := l.requests[1..], inbox := l.inbox + [Reject(ts)])
            else l.(requests := l.requests[1..], phase := Some(Waiting(l.requests[0], FirstCall(l.requests[0]))))
    case Resume(ts) =>
      var p := l.phase.value;
      var r := AfterAnswer(p.request, p.call, p.answer, ts);
      l' == l.(phase := r.next, inbox := l.inbox + r.publish)
    case Serve(answer) =>
      var p := l.phase.value;
      var (v, reports) := Served(l.venue, l.placed, p.call, answer);
      l' == l.(venue := v, reports := l.reports + reports, phase := Some(Answered(p.request, p.call, answer)))
    case TimeOut =>
      var p := l.phase.value;
      l' == l.(phase := Some(Answered(p.request, p.call, Fault)), limbo := l.limbo + multiset{p.call},
               faulted := l.faulted || p.call.Post?)
    case Land(call, answer) =>
      var (v, reports) := Served(l.venue, l.placed, call, answer);
      l' == l.(venue := v, reports := l.reports + reports, limbo := l.limbo - multiset{call},
               strayed := l.strayed || answer.AmendApplied?)
    case Forget(call) => l' == l.(limbo := l.limbo - multiset{call})
    case Trade(quantity, price, ts) =>
      l' == l.(venue := AfterTrade(l.venue, quantity),
               reports := l.reports + [Traded(Fill(l.venue.trades, price, quantity, ts))])
    case End => l' == l.(venue := Ending(l.venue), reports := l.reports + [Ended])
    case Refuse => l' == l.(reports := l.reports + [RefusalReport])
    case Forward(ts) =>
      (match l.reports[0]
       case Traded(fill) => l' == l.(reports := l.reports[1..], fills := l.fills + [fill])
       case Ended => l' == l.(reports := l.reports[1..], inbox := l.inbox + [CancelDone(ts)])
       case RefusalReport => l' == l.(reports := l.reports[1..], inbox := l.inbox + [Reject(ts)]))
    case Skip => l' == l.(reports := l.reports[1..], lost := true)
  }

  lemma {:induction false} NothingAdded(l: Line)
    ensures l.requests + [] == l.requests && l.inbox + [] == l.inbox && l.fills + [] == l.fills && l.reports + [] == l.reports
  {
  }

  lemma {:induction false} OmsStepMoves(l: Line, m: Move)
    requires m.SendCancel? || m.SendAmend? || m.SweepTick? || m.HandleResponse? || m.HandleFill?
    requires CanMove(l, m)
    ensures Moves(l, m, LineStep(l, m))
  {
    NothingAdded(l);
  }

  lemma {:induction false} GatewayStepMoves(l: Line, m: Move)
    requires m.TakeRequest? || m.Resume? || m.TimeOut?
    requires CanMove(l, m)
    ensures Moves(l, m, LineStep(l, m))
  {
    NothingAdded(l);
  }

  lemma {:induction false} VenueStepMoves(l: Line, m: Move)
    requires m.Serve? || m.Land? || m.Forget? || m.Trade? || m.End? || m.Refuse?
    requires CanMove(l, m)
    ensures Moves(l, m, LineStep(l, m))
  {
    NothingAdded(l);
  }

  lemma {:induction false} StreamStepMoves(l: Line, m: Move)
    requires m.Forward? || m.Skip?
    requires CanMove(l, m)
    ensures Moves(l, m, LineStep(l, m))
  {
    NothingAdded(l);
  }

  lemma {:induction false} StepMoves(l: Line, m: Move)
    requires CanMove(l, m)
    ensures Moves(l, m, LineStep(l, m))
  {
    match m {
      case TakeRequest(_, _) => GatewayStepMoves(l, m);
      case Resume(_) => GatewayStepMoves(l, m);
      case TimeOut => GatewayStepMoves(l, m);
      case Serve(_) => VenueStepMoves(l, m);
      case Land(_, _) => VenueStepMoves(l, m);
      case Forget(_) => VenueStepMoves(l, m);
      case Trade(_, _, _) => VenueStepMoves(l, m);
      case End => VenueStepMoves(l, m);
      case Refuse => VenueStepMoves(l, m);
      case Forward(_) => StreamStepMoves(l, m);
      case Skip => StreamStepMoves(l, m);
      case _ => OmsStepMoves(l, m);
    }
  }

  // ----- Invariants -----

  predicate NeverRested(v: VenueOrder) { v.Unseen? || v.Refused? }

  /** The handler that resumes with this answer will report the order cancelled. */
  predicate WillReportCancelled(p: Phase) {
    p.Answered? &&
    var publish := AfterAnswer(p.request, p.call, p.answer, 0).publish;
    publish != [] && publish[0].CancelDone?
  }

  predicate CallFits(p: Phase) {
    match p.request
    case New => p.call.Post?
    case Cancel => p.call.Delete?
    case AmendTo(price, quantity) => p.call == Put(price, quantity) || p.call.Delete?
  }

  /** Nothing but the placing of the order, or its rejection, is under way. */
  predicate OnlyPlacing(l: Line) {
    && l.order.status in {PendingNew, Rejected} && l.order.filled == 0.0 && l.order.applied == {}
    && l.fills == []
    && (forall r :: r in l.inbox ==> r.Reject?)
    && (forall r :: r in l.reports ==> r.RefusalReport?) && (l.reports != [] ==> l.venue.Refused?)
    && (l.requests == [] || l.requests == [New])
    && (l.phase.Some? ==> l.phase.value.request.New?)
    && (l.limbo == multiset{} || l.limbo == multiset{Post})
  }

  /** The order request has not reached the venue yet and the OMS still waits for it. */
  predicate Awaiting(l: Line) {
    l.venue.Unseen? && l.limbo == multiset{} && l.inbox == [] && l.order.status == PendingNew
  }

  /** An order request exists at most once, and nothing else is under way before the venue
      has accepted it. */
  predicate PlacementOk(l: Line) {
    && (l.phase.Some? ==> CallFits(l.phase.value))
    && (NeverRested(l.venue) ==> OnlyPlacing(l))
    && (New in l.requests ==> l.requests == [New] && Awaiting(l) && l.phase.None?)
    && (l.phase == Some(Waiting(New, Post)) ==> Awaiting(l) && l.requests == [])
    && (Post in l.limbo ==> l.venue.Unseen? && l.limbo == multiset{Post} && l.faulted && l.requests == [])
    && (l.phase.Some? && l.phase.value.Answered? && l.phase.value.request.New? ==> PostAnswerTrue(l, l.phase.value.answer))
  }

  /** The answer to the order request, not yet handled, agrees with the venue. */
  predicate PostAnswerTrue(l: Line, answer: Answer) {
    || (answer.Done? && !NeverRested(l.venue))
    || (answer.VenueError? && l.venue.Refused?)
    || (answer.Fault? && l.faulted)
  }

  /** Whatever says or will say that the order was cancelled is right about the venue. */
  predicate CancelsTrue(l: Line) {
    && (l.order.status == Cancelled ==> l.venue.Gone?)
    && (forall r :: r in l.inbox && r.CancelDone? ==> l.venue.Gone?)
    && (Ended in l.reports ==> l.venue.Gone?)
    && (l.phase.Some? && WillReportCancelled(l.phase.value) ==> l.venue.Gone?)
  }

  predicate Safe(l: Line) { PlacementOk(l) && CancelsTrue(l) }

  /** A change of the OMS's record that cancels nothing, and does nothing to an order the
      venue has not accepted. */
  lemma {:induction false} OmsChangeKeepsSafe(l: Line, l': Line, o: OrderState, extra: seq<Request>)
    requires Safe(l) && l' == l.(order := o, requests := l.requests + extra, amended := l'.amended)
    requires New !in extra
    requires NeverRested(l.venue) ==> o == l.order && extra == []
    requires o.status == Cancelled ==> l.order.status == Cancelled
    ensures Safe(l')
  {
    if NeverRested(l.venue) {
      assert l' == l.(amended := l'.amended);
    }
  }

  lemma {:induction false} OmsKeepsSafe(l: Line, m: Move, l': Line)
    requires Safe(l) && CanMove(l, m) && Moves(l, m, l')
    requires m.SendCancel? || m.SendAmend? || m.SweepTick?
    ensures Safe(l')
  {
    if l' != l {
      NothingAdded(l);
      var extra := match m
        case SendCancel(_) => [Cancel]
        case SendAmend(amend, _) => [AmendTo(amend.price, amend.quantity)]
        case _ => [];
      OmsChangeKeepsSafe(l, l', l'.order, extra);
    }
  }

  lemma {:induction false} HandlingKeepsSafe(l: Line, m: Move, l': Line)
    requires Safe(l) && CanMove(l, m) && Moves(l, m, l')
    requires m.HandleResponse? || m.HandleFill?
    ensures Safe(l')
  {
    if m.HandleResponse? {
      assert l.inbox[0] in l.inbox;
      assert forall r :: r in l'.inbox ==> r in l.inbox;
    }
  }

  lemma {:induction false} TakingKeepsSafe(l: Line, m: Move, l': Line)
    requires Safe(l) && CanMove(l, m) && Moves(l, m, l') && m.TakeRequest?
    ensures Safe(l')
  {
    assert l.requests[0] in l.requests;
    assert forall r :: r in l'.requests ==> r in l.requests;
  }

  lemma {:induction false} ResumingKeepsSafe(l: Line, m: Move, l': Line)
    requires Safe(l) && CanMove(l, m) && Moves(l, m, l') && m.Resume?
    ensures Safe(l')
  {
  }

  lemma {:induction false} FaultsKeepSafe(l: Line, m: Move, l': Line)
    requires Safe(l) && CanMove(l, m) && Moves(l, m, l')
    requires m.TimeOut? || m.Forget?
    ensures Safe(l')
  {
  }

  lemma {:induction false} CallsKeepSafe(l: Line, m: Move, l': Line)
    requires Safe(l) && CanMove(l, m) && Moves(l, m, l')
    requires m.Serve? || m.Land?
    ensures Safe(l')
  {
  }

  lemma {:induction false} VenueKeepsSafe(l: Line, m: Move, l': Line)
    requires Safe(l) && CanMove(l, m) && Moves(l, m, l')
    requires m.Trade? || m.End? || m.Refuse?
    ensures Safe(l')
  {
  }

  lemma {:induction false} StreamKeepsSafe(l: Line, m: Move, l': Line)
    requires Safe(l) && CanMove(l, m) && Moves(l, m, l')
    requires m.Forward? || m.Skip?
    ensures Safe(l')
  {
    assert l.reports[0] in l.reports;
    assert forall r :: r in l'.reports ==> r in l.reports;
  }

  lemma {:induction false} MovesKeepSafe(l: Line, m: Move)
    requires Safe(l) && CanMove(l, m)
    ensures Safe(LineStep(l, m))
  {
    StepMoves(l, m);
    var l' := LineStep(l, m);
    match m {
      case SendCancel(_) => OmsKeepsSafe(l, m, l');
      case SendAmend(_, _) => OmsKeepsSafe(l, m, l');
      case SweepTick(_, _) => OmsKeepsSafe(l, m, l');
      case HandleResponse => HandlingKeepsSafe(l, m, l');
      case HandleFill => HandlingKeepsSafe(l, m, l');
      case TakeRequest(_, _) => TakingKeepsSafe(l, m, l');
      case Resume(_) => ResumingKeepsSafe(l, m, l');
      case TimeOut => FaultsKeepSafe(l, m, l');
      case Forget(_) => FaultsKeepSafe(l, m, l');
      case Serve(_) => CallsKeepSafe(l, m, l');
      case Land(_, _) => CallsKeepSafe(l, m, l');
      case Forward(_) => StreamKeepsSafe(l, m, l');
      case Skip => StreamKeepsSafe(l, m, l');
      case _ => VenueKeepsSafe(l, m, l');
    }
  }

  // ----- Runs of one order -----

  /** The line after the given moves, if they are all possible. */
  function LineAfter(l: Line, moves: seq<Move>): Option<Line> {
    if moves == [] then Some(l)
    else
      match LineAfter(l, moves[..|moves| - 1])
      case None => None
      case Some(mid) => if CanMove(mid, moves[|moves| - 1]) then Some(LineStep(mid, moves[|moves| - 1])) else None
  }

  lemma {:induction false} Go(start: Line, moves: seq<Move>, l: Line, m: Move) returns (l': Line)
    requires LineAfter(start, moves) == Some(l) && CanMove(l, m)
    ensures Moves(l, m, l') && LineAfter(start, moves + [m]) == Some(l')
  {
    l' := LineStep(l, m);
    StepMoves(l, m);
    assert (moves + [m])[..|moves|] == moves;
  }

  /** An execution that reaches the OMS at once. */
  lemma {:induction false} ExecutionRun(start: Line, before: seq<Move>, l0: Line, traded: Quantity, price: Price, ts: int)
    returns (moves: seq<Move>, l: Line)
    requires LineAfter(start, before) == Some(l0) && l0.fills == [] && l0.reports == []
    requires l0.venue.Resting? && 0.0 < traded <= l0.venue.quantity - l0.venue.executed
    ensures moves == before + [Trade(traded, price, ts), Forward(ts), HandleFill] && LineAfter(start, moves) == Some(l)
    ensures l == l0.(order := Filling(l0.order, Fill(l0.venue.trades, price, traded, ts)), venue := l.venue)
    ensures l.venue == AfterTrade(l0.venue, traded)
  {
    var l1 := TradeRun(start, before, l0, traded, price, ts);
    var l2 := Go(start, before + [Trade(traded, price, ts)], l1, Forward(ts));
    l := Go(start, before + [Trade(traded, price, ts)] + [Forward(ts)], l2, HandleFill);
    moves := before + [Trade(traded, price, ts)] + [Forward(ts)] + [HandleFill];
  }

  lemma {:induction false} TradeRun(start: Line, before: seq<Move>, l0: Line, traded: Quantity, price: Price, ts: int) returns (l: Line)
    requires LineAfter(start, before) == Some(l0) && l0.fills == [] && l0.reports == []
    requires l0.venue.Resting? && 0.0 < traded <= l0.venue.quantity - l0.venue.executed
    ensures LineAfter(start, before + [Trade(traded, price, ts)]) == Some(l)
    ensures l == l0.(venue := AfterTrade(l0.venue, traded), reports := [Traded(Fill(l0.venue.trades, price, traded, ts))])
  {
    l := Go(start, before, l0, Trade(traded, price, ts));
  }

  lemma {:induction false} HandleRun(start: Line, before: seq<Move>, l0: Line) returns (l: Line)
    requires LineAfter(start, before) == Some(l0) && l0.inbox != []
    ensures LineAfter(start, before + [HandleResponse]) == Some(l)
    ensures l == l0.(order := Handled(l0.order, l0.inbox[0]), inbox := l0.inbox[1..],
                     strayed := l0.strayed || Misses(l0.order, l0.inbox[0]))
  {
    l := Go(start, before, l0, HandleResponse);
  }

  lemma {:induction false} ResumeRun(start: Line, before: seq<Move>, l0: Line, ts: int) returns (l: Line)
    requires LineAfter(start, before) == Some(l0) && l0.phase.Some? && l0.phase.value.Answered?
    ensures LineAfter(start, before + [Resume(ts)]) == Some(l)
    ensures var p := l0.phase.value;
            var r := AfterAnswer(p.request, p.call, p.answer, ts);
            l == l0.(phase := r.next, inbox := l0.inbox + r.publish)
  {
    l := Go(start, before, l0, Resume(ts));
  }

  lemma {:induction false} SweepRun(start: Line, before: seq<Move>, l0: Line, now: int, timeout: int) returns (l: Line)
    requires LineAfter(start, before) == Some(l0)
    ensures LineAfter(start, before + [SweepTick(now, timeout)]) == Some(l)
    ensures l == l0.(order := Swept(l0.order, now, timeout))
  {
    l := Go(start, before, l0, SweepTick(now, timeout));
  }
}
