/** The whole system: one OMS, one gateway that handles one request at a time, the venue,
    and first-in-first-out queues shared by all orders. */
module FuturesSystem {
  import opened Types
  import opened StateMachine
  import opened Orders
  import opened BinanceGateway
  import opened FuturesProtocol
  import opened FuturesAgreement
  import opened FuturesAmends
  import opened FuturesAnswers

  /** A message in a shared queue, tagged with the order it concerns. */
  datatype Routed<T> = Routed(id: OrderId, body: T)

  /** The gateway is idle or handles one order's request. */
  datatype Busy = Busy(id: OrderId, phase: Phase)

  /** What is private to one order. */
  datatype Account = Account(order: OrderState, placed: Quantity, venue: VenueOrder, limbo: multiset<Call>,
                             faulted: bool, lost: bool, amended: bool, strayed: bool)

  datatype Net = Net(
    accounts: seq<Account>,
    requests: seq<Routed<Request>>,   // orders topic, gateway's queue
    gateway: Option<Busy>,
    inbox: seq<Routed<Response>>,     // orders topic, OMS's queue
    fills: seq<Routed<Fill>>,         // fills topic, OMS's queue
    reports: seq<Routed<Report>>      // user-data stream
  )

  const EmptyNet: Net := Net([], [], None, [], [], [])

  // ----- One order's share of the system -----

  function Only<T>(q: seq<Routed<T>>, id: OrderId): seq<T> {
    if q == [] then []
    else (if q[0].id == id then [q[0].body] else []) + Only(q[1..], id)
  }

  function PhaseOf(gateway: Option<Busy>, id: OrderId): Option<Phase> {
    if gateway.Some? && gateway.value.id == id then Some(gateway.value.phase) else None
  }

  function LineOf(s: Net, id: OrderId): Line
    requires id < |s.accounts|
  {
    var a := s.accounts[id];
    Line(a.order, a.placed, a.venue, Only(s.requests, id), PhaseOf(s.gateway, id), Only(s.inbox, id),
         Only(s.fills, id), Only(s.reports, id), a.limbo, a.faulted, a.lost, a.amended, a.strayed)
  }

  // ----- Steps -----

  datatype Action =
    /** The OMS places a new order. */
    | Place(strategy: StrategyId, instrument: InstrumentId, side: Side, quantity: Quantity, price: Option<Price>)
    /** Anything that happens to an existing order. */
    | On(id: OrderId, move: Move)

  function Tagged<T>(id: OrderId, xs: seq<T>): seq<Routed<T>> {
    seq(|xs|, i requires 0 <= i < |xs| => Routed(id, xs[i]))
  }

  predicate HeadIs<T>(q: seq<Routed<T>>, id: OrderId) { q != [] && q[0].id == id }

  /** A message can be handled only when it is at the head of its queue, and the gateway
      takes a request only when it is idle. */
  predicate CanDo(s: Net, a: Action) {
    match a
    case Place(_, _, _, quantity, _) => quantity > 0.0
    case On(id, m) =>
      id < |s.accounts| && CanMove(LineOf(s, id), m) && Fits(s, id, Act(LineOf(s, id), m))
  }

  predicate Fits(s: Net, id: OrderId, e: Effect) {
    && (e.takesRequest ==> HeadIs(s.requests, id))
    && (e.takesResponse ==> HeadIs(s.inbox, id))
    && (e.takesFill ==> HeadIs(s.fills, id))
    && (e.takesReport ==> HeadIs(s.reports, id))
    && (e.phase.Some? && s.gateway.Some? ==> s.gateway.value.id == id)
  }

  /** An effect on one order as a change of the shared system. */
  function Shared(s: Net, id: OrderId, e: Effect): Net
    requires id < |s.accounts|
  {
    Net(s.accounts[id := Account(e.order, s.accounts[id].placed, e.venue, e.limbo, e.faulted, e.lost, e.amended, e.strayed)],
        Rest(s.requests, e.takesRequest) + Tagged(id, e.requests),
        if e.phase.Some? then Some(Busy(id, e.phase.value))
        else if s.gateway.Some? && s.gateway.value.id == id then None else s.gateway,
        Rest(s.inbox, e.takesResponse) + Tagged(id, e.inbox),
        Rest(s.fills, e.takesFill) + Tagged(id, e.fills),
        Rest(s.reports, e.takesReport) + Tagged(id, e.reports))
  }

  function Do(s: Net, a: Action): Net
    requires CanDo(s, a)
  {
    match a
    case Place(strategy, instrument, side, quantity, price) =>
      var id := |s.accounts|;
      var o := FreshOrder(id, Minted(strategy, id), strategy, instrument, side, None, quantity, price);
      s.(accounts := s.accounts + [Account(o, quantity, Unseen, multiset{}, false, false, false, false)],
         requests := s.requests + [Routed(id, New)])
    case On(id, m) => Shared(s, id, Act(LineOf(s, id), m))
  }

  // ----- Each step is one order's move -----

  lemma {:induction false} OnlyAppend<T>(a: seq<Routed<T>>, b: seq<Routed<T>>, id: OrderId)
    ensures Only(a + b, id) == Only(a, id) + Only(b, id)
    decreases |a|
  {
    if a == [] {
      assert a + b == b;
    } else {
      assert (a + b)[1..] == a[1..] + b && (a + b)[0] == a[0];
      OnlyAppend(a[1..], b, id);
      var head := if a[0].id == id then [a[0].body] else [];
      assert head + (Only(a[1..], id) + Only(b, id)) == (head + Only(a[1..], id)) + Only(b, id);
    }
  }

  lemma {:induction false} OnlyTagged<T>(id: OrderId, xs: seq<T>, other: OrderId)
    ensures Only(Tagged(id, xs), other) == if other == id then xs else []
    decreases |xs|
  {
    if xs != [] {
      assert Tagged(id, xs)[1..] == Tagged(id, xs[1..]);
      OnlyTagged(id, xs[1..], other);
    }
  }

  /** A shared queue seen by one order: the head taken and the new messages are its own,
      or invisible to it. */
  lemma {:induction false} QueueShare<T>(q: seq<Routed<T>>, takes: bool, id: OrderId, xs: seq<T>, other: OrderId)
    requires takes ==> HeadIs(q, id)
    ensures Only(Rest(q, takes) + Tagged(id, xs), other)
            == if other == id then Rest(Only(q, id), takes) + xs else Only(q, other)
  {
    OnlyAppend(Rest(q, takes), Tagged(id, xs), other);
    OnlyTagged(id, xs, other);
    if takes {
      assert q[0].id == id;
    }
  }

  lemma {:induction false} OwnEffect(s: Net, id: OrderId, e: Effect)
    requires id < |s.accounts| && Fits(s, id, e)
    ensures LineOf(Shared(s, id, e), id) == Apply(LineOf(s, id), e)
  {
    var s', l := Shared(s, id, e), Apply(LineOf(s, id), e);
    OwnQueue(s.requests, e.takesRequest, id, e.requests);
    OwnQueue(s.inbox, e.takesResponse, id, e.inbox);
    OwnQueue(s.fills, e.takesFill, id, e.fills);
    OwnQueue(s.reports, e.takesReport, id, e.reports);
    OwnPhase(s, id, e);
    assert Only(s'.requests, id) == l.requests && Only(s'.inbox, id) == l.inbox;
    assert Only(s'.fills, id) == l.fills && Only(s'.reports, id) == l.reports;
  }

  lemma {:induction false} OwnQueue<T>(q: seq<Routed<T>>, takes: bool, id: OrderId, xs: seq<T>)
    requires takes ==> HeadIs(q, id)
    ensures Only(Rest(q, takes) + Tagged(id, xs), id) == Rest(Only(q, id), takes) + xs
  {
    QueueShare(q, takes, id, xs, id);
  }

  lemma {:induction false} OwnPhase(s: Net, id: OrderId, e: Effect)
    requires id < |s.accounts|
    ensures PhaseOf(Shared(s, id, e).gateway, id) == e.phase
  {
  }

  lemma {:induction false} OtherEffect(s: Net, id: OrderId, e: Effect, other: OrderId)
    requires id < |s.accounts| && Fits(s, id, e) && other < |s.accounts| && other != id
    ensures LineOf(Shared(s, id, e), other) == LineOf(s, other)
  {
    var s' := Shared(s, id, e);
    OtherQueue(s.requests, e.takesRequest, id, e.requests, other);
    OtherQueue(s.inbox, e.takesResponse, id, e.inbox, other);
    OtherQueue(s.fills, e.takesFill, id, e.fills, other);
    OtherQueue(s.reports, e.takesReport, id, e.reports, other);
    OtherPhase(s, id, e, other);
    assert Only(s'.requests, other) == Only(s.requests, other) && Only(s'.inbox, other) == Only(s.inbox, other);
    assert Only(s'.fills, other) == Only(s.fills, other) && Only(s'.reports, other) == Only(s.reports, other);
  }

  lemma {:induction false} OtherQueue<T>(q: seq<Routed<T>>, takes: bool, id: OrderId, xs: seq<T>, other: OrderId)
    requires (takes ==> HeadIs(q, id)) && other != id
    ensures Only(Rest(q, takes) + Tagged(id, xs), other) == Only(q, other)
  {
    QueueShare(q, takes, id, xs, other);
  }

  lemma {:induction false} OtherPhase(s: Net, id: OrderId, e: Effect, other: OrderId)
    requires id < |s.accounts| && Fits(s, id, e) && other != id
    ensures PhaseOf(Shared(s, id, e).gateway, other) == PhaseOf(s.gateway, other)
  {
  }

  /** A step of the system is one move of its own order. */
  lemma {:induction false} OwnShare(s: Net, id: OrderId, m: Move)
    requires CanDo(s, On(id, m))
    ensures LineOf(Do(s, On(id, m)), id) == LineStep(LineOf(s, id), m)
  {
    OwnEffect(s, id, Act(LineOf(s, id), m));
  }

  /** And nothing at all for every other order. */
  lemma {:induction false} OtherShare(s: Net, id: OrderId, m: Move, other: OrderId)
    requires CanDo(s, On(id, m)) && other < |s.accounts| && other != id
    ensures LineOf(Do(s, On(id, m)), other) == LineOf(s, other)
  {
    OtherEffect(s, id, Act(LineOf(s, id), m), other);
  }

  // ----- Invariant of every reachable state -----

  /** No message names an order that does not exist. */
  ghost predicate KnownOnly<T>(q: seq<Routed<T>>, n: nat) {
    forall i :: 0 <= i < |q| ==> q[i].id < n
  }

  ghost predicate NetOk(s: Net) {
    && (forall id :: 0 <= id < |s.accounts| ==> LineOk(LineOf(s, id)))
    && KnownOnly(s.requests, |s.accounts|) && KnownOnly(s.inbox, |s.accounts|)
    && KnownOnly(s.fills, |s.accounts|) && KnownOnly(s.reports, |s.accounts|)
    && (s.gateway.Some? ==> s.gateway.value.id < |s.accounts|)
  }

  lemma {:induction false} UnknownHasNothing<T>(q: seq<Routed<T>>, n: nat, id: OrderId)
    requires KnownOnly(q, n) && id >= n
    ensures Only(q, id) == []
    decreases |q|
  {
    if q != [] {
      UnknownHasNothing(q[1..], n, id);
    }
  }

  lemma {:induction false} PlacingKeepsNet(s: Net, a: Action)
    requires NetOk(s) && CanDo(s, a) && a.Place?
    ensures NetOk(Do(s, a))
  {
    PlacingAddsKnown(s, a);
    var s' := Do(s, a);
    forall id | 0 <= id < |s'.accounts| ensures LineOk(LineOf(s', id)) {
      PlacingKeepsLine(s, a, id);
    }
  }

  lemma {:induction false} PlacingKeepsLine(s: Net, a: Action, id: OrderId)
    requires NetOk(s) && CanDo(s, a) && a.Place? && id <= |s.accounts|
    ensures LineOk(LineOf(Do(s, a), id))
  {
    if id < |s.accounts| {
      PlacingLeavesOthers(s, a, id);
    } else {
      PlacedLineOk(s, a);
    }
  }

  lemma {:induction false} PlacingAddsKnown(s: Net, a: Action)
    requires NetOk(s) && CanDo(s, a) && a.Place?
    ensures var s' := Do(s, a);
            var n := |s'.accounts|;
            && KnownOnly(s'.requests, n) && KnownOnly(s'.inbox, n) && KnownOnly(s'.fills, n) && KnownOnly(s'.reports, n)
            && (s'.gateway.Some? ==> s'.gateway.value.id < n)
  {
  }

  lemma {:induction false} PlacedLineOk(s: Net, a: Action)
    requires NetOk(s) && CanDo(s, a) && a.Place?
    ensures LineOk(LineOf(Do(s, a), |s.accounts|))
  {
    PlacedLineIsFresh(s, a);
    FreshLineOk(Do(s, a).accounts[|s.accounts|].order);
  }

  lemma {:induction false} PlacingLeavesOthers(s: Net, a: Action, id: OrderId)
    requires CanDo(s, a) && a.Place? && id < |s.accounts|
    ensures LineOf(Do(s, a), id) == LineOf(s, id)
  {
    var n := |s.accounts|;
    OnlyAppend(s.requests, [Routed(n, New)], id);
    OnlyTagged(n, [New], id);
    assert Tagged(n, [New]) == [Routed(n, New)];
    assert Only(s.requests, id) + [] == Only(s.requests, id);
  }

  lemma {:induction false} PlacedLineIsFresh(s: Net, a: Action)
    requires NetOk(s) && CanDo(s, a) && a.Place?
    ensures LineOf(Do(s, a), |s.accounts|) == FreshLine(Do(s, a).accounts[|s.accounts|].order)
  {
    var n := |s.accounts|;
    OnlyAppend(s.requests, [Routed(n, New)], n);
    OnlyTagged(n, [New], n);
    assert Tagged(n, [New]) == [Routed(n, New)];
    UnknownHasNothing(s.requests, n, n);
    UnknownHasNothing(s.inbox, n, n);
    UnknownHasNothing(s.fills, n, n);
    UnknownHasNothing(s.reports, n, n);
    assert [] + [New] == [New];
  }

  lemma {:induction false} KnownQueue<T>(q: seq<Routed<T>>, takes: bool, id: OrderId, xs: seq<T>, n: nat)
    requires KnownOnly(q, n) && id < n
    ensures KnownOnly(Rest(q, takes) + Tagged(id, xs), n)
  {
  }

  lemma {:induction false} MovingKeepsNet(s: Net, id: OrderId, m: Move)
    requires NetOk(s) && CanDo(s, On(id, m))
    ensures NetOk(Do(s, On(id, m)))
  {
    var s' := Do(s, On(id, m));
    var e := Act(LineOf(s, id), m);
    var n := |s.accounts|;
    forall other | 0 <= other < n ensures LineOk(LineOf(s', other)) {
      if other == id {
        OwnShare(s, id, m);
        MovesKeepLine(LineOf(s, id), m);
      } else {
        OtherShare(s, id, m, other);
      }
    }
    KnownQueue(s.requests, e.takesRequest, id, e.requests, n);
    KnownQueue(s.inbox, e.takesResponse, id, e.inbox, n);
    KnownQueue(s.fills, e.takesFill, id, e.fills, n);
    KnownQueue(s.reports, e.takesReport, id, e.reports, n);
  }

  ghost predicate IsRun(states: seq<Net>, actions: seq<Action>) {
    && |states| == |actions| + 1 && states[0] == EmptyNet
    && forall k :: 0 <= k < |actions| ==> CanDo(states[k], actions[k]) && states[k + 1] == Do(states[k], actions[k])
  }

  lemma {:induction false} ReachableIsOk(states: seq<Net>, actions: seq<Action>, k: nat)
    requires IsRun(states, actions) && k < |states|
    ensures NetOk(states[k])
  {
    if k > 0 {
      ReachableIsOk(states, actions, k - 1);
      match actions[k - 1] {
        case Place(_, _, _, _, _) => PlacingKeepsNet(states[k - 1], actions[k - 1]);
        case On(id, m) => MovingKeepsNet(states[k - 1], id, m);
      }
    }
  }

  // ----- Main results -----

  /** In every reachable state, whatever requests, fills, modify-limit cancels, late amend
      responses, timeouts and late arrivals cross in flight: an order the OMS records as
      cancelled does not rest on the venue; the same holds for a rejected
      order whose order request did not time out. */
  lemma {:induction false} CancelledNeverRests(states: seq<Net>, actions: seq<Action>, k: nat, id: OrderId)
    requires IsRun(states, actions) && k < |states| && id < |states[k].accounts|
    ensures var a := states[k].accounts[id];
            && (a.order.status == Cancelled ==> a.venue.Gone?)
            && (a.order.status == Rejected && !a.faulted ==> NeverRested(a.venue))
  {
    ReachableIsOk(states, actions, k);
    FinalRecordsAreTrue(LineOf(states[k], id));
  }

  /** Once nothing about an order is in flight and nothing about it was lost, both sides
      agree on its executions. Amended or not, they agree on its quantity unless an amend
      went astray, and whenever they have the same quantity they agree on whether it still
      rests. */
  lemma {:induction false} QuietSystemAgrees(states: seq<Net>, actions: seq<Action>, k: nat, id: OrderId)
    requires IsRun(states, actions) && k < |states| && id < |states[k].accounts|
    requires Quiet(LineOf(states[k], id))
    requires !states[k].accounts[id].faulted && !states[k].accounts[id].lost
    ensures var a := states[k].accounts[id];
            && a.order.filled == a.venue.Executed()
            && (a.venue.Gone? && !a.venue.byFill ==> a.order.Terminal())
            && (NeverRested(a.venue) ==> a.order.status == Rejected)
            && (!a.strayed && !NeverRested(a.venue) ==> SameQuantity(a.order, a.venue))
            && (!a.strayed || SameQuantity(a.order, a.venue) ==> Agree(a.order, a.venue))
            && (!a.amended ==> !a.strayed)
  {
    ReachableIsOk(states, actions, k);
    QuietRecordsAgree(LineOf(states[k], id));
  }

  /** An order both sides hold live at rest stays in step through whatever is executed
      exactly when they have the same quantity. */
  lemma {:induction false} QuietOrderStaysInStepIffSameQuantity(states: seq<Net>, actions: seq<Action>, k: nat, id: OrderId)
    requires IsRun(states, actions) && k < |states| && id < |states[k].accounts|
    requires Quiet(LineOf(states[k], id))
    requires !states[k].accounts[id].faulted && !states[k].accounts[id].lost
    requires states[k].accounts[id].venue.Resting? && !states[k].accounts[id].order.Terminal()
    ensures var a := states[k].accounts[id];
            StaysInStep(LineOf(states[k], id)) <==> a.order.quantity == a.venue.quantity
  {
    ReachableIsOk(states, actions, k);
    StaysInStepIffSameQuantity(LineOf(states[k], id));
  }

  lemma {:induction false} StepKeepsAnswered(s: Net, a: Action, id: OrderId)
    requires NetOk(s) && CanDo(s, a) && id < |Do(s, a).accounts|
    requires id < |s.accounts| ==> RequestsAnswered(LineOf(s, id))
    ensures RequestsAnswered(LineOf(Do(s, a), id))
  {
    if id >= |s.accounts| {
      PlacedLineIsFresh(s, a);
    } else if a.Place? {
      PlacingLeavesOthers(s, a, id);
    } else if a.id == id {
      OwnShare(s, id, a.move);
      MovesKeepAnswered(LineOf(s, id), a.move);
    } else {
      OtherShare(s, a.id, a.move, id);
    }
  }

  lemma {:induction false} StepKeepsAmendAnswered(s: Net, a: Action, id: OrderId)
    requires NetOk(s) && CanDo(s, a) && id < |Do(s, a).accounts| && a != On(id, Serve(VenueError(-5027)))
    requires id < |s.accounts| ==> AmendAnswered(LineOf(s, id))
    ensures AmendAnswered(LineOf(Do(s, a), id))
  {
    if id >= |s.accounts| {
      PlacedLineIsFresh(s, a);
    } else if a.Place? {
      PlacingLeavesOthers(s, a, id);
    } else if a.id == id {
      OwnShare(s, id, a.move);
      MovesKeepAmendAnswered(LineOf(s, id), a.move);
    } else {
      OtherShare(s, a.id, a.move, id);
    }
  }

  lemma {:induction false} ReachableIsAnswered(states: seq<Net>, actions: seq<Action>, k: nat, id: OrderId)
    requires IsRun(states, actions) && k < |states| && id < |states[k].accounts|
    ensures RequestsAnswered(LineOf(states[k], id))
  {
    if k > 0 {
      ReachableIsOk(states, actions, k - 1);
      if id < |states[k - 1].accounts| {
        ReachableIsAnswered(states, actions, k - 1, id);
      }
      StepKeepsAnswered(states[k - 1], actions[k - 1], id);
    }
  }

  lemma {:induction false} ReachableAmendIsAnswered(states: seq<Net>, actions: seq<Action>, k: nat, id: OrderId)
    requires IsRun(states, actions) && k < |states| && id < |states[k].accounts|
    requires forall i :: 0 <= i < k ==> actions[i] != On(id, Serve(VenueError(-5027)))
    ensures AmendAnswered(LineOf(states[k], id))
  {
    if k > 0 {
      ReachableIsOk(states, actions, k - 1);
      if id < |states[k - 1].accounts| {
        ReachableAmendIsAnswered(states, actions, k - 1, id);
      }
      StepKeepsAmendAnswered(states[k - 1], actions[k - 1], id);
    }
  }

  /** No order is left waiting: once nothing about it is under way, it has had the venue's
      answer to its placement, to every cancel unless the user-data stream dropped a report,
      and to every amend unless the venue once said that one would change nothing. */
  lemma {:induction false} NoOrderIsLeftWaiting(states: seq<Net>, actions: seq<Action>, k: nat, id: OrderId)
    requires IsRun(states, actions) && k < |states| && id < |states[k].accounts|
    requires Quiet(LineOf(states[k], id))
    ensures var a := states[k].accounts[id];
            && a.order.status != PendingNew
            && (!a.lost ==> a.order.status != PendingCancel)
            && ((forall i :: 0 <= i < k ==> actions[i] != On(id, Serve(VenueError(-5027)))) ==> a.order.status != PendingAmend)
  {
    ReachableIsAnswered(states, actions, k, id);
    if forall i :: 0 <= i < k ==> actions[i] != On(id, Serve(VenueError(-5027))) {
      ReachableAmendIsAnswered(states, actions, k, id);
    }
    QuietWaitsForNothing(LineOf(states[k], id));
  }
}
