/** What the orders of an algorithm look like: each follows the latest approved terms of its
    leg, and each order request describes the order it places. */
module ChildOrders {
  import opened Types
  import opened StateMachine
  import opened Orders
  import opened ExecutionAlgos
  import opened OmsModel
  import opened OmsInvariants
  import opened Accumulation
  import SelfTrade

  /** A child order as it is asked for. */
  datatype Child = Child(leg: LegId, strategy: StrategyId, instrument: InstrumentId, side: Side,
                         price: Option<Price>, quantity: Quantity)

  /** Who sends it, where, and on which side. */
  datatype Terms = Terms(strategy: StrategyId, instrument: InstrumentId, side: Side)

  function ChildOf(o: OrderState): Child
    requires o.parentLeg.Some?
  {
    Child(o.parentLeg.value, o.strategy, o.instrument, o.side, o.price, o.quantity)
  }

  predicate SameTerms(o: OrderState, o': OrderState) {
    SameIdentity(o, o') && o'.price == o.price && o'.quantity == o.quantity
  }

  /** The order a message asks for, as the book has it. */
  predicate Describes(m: Msg, orders: seq<OrderState>) {
    m.OrderRequest? && m.order < |orders| &&
    var o := orders[m.order];
    && m.strategy == o.strategy && m.instrument == o.instrument && m.side == o.side
    && m.price == o.price && m.quantity == o.quantity && m.parentLeg == o.parentLeg
  }

  predicate Requested(sent: seq<Msg>, from: nat, id: OrderId) {
    exists k :: from <= k < |sent| && sent[k].OrderRequest? && sent[k].order == id
  }

  /** From `s` to `s'` no order changes its terms, each order added is asked for by a request
      that describes it, no other request goes out, and the children are all `allowed`. */
  ghost predicate Adds(s: Oms, s': Oms, allowed: iset<Child>) {
    && |s.orders| <= |s'.orders| && s.sent <= s'.sent
    && (forall i :: 0 <= i < |s.orders| ==> SameTerms(s.orders[i], s'.orders[i]))
    && (forall k :: |s.sent| <= k < |s'.sent| && s'.sent[k].OrderRequest? ==>
          Describes(s'.sent[k], s'.orders) && |s.orders| <= s'.sent[k].order)
    && (forall i :: |s.orders| <= i < |s'.orders| ==> Requested(s'.sent, |s.sent|, i))
    && (forall i :: |s.orders| <= i < |s'.orders| && s'.orders[i].parentLeg.Some? ==> ChildOf(s'.orders[i]) in allowed)
  }

  lemma {:induction false} DescribedLater(m: Msg, a: seq<OrderState>, b: seq<OrderState>)
    requires Describes(m, a) && |a| <= |b| && forall i :: 0 <= i < |a| ==> SameTerms(a[i], b[i])
    ensures Describes(m, b)
  {
    assert SameTerms(a[m.order], b[m.order]);
  }

  lemma {:induction false} AddsTransitive(a: Oms, b: Oms, c: Oms, allowed: iset<Child>)
    requires Adds(a, b, allowed) && Adds(b, c, allowed)
    ensures Adds(a, c, allowed)
  {
    forall i | 0 <= i < |a.orders| ensures SameTerms(a.orders[i], c.orders[i]) {
      assert SameTerms(a.orders[i], b.orders[i]) && SameTerms(b.orders[i], c.orders[i]);
    }
    forall k | |a.sent| <= k < |c.sent| && c.sent[k].OrderRequest?
      ensures Describes(c.sent[k], c.orders) && |a.orders| <= c.sent[k].order
    {
      if k < |b.sent| {
        assert b.sent[k] == c.sent[k];
        DescribedLater(b.sent[k], b.orders, c.orders);
      }
    }
    forall i | |a.orders| <= i < |c.orders| ensures Requested(c.sent, |a.sent|, i) {
      RequestedAcross(a, b, c, i);
    }
    forall i | |a.orders| <= i < |c.orders| && c.orders[i].parentLeg.Some? ensures ChildOf(c.orders[i]) in allowed {
      if i < |b.orders| {
        assert SameTerms(b.orders[i], c.orders[i]);
      }
    }
  }

  lemma {:induction false} RequestedAcross(a: Oms, b: Oms, c: Oms, i: nat)
    requires a.sent <= b.sent <= c.sent
    requires if i < |b.orders| then Requested(b.sent, |a.sent|, i) else Requested(c.sent, |b.sent|, i)
    ensures Requested(c.sent, |a.sent|, i)
  {
    if i < |b.orders| {
      var k :| |a.sent| <= k < |b.sent| && b.sent[k].OrderRequest? && b.sent[k].order == i;
      assert c.sent[k] == b.sent[k];
    }
  }

  lemma {:induction false} MoreAllowed(s: Oms, s': Oms, a: iset<Child>, b: iset<Child>)
    requires Adds(s, s', a) && a <= b
    ensures Adds(s, s', b)
  {
  }

  lemma {:induction false} AddsNothing(s: Oms, s': Oms, allowed: iset<Child>)
    requires s'.orders == s.orders && s'.sent == s.sent
    ensures Adds(s, s', allowed)
  {
  }

  // ----- Placing -----

  lemma {:induction false} PlaceAdds(s: Oms, strategy: StrategyId, instrument: InstrumentId, side: Side, price: Option<Price>,
                                     quantity: Quantity, parentLeg: Option<LegId>, allowed: iset<Child>)
    requires parentLeg.Some? ==> Child(parentLeg.value, strategy, instrument, side, price, quantity) in allowed
    ensures Adds(s, PlaceOrder(s, strategy, instrument, side, price, quantity, parentLeg), allowed)
  {
    var s' := PlaceOrder(s, strategy, instrument, side, price, quantity, parentLeg);
    assert s'.sent[|s.sent|].order == |s.orders|;
    assert Requested(s'.sent, |s.sent|, |s.orders|);
  }

  lemma {:induction false} CancelOrderAdds(s: Oms, id: OrderId, now: int, allowed: iset<Child>)
    ensures Adds(s, CancelOrder(s, id, now), allowed)
  {
  }

  lemma {:induction false} MatchLegAdds(cfg: Config, s: Oms, sig: Signal, resting: seq<OrderId>, matched: set<OrderId>,
                                        leg: Leg, now: int, allowed: iset<Child>)
    requires Known(s.orders, resting)
    ensures Adds(s, MatchLeg(cfg, s, sig, resting, matched, leg, now).0, allowed)
  {
    var s' := MatchLeg(cfg, s, sig, resting, matched, leg, now).0;
    if s' == PlaceQuote(s, sig, leg) {
      PlaceAdds(s, sig.strategy, sig.instrument, leg.side, leg.price, leg.quantity, None, allowed);
    }
  }

  lemma {:induction false} MatchLegsAdds(cfg: Config, s: Oms, sig: Signal, resting: seq<OrderId>, matched: set<OrderId>,
                                         legs: seq<Leg>, now: int, allowed: iset<Child>)
    requires Known(s.orders, resting)
    ensures Adds(s, MatchLegs(cfg, s, sig, resting, matched, legs, now).0, allowed)
    decreases |legs|
  {
    if legs != [] {
      MatchLegAdds(cfg, s, sig, resting, matched, legs[0], now, allowed);
      var (s1, matched1) := MatchLeg(cfg, s, sig, resting, matched, legs[0], now);
      MatchLegsAdds(cfg, s1, sig, resting, matched1, legs[1..], now, allowed);
      AddsTransitive(s, s1, MatchLegs(cfg, s, sig, resting, matched, legs, now).0, allowed);
    }
  }

  lemma {:induction false} CancelUnmatchedAdds(s: Oms, resting: seq<OrderId>, matched: set<OrderId>, now: int, allowed: iset<Child>)
    requires Known(s.orders, resting)
    ensures Adds(s, CancelUnmatched(s, resting, matched, now), allowed)
    decreases |resting|
  {
    if resting != [] {
      var id := resting[0];
      CancelOrderAdds(s, id, now, allowed);
      var s1 := if id !in matched && s.orders[id].status != PendingAmend then CancelOrder(s, id, now) else s;
      CancelUnmatchedAdds(s1, resting[1..], matched, now, allowed);
      AddsTransitive(s, s1, CancelUnmatched(s, resting, matched, now), allowed);
    }
  }

  lemma {:induction false} CancelFromAdds(s: Oms, scope: Scope, k: nat, now: int, allowed: iset<Child>)
    ensures Adds(s, CancelFrom(s, scope, k, now), allowed)
    decreases |s.orders| - k
  {
    if k < |s.orders| {
      CancelOrderAdds(s, k, now, allowed);
      var s1 := if Covers(scope, s.orders[k]) then CancelOrder(s, k, now) else s;
      CancelFromAdds(s1, scope, k + 1, now, allowed);
      AddsTransitive(s, s1, CancelFrom(s, scope, k, now), allowed);
    }
  }

  /** Cancelling leaves the algorithms alone. */
  lemma {:induction false} CancelFromKeepsAlgos(s: Oms, scope: Scope, k: nat, now: int)
    ensures var s' := CancelFrom(s, scope, k, now); s'.algos == s.algos && s'.algoCtx == s.algoCtx && s'.algoKeys == s.algoKeys
    decreases |s.orders| - k
  {
    if k < |s.orders| {
      CancelFromKeepsAlgos(if Covers(scope, s.orders[k]) then CancelOrder(s, k, now) else s, scope, k + 1, now);
    }
  }

  // ----- Driving algorithms -----

  /** The slice the algorithm of a leg hands out at `now`, on the leg's terms. */
  ghost function SlicesDue(s: Oms, legs: seq<LegId>, now: int): iset<Child> {
    iset c: Child | c.leg in legs && IsDue(s, c, now)
  }

  predicate IsDue(s: Oms, c: Child, now: int) {
    && c.leg in s.algos && c.leg in s.algoCtx
    && TermsOf(c) == CtxTerms(s.algoCtx[c.leg])
    && c.price == s.algos[c.leg].price && NextSlice(s.algos[c.leg], now).1 == Some(c.quantity)
  }

  function TermsOf(c: Child): Terms { Terms(c.strategy, c.instrument, c.side) }

  function CtxTerms(ctx: AlgoCtx): Terms { Terms(ctx.strategy, ctx.instrument, ctx.leg.side) }

  lemma {:induction false} SliceKeepsPrice(a: Algo, now: int)
    ensures NextSlice(a, now).0.price == a.price
    decreases |a.slices| - a.sent
  {
    if !Done(a) && Due(a, now) {
      SliceKeepsPrice(a.(sent := a.sent + 1), now);
    }
  }

  lemma {:induction false} DriveAlgoAdds(s: Oms, leg: LegId, now: int)
    ensures Adds(s, DriveAlgo(s, leg, now), SlicesDue(s, [leg], now))
  {
    if leg in s.algos {
      var (algo, slice) := NextSlice(s.algos[leg], now);
      SliceKeepsPrice(s.algos[leg], now);
      if slice.Some? && leg in s.algoCtx {
        var ctx := s.algoCtx[leg];
        assert Child(leg, ctx.strategy, ctx.instrument, ctx.leg.side, algo.price, slice.value) in SlicesDue(s, [leg], now);
        PlaceAdds(s.(algos := s.algos[leg := algo]), ctx.strategy, ctx.instrument, ctx.leg.side, algo.price, slice.value,
                  Some(leg), SlicesDue(s, [leg], now));
      }
    }
  }

  /** Only the driven leg's entries change, and its terms stay while it runs. */
  lemma {:induction false} DriveAlgoTouchesOne(s: Oms, leg: LegId, now: int)
    ensures var s' := DriveAlgo(s, leg, now);
            && (forall l :: l in s'.algoCtx ==> l in s.algoCtx && s'.algoCtx[l] == s.algoCtx[l])
            && (forall l :: l in s'.algos && l != leg ==> l in s.algos && s'.algos[l] == s.algos[l])
  {
  }

  lemma {:induction false} DriveAllAdds(s: Oms, keys: seq<LegId>, now: int)
    requires forall i, j :: 0 <= i < j < |keys| ==> keys[i] != keys[j]
    ensures Adds(s, DriveAll(s, keys, now), SlicesDue(s, keys, now))
    ensures forall l :: l in DriveAll(s, keys, now).algoCtx ==> l in s.algoCtx && DriveAll(s, keys, now).algoCtx[l] == s.algoCtx[l]
    decreases |keys|
  {
    if keys != [] {
      var due := SlicesDue(s, keys, now);
      var s1 := DriveAlgo(s, keys[0], now);
      DriveAlgoAdds(s, keys[0], now);
      DriveAlgoTouchesOne(s, keys[0], now);
      DriveAllAdds(s1, keys[1..], now);
      MoreAllowed(s, s1, SlicesDue(s, [keys[0]], now), due);
      DueLaterDueNow(s, s1, keys, now);
      MoreAllowed(s1, DriveAll(s, keys, now), SlicesDue(s1, keys[1..], now), due);
      AddsTransitive(s, s1, DriveAll(s, keys, now), due);
    }
  }

  lemma {:induction false} DueLaterDueNow(s: Oms, s1: Oms, keys: seq<LegId>, now: int)
    requires keys != [] && forall i, j :: 0 <= i < j < |keys| ==> keys[i] != keys[j]
    requires forall l :: l in s1.algoCtx ==> l in s.algoCtx && s1.algoCtx[l] == s.algoCtx[l]
    requires forall l :: l in s1.algos && l != keys[0] ==> l in s.algos && s1.algos[l] == s.algos[l]
    ensures SlicesDue(s1, keys[1..], now) <= SlicesDue(s, keys, now)
  {
    forall c | c in SlicesDue(s1, keys[1..], now) ensures c in SlicesDue(s, keys, now) {
      assert c.leg in keys && c.leg != keys[0];
    }
  }

  // ----- Sliced legs -----

  /** A sliced leg's first slice, on the signal's terms. */
  predicate IsFirstSlice(sig: Signal, sliced: SlicedLeg, c: Child, now: int) {
    && c.leg == sliced.leg.id && TermsOf(c) == Terms(sig.strategy, sig.instrument, sliced.leg.side)
    && c.price == sliced.algo.price && NextSlice(sliced.algo, now).1 == Some(c.quantity)
  }

  ghost function FirstSlices(sig: Signal, sliced: seq<SlicedLeg>, now: int): iset<Child> {
    iset c: Child | OneIsFirstSlice(sig, sliced, c, now)
  }

  predicate OneIsFirstSlice(sig: Signal, sliced: seq<SlicedLeg>, c: Child, now: int) {
    exists i :: 0 <= i < |sliced| && IsFirstSlice(sig, sliced[i], c, now)
  }

  /** The terms of `leg` among the sliced legs of a signal. */
  function SignalTerms(sig: Signal, sliced: seq<SlicedLeg>, leg: LegId): set<Terms> {
    set i | 0 <= i < |sliced| && sliced[i].leg.id == leg :: Terms(sig.strategy, sig.instrument, sliced[i].leg.side)
  }

  lemma {:induction false} StartOrResumeAdds(s: Oms, sig: Signal, sliced: SlicedLeg, now: int)
    ensures Adds(s, StartOrResume(s, sig, sliced, now), FirstSlices(sig, [sliced], now))
  {
    var leg := sliced.leg.id;
    if leg !in s.algos {
      var s1 := s.(algoKeys := s.algoKeys + [leg], algos := s.algos[leg := sliced.algo],
                   algoCtx := s.algoCtx[leg := AlgoCtx(sig.strategy, sig.instrument, sliced.leg, |s.sent|)]);
      DriveAlgoAdds(s1, leg, now);
      forall c | c in SlicesDue(s1, [leg], now) ensures c in FirstSlices(sig, [sliced], now) {
        assert IsFirstSlice(sig, [sliced][0], c, now);
      }
      MoreAllowed(s1, DriveAlgo(s1, leg, now), SlicesDue(s1, [leg], now), FirstSlices(sig, [sliced], now));
    }
  }

  /** The leg's terms are now the signal's, unless it has finished; other legs keep theirs. */
  lemma {:induction false} StartOrResumeTerms(s: Oms, sig: Signal, sliced: SlicedLeg, now: int)
    ensures var s' := StartOrResume(s, sig, sliced, now);
            forall l :: l in s'.algoCtx ==>
              if l == sliced.leg.id then CtxTerms(s'.algoCtx[l]) == Terms(sig.strategy, sig.instrument, sliced.leg.side)
              else l in s.algoCtx && s'.algoCtx[l] == s.algoCtx[l]
  {
  }

  /** Every leg has the terms this signal gives it, or those it had before. */
  ghost predicate TermsFollow(s: Oms, s': Oms, sig: Signal, sliced: seq<SlicedLeg>) {
    forall l :: l in s'.algoCtx ==>
      if SignalTerms(sig, sliced, l) != {} then CtxTerms(s'.algoCtx[l]) in SignalTerms(sig, sliced, l)
      else l in s.algoCtx && s'.algoCtx[l] == s.algoCtx[l]
  }

  lemma {:induction false} StartAllAdds(s: Oms, sig: Signal, sliced: seq<SlicedLeg>, now: int)
    ensures Adds(s, StartAll(s, sig, sliced, now), FirstSlices(sig, sliced, now))
    decreases |sliced|
  {
    if sliced != [] {
      var all := FirstSlices(sig, sliced, now);
      var s1 := StartOrResume(s, sig, sliced[0], now);
      StartOrResumeAdds(s, sig, sliced[0], now);
      StartAllAdds(s1, sig, sliced[1..], now);
      forall c | c in FirstSlices(sig, sliced[1..], now) ensures c in all {
        var i :| 0 <= i < |sliced[1..]| && IsFirstSlice(sig, sliced[1..][i], c, now);
        assert IsFirstSlice(sig, sliced[i + 1], c, now);
      }
      forall c | c in FirstSlices(sig, [sliced[0]], now) ensures c in all {
        assert IsFirstSlice(sig, sliced[0], c, now);
      }
      MoreAllowed(s, s1, FirstSlices(sig, [sliced[0]], now), all);
      MoreAllowed(s1, StartAll(s, sig, sliced, now), FirstSlices(sig, sliced[1..], now), all);
      AddsTransitive(s, s1, StartAll(s, sig, sliced, now), all);
    }
  }

  lemma {:induction false} SignalTermsSplit(sig: Signal, sliced: seq<SlicedLeg>, leg: LegId)
    requires sliced != []
    ensures SignalTerms(sig, sliced, leg) ==
            SignalTerms(sig, sliced[1..], leg)
            + (if sliced[0].leg.id == leg then {Terms(sig.strategy, sig.instrument, sliced[0].leg.side)} else {})
  {
    forall i | 1 <= i < |sliced| ensures sliced[i] == sliced[1..][i - 1] {
    }
    forall t | t in SignalTerms(sig, sliced[1..], leg) ensures t in SignalTerms(sig, sliced, leg) {
      var i :| 0 <= i < |sliced[1..]| && sliced[1..][i].leg.id == leg
               && t == Terms(sig.strategy, sig.instrument, sliced[1..][i].leg.side);
      assert sliced[i + 1].leg.id == leg;
    }
    forall t | t in SignalTerms(sig, sliced, leg)
      ensures t in SignalTerms(sig, sliced[1..], leg)
              + (if sliced[0].leg.id == leg then {Terms(sig.strategy, sig.instrument, sliced[0].leg.side)} else {})
    {
      var i :| 0 <= i < |sliced| && sliced[i].leg.id == leg && t == Terms(sig.strategy, sig.instrument, sliced[i].leg.side);
      if i > 0 {
        assert sliced[1..][i - 1].leg.id == leg;
      }
    }
  }

  lemma {:induction false} StartAllTerms(s: Oms, sig: Signal, sliced: seq<SlicedLeg>, now: int)
    ensures TermsFollow(s, StartAll(s, sig, sliced, now), sig, sliced)
    decreases |sliced|
  {
    if sliced != [] {
      var s1 := StartOrResume(s, sig, sliced[0], now);
      var s' := StartAll(s, sig, sliced, now);
      StartOrResumeTerms(s, sig, sliced[0], now);
      StartAllTerms(s1, sig, sliced[1..], now);
      forall l | l in s'.algoCtx
        ensures if SignalTerms(sig, sliced, l) != {} then CtxTerms(s'.algoCtx[l]) in SignalTerms(sig, sliced, l)
                else l in s.algoCtx && s'.algoCtx[l] == s.algoCtx[l]
      {
        SignalTermsSplit(sig, sliced, l);
      }
    }
  }

  lemma {:induction false} WithdrawAdds(s: Oms, keys: seq<LegId>, sig: Signal, desired: set<LegId>, now: int, allowed: iset<Child>)
    ensures Adds(s, Withdraw(s, keys, sig, desired, now), allowed)
    ensures forall l :: l in Withdraw(s, keys, sig, desired, now).algoCtx ==>
              l in s.algoCtx && Withdraw(s, keys, sig, desired, now).algoCtx[l] == s.algoCtx[l]
    decreases |keys|
  {
    if keys != [] {
      var leg := keys[0];
      CancelFromAdds(Retire(s, leg), ChildrenOf(leg), 0, now, allowed);
      CancelFromKeepsAlgos(Retire(s, leg), ChildrenOf(leg), 0, now);
      var s1 :=
        if leg in s.algoCtx && s.algoCtx[leg].strategy == sig.strategy
           && s.algoCtx[leg].instrument == sig.instrument && leg !in desired
        then CancelScope(Retire(s, leg), ChildrenOf(leg), now)
        else s;
      AddsNothing(s, Retire(s, leg), allowed);
      AddsTransitive(s, Retire(s, leg), CancelScope(Retire(s, leg), ChildrenOf(leg), now), allowed);
      WithdrawAdds(s1, keys[1..], sig, desired, now, allowed);
      AddsNothing(s, s, allowed);
      AddsTransitive(s, s1, Withdraw(s, keys, sig, desired, now), allowed);
    }
  }

  // ----- One event -----

  /** The leg is approved and goes to an algorithm. */
  predicate IsSliced(leg: Leg, approved: map<LegId, Quantity>, route: Router) {
    leg.id in approved && route(leg.(quantity := approved[leg.id])).Some?
  }

  /** The terms on which a decision has a leg sliced, none if it does not. They are several
      only where a signal lists a leg's id more than once. */
  function SlicedBy(s: Oms, e: Event, leg: LegId): set<Terms> {
    if e.DecisionArrives? && e.verdict.Some? && e.id in s.signals
    then DecidedTerms(s.signals[e.id], e.verdict.value, e.route, leg)
    else {}
  }

  function DecidedTerms(sig: Signal, approved: map<LegId, Quantity>, route: Router, leg: LegId): set<Terms> {
    set j | 0 <= j < |sig.legs| && sig.legs[j].id == leg && IsSliced(sig.legs[j], approved, route) ::
      Terms(sig.strategy, sig.instrument, sig.legs[j].side)
  }

  /** The child is the first slice of the algorithm the router gives the leg. */
  predicate StartsLeg(leg: Leg, approved: map<LegId, Quantity>, route: Router, c: Child, now: int) {
    && leg.id == c.leg && IsSliced(leg, approved, route)
    && var algo := route(leg.(quantity := approved[leg.id])).value;
    c.price == algo.price && NextSlice(algo, now).1 == Some(c.quantity)
  }

  predicate StartsOne(legs: seq<Leg>, approved: map<LegId, Quantity>, route: Router, c: Child, now: int) {
    exists j :: 0 <= j < |legs| && StartsLeg(legs[j], approved, route, c, now)
  }

  /** Where the child's quantity and price come from: the leg's running algorithm when the
      driver wakes, a newly routed one when a decision arrives. */
  predicate IsSliceOf(s: Oms, e: Event, c: Child) {
    match e
    case DriverWakes(now) =>
      c.leg in s.algos && c.price == s.algos[c.leg].price && NextSlice(s.algos[c.leg], now).1 == Some(c.quantity)
    case DecisionArrives(id, verdict, route, now) =>
      id in s.signals && verdict.Some? && StartsOne(s.signals[id].legs, verdict.value, route, c, now)
    case _ => false
  }

  lemma {:induction false} SlicedLegsAre(legs: seq<Leg>, approved: map<LegId, Quantity>, route: Router, l: SlicedLeg)
    ensures l in SlicedLegs(ApprovedLegs(legs, approved), route) <==> OneIsSlicedTo(legs, approved, route, l)
    decreases |legs|
  {
    if legs != [] {
      SlicedLegsAre(legs[1..], approved, route, l);
      var first := if legs[0].id in approved then [legs[0].(quantity := approved[legs[0].id])] else [];
      SlicedLegsSplit(first, ApprovedLegs(legs[1..], approved), route);
      assert SlicedLegs(first, route) ==
             (if IsSliced(legs[0], approved, route) then [SlicedLeg(first[0], route(first[0]).value)] else []) by {
        assert first != [] ==> first[1..] == [];
      }
      if OneIsSlicedTo(legs, approved, route, l) && !IsSlicedTo(legs[0], approved, route, l) {
        var j :| 0 <= j < |legs| && IsSlicedTo(legs[j], approved, route, l);
        assert IsSlicedTo(legs[1..][j - 1], approved, route, l);
      } else if OneIsSlicedTo(legs[1..], approved, route, l) {
        var j :| 0 <= j < |legs[1..]| && IsSlicedTo(legs[1..][j], approved, route, l);
        assert IsSlicedTo(legs[j + 1], approved, route, l);
      }
    }
  }

  predicate IsSlicedTo(leg: Leg, approved: map<LegId, Quantity>, route: Router, l: SlicedLeg) {
    IsSliced(leg, approved, route) && l.leg == leg.(quantity := approved[leg.id]) && l.algo == route(l.leg).value
  }

  predicate OneIsSlicedTo(legs: seq<Leg>, approved: map<LegId, Quantity>, route: Router, l: SlicedLeg) {
    exists j :: 0 <= j < |legs| && IsSlicedTo(legs[j], approved, route, l)
  }

  lemma {:induction false} SlicedLegsSplit(a: seq<Leg>, b: seq<Leg>, route: Router)
    requires |a| <= 1
    ensures SlicedLegs(a + b, route) == SlicedLegs(a, route) + SlicedLegs(b, route)
  {
    if a == [] {
      assert a + b == b;
    } else {
      assert (a + b)[1..] == b && a[1..] == [];
    }
  }

  /** A decision's terms, read off the legs it slices. */
  lemma {:induction false} DecidedTermsAre(sig: Signal, approved: map<LegId, Quantity>, route: Router, leg: LegId)
    ensures SignalTerms(sig, SlicedLegs(ApprovedLegs(sig.legs, approved), route), leg) == DecidedTerms(sig, approved, route, leg)
  {
    var sliced := SlicedLegs(ApprovedLegs(sig.legs, approved), route);
    forall t | t in SignalTerms(sig, sliced, leg) ensures t in DecidedTerms(sig, approved, route, leg) {
      var i :| 0 <= i < |sliced| && sliced[i].leg.id == leg && t == Terms(sig.strategy, sig.instrument, sliced[i].leg.side);
      SlicedLegsAre(sig.legs, approved, route, sliced[i]);
      var j :| 0 <= j < |sig.legs| && IsSlicedTo(sig.legs[j], approved, route, sliced[i]);
      assert sig.legs[j].id == leg;
    }
    forall t | t in DecidedTerms(sig, approved, route, leg) ensures t in SignalTerms(sig, sliced, leg) {
      var j :| 0 <= j < |sig.legs| && sig.legs[j].id == leg && IsSliced(sig.legs[j], approved, route)
               && t == Terms(sig.strategy, sig.instrument, sig.legs[j].side);
      var approvedLeg := sig.legs[j].(quantity := approved[leg]);
      var l := SlicedLeg(approvedLeg, route(approvedLeg).value);
      assert IsSlicedTo(sig.legs[j], approved, route, l);
      SlicedLegsAre(sig.legs, approved, route, l);
      var i :| 0 <= i < |sliced| && sliced[i] == l;
      assert sliced[i].leg.id == leg;
    }
  }

  lemma {:induction false} FirstSlicesStartLegs(sig: Signal, approved: map<LegId, Quantity>, route: Router, c: Child, now: int)
    requires c in FirstSlices(sig, SlicedLegs(ApprovedLegs(sig.legs, approved), route), now)
    ensures StartsOne(sig.legs, approved, route, c, now) && TermsOf(c) in DecidedTerms(sig, approved, route, c.leg)
  {
    var sliced := SlicedLegs(ApprovedLegs(sig.legs, approved), route);
    var i :| 0 <= i < |sliced| && IsFirstSlice(sig, sliced[i], c, now);
    SlicedLegsAre(sig.legs, approved, route, sliced[i]);
    var j :| 0 <= j < |sig.legs| && IsSlicedTo(sig.legs[j], approved, route, sliced[i]);
    assert StartsLeg(sig.legs[j], approved, route, c, now);
  }

  /** The children an event may add: slices due, on the terms `terms` gives the leg. */
  ghost function Allowed(s: Oms, e: Event): iset<Child> {
    iset c: Child | IsSliceOf(s, e, c) && (
      if e.DriverWakes? then c.leg in s.algoCtx && TermsOf(c) == CtxTerms(s.algoCtx[c.leg]) else TermsOf(c) in SlicedBy(s, e, c.leg))
  }

  /** The legs whose terms an event does not decide keep theirs. */
  ghost predicate TermsKept(s: Oms, s': Oms, e: Event) {
    forall l :: l in s'.algoCtx ==>
      if SlicedBy(s, e, l) != {} then CtxTerms(s'.algoCtx[l]) in SlicedBy(s, e, l)
      else l in s.algoCtx && CtxTerms(s'.algoCtx[l]) == CtxTerms(s.algoCtx[l])
  }

  lemma {:induction false} ReconcileAdds(cfg: Config, s: Oms, sig: Signal, route: Router, now: int)
    ensures var s' := Reconcile(cfg, s, sig, route, now);
            var sliced := SlicedLegs(sig.legs, route);
            Adds(s, s', FirstSlices(sig, sliced, now)) && TermsFollow(s, s', sig, sliced)
  {
    var legs, sliced := ImmediateLegs(sig.legs, route), SlicedLegs(sig.legs, route);
    var allowed := FirstSlices(sig, sliced, now);
    var resting := RestingIds(s.orders, sig.strategy, sig.instrument);
    var (s1, matched) := MatchLegs(cfg, s, sig, resting, {}, legs, now);
    var s2 := CancelUnmatched(s1, resting, matched, now);
    var desired := set l | l in sliced :: l.leg.id;
    var s3 := Withdraw(s2, s2.algoKeys, sig, desired, now);
    MatchLegsAdds(cfg, s, sig, resting, {}, legs, now, allowed);
    CancelUnmatchedAdds(s1, resting, matched, now, allowed);
    ImmediatePartKeepsAlgos(cfg, s, sig, legs, now);
    WithdrawAdds(s2, s2.algoKeys, sig, desired, now, allowed);
    StartAllAdds(s3, sig, sliced, now);
    StartAllTerms(s3, sig, sliced, now);
    AddsTransitive(s, s1, s2, allowed);
    AddsTransitive(s, s2, s3, allowed);
    AddsTransitive(s, s3, StartAll(s3, sig, sliced, now), allowed);
  }

  lemma {:induction false} MatchLegsKeepsAlgos(cfg: Config, s: Oms, sig: Signal, resting: seq<OrderId>, matched: set<OrderId>,
                                               legs: seq<Leg>, now: int)
    requires Known(s.orders, resting)
    ensures MatchLegs(cfg, s, sig, resting, matched, legs, now).0.algoCtx == s.algoCtx
    decreases |legs|
  {
    if legs != [] {
      var (s1, matched1) := MatchLeg(cfg, s, sig, resting, matched, legs[0], now);
      MatchLegsKeepsAlgos(cfg, s1, sig, resting, matched1, legs[1..], now);
    }
  }

  lemma {:induction false} CancelUnmatchedKeepsAlgos(s: Oms, resting: seq<OrderId>, matched: set<OrderId>, now: int)
    requires Known(s.orders, resting)
    ensures CancelUnmatched(s, resting, matched, now).algoCtx == s.algoCtx
    decreases |resting|
  {
    if resting != [] {
      var id := resting[0];
      var s1 := if id !in matched && s.orders[id].status != PendingAmend then CancelOrder(s, id, now) else s;
      CancelUnmatchedKeepsAlgos(s1, resting[1..], matched, now);
    }
  }

  lemma {:induction false} ImmediatePartKeepsAlgos(cfg: Config, s: Oms, sig: Signal, legs: seq<Leg>, now: int)
    ensures ReconcileImmediate(cfg, s, sig, legs, now).algoCtx == s.algoCtx
  {
    var resting := RestingIds(s.orders, sig.strategy, sig.instrument);
    MatchLegsKeepsAlgos(cfg, s, sig, resting, {}, legs, now);
    var (s1, matched) := MatchLegs(cfg, s, sig, resting, {}, legs, now);
    CancelUnmatchedKeepsAlgos(s1, resting, matched, now);
  }

  lemma {:induction false} ApprovalAdds(cfg: Config, s: Oms, e: Event)
    requires e.DecisionArrives? && e.id in s.signals && e.verdict.Some?
    ensures Adds(s, Step(cfg, s, e), Allowed(s, e)) && TermsKept(s, Step(cfg, s, e), e)
  {
    var sig := s.signals[e.id];
    var s1 := s.(signals := s.signals - {e.id});
    var sig' := sig.(legs := ApprovedLegs(sig.legs, e.verdict.value));
    var sliced := SlicedLegs(sig'.legs, e.route);
    ReconcileAdds(cfg, s1, sig', e.route, e.now);
    FirstSlicesAllowed(s, e, sig, sig', sliced);
    MoreAllowed(s1, Step(cfg, s, e), FirstSlices(sig', sliced, e.now), Allowed(s, e));
    forall l ensures SignalTerms(sig', sliced, l) == SlicedBy(s, e, l) {
      DecidedTermsAre(sig, e.verdict.value, e.route, l);
    }
  }

  lemma {:induction false} FirstSlicesAllowed(s: Oms, e: Event, sig: Signal, sig': Signal, sliced: seq<SlicedLeg>)
    requires e.DecisionArrives? && e.id in s.signals && e.verdict.Some? && sig == s.signals[e.id]
    requires sig' == sig.(legs := ApprovedLegs(sig.legs, e.verdict.value)) && sliced == SlicedLegs(sig'.legs, e.route)
    ensures FirstSlices(sig', sliced, e.now) <= Allowed(s, e)
  {
    forall c | c in FirstSlices(sig', sliced, e.now) ensures c in Allowed(s, e) {
      FirstSlicesOfApproved(sig, sig', sliced, c, e.now);
      FirstSlicesStartLegs(sig, e.verdict.value, e.route, c, e.now);
    }
  }

  lemma {:induction false} DecisionAdds(cfg: Config, s: Oms, e: Event)
    requires e.DecisionArrives?
    ensures Adds(s, Step(cfg, s, e), Allowed(s, e)) && TermsKept(s, Step(cfg, s, e), e)
  {
    if e.id in s.signals && e.verdict.Some? {
      ApprovalAdds(cfg, s, e);
    } else if e.id in s.signals {
      var scope := PlainOrders(s.signals[e.id].strategy, s.signals[e.id].instrument);
      CancelFromAdds(s.(signals := s.signals - {e.id}), scope, 0, e.now, Allowed(s, e));
      CancelFromKeepsAlgos(s.(signals := s.signals - {e.id}), scope, 0, e.now);
    } else {
      AddsNothing(s, s, Allowed(s, e));
    }
  }

  lemma {:induction false} FirstSlicesOfApproved(sig: Signal, sig': Signal, sliced: seq<SlicedLeg>, c: Child, now: int)
    requires sig'.strategy == sig.strategy && sig'.instrument == sig.instrument && c in FirstSlices(sig', sliced, now)
    ensures c in FirstSlices(sig, sliced, now)
  {
    var i :| 0 <= i < |sliced| && IsFirstSlice(sig', sliced[i], c, now);
    assert IsFirstSlice(sig, sliced[i], c, now);
  }

  lemma {:induction false} SweepAdds(cfg: Config, s: Oms, now: int, allowed: iset<Child>)
    ensures Adds(s, Sweep(cfg, s, now), allowed)
  {
  }

  lemma {:induction false} WakeAdds(cfg: Config, s: Oms, e: Event)
    requires e.DriverWakes? && AlgosOk(s)
    ensures Adds(s, Step(cfg, s, e), Allowed(s, e)) && TermsKept(s, Step(cfg, s, e), e)
  {
    var s1 := DriveAll(s, s.algoKeys, e.now);
    DriveAllAdds(s, s.algoKeys, e.now);
    MoreAllowed(s, s1, SlicesDue(s, s.algoKeys, e.now), Allowed(s, e));
    SweepAdds(cfg, s1, e.now, Allowed(s, e));
    AddsTransitive(s, s1, Step(cfg, s, e), Allowed(s, e));
  }

  lemma {:induction false} RetireAllKeepsTerms(s: Oms, keys: seq<LegId>)
    ensures var s' := RetireAll(s, keys);
            s'.sent == s.sent && s'.orders == s.orders && forall l :: l in s'.algoCtx ==> l in s.algoCtx && s'.algoCtx[l] == s.algoCtx[l]
    decreases |keys|
  {
    if keys != [] {
      RetireAllKeepsTerms(Retire(s, keys[0]), keys[1..]);
    }
  }

  lemma {:induction false} RetireThenCancelPlacesNothing(s: Oms, keys: seq<LegId>, scope: Scope, now: int)
    ensures var s' := CancelScope(RetireAll(s, keys), scope, now);
            && s.sent <= s'.sent && (forall k :: |s.sent| <= k < |s'.sent| ==> !s'.sent[k].OrderRequest?)
            && |s'.orders| == |s.orders|
            && forall l :: l in s'.algoCtx ==> l in s.algoCtx && s'.algoCtx[l] == s.algoCtx[l]
  {
    RetireAllKeepsTerms(s, keys);
    CancelFromAdds(RetireAll(s, keys), scope, 0, now, iset{});
    CancelFromKeepsAlgos(RetireAll(s, keys), scope, 0, now);
    NoneRequested(RetireAll(s, keys), CancelScope(RetireAll(s, keys), scope, now));
  }

  /** Every other event places nothing; only a venue order taken over is new to the book. */
  ghost predicate PlacesNothing(s: Oms, s': Oms, e: Event) {
    && s.sent <= s'.sent && (forall k :: |s.sent| <= k < |s'.sent| ==> !s'.sent[k].OrderRequest?)
    && |s.orders| <= |s'.orders| <= |s.orders| + (if e.VenueOrderAdopted? then 1 else 0)
    && (forall i :: |s.orders| <= i < |s'.orders| ==> s'.orders[i].parentLeg.None?)
  }

  lemma {:induction false} MessagesPlaceNothing(cfg: Config, s: Oms, e: Event)
    requires e.ResponseArrives? || e.FillArrives? || e.VenueTerminalizes? || e.OperatorCancels?
    ensures PlacesNothing(s, Step(cfg, s, e), e) && TermsKept(s, Step(cfg, s, e), e)
  {
  }

  lemma {:induction false} OtherEventsPlaceNothing(cfg: Config, s: Oms, e: Event)
    requires !e.DecisionArrives? && !e.DriverWakes?
    ensures PlacesNothing(s, Step(cfg, s, e), e) && TermsKept(s, Step(cfg, s, e), e)
  {
    match e {
      case KillSwitch(now) => RetireThenCancelPlacesNothing(s, s.algoKeys, Everything, now);
      case StrategyPaused(strategy, now) =>
        RetireThenCancelPlacesNothing(s, StrategyLegs(s.algoKeys, s.orders, strategy), OfStrategy(strategy), now);
      case SignalArrives(_) =>
      case SignalsEvicted(_) =>
      case VenueOrderAdopted(_) =>
      case _ => MessagesPlaceNothing(cfg, s, e);
    }
  }

  lemma {:induction false} NoneRequested(s: Oms, s': Oms)
    requires Adds(s, s', iset{}) && |s'.orders| == |s.orders|
    ensures forall k :: |s.sent| <= k < |s'.sent| ==> !s'.sent[k].OrderRequest?
  {
  }

  // ----- Whole runs -----

  /** The terms the leg was last approved on, along a run. */
  function LatestTerms(cfg: Config, es: seq<Event>, leg: LegId): set<Terms> {
    if es == [] then {}
    else
      var n := |es| - 1;
      var decided := SlicedBy(Run(cfg, EmptyOms, es[..n]), es[n], leg);
      if decided != {} then decided else LatestTerms(cfg, es[..n], leg)
  }

  lemma {:induction false} StepTermsKept(cfg: Config, s: Oms, e: Event)
    requires AlgosOk(s)
    ensures TermsKept(s, Step(cfg, s, e), e)
  {
    if e.DecisionArrives? {
      DecisionAdds(cfg, s, e);
    } else if e.DriverWakes? {
      WakeAdds(cfg, s, e);
    } else {
      OtherEventsPlaceNothing(cfg, s, e);
    }
  }

  /** Every running algorithm works on the terms its leg was last approved on. */
  lemma {:induction false} AlgosFollowLatestTerms(cfg: Config, es: seq<Event>)
    requires AdmissibleRun(cfg, EmptyOms, es)
    ensures var s := Run(cfg, EmptyOms, es); forall l :: l in s.algoCtx ==> CtxTerms(s.algoCtx[l]) in LatestTerms(cfg, es, l)
    decreases |es|
  {
    if es != [] {
      var n := |es| - 1;
      AdmissiblePrefix(cfg, EmptyOms, es, n);
      AlgosFollowLatestTerms(cfg, es[..n]);
      RunKeepsInvariant(cfg, EmptyOms, es[..n]);
      StepTermsKept(cfg, Run(cfg, EmptyOms, es[..n]), es[n]);
    }
  }

  /** A child order placed by an event, on the leg's latest terms, at the price and in the
      size its algorithm hands out. */
  predicate ChildIsRight(before: Oms, e: Event, latest: set<Terms>, o: OrderState)
    requires o.parentLeg.Some?
  {
    TermsOf(ChildOf(o)) in latest && IsSliceOf(before, e, ChildOf(o))
  }

  /** Along every run, each child order sells if its leg, as last approved, sells, and buys if
      it buys, for the strategy and on the instrument of that approval, at its algorithm's
      price and in the quantity of the slice that was due. */
  lemma {:induction false} ChildrenFollowTheirLeg(cfg: Config, es: seq<Event>, t: nat)
    requires AdmissibleRun(cfg, EmptyOms, es) && t < |es|
    ensures var before, after := Run(cfg, EmptyOms, es[..t]), Run(cfg, EmptyOms, es[..t + 1]);
            forall i :: |before.orders| <= i < |after.orders| && after.orders[i].parentLeg.Some? ==>
              ChildIsRight(before, es[t], LatestTerms(cfg, es[..t + 1], after.orders[i].parentLeg.value), after.orders[i])
  {
    var e, before := es[t], Run(cfg, EmptyOms, es[..t]);
    SelfTrade.RunLastStep(cfg, EmptyOms, es, t);
    var after := Step(cfg, before, e);
    AdmissiblePrefix(cfg, EmptyOms, es, t);
    RunKeepsInvariant(cfg, EmptyOms, es[..t]);
    AlgosFollowLatestTerms(cfg, es[..t]);
    assert es[..t + 1][..t] == es[..t];
    if e.DecisionArrives? {
      DecisionAdds(cfg, before, e);
    } else if e.DriverWakes? {
      WakeAdds(cfg, before, e);
    } else {
      OtherEventsPlaceNothing(cfg, before, e);
    }
    forall i | |before.orders| <= i < |after.orders| && after.orders[i].parentLeg.Some?
      ensures ChildIsRight(before, e, LatestTerms(cfg, es[..t + 1], after.orders[i].parentLeg.value), after.orders[i])
    {
      assert ChildOf(after.orders[i]) in Allowed(before, e);
    }
  }

  /** Each event's order requests describe the orders it adds to the book, one request for
      each; only an order taken over from the venue is not asked for. */
  lemma {:induction false} RequestsDescribeOrders(cfg: Config, s: Oms, e: Event)
    requires AlgosOk(s)
    ensures var s' := Step(cfg, s, e);
            && |s.orders| <= |s'.orders| && s.sent <= s'.sent
            && (forall k :: |s.sent| <= k < |s'.sent| && s'.sent[k].OrderRequest? ==>
                  Describes(s'.sent[k], s'.orders) && s'.sent[k].order >= |s.orders|)
            && (!e.VenueOrderAdopted? ==> forall i :: |s.orders| <= i < |s'.orders| ==> Requested(s'.sent, |s.sent|, i))
  {
    if e.DecisionArrives? {
      DecisionAdds(cfg, s, e);
    } else if e.DriverWakes? {
      WakeAdds(cfg, s, e);
    } else {
      OtherEventsPlaceNothing(cfg, s, e);
    }
  }
}
