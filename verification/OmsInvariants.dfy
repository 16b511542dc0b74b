/** What every run of the OMS engine keeps. */
module OmsInvariants {
  import opened Types
  import opened StateMachine
  import opened Orders
  import opened ExecutionAlgos
  import opened OmsModel

  // ----- Histories of one order -----

  ghost predicate IsHistory(path: seq<OrderStatus>, from: OrderStatus, to: OrderStatus) {
    path != [] && path[0] == from && path[|path| - 1] == to && LegalPath(path)
  }

  /** `to` can be reached from `from` along the table of legal transitions. */
  ghost predicate Reaches(from: OrderStatus, to: OrderStatus) {
    exists path :: IsHistory(path, from, to)
  }

  lemma {:induction false} ReachesByStep(from: OrderStatus, to: OrderStatus)
    requires from == to || Legal(from, to)
    ensures Reaches(from, to)
  {
    if from == to {
      assert IsHistory([from], from, to);
    } else {
      assert IsHistory([from, to], from, to);
    }
  }

  lemma {:induction false} ReachesTransitive(a: OrderStatus, b: OrderStatus, c: OrderStatus)
    requires Reaches(a, b) && Reaches(b, c)
    ensures Reaches(a, c)
  {
    var p :| IsHistory(p, a, b);
    var q :| IsHistory(q, b, c);
    var r := p + q[1..];
    forall i | 0 <= i < |r| - 1 ensures Legal(r[i], r[i + 1]) {
      if i < |p| - 1 {
        assert Legal(p[i], p[i + 1]);
      } else {
        var j := i - (|p| - 1);
        assert Legal(q[j], q[j + 1]);
      }
    }
    assert IsHistory(r, a, c);
  }

  lemma {:induction false} TerminalReachesOnlyItself(from: OrderStatus, to: OrderStatus)
    requires Reaches(from, to) && IsTerminal(from)
    ensures to == from
  {
    var path :| IsHistory(path, from, to);
    LegalPathEndpoints(path, 0);
  }

  /** `o'` is `o` some time later. */
  ghost predicate Descends(o: OrderState, o': OrderState) {
    && o'.id == o.id && o'.coid == o.coid && o'.strategy == o.strategy
    && o'.instrument == o.instrument && o'.side == o.side && o'.parentLeg == o.parentLeg
    && Reaches(o.status, o'.status)
    && (o.Terminal() ==> o'.status == o.status && o'.quantity == o.quantity && o'.price == o.price)
    && o'.filled >= o.filled
    && o'.applied >= o.applied
  }

  lemma {:induction false} DescendsTransitive(a: OrderState, b: OrderState, c: OrderState)
    requires Descends(a, b) && Descends(b, c)
    ensures Descends(a, c)
  {
    ReachesTransitive(a.status, b.status, c.status);
  }

  lemma {:induction false} EvolvesDescends(o: OrderState, o': OrderState)
    requires Evolves(o, o')
    ensures Descends(o, o')
  {
    ReachesByStep(o.status, o'.status);
  }

  // ----- The engine's invariant -----

  /** Ids are positions; the client-id index and the order book are inverse. */
  ghost predicate IndexOk(orders: seq<OrderState>, coids: map<ClientOrderId, OrderId>) {
    && (forall i :: 0 <= i < |orders| ==>
          && orders[i].id == i
          && (orders[i].coid.Minted? ==> orders[i].coid.order == i)
          && orders[i].coid in coids && coids[orders[i].coid] == i
          && AmendTracked(orders[i]))
    && (forall c :: c in coids ==> coids[c] < |orders| && orders[coids[c]].coid == c)
  }

  function ChildQuantity(m: Msg, leg: LegId): Quantity {
    if m.OrderRequest? && m.parentLeg == Some(leg) then m.quantity else 0.0
  }

  /** The total quantity of the child orders requested for a leg. */
  function ChildTotal(msgs: seq<Msg>, leg: LegId): Quantity {
    if msgs == [] then 0.0
    else ChildTotal(msgs[..|msgs| - 1], leg) + ChildQuantity(msgs[|msgs| - 1], leg)
  }

  /** The children requested since the leg's algorithm was started add up to exactly
      what the algorithm has handed out. */
  ghost predicate Accounted(algo: Algo, ctx: AlgoCtx, sent: seq<Msg>, leg: LegId) {
    && WellFormed(algo)
    && ctx.since <= |sent|
    && ChildTotal(sent[ctx.since..], leg) == Emitted(algo)
  }

  ghost predicate LegOk(algos: map<LegId, Algo>, algoCtx: map<LegId, AlgoCtx>, sent: seq<Msg>, leg: LegId) {
    leg in algos && leg in algoCtx ==> Accounted(algos[leg], algoCtx[leg], sent, leg)
  }

  /** The two algorithm tables have the same keys, listed once each. */
  ghost predicate TablesOk(keys: seq<LegId>, algos: map<LegId, Algo>, algoCtx: map<LegId, AlgoCtx>, sent: seq<Msg>) {
    && (forall i, j :: 0 <= i < j < |keys| ==> keys[i] != keys[j])
    && (forall leg :: leg in keys <==> leg in algos)
    && algoCtx.Keys == algos.Keys
    && (forall leg {:trigger LegOk(algos, algoCtx, sent, leg)} :: LegOk(algos, algoCtx, sent, leg))
  }

  ghost predicate BookOk(s: Oms) { IndexOk(s.orders, s.coids) }

  ghost predicate AlgosOk(s: Oms) { TablesOk(s.algoKeys, s.algos, s.algoCtx, s.sent) }

  ghost predicate Good(s: Oms) { BookOk(s) && AlgosOk(s) }

  ghost predicate AllFilledDone(s: Oms) {
    forall i :: 0 <= i < |s.orders| ==> FilledDone(s.orders[i])
  }

  /** Nothing is forgotten: orders only descend, messages are only added. */
  ghost predicate Extends(s: Oms, s': Oms) {
    && |s.orders| <= |s'.orders|
    && (forall i :: 0 <= i < |s.orders| ==> Descends(s.orders[i], s'.orders[i]))
    && s.sent <= s'.sent
  }

  ghost predicate Keeps(s: Oms, s': Oms) {
    Good(s') && Extends(s, s') && (AllFilledDone(s) ==> AllFilledDone(s'))
  }

  lemma {:induction false} KeepsReflexive(s: Oms)
    requires Good(s)
    ensures Keeps(s, s)
  {
    forall i | 0 <= i < |s.orders| ensures Descends(s.orders[i], s.orders[i]) {
      EvolvesDescends(s.orders[i], s.orders[i]);
    }
  }

  lemma {:induction false} KeepsTransitive(a: Oms, b: Oms, c: Oms)
    requires Keeps(a, b) && Keeps(b, c)
    ensures Keeps(a, c)
  {
    forall i | 0 <= i < |a.orders| ensures Descends(a.orders[i], c.orders[i]) {
      DescendsTransitive(a.orders[i], b.orders[i], c.orders[i]);
    }
  }

  // ----- Elementary changes -----

  lemma {:induction false} AppendChildless(algo: Algo, ctx: AlgoCtx, sent: seq<Msg>, m: Msg, leg: LegId)
    requires Accounted(algo, ctx, sent, leg) && ChildQuantity(m, leg) == 0.0
    ensures Accounted(algo, ctx, sent + [m], leg)
  {
    var after := (sent + [m])[ctx.since..];
    assert after[..|after| - 1] == sent[ctx.since..];
  }

  lemma {:induction false} SendKeepsAlgos(s: Oms, m: Msg)
    requires AlgosOk(s)
    requires m.OrderRequest? ==> m.parentLeg.None?
    ensures AlgosOk(s.(sent := s.sent + [m]))
  {
    forall leg ensures LegOk(s.algos, s.algoCtx, s.sent + [m], leg) {
      assert LegOk(s.algos, s.algoCtx, s.sent, leg);
      if leg in s.algos {
        AppendChildless(s.algos[leg], s.algoCtx[leg], s.sent, m, leg);
      }
    }
  }

  lemma {:induction false} PutKeepsBook(s: Oms, id: OrderId, o': OrderState)
    requires BookOk(s) && id < |s.orders|
    requires Evolves(s.orders[id], o') && AmendTracked(o')
    ensures BookOk(Put(s, id, o'))
  {
  }

  lemma {:induction false} PutKeeps(s: Oms, id: OrderId, o': OrderState)
    requires Good(s) && id < |s.orders|
    requires Evolves(s.orders[id], o') && AmendTracked(o')
    requires FilledDone(s.orders[id]) ==> FilledDone(o')
    ensures Keeps(s, Put(s, id, o'))
  {
    PutKeepsBook(s, id, o');
    PutExtends(s, id, o');
  }

  lemma {:induction false} PutExtends(s: Oms, id: OrderId, o': OrderState)
    requires id < |s.orders| && Evolves(s.orders[id], o')
    ensures Extends(s, Put(s, id, o'))
  {
    var s' := Put(s, id, o');
    forall i | 0 <= i < |s.orders| ensures Descends(s.orders[i], s'.orders[i]) {
      EvolvesDescends(s.orders[i], s'.orders[i]);
    }
  }

  lemma {:induction false} SendKeeps(s: Oms, m: Msg)
    requires Good(s)
    requires m.OrderRequest? ==> m.parentLeg.None?
    ensures Keeps(s, s.(sent := s.sent + [m]))
  {
    SendKeepsAlgos(s, m);
    KeepsReflexive(s);
  }

  lemma {:induction false} AppendKeepsBook(s: Oms, o: OrderState, sent: seq<Msg>)
    requires BookOk(s)
    requires o.id == |s.orders| && o.coid !in s.coids && AmendTracked(o)
    requires o.coid.Minted? ==> o.coid.order == o.id
    ensures BookOk(s.(orders := s.orders + [o], coids := s.coids[o.coid := o.id], sent := sent))
  {
  }

  lemma {:induction false} AppendExtends(s: Oms, o: OrderState, sent: seq<Msg>)
    requires FilledDone(o) && s.sent <= sent
    ensures var s' := s.(orders := s.orders + [o], coids := s.coids[o.coid := o.id], sent := sent);
            Extends(s, s') && (AllFilledDone(s) ==> AllFilledDone(s'))
  {
    forall i | 0 <= i < |s.orders| ensures Descends(s.orders[i], (s.orders + [o])[i]) {
      EvolvesDescends(s.orders[i], s.orders[i]);
    }
  }

  lemma {:induction false} MintedIsFresh(s: Oms, strategy: StrategyId)
    requires BookOk(s)
    ensures Minted(strategy, |s.orders|) !in s.coids
  {
  }

  lemma {:induction false} PlaceKeepsBook(s: Oms, strategy: StrategyId, instrument: InstrumentId, side: Side,
                       price: Option<Price>, quantity: Quantity, parentLeg: Option<LegId>)
    requires BookOk(s)
    ensures var s' := PlaceOrder(s, strategy, instrument, side, price, quantity, parentLeg);
            BookOk(s') && Extends(s, s') && (AllFilledDone(s) ==> AllFilledDone(s'))
  {
    MintedIsFresh(s, strategy);
    var s' := PlaceOrder(s, strategy, instrument, side, price, quantity, parentLeg);
    AppendKeepsBook(s, s'.orders[|s.orders|], s'.sent);
    AppendExtends(s, s'.orders[|s.orders|], s'.sent);
  }

  // ----- Reconciling plain orders -----

  lemma {:induction false} CancelOrderKeeps(s: Oms, id: OrderId, now: int)
    requires Good(s)
    ensures Keeps(s, CancelOrder(s, id, now))
  {
    if id < |s.orders| && SendsCancel(s.orders[id]) {
      RequestEvolves(s.orders[id], Amend(None, 0.0), now);
      var s1 := Put(s, id, CancelSent(s.orders[id], now));
      PutKeeps(s, id, CancelSent(s.orders[id], now));
      SendKeeps(s1, CancelRequest(id));
      KeepsTransitive(s, s1, CancelOrder(s, id, now));
    } else {
      KeepsReflexive(s);
    }
  }

  lemma {:induction false} AmendQuoteKeeps(s: Oms, id: OrderId, leg: Leg, now: int)
    requires Good(s) && id < |s.orders|
    ensures Keeps(s, AmendQuote(s, id, leg, now))
  {
    if SendsAmend(s.orders[id]) {
      var amend := Amend(leg.price, leg.quantity);
      RequestEvolves(s.orders[id], amend, now);
      var s1 := Put(s, id, AmendSent(s.orders[id], amend, now));
      PutKeeps(s, id, AmendSent(s.orders[id], amend, now));
      SendKeeps(s1, AmendRequest(id, leg.price, leg.quantity));
      KeepsTransitive(s, s1, AmendQuote(s, id, leg, now));
    } else {
      KeepsReflexive(s);
    }
  }

  lemma {:induction false} PlaceQuoteKeeps(s: Oms, sig: Signal, leg: Leg)
    requires Good(s)
    ensures Keeps(s, PlaceQuote(s, sig, leg))
  {
    PlaceKeepsBook(s, sig.strategy, sig.instrument, leg.side, leg.price, leg.quantity, None);
    var m := OrderRequest(|s.orders|, sig.strategy, sig.instrument, leg.side, leg.price, leg.quantity, None);
    SendKeepsAlgos(s, m);
  }

  lemma {:induction false} MatchLegKeeps(cfg: Config, s: Oms, sig: Signal, resting: seq<OrderId>, matched: set<OrderId>, leg: Leg, now: int)
    requires Good(s) && Known(s.orders, resting)
    ensures Keeps(s, MatchLeg(cfg, s, sig, resting, matched, leg, now).0)
  {
    var s' := MatchLeg(cfg, s, sig, resting, matched, leg, now).0;
    var candidate := FirstSuiting(s.orders, resting, matched, leg, false);
    if s' == s {
      KeepsReflexive(s);
    } else if candidate.None? {
      assert s' == PlaceQuote(s, sig, leg);
      PlaceQuoteKeeps(s, sig, leg);
    } else {
      assert s' == AmendQuote(s, candidate.value, leg, now);
      AmendQuoteKeeps(s, candidate.value, leg, now);
    }
  }

  lemma {:induction false} MatchLegsKeeps(cfg: Config, s: Oms, sig: Signal, resting: seq<OrderId>, matched: set<OrderId>,
                                          legs: seq<Leg>, now: int)
    requires Good(s) && Known(s.orders, resting)
    ensures Keeps(s, MatchLegs(cfg, s, sig, resting, matched, legs, now).0)
    decreases |legs|
  {
    if legs == [] {
      KeepsReflexive(s);
    } else {
      MatchLegKeeps(cfg, s, sig, resting, matched, legs[0], now);
      var (s1, matched1) := MatchLeg(cfg, s, sig, resting, matched, legs[0], now);
      MatchLegsKeeps(cfg, s1, sig, resting, matched1, legs[1..], now);
      KeepsTransitive(s, s1, MatchLegs(cfg, s, sig, resting, matched, legs, now).0);
    }
  }

  lemma {:induction false} CancelUnmatchedKeeps(s: Oms, resting: seq<OrderId>, matched: set<OrderId>, now: int)
    requires Good(s) && Known(s.orders, resting)
    ensures Keeps(s, CancelUnmatched(s, resting, matched, now))
    decreases |resting|
  {
    KeepsReflexive(s);
    if resting != [] {
      var id := resting[0];
      CancelOrderKeeps(s, id, now);
      var s1 := if id !in matched && s.orders[id].status != PendingAmend then CancelOrder(s, id, now) else s;
      CancelUnmatchedKeeps(s1, resting[1..], matched, now);
      KeepsTransitive(s, s1, CancelUnmatched(s, resting, matched, now));
    }
  }

  lemma {:induction false} ReconcileImmediateKeeps(cfg: Config, s: Oms, sig: Signal, legs: seq<Leg>, now: int)
    requires Good(s)
    ensures Keeps(s, ReconcileImmediate(cfg, s, sig, legs, now))
  {
    var resting := RestingIds(s.orders, sig.strategy, sig.instrument);
    MatchLegsKeeps(cfg, s, sig, resting, {}, legs, now);
    var (s1, matched) := MatchLegs(cfg, s, sig, resting, {}, legs, now);
    CancelUnmatchedKeeps(s1, resting, matched, now);
    KeepsTransitive(s, s1, CancelUnmatched(s1, resting, matched, now));
  }

  lemma {:induction false} CancelFromKeeps(s: Oms, scope: Scope, k: nat, now: int)
    requires Good(s)
    ensures Keeps(s, CancelFrom(s, scope, k, now))
    decreases |s.orders| - k
  {
    if k >= |s.orders| {
      KeepsReflexive(s);
    } else if Covers(scope, s.orders[k]) {
      var s1 := CancelOrder(s, k, now);
      CancelOrderKeeps(s, k, now);
      CancelFromKeeps(s1, scope, k + 1, now);
      KeepsTransitive(s, s1, CancelFrom(s1, scope, k + 1, now));
    } else {
      CancelFromKeeps(s, scope, k + 1, now);
    }
  }

  // ----- Algorithms -----

  lemma {:induction false} WithoutFacts(keys: seq<LegId>, leg: LegId)
    ensures forall l :: l in Without(keys, leg) <==> l in keys && l != leg
    ensures (forall i, j :: 0 <= i < j < |keys| ==> keys[i] != keys[j]) ==>
            forall i, j :: 0 <= i < j < |Without(keys, leg)| ==> Without(keys, leg)[i] != Without(keys, leg)[j]
  {
    if keys != [] {
      var rest := Without(keys[1..], leg);
      WithoutFacts(keys[1..], leg);
      if forall i, j :: 0 <= i < j < |keys| ==> keys[i] != keys[j] {
        forall j | 0 <= j < |rest| ensures rest[j] != keys[0] {
          assert rest[j] in rest;
        }
      }
    }
  }

  lemma {:induction false} RetireKeeps(s: Oms, leg: LegId)
    requires Good(s)
    ensures Keeps(s, Retire(s, leg))
  {
    WithoutFacts(s.algoKeys, leg);
    KeepsReflexive(s);
    var s' := Retire(s, leg);
    forall l ensures LegOk(s'.algos, s'.algoCtx, s'.sent, l) {
      assert LegOk(s.algos, s.algoCtx, s.sent, l);
    }
  }

  lemma {:induction false} RetireAllKeeps(s: Oms, keys: seq<LegId>)
    requires Good(s)
    ensures Keeps(s, RetireAll(s, keys))
    decreases |keys|
  {
    if keys == [] {
      KeepsReflexive(s);
    } else {
      RetireKeeps(s, keys[0]);
      RetireAllKeeps(Retire(s, keys[0]), keys[1..]);
      KeepsTransitive(s, Retire(s, keys[0]), RetireAll(s, keys));
    }
  }

  lemma {:induction false} RetireIfFinishedKeeps(s: Oms, leg: LegId)
    requires Good(s)
    ensures Keeps(s, RetireIfFinished(s, leg))
  {
    RetireKeeps(s, leg);
    KeepsReflexive(s);
  }

  /** A slice handed out and its request sent keep the books of the algorithm balanced. */
  lemma {:induction false} SliceIsAccounted(algo: Algo, ctx: AlgoCtx, sent: seq<Msg>, leg: LegId, now: int, m: Msg)
    requires Accounted(algo, ctx, sent, leg)
    requires var (_, slice) := NextSlice(algo, now);
             slice.Some? ==> ChildQuantity(m, leg) == slice.value
    ensures var (algo', slice) := NextSlice(algo, now);
            Accounted(algo', ctx, if slice.Some? then sent + [m] else sent, leg)
  {
    PollFollowsSchedule(algo, now);
    var after := (sent + [m])[ctx.since..];
    assert after[..|after| - 1] == sent[ctx.since..];
  }

  lemma {:induction false} DriveKeepsAlgos(s: Oms, leg: LegId, now: int)
    requires AlgosOk(s) && leg in s.algos
    ensures var (algo, slice) := NextSlice(s.algos[leg], now);
            var s1 := s.(algos := s.algos[leg := algo]);
            AlgosOk(if slice.Some? then SubmitChild(s1, leg, algo.price, slice.value) else s1)
  {
    var (algo, slice) := NextSlice(s.algos[leg], now);
    var s1 := s.(algos := s.algos[leg := algo]);
    var s2 := if slice.Some? then SubmitChild(s1, leg, algo.price, slice.value) else s1;
    var m := if slice.Some? then s2.sent[|s.sent|] else CancelRequest(0);
    assert LegOk(s.algos, s.algoCtx, s.sent, leg);
    SliceIsAccounted(s.algos[leg], s.algoCtx[leg], s.sent, leg, now, m);
    assert s2.sent == if slice.Some? then s.sent + [m] else s.sent;
    AlgoAdvanceKeeps(s, leg, algo, s2.sent);
    assert s2 == s1.(orders := s2.orders, coids := s2.coids, sent := s2.sent);
  }

  lemma {:induction false} AlgoAdvanceKeeps(s: Oms, leg: LegId, algo: Algo, sent: seq<Msg>)
    requires AlgosOk(s) && leg in s.algos
    requires Accounted(algo, s.algoCtx[leg], sent, leg)
    requires sent == s.sent ||
             (|sent| == |s.sent| + 1 && sent[..|s.sent|] == s.sent
              && sent[|s.sent|].OrderRequest? && sent[|s.sent|].parentLeg == Some(leg))
    ensures AlgosOk(s.(algos := s.algos[leg := algo], sent := sent))
  {
    var s' := s.(algos := s.algos[leg := algo], sent := sent);
    forall l ensures LegOk(s'.algos, s'.algoCtx, s'.sent, l) {
      assert LegOk(s.algos, s.algoCtx, s.sent, l);
      if l != leg && l in s.algos && sent != s.sent {
        assert sent == s.sent + [sent[|s.sent|]];
        AppendChildless(s.algos[l], s.algoCtx[l], s.sent, sent[|s.sent|], l);
      }
    }
  }

  lemma {:induction false} DriveAlgoKeeps(s: Oms, leg: LegId, now: int)
    requires Good(s)
    ensures Keeps(s, DriveAlgo(s, leg, now))
  {
    KeepsReflexive(s);
    if leg in s.algos {
      var (algo, slice) := NextSlice(s.algos[leg], now);
      var s1 := s.(algos := s.algos[leg := algo]);
      var s2 := if slice.Some? then SubmitChild(s1, leg, algo.price, slice.value) else s1;
      DriveKeepsAlgos(s, leg, now);
      if slice.Some? {
        var ctx := s.algoCtx[leg];
        PlaceKeepsBook(s1, ctx.strategy, ctx.instrument, ctx.leg.side, algo.price, slice.value, Some(leg));
      }
      assert Keeps(s, s2);
      RetireIfFinishedKeeps(s2, leg);
      KeepsTransitive(s, s2, DriveAlgo(s, leg, now));
    }
  }

  lemma {:induction false} DriveAllKeeps(s: Oms, keys: seq<LegId>, now: int)
    requires Good(s)
    ensures Keeps(s, DriveAll(s, keys, now))
    decreases |keys|
  {
    if keys == [] {
      KeepsReflexive(s);
    } else {
      DriveAlgoKeeps(s, keys[0], now);
      var s1 := DriveAlgo(s, keys[0], now);
      DriveAllKeeps(s1, keys[1..], now);
      KeepsTransitive(s, s1, DriveAll(s, keys, now));
    }
  }

  lemma {:induction false} WithdrawKeeps(s: Oms, keys: seq<LegId>, sig: Signal, desired: set<LegId>, now: int)
    requires Good(s)
    ensures Keeps(s, Withdraw(s, keys, sig, desired, now))
    decreases |keys|
  {
    KeepsReflexive(s);
    if keys != [] {
      var leg := keys[0];
      var retired := Retire(s, leg);
      RetireKeeps(s, leg);
      CancelFromKeeps(retired, ChildrenOf(leg), 0, now);
      KeepsTransitive(s, retired, CancelScope(retired, ChildrenOf(leg), now));
      var s1 :=
        if leg in s.algoCtx && s.algoCtx[leg].strategy == sig.strategy
           && s.algoCtx[leg].instrument == sig.instrument && leg !in desired
        then CancelScope(retired, ChildrenOf(leg), now)
        else s;
      WithdrawKeeps(s1, keys[1..], sig, desired, now);
      KeepsTransitive(s, s1, Withdraw(s, keys, sig, desired, now));
    }
  }

  lemma {:induction false} FreshAlgoAccounted(algo: Algo, ctx: AlgoCtx, sent: seq<Msg>, leg: LegId)
    requires algo.sent == 0 && ctx.since == |sent|
    ensures Accounted(algo, ctx, sent, leg)
  {
    assert sent[ctx.since..] == [];
    assert algo.slices[..0] == [];
  }

  lemma {:induction false} StartKeeps(s: Oms, leg: LegId, algo: Algo, ctx: AlgoCtx)
    requires Good(s) && leg !in s.algos && algo.sent == 0 && ctx.since == |s.sent|
    ensures Keeps(s, s.(algoKeys := s.algoKeys + [leg], algos := s.algos[leg := algo], algoCtx := s.algoCtx[leg := ctx]))
  {
    var s' := s.(algoKeys := s.algoKeys + [leg], algos := s.algos[leg := algo], algoCtx := s.algoCtx[leg := ctx]);
    FreshAlgoAccounted(algo, ctx, s.sent, leg);
    KeepsReflexive(s);
    forall l ensures LegOk(s'.algos, s'.algoCtx, s'.sent, l) {
      assert LegOk(s.algos, s.algoCtx, s.sent, l);
    }
  }

  lemma {:induction false} ResumeKeeps(s: Oms, leg: LegId, ctx: AlgoCtx)
    requires Good(s) && leg in s.algos && ctx.since == s.algoCtx[leg].since
    ensures Keeps(s, s.(algoCtx := s.algoCtx[leg := ctx]))
  {
    KeepsReflexive(s);
    var s' := s.(algoCtx := s.algoCtx[leg := ctx]);
    forall l ensures LegOk(s'.algos, s'.algoCtx, s'.sent, l) {
      assert LegOk(s.algos, s.algoCtx, s.sent, l);
    }
  }

  lemma {:induction false} StartOrResumeKeeps(s: Oms, sig: Signal, sliced: SlicedLeg, now: int)
    requires Good(s) && sliced.algo.sent == 0
    ensures Keeps(s, StartOrResume(s, sig, sliced, now))
  {
    var leg := sliced.leg.id;
    if leg in s.algos {
      ResumeKeeps(s, leg, AlgoCtx(sig.strategy, sig.instrument, sliced.leg, s.algoCtx[leg].since));
    } else {
      var ctx := AlgoCtx(sig.strategy, sig.instrument, sliced.leg, |s.sent|);
      var s1 := s.(algoKeys := s.algoKeys + [leg], algos := s.algos[leg := sliced.algo],
                   algoCtx := s.algoCtx[leg := ctx]);
      StartKeeps(s, leg, sliced.algo, ctx);
      DriveAlgoKeeps(s1, leg, now);
      KeepsTransitive(s, s1, DriveAlgo(s1, leg, now));
    }
  }

  lemma {:induction false} StartAllKeeps(s: Oms, sig: Signal, sliced: seq<SlicedLeg>, now: int)
    requires Good(s)
    requires forall i :: 0 <= i < |sliced| ==> sliced[i].algo.sent == 0
    ensures Keeps(s, StartAll(s, sig, sliced, now))
    decreases |sliced|
  {
    if sliced == [] {
      KeepsReflexive(s);
    } else {
      StartOrResumeKeeps(s, sig, sliced[0], now);
      var s1 := StartOrResume(s, sig, sliced[0], now);
      StartAllKeeps(s1, sig, sliced[1..], now);
      KeepsTransitive(s, s1, StartAll(s, sig, sliced, now));
    }
  }

  lemma {:induction false} SlicedLegsAreFresh(legs: seq<Leg>, route: Router)
    requires forall leg :: route(leg).Some? ==> route(leg).value.sent == 0
    ensures forall i :: 0 <= i < |SlicedLegs(legs, route)| ==> SlicedLegs(legs, route)[i].algo.sent == 0
  {
    if legs != [] {
      SlicedLegsAreFresh(legs[1..], route);
    }
  }

  lemma {:induction false} ReconcileKeeps(cfg: Config, s: Oms, sig: Signal, route: Router, now: int)
    requires Good(s)
    requires forall leg :: route(leg).Some? ==> route(leg).value.sent == 0
    ensures Keeps(s, Reconcile(cfg, s, sig, route, now))
  {
    var s1 := ReconcileImmediate(cfg, s, sig, ImmediateLegs(sig.legs, route), now);
    ReconcileImmediateKeeps(cfg, s, sig, ImmediateLegs(sig.legs, route), now);
    var sliced := SlicedLegs(sig.legs, route);
    SlicedLegsAreFresh(sig.legs, route);
    var desired := set l | l in sliced :: l.leg.id;
    var s2 := Withdraw(s1, s1.algoKeys, sig, desired, now);
    WithdrawKeeps(s1, s1.algoKeys, sig, desired, now);
    KeepsTransitive(s, s1, s2);
    StartAllKeeps(s2, sig, sliced, now);
    KeepsTransitive(s, s2, StartAll(s2, sig, sliced, now));
  }

  lemma {:induction false} DecideSignalKeeps(cfg: Config, s: Oms, id: SignalId, verdict: Option<map<LegId, Quantity>>, route: Router, now: int)
    requires Good(s)
    requires forall leg :: route(leg).Some? ==> route(leg).value.sent == 0
    ensures Keeps(s, DecideSignal(cfg, s, id, verdict, route, now))
  {
    KeepsReflexive(s);
    if id in s.signals {
      var sig := s.signals[id];
      var s1 := s.(signals := s.signals - {id});
      assert Keeps(s, s1);
      match verdict {
        case None =>
          CancelFromKeeps(s1, PlainOrders(sig.strategy, sig.instrument), 0, now);
        case Some(approved) =>
          ReconcileKeeps(cfg, s1, sig.(legs := ApprovedLegs(sig.legs, approved)), route, now);
      }
      KeepsTransitive(s, s1, DecideSignal(cfg, s, id, verdict, route, now));
    }
  }

  // ----- Responses, timer, operator, venue -----

  lemma {:induction false} RespondKeeps(s: Oms, id: OrderId, r: Response)
    requires Good(s)
    ensures Keeps(s, Respond(s, id, r))
  {
    if id < |s.orders| {
      ResponseEvolves(s.orders[id], r);
      PutKeeps(s, id, Handled(s.orders[id], r));
    } else {
      KeepsReflexive(s);
    }
  }

  lemma {:induction false} OnFillKeeps(s: Oms, id: OrderId, f: Fill)
    requires Good(s) && f.quantity > 0.0
    ensures Keeps(s, OnFill(s, id, f))
  {
    if id < |s.orders| {
      var o := s.orders[id];
      FillEvolves(o, f);
      PutKeeps(s, id, Filling(o, f));
      var s1 := Put(s, id, Filling(o, f));
      if !o.Terminal() && f.id !in o.applied && o.parentLeg.Some? {
        var s2 := RetireIfFinished(s1, o.parentLeg.value);
        RetireIfFinishedKeeps(s1, o.parentLeg.value);
        KeepsTransitive(s, s1, s2);
        assert OnFill(s, id, f) == s2;
      } else {
        assert OnFill(s, id, f) == s1;
      }
    } else {
      KeepsReflexive(s);
    }
  }

  lemma {:induction false} SweepKeeps(cfg: Config, s: Oms, now: int)
    requires Good(s)
    ensures Keeps(s, Sweep(cfg, s, now))
  {
    KeepsReflexive(s);
    if now - s.lastSweep >= NS_PER_SECOND {
      var s' := Sweep(cfg, s, now);
      forall i | 0 <= i < |s.orders|
        ensures Evolves(s.orders[i], s'.orders[i]) && AmendTracked(s'.orders[i])
        ensures FilledDone(s.orders[i]) ==> FilledDone(s'.orders[i])
        ensures Descends(s.orders[i], s'.orders[i])
      {
        SweptEvolves(s.orders[i], now, cfg.amendTimeout);
        EvolvesDescends(s.orders[i], s'.orders[i]);
      }
    }
  }

  lemma {:induction false} DriverWakeKeeps(cfg: Config, s: Oms, now: int)
    requires Good(s)
    ensures Keeps(s, DriverWake(cfg, s, now))
  {
    DriveAllKeeps(s, s.algoKeys, now);
    SweepKeeps(cfg, DriveAll(s, s.algoKeys, now), now);
    KeepsTransitive(s, DriveAll(s, s.algoKeys, now), DriverWake(cfg, s, now));
  }

  lemma {:induction false} RetireThenCancelKeeps(s: Oms, keys: seq<LegId>, scope: Scope, now: int)
    requires Good(s)
    ensures Keeps(s, CancelScope(RetireAll(s, keys), scope, now))
  {
    RetireAllKeeps(s, keys);
    CancelFromKeeps(RetireAll(s, keys), scope, 0, now);
    KeepsTransitive(s, RetireAll(s, keys), CancelScope(RetireAll(s, keys), scope, now));
  }

  lemma {:induction false} AdoptKeeps(s: Oms, v: VenueOrder)
    requires Good(s)
    requires v.coid in s.coids || v.coid.Foreign?
    ensures Keeps(s, Adopt(s, v))
  {
    if v.coid in s.coids {
      var id := s.coids[v.coid];
      PutKeeps(s, id, Refreshed(s.orders[id], v));
    } else {
      var s' := Adopt(s, v);
      var o := s'.orders[|s.orders|];
      AppendKeepsBook(s, o, s'.sent);
      AppendExtends(s, o, s'.sent);
      SendKeepsAlgos(s, OrderAdopted(|s.orders|));
    }
  }

  /** Everything but a FILLED order having no leaves survives a forced terminal status. */
  lemma {:induction false} TerminalizeKeepsGood(s: Oms, id: OrderId, status: OrderStatus, filled: Option<Quantity>, now: int)
    requires Good(s)
    ensures var s' := TerminalizeFromVenue(s, id, status, filled, now); Good(s') && Extends(s, s')
  {
    KeepsReflexive(s);
    if id < |s.orders| {
      var o := s.orders[id];
      var o' := Terminalized(o, status, filled, now);
      TerminalizedEvolves(o, status, filled, now);
      PutKeepsBook(s, id, o');
      PutExtends(s, id, o');
    }
  }

  lemma {:induction false} TerminalizedEvolves(o: OrderState, status: OrderStatus, filled: Option<Quantity>, now: int)
    ensures Evolves(o, Terminalized(o, status, filled, now))
    ensures AmendTracked(o) ==> AmendTracked(Terminalized(o, status, filled, now))
  {
  }

  // ----- Main results -----

  lemma {:induction false} StepKeeps(cfg: Config, s: Oms, e: Event)
    requires Good(s) && Admissible(s, e)
    ensures Good(Step(cfg, s, e)) && Extends(s, Step(cfg, s, e))
    ensures !e.VenueTerminalizes? ==> Keeps(s, Step(cfg, s, e))
  {
    match e {
      case SignalArrives(sig) => KeepsReflexive(s);
      case SignalsEvicted(ids) => KeepsReflexive(s);
      case DecisionArrives(id, verdict, route, now) => DecideSignalKeeps(cfg, s, id, verdict, route, now);
      case ResponseArrives(id, r) => RespondKeeps(s, id, r);
      case FillArrives(id, f) => OnFillKeeps(s, id, f);
      case DriverWakes(now) => DriverWakeKeeps(cfg, s, now);
      case KillSwitch(now) => RetireThenCancelKeeps(s, s.algoKeys, Everything, now);
      case StrategyPaused(strategy, now) =>
        RetireThenCancelKeeps(s, StrategyLegs(s.algoKeys, s.orders, strategy), OfStrategy(strategy), now);
      case OperatorCancels(id, now) => CancelOrderKeeps(s, id, now);
      case VenueOrderAdopted(v) => AdoptKeeps(s, v);
      case VenueTerminalizes(id, status, filled, now) => TerminalizeKeepsGood(s, id, status, filled, now);
    }
  }

  lemma {:induction false} ExtendsTransitive(a: Oms, b: Oms, c: Oms)
    requires Extends(a, b) && Extends(b, c)
    ensures Extends(a, c)
  {
    forall i | 0 <= i < |a.orders| ensures Descends(a.orders[i], c.orders[i]) {
      DescendsTransitive(a.orders[i], b.orders[i], c.orders[i]);
    }
  }

  lemma {:induction false} AdmissiblePrefix(cfg: Config, s: Oms, es: seq<Event>, k: nat)
    requires AdmissibleRun(cfg, s, es) && k <= |es|
    ensures AdmissibleRun(cfg, s, es[..k])
  {
    forall j | 0 <= j < k ensures Admissible(Run(cfg, s, es[..k][..j]), es[..k][j]) {
      assert es[..k][..j] == es[..j];
    }
  }

  /** Over every run: ids, client ids and algorithm tables stay consistent, an order in
      PENDING_AMEND always has its pending amend, every live algorithm's children add up
      to what it handed out, statuses move only along the legal table with terminal
      states final, and fill totals never shrink. */
  lemma {:induction false} RunKeepsInvariant(cfg: Config, s: Oms, es: seq<Event>)
    requires Good(s) && AdmissibleRun(cfg, s, es)
    ensures Good(Run(cfg, s, es)) && Extends(s, Run(cfg, s, es))
    decreases |es|
  {
    if es == [] {
      KeepsReflexive(s);
    } else {
      var n := |es| - 1;
      var s1 := Run(cfg, s, es[..n]);
      AdmissiblePrefix(cfg, s, es, n);
      RunKeepsInvariant(cfg, s, es[..n]);
      StepKeeps(cfg, s1, es[n]);
      ExtendsTransitive(s, s1, Run(cfg, s, es));
    }
  }

  /** FILLED means nothing is left, as long as no status was forced by a venue resync. */
  lemma {:induction false} FilledMeansNothingLeft(cfg: Config, es: seq<Event>)
    requires AdmissibleRun(cfg, EmptyOms, es)
    requires forall k :: 0 <= k < |es| ==> !es[k].VenueTerminalizes?
    ensures AllFilledDone(Run(cfg, EmptyOms, es))
    decreases |es|
  {
    if es != [] {
      var n := |es| - 1;
      AdmissiblePrefix(cfg, EmptyOms, es, n);
      FilledMeansNothingLeft(cfg, es[..n]);
      RunKeepsInvariant(cfg, EmptyOms, es[..n]);
      StepKeeps(cfg, Run(cfg, EmptyOms, es[..n]), es[n]);
    }
  }

  /** Hence an algorithm's children never total more than the quantity it was started
      with, whenever its schedule itself never overshoots. */
  lemma {:induction false} ChildrenNeverExceedParent(cfg: Config, es: seq<Event>, leg: LegId)
    requires AdmissibleRun(cfg, EmptyOms, es)
    requires leg in Run(cfg, EmptyOms, es).algos
    requires NeverOvershoots(Run(cfg, EmptyOms, es).algos[leg].slices)
    ensures var s := Run(cfg, EmptyOms, es);
            leg in s.algoCtx && s.algoCtx[leg].since <= |s.sent|
            && ChildTotal(s.sent[s.algoCtx[leg].since..], leg) <= Sum(s.algos[leg].slices)
  {
    RunKeepsInvariant(cfg, EmptyOms, es);
    var s := Run(cfg, EmptyOms, es);
    assert LegOk(s.algos, s.algoCtx, s.sent, leg);
  }
}
