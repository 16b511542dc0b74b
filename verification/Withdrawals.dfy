/** What a decision takes away: the orders of a rejected signal, and the algorithms whose legs
    an approved one no longer asks for. */
module Withdrawals {
  import opened Types
  import opened StateMachine
  import opened Orders
  import opened ExecutionAlgos
  import opened OmsModel
  import opened OmsInvariants
  import opened Shutdown

  // ----- A rejected signal -----

  /** Exactly the signal's own plain orders that can be cancelled are asked to cancel, one
      request each. Algorithms and every other order stay as they were. */
  lemma {:induction false} RejectionWithdrawsPlainOrders(cfg: Config, s: Oms, id: SignalId, route: Router, now: int)
    requires id in s.signals
    ensures var s' := Step(cfg, s, DecisionArrives(id, None, route, now));
            var sig := s.signals[id];
            && s'.algos == s.algos && s'.algoCtx == s.algoCtx && |s'.orders| == |s.orders| && id !in s'.signals
            && s'.sent == s.sent + CancelRequests(s.orders, PlainOrders(sig.strategy, sig.instrument), 0)
            && forall i :: 0 <= i < |s.orders| ==>
                 var o := s.orders[i];
                 if o.strategy == sig.strategy && o.instrument == sig.instrument && o.parentLeg.None?
                 then AskedToCancel(o, s'.orders[i], now)
                 else s'.orders[i] == o
  {
    var sig := s.signals[id];
    CancelFromIsPointwise(s.(signals := s.signals - {id}), PlainOrders(sig.strategy, sig.instrument), 0, now);
    forall i | 0 <= i < |s.orders| ensures AskedToCancel(s.orders[i], CancelSent(s.orders[i], now), now) {
      CancelSentAsks(s.orders[i], now);
    }
  }

  // ----- Legs no longer desired -----

  /** The signal's strategy has an algorithm running for the leg on the signal's instrument,
      and the signal does not ask for the leg. */
  predicate Undesired(s: Oms, sig: Signal, desired: set<LegId>, leg: LegId) {
    && leg in s.algoCtx && s.algoCtx[leg].strategy == sig.strategy && s.algoCtx[leg].instrument == sig.instrument
    && leg !in desired
  }

  /** The order is a child of a leg among `keys` that is no longer desired. */
  predicate Orphaned(s: Oms, sig: Signal, desired: set<LegId>, keys: seq<LegId>, o: OrderState) {
    o.parentLeg.Some? && o.parentLeg.value in keys && Undesired(s, sig, desired, o.parentLeg.value)
  }

  ghost predicate Withdrawn(s: Oms, s': Oms, sig: Signal, desired: set<LegId>, keys: seq<LegId>, now: int) {
    && |s'.orders| == |s.orders|
    && (forall leg :: leg in s'.algos <==> leg in s.algos && !(leg in keys && Undesired(s, sig, desired, leg)))
    && (forall leg :: leg in s'.algos ==> s'.algos[leg] == s.algos[leg])
    && (forall leg :: leg in s'.algoCtx <==> leg in s.algoCtx && !(leg in keys && Undesired(s, sig, desired, leg)))
    && (forall leg :: leg in s'.algoCtx ==> s'.algoCtx[leg] == s.algoCtx[leg])
    && (forall i :: 0 <= i < |s.orders| ==>
          if Orphaned(s, sig, desired, keys, s.orders[i]) then AskedToCancel(s.orders[i], s'.orders[i], now)
          else s'.orders[i] == s.orders[i])
  }

  /** One leg of the withdrawal. */
  function WithdrawOne(s: Oms, leg: LegId, sig: Signal, desired: set<LegId>, now: int): Oms {
    if Undesired(s, sig, desired, leg) then CancelScope(Retire(s, leg), ChildrenOf(leg), now) else s
  }

  lemma {:induction false} WithdrawOneEffect(s: Oms, leg: LegId, sig: Signal, desired: set<LegId>, now: int)
    ensures Withdrawn(s, WithdrawOne(s, leg, sig, desired, now), sig, desired, [leg], now)
  {
    if Undesired(s, sig, desired, leg) {
      CancelFromIsPointwise(Retire(s, leg), ChildrenOf(leg), 0, now);
      forall i | 0 <= i < |s.orders| ensures AskedToCancel(s.orders[i], CancelSent(s.orders[i], now), now) {
        CancelSentAsks(s.orders[i], now);
      }
    }
  }

  lemma {:induction false} WithdrawAllEffect(s: Oms, keys: seq<LegId>, sig: Signal, desired: set<LegId>, now: int)
    requires forall i, j :: 0 <= i < j < |keys| ==> keys[i] != keys[j]
    ensures Withdrawn(s, Withdraw(s, keys, sig, desired, now), sig, desired, keys, now)
    decreases |keys|
  {
    if keys != [] {
      var s1 := WithdrawOne(s, keys[0], sig, desired, now);
      WithdrawOneEffect(s, keys[0], sig, desired, now);
      WithdrawAllEffect(s1, keys[1..], sig, desired, now);
      WithdrawnBoth(s, s1, Withdraw(s, keys, sig, desired, now), sig, desired, keys, now);
    }
  }

  lemma {:induction false} WithdrawnBoth(a: Oms, b: Oms, c: Oms, sig: Signal, desired: set<LegId>, keys: seq<LegId>, now: int)
    requires keys != [] && forall i, j :: 0 <= i < j < |keys| ==> keys[i] != keys[j]
    requires Withdrawn(a, b, sig, desired, [keys[0]], now) && Withdrawn(b, c, sig, desired, keys[1..], now)
    ensures Withdrawn(a, c, sig, desired, keys, now)
  {
    assert forall leg :: leg in keys <==> leg == keys[0] || leg in keys[1..];
    assert keys[0] !in keys[1..];
    forall leg ensures leg in keys[1..] ==> (Undesired(a, sig, desired, leg) <==> Undesired(b, sig, desired, leg)) {
    }
    forall i | 0 <= i < |a.orders|
      ensures if Orphaned(a, sig, desired, keys, a.orders[i]) then AskedToCancel(a.orders[i], c.orders[i], now)
              else c.orders[i] == a.orders[i]
    {
      OrphanedOnce(a, b, c, sig, desired, keys, now, i);
    }
  }

  lemma {:induction false} OrphanedOnce(a: Oms, b: Oms, c: Oms, sig: Signal, desired: set<LegId>, keys: seq<LegId>, now: int, i: nat)
    requires keys != [] && keys[0] !in keys[1..] && i < |a.orders|
    requires Withdrawn(a, b, sig, desired, [keys[0]], now) && Withdrawn(b, c, sig, desired, keys[1..], now)
    requires forall leg :: leg in keys <==> leg == keys[0] || leg in keys[1..]
    requires forall leg :: leg in keys[1..] ==> (Undesired(a, sig, desired, leg) <==> Undesired(b, sig, desired, leg))
    ensures if Orphaned(a, sig, desired, keys, a.orders[i]) then AskedToCancel(a.orders[i], c.orders[i], now)
            else c.orders[i] == a.orders[i]
  {
    assert b.orders[i].parentLeg == a.orders[i].parentLeg;
  }

  // ----- The rest of the reconcile -----

  lemma {:induction false} StartingKeepsOthers(s: Oms, sig: Signal, sliced: seq<SlicedLeg>, now: int)
    ensures var s' := StartAll(s, sig, sliced, now);
            && s.orders <= s'.orders
            && (forall leg :: leg in s.algos ==> leg in s'.algos && s'.algos[leg] == s.algos[leg])
            && (forall leg :: leg !in s.algos && (forall l :: l in sliced ==> l.leg.id != leg) ==> leg !in s'.algos)
    decreases |sliced|
  {
    if sliced != [] {
      StartingOneKeepsOthers(s, sig, sliced[0], now);
      StartingKeepsOthers(StartOrResume(s, sig, sliced[0], now), sig, sliced[1..], now);
      assert forall l :: l in sliced[1..] ==> l in sliced;
    }
  }

  lemma {:induction false} StartingOneKeepsOthers(s: Oms, sig: Signal, sliced: SlicedLeg, now: int)
    ensures var s' := StartOrResume(s, sig, sliced, now);
            && s.orders <= s'.orders
            && (forall leg :: leg in s.algos ==> leg in s'.algos && s'.algos[leg] == s.algos[leg])
            && (forall leg :: leg !in s.algos && leg != sliced.leg.id ==> leg !in s'.algos)
  {
    var leg := sliced.leg.id;
    if leg !in s.algos {
      DrivingKeepsOthers(s.(algoKeys := s.algoKeys + [leg], algos := s.algos[leg := sliced.algo],
                            algoCtx := s.algoCtx[leg := AlgoCtx(sig.strategy, sig.instrument, sliced.leg, |s.sent|)]), leg, now);
    }
  }

  lemma {:induction false} DrivingKeepsOthers(s: Oms, leg: LegId, now: int)
    ensures var s' := DriveAlgo(s, leg, now);
            && s.orders <= s'.orders
            && (forall l :: l != leg ==> (l in s'.algos <==> l in s.algos) && (l in s.algos ==> s'.algos[l] == s.algos[l]))
  {
  }

  /** Reconciling the sliced legs of a signal ends exactly the algorithms the strategy runs on
      the instrument for legs it no longer asks for, and cancels exactly their children.
      Every other running algorithm goes on from where it was, whether its leg is asked for
      again or belongs to another strategy or instrument. */
  lemma {:induction false} ReconcileEndsExactlyTheUndesired(s: Oms, sig: Signal, sliced: seq<SlicedLeg>, now: int)
    requires Good(s)
    ensures var s' := ReconcileSliced(s, sig, sliced, now);
            var desired := set l | l in sliced :: l.leg.id;
            && |s.orders| <= |s'.orders|
            && (forall leg :: leg in s.algos ==> (leg in s'.algos <==> !Undesired(s, sig, desired, leg)))
            && (forall leg :: leg in s.algos && leg in s'.algos ==> s'.algos[leg] == s.algos[leg])
            && (forall i :: 0 <= i < |s.orders| ==>
                  var o := s.orders[i];
                  if o.parentLeg.Some? && Undesired(s, sig, desired, o.parentLeg.value)
                  then AskedToCancel(o, s'.orders[i], now)
                  else s'.orders[i] == o)
  {
    var desired := set l | l in sliced :: l.leg.id;
    var s1 := Withdraw(s, s.algoKeys, sig, desired, now);
    WithdrawAllEffect(s, s.algoKeys, sig, desired, now);
    StartingKeepsOthers(s1, sig, sliced, now);
    forall leg | leg in s.algos && Undesired(s, sig, desired, leg) ensures leg !in StartAll(s1, sig, sliced, now).algos {
      assert forall l :: l in sliced ==> l.leg.id in desired;
    }
  }

  // ----- When an algorithm is over -----

  /** Nothing more to send, and no child left alive. */
  predicate Over(algo: Algo, orders: seq<OrderState>, leg: LegId) {
    && (algo.cancelled || algo.sent >= |algo.slices|)
    && forall i :: 0 <= i < |orders| && orders[i].parentLeg == Some(leg) ==> orders[i].status in {Filled, Cancelled, Rejected, Expired}
  }

  lemma {:induction false} RetiredIffOver(s: Oms, leg: LegId)
    requires leg in s.algos
    ensures leg !in RetireIfFinished(s, leg).algos <==> Over(s.algos[leg], s.orders, leg)
    ensures RetireIfFinished(s, leg).orders == s.orders
    ensures forall l :: l != leg ==> (l in RetireIfFinished(s, leg).algos <==> l in s.algos)
                                     && (l in s.algos ==> RetireIfFinished(s, leg).algos[l] == s.algos[l])
    ensures leg in RetireIfFinished(s, leg).algos ==> RetireIfFinished(s, leg).algos[leg] == s.algos[leg]
  {
    forall o: OrderState ensures o.Terminal() <==> o.status in {Filled, Cancelled, Rejected, Expired} {
    }
  }

  /** One leg driven: its algorithm hands out what is due, and goes if that was the end of it. */
  lemma {:induction false} DrivenLegIsRetiredIffOver(s: Oms, leg: LegId, now: int)
    requires leg in s.algos && leg in s.algoCtx
    ensures var s' := DriveAlgo(s, leg, now);
            var algo := NextSlice(s.algos[leg], now).0;
            && s.orders <= s'.orders
            && (forall i :: |s.orders| <= i < |s'.orders| ==> s'.orders[i].parentLeg == Some(leg))
            && (leg !in s'.algos <==> Over(algo, s'.orders, leg))
            && (leg in s'.algos ==> s'.algos[leg] == algo)
  {
    var (algo, slice) := NextSlice(s.algos[leg], now);
    var s1 := s.(algos := s.algos[leg := algo]);
    var s2 := if slice.Some? then SubmitChild(s1, leg, algo.price, slice.value) else s1;
    RetiredIffOver(s2, leg);
  }

  lemma {:induction false} OthersChildrenDoNotMatter(algo: Algo, a: seq<OrderState>, b: seq<OrderState>, leg: LegId)
    requires a <= b && forall i :: |a| <= i < |b| ==> b[i].parentLeg != Some(leg)
    ensures Over(algo, a, leg) <==> Over(algo, b, leg)
  {
    assert forall i :: 0 <= i < |a| ==> a[i] == b[i];
  }

  /** What driving the legs in `keys` has made of the algorithm of `leg`. */
  ghost predicate DrivenRight(s: Oms, s': Oms, keys: seq<LegId>, leg: LegId, now: int)
    requires leg in s.algos
  {
    if leg in keys then
      var algo := NextSlice(s.algos[leg], now).0;
      (leg !in s'.algos <==> Over(algo, s'.orders, leg)) && (leg in s'.algos ==> s'.algos[leg] == algo)
    else leg in s'.algos && s'.algos[leg] == s.algos[leg]
  }

  lemma {:induction false} DrivingRetiresTheOver(s: Oms, keys: seq<LegId>, leg: LegId, now: int)
    requires leg in s.algos && (forall k :: k in keys ==> k in s.algos && k in s.algoCtx)
    requires forall i, j :: 0 <= i < j < |keys| ==> keys[i] != keys[j]
    ensures var s' := DriveAll(s, keys, now);
            && s.orders <= s'.orders && DrivenRight(s, s', keys, leg, now)
            && (leg !in keys ==> forall i :: |s.orders| <= i < |s'.orders| ==> s'.orders[i].parentLeg != Some(leg))
    decreases |keys|
  {
    if keys != [] {
      var s1, s' := DriveAlgo(s, keys[0], now), DriveAll(s, keys, now);
      DrivenLegIsRetiredIffOver(s, keys[0], now);
      DrivingKeepsOthers(s, keys[0], now);
      DrivingKeepsCtx(s, keys[0], now);
      assert keys == [keys[0]] + keys[1..];
      if leg in s1.algos {
        DrivingRetiresTheOver(s1, keys[1..], leg, now);
      } else {
        DrivingGone(s1, keys[1..], leg, now);
      }
      if leg == keys[0] {
        OthersChildrenDoNotMatter(NextSlice(s.algos[leg], now).0, s1.orders, s'.orders, leg);
      }
    }
  }

  lemma {:induction false} DrivingKeepsCtx(s: Oms, leg: LegId, now: int)
    ensures forall l :: l != leg ==> (l in DriveAlgo(s, leg, now).algoCtx <==> l in s.algoCtx)
  {
  }

  lemma {:induction false} DrivingGone(s: Oms, keys: seq<LegId>, leg: LegId, now: int)
    requires leg !in s.algos && leg !in keys
    ensures var s' := DriveAll(s, keys, now);
            leg !in s'.algos && s.orders <= s'.orders
            && forall i :: |s.orders| <= i < |s'.orders| ==> s'.orders[i].parentLeg != Some(leg)
    decreases |keys|
  {
    if keys != [] {
      var s1 := DriveAlgo(s, keys[0], now);
      DrivingKeepsOthers(s, keys[0], now);
      DrivenAddsItsOwn(s, keys[0], now);
      assert keys == [keys[0]] + keys[1..];
      DrivingGone(s1, keys[1..], leg, now);
    }
  }

  lemma {:induction false} DrivenAddsItsOwn(s: Oms, leg: LegId, now: int)
    ensures forall i :: |s.orders| <= i < |DriveAlgo(s, leg, now).orders| ==> DriveAlgo(s, leg, now).orders[i].parentLeg == Some(leg)
  {
  }

  /** A wake-up advances every algorithm by what is due, and ends exactly those that have
      nothing more to send and no child alive. */
  lemma {:induction false} WakeEndsExactlyTheOver(cfg: Config, s: Oms, leg: LegId, now: int)
    requires Good(s) && leg in s.algos
    ensures var driven, s' := DriveAll(s, s.algoKeys, now), Step(cfg, s, DriverWakes(now));
            var algo := NextSlice(s.algos[leg], now).0;
            && |s'.orders| == |driven.orders|
            && (leg !in s'.algos <==> Over(algo, driven.orders, leg))
            && (leg in s'.algos ==> s'.algos[leg] == algo)
  {
    DrivingRetiresTheOver(s, s.algoKeys, leg, now);
  }

  /** A fill ends the algorithm of the order it is for, if that leaves it over, and no other. */
  lemma {:induction false} FillEndsExactlyTheOver(s: Oms, id: OrderId, f: Fill, leg: LegId)
    requires leg in s.algos
    ensures var s' := OnFill(s, id, f);
            leg !in s'.algos <==>
            && id < |s.orders| && s.orders[id].parentLeg == Some(leg) && Over(s.algos[leg], s'.orders, leg)
            && !s.orders[id].Terminal() && f.id !in s.orders[id].applied
    ensures leg in OnFill(s, id, f).algos ==> OnFill(s, id, f).algos[leg] == s.algos[leg]
  {
    if id < |s.orders| {
      var s1 := Put(s, id, Filling(s.orders[id], f));
      if s.orders[id].parentLeg.Some? && s.orders[id].parentLeg.value in s1.algos {
        RetiredIffOver(s1, s.orders[id].parentLeg.value);
      }
    }
  }

  // ----- Legs newly desired -----

  /** The algorithm of a leg has just been started: its first slice, if due, was sent, and it
      is kept unless that was all of it. */
  ghost predicate Started(s: Oms, s': Oms, l: SlicedLeg, now: int) {
    var (algo, slice) := NextSlice(l.algo, now);
    && s.sent <= s'.sent
    && (l.leg.id !in s'.algos <==> Over(algo, s'.orders, l.leg.id))
    && (l.leg.id in s'.algos ==> s'.algos[l.leg.id] == algo)
    && (slice.Some? ==> FirstSliceSent(s, s', l, slice.value))
  }

  predicate FirstSliceSent(s: Oms, s': Oms, l: SlicedLeg, quantity: Quantity) {
    exists k :: |s.sent| <= k < |s'.sent| && s'.sent[k].OrderRequest?
                && s'.sent[k].parentLeg == Some(l.leg.id) && s'.sent[k].quantity == quantity && s'.sent[k].side == l.leg.side
  }

  lemma {:induction false} StartingOne(s: Oms, sig: Signal, l: SlicedLeg, now: int)
    requires l.leg.id !in s.algos
    ensures Started(s, StartOrResume(s, sig, l, now), l, now)
  {
    var leg := l.leg.id;
    var s1 := s.(algoKeys := s.algoKeys + [leg], algos := s.algos[leg := l.algo],
                 algoCtx := s.algoCtx[leg := AlgoCtx(sig.strategy, sig.instrument, l.leg, |s.sent|)]);
    var s' := DriveAlgo(s1, leg, now);
    DrivenLegIsRetiredIffOver(s1, leg, now);
    DrivenSends(s1, leg, now);
    if NextSlice(l.algo, now).1.Some? {
      assert s'.sent[|s.sent|].parentLeg == Some(leg);
    }
  }

  lemma {:induction false} DrivenSends(s: Oms, leg: LegId, now: int)
    requires leg in s.algos && leg in s.algoCtx
    ensures var s', (algo, slice) := DriveAlgo(s, leg, now), NextSlice(s.algos[leg], now);
            s'.sent == s.sent + if slice.None? then [] else
              [OrderRequest(|s.orders|, s.algoCtx[leg].strategy, s.algoCtx[leg].instrument, s.algoCtx[leg].leg.side, algo.price,
                            slice.value, Some(leg))]
  {
    var (algo, slice) := NextSlice(s.algos[leg], now);
    var s1 := s.(algos := s.algos[leg := algo]);
    RetiringSendsNothing(if slice.Some? then SubmitChild(s1, leg, algo.price, slice.value) else s1, leg);
    assert s.sent + [] == s.sent;
  }

  lemma {:induction false} RetiringSendsNothing(s: Oms, leg: LegId)
    ensures RetireIfFinished(s, leg).sent == s.sent
  {
  }

  lemma {:induction false} StartingAddsChildrenOf(s: Oms, sig: Signal, sliced: seq<SlicedLeg>, now: int, leg: LegId)
    requires forall l :: l in sliced ==> l.leg.id != leg
    ensures var s' := StartAll(s, sig, sliced, now);
            s.sent <= s'.sent && s.orders <= s'.orders
            && forall i :: |s.orders| <= i < |s'.orders| ==> s'.orders[i].parentLeg != Some(leg)
    decreases |sliced|
  {
    if sliced != [] {
      StartingOneAddsItsOwn(s, sig, sliced[0], now);
      assert sliced[0] in sliced && forall l :: l in sliced[1..] ==> l in sliced;
      StartingAddsChildrenOf(StartOrResume(s, sig, sliced[0], now), sig, sliced[1..], now, leg);
    }
  }

  lemma {:induction false} StartingOneAddsItsOwn(s: Oms, sig: Signal, l: SlicedLeg, now: int)
    ensures var s' := StartOrResume(s, sig, l, now);
            s.sent <= s'.sent && s.orders <= s'.orders
            && forall i :: |s.orders| <= i < |s'.orders| ==> s'.orders[i].parentLeg == Some(l.leg.id)
  {
    var leg := l.leg.id;
    if leg !in s.algos {
      var s1 := s.(algoKeys := s.algoKeys + [leg], algos := s.algos[leg := l.algo],
                   algoCtx := s.algoCtx[leg := AlgoCtx(sig.strategy, sig.instrument, l.leg, |s.sent|)]);
      DrivenSends(s1, leg, now);
      DrivenLegIsRetiredIffOver(s1, leg, now);
    }
  }

  predicate DistinctSliced(sliced: seq<SlicedLeg>) {
    forall i, j :: 0 <= i < j < |sliced| ==> sliced[i].leg.id != sliced[j].leg.id
  }

  lemma {:induction false} StartAllStarts(s: Oms, sig: Signal, sliced: seq<SlicedLeg>, now: int, i: nat)
    requires DistinctSliced(sliced) && i < |sliced| && sliced[i].leg.id !in s.algos
    ensures Started(s, StartAll(s, sig, sliced, now), sliced[i], now)
    decreases |sliced|
  {
    var s1, s' := StartOrResume(s, sig, sliced[0], now), StartAll(s, sig, sliced, now);
    StartingOneAddsItsOwn(s, sig, sliced[0], now);
    StartingOneKeepsOthers(s, sig, sliced[0], now);
    if i == 0 {
      var leg := sliced[0].leg.id;
      forall l | l in sliced[1..] ensures l.leg.id != leg {
        var k :| 0 <= k < |sliced[1..]| && sliced[1..][k] == l;
        assert sliced[k + 1] == l;
      }
      StartingOne(s, sig, sliced[0], now);
      StartingAddsChildrenOf(s1, sig, sliced[1..], now, leg);
      StartingKeepsOthers(s1, sig, sliced[1..], now);
      StartedStays(s, s1, s', sliced[0], now);
    } else {
      StartAllStarts(s1, sig, sliced[1..], now, i - 1);
      assert sliced[1..][i - 1] == sliced[i];
      StartedLater(s, s1, s', sliced[i], now);
    }
  }

  lemma {:induction false} StartedStays(s: Oms, s1: Oms, s': Oms, l: SlicedLeg, now: int)
    requires Started(s, s1, l, now) && s1.sent <= s'.sent && s1.orders <= s'.orders
    requires forall i :: |s1.orders| <= i < |s'.orders| ==> s'.orders[i].parentLeg != Some(l.leg.id)
    requires l.leg.id in s'.algos <==> l.leg.id in s1.algos
    requires l.leg.id in s1.algos ==> s'.algos[l.leg.id] == s1.algos[l.leg.id]
    ensures Started(s, s', l, now)
  {
    var (algo, slice) := NextSlice(l.algo, now);
    OthersChildrenDoNotMatter(algo, s1.orders, s'.orders, l.leg.id);
    if slice.Some? {
      var k :| |s.sent| <= k < |s1.sent| && s1.sent[k].OrderRequest? && s1.sent[k].parentLeg == Some(l.leg.id)
               && s1.sent[k].quantity == slice.value && s1.sent[k].side == l.leg.side;
      assert s'.sent[k] == s1.sent[k];
    }
  }

  lemma {:induction false} StartedLater(s: Oms, s1: Oms, s': Oms, l: SlicedLeg, now: int)
    requires s.sent <= s1.sent && Started(s1, s', l, now)
    ensures Started(s, s', l, now)
  {
  }

  /** Reconciling starts the algorithm of every sliced leg that has none running: its first
      slice goes out if it is due, and it is kept unless that was all of it. */
  lemma {:induction false} ReconcileStartsNewLegs(s: Oms, sig: Signal, sliced: seq<SlicedLeg>, now: int, i: nat)
    requires Good(s) && DistinctSliced(sliced) && i < |sliced| && sliced[i].leg.id !in s.algos
    ensures Started(s, ReconcileSliced(s, sig, sliced, now), sliced[i], now)
  {
    var desired := set l | l in sliced :: l.leg.id;
    var s1 := Withdraw(s, s.algoKeys, sig, desired, now);
    WithdrawAllEffect(s, s.algoKeys, sig, desired, now);
    WithdrawSends(s, s.algoKeys, sig, desired, now);
    StartAllStarts(s1, sig, sliced, now, i);
    StartedLater(s, s1, ReconcileSliced(s, sig, sliced, now), sliced[i], now);
  }

  lemma {:induction false} WithdrawSends(s: Oms, keys: seq<LegId>, sig: Signal, desired: set<LegId>, now: int)
    ensures s.sent <= Withdraw(s, keys, sig, desired, now).sent
    decreases |keys|
  {
    if keys != [] {
      var s1 := WithdrawOne(s, keys[0], sig, desired, now);
      CancelFromSends(Retire(s, keys[0]), ChildrenOf(keys[0]), 0, now);
      WithdrawSends(s1, keys[1..], sig, desired, now);
    }
  }

  // ----- A whole decision -----

  lemma {:induction false} MatchingKeepsTables(cfg: Config, s: Oms, sig: Signal, resting: seq<OrderId>, matched: set<OrderId>,
                                               legs: seq<Leg>, now: int)
    requires Known(s.orders, resting)
    ensures var s' := MatchLegs(cfg, s, sig, resting, matched, legs, now).0; s'.algos == s.algos && s'.algoCtx == s.algoCtx
    decreases |legs|
  {
    if legs != [] {
      var (s1, matched1) := MatchLeg(cfg, s, sig, resting, matched, legs[0], now);
      MatchingKeepsTables(cfg, s1, sig, resting, matched1, legs[1..], now);
    }
  }

  lemma {:induction false} CancellingKeepsTables(s: Oms, resting: seq<OrderId>, matched: set<OrderId>, now: int)
    requires Known(s.orders, resting)
    ensures var s' := CancelUnmatched(s, resting, matched, now); s'.algos == s.algos && s'.algoCtx == s.algoCtx
    decreases |resting|
  {
    if resting != [] {
      var id := resting[0];
      var s1 := if id !in matched && s.orders[id].status != PendingAmend then CancelOrder(s, id, now) else s;
      CancellingKeepsTables(s1, resting[1..], matched, now);
    }
  }

  lemma {:induction false} PlainLegsKeepTables(cfg: Config, s: Oms, sig: Signal, legs: seq<Leg>, now: int)
    ensures var s' := ReconcileImmediate(cfg, s, sig, legs, now); s'.algos == s.algos && s'.algoCtx == s.algoCtx
  {
    var resting := RestingIds(s.orders, sig.strategy, sig.instrument);
    MatchingKeepsTables(cfg, s, sig, resting, {}, legs, now);
    var (s1, matched) := MatchLegs(cfg, s, sig, resting, {}, legs, now);
    CancellingKeepsTables(s1, resting, matched, now);
  }

  /** An approved signal, seen by the algorithms: of those running, exactly the strategy's on the
      instrument whose leg is no longer sliced end; and each approved leg the router has
      sliced, if none runs for it yet, is started. */
  lemma {:induction false} DecisionEndsAndStarts(cfg: Config, s: Oms, e: Event)
    requires Good(s) && e.DecisionArrives? && e.id in s.signals && e.verdict.Some?
    ensures var s' := Step(cfg, s, e);
            var sig := s.signals[e.id].(legs := ApprovedLegs(s.signals[e.id].legs, e.verdict.value));
            var sliced := SlicedLegs(sig.legs, e.route);
            var desired := set l | l in sliced :: l.leg.id;
            && (forall leg :: leg in s.algos ==> (leg in s'.algos <==> !Undesired(s, sig, desired, leg)))
            && (DistinctSliced(sliced) ==>
                  forall i :: 0 <= i < |sliced| && sliced[i].leg.id !in s.algos ==> Started(s, s', sliced[i], e.now))
  {
    var sig := s.signals[e.id].(legs := ApprovedLegs(s.signals[e.id].legs, e.verdict.value));
    var sliced := SlicedLegs(sig.legs, e.route);
    var s0 := s.(signals := s.signals - {e.id});
    var s1 := ReconcileImmediate(cfg, s0, sig, ImmediateLegs(sig.legs, e.route), e.now);
    assert Good(s0);
    ReconcileImmediateKeeps(cfg, s0, sig, ImmediateLegs(sig.legs, e.route), e.now);
    PlainLegsKeepTables(cfg, s0, sig, ImmediateLegs(sig.legs, e.route), e.now);
    ReconcileEndsExactlyTheUndesired(s1, sig, sliced, e.now);
    if DistinctSliced(sliced) {
      forall i | 0 <= i < |sliced| && sliced[i].leg.id !in s.algos ensures Started(s, Step(cfg, s, e), sliced[i], e.now) {
        ReconcileStartsNewLegs(s1, sig, sliced, e.now, i);
        StartedLater(s, s1, Step(cfg, s, e), sliced[i], e.now);
      }
    }
  }
}
