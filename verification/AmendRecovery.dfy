/** A lost amend response never wedges an order: the throttled sweep frees every order
    waiting for an amend within a bounded time. */
module AmendRecovery {
  import opened Types
  import opened StateMachine
  import opened Orders
  import opened OmsModel

  // ----- When an order can be waiting -----

  /** If `o'` waits for an amend then `o` already did, since the same time, or the wait began at `at`. */
  predicate Stamped(o: OrderState, o': OrderState, at: int) {
    o'.status == PendingAmend ==>
      o'.lastUpdate == at || (o.status == PendingAmend && o'.lastUpdate == o.lastUpdate)
  }

  ghost predicate AllStamped(s: Oms, s': Oms, at: int) {
    && |s.orders| <= |s'.orders| && s'.lastSweep == s.lastSweep
    && (forall i :: 0 <= i < |s.orders| ==> Stamped(s.orders[i], s'.orders[i], at))
    && (forall i :: |s.orders| <= i < |s'.orders| ==> s'.orders[i].status != PendingAmend || s'.orders[i].lastUpdate == at)
  }

  lemma {:induction false} StampedTransitive(a: Oms, b: Oms, c: Oms, at: int)
    requires AllStamped(a, b, at) && AllStamped(b, c, at)
    ensures AllStamped(a, c, at)
  {
    forall i | 0 <= i < |c.orders|
      ensures i < |a.orders| ==> Stamped(a.orders[i], c.orders[i], at)
      ensures i >= |a.orders| ==> c.orders[i].status != PendingAmend || c.orders[i].lastUpdate == at
    {
      if i < |b.orders| {
        assert Stamped(b.orders[i], c.orders[i], at);
        if i < |a.orders| {
          assert Stamped(a.orders[i], b.orders[i], at);
        }
      }
    }
  }

  lemma {:induction false} CancelOrderStamped(s: Oms, id: OrderId, now: int, at: int)
    ensures AllStamped(s, CancelOrder(s, id, now), at)
  {
  }

  lemma {:induction false} MatchLegStamped(cfg: Config, s: Oms, sig: Signal, resting: seq<OrderId>, matched: set<OrderId>, leg: Leg, now: int)
    requires Known(s.orders, resting)
    ensures AllStamped(s, MatchLeg(cfg, s, sig, resting, matched, leg, now).0, now)
  {
    var s' := MatchLeg(cfg, s, sig, resting, matched, leg, now).0;
    var candidate := FirstSuiting(s.orders, resting, matched, leg, false);
    if s' != s && candidate.Some? {
      assert s' == AmendQuote(s, candidate.value, leg, now);
      AmendQuoteStamped(s, candidate.value, leg, now);
    } else if s' != s {
      assert s' == PlaceQuote(s, sig, leg);
    }
  }

  lemma {:induction false} AmendQuoteStamped(s: Oms, id: OrderId, leg: Leg, now: int)
    requires id < |s.orders|
    ensures AllStamped(s, AmendQuote(s, id, leg, now), now)
  {
  }

  lemma {:induction false} MatchLegsStamped(cfg: Config, s: Oms, sig: Signal, resting: seq<OrderId>, matched: set<OrderId>,
                                            legs: seq<Leg>, now: int)
    requires Known(s.orders, resting)
    ensures AllStamped(s, MatchLegs(cfg, s, sig, resting, matched, legs, now).0, now)
    decreases |legs|
  {
    if legs != [] {
      MatchLegStamped(cfg, s, sig, resting, matched, legs[0], now);
      var (s1, matched1) := MatchLeg(cfg, s, sig, resting, matched, legs[0], now);
      MatchLegsStamped(cfg, s1, sig, resting, matched1, legs[1..], now);
      StampedTransitive(s, s1, MatchLegs(cfg, s, sig, resting, matched, legs, now).0, now);
    }
  }

  lemma {:induction false} CancelUnmatchedStamped(s: Oms, resting: seq<OrderId>, matched: set<OrderId>, now: int, at: int)
    requires Known(s.orders, resting)
    ensures AllStamped(s, CancelUnmatched(s, resting, matched, now), at)
    decreases |resting|
  {
    if resting != [] {
      var id := resting[0];
      CancelOrderStamped(s, id, now, at);
      var s1 := if id !in matched && s.orders[id].status != PendingAmend then CancelOrder(s, id, now) else s;
      CancelUnmatchedStamped(s1, resting[1..], matched, now, at);
      StampedTransitive(s, s1, CancelUnmatched(s, resting, matched, now), at);
    }
  }

  lemma {:induction false} CancelFromStamped(s: Oms, scope: Scope, k: nat, now: int, at: int)
    ensures AllStamped(s, CancelFrom(s, scope, k, now), at)
    decreases |s.orders| - k
  {
    if k < |s.orders| {
      CancelOrderStamped(s, k, now, at);
      var s1 := if Covers(scope, s.orders[k]) then CancelOrder(s, k, now) else s;
      CancelFromStamped(s1, scope, k + 1, now, at);
      StampedTransitive(s, s1, CancelFrom(s, scope, k, now), at);
    }
  }

  lemma {:induction false} DriveAlgoStamped(s: Oms, leg: LegId, now: int, at: int)
    ensures AllStamped(s, DriveAlgo(s, leg, now), at)
  {
  }

  lemma {:induction false} DriveAllStamped(s: Oms, keys: seq<LegId>, now: int, at: int)
    ensures AllStamped(s, DriveAll(s, keys, now), at)
    decreases |keys|
  {
    if keys != [] {
      var s1 := DriveAlgo(s, keys[0], now);
      DriveAlgoStamped(s, keys[0], now, at);
      DriveAllStamped(s1, keys[1..], now, at);
      StampedTransitive(s, s1, DriveAll(s, keys, now), at);
    }
  }

  lemma {:induction false} RetireAllStamped(s: Oms, keys: seq<LegId>, at: int)
    ensures AllStamped(s, RetireAll(s, keys), at)
    decreases |keys|
  {
    if keys != [] {
      RetireAllStamped(Retire(s, keys[0]), keys[1..], at);
    }
  }

  lemma {:induction false} WithdrawStamped(s: Oms, keys: seq<LegId>, sig: Signal, desired: set<LegId>, now: int, at: int)
    ensures AllStamped(s, Withdraw(s, keys, sig, desired, now), at)
    decreases |keys|
  {
    if keys != [] {
      var leg := keys[0];
      CancelFromStamped(Retire(s, leg), ChildrenOf(leg), 0, now, at);
      var s1 :=
        if leg in s.algoCtx && s.algoCtx[leg].strategy == sig.strategy
           && s.algoCtx[leg].instrument == sig.instrument && leg !in desired
        then CancelScope(Retire(s, leg), ChildrenOf(leg), now)
        else s;
      WithdrawStamped(s1, keys[1..], sig, desired, now, at);
      StampedTransitive(s, s1, Withdraw(s, keys, sig, desired, now), at);
    }
  }

  lemma {:induction false} StartOrResumeStamped(s: Oms, sig: Signal, sliced: SlicedLeg, now: int, at: int)
    ensures AllStamped(s, StartOrResume(s, sig, sliced, now), at)
  {
    var leg := sliced.leg.id;
    if leg !in s.algos {
      var s1 := s.(algoKeys := s.algoKeys + [leg], algos := s.algos[leg := sliced.algo],
                   algoCtx := s.algoCtx[leg := AlgoCtx(sig.strategy, sig.instrument, sliced.leg, |s.sent|)]);
      DriveAlgoStamped(s1, leg, now, at);
    }
  }

  lemma {:induction false} StartAllStamped(s: Oms, sig: Signal, sliced: seq<SlicedLeg>, now: int, at: int)
    ensures AllStamped(s, StartAll(s, sig, sliced, now), at)
    decreases |sliced|
  {
    if sliced != [] {
      var s1 := StartOrResume(s, sig, sliced[0], now);
      StartOrResumeStamped(s, sig, sliced[0], now, at);
      StartAllStamped(s1, sig, sliced[1..], now, at);
      StampedTransitive(s, s1, StartAll(s, sig, sliced, now), at);
    }
  }

  lemma {:induction false} ReconcileStamped(cfg: Config, s: Oms, sig: Signal, route: Router, now: int)
    ensures AllStamped(s, Reconcile(cfg, s, sig, route, now), now)
  {
    var legs, sliced := ImmediateLegs(sig.legs, route), SlicedLegs(sig.legs, route);
    var resting := RestingIds(s.orders, sig.strategy, sig.instrument);
    var (s1, matched) := MatchLegs(cfg, s, sig, resting, {}, legs, now);
    var s2 := CancelUnmatched(s1, resting, matched, now);
    var desired := set l | l in sliced :: l.leg.id;
    var s3 := Withdraw(s2, s2.algoKeys, sig, desired, now);
    var s4 := StartAll(s3, sig, sliced, now);
    MatchLegsStamped(cfg, s, sig, resting, {}, legs, now);
    CancelUnmatchedStamped(s1, resting, matched, now, now);
    WithdrawStamped(s2, s2.algoKeys, sig, desired, now, now);
    StartAllStamped(s3, sig, sliced, now, now);
    StampedTransitive(s, s1, s2, now);
    StampedTransitive(s, s2, s3, now);
    StampedTransitive(s, s3, s4, now);
  }

  // ----- Timed runs -----

  /** An event and the engine's clock when it is handled. */
  datatype Timed = Timed(event: Event, at: int)

  /** Handlers that read the clock read the current time. */
  predicate ReadsClock(t: Timed) {
    match t.event
    case DecisionArrives(_, _, _, now) => now == t.at
    case DriverWakes(now) => now == t.at
    case KillSwitch(now) => now == t.at
    case StrategyPaused(_, now) => now == t.at
    case OperatorCancels(_, now) => now == t.at
    case VenueTerminalizes(_, _, _, now) => now == t.at
    case _ => true
  }

  lemma {:induction false} PutStamped(s: Oms, id: OrderId, o': OrderState, at: int)
    requires id < |s.orders| && Stamped(s.orders[id], o', at)
    ensures AllStamped(s, Put(s, id, o'), at)
  {
  }

  lemma {:induction false} MessageStamped(cfg: Config, s: Oms, e: Event, at: int)
    requires e.ResponseArrives? || e.FillArrives? || e.VenueTerminalizes?
    ensures AllStamped(s, Step(cfg, s, e), at)
  {
    if e.order < |s.orders| {
      var o := s.orders[e.order];
      var o' := match e
        case ResponseArrives(_, r) => Handled(o, r)
        case FillArrives(_, f) => Filling(o, f)
        case VenueTerminalizes(_, status, filled, now) => Terminalized(o, status, filled, now)
        case _ => o;
      assert Stamped(o, o', at);
      PutStamped(s, e.order, o', at);
    }
  }

  lemma {:induction false} RetireThenCancelStamped(s: Oms, keys: seq<LegId>, scope: Scope, now: int)
    ensures AllStamped(s, CancelScope(RetireAll(s, keys), scope, now), now)
  {
    RetireAllStamped(s, keys, now);
    CancelFromStamped(RetireAll(s, keys), scope, 0, now, now);
    StampedTransitive(s, RetireAll(s, keys), CancelScope(RetireAll(s, keys), scope, now), now);
  }

  lemma {:induction false} DecisionStamped(cfg: Config, s: Oms, id: SignalId, verdict: Option<map<LegId, Quantity>>, route: Router, now: int)
    ensures AllStamped(s, DecideSignal(cfg, s, id, verdict, route, now), now)
  {
    if id in s.signals {
      var sig := s.signals[id];
      var s1 := s.(signals := s.signals - {id});
      match verdict {
        case None => CancelFromStamped(s1, PlainOrders(sig.strategy, sig.instrument), 0, now, now);
        case Some(approved) => ReconcileStamped(cfg, s1, sig.(legs := ApprovedLegs(sig.legs, approved)), route, now);
      }
    }
  }

  lemma {:induction false} StepStamped(cfg: Config, s: Oms, t: Timed)
    requires ReadsClock(t) && !t.event.DriverWakes?
    ensures AllStamped(s, Step(cfg, s, t.event), t.at)
  {
    match t.event {
      case DecisionArrives(id, verdict, route, now) => DecisionStamped(cfg, s, id, verdict, route, now);
      case KillSwitch(now) => RetireThenCancelStamped(s, s.algoKeys, Everything, now);
      case StrategyPaused(strategy, now) =>
        RetireThenCancelStamped(s, StrategyLegs(s.algoKeys, s.orders, strategy), OfStrategy(strategy), now);
      case OperatorCancels(id, now) => CancelOrderStamped(s, id, now, now);
      case VenueOrderAdopted(_) =>
      case SignalArrives(_) =>
      case SignalsEvicted(_) =>
      case _ => MessageStamped(cfg, s, t.event, t.at);
    }
  }

  function TimedRun(cfg: Config, s: Oms, ts: seq<Timed>): Oms {
    if ts == [] then s else Step(cfg, TimedRun(cfg, s, ts[..|ts| - 1]), ts[|ts| - 1].event)
  }

  /** The clock when the run last moved, and when the driver last woke. */
  function LastTime(start: int, ts: seq<Timed>): int {
    if ts == [] then start else ts[|ts| - 1].at
  }

  function LastWake(start: int, ts: seq<Timed>): int {
    if ts == [] then start
    else if ts[|ts| - 1].event.DriverWakes? then ts[|ts| - 1].at
    else LastWake(start, ts[..|ts| - 1])
  }

  predicate HasWoken(ts: seq<Timed>) {
    exists k :: 0 <= k < |ts| && ts[k].event.DriverWakes?
  }

  /** Time never runs backwards and never gets more than `d` ahead of the driver's last wake-up. */
  ghost predicate Punctual(start: int, d: int, ts: seq<Timed>) {
    forall k :: 0 <= k < |ts| ==>
      && ReadsClock(ts[k])
      && LastTime(start, ts[..k]) <= ts[k].at <= LastWake(start, ts[..k]) + d
  }

  // ----- The sweep's invariant -----

  /** Every wait began after the start, and none was already overdue when the last sweep
      ran; once the driver has woken, the last sweep is less than a second behind it. */
  ghost predicate SweptUpTo(cfg: Config, s: Oms, start: int, ts: seq<Timed>) {
    && s.lastSweep <= LastTime(start, ts) && start <= LastTime(start, ts)
    && (HasWoken(ts) ==> LastWake(start, ts) - s.lastSweep < NS_PER_SECOND)
    && (!HasWoken(ts) ==> LastWake(start, ts) == start)
    && NoneOverdue(s, s.lastSweep, start, cfg.amendTimeout)
  }

  ghost predicate NoneOverdue(s: Oms, sweep: int, start: int, timeout: int) {
    forall i :: 0 <= i < |s.orders| && s.orders[i].status == PendingAmend ==>
      sweep - s.orders[i].lastUpdate < timeout && s.orders[i].lastUpdate >= start
  }

  lemma {:induction false} StampedNotOverdue(s: Oms, s': Oms, at: int, start: int, timeout: int)
    requires AllStamped(s, s', at) && timeout > 0 && s.lastSweep <= at && start <= at
    requires NoneOverdue(s, s.lastSweep, start, timeout)
    ensures NoneOverdue(s', s'.lastSweep, start, timeout)
  {
    forall i | 0 <= i < |s'.orders| && s'.orders[i].status == PendingAmend
      ensures s'.lastSweep - s'.orders[i].lastUpdate < timeout && s'.orders[i].lastUpdate >= start
    {
      assert i < |s.orders| ==> Stamped(s.orders[i], s'.orders[i], at);
    }
  }

  lemma {:induction false} SweepFreesOverdue(cfg: Config, s: Oms, now: int, start: int)
    requires NoneOverdue(s, s.lastSweep, start, cfg.amendTimeout)
    ensures var s' := Sweep(cfg, s, now);
            && NoneOverdue(s', s'.lastSweep, start, cfg.amendTimeout)
            && now - s'.lastSweep < NS_PER_SECOND
            && (s'.lastSweep == s.lastSweep || s'.lastSweep == now)
  {
    var s' := Sweep(cfg, s, now);
    if now - s.lastSweep >= NS_PER_SECOND {
      forall i | 0 <= i < |s'.orders| && s'.orders[i].status == PendingAmend
        ensures s'.lastSweep - s'.orders[i].lastUpdate < cfg.amendTimeout && s'.orders[i].lastUpdate >= start
      {
        assert s'.orders[i] == Swept(s.orders[i], now, cfg.amendTimeout);
        assert s'.orders[i] == s.orders[i];
      }
    }
  }

  lemma {:induction false} WakeTimes(start: int, ts: seq<Timed>)
    requires ts != []
    ensures ts[|ts| - 1].event.DriverWakes? ==> HasWoken(ts)
    ensures !ts[|ts| - 1].event.DriverWakes? ==>
            (HasWoken(ts) <==> HasWoken(ts[..|ts| - 1])) && LastWake(start, ts) == LastWake(start, ts[..|ts| - 1])
  {
  }

  lemma {:induction false} PunctualPrefix(start: int, d: int, ts: seq<Timed>)
    requires Punctual(start, d, ts) && ts != []
    ensures Punctual(start, d, ts[..|ts| - 1])
    ensures var last := ts[|ts| - 1];
            ReadsClock(last) && LastTime(start, ts[..|ts| - 1]) <= last.at
  {
    var prefix := ts[..|ts| - 1];
    forall k | 0 <= k < |prefix|
      ensures ReadsClock(prefix[k]) && LastTime(start, prefix[..k]) <= prefix[k].at <= LastWake(start, prefix[..k]) + d
    {
      assert prefix[..k] == ts[..k] && prefix[k] == ts[k];
    }
  }

  lemma {:induction false} SweepInvariant(cfg: Config, start: int, d: int, ts: seq<Timed>)
    requires start >= 0 && cfg.amendTimeout > 0 && Punctual(start, d, ts)
    ensures SweptUpTo(cfg, TimedRun(cfg, EmptyOms, ts), start, ts)
    decreases |ts|
  {
    if ts != [] {
      var n := |ts| - 1;
      PunctualPrefix(start, d, ts);
      SweepInvariant(cfg, start, d, ts[..n]);
      WakeTimes(start, ts);
      var s := TimedRun(cfg, EmptyOms, ts[..n]);
      var at := ts[n].at;
      if ts[n].event.DriverWakes? {
        var s1 := DriveAll(s, s.algoKeys, at);
        DriveAllStamped(s, s.algoKeys, at, at);
        StampedNotOverdue(s, s1, at, start, cfg.amendTimeout);
        SweepFreesOverdue(cfg, s1, at, start);
      } else {
        StepStamped(cfg, s, ts[n]);
        StampedNotOverdue(s, Step(cfg, s, ts[n].event), at, start, cfg.amendTimeout);
      }
    }
  }

  /** If the driver wakes at most `d` apart then at every moment no order has been waiting
      for an amend for as long as the timeout plus one second plus `d`. */
  lemma {:induction false} LostAmendsAreRecovered(cfg: Config, start: int, d: int, ts: seq<Timed>, t: int, id: OrderId)
    requires start >= 0 && cfg.amendTimeout > 0 && Punctual(start, d, ts)
    requires LastTime(start, ts) <= t <= LastWake(start, ts) + d
    requires var s := TimedRun(cfg, EmptyOms, ts); id < |s.orders| && s.orders[id].status == PendingAmend
    ensures t - TimedRun(cfg, EmptyOms, ts).orders[id].lastUpdate < cfg.amendTimeout + NS_PER_SECOND + d
  {
    SweepInvariant(cfg, start, d, ts);
  }

  lemma {:induction false} DrivingKeepsOrders(s: Oms, keys: seq<LegId>, now: int)
    ensures s.orders <= DriveAll(s, keys, now).orders && DriveAll(s, keys, now).lastSweep == s.lastSweep
    decreases |keys|
  {
    if keys != [] {
      DrivingKeepsOrders(DriveAlgo(s, keys[0], now), keys[1..], now);
    }
  }

  /** A wake-up gives an amend up exactly when it has waited for the timeout and the last
      sweep is a second old: the order works on, on its old terms, or is filled if nothing is
      left of it. Every other order stays as it was, a younger amend included. */
  lemma {:induction false} WakeGivesUpExactlyTheOverdue(cfg: Config, s: Oms, now: int, id: OrderId)
    requires id < |s.orders|
    ensures var s' := Step(cfg, s, DriverWakes(now));
            var o := s.orders[id];
            && id < |s'.orders|
            && s'.orders[id] ==
               if o.status == PendingAmend && now - o.lastUpdate >= cfg.amendTimeout && now - s.lastSweep >= 1_000_000_000
               then o.(status := if o.filled == o.quantity then Filled else Acknowledged, pendingAmend := None, lastUpdate := now)
               else o
  {
    DrivingKeepsOrders(s, s.algoKeys, now);
  }

  /** The throttle is why a second must be allowed for: a sweep run half a second ago
      leaves an order that has since passed its timeout waiting. */
  lemma {:induction false} ThrottleDelaysRecovery(cfg: Config, o: OrderState, now: int)
    requires Overdue(o, now, cfg.amendTimeout)
    ensures var s := EmptyOms.(orders := [o], lastSweep := now - NS_PER_SECOND / 2);
            Sweep(cfg, s, now).orders == [o] && Sweep(cfg, s, now + NS_PER_SECOND / 2).orders[0].status != PendingAmend
  {
  }
}
