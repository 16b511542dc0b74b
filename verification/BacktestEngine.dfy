/** The replay loop: advances the simulated clock over the data and the gateway's schedule. */
module BacktestEngines {
  import opened Types
  import opened SimulatedClocks
  import opened BacktestMatching
  import opened BacktestTimeline
  import opened BacktestGateways

  function Flat(batches: seq<seq<Input>>): seq<Input> {
    if batches == [] then [] else batches[0] + Flat(batches[1..])
  }

  /** Data in order, none of it before `nowNs`. */
  predicate Chronological(nowNs: int, data: seq<int>)
    decreases |data|
  {
    data == [] || (nowNs <= data[0] && Chronological(data[0], data[1..]))
  }

  class BacktestEngine {
    const clock: SimulatedClock
    const gateway: BacktestOrderGateway
    const snapshotIntervalNs: int
    var lastSnapshotNs: int
    // What strategies, OMS and market data will have delivered to the gateway each time the
    // loop next yields to them. Any script is possible; once it is used up nobody acts.
    var arrivals: seq<seq<Input>>

    ghost predicate Valid()
      reads this, gateway, clock
    {
      gateway.clock == clock && gateway.Valid()
    }

    /** Everything delivered to the gateway, past and to come. */
    ghost function Deliveries(): seq<Input>
      reads this, gateway
    {
      gateway.history + Flat(arrivals)
    }

    constructor (clock: SimulatedClock, gateway: BacktestOrderGateway, snapshotIntervalNs: int, arrivals: seq<seq<Input>>)
      requires gateway.clock == clock && gateway.Valid()
      ensures Valid() && this.clock == clock && this.gateway == gateway && this.arrivals == arrivals
    {
      this.clock, this.gateway, this.snapshotIntervalNs := clock, gateway, snapshotIntervalNs;
      this.arrivals, lastSnapshotNs := arrivals, 0;
    }

    /** Lets the bus's subscribers run. */
    method Settle()
      requires Valid()
      modifies this`arrivals, gateway
      ensures Valid() && Deliveries() == old(Deliveries())
      ensures gateway.published == old(gateway.published)
      ensures arrivals == if old(arrivals) == [] then [] else old(arrivals)[1..]
      ensures old(arrivals) == [] ==> gateway.schedule == old(gateway.schedule)
    {
      if arrivals == [] {
        return;
      }
      var batch := arrivals[0];
      Deliver(batch);
      arrivals := arrivals[1..];
      ghost var rest := Flat(arrivals);
      assert (old(gateway.history) + batch) + rest == old(gateway.history) + (batch + rest);
    }

    method Deliver(batch: seq<Input>)
      requires Valid()
      modifies gateway
      ensures Valid() && gateway.published == old(gateway.published)
      ensures gateway.history == old(gateway.history) + batch
    {
      for i := 0 to |batch|
        invariant Valid() && gateway.published == old(gateway.published)
        invariant gateway.history == old(gateway.history) + batch[..i]
      {
        assert batch[..i + 1] == batch[..i] + [batch[i]];
        gateway.OnInput(batch[i]);
      }
      assert batch[..|batch|] == batch;
    }

    /** `ok` is false when the clock refuses to go back. */
    method ReplayLoop(data: seq<int>) returns (ok: bool)
      requires Valid()
      modifies this, gateway, clock
      ensures Valid() && Deliveries() == old(Deliveries())
      ensures ok <==> Chronological(old(clock.nowNs), data)
    {
      for k := 0 to |data|
        invariant Valid() && Deliveries() == old(Deliveries())
        invariant Chronological(old(clock.nowNs), data) <==> Chronological(clock.nowNs, data[k..])
      {
        // Waiting for the source to produce its next event also lets subscribers run.
        Settle();
        ok := MoveTo(data[k]);
        if !ok {
          return;
        }
        assert data[k..][1..] == data[k + 1..];
        DrainHere();
        MaybeSnapshot();
      }
      ok := true;
    }

    /** What is due first, then the clock. */
    method MoveTo(ns: int) returns (ok: bool)
      requires Valid()
      modifies this`arrivals, gateway, clock
      ensures Valid() && Deliveries() == old(Deliveries())
      ensures ok <==> old(clock.nowNs) <= ns
      ensures ok ==> clock.nowNs == ns
    {
      DrainUpTo(ns);
      if clock.nowNs <= ns {
        TimePassesSound(gateway.Timeline(), clock.nowNs, ns);
      }
      ok := clock.SetTime(ns);
    }

    /** Publishes the data event, then whatever comes due without the clock moving. */
    method DrainHere()
      requires Valid()
      modifies this`arrivals, gateway
      ensures Valid() && Deliveries() == old(Deliveries())
    {
      Settle();
      var drained := gateway.DrainDue();
      while drained > 0
        invariant Valid() && Deliveries() == old(Deliveries())
        decreases |arrivals|, |gateway.schedule|, drained
      {
        Settle();
        drained := gateway.DrainDue();
      }
    }

    /** Publishes what falls due up to `targetNs`, each at its time. */
    method DrainUpTo(targetNs: int)
      requires Valid()
      modifies this`arrivals, gateway, clock
      ensures Valid() && Deliveries() == old(Deliveries())
      ensures gateway.schedule != [] ==> gateway.schedule[0].dueNs > targetNs
      ensures clock.nowNs == old(clock.nowNs) || old(clock.nowNs) <= clock.nowNs <= targetNs
    {
      while true
        invariant Valid() && Deliveries() == old(Deliveries())
        invariant clock.nowNs == old(clock.nowNs) || old(clock.nowNs) <= clock.nowNs <= targetNs
        decreases |arrivals|, |gateway.schedule|
      {
        var due := gateway.NextDueNs();
        if due.None? || due.value > targetNs {
          return;
        }
        AdvanceTo(due.value);
        PublishDue();
      }
    }

    /** Each time this shortens the schedule, or uses up a batch of arrivals. */
    method PublishDue()
      requires Valid() && gateway.schedule != [] && gateway.schedule[0].dueNs <= clock.nowNs
      modifies this`arrivals, gateway
      ensures Valid() && Deliveries() == old(Deliveries())
      ensures |arrivals| < |old(arrivals)| || (|arrivals| == |old(arrivals)| && |gateway.schedule| < |old(gateway.schedule)|)
    {
      var drained := gateway.DrainDue();
      Settle();
    }

    /** The clock never refuses to go to the earliest due time. */
    method AdvanceTo(ns: int)
      requires Valid() && clock.nowNs <= ns
      requires gateway.schedule != [] ==> ns <= gateway.schedule[0].dueNs
      modifies clock
      ensures Valid() && clock.nowNs == ns
    {
      TimePassesSound(gateway.Timeline(), clock.nowNs, ns);
      var ok := clock.SetTime(ns);
      assert ok;
    }

    /** At the end of the data, runs through all that is left. */
    method DrainRemaining()
      requires Valid()
      modifies this`arrivals, gateway, clock
      ensures Valid() && Deliveries() == old(Deliveries())
      ensures gateway.schedule == []
    {
      while true
        invariant Valid() && Deliveries() == old(Deliveries())
        decreases |arrivals|, |gateway.schedule|
      {
        var due := gateway.NextDueNs();
        if due.None? {
          return;
        }
        if due.value > clock.nowNs {
          AdvanceTo(due.value);
        }
        PublishDue();
      }
    }

    method MaybeSnapshot()
      requires Valid()
      modifies this, gateway
      ensures Valid() && Deliveries() == old(Deliveries())
    {
      var now := clock.nowNs;
      if now - lastSnapshotNs < snapshotIntervalNs {
        return;
      }
      lastSnapshotNs := now;
      Settle();
      Settle();
    }

    /** A whole run. It fails exactly on data that goes back in time. Otherwise every event
        the venue simulator scheduled has been published, once, at its due time, in
        increasing order of due time and submission, and these are exactly the messages
        the matching rules produce for what was delivered. */
    method Run(data: seq<int>) returns (ok: bool)
      requires Valid()
      modifies this, gateway, clock
      ensures Valid() && Deliveries() == old(Deliveries())
      ensures ok <==> Chronological(old(clock.nowNs), data)
      ensures ok ==> gateway.schedule == []
      ensures ok ==> Delivered(gateway.published, gateway.submitted)
      ensures MessagesOf(gateway.submitted) == After(gateway.cfg, gateway.history).log
    {
      ok := ReplayLoop(data);
      if ok {
        DrainRemaining();
        EverythingPublishedOnTime(gateway.Timeline(), clock.nowNs);
      }
    }
  }

  /** Exactly the submitted events, each at its due time, in strictly increasing order. */
  predicate Delivered(published: seq<Publication>, submitted: seq<Scheduled>) {
    && multiset(Items(published)) == multiset(submitted)
    && (forall i :: 0 <= i < |published| ==> published[i].atNs == published[i].item.dueNs)
    && (forall i, j :: 0 <= i < j < |published| ==> Before(published[i].item, published[j].item))
  }
}
