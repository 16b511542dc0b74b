/** What the OMS takes over from the venue at start-up and on a resync. */
module VenueSync {
  import opened Types
  import opened StateMachine
  import opened Orders
  import opened OmsModel
  import opened OmsInvariants

  /** An order nobody here knows enters the book as the venue has it, working, for the
      strategy its client order id names, and without a parent; it is announced if the venue
      gave it an id. */
  lemma {:induction false} UnknownOrderIsAdopted(s: Oms, v: VenueOrder)
    requires v.coid !in s.coids
    ensures var s' := Adopt(s, v);
            && |s'.orders| == |s.orders| + 1 && s'.orders[..|s.orders|] == s.orders
            && v.coid in s'.coids && s'.coids[v.coid] == |s.orders|
            && (forall c :: c in s.coids ==> c in s'.coids && s'.coids[c] == s.coids[c])
            && s'.sent == (if v.exchangeId.Some? then s.sent + [OrderAdopted(|s.orders|)] else s.sent)
            && var o := s'.orders[|s.orders|];
            && o.coid == v.coid && o.instrument == v.instrument && o.side == v.side && o.price == v.price
            && o.quantity == v.quantity && o.filled == v.filled && o.exchangeId == v.exchangeId && o.parentLeg.None?
            && o.strategy == (match v.coid case Minted(strategy, _) => strategy case Foreign(_, owner) => owner)
            && o.status == (if v.filled > 0.0 then PartiallyFilled else Acknowledged)
  {
  }

  /** A known live order takes over the venue's quantity, its price if it has one, and its
      fills if they are more; its status stays. A finished one, and every other, stays as it
      was; nothing is sent. */
  lemma {:induction false} KnownOrderIsRefreshed(s: Oms, v: VenueOrder)
    requires BookOk(s) && v.coid in s.coids
    ensures var s', id := Adopt(s, v), s.coids[v.coid];
            && id < |s.orders| == |s'.orders| && s'.sent == s.sent && s'.coids == s.coids
            && (forall i :: 0 <= i < |s.orders| && i != id ==> s'.orders[i] == s.orders[i])
            && var o, o' := s.orders[id], s'.orders[id];
            && o.coid == v.coid
            && (o.status in {Filled, Cancelled, Rejected, Expired} ==> o' == o)
            && (o.status !in {Filled, Cancelled, Rejected, Expired} ==>
                  && o'.status == o.status && o'.quantity == v.quantity
                  && o'.price == (if v.price.Some? then v.price else o.price)
                  && o'.filled >= o.filled && o'.filled >= v.filled && (o'.filled == o.filled || o'.filled == v.filled))
  {
  }

  /** Taking the same report over twice is taking it over once. */
  lemma {:induction false} AdoptionIsIdempotent(s: Oms, v: VenueOrder)
    requires BookOk(s)
    ensures Adopt(Adopt(s, v), v) == Adopt(s, v)
  {
    var s1 := Adopt(s, v);
    if v.coid in s.coids {
      var id := s.coids[v.coid];
      assert Refreshed(s1.orders[id], v) == s1.orders[id];
    } else {
      assert Refreshed(s1.orders[|s.orders|], v) == s1.orders[|s.orders|];
    }
  }

  predicate Final(status: OrderStatus) { status in {Filled, Cancelled, Rejected, Expired} }

  /** A resync ends a live order where the table lets the status be reached, with the venue's
      fills if they are more. A finished order, an unfinished status and an unknown id change
      nothing. */
  lemma {:induction false} ResyncEndsOrder(s: Oms, id: OrderId, status: OrderStatus, filled: Option<Quantity>, now: int)
    ensures var s' := TerminalizeFromVenue(s, id, status, filled, now);
            && |s'.orders| == |s.orders| && s'.sent == s.sent && s'.coids == s.coids
            && (forall i :: 0 <= i < |s.orders| && i != id ==> s'.orders[i] == s.orders[i])
            && (id < |s.orders| ==>
                  var o, o' := s.orders[id], s'.orders[id];
                  if Final(o.status) || !Final(status) then o' == o
                  else
                    && o'.quantity == o.quantity && o'.price == o.price
                    && o'.filled == (if filled.Some? && filled.value > o.filled then filled.value else o.filled)
                    && (status in {Filled, Cancelled} ==> o'.status == status)
                    && (status == Expired ==> o'.status == if o.status in {Acknowledged, PartiallyFilled} then Expired else o.status)
                    && (status == Rejected ==> o'.status == if o.status in {PendingNew, PendingAmend} then Rejected else o.status))
  {
  }
}
