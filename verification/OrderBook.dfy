/** A price-level book kept from a snapshot and absolute-quantity deltas. */
module OrderBooks {
  import opened Types

  datatype Level = Level(price: Price, quantity: Quantity)
  type Levels = map<Price, Quantity>

  /** The quantity resting at a price, zero when there is no level. */
  function Quoted(levels: Levels, p: Price): Quantity {
    if p in levels then levels[p] else 0.0
  }

  function Set(levels: Levels, l: Level): Levels {
    if l.quantity == 0.0 then levels - {l.price} else levels[l.price := l.quantity]
  }

  /** Absolute updates in order; quantity zero removes the level. */
  function Applied(levels: Levels, updates: seq<Level>): Levels {
    if updates == [] then levels
    else Set(Applied(levels, updates[..|updates| - 1]), updates[|updates| - 1])
  }

  /** A snapshot's listing as levels; quantities that are not positive are ignored. */
  function Listed(listing: seq<Level>): Levels {
    if listing == [] then map[]
    else
      var rest := Listed(listing[..|listing| - 1]);
      var l := listing[|listing| - 1];
      if l.quantity > 0.0 then rest[l.price := l.quantity] else rest
  }

  predicate Names(updates: seq<Level>, p: Price) {
    exists i :: 0 <= i < |updates| && updates[i].price == p
  }

  /** Where the updates are silent the level stays; where every update of a price gives the
      same quantity, that is the quantity. */
  lemma {:induction false} AppliedQuotes(levels: Levels, updates: seq<Level>, p: Price, q: Quantity)
    requires forall i :: 0 <= i < |updates| && updates[i].price == p ==> updates[i].quantity == q
    ensures Quoted(Applied(levels, updates), p) == if Names(updates, p) then q else Quoted(levels, p)
  {
    if updates != [] {
      var n := |updates| - 1;
      AppliedQuotes(levels, updates[..n], p, q);
      if updates[n].price != p {
        assert Names(updates, p) <==> Names(updates[..n], p);
      }
    }
  }

  lemma {:induction false} ListedQuotes(listing: seq<Level>, p: Price, q: Quantity)
    requires forall i :: 0 <= i < |listing| && listing[i].price == p ==> listing[i].quantity == q
    requires q >= 0.0
    ensures Quoted(Listed(listing), p) == if Names(listing, p) then q else 0.0
    ensures p in Listed(listing) ==> Names(listing, p)
  {
    if listing != [] {
      var n := |listing| - 1;
      ListedQuotes(listing[..n], p, q);
      if listing[n].price != p {
        assert Names(listing, p) <==> Names(listing[..n], p);
      }
    }
  }

  // ----- The book -----

  datatype BookState = BookState(bids: Levels, asks: Levels, sequence: Option<int>, initialized: bool)

  const EmptyBook := BookState(map[], map[], None, false)

  datatype Outcome =
    | Done
    | BeforeSnapshot
    | NonMonotonic(expected: int, received: int)

  function DeltaOutcome(b: BookState, sequence: int): Outcome {
    if !b.initialized then BeforeSnapshot
    else if b.sequence.Some? && sequence != b.sequence.value + 1 then NonMonotonic(b.sequence.value + 1, sequence)
    else Done
  }

  function AfterSnapshot(sequence: int, bids: seq<Level>, asks: seq<Level>): BookState {
    BookState(Listed(bids), Listed(asks), Some(sequence), true)
  }

  function AfterDelta(b: BookState, sequence: int, bids: seq<Level>, asks: seq<Level>): BookState {
    if DeltaOutcome(b, sequence).Done?
    then BookState(Applied(b.bids, bids), Applied(b.asks, asks), Some(sequence), b.initialized)
    else b
  }

  class L2OrderBook {
    var bids: Levels
    var asks: Levels
    var sequence: Option<int>
    var initialized: bool

    ghost function View(): BookState
      reads this
    {
      BookState(bids, asks, sequence, initialized)
    }

    constructor ()
      ensures View() == EmptyBook
    {
      bids, asks, sequence, initialized := map[], map[], None, false;
    }

    method Reset()
      modifies this
      ensures View() == EmptyBook
    {
      bids, asks, sequence, initialized := map[], map[], None, false;
    }

    method ApplySnapshot(sequence: int, bids: seq<Level>, asks: seq<Level>)
      modifies this
      ensures View() == AfterSnapshot(sequence, bids, asks)
    {
      this.bids := FromListing(bids);
      this.asks := FromListing(asks);
      this.sequence, this.initialized := Some(sequence), true;
    }

    method FromListing(listing: seq<Level>) returns (levels: Levels)
      ensures levels == Listed(listing)
    {
      levels := map[];
      for i := 0 to |listing|
        invariant levels == Listed(listing[..i])
      {
        assert listing[..i + 1][..i] == listing[..i];
        if listing[i].quantity > 0.0 {
          levels := levels[listing[i].price := listing[i].quantity];
        }
      }
      assert listing[..|listing|] == listing;
    }

    /** The outcome is what the source raises, if anything; a refused delta changes nothing. */
    method ApplyDelta(sequence: int, bids: seq<Level>, asks: seq<Level>) returns (outcome: Outcome)
      modifies this
      ensures outcome == DeltaOutcome(old(View()), sequence)
      ensures View() == AfterDelta(old(View()), sequence, bids, asks)
    {
      if !initialized {
        return BeforeSnapshot;
      }
      if this.sequence.Some? && sequence != this.sequence.value + 1 {
        return NonMonotonic(this.sequence.value + 1, sequence);
      }
      for i := 0 to |bids|
        invariant this.bids == Applied(old(this.bids), bids[..i])
        invariant this.asks == old(this.asks) && this.initialized
      {
        assert bids[..i + 1][..i] == bids[..i];
        if bids[i].quantity == 0.0 {
          this.bids := this.bids - {bids[i].price};
        } else {
          this.bids := this.bids[bids[i].price := bids[i].quantity];
        }
      }
      assert bids[..|bids|] == bids;
      for i := 0 to |asks|
        invariant this.asks == Applied(old(this.asks), asks[..i])
        invariant this.bids == Applied(old(this.bids), bids) && this.initialized
      {
        assert asks[..i + 1][..i] == asks[..i];
        if asks[i].quantity == 0.0 {
          this.asks := this.asks - {asks[i].price};
        } else {
          this.asks := this.asks[asks[i].price := asks[i].quantity];
        }
      }
      assert asks[..|asks|] == asks;
      this.sequence := Some(sequence);
      outcome := Done;
    }
  }
}
