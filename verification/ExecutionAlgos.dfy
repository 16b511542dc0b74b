/** TWAP and VWAP slicing. Quantities are computed in decimal arithmetic: every operation is
    the exact one followed by the context's rounding, which is a parameter here. */
module ExecutionAlgos {
  import opened Types

  type Rounding = real -> real

  /** A slicing algorithm: its schedule, and how far it has come. Only VWAP passes
      over empty slices. */
  datatype Algo = Algo(slices: seq<Quantity>, price: Option<Price>, skipsEmpty: bool,
                       start: int, interval: nat, sent: nat, cancelled: bool)

  function TwapShare(quantity: Quantity, numSlices: nat, round: Rounding): Quantity
    requires numSlices > 0
  {
    round(quantity / numSlices as real)
  }

  function Times(share: Quantity, n: nat): Quantity { share * n as real }

  /** What the last slice is left with. */
  function TwapRest(quantity: Quantity, numSlices: nat, share: Quantity, round: Rounding): Quantity
    requires numSlices > 0
  {
    round(quantity - round(Times(share, numSlices - 1)))
  }

  /** Equal shares, the remainder last. */
  function TwapSlices(numSlices: nat, share: Quantity, rest: Quantity): seq<Quantity> {
    seq(numSlices, i => if i == numSlices - 1 then rest else share)
  }

  /** A bucket's part of the parent, by its weight in the profile. */
  function VwapShare(quantity: Quantity, weight: real, total: real, round: Rounding): Quantity
    requires total > 0.0
  {
    round(quantity * round(weight / total))
  }

  /** The shares of all buckets but the last. */
  function VwapShares(quantity: Quantity, profile: seq<real>, round: Rounding): seq<Quantity>
    requires profile != [] && Sum(profile) > 0.0
  {
    seq(|profile| - 1, i requires 0 <= i < |profile| - 1 => VwapShare(quantity, profile[i], Sum(profile), round))
  }

  /** A running total, rounded at every addition. */
  function RoundedSum(xs: seq<Quantity>, round: Rounding): Quantity {
    if xs == [] then 0.0 else round(RoundedSum(xs[..|xs| - 1], round) + xs[|xs| - 1])
  }

  function VwapSlices(quantity: Quantity, shares: seq<Quantity>, round: Rounding): seq<Quantity> {
    shares + [round(quantity - RoundedSum(shares, round))]
  }

  function NewTwap(quantity: Quantity, numSlices: nat, round: Rounding,
      price: Option<Price>, start: int, interval: nat): Algo
    requires numSlices > 0
  {
    var share := TwapShare(quantity, numSlices, round);
    Algo(TwapSlices(numSlices, share, TwapRest(quantity, numSlices, share, round)), price, false, start, interval, 0, false)
  }

  function NewVwap(quantity: Quantity, profile: seq<real>, round: Rounding,
      price: Option<Price>, start: int, interval: nat): Algo
    requires profile != [] && Sum(profile) > 0.0
  {
    Algo(VwapSlices(quantity, VwapShares(quantity, profile, round), round), price, true, start, interval, 0, false)
  }

  predicate Done(a: Algo) { a.cancelled || a.sent >= |a.slices| }

  function CancelAlgo(a: Algo): Algo { a.(cancelled := true) }

  predicate Due(a: Algo, now: int) { now >= a.start + a.sent * a.interval }

  /** `next_slice`: the algorithm afterwards and the quantity to send now, if any. */
  function NextSlice(a: Algo, now: int): (r: (Algo, Option<Quantity>))
    ensures r.1.Some? ==> r.0.sent > a.sent
    decreases |a.slices| - a.sent
  {
    if Done(a) || !Due(a, now) then (a, None)
    else
      var a' := a.(sent := a.sent + 1);
      var quantity := a.slices[a.sent];
      if a.skipsEmpty && quantity == 0.0 then NextSlice(a', now) else (a', Some(quantity))
  }

  /** What has been handed out so far. */
  function Emitted(a: Algo): Quantity
    requires a.sent <= |a.slices|
  {
    Sum(a.slices[..a.sent])
  }

  predicate WellFormed(a: Algo) {
    a.sent <= |a.slices|
  }

  /** The same schedule at a later point. */
  predicate Continues(a: Algo, a': Algo) {
    a' == a.(sent := a'.sent) && a.sent <= a'.sent <= |a.slices|
  }

  class TwapAlgo {
    const quantity: Quantity
    const numSlices: nat
    const share: Quantity
    const remainder: Quantity
    const price: Option<Price>
    const start: int
    const interval: nat
    var slicesSent: nat
    var cancelled: bool

    ghost function View(): Algo
      reads this
    {
      Algo(TwapSlices(numSlices, share, remainder), price, false, start, interval, slicesSent, cancelled)
    }

    ghost predicate Valid()
      reads this
    {
      slicesSent <= numSlices
    }

    /** The source raises unless the number of slices is positive. */
    constructor (quantity: Quantity, numSlices: nat, round: Rounding,
      price: Option<Price>, start: int, interval: nat)
      requires numSlices > 0
      ensures Valid() && View() == NewTwap(quantity, numSlices, round, price, start, interval)
    {
      this.quantity, this.numSlices := quantity, numSlices;
      var share := TwapShare(quantity, numSlices, round);
      var sentTotal := round(Times(share, numSlices - 1));
      this.share, this.remainder := share, round(quantity - sentTotal);
      this.price, this.start, this.interval := price, start, interval;
      slicesSent, cancelled := 0, false;
    }

    method Next(now: int) returns (slice: Option<Quantity>)
      requires Valid()
      modifies this
      ensures Valid()
      ensures (View(), slice) == NextSlice(old(View()), now)
    {
      if cancelled || slicesSent >= numSlices {
        return None;
      }
      var target := start + slicesSent * interval;
      if now < target {
        return None;
      }
      var isLast := slicesSent == numSlices - 1;
      slice := Some(if isLast then remainder else share);
      slicesSent := slicesSent + 1;
    }

    method Cancel()
      requires Valid()
      modifies this
      ensures Valid() && View() == CancelAlgo(old(View()))
    {
      cancelled := true;
    }
  }

  class VwapAlgo {
    const bucketQtys: seq<Quantity>
    const price: Option<Price>
    const start: int
    const interval: nat
    var bucketsSent: nat
    var cancelled: bool

    ghost function View(): Algo
      reads this
    {
      Algo(bucketQtys, price, true, start, interval, bucketsSent, cancelled)
    }

    /** The source raises unless the profile has a positive total. */
    constructor (quantity: Quantity, profile: seq<real>, round: Rounding,
      price: Option<Price>, start: int, interval: nat)
      requires profile != [] && Sum(profile) > 0.0
      ensures View() == NewVwap(quantity, profile, round, price, start, interval)
    {
      bucketQtys := VwapSlices(quantity, VwapShares(quantity, profile, round), round);
      this.price, this.start, this.interval := price, start, interval;
      bucketsSent, cancelled := 0, false;
    }

    /** Skips empty buckets by recursion; terminates because every call advances. */
    method Next(now: int) returns (slice: Option<Quantity>)
      modifies this
      ensures (View(), slice) == NextSlice(old(View()), now)
      decreases |bucketQtys| - bucketsSent
    {
      if cancelled || bucketsSent >= |bucketQtys| {
        return None;
      }
      var target := start + bucketsSent * interval;
      if now < target {
        return None;
      }
      var qty := bucketQtys[bucketsSent];
      bucketsSent := bucketsSent + 1;
      if qty == 0.0 {
        slice := Next(now);
        return;
      }
      return Some(qty);
    }
  }

  // ----- One poll -----

  lemma {:induction false} SumExtends(xs: seq<Quantity>, k: nat)
    requires k < |xs|
    ensures Sum(xs[..k + 1]) == Sum(xs[..k]) + xs[k]
  {
    assert xs[..k + 1][..k] == xs[..k];
  }

  /** A poll hands out the next nonempty slice of the schedule, never before its time, and
      passes over nothing but empty buckets. It hands out nothing only if the algorithm is
      cancelled, has nothing left, or its next slice is not due. */
  lemma {:induction false} PollFollowsSchedule(a: Algo, now: int)
    requires WellFormed(a)
    ensures var (a', slice) := NextSlice(a, now);
            && WellFormed(a') && Continues(a, a')
            && Emitted(a') == Emitted(a) + (if slice.Some? then slice.value else 0.0)
            && (slice.Some? ==>
                  && a'.sent > a.sent && slice.value == a.slices[a'.sent - 1]
                  && now >= a.start + (a'.sent - 1) * a.interval
                  && (a.skipsEmpty ==> slice.value != 0.0)
                  && forall k :: a.sent <= k < a'.sent - 1 ==> a.slices[k] == 0.0)
            && (slice.None? ==> forall k :: a.sent <= k < a'.sent ==> a.slices[k] == 0.0)
            && (slice.None? ==> a.cancelled || a'.sent == |a.slices| || now < a.start + a'.sent * a.interval)
            && (a.cancelled ==> slice.None? && a' == a)
    decreases |a.slices| - a.sent
  {
    if !Done(a) && Due(a, now) {
      var next := a.(sent := a.sent + 1);
      SumExtends(a.slices, a.sent);
      if a.skipsEmpty && a.slices[a.sent] == 0.0 {
        PollFollowsSchedule(next, now);
      }
    }
  }

  // ----- Whole schedules -----

  lemma {:induction false} SumOfEqualShares(share: Quantity, k: nat)
    ensures Sum(seq(k, _ => share)) == Times(share, k)
    decreases k
  {
    if k > 0 {
      SumOfEqualShares(share, k - 1);
      assert seq(k, _ => share)[..k - 1] == seq(k - 1, _ => share);
      assert share * k as real == share * (k - 1) as real + share;
    }
  }

  /** What rounding adds to an exact result. */
  function Error(x: real, round: Rounding): real { round(x) - x }

  /** What it adds over a running total. */
  function SumError(xs: seq<Quantity>, round: Rounding): real {
    if xs == [] then 0.0
    else
      var n := |xs| - 1;
      SumError(xs[..n], round) + Error(RoundedSum(xs[..n], round) + xs[n], round)
  }

  lemma {:induction false} RoundedSumErrs(xs: seq<Quantity>, round: Rounding)
    ensures RoundedSum(xs, round) == Sum(xs) + SumError(xs, round)
  {
    if xs != [] {
      RoundedSumErrs(xs[..|xs| - 1], round);
    }
  }

  /** The slices add up to the parent quantity exactly when the two operations that make the
      last one, a product and a difference, err alike, in particular when both are exact.
      How the share itself was rounded does not matter. */
  lemma {:induction false} TwapSlicesSumToParent(quantity: Quantity, n: nat, share: Quantity, round: Rounding)
    requires n > 0
    ensures var sentTotal := Times(share, n - 1);
            var slices := TwapSlices(n, share, TwapRest(quantity, n, share, round));
            && Sum(slices) - quantity == Error(quantity - round(sentTotal), round) - Error(sentTotal, round)
            && (Sum(slices) == quantity <==> Error(quantity - round(sentTotal), round) == Error(sentTotal, round))
  {
    var slices := TwapSlices(n, share, TwapRest(quantity, n, share, round));
    SumOfEqualShares(share, n - 1);
    assert slices[..n - 1] == seq(n - 1, _ => share);
  }

  /** The same of VWAP, where the running total of the shares may err at every addition. */
  lemma {:induction false} VwapSlicesSumToParent(quantity: Quantity, shares: seq<Quantity>, round: Rounding)
    ensures var slices := VwapSlices(quantity, shares, round);
            var left := quantity - RoundedSum(shares, round);
            && Sum(slices) - quantity == Error(left, round) - SumError(shares, round)
            && (Sum(slices) == quantity <==> Error(left, round) == SumError(shares, round))
  {
    var slices := VwapSlices(quantity, shares, round);
    assert slices[..|slices| - 1] == shares;
    RoundedSumErrs(shares, round);
  }

  datatype Emission = Emission(slice: nat, at: int, quantity: Quantity)

  /** The slices handed out when the algorithm is polled at the given times. */
  function Polled(a: Algo, times: seq<int>): (Algo, seq<Emission>) {
    if times == [] then (a, []) else PollOnce(Polled(a, times[..|times| - 1]), times[|times| - 1])
  }

  function PollOnce(before: (Algo, seq<Emission>), now: int): (Algo, seq<Emission>) {
    var (a, slice) := NextSlice(before.0, now);
    if slice.Some? then (a, before.1 + [Emission(a.sent - 1, now, slice.value)]) else (a, before.1)
  }

  function EmittedQuantities(es: seq<Emission>): seq<Quantity> {
    seq(|es|, i requires 0 <= i < |es| => es[i].quantity)
  }

  /** The earliest time of slice `k`: each slice one interval after the one before. */
  function DueAt(a: Algo, k: nat): int {
    if k == 0 then a.start else DueAt(a, k - 1) + a.interval
  }

  lemma {:induction false} DueAtIsLinear(a: Algo, k: nat)
    ensures DueAt(a, k) == a.start + k * a.interval
  {
    if k > 0 {
      DueAtIsLinear(a, k - 1);
      assert k * a.interval == (k - 1) * a.interval + a.interval;
    }
  }

  lemma {:induction false} DueAtOfContinuation(a: Algo, a': Algo, k: nat)
    requires Continues(a, a')
    ensures DueAt(a', k) == DueAt(a, k)
  {
    if k > 0 {
      DueAtOfContinuation(a, a', k - 1);
    }
  }

  /** An emission that the schedule of `a` allows. */
  predicate Scheduled(a: Algo, e: Emission) {
    && a.sent <= e.slice < |a.slices|
    && e.quantity == a.slices[e.slice]
    && e.at >= DueAt(a, e.slice)
    && (a.skipsEmpty ==> e.quantity != 0.0)
  }

  ghost predicate FollowsSchedule(a: Algo, es: seq<Emission>) {
    && (forall i :: 0 <= i < |es| ==> Scheduled(a, es[i]))
    && (forall i, j :: 0 <= i < j < |es| ==> es[i].slice < es[j].slice)
  }

  /** What polling from `a` has achieved: the algorithm reached and what went out. */
  ghost predicate PollingSound(a: Algo, reached: (Algo, seq<Emission>)) {
    && WellFormed(reached.0) && Continues(a, reached.0) && FollowsSchedule(a, reached.1)
    && (forall i :: 0 <= i < |reached.1| ==> reached.1[i].slice < reached.0.sent)
    && Emitted(reached.0) == Emitted(a) + Sum(EmittedQuantities(reached.1))
  }

  /** For any polling times: each slice goes out at most once, in order, in full, never
      before start + k * interval, and what went out is exactly the schedule's prefix. */
  lemma {:induction false} AnyPollingFollowsSchedule(a: Algo, times: seq<int>)
    requires WellFormed(a)
    ensures PollingSound(a, Polled(a, times))
    decreases |times|
  {
    if times == [] {
      NothingPolled(a);
    } else {
      var prefix := times[..|times| - 1];
      AnyPollingFollowsSchedule(a, prefix);
      PollExtends(a, Polled(a, prefix), times[|times| - 1]);
    }
  }

  lemma {:induction false} NothingPolled(a: Algo)
    requires WellFormed(a)
    ensures PollingSound(a, (a, []))
  {
    assert EmittedQuantities([]) == [];
  }

  lemma {:induction false} PollExtends(a: Algo, reached: (Algo, seq<Emission>), now: int)
    requires WellFormed(a) && PollingSound(a, reached)
    ensures PollingSound(a, PollOnce(reached, now))
  {
    var (a1, es) := reached;
    PollFollowsSchedule(a1, now);
    var (a2, slice) := NextSlice(a1, now);
    if slice.Some? {
      var e := Emission(a2.sent - 1, now, slice.value);
      EmittedQuantitiesExtend(es, e);
      DueAtIsLinear(a1, e.slice);
      DueAtOfContinuation(a, a1, e.slice);
      FollowsScheduleExtend(a, es, e);
    }
  }

  lemma {:induction false} FollowsScheduleExtend(a: Algo, es: seq<Emission>, e: Emission)
    requires FollowsSchedule(a, es) && Scheduled(a, e)
    requires forall i :: 0 <= i < |es| ==> es[i].slice < e.slice
    ensures FollowsSchedule(a, es + [e])
  {
  }

  lemma {:induction false} EmittedQuantitiesExtend(es: seq<Emission>, e: Emission)
    ensures Sum(EmittedQuantities(es + [e])) == Sum(EmittedQuantities(es)) + e.quantity
  {
    assert EmittedQuantities(es + [e])[..|es|] == EmittedQuantities(es);
  }

  /** An algorithm polled until it has nothing left has sent its parent quantity exactly. */
  lemma {:induction false} CompletedAlgoSendsParentQuantity(a: Algo, times: seq<int>)
    requires a.sent == 0
    requires Polled(a, times).0.sent == |a.slices|
    ensures Sum(EmittedQuantities(Polled(a, times).1)) == Sum(a.slices)
  {
    AnyPollingFollowsSchedule(a, times);
    var a' := Polled(a, times).0;
    assert a'.slices[..a'.sent] == a.slices;
    assert Emitted(a) == 0.0;
  }

  // ----- Nothing is held back -----

  /** No slice is due later than `t`. */
  predicate AllDueBy(a: Algo, t: int) { forall k :: 0 <= k < |a.slices| ==> a.start + k * a.interval <= t }

  /** Polled as often as it has slices, each time when all are due, an algorithm that is not
      cancelled comes to its end. */
  lemma {:induction false} LatePollingCompletes(a: Algo, times: seq<int>)
    requires WellFormed(a) && !a.cancelled && forall i :: 0 <= i < |times| ==> AllDueBy(a, times[i])
    ensures var a' := Polled(a, times).0;
            WellFormed(a') && Continues(a, a') && (a'.sent - a.sent >= |times| || a'.sent == |a.slices|)
    decreases |times|
  {
    if times != [] {
      var n := |times| - 1;
      LatePollingCompletes(a, times[..n]);
      var mid := Polled(a, times[..n]).0;
      assert AllDueBy(a, times[n]);
      PollFollowsSchedule(mid, times[n]);
      var next := NextSlice(mid, times[n]).0;
      if next.sent < |a.slices| {
        assert a.start + next.sent * a.interval <= times[n];
      }
    }
  }

  // ----- The shares of a schedule -----

  ghost predicate Exact(round: Rounding) { forall x :: round(x) == x }

  lemma {:induction false} TimesIsLinear(share: Quantity, n: nat)
    requires n > 0
    ensures Times(share, n - 1) == Times(share, n) - share
  {
    assert share * n as real == share * (n - 1) as real + share;
  }

  /** TWAP: all slices but the last are the rounded n-th of the parent; in exact arithmetic
      all are its n-th. */
  lemma {:induction false} TwapSharesAreEqual(quantity: Quantity, n: nat, round: Rounding, price: Option<Price>, start: int, interval: nat)
    requires n > 0
    ensures var a := NewTwap(quantity, n, round, price, start, interval);
            && |a.slices| == n && a.sent == 0 && a.price == price && !a.skipsEmpty && !a.cancelled
            && (forall k :: 0 <= k < n - 1 ==> a.slices[k] == round(quantity / n as real))
            && (Exact(round) ==> forall k :: 0 <= k < n ==> a.slices[k] == quantity / n as real)
  {
    var share := quantity / n as real;
    if Exact(round) {
      assert round(share) == share && round(Times(share, n - 1)) == Times(share, n - 1);
      TimesIsLinear(share, n);
      assert Times(share, n) == quantity;
      assert round(quantity - Times(share, n - 1)) == share;
    }
  }

  lemma {:induction false} ShareOfWeight(quantity: Quantity, weight: real, total: real)
    requires total > 0.0
    ensures quantity * (weight / total) * total == quantity * weight
  {
    assert weight / total * total == weight;
  }

  lemma {:induction false} SumsInProportion(quantity: Quantity, shares: seq<Quantity>, weights: seq<real>, total: real)
    requires |shares| == |weights| && forall i :: 0 <= i < |shares| ==> InProportion(shares[i], weights[i], quantity, total)
    ensures Sum(shares) * total == quantity * Sum(weights)
  {
    if shares != [] {
      var n := |shares| - 1;
      SumsInProportion(quantity, shares[..n], weights[..n], total);
      assert InProportion(shares[n], weights[n], quantity, total);
      AddProducts(Sum(shares[..n]), shares[n], total);
      AddProducts(Sum(weights[..n]), weights[n], quantity);
    }
  }

  lemma {:induction false} AddProducts(a: real, b: real, c: real)
    ensures (a + b) * c == a * c + b * c
  {
  }

  lemma {:induction false} ExactSumIsSum(xs: seq<Quantity>, round: Rounding)
    requires Exact(round)
    ensures RoundedSum(xs, round) == Sum(xs)
  {
    if xs != [] {
      ExactSumIsSum(xs[..|xs| - 1], round);
    }
  }

  /** VWAP, in exact arithmetic: each slice is to the parent as its weight is to all weights,
      the last one included. */
  lemma {:induction false} VwapSlicesFollowProfile(quantity: Quantity, profile: seq<real>, round: Rounding,
                                                   price: Option<Price>, start: int, interval: nat)
    requires profile != [] && Sum(profile) > 0.0 && Exact(round)
    ensures var a := NewVwap(quantity, profile, round, price, start, interval);
            && |a.slices| == |profile| && a.sent == 0 && a.price == price && a.skipsEmpty && !a.cancelled
            && forall i :: 0 <= i < |profile| ==> InProportion(a.slices[i], profile[i], quantity, Sum(profile))
  {
    var n, total := |profile| - 1, Sum(profile);
    var shares := VwapShares(quantity, profile, round);
    ExactShares(quantity, profile, round);
    ExactLastSlice(quantity, shares, profile, total, round);
    assert NewVwap(quantity, profile, round, price, start, interval).slices == VwapSlices(quantity, shares, round);
  }

  predicate InProportion(slice: Quantity, weight: real, quantity: Quantity, total: real) { slice * total == quantity * weight }

  lemma {:induction false} ExactShares(quantity: Quantity, profile: seq<real>, round: Rounding)
    requires profile != [] && Sum(profile) > 0.0 && Exact(round)
    ensures forall i :: 0 <= i < |profile| - 1 ==>
              InProportion(VwapShares(quantity, profile, round)[i], profile[i], quantity, Sum(profile))
  {
    var total := Sum(profile);
    forall i | 0 <= i < |profile| - 1 ensures InProportion(VwapShares(quantity, profile, round)[i], profile[i], quantity, total) {
      assert round(profile[i] / total) == profile[i] / total;
      ShareOfWeight(quantity, profile[i], total);
    }
  }

  lemma {:induction false} ExactLastSlice(quantity: Quantity, shares: seq<Quantity>, profile: seq<real>, total: real, round: Rounding)
    requires |profile| == |shares| + 1 && total == Sum(profile) && Exact(round)
    requires forall i :: 0 <= i < |shares| ==> InProportion(shares[i], profile[i], quantity, total)
    ensures var slices := VwapSlices(quantity, shares, round);
            |slices| == |profile| && forall i :: 0 <= i < |slices| ==> InProportion(slices[i], profile[i], quantity, total)
  {
    var n := |shares|;
    ExactRest(quantity, shares, profile[..n], profile[n], round);
    assert Sum(profile) == Sum(profile[..n]) + profile[n];
  }

  lemma {:induction false} ExactRest(quantity: Quantity, shares: seq<Quantity>, weights: seq<real>, weight: real, round: Rounding)
    requires |weights| == |shares| && Exact(round)
    requires forall i :: 0 <= i < |shares| ==> InProportion(shares[i], weights[i], quantity, Sum(weights) + weight)
    ensures InProportion(round(quantity - RoundedSum(shares, round)), weight, quantity, Sum(weights) + weight)
  {
    SumsInProportion(quantity, shares, weights, Sum(weights) + weight);
    ExactSumIsSum(shares, round);
    LastInProportion(quantity, Sum(shares), Sum(weights), weight, Sum(weights) + weight);
    assert round(quantity - Sum(shares)) == quantity - Sum(shares);
  }

  lemma {:induction false} LastInProportion(quantity: Quantity, others: Quantity, weights: real, weight: real, total: real)
    requires others * total == quantity * weights && weights + weight == total
    ensures (quantity - others) * total == quantity * weight
  {
    AddProducts(weights, weight, quantity);
    AddProducts(quantity - others, others, total);
  }

  // ----- No overshoot -----

  ghost predicate NeverOvershoots(xs: seq<Quantity>) {
    forall k :: 0 <= k <= |xs| ==> Sum(xs[..k]) <= Sum(xs)
  }

  lemma {:induction false} NonNegativePrefixes(xs: seq<Quantity>, k: nat)
    requires NonNegative(xs) && k <= |xs|
    ensures Sum(xs[..k]) <= Sum(xs)
    decreases |xs|
  {
    var n := |xs|;
    if k == n {
      assert xs[..k] == xs;
    } else {
      NonNegativePrefixes(xs[..n - 1], k);
      assert xs[..n - 1][..k] == xs[..k];
    }
  }

  /** Rounding never changes a sign. */
  ghost predicate KeepsSign(round: Rounding) { forall x :: round(x) >= 0.0 <==> x >= 0.0 }

  /** Nonnegative slices but for the last: the totals stay within the sum of all exactly when
      the last is nonnegative too. */
  lemma {:induction false} OvershootsIffLastNegative(shares: seq<Quantity>, rest: Quantity)
    requires NonNegative(shares)
    ensures NeverOvershoots(shares + [rest]) <==> rest >= 0.0
  {
    var slices := shares + [rest];
    assert slices[..|shares|] == shares && slices[..|slices| - 1] == shares;
    if rest >= 0.0 {
      forall k | 0 <= k <= |slices| ensures Sum(slices[..k]) <= Sum(slices) {
        NonNegativePrefixes(slices, k);
      }
    }
  }

  lemma {:induction false} SharesAreNonNegative(quantity: Quantity, profile: seq<real>, round: Rounding)
    requires quantity > 0.0 && profile != [] && NonNegative(profile) && Sum(profile) > 0.0 && KeepsSign(round)
    ensures NonNegative(VwapShares(quantity, profile, round))
  {
    forall i | 0 <= i < |profile| - 1 ensures VwapShares(quantity, profile, round)[i] >= 0.0 {
      Proportion(quantity, profile[i], Sum(profile), round);
    }
  }

  lemma {:induction false} Proportion(quantity: Quantity, weight: real, total: real, round: Rounding)
    requires quantity > 0.0 && weight >= 0.0 && total > 0.0 && KeepsSign(round)
    ensures VwapShare(quantity, weight, total, round) >= 0.0
  {
    NonNegativeQuotient(weight, total);
    NonNegativeProduct(quantity, round(weight / total));
  }

  lemma {:induction false} NonNegativeQuotient(a: real, b: real)
    requires a >= 0.0 && b > 0.0
    ensures a / b >= 0.0
  {
  }

  lemma {:induction false} NonNegativeProduct(a: real, b: real)
    requires a >= 0.0 && b >= 0.0
    ensures a * b >= 0.0
  {
  }

  /** The running total of a VWAP stays within its whole exactly when the total of its shares
      did not round past the parent. */
  lemma {:induction false} VwapOvershootsIffSharesRoundUp(quantity: Quantity, profile: seq<real>, round: Rounding)
    requires quantity > 0.0 && profile != [] && NonNegative(profile) && Sum(profile) > 0.0 && KeepsSign(round)
    ensures var shares := VwapShares(quantity, profile, round);
            NeverOvershoots(VwapSlices(quantity, shares, round)) <==> RoundedSum(shares, round) <= quantity
  {
    var shares := VwapShares(quantity, profile, round);
    SharesAreNonNegative(quantity, profile, round);
    OvershootsIffLastNegative(shares, round(quantity - RoundedSum(shares, round)));
  }

  /** The same for a TWAP. */
  lemma {:induction false} TwapOvershootsIffSharesRoundUp(quantity: Quantity, n: nat, round: Rounding)
    requires quantity > 0.0 && n > 0 && KeepsSign(round)
    ensures var share := TwapShare(quantity, n, round);
            NeverOvershoots(TwapSlices(n, share, TwapRest(quantity, n, share, round))) <==> round(Times(share, n - 1)) <= quantity
  {
    var share := TwapShare(quantity, n, round);
    var rest := TwapRest(quantity, n, share, round);
    NonNegativeQuotient(quantity, n as real);
    assert TwapSlices(n, share, rest) == seq(n - 1, _ => share) + [rest];
    OvershootsIffLastNegative(seq(n - 1, _ => share), rest);
  }

  // ----- A profile that overshoots -----

  /** To the nearest integer, ties to the even one. */
  function HalfEven(x: real): int {
    var below := x.Floor;
    var part := x - below as real;
    if part < 0.5 || (part == 0.5 && below % 2 == 0) then below else below + 1
  }

  function RoundAt(x: real, unit: real): real
    requires unit > 0.0
  {
    HalfEven(x / unit) as real * unit
  }

  /** The default context's 28 significant digits, for the sizes met below: from a tenth to
      one, and from one to ten. Anything else met there has few digits and stands as it is. */
  function Decimal28(x: real): real {
    var size := if x < 0.0 then -x else x;
    if 0.1 <= size < 1.0 then RoundAt(x, 0.0000000000000000000000000001)
    else if 1.0 <= size < 10.0 then RoundAt(x, UNIT27)
    else x
  }

  const UNIT27: real := 0.000000000000000000000000001
  const SEVENTH: real := 0.1428571428571428571428571429
  const THREE_SEVENTHS: real := 0.4285714285714285714285714287
  const EXCESS: real := 0.000000000000000000000000002

  lemma {:induction false} ShareOfSeven()
    ensures VwapShare(3.0, 1.0, 7.0, Decimal28) == THREE_SEVENTHS
  {
    assert Decimal28(1.0 / 7.0) == SEVENTH;
    assert Decimal28(3.0 * SEVENTH) == THREE_SEVENTHS;
  }

  function Shares(k: nat): seq<Quantity> { seq(k, _ => THREE_SEVENTHS) }

  lemma {:induction false} OneMoreShare(k: nat)
    ensures RoundedSum(Shares(k + 1), Decimal28) == Decimal28(RoundedSum(Shares(k), Decimal28) + THREE_SEVENTHS)
  {
    assert Shares(k + 1)[..k] == Shares(k);
  }

  lemma {:induction false} TwoShares()
    ensures RoundedSum(Shares(2), Decimal28) == 0.8571428571428571428571428574
  {
    OneMoreShare(0);
    assert Decimal28(THREE_SEVENTHS) == THREE_SEVENTHS;
    OneMoreShare(1);
    assert Decimal28(0.4285714285714285714285714287 + THREE_SEVENTHS) == 0.8571428571428571428571428574;
  }

  /** One more addition, from one to ten: the result has 27 decimals. */
  lemma {:induction false} OneMoreShareTo(k: nat, total: real, digits: int)
    requires RoundedSum(Shares(k), Decimal28) == total && 1.0 <= total + THREE_SEVENTHS < 10.0
    requires var apart := total + THREE_SEVENTHS - digits as real * UNIT27; -UNIT27 < 2.0 * apart < UNIT27
    ensures RoundedSum(Shares(k + 1), Decimal28) == digits as real * UNIT27
  {
    OneMoreShare(k);
    var x := total + THREE_SEVENTHS;
    assert digits as real - 0.5 < x / UNIT27 < digits as real + 0.5;
    NearestIs(x / UNIT27, digits);
  }

  lemma {:induction false} NearestIs(x: real, n: int)
    requires n as real - 0.5 < x < n as real + 0.5
    ensures HalfEven(x) == n
  {
  }

  lemma {:induction false} SevenSharesRoundPastThree()
    ensures RoundedSum(Shares(7), Decimal28) == 3.0 + EXCESS
  {
    TwoShares();
    OneMoreShareTo(2, 0.8571428571428571428571428574, 1285714285714285714285714286);
    OneMoreShareTo(3, 1.285714285714285714285714286, 1714285714285714285714285715);
    OneMoreShareTo(4, 1.714285714285714285714285715, 2142857142857142857142857144);
    OneMoreShareTo(5, 2.142857142857142857142857144, 2571428571428571428571428573);
    OneMoreShareTo(6, 2.571428571428571428571428573, 3000000000000000000000000002);
  }

  lemma {:induction false} SeventhsProfile()
    ensures var profile := seq(7, _ => 1.0) + [0.0];
            Sum(profile) == 7.0 && VwapShares(3.0, profile, Decimal28) == Shares(7)
  {
    var ones: seq<real> := seq(7, _ => 1.0);
    SumOfEqualShares(1.0, 7);
    assert (ones + [0.0])[..7] == ones;
    ShareOfSeven();
  }

  /** Seven equal weights and a zero one, quantity three: each share is rounded up in its last
      digit, the running total is rounded up further, and the last bucket is minus two units
      of the 27th decimal. It is not zero, so it is sent; and the slices do not add up to the
      parent. */
  lemma {:induction false} RoundedUpVwapSellsTooMuch()
    ensures Sum(seq(7, _ => 1.0) + [0.0]) == 7.0
    ensures var a := NewVwap(3.0, seq(7, _ => 1.0) + [0.0], Decimal28, None, 0, 1);
            && |a.slices| == 8 && a.slices[7] == -EXCESS
            && NextSlice(a.(sent := 7), 7).1 == Some(-EXCESS)
            && !NeverOvershoots(a.slices)
            && Sum(a.slices) != 3.0
  {
    SeventhsProfile();
    SevenSharesRoundPastThree();
    var slices := VwapSlices(3.0, Shares(7), Decimal28);
    assert slices == Shares(7) + [-EXCESS];
    assert slices[..7] == Shares(7);
    OvershootsIffLastNegative(Shares(7), -EXCESS);
    SumOfEqualShares(THREE_SEVENTHS, 7);
  }
}
