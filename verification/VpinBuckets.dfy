/** VPIN under the tick rule, read off the tape: the k-th bucket is the k-th stretch of volume
    of the bucket's size, whatever prints it was made of. */
module VpinBuckets {
  import opened Types
  import opened Vpin

  datatype Print = Print(price: Price, volume: real)

  /** How the last print counts: as bought after a rise, as sold after a fall, like the one
      before when the price stood, half and half at the start. */
  function Bias(tape: seq<Print>): real
    requires tape != []
  {
    var n := |tape| - 1;
    if n == 0 then 0.5
    else if tape[n].price > tape[n - 1].price then 1.0
    else if tape[n].price < tape[n - 1].price then 0.0
    else Bias(tape[..n])
  }

  function Volume(tape: seq<Print>): real {
    if tape == [] then 0.0 else Volume(tape[..|tape| - 1]) + tape[|tape| - 1].volume
  }

  /** What was bought of the first `x` units traded. */
  function Bought(tape: seq<Print>, x: real): real {
    if tape == [] then 0.0
    else
      var before := tape[..|tape| - 1];
      if x <= Volume(before) then Bought(before, x)
      else Bought(before, Volume(before)) + Part(Bias(tape), x - Volume(before))
  }

  function Between(tape: seq<Print>, from: real, to: real): real { Bought(tape, to) - Bought(tape, from) }

  /** The k-th stretch of `size` units: how far apart bought and sold are, as a share of it. */
  function Imbalance(tape: seq<Print>, size: real, k: nat): real
    requires size > 0.0
  {
    var bought := Between(tape, Full(k, size), Full(k + 1, size));
    Abs(bought - (size - bought)) / size
  }

  // ----- The state as a function of the tape -----

  function TickState(tape: seq<Print>): Classifier {
    if tape == [] then NewTickRule else TickRule(Some(tape[|tape| - 1].price), Bias(tape))
  }

  ghost predicate Follows(s: State, tape: seq<Print>, size: real, rolling: nat) {
    && size > 0.0 && rolling >= 1 && s.classifier == TickState(tape)
    && 0.0 <= s.filled < size && Full(s.completed, size) + s.filled == Volume(tape)
    && s.buy == Between(tape, Full(s.completed, size), Volume(tape)) && s.buy + s.sell == s.filled
    && RecentAre(s.recent, s.completed, tape, size, rolling)
  }

  /** The imbalances of the last `rolling` full stretches. */
  ghost predicate RecentAre(recent: seq<real>, completed: nat, tape: seq<Print>, size: real, rolling: nat)
    requires size > 0.0
  {
    && |recent| == (if completed < rolling then completed else rolling)
    && forall j :: 0 <= j < |recent| ==> recent[j] == Imbalance(tape, size, completed - |recent| + j)
  }

  lemma {:induction false} Last(tape: seq<Print>, p: Print)
    ensures (tape + [p])[..|tape|] == tape && (tape + [p])[|tape|] == p
    ensures Volume(tape + [p]) == Volume(tape) + p.volume
    ensures forall x :: x <= Volume(tape) ==> Bought(tape + [p], x) == Bought(tape, x)
  {
    assert (tape + [p])[..|tape + [p]| - 1] == tape;
  }

  lemma {:induction false} FullIsMonotone(a: nat, b: nat, size: real)
    requires a <= b && size > 0.0
    ensures 0.0 <= Full(a, size) <= Full(b, size)
  {
    if a < b {
      FullIsMonotone(a, b - 1, size);
      OneMoreFull(b - 1, size);
    }
  }

  /** What was traded before stays as it was. */
  lemma {:induction false} ImbalanceStays(tape: seq<Print>, p: Print, size: real, k: nat, completed: nat)
    requires size > 0.0 && k < completed && Full(completed, size) <= Volume(tape)
    ensures Imbalance(tape + [p], size, k) == Imbalance(tape, size, k)
  {
    FullIsMonotone(k, k + 1, size);
    FullIsMonotone(k + 1, completed, size);
    Last(tape, p);
  }

  lemma {:induction false} NextShare(tape: seq<Print>, p: Print)
    ensures Share(TickState(tape), p.price) == (TickState(tape + [p]), Bias(tape + [p]))
  {
    Last(tape, p);
    if tape != [] {
      assert (tape + [p])[|tape| - 1] == tape[|tape| - 1];
    }
  }

  /** What is left of a bucket's account after one more chunk. */
  lemma {:induction false} ChunkIsBought(s: State, tape: seq<Print>, size: real, rolling: nat, price: Price, chunk: real)
    requires Follows(s, tape, size, rolling) && 0.0 < chunk
    ensures var tape' := tape + [Print(price, chunk)];
            s.buy + Part(Bias(tape'), chunk) == Between(tape', Full(s.completed, size), Volume(tape'))
    ensures Part(Bias(tape + [Print(price, chunk)]), chunk) + Part(1.0 - Bias(tape + [Print(price, chunk)]), chunk) == chunk
  {
    var p := Print(price, chunk);
    Last(tape, p);
    PartsAddUp(Bias(tape + [p]), chunk);
    assert Bought(tape + [p], Volume(tape + [p])) == Bought(tape, Volume(tape)) + Part(Bias(tape + [p]), chunk);
  }

  lemma {:induction false} RecentGrow(s: State, tape: seq<Print>, size: real, rolling: nat, p: Print, full: bool)
    requires Follows(s, tape, size, rolling) && p.volume > 0.0
    ensures var tape' := tape + [p];
            if full then RecentAre(Kept(s.recent, Imbalance(tape', size, s.completed), rolling), s.completed + 1, tape', size, rolling)
            else RecentAre(s.recent, s.completed, tape', size, rolling)
  {
    forall k: nat | k < s.completed ensures Imbalance(tape + [p], size, k) == Imbalance(tape, size, k) {
      ImbalanceStays(tape, p, size, k, s.completed);
    }
  }

  lemma {:induction false} ChunkFollows(s: State, tape: seq<Print>, size: real, rolling: nat, price: Price, chunk: real)
    requires Follows(s, tape, size, rolling) && 0.0 < chunk <= size - s.filled
    ensures Follows(AfterChunk(s, size, rolling, price, chunk), tape + [Print(price, chunk)], size, rolling)
  {
    var p := Print(price, chunk);
    var tape' := tape + [p];
    Last(tape, p);
    NextShare(tape, p);
    ChunkIsBought(s, tape, size, rolling, price, chunk);
    RecentGrow(s, tape, size, rolling, p, s.filled + chunk >= size);
    if s.filled + chunk >= size {
      OneMoreFull(s.completed, size);
      assert Full(s.completed + 1, size) == Volume(tape');
    }
  }

  // ----- A print is the sum of its chunks -----

  lemma {:induction false} JoinedPrints(tape: seq<Print>, price: Price, a: real, b: real, x: real)
    requires a >= 0.0 && b >= 0.0
    ensures var two, one := tape + [Print(price, a)] + [Print(price, b)], tape + [Print(price, a + b)];
            Bought(two, x) == Bought(one, x) && Volume(two) == Volume(one) && TickState(two) == TickState(one)
  {
    var p, q := Print(price, a), Print(price, b);
    Last(tape, p);
    Last(tape + [p], q);
    Last(tape, Print(price, a + b));
    JoinedBias(tape, price, a, b);
    var bias := Bias(tape + [p]);
    if x > Volume(tape + [p]) {
      PartsJoin(bias, a, x - Volume(tape + [p]));
    }
  }

  lemma {:induction false} JoinedBias(tape: seq<Print>, price: Price, a: real, b: real)
    ensures Bias(tape + [Print(price, a)] + [Print(price, b)]) == Bias(tape + [Print(price, a)]) == Bias(tape + [Print(price, a + b)])
  {
    Last(tape, Print(price, a));
    Last(tape + [Print(price, a)], Print(price, b));
    Last(tape, Print(price, a + b));
    if tape != [] {
      assert (tape + [Print(price, a)])[|tape| - 1] == (tape + [Print(price, a + b)])[|tape| - 1];
    }
  }

  lemma {:induction false} FollowsJoined(s: State, tape: seq<Print>, size: real, rolling: nat, price: Price, a: real, b: real)
    requires a >= 0.0 && b >= 0.0
    requires Follows(s, tape + [Print(price, a)] + [Print(price, b)], size, rolling)
    ensures Follows(s, tape + [Print(price, a + b)], size, rolling)
  {
    var two, one := tape + [Print(price, a)] + [Print(price, b)], tape + [Print(price, a + b)];
    forall x ensures Bought(two, x) == Bought(one, x) && Volume(two) == Volume(one) && TickState(two) == TickState(one) {
      JoinedPrints(tape, price, a, b, x);
    }
    assert Bought(two, 0.0) == Bought(one, 0.0);
  }

  lemma {:induction false} PouringFollows(s: State, tape: seq<Print>, size: real, rolling: nat, price: Price, volume: real)
    requires Follows(s, tape, size, rolling) && volume > 0.0
    ensures Follows(Poured(s, size, rolling, price, volume), tape + [Print(price, volume)], size, rolling)
    decreases Steps(s.filled, size, volume)
  {
    var chunk := Chunk(s, size, volume);
    StepsShrink(s.filled, size, volume);
    ChunkFollows(s, tape, size, rolling, price, chunk);
    if chunk < volume {
      PouringFollows(AfterChunk(s, size, rolling, price, chunk), tape + [Print(price, chunk)], size, rolling, price, volume - chunk);
      FollowsJoined(Poured(s, size, rolling, price, volume), tape, size, rolling, price, chunk, volume - chunk);
    }
  }

  // ----- Whole tapes -----

  function Fresh(): State { State(NewTickRule, 0.0, 0.0, 0.0, [], 0, None) }

  function AfterPrints(prints: seq<Print>, size: real, rolling: nat): (s: State)
    requires size > 0.0
    ensures 0.0 <= s.filled < size
  {
    if prints == [] then Fresh()
    else
      var n := |prints| - 1;
      Updated(AfterPrints(prints[..n], size, rolling), size, rolling, prints[n].price, prints[n].volume)
  }

  /** Prints without volume leave no trace. */
  function Traded(prints: seq<Print>): seq<Print> {
    if prints == [] then []
    else
      var n := |prints| - 1;
      Traded(prints[..n]) + if prints[n].volume > 0.0 then [prints[n]] else []
  }

  lemma {:induction false} FollowsIgnoresLast(s: State, tape: seq<Print>, size: real, rolling: nat, last: Option<real>)
    requires Follows(s, tape, size, rolling)
    ensures Follows(s.(last := last), tape, size, rolling)
  {
  }

  lemma {:induction false} StateFollowsTape(prints: seq<Print>, size: real, rolling: nat)
    requires size > 0.0 && rolling >= 1
    ensures var s := AfterPrints(prints, size, rolling);
            && Follows(s, Traded(prints), size, rolling)
            && s.last == if s.recent == [] then None else Some(Mean(s.recent))
  {
    if prints == [] {
      assert Full(0, size) == 0.0;
    } else {
      var n := |prints| - 1;
      var p := prints[n];
      var s := AfterPrints(prints[..n], size, rolling);
      StateFollowsTape(prints[..n], size, rolling);
      HistoryNeverEmpties(s, size, rolling, p.price, p.volume);
      var s' := Poured(s, size, rolling, p.price, p.volume);
      if p.volume > 0.0 {
        PouringFollows(s, Traded(prints[..n]), size, rolling, p.price, p.volume);
      } else {
        assert Traded(prints) == Traded(prints[..n]);
      }
      if s'.recent != [] {
        FollowsIgnoresLast(s', Traded(prints), size, rolling, Some(Mean(s'.recent)));
      }
    }
  }

  /** After any prints, the history is the imbalances of the last `rolling` full buckets of the
      tape, counted from its start, and the value reported is their average. */
  lemma {:induction false} ReportedIsMeanImbalance(prints: seq<Print>, size: real, rolling: nat)
    requires size > 0.0 && rolling >= 1
    ensures var s, tape := AfterPrints(prints, size, rolling), Traded(prints);
            var n := |s.recent|;
            && Full(s.completed, size) <= Volume(tape) < Full(s.completed + 1, size)
            && n == (if s.completed < rolling then s.completed else rolling)
            && (forall j :: 0 <= j < n ==> s.recent[j] == Imbalance(tape, size, s.completed - n + j))
            && s.last == if n == 0 then None else Some(Sum(s.recent) / n as real)
  {
    StateFollowsTape(prints, size, rolling);
    OneMoreFull(AfterPrints(prints, size, rolling).completed, size);
  }

  // ----- Bulk classification -----

  /** A distribution that puts a rise above the middle and a fall below it. */
  ghost predicate Leans(cdf: (real, real) -> real) {
    forall dp, variance :: (dp > 0.0 ==> cdf(dp, variance) >= 0.5) && (dp < 0.0 ==> cdf(dp, variance) <= 0.5)
  }

  /** Bulk classification leans with the price: a rise never counts more as sold than as
      bought, nor a fall more as bought. */
  lemma {:induction false} BulkLeansWithPrice(c: Classifier, price: Price)
    requires c.Bulk? && c.previous.Some? && c.previous.value > 0.0 && Leans(c.cdf)
    ensures var (c', share) := Share(c, price);
            && c'.Bulk? && c'.previous == Some(price) && c'.cdf == c.cdf && c'.decay == c.decay
            && (price > c.previous.value ==> share >= 0.5) && (price < c.previous.value ==> share <= 0.5)
            && (c'.variance > 0.0 ==> share == c.cdf(price - c.previous.value, c'.variance))
            && (c'.variance <= 0.0 ==> share == 0.5)
            && c'.variance == c.decay * c.variance + (1.0 - c.decay) * (price - c.previous.value) * (price - c.previous.value)
  {
  }
}
