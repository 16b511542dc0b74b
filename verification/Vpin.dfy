/** Volume-synchronised probability of informed trading: volume is poured into buckets of
    equal size, each classified as bought or sold. */
module Vpin {
  import opened Types

  // ----- Classifiers -----

  /** The tick rule, or bulk classification. The latter's `cdf(dp, var)` stands for the normal
      distribution function at dp / sqrt(var). */
  datatype Classifier =
    | TickRule(previous: Option<Price>, lastSide: real)
    | Bulk(previous: Option<Price>, variance: real, decay: real, cdf: (real, real) -> real)

  ghost predicate Proper(c: Classifier) {
    match c
    case TickRule(previous, side) => 0.0 <= side <= 1.0 && (previous.None? ==> side == 0.5)
    case Bulk(_, _, _, cdf) => forall dp, v :: 0.0 <= cdf(dp, v) <= 1.0
  }

  const NewTickRule := TickRule(None, 0.5)

  /** The classifier after one call, and the share of the volume it calls bought. */
  function Share(c: Classifier, price: Price): (Classifier, real) {
    match c
    case TickRule(previous, side) =>
      if previous.None? then (TickRule(Some(price), side), 0.5)
      else
        var side' := if price > previous.value then 1.0 else if price < previous.value then 0.0 else side;
        (TickRule(Some(price), side'), side')
    case Bulk(previous, variance, decay, cdf) =>
      if previous.None? || previous.value <= 0.0 then (Bulk(Some(price), variance, decay, cdf), 0.5)
      else
        var dp := price - previous.value;
        var variance' := decay * variance + (1.0 - decay) * dp * dp;
        (Bulk(Some(price), variance', decay, cdf), if variance' <= 0.0 then 0.5 else cdf(dp, variance'))
  }

  function Part(share: real, volume: real): real { volume * share }

  /** What `classify` returns: the volume bought and the volume sold. */
  function Classified(c: Classifier, price: Price, volume: real): (Classifier, real, real) {
    var (c', share) := Share(c, price);
    (c', Part(share, volume), Part(1.0 - share, volume))
  }

  lemma {:induction false} PartsAddUp(share: real, volume: real)
    ensures Part(share, volume) + Part(1.0 - share, volume) == volume
    ensures 0.0 <= share <= 1.0 && volume >= 0.0 ==> 0.0 <= Part(share, volume) <= volume
  {
  }

  lemma {:induction false} ClassifiedSplits(c: Classifier, price: Price, volume: real)
    requires Proper(c) && volume >= 0.0
    ensures var (c', buy, sell) := Classified(c, price, volume);
            Proper(c') && buy >= 0.0 && sell >= 0.0 && buy + sell == volume
  {
    var (c', share) := Share(c, price);
    PartsAddUp(share, volume);
    PartsAddUp(1.0 - share, volume);
  }

  // ----- Buckets -----

  /** `completed` counts the buckets ever filled; `recent` keeps the toxicity of the last
      `rolling` of them. */
  datatype State = State(
    classifier: Classifier,
    buy: real,
    sell: real,
    filled: real,
    recent: seq<real>,
    completed: nat,
    last: Option<real>
  )

  function Abs(x: real): real { if x >= 0.0 then x else -x }

  /** A bounded queue drops its oldest entry. */
  function Kept(recent: seq<real>, x: real, rolling: nat): seq<real> {
    var all := recent + [x];
    if |all| > rolling then all[|all| - rolling..] else all
  }

  function AfterChunk(s: State, size: real, rolling: nat, price: Price, chunk: real): State
    requires size > 0.0
  {
    var (c, b, l) := Classified(s.classifier, price, chunk);
    var s1 := s.(classifier := c, buy := s.buy + b, sell := s.sell + l, filled := s.filled + chunk);
    if s1.filled >= size then
      s1.(buy := 0.0, sell := 0.0, filled := 0.0, completed := s1.completed + 1,
          recent := Kept(s1.recent, Abs(s1.buy - s1.sell) / size, rolling))
    else s1
  }

  function Chunk(s: State, size: real, volume: real): real {
    if volume < size - s.filled then volume else size - s.filled
  }

  lemma {:induction false} QuotientIs(x: real, size: real, q: real)
    requires size > 0.0 && x == q * size
    ensures x / size == q
  {
  }

  lemma {:induction false} OneLess(x: real, size: real)
    requires size > 0.0
    ensures (x - size) / size == x / size - 1.0
  {
    var q := x / size;
    Distribute(q, size);
    QuotientIs(x - size, size, q - 1.0);
  }

  lemma {:induction false} Distribute(q: real, size: real)
    ensures (q - 1.0) * size == q * size - size && (q + 1.0) * size == q * size + size
  {
  }

  /** Bounds how often the loop goes round. */
  function Steps(filled: real, size: real, volume: real): nat
    requires size > 0.0 && filled >= 0.0
  {
    if volume <= 0.0 then 0 else (Abs(filled + volume) / size).Floor + 1
  }

  lemma {:induction false} StepsShrink(filled: real, size: real, volume: real)
    requires 0.0 <= filled < size && volume > 0.0
    ensures volume >= size - filled ==> Steps(0.0, size, volume - (size - filled)) < Steps(filled, size, volume)
    ensures 0 < Steps(filled, size, volume)
  {
    if volume >= size - filled {
      OneLess(filled + volume, size);
    }
  }

  /** The loop of `update`. */
  function Poured(s: State, size: real, rolling: nat, price: Price, volume: real): (r: State)
    requires 0.0 <= s.filled < size
    ensures 0.0 <= r.filled < size
    decreases Steps(s.filled, size, volume)
  {
    if volume <= 0.0 then s
    else
      var chunk := Chunk(s, size, volume);
      StepsShrink(s.filled, size, volume);
      Poured(AfterChunk(s, size, rolling, price, chunk), size, rolling, price, volume - chunk)
  }

  function Mean(xs: seq<real>): real
    requires xs != []
  {
    Sum(xs) / |xs| as real
  }

  function Updated(s: State, size: real, rolling: nat, price: Price, volume: real): (r: State)
    requires 0.0 <= s.filled < size
    ensures 0.0 <= r.filled < size
  {
    var s' := Poured(s, size, rolling, price, volume);
    if s'.recent != [] then s'.(last := Some(Mean(s'.recent))) else s'
  }

  // ----- Volume is conserved, and toxicity is a share -----

  predicate Shares(recent: seq<real>) { forall i :: 0 <= i < |recent| ==> 0.0 <= recent[i] <= 1.0 }

  ghost predicate Ok(s: State, size: real, rolling: nat) {
    && Proper(s.classifier) && rolling >= 1
    && s.buy >= 0.0 && s.sell >= 0.0 && s.buy + s.sell == s.filled < size
    && Shares(s.recent) && |s.recent| == (if s.completed < rolling then s.completed else rolling)
    && (s.last.Some? ==> 0.0 <= s.last.value <= 1.0)
  }

  /** Everything fed so far: full buckets and the one being filled. */
  function Fed(s: State, size: real): real { Full(s.completed, size) + s.filled }

  function Full(buckets: nat, size: real): real { buckets as real * size }

  lemma {:induction false} OneMoreFull(buckets: nat, size: real)
    ensures Full(buckets + 1, size) == Full(buckets, size) + size
  {
    Distribute(buckets as real, size);
  }

  lemma {:induction false} ToxicityIsAShare(buy: real, sell: real, size: real)
    requires buy >= 0.0 && sell >= 0.0 && buy + sell == size > 0.0
    ensures 0.0 <= Abs(buy - sell) / size <= 1.0
  {
  }

  lemma {:induction false} ChunkConserves(s: State, size: real, rolling: nat, price: Price, chunk: real)
    requires 0.0 <= s.filled < size && 0.0 < chunk <= size - s.filled
    ensures Fed(AfterChunk(s, size, rolling, price, chunk), size) == Fed(s, size) + chunk
  {
    OneMoreFull(s.completed, size);
  }

  /** The state once the bucket holding `buy` and `sell` is full. */
  function Emptied(s: State, c: Classifier, buy: real, sell: real, size: real, rolling: nat): State
    requires size > 0.0
  {
    State(c, 0.0, 0.0, 0.0, Kept(s.recent, Abs(buy - sell) / size, rolling), s.completed + 1, s.last)
  }

  lemma {:induction false} EmptyingKeeps(s: State, c: Classifier, buy: real, sell: real, size: real, rolling: nat)
    requires Ok(s, size, rolling) && Proper(c)
    requires buy >= 0.0 && sell >= 0.0 && buy + sell == size
    ensures Ok(Emptied(s, c, buy, sell, size, rolling), size, rolling)
  {
    ToxicityIsAShare(buy, sell, size);
  }

  lemma {:induction false} ChunkKeeps(s: State, size: real, rolling: nat, price: Price, chunk: real)
    requires Ok(s, size, rolling) && 0.0 < chunk <= size - s.filled
    ensures Ok(AfterChunk(s, size, rolling, price, chunk), size, rolling)
  {
    ClassifiedSplits(s.classifier, price, chunk);
    var (c, b, l) := Classified(s.classifier, price, chunk);
    if s.filled + chunk >= size {
      EmptyingKeeps(s, c, s.buy + b, s.sell + l, size, rolling);
      assert AfterChunk(s, size, rolling, price, chunk) == Emptied(s, c, s.buy + b, s.sell + l, size, rolling);
    }
  }

  lemma {:induction false} PouringKeeps(s: State, size: real, rolling: nat, price: Price, volume: real)
    requires Ok(s, size, rolling) && volume >= 0.0
    ensures Ok(Poured(s, size, rolling, price, volume), size, rolling)
    ensures Fed(Poured(s, size, rolling, price, volume), size) == Fed(s, size) + volume
    decreases Steps(s.filled, size, volume)
  {
    if volume > 0.0 {
      var chunk := Chunk(s, size, volume);
      StepsShrink(s.filled, size, volume);
      ChunkKeeps(s, size, rolling, price, chunk);
      ChunkConserves(s, size, rolling, price, chunk);
      PouringKeeps(AfterChunk(s, size, rolling, price, chunk), size, rolling, price, volume - chunk);
    }
  }

  lemma {:induction false} SumOfShares(xs: seq<real>)
    requires Shares(xs)
    ensures 0.0 <= Sum(xs) <= |xs| as real
  {
    if xs != [] {
      SumOfShares(xs[..|xs| - 1]);
    }
  }

  lemma {:induction false} MeanOfShares(xs: seq<real>)
    requires xs != [] && Shares(xs)
    ensures 0.0 <= Mean(xs) <= 1.0
  {
    SumOfShares(xs);
    Quotient(Sum(xs), |xs| as real);
  }

  lemma {:induction false} Quotient(a: real, b: real)
    requires 0.0 <= a <= b && b > 0.0
    ensures 0.0 <= a / b <= 1.0
  {
  }

  /** Each update accounts for exactly the volume it was given; what it reports is in [0, 1]. */
  lemma {:induction false} UpdateConservesVolume(s: State, size: real, rolling: nat, price: Price, volume: real)
    requires Ok(s, size, rolling) && volume >= 0.0
    ensures var s' := Updated(s, size, rolling, price, volume);
            Ok(s', size, rolling) && Fed(s', size) == Fed(s, size) + volume
  {
    var s' := Poured(s, size, rolling, price, volume);
    PouringKeeps(s, size, rolling, price, volume);
    if s'.recent != [] {
      MeanOfShares(s'.recent);
      ReportKeeps(s', size, rolling, Mean(s'.recent));
    }
  }

  lemma {:induction false} ReportKeeps(s: State, size: real, rolling: nat, mean: real)
    requires Ok(s, size, rolling) && 0.0 <= mean <= 1.0
    ensures Ok(s.(last := Some(mean)), size, rolling)
    ensures Fed(s.(last := Some(mean)), size) == Fed(s, size)
  {
  }

  // ----- Splitting a print -----

  /** With the tick rule, the first part of a print settles what the rest counts as. */
  lemma {:induction false} TickRuleSettles(c: Classifier, price: Price)
    requires c.TickRule? && Proper(c)
    ensures var (c', share) := Share(c, price); c'.TickRule? && Proper(c') && Share(c', price) == (c', share)
  {
  }

  lemma {:induction false} ChunksJoin(s: State, size: real, rolling: nat, price: Price, a: real, b: real)
    requires Ok(s, size, rolling) && s.classifier.TickRule?
    requires 0.0 < a && 0.0 < b && s.filled + a + b <= size
    ensures AfterChunk(AfterChunk(s, size, rolling, price, a), size, rolling, price, b)
         == AfterChunk(s, size, rolling, price, a + b)
  {
    TickRuleSettles(s.classifier, price);
    var share := Share(s.classifier, price).1;
    PartsJoin(share, a, b);
    PartsJoin(1.0 - share, a, b);
  }

  lemma {:induction false} PartsJoin(share: real, a: real, b: real)
    ensures Part(share, a + b) == Part(share, a) + Part(share, b)
  {
  }

  lemma {:induction false} PouringInParts(s: State, size: real, rolling: nat, price: Price, a: real, b: real)
    requires Ok(s, size, rolling) && s.classifier.TickRule? && a >= 0.0 && b >= 0.0
    ensures Poured(Poured(s, size, rolling, price, a), size, rolling, price, b) == Poured(s, size, rolling, price, a + b)
    decreases Steps(s.filled, size, a)
  {
    if a > 0.0 {
      var chunk := Chunk(s, size, a);
      StepsShrink(s.filled, size, a);
      if a >= size - s.filled {
        ChunkKeeps(s, size, rolling, price, chunk);
        var s1 := AfterChunk(s, size, rolling, price, chunk);
        assert Chunk(s, size, a + b) == chunk;
        PouringInParts(s1, size, rolling, price, a - chunk, b);
        assert (a - chunk) + b == (a + b) - chunk;
      } else {
        PartialThenRest(s, size, rolling, price, a, b);
      }
    }
  }

  lemma {:induction false} PartialThenRest(s: State, size: real, rolling: nat, price: Price, a: real, b: real)
    requires Ok(s, size, rolling) && s.classifier.TickRule? && a > 0.0 && b >= 0.0 && s.filled + a < size
    ensures var s1 := AfterChunk(s, size, rolling, price, a);
            && Poured(s, size, rolling, price, a) == s1 && s1.filled == s.filled + a
            && Poured(s1, size, rolling, price, b) == Poured(s, size, rolling, price, a + b)
  {
    var s1 := AfterChunk(s, size, rolling, price, a);
    assert Poured(s1, size, rolling, price, 0.0) == s1;
    if b > 0.0 {
      var chunk := Chunk(s1, size, b);
      assert Chunk(s, size, a + b) == a + chunk;
      ChunksJoin(s, size, rolling, price, a, chunk);
      assert (a + b) - (a + chunk) == b - chunk;
    }
  }

  lemma {:induction false} ChunkIgnoresLast(s: State, size: real, rolling: nat, price: Price, chunk: real, last: Option<real>)
    requires size > 0.0
    ensures AfterChunk(s.(last := last), size, rolling, price, chunk)
         == AfterChunk(s, size, rolling, price, chunk).(last := last)
  {
  }

  /** What was last reported plays no part in pouring. */
  lemma {:induction false} PouringIgnoresLast(s: State, size: real, rolling: nat, price: Price, volume: real, last: Option<real>)
    requires 0.0 <= s.filled < size
    ensures Poured(s.(last := last), size, rolling, price, volume) == Poured(s, size, rolling, price, volume).(last := last)
    decreases Steps(s.filled, size, volume)
  {
    if volume > 0.0 {
      var chunk := Chunk(s, size, volume);
      StepsShrink(s.filled, size, volume);
      ChunkIgnoresLast(s, size, rolling, price, chunk, last);
      PouringIgnoresLast(AfterChunk(s, size, rolling, price, chunk), size, rolling, price, volume - chunk, last);
    }
  }

  lemma {:induction false} HistoryNeverEmpties(s: State, size: real, rolling: nat, price: Price, volume: real)
    requires 0.0 <= s.filled < size && rolling >= 1
    ensures s.recent != [] ==> Poured(s, size, rolling, price, volume).recent != []
    ensures Poured(s, size, rolling, price, volume).last == s.last
    decreases Steps(s.filled, size, volume)
  {
    if volume > 0.0 {
      var chunk := Chunk(s, size, volume);
      StepsShrink(s.filled, size, volume);
      HistoryNeverEmpties(AfterChunk(s, size, rolling, price, chunk), size, rolling, price, volume - chunk);
    }
  }

  lemma {:induction false} UpdatesJoin(s: State, size: real, rolling: nat, price: Price, a: real, b: real)
    requires Ok(s, size, rolling) && s.classifier.TickRule? && a >= 0.0 && b >= 0.0
    ensures Updated(Updated(s, size, rolling, price, a), size, rolling, price, b) == Updated(s, size, rolling, price, a + b)
  {
    PouringInParts(s, size, rolling, price, a, b);
    var s1 := Poured(s, size, rolling, price, a);
    HistoryNeverEmpties(s, size, rolling, price, a);
    HistoryNeverEmpties(s1, size, rolling, price, b);
    if s1.recent != [] {
      PouringIgnoresLast(s1, size, rolling, price, b, Some(Mean(s1.recent)));
    }
  }

  function UpdatedByEach(s: State, size: real, rolling: nat, price: Price, parts: seq<real>): (r: State)
    requires 0.0 <= s.filled < size
    ensures 0.0 <= r.filled < size
  {
    if parts == [] then s
    else
      var n := |parts| - 1;
      Updated(UpdatedByEach(s, size, rolling, price, parts[..n]), size, rolling, price, parts[n])
  }

  lemma {:induction false} SumIsNonNegative(parts: seq<real>)
    requires NonNegative(parts)
    ensures Sum(parts) >= 0.0
  {
    if parts != [] {
      SumIsNonNegative(parts[..|parts| - 1]);
    }
  }

  /** With the tick rule, reporting one print in several parts at its price gives the same
      state, history and reported value as reporting it whole. */
  lemma {:induction false} SplitPrintsCountTheSame(s: State, size: real, rolling: nat, price: Price, parts: seq<real>)
    requires Ok(s, size, rolling) && s.classifier.TickRule? && parts != [] && NonNegative(parts)
    ensures UpdatedByEach(s, size, rolling, price, parts) == Updated(s, size, rolling, price, Sum(parts))
  {
    var n := |parts| - 1;
    var before := parts[..n];
    if before == [] {
      assert UpdatedByEach(s, size, rolling, price, before) == s && Sum(before) == 0.0;
    } else {
      SplitPrintsCountTheSame(s, size, rolling, price, before);
      SumIsNonNegative(before);
      UpdatesJoin(s, size, rolling, price, Sum(before), parts[n]);
    }
  }

  // ----- In place -----

  class VPIN {
    const bucketVolume: real
    const rollingBuckets: nat
    var classifier: Classifier
    var bucketBuy: real
    var bucketSell: real
    var bucketFilled: real
    var bucketHistory: seq<real>
    var last: Option<real>
    ghost var completed: nat

    ghost function View(): State
      reads this
    {
      State(classifier, bucketBuy, bucketSell, bucketFilled, bucketHistory, completed, last)
    }

    ghost predicate Valid()
      reads this
    {
      Ok(View(), bucketVolume, rollingBuckets)
    }

    /** The source raises unless both sizes are positive. */
    constructor (bucketVolume: real, rollingBuckets: nat, classifier: Classifier)
      requires bucketVolume > 0.0 && rollingBuckets >= 1 && Proper(classifier)
      ensures Valid() && View() == State(classifier, 0.0, 0.0, 0.0, [], 0, None)
      ensures this.bucketVolume == bucketVolume && this.rollingBuckets == rollingBuckets
    {
      this.bucketVolume, this.rollingBuckets, this.classifier := bucketVolume, rollingBuckets, classifier;
      bucketBuy, bucketSell, bucketFilled, bucketHistory, last, completed := 0.0, 0.0, 0.0, [], None, 0;
    }

    method Update(price: Price, volume: real) returns (value: Option<real>)
      requires Valid() && volume >= 0.0
      modifies this
      ensures Valid() && View() == Updated(old(View()), bucketVolume, rollingBuckets, price, volume)
      ensures value == last
      ensures Fed(View(), bucketVolume) == Fed(old(View()), bucketVolume) + volume
    {
      UpdateConservesVolume(View(), bucketVolume, rollingBuckets, price, volume);
      var remaining := volume;
      while remaining > 0.0
        invariant Valid() && remaining >= 0.0
        invariant Poured(View(), bucketVolume, rollingBuckets, price, remaining)
               == Poured(old(View()), bucketVolume, rollingBuckets, price, volume)
        decreases Steps(bucketFilled, bucketVolume, remaining)
      {
        StepsShrink(bucketFilled, bucketVolume, remaining);
        remaining := PourChunk(price, remaining);
      }
      if bucketHistory != [] {
        last := Some(Mean(bucketHistory));
      }
      value := last;
    }

    /** One round of the loop. */
    method PourChunk(price: Price, remaining: real) returns (left: real)
      requires Valid() && remaining > 0.0
      modifies this
      ensures var chunk := Chunk(old(View()), bucketVolume, remaining);
              View() == AfterChunk(old(View()), bucketVolume, rollingBuckets, price, chunk) && left == remaining - chunk
      ensures Valid()
    {
      var space := bucketVolume - bucketFilled;
      var chunk := if remaining < space then remaining else space;
      ChunkKeeps(View(), bucketVolume, rollingBuckets, price, chunk);
      var (c, buy, sell) := Classified(classifier, price, chunk);
      classifier := c;
      bucketBuy := bucketBuy + buy;
      bucketSell := bucketSell + sell;
      bucketFilled := bucketFilled + chunk;
      if bucketFilled >= bucketVolume {
        var toxicity := Abs(bucketBuy - bucketSell) / bucketVolume;
        bucketHistory := Kept(bucketHistory, toxicity, rollingBuckets);
        bucketBuy, bucketSell, bucketFilled := 0.0, 0.0, 0.0;
        completed := completed + 1;
      }
      left := remaining - chunk;
    }
  }
}
