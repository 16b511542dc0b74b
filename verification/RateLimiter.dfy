/** A token bucket: what it has granted by any time, over any interval. */
module RateLimiter {
  import opened Types

  /** `rate` is in tokens per second, times are in nanoseconds. */
  datatype Bucket = Bucket(capacity: real, rate: real, tokens: real, lastNs: int)

  /** What `rate` earns from one time to another. */
  function Earned(rate: real, from: int, to: int): real {
    (to - from) as real / NS_PER_SECOND as real * rate
  }

  lemma {:induction false} EarnedAddsUp(rate: real, a: int, b: int, c: int)
    ensures Earned(rate, a, b) + Earned(rate, b, c) == Earned(rate, a, c)
    ensures rate > 0.0 && a <= b ==> Earned(rate, a, b) >= 0.0
    ensures Earned(rate, a, a) == 0.0
  {
    Join((b - a) as real / NS_PER_SECOND as real, (c - b) as real / NS_PER_SECOND as real, rate);
  }

  lemma {:induction false} Join(x: real, y: real, rate: real)
    ensures x * rate + y * rate == (x + y) * rate
    ensures x >= 0.0 && rate > 0.0 ==> x * rate >= 0.0
  {
  }

  function Min(a: real, b: real): real { if a < b then a else b }

  function Refilled(b: Bucket, now: int): Bucket {
    if now <= b.lastNs then b
    else b.(tokens := Min(b.capacity, b.tokens + Earned(b.rate, b.lastNs, now)), lastNs := now)
  }

  /** `try_acquire` for a positive cost: the bucket after it, and whether it was granted. */
  function Tried(b: Bucket, now: int, cost: real): (Bucket, bool) {
    var r := Refilled(b, now);
    if r.tokens >= cost then (r.(tokens := r.tokens - cost), true) else (r, false)
  }

  predicate Ok(b: Bucket) {
    b.capacity > 0.0 && b.rate > 0.0 && 0.0 <= b.tokens <= b.capacity
  }

  lemma {:induction false} RefillKeepsOk(b: Bucket, now: int)
    requires Ok(b)
    ensures Ok(Refilled(b, now)) && Refilled(b, now).tokens >= b.tokens
  {
    EarnedAddsUp(b.rate, b.lastNs, now, now);
  }

  /** A clock that stands or goes back earns nothing and loses nothing. */
  lemma {:induction false} BackwardClockEarnsNothing(b: Bucket, now: int, cost: real)
    requires now <= b.lastNs
    ensures Tried(b, now, cost) == if b.tokens >= cost then (b.(tokens := b.tokens - cost), true) else (b, false)
  {
  }

  // ----- Runs -----

  /** One attempt to take `cost` tokens. */
  datatype Attempt = Attempt(at: int, cost: real)

  function After(start: Bucket, attempts: seq<Attempt>): Bucket {
    if attempts == [] then start
    else
      var a := attempts[|attempts| - 1];
      Tried(After(start, attempts[..|attempts| - 1]), a.at, a.cost).0
  }

  predicate Granted(start: Bucket, attempts: seq<Attempt>, k: nat)
    requires k < |attempts|
  {
    Tried(After(start, attempts[..k]), attempts[k].at, attempts[k].cost).1
  }

  /** The cost granted to attempts i..k. */
  function Taken(start: Bucket, attempts: seq<Attempt>, i: nat, k: nat): real
    requires i <= k <= |attempts|
    decreases k
  {
    if i == k then 0.0
    else Taken(start, attempts, i, k - 1) + if Granted(start, attempts, k - 1) then attempts[k - 1].cost else 0.0
  }

  /** The clock does not go back, and costs are positive. */
  predicate Orderly(start: Bucket, attempts: seq<Attempt>) {
    && (forall i :: 0 <= i < |attempts| ==> attempts[i].at >= start.lastNs && attempts[i].cost > 0.0)
    && (forall i, j :: 0 <= i < j < |attempts| ==> attempts[i].at <= attempts[j].at)
  }

  /** What attempt k finds in the bucket. */
  function Found(start: Bucket, attempts: seq<Attempt>, k: nat): real
    requires k < |attempts|
  {
    Refilled(After(start, attempts[..k]), attempts[k].at).tokens
  }

  /** What the interval from attempt i to attempt k leaves for attempt k: a full bucket and
      what was earned since, less what was granted. */
  function Room(start: Bucket, attempts: seq<Attempt>, i: nat, k: nat): real
    requires i <= k < |attempts|
  {
    start.capacity + Earned(start.rate, attempts[i].at, attempts[k].at) - Taken(start, attempts, i, k)
  }

  /** What the whole run leaves for attempt k, starting from the initial tokens. */
  function InitialRoom(start: Bucket, attempts: seq<Attempt>, k: nat): real
    requires k < |attempts|
  {
    start.tokens + Earned(start.rate, start.lastNs, attempts[k].at) - Taken(start, attempts, 0, k)
  }

  /** Between attempts k and k + 1: what was earned, less what attempt k took. */
  function Change(start: Bucket, attempts: seq<Attempt>, k: nat): real
    requires k + 1 < |attempts|
  {
    Earned(start.rate, attempts[k].at, attempts[k + 1].at) - Taken(start, attempts, k, k + 1)
  }

  lemma {:induction false} RoomForOne(start: Bucket, attempts: seq<Attempt>, k: nat)
    requires k < |attempts|
    ensures Room(start, attempts, k, k) == start.capacity
  {
    EarnedAddsUp(start.rate, attempts[k].at, attempts[k].at, attempts[k].at);
  }

  lemma {:induction false} AfterKeeps(start: Bucket, attempts: seq<Attempt>)
    requires Ok(start) && Orderly(start, attempts)
    ensures var b := After(start, attempts);
            && Ok(b) && b.capacity == start.capacity && b.rate == start.rate
            && b.lastNs == if attempts == [] then start.lastNs else attempts[|attempts| - 1].at
  {
    if attempts != [] {
      var n := |attempts| - 1;
      AfterKeeps(start, attempts[..n]);
      RefillKeepsOk(After(start, attempts[..n]), attempts[n].at);
    }
  }

  /** What attempt k + 1 finds, from what attempt k found. */
  lemma {:induction false} FoundNext(start: Bucket, attempts: seq<Attempt>, k: nat)
    requires Ok(start) && Orderly(start, attempts) && k + 1 < |attempts|
    ensures Found(start, attempts, k + 1) ==
              Min(start.capacity, Found(start, attempts, k) + Change(start, attempts, k))
  {
    assert attempts[..k + 1][..k] == attempts[..k];
    AfterKeeps(start, attempts[..k]);
    AfterKeeps(start, attempts[..k + 1]);
    var b := After(start, attempts[..k + 1]);
    assert b.tokens == Found(start, attempts, k) - Taken(start, attempts, k, k + 1) && b.lastNs == attempts[k].at;
    EarnedAddsUp(start.rate, attempts[k].at, attempts[k].at, attempts[k].at);
  }

  lemma {:induction false} TakenSplits(start: Bucket, attempts: seq<Attempt>, i: nat, j: nat, k: nat)
    requires i <= j <= k <= |attempts|
    ensures Taken(start, attempts, i, j) + Taken(start, attempts, j, k) == Taken(start, attempts, i, k)
    decreases k
  {
    if j < k {
      TakenSplits(start, attempts, i, j, k - 1);
    }
  }

  lemma {:induction false} RoomNext(start: Bucket, attempts: seq<Attempt>, i: nat, k: nat)
    requires i <= k && k + 1 < |attempts|
    ensures Room(start, attempts, i, k + 1) ==
            Room(start, attempts, i, k) + Change(start, attempts, k)
  {
    TakenSplits(start, attempts, i, k, k + 1);
    EarnedAddsUp(start.rate, attempts[i].at, attempts[k].at, attempts[k + 1].at);
  }

  lemma {:induction false} InitialRoomNext(start: Bucket, attempts: seq<Attempt>, k: nat)
    requires k + 1 < |attempts|
    ensures InitialRoom(start, attempts, k + 1) ==
            InitialRoom(start, attempts, k) + Change(start, attempts, k)
  {
    TakenSplits(start, attempts, 0, k, k + 1);
    EarnedAddsUp(start.rate, start.lastNs, attempts[k].at, attempts[k + 1].at);
  }

  /** The bucket holds exactly the least room that any interval ending now leaves. */
  ghost predicate IsLeastRoom(start: Bucket, attempts: seq<Attempt>, k: nat)
    requires k < |attempts|
  {
    var found := Found(start, attempts, k);
    && found <= InitialRoom(start, attempts, k)
    && (forall i :: 0 <= i <= k ==> found <= Room(start, attempts, i, k))
    && (found == InitialRoom(start, attempts, k) || exists i :: 0 <= i <= k && found == Room(start, attempts, i, k))
  }

  /** From one attempt to the next, everything drops by what was granted and gains what was
      earned, and the bucket is cut off at its capacity. */
  lemma {:induction false} LeastRoomNext(start: Bucket, attempts: seq<Attempt>, k: nat, change: real)
    requires k + 1 < |attempts| && IsLeastRoom(start, attempts, k)
    requires Found(start, attempts, k + 1) == Min(start.capacity, Found(start, attempts, k) + change)
    requires InitialRoom(start, attempts, k + 1) == InitialRoom(start, attempts, k) + change
    requires forall i :: 0 <= i <= k ==> Room(start, attempts, i, k + 1) == Room(start, attempts, i, k) + change
    requires Room(start, attempts, k + 1, k + 1) == start.capacity
    ensures IsLeastRoom(start, attempts, k + 1)
  {
    var found := Found(start, attempts, k);
    if found + change < start.capacity && found != InitialRoom(start, attempts, k) {
      var i :| 0 <= i <= k && found == Room(start, attempts, i, k);
      assert Found(start, attempts, k + 1) == Room(start, attempts, i, k + 1);
    }
    if found + change >= start.capacity {
      assert Found(start, attempts, k + 1) == Room(start, attempts, k + 1, k + 1);
    }
    var next := k + 1;
    forall i | 0 <= i <= k ensures found + change <= Room(start, attempts, i, next) {
      assert found <= Room(start, attempts, i, k);
    }
  }

  lemma {:induction false} LeastRoomFirst(start: Bucket, attempts: seq<Attempt>)
    requires Ok(start) && Orderly(start, attempts) && attempts != []
    ensures IsLeastRoom(start, attempts, 0)
  {
    assert attempts[..0] == [];
    EarnedAddsUp(start.rate, start.lastNs, start.lastNs, start.lastNs);
    RoomForOne(start, attempts, 0);
  }

  lemma {:induction false} TokensAreTheLeastRoom(start: Bucket, attempts: seq<Attempt>, k: nat)
    requires Ok(start) && Orderly(start, attempts) && k < |attempts|
    ensures IsLeastRoom(start, attempts, k)
  {
    if k == 0 {
      LeastRoomFirst(start, attempts);
    } else {
      TokensAreTheLeastRoom(start, attempts, k - 1);
      FoundNext(start, attempts, k - 1);
      InitialRoomNext(start, attempts, k - 1);
      var change := Change(start, attempts, k - 1);
      forall i | 0 <= i <= k - 1 ensures Room(start, attempts, i, k) == Room(start, attempts, i, k - 1) + change {
        RoomNext(start, attempts, i, k - 1);
      }
      RoomForOne(start, attempts, k);
      LeastRoomNext(start, attempts, k - 1, change);
    }
  }

  /** A request is granted exactly when no interval ending with it then exceeds a full bucket
      and what was earned meanwhile, nor the whole run the initial tokens and what was earned. */
  lemma {:induction false} GrantedIffEveryIntervalFits(start: Bucket, attempts: seq<Attempt>, k: nat)
    requires Ok(start) && Orderly(start, attempts) && k < |attempts|
    ensures Granted(start, attempts, k) <==>
              && attempts[k].cost <= InitialRoom(start, attempts, k)
              && (forall i :: 0 <= i <= k ==> attempts[k].cost <= Room(start, attempts, i, k))
  {
    TokensAreTheLeastRoom(start, attempts, k);
  }

  /** Over any interval at most a full bucket and what was earned is granted. */
  lemma {:induction false} IntervalsAreBounded(start: Bucket, attempts: seq<Attempt>, i: nat, k: nat)
    requires Ok(start) && Orderly(start, attempts) && i <= k < |attempts|
    ensures Taken(start, attempts, i, k + 1) <= start.capacity + Earned(start.rate, attempts[i].at, attempts[k].at)
  {
    if Granted(start, attempts, k) {
      GrantedIffEveryIntervalFits(start, attempts, k);
      assert attempts[k].cost <= Room(start, attempts, i, k);
    } else if i == k {
      EarnedAddsUp(start.rate, attempts[k].at, attempts[k].at, attempts[k].at);
    } else {
      IntervalsAreBounded(start, attempts, i, k - 1);
      EarnedAddsUp(start.rate, attempts[i].at, attempts[k - 1].at, attempts[k].at);
      EarnedAddsUp(start.rate, attempts[k - 1].at, attempts[k].at, attempts[k].at);
    }
  }

  // ----- Waiting -----

  /** The source's wait, in seconds, when the bucket holds too little. */
  function WaitFor(b: Bucket, cost: real): real
    requires b.rate > 0.0
  {
    (cost - b.tokens) / b.rate
  }

  /** With nobody else taking tokens, there is enough exactly once that long has passed. */
  lemma {:induction false} OneWaitIsEnough(b: Bucket, cost: real, now: int)
    requires Ok(b) && b.tokens < cost <= b.capacity
    ensures Refilled(b, now).tokens >= cost <==> (now - b.lastNs) as real / NS_PER_SECOND as real >= WaitFor(b, cost)
  {
    var elapsed := (now - b.lastNs) as real / NS_PER_SECOND as real;
    var wait := WaitFor(b, cost);
    Undo(cost - b.tokens, b.rate);
    if elapsed >= wait {
      Scale(wait, elapsed, b.rate);
    } else {
      ScaleStrictly(elapsed, wait, b.rate);
    }
  }

  lemma {:induction false} ScaleStrictly(x: real, y: real, rate: real)
    requires x < y && rate > 0.0
    ensures x * rate < y * rate
  {
  }

  lemma {:induction false} Scale(x: real, y: real, rate: real)
    requires x <= y && rate > 0.0
    ensures x * rate <= y * rate
  {
  }

  lemma {:induction false} Undo(x: real, rate: real)
    requires rate > 0.0
    ensures x / rate * rate == x
    ensures x > 0.0 ==> x / rate > 0.0
  {
  }

  // ----- In place -----

  datatype Outcome = Acquired | BadCost | TooDear

  class RateLimiter {
    const capacity: real
    const refillPerSec: real
    var tokens: real
    var lastNs: int

    ghost function View(): Bucket
      reads this
    {
      Bucket(capacity, refillPerSec, tokens, lastNs)
    }

    /** The source raises unless capacity and rate are positive. */
    constructor (capacity: real, refillPerSecond: real, initialTokens: Option<real>, now: int)
      requires capacity > 0.0 && refillPerSecond > 0.0 && (initialTokens.Some? ==> initialTokens.value >= 0.0)
      ensures Ok(View()) && this.capacity == capacity && refillPerSec == refillPerSecond && lastNs == now
      ensures tokens == if initialTokens.None? then capacity else Min(initialTokens.value, capacity)
    {
      this.capacity, refillPerSec, lastNs := capacity, refillPerSecond, now;
      tokens := if initialTokens.None? then capacity else Min(initialTokens.value, capacity);
    }

    method Refill(now: int)
      requires Ok(View())
      modifies this
      ensures Ok(View()) && View() == Refilled(old(View()), now)
    {
      RefillKeepsOk(View(), now);
      if now <= lastNs {
        return;
      }
      tokens := Min(capacity, tokens + Earned(refillPerSec, lastNs, now));
      lastNs := now;
    }

    /** None is the error the source raises. */
    method TryAcquire(cost: real, now: int) returns (granted: Option<bool>)
      requires Ok(View())
      modifies this
      ensures Ok(View())
      ensures cost <= 0.0 ==> granted.None? && View() == old(View())
      ensures cost > 0.0 ==>
                granted.Some? && (View(), granted.value) == Tried(old(View()), now, cost)
    {
      if cost <= 0.0 {
        return None;
      }
      Refill(now);
      if tokens >= cost {
        tokens := tokens - cost;
        return Some(true);
      }
      granted := Some(false);
    }

    /** `sleep` says when the clock stands after a wait that began at a given time; nobody
        else takes tokens meanwhile. */
    method Acquire(cost: real, now: int, sleep: (int, real) -> int) returns (outcome: Outcome, waits: nat, at: int)
      requires Ok(View()) && lastNs <= now
      requires forall t, wait :: SleepsLongEnough(sleep, t, wait)
      modifies this
      ensures Ok(View())
      ensures outcome == if cost <= 0.0 then BadCost else if cost > capacity then TooDear else Acquired
      ensures outcome.Acquired? ==> waits <= 1 && (View(), true) == Tried(old(View()), at, cost)
      ensures outcome.Acquired? ==> (waits == 0 <==> Tried(old(View()), now, cost).1)
      ensures !outcome.Acquired? ==> View() == old(View())
    {
      waits, at := 0, now;
      if cost <= 0.0 {
        return BadCost, waits, at;
      }
      if cost > capacity {
        return TooDear, waits, at;
      }
      while true
        invariant waits <= 1 && Ok(View()) && lastNs <= at
        invariant waits == 0 ==> View() == old(View()) && at == now
        invariant waits == 1 ==> Refilled(View(), at).tokens >= cost && !Tried(old(View()), now, cost).1
        invariant Refilled(View(), at) == Refilled(old(View()), at)
        decreases 1 - waits
      {
        Refill(at);
        if tokens >= cost {
          tokens := tokens - cost;
          return Acquired, waits, at;
        }
        var wait := (cost - tokens) / refillPerSec;
        Undo(cost - tokens, refillPerSec);
        assert SleepsLongEnough(sleep, at, wait);
        OneWaitIsEnough(View(), cost, sleep(at, wait));
        RefillTwice(old(View()), at, sleep(at, wait));
        waits, at := waits + 1, sleep(at, wait);
      }
    }
  }

  predicate SleepsLongEnough(sleep: (int, real) -> int, t: int, wait: real) {
    wait > 0.0 ==> t <= sleep(t, wait) && (sleep(t, wait) - t) as real / NS_PER_SECOND as real >= wait
  }

  lemma {:induction false} RefillTwice(b: Bucket, t: int, later: int)
    requires Ok(b) && b.lastNs <= t <= later
    ensures Refilled(Refilled(b, t), later) == Refilled(b, later)
  {
    EarnedAddsUp(b.rate, b.lastNs, t, later);
    EarnedAddsUp(b.rate, t, later, later);
    EarnedAddsUp(b.rate, b.lastNs, t, t);
  }
}
