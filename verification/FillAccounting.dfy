/** Fill accounting over whole delivery histories: duplicated, reordered and late fills. */
module FillAccounting {
  import opened Types
  import opened StateMachine
  import opened Orders

  /** Everything that can happen to one order inside the OMS. */
  datatype OrderEvent =
    | Respond(response: Response)
    | Deliver(fill: Fill)
    | RequestCancel(now: int)
    | RequestAmend(amend: Amend, now: int)
    | SweepAt(now: int, timeout: int)

  function OrderStep(o: OrderState, e: OrderEvent): OrderState {
    match e
    case Respond(r) => Handled(o, r)
    case Deliver(f) => Filling(o, f)
    case RequestCancel(now) => CancelSent(o, now)
    case RequestAmend(amend, now) => AmendSent(o, amend, now)
    case SweepAt(now, timeout) => Swept(o, now, timeout)
  }

  function OrderRun(o: OrderState, es: seq<OrderEvent>): OrderState {
    if es == [] then o else OrderStep(OrderRun(o, es[..|es| - 1]), es[|es| - 1])
  }

  function Delivered(es: seq<OrderEvent>): seq<Fill> {
    if es == [] then []
    else Delivered(es[..|es| - 1]) + if es[|es| - 1].Deliver? then [es[|es| - 1].fill] else []
  }

  // ----- The reference: sums over the distinct fills -----

  function Ids(fs: seq<Fill>): set<FillId> { set f | f in fs :: f.id }

  /** The fills with repeated ids dropped, the first delivery kept. */
  function Distinct(fs: seq<Fill>): seq<Fill> {
    if fs == [] then []
    else
      var d := Distinct(fs[..|fs| - 1]);
      if fs[|fs| - 1].id in Ids(d) then d else d + [fs[|fs| - 1]]
  }

  function QuantityOf(f: Fill): real { f.quantity }

  function Product(a: real, b: real): real { a * b }

  function CostOf(f: Fill): real { f.price * f.quantity }

  function Total(fs: seq<Fill>, weight: Fill -> real): real {
    if fs == [] then 0.0 else Total(fs[..|fs| - 1], weight) + weight(fs[|fs| - 1])
  }

  ghost predicate Positive(fs: seq<Fill>) { forall f :: f in fs ==> f.quantity > 0.0 }

  /** The same fill id always carries the same fill. */
  ghost predicate Consistent(fs: seq<Fill>) {
    forall f, g :: f in fs && g in fs && f.id == g.id ==> f == g
  }

  ghost predicate NoDuplicateIds(fs: seq<Fill>) {
    forall i, j :: 0 <= i < j < |fs| ==> fs[i].id != fs[j].id
  }

  ghost predicate Accounts(o: OrderState, fs: seq<Fill>) {
    && o.applied == Ids(fs)
    && o.filled == Total(fs, QuantityOf)
    && Product(o.average, o.filled) == Total(fs, CostOf)
    && (fs == [] ==> o.average == 0.0)
  }

  predicate Unfilled(o: OrderState) {
    o.filled == 0.0 && o.average == 0.0 && o.applied == {}
  }

  // ----- Main results -----

  /** Whatever cancels, amends, rejects, acks and timeouts are interleaved, and however
      often each fill is delivered, even after the order is terminal: the cumulative
      quantity is the sum over distinct fills, and average times cumulative is their
      total cost. */
  lemma {:induction false} AccountingIsTheSumOfDistinctFills(o: OrderState, es: seq<OrderEvent>)
    requires Unfilled(o) && Positive(Delivered(es))
    ensures Accounts(OrderRun(o, es), Distinct(Delivered(es)))
    decreases |es|
  {
    if es != [] {
      var n := |es| - 1;
      DeliveredPrefixPositive(es);
      AccountingIsTheSumOfDistinctFills(o, es[..n]);
      StepKeepsAccounts(OrderRun(o, es[..n]), Delivered(es[..n]), es[n]);
    }
  }

  /** Two histories delivering the same set of fills, in any order, any number of times,
      among any other events, end with the same totals. */
  lemma {:induction false} DeliveryOrderIsIrrelevant(o: OrderState, es1: seq<OrderEvent>, es2: seq<OrderEvent>)
    requires Unfilled(o)
    requires Positive(Delivered(es1)) && Consistent(Delivered(es1))
    requires forall f :: f in Delivered(es1) <==> f in Delivered(es2)
    ensures OrderRun(o, es1).filled == OrderRun(o, es2).filled
    ensures OrderRun(o, es1).average == OrderRun(o, es2).average
    ensures OrderRun(o, es1).applied == OrderRun(o, es2).applied
  {
    AccountingIsTheSumOfDistinctFills(o, es1);
    AccountingIsTheSumOfDistinctFills(o, es2);
    SameFillsSameAccounts(OrderRun(o, es1), OrderRun(o, es2), Delivered(es1), Delivered(es2));
  }

  /** The accounts depend on the set of fills only. */
  lemma {:induction false} SameFillsSameAccounts(o1: OrderState, o2: OrderState, fs1: seq<Fill>, fs2: seq<Fill>)
    requires Positive(fs1) && Consistent(fs1)
    requires forall f :: f in fs1 <==> f in fs2
    requires Accounts(o1, Distinct(fs1)) && Accounts(o2, Distinct(fs2))
    ensures o1.filled == o2.filled && o1.average == o2.average && o1.applied == o2.applied
  {
    var d1, d2 := Distinct(fs1), Distinct(fs2);
    assert NoDuplicateIds(d1) && NoDuplicateIds(d2) && forall f :: f in d1 <==> f in d2 by {
      DistinctFacts(fs1);
      DistinctFacts(fs2);
    }
    SameElementsSameTotals(d1, d2, QuantityOf);
    SameElementsSameTotals(d1, d2, CostOf);
    DistinctPositive(fs1);
    SameTotalsSameAccounts(o1, o2, d1, d2);
  }

  lemma {:induction false} SameTotalsSameAccounts(o1: OrderState, o2: OrderState, d1: seq<Fill>, d2: seq<Fill>)
    requires Accounts(o1, d1) && Accounts(o2, d2) && Positive(d1)
    requires forall f :: f in d1 <==> f in d2
    requires Total(d1, QuantityOf) == Total(d2, QuantityOf) && Total(d1, CostOf) == Total(d2, CostOf)
    ensures o1.filled == o2.filled && o1.average == o2.average && o1.applied == o2.applied
  {
    assert Ids(d1) == Ids(d2);
    assert |d1| > 0 ==> d1[0] in d1;
    assert |d2| > 0 ==> d2[0] in d2;
    if d1 != [] {
      TotalIsPositive(d1);
      EqualProducts(o1.average, o2.average, o1.filled);
    }
  }

  // ----- Steps -----

  lemma {:induction false} DeliveredPrefixPositive(es: seq<OrderEvent>)
    requires es != [] && Positive(Delivered(es))
    ensures Positive(Delivered(es[..|es| - 1]))
    ensures es[|es| - 1].Deliver? ==> es[|es| - 1].fill.quantity > 0.0
  {
    var before, e := Delivered(es[..|es| - 1]), es[|es| - 1];
    assert forall f :: f in before ==> f in Delivered(es);
    if e.Deliver? {
      assert Delivered(es)[|before|] == e.fill;
    }
  }

  lemma {:induction false} StepKeepsAccounts(o: OrderState, fs: seq<Fill>, e: OrderEvent)
    requires Positive(fs) && Accounts(o, Distinct(fs))
    requires e.Deliver? ==> e.fill.quantity > 0.0
    ensures Accounts(OrderStep(o, e), Distinct(fs + if e.Deliver? then [e.fill] else []))
  {
    if e.Deliver? {
      var fs' := fs + [e.fill];
      assert fs'[..|fs'| - 1] == fs;
      DistinctPositive(fs);
      FillExtendsAccounts(o, Distinct(fs), e.fill);
    } else {
      assert fs + [] == fs;
      NonFillsKeepAccounts(o, e);
    }
  }

  lemma {:induction false} NonFillsKeepAccounts(o: OrderState, e: OrderEvent)
    requires !e.Deliver?
    ensures var o' := OrderStep(o, e);
            o'.filled == o.filled && o'.average == o.average && o'.applied == o.applied
  {
  }

  lemma {:induction false} FillExtendsAccounts(o: OrderState, d: seq<Fill>, f: Fill)
    requires Accounts(o, d) && Positive(d) && f.quantity > 0.0
    ensures Accounts(Filling(o, f), if f.id in Ids(d) then d else d + [f])
  {
    if f.id !in Ids(d) {
      var r := Recorded(o, f);
      var d' := d + [f];
      assert d'[..|d|] == d;
      assert Ids(d') == Ids(d) + {f.id} by {
        assert forall g :: g in d' <==> g in d || g == f;
      }
      TotalIsNonnegative(d);
      AveragedBack(o.average, o.filled, f);
    }
  }

  lemma {:induction false} AveragedBack(average: Price, filled: Quantity, f: Fill)
    requires filled + f.quantity > 0.0
    ensures Product(Averaged(average, filled, f), filled + f.quantity) == Product(average, filled) + CostOf(f)
  {
  }

  lemma {:induction false} EqualProducts(a: real, b: real, x: real)
    requires x > 0.0 && Product(a, x) == Product(b, x)
    ensures a == b
  {
    assert (a - b) * x == 0.0;
  }

  lemma {:induction false} TotalIsNonnegative(fs: seq<Fill>)
    requires Positive(fs)
    ensures Total(fs, QuantityOf) >= 0.0
    decreases |fs|
  {
    if fs != [] {
      TotalIsNonnegative(fs[..|fs| - 1]);
      assert fs[|fs| - 1] in fs;
    }
  }

  lemma {:induction false} TotalIsPositive(fs: seq<Fill>)
    requires Positive(fs) && fs != []
    ensures Total(fs, QuantityOf) > 0.0
  {
    TotalIsNonnegative(fs[..|fs| - 1]);
    assert fs[|fs| - 1] in fs;
  }

  lemma {:induction false} DistinctPositive(fs: seq<Fill>)
    requires Positive(fs)
    ensures Positive(Distinct(fs))
    decreases |fs|
  {
    if fs != [] {
      DistinctPositive(fs[..|fs| - 1]);
      assert fs[|fs| - 1] in fs;
    }
  }

  lemma {:induction false} DistinctFacts(fs: seq<Fill>)
    ensures NoDuplicateIds(Distinct(fs))
    ensures forall f :: f in Distinct(fs) ==> f in fs
    ensures Ids(Distinct(fs)) == Ids(fs)
    ensures Consistent(fs) ==> forall f :: f in fs ==> f in Distinct(fs)
    decreases |fs|
  {
    if fs != [] {
      var rest, last := fs[..|fs| - 1], fs[|fs| - 1];
      DistinctFacts(rest);
      assert fs == rest + [last];
      assert Ids(fs) == Ids(rest) + {last.id};
      assert Ids(Distinct(rest) + [last]) == Ids(Distinct(rest)) + {last.id};
      if last.id !in Ids(Distinct(rest)) {
        forall i | 0 <= i < |Distinct(rest)| ensures Distinct(rest)[i].id != last.id {
          assert Distinct(rest)[i] in Distinct(rest);
        }
      }
    }
  }

  lemma {:induction false} TotalsSplit(a: seq<Fill>, b: seq<Fill>, weight: Fill -> real)
    ensures Total(a + b, weight) == Total(a, weight) + Total(b, weight)
    decreases |b|
  {
    if b == [] {
      assert a + b == a;
    } else {
      var n := |b| - 1;
      TotalsSplit(a, b[..n], weight);
      assert (a + b)[..|a + b| - 1] == a + b[..n];
    }
  }

  lemma {:induction false} RemoveAt(fs: seq<Fill>, j: nat, weight: Fill -> real)
    requires j < |fs|
    ensures Total(fs, weight) == Total(fs[..j] + fs[j + 1..], weight) + weight(fs[j])
  {
    var left, middle, right := fs[..j], fs[..j + 1], fs[j + 1..];
    TotalsSplit(left, right, weight);
    TotalsSplit(middle, right, weight);
    assert middle + right == fs;
    assert middle[..|middle| - 1] == left && middle[|middle| - 1] == fs[j];
  }

  /** Dropping an element from two lists of the same distinct elements. */
  lemma {:induction false} DropCommon(a: seq<Fill>, b: seq<Fill>, j: nat)
    requires NoDuplicateIds(a) && NoDuplicateIds(b) && a != []
    requires forall f :: f in a <==> f in b
    requires j < |b| && b[j] == a[|a| - 1]
    ensures var b' := b[..j] + b[j + 1..];
            NoDuplicateIds(b') && forall f :: f in a[..|a| - 1] <==> f in b'
  {
    var n, b' := |a| - 1, b[..j] + b[j + 1..];
    forall f ensures f in a[..n] <==> f in b' {
      if f in a[..n] {
        var i :| 0 <= i < n && a[i] == f;
        assert f in a && f.id != a[n].id;
        var k :| 0 <= k < |b| && b[k] == f;
        assert if k < j then b'[k] == f else b'[k - 1] == f;
      }
      if f in b' {
        var k :| 0 <= k < |b'| && b'[k] == f;
        var k0 := if k < j then k else k + 1;
        assert b[k0] == f && f in a && f.id != a[n].id;
      }
    }
  }

  lemma {:induction false} SameElementsSameTotals(a: seq<Fill>, b: seq<Fill>, weight: Fill -> real)
    requires NoDuplicateIds(a) && NoDuplicateIds(b)
    requires forall f :: f in a <==> f in b
    ensures Total(a, weight) == Total(b, weight)
    decreases |a|
  {
    assert |b| > 0 ==> b[0] in b;
    if a != [] {
      var n := |a| - 1;
      assert a[n] in a;
      var j :| 0 <= j < |b| && b[j] == a[n];
      DropCommon(a, b, j);
      SameElementsSameTotals(a[..n], b[..j] + b[j + 1..], weight);
      RemoveAt(b, j, weight);
    }
  }
}
