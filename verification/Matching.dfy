/** What one matching pass buys, as a function of the sorted asks, and why that is the best buy
    (MyOrders.cpp, match). */
module Matching {
  import opened Common
  import opened Sums

  /** An ask as a bid sees it; `skip` says that it is ignored, our own, or matched before. */
  datatype Ask = Ask(amount: real, price: real, skip: bool)

  predicate Eligible(a: Ask, limit: real) { !a.skip && a.price <= limit }

  function Zeros(n: nat): (z: seq<real>)
    ensures |z| == n && forall i :: 0 <= i < n ==> z[i] == 0.0
  {
    if n == 0 then [] else [0.0] + Zeros(n - 1)
  }

  /** The loop of match: how much is requested from each ask. */
  function Greedy(asks: seq<Ask>, limit: real, want: real): (q: seq<real>)
    ensures |q| == |asks|
  {
    if asks == [] then []
    else if asks[0].skip then [0.0] + Greedy(asks[1..], limit, want)
    else if limit < asks[0].price then Zeros(|asks|)
    else if want > asks[0].amount then [asks[0].amount] + Greedy(asks[1..], limit, want - asks[0].amount)
    else [want] + Zeros(|asks| - 1)
  }

  ghost predicate SortedByPrice(asks: seq<Ask>) {
    forall i, j :: 0 <= i < j < |asks| ==> asks[i].price <= asks[j].price
  }

  ghost predicate Positive(asks: seq<Ask>) {
    forall i :: 0 <= i < |asks| ==> asks[i].amount > 0.0
  }

  function Quantity(x: real): real { x }

  function Total(q: seq<real>): real { SumBy(q, Quantity) }

  function Cost(asks: seq<Ask>, q: seq<real>): real
    requires |q| == |asks|
  {
    if asks == [] then 0.0 else asks[0].price * q[0] + Cost(asks[1..], q[1..])
  }

  function Supply(limit: real): Ask -> real {
    (a: Ask) => if Eligible(a, limit) then a.amount else 0.0
  }

  function Min(a: real, b: real): real { if a <= b then a else b }

  /** A way to buy from the eligible asks, at most what each one offers. */
  ghost predicate Feasible(asks: seq<Ask>, limit: real, q: seq<real>) {
    && |q| == |asks|
    && forall i :: 0 <= i < |asks| ==> 0.0 <= q[i] <= if Eligible(asks[i], limit) then asks[i].amount else 0.0
  }

  /** Nothing is bought from an ask that is to be skipped. */
  lemma {:induction false} GreedySkips(asks: seq<Ask>, limit: real, want: real, i: nat)
    requires i < |asks| && asks[i].skip
    ensures Greedy(asks, limit, want)[i] == 0.0
  {
    if i > 0 && (asks[0].skip || (limit >= asks[0].price && want > asks[0].amount)) {
      GreedySkips(asks[1..], limit, if asks[0].skip then want else want - asks[0].amount, i - 1);
    }
  }

  lemma {:induction false} ZeroTotal(n: nat)
    ensures Total(Zeros(n)) == 0.0
  {
    if n > 0 {
      ZeroTotal(n - 1);
      assert Zeros(n)[1..] == Zeros(n - 1);
    }
  }

  lemma {:induction false} ZeroCost(asks: seq<Ask>, q: seq<real>)
    requires |q| == |asks| && forall i :: 0 <= i < |q| ==> q[i] == 0.0
    ensures Cost(asks, q) == 0.0 && Total(q) == 0.0
  {
    if asks != [] {
      ZeroCost(asks[1..], q[1..]);
    }
  }

  lemma {:induction false} NothingBeyondLimit(asks: seq<Ask>, limit: real)
    requires SortedByPrice(asks) && asks != [] && limit < asks[0].price
    ensures SumBy(asks, Supply(limit)) == 0.0
    ensures forall i :: 0 <= i < |asks| ==> !Eligible(asks[i], limit)
  {
    SumZero(asks, Supply(limit));
  }

  /** The pass asks for exactly as much as the bid wants and the eligible asks can give. The early
      break loses nothing because the asks are sorted. */
  lemma {:induction false} GreedyFillsAllItCan(asks: seq<Ask>, limit: real, want: real)
    requires SortedByPrice(asks) && Positive(asks) && want >= 0.0
    ensures Total(Greedy(asks, limit, want)) == Min(want, SumBy(asks, Supply(limit)))
    ensures Feasible(asks, limit, Greedy(asks, limit, want))
  {
    if asks != [] {
      var rest := asks[1..];
      var q := Greedy(asks, limit, want);
      assert SortedByPrice(rest) && Positive(rest);
      assert q == [q[0]] + q[1..];
      if asks[0].skip {
        GreedyFillsAllItCan(rest, limit, want);
        assert q[1..] == Greedy(rest, limit, want);
      } else if limit < asks[0].price {
        NothingBeyondLimit(asks, limit);
        ZeroTotal(|asks|);
      } else if want > asks[0].amount {
        GreedyFillsAllItCan(rest, limit, want - asks[0].amount);
        assert q[1..] == Greedy(rest, limit, want - asks[0].amount);
      } else {
        ZeroTotal(|rest|);
        assert q[1..] == Zeros(|rest|);
        SumNonNegative(rest, Supply(limit));
      }
    }
  }

  lemma PriceStep(price: real, first: real, amount: real, more: real, cost: real)
    requires price <= first && amount >= 0.0 && cost >= price * more
    ensures first * amount + cost >= price * (amount + more)
  {
  }

  lemma {:induction false} CostAtLeast(asks: seq<Ask>, limit: real, y: seq<real>, price: real)
    requires Feasible(asks, limit, y) && forall i :: 0 <= i < |asks| ==> price <= asks[i].price
    ensures Cost(asks, y) >= price * Total(y) && Total(y) >= 0.0
  {
    if asks != [] {
      CostAtLeast(asks[1..], limit, y[1..], price);
      PriceStep(price, asks[0].price, y[0], Total(y[1..]), Cost(asks[1..], y[1..]));
      assert Total(y) == y[0] + Total(y[1..]);
    }
  }

  /** Buying y instead of q costs at least `price` more for every unit more. */
  ghost predicate Dearer(asks: seq<Ask>, y: seq<real>, q: seq<real>, price: real)
    requires |y| == |q| == |asks|
  {
    Cost(asks, y) - Cost(asks, q) >= price * (Total(y) - Total(q))
  }

  /** The step from the remaining asks to all of them. */
  lemma DearerStep(asks: seq<Ask>, y: seq<real>, q: seq<real>, price: real)
    requires |y| == |q| == |asks| >= 1 && price <= asks[0].price && Total(y) >= Total(q)
    requires Dearer(asks[1..], y[1..], q[1..], asks[0].price)
    ensures Dearer(asks, y, q, price)
  {
    var first, d := asks[0].price, Total(y) - Total(q);
    var rest := Total(y[1..]) - Total(q[1..]);
    assert first * y[0] - first * q[0] + first * rest == first * d;
    assert price * d <= first * d;
  }

  lemma {:induction false} GreedyIsCheapest(asks: seq<Ask>, limit: real, want: real, y: seq<real>, price: real)
    requires SortedByPrice(asks) && Positive(asks) && want >= 0.0
    requires Feasible(asks, limit, y) && Total(y) >= Total(Greedy(asks, limit, want))
    requires forall i :: 0 <= i < |asks| ==> price <= asks[i].price
    ensures Dearer(asks, y, Greedy(asks, limit, want), price)
  {
    if asks != [] {
      var rest, more := asks[1..], y[1..];
      var q := Greedy(asks, limit, want);
      assert SortedByPrice(rest) && Positive(rest) && Feasible(rest, limit, more);
      if asks[0].skip {
        assert q[1..] == Greedy(rest, limit, want);
        GreedyIsCheapest(rest, limit, want, more, asks[0].price);
        DearerStep(asks, y, q, price);
      } else if limit < asks[0].price {
        NothingBeyondLimit(asks, limit);
        ZeroCost(asks, y);
        ZeroCost(asks, q);
      } else if want > asks[0].amount {
        assert q[1..] == Greedy(rest, limit, want - asks[0].amount);
        GreedyIsCheapest(rest, limit, want - asks[0].amount, more, asks[0].price);
        DearerStep(asks, y, q, price);
      } else {
        assert q[1..] == Zeros(|rest|);
        ZeroCost(rest, q[1..]);
        CostAtLeast(rest, limit, more, asks[0].price);
        DearerStep(asks, y, q, price);
      }
    }
  }

  lemma DearerAtEqualTotals(asks: seq<Ask>, y: seq<real>, q: seq<real>, price: real)
    requires |y| == |q| == |asks| && Dearer(asks, y, q, price) && Total(y) == Total(q)
    ensures Cost(asks, q) <= Cost(asks, y)
  {
  }

  /** Greedy matching is optimal: no other way of buying the same quantity from the eligible asks
      is cheaper at the ask prices. */
  lemma GreedyIsOptimal(asks: seq<Ask>, limit: real, want: real, y: seq<real>)
    requires SortedByPrice(asks) && Positive(asks) && want >= 0.0
    requires Feasible(asks, limit, y) && Total(y) == Total(Greedy(asks, limit, want))
    ensures Cost(asks, Greedy(asks, limit, want)) <= Cost(asks, y)
  {
    if asks != [] {
      GreedyIsCheapest(asks, limit, want, y, asks[0].price);
      DearerAtEqualTotals(asks, y, Greedy(asks, limit, want), asks[0].price);
    }
  }
}
