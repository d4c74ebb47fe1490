/** Our own orders: an index over both sides of the book, and the matching of our bids
    (MyOrders.cpp; the callers in TmContract.cpp, OrderBook.cpp and p3ZeroReserveRS.cpp). */
module MyOrderLists {
  import opened Common
  import opened OrderBooks
  import opened OrderLists
  import opened Matching
  import opened Sums

  /** The asks as a bid with the given history of matches sees them. */
  ghost function Asks(view: seq<Order>, matched: set<OrderId>): (asks: seq<Ask>)
    reads view
    ensures |asks| == |view|
    ensures forall i :: 0 <= i < |view| ==> asks[i] == AskOf(view[i], matched)
  {
    seq(|view|, i requires 0 <= i < |view| reads view => AskOf(view[i], matched))
  }

  ghost function AskOf(o: Order, matched: set<OrderId>): Ask
    reads o
  {
    Ask(o.amount, o.price, o.ignored || o.isMyOrder || o.id in matched)
  }

  /** Somebody else's order that has not failed before and was not matched before. */
  ghost predicate Buyable(o: Order, matched: set<OrderId>)
    reads o
  {
    !o.ignored && !o.isMyOrder && o.id !in matched
  }

  /** The purchases behind a vector of quantities: one per ask with a positive quantity. */
  function Purchases(view: seq<Order>, q: seq<real>): seq<(Order, real)>
    requires |q| == |view|
  {
    if view == [] then []
    else (if q[0] > 0.0 then [(view[0], q[0])] else []) + Purchases(view[1..], q[1..])
  }

  lemma {:induction false} NoPurchases(view: seq<Order>, q: seq<real>)
    requires |q| == |view| && forall i :: 0 <= i < |q| ==> q[i] == 0.0
    ensures Purchases(view, q) == []
  {
    if view != [] {
      NoPurchases(view[1..], q[1..]);
    }
  }

  /** What a pass still buys from a list of asks. */
  function Plan(view: seq<Order>, asks: seq<Ask>, limit: real, want: real): seq<(Order, real)>
    requires |view| == |asks|
  {
    Purchases(view, Greedy(asks, limit, want))
  }

  lemma PlanStep(view: seq<Order>, asks: seq<Ask>, limit: real, want: real)
    requires |view| == |asks| >= 1 && asks[0].amount > 0.0 && want > 0.0
    ensures Plan(view, asks, limit, want) ==
      if asks[0].skip then Plan(view[1..], asks[1..], limit, want)
      else if limit < asks[0].price then []
      else if want > asks[0].amount then
        [(view[0], asks[0].amount)] + Plan(view[1..], asks[1..], limit, want - asks[0].amount)
      else [(view[0], want)]
  {
    var q := Greedy(asks, limit, want);
    if asks[0].skip {
      assert q[1..] == Greedy(asks[1..], limit, want);
    } else if limit < asks[0].price {
      NoPurchases(view, q);
    } else if want > asks[0].amount {
      assert q[1..] == Greedy(asks[1..], limit, want - asks[0].amount);
    } else {
      assert q[1..] == Zeros(|asks| - 1);
      NoPurchases(view[1..], q[1..]);
    }
  }

  /** One round of the loop: what is bought already, followed by the plan for the asks from i on. */
  lemma PlanRound(bought: seq<(Order, real)>, view: seq<Order>, asks: seq<Ask>, i: nat, limit: real, want: real)
    requires i < |view| == |asks| && asks[i].amount > 0.0 && want > 0.0
    ensures bought + Plan(view[i..], asks[i..], limit, want) ==
      if asks[i].skip then bought + Plan(view[i + 1..], asks[i + 1..], limit, want)
      else if limit < asks[i].price then bought
      else if want > asks[i].amount then
        (bought + [(view[i], asks[i].amount)]) + Plan(view[i + 1..], asks[i + 1..], limit, want - asks[i].amount)
      else bought + [(view[i], want)]
  {
    PlanStep(view[i..], asks[i..], limit, want);
    assert view[i..][1..] == view[i + 1..] && asks[i..][1..] == asks[i + 1..];
    assert bought + [] == bought;
  }

  function Bought(p: (Order, real)): real { p.1 }

  /** The ids of the asks that were bought from. */
  function Ids(bought: seq<(Order, real)>): set<OrderId> {
    if bought == [] then {} else {bought[0].0.id} + Ids(bought[1..])
  }

  lemma {:induction false} IdsConcat(a: seq<(Order, real)>, b: seq<(Order, real)>)
    ensures Ids(a + b) == Ids(a) + Ids(b)
  {
    if a == [] {
      assert a + b == b;
    } else {
      assert (a + b)[1..] == a[1..] + b;
      IdsConcat(a[1..], b);
    }
  }

  /** A bid that remembers what it has bought from goes on to do so. */
  lemma IdsGrow(matched: set<OrderId>, bought: seq<(Order, real)>, o: Order, amount: real)
    ensures matched + Ids(bought) + {o.id} == matched + Ids(bought + [(o, amount)])
  {
    IdsConcat(bought, [(o, amount)]);
    assert [(o, amount)][1..] == [];
    assert Ids([(o, amount)]) == {o.id};
  }

  lemma {:induction false} IdsHas(bought: seq<(Order, real)>, id: OrderId)
    ensures id in Ids(bought) <==> exists i :: 0 <= i < |bought| && bought[i].0.id == id
  {
    if bought != [] {
      IdsHas(bought[1..], id);
      assert forall i :: 0 <= i < |bought| - 1 ==> bought[1..][i] == bought[i + 1];
      if exists i :: 0 <= i < |bought| && bought[i].0.id == id {
        var i :| 0 <= i < |bought| && bought[i].0.id == id;
        assert i > 0 ==> bought[1..][i - 1].0.id == id;
      }
    }
  }

  /** No ask is bought from twice, or from again after it was matched before. */
  ghost predicate AllNew(matched: set<OrderId>, bought: seq<(Order, real)>) {
    && (forall i :: 0 <= i < |bought| ==> bought[i].0.id !in matched)
    && forall i, j :: 0 <= i < j < |bought| ==> bought[i].0.id != bought[j].0.id
  }

  lemma AllNewConcat(matched: set<OrderId>, a: seq<(Order, real)>, b: seq<(Order, real)>)
    requires AllNew(matched, a) && AllNew(matched + Ids(a), b)
    ensures AllNew(matched, a + b)
  {
    forall i, j | 0 <= i < |a| && 0 <= j < |b| ensures a[i].0.id != b[j].0.id {
      IdsHas(a, a[i].0.id);
    }
  }

  lemma {:induction false} PurchasesAreNew(view: seq<Order>, q: seq<real>, matched: set<OrderId>)
    requires |view| == |q| && DistinctIds(view)
    requires forall i :: 0 <= i < |view| && view[i].id in matched ==> q[i] <= 0.0
    ensures AllNew(matched, Purchases(view, q))
    ensures forall p :: p in Purchases(view, q) ==> exists i :: 0 <= i < |view| && view[i].id == p.0.id
  {
    if view != [] {
      var rest := Purchases(view[1..], q[1..]);
      assert forall i :: 0 <= i < |view| - 1 ==> view[1..][i] == view[i + 1] && q[1..][i] == q[i + 1];
      PurchasesAreNew(view[1..], q[1..], matched);
      forall i | 0 <= i < |rest| ensures rest[i].0.id != view[0].id {
        assert rest[i] in rest;
      }
    }
  }

  /** The purchases add up to the quantities, and each keeps to its ask and the limit price. */
  lemma {:induction false} PurchasesAddUp(view: seq<Order>, asks: seq<Ask>, limit: real, q: seq<real>)
    requires |view| == |asks| && Feasible(asks, limit, q)
    ensures SumBy(Purchases(view, q), Bought) == Total(q)
    ensures forall p :: p in Purchases(view, q) ==>
      p.1 > 0.0 && exists i :: 0 <= i < |view| && p.0 == view[i] && Eligible(asks[i], limit) && p.1 <= asks[i].amount
  {
    if view != [] {
      var rest := Purchases(view[1..], q[1..]);
      PurchasesAddUp(view[1..], asks[1..], limit, q[1..]);
      var first := if q[0] > 0.0 then [(view[0], q[0])] else [];
      SumConcat(first, rest, Bought);
      forall p | p in rest
        ensures exists i :: 0 <= i < |view| && p.0 == view[i] && Eligible(asks[i], limit) && p.1 <= asks[i].amount
      {
        var i :| 0 <= i < |view| - 1 && p.0 == view[1..][i] && Eligible(asks[1..][i], limit)
          && p.1 <= asks[1..][i].amount;
        assert p.0 == view[i + 1] && asks[i + 1] == asks[1..][i];
      }
    }
  }

  /** What one pass over a sorted view of asks buys: all that the bid wants and the eligible asks
      offer, from eligible asks only, and no other way to buy as much is cheaper. */
  lemma PassIsOptimal(view: seq<Order>, matched: set<OrderId>, limit: real, want: real, other: seq<real>)
    requires Sorted(view) && want > 0.0
    requires forall k :: 0 <= k < |view| ==> view[k].orderType == ASK && view[k].amount > 0.0
    ensures forall i :: 0 <= i < |view| ==>
      (Eligible(Asks(view, matched)[i], limit) <==> Buyable(view[i], matched) && view[i].price <= limit)
    ensures var asks := Asks(view, matched); var q := Greedy(asks, limit, want);
      && SumBy(Plan(view, asks, limit, want), Bought) == Min(want, SumBy(asks, Supply(limit)))
      && (forall p :: p in Plan(view, asks, limit, want) ==>
           && p.1 > 0.0
           && exists i :: 0 <= i < |view| && p.0 == view[i] && Eligible(asks[i], limit) && p.1 <= view[i].amount)
      && (Feasible(asks, limit, other) && Total(other) == Total(q) ==> Cost(asks, q) <= Cost(asks, other))
  {
    var asks := Asks(view, matched);
    var q := Greedy(asks, limit, want);
    assert SortedByPrice(asks) by {
      assert forall i, j :: 0 <= i < j < |asks| ==> !Before(view[j], view[i]);
    }
    assert Positive(asks);
    GreedyFillsAllItCan(asks, limit, want);
    PurchasesAddUp(view, asks, limit, q);
    forall p | p in Plan(view, asks, limit, want)
      ensures exists i :: 0 <= i < |view| && p.0 == view[i] && Eligible(asks[i], limit) && p.1 <= view[i].amount
    {
      var i :| 0 <= i < |view| && p.0 == view[i] && Eligible(asks[i], limit) && p.1 <= asks[i].amount;
      assert asks[i] == AskOf(view[i], matched);
    }
    if Feasible(asks, limit, other) && Total(other) == Total(q) {
      GreedyIsOptimal(asks, limit, want, other);
    }
  }

  /** A purchase from an order that may be bought from, within the limit and what is offered. */
  ghost predicate IsSound(p: (Order, real), matched: set<OrderId>, limit: real)
    reads p.0
  {
    Buyable(p.0, matched) && p.0.price <= limit && 0.0 < p.1 <= p.0.amount
  }

  lemma PlanIsSound(view: seq<Order>, matched: set<OrderId>, limit: real, want: real)
    requires Sorted(view) && want > 0.0
    requires forall k :: 0 <= k < |view| ==> view[k].orderType == ASK && view[k].amount > 0.0
    ensures forall p :: p in Plan(view, Asks(view, matched), limit, want) ==> IsSound(p, matched, limit)
  {
    PassIsOptimal(view, matched, limit, want, []);
  }

  /** What the bid remembers before each of its passes is what it remembered before the last one and
      the asks it bought from then, whatever becomes of the book and of the bid in between. */
  ghost predicate Remembers(matched: set<OrderId>, passes: seq<Pass>)
    decreases |passes|
  {
    passes != [] ==>
      && passes[0].matched == matched && Sees(passes[0])
      && Remembers(matched + Ids(passes[0].bought), passes[1..])
  }

  function AllBought(passes: seq<Pass>): seq<(Order, real)> {
    if passes == [] then [] else passes[0].bought + AllBought(passes[1..])
  }

  lemma PassIsNew(p: Pass)
    requires Sees(p)
    ensures AllNew(p.matched, p.bought)
  {
    if p.bought != [] {
      forall i | 0 <= i < |p.view| && p.asks[i].skip ensures Greedy(p.asks, p.order.price, p.want)[i] == 0.0 {
        GreedySkips(p.asks, p.order.price, p.want, i);
      }
      PurchasesAreNew(p.view, Greedy(p.asks, p.order.price, p.want), p.matched);
    }
  }

  /** Over any sequence of passes for one bid, however often it is unlocked in between and whatever the
      book looks like each time, no ask is bought from twice. */
  lemma {:induction false} NeverBoughtTwice(matched: set<OrderId>, passes: seq<Pass>)
    requires Remembers(matched, passes)
    ensures AllNew(matched, AllBought(passes))
    decreases |passes|
  {
    if passes != [] {
      PassIsNew(passes[0]);
      NeverBoughtTwice(matched + Ids(passes[0].bought), passes[1..]);
      AllNewConcat(matched, passes[0].bought, AllBought(passes[1..]));
    }
  }

  lemma SplitMultiset(s: seq<Order>, i: nat, j: nat)
    requires i < j < |s| && s[i] == s[j]
    ensures multiset(s)[s[i]] >= 2
  {
    assert s == s[..j] + s[j..];
    assert s[i] in s[..j] && s[j] in s[j..];
  }

  lemma {:induction false} AtMostOnce(s: seq<Order>, o: Order)
    requires DistinctIds(s)
    ensures multiset(s)[o] <= 1
  {
    if s != [] {
      var rest := s[1..];
      assert s == [s[0]] + rest;
      assert multiset(s) == multiset{s[0]} + multiset(rest);
      assert forall k :: 0 <= k < |rest| ==> rest[k] == s[k + 1];
      AtMostOnce(rest, o);
      if s[0] == o {
        assert o !in rest;
      }
    }
  }

  lemma {:induction false} FilteredIsDistinct(s: seq<Order>, currency: Currency)
    requires DistinctIds(s)
    ensures DistinctIds(InCurrency(s, currency))
  {
    if s != [] {
      var tail, part := s[1..], InCurrency(s[1..], currency);
      FilteredIsDistinct(tail, currency);
      InCurrencyIsPart(tail, currency);
      forall k | 0 <= k < |part| ensures part[k].id != s[0].id {
        var m :| 0 <= m < |tail| && tail[m] == part[k];
        assert s[m + 1] == part[k];
      }
      if s[0].currency == currency {
        assert InCurrency(s, currency) == [s[0]] + part;
      } else {
        assert InCurrency(s, currency) == part;
      }
    }
  }

  /** A reordering of distinct orders is distinct. */
  lemma ReorderedIsDistinct(s: seq<Order>, r: seq<Order>)
    requires DistinctIds(s) && multiset(r) == multiset(s)
    ensures DistinctIds(r)
  {
    forall i, j | 0 <= i < j < |r| ensures r[i].id != r[j].id {
      assert r[i] in multiset(s) && r[j] in multiset(s);
      if r[i].id == r[j].id {
        SplitMultiset(r, i, j);
        AtMostOnce(s, r[i]);
      }
    }
  }

  lemma ViewIsPart(orders: seq<Order>, view: seq<Order>, currency: Currency)
    requires DistinctIds(orders) && multiset(view) == multiset(InCurrency(orders, currency))
    ensures DistinctIds(view) && forall k :: 0 <= k < |view| ==> view[k] in orders
  {
    FilteredIsDistinct(orders, currency);
    ReorderedIsDistinct(InCurrency(orders, currency), view);
    InCurrencyIsPart(orders, currency);
    forall k | 0 <= k < |view| ensures view[k] in orders {
      assert view[k] in multiset(view);
      assert view[k] in InCurrency(orders, currency);
    }
  }

  /** The index holds exactly the own orders of the two sides, under ids nothing else uses. */
  ghost predicate Indexed(own: seq<Order>, bids: seq<Order>, asks: seq<Order>) {
    && (forall o :: o in bids ==> o.orderType == BID)
    && (forall o :: o in asks ==> o.orderType == ASK)
    && (forall o :: o in own ==> (o in bids || o in asks) && o.isMyOrder)
    && (forall o :: o in bids && o.isMyOrder ==> o in own)
    && (forall o :: o in asks && o.isMyOrder ==> o in own)
    && (forall x, y :: x in own && y in bids && x.id == y.id ==> x == y)
    && (forall x, y :: x in own && y in asks && x.id == y.id ==> x == y)
  }

  lemma IndexedPlace(own: seq<Order>, bids: seq<Order>, asks: seq<Order>, o: Order)
    requires Indexed(own, bids, asks) && o.isMyOrder
    requires (forall x :: x in bids ==> x.id != o.id) && (forall x :: x in asks ==> x.id != o.id)
    ensures if o.orderType == BID then Indexed(own + [o], bids + [o], asks) else Indexed(own + [o], bids, asks + [o])
    ensures forall x :: x in own ==> x.id != o.id
  {
  }

  lemma IndexedDrop(own: seq<Order>, bids: seq<Order>, asks: seq<Order>, o: Order)
    requires Indexed(own, bids, asks) && o in own && DistinctIds(own) && DistinctIds(bids) && DistinctIds(asks)
    ensures Indexed(Erased(own, o.id), Erased(bids, o.id), Erased(asks, o.id))
    ensures o !in Erased(own, o.id) && o !in Erased(bids, o.id) && o !in Erased(asks, o.id)
    ensures if o.orderType == BID then Erased(asks, o.id) == asks else Erased(bids, o.id) == bids
  {
    ErasedIsDistinct(own, o.id);
    ErasedIsDistinct(bids, o.id);
    ErasedIsDistinct(asks, o.id);
  }

  lemma IndexedForget(own: seq<Order>, bids: seq<Order>, asks: seq<Order>, id: OrderId)
    requires Indexed(own, bids, asks) && DistinctIds(asks)
    requires forall o :: o in asks && o.id == id ==> !o.isMyOrder
    ensures Indexed(own, bids, Erased(asks, id))
  {
    ErasedIsDistinct(asks, id);
  }

  /** None of our own orders but the given one has its id. */
  ghost predicate OnlyItself(own: seq<Order>, o: Order)
    reads o
  {
    o.isMyOrder && forall x :: x in own && x.id == o.id ==> x == o
  }

  /** Dropping an order of ours, listed or not, from the index and its side. */
  lemma IndexedDropAny(own: seq<Order>, bids: seq<Order>, asks: seq<Order>, o: Order)
    requires Indexed(own, bids, asks) && OnlyItself(own, o)
    requires DistinctIds(own) && DistinctIds(bids) && DistinctIds(asks)
    ensures if o.orderType == BID then Indexed(Erased(own, o.id), Erased(bids, o.id), asks)
            else Indexed(Erased(own, o.id), bids, Erased(asks, o.id))
    ensures o !in Erased(own, o.id)
    ensures if o.orderType == BID then o !in Erased(bids, o.id) && o !in asks
            else o !in bids && o !in Erased(asks, o.id)
  {
    if o in own {
      IndexedDrop(own, bids, asks, o);
    } else {
      ErasedIsDistinct(bids, o.id);
      ErasedIsDistinct(asks, o.id);
      IndexedForget(own, bids, asks, o.id);
    }
  }

  /** What processOrder can make of one side of the book leaves our own orders alone. */
  ghost predicate Processed(own: seq<Order>, side: seq<Order>, o: Order, side': seq<Order>) {
    && (side' == side || side' == Erased(side, o.id) + [o] || side' == Erased(side, o.id))
    && (Position(own, o.id) < |own| ==> side' == side)
  }

  lemma OwnOrdersStay(own: seq<Order>, side: seq<Order>, o: Order, side': seq<Order>)
    requires DistinctIds(side) && Processed(own, side, o, side') && !o.isMyOrder
    ensures forall x :: x in own && x in side ==> x in side'
    ensures forall x :: x in side' ==> x in side || x == o
    ensures o in side' && o !in side ==> forall x :: x in own ==> x.id != o.id
  {
  }

  lemma IndexedIncoming(own: seq<Order>, bids: seq<Order>, asks: seq<Order>, o: Order, side': seq<Order>)
    requires Indexed(own, bids, asks) && DistinctIds(bids) && DistinctIds(asks) && !o.isMyOrder
    requires Processed(own, if o.orderType == ASK then asks else bids, o, side')
    ensures if o.orderType == ASK then Indexed(own, bids, side') else Indexed(own, side', asks)
  {
    OwnOrdersStay(own, if o.orderType == ASK then asks else bids, o, side');
  }

  /** The two sides of the book after an order from a friend: it is processed on its own side. */
  function Enter(bids: seq<OrderValue>, asks: seq<OrderValue>, mine: bool, o: OrderValue, now: int)
    : (seq<OrderValue>, seq<OrderValue>, RetVal)
  {
    if o.orderType == ASK then
      var (side, r) := ProcessOrder(asks, mine, o, now); (bids, side, r)
    else
      var (side, r) := ProcessOrder(bids, mine, o, now); (side, asks, r)
  }

  ghost predicate AllPositive(s: seq<Order>)
    reads s`amount
  {
    forall o :: o in s ==> o.amount > 0.0
  }

  class MyOrders {
    const book: OrderBook
    const bids: OrderBook
    const asks: OrderBook

    ghost predicate Valid()
      reads this, book, bids, asks
    {
      && book != bids && book != asks && bids != asks
      && book.Valid() && bids.Valid() && asks.Valid()
      && Indexed(book.orders, bids.orders, asks.orders)
    }

    constructor (currency: Currency)
      ensures Valid() && fresh(book) && fresh(bids) && fresh(asks)
      ensures book.orders == [] && bids.orders == [] && asks.orders == []
    {
      book := new OrderBook(currency);
      bids := new OrderBook(currency);
      asks := new OrderBook(currency);
    }

    /** processMyOrder, and one round of init: the order goes into the index and onto its side. */
    method PlaceOrder(order: Order)
      requires Valid() && order.isMyOrder
      requires (forall o :: o in bids.orders ==> o.id != order.id)
        && (forall o :: o in asks.orders ==> o.id != order.id)
      modifies book, bids, asks
      ensures Valid()
      ensures book.orders == old(book.orders) + [order]
      ensures bids.orders == old(bids.orders) + if order.orderType == BID then [order] else []
      ensures asks.orders == old(asks.orders) + if order.orderType == ASK then [order] else []
    {
      IndexedPlace(book.orders, bids.orders, asks.orders, order);
      book.AddOrder(order);
      if order.orderType == ASK {
        asks.AddOrder(order);
      } else {
        bids.AddOrder(order);
      }
    }

    /** Takes one of our own orders out of the index and off its side: a cancellation, or a bid or
        ask that is completely filled. A filled order may have been cancelled before. */
    method DropOrder(order: Order, purpose: Purpose)
      requires Valid() && OnlyItself(book.orders, order)
      modifies book, bids, asks, order`purpose
      ensures Valid() && order.purpose == purpose
      ensures book.orders == Erased(old(book.orders), order.id)
      ensures bids.orders == if order.orderType == BID then Erased(old(bids.orders), order.id) else old(bids.orders)
      ensures asks.orders == if order.orderType == ASK then Erased(old(asks.orders), order.id) else old(asks.orders)
      ensures order !in book.orders && order !in bids.orders && order !in asks.orders
    {
      IndexedDropAny(book.orders, bids.orders, asks.orders, order);
      var removed := book.Remove(order.id);
      if order.orderType == ASK {
        removed := asks.Remove(order.id);
      } else {
        removed := bids.Remove(order.id);
      }
      order.purpose := purpose;
    }

    /** The order shown at a row of the filtered view is cancelled. */
    method CancelOrder(index: nat) returns (order: Order)
      requires Valid() && index < |book.filtered|
      modifies book, bids, asks, book.orders
      ensures Valid() && order == old(book.filtered[index]) && order.purpose == CANCEL
      ensures book.orders == Erased(old(book.orders), order.id)
    {
      order := book.filtered[index];
      assert order in multiset(book.filtered);
      InCurrencyIsPart(book.orders, book.currency);
      assert order in book.orders;
      DropOrder(order, CANCEL);
    }

    method IncomingAsk(order: Order, now: int) returns (r: RetVal)
      requires Valid() && !order.isMyOrder && order !in asks.orders && order.orderType == ASK
      modifies asks, order`ignored
      ensures Valid()
      ensures (Values(asks.orders), r) == ProcessOrder(old(Values(asks.orders)),
        Position(book.orders, order.id) < |book.orders|, old(order.Value()), now)
      ensures forall o :: o in book.orders ==> (o in asks.orders <==> o in old(asks.orders))
    {
      r := asks.ProcessOrder(book, order, now);
      IndexedIncoming(book.orders, bids.orders, old(asks.orders), order, asks.orders);
      OwnOrdersStay(book.orders, old(asks.orders), order, asks.orders);
    }

    method IncomingBid(order: Order, now: int) returns (r: RetVal)
      requires Valid() && !order.isMyOrder && order !in bids.orders && order.orderType == BID
      modifies bids, order`ignored
      ensures Valid()
      ensures (Values(bids.orders), r) == ProcessOrder(old(Values(bids.orders)),
        Position(book.orders, order.id) < |book.orders|, old(order.Value()), now)
      ensures forall o :: o in book.orders ==> (o in bids.orders <==> o in old(bids.orders))
    {
      r := bids.ProcessOrder(book, order, now);
      IndexedIncoming(book.orders, old(bids.orders), asks.orders, order, bids.orders);
      OwnOrdersStay(book.orders, old(bids.orders), order, bids.orders);
    }

    /** handleOrder: an order from a friend never touches our own. */
    method Incoming(order: Order, now: int) returns (r: RetVal)
      requires Valid() && !order.isMyOrder && order !in bids.orders && order !in asks.orders
      modifies bids, asks, order`ignored
      ensures Valid() && book.orders == old(book.orders)
      ensures (Values(bids.orders), Values(asks.orders), r) == Enter(old(Values(bids.orders)), old(Values(asks.orders)),
        Position(book.orders, order.id) < |book.orders|, old(order.Value()), now)
      ensures forall o :: o in book.orders ==>
        (o in bids.orders <==> o in old(bids.orders)) && (o in asks.orders <==> o in old(asks.orders))
    {
      ghost var sides := (Values(bids.orders), Values(asks.orders));
      if order.orderType == ASK {
        r := IncomingAsk(order, now);
        assert Values(bids.orders) == sides.0;
      } else {
        r := IncomingBid(order, now);
        assert Values(asks.orders) == sides.1;
      }
    }

    /** The janitor's first two steps. */
    method Timeout(now: int)
      requires Valid()
      modifies book, bids, asks
      ensures Valid()
      ensures forall o :: o in book.orders <==> o in old(book.orders) && !Stale(o, now)
      ensures forall o :: o in bids.orders <==> o in old(bids.orders) && !Stale(o, now)
      ensures forall o :: o in asks.orders <==> o in old(asks.orders) && !Stale(o, now)
    {
      asks.TimeoutOrders(book, now);
      bids.TimeoutOrders(book, now);
    }

    /** A coordinator's rollback strikes the seller's order from our asks, if it is still there. */
    method ForgetAsk(other: Order)
      requires Valid() && forall o :: o in asks.orders && o.id == other.id ==> !o.isMyOrder
      modifies asks, other`ignored
      ensures Valid() && other.ignored
      ensures asks.orders == Erased(old(asks.orders), other.id)
    {
      other.ignored := true;
      IndexedForget(book.orders, bids.orders, asks.orders, other.id);
      var removed := asks.Remove(other.id);
    }

    /** Every order we could match still asks or offers something. */
    ghost predicate Tradable()
      reads this, book, bids, asks, book.orders`amount, asks.orders`amount
    {
      Valid() && AllPositive(asks.orders) && AllPositive(book.orders)
    }

    /** One pass of match for one bid; `pass.view` is the sorted list it walks. */
    method Match(myOrder: Order) returns (r: RetVal, purchases: seq<(Order, real)>, ghost pass: Pass)
      requires Valid() && AllPositive(asks.orders) && myOrder in bids.orders && myOrder.amount > 0.0
      modifies myOrder`locked, myOrder`matched
      ensures Valid()
      ensures pass == Pass(myOrder, old(myOrder.locked), myOrder.amount, old(myOrder.matched), pass.view, pass.asks,
                           purchases)
      ensures old(myOrder.locked) ==> r == Finish && purchases == [] && unchanged(myOrder)
      ensures !old(myOrder.locked) ==>
        && Sorted(pass.view) && multiset(pass.view) == multiset(InCurrency(asks.orders, myOrder.currency))
        && pass.asks == Asks(pass.view, pass.matched) && Sees(pass)
        && purchases == Plan(pass.view, pass.asks, myOrder.price, myOrder.amount)
        && myOrder.locked == (purchases != [])
      ensures PassOk(pass, asks.orders)
      ensures myOrder.matched == old(myOrder.matched) + Ids(purchases) && AllNew(old(myOrder.matched), purchases)
      ensures forall p :: p in purchases ==> IsSound(p, old(myOrder.matched), myOrder.price)
    {
      pass := Pass(myOrder, myOrder.locked, myOrder.amount, myOrder.matched, [], [], []);
      if myOrder.locked {
        return Finish, [], pass;
      }
      var list := asks.FilterOrders(myOrder.currency);
      ViewIsPart(asks.orders, list, myOrder.currency);
      assert OneSided(asks.orders) && myOrder !in list;
      r, purchases, pass := BuyFrom(list, myOrder);
      PlanIsSound(list, pass.matched, myOrder.price, myOrder.amount);
    }

    /** An order's turn in the loop: only bids are matched. */
    method MatchIfBid(order: Order) returns (purchases: seq<(Order, real)>, ghost pass: Pass)
      requires Tradable() && order in book.orders
      modifies order`locked, order`matched
      ensures Tradable()
      ensures pass.order == order && pass.bought == purchases && PassOk(pass, asks.orders)
      ensures pass.matched == old(order.matched) && order.matched == pass.matched + Ids(purchases)
    {
      purchases, pass := [], Pass(order, order.locked, order.amount, order.matched, [], [], []);
      if order.orderType == BID {
        var r: RetVal;
        r, purchases, pass := Match(order);
      }
    }

    /** The turn of the i-th order. */
    method MatchAt(list: seq<Order>, i: nat, order: Order) returns (purchases: seq<(Order, real)>, ghost pass: Pass)
      requires Tradable() && list == book.orders && i < |list| && order == list[i]
      modifies order`locked, order`matched
      ensures Tradable()
      ensures pass.order == list[i] && pass.bought == purchases && PassOk(pass, asks.orders)
      ensures pass.matched == old(order.matched)
      ensures Memories(list) == old(Memories(list))[i := pass.matched + Ids(purchases)]
    {
      assert forall k :: 0 <= k < |list| && k != i ==> list[k] != list[i];
      purchases, pass := MatchIfBid(order);
    }

    /** match over the whole index: every bid of ours that is not locked gets a pass. */
    method MatchAll() returns (bought: seq<seq<(Order, real)>>, ghost passes: seq<Pass>)
      requires Tradable()
      modifies book.orders
      ensures Tradable() && |passes| == |book.orders| && Recorded(book.orders, bought, passes, asks.orders)
      ensures Learned(passes, bought, old(Memories(book.orders)), Memories(book.orders))
    {
      bought, passes := [], [];
      ghost var all := asks.orders;
      var list := book.orders;
      ghost var before := Memories(list);
      for i := 0 to |list|
        invariant Tradable() && book.orders == list && asks.orders == all && |passes| == i
        invariant Recorded(list, bought, passes, all)
        invariant Learned(passes, bought, before, Memories(list))
      {
        ghost var now := Memories(list);
        var purchases, pass := MatchAt(list, i, list[i]);
        RecordedGrows(list, bought, passes, all, purchases, pass);
        LearnedGrows(passes, bought, before, now, purchases, pass);
        bought, passes := bought + [purchases], passes + [pass];
      }
    }
  }

  /** The loop, and what it has to do with what the bid remembers. */
  method BuyFrom(list: seq<Order>, myOrder: Order)
    returns (r: RetVal, purchases: seq<(Order, real)>, ghost pass: Pass)
    requires DistinctIds(list) && myOrder !in list && myOrder.amount > 0.0 && !myOrder.locked
    requires forall k :: 0 <= k < |list| ==> list[k].amount > 0.0
    modifies myOrder`locked, myOrder`matched
    ensures pass == Pass(myOrder, false, myOrder.amount, old(myOrder.matched), list,
                         Asks(list, old(myOrder.matched)), purchases)
    ensures purchases == Plan(list, pass.asks, myOrder.price, myOrder.amount) && Sees(pass)
    ensures myOrder.locked == (purchases != [])
    ensures myOrder.matched == old(myOrder.matched) + Ids(purchases) && AllNew(old(myOrder.matched), purchases)
  {
    ghost var matched, seen := myOrder.matched, Asks(list, myOrder.matched);
    r, purchases := WalkAsks(list, myOrder, seen);
    assert Asks(list, matched) == seen;
    pass := Pass(myOrder, false, myOrder.amount, matched, list, seen, purchases);
    PassIsNew(pass);
  }

  /** What each bid remembers. */
  ghost function Memories(list: seq<Order>): (m: seq<set<OrderId>>)
    reads list
    ensures |m| == |list| && forall k :: 0 <= k < |list| ==> m[k] == list[k].matched
  {
    seq(|list|, k requires 0 <= k < |list| reads list => list[k].matched)
  }

  /** Every bid that had its turn remembers what it bought from in addition, the others what they did. */
  ghost predicate Learned(passes: seq<Pass>, bought: seq<seq<(Order, real)>>, before: seq<set<OrderId>>,
                          now: seq<set<OrderId>>)
  {
    && |passes| == |bought| <= |before| == |now|
    && (forall k :: 0 <= k < |passes| ==>
         passes[k].matched == before[k] && now[k] == before[k] + Ids(bought[k]))
    && forall k :: |passes| <= k < |before| ==> now[k] == before[k]
  }

  lemma LearnedGrows(passes: seq<Pass>, bought: seq<seq<(Order, real)>>, before: seq<set<OrderId>>,
                     now: seq<set<OrderId>>, purchases: seq<(Order, real)>, pass: Pass)
    requires Learned(passes, bought, before, now) && |passes| < |now| && pass.matched == now[|passes|]
    ensures Learned(passes + [pass], bought + [purchases], before, now[|passes| := pass.matched + Ids(purchases)])
  {
  }

  /** A bid's turn: what it wanted, what it remembered, the asks as it saw them, and what it bought. */
  datatype Pass = Pass(order: Order, locked: bool, want: real, matched: set<OrderId>, view: seq<Order>,
                       asks: seq<Ask>, bought: seq<(Order, real)>)

  /** A turn skips the asks the bid remembers, and buys the plan or nothing. */
  ghost predicate Sees(p: Pass) {
    p.bought != [] ==>
      && |p.asks| == |p.view| && DistinctIds(p.view) && p.bought == Plan(p.view, p.asks, p.order.price, p.want)
      && forall k :: 0 <= k < |p.view| && p.view[k].id in p.matched ==> p.asks[k].skip
  }

  ghost predicate PassOk(p: Pass, asks: seq<Order>) {
    if p.order.orderType == ASK || p.locked then p.bought == []
    else
      && |p.asks| == |p.view| && Sorted(p.view) && multiset(p.view) == multiset(InCurrency(asks, p.order.currency))
      && Sees(p) && p.bought == Plan(p.view, p.asks, p.order.price, p.want)
  }

  /** The turns taken so far, in the order of the list. */
  ghost predicate Recorded(list: seq<Order>, bought: seq<seq<(Order, real)>>, passes: seq<Pass>, asks: seq<Order>) {
    && |bought| == |passes| <= |list|
    && forall k :: 0 <= k < |passes| ==>
         passes[k].order == list[k] && passes[k].bought == bought[k] && PassOk(passes[k], asks)
  }

  lemma RecordedGrows(list: seq<Order>, bought: seq<seq<(Order, real)>>, passes: seq<Pass>, asks: seq<Order>,
                      purchases: seq<(Order, real)>, pass: Pass)
    requires Recorded(list, bought, passes, asks) && |passes| < |list|
    requires pass.order == list[|passes|] && pass.bought == purchases && PassOk(pass, asks)
    ensures Recorded(list, bought + [purchases], passes + [pass], asks)
  {
  }

  /** The asks from i on were not touched by the purchases so far. */
  ghost predicate Ahead(list: seq<Order>, i: nat, matched: set<OrderId>, seen: set<OrderId>) {
    forall k :: i <= k < |list| ==> (list[k].id in seen <==> list[k].id in matched)
  }

  lemma AheadAdvances(list: seq<Order>, i: nat, matched: set<OrderId>, seen: set<OrderId>)
    requires DistinctIds(list) && i < |list| && Ahead(list, i, matched, seen)
    ensures Ahead(list, i + 1, matched, seen) && Ahead(list, i + 1, matched, seen + {list[i].id})
  {
  }

  /** The loop of match. Every purchase locks the bid and remembers the ask as matched. */
  method WalkAsks(list: seq<Order>, myOrder: Order, ghost all: seq<Ask>)
    returns (r: RetVal, purchases: seq<(Order, real)>)
    requires DistinctIds(list) && myOrder !in list && myOrder.amount > 0.0 && !myOrder.locked
    requires forall k :: 0 <= k < |list| ==> list[k].amount > 0.0
    requires all == Asks(list, myOrder.matched)
    modifies myOrder`locked, myOrder`matched
    ensures purchases == Plan(list, all, myOrder.price, myOrder.amount)
    ensures myOrder.matched == old(myOrder.matched) + Ids(purchases)
    ensures myOrder.locked == (purchases != [])
  {
    purchases := [];
    var amount := myOrder.amount;
    ghost var matched := myOrder.matched;
    ghost var plan := Plan(list, all, myOrder.price, amount);
    var i := 0;
    while i < |list|
      invariant 0 <= i <= |list| && amount > 0.0
      invariant plan == purchases + Plan(list[i..], all[i..], myOrder.price, amount)
      invariant Ahead(list, i, matched, myOrder.matched)
      invariant forall k :: i <= k < |list| ==> list[k].amount > 0.0 && all[k] == AskOf(list[k], matched)
      invariant myOrder.locked == (purchases != []) && myOrder.matched == matched + Ids(purchases)
    {
      var other := list[i];
      PlanRound(purchases, list, all, i, myOrder.price, amount);
      AheadAdvances(list, i, matched, myOrder.matched);
      if other.ignored || other.isMyOrder || other.id in myOrder.matched {
        i := i + 1;
        continue;
      }
      if myOrder.price < other.price {
        return Success, purchases;
      }
      myOrder.matched := myOrder.matched + {other.id};
      myOrder.locked := true;
      if amount > other.amount {
        IdsGrow(matched, purchases, other, other.amount);
        purchases := purchases + [(other, other.amount)];
      } else {
        IdsGrow(matched, purchases, other, amount);
        purchases := purchases + [(other, amount)];
        return Finish, purchases;
      }
      amount := amount - other.amount;
      i := i + 1;
    }
    assert purchases + [] == purchases;
    return Success, purchases;
  }
}
