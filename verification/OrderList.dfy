/** The order book as the source keeps it: a list of shared order objects with a filtered and
    sorted view beside it, and the node's own orders indexed across both sides. */
module OrderLists {
  import opened Common
  import opened OrderBooks

  ghost function Values(s: seq<Order>): (vs: seq<OrderValue>)
    reads s
    ensures |vs| == |s|
    ensures forall i :: 0 <= i < |s| ==> vs[i] == s[i].Value()
  {
    seq(|s|, i requires 0 <= i < |s| reads s => s[i].Value())
  }

  /** Position of the first order with an id; ids never change, so no heap is read. */
  function Position(s: seq<Order>, id: OrderId): (i: nat)
    ensures i <= |s|
    ensures forall j :: 0 <= j < i ==> s[j].id != id
    ensures i < |s| ==> s[i].id == id
  {
    if s == [] || s[0].id == id then 0 else 1 + Position(s[1..], id)
  }

  function Erased(s: seq<Order>, id: OrderId): seq<Order> {
    var i := Position(s, id);
    if i < |s| then s[..i] + s[i + 1..] else s
  }

  ghost predicate DistinctIds(s: seq<Order>) {
    forall i, j :: 0 <= i < j < |s| ==> s[i].id != s[j].id
  }

  lemma ErasedIsDistinct(s: seq<Order>, id: OrderId)
    requires DistinctIds(s)
    ensures DistinctIds(Erased(s, id))
    ensures forall o :: o in Erased(s, id) <==> o in s && o.id != id
  {
  }

  ghost predicate IsFresh(id: OrderId, s: seq<Order>) { forall o :: o in s ==> o.id != id }

  lemma DistinctWithOneMore(s: seq<Order>, o: Order)
    requires DistinctIds(s) && IsFresh(o.id, s)
    ensures DistinctIds(s + [o])
  {
  }

  /** The list of objects and the list of values are searched alike. */
  lemma {:induction false} PositionByValue(s: seq<Order>, id: OrderId)
    ensures Position(s, id) == FindIndex(Values(s), id)
  {
  }

  lemma ErasedByValue(s: seq<Order>, id: OrderId)
    ensures Values(Erased(s, id)) == Without(Values(s), id)
  {
    PositionByValue(s, id);
    var i, vs := Position(s, id), Values(s);
    if i < |s| {
      ShrunkByValue(s, i, vs);
    }
  }

  lemma ShrunkByValue(s: seq<Order>, i: nat, vs: seq<OrderValue>)
    requires i < |s| && vs == Values(s)
    ensures Values(s[..i] + s[i + 1..]) == vs[..i] + vs[i + 1..]
  {
  }

  lemma GrownByValue(s: seq<Order>, o: Order)
    ensures Values(s + [o]) == Values(s) + [o.Value()]
  {
  }

  lemma Replaced(s: seq<Order>, o: Order)
    requires DistinctIds(s)
    ensures Values(Erased(s, o.id) + [o]) == Without(Values(s), o.id) + [o.Value()]
    ensures DistinctIds(Erased(s, o.id)) && IsFresh(o.id, Erased(s, o.id))
  {
    ErasedByValue(s, o.id);
    GrownByValue(Erased(s, o.id), o);
    ErasedIsDistinct(s, o.id);
  }

  /** An order in another currency does not show and makes the list no more one-sided. */
  lemma HiddenOrder(s: seq<Order>, o: Order, currency: Currency)
    requires o.currency != currency
    ensures InCurrency(s + [o], currency) == InCurrency(s, currency)
    ensures OneSided(s + [o]) ==> OneSided(s)
  {
    InCurrencyAppend(s, [o], currency);
    assert forall i :: 0 <= i < |s| ==> (s + [o])[i] == s[i];
  }

  /** Old enough to be dropped, and no transaction has reserved anything on it. */
  predicate Stale(o: Order, now: int)
    reads o
  {
    Expires(now - o.timeStamp, o.commitment)
  }

  class OrderBook {
    var orders: seq<Order>
    var filtered: seq<Order>
    var currency: Currency

    /** The view shows the orders in the current currency, each as often as it is listed, and is
        sorted by price when the list is one side of the book. */
    ghost predicate ViewAgrees()
      reads this
    {
      && multiset(filtered) == multiset(InCurrency(orders, currency))
      && (OneSided(orders) ==> Sorted(filtered))
    }

    ghost predicate Valid()
      reads this
    {
      ViewAgrees() && DistinctIds(orders)
    }

    constructor (currency: Currency)
      ensures Valid() && orders == [] && this.currency == currency
    {
      orders, filtered, this.currency := [], [], currency;
    }

    /** filterOrders: collects the orders in a currency and sorts them. */
    method FilterOrders(currency: Currency) returns (r: seq<Order>)
      ensures multiset(r) == multiset(InCurrency(orders, currency))
      ensures OneSided(orders) ==> Sorted(r)
    {
      r := [];
      var i := 0;
      while i < |orders|
        invariant 0 <= i <= |orders|
        invariant r == InCurrency(orders[..i], currency)
      {
        assert orders[..i + 1] == orders[..i] + [orders[i]];
        InCurrencyAppend(orders[..i], [orders[i]], currency);
        if orders[i].currency == currency {
          r := r + [orders[i]];
        }
        i := i + 1;
      }
      assert orders[..i] == orders;
      if OneSided(orders) {
        InCurrencyIsPart(orders, currency);
        assert forall k :: 0 <= k < |r| ==> r[k] in InCurrency(orders, currency);
        SortSorts(r);
      }
      r := SortOrders(r);
    }

    method SetCurrency(currency: Currency)
      requires DistinctIds(orders)
      modifies this
      ensures Valid() && orders == old(orders) && this.currency == currency
    {
      this.currency := currency;
      filtered := FilterOrders(currency);
    }

    /** addOrder re-filters only when the order shows in the view. It does not look whether the id
        is listed already. */
    method AddOrder(order: Order)
      requires ViewAgrees()
      modifies this
      ensures ViewAgrees() && orders == old(orders) + [order] && currency == old(currency)
      ensures DistinctIds(old(orders)) && IsFresh(order.id, old(orders)) ==> Valid()
    {
      if DistinctIds(orders) && IsFresh(order.id, orders) {
        DistinctWithOneMore(orders, order);
      }
      orders := orders + [order];
      if order.currency != currency {
        HiddenOrder(old(orders), order, currency);
        return;
      }
      filtered := FilterOrders(currency);
    }

    method Remove(id: OrderId) returns (removed: Order?)
      requires Valid()
      modifies this
      ensures Valid() && orders == Erased(old(orders), id) && currency == old(currency)
      ensures removed == null <==> Position(old(orders), id) == |old(orders)|
      ensures removed != null ==> removed == old(orders)[Position(old(orders), id)]
    {
      removed := null;
      var i := 0;
      while i < |orders|
        invariant 0 <= i <= |orders|
        invariant forall j :: 0 <= j < i ==> orders[j].id != id
      {
        if orders[i].id == id {
          break;
        }
        i := i + 1;
      }
      assert i == Position(orders, id);
      if i < |orders| {
        removed := orders[i];
        ErasedIsDistinct(orders, id);
        orders := orders[..i] + orders[i + 1..];
        filtered := FilterOrders(currency);
      }
    }

    method Find(id: OrderId) returns (found: Order?)
      ensures found == null <==> Position(orders, id) == |orders|
      ensures found != null ==> found == orders[Position(orders, id)]
    {
      var i := 0;
      while i < |orders|
        invariant 0 <= i <= |orders|
        invariant forall j :: 0 <= j < i ==> orders[j].id != id
      {
        if orders[i].id == id {
          assert i == Position(orders, id);
          return orders[i];
        }
        i := i + 1;
      }
      assert i == Position(orders, id);
      return null;
    }

    method WithdrawOrder(id: OrderId) returns (r: RetVal)
      requires Valid()
      modifies this
      ensures Valid() && currency == old(currency) && orders == Erased(old(orders), id)
      ensures (Values(orders), r) == Withdraw(old(Values(orders)), id)
    {
      PositionByValue(orders, id);
      ErasedByValue(orders, id);
      var removed := Remove(id);
      return if removed != null then Success else Finish;
    }

    method AdmitOrder(order: Order) returns (r: RetVal)
      requires Valid()
      modifies this
      ensures Valid() && currency == old(currency)
      ensures orders == if r == Success then Erased(old(orders), order.id) + [order] else old(orders)
      ensures (Values(orders), r) == Admit(old(Values(orders)), order.Value())
    {
      PositionByValue(orders, order.id);
      var known := Find(order.id);
      if known != null {
        return Finish;
      }
      GrownByValue(orders, order);
      AddOrder(order);
      return Success;
    }

    /** Takes out the listed version of an order and puts the new one in. */
    method ReplaceOrder(order: Order)
      requires Valid()
      modifies this
      ensures Valid() && currency == old(currency) && orders == Erased(old(orders), order.id) + [order]
      ensures Values(orders) == Without(old(Values(orders)), order.id) + [order.Value()]
    {
      Replaced(orders, order);
      var removed := Remove(order.id);
      AddOrder(order);
    }

    method UpdateOrder(order: Order) returns (r: RetVal)
      requires Valid() && order !in orders
      modifies this, order`ignored
      ensures Valid() && currency == old(currency)
      ensures orders == if r == Success then Erased(old(orders), order.id) + [order] else old(orders)
      ensures (Values(orders), r) == Update(old(Values(orders)), old(order.Value()))
    {
      PositionByValue(orders, order.id);
      var known := Find(order.id);
      if known != null {
        if order.amount == known.amount {
          return Finish;
        }
        order.ignored := known.ignored;
      }
      ReplaceOrder(order);
      return Success;
    }

    /** processOrder on this side of the book; mine is the index of our own orders. */
    method ProcessOrder(mine: OrderBook, order: Order, now: int) returns (r: RetVal)
      requires Valid() && order !in orders && mine != this
      modifies this, order`ignored
      ensures Valid() && currency == old(currency)
      ensures (Values(orders), r) == OrderBooks.ProcessOrder(old(Values(orders)),
        Position(mine.orders, order.id) < |mine.orders|, old(order.Value()), now)
      ensures orders == old(orders) || orders == Erased(old(orders), order.id) + [order]
        || orders == Erased(old(orders), order.id)
      ensures Position(mine.orders, order.id) < |mine.orders| ==> orders == old(orders)
      ensures r == Failure <==>
        || Position(mine.orders, order.id) < |mine.orders|
        || now - order.timeStamp > 86400000 || order.timeStamp - now > 3600000
      ensures r == Failure ==> orders == old(orders)
    {
      var own := mine.Find(order.id);
      if own != null {
        return Failure;
      }
      if now - order.timeStamp > ORDER_TIMEOUT || order.timeStamp - now > MAX_CLOCK_SKEW {
        return Failure;
      }
      if order.purpose == FILLED || order.purpose == CANCEL {
        r := WithdrawOrder(order.id);
      } else if order.purpose == PARTLY_FILLED {
        r := UpdateOrder(order);
      } else {
        r := AdmitOrder(order);
      }
    }

    /** One round of timeoutOrders. */
    method DropIfStale(mine: OrderBook, order: Order, now: int)
      requires Valid() && mine.Valid() && mine != this && order in orders
      requires forall x :: x in mine.orders && x.id == order.id ==> x == order
      modifies this, mine
      ensures Valid() && mine.Valid()
      ensures currency == old(currency) && mine.currency == old(mine.currency)
      ensures forall o :: o in orders <==> o in old(orders) && !(o == order && Stale(o, now))
      ensures forall o :: o in mine.orders <==> o in old(mine.orders) && !(o == order && Stale(o, now) && o.isMyOrder)
    {
      if now - order.timeStamp > ORDER_TIMEOUT && order.commitment == 0.0 {
        ErasedIsDistinct(orders, order.id);
        var removed := Remove(order.id);
        if order.isMyOrder {
          ErasedIsDistinct(mine.orders, order.id);
          removed := mine.Remove(order.id);
        }
      }
    }

    /** timeoutOrders: drops what is too old and not reserved, also from the index of our own. */
    method TimeoutOrders(mine: OrderBook, now: int)
      requires Valid() && mine.Valid() && mine != this
      requires forall x, y :: x in mine.orders && y in orders && x.id == y.id ==> x == y
      modifies this, mine
      ensures Valid() && mine.Valid()
      ensures currency == old(currency) && mine.currency == old(mine.currency)
      ensures forall o :: o in orders <==> o in old(orders) && !Stale(o, now)
      ensures forall o :: o in mine.orders <==>
        o in old(mine.orders) && !(o in old(orders) && Stale(o, now) && o.isMyOrder)
      ensures forall o :: o in old(orders) ==>
        (o in orders <==> now - o.timeStamp <= 86400000 || o.commitment != 0.0)
    {
      var copy := orders;
      var i := 0;
      while i < |copy|
        invariant 0 <= i <= |copy| && Valid() && mine.Valid()
        invariant currency == old(currency) && mine.currency == old(mine.currency)
        invariant forall o :: o in orders ==> o in copy
        invariant forall k :: 0 <= k < |copy| ==> (copy[k] in orders <==> !(k < i && Stale(copy[k], now)))
        invariant forall o :: o in mine.orders <==>
          o in old(mine.orders) && !(o in copy[..i] && Stale(o, now) && o.isMyOrder)
      {
        assert copy[..i + 1] == copy[..i] + [copy[i]];
        DropIfStale(mine, copy[i], now);
        i := i + 1;
      }
      assert copy[..i] == copy;
    }
  }
}
