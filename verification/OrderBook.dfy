/** One side of the order book, and the index of our own orders (OrderBook.cpp, MyOrders.cpp). */
module OrderBooks {
  import opened Common

  datatype OrderType = BID | ASK

  datatype Purpose = NEW | CANCEL | FILLED | PARTLY_FILLED | SELL

  const ORDER_TIMEOUT := 86400000
  const MAX_CLOCK_SKEW := 3600000

  /** An order of that age is dropped, unless a transaction has reserved something on it. */
  predicate Expires(age: int, commitment: real) { age > ORDER_TIMEOUT && commitment == 0.0 }

  /** An order as a value: what is told to friends, and what this node remembers about it. */
  datatype OrderValue = OrderValue(
    id: OrderId, orderType: OrderType, price: real, currency: Currency, timeStamp: int,
    amount: real, purpose: Purpose, ignored: bool, isMyOrder: bool)

  class Order {
    const id: OrderId
    const orderType: OrderType
    const price: real
    const currency: Currency
    const timeStamp: int
    const isMyOrder: bool
    var amount: real
    var purpose: Purpose
    var commitment: real
    var locked: bool
    var ignored: bool
    var matched: set<OrderId>

    function Value(): OrderValue
      reads this
    {
      OrderValue(id, orderType, price, currency, timeStamp, amount, purpose, ignored, isMyOrder)
    }

    constructor (id: OrderId, orderType: OrderType, price: real, currency: Currency, timeStamp: int,
                 isMyOrder: bool, amount: real, purpose: Purpose)
      ensures Value() == OrderValue(id, orderType, price, currency, timeStamp, amount, purpose, false, isMyOrder)
      ensures commitment == 0.0 && !locked && matched == {}
    {
      this.id, this.orderType, this.price, this.currency := id, orderType, price, currency;
      this.timeStamp, this.isMyOrder, this.amount, this.purpose := timeStamp, isMyOrder, amount, purpose;
      commitment, locked, ignored, matched := 0.0, false, false, {};
    }
  }

  // ---- Sorting and filtering ----

  /** compareOrder looks at the left order's side only. */
  predicate Before(left: Order, right: Order) {
    if left.orderType == BID then left.price > right.price else left.price < right.price
  }

  ghost predicate OneSided(s: seq<Order>) {
    forall i, j :: 0 <= i < |s| && 0 <= j < |s| ==> s[i].orderType == s[j].orderType
  }

  /** No order comes after one it should precede. */
  ghost predicate Sorted(s: seq<Order>) {
    forall i, j :: 0 <= i < j < |s| ==> !Before(s[j], s[i])
  }

  /** On one side of the book the comparison is a strict weak order, as a sort needs it. Across
      sides it is not: it holds both ways exactly for a bid above an ask. */
  lemma ComparisonIsSoundOnOneSide(a: Order, b: Order, c: Order)
    ensures a.orderType == b.orderType == c.orderType ==>
      && !(Before(a, b) && Before(b, a)) && (Before(a, b) && Before(b, c) ==> Before(a, c))
      && (!Before(a, b) && !Before(b, c) ==> !Before(a, c))
    ensures a.orderType == BID && b.orderType == ASK ==> (Before(a, b) && Before(b, a) <==> a.price > b.price)
  {
  }

  function Insert(o: Order, s: seq<Order>): (r: seq<Order>)
    ensures multiset(r) == multiset{o} + multiset(s)
  {
    if s == [] then [o]
    else if Before(s[0], o) then
      assert s == [s[0]] + s[1..];
      [s[0]] + Insert(o, s[1..])
    else [o] + s
  }

  /** Stands for the library's qSort: some permutation, sorted when the comparison is sound. */
  function SortOrders(s: seq<Order>): (r: seq<Order>)
    ensures multiset(r) == multiset(s)
  {
    if s == [] then []
    else
      assert s == [s[0]] + s[1..];
      Insert(s[0], SortOrders(s[1..]))
  }

  lemma {:induction false} InsertSorts(o: Order, s: seq<Order>)
    requires Sorted(s) && forall x :: x in s ==> x.orderType == o.orderType
    requires OneSided(s)
    ensures Sorted(Insert(o, s))
  {
    if s != [] && Before(s[0], o) {
      var rest := Insert(o, s[1..]);
      InsertSorts(o, s[1..]);
      forall j | 0 <= j < |rest| ensures !Before(rest[j], s[0]) {
        assert rest[j] in multiset(rest);
        assert rest[j] == o || rest[j] in s[1..];
      }
    }
  }

  lemma {:induction false} SortSorts(s: seq<Order>)
    requires OneSided(s)
    ensures Sorted(SortOrders(s))
  {
    if s != [] {
      var rest := SortOrders(s[1..]);
      assert OneSided(s[1..]);
      SortSorts(s[1..]);
      forall x | x in rest ensures x.orderType == s[0].orderType {
        assert x in multiset(rest);
        assert x in s[1..];
      }
      InsertSorts(s[0], rest);
    }
  }

  function InCurrency(s: seq<Order>, currency: Currency): seq<Order> {
    if s == [] then []
    else (if s[0].currency == currency then [s[0]] else []) + InCurrency(s[1..], currency)
  }

  lemma {:induction false} InCurrencyAppend(a: seq<Order>, b: seq<Order>, currency: Currency)
    ensures InCurrency(a + b, currency) == InCurrency(a, currency) + InCurrency(b, currency)
  {
    if a == [] {
      assert a + b == b;
    } else {
      var first := if a[0].currency == currency then [a[0]] else [];
      assert (a + b)[0] == a[0] && (a + b)[1..] == a[1..] + b;
      InCurrencyAppend(a[1..], b, currency);
      assert first + (InCurrency(a[1..], currency) + InCurrency(b, currency)) ==
        (first + InCurrency(a[1..], currency)) + InCurrency(b, currency);
    }
  }

  lemma {:induction false} InCurrencyIsPart(s: seq<Order>, currency: Currency)
    ensures forall k :: 0 <= k < |InCurrency(s, currency)| ==>
      InCurrency(s, currency)[k] in s && InCurrency(s, currency)[k].currency == currency
    ensures forall k :: 0 <= k < |s| && s[k].currency == currency ==> s[k] in InCurrency(s, currency)
  {
    if s != [] {
      var rest := InCurrency(s[1..], currency);
      InCurrencyIsPart(s[1..], currency);
      var all := InCurrency(s, currency);
      assert all == if s[0].currency == currency then [s[0]] + rest else rest;
      assert forall k :: 0 <= k < |rest| ==> rest[k] in s[1..];
      assert forall k :: 1 <= k < |s| ==> s[k] == s[1..][k - 1];
    }
  }

  // ---- The raw list, by value ----

  function FindIndex(s: seq<OrderValue>, id: OrderId): (i: nat)
    ensures i <= |s|
    ensures forall j :: 0 <= j < i ==> s[j].id != id
    ensures i < |s| ==> s[i].id == id
  {
    if s == [] || s[0].id == id then 0 else 1 + FindIndex(s[1..], id)
  }

  function Without(s: seq<OrderValue>, id: OrderId): seq<OrderValue> {
    var i := FindIndex(s, id);
    if i < |s| then s[..i] + s[i + 1..] else s
  }

  predicate BadTimeStamp(o: OrderValue, now: int) {
    now - o.timeStamp > ORDER_TIMEOUT || o.timeStamp - now > MAX_CLOCK_SKEW
  }

  /** A partial fill: it replaces what is listed, or lists what was missed, unless the amount is
      known already. */
  function Update(book: seq<OrderValue>, o: OrderValue): (seq<OrderValue>, RetVal) {
    var i := FindIndex(book, o.id);
    if i == |book| then (book + [o], Success)
    else if book[i].amount == o.amount then (book, Finish)
    else (Without(book, o.id) + [o.(ignored := book[i].ignored)], Success)
  }

  function Withdraw(book: seq<OrderValue>, id: OrderId): (seq<OrderValue>, RetVal) {
    (Without(book, id), if FindIndex(book, id) < |book| then Success else Finish)
  }

  function Admit(book: seq<OrderValue>, o: OrderValue): (seq<OrderValue>, RetVal) {
    if FindIndex(book, o.id) < |book| then (book, Finish) else (book + [o], Success)
  }

  /** processOrder: the book after an incoming order and what the caller is told. Success means
      that the order is news and is passed on. `mine` tells that it is one of our own. */
  function ProcessOrder(book: seq<OrderValue>, mine: bool, o: OrderValue, now: int): (seq<OrderValue>, RetVal) {
    if mine || BadTimeStamp(o, now) then (book, Failure)
    else if o.purpose == FILLED || o.purpose == CANCEL then Withdraw(book, o.id)
    else if o.purpose == PARTLY_FILLED then Update(book, o)
    else Admit(book, o)
  }

  ghost predicate UniqueIds(s: seq<OrderValue>) {
    forall i, j :: 0 <= i < j < |s| ==> s[i].id != s[j].id
  }

  lemma WithoutHasNoId(s: seq<OrderValue>, id: OrderId)
    requires UniqueIds(s)
    ensures UniqueIds(Without(s, id))
    ensures forall k :: 0 <= k < |Without(s, id)| ==> Without(s, id)[k].id != id && Without(s, id)[k] in s
  {
  }

  /** Incoming gossip never makes an id appear twice. */
  lemma ProcessKeepsIdsUnique(book: seq<OrderValue>, mine: bool, o: OrderValue, now: int)
    requires UniqueIds(book)
    ensures UniqueIds(ProcessOrder(book, mine, o, now).0)
  {
  }

  /** The update an order item carries is already in the book. */
  predicate Known(book: seq<OrderValue>, o: OrderValue) {
    var i := FindIndex(book, o.id);
    if o.purpose == FILLED || o.purpose == CANCEL then i == |book|
    else if o.purpose == PARTLY_FILLED then i < |book| && book[i].amount == o.amount
    else i < |book|
  }

  lemma {:induction false} FindAtEnd(s: seq<OrderValue>, o: OrderValue)
    requires FindIndex(s, o.id) == |s|
    ensures FindIndex(s + [o], o.id) == |s|
  {
    var i := FindIndex(s + [o], o.id);
    assert (s + [o])[|s|] == o;
    assert forall j :: 0 <= j < |s| ==> (s + [o])[j] == s[j];
  }

  /** No gossip brings an order that was struck from matching back into it: as long as it is listed it
      stays struck, also when its owner publishes what is left of it. */
  lemma IgnoredStays(book: seq<OrderValue>, mine: bool, o: OrderValue, now: int, i: nat, j: nat)
    requires UniqueIds(book) && i < |book| && book[i].ignored
    ensures var book' := ProcessOrder(book, mine, o, now).0;
      j < |book'| && book'[j].id == book[i].id ==> book'[j].ignored
  {
    var book' := ProcessOrder(book, mine, o, now).0;
    if j < |book'| && book'[j].id == book[i].id {
      WithoutHasNoId(book, o.id);
      if book' != book && j < |Without(book, o.id)| {
        assert book'[j] == Without(book, o.id)[j] && book'[j] in book;
      }
    }
  }

  /** An update is passed on exactly when it is news; afterwards it is known, and a second
      delivery changes nothing. */
  lemma PassedOnOnce(book: seq<OrderValue>, o: OrderValue, now: int)
    requires UniqueIds(book) && now - o.timeStamp <= 86400000 && o.timeStamp - now <= 3600000
    ensures
      var (book', r) := ProcessOrder(book, false, o, now);
      && (r == Success <==> !Known(book, o)) && Known(book', o)
      && (r != Success ==> book' == book)
      && ProcessOrder(book', false, o, now) == (book', Finish)
  {
    var book' := ProcessOrder(book, false, o, now).0;
    if o.purpose != FILLED && o.purpose != CANCEL && !Known(book, o) {
      var kept := Without(book, o.id);
      assert book' == kept + [book'[|book'| - 1]];
      FindAtEnd(kept, book'[|book'| - 1]);
    }
  }
}
