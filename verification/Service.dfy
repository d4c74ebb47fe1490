/** The service that connects a node to its friends (p3ZeroReserveRS.cpp): the handlers of incoming
    orders and credits, publication, and the order book for a new neighbour. */
module Services {
  import opened Common
  import opened Accounts
  import opened OrderBooks
  import opened OrderLists
  import opened MyOrderLists
  import opened Gossip
  import opened Routers

  /** Only friends that could settle a tenth of the order hear of it: of an ask if we can pay
      them, of a bid if they can pay us. The source's test of the purpose is always true. */
  predicate WorthRouting(row: Account, o: OrderValue) {
    if o.orderType == ASK then MyAvailable(row) >= o.amount * 0.1 else PeerAvailable(row) >= o.amount * 0.1
  }

  datatype MsgType = REQUEST_ORDERBOOK | SENT_ORDERBOOK

  datatype Message = Message(addressee: Option<Peer>, kind: MsgType)

  predicate Chosen(p: Peer, ownId: Peer, sender: Option<Peer>, peers: map<Key, Account>, o: OrderValue) {
    p != ownId && Some(p) != sender && WorthRouting(Row(peers, (p, o.currency)), o)
  }

  function Recipients(online: seq<Peer>, ownId: Peer, sender: Option<Peer>, peers: map<Key, Account>,
                      o: OrderValue): seq<Peer>
  {
    if online == [] then []
    else
      (if Chosen(online[0], ownId, sender, peers, o) then [online[0]] else [])
        + Recipients(online[1..], ownId, sender, peers, o)
  }

  lemma {:induction false} RecipientsArePart(online: seq<Peer>, ownId: Peer, sender: Option<Peer>,
                                             peers: map<Key, Account>, o: OrderValue, to: seq<Peer>)
    requires forall j, k :: 0 <= j < k < |online| ==> online[j] != online[k]
    requires to == Recipients(online, ownId, sender, peers, o)
    ensures forall k :: 0 <= k < |to| ==> to[k] in online && to[k] != ownId && Some(to[k]) != sender
    ensures forall j, k :: 0 <= j < k < |to| ==> to[j] != to[k]
  {
    if online != [] {
      var rest := Recipients(online[1..], ownId, sender, peers, o);
      RecipientsArePart(online[1..], ownId, sender, peers, o, rest);
      forall k | 0 <= k < |rest| ensures rest[k] in online && rest[k] != online[0] {
        assert rest[k] in online[1..];
      }
      assert to == rest || to == [online[0]] + rest;
    }
  }

  /** What a friend could still pay us, or we the friend, depending on who pays for the order. */
  function CreditFor(row: Account, orderType: OrderType): real {
    if orderType == ASK then row.ourCredit + row.balance else row.credit - row.balance - row.allocation
  }

  /** Exactly the peers that are neither this node nor the sender hear of an order, as far as the
      credit on the line suffices for a tenth of it. */
  lemma {:induction false} RecipientsHave(online: seq<Peer>, ownId: Peer, sender: Option<Peer>,
                                          peers: map<Key, Account>, o: OrderValue, p: Peer)
    ensures p in Recipients(online, ownId, sender, peers, o) <==>
      p in online && p != ownId && Some(p) != sender
      && CreditFor(Row(peers, (p, o.currency)), o.orderType) >= o.amount * 0.1
  {
    if online != [] {
      RecipientsHave(online[1..], ownId, sender, peers, o, p);
    }
  }

  lemma PublishedToChosen(online: seq<Peer>, ownId: Peer, sender: Option<Peer>, peers: map<Key, Account>, o: OrderValue)
    ensures var sent := Published(ownId, Recipients(online, ownId, sender, peers, o), o);
      forall p :: Packet(ownId, p, Wire(o)) in sent <==>
        p in online && p != ownId && Some(p) != sender
        && CreditFor(Row(peers, (p, o.currency)), o.orderType) >= o.amount * 0.1
  {
    var to := Recipients(online, ownId, sender, peers, o);
    var sent := Published(ownId, to, o);
    forall p: Peer ensures Packet(ownId, p, Wire(o)) in sent <==> p in to {
      if p in to {
        var k :| 0 <= k < |to| && to[k] == p;
        assert sent[k] == Packet(ownId, p, Wire(o));
      }
    }
    forall p: Peer {
      RecipientsHave(online, ownId, sender, peers, o, p);
    }
  }

  /** Whoever is online among the friends, a publication is one the gossip model allows. */
  lemma RecipientsAreAddressees(w: World, v: Peer, online: seq<Peer>, sender: Option<Peer>,
                                peers: map<Key, Account>, o: OrderValue)
    requires v < |w.friends| && forall k :: 0 <= k < |online| ==> online[k] == v || online[k] in w.friends[v]
    requires forall j, k :: 0 <= j < k < |online| ==> online[j] != online[k]
    ensures Addressees(w, v, sender, Recipients(online, v, sender, peers, o))
  {
    RecipientsArePart(online, v, sender, peers, o, Recipients(online, v, sender, peers, o));
  }

  lemma {:induction false} RecipientsGrow(a: seq<Peer>, p: Peer, ownId: Peer, sender: Option<Peer>,
                                          peers: map<Key, Account>, o: OrderValue)
    ensures Recipients(a + [p], ownId, sender, peers, o) ==
      Recipients(a, ownId, sender, peers, o) + if Chosen(p, ownId, sender, peers, o) then [p] else []
  {
    if a == [] {
      assert a + [p] == [p] && [p][1..] == [];
    } else {
      assert (a + [p])[1..] == a[1..] + [p];
      RecipientsGrow(a[1..], p, ownId, sender, peers, o);
    }
  }

  ghost function IdsOf(orders: seq<Order>): set<OrderId> { set o | o in orders :: o.id }

  class ZeroReserveService {
    const ownId: Peer
    const db: ZrDB
    const router: TraceRouter
    const myOrders: MyOrders

    ghost predicate Valid()
      reads this, myOrders, myOrders.book, myOrders.bids, myOrders.asks
    {
      myOrders.Valid()
    }

    /** What the gossip model sees of this node. */
    ghost function View(): Node
      reads this, router, myOrders, myOrders.book, myOrders.bids, myOrders.asks
      reads myOrders.bids.orders, myOrders.asks.orders
    {
      Node(router.routingTable, IdsOf(myOrders.book.orders),
           Values(myOrders.bids.orders), Values(myOrders.asks.orders))
    }

    constructor (ownId: Peer, db: ZrDB, currency: Currency)
      ensures Valid() && this.ownId == ownId && this.db == db
      ensures View() == Node(map[], {}, [], [])
    {
      this.ownId, this.db := ownId, db;
      router := new TraceRouter();
      myOrders := new MyOrders(currency);
    }

    method CanSettle(peer: Peer, order: Order) returns (worth: bool)
      ensures worth == WorthRouting(Row(db.peers, (peer, order.currency)), order.Value())
    {
      var c := new Credit(peer, order.currency);
      c.LoadPeer(db);
      if order.orderType == ASK {
        var mine := c.GetMyAvailable();
        return mine >= order.amount * 0.1;
      }
      var theirs := c.GetPeerAvailable();
      return theirs >= order.amount * 0.1;
    }

    /** Not this node itself, and not back to the sender. */
    method Hears(peer: Peer, order: Order, sender: Option<Peer>) returns (hears: bool)
      ensures hears == Chosen(peer, ownId, sender, db.peers, order.Value())
    {
      if peer == ownId || Some(peer) == sender {
        return false;
      }
      hears := CanSettle(peer, order);
    }

    /** publishOrder, to the peers that are online; with a sender when the order was received. */
    method PublishOrder(order: Order, online: seq<Peer>, sender: Option<Peer>) returns (sent: seq<Packet>)
      ensures sent == Published(ownId, Recipients(online, ownId, sender, db.peers, order.Value()), order.Value())
      ensures forall p :: Wired(p, order) in sent <==>
        p in online && p != ownId && Some(p) != sender
        && CreditFor(Row(db.peers, (p, order.currency)), order.orderType) >= order.amount * 0.1
    {
      sent := [];
      ghost var to: seq<Peer> := [];
      for i := 0 to |online|
        invariant to == Recipients(online[..i], ownId, sender, db.peers, order.Value())
        invariant |sent| == |to| && forall k :: 0 <= k < |to| ==> sent[k] == Wired(to[k], order)
      {
        assert online[..i + 1] == online[..i] + [online[i]];
        RecipientsGrow(online[..i], online[i], ownId, sender, db.peers, order.Value());
        var hears := Hears(online[i], order, sender);
        if !hears {
          continue;
        }
        to := to + [online[i]];
        sent := sent + [Wired(online[i], order)];
      }
      assert online[..|online|] == online;
      PublishedToChosen(online, ownId, sender, db.peers, order.Value());
    }

    /** sendOrder: the item carries a copy of the order. */
    function Wired(to: Peer, order: Order): Packet
      reads this, order
    {
      Packet(ownId, to, Wire(order.Value()))
    }

    method SendAll(to: Peer, orders: seq<Order>) returns (sent: seq<Packet>)
      ensures sent == BookPackets(ownId, to, Values(orders))
    {
      sent := [];
      for i := 0 to |orders|
        invariant |sent| == i
        invariant forall k :: 0 <= k < i ==> sent[k] == Wired(to, orders[k])
      {
        sent := sent + [Wired(to, orders[i])];
      }
    }

    /** Answers a new neighbour's request: all asks, then all bids, then the closing message, whose
        addressee the source never sets. */
    method SendOrderBook(to: Peer) returns (sent: seq<Packet>, closing: Message)
      ensures sent == BookPackets(ownId, to, View().asks) + BookPackets(ownId, to, View().bids)
      ensures closing == Message(None, SENT_ORDERBOOK)
    {
      var asks := SendAll(to, myOrders.asks.orders);
      var bids := SendAll(to, myOrders.bids.orders);
      return asks + bids, Message(None, SENT_ORDERBOOK);
    }

    /** A route is added before the order is looked at, and only if there is none. */
    method LearnRouteTo(id: OrderId, from: Peer)
      modifies router
      ensures router.routingTable == LearnRoute(old(router.routingTable), id, from)
    {
      var known := router.HasRoute(id);
      if !known {
        router.AddRoute(id, from);
      }
    }

    /** The part of handleOrder before publication. */
    method EnterOrder(order: Order, from: Peer, now: int) returns (r: RetVal)
      requires Valid() && !order.isMyOrder && order !in myOrders.bids.orders && order !in myOrders.asks.orders
      modifies router, myOrders.bids, myOrders.asks, order`ignored
      ensures Valid()
      ensures (View(), r) == Gossip.HandleOrder(old(View()), from, old(order.Value()), now)
      ensures router.routingTable ==
        if order.id in old(router.routingTable) then old(router.routingTable)
        else old(router.routingTable)[order.id := from]
    {
      ghost var before, o := View(), order.Value();
      LearnRouteTo(order.id, from);
      assert Values(myOrders.bids.orders) == before.bids && Values(myOrders.asks.orders) == before.asks
        && order.Value() == o;
      r := myOrders.Incoming(order, now);
      ghost var after := Enter(before.bids, before.asks, o.id in before.mine, o, now);
      assert View() == Node(LearnRoute(before.routes, o.id, from), before.mine, after.0, after.1);
    }

    /** handleOrder for a copy of the order that arrived; it is published if it was news. */
    method HandleOrder(order: Order, from: Peer, now: int, online: seq<Peer>) returns (r: RetVal, sent: seq<Packet>)
      requires Valid() && !order.isMyOrder && order !in myOrders.bids.orders && order !in myOrders.asks.orders
      modifies router, myOrders.bids, myOrders.asks, order`ignored
      ensures Valid()
      ensures (View(), r) == Gossip.HandleOrder(old(View()), from, old(order.Value()), now)
      ensures router.routingTable ==
        if order.id in old(router.routingTable) then old(router.routingTable)
        else old(router.routingTable)[order.id := from]
      ensures sent == if r == Success
        then Published(ownId, Recipients(online, ownId, Some(from), db.peers, order.Value()), order.Value()) else []
    {
      r := EnterOrder(order, from, now);
      sent := [];
      if r == Success {
        sent := PublishOrder(order, online, Some(from));
      }
    }

    /** A friend tells what credit it grants us: after that our record agrees with the friend's. */
    method HandleCredit(from: Peer, currency: Currency, granted: real)
      modifies db
      ensures var k := (from, currency);
        db.peers == if Row(old(db.peers), k).ourCredit == granted then old(db.peers)
                    else old(db.peers)[k := Row(old(db.peers), k).(ourCredit := granted)]
      ensures Row(db.peers, (from, currency)).ourCredit == granted
    {
      var ourCredit := new Credit(from, currency);
      ourCredit.LoadPeer(db);
      if ourCredit.ourCredit != granted {
        if (from, currency) !in db.peers {
          db.peers := db.peers[(from, currency) := NO_ACCOUNT];
        }
        db.peers := db.peers[(from, currency) := db.peers[(from, currency)].(ourCredit := granted)];
      }
    }
  }
}
