/** Orders spread from friend to friend and leave routes behind (p3ZeroReserveRS.cpp: handleOrder,
    publishOrder, sendOrderBook; OrderBook.cpp: processOrder). Packets may arrive in any order. */
module Gossip {
  import opened Common
  import opened OrderBooks

  /** What one node holds: routes, the ids of its own orders, and the two raw sides of the book. */
  datatype Node = Node(routes: map<OrderId, Peer>, mine: set<OrderId>, bids: seq<OrderValue>, asks: seq<OrderValue>)

  datatype Packet = Packet(from: Peer, to: Peer, order: OrderValue)

  /** Who is a friend of whom, and who creates the orders under an id. */
  datatype World = World(friends: seq<set<Peer>>, origin: OrderId -> Peer)

  /** `stamp` is history: when a node learned a route, by a clock that counts steps. */
  datatype State = State(nodes: seq<Node>, net: seq<Packet>, clock: nat, stamp: map<(Peer, OrderId), nat>)

  datatype Step =
    | Own(v: Peer, order: OrderValue, to: seq<Peer>)
    | Receive(i: nat, now: int, to: seq<Peer>)
    | SendBook(v: Peer, friend: Peer)
    | Drop(v: Peer, side: OrderType, id: OrderId)

  // ---- One node ----

  /** An order as it travels: what a node remembers about it stays at home. */
  function Wire(o: OrderValue): (w: OrderValue)
    ensures !w.ignored && !w.isMyOrder && w.(ignored := o.ignored, isMyOrder := o.isMyOrder) == o
  {
    o.(ignored := false, isMyOrder := false)
  }

  function Side(nd: Node, t: OrderType): seq<OrderValue> {
    if t == ASK then nd.asks else nd.bids
  }

  function WithSide(nd: Node, t: OrderType, side: seq<OrderValue>): Node {
    if t == ASK then nd.(asks := side) else nd.(bids := side)
  }

  /** A route is learned from the first item about an order and never replaced. */
  function LearnRoute(routes: map<OrderId, Peer>, id: OrderId, from: Peer): map<OrderId, Peer> {
    if id in routes then routes else routes[id := from]
  }

  /** handleOrder, up to the decision whether to publish. */
  function HandleOrder(nd: Node, from: Peer, o: OrderValue, now: int): (Node, RetVal) {
    var (side, r) := ProcessOrder(Side(nd, o.orderType), o.id in nd.mine, o, now);
    (WithSide(nd.(routes := LearnRoute(nd.routes, o.id, from)), o.orderType, side), r)
  }

  /** What the owner of an order does to its own book before the change is published. */
  function OwnUpdate(nd: Node, o: OrderValue): Node {
    var side := Side(nd, o.orderType);
    var i := FindIndex(side, o.id);
    if o.purpose == FILLED || o.purpose == CANCEL then
      WithSide(nd.(mine := nd.mine - {o.id}), o.orderType, Without(side, o.id))
    else if o.purpose == PARTLY_FILLED then
      WithSide(nd, o.orderType, if i < |side| then side[i := o] else side)
    else WithSide(nd.(mine := nd.mine + {o.id}), o.orderType, side + [o])
  }

  /** An order that is too old is dropped; its route is kept. */
  function DropOrder(nd: Node, t: OrderType, id: OrderId): Node {
    WithSide(nd.(mine := nd.mine - {id}), t, Without(Side(nd, t), id))
  }

  // ---- The network ----

  function Published(from: Peer, to: seq<Peer>, o: OrderValue): (ps: seq<Packet>)
    ensures |ps| == |to| && forall k :: 0 <= k < |to| ==> ps[k] == Packet(from, to[k], Wire(o))
  {
    seq(|to|, k requires 0 <= k < |to| => Packet(from, to[k], Wire(o)))
  }

  /** sendOrderBook: every ask, then every bid. */
  function BookPackets(from: Peer, friend: Peer, book: seq<OrderValue>): (ps: seq<Packet>)
    ensures |ps| == |book| && forall k :: 0 <= k < |book| ==> ps[k] == Packet(from, friend, Wire(book[k]))
  {
    seq(|book|, k requires 0 <= k < |book| => Packet(from, friend, Wire(book[k])))
  }

  /** The peers a node may publish to: some of its friends, each once, and not the sender. */
  ghost predicate Addressees(w: World, v: Peer, sender: Option<Peer>, to: seq<Peer>)
    requires v < |w.friends|
  {
    && (forall k :: 0 <= k < |to| ==> to[k] in w.friends[v] && Some(to[k]) != sender)
    && forall j, k :: 0 <= j < k < |to| ==> to[j] != to[k]
  }

  ghost predicate Enabled(w: World, s: State, step: Step) {
    |s.nodes| == |w.friends| &&
    match step
    case Own(v, o, to) => v < |s.nodes| && w.origin(o.id) == v && Addressees(w, v, None, to)
    case Receive(i, _, to) =>
      i < |s.net| && s.net[i].to < |s.nodes| && Addressees(w, s.net[i].to, Some(s.net[i].from), to)
    case SendBook(v, friend) => v < |s.nodes| && friend in w.friends[v]
    case Drop(v, _, _) => v < |s.nodes|
  }

  function Without1(net: seq<Packet>, i: nat): seq<Packet>
    requires i < |net|
  {
    net[..i] + net[i + 1..]
  }

  /** What a delivery does to the node and to the net. */
  function Received(s: State, i: nat, now: int, to: seq<Peer>): State
    requires i < |s.net| && s.net[i].to < |s.nodes|
  {
    var pk := s.net[i];
    var (nd, r) := HandleOrder(s.nodes[pk.to], pk.from, pk.order, now);
    State(s.nodes[pk.to := nd], Without1(s.net, i) + if r == Success then Published(pk.to, to, pk.order) else [],
          s.clock + 1,
          if pk.order.id in s.nodes[pk.to].routes then s.stamp else s.stamp[(pk.to, pk.order.id) := s.clock])
  }

  ghost function Next(w: World, s: State, step: Step): State {
    if !Enabled(w, s, step) then s
    else match step
      case Own(v, o, to) =>
        s.(nodes := s.nodes[v := OwnUpdate(s.nodes[v], o)], net := s.net + Published(v, to, o), clock := s.clock + 1)
      case Receive(i, now, to) => Received(s, i, now, to)
      case SendBook(v, friend) =>
        s.(net := s.net + BookPackets(v, friend, s.nodes[v].asks) + BookPackets(v, friend, s.nodes[v].bids),
           clock := s.clock + 1)
      case Drop(v, t, id) => s.(nodes := s.nodes[v := DropOrder(s.nodes[v], t, id)], clock := s.clock + 1)
  }

  ghost function Run(w: World, s: State, steps: seq<Step>): State
    decreases |steps|
  {
    if steps == [] then s else Next(w, Run(w, s, steps[..|steps| - 1]), steps[|steps| - 1])
  }

  function Start(w: World): State {
    State(seq(|w.friends|, _ => Node(map[], {}, [], [])), [], 0, map[])
  }
}
