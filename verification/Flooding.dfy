/** The spread of one update dies out: every node passes it on at most once. */
module Flooding {
  import opened Common
  import opened OrderBooks
  import opened Gossip
  import opened RouteTrees

  /** The update would be news to a node: it is not about one of its own orders and it is not in
      its book yet. */
  predicate News(nd: Node, o: OrderValue) {
    o.id !in nd.mine && !Known(Side(nd, o.orderType), o)
  }

  /** Besides `o`, nothing about its id is on its way. */
  ghost predicate OnlyUpdate(w: World, s: State, o: OrderValue) {
    && |s.nodes| == |w.friends|
    && (forall i :: 0 <= i < |s.net| ==> s.net[i].order.id == o.id ==> s.net[i].order == o)
    && (forall v :: 0 <= v < |s.nodes| ==> UniqueIds(s.nodes[v].asks) && UniqueIds(s.nodes[v].bids))
  }

  function InFlight(net: seq<Packet>, id: OrderId): nat {
    if net == [] then 0 else (if net[0].order.id == id then 1 else 0) + InFlight(net[1..], id)
  }

  /** What the nodes below n that still lack the update can send when they get it. */
  function Potential(w: World, nodes: seq<Node>, o: OrderValue, n: nat): nat
    requires n <= |nodes| == |w.friends|
  {
    if n == 0 then 0 else Potential(w, nodes, o, n - 1) + if News(nodes[n - 1], o) then |w.friends[n - 1]| else 0
  }

  function Lacking(nodes: seq<Node>, o: OrderValue, n: nat): nat
    requires n <= |nodes|
  {
    if n == 0 then 0 else Lacking(nodes, o, n - 1) + if News(nodes[n - 1], o) then 1 else 0
  }

  function Degrees(w: World, n: nat): nat
    requires n <= |w.friends|
  {
    if n == 0 then 0 else Degrees(w, n - 1) + |w.friends[n - 1]|
  }

  // ---- One delivery at one node ----

  /** The first listed order with an id. */
  function Lookup(s: seq<OrderValue>, id: OrderId): (o: Option<OrderValue>)
    ensures o == if FindIndex(s, id) < |s| then Some(s[FindIndex(s, id)]) else None
  {
    if s == [] then None else if s[0].id == id then Some(s[0]) else Lookup(s[1..], id)
  }

  lemma RemoveBehindHead<T>(s: seq<T>, i: nat)
    requires i < |s| - 1
    ensures s[..i + 1] + s[i + 2..] == [s[0]] + (s[1..][..i] + s[1..][i + 1..])
  {
  }

  lemma WithoutStep(s: seq<OrderValue>, gone: OrderId)
    requires s != []
    ensures Without(s, gone) == if s[0].id == gone then s[1..] else [s[0]] + Without(s[1..], gone)
  {
    var tail := s[1..];
    if s[0].id == gone {
      assert FindIndex(s, gone) == 0;
      assert s[..0] + s[1..] == s[1..];
    } else {
      var k := FindIndex(tail, gone);
      assert FindIndex(s, gone) == 1 + k;
      WithoutAt(s, 1 + k, gone);
      WithoutAt(tail, k, gone);
      if k < |tail| {
        RemoveBehindHead(s, k);
      }
    }
  }

  lemma WithoutAt(s: seq<OrderValue>, i: nat, gone: OrderId)
    requires i == FindIndex(s, gone)
    ensures Without(s, gone) == if i < |s| then s[..i] + s[i + 1..] else s
  {
  }

  lemma {:induction false} LookupWithout(s: seq<OrderValue>, gone: OrderId, id: OrderId)
    requires gone != id
    ensures Lookup(Without(s, gone), id) == Lookup(s, id)
  {
    if s != [] {
      WithoutStep(s, gone);
      LookupWithout(s[1..], gone, id);
      assert ([s[0]] + Without(s[1..], gone))[1..] == Without(s[1..], gone);
    }
  }

  lemma {:induction false} LookupAppended(s: seq<OrderValue>, o: OrderValue, id: OrderId)
    requires o.id != id
    ensures Lookup(s + [o], id) == Lookup(s, id)
  {
    if s != [] {
      LookupAppended(s[1..], o, id);
      assert (s + [o])[1..] == s[1..] + [o];
    }
  }

  lemma KnownByLookup(a: seq<OrderValue>, b: seq<OrderValue>, o: OrderValue)
    requires Lookup(a, o.id) == Lookup(b, o.id)
    ensures Known(a, o) <==> Known(b, o)
  {
  }

  /** What processing can make of a book. */
  lemma ProcessOutcomes(book: seq<OrderValue>, mine: bool, other: OrderValue, now: int) returns (listed: OrderValue)
    ensures listed.id == other.id
    ensures ProcessOrder(book, mine, other, now).0 in
      [book, Without(book, other.id), book + [listed], Without(book, other.id) + [listed]]
  {
    var i := FindIndex(book, other.id);
    listed := if other.purpose == PARTLY_FILLED && i < |book| then other.(ignored := book[i].ignored) else other;
  }

  lemma OtherUpdateKeepsKnown(book: seq<OrderValue>, mine: bool, other: OrderValue, now: int, o: OrderValue)
    requires other.id != o.id
    ensures Known(ProcessOrder(book, mine, other, now).0, o) <==> Known(book, o)
  {
    var listed := ProcessOutcomes(book, mine, other, now);
    LookupWithout(book, other.id, o.id);
    LookupAppended(book, listed, o.id);
    LookupAppended(Without(book, other.id), listed, o.id);
    KnownByLookup(ProcessOrder(book, mine, other, now).0, book, o);
  }

  /** A node passes an update on only if it was news, and then it is news no longer; anything else
      leaves what it knows about the update as it was. */
  lemma DeliveryAtNode(nd: Node, from: Peer, got: OrderValue, now: int, o: OrderValue)
    requires UniqueIds(nd.asks) && UniqueIds(nd.bids)
    requires got.id == o.id ==> got == o
    ensures var (nd', r) := HandleOrder(nd, from, got, now);
      && UniqueIds(nd'.asks) && UniqueIds(nd'.bids)
      && (got == o && r == Success ==> News(nd, o) && !News(nd', o))
      && (got != o || r != Success ==> (News(nd', o) <==> News(nd, o)))
  {
    ProcessKeepsIdsUnique(Side(nd, got.orderType), got.id in nd.mine, got, now);
    if got == o {
      if o.id !in nd.mine && !BadTimeStamp(o, now) {
        PassedOnOnce(Side(nd, o.orderType), o, now);
      }
    } else {
      OtherUpdateKeepsKnown(Side(nd, got.orderType), got.id in nd.mine, got, now, o);
    }
  }

  // ---- Counting over a run ----

  lemma {:induction false} InFlightConcat(a: seq<Packet>, b: seq<Packet>, id: OrderId)
    ensures InFlight(a + b, id) == InFlight(a, id) + InFlight(b, id)
  {
    if a == [] {
      assert a + b == b;
    } else {
      assert (a + b)[1..] == a[1..] + b;
      InFlightConcat(a[1..], b, id);
    }
  }

  lemma InFlightRemove(net: seq<Packet>, i: nat, id: OrderId)
    requires i < |net|
    ensures InFlight(net, id) == InFlight(Without1(net, i), id) + if net[i].order.id == id then 1 else 0
  {
    InFlightConcat(net[..i], net[i..], id);
    assert net == net[..i] + net[i..] && net[i..][1..] == net[i + 1..];
    InFlightConcat(net[..i], net[i + 1..], id);
  }

  lemma {:induction false} InFlightSame(ps: seq<Packet>, id: OrderId, same: OrderId)
    requires forall k :: 0 <= k < |ps| ==> ps[k].order.id == same
    ensures InFlight(ps, id) == if id == same then |ps| else 0
  {
    if ps != [] {
      InFlightSame(ps[1..], id, same);
    }
  }

  /** One packet makes way for others about the same order. */
  lemma InFlightExchange(net: seq<Packet>, i: nat, added: seq<Packet>, id: OrderId)
    requires i < |net| && forall k :: 0 <= k < |added| ==> added[k].order.id == net[i].order.id
    ensures InFlight(Without1(net, i) + added, id) ==
      InFlight(net, id) + if id == net[i].order.id then |added| - 1 else 0
  {
    InFlightRemove(net, i, id);
    InFlightConcat(Without1(net, i), added, id);
    InFlightSame(added, id, net[i].order.id);
  }

  /** Changing one node changes one term of the two sums. */
  lemma {:induction false} SumsUpdate(w: World, nodes: seq<Node>, v: Peer, nd: Node, o: OrderValue, n: nat)
    requires n <= |nodes| == |w.friends| && v < |nodes|
    ensures n <= v ==> Potential(w, nodes[v := nd], o, n) == Potential(w, nodes, o, n)
    ensures n <= v ==> Lacking(nodes[v := nd], o, n) == Lacking(nodes, o, n)
    ensures v < n ==>
      && Potential(w, nodes[v := nd], o, n) == Potential(w, nodes, o, n)
        - (if News(nodes[v], o) then |w.friends[v]| else 0) + (if News(nd, o) then |w.friends[v]| else 0)
      && Lacking(nodes[v := nd], o, n) == Lacking(nodes, o, n)
        - (if News(nodes[v], o) then 1 else 0) + (if News(nd, o) then 1 else 0)
  {
    if n > 0 {
      SumsUpdate(w, nodes, v, nd, o, n - 1);
    }
  }

  /** What one step hands to the network for this id, and whether it delivers such a packet. */
  ghost function StepSends(w: World, s: State, step: Step, id: OrderId): nat {
    if Enabled(w, s, step) && step.Receive? && s.net[step.i].order.id == id
      && PassesOn(w, s, step, s.net[step.i].to, id)
    then |step.to| else 0
  }

  ghost function StepDelivers(w: World, s: State, step: Step, id: OrderId): nat {
    if Enabled(w, s, step) && step.Receive? && s.net[step.i].order.id == id then 1 else 0
  }

  /** Node v publishes the packet it receives in this step, and the packet is about this id. */
  ghost predicate PassesOn(w: World, s: State, step: Step, v: Peer, id: OrderId) {
    && Enabled(w, s, step) && step.Receive? && s.net[step.i].to == v && s.net[step.i].order.id == id
    && HandleOrder(s.nodes[v], s.net[step.i].from, s.net[step.i].order, step.now).1 == Success
  }

  lemma AddresseesAreFew(w: World, v: Peer, sender: Option<Peer>, to: seq<Peer>)
    requires v < |w.friends| && Addressees(w, v, sender, to)
    ensures |to| <= |w.friends[v]|
  {
    DistinctMembers(to, w.friends[v]);
  }

  /** The owner's own update is no news to the owner and lists no id twice. */
  lemma OwnerKnows(nd: Node, o: OrderValue)
    requires UniqueIds(nd.asks) && UniqueIds(nd.bids) && Publishable(nd, o)
    ensures !News(OwnUpdate(nd, o), Wire(o))
    ensures UniqueIds(OwnUpdate(nd, o).asks) && UniqueIds(OwnUpdate(nd, o).bids)
  {
    if o.purpose == FILLED || o.purpose == CANCEL {
      WithoutHasNoId(Side(nd, o.orderType), o.id);
    }
  }

  /** What a node can publish about an order of its own: it creates it under an id that is not
      listed, tells of a partial fill, or takes it back. */
  predicate Publishable(nd: Node, o: OrderValue) {
    var side := Side(nd, o.orderType);
    || (o.purpose == NEW && FindIndex(side, o.id) == |side|)
    || (o.purpose == PARTLY_FILLED && o.id in nd.mine)
    || o.purpose == FILLED || o.purpose == CANCEL
  }

  // ---- The steps that can happen meanwhile ----

  /** What a step may do while the update spreads: deliver anything, publish or drop orders under
      other ids, or hand over an order book that lists no other version of the order. */
  ghost predicate Undisturbing(w: World, s: State, step: Step, o: OrderValue) {
    Enabled(w, s, step) ==>
      match step
      case Receive(_, _, _) => true
      case Own(v, other, _) => other.id != o.id && Publishable(s.nodes[v], other)
      case Drop(_, _, gone) => gone != o.id
      case SendBook(v, _) => OnlyVersion(s.nodes[v].asks, o) && OnlyVersion(s.nodes[v].bids, o)
  }

  ghost predicate OnlyVersion(side: seq<OrderValue>, o: OrderValue) {
    forall k :: 0 <= k < |side| && side[k].id == o.id ==> Wire(side[k]) == o
  }

  /** How many copies of the order a handed over book contains. */
  ghost function StepCopies(w: World, s: State, step: Step, id: OrderId): nat {
    if Enabled(w, s, step) && step.SendBook? then
      InFlight(BookPackets(step.v, step.friend, s.nodes[step.v].asks)
        + BookPackets(step.v, step.friend, s.nodes[step.v].bids), id)
    else 0
  }

  /** The effects of any such step that the totals are about. */
  ghost predicate StepBalanced(w: World, s: State, step: Step, o: OrderValue) {
    var t, n := Next(w, s, step), |s.nodes|;
    && OnlyUpdate(w, s, o) && OnlyUpdate(w, t, o) && |t.nodes| == n
    && StepSends(w, s, step, o.id) + Potential(w, t.nodes, o, n) <= Potential(w, s.nodes, o, n)
    && InFlight(t.net, o.id) + StepDelivers(w, s, step, o.id) ==
         InFlight(s.net, o.id) + StepSends(w, s, step, o.id) + StepCopies(w, s, step, o.id)
    && (forall v :: 0 <= v < n ==>
         if PassesOn(w, s, step, v, o.id) then News(s.nodes[v], o) && !News(t.nodes[v], o)
         else (News(t.nodes[v], o) <==> News(s.nodes[v], o)))
    && (StepSends(w, s, step, o.id) > 0 ==> Lacking(t.nodes, o, n) < Lacking(s.nodes, o, n))
    && Lacking(t.nodes, o, n) <= Lacking(s.nodes, o, n)
  }

  /** One delivery of a run in which nothing but `o` circulates under its id. */
  lemma StepCosts(w: World, s: State, step: Step, o: OrderValue)
    requires OnlyUpdate(w, s, o) && Wire(o) == o && step.Receive? && Enabled(w, s, step)
    ensures StepBalanced(w, s, step, o)
  {
    var pk := s.net[step.i];
    var t := Next(w, s, step);
    var (nd, r) := HandleOrder(s.nodes[pk.to], pk.from, pk.order, step.now);
    DeliveryAtNode(s.nodes[pk.to], pk.from, pk.order, step.now, o);
    SumsUpdate(w, s.nodes, pk.to, nd, o, |s.nodes|);
    AddresseesAreFew(w, pk.to, Some(pk.from), step.to);
    var added := if r == Success then Published(pk.to, step.to, pk.order) else [];
    InFlightExchange(s.net, step.i, added, o.id);
    assert t.net == Without1(s.net, step.i) + added;
  }

  lemma {:induction false} LookupReplaced(s: seq<OrderValue>, i: nat, o: OrderValue, id: OrderId)
    requires i < |s| && s[i].id == o.id != id
    ensures Lookup(s[i := o], id) == Lookup(s, id)
  {
    if i > 0 {
      LookupReplaced(s[1..], i - 1, o, id);
      assert s[i := o][1..] == s[1..][i - 1 := o];
    } else {
      assert s[i := o][1..] == s[1..];
    }
  }

  /** What an owner does to another order changes nothing about this one. */
  lemma OwnKeepsLookup(nd: Node, other: OrderValue, id: OrderId)
    requires other.id != id
    ensures Lookup(Side(OwnUpdate(nd, other), other.orderType), id) == Lookup(Side(nd, other.orderType), id)
  {
    var side := Side(nd, other.orderType);
    if other.purpose == FILLED || other.purpose == CANCEL {
      LookupWithout(side, other.id, id);
    } else if other.purpose == PARTLY_FILLED {
      if FindIndex(side, other.id) < |side| {
        LookupReplaced(side, FindIndex(side, other.id), other, id);
      }
    } else {
      LookupAppended(side, other, id);
    }
  }

  lemma OwnKeepsNews(nd: Node, other: OrderValue, o: OrderValue)
    requires other.id != o.id
    ensures News(OwnUpdate(nd, other), o) <==> News(nd, o)
  {
    if other.orderType == o.orderType {
      OwnKeepsLookup(nd, other, o.id);
      KnownByLookup(Side(OwnUpdate(nd, other), o.orderType), Side(nd, o.orderType), o);
    } else {
      assert Side(OwnUpdate(nd, other), o.orderType) == Side(nd, o.orderType);
    }
    assert o.id in OwnUpdate(nd, other).mine <==> o.id in nd.mine;
  }

  lemma DropKeepsNews(nd: Node, t: OrderType, gone: OrderId, o: OrderValue)
    requires gone != o.id && UniqueIds(nd.asks) && UniqueIds(nd.bids)
    ensures News(DropOrder(nd, t, gone), o) <==> News(nd, o)
    ensures UniqueIds(DropOrder(nd, t, gone).asks) && UniqueIds(DropOrder(nd, t, gone).bids)
  {
    LookupWithout(Side(nd, t), gone, o.id);
    WithoutHasNoId(Side(nd, t), gone);
    KnownByLookup(Side(DropOrder(nd, t, gone), o.orderType), Side(nd, o.orderType), o);
  }

  /** A node that changes, but not in what it knows about the update. */
  lemma NodeKeepsTotals(w: World, s: State, v: Peer, nd: Node, o: OrderValue)
    requires OnlyUpdate(w, s, o) && v < |s.nodes| && (News(nd, o) <==> News(s.nodes[v], o))
    requires UniqueIds(nd.asks) && UniqueIds(nd.bids)
    ensures var n, nodes := |s.nodes|, s.nodes[v := nd];
      && Potential(w, nodes, o, n) == Potential(w, s.nodes, o, n) && Lacking(nodes, o, n) == Lacking(s.nodes, o, n)
      && (forall u :: 0 <= u < n ==> (News(nodes[u], o) <==> News(s.nodes[u], o)))
      && (forall u :: 0 <= u < n ==> UniqueIds(nodes[u].asks) && UniqueIds(nodes[u].bids))
  {
    SumsUpdate(w, s.nodes, v, nd, o, |s.nodes|);
  }

  lemma OwnIsBalanced(w: World, s: State, step: Step, o: OrderValue)
    requires OnlyUpdate(w, s, o) && step.Own? && Enabled(w, s, step) && Undisturbing(w, s, step, o)
    ensures StepBalanced(w, s, step, o)
  {
    var nd := OwnUpdate(s.nodes[step.v], step.order);
    OwnKeepsNews(s.nodes[step.v], step.order, o);
    OwnerKnows(s.nodes[step.v], step.order);
    NodeKeepsTotals(w, s, step.v, nd, o);
    InFlightConcat(s.net, Published(step.v, step.to, step.order), o.id);
    InFlightSame(Published(step.v, step.to, step.order), o.id, step.order.id);
  }

  lemma DropIsBalanced(w: World, s: State, step: Step, o: OrderValue)
    requires OnlyUpdate(w, s, o) && step.Drop? && Enabled(w, s, step) && Undisturbing(w, s, step, o)
    ensures StepBalanced(w, s, step, o)
  {
    DropKeepsNews(s.nodes[step.v], step.side, step.id, o);
    NodeKeepsTotals(w, s, step.v, DropOrder(s.nodes[step.v], step.side, step.id), o);
  }

  lemma BookIsThisVersion(from: Peer, friend: Peer, nd: Node, o: OrderValue)
    requires OnlyVersion(nd.asks, o) && OnlyVersion(nd.bids, o)
    ensures var ps := BookPackets(from, friend, nd.asks) + BookPackets(from, friend, nd.bids);
      forall i :: 0 <= i < |ps| && ps[i].order.id == o.id ==> ps[i].order == o
  {
  }

  lemma AddedKeepOnlyUpdate(w: World, s: State, t: State, added: seq<Packet>, o: OrderValue)
    requires OnlyUpdate(w, s, o) && t.nodes == s.nodes && t.net == s.net + added
    requires forall i :: 0 <= i < |added| && added[i].order.id == o.id ==> added[i].order == o
    ensures OnlyUpdate(w, t, o)
  {
  }

  lemma SendBookIsBalanced(w: World, s: State, step: Step, o: OrderValue)
    requires OnlyUpdate(w, s, o) && step.SendBook? && Enabled(w, s, step) && Undisturbing(w, s, step, o)
    ensures StepBalanced(w, s, step, o)
  {
    var nd, t := s.nodes[step.v], Next(w, s, step);
    var asks, bids := BookPackets(step.v, step.friend, nd.asks), BookPackets(step.v, step.friend, nd.bids);
    BookIsThisVersion(step.v, step.friend, nd, o);
    assert t.nodes == s.nodes && s.net + asks + bids == s.net + (asks + bids);
    AddedKeepOnlyUpdate(w, s, t, asks + bids, o);
    InFlightConcat(s.net, asks + bids, o.id);
  }

  /** A disabled step costs nothing and changes nothing. */
  lemma StepTotals(w: World, s: State, step: Step, o: OrderValue)
    requires OnlyUpdate(w, s, o) && Wire(o) == o && Undisturbing(w, s, step, o)
    ensures StepBalanced(w, s, step, o)
  {
    if Enabled(w, s, step) {
      match step
      case Receive(_, _, _) => StepCosts(w, s, step, o);
      case Own(_, _, _) => OwnIsBalanced(w, s, step, o);
      case Drop(_, _, _) => DropIsBalanced(w, s, step, o);
      case SendBook(_, _) => SendBookIsBalanced(w, s, step, o);
    }
  }

  // ---- Whole runs ----

  ghost predicate UndisturbedRun(w: World, s: State, steps: seq<Step>, o: OrderValue)
    decreases |steps|
  {
    steps != [] ==>
      var init := steps[..|steps| - 1];
      UndisturbedRun(w, s, init, o) && Undisturbing(w, Run(w, s, init), steps[|steps| - 1], o)
  }

  ghost function Sends(w: World, s: State, steps: seq<Step>, id: OrderId): nat
    decreases |steps|
  {
    if steps == [] then 0
    else Sends(w, s, steps[..|steps| - 1], id) + StepSends(w, Run(w, s, steps[..|steps| - 1]), steps[|steps| - 1], id)
  }

  ghost function Copies(w: World, s: State, steps: seq<Step>, id: OrderId): nat
    decreases |steps|
  {
    if steps == [] then 0
    else Copies(w, s, steps[..|steps| - 1], id) + StepCopies(w, Run(w, s, steps[..|steps| - 1]), steps[|steps| - 1], id)
  }

  ghost function Deliveries(w: World, s: State, steps: seq<Step>, id: OrderId): nat
    decreases |steps|
  {
    if steps == [] then 0
    else
      var init := steps[..|steps| - 1];
      Deliveries(w, s, init, id) + StepDelivers(w, Run(w, s, init), steps[|steps| - 1], id)
  }

  /** How often node v passes the update on. */
  ghost function Passes(w: World, s: State, steps: seq<Step>, v: Peer, id: OrderId): nat
    decreases |steps|
  {
    if steps == [] then 0
    else
      var before := Run(w, s, steps[..|steps| - 1]);
      Passes(w, s, steps[..|steps| - 1], v, id) + (if PassesOn(w, before, steps[|steps| - 1], v, id) then 1 else 0)
  }

  function Exchanges(steps: seq<Step>): nat {
    if steps == [] then 0
    else Exchanges(steps[..|steps| - 1]) + (if steps[|steps| - 1].SendBook? then 1 else 0)
  }

  /** The totals of a run: publications are paid for by nodes that lacked the update, deliveries by
      packets, and a node passes the update on at most once. */
  lemma {:induction false} FloodTotals(w: World, s: State, steps: seq<Step>, o: OrderValue, v: Peer)
    requires OnlyUpdate(w, s, o) && Wire(o) == o && v < |s.nodes| && UndisturbedRun(w, s, steps, o)
    ensures var t := Run(w, s, steps); var n := |s.nodes|;
      && OnlyUpdate(w, t, o)
      && Sends(w, s, steps, o.id) + Potential(w, t.nodes, o, n) <= Potential(w, s.nodes, o, n)
      && InFlight(t.net, o.id) + Deliveries(w, s, steps, o.id) ==
           InFlight(s.net, o.id) + Sends(w, s, steps, o.id) + Copies(w, s, steps, o.id)
      && Passes(w, s, steps, v, o.id) <= (if News(s.nodes[v], o) then 1 else 0) - if News(t.nodes[v], o) then 1 else 0
    decreases |steps|
  {
    if steps != [] {
      var init := steps[..|steps| - 1];
      FloodTotals(w, s, init, o, v);
      StepTotals(w, Run(w, s, init), steps[|steps| - 1], o);
      assert StepBalanced(w, Run(w, s, init), steps[|steps| - 1], o);
    }
  }

  /** A book with unique ids holds an order at most once on each side. */
  lemma {:induction false} OneCopyPerSide(from: Peer, friend: Peer, side: seq<OrderValue>, id: OrderId)
    requires UniqueIds(side)
    ensures InFlight(BookPackets(from, friend, side), id) <= 1
    ensures (forall k :: 0 <= k < |side| ==> side[k].id != id) ==> InFlight(BookPackets(from, friend, side), id) == 0
  {
    if side != [] {
      OneCopyPerSide(from, friend, side[1..], id);
      assert BookPackets(from, friend, side)[1..] == BookPackets(from, friend, side[1..]);
    }
  }

  lemma {:induction false} CopiesAreFew(w: World, s: State, steps: seq<Step>, o: OrderValue)
    requires OnlyUpdate(w, s, o) && Wire(o) == o && UndisturbedRun(w, s, steps, o) && |s.nodes| > 0
    ensures Copies(w, s, steps, o.id) <= 2 * Exchanges(steps)
    decreases |steps|
  {
    if steps != [] {
      var init, step := steps[..|steps| - 1], steps[|steps| - 1];
      CopiesAreFew(w, s, init, o);
      FloodTotals(w, s, init, o, 0);
      var t := Run(w, s, init);
      if Enabled(w, t, step) && step.SendBook? {
        OneCopyPerSide(step.v, step.friend, t.nodes[step.v].asks, o.id);
        OneCopyPerSide(step.v, step.friend, t.nodes[step.v].bids, o.id);
        InFlightConcat(BookPackets(step.v, step.friend, t.nodes[step.v].asks),
                       BookPackets(step.v, step.friend, t.nodes[step.v].bids), o.id);
      }
    }
  }

  lemma {:induction false} PotentialBelowDegrees(w: World, nodes: seq<Node>, o: OrderValue, n: nat)
    requires n <= |nodes| == |w.friends|
    ensures Potential(w, nodes, o, n) <= Degrees(w, n)
    ensures forall v :: 0 <= v < n && !News(nodes[v], o) ==> Potential(w, nodes, o, n) + |w.friends[v]| <= Degrees(w, n)
  {
    if n > 0 {
      PotentialBelowDegrees(w, nodes, o, n - 1);
    }
  }

  lemma OwnerStarts(w: World, s: State, o: OrderValue, to: seq<Peer>)
    requires OnlyUpdate(w, s, Wire(o)) && InFlight(s.net, o.id) == 0
    requires Enabled(w, s, Own(w.origin(o.id), o, to)) && Publishable(s.nodes[w.origin(o.id)], o)
    ensures var t := Next(w, s, Own(w.origin(o.id), o, to)); var u := w.origin(o.id);
      && OnlyUpdate(w, t, Wire(o)) && InFlight(t.net, o.id) == |to|
      && !News(t.nodes[u], Wire(o)) && |to| <= |w.friends[u]| && |t.nodes| == |s.nodes|
  {
    var u := w.origin(o.id);
    AddresseesAreFew(w, u, None, to);
    InFlightConcat(s.net, Published(u, to, o), o.id);
    InFlightSame(Published(u, to, o), o.id, o.id);
    OwnerKnows(s.nodes[u], o);
  }

  /** The originator publishes an update that nothing else under its id competes with. However long
      the network then goes on, delivering, publishing and dropping other orders and handing over
      books, every node publishes the update at most once and the originator never again; it is
      published at most as often as there are links, and delivered at most that often plus twice
      for each book handed over. */
  lemma FloodingTerminates(w: World, s: State, o: OrderValue, to: seq<Peer>, steps: seq<Step>, v: Peer)
    requires OnlyUpdate(w, s, Wire(o)) && InFlight(s.net, o.id) == 0 && v < |s.nodes|
    requires Enabled(w, s, Own(w.origin(o.id), o, to)) && Publishable(s.nodes[w.origin(o.id)], o)
    requires UndisturbedRun(w, Next(w, s, Own(w.origin(o.id), o, to)), steps, Wire(o))
    ensures var t := Next(w, s, Own(w.origin(o.id), o, to));
      && Passes(w, t, steps, v, o.id) <= (if v == w.origin(o.id) then 0 else 1)
      && |to| + Sends(w, t, steps, o.id) <= Degrees(w, |w.friends|)
      && Deliveries(w, t, steps, o.id) <= |to| + Sends(w, t, steps, o.id) + 2 * Exchanges(steps)
  {
    OwnerStarts(w, s, o, to);
    var t := Next(w, s, Own(w.origin(o.id), o, to));
    PotentialBelowDegrees(w, t.nodes, Wire(o), |t.nodes|);
    FloodTotals(w, t, steps, Wire(o), v);
    CopiesAreFew(w, t, steps, Wire(o));
  }
}
