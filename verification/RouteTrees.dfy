/** The routes to an order form a tree rooted at its originator. */
module RouteTrees {
  import opened Common
  import opened OrderBooks
  import opened Gossip

  /** A node that can hand on an item addressed to this order: its originator, or a node with a
      route that was learned earlier than `before`. */
  ghost predicate Reached(w: World, s: State, id: OrderId, v: Peer, before: nat) {
    v < |s.nodes| && (v == w.origin(id) || (id in s.nodes[v].routes && (v, id) in s.stamp && s.stamp[(v, id)] < before))
  }

  ghost predicate Befriends(w: World, v: Peer, u: Peer) { v < |w.friends| && u in w.friends[v] }

  ghost predicate Lists(side: seq<OrderValue>, id: OrderId) {
    exists k :: 0 <= k < |side| && side[k].id == id
  }

  ghost predicate RouteOk(w: World, s: State, id: OrderId, v: Peer) {
    0 <= v < |s.nodes| && id in s.nodes[v].routes ==>
      && (v, id) in s.stamp && s.stamp[(v, id)] < s.clock
      && Reached(w, s, id, s.nodes[v].routes[id], s.stamp[(v, id)])
      && Befriends(w, s.nodes[v].routes[id], v)
  }

  ghost predicate ListedOk(w: World, s: State, id: OrderId, v: Peer) {
    0 <= v < |s.nodes| && (Lists(s.nodes[v].asks, id) || Lists(s.nodes[v].bids, id)) ==> Reached(w, s, id, v, s.clock)
  }

  ghost predicate PacketOk(w: World, s: State, id: OrderId, pk: Packet) {
    pk.order.id == id ==> Reached(w, s, id, pk.from, s.clock) && Befriends(w, pk.from, pk.to)
  }

  /** Who sent, lists or routes an order is its originator or learned a route in time. */
  ghost predicate Inv(w: World, s: State, id: OrderId) {
    && |s.nodes| == |w.friends|
    && (forall v :: RouteOk(w, s, id, v))
    && (forall v :: ListedOk(w, s, id, v))
    && (forall i :: 0 <= i < |s.net| ==> PacketOk(w, s, id, s.net[i]))
  }

  /** Routes and stamps are only added. */
  ghost predicate Grown(s: State, t: State) {
    && |t.nodes| == |s.nodes| && s.clock <= t.clock
    && (forall v, id :: 0 <= v < |s.nodes| && id in s.nodes[v].routes ==>
         id in t.nodes[v].routes && t.nodes[v].routes[id] == s.nodes[v].routes[id])
    && forall v, id {:trigger (v, id) in s.stamp} ::
         0 <= v < |s.nodes| && id in s.nodes[v].routes && (v, id) in s.stamp ==>
         (v, id) in t.stamp && t.stamp[(v, id)] == s.stamp[(v, id)]
  }

  lemma NextGrows(w: World, s: State, step: Step)
    ensures Grown(s, Next(w, s, step))
  {
  }

  lemma {:induction false} WithoutLists(side: seq<OrderValue>, gone: OrderId, id: OrderId)
    requires Lists(Without(side, gone), id)
    ensures Lists(side, id)
  {
  }

  lemma UnroutedKeeps(w: World, s: State, t: State, id: OrderId, v: Peer)
    requires Grown(s, t) && RouteOk(w, s, id, v)
    requires 0 <= v < |s.nodes| && id in t.nodes[v].routes ==> id in s.nodes[v].routes
    ensures RouteOk(w, t, id, v)
  {
  }

  /** Two nodes that differ neither in routes nor, for this order, in what they list. */
  ghost predicate NoNews(a: Node, b: Node, id: OrderId) {
    && a.routes == b.routes
    && (Lists(b.asks, id) || Lists(b.bids, id) ==> Lists(a.asks, id) || Lists(a.bids, id))
  }

  lemma NodesKeep(w: World, s: State, t: State, id: OrderId)
    requires Inv(w, s, id) && Grown(s, t)
    requires forall v :: 0 <= v < |s.nodes| ==> v == w.origin(id) || NoNews(s.nodes[v], t.nodes[v], id)
    requires forall v :: 0 <= v < |s.nodes| ==> t.nodes[v].routes == s.nodes[v].routes
    ensures forall v :: RouteOk(w, t, id, v)
    ensures forall v :: ListedOk(w, t, id, v)
  {
    forall v: Peer ensures RouteOk(w, t, id, v) {
      UnroutedKeeps(w, s, t, id, v);
    }
    forall v: Peer ensures ListedOk(w, t, id, v) {
      if 0 <= v < |s.nodes| && (Lists(t.nodes[v].asks, id) || Lists(t.nodes[v].bids, id)) {
        assert ListedOk(w, s, id, v);
      }
    }
  }

  lemma PacketsKeep(w: World, s: State, t: State, id: OrderId, kept: seq<Packet>, added: seq<Packet>)
    requires Grown(s, t) && t.net == kept + added
    requires forall i :: 0 <= i < |s.net| ==> PacketOk(w, s, id, s.net[i])
    requires forall i :: 0 <= i < |kept| ==> kept[i] in s.net
    requires forall i :: 0 <= i < |added| ==> PacketOk(w, t, id, added[i])
    ensures forall i :: 0 <= i < |t.net| ==> PacketOk(w, t, id, t.net[i])
  {
  }

  lemma OwnKeeps(w: World, s: State, id: OrderId, v: Peer, o: OrderValue, to: seq<Peer>)
    requires Inv(w, s, id) && Enabled(w, s, Own(v, o, to))
    ensures Inv(w, Next(w, s, Own(v, o, to)), id)
  {
    var t := Next(w, s, Own(v, o, to));
    NextGrows(w, s, Own(v, o, to));
    NodesKeep(w, s, t, id);
    PacketsKeep(w, s, t, id, s.net, Published(v, to, o));
  }

  lemma DropKeeps(w: World, s: State, id: OrderId, v: Peer, side: OrderType, gone: OrderId)
    requires Inv(w, s, id) && Enabled(w, s, Drop(v, side, gone))
    ensures Inv(w, Next(w, s, Drop(v, side, gone)), id)
  {
    var t := Next(w, s, Drop(v, side, gone));
    NextGrows(w, s, Drop(v, side, gone));
    if Lists(Without(Side(s.nodes[v], side), gone), id) {
      WithoutLists(Side(s.nodes[v], side), gone, id);
    }
    NodesKeep(w, s, t, id);
    PacketsKeep(w, s, t, id, s.net, []);
  }

  lemma SendBookKeeps(w: World, s: State, id: OrderId, v: Peer, friend: Peer)
    requires Inv(w, s, id) && Enabled(w, s, SendBook(v, friend))
    ensures Inv(w, Next(w, s, SendBook(v, friend)), id)
  {
    var t := Next(w, s, SendBook(v, friend));
    NextGrows(w, s, SendBook(v, friend));
    NodesKeep(w, s, t, id);
    var added := BookPackets(v, friend, s.nodes[v].asks) + BookPackets(v, friend, s.nodes[v].bids);
    forall i | 0 <= i < |added| ensures PacketOk(w, t, id, added[i]) {
      if added[i].order.id == id {
        assert ListedOk(w, s, id, v);
        if i < |s.nodes[v].asks| {
          assert s.nodes[v].asks[i].id == id;
        } else {
          assert s.nodes[v].bids[i - |s.nodes[v].asks|].id == id;
        }
      }
    }
    assert t.net == s.net + added;
    PacketsKeep(w, s, t, id, s.net, added);
  }

  /** After a delivery the receiver has a route, and it was in place before the clock moved on. */
  lemma ReceivedRoute(w: World, s: State, id: OrderId, i: nat, now: int, to: seq<Peer>)
    requires Inv(w, s, id) && i < |s.net| && s.net[i].to < |s.nodes| && s.net[i].order.id == id
    requires Grown(s, Received(s, i, now, to))
    ensures RouteOk(w, Received(s, i, now, to), id, s.net[i].to)
    ensures Reached(w, Received(s, i, now, to), id, s.net[i].to, s.clock + 1)
  {
    var v := s.net[i].to;
    assert RouteOk(w, s, id, v) && PacketOk(w, s, id, s.net[i]);
  }

  lemma ReceiveKeeps(w: World, s: State, id: OrderId, i: nat, now: int, to: seq<Peer>)
    requires Inv(w, s, id) && Enabled(w, s, Receive(i, now, to))
    ensures Inv(w, Next(w, s, Receive(i, now, to)), id)
  {
    var pk := s.net[i];
    var v, o, nd := pk.to, pk.order, s.nodes[pk.to];
    var t := Received(s, i, now, to);
    NextGrows(w, s, Receive(i, now, to));
    if o.id == id {
      ReceivedRoute(w, s, id, i, now, to);
    } else {
      ReceivedOther(nd, pk.from, o, now, id);
    }
    forall u: Peer ensures RouteOk(w, t, id, u) && ListedOk(w, t, id, u) {
      if u != v {
        UnroutedKeeps(w, s, t, id, u);
        assert ListedOk(w, s, id, u);
      } else if o.id != id {
        UnroutedKeeps(w, s, t, id, u);
        assert ListedOk(w, s, id, u);
      }
    }
    var kept := Without1(s.net, i);
    var added := if HandleOrder(nd, pk.from, o, now).1 == Success then Published(v, to, o) else [];
    PacketsKeep(w, s, t, id, kept, added);
  }

  lemma ReceivedOther(nd: Node, from: Peer, o: OrderValue, now: int, id: OrderId)
    requires id != o.id
    ensures var nd' := HandleOrder(nd, from, o, now).0;
      && (id in nd'.routes <==> id in nd.routes) && (id in nd.routes ==> nd'.routes[id] == nd.routes[id])
      && (Lists(nd'.asks, id) || Lists(nd'.bids, id) ==> Lists(nd.asks, id) || Lists(nd.bids, id))
  {
  }

  lemma NextKeeps(w: World, s: State, id: OrderId, step: Step)
    requires Inv(w, s, id)
    ensures Inv(w, Next(w, s, step), id)
  {
    if Enabled(w, s, step) {
      match step
      case Own(v, o, to) => OwnKeeps(w, s, id, v, o, to);
      case Receive(i, now, to) => ReceiveKeeps(w, s, id, i, now, to);
      case SendBook(v, friend) => SendBookKeeps(w, s, id, v, friend);
      case Drop(v, side, gone) => DropKeeps(w, s, id, v, side, gone);
    }
  }

  lemma {:induction false} RunInv(w: World, id: OrderId, steps: seq<Step>)
    ensures Inv(w, Run(w, Start(w), steps), id)
    decreases |steps|
  {
    if steps != [] {
      RunInv(w, id, steps[..|steps| - 1]);
      NextKeeps(w, Run(w, Start(w), steps[..|steps| - 1]), id, steps[|steps| - 1]);
    }
  }

  ghost predicate NoRepeats(p: seq<Peer>) {
    forall j, k :: 0 <= j < k < |p| ==> p[j] != p[k]
  }

  /** The way a QUERY takes from p[0]: from each node to its nextHop, a friend of it, until the
      order's originator. */
  ghost predicate IsTrace(w: World, s: State, id: OrderId, p: seq<Peer>) {
    && |p| >= 1 && p[|p| - 1] == w.origin(id)
    && (forall k :: 0 <= k < |p| ==> p[k] < |s.nodes|)
    && (forall k :: 0 <= k < |p| - 1 ==> p[k] != w.origin(id) && id in s.nodes[p[k]].routes)
    && (forall k :: 0 <= k < |p| - 1 ==> s.nodes[p[k]].routes[id] == p[k + 1] && Befriends(w, p[k + 1], p[k]))
  }

  /** By induction over the time at which the route was learned. */
  lemma {:induction false} TraceFrom(w: World, s: State, id: OrderId, v: Peer, before: nat) returns (p: seq<Peer>)
    requires Inv(w, s, id) && Reached(w, s, id, v, before)
    ensures IsTrace(w, s, id, p) && p[0] == v && NoRepeats(p)
    ensures forall k :: 0 <= k < |p| ==> Reached(w, s, id, p[k], before)
    decreases before
  {
    p := [v];
    if v != w.origin(id) {
      assert RouteOk(w, s, id, v);
      var rest := TraceFrom(w, s, id, s.nodes[v].routes[id], s.stamp[(v, id)]);
      assert forall k :: 0 <= k < |rest| ==> Reached(w, s, id, rest[k], s.stamp[(v, id)]);
      p := p + rest;
    }
  }

  lemma DistinctMembers(p: seq<Peer>, all: set<Peer>)
    requires NoRepeats(p) && forall k :: 0 <= k < |p| ==> p[k] in all
    ensures |p| <= |all|
  {
    var seen: set<Peer> := {};
    for i := 0 to |p|
      invariant |seen| == i && seen <= all
      invariant forall x :: x in seen <==> x in p[..i]
    {
      assert p[i] !in p[..i];
      seen := seen + {p[i]};
    }
    assert |all - seen| == |all| - |seen|;
  }

  function Below(n: nat): (all: set<Peer>)
    ensures |all| == n && forall x: nat :: x in all <==> x < n
  {
    if n == 0 then {} else Below(n - 1) + {n - 1}
  }

  /** In every run, from every node with a route to an order, following nextHop leads to the order's
      originator, visits no node twice, and so ends within as many hops as there are nodes. */
  lemma RoutesFormATree(w: World, steps: seq<Step>, id: OrderId, v: Peer) returns (p: seq<Peer>)
    requires v < |w.friends| && var s := Run(w, Start(w), steps); |s.nodes| == |w.friends| && id in s.nodes[v].routes
    requires w.origin(id) < |w.friends|
    ensures IsTrace(w, Run(w, Start(w), steps), id, p) && p[0] == v && NoRepeats(p) && |p| <= |w.friends|
  {
    var s := Run(w, Start(w), steps);
    RunInv(w, id, steps);
    assert RouteOk(w, s, id, v);
    p := TraceFrom(w, s, id, v, s.clock);
    DistinctMembers(p, Below(|w.friends|));
  }

  lemma {:induction false} RunGrows(w: World, s: State, steps: seq<Step>)
    ensures Grown(s, Run(w, s, steps))
    decreases |steps|
  {
    if steps != [] {
      RunGrows(w, s, steps[..|steps| - 1]);
      NextGrows(w, Run(w, s, steps[..|steps| - 1]), steps[|steps| - 1]);
    }
  }

  /** A way once found stays the way: no later gossip reroutes it. */
  lemma RoutesAreFixed(w: World, s: State, steps: seq<Step>, id: OrderId, p: seq<Peer>)
    requires IsTrace(w, s, id, p)
    ensures IsTrace(w, Run(w, s, steps), id, p)
  {
    RunGrows(w, s, steps);
  }
}
