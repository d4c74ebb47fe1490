/** Items follow the tunnels that the QUERY of their transaction left behind (TmContract.cpp,
    mkTunnel and forwardItem). */
module ReturnPaths {
  import opened Common
  import opened Managers
  import opened Gossip
  import opened RouteTrees

  /** The tunnel tables of all nodes. */
  type Tunnels = map<(Peer, OrderId), (Peer, Peer)>

  /** A hop handles the QUERY of some transaction for an order. */
  datatype Query = Query(hop: Peer, id: OrderId, from: Peer)

  /** mkTunnel: a later QUERY for the same order overwrites the tunnel of an earlier one. */
  function MkTunnel(nodes: seq<Node>, ts: Tunnels, q: Query): Tunnels {
    if q.hop < |nodes| && q.id in nodes[q.hop].routes then ts[(q.hop, q.id) := (q.from, nodes[q.hop].routes[q.id])]
    else ts
  }

  function TunnelsAfter(nodes: seq<Node>, queries: seq<Query>): Tunnels {
    if queries == [] then map[]
    else MkTunnel(nodes, TunnelsAfter(nodes, queries[..|queries| - 1]), queries[|queries| - 1])
  }

  function TunnelAt(ts: Tunnels, v: Peer, id: OrderId): Tunnel {
    if (v, id) in ts then Some(ts[(v, id)]) else None
  }

  /** The nodes an item visits from `at` on: every hop forwards it, the two ends keep it. */
  function Journey(ts: Tunnels, ends: set<Peer>, item: Item, at: Peer, patience: nat): (q: seq<Peer>)
    ensures |q| >= 1 && q[0] == at
    decreases patience
  {
    var send := Forward(TunnelAt(ts, at, item.address), item, item.payload);
    if at in ends || patience == 0 || send.None? then [at]
    else [at] + Journey(ts, ends, item, send.value.to, patience - 1)
  }

  function Reversed(p: seq<Peer>): (r: seq<Peer>)
    ensures |r| == |p| && forall k :: 0 <= k < |p| ==> r[k] == p[|p| - 1 - k]
  {
    if p == [] then [] else Reversed(p[1..]) + [p[0]]
  }

  /** Every hop of the path has the tunnel that the path's own QUERY made. */
  ghost predicate TunnelsMatch(ts: Tunnels, p: seq<Peer>, id: OrderId) {
    forall k :: 0 < k < |p| - 1 ==> TunnelAt(ts, p[k], id) == Some((p[k - 1], p[k + 1]))
  }

  function Ends(p: seq<Peer>): set<Peer>
    requires |p| >= 1
  {
    {p[0], p[|p| - 1]}
  }

  lemma {:induction false} ClientJourneyFrom(ts: Tunnels, p: seq<Peer>, item: Item, k: nat, patience: nat)
    requires |p| >= 2 && NoRepeats(p) && TunnelsMatch(ts, p, item.address)
    requires item.direction == CLIENT && k < |p| - 1 && patience >= k
    ensures Journey(ts, Ends(p), item, p[k], patience) == Reversed(p[..k + 1])
    decreases k
  {
    if k == 0 {
      assert Reversed(p[..1]) == [p[0]];
    } else {
      assert TunnelAt(ts, p[k], item.address) == Some((p[k - 1], p[k + 1]));
      ClientJourneyFrom(ts, p, item, k - 1, patience - 1);
      assert p[k] !in Ends(p);
      assert Reversed(p[..k + 1]) == [p[k]] + Reversed(p[..k]);
    }
  }

  lemma {:induction false} ServerJourneyFrom(ts: Tunnels, p: seq<Peer>, item: Item, k: nat, patience: nat)
    requires |p| >= 2 && NoRepeats(p) && TunnelsMatch(ts, p, item.address)
    requires item.direction == SERVER && 0 < k < |p| && patience >= |p| - 1 - k
    ensures Journey(ts, Ends(p), item, p[k], patience) == p[k..]
    decreases |p| - k
  {
    if k == |p| - 1 {
      assert p[k..] == [p[k]];
    } else {
      assert TunnelAt(ts, p[k], item.address) == Some((p[k - 1], p[k + 1]));
      ServerJourneyFrom(ts, p, item, k + 1, patience - 1);
      assert p[k] !in Ends(p);
      assert p[k..] == [p[k]] + p[k + 1..];
    }
  }

  /** One way of retracing: what a hop or the seller sends back reaches the coordinator over the
      reversed path, what the coordinator or a hop sends on reaches the seller over the path. */
  ghost predicate Retraced(ts: Tunnels, p: seq<Peer>, client: Item, server: Item)
    requires |p| >= 2
  {
    && (forall k :: 0 <= k < |p| - 1 ==> Journey(ts, Ends(p), client, p[k], |p|) == Reversed(p[..k + 1]))
    && (forall k :: 0 < k < |p| ==> Journey(ts, Ends(p), server, p[k], |p|) == p[k..])
  }

  /** The first step of a journey tells one end of the tunnel. */
  lemma FirstHop(ts: Tunnels, ends: set<Peer>, item: Item, at: Peer, patience: nat, q: seq<Peer>)
    requires Journey(ts, ends, item, at, patience) == q && |q| >= 2
    ensures TunnelAt(ts, at, item.address).Some?
    ensures q[1] == if item.direction == SERVER then TunnelAt(ts, at, item.address).value.1
      else TunnelAt(ts, at, item.address).value.0
  {
  }

  lemma TunnelFromJourneys(ts: Tunnels, p: seq<Peer>, client: Item, server: Item, k: nat)
    requires 0 < k < |p| - 1 && client.direction == CLIENT && server.direction == SERVER
    requires client.address == server.address
    requires Journey(ts, Ends(p), client, p[k], |p|) == Reversed(p[..k + 1])
    requires Journey(ts, Ends(p), server, p[k], |p|) == p[k..]
    ensures TunnelAt(ts, p[k], client.address) == Some((p[k - 1], p[k + 1]))
  {
    FirstHop(ts, Ends(p), client, p[k], |p|, Reversed(p[..k + 1]));
    FirstHop(ts, Ends(p), server, p[k], |p|, p[k..]);
  }

  lemma JourneysFromTunnels(ts: Tunnels, p: seq<Peer>, client: Item, server: Item)
    requires |p| >= 2 && NoRepeats(p) && client.direction == CLIENT && server.direction == SERVER
    requires TunnelsMatch(ts, p, client.address) && client.address == server.address
    ensures Retraced(ts, p, client, server)
  {
    forall k | 0 <= k < |p| - 1 ensures Journey(ts, Ends(p), client, p[k], |p|) == Reversed(p[..k + 1]) {
      ClientJourneyFrom(ts, p, client, k, |p|);
    }
    forall k | 0 < k < |p| ensures Journey(ts, Ends(p), server, p[k], |p|) == p[k..] {
      ServerJourneyFrom(ts, p, server, k, |p|);
    }
  }

  /** Items retrace a path exactly when each hop still has the path's own tunnel. */
  lemma RetracedIffTunnelsMatch(ts: Tunnels, p: seq<Peer>, client: Item, server: Item)
    requires |p| >= 2 && NoRepeats(p) && client.direction == CLIENT && server.direction == SERVER
    requires client.address == server.address
    ensures Retraced(ts, p, client, server) <==> TunnelsMatch(ts, p, client.address)
  {
    if TunnelsMatch(ts, p, client.address) {
      JourneysFromTunnels(ts, p, client, server);
    }
    if Retraced(ts, p, client, server) {
      forall k | 0 < k < |p| - 1 ensures TunnelAt(ts, p[k], client.address) == Some((p[k - 1], p[k + 1])) {
        TunnelFromJourneys(ts, p, client, server, k);
      }
    }
  }

  /** The last QUERY for an order at a hop decides its tunnel. */
  lemma {:induction false} TunnelOfSoleSender(nodes: seq<Node>, queries: seq<Query>, hop: Peer, id: OrderId, from: Peer)
    requires hop < |nodes| && id in nodes[hop].routes
    requires forall i :: 0 <= i < |queries| && queries[i].hop == hop && queries[i].id == id ==> queries[i].from == from
    ensures TunnelAt(TunnelsAfter(nodes, queries), hop, id) ==
      if exists i :: 0 <= i < |queries| && queries[i] == Query(hop, id, from) then Some((from, nodes[hop].routes[id]))
      else None
  {
    if queries != [] {
      var init, last := queries[..|queries| - 1], queries[|queries| - 1];
      TunnelOfSoleSender(nodes, init, hop, id, from);
      if last.hop == hop && last.id == id {
        assert queries[|queries| - 1] == Query(hop, id, from);
      } else if exists i :: 0 <= i < |init| && init[i] == Query(hop, id, from) {
        var i :| 0 <= i < |init| && init[i] == Query(hop, id, from);
        assert queries[i] == Query(hop, id, from);
      }
    }
  }

  /** Whatever else goes on in the network, if all QUERYs for an order that reach a hop of the path
      belong to the one transaction, its items retrace the way its QUERY took along the routes. */
  lemma OneTransactionPerOrderRetraces(w: World, s: State, p: seq<Peer>, queries: seq<Query>,
                                       client: Item, server: Item)
    requires |p| >= 2 && NoRepeats(p) && client.direction == CLIENT && server.direction == SERVER
    requires client.address == server.address && IsTrace(w, s, client.address, p)
    requires forall k :: 0 < k < |p| - 1 ==> Query(p[k], client.address, p[k - 1]) in queries
    requires forall k, i ::
      0 < k < |p| - 1 && 0 <= i < |queries| && queries[i].hop == p[k] && queries[i].id == client.address ==>
      queries[i].from == p[k - 1]
    ensures Retraced(TunnelsAfter(s.nodes, queries), p, client, server)
  {
    forall k | 0 < k < |p| - 1
      ensures TunnelAt(TunnelsAfter(s.nodes, queries), p[k], client.address) == Some((p[k - 1], p[k + 1]))
    {
      TunnelOfSoleSender(s.nodes, queries, p[k], client.address, p[k - 1]);
      var i :| 0 <= i < |queries| && queries[i] == Query(p[k], client.address, p[k - 1]);
    }
    RetracedIffTunnelsMatch(TunnelsAfter(s.nodes, queries), p, client, server);
  }

  /** Two buyers 0 and 1 whose QUERYs for one order of seller 3 cross at hop 2: the hop sends the
      answer to the first buyer to the second one. */
  lemma CrossingTransactionsMix(nodes: seq<Node>, client: Item)
    requires |nodes| == 4 && client.direction == CLIENT
    requires nodes[2].routes == map[client.address := 3]
    ensures var ts := TunnelsAfter(nodes, [Query(2, client.address, 0), Query(2, client.address, 1)]);
      Journey(ts, {0, 1, 3}, client, 2, 4) == [2, 1]
  {
  }
}
