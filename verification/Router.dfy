/** The route and tunnel tables of one node (TraceRouter.cpp, Router.h). */
module Routers {
  import opened Common

  class TraceRouter {
    var routingTable: map<OrderId, Peer>
    var tunnels: map<OrderId, (Peer, Peer)>

    constructor ()
      ensures routingTable == map[] && tunnels == map[]
    {
      routingTable, tunnels := map[], map[];
    }

    method AddRoute(dest: OrderId, gateway: Peer)
      modifies this`routingTable
      ensures routingTable == old(routingTable)[dest := gateway]
    {
      routingTable := routingTable[dest := gateway];
    }

    /** None stands for the empty string. */
    method NextHop(dest: OrderId) returns (gateway: Option<Peer>)
      ensures gateway == if dest in routingTable then Some(routingTable[dest]) else None
    {
      if dest in routingTable {
        return Some(routingTable[dest]);
      }
      return None;
    }

    method HasRoute(dest: OrderId) returns (known: bool)
      ensures known <==> dest in routingTable
    {
      known := dest in routingTable;
    }

    method AddTunnel(dest: OrderId, gateways: (Peer, Peer))
      modifies this`tunnels
      ensures tunnels == old(tunnels)[dest := gateways]
    {
      tunnels := tunnels[dest := gateways];
    }

    /** The out-parameter keeps its value when there is no tunnel. */
    method GetTunnel(dest: OrderId, before: (Peer, Peer)) returns (r: RetVal, gateways: (Peer, Peer))
      ensures r == if dest in tunnels then Success else Failure
      ensures gateways == if dest in tunnels then tunnels[dest] else before
    {
      if dest !in tunnels {
        return Failure, before;
      }
      return Success, tunnels[dest];
    }
  }
}
