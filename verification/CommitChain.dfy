/** One contract transaction over a chain of nodes: node 0 is the buyer's coordinator, node n is
    the seller, the nodes between are hops (TmContract.cpp, TransactionManager.cpp). Items may
    be delayed and overtake each other, and any manager may time out at any moment. */
module CommitChain {
  import opened Common
  import opened Contracts
  import opened Managers

  datatype Manager =
    | AsCoordinator(coordinator: Coordinator)
    | AsHop(hop: Hop)
    | AsPayee(payeeMgr: Payee)

  /** A node's part in the transaction: the manager registered for it, if any; the contracts that
      are in the node's contract list but no longer held by a manager; the tunnel; and whether
      the one QUERY of the transaction has been handled here. */
  datatype Node = Node(mgr: Option<Manager>, payer: Option<Contract>, payee: Option<Contract>,
                       tunnel: Tunnel, queried: bool)

  datatype Packet = Packet(from: Peer, to: Peer, item: Item)

  /** The seller's vote, with the order's leftover and price limit at that moment. */
  datatype Ballot = Ballot(amount: real, txId: TxId, leftover: real, limit: real)

  /** `quoted`, `ballot`, `aborted` and `broadcast` are history: the amount asked for on each link,
      the seller's vote, an ABORT command by the coordinator, and sendRaw by the seller. */
  datatype State = State(
    nodes: seq<Node>, net: seq<Packet>,
    quoted: seq<Option<real>>, ballot: Option<Ballot>, aborted: bool, broadcast: bool)

  /** What the buyer asks for. */
  datatype Terms = Terms(address: OrderId, payerId: OrderId, btcAmount: real, price: real, currency: Currency,
                         destAddress: Address)

  predicate UsableTerms(t: Terms) { t.btcAmount > 0.0 && t.price > 0.0 }

  /** The seller's side of the environment when an item is delivered. */
  datatype Env = Env(available: real, now: int, order: SellOrder, rawTx: Option<TxId>)

  datatype Step = Deliver(i: nat, env: Env) | Timeout(j: nat)

  // ---- Dispatch and timeout at one node ----

  /** What a node does with an item: the manager and its contracts, tunnel, sends, outcome. */
  datatype Handled = Handled(mgr: Manager, tunnel: Tunnel, sends: seq<Send>, outcome: Outcome, broadcast: bool)

  /** The manager that handles an item: the registered one, or a new cohort. */
  function ManagerFor(nd: Node, isSeller: bool): Manager {
    if nd.mgr.Some? then nd.mgr.value
    else if isSeller then AsPayee(Payee(INIT, None))
    else AsHop(Hop(INIT, None, None))
  }

  function Process(m: Manager, tunnel: Tunnel, pk: Packet, env: Env): Handled {
    match m
    case AsCoordinator(c) =>
      var r := CoordinatorProcess(c, pk.item, pk.to + 1);
      Handled(AsCoordinator(r.mgr), tunnel, r.sends, r.outcome, false)
    case AsHop(h) =>
      var r := HopProcess(h, tunnel, pk.item, pk.from, Surroundings(pk.to + 1, env.available, env.now));
      Handled(AsHop(r.hop), r.tunnel, r.sends, r.outcome, false)
    case AsPayee(p) =>
      var r := PayeeProcess(p, env.order, pk.item, pk.from, Surroundings(pk.to + 1, env.available, env.now), env.rawTx);
      Handled(AsPayee(r.mgr), tunnel, r.sends, r.outcome, r.broadcast)
  }

  function PayerOf(m: Manager): Option<Contract> {
    match m
    case AsCoordinator(c) => c.payer
    case AsHop(h) => h.payer
    case AsPayee(_) => None
  }

  function PayeeOf(m: Manager): Option<Contract> {
    match m
    case AsCoordinator(_) => None
    case AsHop(h) => h.payee
    case AsPayee(p) => p.payee
  }

  function Newest(held: Option<Contract>, listed: Option<Contract>): Option<Contract> {
    if held.Some? then held else listed
  }

  /** handleTxItem: any code but Success deletes the manager, whose contracts stay listed. */
  function NodeAfter(nd: Node, h: Handled, wasQuery: bool): Node {
    var queried := nd.queried || wasQuery;
    if h.outcome.Throws? || h.outcome.code == Success then Node(Some(h.mgr), nd.payer, nd.payee, h.tunnel, queried)
    else Node(None, Newest(PayerOf(h.mgr), nd.payer), Newest(PayeeOf(h.mgr), nd.payee), h.tunnel, queried)
  }

  function Packets(from: Peer, sends: seq<Send>): seq<Packet> {
    seq(|sends|, i requires 0 <= i < |sends| => Packet(from, sends[i].to, sends[i].item))
  }

  // ---- The transition system ----

  function Start(n: nat, t: Terms): State
    requires n >= 1
  {
    var payer := NewContract(t.btcAmount, 0.0, t.price, t.currency, SENDER, 1, 0).(destAddress := Some(t.destAddress));
    var offer := Offer(Fiat(payer), t.currency, t.destAddress, payer.btcAmount, 0.0);
    var first := Node(Some(AsCoordinator(Coordinator(Some(payer)))), None, None, None, false);
    var other := Node(None, None, None, None, false);
    State([first] + seq(n, _ => other),
          [Packet(0, 1, Item(t.address, QUERY, SERVER, t.payerId, offer))],
          [Some(t.btcAmount)] + seq(n - 1, _ => None), None, false, false)
  }

  /** The seller's order is not overcommitted (see SellOrders) when a QUERY reaches it. */
  predicate Enabled(s: State, step: Step) {
    match step
    case Deliver(i, env) =>
      && i < |s.net| && s.net[i].to < |s.nodes|
      && (s.net[i].to == |s.nodes| - 1 && s.net[i].item.phase == QUERY ==>
           0.0 <= env.order.commitment <= env.order.amount)
    case Timeout(j) => j < |s.nodes| && s.nodes[j].mgr.Some?
  }

  function Quote(quoted: seq<Option<real>>, from: Peer, sends: seq<Send>): seq<Option<real>> {
    if |sends| == 1 && sends[0].item.phase == QUERY && from < |quoted| && IsOffer(sends[0].item.payload)
    then quoted[from := Some(sends[0].item.payload.btcAmount)] else quoted
  }

  function BallotAfter(ballot: Option<Ballot>, h: Handled, env: Env): Option<Ballot> {
    if h.mgr.AsPayee? && |h.sends| == 1 && h.sends[0].item.phase == VOTE_YES && h.sends[0].item.payload.Vote?
    then Some(Ballot(h.sends[0].item.payload.voteAmount, h.sends[0].item.payload.txId,
                     Leftover(env.order), env.order.price))
    else ballot
  }

  /** The state once node s.net[i].to has handled that item with result h. */
  function Delivered(s: State, i: nat, env: Env, h: Handled): State
    requires i < |s.net| && s.net[i].to < |s.nodes|
  {
    var pk := s.net[i];
    State(s.nodes[pk.to := NodeAfter(s.nodes[pk.to], h, pk.item.phase == QUERY)],
          s.net[..i] + s.net[i + 1..] + Packets(pk.to, h.sends),
          Quote(s.quoted, pk.to, h.sends), BallotAfter(s.ballot, h, env),
          s.aborted || (h.mgr.AsCoordinator? && |h.sends| == 1 && h.sends[0].item.phase == ABORT),
          s.broadcast || h.broadcast)
  }

  function Next(s: State, step: Step): State {
    if !Enabled(s, step) then s
    else match step
      case Deliver(i, env) =>
        var nd := s.nodes[s.net[i].to];
        Delivered(s, i, env, Process(ManagerFor(nd, s.net[i].to == |s.nodes| - 1), nd.tunnel, s.net[i], env))
      case Timeout(j) =>
        // rollback removes the manager's contracts from the list, then the manager is deleted
        s.(nodes := s.nodes[j := s.nodes[j].(mgr := None)])
  }

  function Run(s: State, steps: seq<Step>): State {
    if steps == [] then s else Next(Run(s, steps[..|steps| - 1]), steps[|steps| - 1])
  }
}
