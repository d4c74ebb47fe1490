/** The three managers of a contract transaction as the source keeps them: objects that hold
    contracts of the node's list and move through phases (TmContract.cpp). Each handler is proved
    against its function in Managers. */
module ContractManagers {
  import opened Common
  import opened Accounts
  import opened Contracts
  import opened ContractLists
  import opened LedgerEffects
  import opened Managers
  import opened OrderBooks
  import opened OrderLists
  import opened MyOrderLists
  import opened Routers

  function Gateway(routes: map<OrderId, Peer>, id: OrderId): Peer {
    if id in routes then routes[id] else NOBODY
  }

  function TunnelFor(tunnels: map<OrderId, (Peer, Peer)>, id: OrderId): Tunnel {
    if id in tunnels then Some(tunnels[id]) else None
  }

  ghost function ValueOf(c: BtcContract?): Option<Contract>
    reads if c == null then {} else {c}
  {
    if c == null then None else Some(c.Value())
  }

  lemma SameFiat(c: Contract, d: Contract)
    requires c.btcAmount == d.btcAmount && c.price == d.price
    ensures Fiat(c) == Fiat(d)
  {
  }

  method PriceOf(p: Payload) returns (price: real)
    requires IsOffer(p)
    ensures price == OfferPrice(p) && price > 0.0
  {
    price := p.fiatAmount / p.btcAmount;
  }

  method SendVoteNo(item: Item, from: Peer) returns (sends: seq<Send>, outcome: Outcome)
    ensures sends == [Managers.VoteNo(item, from)] && outcome == Returns(Finish)
  {
    return [Managers.VoteNo(item, from)], Returns(Finish);
  }

  /** A manager without a contract has nothing to take off the list. */
  method Unlist(list: ContractList, c: BtcContract?)
    requires list.Valid()
    modifies list, list.db
    ensures list.Valid()
    ensures list.View() == if c == null then old(list.View()) else Remove(old(list.View()), old(c.Value()))
    ensures c != null ==> Freed(old(list.View()), old(c.Value()), list.View())
  {
    if c != null {
      RemoveFrees(list.View(), c.Value());
      list.RmContract(c);
    }
  }

  /** A hop's first QUERY makes its own tunnel, whatever tunnel the order had. */
  lemma NewTunnelIsUsed(tunnel: Tunnel, item: Item, from: Peer, at: Surroundings)
    requires IsOffer(item.payload)
    ensures HopQuery(Hop(INIT, None, None), tunnel, item, from, at) ==
      HopQuery(Hop(INIT, None, None), None, item, from, at)
  {
  }

  class TmContractCohorteHop {
    const list: ContractList
    const router: TraceRouter
    var phase: Phase
    var payer: BtcContract?
    var payee: BtcContract?

    ghost predicate Valid()
      reads this, list
    {
      && list.Valid() && (payer == null <==> payee == null) && (phase == INIT ==> payer == null)
      && (payer != null && payee != null ==> payer != payee && payer.party == SENDER && payee.party == RECEIVER)
    }

    ghost function View(): Hop
      reads this, if payer == null then {} else {payer}, if payee == null then {} else {payee}
    {
      Hop(phase, ValueOf(payer), ValueOf(payee))
    }

    constructor (list: ContractList, router: TraceRouter)
      ensures this.list == list && this.router == router && View() == Hop(INIT, None, None)
    {
      this.list, this.router := list, router;
      phase, payer, payee := INIT, null, null;
    }

    method MkTunnel(address: OrderId, from: Peer)
      modifies router`tunnels
      ensures router.tunnels == old(router.tunnels)[address := (from, Gateway(router.routingTable, address))]
    {
      var gateway := router.NextHop(address);
      var nextAddr := if gateway.Some? then gateway.value else NOBODY;
      router.AddTunnel(address, (from, nextAddr));
    }

    method ForwardItem(item: Item, payload: Payload) returns (sends: seq<Send>, r: RetVal)
      ensures sends == Sent(Forward(TunnelFor(router.tunnels, item.address), item, payload))
      ensures r == if item.address in router.tunnels then Success else Failure
    {
      var ok, route := router.GetTunnel(item.address, (NOBODY, NOBODY));
      if ok == Failure {
        return [], Failure;
      }
      var to := if item.direction == SERVER then route.1 else route.0;
      return [Send(to, item.(payload := payload))], Success;
    }

    method AbortTx(item: Item, from: Peer) returns (sends: seq<Send>, outcome: Outcome)
      modifies this`phase
      ensures phase == ABORT_REQUEST && sends == [AbortRequest(item, from)] && outcome == Returns(Success)
    {
      phase := ABORT_REQUEST;
      return [AbortRequest(item, from)], Returns(Success);
    }

    /** Both contracts of an offer: we are paid by the previous node and pay the next one. */
    method MakeContracts(p: Payload, price: real, from: Peer, next: Peer, now: int) returns (ok: bool)
      requires list.Valid() && IsOffer(p) && price == OfferPrice(p)
      modifies this`payer, this`payee, list, list.db
      ensures list.Valid() && list.View() == Pledged(old(list.View()), p, from, next, now)
      ensures var kept := Capped(p.btcAmount, p.fee, price, AvailableFor(old(list.db.peers), from, p));
        && ok == kept.Some?
        && (!ok ==> payer == old(payer) && payee == old(payee))
        && (ok ==>
             && payer != null && payee != null && payer != payee && fresh(payer) && fresh(payee)
             && list.contracts == old(list.contracts) + [payee, payer]
             && payee.Value() == NewContract(kept.value, p.fee, price, p.currency, RECEIVER, from, now)
             && payer.Value() == NewContract(p.btcAmount, p.fee, price, p.currency, SENDER, next, now))
    {
      var incoming := list.Create(p.btcAmount, p.fee, price, p.currency, RECEIVER, from, now);
      if incoming == null {
        return false;
      }
      var outgoing := list.Create(p.btcAmount, p.fee, price, p.currency, SENDER, next, now);
      payee, payer := incoming, outgoing;
      return true;
    }

    /** The last two contracts of the list learn where the coins go. */
    method SetAddresses(payee: BtcContract, payer: BtcContract, addr: Address, ghost rest: seq<BtcContract>)
      requires list.Valid() && list.contracts == rest + [payee, payer] && payer != payee
      modifies payee, payer
      ensures payee.Value() == old(payee.Value()).(destAddress := Some(addr))
      ensures payer.Value() == old(payer.Value()).(destAddress := Some(addr))
      ensures list.View() == old(list.View()).(contracts :=
        old(ContractLists.Values(rest)) + [payee.Value(), payer.Value()])
    {
      assert forall i :: 0 <= i < |rest| ==> list.contracts[i] == rest[i];
      assert list.contracts[|rest|] == payee && list.contracts[|rest| + 1] == payer;
      payee.SetBtcAddress(addr);
      payer.SetBtcAddress(addr);
    }

    /** Both contracts of an offer, addressed. */
    method Pledge(p: Payload, price: real, from: Peer, next: Peer, now: int) returns (ok: bool)
      requires list.Valid() && IsOffer(p) && price == OfferPrice(p)
      modifies this`payer, this`payee, list, list.db
      ensures list.Valid() && list.View() == Offered(old(list.View()), p, from, next, now)
      ensures var kept := Capped(p.btcAmount, p.fee, price, AvailableFor(old(list.db.peers), from, p));
        && ok == kept.Some?
        && (!ok ==> payer == old(payer) && payee == old(payee))
        && (ok ==>
             var dest := Some(p.destAddress);
             && payer != null && payee != null && payer != payee
             && payee.Value() ==
                  NewContract(kept.value, p.fee, price, p.currency, RECEIVER, from, now).(destAddress := dest)
             && payer.Value() ==
                  NewContract(p.btcAmount, p.fee, price, p.currency, SENDER, next, now).(destAddress := dest))
    {
      ok := MakeContracts(p, price, from, next, now);
      if ok {
        OfferedIs(old(list.View()), p, from, next, now, payee.Value(), payer.Value());
        SetAddresses(payee, payer, p.destAddress, old(list.contracts));
      }
    }

    method DoQuery(item: Item, from: Peer, now: int) returns (sends: seq<Send>, outcome: Outcome)
      requires Valid()
      modifies this, list, list.db, router
      ensures Valid()
      ensures HopResult(View(), TunnelFor(router.tunnels, item.address), sends, outcome) ==
        HopQuery(old(View()), old(TunnelFor(router.tunnels, item.address)), item, from,
                 Surroundings(Gateway(router.routingTable, item.address),
                              AvailableFor(old(list.db.peers), from, item.payload), now))
      ensures list.View() == HopQueried(old(list.View()), old(View()), item, from,
                                        Gateway(router.routingTable, item.address), now)
    {
      if phase != INIT {
        sends, outcome := AbortTx(item, from);
        return;
      }
      phase := QUERY;
      MkTunnel(item.address, from);
      if !IsOffer(item.payload) {
        sends, outcome := AbortTx(item, from);
        return;
      }
      assert list.View() == old(list.View()) && old(View()) == Hop(INIT, None, None);
      NewTunnelIsUsed(old(TunnelFor(router.tunnels, item.address)), item, from,
                      Surroundings(Gateway(router.routingTable, item.address),
                                   AvailableFor(old(list.db.peers), from, item.payload), now));
      sends, outcome := PassOn(item, from, now);
    }

    /** A usable offer: both contracts, and the offer goes on with what credit left of it. */
    method PassOn(item: Item, from: Peer, now: int) returns (sends: seq<Send>, outcome: Outcome)
      requires Valid() && phase == QUERY && payer == null && payee == null && IsOffer(item.payload)
      requires item.address in router.tunnels && router.tunnels[item.address].0 == from
      modifies this`payer, this`payee, list, list.db
      ensures Valid()
      ensures HopResult(View(), Some(router.tunnels[item.address]), sends, outcome) ==
        HopQuery(Hop(INIT, None, None), None, item, from,
                 Surroundings(router.tunnels[item.address].1,
                              AvailableFor(old(list.db.peers), from, item.payload), now))
      ensures list.View() == Offered(old(list.View()), item.payload, from, router.tunnels[item.address].1, now)
    {
      var p := item.payload;
      var price := PriceOf(p);
      var ok, route := router.GetTunnel(item.address, (NOBODY, NOBODY));
      var made := Pledge(p, price, route.0, route.1, now);
      if !made {
        sends, outcome := SendVoteNo(item, from);
        return;
      }
      var fiat := payee.GetFiatAmount();
      var r: RetVal;
      sends, r := ForwardItem(item, Offer(fiat, p.currency, p.destAddress, payee.btcAmount, p.fee));
      return sends, Returns(Success);
    }

    /** Both contracts take the Bitcoin TX, and shrink to the agreed amount unless that is too much;
        the credit held back shrinks with the payee's. */
    method Agree(payer: BtcContract, payee: BtcContract, amount: real, txId: TxId) returns (ok: bool)
      requires list.Valid() && payer != payee && payer.party == SENDER && payee.party == RECEIVER
      modifies payer, payee, list.db
      ensures ok == (amount <= old(payer.btcAmount))
      ensures payer.Value() ==
        if ok then old(payer.Value()).(btcAmount := amount, txId := txId) else old(payer.Value()).(txId := txId)
      ensures payee.Value() ==
        if ok then old(payee.Value()).(btcAmount := amount, txId := txId) else old(payee.Value()).(txId := txId)
      ensures list.db.peers ==
        if !ok then old(list.db.peers)
        else
          var c := old(payee.Value());
          Release(old(list.db.peers), KeyOf(c), Fiat(c) - Fiat(c.(btcAmount := amount)))
    {
      payer.SetBtcTxId(txId);
      payee.SetBtcTxId(txId);
      if amount > payer.btcAmount {
        return false;
      }
      ghost var c := old(payee.Value());
      SameFiat(payee.Value(), c);
      list.SetBtcAmount(payer, amount);
      list.SetBtcAmount(payee, amount);
      SameFiat(payee.Value(), c.(btcAmount := amount));
      return true;
    }

    method DoVote(item: Item, from: Peer) returns (sends: seq<Send>, outcome: Outcome)
      requires Valid() && (item.phase == VOTE_YES || item.phase == VOTE_NO)
      modifies this`phase, if payer == null then {} else {payer}, if payee == null then {} else {payee}, list.db
      ensures Valid()
      ensures HopResult(View(), TunnelFor(router.tunnels, item.address), sends, outcome) ==
        HopVote(old(View()), old(TunnelFor(router.tunnels, item.address)), item, from)
      ensures unchanged(list)
      ensures list.db.peers == HopAgreed(old(list.db.peers), old(View()), item)
      ensures payer != null && payee != null ==>
        if old(phase) == QUERY && item.payload.Vote? && item.payload.txId != NoTx
          && item.payload.voteAmount <= old(payer.btcAmount) then
          && payer.btcAmount == payee.btcAmount == item.payload.voteAmount
          && payer.txId == payee.txId == item.payload.txId && phase == item.phase
        else
          && payer.btcAmount == old(payer.btcAmount) && payee.btcAmount == old(payee.btcAmount)
          && phase == ABORT_REQUEST
    {
      if phase != QUERY {
        sends, outcome := AbortTx(item, from);
        return;
      }
      phase := item.phase;
      if !IsVote(item.payload) || payer == null || payee == null {
        sends, outcome := AbortTx(item, from);
        return;
      }
      var ok := Agree(payer, payee, item.payload.voteAmount, item.payload.txId);
      if !ok {
        sends, outcome := AbortTx(item, from);
        return;
      }
      var r: RetVal;
      sends, r := ForwardItem(item, item.payload);
      return sends, Returns(Success);
    }

    method DoCommit(item: Item, from: Peer) returns (sends: seq<Send>, outcome: Outcome)
      requires Valid()
      modifies this`phase, if payer == null then {} else {payer}, if payee == null then {} else {payee}
      ensures Valid()
      ensures HopResult(View(), TunnelFor(router.tunnels, item.address), sends, outcome) ==
        HopCommit(old(View()), old(TunnelFor(router.tunnels, item.address)), item, from)
      ensures unchanged(list) && unchanged(list.db)
    {
      if phase != VOTE_YES || payer == null || payee == null {
        sends, outcome := AbortTx(item, from);
        return;
      }
      phase := COMMIT;
      payer.Activate();
      payee.Activate();
      var r: RetVal;
      sends, r := ForwardItem(item, item.payload);
      return sends, Returns(Finish);
    }

    /** Both contracts leave the list; the deleted manager holds them no longer. */
    method Rollback()
      requires Valid()
      modifies this`payer, this`payee, list, list.db
      ensures Valid() && View() == old(View()).(payer := None, payee := None)
      ensures list.View() == HopRolledBack(old(list.View()), old(View()))
      ensures HopFreed(old(list.View()), old(View()), list.View())
    {
      RollbackFreesHop(list.View(), View());
      Unlist(list, payer);
      Unlist(list, payee);
      payer, payee := null, null;
    }

    method ProcessItem(item: Item, from: Peer, now: int) returns (sends: seq<Send>, outcome: Outcome)
      requires Valid()
      modifies this, if payer == null then {} else {payer}, if payee == null then {} else {payee}, list, list.db, router
      ensures Valid()
      ensures HopResult(View(), TunnelFor(router.tunnels, item.address), sends, outcome) ==
        HopProcess(old(View()), old(TunnelFor(router.tunnels, item.address)), item, from,
                   Surroundings(Gateway(router.routingTable, item.address),
                                AvailableFor(old(list.db.peers), from, item.payload), now))
      ensures item.phase == QUERY ==>
        list.View() == HopQueried(old(list.View()), old(View()), item, from,
                                  Gateway(router.routingTable, item.address), now)
      ensures item.phase == ABORT ==>
        && list.View() == HopRolledBack(old(list.View()), old(View()))
        && HopFreed(old(list.View()), old(View()), list.View())
      ensures item.phase == ABORT || item.phase == ABORT_REQUEST ==>
        sends == if item.address !in router.tunnels then []
          else [Send(if item.direction == SERVER then router.tunnels[item.address].1
                     else router.tunnels[item.address].0, item)]
      ensures item.phase != QUERY && item.phase != ABORT ==>
        && unchanged(list)
        && list.db.peers == if item.phase == VOTE_YES || item.phase == VOTE_NO
           then HopAgreed(old(list.db.peers), old(View()), item) else old(list.db.peers)
    {
      match item.phase
      case QUERY => sends, outcome := DoQuery(item, from, now);
      case VOTE_NO => sends, outcome := DoVote(item, from);
      case VOTE_YES => sends, outcome := DoVote(item, from);
      case COMMIT => sends, outcome := DoCommit(item, from);
      case ABORT =>
        var r: RetVal;
        sends, r := ForwardItem(item, item.payload);
        Rollback();
        outcome := Returns(Failure);
      case ABORT_REQUEST =>
        var r: RetVal;
        sends, r := ForwardItem(item, item.payload);
        outcome := Returns(r);
      case _ => return [], Throws;
    }
  }

  /** An order as the seller's transactions see it. */
  ghost function Selling(o: Order): SellOrder
    reads o
  {
    SellOrder(o.currency, o.price, o.amount, o.commitment)
  }

  /** The order an id stands for in the index of our own. */
  ghost predicate IsIndexed(own: seq<Order>, id: OrderId, o: Order) {
    Position(own, id) < |own| && o == own[Position(own, id)]
  }

  class TmContractCohortePayee {
    const list: ContractList
    const myOrders: MyOrders
    var phase: Phase
    var payee: BtcContract?
    var order: Order?

    ghost predicate Valid()
      reads this, list, myOrders, myOrders.book, myOrders.bids, myOrders.asks
    {
      && list.Valid() && myOrders.Valid()
      && (payee != null ==> order != null)
    }

    ghost function View(): Payee
      reads this, if payee == null then {} else {payee}
    {
      Payee(phase, ValueOf(payee))
    }

    constructor (list: ContractList, myOrders: MyOrders)
      requires list.Valid() && myOrders.Valid()
      ensures this.list == list && this.myOrders == myOrders && order == null
      ensures Valid() && View() == Payee(INIT, None)
    {
      this.list, this.myOrders := list, myOrders;
      phase, payee, order := INIT, null, null;
    }

    method AbortTx(item: Item, from: Peer) returns (sends: seq<Send>, outcome: Outcome)
      modifies this`phase
      ensures phase == ABORT_REQUEST && sends == [AbortRequest(item, from)] && outcome == Returns(Success)
    {
      phase := ABORT_REQUEST;
      return [AbortRequest(item, from)], Returns(Success);
    }

    /** Reserves what the order still has, and shrinks the contract to it. */
    method ReserveOn(o: Order, c: BtcContract, btcAmount: real, ghost n: nat) returns (amount: real)
      requires list.Valid() && c.btcAmount == btcAmount && n < |list.contracts| && list.contracts[n] == c
      modifies o`commitment, c, list.db
      ensures list.Valid()
      ensures (Selling(o), amount) == Reservation(old(Selling(o)), btcAmount)
      ensures list.View() ==
        if btcAmount > old(Leftover(Selling(o))) then Apply(old(list.View()), OpSetAmount(n, amount))
        else old(list.View())
      ensures c.Value() == old(c.Value()).(btcAmount := amount)
    {
      var leftover := o.amount - o.commitment;
      amount := btcAmount;
      if btcAmount > leftover {
        o.commitment := o.amount;
        amount := leftover;
        list.SetBtcAmount(c, amount);
      } else {
        o.commitment := o.commitment + btcAmount;
      }
    }

    /** The address and the TX that go into the n-th contract. */
    method Sign(c: BtcContract, addr: Address, txId: TxId, ghost n: nat)
      requires list.Valid() && n < |list.contracts| && list.contracts[n] == c
      modifies c
      ensures c.Value() == old(c.Value()).(destAddress := Some(addr), txId := txId)
      ensures list.View() == Apply(Apply(old(list.View()), OpSetAddress(n, addr)), OpSetTxId(n, txId))
    {
      ghost var l := list.View();
      c.SetBtcAddress(addr);
      c.SetBtcTxId(txId);
      assert ContractLists.Values(list.contracts) == l.contracts[n := c.Value()];
    }

    /** The receiver contract of an offer, or null when the buyer's neighbour lacks credit. */
    method MakeContract(p: Payload, price: real, from: Peer, now: int) returns (c: BtcContract?)
      requires list.Valid() && IsOffer(p) && price == OfferPrice(p)
      modifies list, list.db
      ensures list.Valid() && list.View() == Apply(old(list.View()), CreateOp(p, RECEIVER, from, now))
      ensures if c == null then list.View() == old(list.View()) else list.contracts == old(list.contracts) + [c]
      ensures var kept := Capped(p.btcAmount, p.fee, price, AvailableFor(old(list.db.peers), from, p));
        && (c == null <==> kept.None?)
        && (c != null ==>
          fresh(c) && c.Value() == NewContract(kept.value, p.fee, price, p.currency, RECEIVER, from, now))
    {
      c := list.Create(p.btcAmount, p.fee, price, p.currency, RECEIVER, from, now);
    }

    /** The part of doQuery after the contract is made. `rawTx` is what mkRawTx answers. */
    method Decide(o: Order, c: BtcContract, item: Item, from: Peer, price: real, rawTx: Option<TxId>, ghost n: nat)
      returns (sends: seq<Send>, outcome: Outcome)
      requires list.Valid() && payee == c && phase == QUERY
      requires IsOffer(item.payload) && price == OfferPrice(item.payload)
      requires n < |list.contracts| && list.contracts[n] == c
      modifies this`phase, c, o`commitment, list.db
      ensures list.Valid()
      ensures PayeeResult(View(), Selling(o), sends, outcome, false) ==
        Decided(old(c.Value()), old(Selling(o)), item, from, rawTx)
      ensures list.View() == PayeeDecided(old(list.View()), n, old(Selling(o)), item, rawTx)
    {
      if o.currency != item.payload.currency {
        sends, outcome := AbortTx(item, from);
        return;
      }
      if price < o.price || o.amount - o.commitment == 0.0 {
        sends, outcome := SendVoteNo(item, from);
        return;
      }
      var amount := ReserveOn(o, c, c.btcAmount, n);
      if rawTx.None? {
        sends, outcome := AbortTx(item, from);
        return;
      }
      Sign(c, item.payload.destAddress, rawTx.value, n);
      return [Send(from, Item(item.address, VOTE_YES, CLIENT, item.payerId, Vote(amount, rawTx.value)))],
        Returns(Success);
    }

    /** An offer for an order of ours: a contract first, if the credit allows one, then the decision. */
    method Answer(o: Order, item: Item, from: Peer, now: int, rawTx: Option<TxId>)
      returns (sends: seq<Send>, outcome: Outcome)
      requires list.Valid() && phase == QUERY && payee == null && IsOffer(item.payload)
      modifies this`phase, this`payee, list, list.db, o`commitment
      ensures list.Valid()
      ensures var p := item.payload; var price := OfferPrice(p);
        var kept := Capped(p.btcAmount, p.fee, price, AvailableFor(old(list.db.peers), from, p));
        PayeeResult(View(), Selling(o), sends, outcome, false) ==
          if kept.None? then
            PayeeResult(Payee(QUERY, None), old(Selling(o)), [Managers.VoteNo(item, from)], Returns(Finish), false)
          else
            Decided(NewContract(kept.value, p.fee, price, p.currency, RECEIVER, from, now), old(Selling(o)),
                    item, from, rawTx)
      ensures list.View() == PayeeQueried(old(list.View()), Payee(INIT, None), old(Selling(o)), item, from, now, rawTx)
    {
      var p := item.payload;
      var price := PriceOf(p);
      ghost var l, selling := list.View(), Selling(o);
      var c := MakeContract(p, price, from, now);
      assert c == null <==> !HasCredit(l, p, from);
      if c == null {
        sends, outcome := SendVoteNo(item, from);
        return;
      }
      payee := c;
      ghost var n, made := |l.contracts|, list.View();
      assert list.contracts[n] == c && made == Apply(l, CreateOp(p, RECEIVER, from, now));
      sends, outcome := Decide(o, c, item, from, price, rawTx, n);
      assert list.View() == PayeeDecided(made, n, selling, item, rawTx);
    }

    /** The dispatcher creates a payee only for an order in the index of our own; later items find
        the order by the manager, also when the user has cancelled it. */
    method DoQuery(item: Item, from: Peer, now: int, rawTx: Option<TxId>, ghost o: Order)
      returns (sends: seq<Send>, outcome: Outcome)
      requires Valid() && (phase == INIT ==> payee == null && IsIndexed(myOrders.book.orders, item.address, o))
      modifies this, list, list.db, o`commitment
      ensures list.Valid() && (old(phase) == INIT ==> order == o) && (old(phase) != INIT ==> order == old(order))
      ensures PayeeResult(View(), Selling(o), sends, outcome, false) ==
        PayeeQuery(old(View()), old(Selling(o)), item, from,
                   Surroundings(NOBODY, AvailableFor(old(list.db.peers), from, item.payload), now), rawTx)
      ensures list.View() == PayeeQueried(old(list.View()), old(View()), old(Selling(o)), item, from, now, rawTx)
    {
      if phase != INIT {
        sends, outcome := AbortTx(item, from);
        return;
      }
      phase := QUERY;
      order := myOrders.book.Find(item.address);
      if !IsOffer(item.payload) {
        sends, outcome := AbortTx(item, from);
        return;
      }
      assert old(View()) == Payee(INIT, None) && list.View() == old(list.View());
      sends, outcome := Answer(order, item, from, now, rawTx);
    }

    /** The sale of a contract's amount; the last of it takes the order out of the book. */
    method Sell(o: Order, btcAmount: real)
      requires myOrders.Valid() && OnlyItself(myOrders.book.orders, o)
      modifies o, myOrders.book, myOrders.bids, myOrders.asks
      ensures myOrders.Valid()
      ensures Selling(o) ==
        if FillsOrder(old(Selling(o)), btcAmount) then old(Selling(o)) else Sold(old(Selling(o)), btcAmount)
      ensures if old(o.amount) > btcAmount then
          && o.amount == old(o.amount) - btcAmount && o.commitment == old(o.commitment) - btcAmount
          && o.purpose == PARTLY_FILLED && myOrders.book.orders == old(myOrders.book.orders)
        else
          && o.purpose == FILLED && o !in myOrders.book.orders && o !in myOrders.asks.orders
          && myOrders.book.orders == Erased(old(myOrders.book.orders), o.id)
    {
      if o.amount > btcAmount {
        o.purpose := PARTLY_FILLED;
        o.amount := o.amount - btcAmount;
        o.commitment := o.commitment - btcAmount;
      } else {
        myOrders.DropOrder(o, FILLED);
      }
    }

    /** Activates the contract and sells its amount; `broadcast` stands for sendRaw. */
    method DoCommit(item: Item, from: Peer, o: Order) returns (sends: seq<Send>, outcome: Outcome, broadcast: bool)
      requires myOrders.Valid() && OnlyItself(myOrders.book.orders, o) && (payee != null ==> order == o)
      modifies this`phase, if payee == null then {} else {payee}, o, myOrders.book, myOrders.bids, myOrders.asks
      ensures myOrders.Valid()
      ensures PayeeResult(View(), Selling(o), sends, outcome, broadcast) ==
        PayeeCommit(old(View()), old(Selling(o)), item, from)
      ensures old(phase) == QUERY && payee != null ==>
        broadcast && payee.activated &&
        if old(o.amount) > payee.btcAmount then
          o.amount == old(o.amount) - payee.btcAmount && o.commitment == old(o.commitment) - payee.btcAmount
        else o.purpose == FILLED && o !in myOrders.book.orders && o !in myOrders.asks.orders
      ensures unchanged(list) && unchanged(list.db)
    {
      if phase != QUERY || payee == null {
        sends, outcome := AbortTx(item, from);
        return sends, outcome, false;
      }
      phase := COMMIT;
      payee.Activate();
      Sell(o, payee.btcAmount);
      return [], Returns(Finish), true;
    }

    /** What the contract holds goes back to the order, reserved or not. */
    method Rollback()
      requires list.Valid() && (payee != null ==> order != null)
      modifies this`payee, list, list.db, if order == null then {} else {order}
      ensures list.Valid() && payee == null && phase == old(phase)
      ensures old(payee) != null ==> Selling(order) == PayeeRollback(old(View()), old(Selling(order))).1
      ensures old(payee) == null && order != null ==> Selling(order) == old(Selling(order))
      ensures list.View() == PayeeRolledBack(old(list.View()), old(View()))
      ensures old(payee) != null ==> Freed(old(list.View()), old(payee.Value()), list.View())
    {
      Unlist(list, payee);
      if payee != null {
        order.commitment := order.commitment - payee.btcAmount;
      }
      payee := null;
    }

    method OnAbort(o: Order)
      requires list.Valid() && (payee != null ==> order == o)
      modifies this`payee, list, list.db, o, if order == null then {} else {order}
      ensures list.Valid() && (View(), Selling(o)) == PayeeRollback(old(View()), old(Selling(o)))
      ensures list.View() == PayeeRolledBack(old(list.View()), old(View()))
      ensures old(payee) != null ==> Freed(old(list.View()), old(payee.Value()), list.View())
    {
      if payee != null {
        Rollback();
      }
    }

    method ProcessItem(item: Item, from: Peer, now: int, rawTx: Option<TxId>, o: Order)
      returns (sends: seq<Send>, outcome: Outcome, broadcast: bool)
      requires Valid() && (phase == INIT ==> payee == null && IsIndexed(myOrders.book.orders, item.address, o))
      requires OnlyItself(myOrders.book.orders, o) && (payee != null ==> order == o)
      modifies this, if payee == null then {} else {payee}, list, list.db, o
      modifies if order == null then {} else {order}, myOrders.book, myOrders.bids, myOrders.asks
      ensures PayeeResult(View(), Selling(o), sends, outcome, broadcast) ==
        PayeeProcess(old(View()), old(Selling(o)), item, from,
                     Surroundings(NOBODY, AvailableFor(old(list.db.peers), from, item.payload), now), rawTx)
      ensures item.phase == QUERY ==>
        list.View() == PayeeQueried(old(list.View()), old(View()), old(Selling(o)), item, from, now, rawTx)
      ensures item.phase == ABORT ==> list.View() == PayeeRolledBack(old(list.View()), old(View()))
      ensures item.phase == ABORT && old(payee) != null ==>
        Freed(old(list.View()), old(payee.Value()), list.View())
      ensures item.phase != QUERY && item.phase != ABORT ==> unchanged(list) && unchanged(list.db)
    {
      broadcast := false;
      match item.phase
      case QUERY => sends, outcome := DoQuery(item, from, now, rawTx, o);
      case COMMIT => sends, outcome, broadcast := DoCommit(item, from, o);
      case ABORT =>
        OnAbort(o);
        return [], Returns(Failure), false;
      case _ => return [], Throws, false;
    }
  }

  /** The buyer's contract with the node next on the way to the seller; null when there is no way. */
  method MakePayer(list: ContractList, router: TraceRouter, other: Order, amount: real, now: int)
    returns (payer: BtcContract?)
    requires list.Valid() && other.price > 0.0
    modifies list, list.db
    ensures list.Valid() && (payer != null ==> fresh(payer))
    ensures ValueOf(payer) == if other.id !in router.routingTable then None
      else Some(NewContract(amount, 0.0, other.price, other.currency, SENDER, router.routingTable[other.id], now))
    ensures list.View() ==
      Pursued(old(list.View()), router.routingTable, other.id, other.price, other.currency, amount, now)
    ensures list.contracts == old(list.contracts) + if payer == null then [] else [payer]
  {
    var addr := router.NextHop(other.id);
    payer := null;
    if addr.Some? {
      payer := list.Create(amount, 0.0, other.price, other.currency, SENDER, addr.value, now);
    }
  }

  class TmContractCoordinator {
    const list: ContractList
    const router: TraceRouter
    const myOrders: MyOrders
    const otherOrder: Order
    const myOrder: Order
    var payer: BtcContract?

    ghost function View(): Coordinator
      reads this, if payer == null then {} else {payer}
    {
      Coordinator(ValueOf(payer))
    }

    /** One purchase: a contract with the node next on the way to the seller, if there is a way. */
    constructor (list: ContractList, router: TraceRouter, myOrders: MyOrders, other: Order, mine: Order,
                 amount: real, now: int)
      requires list.Valid() && other.price > 0.0
      modifies list, list.db, mine`locked
      ensures list.Valid() && mine.locked
      ensures this.list == list && this.router == router && this.myOrders == myOrders
      ensures otherOrder == other && myOrder == mine
      ensures View() == Coordinator(if other.id !in router.routingTable then None
        else Some(NewContract(amount, 0.0, other.price, other.currency, SENDER, router.routingTable[other.id], now)))
      ensures list.View() ==
        Pursued(old(list.View()), router.routingTable, other.id, other.price, other.currency, amount, now)
      ensures list.contracts == old(list.contracts) + if payer == null then [] else [payer]
    {
      this.list, this.router, this.myOrders, otherOrder, myOrder := list, router, myOrders, other, mine;
      payer := null;
      new;
      payer := MakePayer(list, router, other, amount, now);
      mine.locked := true;
    }

    /** Sends the QUERY, unless there is no contract or no Bitcoin address to be paid at. */
    method Init(newAddress: Option<Address>) returns (r: RetVal, sends: seq<Send>)
      modifies if payer == null then {} else {payer}
      ensures r == if payer == null || newAddress.None? then Failure else Success
      ensures r == Failure ==> sends == [] && View() == old(View())
      ensures r == Success ==>
        && payer.Value() == old(payer.Value()).(destAddress := newAddress)
        && sends == [Send(payer.counterParty, Item(otherOrder.id, QUERY, SERVER, myOrder.id,
             Offer(Fiat(payer.Value()), payer.currency, newAddress.value, payer.btcAmount, 0.0)))]
    {
      if payer == null || newAddress.None? {
        return Failure, [];
      }
      payer.SetBtcAddress(newAddress.value);
      var fiat := payer.GetFiatAmount();
      return Success, [Send(payer.counterParty, Item(otherOrder.id, QUERY, SERVER, myOrder.id,
        Offer(fiat, payer.currency, newAddress.value, payer.btcAmount, 0.0)))];
    }

    /** abortTx commands the abort, along the route. */
    method CommandAbort(item: Item) returns (sends: seq<Send>, outcome: Outcome)
      requires item.address == otherOrder.id && item.payerId == myOrder.id && otherOrder.id in router.routingTable
      ensures forall c ::
        CoordinatorResult(c, sends, outcome) == Managers.CommandAbort(c, item, router.routingTable[otherOrder.id])
    {
      var addr := router.NextHop(otherOrder.id);
      return [Send(addr.value, Item(otherOrder.id, ABORT, SERVER, myOrder.id, Blank))], Returns(Failure);
    }

    /** The bid after a purchase: what is left of it can be matched again; a bid that is filled goes. */
    method SettleBid(btcAmount: real)
      requires myOrders.Valid() && OnlyItself(myOrders.book.orders, myOrder)
      modifies myOrder, myOrders.book, myOrders.bids, myOrders.asks
      ensures myOrders.Valid() && myOrder.matched == old(myOrder.matched)
      ensures if old(myOrder.amount) > btcAmount then
          && myOrder.amount == old(myOrder.amount) - btcAmount && !myOrder.locked && myOrder.purpose == PARTLY_FILLED
          && myOrders.book.orders == old(myOrders.book.orders)
        else
          && myOrder.purpose == FILLED && myOrder !in myOrders.book.orders && myOrder !in myOrders.bids.orders
          && myOrders.book.orders == Erased(old(myOrders.book.orders), myOrder.id)
    {
      if myOrder.amount > btcAmount {
        myOrder.amount := myOrder.amount - btcAmount;
        myOrder.purpose := PARTLY_FILLED;
        myOrder.locked := false;
      } else {
        myOrders.DropOrder(myOrder, FILLED);
      }
    }

    /** Takes the vote: the seller may reduce the amount, never increase it. */
    method TakeVote(item: Item) returns (sends: seq<Send>, outcome: Outcome)
      requires list.Valid() && item.address == otherOrder.id && item.payerId == myOrder.id
      requires otherOrder.id in router.routingTable && (payer != null ==> payer.party == SENDER)
      modifies if payer == null then {} else {payer}, list.db, otherOrder`ignored
      ensures CoordinatorResult(View(), sends, outcome) == DoTx(old(View()), item, router.routingTable[otherOrder.id])
      ensures list.db.peers == old(list.db.peers)
      ensures otherOrder.ignored ==
        (old(otherOrder.ignored) || (outcome == Returns(Finish) && payer.btcAmount < old(payer.btcAmount)))
      ensures outcome == Returns(Finish) <==>
        && payer != null && item.payload.Vote? && item.payload.txId != NoTx
        && item.payload.voteAmount <= old(payer.btcAmount)
      ensures outcome == Returns(Finish) ==>
        payer.activated && payer.btcAmount == item.payload.voteAmount && payer.txId == item.payload.txId
    {
      if !IsVote(item.payload) || payer == null {
        sends, outcome := CommandAbort(item);
        return;
      }
      var btcAmount := item.payload.voteAmount;
      if btcAmount > payer.btcAmount {
        sends, outcome := CommandAbort(item);
        return;
      }
      if btcAmount < payer.btcAmount {
        list.SetBtcAmount(payer, btcAmount);
        otherOrder.ignored := true;
      }
      payer.SetBtcTxId(item.payload.txId);
      payer.Activate();
      return [Send(payer.counterParty, Item(otherOrder.id, COMMIT, SERVER, myOrder.id, Blank))], Returns(Finish);
    }

    /** The contract goes, and the seller's order is not matched again. */
    method Rollback()
      requires list.Valid() && myOrders.Valid()
      requires forall o :: o in myOrders.asks.orders && o.id == otherOrder.id ==> !o.isMyOrder
      modifies this`payer, list, list.db, myOrders.asks, otherOrder`ignored
      ensures list.Valid() && myOrders.Valid() && otherOrder.ignored && payer == null
      ensures myOrders.asks.orders == Erased(old(myOrders.asks.orders), otherOrder.id)
      ensures list.View() ==
        if old(payer) == null then old(list.View()) else Remove(old(list.View()), old(payer.Value()))
      ensures old(payer) != null ==> Freed(old(list.View()), old(payer.Value()), list.View())
    {
      Unlist(list, payer);
      payer := null;
      myOrders.ForgetAsk(otherOrder);
    }

    /** A no, or the request of another node: the contract leaves the list, the ask is struck, and one
        ABORT goes on towards the seller. */
    method OnNo(item: Item) returns (sends: seq<Send>, outcome: Outcome)
      requires list.Valid() && myOrders.Valid() && item.address == otherOrder.id && item.payerId == myOrder.id
      requires otherOrder.id in router.routingTable
      requires forall o :: o in myOrders.asks.orders && o.id == otherOrder.id ==> !o.isMyOrder
      modifies this`payer, list, list.db, myOrders.asks, otherOrder`ignored
      ensures list.Valid() && myOrders.Valid() && payer == null && outcome == Returns(Failure)
      ensures item.phase == VOTE_NO || item.phase == ABORT_REQUEST ==>
        CoordinatorResult(View(), sends, outcome) ==
          CoordinatorProcess(old(View()), item, old(router.routingTable[otherOrder.id]))
      ensures sends == [Send(old(router.routingTable[otherOrder.id]),
                             Item(otherOrder.id, ABORT, SERVER, myOrder.id, Blank))]
      ensures old(payer) == null ==> list.View() == old(list.View())
      ensures old(payer) != null ==> Freed(old(list.View()), old(payer.Value()), list.View())
      ensures otherOrder.ignored && myOrders.asks.orders == Erased(old(myOrders.asks.orders), otherOrder.id)
    {
      Rollback();
      sends, outcome := CommandAbort(item);
      assert CoordinatorResult(View(), sends, outcome) ==
        Managers.CommandAbort(View(), item, router.routingTable[otherOrder.id]);
    }

    /** A vote: the buyer commits and settles the bid, or commands an abort and keeps its contract. */
    method OnYes(item: Item) returns (sends: seq<Send>, outcome: Outcome)
      requires list.Valid() && myOrders.Valid() && item.address == otherOrder.id && item.payerId == myOrder.id
      requires otherOrder.id in router.routingTable && (payer != null ==> payer.party == SENDER)
      requires OnlyItself(myOrders.book.orders, myOrder) && otherOrder != myOrder
      modifies if payer == null then {} else {payer}
      modifies list.db, otherOrder`ignored, myOrder, myOrders.book, myOrders.bids, myOrders.asks
      ensures list.Valid() && myOrders.Valid() && list.db.peers == old(list.db.peers)
      ensures myOrder.matched == old(myOrder.matched)
      ensures outcome != Returns(Finish) ==> unchanged(myOrder) && unchanged(myOrders.book)
      ensures outcome == Returns(Finish) ==>
        && payer != null && payer.activated
        && if old(myOrder.amount) > payer.btcAmount then
             myOrder.amount == old(myOrder.amount) - payer.btcAmount && !myOrder.locked
           else myOrder.purpose == FILLED && myOrder !in myOrders.book.orders
      ensures item.phase == VOTE_YES ==>
        CoordinatorResult(View(), sends, outcome) ==
          CoordinatorProcess(old(View()), item, old(router.routingTable[otherOrder.id]))
    {
      sends, outcome := TakeVote(item);
      if outcome == Returns(Finish) {
        SettleBid(item.payload.voteAmount);
      }
    }

    method ProcessItem(item: Item) returns (sends: seq<Send>, outcome: Outcome)
      requires list.Valid() && myOrders.Valid() && item.address == otherOrder.id && item.payerId == myOrder.id
      requires otherOrder.id in router.routingTable && (payer != null ==> payer.party == SENDER)
      requires OnlyItself(myOrders.book.orders, myOrder) && otherOrder != myOrder
      requires forall o :: o in myOrders.asks.orders && o.id == otherOrder.id ==> !o.isMyOrder
      modifies this`payer, if payer == null then {} else {payer}, list, list.db
      modifies otherOrder`ignored, myOrder, myOrders.book, myOrders.bids, myOrders.asks
      ensures list.Valid() && myOrders.Valid() && myOrder.matched == old(myOrder.matched)
      ensures item.phase == VOTE_NO || item.phase == ABORT_REQUEST ==>
        && payer == null && outcome == Returns(Failure)
        && sends == [Send(old(router.routingTable[otherOrder.id]),
                          Item(otherOrder.id, ABORT, SERVER, myOrder.id, Blank))]
        && otherOrder.ignored && myOrders.asks.orders == Erased(old(myOrders.asks.orders), otherOrder.id)
        && if old(payer) == null then list.View() == old(list.View())
           else Freed(old(list.View()), old(payer.Value()), list.View())
      ensures item.phase == VOTE_YES && outcome == Returns(Finish) ==>
        && payer != null && payer.activated
        && if old(myOrder.amount) > payer.btcAmount then
             myOrder.amount == old(myOrder.amount) - payer.btcAmount && !myOrder.locked
           else myOrder.purpose == FILLED && myOrder !in myOrders.book.orders
      ensures CoordinatorResult(View(), sends, outcome) ==
        CoordinatorProcess(old(View()), item, old(router.routingTable[otherOrder.id]))
    {
      match item.phase
      case VOTE_NO => sends, outcome := OnNo(item);
      case VOTE_YES => sends, outcome := OnYes(item);
      case ABORT_REQUEST => sends, outcome := OnNo(item);
      case _ => return [], Throws;
    }
  }
}
