/** The three managers of a contract transaction (TmContract.cpp), one handler at a time.
    Each function maps a manager and an incoming item to the manager afterwards, the items it
    sends and what it returns to its dispatcher. */
module Managers {
  import opened Common
  import opened Contracts

  datatype Phase = INIT | QUERY | VOTE_YES | VOTE_NO | COMMIT | ACK_COMMIT | ABORT | ABORT_REQUEST

  datatype Direction = SERVER | CLIENT

  /** The colon-separated payload, split into its fields. */
  datatype Payload =
    | Offer(fiatAmount: real, currency: Currency, destAddress: Address, btcAmount: real, fee: real)
    | Vote(voteAmount: real, txId: TxId)
    | Blank

  datatype Item = Item(address: OrderId, phase: Phase, direction: Direction, payerId: OrderId, payload: Payload)

  datatype Send = Send(to: Peer, item: Item)

  /** What a handler reports: a return code, or the exception the dispatcher swallows without
      deleting the manager. */
  datatype Outcome = Returns(code: RetVal) | Throws

  /** An offer that splits into five fields and carries usable numbers. */
  predicate IsOffer(p: Payload) {
    p.Offer? && p.btcAmount > 0.0 && p.fiatAmount > 0.0 && p.fee >= 0.0
  }

  /** A vote splits into two fields only if the TX id after the last colon is not empty. */
  predicate IsVote(p: Payload) { p.Vote? && p.txId != NoTx }

  function OfferPrice(p: Payload): (price: real)
    requires IsOffer(p)
    ensures price > 0.0 && price * p.btcAmount == p.fiatAmount
  {
    p.fiatAmount / p.btcAmount
  }

  /** The request a cohort sends back to whoever sent the item that did not fit. */
  function AbortRequest(item: Item, from: Peer): Send {
    Send(from, Item(item.address, ABORT_REQUEST, CLIENT, item.payerId, Blank))
  }

  function VoteNo(item: Item, from: Peer): Send {
    Send(from, Item(item.address, VOTE_NO, CLIENT, item.payerId, Vote(0.0, VoteNoTx)))
  }

  // ---- The hop ----

  /** mPayer pays the next node, mPayee is paid by the previous one. */
  datatype Hop = Hop(phase: Phase, payer: Option<Contract>, payee: Option<Contract>)

  type Tunnel = Option<(Peer, Peer)>

  datatype HopResult = HopResult(hop: Hop, tunnel: Tunnel, sends: seq<Send>, outcome: Outcome)

  /** The world as a handler finds it: the route towards the order, the credit the previous node
      has left with us, and the time. */
  datatype Surroundings = Surroundings(nextHop: Peer, available: real, now: int)

  function HopAbort(h: Hop, tunnel: Tunnel, item: Item, from: Peer): HopResult {
    HopResult(h.(phase := ABORT_REQUEST), tunnel, [AbortRequest(item, from)], Returns(Success))
  }

  /** forwardItem: fails without sending when there is no tunnel for the address. */
  function Forward(tunnel: Tunnel, item: Item, payload: Payload): Option<Send> {
    match tunnel
    case None => None
    case Some((first, second)) =>
      Some(Send(if item.direction == SERVER then second else first, item.(payload := payload)))
  }

  function Sent(send: Option<Send>): seq<Send> {
    if send.None? then [] else [send.value]
  }

  function HopQuery(h: Hop, tunnel: Tunnel, item: Item, from: Peer, at: Surroundings): HopResult {
    if h.phase != INIT then HopAbort(h, tunnel, item, from)
    else
      var h1 := h.(phase := QUERY);
      var tunnel1: Tunnel := Some((from, at.nextHop));
      var p := item.payload;
      if !IsOffer(p) then HopAbort(h1, tunnel1, item, from)
      else
        var price := OfferPrice(p);
        match Capped(p.btcAmount, p.fee, price, at.available)
        case None => HopResult(h1, tunnel1, [VoteNo(item, from)], Returns(Finish))
        case Some(kept) =>
          var payee := NewContract(kept, p.fee, price, p.currency, RECEIVER, from, at.now)
            .(destAddress := Some(p.destAddress));
          var payer := NewContract(p.btcAmount, p.fee, price, p.currency, SENDER, at.nextHop, at.now)
            .(destAddress := Some(p.destAddress));
          var offer := Offer(Fiat(payee), p.currency, p.destAddress, payee.btcAmount, p.fee);
          HopResult(Hop(QUERY, Some(payer), Some(payee)), tunnel1,
                    Sent(Forward(tunnel1, item, offer)), Returns(Success))
  }

  function HopVote(h: Hop, tunnel: Tunnel, item: Item, from: Peer): HopResult {
    if h.phase != QUERY then HopAbort(h, tunnel, item, from)
    else
      var h1 := h.(phase := item.phase);
      if !IsVote(item.payload) || h.payer.None? || h.payee.None? then HopAbort(h1, tunnel, item, from)
      else
        var amount := item.payload.voteAmount;
        var payer := h.payer.value.(txId := item.payload.txId);
        var payee := h.payee.value.(txId := item.payload.txId);
        if amount > payer.btcAmount then
          HopAbort(h1.(payer := Some(payer), payee := Some(payee)), tunnel, item, from)
        else
          HopResult(h1.(payer := Some(payer.(btcAmount := amount)), payee := Some(payee.(btcAmount := amount))),
                    tunnel, Sent(Forward(tunnel, item, item.payload)), Returns(Success))
  }

  function HopCommit(h: Hop, tunnel: Tunnel, item: Item, from: Peer): HopResult {
    if h.phase != VOTE_YES || h.payer.None? || h.payee.None? then HopAbort(h, tunnel, item, from)
    else
      HopResult(Hop(COMMIT, Some(h.payer.value.(activated := true)), Some(h.payee.value.(activated := true))),
                tunnel, Sent(Forward(tunnel, item, item.payload)), Returns(Finish))
  }

  function HopProcess(h: Hop, tunnel: Tunnel, item: Item, from: Peer, at: Surroundings): HopResult {
    match item.phase
    case QUERY => HopQuery(h, tunnel, item, from, at)
    case VOTE_NO => HopVote(h, tunnel, item, from)
    case VOTE_YES => HopVote(h, tunnel, item, from)
    case COMMIT => HopCommit(h, tunnel, item, from)
    case ABORT =>
      HopResult(h.(payer := None, payee := None), tunnel, Sent(Forward(tunnel, item, item.payload)), Returns(Failure))
    case ABORT_REQUEST =>
      var send := Forward(tunnel, item, item.payload);
      HopResult(h, tunnel, Sent(send), Returns(if send.None? then Failure else Success))
    case INIT => HopResult(h, tunnel, [], Throws)
    case ACK_COMMIT => HopResult(h, tunnel, [], Throws)
  }

  // ---- The payee ----

  /** The seller's order as its transactions see it. */
  datatype SellOrder = SellOrder(currency: Currency, price: real, amount: real, commitment: real)

  function Leftover(o: SellOrder): real { o.amount - o.commitment }

  datatype Payee = Payee(phase: Phase, payee: Option<Contract>)

  /** `broadcast` tells that sendRaw was called. */
  datatype PayeeResult = PayeeResult(mgr: Payee, order: SellOrder, sends: seq<Send>, outcome: Outcome, broadcast: bool)

  function PayeeAbort(m: Payee, o: SellOrder, item: Item, from: Peer): PayeeResult {
    PayeeResult(m.(phase := ABORT_REQUEST), o, [AbortRequest(item, from)], Returns(Success), false)
  }

  /** The amount an order lets a contract have, and the order with that amount reserved. */
  function Reservation(o: SellOrder, btcAmount: real): (SellOrder, real) {
    if btcAmount > Leftover(o) then (o.(commitment := o.amount), Leftover(o))
    else (o.(commitment := o.commitment + btcAmount), btcAmount)
  }

  /** What the seller makes of a contract with what is left of its order. */
  function Decided(c: Contract, o: SellOrder, item: Item, from: Peer, rawTx: Option<TxId>): PayeeResult
    requires IsOffer(item.payload)
  {
    var m := Payee(QUERY, Some(c));
    if o.currency != item.payload.currency then PayeeAbort(m, o, item, from)
    else if OfferPrice(item.payload) < o.price || Leftover(o) == 0.0 then
      PayeeResult(m, o, [VoteNo(item, from)], Returns(Finish), false)
    else
      var (o', amount) := Reservation(o, c.btcAmount);
      if rawTx.None? then PayeeAbort(Payee(QUERY, Some(c.(btcAmount := amount))), o', item, from)
      else
        var signed := c.(btcAmount := amount, destAddress := Some(item.payload.destAddress), txId := rawTx.value);
        var vote := Item(item.address, VOTE_YES, CLIENT, item.payerId, Vote(amount, rawTx.value));
        PayeeResult(Payee(QUERY, Some(signed)), o', [Send(from, vote)], Returns(Success), false)
  }

  /** `rawTx` is the id of the signed transaction, or None when mkRawTx fails. */
  function PayeeQuery(m: Payee, o: SellOrder, item: Item, from: Peer, at: Surroundings,
                      rawTx: Option<TxId>): PayeeResult
  {
    if m.phase != INIT then PayeeAbort(m, o, item, from)
    else
      var m1 := m.(phase := QUERY);
      var p := item.payload;
      if !IsOffer(p) then PayeeAbort(m1, o, item, from)
      else
        var price := OfferPrice(p);
        match Capped(p.btcAmount, p.fee, price, at.available)
        case None => PayeeResult(m1, o, [VoteNo(item, from)], Returns(Finish), false)
        case Some(kept) =>
          var c := NewContract(kept, p.fee, price, p.currency, RECEIVER, from, at.now);
          Decided(c, o, item, from, rawTx)
  }

  /** The order once a contract's amount has been sold. */
  function Sold(o: SellOrder, btcAmount: real): SellOrder {
    o.(amount := o.amount - btcAmount, commitment := o.commitment - btcAmount)
  }

  /** True when the sale leaves nothing of the order, so the order is deleted. */
  predicate FillsOrder(o: SellOrder, btcAmount: real) { o.amount <= btcAmount }

  function PayeeCommit(m: Payee, o: SellOrder, item: Item, from: Peer): PayeeResult {
    if m.phase != QUERY || m.payee.None? then PayeeAbort(m, o, item, from)
    else
      var c := m.payee.value.(activated := true);
      PayeeResult(Payee(COMMIT, Some(c)), if FillsOrder(o, c.btcAmount) then o else Sold(o, c.btcAmount),
                  [], Returns(Finish), true)
  }

  /** rollback gives back whatever the contract holds, reserved or not. */
  function PayeeRollback(m: Payee, o: SellOrder): (Payee, SellOrder) {
    if m.payee.None? then (m, o)
    else (m.(payee := None), o.(commitment := o.commitment - m.payee.value.btcAmount))
  }

  function PayeeProcess(m: Payee, o: SellOrder, item: Item, from: Peer, at: Surroundings,
                        rawTx: Option<TxId>): PayeeResult
  {
    match item.phase
    case QUERY => PayeeQuery(m, o, item, from, at, rawTx)
    case COMMIT => PayeeCommit(m, o, item, from)
    case ABORT =>
      var (m', o') := PayeeRollback(m, o);
      PayeeResult(m', o', [], Returns(Failure), false)
    case _ => PayeeResult(m, o, [], Throws, false)
  }

  // ---- The coordinator ----

  /** A coordinator stays in phase INIT; it is deleted after its first answer. */
  datatype Coordinator = Coordinator(payer: Option<Contract>)

  datatype CoordinatorResult = CoordinatorResult(mgr: Coordinator, sends: seq<Send>, outcome: Outcome)

  /** abortTx of the coordinator commands the abort. */
  function CommandAbort(c: Coordinator, item: Item, nextHop: Peer): CoordinatorResult {
    CoordinatorResult(c, [Send(nextHop, Item(item.address, ABORT, SERVER, item.payerId, Blank))], Returns(Failure))
  }

  function DoTx(c: Coordinator, item: Item, nextHop: Peer): CoordinatorResult {
    if !IsVote(item.payload) || c.payer.None? || item.payload.voteAmount > c.payer.value.btcAmount then
      CommandAbort(c, item, nextHop)
    else
      var payer := c.payer.value.(btcAmount := item.payload.voteAmount, txId := item.payload.txId, activated := true);
      CoordinatorResult(Coordinator(Some(payer)),
        [Send(payer.counterParty, Item(item.address, COMMIT, SERVER, item.payerId, Blank))], Returns(Finish))
  }

  function CoordinatorProcess(c: Coordinator, item: Item, nextHop: Peer): CoordinatorResult {
    match item.phase
    case VOTE_NO => CommandAbort(Coordinator(None), item, nextHop)
    case VOTE_YES => DoTx(c, item, nextHop)
    case ABORT_REQUEST => CommandAbort(Coordinator(None), item, nextHop)
    case _ => CoordinatorResult(c, [], Throws)
  }
}
