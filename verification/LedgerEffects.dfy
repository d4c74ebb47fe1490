/** What the managers of contract transactions do to the list of contracts and to the accounts
    (TmContract.cpp, BtcContract.cpp): the effect of each handler, and that a rollback undoes it. */
module LedgerEffects {
  import opened Common
  import opened Accounts
  import opened Contracts
  import opened Managers

  /** The empty string as a peer address. */
  const NOBODY: Peer := 0

  /** What the previous node may still owe us in the currency of its offer. */
  function AvailableFor(peers: map<Key, Account>, from: Peer, p: Payload): real {
    if p.Offer? then PeerAvailable(Row(peers, (from, p.currency))) else 0.0
  }

  function CreateOp(p: Payload, party: Party, counterParty: Peer, now: int): Op
    requires IsOffer(p)
  {
    OpCreate(p.btcAmount, p.fee, OfferPrice(p), p.currency, party, counterParty, now)
  }

  /** The credit the previous node has left with us allows a contract. */
  predicate HasCredit(l: Ledger, p: Payload, from: Peer)
    requires IsOffer(p)
  {
    Capped(p.btcAmount, p.fee, OfferPrice(p), AvailableFor(l.peers, from, p)).Some?
  }

  /** A hop's offer makes two contracts, or nothing when the previous node lacks credit. */
  function Pledged(l: Ledger, p: Payload, from: Peer, next: Peer, now: int): Ledger
    requires IsOffer(p)
  {
    if !HasCredit(l, p, from) then l
    else Apply(Apply(l, CreateOp(p, RECEIVER, from, now)), CreateOp(p, SENDER, next, now))
  }

  /** Both contracts then learn the buyer's Bitcoin address. */
  function Offered(l: Ledger, p: Payload, from: Peer, next: Peer, now: int): Ledger
    requires IsOffer(p)
  {
    if !HasCredit(l, p, from) then l
    else
      var n := |l.contracts|;
      Apply(Apply(Pledged(l, p, from, next, now), OpSetAddress(n, p.destAddress)), OpSetAddress(n + 1, p.destAddress))
  }

  lemma OfferedIs(l: Ledger, p: Payload, from: Peer, next: Peer, now: int, incoming: Contract, outgoing: Contract)
    requires IsOffer(p) && HasCredit(l, p, from)
    requires Pledged(l, p, from, next, now).contracts == l.contracts + [incoming, outgoing]
    ensures Offered(l, p, from, next, now) == Pledged(l, p, from, next, now).(contracts := l.contracts +
      [incoming.(destAddress := Some(p.destAddress)), outgoing.(destAddress := Some(p.destAddress))])
  {
    var n, cs := |l.contracts|, l.contracts + [incoming, outgoing];
    assert cs[n] == incoming && cs[n + 1] == outgoing;
  }

  /** A hop's QUERY. */
  function HopQueried(l: Ledger, h: Hop, item: Item, from: Peer, next: Peer, now: int): Ledger {
    if h.phase != INIT || !IsOffer(item.payload) then l else Offered(l, item.payload, from, next, now)
  }

  /** The vote does not ask for more than the hop is ready to pay for. */
  predicate Accepts(h: Hop, item: Item) {
    && h.phase == QUERY && IsVote(item.payload) && h.payer.Some? && h.payee.Some?
    && item.payload.voteAmount <= h.payer.value.btcAmount
  }

  /** A vote a hop accepts frees the credit that the smaller amount does not need. */
  function HopAgreed(peers: map<Key, Account>, h: Hop, item: Item): map<Key, Account> {
    if Accepts(h, item) then
      var c := h.payee.value;
      Release(peers, KeyOf(c), Fiat(c) - Fiat(c.(btcAmount := item.payload.voteAmount)))
    else peers
  }

  /** An ABORT takes both contracts off the list. */
  function HopRolledBack(l: Ledger, h: Hop): Ledger {
    var first := if h.payer.None? then l else Remove(l, h.payer.value);
    if h.payee.None? then first else Remove(first, h.payee.value)
  }

  // ---- A hop's rollback ----

  /** A contract is gone, all others are listed as before, and what it held back is free again; where
      it was the first with its friend and Bitcoin TX. */
  ghost predicate Freed(l: Ledger, c: Contract, l': Ledger) {
    forall i :: IsFirst(l.contracts, i, c) ==>
      l'.contracts == l.contracts[..i] + l.contracts[i + 1..] && CreditFreed(l.peers, l'.peers, c)
  }

  lemma RemoveFrees(l: Ledger, c: Contract)
    ensures Freed(l, c, Remove(l, c))
  {
    forall i | IsFirst(l.contracts, i, c)
      ensures Remove(l, c).contracts == l.contracts[..i] + l.contracts[i + 1..]
      ensures CreditFreed(l.peers, Remove(l, c).peers, c)
    {
      RemoveHitsItsArgument(l, i, c);
    }
  }

  /** A list without the contracts at two places. */
  function WithoutBoth(cs: seq<Contract>, i: int, j: int): seq<Contract>
    requires 0 <= i < |cs| && 0 <= j < |cs| && i != j
  {
    if i < j then cs[..i] + cs[i + 1..j] + cs[j + 1..] else cs[..j] + cs[j + 1..i] + cs[i + 1..]
  }

  /** Both contracts of a hop are gone, all others are listed as before, and the previous node's
      credit is free again; all this where each was the first with its friend and Bitcoin TX. */
  ghost predicate HopFreed(l: Ledger, h: Hop, l': Ledger) {
    h.payer.Some? && h.payee.Some? ==>
      forall i, j :: IsFirst(l.contracts, i, h.payer.value) && IsFirst(l.contracts, j, h.payee.value) && i != j ==>
        l'.contracts == WithoutBoth(l.contracts, i, j) && CreditFreed(l.peers, l'.peers, h.payee.value)
  }

  lemma StillFirst(cs: seq<Contract>, i: int, j: int, d: Contract)
    requires 0 <= i < |cs| && i != j && IsFirst(cs, j, d)
    ensures var rest := cs[..i] + cs[i + 1..]; var at := if i < j then j - 1 else j;
      IsFirst(rest, at, d) && rest[..at] + rest[at + 1..] == WithoutBoth(cs, i, j)
  {
  }

  lemma BothRemoved(l: Ledger, c: Contract, d: Contract, i: int, j: int)
    requires IsFirst(l.contracts, i, c) && IsFirst(l.contracts, j, d) && i != j && c.party == SENDER
    ensures var after := Remove(Remove(l, c), d);
      after.contracts == WithoutBoth(l.contracts, i, j) && CreditFreed(l.peers, after.peers, d)
      && after.expired == l.expired
  {
    StillFirst(l.contracts, i, j, d);
    RemoveHitsItsArgument(l, i, c);
    RemoveHitsItsArgument(Remove(l, c), if i < j then j - 1 else j, d);
  }

  lemma RollbackFreesHop(l: Ledger, h: Hop)
    requires h.payer.Some? ==> h.payer.value.party == SENDER
    ensures HopFreed(l, h, HopRolledBack(l, h))
  {
    if h.payer.Some? && h.payee.Some? {
      forall i, j | IsFirst(l.contracts, i, h.payer.value) && IsFirst(l.contracts, j, h.payee.value) && i != j
        ensures HopRolledBack(l, h).contracts == WithoutBoth(l.contracts, i, j)
        ensures CreditFreed(l.peers, HopRolledBack(l, h).peers, h.payee.value)
      {
        BothRemoved(l, h.payer.value, h.payee.value, i, j);
      }
    }
  }

  // ---- A hop's QUERY is undone ----

  /** No contract of the friend is listed under that Bitcoin TX. */
  ghost predicate NoSibling(l: Ledger, peer: Peer, txId: TxId) {
    forall c :: c in l.contracts ==> c.counterParty != peer || c.txId != txId
  }

  /** What a receiver contract holds back of its friend's credit, and nothing else. */
  ghost predicate CreditTaken(peers: map<Key, Account>, peers': map<Key, Account>, c: Contract) {
    && peers'.Keys == peers.Keys
    && forall k :: k in peers ==> peers'[k] == peers[k].(allocation :=
         peers[k].allocation + if c.party == RECEIVER && k == KeyOf(c) then c.btcAmount * c.price else 0.0)
  }

  lemma TakenAndFreed(before: map<Key, Account>, taken: map<Key, Account>, after: map<Key, Account>, c: Contract)
    requires CreditTaken(before, taken, c) && CreditFreed(taken, after, c)
    ensures after == before
  {
    forall k | k in before ensures after[k] == before[k] {
      assert PeerAvailable(after[k]) == PeerAvailable(before[k]);
    }
  }

  lemma SameTaken(peers: map<Key, Account>, peers': map<Key, Account>, c: Contract, d: Contract)
    requires CreditTaken(peers, peers', c) && d == c.(txId := d.txId, destAddress := d.destAddress)
    ensures CreditTaken(peers, peers', d)
  {
  }

  /** An offer takes exactly what its RECEIVER contract is worth. */
  lemma OfferTakes(l: Ledger, p: Payload, from: Peer, now: int)
    requires IsOffer(p) && HasCredit(l, p, from)
    ensures var after := Apply(l, CreateOp(p, RECEIVER, from, now));
      && |after.contracts| == |l.contracts| + 1 && after.contracts[..|l.contracts|] == l.contracts
      && CreditTaken(l.peers, after.peers, after.contracts[|l.contracts|]) && after.expired == l.expired
      && after.contracts[|l.contracts|] ==
        NewContract(Capped(p.btcAmount, p.fee, OfferPrice(p), AvailableFor(l.peers, from, p)).value, p.fee,
                    OfferPrice(p), p.currency, RECEIVER, from, now)
  {
    CreateAllocatesItsFiat(l, p.btcAmount, p.fee, OfferPrice(p), p.currency, from, now);
  }

  /** The RECEIVER and the SENDER contract of an offer, once they are addressed. */
  lemma OfferedPair(l: Ledger, p: Payload, from: Peer, next: Peer, now: int, incoming: Contract, outgoing: Contract)
    requires IsOffer(p) && HasCredit(l, p, from)
    requires incoming == NewContract(Capped(p.btcAmount, p.fee, OfferPrice(p), AvailableFor(l.peers, from, p)).value,
                                     p.fee, OfferPrice(p), p.currency, RECEIVER, from, now)
    requires outgoing == NewContract(p.btcAmount, p.fee, OfferPrice(p), p.currency, SENDER, next, now)
    ensures var after := Offered(l, p, from, next, now);
      && CreditTaken(l.peers, after.peers, incoming) && after.expired == l.expired
      && after.contracts == l.contracts +
           [incoming.(destAddress := Some(p.destAddress)), outgoing.(destAddress := Some(p.destAddress))]
  {
    OfferTakes(l, p, from, now);
    var made := Apply(l, CreateOp(p, RECEIVER, from, now));
    assert made.contracts == l.contracts + [incoming];
    assert Pledged(l, p, from, next, now) == made.(contracts := made.contracts + [outgoing]);
    assert made.contracts + [outgoing] == l.contracts + [incoming, outgoing];
    OfferedIs(l, p, from, next, now, incoming, outgoing);
  }

  lemma PairRemoved(l: Ledger, l': Ledger, c: Contract, d: Contract)
    requires l'.contracts == l.contracts + [d, c] && l'.expired == l.expired && CreditTaken(l.peers, l'.peers, d)
    requires NoSibling(l, c.counterParty, c.txId) && NoSibling(l, d.counterParty, d.txId)
    requires c.counterParty != d.counterParty && c.party == SENDER
    ensures Remove(Remove(l', c), d) == l
  {
    var n := |l.contracts|;
    assert l'.contracts[n] == d && l'.contracts[n + 1] == c;
    assert forall k :: 0 <= k < n ==> l'.contracts[k] in l.contracts;
    BothRemoved(l', c, d, n + 1, n);
    assert WithoutBoth(l'.contracts, n + 1, n) == l.contracts;
    TakenAndFreed(l.peers, l'.peers, Remove(Remove(l', c), d).peers, d);
  }

  lemma OfferUndone(l: Ledger, p: Payload, from: Peer, next: Peer, now: int, c: Contract, d: Contract)
    requires NoSibling(l, from, NoTx) && NoSibling(l, next, NoTx) && from != next
    requires IsOffer(p) && HasCredit(l, p, from)
    requires d == NewContract(Capped(p.btcAmount, p.fee, OfferPrice(p), AvailableFor(l.peers, from, p)).value,
                              p.fee, OfferPrice(p), p.currency, RECEIVER, from, now)
    requires c == NewContract(p.btcAmount, p.fee, OfferPrice(p), p.currency, SENDER, next, now)
    ensures var dest := Some(p.destAddress);
      Remove(Remove(Offered(l, p, from, next, now), c.(destAddress := dest)), d.(destAddress := dest)) == l
  {
    var after := Offered(l, p, from, next, now);
    OfferedPair(l, p, from, next, now, d, c);
    SameTaken(l.peers, after.peers, d, d.(destAddress := Some(p.destAddress)));
    PairRemoved(l, after, c.(destAddress := Some(p.destAddress)), d.(destAddress := Some(p.destAddress)));
  }

  /** A QUERY that is followed by an ABORT, or by a timeout, leaves the hop's list and all accounts as
      they were, unless other contracts with the two friends have no Bitcoin TX yet either. */
  lemma HopQueryThenAbort(l: Ledger, item: Item, from: Peer, next: Peer, now: int, h: Hop)
    requires NoSibling(l, from, NoTx) && NoSibling(l, next, NoTx) && from != next
    requires h == HopQuery(Hop(INIT, None, None), None, item, from,
                           Surroundings(next, AvailableFor(l.peers, from, item.payload), now)).hop
    ensures HopRolledBack(HopQueried(l, Hop(INIT, None, None), item, from, next, now), h) == l
  {
    var p := item.payload;
    if IsOffer(p) && HasCredit(l, p, from) {
      OfferUndone(l, p, from, next, now, h.payer.value.(destAddress := None), h.payee.value.(destAddress := None));
    }
  }

  // ---- The seller ----

  /** The seller's decision on the n-th contract, of the item's offer. */
  function PayeeDecided(l: Ledger, n: nat, o: SellOrder, item: Item, rawTx: Option<TxId>): Ledger
    requires n < |l.contracts| && IsOffer(item.payload)
  {
    if o.currency != item.payload.currency || OfferPrice(item.payload) < o.price || Leftover(o) == 0.0 then l
    else
      var shrunk := if l.contracts[n].btcAmount > Leftover(o) then Apply(l, OpSetAmount(n, Leftover(o))) else l;
      if rawTx.None? then shrunk
      else Apply(Apply(shrunk, OpSetAddress(n, item.payload.destAddress)), OpSetTxId(n, rawTx.value))
  }

  /** The seller's QUERY: one contract, if the credit allows it, and the decision on it. */
  function PayeeQueried(l: Ledger, m: Payee, o: SellOrder, item: Item, from: Peer, now: int,
                        rawTx: Option<TxId>): Ledger
  {
    if m.phase != INIT || !IsOffer(item.payload) || !HasCredit(l, item.payload, from) then l
    else PayeeDecided(Apply(l, CreateOp(item.payload, RECEIVER, from, now)), |l.contracts|, o, item, rawTx)
  }

  function PayeeRolledBack(l: Ledger, m: Payee): Ledger {
    if m.payee.None? then l else Remove(l, m.payee.value)
  }

  /** One RECEIVER contract more, which holds back its worth. */
  ghost predicate Adds(l: Ledger, l': Ledger, c: Contract) {
    && l'.contracts == l.contracts + [c] && l'.expired == l.expired && c.party == RECEIVER
    && CreditTaken(l.peers, l'.peers, c)
  }

  lemma OneRemoved(l: Ledger, l': Ledger, d: Contract)
    requires Adds(l, l', d) && NoSibling(l, d.counterParty, d.txId)
    ensures Remove(l', d) == l
  {
    var n := |l.contracts|;
    assert forall k :: 0 <= k < n ==> l'.contracts[k] in l.contracts;
    RemoveHitsItsArgument(l', n, d);
    TakenAndFreed(l.peers, l'.peers, Remove(l', d).peers, d);
  }

  lemma ShrunkAdds(l: Ledger, made: Ledger, c: Contract, amount: real)
    requires Adds(l, made, c)
    ensures Adds(l, Apply(made, OpSetAmount(|l.contracts|, amount)), c.(btcAmount := amount))
  {
    var n := |l.contracts|;
    assert made.contracts[n] == c;
    assert made.contracts[n := c.(btcAmount := amount)] == l.contracts + [c.(btcAmount := amount)];
  }

  lemma SignedAdds(l: Ledger, made: Ledger, c: Contract, addr: Address, txId: TxId)
    requires Adds(l, made, c)
    ensures Adds(l, Apply(Apply(made, OpSetAddress(|l.contracts|, addr)), OpSetTxId(|l.contracts|, txId)),
                 c.(destAddress := Some(addr), txId := txId))
  {
    SameTaken(l.peers, made.peers, c, c.(destAddress := Some(addr), txId := txId));
  }

  /** The seller's decision in three steps: nothing, the reservation, the signature. */
  lemma DecidedAdds(l: Ledger, made: Ledger, c: Contract, o: SellOrder, item: Item, from: Peer, rawTx: Option<TxId>,
                    payee: Option<Contract>)
    requires Adds(l, made, c) && IsOffer(item.payload) && payee == Decided(c, o, item, from, rawTx).mgr.payee
    ensures payee.Some? && Adds(l, PayeeDecided(made, |l.contracts|, o, item, rawTx), payee.value)
    ensures payee.value.counterParty == c.counterParty
      && (payee.value.txId == c.txId || (rawTx.Some? && payee.value.txId == rawTx.value))
  {
    var n, p := |l.contracts|, item.payload;
    assert made.contracts[n] == c;
    if o.currency == p.currency && OfferPrice(p) >= o.price && Leftover(o) != 0.0 {
      var shrunk, d := made, c;
      if c.btcAmount > Leftover(o) {
        shrunk, d := Apply(made, OpSetAmount(n, Leftover(o))), c.(btcAmount := Leftover(o));
        ShrunkAdds(l, made, c, Leftover(o));
      }
      assert d == c.(btcAmount := Reservation(o, c.btcAmount).1);
      if rawTx.Some? {
        SignedAdds(l, shrunk, d, p.destAddress, rawTx.value);
      }
    }
  }

  /** The seller's QUERY, followed by an ABORT or a timeout, leaves list and accounts as they were,
      unless contracts of the same friend have the same Bitcoin TX or none. */
  lemma PayeeQueryThenAbort(l: Ledger, o: SellOrder, item: Item, from: Peer, now: int, rawTx: Option<TxId>,
                            r: PayeeResult)
    requires NoSibling(l, from, NoTx) && (rawTx.Some? ==> NoSibling(l, from, rawTx.value))
    requires r == PayeeQuery(Payee(INIT, None), o, item, from,
                             Surroundings(NOBODY, AvailableFor(l.peers, from, item.payload), now), rawTx)
    ensures PayeeRolledBack(PayeeQueried(l, Payee(INIT, None), o, item, from, now, rawTx), r.mgr) == l
  {
    var p := item.payload;
    if IsOffer(p) && HasCredit(l, p, from) {
      OfferTakes(l, p, from, now);
      var made := Apply(l, CreateOp(p, RECEIVER, from, now));
      var c := made.contracts[|l.contracts|];
      assert made.contracts == l.contracts + [c];
      DecidedAdds(l, made, c, o, item, from, rawTx, r.mgr.payee);
      OneRemoved(l, PayeeDecided(made, |l.contracts|, o, item, rawTx), r.mgr.payee.value);
    }
  }

  /** And the order is as it was if and only if no contract was made or the offer was in its currency. */
  lemma OrderQueryThenAbort(o: SellOrder, item: Item, from: Peer, at: Surroundings, rawTx: Option<TxId>, r: PayeeResult)
    requires r == PayeeQuery(Payee(INIT, None), o, item, from, at, rawTx) && r.outcome == Returns(Success)
    ensures PayeeRollback(r.mgr, r.order).1 == o <==> r.mgr.payee.None? || o.currency == item.payload.currency
  {
    var p := item.payload;
    if IsOffer(p) {
      CappedIsLargest(p.btcAmount, p.fee, OfferPrice(p), at.available, 0.0);
    }
  }

  // ---- The buyer ----

  /** The ledger of a buyer that goes for an order: a contract more if there is a way to the seller. */
  function Pursued(l: Ledger, routes: map<OrderId, Peer>, id: OrderId, price: real, currency: Currency,
                   amount: real, now: int): Ledger
  {
    if id !in routes then l else Apply(l, OpCreate(amount, 0.0, price, currency, SENDER, routes[id], now))
  }

  /** A purchase that is rolled back leaves the list as it was, unless another contract with the next
      node has no Bitcoin TX yet either. */
  lemma PursuitThenRollback(l: Ledger, routes: map<OrderId, Peer>, id: OrderId, price: real, currency: Currency,
                            amount: real, now: int)
    requires id in routes && price > 0.0 && NoSibling(l, routes[id], NoTx)
    ensures Remove(Pursued(l, routes, id, price, currency, amount, now),
                   NewContract(amount, 0.0, price, currency, SENDER, routes[id], now)) == l
  {
    var n, l' := |l.contracts|, Pursued(l, routes, id, price, currency, amount, now);
    var c := NewContract(amount, 0.0, price, currency, SENDER, routes[id], now);
    assert l'.contracts == l.contracts + [c] && forall k :: 0 <= k < n ==> l'.contracts[k] in l.contracts;
    RemoveHitsItsArgument(l', n, c);
  }
}
