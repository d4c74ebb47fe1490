/** Settlement on a link that is used in one direction, and over a whole path of links
    (BtcContract.cpp, execute; Payment.cpp). The two friends settle each contract on their own,
    whenever their own poll finds enough confirmations. */
module Settlement {
  import opened Common
  import opened Sums
  import opened Accounts
  import opened Contracts

  /** A contract between the two friends: its value, whether both committed to it, at which ends
      it is not settled, and at which ends it has expired. */
  datatype Deal = Deal(fiat: real, agreed: bool, openAtSender: bool, openAtReceiver: bool,
                       expiredAtSender: bool, expiredAtReceiver: bool)

  /** The payer's row for the payee, the payee's row for the payer, and their contracts. */
  datatype Link = Link(sender: Account, receiver: Account, deals: seq<Deal>)

  datatype Step =
    | Reserve(fiat: real)
    | Shrink(i: nat, less: real)
    | Release(i: nat)
    | Agree(i: nat)
    | SettleAtSender(i: nat)
    | SettleAtReceiver(i: nat)
    | ExpireAtSender(i: nat)
    | ExpireAtReceiver(i: nat)

  const LINK_KEY: Key := (0, 0)

  /** What execute does to one row. */
  function Settled(a: Account, party: Party, fiat: real): Account {
    Row(Settle(map[LINK_KEY := a], LINK_KEY, party, fiat), LINK_KEY)
  }

  /** The poll at this end settles the contract once the transaction is confirmed. */
  predicate Settleable(d: Deal, end: Party) {
    d.agreed && if end == SENDER then d.openAtSender && !d.expiredAtSender else d.openAtReceiver && !d.expiredAtReceiver
  }

  function Next(l: Link, step: Step): Link {
    match step
    case Reserve(fiat) =>
      // the constructor caps the amount to what is available, so a reservation always fits
      if 0.0 < fiat <= PeerAvailable(l.receiver) then
        l.(receiver := Allocated(l.receiver, fiat), deals := l.deals + [Deal(fiat, false, true, true, false, false)])
      else l
    case Shrink(i, less) =>
      if i < |l.deals| && !l.deals[i].agreed && 0.0 <= less <= l.deals[i].fiat then
        l.(receiver := Deallocated(l.receiver, less),
           deals := l.deals[i := l.deals[i].(fiat := l.deals[i].fiat - less)])
      else l
    case Release(i) =>
      if i < |l.deals| && !l.deals[i].agreed then
        l.(receiver := Deallocated(l.receiver, l.deals[i].fiat), deals := l.deals[..i] + l.deals[i + 1..])
      else l
    case Agree(i) =>
      if i < |l.deals| then l.(deals := l.deals[i := l.deals[i].(agreed := true)]) else l
    case SettleAtSender(i) =>
      if i < |l.deals| && Settleable(l.deals[i], SENDER) then
        l.(sender := Settled(l.sender, SENDER, l.deals[i].fiat),
           deals := l.deals[i := l.deals[i].(openAtSender := false)])
      else l
    case SettleAtReceiver(i) =>
      if i < |l.deals| && Settleable(l.deals[i], RECEIVER) then
        l.(receiver := Settled(l.receiver, RECEIVER, l.deals[i].fiat),
           deals := l.deals[i := l.deals[i].(openAtReceiver := false)])
      else l
    case ExpireAtSender(i) =>
      if i < |l.deals| then l.(deals := l.deals[i := l.deals[i].(expiredAtSender := true)]) else l
    case ExpireAtReceiver(i) =>
      // an expired contract is forgotten, but what it allocated is not given back
      if i < |l.deals| then l.(deals := l.deals[i := l.deals[i].(expiredAtReceiver := true)]) else l
  }

  function Run(l: Link, steps: seq<Step>): Link
    decreases |steps|
  {
    if steps == [] then l else Run(Next(l, steps[0]), steps[1..])
  }

  /** The two rows mirror each other and the payee has not promised more than the credit line. */
  ghost predicate Mirrored(l: Link) {
    && l.sender.balance == -l.receiver.balance && l.sender.ourCredit == l.receiver.credit
    && PeerAvailable(l.receiver) >= 0.0 && l.receiver.allocation >= 0.0
  }

  ghost predicate Fresh(l: Link) { Mirrored(l) && l.deals == [] }

  // ---- Sums over the deals ----

  function Open(d: Deal): real { if d.openAtReceiver then d.fiat else 0.0 }
  function Paid(d: Deal): real { if d.openAtSender then 0.0 else d.fiat }
  function Got(d: Deal): real { if d.openAtReceiver then 0.0 else d.fiat }
  function Unpaid(d: Deal): real { if d.openAtSender then d.fiat else 0.0 }
  function OnlyGot(d: Deal): real { if d.openAtSender && !d.openAtReceiver then d.fiat else 0.0 }
  function OnlyPaid(d: Deal): real { if !d.openAtSender && d.openAtReceiver then d.fiat else 0.0 }
  function Worth(d: Deal): real { if d.agreed then d.fiat else 0.0 }

  lemma {:induction false} OpenPlusGot(deals: seq<Deal>)
    ensures SumBy(deals, Open) + SumBy(deals, Got) == SumBy(deals, Paid) + SumBy(deals, Unpaid)
    ensures SumBy(deals, Got) - SumBy(deals, Paid) == SumBy(deals, OnlyGot) - SumBy(deals, OnlyPaid)
  {
    if deals != [] {
      OpenPlusGot(deals[1..]);
    }
  }

  // ---- The invariant ----

  ghost predicate DealOk(d: Deal) { d.fiat >= 0.0 && (!d.agreed ==> d.openAtSender && d.openAtReceiver) }

  /** start is the link as it was before the first contract. */
  ghost predicate Inv(start: Link, l: Link) {
    && (forall i :: 0 <= i < |l.deals| ==> DealOk(l.deals[i]))
    && l.sender.ourCredit == start.sender.ourCredit && l.receiver.credit == start.receiver.credit
    && l.sender.balance == start.sender.balance - SumBy(l.deals, Paid)
    && l.receiver.balance == start.receiver.balance + SumBy(l.deals, Got)
    && l.receiver.allocation == start.receiver.allocation + SumBy(l.deals, Open)
    && PeerAvailable(l.receiver) >= 0.0
  }

  lemma UpdateSums(deals: seq<Deal>, i: nat, d: Deal)
    requires i < |deals|
    ensures SumBy(deals[i := d], Open) == SumBy(deals, Open) - Open(deals[i]) + Open(d)
    ensures SumBy(deals[i := d], Got) == SumBy(deals, Got) - Got(deals[i]) + Got(d)
    ensures SumBy(deals[i := d], Paid) == SumBy(deals, Paid) - Paid(deals[i]) + Paid(d)
  {
    SumUpdate(deals, i, d, Open);
    SumUpdate(deals, i, d, Got);
    SumUpdate(deals, i, d, Paid);
  }

  /** What is still open is covered at both ends. */
  lemma Covered(start: Link, l: Link, i: nat)
    requires Fresh(start) && Inv(start, l) && i < |l.deals|
    ensures l.deals[i].openAtSender ==> MyAvailable(l.sender) >= l.deals[i].fiat
    ensures l.deals[i].openAtReceiver ==> PeerAvailable(Deallocated(l.receiver, l.deals[i].fiat)) >= l.deals[i].fiat
  {
    assert DealOk(l.deals[i]);
    OpenPlusGot(l.deals);
    forall j | 0 <= j < |l.deals| ensures Unpaid(l.deals[j]) >= 0.0 {
      assert DealOk(l.deals[j]);
    }
    SumAtLeastTerm(l.deals, i, Unpaid);
  }

  lemma SenderStep(start: Link, l: Link, i: nat)
    requires Fresh(start) && Inv(start, l)
    ensures Inv(start, Next(l, SettleAtSender(i)))
  {
    if i < |l.deals| {
      Covered(start, l, i);
      UpdateSums(l.deals, i, l.deals[i].(openAtSender := false));
    }
  }

  lemma ReceiverStep(start: Link, l: Link, i: nat)
    requires Fresh(start) && Inv(start, l)
    ensures Inv(start, Next(l, SettleAtReceiver(i)))
  {
    if i < |l.deals| {
      Covered(start, l, i);
      UpdateSums(l.deals, i, l.deals[i].(openAtReceiver := false));
    }
  }

  lemma ReserveStep(start: Link, l: Link, fiat: real)
    requires Inv(start, l)
    ensures Inv(start, Next(l, Reserve(fiat)))
  {
    var d := Deal(fiat, false, true, true, false, false);
    SumAppend(l.deals, d, Open);
    SumAppend(l.deals, d, Got);
    SumAppend(l.deals, d, Paid);
  }

  lemma ShrinkStep(start: Link, l: Link, i: nat, less: real)
    requires Inv(start, l)
    ensures Inv(start, Next(l, Shrink(i, less)))
  {
    if i < |l.deals| {
      UpdateSums(l.deals, i, l.deals[i].(fiat := l.deals[i].fiat - less));
    }
  }

  lemma ReleaseStep(start: Link, l: Link, i: nat)
    requires Inv(start, l)
    ensures Inv(start, Next(l, Release(i)))
  {
    if i < |l.deals| {
      assert DealOk(l.deals[i]);
      SumRemove(l.deals, i, Open);
      SumRemove(l.deals, i, Got);
      SumRemove(l.deals, i, Paid);
    }
  }

  /** Agreement and expiry move no money. */
  lemma MarkStep(start: Link, l: Link, i: nat, d: Deal)
    requires Inv(start, l) && i < |l.deals|
    requires d == l.deals[i].(agreed := d.agreed, expiredAtSender := d.expiredAtSender,
                              expiredAtReceiver := d.expiredAtReceiver)
    requires l.deals[i].agreed ==> d.agreed
    ensures Inv(start, l.(deals := l.deals[i := d]))
  {
    UpdateSums(l.deals, i, d);
  }

  lemma NextKeepsInv(start: Link, l: Link, step: Step)
    requires Fresh(start) && Inv(start, l)
    ensures Inv(start, Next(l, step))
  {
    match step
    case Reserve(fiat) => ReserveStep(start, l, fiat);
    case Shrink(i, less) => ShrinkStep(start, l, i, less);
    case Release(i) => ReleaseStep(start, l, i);
    case SettleAtSender(i) => SenderStep(start, l, i);
    case SettleAtReceiver(i) => ReceiverStep(start, l, i);
    case Agree(i) =>
      if i < |l.deals| {
        MarkStep(start, l, i, l.deals[i].(agreed := true));
      }
    case ExpireAtSender(i) =>
      if i < |l.deals| {
        MarkStep(start, l, i, l.deals[i].(expiredAtSender := true));
      }
    case ExpireAtReceiver(i) =>
      if i < |l.deals| {
        MarkStep(start, l, i, l.deals[i].(expiredAtReceiver := true));
      }
  }

  lemma {:induction false} RunKeepsInv(start: Link, l: Link, steps: seq<Step>)
    requires Fresh(start) && Inv(start, l)
    ensures Inv(start, Run(l, steps))
    decreases |steps|
  {
    if steps != [] {
      NextKeepsInv(start, l, steps[0]);
      RunKeepsInv(start, Next(l, steps[0]), steps[1..]);
    }
  }

  // ---- Main results ----

  /** Settlement never fails. On a mirrored link, after any interleaving of reservations,
      reductions, releases, agreements, settlements and expiries at either end, each contract that
      is open would pass the funds test inside execute, at the sender and at the receiver. */
  lemma SettlementNeverFails(start: Link, steps: seq<Step>, i: nat)
    requires Fresh(start) && i < |Run(start, steps).deals|
    ensures
      var l := Run(start, steps);
      var d := l.deals[i];
      && (d.openAtSender ==> Settled(l.sender, SENDER, d.fiat) == l.sender.(balance := l.sender.balance - d.fiat))
      && (d.openAtReceiver ==>
           Settled(l.receiver, RECEIVER, d.fiat) ==
             l.receiver.(balance := l.receiver.balance + d.fiat, allocation := l.receiver.allocation - d.fiat))
  {
    RunKeepsInv(start, start, steps);
    Covered(start, Run(start, steps), i);
  }

  /** The two balances differ from mirror images by exactly what one end has settled and the
      other has not. */
  lemma BalancesAreOffByHalfSettledDeals(start: Link, steps: seq<Step>)
    requires Fresh(start)
    ensures
      var l := Run(start, steps);
      l.sender.balance + l.receiver.balance == SumBy(l.deals, OnlyGot) - SumBy(l.deals, OnlyPaid)
  {
    RunKeepsInv(start, start, steps);
    OpenPlusGot(Run(start, steps).deals);
  }

  /** Every agreed contract is settled at both ends. */
  ghost predicate Finished(l: Link) {
    forall i :: 0 <= i < |l.deals| ==> l.deals[i].agreed && !l.deals[i].openAtSender && !l.deals[i].openAtReceiver
  }

  /** Once everything is settled the payer has paid, and the payee has received, the worth of
      all contracts, nothing remains allocated for them, and the link is mirrored again. */
  lemma FinishedLink(start: Link, steps: seq<Step>)
    requires Fresh(start) && Finished(Run(start, steps))
    ensures
      var l := Run(start, steps);
      && Mirrored(l)
      && l.sender.balance == start.sender.balance - SumBy(l.deals, Worth)
      && l.receiver.balance == start.receiver.balance + SumBy(l.deals, Worth)
      && l.receiver.allocation == start.receiver.allocation
  {
    RunKeepsInv(start, start, steps);
    var deals := Run(start, steps).deals;
    SumMonotone(deals, Paid, Worth);
    SumMonotone(deals, Worth, Paid);
    SumMonotone(deals, Got, Worth);
    SumMonotone(deals, Worth, Got);
    SumZero(deals, Open);
  }

  // ---- A path of links ----

  /** Node j's balance summed over its neighbours on the path; link j joins node j to node j + 1. */
  function NodeBalance(path: seq<Link>, j: nat): real {
    (if j < |path| then path[j].sender.balance else 0.0) +
    (if 0 < j <= |path| then path[j - 1].receiver.balance else 0.0)
  }

  /** Settlement conserves money across the network. When every link of a path has settled
      contracts worth the same amount, the hops are where they started, the buyer is down and the
      seller up by exactly that amount, and every link is mirrored again. */
  lemma PathConservesMoney(start: seq<Link>, runs: seq<seq<Step>>, end: seq<Link>, worth: real, j: nat)
    requires |start| == |runs| == |end| >= 1 && j <= |start|
    requires forall k :: 0 <= k < |start| ==>
      && Fresh(start[k]) && end[k] == Run(start[k], runs[k]) && Finished(end[k])
      && SumBy(end[k].deals, Worth) == worth
    ensures forall k :: 0 <= k < |end| ==> Mirrored(end[k])
    ensures NodeBalance(end, j) == NodeBalance(start, j) -
      (if j == 0 then worth else 0.0) + (if j == |start| then worth else 0.0)
  {
    forall k | 0 <= k < |start|
      ensures Mirrored(end[k])
      ensures end[k].sender.balance == start[k].sender.balance - worth
      ensures end[k].receiver.balance == start[k].receiver.balance + worth
    {
      FinishedLink(start[k], runs[k]);
    }
  }
}
