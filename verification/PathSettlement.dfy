/** From commit to settlement: what the commit chain agrees on is what the links of the path settle
    (TmContract.cpp; BtcContract.cpp, execute). */
module PathSettlements {
  import opened Common
  import opened Sums
  import Contracts
  import Chain = CommitChain
  import Proofs = CommitChainProofs
  import Links = Settlement

  /** A purchase over a path of n links, up to some state of its commit chain. */
  datatype Purchase = Purchase(t: Chain.Terms, steps: seq<Chain.Step>, s: Chain.State)

  /** The seller has handed the Bitcoin transaction to the network. */
  ghost predicate Completed(n: nat, p: Purchase) {
    Proofs.Reached(n, p.t, p.steps, p.s) && p.s.broadcast
  }

  /** The agreed fiat value. */
  function Value(p: Purchase): real {
    if p.s.ballot.Some? then p.s.ballot.value.amount * p.t.price else 0.0
  }

  function PayerFiat(p: Purchase, k: nat): real {
    if k < |p.s.nodes| && p.s.nodes[k].payer.Some? then Contracts.Fiat(p.s.nodes[k].payer.value) else 0.0
  }

  function PayeeFiat(p: Purchase, k: nat): real {
    if k < |p.s.nodes| && p.s.nodes[k].payee.Some? then Contracts.Fiat(p.s.nodes[k].payee.value) else 0.0
  }

  /** The contracts of link k are those by which node k pays for the given purchases. */
  ghost predicate Carries(link: Links.Link, purchases: seq<Purchase>, k: nat) {
    |link.deals| == |purchases| && forall c :: 0 <= c < |purchases| ==> link.deals[c].fiat == PayerFiat(purchases[c], k)
  }

  /** They are also those by which node k + 1 is paid. */
  ghost predicate Credits(link: Links.Link, purchases: seq<Purchase>, k: nat) {
    |link.deals| == |purchases| && forall c :: 0 <= c < |purchases| ==>
      link.deals[c].fiat == PayeeFiat(purchases[c], k + 1)
  }

  /** Both ends of every link hold contracts of the one agreed value. */
  lemma BothEndsAgree(n: nat, p: Purchase, k: nat)
    requires Completed(n, p) && k < n
    ensures PayerFiat(p, k) == PayeeFiat(p, k + 1) == Value(p) > 0.0
  {
    Proofs.RunKeepsLength(n, p.t, p.steps);
    Proofs.BroadcastAgreesAllLinks(n, p.t, p.steps, p.s, k);
  }

  lemma LinkSettlesTheValues(n: nat, purchases: seq<Purchase>, link: Links.Link, k: nat)
    requires k < n && Links.Finished(link) && Carries(link, purchases, k)
    requires forall c :: 0 <= c < |purchases| ==> Completed(n, purchases[c])
    ensures SumBy(link.deals, Links.Worth) == SumBy(purchases, Value)
    ensures Credits(link, purchases, k)
  {
    forall c | 0 <= c < |purchases|
      ensures Links.Worth(link.deals[c]) == Value(purchases[c]) && link.deals[c].fiat == PayeeFiat(purchases[c], k + 1)
    {
      BothEndsAgree(n, purchases[c], k);
    }
    SumSame(link.deals, Links.Worth, purchases, Value);
  }

  /** Every link has settled its contracts for these purchases, in whatever order and at whatever
      times, starting mirrored and without contracts. */
  ghost predicate AllSettled(purchases: seq<Purchase>, start: seq<Links.Link>, runs: seq<seq<Links.Step>>,
                             end: seq<Links.Link>) {
    && |start| == |runs| == |end|
    && forall k :: 0 <= k < |end| ==>
         Links.Fresh(start[k]) && end[k] == Links.Run(start[k], runs[k]) && Links.Finished(end[k])
         && Carries(end[k], purchases, k)
  }

  ghost predicate AllCompleted(n: nat, purchases: seq<Purchase>) {
    forall c :: 0 <= c < |purchases| ==> Completed(n, purchases[c])
  }

  /** Settlement conserves money across the network. After any number of purchases over a path have
      been broadcast and every link has settled its contracts for them, the payee of each contract
      has received what the payer paid, every hop's balances add up to what they were, the buyer is
      down and the seller up by exactly the agreed values, and every link is mirrored again. */
  lemma CommittedPurchasesConserveMoney(purchases: seq<Purchase>, start: seq<Links.Link>,
                                        runs: seq<seq<Links.Step>>, end: seq<Links.Link>, j: nat)
    requires 1 <= |end| && j <= |end| && AllCompleted(|end|, purchases) && AllSettled(purchases, start, runs, end)
    ensures forall k :: 0 <= k < |end| ==> Links.Mirrored(end[k]) && Credits(end[k], purchases, k)
    ensures Links.NodeBalance(end, j) == Links.NodeBalance(start, j)
      - (if j == 0 then SumBy(purchases, Value) else 0.0) + (if j == |end| then SumBy(purchases, Value) else 0.0)
  {
    forall k | 0 <= k < |end|
      ensures SumBy(end[k].deals, Links.Worth) == SumBy(purchases, Value)
      ensures Credits(end[k], purchases, k)
    {
      LinkSettlesTheValues(|end|, purchases, end[k], k);
    }
    Links.PathConservesMoney(start, runs, end, SumBy(purchases, Value), j);
  }
}
