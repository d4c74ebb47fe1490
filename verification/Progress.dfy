/** The safety results of the commit chain are about something: over any number of links a deal that
    everybody can afford is made, by delivering every item once. */
module Progress {
  import opened Common
  import opened Contracts
  import opened Managers
  import opened CommitChain
  import opened CommitChainProofs

  /** Every node trusts the one before it for the price, and the seller still has enough to sell at
      an acceptable price and gets its transaction signed. */
  predicate DealPossible(t: Terms, env: Env) {
    && UsableTerms(t) && env.rawTx.Some? && env.rawTx.value != NoTx
    && env.order.currency == t.currency && env.order.price <= t.price
    && 0.0 <= env.order.commitment < env.order.amount
    && t.btcAmount * t.price <= env.available && t.btcAmount <= Leftover(env.order)
  }

  /** The id of the Bitcoin transaction, once it is signed. */
  function SignedTx(env: Env): TxId { if env.rawTx.Some? then env.rawTx.value else NoTx }

  // ---- What the nodes hold, and what travels, at each stage ----

  function Paying(t: Terms, j: nat, now: int): Contract {
    NewContract(t.btcAmount, 0.0, t.price, t.currency, SENDER, j + 1, now).(destAddress := Some(t.destAddress))
  }

  function Paid(t: Terms, j: nat, now: int): Contract
    requires j >= 1
  {
    NewContract(t.btcAmount, 0.0, t.price, t.currency, RECEIVER, j - 1, now).(destAddress := Some(t.destAddress))
  }

  function OfferItem(t: Terms): Item {
    Item(t.address, QUERY, SERVER, t.payerId, Offer(Fiat(Paying(t, 0, 0)), t.currency, t.destAddress, t.btcAmount, 0.0))
  }

  function VoteItem(t: Terms, txId: TxId): Item {
    Item(t.address, VOTE_YES, CLIENT, t.payerId, Vote(t.btcAmount, txId))
  }

  function CommitItem(t: Terms): Item { Item(t.address, COMMIT, SERVER, t.payerId, Blank) }

  const UNTOUCHED: Node := Node(None, None, None, None, false)

  /** Node j of a chain of n links after it has passed the QUERY on, or answered it. */
  function Asked(n: nat, t: Terms, env: Env, j: nat): Node
  {
    if j == 0 then Node(Some(AsCoordinator(Coordinator(Some(Paying(t, 0, 0))))), None, None, None, false)
    else if j < n then
      Node(Some(AsHop(Hop(QUERY, Some(Paying(t, j, env.now)), Some(Paid(t, j, env.now))))),
           None, None, Some((j - 1, j + 1)), true)
    else Node(Some(AsPayee(Payee(QUERY, Some(Paid(t, j, env.now).(txId := SignedTx(env)))))), None, None, None, true)
  }

  /** A hop after the vote has passed. */
  function Voted(n: nat, t: Terms, env: Env, j: nat): Node
  {
    if 0 < j < n then
      var tx := SignedTx(env);
      Node(Some(AsHop(Hop(VOTE_YES, Some(Paying(t, j, env.now).(txId := tx)), Some(Paid(t, j, env.now).(txId := tx))))),
           None, None, Some((j - 1, j + 1)), true)
    else Asked(n, t, env, j)
  }

  /** A node that has activated its contracts. */
  function Done(n: nat, t: Terms, env: Env, j: nat): Node
  {
    var tx := SignedTx(env);
    var payer := Some(Paying(t, j, if j == 0 then 0 else env.now).(txId := tx, activated := true));
    if j == 0 then Node(None, payer, None, None, false)
    else
      var payee := Some(Paid(t, j, env.now).(txId := tx, activated := true));
      if j < n then Node(None, payer, payee, Some((j - 1, j + 1)), true) else Node(None, None, payee, None, true)
  }

  /** The QUERY is on its way to node k. */
  ghost predicate Asking(s: State, n: nat, t: Terms, env: Env, k: nat)
  {
    && 1 <= k <= n && |s.nodes| == n + 1 && s.net == [Packet(k - 1, k, OfferItem(t))]
    && forall j :: 0 <= j <= n ==> s.nodes[j] == if j < k then Asked(n, t, env, j) else UNTOUCHED
  }

  /** The vote is on its way from node k to the buyer. */
  ghost predicate Voting(s: State, n: nat, t: Terms, env: Env, k: nat)
  {
    && 1 <= k <= n && |s.nodes| == n + 1 && s.net == [Packet(k, k - 1, VoteItem(t, SignedTx(env)))]
    && forall j :: 0 <= j <= n ==> s.nodes[j] == if j < k then Asked(n, t, env, j) else Voted(n, t, env, j)
  }

  /** The COMMIT is on its way to node k. */
  ghost predicate Committing(s: State, n: nat, t: Terms, env: Env, k: nat)
  {
    && 1 <= k <= n && |s.nodes| == n + 1 && s.net == [Packet(k - 1, k, CommitItem(t))]
    && forall j :: 0 <= j <= n ==> s.nodes[j] == if j < k then Done(n, t, env, j) else Voted(n, t, env, j)
  }

  ghost predicate Complete(s: State, n: nat, t: Terms, env: Env)
  {
    && |s.nodes| == n + 1 && s.net == [] && s.broadcast
    && forall j :: 0 <= j <= n ==> s.nodes[j] == Done(n, t, env, j)
  }

  // ---- The handlers on this way ----

  lemma OfferIsUsable(t: Terms)
    requires UsableTerms(t)
    ensures IsOffer(OfferItem(t).payload) && OfferPrice(OfferItem(t).payload) == t.price
    ensures OfferItem(t).payload.fiatAmount == t.btcAmount * t.price
  {
    assert Fiat(Paying(t, 0, 0)) == t.btcAmount * t.price;
    FiatPositive(t.btcAmount, t.price);
    SamePrice(OfferItem(t).payload, t.price);
  }

  lemma HopIsAsked(t: Terms, env: Env, j: nat)
    requires DealPossible(t, env) && j >= 1
    ensures HopQuery(Hop(INIT, None, None), None, OfferItem(t), j - 1, Surroundings(j + 1, env.available, env.now)) ==
      HopResult(Hop(QUERY, Some(Paying(t, j, env.now)), Some(Paid(t, j, env.now))), Some((j - 1, j + 1)),
                [Send(j + 1, OfferItem(t))], Returns(Success))
  {
    OfferIsUsable(t);
    assert Capped(t.btcAmount, 0.0, t.price, env.available) == Some(t.btcAmount);
    assert Fiat(Paid(t, j, env.now)) == Fiat(Paying(t, 0, 0));
  }

  lemma SellerIsAsked(t: Terms, env: Env, j: nat)
    requires DealPossible(t, env) && j >= 1
    ensures PayeeQuery(Payee(INIT, None), env.order, OfferItem(t), j - 1,
                       Surroundings(j + 1, env.available, env.now), env.rawTx) ==
      PayeeResult(Payee(QUERY, Some(Paid(t, j, env.now).(txId := SignedTx(env)))),
                  env.order.(commitment := env.order.commitment + t.btcAmount),
                  [Send(j - 1, VoteItem(t, SignedTx(env)))], Returns(Success), false)
  {
    OfferIsUsable(t);
    assert Capped(t.btcAmount, 0.0, t.price, env.available) == Some(t.btcAmount);
    var c := NewContract(t.btcAmount, 0.0, t.price, t.currency, RECEIVER, j - 1, env.now);
    assert Reservation(env.order, t.btcAmount) ==
      (env.order.(commitment := env.order.commitment + t.btcAmount), t.btcAmount);
    assert c.(btcAmount := t.btcAmount) == c;
  }

  // ---- One delivery ----

  lemma AskingStep(s: State, n: nat, t: Terms, env: Env, k: nat)
    requires DealPossible(t, env) && Asking(s, n, t, env, k)
    ensures var s' := Next(s, Deliver(0, env));
      if k < n then Asking(s', n, t, env, k + 1) else Voting(s', n, t, env, n)
  {
    var s' := Next(s, Deliver(0, env));
    assert s.nodes[k] == UNTOUCHED;
    if k < n {
      HopIsAsked(t, env, k);
    } else {
      SellerIsAsked(t, env, k);
    }
    assert s'.nodes == s.nodes[k := Asked(n, t, env, k)];
  }

  lemma VotingStep(s: State, n: nat, t: Terms, env: Env, k: nat)
    requires DealPossible(t, env) && Voting(s, n, t, env, k)
    ensures var s' := Next(s, Deliver(0, env));
      if k > 1 then Voting(s', n, t, env, k - 1) else Committing(s', n, t, env, 1)
  {
    var s' := Next(s, Deliver(0, env));
    assert s.nodes[k - 1] == Asked(n, t, env, k - 1);
    assert s'.nodes == s.nodes[k - 1 := if k > 1 then Voted(n, t, env, k - 1) else Done(n, t, env, 0)];
  }

  lemma CommittingStep(s: State, n: nat, t: Terms, env: Env, k: nat)
    requires DealPossible(t, env) && Committing(s, n, t, env, k)
    ensures var s' := Next(s, Deliver(0, env));
      if k < n then Committing(s', n, t, env, k + 1) else Complete(s', n, t, env)
  {
    var s' := Next(s, Deliver(0, env));
    assert s.nodes[k] == Voted(n, t, env, k);
    assert s'.nodes == s.nodes[k := Done(n, t, env, k)];
  }

  lemma StartIsAsking(n: nat, t: Terms, env: Env)
    requires DealPossible(t, env) && n >= 1
    ensures Asking(Start(n, t), n, t, env, 1)
  {
    assert Start(n, t).net[0].item == OfferItem(t);
  }

  // ---- The whole run ----

  /** m deliveries of the item that is on its way. */
  function Deliveries(m: nat, env: Env): (steps: seq<Step>)
    ensures |steps| == m
  {
    if m == 0 then [] else Deliveries(m - 1, env) + [Deliver(0, env)]
  }

  /** The state after m deliveries. */
  ghost predicate Stage(s: State, n: nat, t: Terms, env: Env, m: nat)
    requires m <= 3 * n
  {
    if m < n then Asking(s, n, t, env, m + 1)
    else if m < 2 * n then Voting(s, n, t, env, 2 * n - m)
    else if m < 3 * n then Committing(s, n, t, env, m - 2 * n + 1)
    else Complete(s, n, t, env)
  }

  lemma StageStep(s: State, n: nat, t: Terms, env: Env, m: nat)
    requires DealPossible(t, env) && m < 3 * n && Stage(s, n, t, env, m)
    ensures Stage(Next(s, Deliver(0, env)), n, t, env, m + 1)
  {
    if m < n {
      AskingStep(s, n, t, env, m + 1);
    } else if m < 2 * n {
      VotingStep(s, n, t, env, 2 * n - m);
    } else {
      CommittingStep(s, n, t, env, m - 2 * n + 1);
    }
  }

  lemma {:induction false} DealProceeds(n: nat, t: Terms, env: Env, m: nat)
    requires DealPossible(t, env) && n >= 1 && m <= 3 * n
    ensures Stage(Run(Start(n, t), Deliveries(m, env)), n, t, env, m)
  {
    if m == 0 {
      StartIsAsking(n, t, env);
    } else {
      DealProceeds(n, t, env, m - 1);
      StageStep(Run(Start(n, t), Deliveries(m - 1, env)), n, t, env, m - 1);
    }
  }

  /** Over any number of links, three deliveries per link complete a possible deal: the seller
      broadcasts, every node is committed, and no item is left. */
  lemma DealsAreMade(n: nat, t: Terms, env: Env)
    requires DealPossible(t, env) && n >= 1
    ensures var s := Run(Start(n, t), Deliveries(3 * n, env));
      s.broadcast && s.net == [] && |s.nodes| == n + 1 && forall j :: 0 <= j <= n ==> Committed(s, j)
  {
    DealProceeds(n, t, env, 3 * n);
    var s := Run(Start(n, t), Deliveries(3 * n, env));
    forall j | 0 <= j <= n ensures Committed(s, j) {
      assert s.nodes[j] == Done(n, t, env, j);
    }
  }
}
