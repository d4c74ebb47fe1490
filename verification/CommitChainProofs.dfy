/** Safety of the commit chain: what every reachable state satisfies, for chains of any length,
    any delays and reorderings, and timeouts of any managers at any time. */
module CommitChainProofs {
  import opened Common
  import opened Contracts
  import opened Managers
  import opened CommitChain

  predicate IsActive(c: Option<Contract>) { c.Some? && c.value.activated }

  /** Some contract of this transaction is in force at the node. */
  predicate HasActive(nd: Node) { IsActive(nd.payer) || IsActive(nd.payee) }

  /** Node j has activated everything it needs: the contract by which it pays, unless it is the
      seller, and the contract by which it is paid, unless it is the buyer. */
  predicate Committed(s: State, j: nat)
    requires j < |s.nodes|
  {
    (j < |s.nodes| - 1 ==> IsActive(s.nodes[j].payer)) && (j > 0 ==> IsActive(s.nodes[j].payee))
  }

  /** No contract of this transaction is listed here outside a manager's hands. */
  predicate Unfiled(nd: Node) { nd.payer.None? && nd.payee.None? }

  // ---- The invariant ----

  /** A contract of this purchase, held by node j against one of its neighbours. */
  predicate Faces(t: Terms, c: Contract, party: Party, peer: int) {
    c.party == party && c.counterParty == peer && c.price == t.price && c.currency == t.currency
  }

  predicate Pays(t: Terms, c: Contract, j: nat) { Faces(t, c, SENDER, j + 1) }

  predicate IsPaid(t: Terms, c: Contract, j: nat) { Faces(t, c, RECEIVER, j - 1) }

  /** A contract carries the amount and the Bitcoin TX the seller voted for. */
  ghost predicate Agreed(s: State, c: Contract) {
    s.ballot.Some? && c.btcAmount == s.ballot.value.amount && c.txId == s.ballot.value.txId
  }

  /** A manager of node j holds a contract by which the node pays or is paid, not yet in force. */
  ghost predicate PendingPayer(t: Terms, c: Option<Contract>, j: nat) {
    c.Some? && !c.value.activated && Pays(t, c.value, j)
  }

  ghost predicate PendingPayee(t: Terms, c: Option<Contract>, j: nat) {
    c.Some? && !c.value.activated && IsPaid(t, c.value, j)
  }

  ghost predicate PacketOk(s: State, t: Terms, pk: Packet)
    requires |s.quoted| == |s.nodes| - 1
  {
    var it := pk.item;
    var n := |s.nodes| - 1;
    && pk.from <= n && pk.to <= n
    && match it.phase
       case QUERY =>
         && pk.to == pk.from + 1 && it.direction == SERVER
         && !s.nodes[pk.to].queried && (pk.from == 0 || s.nodes[pk.from].queried)
         && IsOffer(it.payload) && s.quoted[pk.from] == Some(it.payload.btcAmount)
         && it.payload.fiatAmount == it.payload.btcAmount * t.price && it.payload.currency == t.currency
       case VOTE_YES =>
         && pk.from == pk.to + 1 && it.direction == CLIENT && s.ballot.Some?
         && it.payload == Vote(s.ballot.value.amount, s.ballot.value.txId)
       case VOTE_NO =>
         pk.from == pk.to + 1 && it.direction == CLIENT && it.payload == Vote(0.0, VoteNoTx)
       case COMMIT => pk.to == pk.from + 1 && it.direction == SERVER && HasActive(s.nodes[pk.from])
       case ABORT => pk.to == pk.from + 1 && it.direction == SERVER && s.aborted
       case ABORT_REQUEST => (pk.to == pk.from + 1 || pk.from == pk.to + 1) && it.direction == CLIENT
       case _ => false
  }

  /** If any listed contract is in force, all of the node's are there, in force and agreed. */
  ghost predicate FiledOk(s: State, t: Terms, j: nat)
    requires j < |s.nodes|
  {
    var nd := s.nodes[j];
    HasActive(nd) ==>
      && Committed(s, j)
      && (nd.payer.Some? ==> Agreed(s, nd.payer.value) && Pays(t, nd.payer.value, j))
      && (nd.payee.Some? ==> Agreed(s, nd.payee.value) && IsPaid(t, nd.payee.value, j))
  }

  ghost predicate HopOk(s: State, t: Terms, j: nat, h: Hop)
    requires 0 < j < |s.nodes| - 1 && |s.quoted| == |s.nodes| - 1
  {
    && h.payer.Some? == h.payee.Some?
    && (h.payer.Some? ==>
         && s.nodes[j].queried && s.nodes[j].tunnel.Some? && Unfiled(s.nodes[j])
         && PendingPayer(t, h.payer, j) && PendingPayee(t, h.payee, j))
    && (h.phase == QUERY ==>
         && h.payer.Some?
         && s.quoted[j - 1] == Some(h.payer.value.btcAmount) && s.quoted[j] == Some(h.payee.value.btcAmount))
    && (h.phase == VOTE_YES ==> h.payer.Some? && Agreed(s, h.payer.value) && Agreed(s, h.payee.value))
  }

  ghost predicate PayeeOk(s: State, t: Terms, j: nat, p: Payee)
    requires j < |s.nodes|
  {
    && (p.payee.Some? ==> Unfiled(s.nodes[j]) && PendingPayee(t, p.payee, j))
    && (p.phase == QUERY ==> p.payee.Some? && Agreed(s, p.payee.value))
  }

  ghost predicate NodeOk(s: State, t: Terms, j: nat)
    requires j < |s.nodes| && |s.quoted| == |s.nodes| - 1 && |s.quoted| >= 1
  {
    var nd := s.nodes[j];
    var n := |s.nodes| - 1;
    && FiledOk(s, t, j)
    && (if j == 0 then
          && nd.tunnel == None
          && match nd.mgr
             case None => true
             case Some(AsCoordinator(c)) => Unfiled(nd) && !s.aborted
               && PendingPayer(t, c.payer, 0) && s.quoted[0] == Some(c.payer.value.btcAmount)
             case Some(AsHop(h)) => h.payer.None? && h.payee.None? && h.phase != QUERY && h.phase != VOTE_YES
             case Some(AsPayee(_)) => false
        else if j < n then
          && (nd.tunnel == None || nd.tunnel == Some((j - 1, j + 1)))
          && (!Unfiled(nd) ==> nd.queried)
          && match nd.mgr
             case None => true
             case Some(AsHop(h)) => HopOk(s, t, j, h)
             case _ => false
        else
          && (!Unfiled(nd) ==> nd.queried)
          && match nd.mgr
             case None => true
             case Some(AsPayee(p)) => PayeeOk(s, t, j, p) && (p.payee.Some? ==> nd.queried)
             case _ => false)
  }

  /** Quotes are positive and never grow along the chain; a QUERY reaches the nodes in order. */
  ghost predicate QuotesOk(s: State, t: Terms)
    requires |s.quoted| == |s.nodes| - 1 && |s.quoted| >= 1
  {
    && s.quoted[0] == Some(t.btcAmount)
    && (forall j :: 2 <= j < |s.nodes| && s.nodes[j].queried ==> s.nodes[j - 1].queried)
    && (forall j :: 0 <= j < |s.quoted| && s.quoted[j].Some? ==> s.quoted[j].value > 0.0)
    && (forall j :: 1 <= j < |s.quoted| && s.quoted[j].Some? ==>
         s.nodes[j].queried && s.quoted[j - 1].Some? && s.quoted[j].value <= s.quoted[j - 1].value)
  }

  ghost predicate BallotOk(s: State, t: Terms)
    requires |s.quoted| == |s.nodes| - 1 && |s.quoted| >= 1
  {
    s.ballot.Some? ==>
      var b := s.ballot.value;
      && s.nodes[|s.nodes| - 1].queried
      && 0.0 < b.amount <= b.leftover && b.limit <= t.price
      && forall j :: 0 <= j < |s.quoted| ==> s.quoted[j].Some? && b.amount <= s.quoted[j].value
  }

  ghost predicate OneQueryPerLink(net: seq<Packet>) {
    forall i, k :: 0 <= i < k < |net| && net[i].item.phase == QUERY && net[k].item.phase == QUERY ==>
      net[i].to != net[k].to
  }

  ghost predicate PrefixOk(s: State) {
    forall j :: 1 <= j < |s.nodes| && HasActive(s.nodes[j]) ==> HasActive(s.nodes[j - 1])
  }

  ghost predicate Shape(s: State) { |s.nodes| >= 2 && |s.quoted| == |s.nodes| - 1 }

  ghost predicate Inv(s: State, t: Terms) {
    && Shape(s)
    && QuotesOk(s, t) && BallotOk(s, t) && OneQueryPerLink(s.net) && PrefixOk(s)
    && (forall i :: 0 <= i < |s.net| ==> PacketOk(s, t, s.net[i]))
    && (forall j :: 0 <= j < |s.nodes| ==> NodeOk(s, t, j))
    && (s.aborted ==> !HasActive(s.nodes[0]))
    && (s.broadcast ==> HasActive(s.nodes[|s.nodes| - 1]))
  }

  // ---- One step ----

  /** How a step that touches node j lets the shared facts grow. */
  ghost predicate Grows(s: State, s': State, j: nat) {
    && |s'.nodes| == |s.nodes| && |s'.quoted| == |s.quoted| && j < |s.nodes|
    && (forall k :: 0 <= k < |s.nodes| && k != j ==> s'.nodes[k] == s.nodes[k])
    && (HasActive(s.nodes[j]) ==> HasActive(s'.nodes[j]))
    && (s.nodes[j].queried ==> s'.nodes[j].queried)
    && (forall k :: 0 <= k < |s.quoted| && s.quoted[k].Some? ==> s'.quoted[k] == s.quoted[k])
    && (s.ballot.Some? ==> s'.ballot == s.ballot)
    && (s.aborted ==> s'.aborted)
  }

  lemma PacketStaysOk(s: State, s': State, t: Terms, j: nat, pk: Packet)
    requires |s.quoted| == |s.nodes| - 1 && PacketOk(s, t, pk) && Grows(s, s', j)
    requires pk.item.phase == QUERY && pk.to == j ==> !s'.nodes[j].queried
    ensures PacketOk(s', t, pk)
  {
  }

  lemma NodeStaysOk(s: State, s': State, t: Terms, j: nat, k: nat)
    requires |s.quoted| == |s.nodes| - 1 && |s.nodes| >= 2
    requires k < |s.nodes| && k != j && NodeOk(s, t, k) && Grows(s, s', j)
    requires j == 0 || s'.aborted == s.aborted
    ensures NodeOk(s', t, k)
  {
  }

  /** The part of the invariant that handling item i starts from. */
  ghost predicate Context(s: State, t: Terms, i: nat) {
    && Shape(s) && UsableTerms(t) && i < |s.net| && s.net[i].to < |s.nodes|
    && PacketOk(s, t, s.net[i]) && NodeOk(s, t, s.net[i].to) && QuotesOk(s, t) && BallotOk(s, t)
    && (s.aborted ==> !HasActive(s.nodes[0]))
    && (s.broadcast ==> HasActive(s.nodes[|s.nodes| - 1]))
  }

  /** What handling item i has to establish about the parts it touches. */
  ghost predicate DeliveryOk(s: State, s': State, t: Terms, i: nat, out: seq<Packet>)
    requires Context(s, t, i)
  {
    var j := s.net[i].to;
    && Grows(s, s', j)
    && s'.net == s.net[..i] + s.net[i + 1..] + out && |out| <= 1
    && s'.nodes[j].queried == (s.nodes[j].queried || s.net[i].item.phase == QUERY)
    && (s'.aborted == s.aborted || j == 0)
    && NodeOk(s', t, j) && QuotesOk(s', t) && BallotOk(s', t)
    && (|out| == 1 ==> out[0].from == j && PacketOk(s', t, out[0]))
    && (|out| == 1 && out[0].item.phase == QUERY ==> j >= 1 && !s.nodes[j].queried)
    && (HasActive(s'.nodes[j]) && !HasActive(s.nodes[j]) && j >= 1 ==> HasActive(s.nodes[j - 1]))
    && (s'.aborted ==> !HasActive(s'.nodes[0]))
    && (s'.broadcast ==> HasActive(s'.nodes[|s.nodes| - 1]))
  }

  lemma PacketsStayOk(s: State, s': State, t: Terms, i: nat, out: seq<Packet>, k: nat)
    requires Inv(s, t) && Context(s, t, i) && DeliveryOk(s, s', t, i, out)
    requires k < |s.net| && k != i
    ensures PacketOk(s', t, s.net[k])
    ensures |out| == 1 && out[0].item.phase == QUERY && s.net[k].item.phase == QUERY ==> s.net[k].to != out[0].to
  {
  }

  lemma OneQueryStays(net: seq<Packet>, i: nat, out: seq<Packet>)
    requires OneQueryPerLink(net) && i < |net| && |out| <= 1
    requires |out| == 1 && out[0].item.phase == QUERY ==>
      forall k :: 0 <= k < |net| && k != i && net[k].item.phase == QUERY ==> net[k].to != out[0].to
    ensures OneQueryPerLink(net[..i] + net[i + 1..] + out)
  {
  }

  lemma NetStaysOk(s: State, s': State, t: Terms, i: nat, out: seq<Packet>)
    requires Inv(s, t) && Context(s, t, i) && DeliveryOk(s, s', t, i, out)
    ensures forall k :: 0 <= k < |s'.net| ==> PacketOk(s', t, s'.net[k])
    ensures OneQueryPerLink(s'.net)
  {
    forall k | 0 <= k < |s.net| && k != i
      ensures |out| == 1 && out[0].item.phase == QUERY && s.net[k].item.phase == QUERY ==> s.net[k].to != out[0].to
    {
      PacketsStayOk(s, s', t, i, out, k);
    }
    OneQueryStays(s.net, i, out);
    var kept := s.net[..i] + s.net[i + 1..];
    forall k | 0 <= k < |kept| ensures PacketOk(s', t, kept[k]) {
      PacketsStayOk(s, s', t, i, out, if k < i then k else k + 1);
    }
    AllPacketsOk(s', t, kept, out);
  }

  lemma AllPacketsOk(s: State, t: Terms, kept: seq<Packet>, out: seq<Packet>)
    requires |s.quoted| == |s.nodes| - 1 && s.net == kept + out && |out| <= 1
    requires forall k :: 0 <= k < |kept| ==> PacketOk(s, t, kept[k])
    requires |out| == 1 ==> PacketOk(s, t, out[0])
    ensures forall k :: 0 <= k < |s.net| ==> PacketOk(s, t, s.net[k])
  {
  }

  lemma AssembleInv(s: State, s': State, t: Terms, i: nat, out: seq<Packet>)
    requires Inv(s, t) && Context(s, t, i) && DeliveryOk(s, s', t, i, out)
    ensures Inv(s', t)
  {
    var j := s.net[i].to;
    NetStaysOk(s, s', t, i, out);
    forall k | 0 <= k < |s.nodes| ensures NodeOk(s', t, k) {
      if k != j {
        NodeStaysOk(s, s', t, j, k);
      }
    }
    assert PrefixOk(s');
  }

  // ---- The step at each kind of node ----

  /** A step that neither commits, quotes nor votes: it replaces a manager, perhaps files
      contracts that are not activated, and sends at most one item. */
  ghost predicate Quiet(s: State, s': State, i: nat, out: seq<Packet>)
    requires i < |s.net| && s.net[i].to < |s.nodes|
  {
    var j := s.net[i].to;
    && |s'.nodes| == |s.nodes| && s'.nodes == s.nodes[j := s'.nodes[j]]
    && s'.net == s.net[..i] + s.net[i + 1..] + out && |out| <= 1
    && s'.quoted == s.quoted && s'.ballot == s.ballot && s'.broadcast == s.broadcast
    && (s.aborted ==> s'.aborted) && (s'.aborted == s.aborted || j == 0)
    && s'.nodes[j].queried == (s.nodes[j].queried || s.net[i].item.phase == QUERY)
    && (|out| == 1 ==> out[0].from == j && out[0].item.phase != QUERY)
    && (|| (s'.nodes[j].payer == s.nodes[j].payer && s'.nodes[j].payee == s.nodes[j].payee)
        || (Unfiled(s.nodes[j]) && !HasActive(s'.nodes[j])))
  }

  lemma QuietStep(s: State, s': State, t: Terms, i: nat, out: seq<Packet>)
    requires Context(s, t, i) && Quiet(s, s', i, out)
    requires NodeOk(s', t, s.net[i].to) && (|out| == 1 ==> PacketOk(s', t, out[0]))
    requires s'.aborted ==> !HasActive(s'.nodes[0])
    ensures DeliveryOk(s, s', t, i, out)
  {
  }

  /** The result of handling item i at its destination. */
  function Handling(s: State, i: nat, env: Env): Handled
    requires i < |s.net| && s.net[i].to < |s.nodes|
  {
    var nd := s.nodes[s.net[i].to];
    Process(ManagerFor(nd, s.net[i].to == |s.nodes| - 1), nd.tunnel, s.net[i], env)
  }

  lemma BuyerCommits(s: State, t: Terms, i: nat, env: Env, h: Handled, payer: Contract)
    requires Context(s, t, i) && s.net[i].to == 0 && s.net[i].item.phase == VOTE_YES
    requires Unfiled(s.nodes[0]) && !s.aborted
    requires h == Handled(AsCoordinator(Coordinator(Some(payer))), None, h.sends, Returns(Finish), false)
    requires payer.activated && Agreed(s, payer) && Pays(t, payer, 0)
    requires |h.sends| == 1 && h.sends[0].to == 1 && h.sends[0].item.phase == COMMIT
      && h.sends[0].item.direction == SERVER
    ensures DeliveryOk(s, Delivered(s, i, env, h), t, i, Packets(0, h.sends))
  {
  }

  /** Results that lead to quiet steps. */
  lemma QuietResult(s: State, i: nat, env: Env, h: Handled)
    requires i < |s.net| && s.net[i].to < |s.nodes| && |h.sends| <= 1 && !h.broadcast
    requires |h.sends| == 1 ==>
      h.sends[0].item.phase != QUERY && !(h.mgr.AsPayee? && h.sends[0].item.phase == VOTE_YES)
    requires h.mgr.AsCoordinator? ==> s.net[i].to == 0
    requires
      var nd := s.nodes[s.net[i].to];
      || (h.outcome.Throws? || h.outcome.code == Success)
      || (PayerOf(h.mgr).None? && PayeeOf(h.mgr).None?)
      || (Unfiled(nd) && (PayerOf(h.mgr).Some? ==> !PayerOf(h.mgr).value.activated)
          && (PayeeOf(h.mgr).Some? ==> !PayeeOf(h.mgr).value.activated))
    ensures Quiet(s, Delivered(s, i, env, h), i, Packets(s.net[i].to, h.sends))
  {
  }

  lemma BuyerAborts(s: State, t: Terms, i: nat, env: Env, h: Handled)
    requires Context(s, t, i) && s.net[i].to == 0 && !HasActive(s.nodes[0]) && s.nodes[0].tunnel == None
    requires Unfiled(s.nodes[0])
    requires h.mgr.AsCoordinator? && h == Handled(h.mgr, None, h.sends, Returns(Failure), false)
    requires (h.mgr.coordinator.payer.Some? ==> !h.mgr.coordinator.payer.value.activated)
    requires |h.sends| == 1 && h.sends[0].to == 1 && h.sends[0].item.phase == ABORT
      && h.sends[0].item.direction == SERVER
    ensures DeliveryOk(s, Delivered(s, i, env, h), t, i, Packets(0, h.sends))
  {
    QuietResult(s, i, env, h);
    QuietStep(s, Delivered(s, i, env, h), t, i, Packets(0, h.sends));
  }

  /** A late item finds no coordinator; a fresh hop manager without a tunnel answers it. */
  lemma BuyerIsGone(s: State, t: Terms, i: nat, env: Env, h: Handled)
    requires Context(s, t, i) && s.net[i].to == 0 && s.nodes[0].tunnel == None
    requires !(s.nodes[0].mgr.Some? && s.nodes[0].mgr.value.AsCoordinator?)
    requires h.mgr.AsHop? && h == Handled(AsHop(Hop(h.mgr.hop.phase, None, None)), None, h.sends, h.outcome, false)
    requires h.mgr.hop.phase != QUERY && h.mgr.hop.phase != VOTE_YES
    requires |h.sends| <= 1
    requires |h.sends| == 1 ==>
      h.sends[0].to == 1 && h.sends[0].item.phase == ABORT_REQUEST && h.sends[0].item.direction == CLIENT
    ensures DeliveryOk(s, Delivered(s, i, env, h), t, i, Packets(0, h.sends))
  {
    QuietResult(s, i, env, h);
    QuietStep(s, Delivered(s, i, env, h), t, i, Packets(0, h.sends));
  }

  lemma BuyerStep(s: State, t: Terms, i: nat, env: Env)
    requires Context(s, t, i) && s.net[i].to == 0
    ensures DeliveryOk(s, Delivered(s, i, env, Handling(s, i, env)), t, i, Packets(0, Handling(s, i, env).sends))
  {
    var h := Handling(s, i, env);
    var nd := s.nodes[0];
    if nd.mgr.Some? && nd.mgr.value.AsCoordinator? {
      if s.net[i].item.phase == VOTE_YES && IsVote(s.net[i].item.payload) {
        BuyerCommits(s, t, i, env, h, h.mgr.coordinator.payer.value);
      } else {
        BuyerAborts(s, t, i, env, h);
      }
    } else {
      BuyerIsGone(s, t, i, env, h);
    }
  }

  predicate Kept(o: Outcome) { o.Throws? || o.code == Success }

  /** Everything a hop does except quoting and committing. */
  lemma HopQuietly(s: State, t: Terms, i: nat, env: Env, h: Handled)
    requires Context(s, t, i) && 0 < s.net[i].to < |s.nodes| - 1
    requires h.mgr.AsHop? && !h.broadcast
    requires h.tunnel == s.nodes[s.net[i].to].tunnel || h.tunnel == Some((s.net[i].to - 1, s.net[i].to + 1))
    requires if Kept(h.outcome) then HopOk(s, t, s.net[i].to, h.mgr.hop)
             else h.mgr.hop.payer.None? && h.mgr.hop.payee.None?
    requires |h.sends| <= 1
    requires |h.sends| == 1 ==>
      h.sends[0].item.phase != QUERY && PacketOk(s, t, Packet(s.net[i].to, h.sends[0].to, h.sends[0].item))
    ensures DeliveryOk(s, Delivered(s, i, env, h), t, i, Packets(s.net[i].to, h.sends))
  {
    var s' := Delivered(s, i, env, h);
    var out := Packets(s.net[i].to, h.sends);
    QuietResult(s, i, env, h);
    if |out| == 1 {
      PacketStaysOk(s, s', t, s.net[i].to, out[0]);
    }
    QuietStep(s, s', t, i, out);
  }

  /** The one item a hop sends on: its own offer. */
  ghost predicate PassesOffer(t: Terms, sends: seq<Send>, j: nat, amount: real) {
    && |sends| == 1 && sends[0].to == j + 1 && sends[0].item.phase == QUERY && sends[0].item.direction == SERVER
    && IsOffer(sends[0].item.payload) && sends[0].item.payload.btcAmount == amount
    && sends[0].item.payload.fiatAmount == amount * t.price && sends[0].item.payload.currency == t.currency
  }

  lemma QuoteIsOk(s: State, s': State, t: Terms, j: nat, amount: real)
    requires Shape(s) && QuotesOk(s, t) && 0 < j < |s.quoted| && s.quoted[j].None? && s.ballot.None?
    requires s.quoted[j - 1].Some? && 0.0 < amount <= s.quoted[j - 1].value
    requires s'.quoted == s.quoted[j := Some(amount)] && s'.ballot == s.ballot && |s'.nodes| == |s.nodes|
    requires s'.nodes == s.nodes[j := s'.nodes[j]] && s'.nodes[j].queried
    ensures QuotesOk(s', t) && BallotOk(s', t)
  {
  }

  lemma HopQuotes(s: State, t: Terms, i: nat, env: Env, h: Handled, payer: Contract, payee: Contract)
    requires Context(s, t, i) && 0 < s.net[i].to < |s.nodes| - 1 && s.net[i].item.phase == QUERY
    requires Unfiled(s.nodes[s.net[i].to])
    requires h == Handled(AsHop(Hop(QUERY, Some(payer), Some(payee))), Some((s.net[i].to - 1, s.net[i].to + 1)),
                          h.sends, Returns(Success), false)
    requires PendingPayer(t, Some(payer), s.net[i].to) && PendingPayee(t, Some(payee), s.net[i].to)
    requires s.quoted[s.net[i].to - 1] == Some(payer.btcAmount) && 0.0 < payee.btcAmount <= payer.btcAmount
    requires PassesOffer(t, h.sends, s.net[i].to, payee.btcAmount)
    ensures DeliveryOk(s, Delivered(s, i, env, h), t, i, Packets(s.net[i].to, h.sends))
  {
    var j := s.net[i].to;
    var s' := Delivered(s, i, env, h);
    assert s.quoted[j].None? && s.ballot.None?;
    QuoteIsOk(s, s', t, j, payee.btcAmount);
    assert NodeOk(s', t, j);
  }

  lemma HopCommits(s: State, t: Terms, i: nat, env: Env, h: Handled, payer: Contract, payee: Contract)
    requires Context(s, t, i) && 0 < s.net[i].to < |s.nodes| - 1 && s.net[i].item.phase == COMMIT
    requires Unfiled(s.nodes[s.net[i].to]) && s.nodes[s.net[i].to].queried
    requires h.tunnel == None || h.tunnel == Some((s.net[i].to - 1, s.net[i].to + 1))
    requires h == Handled(AsHop(Hop(COMMIT, Some(payer), Some(payee))), h.tunnel, h.sends, Returns(Finish), false)
    requires payer.activated && Agreed(s, payer) && Pays(t, payer, s.net[i].to)
    requires payee.activated && Agreed(s, payee) && IsPaid(t, payee, s.net[i].to)
    requires |h.sends| <= 1
    requires |h.sends| == 1 ==>
      h.sends[0].to == s.net[i].to + 1 && h.sends[0].item.phase == COMMIT && h.sends[0].item.direction == SERVER
    ensures DeliveryOk(s, Delivered(s, i, env, h), t, i, Packets(s.net[i].to, h.sends))
  {
  }

  /** The price recovered from an offer is the buyer's price, whatever became of the amount. */
  lemma SamePrice(p: Payload, price: real)
    requires IsOffer(p) && p.fiatAmount == p.btcAmount * price
    ensures OfferPrice(p) == price
  {
  }

  /** A hop either refuses an offer at the buyer's price or makes both contracts and offers on. */
  lemma HopQueryResult(h: Hop, tunnel: Tunnel, item: Item, from: nat, at: Surroundings, t: Terms)
    requires h == Hop(INIT, None, None) && item.direction == SERVER && item.phase == QUERY && IsOffer(item.payload)
    requires item.payload.fiatAmount == item.payload.btcAmount * t.price && t.price > 0.0
    requires item.payload.currency == t.currency && at.nextHop == from + 2
    ensures
      var r := HopQuery(h, tunnel, item, from, at);
      && r.tunnel == Some((from, at.nextHop))
      && if r.outcome != Returns(Success) then
           r.outcome == Returns(Finish) && r.hop.payer.None? && r.hop.payee.None? && r.sends == [VoteNo(item, from)]
         else
           && r.hop.phase == QUERY && PendingPayer(t, r.hop.payer, from + 1) && PendingPayee(t, r.hop.payee, from + 1)
           && r.hop.payer.value.btcAmount == item.payload.btcAmount
           && 0.0 < r.hop.payee.value.btcAmount <= item.payload.btcAmount
           && PassesOffer(t, r.sends, from + 1, r.hop.payee.value.btcAmount)
  {
    var p := item.payload;
    SamePrice(p, t.price);
    CappedIsLargest(p.btcAmount, p.fee, t.price, at.available, 0.0);
    if Capped(p.btcAmount, p.fee, t.price, at.available).Some? {
      FiatPositive(Capped(p.btcAmount, p.fee, t.price, at.available).value, t.price);
    }
  }

  lemma FiatPositive(amount: real, price: real)
    requires amount > 0.0 && price > 0.0
    ensures amount * price > 0.0
  {
  }

  lemma HopQueryStep(s: State, t: Terms, i: nat, env: Env)
    requires Context(s, t, i) && 0 < s.net[i].to < |s.nodes| - 1 && s.net[i].item.phase == QUERY
    ensures DeliveryOk(s, Delivered(s, i, env, Handling(s, i, env)), t, i,
      Packets(s.net[i].to, Handling(s, i, env).sends))
  {
    var h := Handling(s, i, env);
    var pk := s.net[i];
    var j := pk.to;
    var hop := ManagerFor(s.nodes[j], false).hop;
    assert hop.payer.None? && hop.payee.None? && pk.from == j - 1;
    if hop.phase == INIT {
      HopQueryResult(hop, s.nodes[j].tunnel, pk.item, pk.from, Surroundings(j + 1, env.available, env.now), t);
    }
    if hop.phase == INIT && h.outcome == Returns(Success) {
      HopQuotes(s, t, i, env, h, h.mgr.hop.payer.value, h.mgr.hop.payee.value);
    } else {
      HopQuietly(s, t, i, env, h);
    }
  }

  lemma HopVoteStep(s: State, t: Terms, i: nat, env: Env)
    requires Context(s, t, i) && 0 < s.net[i].to < |s.nodes| - 1
    requires s.net[i].item.phase == VOTE_YES || s.net[i].item.phase == VOTE_NO
    ensures DeliveryOk(s, Delivered(s, i, env, Handling(s, i, env)), t, i,
      Packets(s.net[i].to, Handling(s, i, env).sends))
  {
    var h := Handling(s, i, env);
    var hop := ManagerFor(s.nodes[s.net[i].to], false).hop;
    if hop.phase == QUERY && IsVote(s.net[i].item.payload) {
      assert s.net[i].item.payload.voteAmount <= hop.payer.value.btcAmount;
      assert h.outcome == Returns(Success) && h.tunnel == s.nodes[s.net[i].to].tunnel;
      assert HopOk(s, t, s.net[i].to, h.mgr.hop);
    }
    HopQuietly(s, t, i, env, h);
  }

  lemma HopCommitStep(s: State, t: Terms, i: nat, env: Env)
    requires Context(s, t, i) && 0 < s.net[i].to < |s.nodes| - 1 && s.net[i].item.phase == COMMIT
    ensures DeliveryOk(s, Delivered(s, i, env, Handling(s, i, env)), t, i,
      Packets(s.net[i].to, Handling(s, i, env).sends))
  {
    var h := Handling(s, i, env);
    var hop := ManagerFor(s.nodes[s.net[i].to], false).hop;
    if hop.phase == VOTE_YES {
      HopCommits(s, t, i, env, h, h.mgr.hop.payer.value, h.mgr.hop.payee.value);
    } else {
      HopQuietly(s, t, i, env, h);
    }
  }

  lemma HopAbortStep(s: State, t: Terms, i: nat, env: Env)
    requires Context(s, t, i) && 0 < s.net[i].to < |s.nodes| - 1
    requires s.net[i].item.phase == ABORT || s.net[i].item.phase == ABORT_REQUEST
    ensures DeliveryOk(s, Delivered(s, i, env, Handling(s, i, env)), t, i,
      Packets(s.net[i].to, Handling(s, i, env).sends))
  {
    HopQuietly(s, t, i, env, Handling(s, i, env));
  }

  ghost predicate AtSeller(s: State, i: nat) {
    i < |s.net| && |s.nodes| >= 2 && s.net[i].to == |s.nodes| - 1
  }

  lemma SellerQuietly(s: State, t: Terms, i: nat, env: Env, h: Handled)
    requires Context(s, t, i) && AtSeller(s, i)
    requires h.mgr.AsPayee? && !h.broadcast && h.tunnel == s.nodes[s.net[i].to].tunnel
    requires
      var nd := s.nodes[s.net[i].to];
      var payee := h.mgr.payeeMgr.payee;
      && (payee.Some? ==> nd.queried || s.net[i].item.phase == QUERY)
      && if Kept(h.outcome) then PayeeOk(s, t, s.net[i].to, h.mgr.payeeMgr)
         else payee.Some? ==> Unfiled(nd) && !payee.value.activated
    requires |h.sends| <= 1
    requires |h.sends| == 1 ==>
      h.sends[0].item.phase != VOTE_YES && h.sends[0].item.phase != QUERY
      && PacketOk(s, t, Packet(s.net[i].to, h.sends[0].to, h.sends[0].item))
    ensures DeliveryOk(s, Delivered(s, i, env, h), t, i, Packets(s.net[i].to, h.sends))
  {
    var s' := Delivered(s, i, env, h);
    var out := Packets(s.net[i].to, h.sends);
    QuietResult(s, i, env, h);
    if |out| == 1 {
      PacketStaysOk(s, s', t, s.net[i].to, out[0]);
    }
    QuietStep(s, s', t, i, out);
  }

  /** The last quote bounds nothing but itself; every earlier one bounds it. */
  lemma {:induction false} LastQuoteIsLeast(s: State, t: Terms, j: nat, k: nat)
    requires Shape(s) && QuotesOk(s, t) && j <= k < |s.quoted| && s.quoted[k].Some?
    ensures s.quoted[j].Some? && s.quoted[k].value <= s.quoted[j].value
    decreases k - j
  {
    if j < k {
      LastQuoteIsLeast(s, t, j, k - 1);
    }
  }

  lemma SellerVotes(s: State, t: Terms, i: nat, env: Env, h: Handled, payee: Contract)
    requires Context(s, t, i) && AtSeller(s, i) && s.net[i].item.phase == QUERY && Unfiled(s.nodes[s.net[i].to])
    requires h == Handled(AsPayee(Payee(QUERY, Some(payee))), s.nodes[s.net[i].to].tunnel,
                          h.sends, Returns(Success), false)
    requires PendingPayee(t, Some(payee), s.net[i].to) && env.order.price <= t.price
    requires s.quoted[|s.quoted| - 1].Some? && 0.0 < payee.btcAmount <= s.quoted[|s.quoted| - 1].value
    requires payee.btcAmount <= Leftover(env.order)
    requires |h.sends| == 1 && h.sends[0].to == s.net[i].to - 1 && h.sends[0].item.phase == VOTE_YES
      && h.sends[0].item.direction == CLIENT && h.sends[0].item.payload == Vote(payee.btcAmount, payee.txId)
    ensures DeliveryOk(s, Delivered(s, i, env, h), t, i, Packets(s.net[i].to, h.sends))
  {
    assert s.ballot.None?;
    forall j | 0 <= j < |s.quoted| ensures s.quoted[j].Some? && payee.btcAmount <= s.quoted[j].value {
      LastQuoteIsLeast(s, t, j, |s.quoted| - 1);
    }
  }

  lemma SellerCommits(s: State, t: Terms, i: nat, env: Env, h: Handled, payee: Contract)
    requires Context(s, t, i) && AtSeller(s, i) && s.net[i].item.phase == COMMIT && Unfiled(s.nodes[s.net[i].to])
    requires s.nodes[s.net[i].to].queried
    requires h == Handled(AsPayee(Payee(COMMIT, Some(payee))), s.nodes[s.net[i].to].tunnel, [], Returns(Finish), true)
    requires payee.activated && Agreed(s, payee) && IsPaid(t, payee, s.net[i].to)
    ensures DeliveryOk(s, Delivered(s, i, env, h), t, i, Packets(s.net[i].to, h.sends))
  {
  }

  /** What the seller makes of an offer at the buyer's price. */
  lemma PayeeQueryResult(m: Payee, o: SellOrder, item: Item, from: nat, at: Surroundings, rawTx: Option<TxId>, t: Terms)
    requires m == Payee(INIT, None) && IsOffer(item.payload) && t.price > 0.0 && 0.0 <= o.commitment <= o.amount
    requires item.payload.fiatAmount == item.payload.btcAmount * t.price && item.payload.currency == t.currency
    ensures
      var r := PayeeQuery(m, o, item, from, at, rawTx);
      && !r.broadcast && |r.sends| == 1
      && (r.mgr.payee.Some? ==> PendingPayee(t, r.mgr.payee, from + 1))
      && (r.sends[0].item.phase == VOTE_YES ==>
           && r.outcome == Returns(Success) && r.mgr.phase == QUERY && r.mgr.payee.Some? && o.price <= t.price
           && 0.0 < r.mgr.payee.value.btcAmount <= item.payload.btcAmount && r.mgr.payee.value.btcAmount <= Leftover(o)
           && r.sends[0].to == from && r.sends[0].item.direction == CLIENT
           && r.sends[0].item.payload == Vote(r.mgr.payee.value.btcAmount, r.mgr.payee.value.txId))
      && (r.sends[0].item.phase != VOTE_YES ==>
           || (r.sends[0] == AbortRequest(item, from) && r.mgr.phase == ABORT_REQUEST && r.outcome == Returns(Success))
           || (r.sends[0] == VoteNo(item, from) && r.outcome == Returns(Finish)))
  {
    var p := item.payload;
    SamePrice(p, t.price);
    CappedIsLargest(p.btcAmount, p.fee, t.price, at.available, 0.0);
    var kept := Capped(p.btcAmount, p.fee, t.price, at.available);
    if kept.Some? {
      var c := NewContract(kept.value, p.fee, t.price, p.currency, RECEIVER, from, at.now);
      assert PayeeQuery(m, o, item, from, at, rawTx) == Decided(c, o, item, from, rawTx);
    } else {
      assert PayeeQuery(m, o, item, from, at, rawTx) ==
        PayeeResult(Payee(QUERY, None), o, [VoteNo(item, from)], Returns(Finish), false);
    }
  }

  lemma SellerQueryStep(s: State, t: Terms, i: nat, env: Env)
    requires Context(s, t, i) && AtSeller(s, i) && s.net[i].item.phase == QUERY && Enabled(s, Deliver(i, env))
    ensures DeliveryOk(s, Delivered(s, i, env, Handling(s, i, env)), t, i,
      Packets(s.net[i].to, Handling(s, i, env).sends))
  {
    var h := Handling(s, i, env);
    var pk := s.net[i];
    var p := ManagerFor(s.nodes[pk.to], true).payeeMgr;
    assert p.payee.None? && Unfiled(s.nodes[pk.to]);
    if p.phase == INIT {
      PayeeQueryResult(p, env.order, pk.item, pk.from, Surroundings(pk.to + 1, env.available, env.now), env.rawTx, t);
    }
    if p.phase == INIT && h.sends[0].item.phase == VOTE_YES {
      SellerVotes(s, t, i, env, h, h.mgr.payeeMgr.payee.value);
    } else {
      SellerQuietly(s, t, i, env, h);
    }
  }

  lemma SellerOtherStep(s: State, t: Terms, i: nat, env: Env)
    requires Context(s, t, i) && AtSeller(s, i) && s.net[i].item.phase != QUERY
    ensures DeliveryOk(s, Delivered(s, i, env, Handling(s, i, env)), t, i,
      Packets(s.net[i].to, Handling(s, i, env).sends))
  {
    var h := Handling(s, i, env);
    var p := ManagerFor(s.nodes[s.net[i].to], true).payeeMgr;
    if s.net[i].item.phase == COMMIT && p.phase == QUERY {
      SellerCommits(s, t, i, env, h, h.mgr.payeeMgr.payee.value);
    } else {
      SellerQuietly(s, t, i, env, h);
    }
  }

  // ---- All steps, all runs ----

  lemma EveryDeliveryIsOk(s: State, t: Terms, i: nat, env: Env)
    requires Context(s, t, i) && Inv(s, t) && Enabled(s, Deliver(i, env))
    ensures var h := Handling(s, i, env);
      DeliveryOk(s, Delivered(s, i, env, h), t, i, Packets(s.net[i].to, h.sends))
  {
    var j := s.net[i].to;
    if j == 0 {
      BuyerStep(s, t, i, env);
    } else if j < |s.nodes| - 1 {
      match s.net[i].item.phase
      case QUERY => HopQueryStep(s, t, i, env);
      case VOTE_YES => HopVoteStep(s, t, i, env);
      case VOTE_NO => HopVoteStep(s, t, i, env);
      case COMMIT => HopCommitStep(s, t, i, env);
      case ABORT => HopAbortStep(s, t, i, env);
      case ABORT_REQUEST => HopAbortStep(s, t, i, env);
      case _ =>
    } else if s.net[i].item.phase == QUERY {
      SellerQueryStep(s, t, i, env);
    } else {
      SellerOtherStep(s, t, i, env);
    }
  }

  lemma DeliverKeepsInv(s: State, t: Terms, i: nat, env: Env)
    requires Inv(s, t) && UsableTerms(t) && Enabled(s, Deliver(i, env))
    ensures Inv(Next(s, Deliver(i, env)), t)
  {
    var h := Handling(s, i, env);
    assert PacketOk(s, t, s.net[i]) && NodeOk(s, t, s.net[i].to);
    EveryDeliveryIsOk(s, t, i, env);
    AssembleInv(s, Delivered(s, i, env, h), t, i, Packets(s.net[i].to, h.sends));
  }

  lemma TimeoutGrows(s: State, t: Terms, j: nat)
    requires Inv(s, t) && Enabled(s, Timeout(j))
    ensures Grows(s, Next(s, Timeout(j)), j) && NodeOk(Next(s, Timeout(j)), t, j)
  {
    assert NodeOk(s, t, j);
  }

  lemma TimeoutKeepsInv(s: State, t: Terms, j: nat)
    requires Inv(s, t) && Enabled(s, Timeout(j))
    ensures Inv(Next(s, Timeout(j)), t)
  {
    var s' := Next(s, Timeout(j));
    TimeoutGrows(s, t, j);
    forall k | 0 <= k < |s.nodes| ensures NodeOk(s', t, k) {
      if k != j {
        NodeStaysOk(s, s', t, j, k);
      }
    }
    forall k | 0 <= k < |s'.net| ensures PacketOk(s', t, s'.net[k]) {
      PacketStaysOk(s, s', t, j, s.net[k]);
    }
    TimeoutKeepsShape(s, t, j);
  }

  lemma TimeoutKeepsShape(s: State, t: Terms, j: nat)
    requires Inv(s, t) && Enabled(s, Timeout(j))
    ensures
      var s' := Next(s, Timeout(j));
      Shape(s') && OneQueryPerLink(s'.net) && QuotesOk(s', t) && BallotOk(s', t) && PrefixOk(s')
  {
  }

  lemma StartInv(n: nat, t: Terms)
    requires n >= 1 && UsableTerms(t)
    ensures Inv(Start(n, t), t)
  {
  }

  lemma NextKeepsInv(s: State, t: Terms, step: Step)
    requires Inv(s, t) && UsableTerms(t)
    ensures Inv(Next(s, step), t)
  {
    if Enabled(s, step) {
      match step
      case Deliver(i, env) => DeliverKeepsInv(s, t, i, env);
      case Timeout(j) => TimeoutKeepsInv(s, t, j);
    }
  }

  lemma {:induction false} RunKeepsInv(s: State, t: Terms, steps: seq<Step>)
    requires Inv(s, t) && UsableTerms(t)
    ensures Inv(Run(s, steps), t)
  {
    if steps != [] {
      RunKeepsInv(s, t, steps[..|steps| - 1]);
      NextKeepsInv(Run(s, steps[..|steps| - 1]), t, steps[|steps| - 1]);
    }
  }

  lemma RunInv(n: nat, t: Terms, steps: seq<Step>)
    requires n >= 1 && UsableTerms(t)
    ensures Inv(Run(Start(n, t), steps), t)
  {
    StartInv(n, t);
    RunKeepsInv(Start(n, t), t, steps);
  }

  /** s is reached from the buyer's start over n links by the given steps. */
  ghost predicate Reached(n: nat, t: Terms, steps: seq<Step>, s: State) {
    n >= 1 && UsableTerms(t) && s == Run(Start(n, t), steps)
  }

  lemma NextKeepsLength(s: State, step: Step)
    ensures |Next(s, step).nodes| == |s.nodes|
  {
  }

  lemma {:induction false} RunKeepsLength(n: nat, t: Terms, steps: seq<Step>)
    requires n >= 1
    ensures |Run(Start(n, t), steps).nodes| == n + 1
  {
    if steps != [] {
      RunKeepsLength(n, t, steps[..|steps| - 1]);
      NextKeepsLength(Run(Start(n, t), steps[..|steps| - 1]), steps[|steps| - 1]);
    }
  }

  lemma {:induction false} ActiveIsAPrefix(n: nat, t: Terms, steps: seq<Step>, s: State, i: nat, j: nat)
    requires Reached(n, t, steps, s) && i <= j < |s.nodes| && HasActive(s.nodes[j])
    ensures HasActive(s.nodes[i])
    decreases j - i
  {
    RunInv(n, t, steps);
    if i < j {
      ActiveIsAPrefix(n, t, steps, s, i, j - 1);
    }
  }

  /** Commit-prefix safety. In every reachable state of a chain of any length, as soon as any one
      contract is in force at a node, that node and every node nearer the buyer have activated
      both the contract by which they pay and the contract by which they are paid. */
  lemma CommittedIsAPrefix(n: nat, t: Terms, steps: seq<Step>, s: State, i: nat, j: nat)
    requires Reached(n, t, steps, s) && i <= j < |s.nodes| && HasActive(s.nodes[j])
    ensures Committed(s, i)
  {
    RunInv(n, t, steps);
    ActiveIsAPrefix(n, t, steps, s, i, j);
    assert NodeOk(s, t, i);
  }

  /** The seller hands the Bitcoin transaction to the network only after every node on the path
      has activated both its contracts. */
  lemma BroadcastImpliesAllCommitted(n: nat, t: Terms, steps: seq<Step>, s: State, i: nat)
    requires Reached(n, t, steps, s) && s.broadcast && i < |s.nodes|
    ensures Committed(s, i)
  {
    RunInv(n, t, steps);
    CommittedIsAPrefix(n, t, steps, s, i, |s.nodes| - 1);
  }

  /** In a run with an ABORT command no contract is in force, anywhere on the chain. */
  lemma AbortExcludesCommit(n: nat, t: Terms, steps: seq<Step>, s: State, i: nat)
    requires Reached(n, t, steps, s) && s.aborted && i < |s.nodes|
    ensures !IsActive(s.nodes[i].payer) && !IsActive(s.nodes[i].payee)
  {
    RunInv(n, t, steps);
    if HasActive(s.nodes[i]) {
      ActiveIsAPrefix(n, t, steps, s, 0, i);
    }
  }

  /** A manager that holds no contract gets one from a QUERY only. */
  lemma EmptyHandsStayEmpty(m: Manager, tunnel: Tunnel, pk: Packet, env: Env)
    requires PayerOf(m).None? && PayeeOf(m).None? && pk.item.phase != QUERY
    ensures PayerOf(Process(m, tunnel, pk, env).mgr).None? && PayeeOf(Process(m, tunnel, pk, env).mgr).None?
  {
  }

  ghost predicate BuyerWaits(s: State) {
    |s.nodes| >= 2 && s.nodes[0].mgr.Some? && s.nodes[0].mgr.value.AsCoordinator?
  }

  /** Once the coordinator is gone, nothing is listed for this purchase at the buyer that was not, and
      nothing leaves the list. */
  lemma BuyerIsDone(s: State, t: Terms, step: Step)
    requires Inv(s, t) && !BuyerWaits(s)
    ensures var s' := Next(s, step);
      |s'.nodes| == |s.nodes| && !BuyerWaits(s') && s'.nodes[0].payer == s.nodes[0].payer
  {
    if step.Deliver? && Enabled(s, step) && s.net[step.i].to == 0 {
      assert NodeOk(s, t, 0) && PacketOk(s, t, s.net[step.i]);
      EmptyHandsStayEmpty(ManagerFor(s.nodes[0], false), s.nodes[0].tunnel, s.net[step.i], step.env);
    }
  }

  lemma {:induction false} BuyerStaysDone(s: State, t: Terms, steps: seq<Step>)
    requires Inv(s, t) && UsableTerms(t) && !BuyerWaits(s)
    ensures var s' := Run(s, steps); |s'.nodes| == |s.nodes| && !BuyerWaits(s') && s'.nodes[0].payer == s.nodes[0].payer
  {
    if steps != [] {
      BuyerStaysDone(s, t, steps[..|steps| - 1]);
      RunKeepsInv(s, t, steps[..|steps| - 1]);
      BuyerIsDone(Run(s, steps[..|steps| - 1]), t, steps[|steps| - 1]);
    }
  }

  /** The coordinator's answer: what is listed at the buyer then, and whether it commanded an abort. */
  lemma BuyerAnswers(s: State, t: Terms, i: nat, env: Env)
    requires Inv(s, t) && BuyerWaits(s) && i < |s.net| && s.net[i].to == 0
    ensures var s' := Next(s, Deliver(i, env)); var phase := s.net[i].item.phase;
      && |s'.nodes| == |s.nodes| && !BuyerWaits(s')
      && (s'.nodes[0].payer.None? <==> phase == VOTE_NO || phase == ABORT_REQUEST)
      && (s'.nodes[0].payer.None? ==> s'.aborted)
  {
    assert NodeOk(s, t, 0) && PacketOk(s, t, s.net[i]);
  }

  /** The buyer takes its contract off the list when it hears VOTE_NO or ABORT_REQUEST, commands an
      abort, and never lists a contract for this purchase again. After any other answer, also one it
      cannot use and aborts for, its contract is listed for good. */
  lemma AbortTakesContractIff(n: nat, t: Terms, steps: seq<Step>, s: State, i: nat, env: Env, more: seq<Step>)
    requires Reached(n, t, steps, s) && BuyerWaits(s) && i < |s.net| && s.net[i].to == 0
    ensures var s' := Run(Next(s, Deliver(i, env)), more); var phase := s.net[i].item.phase;
      && |s'.nodes| == |s.nodes|
      && (s'.nodes[0].payer.None? <==> phase == VOTE_NO || phase == ABORT_REQUEST)
      && (s'.nodes[0].payer.None? ==> s'.aborted)
  {
    RunInv(n, t, steps);
    BuyerAnswers(s, t, i, env);
    NextKeepsInv(s, t, Deliver(i, env));
    BuyerStaysDone(Next(s, Deliver(i, env)), t, more);
    if Next(s, Deliver(i, env)).aborted {
      AbortLasts(Next(s, Deliver(i, env)), more);
    }
  }

  lemma {:induction false} AbortLasts(s: State, steps: seq<Step>)
    requires s.aborted
    ensures Run(s, steps).aborted
  {
    if steps != [] {
      AbortLasts(s, steps[..|steps| - 1]);
    }
  }

  lemma StepKeepsCommitted(s: State, t: Terms, step: Step, j: nat)
    requires Inv(s, t) && j < |s.nodes| && HasActive(s.nodes[j])
    ensures
      var s' := Next(s, step);
      |s'.nodes| == |s.nodes| && s'.nodes[j].payer == s.nodes[j].payer && s'.nodes[j].payee == s.nodes[j].payee
  {
    if step.Deliver? && Enabled(s, step) && s.net[step.i].to == j {
      assert NodeOk(s, t, j) && PacketOk(s, t, s.net[step.i]);
      EmptyHandsStayEmpty(ManagerFor(s.nodes[j], j == |s.nodes| - 1), s.nodes[j].tunnel, s.net[step.i], step.env);
    }
  }

  lemma StepKeepsReached(n: nat, t: Terms, steps: seq<Step>, s: State, step: Step, j: nat)
    requires Reached(n, t, steps, s) && j < |s.nodes| && HasActive(s.nodes[j])
    ensures |Next(s, step).nodes| == |s.nodes|
    ensures Next(s, step).nodes[j].payer == s.nodes[j].payer && Next(s, step).nodes[j].payee == s.nodes[j].payee
  {
    RunInv(n, t, steps);
    StepKeepsCommitted(s, t, step, j);
  }

  /** Amount, price and transaction agreement. Every contract in force on the path carries the
      amount and the Bitcoin TX the seller voted for and the buyer's price; that amount is positive,
      at most what the buyer asked for and at most the order's leftover at the vote, at a price not
      below the seller's limit. */
  lemma CommittedAgree(n: nat, t: Terms, steps: seq<Step>, s: State, j: nat, c: Contract)
    requires Reached(n, t, steps, s) && j < |s.nodes| && c.activated
    requires s.nodes[j].payer == Some(c) || s.nodes[j].payee == Some(c)
    ensures Agreed(s, c) && c.price == t.price && c.currency == t.currency
    ensures 0.0 < c.btcAmount <= t.btcAmount && c.btcAmount <= s.ballot.value.leftover
      && s.ballot.value.limit <= t.price
  {
    RunInv(n, t, steps);
    assert NodeOk(s, t, j);
    assert s.quoted[0] == Some(t.btcAmount);
  }

  /** The two ends of link j have contracts in force that face each other: node j pays node j + 1
      by one, node j + 1 is paid by node j by the other, and they agree in everything a settlement
      depends on. */
  ghost predicate LinkAgreed(s: State, t: Terms, j: nat)
    requires j + 1 < |s.nodes|
  {
    && IsActive(s.nodes[j].payer) && IsActive(s.nodes[j + 1].payee) && s.ballot.Some?
    && var out, back := s.nodes[j].payer.value, s.nodes[j + 1].payee.value;
       && out.party == SENDER && out.counterParty == j + 1 && back.party == RECEIVER && back.counterParty == j
       && out.btcAmount == back.btcAmount == s.ballot.value.amount && out.txId == back.txId == s.ballot.value.txId
       && out.price == back.price == t.price && out.currency == back.currency == t.currency
  }

  /** Once the transaction is broadcast every link of the path is agreed, at one fiat value. */
  lemma BroadcastAgreesAllLinks(n: nat, t: Terms, steps: seq<Step>, s: State, j: nat)
    requires Reached(n, t, steps, s) && s.broadcast && j + 1 < |s.nodes|
    ensures LinkAgreed(s, t, j)
    ensures Fiat(s.nodes[j].payer.value) == Fiat(s.nodes[j + 1].payee.value) == s.ballot.value.amount * t.price > 0.0
  {
    RunInv(n, t, steps);
    BroadcastImpliesAllCommitted(n, t, steps, s, j);
    BroadcastImpliesAllCommitted(n, t, steps, s, j + 1);
    assert NodeOk(s, t, j) && NodeOk(s, t, j + 1);
    FiatPositive(s.ballot.value.amount, t.price);
  }

  /** Along the chain the quoted amount is positive and never grows, and every offer in flight
      reproduces the buyer's price exactly, however often the amount was capped. */
  lemma QuotesShrinkAtTheBuyersPrice(n: nat, t: Terms, steps: seq<Step>, s: State, j: nat, k: nat, i: nat)
    requires Reached(n, t, steps, s) && j <= k < |s.quoted| && s.quoted[k].Some?
    ensures s.quoted[j].Some? && 0.0 < s.quoted[k].value <= s.quoted[j].value
    ensures i < |s.net| && s.net[i].item.phase == QUERY ==>
      IsOffer(s.net[i].item.payload) && OfferPrice(s.net[i].item.payload) == t.price
  {
    RunInv(n, t, steps);
    LastQuoteIsLeast(s, t, j, k);
    if i < |s.net| && s.net[i].item.phase == QUERY {
      assert PacketOk(s, t, s.net[i]);
      SamePrice(s.net[i].item.payload, t.price);
    }
  }
}
