/** Other transactions at a node of a commit chain: their rollbacks take contracts off the list that
    the chain's contracts are in (TransactionManager.cpp, timeout; BtcContract.cpp, rmContract). */
module Siblings {
  import opened Common
  import opened Contracts
  import opened Managers
  import opened CommitChain
  import opened CommitChainProofs

  /** A step of the chain, or a removal by another transaction at the node that is watched. */
  datatype Event = ChainStep(step: Step) | Removal(arg: Contract)

  /** The chain, and the contracts listed at the watched node. */
  datatype Joint = Joint(s: State, l: Ledger)

  function Happens(x: Joint, event: Event): Joint {
    match event
    case ChainStep(step) => x.(s := Next(x.s, step))
    case Removal(arg) => x.(l := Remove(x.l, arg))
  }

  function AllHappen(x: Joint, events: seq<Event>): Joint
    decreases |events|
  {
    if events == [] then x else Happens(AllHappen(x, events[..|events| - 1]), events[|events| - 1])
  }

  /** The chain's steps among the events. */
  function StepsOf(events: seq<Event>): seq<Step>
    decreases |events|
  {
    if events == [] then []
    else
      StepsOf(events[..|events| - 1]) +
      match events[|events| - 1]
      case ChainStep(step) => [step]
      case Removal(_) => []
  }

  // ---- The buyer commits to a real Bitcoin TX ----

  ghost predicate BuyerNamesTx(s: State) {
    |s.nodes| > 0 && (IsActive(s.nodes[0].payer) ==> s.nodes[0].payer.value.txId != NoTx)
  }

  lemma StepNamesTx(s: State, t: Terms, step: Step)
    requires Inv(s, t) && BuyerNamesTx(s)
    ensures BuyerNamesTx(Next(s, step))
  {
    if step.Deliver? && Enabled(s, step) && s.net[step.i].to == 0 {
      assert NodeOk(s, t, 0) && PacketOk(s, t, s.net[step.i]);
    }
  }

  lemma {:induction false} RunNamesTx(n: nat, t: Terms, steps: seq<Step>)
    requires n >= 1 && UsableTerms(t)
    ensures BuyerNamesTx(Run(Start(n, t), steps))
  {
    if steps != [] {
      var init := steps[..|steps| - 1];
      RunNamesTx(n, t, init);
      RunInv(n, t, init);
      StepNamesTx(Run(Start(n, t), init), t, steps[|steps| - 1]);
    }
  }

  /** Every contract in force names a Bitcoin TX, that of the seller's vote. */
  lemma CommittedNamesTx(n: nat, t: Terms, steps: seq<Step>, s: State, j: nat, c: Contract)
    requires Reached(n, t, steps, s) && j < |s.nodes| && c.activated
    requires s.nodes[j].payer == Some(c) || s.nodes[j].payee == Some(c)
    ensures s.ballot.Some? && c.txId == s.ballot.value.txId != NoTx
  {
    RunNamesTx(n, t, steps);
    RunKeepsLength(n, t, steps);
    CommittedAgree(n, t, steps, s, j, c);
    CommittedIsAPrefix(n, t, steps, s, 0, j);
    CommittedAgree(n, t, steps, s, 0, s.nodes[0].payer.value);
  }

  // ---- Committed contracts survive ----

  /** A removal for another transaction: before its own vote it carries no TX, then a TX of its own. */
  predicate Foreign(arg: Contract, c: Contract) { arg.txId == NoTx || arg.txId != c.txId }

  lemma RemovalSpares(l: Ledger, arg: Contract, c: Contract)
    requires c in l.contracts && c.txId != NoTx && Foreign(arg, c)
    ensures c in Remove(l, arg).contracts
  {
    var i :| 0 <= i < |l.contracts| && l.contracts[i] == c;
    RemoveSparesIff(l, arg, i);
  }

  /** Whatever happens after a node has committed, on the chain (aborts, timeouts, late items) and in
      the node's other transactions (any rollbacks, before or after their votes): its contract stays
      as activated, for the chain and in the node's list. */
  lemma {:induction false} CommittedContractsSurvive(n: nat, t: Terms, steps: seq<Step>, x: Joint,
                                                     events: seq<Event>, j: nat, c: Contract)
    requires Reached(n, t, steps, x.s) && j < |x.s.nodes| && c.activated && c in x.l.contracts
    requires x.s.nodes[j].payer == Some(c) || x.s.nodes[j].payee == Some(c)
    requires forall k :: 0 <= k < |events| && events[k].Removal? ==> Foreign(events[k].arg, c)
    ensures var y := AllHappen(x, events);
      && Reached(n, t, steps + StepsOf(events), y.s) && c in y.l.contracts
      && |y.s.nodes| == |x.s.nodes|
      && y.s.nodes[j].payer == x.s.nodes[j].payer && y.s.nodes[j].payee == x.s.nodes[j].payee
    decreases |events|
  {
    if events == [] {
      assert steps + [] == steps;
    } else {
      var init, last := events[..|events| - 1], events[|events| - 1];
      var y := AllHappen(x, init);
      CommittedContractsSurvive(n, t, steps, x, init, j, c);
      match last {
        case ChainStep(step) =>
          var all := steps + StepsOf(events);
          assert all == (steps + StepsOf(init)) + [step];
          assert all[..|all| - 1] == steps + StepsOf(init);
          StepKeepsReached(n, t, steps + StepsOf(init), y.s, step, j);
        case Removal(arg) =>
          assert StepsOf(events) == StepsOf(init);
          CommittedNamesTx(n, t, steps, x.s, j, c);
          RemovalSpares(y.l, arg, c);
      }
    }
  }
}
