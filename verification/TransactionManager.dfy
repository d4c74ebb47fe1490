/** The registry of running transactions at one node, and how it treats its managers
    (TransactionManager.cpp). Managers are values here; ContractManagers has them as objects. */
module Dispatching {
  import opened Common
  import opened Managers
  import opened CommitChain
  import opened Contracts
  import opened Accounts
  import opened LedgerEffects
  import opened Sums

  /** The transaction an item belongs to: the order it is addressed to and the payer's id. */
  type TxKey = (OrderId, OrderId)

  function TxOf(item: Item): TxKey { (item.address, item.payerId) }

  function Lookup(txs: map<TxKey, Manager>, k: TxKey): Option<Manager> {
    if k in txs then Some(txs[k]) else None
  }

  /** The chain's view of this node for one transaction. */
  function NodeFor(txs: map<TxKey, Manager>, k: TxKey, tunnel: Tunnel): Node {
    Node(Lookup(txs, k), None, None, tunnel, false)
  }

  // ---- Rollbacks ----

  /** The contracts a manager's rollback takes off the list, in its order. */
  function Removals(m: Manager): seq<Op> {
    match m
    case AsCoordinator(c) => RemovalOf(c.payer)
    case AsHop(h) => RemovalOf(h.payer) + RemovalOf(h.payee)
    case AsPayee(p) => RemovalOf(p.payee)
  }

  function RemovalOf(c: Option<Contract>): seq<Op> { if c.None? then [] else [OpRemove(c.value)] }

  /** What the rollback of a transaction about order `id` does to the node's ledger and to the
      commitment of an order of its own. */
  function RolledBack(m: Manager, id: OrderId, l: Ledger, orders: map<OrderId, SellOrder>)
    : (Ledger, map<OrderId, SellOrder>)
  {
    match m
    case AsCoordinator(c) => (if c.payer.None? then l else Remove(l, c.payer.value), orders)
    case AsHop(h) => (HopRolledBack(l, h), orders)
    case AsPayee(p) =>
      (PayeeRolledBack(l, p),
       if id in orders then orders[id := PayeeRollback(p, orders[id]).1] else orders)
  }

  function AllRolledBack(txs: map<TxKey, Manager>, gone: seq<TxKey>, l: Ledger, orders: map<OrderId, SellOrder>)
    : (Ledger, map<OrderId, SellOrder>)
    requires forall k :: k in gone ==> k in txs
    decreases |gone|
  {
    if gone == [] then (l, orders)
    else
      var (l', orders') := AllRolledBack(txs, gone[..|gone| - 1], l, orders);
      RolledBack(txs[gone[|gone| - 1]], gone[|gone| - 1].0, l', orders')
  }

  function AllRemovals(txs: map<TxKey, Manager>, gone: seq<TxKey>): seq<Op>
    requires forall k :: k in gone ==> k in txs
    decreases |gone|
  {
    if gone == [] then []
    else AllRemovals(txs, gone[..|gone| - 1]) + Removals(txs[gone[|gone| - 1]])
  }

  lemma {:induction false} RunOpsConcat(l: Ledger, a: seq<Op>, b: seq<Op>)
    ensures RunOps(l, a + b) == RunOps(RunOps(l, a), b)
    decreases |a|
  {
    if a == [] {
      assert a + b == b;
    } else {
      assert (a + b)[1..] == a[1..] + b;
      RunOpsConcat(Apply(l, a[0]), a[1..], b);
    }
  }

  lemma OneOp(l: Ledger, op: Op)
    ensures RunOps(l, [op]) == Apply(l, op)
  {
    assert [op][1..] == [];
  }

  lemma RollbackIsRemovals(m: Manager, id: OrderId, l: Ledger, orders: map<OrderId, SellOrder>)
    ensures RolledBack(m, id, l, orders).0 == RunOps(l, Removals(m))
  {
    match m
    case AsCoordinator(c) =>
      if c.payer.Some? {
        OneOp(l, OpRemove(c.payer.value));
      }
    case AsHop(h) =>
      RunOpsConcat(l, RemovalOf(h.payer), RemovalOf(h.payee));
      if h.payer.Some? {
        OneOp(l, OpRemove(h.payer.value));
      }
      if h.payee.Some? {
        OneOp(RunOps(l, RemovalOf(h.payer)), OpRemove(h.payee.value));
      }
    case AsPayee(p) =>
      if p.payee.Some? {
        OneOp(l, OpRemove(p.payee.value));
      }
  }

  lemma {:induction false} RollbacksAreRemovals(txs: map<TxKey, Manager>, gone: seq<TxKey>, l: Ledger,
                                                orders: map<OrderId, SellOrder>)
    requires forall k :: k in gone ==> k in txs
    ensures AllRolledBack(txs, gone, l, orders).0 == RunOps(l, AllRemovals(txs, gone))
    ensures forall i :: 0 <= i < |AllRemovals(txs, gone)| ==> AllRemovals(txs, gone)[i].OpRemove?
    decreases |gone|
  {
    if gone != [] {
      var init, m := gone[..|gone| - 1], txs[gone[|gone| - 1]];
      RollbacksAreRemovals(txs, init, l, orders);
      var (l', orders') := AllRolledBack(txs, init, l, orders);
      RollbackIsRemovals(m, gone[|gone| - 1].0, l', orders');
      RunOpsConcat(l, AllRemovals(txs, init), Removals(m));
    }
  }

  lemma {:induction false} RemovalsAreProper(l: Ledger, ops: seq<Op>)
    requires forall i :: 0 <= i < |ops| ==> ops[i].OpRemove?
    ensures ProperRun(l, ops)
    decreases |ops|
  {
    if ops != [] {
      RemovalsAreProper(Apply(l, ops[0]), ops[1..]);
    }
  }

  /** The timeouts of any managers keep every friend's allocation accounted for, at every moment, if
      and only if each contract that is rolled back is found on its own side. */
  lemma TimeoutsConserveIff(txs: map<TxKey, Manager>, gone: seq<TxKey>, l: Ledger, orders: map<OrderId, SellOrder>)
    requires Sound(l) && forall k :: k in gone ==> k in txs
    ensures var ops := AllRemovals(txs, gone);
      && (AlwaysConserved(l, ops) <==> SidesRespected(l, ops))
      && (SidesRespected(l, ops) ==> Sound(AllRolledBack(txs, gone, l, orders).0))
  {
    RollbacksAreRemovals(txs, gone, l, orders);
    RemovalsAreProper(l, AllRemovals(txs, gone));
    AllocationConserved(l, AllRemovals(txs, gone));
  }

  // ---- What timeouts give back ----

  function AsSet(c: Option<Contract>): set<Contract> { if c.None? then {} else {c.value} }

  function HeldBy(m: Manager): set<Contract> { AsSet(PayerOf(m)) + AsSet(PayeeOf(m)) }

  /** All contracts in the hands of the given managers. */
  function AllHeld(txs: map<TxKey, Manager>, gone: seq<TxKey>): set<Contract>
    requires forall k :: k in gone ==> k in txs
    decreases |gone|
  {
    if gone == [] then {} else AllHeld(txs, gone[..|gone| - 1]) + HeldBy(txs[gone[|gone| - 1]])
  }

  function Except(gone: set<Contract>): Contract -> bool { (c: Contract) => c !in gone }

  /** Of the contracts with its friend and Bitcoin TX at most this one is listed, and that once. */
  ghost predicate Unshared(cs: seq<Contract>, c: Contract) {
    forall i, j :: 0 <= i < |cs| && 0 <= j < |cs| && SameKey(cs[i], c) && SameKey(cs[j], c) ==> i == j && cs[i] == c
  }

  /** The friend's available credit, with what our contracts hold back of it. */
  function Granted(l: Ledger, k: Key): real {
    PeerAvailable(Row(l.peers, k)) + SumBy(l.contracts, ShareOf(k))
  }

  /** Accounts change only by what contracts no longer hold back. */
  ghost predicate OnlyGivesBack(l: Ledger, l': Ledger) {
    && l'.peers.Keys == l.peers.Keys
    && forall k :: k in l.peers ==>
         l'.peers[k] == l.peers[k].(allocation := l'.peers[k].allocation) && Granted(l', k) == Granted(l, k)
  }

  /** Exactly these contracts leave the list, and take with them what they held back. */
  ghost predicate Released(l: Ledger, gone: set<Contract>, l': Ledger) {
    (forall c :: c in gone ==> Unshared(l.contracts, c)) ==>
      l'.contracts == Where(l.contracts, Except(gone)) && OnlyGivesBack(l, l')
  }

  lemma RemoveReleases(l: Ledger, c: Contract)
    requires Unshared(l.contracts, c)
    ensures Remove(l, c).contracts == Where(l.contracts, Except({c})) && OnlyGivesBack(l, Remove(l, c))
  {
    var i := FirstMatch(l.contracts, c.counterParty, c.txId);
    if i < |l.contracts| {
      RemoveHitsItsArgument(l, i, c);
      WhereAllBut(l.contracts, i, Except({c}));
      forall k | k in l.peers ensures Granted(Remove(l, c), k) == Granted(l, k) {
        SumRemove(l.contracts, i, ShareOf(k));
      }
    } else {
      WhereAll(l.contracts, Except({c}));
    }
  }

  lemma {:induction false} UnsharedStays(cs: seq<Contract>, f: Contract -> bool, c: Contract)
    requires Unshared(cs, c)
    ensures Unshared(Where(cs, f), c)
  {
    if cs != [] {
      var rest := Where(cs[1..], f);
      assert forall i :: 0 <= i < |cs[1..]| ==> cs[1..][i] == cs[i + 1];
      UnsharedStays(cs[1..], f, c);
      if SameKey(cs[0], c) {
        forall i | 0 <= i < |rest| ensures !SameKey(rest[i], c) {
          WhereHas(cs[1..], f, rest[i]);
        }
      }
    }
  }

  /** What removals are asked to remove. */
  function Args(ops: seq<Op>): set<Contract> {
    if ops == [] then {} else (if ops[0].OpRemove? then {ops[0].arg} else {}) + Args(ops[1..])
  }

  lemma OneMoreReleased(l: Ledger, c: Contract, rest: set<Contract>, l': Ledger)
    requires Released(Remove(l, c), rest, l')
    ensures Released(l, {c} + rest, l')
  {
    if forall d :: d in {c} + rest ==> Unshared(l.contracts, d) {
      var l1 := Remove(l, c);
      RemoveReleases(l, c);
      forall d | d in rest ensures Unshared(l1.contracts, d) {
        UnsharedStays(l.contracts, Except({c}), d);
      }
      WhereTwice(l.contracts, Except({c}), Except(rest), Except({c} + rest));
    }
  }

  lemma {:induction false} RemovalsRelease(l: Ledger, ops: seq<Op>)
    requires forall i :: 0 <= i < |ops| ==> ops[i].OpRemove?
    ensures Released(l, Args(ops), RunOps(l, ops))
    decreases |ops|
  {
    if ops == [] {
      WhereAll(l.contracts, Except({}));
    } else {
      RemovalsRelease(Apply(l, ops[0]), ops[1..]);
      OneMoreReleased(l, ops[0].arg, Args(ops[1..]), RunOps(l, ops));
    }
  }

  lemma {:induction false} ArgsAreHeld(txs: map<TxKey, Manager>, gone: seq<TxKey>)
    requires forall k :: k in gone ==> k in txs
    ensures Args(AllRemovals(txs, gone)) == AllHeld(txs, gone)
    decreases |gone|
  {
    if gone != [] {
      ArgsAreHeld(txs, gone[..|gone| - 1]);
      ArgsConcat(AllRemovals(txs, gone[..|gone| - 1]), Removals(txs[gone[|gone| - 1]]));
      ArgsOfOne(txs[gone[|gone| - 1]]);
    }
  }

  lemma {:induction false} ArgsConcat(a: seq<Op>, b: seq<Op>)
    ensures Args(a + b) == Args(a) + Args(b)
  {
    if a == [] {
      assert a + b == b;
    } else {
      assert (a + b)[1..] == a[1..] + b;
      ArgsConcat(a[1..], b);
    }
  }

  lemma ArgsOfOne(m: Manager)
    ensures Args(Removals(m)) == HeldBy(m)
  {
    ArgsConcat(RemovalOf(PayerOf(m)), RemovalOf(PayeeOf(m)));
    assert Removals(m) == RemovalOf(PayerOf(m)) + RemovalOf(PayeeOf(m));
    assert forall c: Option<Contract> :: Args(RemovalOf(c)) == AsSet(c);
  }

  /** What the rollback of a transaction gives back to the order with the id. */
  function GivesTo(txs: map<TxKey, Manager>, id: OrderId): TxKey -> real {
    (k: TxKey) =>
      if k in txs && k.0 == id && txs[k].AsPayee? && PayeeOf(txs[k]).Some? then PayeeOf(txs[k]).value.btcAmount
      else 0.0
  }

  /** Every order gets back what was committed to the late sales, and stays as it is otherwise. */
  ghost predicate GivenBack(txs: map<TxKey, Manager>, gone: seq<TxKey>, orders: map<OrderId, SellOrder>,
                            orders': map<OrderId, SellOrder>)
  {
    forall id :: id in orders ==>
      && id in orders'
      && orders'[id] == orders[id].(commitment := orders[id].commitment - SumBy(gone, GivesTo(txs, id)))
  }

  lemma {:induction false} OrdersGetBack(txs: map<TxKey, Manager>, gone: seq<TxKey>, l: Ledger,
                                         orders: map<OrderId, SellOrder>, id: OrderId)
    requires id in orders && forall k :: k in gone ==> k in txs
    ensures var after := AllRolledBack(txs, gone, l, orders).1;
      id in after && after[id] == orders[id].(commitment := orders[id].commitment - SumBy(gone, GivesTo(txs, id)))
    decreases |gone|
  {
    if gone != [] {
      var init, k := gone[..|gone| - 1], gone[|gone| - 1];
      OrdersGetBack(txs, init, l, orders, id);
      assert gone == init + [k];
      SumAppend(init, k, GivesTo(txs, id));
    }
  }

  /** Timeouts take exactly the contracts of the late managers off the list, give back to the friends
      what these held back, and to our orders what was committed to the late sales. */
  lemma TimeoutsRelease(txs: map<TxKey, Manager>, gone: seq<TxKey>, l: Ledger, orders: map<OrderId, SellOrder>)
    requires forall k :: k in gone ==> k in txs
    ensures Released(l, AllHeld(txs, gone), AllRolledBack(txs, gone, l, orders).0)
    ensures GivenBack(txs, gone, orders, AllRolledBack(txs, gone, l, orders).1)
  {
    RollbacksAreRemovals(txs, gone, l, orders);
    RemovalsRelease(l, AllRemovals(txs, gone));
    ArgsAreHeld(txs, gone);
    forall id | id in orders
      ensures id in AllRolledBack(txs, gone, l, orders).1
      ensures AllRolledBack(txs, gone, l, orders).1[id] ==
        orders[id].(commitment := orders[id].commitment - SumBy(gone, GivesTo(txs, id)))
    {
      OrdersGetBack(txs, gone, l, orders, id);
    }
  }

  /** A no, or the request of another node, for a purchase of ours. */
  predicate BuyerMustAbort(m: Option<Manager>, item: Item) {
    m.Some? && m.value.AsCoordinator? && (item.phase == VOTE_NO || item.phase == ABORT_REQUEST)
  }

  class TransactionManagers {
    var currentTX: map<TxKey, Manager>

    constructor ()
      ensures currentTX == map[]
    {
      currentTX := map[];
    }

    /** Finds or makes the manager, lets it handle the item, and deletes it unless it reports
        success or throws. `isMine` tells that the order is in the index of our own. */
    method HandleTxItem(pk: Packet, tunnel: Tunnel, isMine: bool, env: Env) returns (h: Handled)
      modifies this
      ensures var before := NodeFor(old(currentTX), (pk.item.address, pk.item.payerId), tunnel);
        && h == Process(ManagerFor(before, isMine), tunnel, pk, env)
        && Lookup(currentTX, (pk.item.address, pk.item.payerId)) == NodeAfter(before, h, false).mgr
      ensures forall k :: k != (pk.item.address, pk.item.payerId) ==> Lookup(currentTX, k) == Lookup(old(currentTX), k)
      ensures BuyerMustAbort(old(Lookup(currentTX, TxOf(pk.item))), pk.item) ==>
        && TxOf(pk.item) !in currentTX && PayerOf(h.mgr).None? && |h.sends| == 1 && h.sends[0].item.phase == ABORT
    {
      var txId := TxOf(pk.item);
      if txId !in currentTX {
        var tm := if isMine then AsPayee(Payee(INIT, None)) else AsHop(Hop(INIT, None, None));
        currentTX := currentTX[txId := tm];
      }
      h := Process(currentTX[txId], tunnel, pk, env);
      currentTX := currentTX[txId := h.mgr];
      if h.outcome.Returns? && h.outcome.code != Success {
        currentTX := currentTX - {txId};
      }
    }

    /** Rolls back and deletes the managers whose phase has lasted too long, and no others: one after
        the other, in the order of the result, each as the registry had it. */
    method Timeout(late: set<TxKey>, l: Ledger, orders: map<OrderId, SellOrder>)
      returns (gone: seq<TxKey>, l': Ledger, orders': map<OrderId, SellOrder>)
      modifies this
      ensures forall k :: k in gone <==> k in late && k in old(currentTX)
      ensures forall i, j :: 0 <= i < j < |gone| ==> gone[i] != gone[j]
      ensures (l', orders') == AllRolledBack(old(currentTX), gone, l, orders)
      ensures Released(l, AllHeld(old(currentTX), gone), l')
      ensures GivenBack(old(currentTX), gone, orders, orders')
      ensures forall k :: Lookup(currentTX, k) == if k in late then None else Lookup(old(currentTX), k)
    {
      var todo := currentTX.Keys;
      gone, l', orders' := [], l, orders;
      while todo != {}
        invariant todo <= old(currentTX.Keys)
        invariant forall k :: k in gone <==> k in late && k in old(currentTX) && k !in todo
        invariant forall i, j :: 0 <= i < j < |gone| ==> gone[i] != gone[j]
        invariant (l', orders') == AllRolledBack(old(currentTX), gone, l, orders)
        invariant forall k ::
          Lookup(currentTX, k) == (if k in late && k !in todo then None else Lookup(old(currentTX), k))
        decreases |todo|
      {
        var k :| k in todo;
        todo := todo - {k};
        if k in late {
          assert Lookup(currentTX, k) == Lookup(old(currentTX), k);
          l', orders' := RolledBack(currentTX[k], k.0, l', orders').0, RolledBack(currentTX[k], k.0, l', orders').1;
          currentTX := currentTX - {k};
          gone := gone + [k];
        }
      }
      TimeoutsRelease(old(currentTX), gone, l, orders);
    }
  }
}
