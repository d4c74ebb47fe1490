/** One sell order and all the payee transactions that draw on it, interleaved in any way
    (TmContract.cpp, payee side; OrderBook.cpp, timeoutOrders). */
module SellOrders {
  import opened Common
  import opened Sums
  import opened Contracts
  import opened Managers
  import OrderBooks

  /** A payee transaction: its manager, whether that is still registered, and (history) whether
      its contract got past the checks and was reserved on the order. */
  datatype Sale = Sale(mgr: Payee, live: bool, reserved: bool)

  /** `listed` tells that the order is in the index of our own and on its side of the book, `alive`
      that the order object exists: a cancelled order is no longer listed, but its running
      transactions go on with the object. The rest is history: `leaks`, what rollbacks subtracted
      from the commitment for contracts that had reserved nothing; `sold`, the amounts of the
      contracts whose COMMIT was broadcast; `filled`, that such a sale was the order's last. */
  datatype State = State(order: SellOrder, listed: bool, alive: bool, txs: seq<Sale>, leaks: seq<real>,
                         sold: seq<real>, filled: bool)

  datatype Step =
    | Query(item: Item, from: Peer, at: Surroundings, rawTx: Option<TxId>)
    | Deliver(i: nat, item: Item, from: Peer, at: Surroundings, rawTx: Option<TxId>)
    | Timeout(i: nat)
    | TimeoutOrders(age: int)
    | Cancel

  function Start(o: SellOrder): State { State(o, true, true, [], [], [], false) }

  /** The contract is made and passes every check before the reservation. */
  predicate Passes(m: Payee, o: SellOrder, item: Item, at: Surroundings) {
    && item.phase == QUERY && m.phase == INIT && IsOffer(item.payload)
    && Capped(item.payload.btcAmount, item.payload.fee, OfferPrice(item.payload), at.available).Some?
    && o.currency == item.payload.currency && o.price <= OfferPrice(item.payload) && Leftover(o) != 0.0
  }

  /** A rollback at this transaction would subtract something that was never added. */
  predicate Leaky(tx: Sale) { tx.live && tx.mgr.payee.Some? && !tx.reserved }

  function Leak(tx: Sale): seq<real> {
    if Leaky(tx) then [tx.mgr.payee.value.btcAmount] else []
  }

  /** handleTxItem at the i-th transaction. */
  function Handle(s: State, i: nat, item: Item, from: Peer, at: Surroundings, rawTx: Option<TxId>): State
    requires i < |s.txs|
  {
    var tx := s.txs[i];
    var r := PayeeProcess(tx.mgr, s.order, item, from, at, rawTx);
    var live := r.outcome.Throws? || r.outcome.code == Success;
    var sold := if r.broadcast && tx.mgr.payee.Some? then [tx.mgr.payee.value.btcAmount] else [];
    var filled := r.broadcast && FillsOrder(s.order, r.mgr.payee.value.btcAmount);
    State(r.order, s.listed && !filled, s.alive && !filled,
          s.txs[i := Sale(r.mgr, live, tx.reserved || Passes(tx.mgr, s.order, item, at))],
          s.leaks + if item.phase == ABORT then Leak(tx) else [], s.sold + sold, s.filled || filled)
  }

  function Next(s: State, step: Step): State {
    if !s.alive then s
    else match step
      case Query(item, from, at, rawTx) =>
        if item.phase != QUERY || !s.listed then s
        else
          Handle(s.(txs := s.txs + [Sale(Payee(INIT, None), true, false)]), |s.txs|, item, from, at, rawTx)
      case Deliver(i, item, from, at, rawTx) =>
        if i < |s.txs| && s.txs[i].live then Handle(s, i, item, from, at, rawTx) else s
      case Timeout(i) =>
        if i < |s.txs| && s.txs[i].live then
          var (m, o) := PayeeRollback(s.txs[i].mgr, s.order);
          s.(order := o, txs := s.txs[i := s.txs[i].(mgr := m, live := false)], leaks := s.leaks + Leak(s.txs[i]))
        else s
      case TimeoutOrders(age) =>
        if s.listed && OrderBooks.Expires(age, s.order.commitment) then s.(listed := false, alive := false) else s
      case Cancel => s.(listed := false)
  }

  function Run(s: State, steps: seq<Step>): State
    decreases |steps|
  {
    if steps == [] then s else Run(Next(s, steps[0]), steps[1..])
  }

  // ---- The invariant ----

  /** What a live transaction holds on the order. */
  function Held(tx: Sale): real {
    if tx.live && tx.reserved && tx.mgr.payee.Some? then tx.mgr.payee.value.btcAmount else 0.0
  }

  function Amount(x: real): real { x }

  ghost predicate TxOk(o: SellOrder, tx: Sale) {
    && (tx.live && tx.mgr.payee.Some? ==>
         && tx.mgr.payee.value.btcAmount > 0.0
         && (tx.reserved <==> tx.mgr.payee.value.currency == o.currency))
    && (tx.live && tx.mgr.phase == QUERY ==> tx.mgr.payee.Some? && tx.reserved)
    && (tx.live && tx.mgr.phase == INIT ==> tx.mgr.payee.None? && !tx.reserved)
  }

  /** The books balance up to the leaks; once the order is gone nothing is held on it, unless
      something leaked before. */
  ghost predicate Inv(s: State) {
    && (forall i :: 0 <= i < |s.txs| ==> TxOk(s.order, s.txs[i]))
    && (forall i :: 0 <= i < |s.leaks| ==> s.leaks[i] > 0.0)
    && s.order.commitment <= s.order.amount
    && (if s.alive then s.order.commitment + SumBy(s.leaks, Amount) == SumBy(s.txs, Held)
        else s.leaks == [] ==> SumBy(s.txs, Held) == 0.0)
  }

  /** What handling an item does to the books, seen from the one transaction. */
  lemma ProcessBalances(m: Payee, o: SellOrder, tx: Sale, item: Item, from: Peer, at: Surroundings, rawTx: Option<TxId>)
    requires tx.live && TxOk(o, tx) && m == tx.mgr && o.commitment <= o.amount
    ensures
      var r := PayeeProcess(m, o, item, from, at, rawTx);
      var live := r.outcome.Throws? || r.outcome.code == Success;
      var tx' := Sale(r.mgr, live, tx.reserved || Passes(m, o, item, at));
      && TxOk(o, tx') && r.order.currency == o.currency && r.order.commitment <= r.order.amount
      && (r.broadcast ==>
           && m.phase == QUERY && tx.reserved && r.mgr.payee.Some? && !live
           && r.mgr.payee.value.btcAmount == m.payee.value.btcAmount)
      && (!(r.broadcast && FillsOrder(o, r.mgr.payee.value.btcAmount)) ==>
           r.order.commitment - o.commitment ==
             Held(tx') - Held(tx) - if item.phase == ABORT && Leaky(tx) then tx.mgr.payee.value.btcAmount else 0.0)
  {
    if item.phase == QUERY && m.phase == INIT && IsOffer(item.payload) {
      CappedIsLargest(item.payload.btcAmount, item.payload.fee, OfferPrice(item.payload), at.available, 0.0);
    }
  }

  lemma LeaksAppend(s: State, tx: Sale)
    requires Inv(s) && TxOk(s.order, tx)
    ensures SumBy(s.leaks + Leak(tx), Amount) ==
      SumBy(s.leaks, Amount) + if Leaky(tx) then tx.mgr.payee.value.btcAmount else 0.0
    ensures forall i :: 0 <= i < |s.leaks + Leak(tx)| ==> (s.leaks + Leak(tx))[i] > 0.0
  {
    if Leaky(tx) {
      SumAppend(s.leaks, tx.mgr.payee.value.btcAmount, Amount);
    } else {
      assert s.leaks + [] == s.leaks;
    }
  }

  /** Nothing else is held when one transaction holds all there is. */
  lemma HoldsItAll(s: State, i: nat)
    requires Inv(s) && s.alive && s.leaks == [] && i < |s.txs| && Held(s.txs[i]) >= s.order.amount
    ensures SumBy(s.txs, Held) == Held(s.txs[i])
    ensures forall k :: 0 <= k < |s.txs| && k != i ==> Held(s.txs[k]) == 0.0
  {
    SumAtLeastTerm(s.txs, i, Held);
    forall k | 0 <= k < |s.txs| && k != i ensures Held(s.txs[k]) == 0.0 {
      var others := s.txs[i := Sale(Payee(INIT, None), false, false)];
      SumUpdate(s.txs, i, others[i], Held);
      SumAtLeastTerm(others, k, Held);
    }
  }

  lemma HandleKeepsInv(s: State, i: nat, item: Item, from: Peer, at: Surroundings, rawTx: Option<TxId>)
    requires Inv(s) && s.alive && i < |s.txs| && s.txs[i].live
    ensures Inv(Handle(s, i, item, from, at, rawTx))
  {
    var s' := Handle(s, i, item, from, at, rawTx);
    var tx := s.txs[i];
    assert TxOk(s.order, tx);
    ProcessBalances(tx.mgr, s.order, tx, item, from, at, rawTx);
    SumUpdate(s.txs, i, s'.txs[i], Held);
    if item.phase == ABORT {
      LeaksAppend(s, tx);
    } else {
      assert s.leaks + [] == s.leaks;
    }
    if !s'.alive && s.leaks == [] {
      HoldsItAll(s, i);
    }
    forall k | 0 <= k < |s'.txs| ensures TxOk(s'.order, s'.txs[k]) {
      assert k != i ==> TxOk(s.order, s.txs[k]);
    }
  }

  lemma TimeoutKeepsInv(s: State, i: nat)
    requires Inv(s) && s.alive && i < |s.txs| && s.txs[i].live
    ensures Inv(Next(s, Timeout(i)))
  {
    var s' := Next(s, Timeout(i));
    assert TxOk(s.order, s.txs[i]);
    LeaksAppend(s, s.txs[i]);
    SumUpdate(s.txs, i, s'.txs[i], Held);
    forall k | 0 <= k < |s'.txs| ensures TxOk(s'.order, s'.txs[k]) {
      assert k != i ==> TxOk(s.order, s.txs[k]);
    }
  }

  lemma NextKeepsInv(s: State, step: Step)
    requires Inv(s)
    ensures Inv(Next(s, step))
  {
    if s.alive {
      match step
      case Query(item, from, at, rawTx) =>
        var added := Sale(Payee(INIT, None), true, false);
        SumAppend(s.txs, added, Held);
        if item.phase == QUERY {
          HandleKeepsInv(s.(txs := s.txs + [added]), |s.txs|, item, from, at, rawTx);
        }
      case Deliver(i, item, from, at, rawTx) =>
        if i < |s.txs| && s.txs[i].live {
          HandleKeepsInv(s, i, item, from, at, rawTx);
        }
      case Timeout(i) =>
        if i < |s.txs| && s.txs[i].live {
          TimeoutKeepsInv(s, i);
        }
      case TimeoutOrders(age) =>
      case Cancel =>
    }
  }

  lemma {:induction false} RunKeepsInv(s: State, steps: seq<Step>)
    requires Inv(s)
    ensures Inv(Run(s, steps))
    decreases |steps|
  {
    if steps != [] {
      NextKeepsInv(s, steps[0]);
      RunKeepsInv(Next(s, steps[0]), steps[1..]);
    }
  }

  lemma StartInv(o: SellOrder)
    requires 0.0 == o.commitment <= o.amount
    ensures Inv(Start(o))
  {
  }

  // ---- Rollbacks in the wrong currency ----

  /** The contract of a live transaction is not in the order's currency, which the manager could
      test before it subtracts. */
  predicate InOtherCurrency(tx: Sale, o: SellOrder) {
    tx.live && tx.mgr.payee.Some? && tx.mgr.payee.value.currency != o.currency
  }

  /** The step rolls back (by timeout or ABORT) a transaction in another currency. */
  predicate RollsBackWrongly(s: State, step: Step) {
    s.alive && match step
    case Query(_, _, _, _) => false
    case Deliver(i, item, _, _, _) => item.phase == ABORT && i < |s.txs| && InOtherCurrency(s.txs[i], s.order)
    case Timeout(i) => i < |s.txs| && InOtherCurrency(s.txs[i], s.order)
    case TimeoutOrders(_) => false
    case Cancel => false
  }

  /** No step of the run rolls back a transaction in another currency. */
  ghost predicate RollbacksAreRight(s: State, steps: seq<Step>)
    decreases |steps|
  {
    steps != [] ==> !RollsBackWrongly(s, steps[0]) && RollbacksAreRight(Next(s, steps[0]), steps[1..])
  }

  lemma {:induction false} RunLeaks(s: State, steps: seq<Step>)
    requires Inv(s)
    ensures |Run(s, steps).leaks| >= |s.leaks|
    ensures |Run(s, steps).leaks| == |s.leaks| <==> RollbacksAreRight(s, steps)
    decreases |steps|
  {
    if steps != [] {
      NextKeepsInv(s, steps[0]);
      RunLeaks(Next(s, steps[0]), steps[1..]);
    }
  }

  lemma RunFacts(o: SellOrder, steps: seq<Step>)
    requires 0.0 == o.commitment <= o.amount
    ensures Inv(Run(Start(o), steps))
    ensures Run(Start(o), steps).leaks == [] <==> RollbacksAreRight(Start(o), steps)
  {
    StartInv(o);
    RunKeepsInv(Start(o), steps);
    RunLeaks(Start(o), steps);
  }

  // ---- Main results ----

  /** Reservation conservation, exactly. Over every interleaving of payee transactions on a fresh
      order that still exists, the commitment equals what the live transactions hold if and only
      if every transaction rolled back on the way had its contract in the order's currency. */
  lemma CommitmentIsWhatIsHeldIff(o: SellOrder, steps: seq<Step>)
    requires 0.0 == o.commitment <= o.amount && Run(Start(o), steps).alive
    ensures
      var s := Run(Start(o), steps);
      s.order.commitment == SumBy(s.txs, Held) <==> RollbacksAreRight(Start(o), steps)
  {
    RunFacts(o, steps);
    var s := Run(Start(o), steps);
    if s.leaks != [] {
      SumAtLeastTerm(s.leaks, 0, Amount);
    }
  }

  /** With right rollbacks only the order is never over- or undercommitted. */
  lemma CommitmentInRange(o: SellOrder, steps: seq<Step>)
    requires 0.0 == o.commitment <= o.amount && Run(Start(o), steps).alive
    requires RollbacksAreRight(Start(o), steps)
    ensures 0.0 <= Run(Start(o), steps).order.commitment <= Run(Start(o), steps).order.amount
  {
    RunFacts(o, steps);
    var s := Run(Start(o), steps);
    SumNonNegative(s.txs, Held);
  }

  /** The order is deleted, by a sale that fills it or by its age, only when no other transaction
      holds a reservation on it. */
  lemma DeletedOnlyWhenFree(o: SellOrder, steps: seq<Step>, k: nat)
    requires 0.0 == o.commitment <= o.amount && !Run(Start(o), steps).alive
    requires RollbacksAreRight(Start(o), steps) && k < |Run(Start(o), steps).txs|
    ensures Held(Run(Start(o), steps).txs[k]) == 0.0
  {
    RunFacts(o, steps);
    var s := Run(Start(o), steps);
    SumAtLeastTerm(s.txs, k, Held);
  }

  // ---- What is sold ----

  /** While the order exists, what is left of it and what was sold make up what was offered; a sale
      that fills the order, with the commitment in order, sells exactly the rest. */
  ghost predicate SalesOk(s: State, offered: real) {
    && (forall i :: 0 <= i < |s.sold| ==> s.sold[i] > 0.0)
    && (s.alive ==>
         && 0.0 <= s.order.amount && s.order.amount + SumBy(s.sold, Amount) == offered && !s.filled
         && (offered > 0.0 ==> s.order.amount > 0.0))
    && (!s.filled ==> SumBy(s.sold, Amount) <= offered && (offered > 0.0 ==> SumBy(s.sold, Amount) < offered))
    && (s.filled ==> SumBy(s.sold, Amount) >= offered)
  }

  /** What one item does to the order's amount: a broadcast sells the contract, all else leaves it. */
  lemma ProcessSells(m: Payee, o: SellOrder, tx: Sale, item: Item, from: Peer, at: Surroundings, rawTx: Option<TxId>)
    requires tx.live && TxOk(o, tx) && m == tx.mgr
    ensures
      var r := PayeeProcess(m, o, item, from, at, rawTx);
      && r.order.amount == o.amount -
           (if r.broadcast && r.mgr.payee.value.btcAmount < o.amount then m.payee.value.btcAmount else 0.0)
      && (r.broadcast <==> item.phase == COMMIT && m.phase == QUERY)
      && (r.broadcast ==>
           m.payee.Some? && r.mgr.payee.Some? && r.mgr.payee.value.btcAmount == m.payee.value.btcAmount > 0.0)
  {
  }

  lemma HandleKeepsSales(s: State, i: nat, item: Item, from: Peer, at: Surroundings, rawTx: Option<TxId>, offered: real)
    requires Inv(s) && SalesOk(s, offered) && s.alive && i < |s.txs| && s.txs[i].live
    ensures SalesOk(Handle(s, i, item, from, at, rawTx), offered)
  {
    var tx := s.txs[i];
    assert TxOk(s.order, tx);
    ProcessSells(tx.mgr, s.order, tx, item, from, at, rawTx);
    if item.phase == COMMIT && tx.mgr.phase == QUERY {
      SumAppend(s.sold, tx.mgr.payee.value.btcAmount, Amount);
    } else {
      assert s.sold + [] == s.sold;
    }
  }

  lemma NextKeepsSales(s: State, step: Step, offered: real)
    requires Inv(s) && SalesOk(s, offered)
    ensures SalesOk(Next(s, step), offered)
  {
    if s.alive {
      match step
      case Query(item, from, at, rawTx) =>
        var added := Sale(Payee(INIT, None), true, false);
        SumAppend(s.txs, added, Held);
        if item.phase == QUERY {
          HandleKeepsSales(s.(txs := s.txs + [added]), |s.txs|, item, from, at, rawTx, offered);
        }
      case Deliver(i, item, from, at, rawTx) =>
        if i < |s.txs| && s.txs[i].live {
          HandleKeepsSales(s, i, item, from, at, rawTx, offered);
        }
      case Timeout(i) =>
      case TimeoutOrders(age) =>
      case Cancel =>
    }
  }

  /** The step commits a contract for more than the order still has. */
  predicate Oversells(s: State, step: Step) {
    s.alive && match step
    case Deliver(i, item, _, _, _) =>
      && item.phase == COMMIT && i < |s.txs| && s.txs[i].live && s.txs[i].mgr.phase == QUERY
      && s.txs[i].mgr.payee.Some? && s.txs[i].mgr.payee.value.btcAmount > s.order.amount
    case _ => false
  }

  ghost predicate NeverOversells(s: State, steps: seq<Step>)
    decreases |steps|
  {
    steps != [] ==> !Oversells(s, steps[0]) && NeverOversells(Next(s, steps[0]), steps[1..])
  }

  lemma StepOversells(s: State, step: Step, offered: real)
    requires Inv(s) && SalesOk(s, offered) && SumBy(s.sold, Amount) <= offered
    ensures SumBy(Next(s, step).sold, Amount) <= offered <==> !Oversells(s, step)
    ensures Oversells(s, step) ==> !Next(s, step).alive
  {
    NextKeepsSales(s, step, offered);
    if Oversells(s, step) {
      assert TxOk(s.order, s.txs[step.i]);
      SumAppend(s.sold, s.txs[step.i].mgr.payee.value.btcAmount, Amount);
    } else if s.alive && step.Deliver? && step.i < |s.txs| && s.txs[step.i].live {
      assert TxOk(s.order, s.txs[step.i]);
      if s.txs[step.i].mgr.payee.Some? {
        SumAppend(s.sold, s.txs[step.i].mgr.payee.value.btcAmount, Amount);
      }
      assert s.sold + [] == s.sold;
    }
  }

  lemma {:induction false} DeletedStays(s: State, steps: seq<Step>)
    requires !s.alive
    ensures Run(s, steps) == s
    decreases |steps|
  {
    if steps != [] {
      DeletedStays(s, steps[1..]);
    }
  }

  lemma {:induction false} RunSells(s: State, steps: seq<Step>, offered: real)
    requires Inv(s) && SalesOk(s, offered) && SumBy(s.sold, Amount) <= offered
    ensures SalesOk(Run(s, steps), offered)
    ensures SumBy(Run(s, steps).sold, Amount) <= offered <==> NeverOversells(s, steps)
    decreases |steps|
  {
    if steps != [] {
      var s' := Next(s, steps[0]);
      NextKeepsInv(s, steps[0]);
      NextKeepsSales(s, steps[0], offered);
      StepOversells(s, steps[0], offered);
      if Oversells(s, steps[0]) {
        DeletedStays(s', steps[1..]);
      } else {
        RunSells(s', steps[1..], offered);
      }
    }
  }

  /** With nothing leaked a contract that can be committed is reserved on the order. */
  lemma ReservedIsCovered(s: State, step: Step)
    requires Inv(s) && s.leaks == []
    ensures !Oversells(s, step)
  {
    if Oversells(s, step) {
      assert TxOk(s.order, s.txs[step.i]);
      SumAtLeastTerm(s.txs, step.i, Held);
    }
  }

  lemma {:induction false} RightRunsNeverOversell(s: State, steps: seq<Step>)
    requires Inv(s) && s.leaks == [] && RollbacksAreRight(s, steps)
    ensures NeverOversells(s, steps)
    decreases |steps|
  {
    if steps != [] {
      ReservedIsCovered(s, steps[0]);
      NextKeepsInv(s, steps[0]);
      RightRunsNeverOversell(Next(s, steps[0]), steps[1..]);
    }
  }

  /** In every run: while the order exists, what is left of it and what was broadcast make up what
      was offered. */
  lemma LeftAndSoldIsOffered(o: SellOrder, steps: seq<Step>)
    requires 0.0 == o.commitment <= o.amount && Run(Start(o), steps).alive
    ensures var s := Run(Start(o), steps); s.order.amount + SumBy(s.sold, Amount) == o.amount
  {
    StartInv(o);
    RunSells(Start(o), steps, o.amount);
  }

  /** The seller sells no more than it offered if and only if no COMMIT finds a contract for more than
      the order still has. */
  lemma SellsWithinOfferIff(o: SellOrder, steps: seq<Step>)
    requires 0.0 == o.commitment <= o.amount
    ensures SumBy(Run(Start(o), steps).sold, Amount) <= o.amount <==> NeverOversells(Start(o), steps)
  {
    StartInv(o);
    RunSells(Start(o), steps, o.amount);
  }

  /** With right rollbacks only the seller never sells more than it offered, and the sale that takes
      the order out of the book is the one that makes up exactly what was offered. */
  lemma RightRunsSellTheOffer(o: SellOrder, steps: seq<Step>)
    requires 0.0 == o.commitment < o.amount && RollbacksAreRight(Start(o), steps)
    ensures var s := Run(Start(o), steps);
      SumBy(s.sold, Amount) <= o.amount && (s.filled <==> SumBy(s.sold, Amount) == o.amount)
  {
    StartInv(o);
    RightRunsNeverOversell(Start(o), steps);
    RunSells(Start(o), steps, o.amount);
  }

  // ---- Offers in the order's currency ----

  /** An offer the step delivers is in the given currency. */
  predicate OffersIn(step: Step, currency: Currency) {
    (step.Query? || step.Deliver?) && step.item.payload.Offer? ==> step.item.payload.currency == currency
  }

  ghost predicate AllInCurrency(s: State) {
    forall i :: 0 <= i < |s.txs| && s.txs[i].mgr.payee.Some? ==> s.txs[i].mgr.payee.value.currency == s.order.currency
  }

  lemma ProcessKeepsCurrency(m: Payee, o: SellOrder, item: Item, from: Peer, at: Surroundings, rawTx: Option<TxId>)
    requires m.payee.Some? ==> m.payee.value.currency == o.currency
    requires item.payload.Offer? ==> item.payload.currency == o.currency
    ensures var r := PayeeProcess(m, o, item, from, at, rawTx);
      r.order.currency == o.currency && (r.mgr.payee.Some? ==> r.mgr.payee.value.currency == o.currency)
  {
  }

  lemma NextKeepsCurrency(s: State, step: Step)
    requires AllInCurrency(s) && OffersIn(step, s.order.currency)
    ensures AllInCurrency(Next(s, step)) && Next(s, step).order.currency == s.order.currency
  {
    if s.alive {
      match step
      case Query(item, from, at, rawTx) => ProcessKeepsCurrency(Payee(INIT, None), s.order, item, from, at, rawTx);
      case Deliver(i, item, from, at, rawTx) =>
        if i < |s.txs| {
          ProcessKeepsCurrency(s.txs[i].mgr, s.order, item, from, at, rawTx);
        }
      case Timeout(i) =>
      case TimeoutOrders(age) =>
      case Cancel =>
    }
  }

  lemma {:induction false} OneCurrencyIsRight(s: State, steps: seq<Step>)
    requires AllInCurrency(s) && forall k :: 0 <= k < |steps| ==> OffersIn(steps[k], s.order.currency)
    ensures RollbacksAreRight(s, steps)
    decreases |steps|
  {
    if steps != [] {
      NextKeepsCurrency(s, steps[0]);
      OneCurrencyIsRight(Next(s, steps[0]), steps[1..]);
    }
  }

  /** Buyers that offer the order's own currency keep its books, whatever else they do: the
      commitment is what is held and stays within the order's amount. */
  lemma OneCurrencyKeepsTheBooks(o: SellOrder, steps: seq<Step>)
    requires 0.0 == o.commitment <= o.amount && Run(Start(o), steps).alive
    requires forall k :: 0 <= k < |steps| ==> OffersIn(steps[k], o.currency)
    ensures
      var s := Run(Start(o), steps);
      s.order.commitment == SumBy(s.txs, Held) && 0.0 <= s.order.commitment <= s.order.amount
  {
    OneCurrencyIsRight(Start(o), steps);
    CommitmentIsWhatIsHeldIff(o, steps);
    CommitmentInRange(o, steps);
  }

  function OfferOf(amount: real, currency: Currency): Step {
    Query(Item(7, QUERY, SERVER, 8, Offer(amount, currency, 0, amount, 0.0)), 5, Surroundings(0, 100.0, 0), Some(Tx(9)))
  }

  function CommitOf(i: nat): Step {
    Deliver(i, Item(7, COMMIT, SERVER, 8, Blank), 5, Surroundings(0, 100.0, 0), None)
  }

  /** A query for 2 in the wrong currency that times out. */
  lemma WrongCurrencyLeaks(o: SellOrder, s: State)
    requires o == SellOrder(1, 1.0, 10.0, 0.0) && s == Next(Next(Start(o), OfferOf(2.0, 2)), Timeout(0))
    ensures s.order == o.(commitment := -2.0) && s.alive && s.listed && s.sold == [] && |s.txs| == 1
  {
    assert OfferPrice(OfferOf(2.0, 2).item.payload) == 1.0;
    assert Next(Start(o), OfferOf(2.0, 2)).txs[0].mgr.payee.value.btcAmount == 2.0;
  }

  /** Twelve are sold from an order of ten. */
  lemma TwelveAreSold(s: State, s': State)
    requires s.order == SellOrder(1, 1.0, 10.0, -2.0) && s.alive && s.listed && s.sold == [] && |s.txs| == 1
    requires s' == Next(Next(s, OfferOf(12.0, 1)), CommitOf(1))
    ensures s'.sold == [12.0]
  {
    assert OfferPrice(OfferOf(12.0, 1).item.payload) == 1.0;
    var s1 := Next(s, OfferOf(12.0, 1));
    assert s1.txs[1].mgr.phase == QUERY && s1.txs[1].mgr.payee.value.btcAmount == 12.0 && s1.txs[1].live;
  }

  lemma RunTwo(s: State, a: Step, b: Step, rest: seq<Step>)
    ensures Run(s, [a, b] + rest) == Run(Next(Next(s, a), b), rest)
  {
    assert ([a, b] + rest)[1..] == [b] + rest && ([b] + rest)[1..] == rest;
  }

  lemma RunFour(s: State, a: Step, b: Step, c: Step, d: Step)
    ensures Run(s, [a, b] + ([c, d] + [])) == Next(Next(Next(Next(s, a), b), c), d)
  {
    RunTwo(s, a, b, [c, d] + []);
    RunTwo(Next(Next(s, a), b), c, d, []);
  }

  /** A query in the wrong currency that times out drives the commitment below zero, and then the
      seller sells more than it offered. */
  lemma WrongCurrencyBreaksTheBooks(o: SellOrder)
    requires o == SellOrder(1, 1.0, 10.0, 0.0)
    ensures exists steps: seq<Step> :: Run(Start(o), steps).alive && Run(Start(o), steps).order.commitment < 0.0
    ensures exists steps: seq<Step> :: SumBy(Run(Start(o), steps).sold, Amount) > o.amount
  {
    var a, b, c, d := OfferOf(2.0, 2), Timeout(0), OfferOf(12.0, 1), CommitOf(1);
    var s := Next(Next(Start(o), a), b);
    WrongCurrencyLeaks(o, s);
    RunTwo(Start(o), a, b, []);
    assert Run(Start(o), [a, b] + []) == s;
    TwelveAreSold(s, Next(Next(s, c), d));
    RunFour(Start(o), a, b, c, d);
    assert [12.0][1..] == [];
    assert SumBy([12.0], Amount) == 12.0;
  }
}
