/** A payment between two friends: two-phase commit over a reliable link (TmLocalCoordinator.cpp,
    TmLocalCohorte.cpp, the local dispatcher in TransactionManager.cpp). */
module LocalPayments {
  import opened Common
  import opened Sums
  import opened Accounts
  import opened Managers
  import opened LocalReactions

  // ---- Two friends and all payments between them ----

  datatype Side = Here | There

  function Other(s: Side): Side { if s == Here then There else Here }

  /** One payment. `paid` and `received` are history: the coordinator's and the cohort's commit;
      `gaveUp` that the coordinator timed out. */
  datatype Payment = Payment(payer: Side, amount: real, coordinator: bool, cohort: Option<Phase>,
                             paid: bool, received: bool, gaveUp: bool)

  datatype Packet = Packet(tx: nat, kind: Phase)

  datatype State = State(here: Account, there: Account, payments: seq<Payment>, net: seq<Packet>)

  datatype Step = Pay(payer: Side, amount: real) | Deliver(i: nat) | CoordinatorTimeout(k: nat) | CohortTimeout(k: nat)

  function AccountOf(s: State, side: Side): Account { if side == Here then s.here else s.there }

  function Credited(s: State, side: Side, amount: real): State {
    if side == Here then s.(here := s.here.(balance := s.here.balance + amount))
    else s.(there := s.there.(balance := s.there.balance + amount))
  }

  predicate ForCohort(kind: Phase) { kind == QUERY || kind == COMMIT }

  predicate Enabled(s: State, step: Step) {
    match step
    case Pay(_, _) => true
    case Deliver(i) => i < |s.net| && s.net[i].tx < |s.payments|
    case CoordinatorTimeout(k) => k < |s.payments| && s.payments[k].coordinator
    case CohortTimeout(k) => k < |s.payments| && s.payments[k].cohort.Some?
  }

  function Replies(tx: nat, reply: Option<Phase>): seq<Packet> {
    if reply.None? then [] else [Packet(tx, reply.value)]
  }

  function Rest(net: seq<Packet>, i: nat): seq<Packet>
    requires i < |net|
  {
    net[..i] + net[i + 1..]
  }

  /** What an item does to the payment it is about, and the answer. An item for a coordinator that
      is gone reaches a new cohort, which can do nothing with it. */
  function Handled(p: Payment, enough: bool, kind: Phase): (Payment, Option<Phase>) {
    if ForCohort(kind) then
      var r := CohortReaction(if p.cohort.Some? then p.cohort.value else INIT, enough, kind);
      (p.(cohort := Registered(r), received := p.received || r.commits), r.reply)
    else if !p.coordinator then (p, None)
    else
      var r := CoordinatorReaction(kind);
      (p.(coordinator := Registered(r).Some?, paid := p.paid || r.commits), r.reply)
  }

  /** A commit changes the balance of whoever commits. */
  function Delivered(s: State, i: nat): State
    requires i < |s.net| && s.net[i].tx < |s.payments|
  {
    var k := s.net[i].tx;
    var p := s.payments[k];
    var (p', reply) := Handled(p, PeerAvailable(AccountOf(s, Other(p.payer))) >= p.amount, s.net[i].kind);
    var t := s.(payments := s.payments[k := p'], net := Rest(s.net, i) + Replies(k, reply));
    if p'.received && !p.received then Credited(t, Other(p.payer), p.amount)
    else if p'.paid && !p.paid then Credited(t, p.payer, -p.amount)
    else t
  }

  /** init of the coordinator asks the friend unless the funds are not there. */
  function Begun(s: State, payer: Side, amount: real): State {
    if MyAvailable(AccountOf(s, payer)) < amount then s
    else
      s.(payments := s.payments + [Payment(payer, amount, true, None, false, false, false)],
         net := s.net + [Packet(|s.payments|, QUERY)])
  }

  function Next(s: State, step: Step): State {
    if !Enabled(s, step) then s
    else match step
      case Pay(payer, amount) => Begun(s, payer, amount)
      case Deliver(i) => Delivered(s, i)
      case CoordinatorTimeout(k) =>
        s.(payments := s.payments[k := s.payments[k].(coordinator := false, gaveUp := true)])
      case CohortTimeout(k) => s.(payments := s.payments[k := s.payments[k].(cohort := None)])
  }

  function Run(s: State, steps: seq<Step>): State
    decreases |steps|
  {
    if steps == [] then s else Next(Run(s, steps[..|steps| - 1]), steps[|steps| - 1])
  }

  function Start(here: Account, there: Account): State { State(here, there, [], []) }

  // ---- The balances are explained by the commits ----

  function Gain(side: Side): Payment -> real {
    (p: Payment) =>
      (if p.payer != side && p.received then p.amount else 0.0) - (if p.payer == side && p.paid then p.amount else 0.0)
  }

  /** Received but not yet, or never, paid. */
  function InDoubt(): Payment -> real {
    (p: Payment) => if p.received && !p.paid then p.amount else 0.0
  }

  ghost predicate BalancesExplained(start: State, s: State) {
    && s.here.balance == start.here.balance + SumBy(s.payments, Gain(Here))
    && s.there.balance == start.there.balance + SumBy(s.payments, Gain(There))
  }

  /** A payment and the one packet that can be on its way for it. */
  ghost predicate Fits(p: Payment, packet: Option<Phase>) {
    && (p.paid ==> p.received)
    && (p.cohort.Some? ==> p.cohort.value == QUERY && !p.received)
    && match packet
       case None => p.received && !p.paid ==> p.gaveUp
       case Some(kind) =>
         && !p.paid && (p.coordinator || p.gaveUp) && (p.received <==> kind == ACK_COMMIT)
         && kind in {QUERY, VOTE_YES, VOTE_NO, COMMIT, ACK_COMMIT, ABORT} && (kind == QUERY ==> p.cohort.None?)
  }

  ghost predicate OnItsWay(net: seq<Packet>, k: nat) {
    exists i :: 0 <= i < |net| && net[i].tx == k
  }

  ghost predicate Inv(s: State) {
    && (forall i :: 0 <= i < |s.net| ==>
         s.net[i].tx < |s.payments| && Fits(s.payments[s.net[i].tx], Some(s.net[i].kind)))
    && (forall i, j :: 0 <= i < j < |s.net| ==> s.net[i].tx != s.net[j].tx)
    && (forall k :: 0 <= k < |s.payments| && !OnItsWay(s.net, k) ==> Fits(s.payments[k], None))
  }

  lemma HandledFits(p: Payment, enough: bool, kind: Phase)
    requires Fits(p, Some(kind))
    ensures var (p', reply) := Handled(p, enough, kind);
      && Fits(p', reply) && p'.payer == p.payer && p'.amount == p.amount && p'.gaveUp == p.gaveUp
      && !((p'.received && !p.received) && (p'.paid && !p.paid))
  {
  }

  lemma RestIsOthers(net: seq<Packet>, i: nat)
    requires i < |net| && forall a, b :: 0 <= a < b < |net| ==> net[a].tx != net[b].tx
    ensures forall j :: 0 <= j < |Rest(net, i)| ==> Rest(net, i)[j].tx != net[i].tx && Rest(net, i)[j] in net
    ensures forall a, b :: 0 <= a < b < |Rest(net, i)| ==> Rest(net, i)[a].tx != Rest(net, i)[b].tx
    ensures forall k :: OnItsWay(net, k) && k != net[i].tx ==> OnItsWay(Rest(net, i), k)
  {
    forall k | OnItsWay(net, k) && k != net[i].tx ensures OnItsWay(Rest(net, i), k) {
      var m :| 0 <= m < |net| && net[m].tx == k;
      assert Rest(net, i)[if m < i then m else m - 1].tx == k;
    }
  }

  lemma AnsweredOnItsWay(rest: seq<Packet>, k: nat, reply: Option<Phase>)
    ensures forall j :: OnItsWay(rest, j) ==> OnItsWay(rest + Replies(k, reply), j)
    ensures reply.Some? ==> OnItsWay(rest + Replies(k, reply), k)
  {
    var net := rest + Replies(k, reply);
    forall j | OnItsWay(rest, j) ensures OnItsWay(net, j) {
      var m :| 0 <= m < |rest| && rest[m].tx == j;
      assert net[m].tx == j;
    }
    if reply.Some? {
      assert net[|rest|].tx == k;
    }
  }

  /** The packet i of payment k is consumed and perhaps answered. */
  lemma ConsumedFits(s: State, t: State, i: nat, p: Payment, reply: Option<Phase>)
    requires Inv(s) && i < |s.net| && Fits(p, reply)
    requires t.payments == s.payments[s.net[i].tx := p] && t.net == Rest(s.net, i) + Replies(s.net[i].tx, reply)
    ensures Inv(t)
  {
    var k, rest := s.net[i].tx, Rest(s.net, i);
    RestIsOthers(s.net, i);
    AnsweredOnItsWay(rest, k, reply);
    forall j | 0 <= j < |t.net|
      ensures t.net[j].tx < |t.payments| && Fits(t.payments[t.net[j].tx], Some(t.net[j].kind))
    {
      if j < |rest| {
        assert t.net[j] == rest[j];
      }
    }
  }

  /** A timeout changes the managers of one payment and nothing else. */
  lemma TimeoutFits(s: State, t: State, k: nat, p: Payment)
    requires Inv(s) && k < |s.payments| && t.payments == s.payments[k := p] && t.net == s.net
    requires forall packet :: Fits(s.payments[k], packet) ==> Fits(p, packet)
    ensures Inv(t)
  {
  }

  lemma BegunFits(s: State, payer: Side, amount: real)
    requires Inv(s)
    ensures Inv(Begun(s, payer, amount))
  {
    var t := Begun(s, payer, amount);
    if t != s {
      forall k | 0 <= k < |t.payments| && !OnItsWay(t.net, k) ensures Fits(t.payments[k], None) {
        assert t.net[|s.net|].tx == |s.payments|;
        AnsweredOnItsWay(s.net, |s.payments|, Some(QUERY));
      }
    }
  }

  lemma NextFits(s: State, step: Step)
    requires Inv(s)
    ensures Inv(Next(s, step))
  {
    if Enabled(s, step) {
      match step
      case Pay(payer, amount) => BegunFits(s, payer, amount);
      case Deliver(i) =>
        var p := s.payments[s.net[i].tx];
        var enough := PeerAvailable(AccountOf(s, Other(p.payer))) >= p.amount;
        HandledFits(p, enough, s.net[i].kind);
        ConsumedFits(s, Next(s, step), i, Handled(p, enough, s.net[i].kind).0, Handled(p, enough, s.net[i].kind).1);
      case CoordinatorTimeout(k) =>
        TimeoutFits(s, Next(s, step), k, s.payments[k].(coordinator := false, gaveUp := true));
      case CohortTimeout(k) =>
        TimeoutFits(s, Next(s, step), k, s.payments[k].(cohort := None));
    }
  }

  /** A delivery moves the balances by what changes in the payment's share. */
  lemma DeliveryMovesShare(s: State, i: nat)
    requires Inv(s) && i < |s.net| && s.net[i].tx < |s.payments|
    ensures var k := s.net[i].tx; var t := Delivered(s, i); var p, p' := s.payments[k], t.payments[k];
      && t.payments == s.payments[k := p']
      && t.here.balance == s.here.balance - Gain(Here)(p) + Gain(Here)(p')
      && t.there.balance == s.there.balance - Gain(There)(p) + Gain(There)(p')
  {
    var p := s.payments[s.net[i].tx];
    HandledFits(p, PeerAvailable(AccountOf(s, Other(p.payer))) >= p.amount, s.net[i].kind);
  }

  lemma ShareExplains(start: State, s: State, t: State, k: nat, p: Payment)
    requires BalancesExplained(start, s) && k < |s.payments| && t.payments == s.payments[k := p]
    requires t.here.balance == s.here.balance - Gain(Here)(s.payments[k]) + Gain(Here)(p)
    requires t.there.balance == s.there.balance - Gain(There)(s.payments[k]) + Gain(There)(p)
    ensures BalancesExplained(start, t)
  {
    SumUpdate(s.payments, k, p, Gain(Here));
    SumUpdate(s.payments, k, p, Gain(There));
  }

  lemma NextExplained(start: State, s: State, step: Step)
    requires Inv(s) && BalancesExplained(start, s)
    ensures BalancesExplained(start, Next(s, step))
  {
    var t := Next(s, step);
    if Enabled(s, step) {
      match step
      case Pay(payer, amount) =>
        var p := Payment(payer, amount, true, None, false, false, false);
        SumAppend(s.payments, p, Gain(Here));
        SumAppend(s.payments, p, Gain(There));
      case Deliver(i) =>
        DeliveryMovesShare(s, i);
        ShareExplains(start, s, t, s.net[i].tx, t.payments[s.net[i].tx]);
      case CoordinatorTimeout(k) => ShareExplains(start, s, t, k, t.payments[k]);
      case CohortTimeout(k) => ShareExplains(start, s, t, k, t.payments[k]);
    }
  }

  lemma {:induction false} RunFits(here: Account, there: Account, steps: seq<Step>)
    ensures Inv(Run(Start(here, there), steps))
    ensures BalancesExplained(Start(here, there), Run(Start(here, there), steps))
    decreases |steps|
  {
    if steps != [] {
      RunFits(here, there, steps[..|steps| - 1]);
      var s := Run(Start(here, there), steps[..|steps| - 1]);
      NextFits(s, steps[|steps| - 1]);
      NextExplained(Start(here, there), s, steps[|steps| - 1]);
    }
  }

  lemma {:induction false} GainsCancel(payments: seq<Payment>)
    requires forall k :: 0 <= k < |payments| ==> payments[k].paid ==> payments[k].received
    ensures SumBy(payments, Gain(Here)) + SumBy(payments, Gain(There)) == SumBy(payments, InDoubt())
  {
    if payments != [] {
      assert forall k :: 0 <= k < |payments[1..]| ==> payments[1..][k] == payments[k + 1];
      GainsCancel(payments[1..]);
    }
  }

  /** Over any number of interleaved payments in both directions, with any timeouts, the two
      balances sum up to the starting sum plus what is received and not paid. */
  lemma MoneyIsConserved(here: Account, there: Account, steps: seq<Step>)
    ensures var s := Run(Start(here, there), steps);
      s.here.balance + s.there.balance == here.balance + there.balance + SumBy(s.payments, InDoubt())
  {
    RunFits(here, there, steps);
    var s := Run(Start(here, there), steps);
    forall k | 0 <= k < |s.payments| ensures s.payments[k].paid ==> s.payments[k].received {
      if OnItsWay(s.net, k) {
        var i :| 0 <= i < |s.net| && s.net[i].tx == k;
        assert Fits(s.payments[k], Some(s.net[i].kind));
      }
    }
    GainsCancel(s.payments);
  }

  /** A debit implies the credit, whatever times out; a credit implies the debit once the network
      is quiet, unless the coordinator timed out. */
  lemma PaidAndReceivedAgree(here: Account, there: Account, steps: seq<Step>, k: nat)
    requires k < |Run(Start(here, there), steps).payments|
    ensures var s := Run(Start(here, there), steps);
      && (s.payments[k].paid ==> s.payments[k].received)
      && (!OnItsWay(s.net, k) && !s.payments[k].gaveUp ==> (s.payments[k].received <==> s.payments[k].paid))
  {
    RunFits(here, there, steps);
    var s := Run(Start(here, there), steps);
    if OnItsWay(s.net, k) {
      var i :| 0 <= i < |s.net| && s.net[i].tx == k;
      assert Fits(s.payments[k], Some(s.net[i].kind));
    }
  }

  // ---- When exactly no side is owed more than it grants ----

  predicate WithinCredit(s: State) { PeerAvailable(s.here) >= 0.0 && PeerAvailable(s.there) >= 0.0 }

  /** Packet i is a COMMIT that a waiting cohort accepts, or an acknowledgement that the
      coordinator books. */
  predicate IsReceived(s: State, i: nat)
    requires i < |s.net| && s.net[i].tx < |s.payments|
  {
    s.net[i].kind == COMMIT && s.payments[s.net[i].tx].cohort == Some(QUERY)
  }

  predicate IsPaid(s: State, i: nat)
    requires i < |s.net| && s.net[i].tx < |s.payments|
  {
    s.net[i].kind == ACK_COMMIT && s.payments[s.net[i].tx].coordinator
  }

  /** The test the cohort does not make: the COMMIT finds the funds that were there at the QUERY. */
  predicate CommitCovered(s: State, step: Step) {
    step.Deliver? && Enabled(s, step) && IsReceived(s, step.i) ==>
      var p := s.payments[s.net[step.i].tx];
      p.amount <= PeerAvailable(AccountOf(s, Other(p.payer)))
  }

  /** Its counterpart on the paying side, which only fails for a negative amount. */
  predicate DebitCovered(s: State, step: Step) {
    step.Deliver? && Enabled(s, step) && IsPaid(s, step.i) ==>
      var p := s.payments[s.net[step.i].tx];
      -p.amount <= PeerAvailable(AccountOf(s, p.payer))
  }

  lemma DeliveryWithin(s: State, i: nat)
    requires Inv(s) && WithinCredit(s) && i < |s.net| && s.net[i].tx < |s.payments|
    ensures WithinCredit(Delivered(s, i)) <==> CommitCovered(s, Deliver(i)) && DebitCovered(s, Deliver(i))
  {
    var p := s.payments[s.net[i].tx];
    assert Fits(p, Some(s.net[i].kind));
    HandledBooks(p, PeerAvailable(AccountOf(s, Other(p.payer))) >= p.amount, s.net[i].kind);
  }

  /** What is booked by an item is told by its kind and the state of the payment. */
  lemma HandledBooks(p: Payment, enough: bool, kind: Phase)
    requires Fits(p, Some(kind))
    ensures var p' := Handled(p, enough, kind).0;
      && (p'.received && !p.received <==> kind == COMMIT && p.cohort == Some(QUERY))
      && (p'.paid && !p.paid <==> kind == ACK_COMMIT && p.coordinator)
  {
  }

  lemma StepWithin(s: State, step: Step)
    requires Inv(s) && WithinCredit(s)
    ensures WithinCredit(Next(s, step)) <==> CommitCovered(s, step) && DebitCovered(s, step)
  {
    if step.Deliver? && Enabled(s, step) {
      DeliveryWithin(s, step.i);
    }
  }

  /** The state after the first n steps. */
  function After(here: Account, there: Account, steps: seq<Step>, n: nat): State
    requires n <= |steps|
  {
    Run(Start(here, there), steps[..n])
  }

  lemma AfterOneMore(here: Account, there: Account, steps: seq<Step>, n: nat)
    requires n < |steps|
    ensures After(here, there, steps, n + 1) == Next(After(here, there, steps, n), steps[n])
  {
    RunStep(Start(here, there), steps[..n], steps[n]);
    assert steps[..n + 1] == steps[..n] + [steps[n]];
  }

  // ---- Funds were there when they were asked for ----

  /** The step is the payment k's QUERY reaching a friend whose credit it fits at that moment. */
  predicate TestsCohort(s: State, step: Step, k: nat) {
    && step.Deliver? && Enabled(s, step) && s.net[step.i] == Packet(k, QUERY)
    && PeerAvailable(AccountOf(s, Other(s.payments[k].payer))) >= s.payments[k].amount
  }

  /** The step starts the payment k, which the payer can afford at that moment. */
  predicate TestsPayer(s: State, step: Step, k: nat) {
    step.Pay? && k == |s.payments| && MyAvailable(AccountOf(s, step.payer)) >= step.amount
  }

  lemma StepTests(s: State, step: Step, k: nat)
    requires Inv(s) && k < |Next(s, step).payments|
    ensures k >= |s.payments| ==> TestsPayer(s, step, k)
    ensures var p := Next(s, step).payments[k];
      p.cohort.Some? || p.received ==>
        TestsCohort(s, step, k) || (k < |s.payments| && (s.payments[k].cohort.Some? || s.payments[k].received))
  {
    if step.Deliver? && Enabled(s, step) {
      assert Fits(s.payments[s.net[step.i].tx], Some(s.net[step.i].kind));
    }
  }

  /** In every run, each payment was affordable for its payer when it began, and each one that is
      received fitted the friend's credit when its QUERY arrived. */
  lemma {:induction false} FundsWereThere(here: Account, there: Account, steps: seq<Step>, n: nat, k: nat)
    requires n <= |steps| && k < |After(here, there, steps, n).payments|
    ensures exists m :: 0 <= m < n && TestsPayer(After(here, there, steps, m), steps[m], k)
    ensures var p := After(here, there, steps, n).payments[k];
      p.cohort.Some? || p.received ==> exists m :: 0 <= m < n && TestsCohort(After(here, there, steps, m), steps[m], k)
  {
    assert n > 0 by {
      assert steps[..0] == [];
    }
    var s := After(here, there, steps, n - 1);
    RunFits(here, there, steps[..n - 1]);
    AfterOneMore(here, there, steps, n - 1);
    StepTests(s, steps[n - 1], k);
    if k < |s.payments| {
      FundsWereThere(here, there, steps, n - 1, k);
    }
  }

  lemma {:induction false} CoveredRunsStayWithin(here: Account, there: Account, steps: seq<Step>, n: nat)
    requires WithinCredit(Start(here, there)) && n <= |steps|
    requires forall k :: 0 <= k < |steps| ==>
      CommitCovered(After(here, there, steps, k), steps[k]) && DebitCovered(After(here, there, steps, k), steps[k])
    ensures WithinCredit(After(here, there, steps, n))
  {
    if n > 0 {
      CoveredRunsStayWithin(here, there, steps, n - 1);
      RunFits(here, there, steps[..n - 1]);
      AfterOneMore(here, there, steps, n - 1);
      StepWithin(After(here, there, steps, n - 1), steps[n - 1]);
    }
  }

  /** A run never leaves the credit lines if and only if every booking of the run is covered when
      it happens. */
  lemma CreditIsKeptIff(here: Account, there: Account, steps: seq<Step>)
    requires WithinCredit(Start(here, there))
    ensures (forall n :: 0 <= n <= |steps| ==> WithinCredit(After(here, there, steps, n))) <==>
      (forall k :: 0 <= k < |steps| ==>
         CommitCovered(After(here, there, steps, k), steps[k]) && DebitCovered(After(here, there, steps, k), steps[k]))
  {
    if forall n :: 0 <= n <= |steps| ==> WithinCredit(After(here, there, steps, n)) {
      forall k | 0 <= k < |steps|
        ensures CommitCovered(After(here, there, steps, k), steps[k])
          && DebitCovered(After(here, there, steps, k), steps[k])
      {
        RunFits(here, there, steps[..k]);
        AfterOneMore(here, there, steps, k);
        assert WithinCredit(After(here, there, steps, k + 1));
        StepWithin(After(here, there, steps, k), steps[k]);
      }
    } else if forall k :: 0 <= k < |steps| ==>
        CommitCovered(After(here, there, steps, k), steps[k]) && DebitCovered(After(here, there, steps, k), steps[k]) {
      forall n | 0 <= n <= |steps| ensures WithinCredit(After(here, there, steps, n)) {
        CoveredRunsStayWithin(here, there, steps, n);
      }
    }
  }

  ghost predicate NonNegative(s: State) {
    forall k :: 0 <= k < |s.payments| ==> s.payments[k].amount >= 0.0
  }

  lemma {:induction false} AmountsStayNonNegative(here: Account, there: Account, steps: seq<Step>)
    requires forall i :: 0 <= i < |steps| && steps[i].Pay? ==> steps[i].amount >= 0.0
    ensures NonNegative(Run(Start(here, there), steps))
    decreases |steps|
  {
    if steps != [] {
      var init := steps[..|steps| - 1];
      AmountsStayNonNegative(here, there, init);
      assert NonNegative(Next(Run(Start(here, there), init), steps[|steps| - 1]));
    }
  }

  /** For amounts that are not negative the guard the cohort lacks decides alone: no side is ever
      owed more than it grants if and only if every COMMIT that a waiting cohort accepts finds the
      amount available at that moment. */
  lemma CreditIsKeptIffCommitsAreCovered(here: Account, there: Account, steps: seq<Step>)
    requires WithinCredit(Start(here, there))
    requires forall i :: 0 <= i < |steps| && steps[i].Pay? ==> steps[i].amount >= 0.0
    ensures (forall n :: 0 <= n <= |steps| ==> WithinCredit(After(here, there, steps, n))) <==>
      (forall k :: 0 <= k < |steps| ==> CommitCovered(After(here, there, steps, k), steps[k]))
  {
    CreditIsKeptIff(here, there, steps);
    if forall k :: 0 <= k < |steps| ==> CommitCovered(After(here, there, steps, k), steps[k]) {
      forall n | 0 <= n <= |steps| ensures WithinCredit(After(here, there, steps, n)) {
        CommitsCoveredStayWithin(here, there, steps, n);
      }
    }
  }

  lemma {:induction false} CommitsCoveredStayWithin(here: Account, there: Account, steps: seq<Step>, n: nat)
    requires WithinCredit(Start(here, there)) && n <= |steps|
    requires forall i :: 0 <= i < |steps| && steps[i].Pay? ==> steps[i].amount >= 0.0
    requires forall k :: 0 <= k < |steps| ==> CommitCovered(After(here, there, steps, k), steps[k])
    ensures WithinCredit(After(here, there, steps, n))
  {
    if n > 0 {
      CommitsCoveredStayWithin(here, there, steps, n - 1);
      var s, step := After(here, there, steps, n - 1), steps[n - 1];
      RunFits(here, there, steps[..n - 1]);
      AmountsStayNonNegative(here, there, steps[..n - 1]);
      AfterOneMore(here, there, steps, n - 1);
      assert DebitCovered(s, step);
      StepWithin(s, step);
    }
  }

  lemma RunStep(s: State, steps: seq<Step>, step: Step)
    ensures Run(s, steps + [step]) == Next(Run(s, steps), step)
  {
    assert (steps + [step])[..|steps|] == steps;
  }

  /** Two payments at the same stage, over a credit of ten. */
  function PairOf(p: Payment, kind: Phase, owed: real): State {
    State(Account(10.0, 0.0, 0.0, 0.0), Account(0.0, 10.0, owed, 0.0), [p, p], [Packet(0, kind), Packet(1, kind)])
  }

  function Pair(cohort: Option<Phase>, received: bool, kind: Phase, owed: real): State {
    PairOf(Ten(cohort, received), kind, owed)
  }

  function Twice(s: State, step: Step): State { Next(Next(s, step), step) }

  function Ten(cohort: Option<Phase>, received: bool): Payment {
    Payment(Here, 10.0, true, cohort, false, received, false)
  }

  /** Of two items one is handled; the balance of the friend changes by what is received. */
  lemma OneHandled(s: State, a: seq<Payment>, x: Packet, y: Packet, p: Payment, kind: Phase, owed: real, owed': real)
    requires s == State(Account(10.0, 0.0, 0.0, 0.0), Account(0.0, 10.0, owed, 0.0), a, [x, y]) && x.tx < |a|
    requires a[x.tx].payer == Here
    requires Handled(a[x.tx], 10.0 - owed >= a[x.tx].amount, x.kind) == (p, Some(kind)) && p.paid == a[x.tx].paid
    requires owed' == owed + if p.received && !a[x.tx].received then a[x.tx].amount else 0.0
    ensures Next(s, Deliver(0)) == State(s.here, Account(0.0, 10.0, owed', 0.0), a[x.tx := p], [y, Packet(x.tx, kind)])
  {
    assert s.net[0] == x && Rest(s.net, 0) == [y];
  }

  lemma BothHandled(p: Payment, q: Payment, kind: Phase, kind': Phase, more: real)
    requires p.payer == Here && p.paid == q.paid && more == if q.received && !p.received then p.amount else 0.0
    requires Handled(p, 10.0 >= p.amount, kind) == (q, Some(kind'))
    requires Handled(p, 10.0 - more >= p.amount, kind) == (q, Some(kind'))
    ensures Twice(PairOf(p, kind, 0.0), Deliver(0)) == PairOf(q, kind', more + more)
  {
    var s := PairOf(p, kind, 0.0);
    OneHandled(s, [p, p], Packet(0, kind), Packet(1, kind), q, kind', 0.0, more);
    assert [p, p][0 := q] == [q, p];
    var t := Next(s, Deliver(0));
    OneHandled(t, [q, p], Packet(1, kind), Packet(0, kind'), q, kind', more, more + more);
    assert [q, p][1 := q] == [q, q];
  }

  lemma BothAsked()
    ensures Twice(Pair(None, false, QUERY, 0.0), Deliver(0)) == Pair(Some(QUERY), false, VOTE_YES, 0.0)
  {
    BothHandled(Ten(None, false), Ten(Some(QUERY), false), QUERY, VOTE_YES, 0.0);
  }

  lemma BothVoted()
    ensures Twice(Pair(Some(QUERY), false, VOTE_YES, 0.0), Deliver(0)) == Pair(Some(QUERY), false, COMMIT, 0.0)
  {
    BothHandled(Ten(Some(QUERY), false), Ten(Some(QUERY), false), VOTE_YES, COMMIT, 0.0);
  }

  lemma BothCommitted()
    ensures Twice(Pair(Some(QUERY), false, COMMIT, 0.0), Deliver(0)) == Pair(None, true, ACK_COMMIT, 20.0)
  {
    BothHandled(Ten(Some(QUERY), false), Ten(None, true), COMMIT, ACK_COMMIT, 10.0);
  }

  lemma BothBegun()
    ensures Twice(Start(Account(10.0, 0.0, 0.0, 0.0), Account(0.0, 10.0, 0.0, 0.0)), Pay(Here, 10.0)) ==
      Pair(None, false, QUERY, 0.0)
  {
  }

  lemma SameRun(s: State, a: seq<Step>, b: seq<Step>)
    requires a == b
    ensures Run(s, a) == Run(s, b)
  {
  }

  lemma RunTwice(s: State, steps: seq<Step>, step: Step)
    ensures Run(s, steps + [step, step]) == Twice(Run(s, steps), step)
  {
    assert steps + [step, step] == (steps + [step]) + [step];
    SameRun(s, steps + [step, step], (steps + [step]) + [step]);
    RunStep(s, steps, step);
    RunStep(s, steps + [step], step);
  }

  /** The credit is exceeded: two payments of 10 each over a credit of 10, both asked for before
      either is committed. */
  lemma InterleavedPaymentsOverdraw() returns (steps: seq<Step>)
    ensures Run(Start(Account(10.0, 0.0, 0.0, 0.0), Account(0.0, 10.0, 0.0, 0.0)), steps) ==
      Pair(None, true, ACK_COMMIT, 20.0)
    ensures PeerAvailable(Pair(None, true, ACK_COMMIT, 20.0).there) == -10.0
  {
    var start := Start(Account(10.0, 0.0, 0.0, 0.0), Account(0.0, 10.0, 0.0, 0.0));
    var pay, next := Pay(Here, 10.0), Deliver(0);
    RunTwice(start, [], pay);
    BothBegun();
    RunTwice(start, [] + [pay, pay], next);
    BothAsked();
    RunTwice(start, [] + [pay, pay] + [next, next], next);
    BothVoted();
    RunTwice(start, [] + [pay, pay] + [next, next] + [next, next], next);
    BothCommitted();
    steps := [] + [pay, pay] + [next, next] + [next, next] + [next, next];
  }
}
