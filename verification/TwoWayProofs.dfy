/** When no settlement fails on a link that is used in both directions: reservations are timely and
    nothing is lost. Runs that break one of the two show that both are needed. */
module TwoWayProofs {
  import opened Common
  import opened Sums
  import opened Accounts
  import opened Contracts
  import opened TwoWayLinks

  // ---- Without a loss nothing fails ----

  /** The payer's credit line, with what the payee had paid when it reserved, covers everything that
      was reserved for the payer up to this contract; and what the payee had paid then, the payer
      had listed before it asked for this contract. */
  ghost predicate Covered(start: Link, deals: seq<Deal>, i: nat)
    requires i < |deals|
  {
    var d, e := deals[i], deals[i].payer;
    d.reserved.Some? ==>
      && d.cover <= SumBy(deals, PaidAhead(e.Other(), d.offered))
      && SumBy(deals, OwedUpTo(e, d.reserved.value)) <= MyAvailable(start.RowAt(e)) + d.cover
  }

  /** Once the payer has paid a contract, it has booked all that covered it. */
  ghost predicate Backed(deals: seq<Deal>, i: nat)
    requires i < |deals|
  {
    deals[i].Paid() ==> deals[i].cover <= SumBy(deals, GotAt(deals[i].payer))
  }

  ghost predicate NoneLost(deals: seq<Deal>) { forall i :: 0 <= i < |deals| ==> !deals[i].Lost() }

  ghost predicate NoneFailed(deals: seq<Deal>) { forall i :: 0 <= i < |deals| ==> !deals[i].failed }

  ghost predicate AllCovered(start: Link, deals: seq<Deal>) {
    forall i :: 0 <= i < |deals| ==> Covered(start, deals, i)
  }

  ghost predicate AllBacked(deals: seq<Deal>) { forall i :: 0 <= i < |deals| ==> Backed(deals, i) }

  /** What a run of timely reservations keeps, beside the books. */
  ghost predicate Cover(start: Link, l: Link) {
    AllCovered(start, l.deals) && (NoneLost(l.deals) ==> NoneFailed(l.deals) && AllBacked(l.deals))
  }

  // ---- Every contract is funded when its turn comes ----

  /** A poll at this end has passed everything listed before time t. */
  ghost predicate PolledTo(deals: seq<Deal>, e: End, t: nat) {
    forall j :: 0 <= j < |deals| && deals[j].ListedAt(e).Some? && deals[j].ListedAt(e).value < t ==>
      !deals[j].DueAt(e)
  }

  /** By then it has booked all payments to it by contracts listed before. */
  lemma AheadIsBooked(clock: nat, deals: seq<Deal>, e: End, t: nat)
    requires AllOk(clock, deals) && PolledTo(deals, e, t) && NoneLost(deals)
    ensures SumBy(deals, PaidAhead(e.Other(), t)) <= SumBy(deals, GotAt(e))
  {
    forall j | 0 <= j < |deals| ensures PaidAhead(e.Other(), t)(deals[j]) <= GotAt(e)(deals[j]) {
      assert DealOk(clock, deals[j]) && !deals[j].Lost();
    }
    SumMonotone(deals, PaidAhead(e.Other(), t), GotAt(e));
  }

  /** The contract of this end that was reserved last among those it has paid and the given one. */
  lemma LastPaid(clock: nat, deals: seq<Deal>, e: End, i: nat) returns (m: nat)
    requires AllOk(clock, deals) && i < |deals| && deals[i].payer == e && deals[i].reserved.Some?
    ensures m < |deals| && deals[m].payer == e && deals[m].reserved.Some? && (m == i || deals[m].Paid())
    ensures deals[i].reserved.value <= deals[m].reserved.value
    ensures forall k :: 0 <= k < |deals| && deals[k].payer == e && deals[k].Paid() ==>
      deals[k].reserved.Some? && deals[k].reserved.value <= deals[m].reserved.value
  {
    m := i;
    for n := 0 to |deals|
      invariant m < |deals| && deals[m].payer == e && deals[m].reserved.Some? && (m == i || deals[m].Paid())
      invariant deals[i].reserved.value <= deals[m].reserved.value
      invariant forall k :: 0 <= k < n && deals[k].payer == e && deals[k].Paid() ==>
        deals[k].reserved.Some? && deals[k].reserved.value <= deals[m].reserved.value
    {
      assert DealOk(clock, deals[n]);
      if deals[n].payer == e && deals[n].Paid() && deals[m].reserved.value < deals[n].reserved.value {
        m := n;
      }
    }
  }

  /** A contract that is due is funded at its turn, and covered by what its payer has booked. */
  lemma PayerIsFunded(start: Link, l: Link, e: End, i: nat)
    requires Base(start, l) && Cover(start, l) && NoneLost(l.deals) && i < |l.deals|
    requires l.deals[i].payer == e && l.deals[i].DueAt(e) && PolledTo(l.deals, e, l.deals[i].offered)
    ensures MyAvailable(l.RowAt(e)) >= l.deals[i].fiat
    ensures l.deals[i].cover <= SumBy(l.deals, GotAt(e))
  {
    var deals := l.deals;
    assert DealOk(l.clock, deals[i]) && Covered(start, deals, i);
    AheadIsBooked(l.clock, deals, e, deals[i].offered);
    var m := LastPaid(l.clock, deals, e, i);
    assert Covered(start, deals, m) && Backed(deals, m);
    PaidIsOwed(l.clock, deals, e, i, deals[m].reserved.value);
    assert Books(start, l, e);
  }

  /** What has been paid, with one contract that has not, is part of what was reserved until then. */
  lemma PaidIsOwed(clock: nat, deals: seq<Deal>, e: End, i: nat, t: nat)
    requires AllOk(clock, deals) && i < |deals| && deals[i].payer == e && deals[i].OpenAt(e)
    requires deals[i].reserved.Some? && deals[i].reserved.value <= t
    requires forall k :: 0 <= k < |deals| && deals[k].payer == e && deals[k].Paid() ==>
      deals[k].reserved.Some? && deals[k].reserved.value <= t
    ensures SumBy(deals, PaidBy(e)) + deals[i].fiat <= SumBy(deals, OwedUpTo(e, t))
  {
    forall j | 0 <= j < |deals| ensures PaidBy(e)(deals[j]) <= OwedUpTo(e, t)(deals[j]) {
      assert DealOk(clock, deals[j]);
    }
    SumGap(deals, i, deals[i].fiat, PaidBy(e), OwedUpTo(e, t));
  }

  // ---- Every step keeps the cover ----

  /** A contract may shrink until it is agreed, and then only be confirmed, expire and be settled. */
  predicate Advances(d: Deal, d': Deal) {
    && d'.payer == d.payer && d'.offered == d.offered && d'.reserved == d.reserved && d'.cover == d.cover
    && d'.fiat <= d.fiat && (d.confirmed ==> d'.fiat == d.fiat) && (d.Paid() ==> d'.Paid())
    && (!d.OpenAt(d.payer.Other()) ==> !d'.OpenAt(d.payer.Other())) && (d.Lost() ==> d'.Lost())
    && (d.failed ==> d'.failed)
  }

  lemma AdvanceKeepsCovered(start: Link, clock: nat, deals: seq<Deal>, i: nat, d: Deal, k: nat)
    requires i < |deals| && k < |deals| && DealOk(clock, deals[i]) && DealOk(clock, d)
    requires Advances(deals[i], d) && Covered(start, deals, k)
    ensures Covered(start, deals[i := d], k)
  {
    var e := deals[k].payer;
    if deals[k].reserved.Some? {
      SumUpdate(deals, i, d, PaidAhead(e.Other(), deals[k].offered));
      SumUpdate(deals, i, d, OwedUpTo(e, deals[k].reserved.value));
    }
  }

  lemma AdvanceKeepsBacked(clock: nat, deals: seq<Deal>, i: nat, d: Deal, k: nat)
    requires i < |deals| && k < |deals| && DealOk(clock, deals[i]) && DealOk(clock, d)
    requires Advances(deals[i], d) && Backed(deals, k)
    requires k == i && d.Paid() && !deals[i].Paid() ==> d.cover <= SumBy(deals, GotAt(d.payer))
    ensures Backed(deals[i := d], k)
  {
    SumUpdate(deals, i, d, GotAt(deals[k].payer));
  }

  lemma AdvanceKeepsCover(start: Link, l: Link, l': Link, i: nat, d: Deal)
    requires Cover(start, l) && i < |l.deals| && l'.deals == l.deals[i := d]
    requires DealOk(l.clock, l.deals[i]) && DealOk(l.clock, d) && Advances(l.deals[i], d)
    requires NoneLost(l.deals) ==>
      !d.failed && (d.Paid() && !l.deals[i].Paid() ==> d.cover <= SumBy(l.deals, GotAt(d.payer)))
    ensures Cover(start, l')
    ensures NoneLost(l'.deals) ==> NoneLost(l.deals)
  {
    forall k | 0 <= k < |l'.deals| ensures Covered(start, l'.deals, k) {
      AdvanceKeepsCovered(start, l.clock, l.deals, i, d, k);
    }
    if NoneLost(l'.deals) {
      LossesStay(l.deals, i, d);
      forall k | 0 <= k < |l'.deals| ensures Backed(l'.deals, k) {
        AdvanceKeepsBacked(l.clock, l.deals, i, d, k);
      }
    }
  }

  lemma LossesStay(deals: seq<Deal>, i: nat, d: Deal)
    requires i < |deals| && Advances(deals[i], d) && NoneLost(deals[i := d])
    ensures NoneLost(deals)
  {
    forall j | 0 <= j < |deals| ensures !deals[j].Lost() {
      assert !deals[i := d][j].Lost();
    }
  }

  lemma SettleKeepsCover(start: Link, l: Link, e: End, i: nat)
    requires Base(start, l) && Cover(start, l) && i < |l.deals| && l.deals[i].DueAt(e)
    requires l.deals[i].ListedAt(e).Some? && PolledTo(l.deals, e, l.deals[i].ListedAt(e).value)
    ensures Cover(start, SettleAt(l, e, i))
  {
    var d := l.deals[i];
    if d.payer == e && NoneLost(l.deals) {
      PayerIsFunded(start, l, e, i);
    }
    AdvanceKeepsCover(start, l, SettleAt(l, e, i), i, SettleAt(l, e, i).deals[i]);
  }

  lemma VisitKeepsCover(start: Link, l: Link, e: End, t: nat)
    requires Base(start, l) && Cover(start, l) && PolledTo(l.deals, e, t)
    ensures Cover(start, Visit(l, e, t)) && PolledTo(Visit(l, e, t).deals, e, t + 1)
  {
    var i := ListedWhen(l.deals, e, t);
    if i < |l.deals| && l.deals[i].DueAt(e) {
      SettleKeepsCover(start, l, e, i);
    }
  }

  /** Where a poll stands after everything listed before time t. */
  ghost predicate PollStands(start: Link, l: Link, e: End, t: nat) {
    Base(start, l) && Cover(start, l) && PolledTo(l.deals, e, t)
  }

  lemma VisitStands(start: Link, l: Link, l': Link, e: End, t: nat)
    requires PollStands(start, l, e, t) && l' == Visit(l, e, t)
    ensures PollStands(start, l', e, t + 1)
  {
    var i := ListedWhen(l.deals, e, t);
    if i < |l.deals| && l.deals[i].DueAt(e) {
      SettleKeepsBase(start, l, e, i);
    }
    VisitKeepsCover(start, l, e, t);
  }

  lemma PollStandsAt(start: Link, l: Link, e: End, t: nat)
    requires Base(start, l) && Cover(start, l)
    ensures PollStands(start, PollUpTo(l, e, t), e, t)
  {
    var now := l;
    for n := 0 to t
      invariant now == PollUpTo(l, e, n) && PollStands(start, now, e, n)
    {
      VisitStands(start, now, Visit(now, e, n), e, n);
      now := Visit(now, e, n);
    }
  }

  lemma OfferKeepsCover(start: Link, l: Link, payer: End)
    requires Cover(start, l)
    ensures Cover(start, Next(l, Offer(payer)))
  {
    var deals := Next(l, Offer(payer)).deals;
    var d := deals[|l.deals|];
    assert forall k :: 0 <= k < |l.deals| ==> deals[k] == l.deals[k];
    forall k | 0 <= k < |deals| ensures Covered(start, deals, k) {
      if k < |l.deals| && deals[k].reserved.Some? {
        assert Covered(start, l.deals, k);
        SumAppend(l.deals, d, PaidAhead(deals[k].payer.Other(), deals[k].offered));
        SumAppend(l.deals, d, OwedUpTo(deals[k].payer, deals[k].reserved.value));
      }
    }
    if NoneLost(deals) {
      assert forall j :: 0 <= j < |l.deals| ==> !deals[j].Lost();
      forall k | 0 <= k < |deals| ensures Backed(deals, k) {
        if k < |l.deals| {
          assert Backed(l.deals, k);
          SumAppend(l.deals, d, GotAt(deals[k].payer));
        }
      }
    }
  }

  /** A reservation changes nothing that covers or backs the others. */
  lemma ReserveKeepsOthers(start: Link, clock: nat, deals: seq<Deal>, i: nat, d: Deal, k: nat)
    requires AllOk(clock, deals) && i < |deals| && k < |deals| && k != i && Covered(start, deals, k)
    requires deals[i].reserved.None? && d == deals[i].(reserved := Some(clock), fiat := d.fiat, cover := d.cover)
    ensures Covered(start, deals[i := d], k)
    ensures Backed(deals, k) ==> Backed(deals[i := d], k)
  {
    var e := deals[k].payer;
    assert DealOk(clock, deals[i]) && DealOk(clock, deals[k]);
    SumUpdate(deals, i, d, GotAt(e));
    if deals[k].reserved.Some? {
      SumUpdate(deals, i, d, PaidAhead(e.Other(), deals[k].offered));
      SumUpdate(deals, i, d, OwedUpTo(e, deals[k].reserved.value));
    }
  }

  /** What a timely reservation counts on, the payer listed in time. */
  lemma CountedIsAhead(start: Link, l: Link, i: nat, fiat: real)
    requires Base(start, l) && CanReserve(l, i, fiat) && Timely(l, Reserve(i, fiat))
    ensures var p := l.deals[i].payer.Other();
      SumBy(l.deals, PaidBy(p)) <= SumBy(l.deals, PaidAhead(p, l.deals[i].offered))
  {
    var p := l.deals[i].payer.Other();
    SumMonotone(l.deals, PaidBy(p), PaidAhead(p, l.deals[i].offered));
  }

  /** The payee tests its own books, which mirror the payer's line. */
  lemma NewIsCovered(start: Link, l: Link, i: nat, fiat: real)
    requires Fresh(start) && Base(start, l) && CanReserve(l, i, fiat) && Timely(l, Reserve(i, fiat))
    ensures Covered(start, Next(l, Reserve(i, fiat)).deals, i)
  {
    var e, p := l.deals[i].payer, l.deals[i].payer.Other();
    var d, deals := Next(l, Reserve(i, fiat)).deals[i], Next(l, Reserve(i, fiat)).deals;
    assert DealOk(l.clock, l.deals[i]);
    CountedIsAhead(start, l, i, fiat);
    SumUpdate(l.deals, i, d, PaidAhead(p, d.offered));
    SumUpdate(l.deals, i, d, OwedBy(e));
    SumMonotone(deals, OwedUpTo(e, l.clock), OwedBy(e));
    OwedIsSplit(l.clock, l.deals, e);
    assert Books(start, l, p) && p.Other() == e;
    assert PeerAvailable(start.RowAt(p)) >= 0.0 && start.RowAt(p).allocation >= 0.0;
  }

  lemma ReserveKeepsCover(start: Link, l: Link, i: nat, fiat: real)
    requires Fresh(start) && Base(start, l) && Cover(start, l) && Timely(l, Reserve(i, fiat))
    ensures Cover(start, Next(l, Reserve(i, fiat)))
  {
    if CanReserve(l, i, fiat) {
      var deals := Next(l, Reserve(i, fiat)).deals;
      assert DealOk(l.clock, l.deals[i]);
      NewIsCovered(start, l, i, fiat);
      forall k | 0 <= k < |deals| && k != i
        ensures Covered(start, deals, k) && (Backed(l.deals, k) ==> Backed(deals, k))
      {
        ReserveKeepsOthers(start, l.clock, l.deals, i, deals[i], k);
      }
      if NoneLost(deals) {
        assert forall j :: 0 <= j < |deals| ==> !deals[j].Lost() && (j != i ==> deals[j] == l.deals[j]);
        assert NoneLost(l.deals);
      }
    }
  }

  lemma ShrinkKeepsCover(start: Link, l: Link, i: nat, less: real)
    requires Base(start, l) && Cover(start, l)
    ensures Cover(start, Next(l, Shrink(i, less)))
  {
    if i < |l.deals| && !l.deals[i].agreed && 0.0 <= less <= l.deals[i].fiat {
      assert DealOk(l.clock, l.deals[i]);
      AdvanceKeepsCover(start, l, Next(l, Shrink(i, less)), i, Next(l, Shrink(i, less)).deals[i]);
    }
  }

  lemma MarkKeepsCover(start: Link, l: Link, l': Link, i: nat, step: Step)
    requires Base(start, l) && Cover(start, l) && i < |l.deals|
    requires l'.deals == l.deals[i := Marked(l.deals[i], step)]
    ensures Cover(start, l')
  {
    MarkAdvances(l.clock, l.deals[i], step);
    AdvanceKeepsCover(start, l, l', i, Marked(l.deals[i], step));
  }

  lemma MarkAdvances(clock: nat, d: Deal, step: Step)
    requires DealOk(clock, d)
    ensures var d' := Marked(d, step);
      DealOk(clock, d') && Advances(d, d') && d'.failed == d.failed && (d'.Paid() ==> d.Paid())
  {
  }

  lemma NextKeepsCover(start: Link, l: Link, step: Step)
    requires Fresh(start) && Base(start, l) && Cover(start, l) && Timely(l, step)
    ensures Cover(start, Next(l, step))
  {
    match step
    case Offer(payer) => OfferKeepsCover(start, l, payer);
    case Reserve(i, fiat) => ReserveKeepsCover(start, l, i, fiat);
    case Shrink(i, less) => ShrinkKeepsCover(start, l, i, less);
    case Poll(e) => PollStandsAt(start, l, e, l.clock);
    case _ =>
      if step.i < |l.deals| {
        MarkKeepsCover(start, l, Next(l, step), step.i, step);
      }
  }

  lemma {:induction false} RunKeepsCover(start: Link, steps: seq<Step>)
    requires Fresh(start) && TimelyRun(start, steps)
    ensures Cover(start, Run(start, steps))
    decreases |steps|
  {
    if steps != [] {
      var init := steps[..|steps| - 1];
      RunKeepsCover(start, init);
      RunKeepsBase(start, init);
      NextKeepsCover(start, Run(start, init), steps[|steps| - 1]);
    }
  }

  /** With contracts in both directions a settlement fails only after a loss. Take any run of timely
      reservations, whatever expires, and any moment of a poll after it: if no payee's copy has
      expired unsettled with the payer paying, then no funds test has failed, so each end's balance
      has moved by exactly the contracts it has closed, although a payee may reserve against money
      that the payer has not booked yet. */
  lemma NoFailureWithoutLoss(start: Link, steps: seq<Step>, e: End, t: nat)
    requires Fresh(start) && TimelyRun(start, steps)
    requires NoneLost(PollUpTo(Run(start, steps), e, t).deals)
    ensures NoneFailed(PollUpTo(Run(start, steps), e, t).deals)
    ensures Books(start, PollUpTo(Run(start, steps), e, t), Left)
    ensures Books(start, PollUpTo(Run(start, steps), e, t), Right)
  {
    RunKeepsCover(start, steps);
    RunKeepsBase(start, steps);
    PollStandsAt(start, Run(start, steps), e, t);
  }

  // ---- Neither hypothesis can be dropped ----

  lemma Take(start: Link, run: seq<Step>, l: Link, step: Step) returns (run': seq<Step>, l': Link)
    requires l == Run(start, run)
    ensures run' == run + [step] && l' == Run(start, run') == Next(l, step)
    ensures TimelyRun(start, run') <==> TimelyRun(start, run) && Timely(l, step)
  {
    run', l' := run + [step], Next(l, step);
    assert run'[..|run|] == run;
  }

  function TrialSteps(e: End, n: nat, fiat: real): seq<Step> {
    [Offer(e)] + [Reserve(n, fiat)] + [Agree(n)] + [Confirm(n)] + [Poll(e)]
  }

  lemma AskedInSteps(l: Link, e: End, fiat: real, a: Link, b: Link, c: Link, d: Link)
    requires a == Next(l, Offer(e)) && b == Next(a, Reserve(|l.deals|, fiat))
    requires c == Next(b, Agree(|l.deals|)) && d == Next(c, Confirm(|l.deals|))
    ensures d == Asked(l, e, fiat)
  {
  }

  /** A trial is a run of five more steps, and its reservation is timely. */
  lemma TakeTrial(start: Link, run: seq<Step>, l: Link, e: End, fiat: real)
    returns (run': seq<Step>, l': Link)
    requires Fresh(start) && l == Run(start, run)
    ensures run' == run + TrialSteps(e, |l.deals|, fiat)
    ensures l' == Run(start, run') == Trial(l, e, fiat)
    ensures TimelyRun(start, run) ==> TimelyRun(start, run')
  {
    RunKeepsBase(start, run);
    TrialIsTimely(l, e, fiat);
    var a, b, c, d;
    run', a := Take(start, run, l, Offer(e));
    run', b := Take(start, run', a, Reserve(|l.deals|, fiat));
    run', c := Take(start, run', b, Agree(|l.deals|));
    run', d := Take(start, run', c, Confirm(|l.deals|));
    AskedInSteps(l, e, fiat, a, b, c, d);
    run', l' := Take(start, run', d, Poll(e));
  }

  lemma TrialIsTimely(l: Link, e: End, fiat: real)
    requires AllOk(l.clock, l.deals)
    ensures Timely(Next(l, Offer(e)), Reserve(|l.deals|, fiat))
  {
    var asked := Next(l, Offer(e));
    forall j | 0 <= j < |asked.deals| && asked.deals[j].payer != e && asked.deals[j].Paid()
      ensures asked.deals[j].reserved.Some? && asked.deals[j].reserved.value < l.clock
    {
      assert asked.deals[j] == l.deals[j] && DealOk(l.clock, l.deals[j]);
    }
  }

  /** What the next payment leaves when nothing else is due and it is funded. */
  lemma TrialPays(l: Link, e: End, fiat: real)
    requires AllOk(l.clock, l.deals) && NothingDue(l, e) && PeerAvailable(l.RowAt(e)) >= 0.0
    requires 0.0 < fiat <= PeerAvailable(l.RowAt(e.Other())) && fiat <= MyAvailable(l.RowAt(e))
    ensures var n, row, paid := |l.deals|, l.RowAt(e), Trial(l, e, fiat);
      && paid.clock == l.clock + 2 && paid.RowAt(e) == row.(balance := row.balance - fiat)
      && paid.RowAt(e.Other()) == Allocated(l.RowAt(e.Other()), fiat)
      && |paid.deals| == n + 1 && paid.deals[..n] == l.deals
      && paid.deals[n].payer == e && paid.deals[n].Paid() && paid.deals[n].OpenAt(e.Other())
  {
    var n, asked := |l.deals|, Asked(l, e, fiat);
    AskedIs(l, e, fiat);
    TrialSettles(l, e, fiat);
    assert Trial(l, e, fiat).deals[..n] == asked.deals[..n];
  }

  /** A payment of e's is funded and accepted. */
  predicate Funded(l: Link, e: End, fiat: real) {
    0.0 < fiat <= PeerAvailable(l.RowAt(e.Other())) && fiat <= MyAvailable(l.RowAt(e))
  }

  /** What it leaves. */
  predicate PaidNext(l: Link, e: End, fiat: real, paid: Link) {
    && paid.RowAt(e) == l.RowAt(e).(balance := l.RowAt(e).balance - fiat)
    && paid.RowAt(e.Other()) == Allocated(l.RowAt(e.Other()), fiat)
    && paid.clock == l.clock + 2 && |paid.deals| == |l.deals| + 1 && paid.deals[..|l.deals|] == l.deals
    && paid.deals[|l.deals|].payer == e && paid.deals[|l.deals|].Paid() && paid.deals[|l.deals|].OpenAt(e.Other())
  }

  /** The run continued by a payment that is funded. */
  lemma TakePayment(start: Link, run: seq<Step>, l: Link, e: End, fiat: real)
    returns (run': seq<Step>, paid: Link)
    requires Fresh(start) && l == Run(start, run) && TimelyRun(start, run) && NothingDue(l, e)
    requires Funded(l, e, fiat)
    ensures paid == Run(start, run') && TimelyRun(start, run') && run' == run + TrialSteps(e, |l.deals|, fiat)
    ensures PaidNext(l, e, fiat, paid)
  {
    RunKeepsBase(start, run);
    assert Books(start, l, e);
    TrialPays(l, e, fiat);
    run', paid := TakeTrial(start, run, l, e, fiat);
  }

  /** The run continued by one that is not. */
  lemma TakeFailure(start: Link, run: seq<Step>, l: Link, e: End, fiat: real) returns (run': seq<Step>)
    requires Fresh(start) && l == Run(start, run) && TimelyRun(start, run) && NothingDue(l, e)
    requires 0.0 < fiat <= PeerAvailable(l.RowAt(e.Other())) && MyAvailable(l.RowAt(e)) < fiat
    ensures TimelyRun(start, run') && |Run(start, run').deals| == |l.deals| + 1
    ensures Run(start, run').deals[|l.deals|].failed
  {
    RunKeepsBase(start, run);
    TrialFails(l, e, fiat);
    var failed;
    run', failed := TakeTrial(start, run, l, e, fiat);
  }

  lemma NoSteps(start: Link) returns (run: seq<Step>)
    ensures run == [] && Run(start, run) == start && TimelyRun(start, run)
  {
    run := [];
  }

  /** Right has paid this much, and Left's copy of that contract has expired unsettled. */
  ghost predicate HalfPaid(start: Link, l: Link, paid: real) {
    && l.left == start.left.(allocation := start.left.allocation + paid)
    && l.right == start.right.(balance := start.right.balance - paid)
    && |l.deals| == 1 && l.deals[0].payer == Right && l.deals[0].Lost()
  }

  lemma HalfPayment(start: Link, paid: real) returns (run: seq<Step>, l: Link)
    requires Fresh(start) && Funded(start, Right, paid)
    ensures l == Run(start, run) && TimelyRun(start, run) && HalfPaid(start, l, paid)
  {
    var settled;
    run := NoSteps(start);
    run, settled := TakePayment(start, run, start, Right, paid);
    run, l := Take(start, run, settled, Expire(Left, 0));
  }

  /** One loss is enough, on any link. Right makes a payment that Left loses by an expiry; Right then
      accepts any contract that needs what it has paid, and Left cannot settle it. */
  lemma LossCanBlock(start: Link, paid: real, next: real) returns (run: seq<Step>)
    requires Fresh(start) && Funded(start, Right, paid)
    requires MyAvailable(start.left) < next <= PeerAvailable(start.right) + paid && 0.0 < next
    ensures TimelyRun(start, run) && |Run(start, run).deals| == 2 && Run(start, run).deals[1].failed
  {
    var half;
    run, half := HalfPayment(start, paid);
    run := TakeFailure(start, run, half, Left, next);
  }

  predicate HasFailed(l: Link, i: nat, n: nat) { i < |l.deals| == n && l.deals[i].failed }

  lemma VisitKeepsFailure(l: Link, e: End, t: nat, i: nat, n: nat)
    requires HasFailed(l, i, n)
    ensures HasFailed(Visit(l, e, t), i, n)
  {
  }

  /** Failures are not undone by the rest of a poll. */
  lemma {:induction false} FailuresStay(l: Link, e: End, i: nat, n: nat, t: nat, later: nat)
    requires t <= later && HasFailed(PollUpTo(l, e, t), i, n)
    ensures HasFailed(PollUpTo(l, e, later), i, n)
    decreases later
  {
    if t < later {
      FailuresStay(l, e, i, n, t, later - 1);
      VisitKeepsFailure(PollUpTo(l, e, later - 1), e, later - 1, i, n);
    }
  }

  /** Right has paid this much while an earlier offer of Left's waits; Left has not booked it. */
  ghost predicate PaidMeanwhile(start: Link, l: Link, paid: real) {
    && l.left == start.left.(allocation := start.left.allocation + paid)
    && l.right == start.right.(balance := start.right.balance - paid)
    && |l.deals| == 2 && start.clock < l.clock && IsOffer(start, l.deals[0])
  }

  predicate IsOffer(start: Link, d: Deal) {
    && d.payer == Left && d.offered == start.clock && d.reserved.None? && d.openLeft && !d.expiredLeft && !d.agreed
  }

  lemma PaymentMeanwhile(start: Link, paid: real) returns (run: seq<Step>, l: Link)
    requires Fresh(start) && Funded(start, Right, paid)
    ensures l == Run(start, run) && PaidMeanwhile(start, l, paid)
    ensures run == [Offer(Left)] + TrialSteps(Right, 1, paid)
  {
    var waiting;
    run := NoSteps(start);
    run, waiting := Take(start, run, start, Offer(Left));
    run, l := TakePayment(start, run, waiting, Right, paid);
  }

  lemma PollFails(l: Link, end: Link)
    requires |l.deals| == 2 && l.deals[0].payer == Left && l.deals[0].offered == 0 && l.deals[0].DueAt(Left)
    requires MyAvailable(l.left) < l.deals[0].fiat && 0 < l.clock && end == Next(l, Poll(Left))
    ensures |end.deals| == 2 && end.deals[0].failed
  {
    assert ListedWhen(l.deals, Left, 0) == 0;
    FailuresStay(l, Left, 0, 2, 1, l.clock);
  }

  /** A late reservation is enough, on any link and without any expiry. Right makes a payment while an
      offer of Left's waits, and then reserves for that offer any amount that needs what it has paid:
      Left's poll comes to that contract before it books the payment. */
  lemma LateReservationCanBlock(start: Link, paid: real, next: real) returns (run: seq<Step>)
    requires Fresh(start) && Funded(start, Right, paid)
    requires MyAvailable(start.left) < next <= PeerAvailable(start.right) + paid && 0.0 < next
    ensures run == [Offer(Left)] + TrialSteps(Right, 1, paid)
      + [Reserve(0, next)] + [Agree(0)] + [Confirm(0)] + [Poll(Left)]
    ensures |Run(start, run).deals| == 2 && Run(start, run).deals[0].failed
  {
    var l, a, b, c, end;
    run, l := PaymentMeanwhile(start, paid);
    run, a := Take(start, run, l, Reserve(0, next));
    run, b := Take(start, run, a, Agree(0));
    run, c := Take(start, run, b, Confirm(0));
    run, end := Take(start, run, c, Poll(Left));
    PollFails(c, end);
  }
}
