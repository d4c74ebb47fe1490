/** Settlement on a link that is used in both directions (BtcContract.cpp, pollContracts, poll,
    execute; Payment.cpp). The payer lists a contract when it asks for it, the payee when it
    reserves the credit, and each end polls its contracts in the order in which it listed them. */
module TwoWayLinks {
  import opened Common
  import opened Sums
  import opened Accounts
  import opened Contracts
  import Settlement

  datatype End = Left | Right {
    function Other(): End { if this == Left then Right else Left }
  }

  /** A contract between the two friends: when the payer and when the payee listed it, and what the
      payee has reserved for it (nothing before that). `confirmed` means six confirmations. Two
      fields are history: `failed` tells that the payer's funds test inside execute failed, and
      `cover` is what the payee had paid the payer when it reserved. */
  datatype Deal = Deal(payer: End, offered: nat, reserved: Option<nat>, fiat: real, agreed: bool, confirmed: bool,
                       openLeft: bool, openRight: bool, expiredLeft: bool, expiredRight: bool,
                       failed: bool, cover: real)
  {
    predicate OpenAt(e: End) { if e == Left then openLeft else openRight }

    predicate ExpiredAt(e: End) { if e == Left then expiredLeft else expiredRight }

    function ListedAt(e: End): Option<nat> { if payer == e then Some(offered) else reserved }

    /** The poll at this end settles the contract. */
    predicate DueAt(e: End) { agreed && confirmed && OpenAt(e) && !ExpiredAt(e) }

    function Closed(e: End): Deal { if e == Left then this.(openLeft := false) else this.(openRight := false) }

    function Expired(e: End): Deal { if e == Left then this.(expiredLeft := true) else this.(expiredRight := true) }

    function SideAt(e: End): Party { if payer == e then SENDER else RECEIVER }

    predicate Paid() { !OpenAt(payer) && !failed }

    /** The payer has paid, and the payee's copy expired before the payee booked it. */
    predicate Lost() { Paid() && OpenAt(payer.Other()) && ExpiredAt(payer.Other()) }
  }

  /** Each end's row for the other, and all their contracts; the clock counts listings. */
  datatype Link = Link(left: Account, right: Account, clock: nat, deals: seq<Deal>) {
    function RowAt(e: End): Account { if e == Left then left else right }

    function WithRow(e: End, a: Account): Link { if e == Left then this.(left := a) else this.(right := a) }
  }

  /** A release before the agreement is a reduction to nothing. */
  datatype Step =
    | Offer(payer: End)
    | Reserve(i: nat, fiat: real)
    | Shrink(i: nat, less: real)
    | Agree(i: nat)
    | Confirm(i: nat)
    | Poll(e: End)
    | Expire(e: End, i: nat)

  /** The poll at this end settles the i-th contract. */
  function SettleAt(l: Link, e: End, i: nat): Link
    requires i < |l.deals|
  {
    var d := l.deals[i];
    var refused := d.payer == e && MyAvailable(l.RowAt(e)) < d.fiat;
    l.WithRow(e, Settlement.Settled(l.RowAt(e), d.SideAt(e), d.fiat))
     .(deals := l.deals[i := d.Closed(e).(failed := d.failed || refused)])
  }

  /** The contract this end listed at the given time. */
  function ListedWhen(deals: seq<Deal>, e: End, t: nat): (i: nat)
    ensures i <= |deals|
    ensures forall j :: 0 <= j < i ==> deals[j].ListedAt(e) != Some(t)
    ensures i < |deals| ==> deals[i].ListedAt(e) == Some(t)
  {
    if deals == [] || deals[0].ListedAt(e) == Some(t) then 0 else 1 + ListedWhen(deals[1..], e, t)
  }

  /** One contract's turn in a poll. */
  function Visit(l: Link, e: End, t: nat): Link {
    var i := ListedWhen(l.deals, e, t);
    if i < |l.deals| && l.deals[i].DueAt(e) then SettleAt(l, e, i) else l
  }

  /** A poll of the contracts listed before the given time. */
  function PollUpTo(l: Link, e: End, t: nat): Link {
    if t == 0 then l else Visit(PollUpTo(l, e, t - 1), e, t - 1)
  }

  function Next(l: Link, step: Step): Link {
    match step
    case Offer(payer) =>
      var d := Deal(payer, l.clock, None, 0.0, false, false, true, true, false, false, false, 0.0);
      l.(clock := l.clock + 1, deals := l.deals + [d])
    case Reserve(i, fiat) =>
      if CanReserve(l, i, fiat) then
        var payee := l.deals[i].payer.Other();
        var d := l.deals[i].(reserved := Some(l.clock), fiat := fiat, cover := SumBy(l.deals, PaidBy(payee)));
        l.WithRow(payee, Allocated(l.RowAt(payee), fiat)).(clock := l.clock + 1, deals := l.deals[i := d])
      else l
    case Shrink(i, less) =>
      if i < |l.deals| && !l.deals[i].agreed && 0.0 <= less <= l.deals[i].fiat then
        var d, payee := l.deals[i], l.deals[i].payer.Other();
        l.WithRow(payee, Deallocated(l.RowAt(payee), less)).(deals := l.deals[i := d.(fiat := d.fiat - less)])
      else l
    case Poll(e) => PollUpTo(l, e, l.clock)
    case Agree(i) => if i < |l.deals| then l.(deals := l.deals[i := Marked(l.deals[i], step)]) else l
    case Confirm(i) => if i < |l.deals| then l.(deals := l.deals[i := Marked(l.deals[i], step)]) else l
    case Expire(_, i) => if i < |l.deals| then l.(deals := l.deals[i := Marked(l.deals[i], step)]) else l
  }

  /** Agreement, confirmation and expiry move no money; only what is reserved is agreed, and only what
      is agreed is confirmed. */
  function Marked(d: Deal, step: Step): Deal {
    match step
    case Agree(_) => d.(agreed := d.agreed || d.reserved.Some?)
    case Confirm(_) => d.(confirmed := d.confirmed || d.agreed)
    case Expire(e, _) => d.Expired(e)
    case _ => d
  }

  /** The payee caps what it reserves to what is available. */
  predicate CanReserve(l: Link, i: nat, fiat: real) {
    i < |l.deals| && l.deals[i].reserved.None? && 0.0 < fiat <= PeerAvailable(l.RowAt(l.deals[i].payer.Other()))
  }

  function Run(l: Link, steps: seq<Step>): Link
    decreases |steps|
  {
    if steps == [] then l else Next(Run(l, steps[..|steps| - 1]), steps[|steps| - 1])
  }

  /** When the payee reserves, everything it has paid the payer was listed at the payer before the
      payer asked for this contract. */
  ghost predicate Timely(l: Link, step: Step) {
    step.Reserve? && CanReserve(l, step.i, step.fiat) ==>
      forall j :: 0 <= j < |l.deals| && l.deals[j].payer != l.deals[step.i].payer && l.deals[j].Paid() ==>
        l.deals[j].reserved.Some? && l.deals[j].reserved.value < l.deals[step.i].offered
  }

  ghost predicate TimelyRun(l: Link, steps: seq<Step>)
    decreases |steps|
  {
    steps != [] ==>
      TimelyRun(l, steps[..|steps| - 1]) && Timely(Run(l, steps[..|steps| - 1]), steps[|steps| - 1])
  }

  /** The two rows mirror each other and neither end has promised more than its credit line. */
  ghost predicate Fresh(l: Link) {
    && l.deals == [] && l.clock == 0 && l.left.balance == -l.right.balance
    && l.left.ourCredit == l.right.credit && l.right.ourCredit == l.left.credit
    && PeerAvailable(l.left) >= 0.0 && l.left.allocation >= 0.0
    && PeerAvailable(l.right) >= 0.0 && l.right.allocation >= 0.0
  }

  // ---- Sums over the deals ----

  function PaidBy(e: End): Deal -> real { (d: Deal) => if d.payer == e && d.Paid() then d.fiat else 0.0 }
  function FailedBy(e: End): Deal -> real { (d: Deal) => if d.payer == e && d.failed then d.fiat else 0.0 }
  function UnpaidBy(e: End): Deal -> real { (d: Deal) => if d.payer == e && d.OpenAt(e) then d.fiat else 0.0 }
  function GotAt(e: End): Deal -> real { (d: Deal) => if d.payer != e && !d.OpenAt(e) then d.fiat else 0.0 }
  function HeldAt(e: End): Deal -> real { (d: Deal) => if d.payer != e && d.OpenAt(e) then d.fiat else 0.0 }
  function OwedBy(e: End): Deal -> real { (d: Deal) => if d.payer == e then d.fiat else 0.0 }
  function LostBy(e: End): Deal -> real { (d: Deal) => if d.payer == e && d.Lost() then d.fiat else 0.0 }

  /** Booked here, but not paid at the other end. */
  function GotUnpaid(e: End): Deal -> real {
    (d: Deal) => if d.payer != e && !d.OpenAt(e) && !d.Paid() then d.fiat else 0.0
  }

  /** What the payee had reserved for payer e by time t. */
  function OwedUpTo(e: End, t: nat): Deal -> real {
    (d: Deal) => if d.payer == e && d.reserved.Some? && d.reserved.value <= t then d.fiat else 0.0
  }

  /** What e has paid by contracts that the other end listed before time t. */
  function PaidAhead(e: End, t: nat): Deal -> real {
    (d: Deal) => if d.payer == e && d.Paid() && d.reserved.Some? && d.reserved.value < t then d.fiat else 0.0
  }

  // ---- What holds in every run ----

  predicate DealOk(clock: nat, d: Deal) {
    && d.fiat >= 0.0 && d.offered < clock && (d.reserved.Some? ==> d.reserved.value < clock)
    && (d.reserved.None? ==> d.fiat == 0.0 && !d.agreed) && (d.confirmed ==> d.agreed)
    && (!d.confirmed ==> d.openLeft && d.openRight) && (d.failed ==> !d.OpenAt(d.payer))
  }

  ghost predicate AllOk(clock: nat, deals: seq<Deal>) {
    forall i :: 0 <= i < |deals| ==> DealOk(clock, deals[i])
  }

  /** No end lists two contracts at one time. */
  predicate Apart(a: Deal, b: Deal) {
    && (a.ListedAt(Left).Some? ==> a.ListedAt(Left) != b.ListedAt(Left))
    && (a.ListedAt(Right).Some? ==> a.ListedAt(Right) != b.ListedAt(Right))
  }

  ghost predicate AllApart(deals: seq<Deal>) {
    forall i, j :: 0 <= i < j < |deals| ==> Apart(deals[i], deals[j])
  }

  /** One end's books: start is the link before the first contract. */
  ghost predicate Books(start: Link, l: Link, e: End) {
    var row, row0 := l.RowAt(e), start.RowAt(e);
    && row.ourCredit == row0.ourCredit && row.credit == row0.credit
    && row.balance == row0.balance - SumBy(l.deals, PaidBy(e)) + SumBy(l.deals, GotAt(e))
    && row.allocation == row0.allocation + SumBy(l.deals, HeldAt(e))
    && PeerAvailable(row) >= 0.0 && MyAvailable(row) >= 0.0
  }

  ghost predicate Base(start: Link, l: Link) {
    AllOk(l.clock, l.deals) && AllApart(l.deals) && Books(start, l, Left) && Books(start, l, Right)
  }

  lemma {:induction false} OwedIsSplit(clock: nat, deals: seq<Deal>, e: End)
    requires AllOk(clock, deals)
    ensures SumBy(deals, OwedBy(e)) ==
      SumBy(deals, PaidBy(e)) + SumBy(deals, FailedBy(e)) + SumBy(deals, UnpaidBy(e))
    ensures SumBy(deals, OwedBy(e)) == SumBy(deals, GotAt(e.Other())) + SumBy(deals, HeldAt(e.Other()))
  {
    if deals != [] {
      assert DealOk(clock, deals[0]);
      OwedIsSplit(clock, deals[1..], e);
    }
  }

  /** How one end's books follow when the i-th deal is replaced. */
  lemma BooksUpdate(start: Link, l: Link, l': Link, e: End, i: nat, d: Deal)
    requires Books(start, l, e) && i < |l.deals| && l'.deals == l.deals[i := d]
    requires var row, row' := l.RowAt(e), l'.RowAt(e);
      && row'.ourCredit == row.ourCredit && row'.credit == row.credit
      && PeerAvailable(row') >= 0.0 && MyAvailable(row') >= 0.0
      && row'.balance == row.balance - PaidBy(e)(d) + PaidBy(e)(l.deals[i]) + GotAt(e)(d) - GotAt(e)(l.deals[i])
      && row'.allocation == row.allocation + HeldAt(e)(d) - HeldAt(e)(l.deals[i])
    ensures Books(start, l', e)
  {
    SumUpdate(l.deals, i, d, PaidBy(e));
    SumUpdate(l.deals, i, d, GotAt(e));
    SumUpdate(l.deals, i, d, HeldAt(e));
  }

  lemma ReplaceKeepsOk(clock: nat, clock': nat, deals: seq<Deal>, i: nat, d: Deal)
    requires AllOk(clock, deals) && AllApart(deals) && i < |deals| && DealOk(clock', d) && clock <= clock'
    requires d.ListedAt(Left) == deals[i].ListedAt(Left) || d.ListedAt(Left) == Some(clock)
    requires d.ListedAt(Right) == deals[i].ListedAt(Right) || d.ListedAt(Right) == Some(clock)
    ensures AllOk(clock', deals[i := d]) && AllApart(deals[i := d])
  {
    var after := deals[i := d];
    forall j, k | 0 <= j < k < |after| ensures Apart(after[j], after[k]) {
      assert Apart(deals[j], deals[k]) && DealOk(clock, deals[j]) && DealOk(clock, deals[k]);
    }
  }

  /** A settlement books its value unless the payer's funds test fails; a receiver, whose credit
      line is not overdrawn, always passes and gets its reservation back. */
  lemma SettledBooks(row: Account, party: Party, fiat: real)
    requires fiat >= 0.0 && PeerAvailable(row) >= 0.0
    ensures Settlement.Settled(row, party, fiat) ==
      if party == RECEIVER then row.(balance := row.balance + fiat, allocation := row.allocation - fiat)
      else if MyAvailable(row) < fiat then row
      else row.(balance := row.balance - fiat)
  {
  }

  lemma SettleKeepsBase(start: Link, l: Link, e: End, i: nat)
    requires Base(start, l) && i < |l.deals| && l.deals[i].DueAt(e)
    ensures Base(start, SettleAt(l, e, i))
  {
    var d, l' := l.deals[i], SettleAt(l, e, i);
    ReplaceKeepsOk(l.clock, l.clock, l.deals, i, l'.deals[i]);
    SettleKeepsBooks(start, l, e, i, e);
    SettleKeepsBooks(start, l, e, i, e.Other());
  }

  lemma SettleKeepsBooks(start: Link, l: Link, e: End, i: nat, end: End)
    requires Books(start, l, end) && i < |l.deals| && DealOk(l.clock, l.deals[i]) && l.deals[i].DueAt(e)
    ensures Books(start, SettleAt(l, e, i), end)
  {
    var d, l' := l.deals[i], SettleAt(l, e, i);
    if end == e {
      SettledBooks(l.RowAt(e), d.SideAt(e), d.fiat);
    }
    BooksUpdate(start, l, l', end, i, l'.deals[i]);
  }

  lemma OfferKeepsBase(start: Link, l: Link, payer: End)
    requires Base(start, l)
    ensures Base(start, Next(l, Offer(payer)))
  {
    var l' := Next(l, Offer(payer));
    var d := l'.deals[|l.deals|];
    forall j, k | 0 <= j < k < |l'.deals| ensures Apart(l'.deals[j], l'.deals[k]) {
      assert DealOk(l.clock, l.deals[j]) && (k < |l.deals| ==> Apart(l.deals[j], l.deals[k]));
    }
    AppendZero(l.deals, d, PaidBy(Left), GotAt(Left), HeldAt(Left));
    AppendZero(l.deals, d, PaidBy(Right), GotAt(Right), HeldAt(Right));
  }

  lemma AppendZero(deals: seq<Deal>, d: Deal, f: Deal -> real, g: Deal -> real, h: Deal -> real)
    requires f(d) == 0.0 && g(d) == 0.0 && h(d) == 0.0
    ensures SumBy(deals + [d], f) == SumBy(deals, f)
    ensures SumBy(deals + [d], g) == SumBy(deals, g)
    ensures SumBy(deals + [d], h) == SumBy(deals, h)
  {
    SumAppend(deals, d, f);
    SumAppend(deals, d, g);
    SumAppend(deals, d, h);
  }

  lemma ReserveKeepsBase(start: Link, l: Link, i: nat, fiat: real)
    requires Base(start, l)
    ensures Base(start, Next(l, Reserve(i, fiat)))
  {
    var l' := Next(l, Reserve(i, fiat));
    if CanReserve(l, i, fiat) {
      assert DealOk(l.clock, l.deals[i]);
      ReplaceKeepsOk(l.clock, l'.clock, l.deals, i, l'.deals[i]);
      BooksUpdate(start, l, l', Left, i, l'.deals[i]);
      BooksUpdate(start, l, l', Right, i, l'.deals[i]);
    }
  }

  lemma ShrinkKeepsBase(start: Link, l: Link, i: nat, less: real)
    requires Base(start, l)
    ensures Base(start, Next(l, Shrink(i, less)))
  {
    var l' := Next(l, Shrink(i, less));
    if i < |l.deals| && !l.deals[i].agreed && 0.0 <= less <= l.deals[i].fiat {
      assert DealOk(l.clock, l.deals[i]);
      ReplaceKeepsOk(l.clock, l.clock, l.deals, i, l'.deals[i]);
      BooksUpdate(start, l, l', Left, i, l'.deals[i]);
      BooksUpdate(start, l, l', Right, i, l'.deals[i]);
    }
  }

  predicate SameMoney(d: Deal, d': Deal) {
    d' == d.(agreed := d'.agreed, confirmed := d'.confirmed, expiredLeft := d'.expiredLeft,
             expiredRight := d'.expiredRight)
  }

  lemma MarkMovesNothing(clock: nat, d: Deal, step: Step)
    requires DealOk(clock, d)
    ensures DealOk(clock, Marked(d, step)) && SameMoney(d, Marked(d, step))
  {
  }

  lemma MarkKeepsBase(start: Link, l: Link, i: nat, d: Deal)
    requires Base(start, l) && i < |l.deals| && DealOk(l.clock, d) && SameMoney(l.deals[i], d)
    ensures Base(start, l.(deals := l.deals[i := d]))
  {
    ReplaceKeepsOk(l.clock, l.clock, l.deals, i, d);
    BooksUpdate(start, l, l.(deals := l.deals[i := d]), Left, i, d);
    BooksUpdate(start, l, l.(deals := l.deals[i := d]), Right, i, d);
  }

  lemma {:induction false} PollKeepsBase(start: Link, l: Link, e: End, t: nat)
    requires Base(start, l)
    ensures Base(start, PollUpTo(l, e, t))
    ensures PollUpTo(l, e, t).clock == l.clock && |PollUpTo(l, e, t).deals| == |l.deals|
  {
    if t > 0 {
      PollKeepsBase(start, l, e, t - 1);
      var l' := PollUpTo(l, e, t - 1);
      var i := ListedWhen(l'.deals, e, t - 1);
      if i < |l'.deals| && l'.deals[i].DueAt(e) {
        SettleKeepsBase(start, l', e, i);
      }
    }
  }

  lemma NextKeepsBase(start: Link, l: Link, step: Step)
    requires Base(start, l)
    ensures Base(start, Next(l, step))
  {
    match step
    case Offer(payer) => OfferKeepsBase(start, l, payer);
    case Reserve(i, fiat) => ReserveKeepsBase(start, l, i, fiat);
    case Shrink(i, less) => ShrinkKeepsBase(start, l, i, less);
    case Poll(e) => PollKeepsBase(start, l, e, l.clock);
    case _ =>
      if step.i < |l.deals| {
        assert DealOk(l.clock, l.deals[step.i]);
        MarkMovesNothing(l.clock, l.deals[step.i], step);
        MarkKeepsBase(start, l, step.i, Marked(l.deals[step.i], step));
      }
  }

  lemma StartBase(start: Link)
    requires Fresh(start)
    ensures Base(start, start)
  {
  }

  lemma {:induction false} RunKeepsBase(start: Link, steps: seq<Step>)
    requires Fresh(start)
    ensures Base(start, Run(start, steps))
    decreases |steps|
  {
    if steps == [] {
      StartBase(start);
    } else {
      RunKeepsBase(start, steps[..|steps| - 1]);
      NextKeepsBase(start, Run(start, steps[..|steps| - 1]), steps[|steps| - 1]);
    }
  }

  // ---- When exactly a settlement can fail ----

  /** Neither end knows what the other has booked: what the payee thinks available and what the
      payer has available differ by this. */
  lemma AvailabilityGap(start: Link, l: Link, e: End)
    requires Fresh(start) && Base(start, l)
    ensures var p := e.Other();
      PeerAvailable(l.RowAt(p)) - MyAvailable(l.RowAt(e)) ==
        SumBy(l.deals, PaidBy(p)) - SumBy(l.deals, GotAt(e)) - SumBy(l.deals, UnpaidBy(e))
        - SumBy(l.deals, FailedBy(e)) - start.RowAt(p).allocation
  {
    var p := e.Other();
    assert Books(start, l, e) && Books(start, l, p);
    OwedIsSplit(l.clock, l.deals, e);
  }

  ghost predicate NothingDue(l: Link, e: End) {
    forall i :: 0 <= i < |l.deals| ==> !l.deals[i].DueAt(e)
  }

  lemma {:induction false} GapIsLoss(clock: nat, deals: seq<Deal>, e: End)
    requires AllOk(clock, deals) && forall i :: 0 <= i < |deals| ==> !deals[i].DueAt(e)
    ensures SumBy(deals, PaidBy(e.Other())) - SumBy(deals, GotAt(e)) ==
      SumBy(deals, LostBy(e.Other())) - SumBy(deals, GotUnpaid(e))
  {
    if deals != [] {
      assert DealOk(clock, deals[0]) && !deals[0].DueAt(e);
      GapIsLoss(clock, deals[1..], e);
    }
  }

  /** The next contract e pays by: asked for, reserved, agreed and confirmed at once. */
  function Asked(l: Link, e: End, fiat: real): Link {
    var n := |l.deals|;
    Next(Next(Next(Next(l, Offer(e)), Reserve(n, fiat)), Agree(n)), Confirm(n))
  }

  /** Then e polls. */
  function Trial(l: Link, e: End, fiat: real): Link { Next(Asked(l, e, fiat), Poll(e)) }

  /** A poll changes nothing before it comes to a contract that is due. */
  lemma {:induction false} PollIsIdle(l: Link, e: End, t: nat)
    requires forall j :: 0 <= j < |l.deals| && l.deals[j].ListedAt(e).Some? && l.deals[j].ListedAt(e).value < t ==>
      !l.deals[j].DueAt(e)
    ensures PollUpTo(l, e, t) == l
  {
    if t > 0 {
      PollIsIdle(l, e, t - 1);
    }
  }

  /** What the trial polls: the old contracts and the new one. */
  lemma AskedIs(l: Link, e: End, fiat: real)
    requires AllOk(l.clock, l.deals) && 0.0 < fiat <= PeerAvailable(l.RowAt(e.Other()))
    ensures var n, asked := |l.deals|, Asked(l, e, fiat);
      && asked.clock == l.clock + 2 && asked.RowAt(e) == l.RowAt(e)
      && asked.RowAt(e.Other()) == Allocated(l.RowAt(e.Other()), fiat)
      && |asked.deals| == n + 1 && asked.deals[..n] == l.deals
      && asked.deals[n].DueAt(e) && asked.deals[n].payer == e && asked.deals[n].fiat == fiat
      && asked.deals[n].offered == l.clock && !asked.deals[n].failed && asked.deals[n].OpenAt(e.Other())
  {
  }

  lemma FirstTurn(l: Link, e: End, n: nat, c: nat)
    requires n < |l.deals| && l.deals[n].DueAt(e) && l.deals[n].ListedAt(e) == Some(c)
    requires forall j :: 0 <= j < |l.deals| && j != n ==> !l.deals[j].DueAt(e) && l.deals[j].ListedAt(e) != Some(c)
    ensures PollUpTo(l, e, c + 1) == SettleAt(l, e, n)
  {
    PollIsIdle(l, e, c);
    assert ListedWhen(l.deals, e, c) == n;
  }

  lemma PollRests(l: Link, e: End, now: Link, c: nat, t: nat)
    requires PollUpTo(l, e, c) == now && NothingDue(now, e) && c <= t
    ensures PollUpTo(l, e, t) == now
  {
    for n := c to t
      invariant PollUpTo(l, e, n) == now
    {
      assert Visit(now, e, n) == now;
    }
  }

  /** A poll that finds only one contract due. */
  lemma PollFindsOne(l: Link, e: End, n: nat, c: nat, now: Link)
    requires n < |l.deals| && l.deals[n].DueAt(e) && l.deals[n].ListedAt(e) == Some(c) && c < l.clock
    requires forall j :: 0 <= j < |l.deals| && j != n ==> !l.deals[j].DueAt(e) && l.deals[j].ListedAt(e) != Some(c)
    requires now == SettleAt(l, e, n)
    ensures PollUpTo(l, e, l.clock) == now
  {
    FirstTurn(l, e, n, c);
    OneSettled(l, e, n, now);
    PollRests(l, e, now, c + 1, l.clock);
  }

  lemma OneSettled(l: Link, e: End, n: nat, now: Link)
    requires n < |l.deals| && now == SettleAt(l, e, n)
    requires forall j :: 0 <= j < |l.deals| && j != n ==> !l.deals[j].DueAt(e)
    ensures NothingDue(now, e)
  {
    forall j | 0 <= j < |now.deals| ensures !now.deals[j].DueAt(e) {
      assert j != n ==> now.deals[j] == l.deals[j];
    }
  }

  lemma OldAreNotDue(l: Link, asked: Link, e: End, j: nat)
    requires AllOk(l.clock, l.deals) && NothingDue(l, e) && j < |l.deals| <= |asked.deals|
    requires asked.deals[..|l.deals|] == l.deals
    ensures !asked.deals[j].DueAt(e) && asked.deals[j].ListedAt(e) != Some(l.clock)
  {
    assert asked.deals[j] == asked.deals[..|l.deals|][j] && DealOk(l.clock, l.deals[j]);
  }

  lemma TrialSettles(l: Link, e: End, fiat: real)
    requires AllOk(l.clock, l.deals) && NothingDue(l, e) && 0.0 < fiat <= PeerAvailable(l.RowAt(e.Other()))
    ensures |Asked(l, e, fiat).deals| == |l.deals| + 1
    ensures Trial(l, e, fiat) == SettleAt(Asked(l, e, fiat), e, |l.deals|)
  {
    var n, asked := |l.deals|, Asked(l, e, fiat);
    AskedIs(l, e, fiat);
    forall j | 0 <= j < n ensures !asked.deals[j].DueAt(e) && asked.deals[j].ListedAt(e) != Some(l.clock) {
      OldAreNotDue(l, asked, e, j);
    }
    PollFindsOne(asked, e, n, l.clock, SettleAt(asked, e, n));
  }

  lemma TrialFails(l: Link, e: End, fiat: real)
    requires AllOk(l.clock, l.deals) && NothingDue(l, e) && 0.0 < fiat <= PeerAvailable(l.RowAt(e.Other()))
    ensures |Trial(l, e, fiat).deals| == |l.deals| + 1
    ensures Trial(l, e, fiat).deals[|l.deals|].failed <==> MyAvailable(l.RowAt(e)) < fiat
  {
    TrialSettles(l, e, fiat);
    AskedIs(l, e, fiat);
  }

  /** The exact condition. Take any state of any run, with any expiries and failures behind it, in
      which nothing is due at e. Some contract that the other end can accept now fails when e
      settles it, if and only if what the other end has paid and e has lost by an expiry exceeds
      what e has booked without being paid, what e still owes or failed to pay, and what the other
      end held back from the start. */
  lemma NextContractCanFailIff(start: Link, steps: seq<Step>, e: End)
    requires Fresh(start) && NothingDue(Run(start, steps), e)
    ensures
      var l, p, n := Run(start, steps), e.Other(), |Run(start, steps).deals|;
      (exists fiat :: 0.0 < fiat <= PeerAvailable(l.RowAt(p)) && |Trial(l, e, fiat).deals| == n + 1
         && Trial(l, e, fiat).deals[n].failed)
      <==>
      SumBy(l.deals, LostBy(p)) > SumBy(l.deals, GotUnpaid(e)) + SumBy(l.deals, UnpaidBy(e))
        + SumBy(l.deals, FailedBy(e)) + start.RowAt(p).allocation
  {
    var l, p, n := Run(start, steps), e.Other(), |Run(start, steps).deals|;
    RunKeepsBase(start, steps);
    AvailabilityGap(start, l, e);
    GapIsLoss(l.clock, l.deals, e);
    assert Books(start, l, e) && MyAvailable(l.RowAt(e)) >= 0.0;
    forall fiat | 0.0 < fiat <= PeerAvailable(l.RowAt(p))
      ensures |Trial(l, e, fiat).deals| == n + 1
      ensures Trial(l, e, fiat).deals[n].failed <==> MyAvailable(l.RowAt(e)) < fiat
    {
      TrialFails(l, e, fiat);
    }
    if MyAvailable(l.RowAt(e)) < PeerAvailable(l.RowAt(p)) {
      assert Trial(l, e, PeerAvailable(l.RowAt(p))).deals[n].failed;
    }
  }
}
