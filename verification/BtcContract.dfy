/** Local contracts with friends (BtcContract.cpp) and the credit they hold back.
    This module specifies each operation on values and proves what they promise; ContractLists
    is the code itself, proved against this specification. */
module Contracts {
  import opened Common
  import opened Sums
  import opened Accounts

  datatype Party = RECEIVER | SENDER

  datatype Contract = Contract(
    btcAmount: real, price: real, currency: Currency, party: Party, counterParty: Peer, fee: real,
    created: int, activated: bool, txId: TxId, destAddress: Option<Address>)

  const REQ_CONFIRMATIONS: nat := 6
  const CONTRACT_TIMEOUT := 86400000

  function Fiat(c: Contract): real { c.btcAmount * c.price }

  function KeyOf(c: Contract): Key { (c.counterParty, c.currency) }

  /** The contracts of a node, its peers table, and the receiver contracts that expired.
      The last is history only: no operation reads it. */
  datatype Ledger = Ledger(peers: map<Key, Account>, contracts: seq<Contract>, expired: seq<Contract>)

  // ---- Specification of the operations ----

  /** The amount a new receiver contract keeps, or None when the constructor throws. */
  function Capped(btcAmount: real, fee: real, price: real, available: real): Option<real>
    requires price > 0.0
  {
    if available <= fee then None
    else if available < btcAmount * price + fee then Some((available - fee) / price)
    else Some(btcAmount)
  }

  /** The fiat amount the constructor passes to allocate. */
  function FiatToAllocate(btcAmount: real, fee: real, price: real, available: real): real {
    if available < btcAmount * price + fee then available - fee else btcAmount * price
  }

  function NewContract(btcAmount: real, fee: real, price: real, currency: Currency, party: Party,
                       counterParty: Peer, now: int): Contract {
    Contract(btcAmount, price, currency, party, counterParty, fee, now, false, NoTx, None)
  }

  /** The credit check of a receiver contract: the peers table afterwards and the amount kept. */
  function Reserve(peers: map<Key, Account>, k: Key, btcAmount: real, fee: real, price: real)
    : (map<Key, Account>, Option<real>)
    requires price > 0.0
  {
    var available := PeerAvailable(Row(peers, k));
    match Capped(btcAmount, fee, price, available)
    case None => (peers, None)
    case Some(kept) =>
      (Write(peers, k, Allocated(Row(peers, k), FiatToAllocate(btcAmount, fee, price, available))), Some(kept))
  }

  function Create(l: Ledger, btcAmount: real, fee: real, price: real, currency: Currency, party: Party,
                  counterParty: Peer, now: int): (Ledger, Option<Contract>)
    requires price > 0.0
  {
    var (peers, kept) :=
      if party == RECEIVER then Reserve(l.peers, (counterParty, currency), btcAmount, fee, price)
      else (l.peers, Some(btcAmount));
    if kept.None? then (l, None)
    else
      var c := NewContract(kept.value, fee, price, currency, party, counterParty, now);
      (l.(peers := peers, contracts := l.contracts + [c]), Some(c))
  }

  function Release(peers: map<Key, Account>, k: Key, amount: real): map<Key, Account> {
    Write(peers, k, Deallocated(Row(peers, k), amount))
  }

  /** setBtcAmount on the i-th contract of the list. */
  function SetAmount(l: Ledger, i: nat, btcAmount: real): Ledger
    requires i < |l.contracts|
  {
    var c := l.contracts[i];
    var c' := c.(btcAmount := btcAmount);
    var peers := if c.party == RECEIVER then Release(l.peers, KeyOf(c), Fiat(c) - Fiat(c')) else l.peers;
    l.(peers := peers, contracts := l.contracts[i := c'])
  }

  /** The contract rmContract settles on: the first one with the same friend and Bitcoin TX. */
  function FirstMatch(cs: seq<Contract>, counterParty: Peer, txId: TxId): (i: nat)
    ensures i <= |cs|
    ensures forall j :: 0 <= j < i ==> !(cs[j].counterParty == counterParty && cs[j].txId == txId)
    ensures i < |cs| ==> cs[i].counterParty == counterParty && cs[i].txId == txId
  {
    if cs == [] then 0
    else if cs[0].counterParty == counterParty && cs[0].txId == txId then 0
    else 1 + FirstMatch(cs[1..], counterParty, txId)
  }

  /** Erases the i-th contract on behalf of an argument that is on the given side. */
  function Erase(l: Ledger, i: nat, party: Party): Ledger
    requires i < |l.contracts|
  {
    var c := l.contracts[i];
    var peers := if party == RECEIVER then Release(l.peers, KeyOf(c), Fiat(c)) else l.peers;
    l.(peers := peers, contracts := l.contracts[..i] + l.contracts[i + 1..])
  }

  /** rmContract( arg ): note that arg's own side decides whether funds are released. */
  function Remove(l: Ledger, arg: Contract): Ledger {
    var i := FirstMatch(l.contracts, arg.counterParty, arg.txId);
    if i == |l.contracts| then l
    else Erase(l, i, arg.party)
  }

  /** A settlement of the given value: the receiver gives the reservation back before it tests
      for funds. */
  function Settle(peers: map<Key, Account>, k: Key, party: Party, fiat: real): map<Key, Account> {
    if party == SENDER then
      Write(peers, k, Spent(Row(peers, k), fiat))
    else
      var released := Release(peers, k, fiat);
      Write(released, k, Received(Row(released, k), fiat))
  }

  function Execute(peers: map<Key, Account>, c: Contract): map<Key, Account> {
    Settle(peers, KeyOf(c), c.party, Fiat(c))
  }

  predicate TimedOut(c: Contract, now: int) { now - c.created > CONTRACT_TIMEOUT }

  predicate Settles(c: Contract, now: int, confirmations: TxId -> nat) {
    !TimedOut(c, now) && c.activated && confirmations(c.txId) >= REQ_CONFIRMATIONS
  }

  /** One iteration of pollContracts: whether the i-th contract was erased, and what is left. */
  function PollAt(l: Ledger, i: nat, now: int, confirmations: TxId -> nat): (Ledger, bool)
    requires i < |l.contracts|
  {
    var c := l.contracts[i];
    var rest := l.contracts[..i] + l.contracts[i + 1..];
    if TimedOut(c, now) then
      var gone := if c.party == RECEIVER then [c] else [];
      (l.(contracts := rest, expired := l.expired + gone), true)
    else if Settles(c, now, confirmations) then
      (l.(peers := Execute(l.peers, c), contracts := rest), true)
    else
      (l, false)
  }

  /** pollContracts from position i to the end of the list. */
  function PollFrom(l: Ledger, i: nat, now: int, confirmations: TxId -> nat): Ledger
    requires i <= |l.contracts|
    decreases |l.contracts| - i
  {
    if i == |l.contracts| then l
    else
      var (after, erased) := PollAt(l, i, now, confirmations);
      PollFrom(after, if erased then i else i + 1, now, confirmations)
  }

  // ---- What a pass does, by the fields of the contracts ----

  /** Neither a day old nor settled: the contract stays. */
  function StillOpen(now: int, confirmations: TxId -> nat): Contract -> bool {
    (c: Contract) =>
      now - c.created <= CONTRACT_TIMEOUT && !(c.activated && confirmations(c.txId) >= REQ_CONFIRMATIONS)
  }

  /** Active, at most a day old, and its Bitcoin TX has its confirmations: the contract settles. */
  function Confirmed(now: int, confirmations: TxId -> nat): Contract -> bool {
    (c: Contract) =>
      now - c.created <= CONTRACT_TIMEOUT && c.activated && confirmations(c.txId) >= REQ_CONFIRMATIONS
  }

  /** Settlements one after the other. */
  function AllExecuted(peers: map<Key, Account>, cs: seq<Contract>): map<Key, Account> {
    if cs == [] then peers else AllExecuted(Execute(peers, cs[0]), cs[1..])
  }

  /** A pass leaves exactly the contracts that are still open. */
  lemma {:induction false} PollLeavesOpen(l: Ledger, i: nat, now: int, confirmations: TxId -> nat)
    requires i <= |l.contracts|
    ensures PollFrom(l, i, now, confirmations).contracts ==
      l.contracts[..i] + Where(l.contracts[i..], StillOpen(now, confirmations))
    decreases |l.contracts| - i
  {
    if i < |l.contracts| {
      var (after, erased) := PollAt(l, i, now, confirmations);
      PollLeavesOpen(after, if erased then i else i + 1, now, confirmations);
    }
  }

  lemma ExecuteFirst(peers: map<Key, Account>, c: Contract, rest: seq<Contract>)
    ensures AllExecuted(peers, [c] + rest) == AllExecuted(Execute(peers, c), rest)
  {
    assert ([c] + rest)[1..] == rest;
  }

  lemma SettledSoFar(peers: map<Key, Account>, cs: seq<Contract>, after: seq<Contract>, i: nat, erased: bool,
                     f: Contract -> bool, r: map<Key, Account>)
    requires i < |cs| && (f(cs[i]) ==> erased) && after == if erased then cs[..i] + cs[i + 1..] else cs
    requires var next := if erased then i else i + 1;
      r == AllExecuted(if f(cs[i]) then Execute(peers, cs[i]) else peers, Where(after[next..], f))
    ensures r == AllExecuted(peers, Where(cs[i..], f))
  {
    WhereFrom(cs, i, f);
    assert after[if erased then i else i + 1..] == cs[i + 1..];
    ExecuteFirst(peers, cs[i], Where(cs[i + 1..], f));
  }

  /** It settles exactly the confirmed ones, in the order of the list. */
  lemma {:induction false} PollSettlesConfirmed(l: Ledger, i: nat, now: int, confirmations: TxId -> nat)
    requires i <= |l.contracts|
    ensures PollFrom(l, i, now, confirmations).peers ==
      AllExecuted(l.peers, Where(l.contracts[i..], Confirmed(now, confirmations)))
    decreases |l.contracts| - i
  {
    if i < |l.contracts| {
      var (after, erased) := PollAt(l, i, now, confirmations);
      PollSettlesConfirmed(after, if erased then i else i + 1, now, confirmations);
      SettledSoFar(l.peers, l.contracts, after.contracts, i, erased, Confirmed(now, confirmations),
                   PollFrom(l, i, now, confirmations).peers);
    }
  }

  /** Friends without a settled contract see nothing of it. */
  lemma {:induction false} OthersUntouched(peers: map<Key, Account>, cs: seq<Contract>, k: Key)
    requires k in peers && forall c :: c in cs ==> KeyOf(c) != k
    ensures k in AllExecuted(peers, cs) && AllExecuted(peers, cs)[k] == peers[k]
    decreases |cs|
  {
    if cs != [] {
      assert KeyOf(cs[0]) != k;
      OthersUntouched(Execute(peers, cs[0]), cs[1..], k);
    }
  }

  /** A contract with friend k is active, at most a day old, and has its six confirmations. */
  ghost predicate HasConfirmed(cs: seq<Contract>, k: Key, now: int, confirmations: TxId -> nat) {
    exists c :: c in cs && KeyOf(c) == k && c.activated && now - c.created <= 86400000 && confirmations(c.txId) >= 6
  }

  lemma {:induction false} KeysStay(peers: map<Key, Account>, cs: seq<Contract>)
    ensures AllExecuted(peers, cs).Keys == peers.Keys
  {
    if cs != [] {
      KeysStay(Execute(peers, cs[0]), cs[1..]);
    }
  }

  /** A whole pass, told by the contracts' fields. What is open stays, in its order; what is confirmed is
      settled, in its order; and a friend's account changes only if something with it is confirmed. */
  ghost predicate Passed(l: Ledger, after: Ledger, now: int, confirmations: TxId -> nat) {
    && after.contracts == Where(l.contracts, StillOpen(now, confirmations))
    && after.peers == AllExecuted(l.peers, Where(l.contracts, Confirmed(now, confirmations)))
    && (forall c :: c in l.contracts ==>
         (c in after.contracts <==> now - c.created <= 86400000 && !(c.activated && confirmations(c.txId) >= 6)))
    && after.peers.Keys == l.peers.Keys
    && forall k :: k in l.peers && after.peers[k] != l.peers[k] ==> HasConfirmed(l.contracts, k, now, confirmations)
  }

  lemma PassByFields(l: Ledger, now: int, confirmations: TxId -> nat)
    ensures Passed(l, PollFrom(l, 0, now, confirmations), now, confirmations)
  {
    PollLeavesOpen(l, 0, now, confirmations);
    PollSettlesConfirmed(l, 0, now, confirmations);
    assert l.contracts[0..] == l.contracts && l.contracts[..0] == [];
    var due := Where(l.contracts, Confirmed(now, confirmations));
    KeysStay(l.peers, due);
    forall c: Contract {
      WhereHas(l.contracts, StillOpen(now, confirmations), c);
    }
    forall k | k in l.peers && AllExecuted(l.peers, due)[k] != l.peers[k]
      ensures HasConfirmed(l.contracts, k, now, confirmations)
    {
      if forall c :: c in due ==> KeyOf(c) != k {
        OthersUntouched(l.peers, due, k);
      } else {
        var c :| c in due && KeyOf(c) == k;
        WhereHas(l.contracts, Confirmed(now, confirmations), c);
      }
    }
  }

  // ---- Credit capping is exact ----

  /** The kept amount is the largest one whose fiat value plus the fee still fits into the
      friend's credit; the constructor throws exactly when no positive amount fits. */
  lemma CappedIsLargest(btcAmount: real, fee: real, price: real, available: real, x: real)
    requires btcAmount > 0.0 && fee >= 0.0 && price > 0.0
    ensures Capped(btcAmount, fee, price, available).None? <==> available <= fee
    ensures Capped(btcAmount, fee, price, available).Some? ==>
      var kept := Capped(btcAmount, fee, price, available).value;
      0.0 < kept <= btcAmount && kept * price + fee <= available
    ensures Capped(btcAmount, fee, price, available).Some? && x <= btcAmount && x * price + fee <= available ==>
      x <= Capped(btcAmount, fee, price, available).value
    ensures Capped(btcAmount, fee, price, available).None? && 0.0 < x ==> x * price + fee > available
  {
  }

  /** The constructor ignores the result of allocate; that is sound, because allocate always
      succeeds there, reserves exactly getFiatAmount() and leaves the fee available. */
  lemma CreateAllocatesItsFiat(l: Ledger, btcAmount: real, fee: real, price: real, currency: Currency,
                               counterParty: Peer, now: int)
    requires btcAmount > 0.0 && fee >= 0.0 && price > 0.0
    ensures
      var k := (counterParty, currency);
      var (l', made) := Create(l, btcAmount, fee, price, currency, RECEIVER, counterParty, now);
      if made.None? then l' == l && PeerAvailable(Row(l.peers, k)) <= fee
      else
        && (k in l.peers ==> l'.peers[k] == l.peers[k].(allocation := l.peers[k].allocation + Fiat(made.value)))
        && PeerAvailable(Row(l'.peers, k)) >= fee
        && Row(l.peers, k).allocation + Fiat(made.value) <= Row(l.peers, k).credit - Row(l.peers, k).balance - fee
  {
  }

  // ---- Allocation is conserved ----

  /** How much of friend k's allocation one contract accounts for. */
  function ShareOf(k: Key): Contract -> real {
    (c: Contract) => if c.party == RECEIVER && KeyOf(c) == k then Fiat(c) else 0.0
  }

  function Held(l: Ledger, k: Key): real {
    SumBy(l.contracts, ShareOf(k)) + SumBy(l.expired, ShareOf(k))
  }

  ghost predicate WellFormed(l: Ledger) {
    && (forall i :: 0 <= i < |l.contracts| ==> l.contracts[i].btcAmount >= 0.0 && l.contracts[i].price > 0.0)
    && (forall i :: 0 <= i < |l.contracts| && l.contracts[i].party == RECEIVER ==> KeyOf(l.contracts[i]) in l.peers)
  }

  /** Every friend's allocation is what the live and the expired receiver contracts with that
      friend add up to. */
  ghost predicate Conserved(l: Ledger) {
    forall k :: k in l.peers ==> l.peers[k].allocation == Held(l, k)
  }

  ghost predicate NeverOverdrawn(l: Ledger) {
    forall k :: k in l.peers ==> PeerAvailable(l.peers[k]) >= 0.0
  }

  ghost predicate Sound(l: Ledger) { WellFormed(l) && Conserved(l) && NeverOverdrawn(l) }

  lemma FiatNonNegative(c: Contract)
    requires c.btcAmount >= 0.0 && c.price > 0.0
    ensures Fiat(c) >= 0.0
  {
  }

  lemma CreateKeepsSound(l: Ledger, btcAmount: real, fee: real, price: real, currency: Currency, party: Party,
                         counterParty: Peer, now: int)
    requires Sound(l) && btcAmount > 0.0 && fee >= 0.0 && price > 0.0
    ensures Sound(Create(l, btcAmount, fee, price, currency, party, counterParty, now).0)
  {
    var (l', made) := Create(l, btcAmount, fee, price, currency, party, counterParty, now);
    if party == RECEIVER {
      CreateAllocatesItsFiat(l, btcAmount, fee, price, currency, counterParty, now);
      CappedIsLargest(btcAmount, fee, price, PeerAvailable(Row(l.peers, (counterParty, currency))), 0.0);
    }
    if made.Some? {
      forall k | k in l'.peers ensures l'.peers[k].allocation == Held(l', k) {
        SumAppend(l.contracts, made.value, ShareOf(k));
      }
    }
  }

  /** Replacing a contract is sound when every friend's allocation moves with that friend's share. */
  lemma ReplaceKeepsConserved(l: Ledger, i: nat, c: Contract, peers: map<Key, Account>)
    requires Sound(l) && i < |l.contracts| && peers.Keys == l.peers.Keys
    requires forall k :: k in peers ==>
      peers[k].allocation == l.peers[k].allocation - ShareOf(k)(l.contracts[i]) + ShareOf(k)(c)
    ensures Conserved(l.(peers := peers, contracts := l.contracts[i := c]))
  {
    var l' := l.(peers := peers, contracts := l.contracts[i := c]);
    forall k | k in l'.peers ensures l'.peers[k].allocation == Held(l', k) {
      SumUpdate(l.contracts, i, c, ShareOf(k));
    }
  }

  /** Likewise for a contract that leaves the list. */
  lemma DropKeepsConserved(l: Ledger, i: nat, peers: map<Key, Account>)
    requires Sound(l) && i < |l.contracts| && peers.Keys == l.peers.Keys
    requires forall k :: k in peers ==>
      peers[k].allocation == l.peers[k].allocation - ShareOf(k)(l.contracts[i])
    ensures Conserved(l.(peers := peers, contracts := l.contracts[..i] + l.contracts[i + 1..]))
  {
    var l' := l.(peers := peers, contracts := l.contracts[..i] + l.contracts[i + 1..]);
    forall k | k in l'.peers ensures l'.peers[k].allocation == Held(l', k) {
      SumRemove(l.contracts, i, ShareOf(k));
    }
  }

  lemma DropKeepsSound(l: Ledger, i: nat, peers: map<Key, Account>)
    requires Sound(l) && i < |l.contracts| && peers.Keys == l.peers.Keys
    requires forall k :: k in peers ==>
      && peers[k].allocation == l.peers[k].allocation - ShareOf(k)(l.contracts[i])
      && PeerAvailable(peers[k]) >= PeerAvailable(l.peers[k])
    ensures Sound(l.(peers := peers, contracts := l.contracts[..i] + l.contracts[i + 1..]))
  {
    DropKeepsConserved(l, i, peers);
  }

  /** Changing an amount moves exactly the difference in fiat value, up or down; only a
      reduction is sure to keep the credit line from being overdrawn. */
  lemma SetAmountKeepsSound(l: Ledger, i: nat, btcAmount: real)
    requires Sound(l) && i < |l.contracts| && btcAmount >= 0.0
    ensures WellFormed(SetAmount(l, i, btcAmount)) && Conserved(SetAmount(l, i, btcAmount))
    ensures btcAmount <= l.contracts[i].btcAmount ==> Sound(SetAmount(l, i, btcAmount))
  {
    var l' := SetAmount(l, i, btcAmount);
    var c := l.contracts[i];
    ReplaceKeepsConserved(l, i, l'.contracts[i], l'.peers);
    if btcAmount <= c.btcAmount {
      assert Fiat(l'.contracts[i]) <= Fiat(c);
    }
  }

  lemma RemoveAt(l: Ledger, i: nat, peers: map<Key, Account>)
    requires Sound(l) && i < |l.contracts|
    requires peers == if l.contracts[i].party == RECEIVER
                      then Release(l.peers, KeyOf(l.contracts[i]), Fiat(l.contracts[i])) else l.peers
    ensures Sound(l.(peers := peers, contracts := l.contracts[..i] + l.contracts[i + 1..]))
  {
    FiatNonNegative(l.contracts[i]);
    DropKeepsConserved(l, i, peers);
  }

  /** What rmContract( arg ) finds first is on the argument's side, or releasing it makes no
      difference. */
  predicate FoundOnItsSide(l: Ledger, arg: Contract) {
    var i := FirstMatch(l.contracts, arg.counterParty, arg.txId);
    i < |l.contracts| ==>
      l.contracts[i].party == arg.party || Fiat(l.contracts[i]) == 0.0 || KeyOf(l.contracts[i]) !in l.peers
  }

  /** rmContract identifies a contract by friend and Bitcoin TX only, and trusts its argument's
      side. Conservation survives exactly when the contract it finds is on the argument's side
      (or is worth nothing). */
  lemma RemoveConservesIff(l: Ledger, arg: Contract)
    requires Sound(l)
    ensures
      && (Conserved(Remove(l, arg)) <==> FoundOnItsSide(l, arg))
      && (FoundOnItsSide(l, arg) ==> Sound(Remove(l, arg)))
  {
    var i := FirstMatch(l.contracts, arg.counterParty, arg.txId);
    if i < |l.contracts| {
      var c := l.contracts[i];
      var l' := Remove(l, arg);
      var expected := if c.party == RECEIVER then Release(l.peers, KeyOf(c), Fiat(c)) else l.peers;
      RemoveAt(l, i, expected);
      FiatNonNegative(c);
      if c.party == arg.party || Fiat(c) == 0.0 || KeyOf(c) !in l.peers {
        assert l'.peers == expected;
      } else {
        var k := KeyOf(c);
        SumRemove(l.contracts, i, ShareOf(k));
        assert l'.peers[k].allocation != Held(l', k);
      }
    }
  }

  predicate SameKey(c: Contract, arg: Contract) { c.counterParty == arg.counterParty && c.txId == arg.txId }

  /** The contract is listed at i, and no contract before it has its friend and Bitcoin TX. */
  ghost predicate IsFirst(cs: seq<Contract>, i: int, c: Contract) {
    0 <= i < |cs| && cs[i] == c && forall j :: 0 <= j < i ==> !SameKey(cs[j], c)
  }

  /** The contract leaves the account of its friend, if it held anything back there. */
  ghost predicate CreditFreed(peers: map<Key, Account>, peers': map<Key, Account>, c: Contract) {
    && peers'.Keys == peers.Keys
    && forall k :: k in peers ==>
         && peers'[k] == peers[k].(allocation := peers'[k].allocation)
         && PeerAvailable(peers'[k]) ==
           PeerAvailable(peers[k]) + if c.party == RECEIVER && k == KeyOf(c) then c.btcAmount * c.price else 0.0
  }

  /** Removal hits the contract it was asked to remove, and no other, if that is the first one with its
      friend and Bitcoin TX; and it gives back what that contract held. */
  lemma RemoveHitsItsArgument(l: Ledger, i: nat, arg: Contract)
    requires IsFirst(l.contracts, i, arg)
    ensures Remove(l, arg).contracts == l.contracts[..i] + l.contracts[i + 1..]
    ensures CreditFreed(l.peers, Remove(l, arg).peers, arg) && Remove(l, arg).expired == l.expired
  {
    assert FirstMatch(l.contracts, arg.counterParty, arg.txId) == i;
  }

  /** A removal on behalf of another transaction erases the i-th contract exactly when that is the
      first one with the argument's friend and Bitcoin TX; otherwise it stays in the list. A
      contract that has its own TX id is safe from all others; before the vote every contract
      with a friend has the same empty id. */
  lemma RemoveSparesIff(l: Ledger, arg: Contract, i: nat)
    requires i < |l.contracts|
    ensures var cs, after := l.contracts, Remove(l, arg).contracts;
      if SameKey(cs[i], arg) && forall j :: 0 <= j < i ==> !SameKey(cs[j], arg) then after == cs[..i] + cs[i + 1..]
      else
        || (i < |after| && after[i] == cs[i] && after[..i] == cs[..i])
        || (0 < i <= |after| && after[i - 1] == cs[i] && after[i..] == cs[i + 1..])
  {
    var m := FirstMatch(l.contracts, arg.counterParty, arg.txId);
    var cs, after := l.contracts, Remove(l, arg).contracts;
    if m < i {
      assert after[i..] == cs[i + 1..];
    } else if m > i {
      assert after[..i] == cs[..i];
    }
  }

  /** A receiver contract whose allocation is in place always settles: the test inside
      execute cannot fail, and the credit still available does not change. */
  lemma AllocatedSettlementSucceeds(l: Ledger, i: nat)
    requires Sound(l) && i < |l.contracts| && l.contracts[i].party == RECEIVER
    ensures
      var k := KeyOf(l.contracts[i]);
      var row := l.peers[k];
      Execute(l.peers, l.contracts[i]) ==
        l.peers[k := row.(balance := row.balance + Fiat(l.contracts[i]),
                          allocation := row.allocation - Fiat(l.contracts[i]))]
  {
  }

  /** What settling c books with friend k: a receiver gains its value, a sender loses it if the
      credit it was granted allows that. */
  function BalanceChange(c: Contract, k: Key, row: Account): real {
    if k != KeyOf(c) then 0.0
    else if c.party == RECEIVER then Fiat(c)
    else if MyAvailable(row) < Fiat(c) then 0.0
    else -Fiat(c)
  }

  /** What one settlement does to the peers table: the friend's balance moves by the contract's
      value, every allocation drops by the friend's share of the contract, and nobody's available
      credit shrinks. */
  lemma ExecuteEffect(l: Ledger, i: nat, k: Key)
    requires Sound(l) && i < |l.contracts| && k in l.peers
    ensures Execute(l.peers, l.contracts[i]).Keys == l.peers.Keys
    ensures Execute(l.peers, l.contracts[i])[k].allocation == l.peers[k].allocation - ShareOf(k)(l.contracts[i])
    ensures PeerAvailable(Execute(l.peers, l.contracts[i])[k]) >= PeerAvailable(l.peers[k])
    ensures Execute(l.peers, l.contracts[i])[k].balance ==
      l.peers[k].balance + BalanceChange(l.contracts[i], k, l.peers[k])
  {
    var c := l.contracts[i];
    FiatNonNegative(c);
    if k == KeyOf(c) {
      if c.party == RECEIVER {
        AllocatedSettlementSucceeds(l, i);
      } else {
        assert Execute(l.peers, c)[k] == Spent(l.peers[k], Fiat(c));
      }
    }
  }

  lemma SettleKeepsSound(l: Ledger, i: nat)
    requires Sound(l) && i < |l.contracts|
    ensures Sound(l.(peers := Execute(l.peers, l.contracts[i]), contracts := l.contracts[..i] + l.contracts[i + 1..]))
  {
    var peers := Execute(l.peers, l.contracts[i]);
    assert peers.Keys == l.peers.Keys;
    forall k | k in peers
      ensures peers[k].allocation == l.peers[k].allocation - ShareOf(k)(l.contracts[i])
      ensures PeerAvailable(peers[k]) >= PeerAvailable(l.peers[k])
    {
      ExecuteEffect(l, i, k);
    }
    DropKeepsSound(l, i, peers);
  }

  /** Expiry drops the contract but not its reservation. */
  lemma ExpireKeepsSound(l: Ledger, i: nat)
    requires Sound(l) && i < |l.contracts|
    ensures
      var gone := if l.contracts[i].party == RECEIVER then [l.contracts[i]] else [];
      Sound(l.(contracts := l.contracts[..i] + l.contracts[i + 1..], expired := l.expired + gone))
  {
    var gone := if l.contracts[i].party == RECEIVER then [l.contracts[i]] else [];
    var l' := l.(contracts := l.contracts[..i] + l.contracts[i + 1..], expired := l.expired + gone);
    forall k | k in l'.peers ensures l'.peers[k].allocation == Held(l', k) {
      SumRemove(l.contracts, i, ShareOf(k));
      SumConcat(l.expired, gone, ShareOf(k));
      if gone != [] {
        assert gone[1..] == [];
      }
    }
  }

  lemma {:induction false} PollKeepsSound(l: Ledger, i: nat, now: int, confirmations: TxId -> nat)
    requires Sound(l) && i <= |l.contracts|
    ensures Sound(PollFrom(l, i, now, confirmations))
    decreases |l.contracts| - i
  {
    if i < |l.contracts| {
      if TimedOut(l.contracts[i], now) {
        ExpireKeepsSound(l, i);
      } else if Settles(l.contracts[i], now, confirmations) {
        SettleKeepsSound(l, i);
      }
      var (after, erased) := PollAt(l, i, now, confirmations);
      PollKeepsSound(after, if erased then i else i + 1, now, confirmations);
    }
  }

  // ---- Whole histories ----

  /** Everything that happens to a node's contracts. The argument of a removal need not be listed
      any more. */
  datatype Op =
    | OpCreate(btcAmount: real, fee: real, price: real, currency: Currency, party: Party, counterParty: Peer, now: int)
    | OpSetAmount(i: nat, newAmount: real)
    | OpSetTxId(i: nat, txId: TxId)
    | OpSetAddress(i: nat, addr: Address)
    | OpActivate(i: nat)
    | OpRemove(arg: Contract)
    | OpPoll(pollTime: int, confirmations: TxId -> nat)

  /** What the managers see to: offers carry usable numbers, and a contract's amount is only ever
      reduced. */
  predicate Proper(l: Ledger, op: Op) {
    match op
    case OpCreate(btcAmount, fee, price, _, _, _, _) => btcAmount > 0.0 && fee >= 0.0 && price > 0.0
    case OpSetAmount(i, newAmount) => i < |l.contracts| && 0.0 <= newAmount <= l.contracts[i].btcAmount
    case OpSetTxId(i, _) => i < |l.contracts|
    case OpSetAddress(i, _) => i < |l.contracts|
    case OpActivate(i) => i < |l.contracts|
    case OpRemove(_) => true
    case OpPoll(_, _) => true
  }

  /** An index outside the list, or a price that is not positive, is no operation at all. */
  function Apply(l: Ledger, op: Op): Ledger {
    match op
    case OpCreate(btcAmount, fee, price, currency, party, counterParty, now) =>
      if price > 0.0 then Create(l, btcAmount, fee, price, currency, party, counterParty, now).0 else l
    case OpSetAmount(i, newAmount) => if i < |l.contracts| then SetAmount(l, i, newAmount) else l
    case OpSetTxId(i, txId) =>
      if i < |l.contracts| then l.(contracts := l.contracts[i := l.contracts[i].(txId := txId)]) else l
    case OpSetAddress(i, addr) =>
      if i < |l.contracts| then l.(contracts := l.contracts[i := l.contracts[i].(destAddress := Some(addr))]) else l
    case OpActivate(i) =>
      if i < |l.contracts| then l.(contracts := l.contracts[i := l.contracts[i].(activated := true)]) else l
    case OpRemove(arg) => Remove(l, arg)
    case OpPoll(pollTime, confirmations) => PollFrom(l, 0, pollTime, confirmations)
  }

  function RunOps(l: Ledger, ops: seq<Op>): Ledger
    decreases |ops|
  {
    if ops == [] then l else RunOps(Apply(l, ops[0]), ops[1..])
  }

  ghost predicate ProperRun(l: Ledger, ops: seq<Op>)
    decreases |ops|
  {
    ops != [] ==> Proper(l, ops[0]) && ProperRun(Apply(l, ops[0]), ops[1..])
  }

  /** Every removal of the run finds a contract on its argument's side. */
  ghost predicate SidesRespected(l: Ledger, ops: seq<Op>)
    decreases |ops|
  {
    ops != [] ==>
      (ops[0].OpRemove? ==> FoundOnItsSide(l, ops[0].arg)) && SidesRespected(Apply(l, ops[0]), ops[1..])
  }

  ghost predicate AlwaysConserved(l: Ledger, ops: seq<Op>)
    decreases |ops|
  {
    Conserved(l) && (ops != [] ==> AlwaysConserved(Apply(l, ops[0]), ops[1..]))
  }

  ghost predicate AlwaysSound(l: Ledger, ops: seq<Op>)
    decreases |ops|
  {
    Sound(l) && (ops != [] ==> AlwaysSound(Apply(l, ops[0]), ops[1..]))
  }

  lemma TouchKeepsSound(l: Ledger, i: nat, c: Contract)
    requires Sound(l) && i < |l.contracts|
    requires c == l.contracts[i].(txId := c.txId, activated := c.activated, destAddress := c.destAddress)
    ensures Sound(l.(contracts := l.contracts[i := c]))
  {
    assert Fiat(c) == Fiat(l.contracts[i]) && KeyOf(c) == KeyOf(l.contracts[i]);
    ReplaceKeepsConserved(l, i, c, l.peers);
  }

  /** Every proper operation but a removal on the wrong side keeps the ledger sound. */
  lemma ApplyKeepsSound(l: Ledger, op: Op)
    requires Sound(l) && Proper(l, op)
    requires op.OpRemove? ==> FoundOnItsSide(l, op.arg)
    ensures Sound(Apply(l, op))
  {
    match op
    case OpCreate(btcAmount, fee, price, currency, party, counterParty, now) =>
      CreateKeepsSound(l, btcAmount, fee, price, currency, party, counterParty, now);
    case OpSetAmount(i, newAmount) => SetAmountKeepsSound(l, i, newAmount);
    case OpSetTxId(i, txId) => TouchKeepsSound(l, i, l.contracts[i].(txId := txId));
    case OpSetAddress(i, addr) => TouchKeepsSound(l, i, l.contracts[i].(destAddress := Some(addr)));
    case OpActivate(i) => TouchKeepsSound(l, i, l.contracts[i].(activated := true));
    case OpRemove(arg) => RemoveConservesIff(l, arg);
    case OpPoll(pollTime, confirmations) => PollKeepsSound(l, 0, pollTime, confirmations);
  }

  /** Allocation conservation over every history, exactly. From credit lines that are not overdrawn
      and allocations that are accounted for, over any operations in any order: at every moment
      each friend's allocation equals the fiat value of the live receiver contracts with that
      friend plus that of the expired ones, if and only if no removal found a contract on the other
      side; the first removal that does breaks the balance. As long as none does, no credit line is
      overdrawn either. */
  lemma {:induction false} AllocationConserved(l: Ledger, ops: seq<Op>)
    requires Sound(l) && ProperRun(l, ops)
    ensures AlwaysConserved(l, ops) <==> SidesRespected(l, ops)
    ensures SidesRespected(l, ops) ==> AlwaysSound(l, ops) && Sound(RunOps(l, ops))
    decreases |ops|
  {
    if ops != [] {
      if ops[0].OpRemove? && !FoundOnItsSide(l, ops[0].arg) {
        RemoveConservesIff(l, ops[0].arg);
      } else {
        ApplyKeepsSound(l, ops[0]);
        AllocationConserved(Apply(l, ops[0]), ops[1..]);
      }
    }
  }

  /** A contract of 2 at price 1 with friend 7, before any vote. */
  function FreshContract(party: Party): Contract { NewContract(2.0, 0.0, 1.0, 1, party, 7, 0) }

  function FreshOp(party: Party): Op { OpCreate(2.0, 0.0, 1.0, 1, party, 7, 0) }

  lemma RunOf(l: Ledger, op: Op, ops: seq<Op>)
    ensures ProperRun(l, [op] + ops) <==> Proper(l, op) && ProperRun(Apply(l, op), ops)
    ensures SidesRespected(l, [op] + ops) <==>
      (op.OpRemove? ==> FoundOnItsSide(l, op.arg)) && SidesRespected(Apply(l, op), ops)
  {
    assert ([op] + ops)[1..] == ops;
  }

  lemma WrongSideLast(l: Ledger, a: Op, b: Op, arg: Contract)
    requires Sound(l) && Proper(l, a) && Proper(Apply(l, a), b)
    requires !FoundOnItsSide(Apply(Apply(l, a), b), arg)
    ensures var ops := [a] + ([b] + ([OpRemove(arg)] + []));
      ProperRun(l, ops) && !SidesRespected(l, ops) && !AlwaysConserved(l, ops)
  {
    RunOf(Apply(Apply(l, a), b), OpRemove(arg), []);
    RunOf(Apply(l, a), b, [OpRemove(arg)] + []);
    RunOf(l, a, [b] + ([OpRemove(arg)] + []));
    AllocationConserved(l, [a] + ([b] + ([OpRemove(arg)] + [])));
  }

  /** The balance can break: a buyer's rollback before any vote, towards a friend whose receiver
      contract is listed first, takes that contract off the list and leaves its allocation behind. */
  lemma RollbackCanHitTheOtherSide(l: Ledger, row: Account)
    requires row == Account(10.0, 10.0, 0.0, 0.0) && l == Ledger(map[(7, 1) := row], [], [])
    ensures var ops := [FreshOp(RECEIVER)] + ([FreshOp(SENDER)] + ([OpRemove(FreshContract(SENDER))] + []));
      Sound(l) && ProperRun(l, ops) && !SidesRespected(l, ops) && !AlwaysConserved(l, ops)
  {
    var l1 := Apply(l, FreshOp(RECEIVER));
    WrongSideLast(l, FreshOp(RECEIVER), FreshOp(SENDER), FreshContract(SENDER));
  }
}
