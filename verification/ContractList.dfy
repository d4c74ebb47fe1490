/** The contracts of BtcContract.cpp as the source keeps them: heap objects in a static list
    that is pushed to and erased from while it is walked, next to the peers table. */
module ContractLists {
  import opened Common
  import opened Accounts
  import opened Contracts
  import opened Sums

  class BtcContract {
    const price: real
    const currency: Currency
    const party: Party
    const counterParty: Peer
    const fee: real
    const created: int
    var btcAmount: real
    var activated: bool
    var txId: TxId
    var destAddress: Option<Address>

    ghost function Value(): Contract
      reads this
    {
      Contract(btcAmount, price, currency, party, counterParty, fee, created, activated, txId, destAddress)
    }

    constructor (btcAmount: real, fee: real, price: real, currency: Currency, party: Party,
                 counterParty: Peer, now: int)
      ensures Value() == NewContract(btcAmount, fee, price, currency, party, counterParty, now)
    {
      this.btcAmount, this.price, this.fee, this.currency := btcAmount, price, fee, currency;
      this.party, this.counterParty, created := party, counterParty, now;
      activated, txId, destAddress := false, NoTx, None;
    }

    method GetFiatAmount() returns (r: real)
      ensures r == Fiat(Value())
    {
      r := btcAmount * price;
    }

    method Activate()
      modifies this
      ensures Value() == old(Value()).(activated := true)
    {
      activated := true;
    }

    method SetBtcTxId(id: TxId)
      modifies this
      ensures Value() == old(Value()).(txId := id)
    {
      txId := id;
    }

    method SetBtcAddress(addr: Address)
      modifies this
      ensures Value() == old(Value()).(destAddress := Some(addr))
    {
      destAddress := Some(addr);
    }
  }

  ghost function Values(cs: seq<BtcContract>): (vs: seq<Contract>)
    reads cs
    ensures |vs| == |cs|
    ensures forall i :: 0 <= i < |cs| ==> vs[i] == cs[i].Value()
  {
    seq(|cs|, i requires 0 <= i < |cs| reads cs => cs[i].Value())
  }

  lemma SetAmountIs(l: Ledger, i: nat, c: Contract, c': Contract, btcAmount: real, freed: real)
    requires i < |l.contracts| && l.contracts[i] == c && c' == c.(btcAmount := btcAmount)
    requires freed == Fiat(c) - Fiat(c')
    ensures SetAmount(l, i, btcAmount) ==
      Ledger(if c.party == RECEIVER then Release(l.peers, KeyOf(c), freed) else l.peers,
             l.contracts[i := c'], l.expired)
  {
  }

  /** The two outcomes of a payment, as the store shows them. */
  lemma SenderSettles(peers: map<Key, Account>, k: Key, fiat: real)
    ensures
      var row := Row(peers, k);
      Settle(peers, k, SENDER, fiat) ==
        if MyAvailable(row) < fiat then peers else Write(peers, k, row.(balance := row.balance - fiat))
  {
    WriteSame(peers, k);
  }

  lemma ReceiverSettles(peers: map<Key, Account>, k: Key, fiat: real)
    ensures
      var released := Release(peers, k, fiat);
      var row := Row(released, k);
      Settle(peers, k, RECEIVER, fiat) ==
        if PeerAvailable(row) < fiat then released else Write(released, k, row.(balance := row.balance + fiat))
  {
    WriteSame(Release(peers, k, fiat), k);
  }

  lemma WriteSame(peers: map<Key, Account>, k: Key)
    ensures Write(peers, k, Row(peers, k)) == peers
  {
  }

  /** The columns after a settlement. A sender pays if the credit granted to us and the balance allow
      it; a receiver gives back what it held, and is paid if that leaves enough. */
  ghost predicate SettledByFields(peers: map<Key, Account>, peers': map<Key, Account>, c: Contract, fiat: real) {
    && peers'.Keys == peers.Keys
    && (forall k :: k in peers && k != KeyOf(c) ==> peers'[k] == peers[k])
    && (KeyOf(c) in peers ==>
         var a, b := peers[KeyOf(c)], peers'[KeyOf(c)];
         && b.credit == a.credit && b.ourCredit == a.ourCredit
         && if c.party == SENDER then
              && b.allocation == a.allocation
              && b.balance == a.balance - if a.ourCredit + a.balance >= fiat then fiat else 0.0
            else
              && b.allocation == a.allocation - fiat
              && b.balance == a.balance + if a.credit - a.balance - b.allocation >= fiat then fiat else 0.0)
  }

  /** The static list of live contracts and the store they draw on. */
  class ContractList {
    const db: ZrDB
    var contracts: seq<BtcContract>
    ghost var expired: seq<Contract>

    ghost predicate Valid()
      reads this
    {
      forall i, j :: 0 <= i < j < |contracts| ==> contracts[i] != contracts[j]
    }

    ghost function View(): Ledger
      reads this, db, contracts
    {
      Ledger(db.peers, Values(contracts), expired)
    }

    constructor (db: ZrDB)
      ensures Valid() && this.db == db && contracts == [] && expired == []
    {
      this.db, contracts, expired := db, [], [];
    }

    /** The receiver's credit check inside the constructor; None stands for the exception. */
    method Reserve(btcAmount: real, fee: real, price: real, currency: Currency, counterParty: Peer)
      returns (kept: Option<real>)
      requires price > 0.0
      modifies db
      ensures (db.peers, kept) == Contracts.Reserve(old(db.peers), (counterParty, currency), btcAmount, fee, price)
    {
      var fiatAmount := btcAmount * price;
      var credit := new Credit(counterParty, currency);
      credit.LoadPeer(db);
      var available := credit.GetPeerAvailable();
      if available <= fee {
        return None;
      }
      kept := Some(btcAmount);
      if available < fiatAmount + fee {
        fiatAmount := available - fee;
        kept := Some(fiatAmount / price);
      }
      var ignored := credit.Allocate(db, fiatAmount);
    }

    method Enlist(c: BtcContract)
      requires Valid() && c !in contracts
      modifies this`contracts
      ensures Valid() && contracts == old(contracts) + [c]
      ensures View() == old(View()).(contracts := old(View()).contracts + [c.Value()])
    {
      contracts := contracts + [c];
    }

    /** The constructor of the source; null stands for the exception it throws. */
    method Create(btcAmount: real, fee: real, price: real, currency: Currency, party: Party,
                  counterParty: Peer, now: int)
      returns (c: BtcContract?)
      requires Valid() && price > 0.0
      modifies this, db
      ensures Valid()
      ensures var (after, made) :=
        Contracts.Create(old(View()), btcAmount, fee, price, currency, party, counterParty, now);
        View() == after && (c == null <==> made.None?) && (c != null ==> c.Value() == made.value)
      ensures c != null ==> fresh(c) && contracts == old(contracts) + [c]
      ensures c == null ==> contracts == old(contracts)
    {
      var kept := Some(btcAmount);
      if party == RECEIVER {
        kept := Reserve(btcAmount, fee, price, currency, counterParty);
        if kept.None? {
          return null;
        }
      }
      var made := new BtcContract(kept.value, fee, price, currency, party, counterParty, now);
      assert Values(contracts) == old(Values(contracts)) && made !in contracts;
      Enlist(made);
      c := made;
    }

    method DeallocateFunds(counterParty: Peer, currency: Currency, amount: real)
      modifies db
      ensures db.peers == Release(old(db.peers), (counterParty, currency), amount)
    {
      var credit := new Credit(counterParty, currency);
      credit.LoadPeer(db);
      credit.Deallocate(db, amount);
    }

    /** Where a contract is listed does not matter for the others. */
    method PutAmount(c: BtcContract, btcAmount: real)
      requires Valid()
      modifies c
      ensures c.Value() == old(c.Value()).(btcAmount := btcAmount)
      ensures forall i :: 0 <= i < |contracts| && contracts[i] == c ==>
        Values(contracts) == old(Values(contracts))[i := c.Value()]
    {
      c.btcAmount := btcAmount;
    }

    method SetBtcAmount(c: BtcContract, btcAmount: real)
      requires Valid()
      modifies c, db
      ensures Valid()
      ensures db.peers == if c.party == RECEIVER
        then Release(old(db.peers), KeyOf(old(c.Value())), Fiat(old(c.Value())) - Fiat(c.Value())) else old(db.peers)
      ensures forall i :: 0 <= i < |contracts| && contracts[i] == c ==>
        View() == SetAmount(old(View()), i, btcAmount)
      ensures c.Value() == old(c.Value()).(btcAmount := btcAmount)
    {
      ghost var before, was := View(), c.Value();
      var fiatAmount1 := c.GetFiatAmount();
      PutAmount(c, btcAmount);
      var fiatAmount2 := c.GetFiatAmount();
      ghost var values, now, freed := Values(contracts), c.Value(), fiatAmount1 - fiatAmount2;
      Readjust(c, fiatAmount1 - fiatAmount2);
      assert View() == Ledger(db.peers, values, before.expired) && c.Value() == now;
      forall i | 0 <= i < |contracts| && contracts[i] == c
        ensures View() == SetAmount(before, i, btcAmount)
      {
        SetAmountIs(before, i, was, now, btcAmount, freed);
      }
    }

    /** Only a receiver holds credit back. */
    method Readjust(c: BtcContract, freed: real)
      modifies db
      ensures db.peers == if c.party == RECEIVER then Release(old(db.peers), KeyOf(c.Value()), freed) else old(db.peers)
    {
      if c.party == RECEIVER {
        DeallocateFunds(c.counterParty, c.currency, freed);
      }
    }

    /** Takes a contract off the list. */
    method Discard(i: nat)
      requires Valid() && i < |contracts|
      modifies this`contracts
      ensures Valid()
      ensures View() == old(View()).(contracts := old(View()).contracts[..i] + old(View()).contracts[i + 1..])
      ensures forall c :: c in contracts ==> c in old(contracts)
    {
      contracts := contracts[..i] + contracts[i + 1..];
    }

    method EraseAt(i: nat, party: Party)
      requires Valid() && i < |contracts|
      modifies this, db
      ensures Valid()
      ensures View() == Erase(old(View()), i, party)
      ensures forall c :: c in contracts ==> c in old(contracts)
    {
      var c := contracts[i];
      if party == RECEIVER {
        var fiatAmount := c.GetFiatAmount();
        DeallocateFunds(c.counterParty, c.currency, fiatAmount);
      }
      Discard(i);
    }

    method RmContract(arg: BtcContract)
      requires Valid()
      modifies this, db
      ensures Valid()
      ensures View() == Remove(old(View()), arg.Value())
      ensures forall c :: c in contracts ==> c in old(contracts)
    {
      var i := 0;
      while i < |contracts|
        invariant 0 <= i <= |contracts|
        invariant forall j :: 0 <= j < i ==>
          !(contracts[j].counterParty == arg.counterParty && contracts[j].txId == arg.txId)
      {
        if contracts[i].counterParty == arg.counterParty && contracts[i].txId == arg.txId {
          break;
        }
        i := i + 1;
      }
      assert FirstMatch(View().contracts, arg.counterParty, arg.txId) == i;
      if i < |contracts| {
        EraseAt(i, arg.party);
      }
    }

    method SettleAsSender(counterParty: Peer, currency: Currency, fiatAmount: real)
      modifies db
      ensures db.peers == Contracts.Settle(old(db.peers), (counterParty, currency), SENDER, fiatAmount)
    {
      SenderSettles(db.peers, (counterParty, currency), fiatAmount);
      var p := new PaymentSpender(db, counterParty, fiatAmount, currency);
      var ok := p.Init();
      if ok == Failure {
        return;
      }
      p.Commit(db);
    }

    method SettleAsReceiver(counterParty: Peer, currency: Currency, fiatAmount: real)
      modifies db
      ensures db.peers == Contracts.Settle(old(db.peers), (counterParty, currency), RECEIVER, fiatAmount)
    {
      ReceiverSettles(db.peers, (counterParty, currency), fiatAmount);
      DeallocateFunds(counterParty, currency, fiatAmount);
      var p := new PaymentReceiver(db, counterParty, fiatAmount, currency);
      var ok := p.Init();
      if ok == Failure {
        return;
      }
      p.Commit(db);
    }

    method ExecuteContract(c: BtcContract)
      modifies db
      ensures db.peers == Execute(old(db.peers), c.Value())
      ensures SettledByFields(old(db.peers), db.peers, c.Value(), c.btcAmount * c.price)
    {
      var fiatAmount := c.GetFiatAmount();
      if c.party == SENDER {
        SettleAsSender(c.counterParty, c.currency, fiatAmount);
      } else {
        SettleAsReceiver(c.counterParty, c.currency, fiatAmount);
      }
    }

    /** One contract's poll: true when the contract is over. */
    method Poll(c: BtcContract, now: int, confirmations: TxId -> nat) returns (over: bool)
      modifies db
      ensures over == (TimedOut(c.Value(), now) || Settles(c.Value(), now, confirmations))
      ensures db.peers ==
        if Settles(c.Value(), now, confirmations) then Execute(old(db.peers), c.Value()) else old(db.peers)
    {
      if now - c.created > CONTRACT_TIMEOUT {
        return true;
      }
      if !c.activated {
        return false;
      }
      if confirmations(c.txId) >= REQ_CONFIRMATIONS {
        ExecuteContract(c);
        return true;
      }
      return false;
    }

    /** Polls the i-th contract and erases it when it is over. */
    method PollAndErase(i: nat, now: int, confirmations: TxId -> nat) returns (over: bool)
      requires Valid() && i < |contracts|
      modifies this, db
      ensures Valid()
      ensures (View(), over) == PollAt(old(View()), i, now, confirmations)
      ensures forall c :: c in contracts ==> c in old(contracts)
    {
      var c := contracts[i];
      over := Poll(c, now, confirmations);
      if over {
        if now - c.created > CONTRACT_TIMEOUT {
          expired := expired + if c.party == RECEIVER then [c.Value()] else [];
        }
        Discard(i);
      }
    }

    method PollContracts(now: int, confirmations: TxId -> nat)
      requires Valid()
      modifies this, db
      ensures Valid()
      ensures View() == PollFrom(old(View()), 0, now, confirmations)
      ensures forall c :: c in contracts ==> c in old(contracts)
      ensures Passed(old(View()), View(), now, confirmations)
    {
      var i := 0;
      ghost var view := View();
      while i < |contracts|
        invariant 0 <= i <= |contracts| && Valid()
        invariant forall c :: c in contracts ==> c in old(contracts)
        invariant view == View()
        invariant PollFrom(view, i, now, confirmations) == PollFrom(old(View()), 0, now, confirmations)
        decreases |contracts| - i
      {
        var over := PollAndErase(i, now, confirmations);
        view := PollAt(view, i, now, confirmations).0;
        if !over {
          i := i + 1;
        }
      }
      PassByFields(old(View()), now, confirmations);
    }
  }
}
