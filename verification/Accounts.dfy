/** One friend's credit line in one currency, and the two ways a payment changes it
    (Credit.h, Credit.cpp, Payment.cpp). Amounts are exact: the source uses rationals. */
module Accounts {
  import opened Common

  /** A row of the peers table. */
  datatype Account = Account(ourCredit: real, credit: real, balance: real, allocation: real)

  type Key = (Peer, Currency)

  const NO_ACCOUNT: Account := Account(0.0, 0.0, 0.0, 0.0)

  function PeerAvailable(a: Account): real { a.credit - a.balance - a.allocation }

  function MyAvailable(a: Account): real { a.ourCredit + a.balance }

  /** What loading a row into a freshly constructed Credit yields. */
  function Row(peers: map<Key, Account>, k: Key): Account {
    if k in peers then peers[k] else NO_ACCOUNT
  }

  /** An SQL UPDATE: it changes an existing row and does nothing otherwise. */
  function Write(peers: map<Key, Account>, k: Key, a: Account): map<Key, Account> {
    if k in peers then peers[k := a] else peers
  }

  function Allocated(a: Account, amount: real): Account {
    if amount > PeerAvailable(a) then a else a.(allocation := a.allocation + amount)
  }

  function Deallocated(a: Account, amount: real): Account {
    a.(allocation := a.allocation - amount)
  }

  /** The sender's and the receiver's side of a payment; a failing init leaves the row alone. */
  function Spent(a: Account, amount: real): Account {
    if MyAvailable(a) < amount then a else a.(balance := a.balance - amount)
  }

  function Received(a: Account, amount: real): Account {
    if PeerAvailable(a) < amount then a else a.(balance := a.balance + amount)
  }

  /** The database: an exact store of the peers table. */
  class ZrDB {
    var peers: map<Key, Account>

    constructor (rows: map<Key, Account>)
      ensures peers == rows
    {
      peers := rows;
    }
  }

  /** An in-memory copy of one row, written back column by column. */
  class Credit {
    var id: Peer
    const currency: Currency
    var ourCredit: real
    var credit: real
    var balance: real
    var allocation: real

    ghost function Snapshot(): Account
      reads this
    {
      Account(ourCredit, credit, balance, allocation)
    }

    ghost function Owner(): Key
      reads this
    {
      (id, currency)
    }

    constructor (id: Peer, currency: Currency)
      ensures this.id == id && this.currency == currency && Snapshot() == NO_ACCOUNT
    {
      this.id, this.currency := id, currency;
      ourCredit, credit, balance, allocation := 0.0, 0.0, 0.0, 0.0;
    }

    method LoadPeer(db: ZrDB)
      modifies this
      ensures id == old(id)
      ensures Snapshot() == if (id, currency) in db.peers then db.peers[(id, currency)] else old(Snapshot())
    {
      if (id, currency) in db.peers {
        var row := db.peers[(id, currency)];
        ourCredit, credit, balance, allocation := row.ourCredit, row.credit, row.balance, row.allocation;
      }
    }

    method GetPeerAvailable() returns (r: real)
      ensures r == PeerAvailable(Snapshot())
    {
      r := credit - balance - allocation;
    }

    method GetMyAvailable() returns (r: real)
      ensures r == MyAvailable(Snapshot())
    {
      r := ourCredit + balance;
    }

    /** Reserves funds unless they are not there; a refusal changes nothing at all. */
    method Allocate(db: ZrDB, amount: real) returns (r: RetVal)
      requires (id, currency) in db.peers ==> Snapshot() == db.peers[(id, currency)]
      modifies this, db
      ensures id == old(id)
      ensures Snapshot() == Allocated(old(Snapshot()), amount)
      ensures r == if amount > PeerAvailable(old(Snapshot())) then Failure else Success
      ensures db.peers == Write(old(db.peers), (id, currency), Snapshot())
    {
      if amount > credit - balance - allocation {
        return Failure;
      }
      allocation := allocation + amount;
      if (id, currency) in db.peers {
        db.peers := db.peers[(id, currency) := db.peers[(id, currency)].(allocation := allocation)];
      }
      return Success;
    }

    method Deallocate(db: ZrDB, amount: real)
      requires (id, currency) in db.peers ==> Snapshot() == db.peers[(id, currency)]
      modifies this, db
      ensures id == old(id)
      ensures Snapshot() == Deallocated(old(Snapshot()), amount)
      ensures db.peers == Write(old(db.peers), (id, currency), Snapshot())
    {
      allocation := allocation - amount;
      if (id, currency) in db.peers {
        db.peers := db.peers[(id, currency) := db.peers[(id, currency)].(allocation := allocation)];
      }
    }
  }

  /** The receiving half of a payment from a friend. */
  class PaymentReceiver {
    const credit: Credit
    const amount: real

    constructor (db: ZrDB, counterParty: Peer, amount: real, currency: Currency)
      ensures fresh(credit) && this.amount == amount
      ensures credit.id == counterParty && credit.currency == currency
      ensures credit.Snapshot() == Row(db.peers, (counterParty, currency))
    {
      var c := new Credit(counterParty, currency);
      c.LoadPeer(db);
      credit, this.amount := c, amount;
    }

    method Init() returns (r: RetVal)
      ensures r == if PeerAvailable(credit.Snapshot()) < amount then Failure else Success
    {
      var available := credit.GetPeerAvailable();
      r := if available < amount then Failure else Success;
    }

    /** Re-reads the row first, so it applies to the balance as it is now. */
    method Commit(db: ZrDB)
      modifies credit, db
      ensures var k, row := (credit.id, credit.currency), Row(old(db.peers), (credit.id, credit.currency));
        db.peers == Write(old(db.peers), k, row.(balance := row.balance + amount))
      ensures credit.id == old(credit.id)
    {
      credit.LoadPeer(db);
      credit.balance := credit.balance + amount;
      if (credit.id, credit.currency) in db.peers {
        db.peers := db.peers[(credit.id, credit.currency) :=
          db.peers[(credit.id, credit.currency)].(balance := credit.balance)];
      }
    }
  }

  /** The paying half. */
  class PaymentSpender {
    const credit: Credit
    const amount: real

    constructor (db: ZrDB, counterParty: Peer, amount: real, currency: Currency)
      ensures fresh(credit) && this.amount == amount
      ensures credit.id == counterParty && credit.currency == currency
      ensures credit.Snapshot() == Row(db.peers, (counterParty, currency))
    {
      var c := new Credit(counterParty, currency);
      c.LoadPeer(db);
      credit, this.amount := c, amount;
    }

    method Init() returns (r: RetVal)
      ensures r == if MyAvailable(credit.Snapshot()) < amount then Failure else Success
    {
      var available := credit.GetMyAvailable();
      r := if available < amount then Failure else Success;
    }

    method Commit(db: ZrDB)
      modifies credit, db
      ensures var k, row := (credit.id, credit.currency), Row(old(db.peers), (credit.id, credit.currency));
        db.peers == Write(old(db.peers), k, row.(balance := row.balance - amount))
      ensures credit.id == old(credit.id)
    {
      credit.LoadPeer(db);
      credit.balance := credit.balance - amount;
      if (credit.id, credit.currency) in db.peers {
        db.peers := db.peers[(credit.id, credit.currency) :=
          db.peers[(credit.id, credit.currency)].(balance := credit.balance)];
      }
    }
  }
}
