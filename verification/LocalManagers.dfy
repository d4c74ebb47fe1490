/** The two sides of a local payment, item by item (TmLocalCoordinator.cpp, TmLocalCohorte.cpp). */
module LocalReactions {
  import opened Common
  import opened Managers

  /** What a handler makes of an item: its phase, the reply, what it returns, and whether it
      commits the payment. */
  datatype Reaction = Reaction(phase: Phase, reply: Option<Phase>, outcome: Outcome, commits: bool)

  /** The cohort, which is paid. It tests for funds when it is asked, not when it commits. */
  function CohortReaction(phase: Phase, enough: bool, kind: Phase): Reaction {
    match kind
    case QUERY =>
      if phase != INIT then Reaction(phase, Some(ABORT), Returns(Failure), false)
      else if enough then Reaction(QUERY, Some(VOTE_YES), Returns(Success), false)
      else Reaction(QUERY, Some(VOTE_NO), Returns(Failure), false)
    case COMMIT =>
      if phase != QUERY then Reaction(phase, Some(ABORT), Returns(Failure), false)
      else Reaction(COMMIT, Some(ACK_COMMIT), Returns(Finish), true)
    case ABORT => Reaction(phase, None, Returns(Finish), false)
    case _ => Reaction(phase, None, Throws, false)
  }

  /** The coordinator, which pays. It stays in phase INIT. */
  function CoordinatorReaction(kind: Phase): Reaction {
    match kind
    case VOTE_YES => Reaction(INIT, Some(COMMIT), Returns(Success), false)
    case VOTE_NO => Reaction(INIT, None, Returns(Failure), false)
    case ABORT => Reaction(INIT, None, Returns(Failure), false)
    case ACK_COMMIT => Reaction(INIT, None, Returns(Finish), true)
    case _ => Reaction(INIT, None, Throws, false)
  }

  /** handleTxItem: the phase of the registered manager afterwards, None once it is deleted. */
  function Registered(r: Reaction): Option<Phase> {
    if r.outcome.Throws? || r.outcome.code == Success then Some(r.phase) else None
  }
}

/** The two managers of a local payment as objects. */
module LocalManagers {
  import opened Common
  import opened Accounts
  import opened Managers
  import opened LocalReactions

  class TmLocalCoordinator {
    const payment: PaymentSpender

    constructor (payment: PaymentSpender)
      ensures this.payment == payment
    {
      this.payment := payment;
    }

    /** Some(QUERY) stands for the item that carries the payment to the friend. */
    method Init() returns (r: RetVal, sent: Option<Phase>)
      ensures r == if MyAvailable(payment.credit.Snapshot()) < payment.amount then Failure else Success
      ensures sent == if r == Success then Some(QUERY) else None
    {
      r := payment.Init();
      sent := if r == Failure then None else Some(QUERY);
    }

    method ProcessItem(db: ZrDB, kind: Phase) returns (reply: Option<Phase>, outcome: Outcome)
      modifies payment.credit, db
      ensures var r := CoordinatorReaction(kind);
        && reply == r.reply && outcome == r.outcome
        && db.peers == if r.commits then WithGain(old(db.peers), old(payment.credit.Owner()), -payment.amount)
                       else old(db.peers)
      ensures reply == if kind == VOTE_YES then Some(COMMIT) else None
      ensures kind != ACK_COMMIT ==> db.peers == old(db.peers)
    {
      reply := None;
      match kind
      case VOTE_YES => return Some(COMMIT), Returns(Success);
      case VOTE_NO => return None, Returns(Failure);
      case ABORT => return None, Returns(Failure);
      case ACK_COMMIT =>
        payment.Commit(db);
        return None, Returns(Finish);
      case _ => return None, Throws;
    }
  }

  function WithGain(peers: map<Key, Account>, k: Key, amount: real): map<Key, Account> {
    Write(peers, k, Row(peers, k).(balance := Row(peers, k).balance + amount))
  }

  class TmLocalCohorte {
    var phase: Phase
    var payment: PaymentReceiver?

    ghost predicate Valid()
      reads this
    {
      phase != INIT ==> payment != null
    }

    constructor ()
      ensures Valid() && phase == INIT && payment == null
    {
      phase, payment := INIT, null;
    }

    /** getPayment hands over the payment with its account loaded; init tests for the funds. */
    static method LoadPayment(db: ZrDB, from: Peer, amount: real, currency: Currency)
      returns (p: PaymentReceiver, ok: RetVal)
      ensures p.amount == amount && p.credit.Owner() == (from, currency)
      ensures ok == if PeerAvailable(Row(db.peers, (from, currency))) < amount then Failure else Success
    {
      p := new PaymentReceiver(db, from, amount, currency);
      ok := p.Init();
    }

    method OnQuery(db: ZrDB, from: Peer, amount: real, currency: Currency)
      returns (reply: Option<Phase>, outcome: Outcome)
      requires Valid()
      modifies this
      ensures Valid()
      ensures if old(phase) != INIT then payment == old(payment)
        else
          payment != null && payment.amount == amount && payment.credit.Owner() == (from, currency)
      ensures var r := CohortReaction(old(phase), PeerAvailable(Row(db.peers, (from, currency))) >= amount, QUERY);
        phase == r.phase && reply == r.reply && outcome == r.outcome
      ensures old(phase) == INIT ==>
        reply == Some(if PeerAvailable(Row(db.peers, (from, currency))) >= amount then VOTE_YES else VOTE_NO)
    {
      if phase != INIT {
        return Some(ABORT), Returns(Failure);
      }
      var p, ok := LoadPayment(db, from, amount, currency);
      phase, payment := QUERY, p;
      assert payment.credit.Owner() == (from, currency);
      if ok == Failure {
        return Some(VOTE_NO), Returns(Failure);
      }
      return Some(VOTE_YES), Returns(Success);
    }

    method OnCommit(db: ZrDB) returns (reply: Option<Phase>, outcome: Outcome)
      requires Valid()
      modifies this, if payment == null then {} else {payment.credit}, db
      ensures Valid() && payment == old(payment)
      ensures var r := CohortReaction(old(phase), true, COMMIT);
        && phase == r.phase && reply == r.reply && outcome == r.outcome
        && (r.commits ==> payment != null)
        && if r.commits then db.peers == WithGain(old(db.peers), old(payment.credit.Owner()), payment.amount)
           else unchanged(db)
    {
      if phase != QUERY {
        return Some(ABORT), Returns(Failure);
      }
      phase := COMMIT;
      payment.Commit(db);
      return Some(ACK_COMMIT), Returns(Finish);
    }

    /** Only a QUERY carries a payment; its account is loaded when it is handed over. */
    method ProcessItem(db: ZrDB, kind: Phase, from: Peer, amount: real, currency: Currency)
      returns (reply: Option<Phase>, outcome: Outcome)
      requires Valid()
      modifies this, if payment == null then {} else {payment.credit}, db
      ensures Valid()
      ensures var r := CohortReaction(old(phase), PeerAvailable(Row(old(db.peers), (from, currency))) >= amount, kind);
        && phase == r.phase && reply == r.reply && outcome == r.outcome
        && (!r.commits ==> unchanged(db))
        && (r.commits ==>
             && payment != null && payment == old(payment)
             && db.peers == WithGain(old(db.peers), old(payment.credit.Owner()), payment.amount))
      ensures kind == QUERY && old(phase) == INIT ==>
        reply == Some(if PeerAvailable(Row(old(db.peers), (from, currency))) >= amount then VOTE_YES else VOTE_NO)
    {
      match kind
      case QUERY => reply, outcome := OnQuery(db, from, amount, currency);
      case COMMIT => reply, outcome := OnCommit(db);
      case ABORT => return None, Returns(Finish);
      case _ => return None, Throws;
    }
  }
}
