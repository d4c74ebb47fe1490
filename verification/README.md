# Zero Reserve: the multi-hop exchange, verified

Zero Reserve lets RetroShare users trade Bitcoin against debt: friends grant each other credit lines, orders
are gossiped from friend to friend, and a purchase runs over a chain of friends. This project models that
exchange and proves what it promises. `dafny verify dfyconfig.toml` checks the whole project.

The system has five coupled parts:

1. **The commit chain** (`TmContract.dfy`, `CommitChain.dfy`, `CommitChainProofs.dfy`, `Progress.dfy`,
   `ContractManagers.dfy`, `LedgerEffects.dfy`).
   A coordinator (buyer), any number of hops and a payee (seller) run a 1 1/2-phase commit: QUERY, VOTE, COMMIT.
   Credit may shrink the amount on the way to the seller; ABORT and timeouts roll back. `Managers` gives each
   handler as a function, `ContractManagers` the handlers on objects, `LedgerEffects` what they do to contracts and
   accounts, `CommitChain` the distributed system, `TransactionManager.dfy` the registry at one node, `Siblings.dfy`
   the other transactions there.
   Node 0 is the buyer, node n the seller; consecutive numbers are the nodes of a path as `RouteTrees` finds it.
2. **The ledger** (`Accounts.dfy`, `BtcContract.dfy`, `ContractList.dfy`, `Settlement.dfy`, `TwoWay.dfy`,
   `TwoWayProofs.dfy`, `PathSettlement.dfy`, `SellOrders.dfy`). Receiver contracts reserve credit, shrink, are released, settle or
   expire; sell orders are reserved by concurrent transactions; the two ends of a link settle independently;
   `PathSettlement` joins what a commit chain agrees on with what the links of its path settle.
3. **Gossip and routing** (`Gossip.dfy`, `RouteTrees.dfy`, `Router.dfy`, `ReturnPaths.dfy`, `Flooding.dfy`,
   `Service.dfy`). The first item about an
   order leaves a route; QUERYs follow routes and leave tunnels; updates flood the network once.
4. **The book and matching** (`OrderBook.dfy`, `OrderList.dfy`, `Matching.dfy`, `MyOrders.dfy`).
5. **Local payments and codecs** (`LocalManagers.dfy`, `LocalPayments.dfy`, `Decimal.dfy`, `Payload.dfy`, `Items.dfy`).

Every distributed part is a state machine `Start` / `Next(state, step)` / `Run(state, steps)` whose disabled
steps do nothing, and every result quantifies over all sequences of steps: any reordering of items, any timeouts.
The classes hold the source's fields; their methods are proved against the functions the results are about.

Amounts are exact (`real` for the source's rationals); the store is exact and never fails. Identifiers, peers,
currencies and Bitcoin addresses are numbers, since they are only compared. An offer whose numbers are not
usable (amount or price not positive, negative fee) is treated like one that does not split into its fields.
Clocks, confirmations, new addresses, `mkRawTx`, who is online and when a manager times out are parameters.

## What the code does differently from what one might expect

- A payee that aborts because of the currency has a contract that reserved nothing; a later rollback subtracts its
  amount from the commitment all the same (TmContract.cpp:259, TmContract.cpp:390). After that the order can be oversold
  (`WrongCurrencyBreaksTheBooks`); `SellOrders` has the exact conditions.
- A buyer that aborts because it cannot use a vote does not roll back: its contract stays listed
  (TmContract.cpp:114-124, `AbortTakesContractIff`).
- `rmContract` finds a contract by friend and Bitcoin TX and releases by the argument's side
  (TmContract.cpp:570-577, BtcContract.cpp:59-69). Before the vote all contracts with a friend have the same empty TX, so
  a rollback can take a contract of another transaction, even on the other side (`RollbackCanHitTheOtherSide`).
  `RemoveConservesIff` and `AllocationConserved` have the exact condition, `RemoveSparesIff` says which contract goes.
- An expired contract keeps its allocation for good (BtcContract.cpp:119-129). With contracts in both directions an
  expiry can also make a later settlement fail (`LossCanBlock`; `NextContractCanFailIff` is the exact condition), and so
  could a reservation that comes late (`LateReservationCanBlock`).
- A cancelled order's running transactions go on: a commit sells from it and publishes it as partly filled
  (MyOrders.cpp:169-185, TmContract.cpp:319-338).
- A seller that votes no for price or leftover leaves its contract listed, with its credit reserved (TmContract.cpp:260-266);
  the expiry a day later takes the contract off the list, but not the reservation off the credit.
- A hop that rejects a vote answers its sender, which is the node nearer the seller (TmContract.cpp:511-534,
  TmContract.cpp:615); the request reaches the buyer by bouncing back through the tunnel, unless that node is the seller,
  whose dispatch throws on it (TmContract.cpp:367-369).
- A local payment is tested for funds when it is asked for, not when it is committed (`InterleavedPaymentsOverdraw`);
  `CreditIsKeptIffCommitsAreCovered` shows that the test at the COMMIT is exactly what is missing.
- The comparison of orders is no strict weak order on a list of bids and asks together, as the view of our own orders
  is (OrderBook.cpp:257-259); for that view only the permutation is claimed.
- The test of the purpose in publishOrder is always true (p3ZeroReserveRS.cpp:251), and the message that closes an order
  book is sent without an addressee (p3ZeroReserveRS.cpp:150).
- A tunnel belongs to an order, not to a transaction (TmContract.cpp:579-586, `CrossingTransactionsMix`).
- A manager whose handler throws stays registered (TransactionManager.cpp:65-71).

## Model

| member | source | states |
|---|---|---|
| Contracts.CappedIsLargest | BtcContract.cpp:92-100 | A receiver contract keeps the largest amount whose fiat value plus the fee fits the friend's remaining credit; the constructor throws exactly when no positive amount fits; the kept amount is positive and at most the request. |
| Contracts.CreateAllocatesItsFiat | BtcContract.cpp:92-101 | A receiver contract is either refused with nothing changed, or exactly its fiat amount is allocated (so the ignored result of allocate is always success) and at least the fee stays available. |
| Contracts.CreateKeepsSound | BtcContract.cpp:81-110 | Creating a contract keeps allocation equal to what live and expired receiver contracts hold, and overdraws no credit line. |
| Contracts.SetAmountKeepsSound | BtcContract.cpp:193-200 | Reducing a contract's amount keeps that balance: exactly the difference is released. |
| Contracts.RemoveConservesIff | BtcContract.cpp:53-75 | Removing a contract keeps the balance if and only if the contract that is found by (friend, Bitcoin TX) is on the same side as the argument, is worth nothing, or belongs to a friend without an account: the code releases by the argument's side. |
| Contracts.RemoveHitsItsArgument | BtcContract.cpp:53-75 | The contract that is erased is the argument whenever that is the first one listed with its friend and Bitcoin TX; all others stay in their order, and exactly what the argument held back is available again. |
| Contracts.AllocatedSettlementSucceeds | BtcContract.cpp:182-190 | A receiver settlement whose value is allocated on a line that is not overdrawn passes the funds test inside execute. |
| Contracts.ExecuteEffect | BtcContract.cpp:170-191 | Settlement moves exactly the contract's value: the receiver's balance gains it, the sender's loses it if the granted credit allows, every allocation drops by the friend's share of the contract, and no available credit shrinks. |
| Contracts.SettleKeepsSound | BtcContract.cpp:131-151 | A settled contract leaves the list and takes exactly its allocation with it. |
| Contracts.ExpireKeepsSound | BtcContract.cpp:119-129 | An expired contract leaves the list and its allocation stays behind, accounted for as expired. |
| Contracts.PollKeepsSound | BtcContract.cpp:37-51 | A whole pass over the list, with erasures while iterating, keeps the balance. |
| Contracts.AllocationConserved | BtcContract.cpp:37-110 | Main result. Over any sequence of creation, reduction, TX-id and address change, activation, removal, settlement and expiry: every friend's allocation equals the fiat of the live receiver contracts plus that of the expired ones at every moment, if and only if no removal found a contract on the other side than its argument; as long as none did, peer-available stays non-negative too. |
| Contracts.RollbackCanHitTheOtherSide | TmContract.cpp:182-187 | Such a removal happens: two fresh contracts with one friend, and a buyer's rollback before the vote takes the receiver contract. |
| Contracts.RemoveSparesIff | BtcContract.cpp:53-75 | A removal on behalf of any transaction erases a given contract exactly when that is the first with the argument's friend and Bitcoin TX, and otherwise leaves it in its place: contracts are safe from others once they have their own TX id. |
| ContractLists.ContractList.Create | BtcContract.cpp:81-110 | The constructor on heap objects: ledger, new contract and exception agree with the specification. |
| ContractLists.ContractList.SetBtcAmount | BtcContract.cpp:193-200 | The amount is replaced wherever the contract is listed, and a receiver's friend gets back exactly the difference. |
| ContractLists.ContractList.RmContract | BtcContract.cpp:53-75 | The first contract with the same friend and Bitcoin TX is erased and released; nothing happens when there is none. |
| ContractLists.ContractList.ExecuteContract | BtcContract.cpp:170-191 | The columns after a settlement, field by field: a sender's balance falls by the value if own credit plus balance cover it; a receiver's allocation falls by it, and its balance rises if what is available then covers it; no other row and no other column changes. |
| ContractLists.ContractList.PollContracts | BtcContract.cpp:37-51 | Told by the contracts' fields: contracts that are at most a day old and not both active and confirmed six times stay, in their order, and all others leave; the active and confirmed ones that are at most a day old are settled, in list order, and no others, so a friend's row changes only if such a contract with that friend is listed. |
| Contracts.PassByFields | BtcContract.cpp:113-168 | The same as a law about any ledger: which contracts a pass leaves, which it settles and in which order, and whose rows it can change. |
| Accounts.Credit.Allocate | Credit.cpp:46-55 | Funds are reserved in memory and store, or refused with nothing changed when they exceed peer-available. |
| Accounts.PaymentReceiver.Commit | Payment.cpp:95-103 | The balance is reloaded before it is increased, so a commit applies to the balance as it is then. |
| Accounts.PaymentSpender.Commit | Payment.cpp:144-151 | The same on the paying side. |
| Settlement.SettlementNeverFails | BtcContract.cpp:170-191 | Main result. On a mirrored link used in one direction, however reservations, reductions, releases, settlements and expiries of any number of contracts interleave at the two ends, both funds tests inside execute pass for every contract still open. |
| Settlement.BalancesAreOffByHalfSettledDeals | Payment.cpp:77-155 | At any moment the two balances differ from mirror images by what only the receiver settled minus what only the sender settled. |
| Settlement.FinishedLink | BtcContract.cpp:170-191 | When both ends have settled everything the link is mirrored again and nothing of it remains allocated. |
| PathSettlements.CommittedPurchasesConserveMoney | BtcContract.cpp:170-191 | Main result. Take any number of purchases over a path that have been broadcast, in any runs of their commit chains, and let every link settle the contracts by which its payer pays for them, in any order: the payees' contracts are for the same values, every hop ends where it started, the buyer is down and the seller up by exactly the agreed values, and every link is mirrored. That the links move the same fiat is derived from the commit chain. |
| TwoWayLinks.NextContractCanFailIff | BtcContract.cpp:170-191 | Main result, with contracts in both directions, listed by the payer when it asks and by the payee when it reserves, polled in list order. In any state of any run, with any expiries and failures behind it, in which nothing is due at an end: some contract the other end can accept now fails the payer's funds test, if and only if what the other end has paid and this end lost by an expiry exceeds what this end booked without being paid, still owes or failed to pay, and what the other end held back from the start. |
| TwoWayProofs.NoFailureWithoutLoss | BtcContract.cpp:37-51 | Main result. In every run, whatever expires, in which payees reserve in time (all that the payee has paid was listed at the payer before the payer asked): at every moment of every poll, as long as no payee's copy has expired unsettled with the payer paying, no funds test has failed and both balances have moved by exactly the contracts closed, although a payee may reserve against money the payer has not booked yet. |
| TwoWayProofs.LossCanBlock | BtcContract.cpp:119-129 | One such loss is enough, on any link: every contract that needs what the payee has paid is accepted and then fails. |
| TwoWayProofs.LateReservationCanBlock | TmContract.cpp:455-462 | A late reservation is enough, on any link and without any expiry: the payee pays while an offer waits, reserves for the offer on the strength of that, and the payer's poll comes to it before it books the payment. |
| SellOrders.CommitmentIsWhatIsHeldIff | TmContract.cpp:264-280 | Main result. Over every interleaving of seller-side transactions, timeouts and a cancellation by the user, the order's commitment equals what the live contracts hold, if and only if every transaction that was rolled back on the way (by timeout or ABORT) had its contract in the order's currency. |
| SellOrders.OneCurrencyKeepsTheBooks | TmContract.cpp:255-259 | In particular it holds in every run whose offers all carry the order's currency, and then the commitment stays between zero and the amount. |
| SellOrders.CommitmentInRange | OrderBook.h:75-76 | With rollbacks in the order's currency only, 0 <= commitment <= amount. |
| SellOrders.DeletedOnlyWhenFree | TmContract.cpp:340-346 | With such rollbacks only, the order is deleted (filled, or timed out) only when no other transaction holds a reservation on it. |
| SellOrders.LeftAndSoldIsOffered | TmContract.cpp:319-338 | Main result. In every run, whatever is rolled back: while the order exists, what is left of it plus the amounts of the contracts whose COMMIT was broadcast is what was offered. |
| SellOrders.SellsWithinOfferIff | TmContract.cpp:319-347 | Main result. Over any run the seller sells at most what it offered if and only if no COMMIT finds a contract for more than the order still has. |
| SellOrders.RightRunsSellTheOffer | TmContract.cpp:319-346 | With rollbacks in the order's currency only, the seller never sells more than it offered, and a sale takes the order out of the book exactly when what was sold then makes up the whole offer. |
| SellOrders.WrongCurrencyBreaksTheBooks | TmContract.cpp:385-392 | Concrete runs after a rollback in another currency: the commitment is negative, and then twelve are sold from an order of ten. |
| CommitChainProofs.RunInv | TmContract.cpp:88-618 | The invariant of every reachable state of a chain of any length, under any reordering of items and any timeouts. |
| CommitChainProofs.CommittedIsAPrefix | TmContract.cpp:488-509 | Main result. As soon as any contract is in force at a node, that node and every node nearer the buyer have activated both the contract by which they pay and the contract by which they are paid (the buyer and the seller the one they have). |
| CommitChainProofs.BroadcastImpliesAllCommitted | TmContract.cpp:347-347 | Main result. The seller broadcasts the Bitcoin transaction only after every node on the path has activated both its contracts. |
| CommitChainProofs.AbortExcludesCommit | TmContract.cpp:192-205 | In a run with an ABORT command by the buyer no contract at all is in force anywhere on the chain. |
| CommitChainProofs.AbortTakesContractIff | TmContract.cpp:88-117 | Main result. Whatever the buyer's coordinator is answered, in any run and however the run goes on: the buyer has no contract listed for the purchase, and has commanded an abort, if and only if the answer was VOTE_NO or ABORT_REQUEST; an abort for a vote it cannot use leaves the contract listed. |
| Siblings.CommittedContractsSurvive | TransactionManager.cpp:115-124 | Once a node has committed, its contract stays as activated, for the chain and in the node's list, whatever aborts, timeouts and late items come and whatever rollbacks the node's other transactions make, before or after their votes. |
| CommitChainProofs.CommittedAgree | TmContract.cpp:526-537 | Main result. All contracts in force in a run carry one amount and Bitcoin TX, the seller's vote, and the buyer's price and currency; the amount is positive, at most the request and at most the order's leftover at the vote, and the price is at least the seller's limit. |
| Siblings.CommittedNamesTx | TmContract.cpp:108-131 | Every contract in force names a Bitcoin TX, that of the seller's vote: it is never empty. |
| CommitChainProofs.BroadcastAgreesAllLinks | TmContract.cpp:300-350 | Main result. Once the transaction is broadcast, on every link the payer holds a SENDER contract towards the payee and the payee a RECEIVER contract from the payer, both in force, equal in amount, price, currency and Bitcoin TX, at one fiat value for the whole path. |
| CommitChainProofs.QuotesShrinkAtTheBuyersPrice | TmContract.cpp:442-470 | Amounts quoted along the chain are positive and never grow, and fiat / btc of every offer is exactly the buyer's price, however often credit capped it. |
| Progress.DealsAreMade | TmContract.cpp:225-567 | Over any number of links, with enough credit, leftover and price, three deliveries a link complete the deal: every node has committed and the transaction is broadcast. The safety results are not empty. |
| Managers.OfferPrice | TmContract.cpp:247-247 | The price is positive and reproduces the fiat amount from the Bitcoin amount. |
| ContractManagers.TmContractCohorteHop.DoQuery | TmContract.cpp:425-472 | The hop's QUERY handler on objects: tunnel, contracts, forwarded offer, phases and refusals as specified; the ledger changes by two creations and two addresses, or not at all. |
| ContractManagers.TmContractCohorteHop.MakeContracts | TmContract.cpp:455-462 | Both contracts are listed with their credit reserved, or neither. |
| ContractManagers.TmContractCohorteHop.DoVote | TmContract.cpp:511-542 | Both contracts take the voted amount and TX if the vote comes in phase QUERY, names a TX and is at most what the hop pays, and keep their amounts otherwise; exactly the freed credit is released, and only when the vote is accepted. |
| ContractManagers.TmContractCohorteHop.DoCommit | TmContract.cpp:488-509 | Both contracts are activated before the COMMIT goes on, and only after a yes vote. |
| ContractManagers.TmContractCohorteHop.ProcessItem | TmContract.cpp:544-577 | The hop's dispatch agrees with the function the chain proofs use. ABORT takes both contracts off the list where each is the first with its friend and Bitcoin TX, leaves all others in order and makes the RECEIVER contract's fiat available again; ABORT and ABORT_REQUEST go on through the tunnel; a vote releases the freed credit; nothing else touches list or accounts. |
| LedgerEffects.RollbackFreesHop | TmContract.cpp:570-577 | A hop's rollback: neither contract is listed, the others are as before, and the previous node's available credit is up by exactly the fiat of the RECEIVER contract. |
| LedgerEffects.HopQueryThenAbort | TmContract.cpp:425-472 | Main result. A QUERY followed by an ABORT or a timeout restores the hop's list and every account, whatever the QUERY did, unless another contract with one of the two friends has no Bitcoin TX yet. |
| LedgerEffects.PayeeQueryThenAbort | TmContract.cpp:225-297 | The same at the seller, through all its decisions. |
| LedgerEffects.OrderQueryThenAbort | TmContract.cpp:385-392 | The seller's order is restored if and only if no contract was made or the offer was in the order's currency. |
| LedgerEffects.PursuitThenRollback | TmContract.cpp:39-56 | A purchase that is rolled back restores the buyer's ledger, unless another contract with the next node has no TX yet. |
| ContractManagers.TmContractCohorteHop.ForwardItem | TmContract.cpp:589-605 | SERVER items go to the second, CLIENT items to the first end of the tunnel; nothing is sent without one. |
| ContractManagers.TmContractCohortePayee.ReserveOn | TmContract.cpp:264-276 | The contract shrinks to what the order still has, exactly that is reserved, and the ledger changes by that reduction, if there is one. |
| ContractManagers.TmContractCohortePayee.DoQuery | TmContract.cpp:225-297 | The seller's QUERY handler with its order of tests: credit, currency, price, leftover, raw transaction; and the ledger after each of these outcomes. |
| ContractManagers.TmContractCohortePayee.DoCommit | TmContract.cpp:300-350 | The contract is activated; a partial sale lowers the order's amount and its commitment by exactly the contract's amount, the sale of the rest takes the order out of index and asks; and only then the transaction is broadcast; also for an order the user has cancelled meanwhile. |
| ContractManagers.TmContractCohortePayee.Sell | TmContract.cpp:319-346 | If the order has more than the contract, its amount and its commitment both fall by the contract's amount and it stays listed; otherwise it is marked filled and leaves index and book, if it is still there. |
| ContractManagers.TmContractCohortePayee.ProcessItem | TmContract.cpp:353-370 | The seller's dispatch agrees with the function the chain and order proofs use; QUERY changes the ledger as specified, ABORT takes the contract off the list and frees its credit, nothing else touches the ledger. |
| ContractManagers.TmContractCoordinator.constructor | TmContract.cpp:39-56 | A purchase appends exactly one contract with the next hop to the list when there is a route, and none otherwise, without touching credit, and locks the bid. |
| ContractManagers.TmContractCoordinator.Init | TmContract.cpp:64-85 | The first offer carries the contract's own fiat amount, and nothing is sent without contract or address. |
| ContractManagers.TmContractCoordinator.TakeVote | TmContract.cpp:108-146 | The buyer commits exactly to a vote that names a TX and is for at most its contract's amount, and then its contract carries both and is active; otherwise it commands an abort. |
| ContractManagers.TmContractCoordinator.SettleBid | TmContract.cpp:148-177 | What is left of a bid can be matched again; a filled bid leaves index and book, if the user has not cancelled it before. |
| ContractManagers.TmContractCoordinator.Rollback | TmContract.cpp:182-189 | The contract leaves the list, and the seller's order our asks if it is still among them. |
| ContractManagers.TmContractCoordinator.ProcessItem | TmContract.cpp:88-106 | On VOTE_NO and ABORT_REQUEST the contract is off the list, the ask is struck, and one ABORT goes to the next hop; on a vote it commits to, the bid is lowered and unlocked or filled; what the bid remembers of its matches stays. The answers are those of the function the chain proofs use. |
| Dispatching.TransactionManagers.HandleTxItem | TransactionManager.cpp:44-77 | The item reaches the manager registered under its order and payer, or a new cohort of the right kind, which is deleted unless it reports success or throws; other transactions are untouched. A coordinator that hears VOTE_NO or ABORT_REQUEST is deleted with no contract in hand and sends one ABORT. |
| Dispatching.TransactionManagers.Timeout | TransactionManager.cpp:115-124 | Exactly the managers that are late are rolled back and deleted, each once. Where no other contract shares friend and Bitcoin TX, exactly the contracts in their hands leave the list, each friend's available credit rises by what these held back, and each order gets back what was committed to its late sales. |
| Dispatching.TimeoutsRelease | TransactionManager.cpp:115-124 | Main result. The same as a law about any set of managers of all three kinds, ledger and orders. |
| Dispatching.TimeoutsConserveIff | TransactionManager.cpp:115-124 | Any such timeouts keep every friend's allocation accounted for, at every moment, if and only if each contract that is rolled back is found on its own side. |
| OrderBooks.ComparisonIsSoundOnOneSide | OrderBook.cpp:257-259 | The comparison is a strict weak order on each side of the book; across sides it holds both ways for a bid above an ask. |
| OrderBooks.SortSorts | OrderBook.cpp:127-136 | Sorting one side leaves no order after one it should precede. |
| OrderBooks.ProcessKeepsIdsUnique | OrderBook.cpp:160-208 | Incoming gossip never makes an id appear twice. |
| OrderBooks.PassedOnOnce | OrderBook.cpp:160-208 | An update that is at most a day old and at most an hour ahead is passed on exactly when it was unknown, is known afterwards, and a second delivery changes nothing. |
| OrderBooks.IgnoredStays | OrderBook.cpp:189-199 | No gossip brings an order that was struck from matching back into it: as long as it is listed, updates of its owner keep the mark. |
| OrderLists.OrderBook.FilterOrders | OrderBook.cpp:127-136 | The view is a permutation of the orders in the currency, price-sorted on one side of the book. |
| OrderLists.OrderBook.SetCurrency | OrderBook.cpp:118-125 | The view agrees with the raw list in the new currency. |
| OrderLists.OrderBook.AddOrder | OrderBook.cpp:212-226 | The view still agrees, also when an order in another currency skips re-filtering; ids stay distinct when the new one is not listed yet. |
| OrderLists.OrderBook.Remove | OrderBook.cpp:229-244 | The first order with the id goes, and the view agrees. |
| OrderLists.OrderBook.ProcessOrder | OrderBook.cpp:160-208 | The handler on objects agrees with the value specification, for own, stale, withdrawn, updated and new orders, and keeps view and ids in order; it refuses exactly our own orders and those more than a day old or an hour ahead. |
| OrderLists.OrderBook.TimeoutOrders | OrderBook.cpp:297-313 | Exactly the orders that are more than a day old and have no commitment go, from the side and from the index of our own. |
| MyOrderLists.OwnOrdersStay | p3ZeroReserveRS.cpp:171-195 | Gossip neither drops nor duplicates one of our own orders. |
| MyOrderLists.MyOrders.PlaceOrder | OrderBook.cpp:138-158 | Index and side gain the order together; the index stays exactly the own orders of both sides. |
| MyOrderLists.MyOrders.DropOrder | TmContract.cpp:340-346 | Index and side lose a filled or cancelled order together. |
| MyOrderLists.MyOrders.CancelOrder | MyOrders.cpp:169-185 | The order shown in the row is the one that goes. |
| MyOrderLists.MyOrders.Incoming | p3ZeroReserveRS.cpp:182-187 | An order from a friend is processed on its own side and leaves our own orders in place. |
| MyOrderLists.MyOrders.Timeout | p3ZeroReserveRS.cpp:97-98 | The janitor's two timeouts keep index and sides in agreement. |
| MyOrderLists.MyOrders.Match | MyOrders.cpp:131-158 | A pass walks the sorted asks in the bid's currency and buys according to the plan below, each ask once and only from others' asks that are not ignored, not matched before and within the limit; it remembers exactly what it bought from in addition, and locks the bid exactly when it buys. |
| MyOrderLists.MyOrders.MatchAll | MyOrders.cpp:119-128 | Every bid of ours that is not locked gets one pass over the sorted asks as it sees them, buys the plan for what it wants and remembers it; our asks and locked bids buy nothing and remember what they did. |
| MyOrderLists.WalkAsks | MyOrders.cpp:138-157 | The loop with its continue, break and early return buys the plan and adds exactly the ids of the asks it bought to those the bid remembers. |
| MyOrderLists.NeverBoughtTwice | MyOrders.cpp:138-157 | Main result. Over any sequence of passes for one bid, however often it is unlocked in between and whatever the book and the bid look like each time, the asks bought from are pairwise distinct, and distinct from those it remembered before. |
| MyOrderLists.PassIsOptimal | MyOrders.cpp:131-158 | Main result. A pass buys exactly min(bid, eligible supply), from eligible asks only (others' asks, not ignored, not matched before, within the limit), at most each ask's amount, and no other way of buying as much costs less. |
| Matching.GreedyFillsAllItCan | MyOrders.cpp:138-157 | Total bought is min(wanted, eligible supply): the early break loses nothing. |
| Matching.GreedyIsOptimal | MyOrders.cpp:143-143 | No feasible allocation of the same quantity is cheaper at ask prices. |
| RouteTrees.RunInv | p3ZeroReserveRS.cpp:171-195 | Whoever sends, lists or routes an order is its originator or learned a route earlier, in every run of the gossip. |
| RouteTrees.RoutesFormATree | p3ZeroReserveRS.cpp:178-180 | Main result. In every run, from every node with a route, following nextHop leads to the originator over friends, without repeating a node, within as many hops as there are nodes. |
| RouteTrees.RoutesAreFixed | TraceRouter.cpp:24-27 | A way found once is never changed by later gossip. |
| ReturnPaths.RetracedIffTunnelsMatch | TmContract.cpp:589-605 | CLIENT items visit exactly the reversed path and SERVER items the path, if and only if each hop still has the path's own tunnel. |
| ReturnPaths.OneTransactionPerOrderRetraces | TmContract.cpp:580-586 | Main result. That is so when all QUERYs for the order at the hops of the path belong to one transaction, whatever else goes on. |
| ReturnPaths.CrossingTransactionsMix | Router.h:58-58 | Two transactions for one order crossing at a hop misdirect an answer. |
| Routers.TraceRouter.AddRoute | TraceRouter.cpp:24-27 | The route table after an overwrite. |
| Routers.TraceRouter.NextHop | TraceRouter.cpp:30-38 | The gateway, or nothing. |
| Routers.TraceRouter.GetTunnel | Router.h:59-66 | The tunnel, or failure with the out-parameter untouched. |
| Flooding.DeliveryAtNode | p3ZeroReserveRS.cpp:171-195 | A node passes an update on only if it was news, and then it is news no longer. |
| Flooding.StepCosts | p3ZeroReserveRS.cpp:240-259 | Each delivery of the update is paid for by the packet it takes, and each publication of it by a node that lacked the update and does so no longer. |
| Flooding.FloodTotals | p3ZeroReserveRS.cpp:171-259 | Over a run in which other orders are published, dropped and exchanged meanwhile: sends, deliveries, handed over copies and passes per node against the potential at the start. |
| Flooding.FloodingTerminates | p3ZeroReserveRS.cpp:240-259 | Main result. After a publication, whatever else happens to other orders, every node publishes the update at most once and the originator never again; it is sent at most as often as the sum of node degrees, and delivered at most that often plus twice for each order book handed over. |
| Services.ZeroReserveService.HandleOrder | p3ZeroReserveRS.cpp:171-195 | Route, book and publication on objects agree with the gossip model; the route is learned if there is none, also from an order that is refused. |
| Services.ZeroReserveService.PublishOrder | p3ZeroReserveRS.cpp:240-259 | The order goes to exactly the online peers that are neither this node nor the sender and whose credit line covers a tenth of it: own credit plus balance for an ask, what the peer may still owe for a bid. |
| Services.ZeroReserveService.SendOrderBook | p3ZeroReserveRS.cpp:136-151 | A new neighbour gets every ask and then every bid; the closing message goes out without an addressee. |
| Services.ZeroReserveService.HandleCredit | p3ZeroReserveRS.cpp:197-211 | Our record of the credit a friend grants agrees with the friend's afterwards. |
| Services.RecipientsAreAddressees | p3ZeroReserveRS.cpp:240-259 | Whoever is online, the recipients are distinct friends other than the sender. |
| Services.RecipientsHave | p3ZeroReserveRS.cpp:244-259 | The same about the list of recipients, peer by peer. |
| LocalManagers.TmLocalCoordinator.ProcessItem | TmLocalCoordinator.cpp:71-108 | COMMIT in reply to VOTE_YES and nothing otherwise, the codes, and the debit on the acknowledgement only. |
| LocalManagers.TmLocalCohorte.ProcessItem | TmLocalCohorte.cpp:77-126 | Replies, phases, codes; the vote on a first QUERY is yes exactly when the amount is available, and the credit comes on COMMIT only. |
| LocalPayments.MoneyIsConserved | TmLocalCohorte.cpp:97-108 | Main result. Over any number of interleaved payments both ways, with any reordering and timeouts, the two balances add up to the starting sum plus what was received and not yet paid. |
| LocalPayments.PaidAndReceivedAgree | TmLocalCoordinator.cpp:92-95 | A debit implies the credit always; the credit implies the debit once the link is quiet, unless the coordinator timed out. |
| LocalPayments.FundsWereThere | TmLocalCohorte.cpp:55-63 | In every run each payment was affordable for its payer when it began, and each one that is received fitted the friend's credit when its QUERY arrived. |
| LocalPayments.CreditIsKeptIffCommitsAreCovered | TmLocalCohorte.cpp:97-107 | Main result. For amounts that are not negative: no side is ever owed more than it grants, at any moment of a run, if and only if every COMMIT that a waiting cohort accepts finds the amount available at that moment, the test the code makes at QUERY only. |
| LocalPayments.CreditIsKeptIff | TmLocalCohorte.cpp:97-107 | The same for all amounts, with the debit on acknowledgement tested as well. |
| LocalPayments.InterleavedPaymentsOverdraw | TmLocalCohorte.cpp:97-107 | Two interleaved payments exceed the credit, since funds are tested at QUERY and not at COMMIT. |
| Decimals.ParsingIsExact | zrtypes.h:61-78 | Main result. Every numeral whose scaled value and power of ten fit into 64 bits is parsed exactly, including negatives below one, and no intermediate value overflows. |
| Decimals.ExactIffItFits | zrtypes.h:61-78 | The parser is exact and free of overflow if and only if the scaled value and the power of ten fit. |
| Decimals.EighteenDigitsFit | zrtypes.h:72-76 | Up to 18 digits everything fits. |
| Decimals.ParsingInvertsPrinting | zrtypes.h:61-78 | Parsing gives back the numerator and denominator of a fixed-point print. |
| Payloads.Split | TransactionManager.cpp:79-87 | The getline loop computes the tokens. |
| Payloads.SplitInvertsJoinIff | TransactionManager.cpp:79-87 | Splitting inverts joining if and only if no field has a colon and the last is not empty. |
| Payloads.VoteHasTwoFieldsIff | TmContract.cpp:111-117 | A vote splits into two fields exactly if it names a Bitcoin transaction. |
| Items.OffsetIsSerialSizeIff | RSZRRemoteItems.cpp:152-191 | For all six items, what is written ends at serial_size() if and only if the currency symbol, where there is one, has three letters. |
| Items.ItemsRoundTrip | RSZeroReserveItems.cpp:37-70 | Deserialising what was serialised returns the item, whatever follows in the buffer; a credit item comes back with the two credits interchanged. |
| Items.TwoTripsAreTheIdentity | RSZeroReserveItems.cpp:253-261 | Two trips are the identity. |
| Layouts.ReadAllBack | RSZRRemoteItems.cpp:104-111 | Fields are read back one after the other and nothing else is consumed. |
| Serialisers.Serialise | RSZRRemoteItems.cpp:166-191 | serialise succeeds exactly when the buffer suffices and the symbol has three letters, and then the buffer holds the item. |

## Left out

- Contracts.AllocationConserved: amounts are only reduced: a hop does not compare a vote with its receiver contract (TmContract.cpp:533), but in every run of a chain the vote is at most the last quote.
- Settlement.SettlementNeverFails: one direction per link and mirrored credit lines; settlements in any order and expiries are allowed. Users editing credit lines meanwhile are left out here and in TwoWayLinks.
- TwoWayProofs.NoFailureWithoutLoss: that reservations are timely is a hypothesis; in the source the one-minute timeout of a manager (TransactionManager.cpp:133-146) against the six confirmations of a payment sees to it, and the model has neither clock. An offer is listed with no amount until it is reserved, since it is not in force.
- PathSettlements.CommittedPurchasesConserveMoney: each link carries the contracts of the given purchases in one direction, on links that were mirrored before; what a chain files and what a link settles are joined by value.
- CommitChainProofs.RunInv: one transaction on a fresh path; the seller's order is not overcommitted when a QUERY reaches it (what SellOrders proves); the ledger is represented by the credit available at a delivery.
- Siblings.CommittedContractsSurvive: before the vote another transaction's rollback can erase a contract of the chain (`RemoveSparesIff`, `RollbackCanHitTheOtherSide`), whose manager then holds a dangling pointer in the source; the chain itself runs without this. The settlement or expiry of a committed contract is the subject of Settlement.
- ContractManagers.TmContractCohortePayee.DoQuery: a new manager requires the order in the index of own orders, which the dispatcher tests before it makes a payee.
- ContractManagers.TmContractCohortePayee.ProcessItem: abortTx on a manager that has no order yet dereferences an unset pointer in the source; the model sends the intended request.
- ContractManagers.TmContractCoordinator.Rollback: requires that no order of our own is listed under the id of the order it bought from.
- ContractManagers.TmContractCoordinator.TakeVote: requires the route the coordinator was made with, which is never removed, and an item of its own transaction, by which the registry finds it.
- Flooding.FloodingTerminates: no other version of the order circulates: books handed over meanwhile list no other version, and the originator publishes no second update under the id.
- ContractManagers.TmContractCohorteHop.DoVote: the new state of the two listed contracts is stated through the objects, which the list shares.
- ContractLists.ContractList.Create: contracts loaded from the store after a restart are left out.
- LocalManagers.TmLocalCohorte.ProcessItem: abortTx before a QUERY dereferences an unset pointer in the source; the model sends the intended reply.
- MyOrderLists.MyOrders.Match: over several passes a bid may be unlocked while purchases are pending, so no bound on what it buys in all is claimed, only that no ask is bought from twice.
- Dispatching.TimeoutsRelease: requires, for what leaves the list, that no other contract shares friend and Bitcoin TX with one that is rolled back; without that `RemoveSparesIff` says which contract goes. Orders get back their commitments in any case.
- SellOrders.LeftAndSoldIsOffered: what transactions still do to an order object that a sale has deleted is left out.
- ContractManagers.TmContractCoordinator.ProcessItem: requires the route the coordinator was made with, an item of its own transaction, and that no order of our own is listed under the id of the order it bought from.
- OrderLists.OrderBook.FilterOrders: the library's qSort is some permutation, sorted where the comparison is sound.
- RouteTrees.RoutesFormATree: restarts, which lose routes, are left out; ids belong to one originator, as fresh hashes do.
- Items.ItemsRoundTrip: amounts are texts; that fraction strings convert back is the rational library's. A remote-TX item ignores read failures in the source and is refused here.
- Payloads.VoteHasTwoFieldsIff: in the managers a payload is a datatype; this lemma ties the test for two fields to it.
- Dispatching.TransactionManagers.HandleTxItem: the registry maps to manager values; the handlers on objects are in ContractManagers. The dispatch of local items is part of LocalPayments (Handled, Registered).
- Dispatching.TransactionManagers.Timeout: erasing while iterating, as the source does, is left out; that a buyer's rollback also strikes the ask is in Coordinator.Rollback.
- SQL, doubles in the store, transactions of the store and its exceptions: an exact map.
- The currency table and the exception for an unknown symbol; `fromDouble` and `toDecimalStdString`.
- Order ids (SHA-256, Radix64): fresh numbers.
- Bitcoin RPC, the user interface, mutexes, logging, payment requests and unused payment categories.
