# Invoice financing: the funding protocol and its parts, proved

QuickLendX finances invoices on Soroban. A business uploads an invoice, investors bid on it, the
business accepts one bid, and the investor's money goes into escrow. The business pays the invoice
off, in parts or at once; the settlement releases the escrow, pays the investor and takes a platform
fee. An invoice that is not paid in time is defaulted, and a funded one can be refunded.

This project models the contract in `quicklendx-contracts/src` and proves what its parts keep
together. Verify it with `dafny verify dfyconfig.toml`.

## How it is built

* **The protocol.** `Protocol` gives every entry point as a function from the stored state to the new
  state or the error; a failing call leaves the state as it was. `ContractCalls`, with the storages in
  `Stores` and `BidStorage` in `BidBook`, is the same contract as it is written: fields, index lists,
  double bookkeeping, redundant checks, loops, the payment lock and the host's rollback. Every entry
  point of the class is proved to have exactly the outcome the function gives. Runs are sequences of
  actions: authorized calls with any arguments, the passing of time, and the token holders' own
  transfers and approvals.
* **One invoice at a time.** `Coherence` gathers everything stored about an invoice in a slice and says
  how its status fixes the rest. `Local` lists the ten events that can change a slice; `Frames` and
  `Simulation` show that every action acts on every invoice as one of these events and keeps the
  tables, indexes, status lists and custody around them. `Runs`, `CashFlow`, `Replays`, `Settling`,
  `Outcomes` and `Liveness` draw the consequences for whole runs.
  `Effects` says on the stored fields what each successful call changes.
* **The parts.** `OverdueScan` (the rotating cursor), `BidBook` and `BidRanking`, `SettlementSplit`,
  `Insurance`, `Revenue`, `TransactionFees`, `Calendar`, `Cursor`, `Audit` and `Backups` are modelled
  with their own loops, arrays and indexes; `BackupRuns` follows the backups
  through every run.
* **Where runs lead.** `Scenarios` builds runs from deployment to Funded invoices; `Witnesses` and
  `ScanWitnesses` continue them to the states in which the findings below show, and `WrapAround` says
  exactly when the scan cursor comes back to 0 and what that means.

Identifiers are the values of the counters they are generated from. `require_auth` is the caller's
part: an action stands for a call that was authorized. KYC, eligibility, the currency whitelist and
the other limits that live outside the modelled files are parameters that either pass or fail with an
error. Ledger time is a number that only grows. The token contract is a map of balances and
allowances with a history of moves.

## What turned out to differ from the documentation

* `defaults.rs:207-208` tells callers to scan until the cursor wraps to 0. A stored 0 can be relied on exactly
  when one call takes in every Funded invoice (`ScanWitnesses.WrapIsReliableIff`); otherwise a reachable state
  exists in which a scan stores 0 and leaves an overdue invoice. The loop may also never end: with nothing left
  to default the cursor comes back to 0 iff one call takes in the whole list or the greatest common divisor of
  limit and length divides it (`WrapAround.WrapsEventuallyIff`), and five invoices scanned two at a time miss 0
  for ever (`ScanWitnesses.ScanningMayNeverEnd`). The bound that does hold is m * ceil(n / k) calls
  (`Liveness.OverdueInvoicesAreDefaulted`).
* A partial payment may carry the transaction id that `settle_invoice` reserves. It is accepted, and
  from then on `settle_invoice` always fails on that invoice (`Settling.NamingAPaymentSettlement`,
  with runs in `Witnesses.ReservedIdIsReachable`).
  `Settling.SettleSucceedsIff` says exactly when a settlement succeeds.
* An invoice whose amount times 100 exceeds an `i128` can never be settled in full, because the progress report
  overflows first (`Settling.HugeInvoiceIsNeverPaid`); every other amount can (`Witnesses.PayableIff`).
* A default leaves a Held escrow where it is, for good (`Runs.DefaultStrandsHeldEscrow`,
  with runs in `Witnesses.StrandedEscrowIsReachable`).
* Revenue totals saturate. Past the largest `i128`, collected still equals distributed plus pending while one of
  the two is 0, and the sum by type while one type is all there is; otherwise they disagree, and none of them is
  what was taken (`Revenue.BalancesIff`, with a run in `Revenue.SaturationBreaksTheBalance`).
* Texts of timestamps order as the timestamps up to the end of the year 9999 and not beyond
  (`Calendar.OrderBreaksAtYear10000`); past 2^32 days the cast to `u32` wraps (`Calendar.DateIsExact`).
* The cursor parser accepts texts the printer never produces: exactly those with a plus sign or an unneeded
  leading zero in either part (`Cursor.BuiltIffPlain`; one such text in `Cursor.NotOnlyBuiltCursorsParse`).

## Model

| member | source | states |
|---|---|---|
| Runs.StatusFixesEverything | quicklendx-contracts/src/escrow.rs:42-250 | in every reachable state the status fixes the rest: no escrow, investment, accepted bid or payment before funding; one escrow (Held or Released), one Active investment in the active index and one Accepted bid that agree while Funded; Released, Completed, finalized and fully paid when Paid; Refunded, Refunded and no Accepted bid when Refunded; a Defaulted investment without active policies when Defaulted; guard iff Defaulted, finalized iff Paid |
| Runs.EscrowNeverReplaced | quicklendx-contracts/src/payments.rs:115-150 | once recorded, an invoice's escrow keeps its id, parties, amount and currency through any continuation, and once paid out it never changes |
| Runs.ClosedIsFrozen | quicklendx-contracts/src/settlement.rs:516-530 | nothing stored about a Paid, Refunded, Defaulted or Cancelled invoice changes in any continuation: it is settled, refunded or defaulted at most once |
| Runs.OneEdgeAtATime | quicklendx-contracts/src/invoice.rs:99-127 | one action moves an invoice along at most one edge of Pending, Verified, Funded, then Paid, Refunded or Defaulted, or to Cancelled before funding |
| Runs.DefaultOnlyWhenOverdue | quicklendx-contracts/src/defaults.rs:128-153 | an invoice becomes Defaulted only from Funded, by an action that judges deadlines, and strictly after due date plus the grace period in use |
| Runs.DefaultStrandsHeldEscrow | quicklendx-contracts/src/defaults.rs:277-324 | an escrow that is Held when its invoice is defaulted stays Held, and covered, in every continuation |
| Runs.PaymentLogAddsUp | quicklendx-contracts/src/settlement.rs:128-237 | the durable records are positive, at most 1000, with unique non-empty transaction ids that are exactly the remembered ones; the total is their sum, never above the amount; the inline history is exactly the last 32 of them |
| Runs.ProgressIsExact | quicklendx-contracts/src/settlement.rs:302-338 | the progress report never fails in a reachable state, and reads 100 percent iff the invoice is Paid |
| Runs.CoverStaysWithinPrincipal | quicklendx-contracts/src/investment.rs:167-239 | over any run active percentages total at most 100, active cover at most the principal, and every premium lies between 1 and its cover |
| Runs.StatusListsPartition | quicklendx-contracts/src/storage.rs:224-250 | the seven status lists are duplicate-free and each holds exactly the stored invoices of its status |
| Runs.BidBookInEveryRun | quicklendx-contracts/src/lib.rs:1060-1090 | every live bid is in both of its indexes, the index lists have no duplicates, and an invoice never has more than 50 live bids |
| Runs.RunKeeps | quicklendx-contracts/src/settlement.rs:402-494 | every run keeps the invariant, and carries every invoice forward: status, escrow, investment, payments, transaction ids and transfers only grow or advance |
| Simulation.ApplyStep | quicklendx-contracts/src/escrow.rs:108-168 | every action acts on every stored invoice as one of ten local events, which is enabled there, and keeps all tables, indexes, lists and custody |
| Simulation.ScanStep | quicklendx-contracts/src/defaults.rs:209-270 | a scan succeeds from every state that satisfies the invariant and is a step of the simulation |
| Local.EventKeepsCoherent | quicklendx-contracts/src/settlement.rs:402-494 | no local event can leave an invoice whose status disagrees with its escrow, investment, bids, payments or transfers |
| Local.EventEvolves | quicklendx-contracts/src/escrow.rs:177-250 | an event never replaces an escrow or an investment, never reopens a closed one, never forgets a payment or a transfer, and leaves a closed invoice as it is |
| CashFlow.WholeLifeCashFlow | quicklendx-contracts/src/settlement.rs:402-494 | over all transfers ever made for a Paid invoice the business nets escrow minus amount, the investor amount minus fee minus escrow, the fee recipient the fee, nobody else anything, whether the escrow was released early and however payments were split; the fee is the rate configured at settlement (2 percent if none) of the profit, rounded down, and goes to the configured treasury or stays in the contract |
| CashFlow.EscrowPaysOutOnce | quicklendx-contracts/src/payments.rs:170-227 | the transfers out of the contract for an invoice are none while Held, and otherwise exactly one, of the full amount, to the business or back to the investor, never both |
| CashFlow.CustodyInEveryRun | quicklendx-contracts/src/payments.rs:115-278 | in every currency the contract holds at least the sum of its Held escrows |
| CashFlow.LedgerIsExplained | quicklendx-contracts/src/payments.rs:242-278 | in every run total supply is conserved, and every balance is the initial one plus what the recorded transfers brought |
| Replays.ReplayIsNoOp | quicklendx-contracts/src/settlement.rs:152-160 | a partial payment under a recorded transaction id leaves the whole state unchanged |
| Replays.ReplayCanBeDeleted | quicklendx-contracts/src/settlement.rs:80-113 | after an accepted partial payment a later one under the same id can be deleted from the run, whatever its amount and whatever is interleaved |
| Replays.ReplaysDoNotMatter | quicklendx-contracts/src/settlement.rs:80-113 | deleting every replay from a run leaves the same final state |
| Settling.SettleSucceedsIff | quicklendx-contracts/src/settlement.rs:249-295 | settling succeeds iff the invoice is Funded, the payment is exactly what is due, the reserved transaction id is unused, the log has room, the amount scales by 100, and the business can pay once the escrow is released to it |
| Settling.PartialPaymentSucceedsIff | quicklendx-contracts/src/settlement.rs:80-113 | exactly when a partial payment succeeds, replays and completing payments included |
| Effects.PaymentIsRecorded | quicklendx-contracts/src/settlement.rs:165-237 | a payment that is no replay adds one record of min(offered, owed) by the business at ledger time under its id, raises the total by that, touches no other log, and the invoice is Paid iff it completes the amount |
| Effects.SettlementIsRecorded | quicklendx-contracts/src/settlement.rs:249-298 | a settlement records exactly what was owed under the reserved id and the invoice is Paid |
| Effects.UploadStores | quicklendx-contracts/src/lib.rs:599-649 | exactly when an upload succeeds, and every field it stores |
| Effects.StatusChanges | quicklendx-contracts/src/lib.rs:672-739 | verifying and cancelling change the status only; exactly when cancelling succeeds |
| Effects.BidIsStored | quicklendx-contracts/src/lib.rs:1060-1090 | an accepted bid is stored as made, Placed, under the next id, lapsing after the configured days; other bids change only by lapsing |
| Effects.BidEnds | quicklendx-contracts/src/bid.rs:743-755 | withdrawing and cancelling end a Placed bid each in its own way |
| Effects.AcceptanceIsRecorded | quicklendx-contracts/src/escrow.rs:108-168 | escrow, investment, invoice, bid and transfer record the same investor, amount and currency |
| Effects.PolicyIsAdded | quicklendx-contracts/src/lib.rs:1189-1228 | one active policy is added: the cover is the percentage of the principal, the premium 2 percent of it but at least 1 |
| Effects.ConfiguredAsGiven | quicklendx-contracts/src/fees.rs:260-285 | rates up to 10 percent are stored as given |
| Settling.PayOutSucceeds | quicklendx-contracts/src/payments.rs:170-278 | with custody kept, paying a Held escrow out to either side never fails for lack of funds, and a release hands the business its amount |
| Settling.ReservedIdBlocksSettle | quicklendx-contracts/src/settlement.rs:586-590 | once the reserved transaction id is recorded, settling fails in every continuation |
| Settling.NamingAPaymentSettlement | quicklendx-contracts/src/settlement.rs:152-160 | a part payment under the reserved id is accepted wherever there is room, and settling then fails for good |
| Settling.HugeInvoiceIsNeverPaid | quicklendx-contracts/src/settlement.rs:302-338 | an invoice whose amount times 100 overflows is never Paid in any run |
| Witnesses.PayableIff | quicklendx-contracts/src/settlement.rs:302-338 | for every amount: some run ends with an invoice of that amount Paid iff the amount times 100 fits |
| Scenarios.Funds | quicklendx-contracts/src/escrow.rs:108-168 | from every reachable state and for any parties: if the investor has the money and the due date is ahead, five actions fund one more invoice in full, last in the list, with its escrow Held |
| Witnesses.FundedIsReachable | quicklendx-contracts/src/escrow.rs:108-168 | for every amount and due date a run from deployment to a Funded invoice with its escrow Held |
| Witnesses.PaidIsReachable | quicklendx-contracts/src/settlement.rs:402-494 | the same run, continued by an approval and a settlement, ends Paid: the released escrow covers it |
| Witnesses.ReservedIdIsReachable | quicklendx-contracts/src/settlement.rs:152-160 | for every amount of at least 2 a run that pays part under the reserved id, after which no settlement ever succeeds |
| Witnesses.StrandedEscrowIsReachable | quicklendx-contracts/src/defaults.rs:277-324 | for every amount and every due date that can pass a run after which the escrow stays Held in every continuation |
| Outcomes.PlaceBidSucceedsIff | quicklendx-contracts/src/lib.rs:1022-1096 | exactly when a bid is accepted, on the bid table at ledger time: under 50 live bids, under the investor cap, before the due date, not by the business, from both minimums (the percentage rounded down) to the amount, for more than is bid, no live bid of the same investor |
| Outcomes.AcceptSucceedsIff | quicklendx-contracts/src/escrow.rs:42-168 | funding succeeds iff the invoice is Verified, the bid live and on it, and the investor has the funds and the allowance |
| Outcomes.PayoutsSucceedIff | quicklendx-contracts/src/payments.rs:170-227 | releasing succeeds iff Funded and Held, refunding iff moreover the caller is the admin or the business; neither ever fails for lack of funds |
| Outcomes.MarkDefaultedSucceedsIff | quicklendx-contracts/src/defaults.rs:128-153 | defaulting succeeds iff Funded and now > due date + grace, the grace given with the call (at most 2592000 seconds) or the configured one |
| Outcomes.CheckExpiryIff | quicklendx-contracts/src/lib.rs:1770-1780 | an expiry check defaults exactly the Funded invoices with now > due date + grace, and changes nothing otherwise |
| Outcomes.CleanupLeavesLive | quicklendx-contracts/src/bid.rs:492-536 | after a cleanup the Placed bids of the invoice are exactly the live ones, and no live bid anywhere is affected |
| Liveness.OverdueInvoicesAreDefaulted | quicklendx-contracts/src/defaults.rs:209-270 | from any reachable state and stored cursor, m invoices with now > due date + grace among n Funded ones are Defaulted within m * ceil(n / k) scans, and no other invoice changes |
| Liveness.ScanRefines | quicklendx-contracts/src/defaults.rs:209-270 | one scan of the protocol acts on the funded list and the cursor as the list scan does |
| Liveness.ScanNeverAborts | quicklendx-contracts/src/defaults.rs:209-270 | no scan fails in any reachable state |
| OverdueScan.EveryDueEntryIsFound | quicklendx-contracts/src/defaults.rs:184-270 | on a list that shrinks under the cursor, m * ceil(n / k) calls leave no due entry, from any cursor |
| OverdueScan.Drains | quicklendx-contracts/src/defaults.rs:229-255 | the termination measure: a due entry within q windows of the cursor is found in q calls, each later one within a full round |
| OverdueScan.MissMovesCursor | quicklendx-contracts/src/defaults.rs:249-263 | a call that finds nothing due brings every missed entry closer by the window |
| WrapAround.WrapMeansCoverageIff | quicklendx-contracts/src/defaults.rs:257-262 | over every stored cursor and every set of due entries, a call that stores 0 leaves nothing due iff the limit takes in the whole list |
| WrapAround.CoveredIff | quicklendx-contracts/src/defaults.rs:257-262 | for one call that stores 0: nothing due is left iff it took in the whole list or nothing due stands before its window |
| WrapAround.WrapsIff | quicklendx-contracts/src/defaults.rs:249-262 | a call stores 0 iff the limit takes in the whole list or its window ends with the list |
| WrapAround.WrapsEventuallyIff | quicklendx-contracts/src/defaults.rs:205-208 | with nothing due and any stored cursor, scanning until 0 ends iff the limit takes in the list or the common divisor of limit and length divides the normalized cursor |
| WrapAround.LoopThatNeverEnds | quicklendx-contracts/src/defaults.rs:205-208 | a due entry removed on the way leaves a list on which scanning until 0 goes on for ever |
| OverdueScan.CursorZeroIsNotCoverage | quicklendx-contracts/src/defaults.rs:205-208 | an instance from a fresh cursor: three due entries, limit 1, and the second call stores 0 with one left |
| ScanWitnesses.EveryScanIsReachable | quicklendx-contracts/src/defaults.rs:209-270 | for every number of invoices, cursor and set of overdue ones there is a run from deployment to exactly that scan |
| ScanWitnesses.WrapIsReliableIff | quicklendx-contracts/src/defaults.rs:205-208 | over all reachable states with n Funded invoices, a scan that stores 0 leaves no overdue invoice iff the clamped limit is at least n |
| ScanWitnesses.ScanningMayNeverEnd | quicklendx-contracts/src/defaults.rs:205-208 | from a reachable state no number of scans ever stores 0 |
| ScanWitnesses.FreshCursorMisleads | quicklendx-contracts/src/defaults.rs:205-208 | from a reachable state with a fresh cursor, the second scan stores 0 and an overdue invoice is still Funded |
| ContractCalls.Contract.AcceptBidAndFund | quicklendx-contracts/src/escrow.rs:108-168 | guarded; the exact new state, or the error with everything rolled back |
| ContractCalls.Contract.LoadAcceptBidContext | quicklendx-contracts/src/escrow.rs:42-92 | every refusal of the funding step, in order, with the redundant checks proved never to add one |
| ContractCalls.Contract.RefundEscrowFunds | quicklendx-contracts/src/escrow.rs:177-250 | guarded; the exact new state, the accepted bid found by the loop over the records |
| ContractCalls.Contract.ReleaseEscrowFunds | quicklendx-contracts/src/lib.rs:1682-1709 | guarded; releases a Held escrow of a Funded invoice, or fails and changes nothing |
| ContractCalls.Contract.TransferFunds | quicklendx-contracts/src/payments.rs:242-278 | the balances, allowance and history after a transfer, or the error and nothing changed |
| ContractCalls.Contract.CreateEscrow | quicklendx-contracts/src/payments.rs:115-150 | a second escrow for an invoice is refused as already funded; any refusal leaves ledger and escrows as they were; otherwise funds and record move together |
| ContractCalls.Contract.PayOut | quicklendx-contracts/src/payments.rs:170-227 | release and refund pay a Held escrow once and mark it |
| ContractCalls.Contract.RecordPayment | quicklendx-contracts/src/settlement.rs:128-237 | a replay changes nothing; otherwise exactly one record of what was offered, or of what is still owed if less, and the total rises by it |
| Local.SlidingKeepsTheLast | quicklendx-contracts/src/settlement.rs:551-566 | payments slid in one by one leave the last min(32, n) of them, in order |
| Runs.ProgressNeverFalls | quicklendx-contracts/src/settlement.rs:302-338 | the report is the paid share in whole percent, rounded down, and never falls in any continuation but a refund |
| ContractCalls.Contract.SettleInternal | quicklendx-contracts/src/settlement.rs:402-494 | the settlement of a fully paid invoice, its accounting check proved never to fire |
| ContractCalls.Contract.ProcessPartialPayment | quicklendx-contracts/src/settlement.rs:80-113 | records min(offered, owed) once, settles iff that completes the amount, replays change nothing; rolled back on failure |
| ContractCalls.Contract.SettleInvoice | quicklendx-contracts/src/settlement.rs:249-295 | guarded; the exact outcome of a settlement |
| ContractCalls.Contract.DefaultBody | quicklendx-contracts/src/defaults.rs:277-324 | guard, lists, invoice, insurance claims and investment of a default |
| ContractCalls.Contract.MarkInvoiceDefaulted | quicklendx-contracts/src/defaults.rs:128-153 | succeeds iff Funded and now > due date + grace with an admissible grace, and then defaults; rolled back on failure |
| Outcomes.GraceOnlyMovesTheDeadline | quicklendx-contracts/src/defaults.rs:100-112 | a period given with the call is refused above 30 days, otherwise replaces the configured one altogether; a shorter one gives the same default earlier |
| ContractCalls.Contract.CheckInvoiceExpiration | quicklendx-contracts/src/lib.rs:1770-1780 | defaults a due invoice and nothing else |
| ContractCalls.Contract.CheckAndHandleExpiration | quicklendx-contracts/src/invoice.rs:146-159 | defaults iff Funded and past the deadline, and answers whether the deadline has passed |
| ContractCalls.Contract.ScanFundedInvoiceExpirations | quicklendx-contracts/src/defaults.rs:209-270 | never fails; defaults the due entries of the window, counts the late ones, stores the next cursor |
| ContractCalls.Contract.UploadInvoice | quicklendx-contracts/src/lib.rs:599-649 | a new Pending invoice under a fresh id, or the error |
| ContractCalls.Contract.VerifyInvoice | quicklendx-contracts/src/lib.rs:672-709 | Pending becomes Verified; on a Funded invoice it releases the escrow under the guard |
| ContractCalls.Contract.CancelInvoice | quicklendx-contracts/src/lib.rs:712-739 | cancels before funding only; the list edit made before the check is rolled back |
| ContractCalls.Contract.PlaceBid | quicklendx-contracts/src/lib.rs:1022-1096 | a new bid in both indexes, or the first refusal with the cleanups rolled back |
| ContractCalls.Contract.ValidateBid | quicklendx-contracts/src/verification.rs:677-748 | the refusals of a bid in order, and at most one live bid per investor and invoice |
| ContractCalls.Contract.WithdrawBid | quicklendx-contracts/src/lib.rs:992-1008 | only a Placed bid is withdrawn |
| ContractCalls.Contract.AddInvestmentInsurance | quicklendx-contracts/src/lib.rs:1189-1228 | one more policy on an Active investment, or the error |
| ContractCalls.Contract.Rollback | quicklendx-contracts/src/reentrancy.rs:24-37 | the host's rollback restores every stored field and leaves the lock alone |
| ContractCalls.Contract.GetAllInvoiceIds | quicklendx-contracts/src/storage.rs:525-544 | every stored invoice exactly once |
| InvoiceStore.InvoiceStorage.Update | quicklendx-contracts/src/storage.rs:224-250 | the record and the move between status lists |
| InvoiceStore.InvoiceStorage.RemoveFromStatus | quicklendx-contracts/src/storage.rs:728-736 | the first occurrence is removed, and nothing is written when there is none |
| Bookkeeping.ListedOnce | quicklendx-contracts/src/escrow.rs:131-149 | editing the lists around the update as well changes nothing more on duplicate-free lists |
| Bookkeeping.LogAppend | quicklendx-contracts/src/settlement.rs:198-209 | storing a record under the next index and the next count appends to one log and no other |
| InvestmentStore.InvestmentStorage.Update | quicklendx-contracts/src/investment.rs:372-400 | a forbidden transition aborts; leaving Active leaves the active index |
| InvestmentStore.InvestmentStorage.RemoveFromActiveIndex | quicklendx-contracts/src/investment.rs:420-435 | the rebuilt index is the old one without the entry |
| SettlementStore.SettlementStorage.Append | quicklendx-contracts/src/settlement.rs:198-216 | one log grows by one record, its transaction id is remembered |
| BidBook.CleanupIsExact | quicklendx-contracts/src/bid.rs:492-536 | a cleanup drops exactly the expired and unknown entries, reports their number, alters no terminal bid and leaves no lapsed bid |
| BidBook.CleanupIdempotent | quicklendx-contracts/src/bid.rs:492-536 | at one time a second cleanup changes nothing and reports 0 |
| BidBook.InvestorCleanupIdempotent | quicklendx-contracts/src/bid.rs:383-420 | the investor's cleanup drops by the same rule and is idempotent |
| BidBook.ActiveCountsAreDirect | quicklendx-contracts/src/bid.rs:173-188 | both active counts through the indexes equal a count over the bid table |
| BidBook.RefreshInvoiceOk | quicklendx-contracts/src/bid.rs:492-536 | pruning one index keeps both indexes complete, duplicate-free and within bounds |
| BidBook.PlaceOk | quicklendx-contracts/src/lib.rs:1060-1090 | a bid placed below the cap keeps both indexes and the bound of 50 |
| BidBook.SetStatusOk | quicklendx-contracts/src/bid.rs:743-755 | ending a bid keeps both indexes and the bounds |
| BidBook.BidStorage.RefreshExpiredBids | quicklendx-contracts/src/bid.rs:492-536 | the loop computes the cleanup and its count |
| BidBook.BidStorage.RefreshInvestorBids | quicklendx-contracts/src/bid.rs:383-420 | the loop computes the investor's cleanup and returns how many bids went from Placed to Expired in it |
| BidBook.BidStorage.GetActiveBidCount | quicklendx-contracts/src/bid.rs:173-188 | refreshes, then counts the Placed entries |
| BidBook.BidStorage.CountActivePlacedBidsForInvestor | quicklendx-contracts/src/bid.rs:440-455 | refreshes, then counts the Placed entries; its own expiry check never matters |
| BidBook.BidStorage.GetBidRecordsForInvoice | quicklendx-contracts/src/bid.rs:576-585 | refreshes, then lists the stored records in index order |
| BidRanking.CompareIsTotalOrder | quicklendx-contracts/src/bid.rs:621-641 | a total order in which only bids of one id are equal |
| BidRanking.ComparesFields | quicklendx-contracts/src/bid.rs:621-641 | the order on the fields: higher saturated profit, then higher expected return, then higher amount, then later, then higher id |
| BidRanking.RankingSorts | quicklendx-contracts/src/bid.rs:708-739 | the ranking is a descending permutation |
| BidRanking.DescendingIsUnique | quicklendx-contracts/src/bid.rs:708-739 | with distinct ids there is one descending arrangement only |
| BidRanking.RankingIgnoresOrder | quicklendx-contracts/src/bid.rs:708-739 | the ranking does not depend on the order of the invoice's bid list |
| BidRanking.BestIsHeadOfRanking | quicklendx-contracts/src/bid.rs:698-701 | the fast path picks the head of the ranking, and nothing exactly when the ranking is empty |
| BidRanking.RankedAreTheLiveBids | quicklendx-contracts/src/bid.rs:708-739 | the ranking holds exactly the live Placed bids of the invoice, once each, and no bid stands behind one it outranks on the fields |
| BidRanking.BestIsTheMostProfitable | quicklendx-contracts/src/bid.rs:698-701 | the best bid is live and no live bid of the invoice has a higher profit or wins a tie-break against it; none exactly when there is no live bid |
| BidRanking.RankBids | quicklendx-contracts/src/bid.rs:708-739 | the selection loop over the refreshed records computes the ranking, never rising in profit or a tie-break |
| BidRanking.GetBestBid | quicklendx-contracts/src/bid.rs:698-701 | the single pass over the refreshed records finds a Placed bid that no other outranks on the fields |
| BidRanking.SelectBestPlacedBid | quicklendx-contracts/src/bid.rs:649-671 | the single pass finds the best Placed bid |
| BidRanking.SelectBestIndex | quicklendx-contracts/src/bid.rs:674-691 | the first position no other bid beats |
| SettlementSplit.SplitConserves | quicklendx-contracts/src/settlement.rs:447-452 | return plus fee is the payment, the fee never eats into principal, for all non-negative amounts, saturation included |
| SettlementSplit.FeeIsTheShareOfProfit | quicklendx-contracts/src/fees.rs:300-316 | the fee is the configured rate of the profit, or 2 percent where none is configured, rounded down, the saturated value where the product does not fit; the rest is the investor's |
| SettlementSplit.CalculatorsTakeTheShare | quicklendx-contracts/src/profits.rs:239-275 | both calculators take that share at every rate, the stand-alone one limiting the rate to 0 to 100 percent |
| SettlementSplit.CalculatorsAgree | quicklendx-contracts/src/profits.rs:239-275 | both calculators agree for every admissible rate |
| SettlementSplit.PayingMoreHurtsNobody | quicklendx-contracts/src/fees.rs:300-316 | a larger payment lowers neither the return nor the fee |
| SettlementSplit.BreakdownAddsUp | quicklendx-contracts/src/profits.rs:318-341 | the parts of the breakdown add up to the payment |
| SettlementSplit.TreasurySplitConserves | quicklendx-contracts/src/profits.rs:449-467 | treasury and remainder add up to the fee, the treasury getting its share of it rounded down |
| Insurance.PremiumBounds | quicklendx-contracts/src/investment.rs:104-137 | a premium is 0 exactly when nothing would be covered, and otherwise between 1 and the cover |
| Insurance.PremiumIsTwoPercent | quicklendx-contracts/src/investment.rs:104-137 | the cover is the percentage of the principal rounded down, the premium 2 percent of the cover rounded down but at least 1 |
| Insurance.AcceptedIff | quicklendx-contracts/src/investment.rs:167-239 | exactly when a policy with the computed premium is accepted |
| Insurance.ActiveCoverBounded | quicklendx-contracts/src/investment.rs:167-239 | active cover totals at most the principal, though each cover is floored on its own |
| Insurance.ClaimAllIsRepeatedClaim | quicklendx-contracts/src/investment.rs:261-298 | claiming all equals repeating the single claim until none is left, each active policy paid once |
| Insurance.InsuredInvestment.AddInsurance | quicklendx-contracts/src/investment.rs:167-239 | the policy list and the answer, or the refusal, with saturating sums |
| Insurance.InsuredInvestment.TotalActivePercentage | quicklendx-contracts/src/investment.rs:247-255 | the saturating sum of the active percentages |
| Insurance.InsuredInvestment.ProcessInsuranceClaim | quicklendx-contracts/src/investment.rs:261-275 | the first active policy is deactivated and paid, or nothing happens |
| Insurance.InsuredInvestment.ProcessAllInsuranceClaims | quicklendx-contracts/src/investment.rs:283-298 | every active policy is deactivated and listed, in order |
| Revenue.EveryInterleavingBalances | quicklendx-contracts/src/fees.rs:682-727 | below overflow, collected = distributed + pending = sum by type after every interleaving |
| Revenue.PayoutIsExact | quicklendx-contracts/src/fees.rs:834-916 | a distribution pays exactly what is pending: treasury and developer each their own share rounded down, the platform the rest, at most 2 units over its floor; the late guards never fire |
| Revenue.MapAcceptedIff | quicklendx-contracts/src/fees.rs:657-680 | a fee map is accepted iff it has no negative entry and adds up |
| Revenue.BalancesIff | quicklendx-contracts/src/fees.rs:701-722 | for every interleaving, saturation included: exactly when collected equals distributed plus pending, exactly when it equals the sum by type, and all are the true total iff that fits |
| Revenue.TotalsSaturate | quicklendx-contracts/src/fees.rs:701-722 | each stored total is the true one cut off at the largest i128, whatever the interleaving |
| Revenue.SaturationBreaksTheBalance | quicklendx-contracts/src/fees.rs:701-705 | a run past the bound, with amounts distributed and pending, whose totals disagree |
| Revenue.TierNeverDrops | quicklendx-contracts/src/fees.rs:633-654 | a collection never lowers a user's tier |
| Revenue.RevenueStorage.CollectFees | quicklendx-contracts/src/fees.rs:682-727 | the period's record, merged by type, and the user's volume |
| Revenue.RevenueStorage.ValidateFeeCollectionMap | quicklendx-contracts/src/fees.rs:657-680 | the first refusal in key order, or acceptance |
| Revenue.VolumeIsTheSum | quicklendx-contracts/src/fees.rs:633-654 | after any collections the volume is their sum, and the tier is Silver, Gold and Platinum from 100, 500 and 1000 billion of the true sum, whatever the order, sizes or saturation |
| Revenue.RevenueStorage.DistributeRevenue | quicklendx-contracts/src/fees.rs:834-916 | exactly when a distribution succeeds, and what it pays |
| TransactionFees.FeesAreMonotone | quicklendx-contracts/src/fees.rs:541-613 | the total never falls with the amount and never rises with a better tier, through clamp, discounts and surcharge |
| TransactionFees.FeeStepByStep | quicklendx-contracts/src/fees.rs:541-613 | what one structure charges: its rate within its limits, less 0, 5, 10 or 15 percent by tier (none on late fees), less 10 percent on early platform fees, plus 20 percent on late fees, each step rounded down |
| TransactionFees.TotalIsSum | quicklendx-contracts/src/fees.rs:584 | the total is the sum of the fees, cut off at the largest i128 |
| TransactionFees.FeesIgnoreOrder | quicklendx-contracts/src/fees.rs:541-591 | the total does not depend on the order of the structures, saturation included |
| TransactionFees.CalculateTotalFees | quicklendx-contracts/src/fees.rs:541-591 | the accumulator loop computes the total, or the error |
| Calendar.DateIsExact | quicklendx-contracts/src/freshness.rs:152-195 | the date always exists (section 5.7 and Appendix C of RFC 3339), and its seconds are the timestamp iff it is below 2^32 days |
| Calendar.SecondsCompareDates | quicklendx-contracts/src/freshness.rs:152-195 | valid dates compare as their seconds, so a timestamp has one date only |
| Calendar.YearsInClosedForm | quicklendx-contracts/src/freshness.rs:162-172 | days before a year are 365 a year and one per leap year |
| Calendar.TextsOrderAsTimestamps | quicklendx-contracts/src/freshness.rs:128-149 | up to the end of the year 9999 texts order as strings exactly as timestamps (section 5.1 of RFC 3339) |
| Calendar.OrderBreaksAtYear10000 | quicklendx-contracts/src/freshness.rs:203-208 | the bound is sharp |
| Calendar.UnixToParts | quicklendx-contracts/src/freshness.rs:152-195 | the loops compute the date |
| Calendar.UnixToIso8601 | quicklendx-contracts/src/freshness.rs:128-149 | the 20 bytes of section 5.6 of RFC 3339 |
| Calendar.TextShowsParts | quicklendx-contracts/src/freshness.rs:128-149 | read in decimal, the text shows each part of the date where section 5.6 of RFC 3339 puts it, with its separators |
| Calendar.WriteU32Padded | quicklendx-contracts/src/freshness.rs:203-208 | exactly the slice is overwritten, with the padded digits |
| Cursor.CursorRoundTrip | quicklendx-contracts/src/freshness.rs:96-121 | reading a built cursor returns the pair, for all pairs |
| Cursor.CursorsAreUnique | quicklendx-contracts/src/freshness.rs:211-219 | different pairs have different cursors |
| Cursor.BuiltIffPlain | quicklendx-contracts/src/freshness.rs:108-121 | of the texts that can be read, the built ones are exactly those without plus signs and unneeded leading zeros |
| Cursor.NotOnlyBuiltCursorsParse | quicklendx-contracts/src/freshness.rs:108-121 | one text that is read but never built |
| Cursor.U32ToAscii | quicklendx-contracts/src/freshness.rs:222-239 | the extracted and reversed digits are the number's, within ten bytes |
| Cursor.WriteCursorBytes | quicklendx-contracts/src/freshness.rs:211-219 | every write is inside the buffer and the text is the cursor |
| Cursor.ParseCursorText | quicklendx-contracts/src/freshness.rs:108-121 | the split and the two number parsers compute the reading |
| Audit.AnyIndexWillDo | quicklendx-contracts/src/audit.rs:228-268 | whichever index a query starts from, it finds the matching entries of the global log in log order |
| Audit.AuditStorage.QueryAuditLogs | quicklendx-contracts/src/audit.rs:228-268 | exactly the first min(limit, 100) matching entries of the log |
| Audit.AuditStorage.LogOperation | quicklendx-contracts/src/audit.rs:172-190 | the log grows by one entry and every index stays exact |
| Audit.EveryHistoryIsIndexed | quicklendx-contracts/src/audit.rs:172-190 | after every history each entry is found under its id and each index lists exactly the entries under its key, in log order |
| Audit.QueriesReadTheLog | quicklendx-contracts/src/audit.rs:228-268 | after every history, for every filter and limit, the answer is the first min(limit, 100) matching entries of the log |
| Audit.MatchesOnFields | quicklendx-contracts/src/audit.rs:378-413 | what matches, on the fields: invoice, operation, actor, and a closed interval of time, in log order |
| Audit.DayIndex | quicklendx-contracts/src/audit.rs:172-190 | the day index holds exactly the entries of one day |
| Audit.AnswersOnlyGrow | quicklendx-contracts/src/audit.rs:172-268 | whatever is logged later, a query repeats its earlier answer in the same places, and exactly once the limit is reached |
| Backups.BubbleSort | quicklendx-contracts/src/backup.rs:361-372 | in place, the stable sort by age |
| Backups.OldestFirstSorts | quicklendx-contracts/src/backup.rs:361-372 | sorted, the same entries, equal timestamps in list order |
| Backups.StableSortIsUnique | quicklendx-contracts/src/backup.rs:361-372 | a list has one stable sort only |
| Backups.KeepsTheNewest | quicklendx-contracts/src/backup.rs:373-402 | of the Active backups not over age exactly min(maximum, their number) are kept, all if there is no maximum; every dropped one is older than every kept one, or as old and earlier in the list |
| Backups.OthersUntouched | quicklendx-contracts/src/backup.rs:340-402 | backups that are not Active keep record, payload and list entry |
| Backups.BackupStorage.CleanupOldBackups | quicklendx-contracts/src/backup.rs:340-402 | exactly the Active backups not retained lose record, payload and list entry, and their number is returned |
| Backups.BackupStorage.PurgeBackup | quicklendx-contracts/src/backup.rs:191-220 | the record, the payload and every list entry of one backup |
| Backups.BackupStorage.CreateBackup | quicklendx-contracts/src/lib.rs:2406-2423 | a new Active backup under the next id with its payload, listed, then a cleanup whose count is ignored |
| Backups.BackupStorage.ArchiveBackup | quicklendx-contracts/src/lib.rs:2444-2457 | an archived backup keeps record and payload and leaves the list; an unknown one is refused |
| BackupRuns.EveryRunKeeps | quicklendx-contracts/src/backup.rs:161-220 | after every sequence of creations, archivings, cleanups, policies and time: the list holds exactly the Active backups once each in order of creation, records and payloads match, and a new backup is never refused |
| BackupRuns.BackupsOnlyAge | quicklendx-contracts/src/backup.rs:331-402 | over every continuation a removed backup stays gone, an archived one stays with its payload, and no timestamp or payload ever changes |
| BackupRuns.CleanupDropsTheFront | quicklendx-contracts/src/backup.rs:340-402 | in every run a cleanup drops a front part of the list, the rest is within the maximum and not over age, and nothing is dropped without one of the two reasons |

## Left out

* The bytes of identifiers: they are modelled by the counters behind them, without the saturation of a `u64` counter, and the retry loop of `allocate_id` never runs again.
* Events, notifications, serialization, storage lifetimes and gas.
* `require_auth`: an action stands for an authorized call.
* KYC, investor eligibility, whitelist, category, tag and length checks: parameters of the actions that use them.
* `TokenTransferFailed` and `i128` overflow inside a token contract: token balances are unbounded.
* The pause switch: most entry points ignore the answer of `require_not_paused`.
* The business, customer, tax-id and investor indexes, metadata, tags, ratings and disputes of an invoice or investment.
* `accept_bid` (an older duplicate of the funding step), `update_invoice_status`, `clear_all_invoices` and the direct admin default: they change state outside the protocol.
* Emergency withdrawal and vesting, which take tokens out of the contract independently of escrows.
* How the fee configuration is initialized, rotated and shared with `profits.rs`: a run may replace it by any configuration within the cap.
* Restoring a backup, and the validation of backup metadata.
* Audit statistics and integrity checks.
* Configuring fee structures and revenue shares: any valid structures and any shares are considered.
* The root crate's formulas, the backends and the frontend.
