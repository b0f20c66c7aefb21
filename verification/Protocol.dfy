/**
  The funding protocol as a transition system: what the contract stores, and what each entry
  point does to it. An entry point that fails leaves the state as it was, so each is a
  function from a state to either the new state or the error.
 */
module Protocol {
  import opened Base
  import opened Lists
  import opened Token
  import opened BidBook
  import opened SettlementSplit
  import opened Insurance
  import OverdueScan

  const MAX_PAYMENT_COUNT := 1_000
  const MAX_INLINE_HISTORY := 32
  const MAX_GRACE_PERIOD := 30 * 24 * 60 * 60
  const SETTLEMENT_NONCE := "settlement"

  datatype InvoiceStatus = Pending | Verified | Funded | Paid | Defaulted | Cancelled | Refunded

  datatype InvestmentStatus = Active | Withdrawn | Completed | Defaulted | Refunded

  datatype EscrowStatus = Held | Released | Refunded

  /** `validate_transition`: an Active investment may end in any way, and an ended one stays as it is. */
  predicate AllowedTransition(before: InvestmentStatus, after: InvestmentStatus) {
    before == Active && after != Active
  }

  /** A durable payment record. */
  datatype Payment = Payment(payer: Address, amount: int, timestamp: nat, nonce: string)

  /** An entry of the short history kept inside the invoice. */
  datatype HistoryEntry = HistoryEntry(amount: int, timestamp: nat, transactionId: string)

  datatype Invoice = Invoice(
    business: Address, amount: int, currency: Address, dueDate: nat, status: InvoiceStatus,
    fundedAmount: int, fundedAt: Option<nat>, investor: Option<Address>, settledAt: Option<nat>,
    totalPaid: int, history: seq<HistoryEntry>)

  datatype Escrow = Escrow(
    invoice: InvoiceId, investor: Address, business: Address, amount: int, currency: Address,
    createdAt: nat, status: EscrowStatus)

  datatype Investment = Investment(
    invoice: InvoiceId, investor: Address, amount: int, fundedAt: nat, status: InvestmentStatus,
    insurance: seq<Coverage>)

  /** One list of invoice ids per status. */
  type StatusLists = map<InvoiceStatus, seq<InvoiceId>>

  datatype State = State(
    now: nat,
    admin: Address,
    invoices: map<InvoiceId, Invoice>,
    invoiceCount: nat,
    lists: StatusLists,
    book: Book,
    escrows: map<EscrowId, Escrow>,
    escrowOf: map<InvoiceId, EscrowId>,
    escrowCount: nat,
    investments: map<InvestmentId, Investment>,
    investmentOf: map<InvoiceId, InvestmentId>,
    investmentCount: nat,
    active: seq<InvestmentId>,
    payments: map<InvoiceId, seq<Payment>>,
    nonces: set<(InvoiceId, string)>,
    finalized: set<InvoiceId>,
    guards: set<InvoiceId>,
    cursor: nat,
    fee: Option<FeeConfig>,
    ledger: Ledger)

  /** The contract as deployed, over whatever balances and allowances the token holders have. */
  function Init(now: nat, admin: Address, balances: Holdings, allowances: Holdings): State {
    State(now, admin, map[], 0, map[], Book(map[], map[], map[], 0), map[], map[], 0, map[], map[], 0, [],
          map[], {}, {}, {}, 0, None, Ledger(balances, allowances, []))
  }

  function ListOf(lists: StatusLists, status: InvoiceStatus): seq<InvoiceId> {
    if status in lists then lists[status] else []
  }

  function PaymentsOf(s: State, id: InvoiceId): seq<Payment> {
    if id in s.payments then s.payments[id] else []
  }

  /** Move an invoice from one status list to the end of another. */
  function Relist(lists: StatusLists, id: InvoiceId, before: InvoiceStatus, after: InvoiceStatus)
    : StatusLists
  {
    if before == after then lists
    else
      var lists1 := lists[before := RemoveFirst(ListOf(lists, before), id)];
      lists1[after := AddUnique(ListOf(lists1, after), id)]
  }

  /** Store a changed invoice and move it to the list of its new status. */
  function WithInvoice(s: State, id: InvoiceId, invoice: Invoice): State
    requires id in s.invoices
  {
    s.(invoices := s.invoices[id := invoice],
       lists := Relist(s.lists, id, s.invoices[id].status, invoice.status))
  }

  /** Close the investment of an invoice, which takes it out of the active index. */
  function CloseInvestment(s: State, id: InvoiceId, status: InvestmentStatus, insurance: seq<Coverage>): State
    requires id in s.investmentOf && s.investmentOf[id] in s.investments
  {
    var v := s.investmentOf[id];
    s.(investments := s.investments[v := s.investments[v].(status := status, insurance := insurance)],
       active := RemoveFirst(s.active, v))
  }

  predicate HasEscrow(s: State, id: InvoiceId) { id in s.escrowOf && s.escrowOf[id] in s.escrows }

  predicate HasInvestment(s: State, id: InvoiceId) { id in s.investmentOf && s.investmentOf[id] in s.investments }

  function EscrowFor(s: State, id: InvoiceId): Escrow
    requires HasEscrow(s, id)
  {
    s.escrows[s.escrowOf[id]]
  }

  function InvestmentFor(s: State, id: InvoiceId): Investment
    requires HasInvestment(s, id)
  {
    s.investments[s.investmentOf[id]]
  }

  /* ---- the status changes of an invoice ---- */

  function MarkFunded(invoice: Invoice, investor: Address, amount: int, now: nat): Invoice {
    invoice.(status := Funded, fundedAmount := amount, fundedAt := Some(now), investor := Some(investor))
  }

  function MarkPaid(invoice: Invoice, now: nat): Invoice {
    invoice.(status := Paid, totalPaid := invoice.amount, settledAt := Some(now))
  }

  function MarkRefunded(invoice: Invoice): Invoice {
    invoice.(status := InvoiceStatus.Refunded, fundedAmount := 0, fundedAt := None, investor := None, totalPaid := 0, history := [])
  }

  /* ---- invoices before funding ---- */

  function NewInvoice(business: Address, amount: int, currency: Address, dueDate: nat): Invoice {
    Invoice(business, amount, currency, dueDate, Pending, 0, None, None, None, 0, [])
  }

  /** `upload_invoice`; `kyc` and `gate` are the outcomes of the checks before and after the validation of the terms. */
  function CreateInvoice(s: State, business: Address, amount: int, currency: Address, dueDate: nat, kyc: Option<Error>,
                         gate: Option<Error>): Result<State> {
    if kyc.Some? then Err(kyc.value)
    else if amount <= 0 then Err(InvalidAmount)
    else if dueDate <= s.now then Err(InvoiceDueDateInvalid)
    else if gate.Some? then Err(gate.value)
    else
      var id := s.invoiceCount + 1;
      Ok(s.(invoiceCount := id,
            invoices := s.invoices[id := NewInvoice(business, amount, currency, dueDate)],
            lists := s.lists[Pending := AddUnique(ListOf(s.lists, Pending), id)]))
  }

  function VerifyInvoice(s: State, id: InvoiceId): Result<State> {
    if id !in s.invoices then Err(InvoiceNotFound)
    else if s.invoices[id].status == Funded then ReleaseEscrowFunds(s, id)
    else if s.invoices[id].status != Pending then Err(InvalidStatus)
    else Ok(WithInvoice(s, id, s.invoices[id].(status := Verified)))
  }

  function CancelInvoice(s: State, id: InvoiceId, kyc: Option<Error>): Result<State> {
    if id !in s.invoices then Err(InvoiceNotFound)
    else if kyc.Some? then Err(kyc.value)
    else if s.invoices[id].status != Pending && s.invoices[id].status != Verified then Err(InvalidStatus)
    else Ok(WithInvoice(s, id, s.invoices[id].(status := InvoiceStatus.Cancelled)))
  }

  /* ---- bids ---- */

  /** The configuration a bid is placed under, and the outcomes of the investor checks that are not modelled. */
  datatype BidTerms = BidTerms(
    gate: Option<Error>, eligible: Option<Error>, minAmount: int, minBps: nat, maxActive: nat, ttlDays: nat)

  function MinimumBid(invoice: Invoice, terms: BidTerms): int {
    Max(SatMul(invoice.amount, terms.minBps) / 10_000, terms.minAmount)
  }

  /** The checks of `validate_bid` that come before its own cleanup. */
  function BidRefusal(now: nat, invoice: Invoice, investor: Address, amount: int, expectedReturn: int,
                      terms: BidTerms): Option<Error> {
    if now >= invoice.dueDate then Some(InvalidStatus)
    else if invoice.business == investor then Some(Unauthorized)
    else if amount < MinimumBid(invoice, terms) then Some(InvalidAmount)
    else if amount > invoice.amount then Some(InvoiceAmountInvalid)
    else if expectedReturn <= amount then Some(InvalidAmount)
    else terms.eligible
  }

  function PlaceBid(s: State, investor: Address, id: InvoiceId, amount: int, expectedReturn: int,
                    terms: BidTerms): Result<State> {
    if amount <= 0 then Err(InvalidAmount)
    else if id !in s.invoices then Err(InvoiceNotFound)
    else if s.invoices[id].status != Verified then Err(InvalidStatus)
    else if terms.gate.Some? then Err(terms.gate.value)
    else
      var b1 := RefreshInvoice(s.book, s.now, id);
      var b2 := if terms.maxActive > 0 then RefreshInvestor(b1, s.now, investor) else b1;
      if |PlacedOn(b1, id)| >= MAX_BIDS_PER_INVOICE then Err(MaxBidsPerInvoiceExceeded)
      else if terms.maxActive > 0 && |PlacedBy(b2, investor)| >= terms.maxActive then Err(OperationNotAllowed)
      else
        var refusal := BidRefusal(s.now, s.invoices[id], investor, amount, expectedReturn, terms);
        if refusal.Some? then Err(refusal.value)
        else
          var b3 := RefreshInvoice(b2, s.now, id);
          if exists k :: k in PlacedOn(b3, id) && b3.bids[k].investor == investor then Err(OperationNotAllowed)
          else Ok(s.(book := Place(b3, id, investor, amount, expectedReturn, s.now,
                                   SatAdd64(s.now, Min(terms.ttlDays * SECONDS_PER_DAY, U64_MAX)))))
  }

  function WithdrawBid(s: State, k: BidId, kyc: Option<Error>): Result<State> {
    if k !in s.book.bids then Err(StorageKeyNotFound)
    else if kyc.Some? then Err(kyc.value)
    else if s.book.bids[k].status != Placed then Err(OperationNotAllowed)
    else Ok(s.(book := SetStatus(s.book, k, BidStatus.Withdrawn)))
  }

  /** `cancel_bid` answers false instead of failing. */
  function CancelBid(s: State, k: BidId): State {
    if k in s.book.bids && s.book.bids[k].status == Placed then s.(book := SetStatus(s.book, k, BidStatus.Cancelled)) else s
  }

  /* ---- funding and escrow ---- */

  /** The state once bid `k` has funded its invoice, `ledger` being the token ledger after the investor's transfer. */
  function FundedState(s: State, id: InvoiceId, k: BidId, ledger: Ledger): State
    requires id in s.invoices && k in s.book.bids
  {
    var bid, invoice := s.book.bids[k], s.invoices[id];
    var e, v := s.escrowCount + 1, s.investmentCount + 1;
    var s1 := WithInvoice(s, id, MarkFunded(invoice, bid.investor, bid.amount, s.now));
    s1.(book := SetStatus(s.book, k, Accepted),
        ledger := ledger,
        escrowCount := e,
        escrows := s.escrows[e := Escrow(id, bid.investor, invoice.business, bid.amount, invoice.currency, s.now, Held)],
        escrowOf := s.escrowOf[id := e],
        investmentCount := v,
        investments := s.investments[v := Investment(id, bid.investor, bid.amount, s.now, Active, [])],
        investmentOf := s.investmentOf[id := v],
        active := AddUnique(s.active, v))
  }

  function AcceptBidAndFund(s: State, id: InvoiceId, k: BidId, kyc: Option<Error>): Result<State> {
    var book := RefreshInvoice(s.book, s.now, id);
    if id !in s.invoices then Err(InvoiceNotFound)
    else if kyc.Some? then Err(kyc.value)
    else if s.invoices[id].status == Funded then Err(InvoiceAlreadyFunded)
    else if s.invoices[id].status != Verified then Err(InvoiceNotAvailableForFunding)
    else if k !in book.bids then Err(StorageKeyNotFound)
    else if book.bids[k].invoice != id then Err(Unauthorized)
    else if book.bids[k].status != Placed then Err(InvalidStatus)
    else
      var bid, invoice := book.bids[k], s.invoices[id];
      var ledger :- Transfer(s.ledger, Some(id), invoice.currency, bid.investor, SELF, bid.amount);
      Ok(FundedState(s.(book := book), id, k, ledger))
  }

  /** Pay a held escrow out of the contract and mark it `after`: to the business, or back to the investor. */
  function PayOutEscrow(s: State, id: InvoiceId, after: EscrowStatus): Result<State> {
    if !HasEscrow(s, id) then Err(StorageKeyNotFound)
    else
      var escrow := EscrowFor(s, id);
      if escrow.status != Held then Err(InvalidStatus)
      else
        var ledger :- Transfer(s.ledger, Some(id), escrow.currency, SELF,
                               if after == Released then escrow.business else escrow.investor, escrow.amount);
        Ok(s.(ledger := ledger, escrows := s.escrows[s.escrowOf[id] := escrow.(status := after)]))
  }

  function ReleaseEscrowFunds(s: State, id: InvoiceId): Result<State> {
    if id !in s.invoices then Err(InvoiceNotFound)
    else if s.invoices[id].status != Funded then Err(InvalidStatus)
    else PayOutEscrow(s, id, Released)
  }

  /** Cancel the accepted bids of an invoice. */
  function CancelAccepted(book: Book, id: InvoiceId): Book {
    book.(bids := map k | k in book.bids ::
      if book.bids[k].invoice == id && book.bids[k].status == Accepted then book.bids[k].(status := BidStatus.Cancelled)
      else book.bids[k])
  }

  /** The state once a refunded invoice, its accepted bid and its investment are closed. */
  function RefundedState(s: State, id: InvoiceId): State
    requires id in s.invoices && HasInvestment(s, id)
  {
    var s1 := WithInvoice(s, id, MarkRefunded(s.invoices[id]));
    CloseInvestment(s1.(book := CancelAccepted(s.book, id)), id, InvestmentStatus.Refunded, InvestmentFor(s, id).insurance)
  }

  function RefundEscrowFunds(s: State, id: InvoiceId, caller: Address): Result<State> {
    if id !in s.invoices then Err(InvoiceNotFound)
    else if caller != s.admin && caller != s.invoices[id].business then Err(Unauthorized)
    else if s.invoices[id].status != Funded then Err(InvalidStatus)
    else
      var s1 :- PayOutEscrow(s, id, EscrowStatus.Refunded);
      if !HasInvestment(s, id) then Err(StorageKeyNotFound)
      else
        Ok(RefundedState(s1.(book := RefreshInvoice(s.book, s.now, id)), id))
  }

  /* ---- insurance ---- */

  function AddInvestmentInsurance(s: State, v: InvestmentId, provider: Address, percentage: nat): Result<State> {
    if v !in s.investments then Err(StorageKeyNotFound)
    else if s.investments[v].status != Active then Err(InvalidStatus)
    else
      var investment := s.investments[v];
      var premium := CalculatePremium(investment.amount, percentage);
      if premium <= 0 then Err(InvalidAmount)
      else
        var policies :- WithPolicy(investment.insurance, investment.amount, provider, percentage, premium);
        Ok(s.(investments := s.investments[v := investment.(insurance := policies)]))
  }

  /* ---- payments and settlement ---- */

  function ToHistory(p: Payment): HistoryEntry { HistoryEntry(p.amount, p.timestamp, p.nonce) }

  /** Append to the inline history, dropping its oldest entry once it is full. */
  function SlideHistory(history: seq<HistoryEntry>, entry: HistoryEntry): seq<HistoryEntry> {
    (if |history| >= MAX_INLINE_HISTORY then history[1..] else history) + [entry]
  }

  /** The percentage `get_invoice_progress` reports; it fails where scaling by 100 would overflow. */
  function ProgressPercent(invoice: Invoice): Result<int> {
    if invoice.amount <= 0 then Ok(0)
    else if invoice.totalPaid * 100 > I128_MAX then Err(InvalidAmount)
    else Ok(Max(0, Min(100, invoice.totalPaid * 100 / invoice.amount)))
  }

  /** The record a payment leaves: never more than is still owed, made by the business, at the ledger's time. */
  function NextPayment(s: State, id: InvoiceId, amount: int, nonce: string): Payment
    requires id in s.invoices
  {
    var invoice := s.invoices[id];
    Payment(invoice.business, Min(amount, invoice.amount - invoice.totalPaid), s.now, nonce)
  }

  function Credited(invoice: Invoice, payment: Payment): Invoice {
    invoice.(totalPaid := invoice.totalPaid + payment.amount, history := SlideHistory(invoice.history, ToHistory(payment)))
  }

  /** The state once a payment is recorded: the durable record, its nonce, and the invoice's own totals. */
  function RecordedState(s: State, id: InvoiceId, payment: Payment): State
    requires id in s.invoices
  {
    s.(payments := s.payments[id := PaymentsOf(s, id) + [payment]],
       nonces := if payment.nonce != "" then s.nonces + {(id, payment.nonce)} else s.nonces,
       invoices := s.invoices[id := Credited(s.invoices[id], payment)])
  }

  /** `record_payment`, the payer being the invoice's business. */
  function RecordPayment(s: State, id: InvoiceId, amount: int, nonce: string): Result<State> {
    if amount <= 0 then Err(InvalidAmount)
    else if id !in s.invoices then Err(InvoiceNotFound)
    else if s.invoices[id].status != Funded then Err(InvalidStatus)
    else if nonce != "" && (id, nonce) in s.nonces then Ok(s)
    else if |PaymentsOf(s, id)| >= MAX_PAYMENT_COUNT then Err(OperationNotAllowed)
    else
      var payment := NextPayment(s, id, amount, nonce);
      var _ :- ProgressPercent(Credited(s.invoices[id], payment));
      Ok(RecordedState(s, id, payment))
  }

  /** Where the platform fee is sent. */
  function FeeRecipient(fee: Option<FeeConfig>): Address {
    if fee.Some? && fee.value.treasury.Some? then fee.value.treasury.value else SELF
  }

  /** The transfers of a settlement: the business pays the investor, and the fee if there is one. */
  function PaySplit(l: Ledger, id: InvoiceId, c: Address, business: Address, investor: Address, split: Split,
                    recipient: Address): Result<Ledger> {
    var l1 :- Transfer(l, Some(id), c, business, investor, split.investorReturn);
    if split.platformFee > 0 then Transfer(l1, Some(id), c, business, recipient, split.platformFee) else Ok(l1)
  }

  /** The state once a settled invoice and its investment are closed. */
  function PaidState(s: State, id: InvoiceId): State
    requires id in s.invoices && HasInvestment(s, id)
  {
    var invoice := s.invoices[id];
    var s1 := WithInvoice(s, id, MarkPaid(invoice, s.now));
    CloseInvestment(s1.(finalized := s.finalized + {id}), id, Completed, InvestmentFor(s, id).insurance)
  }

  /** `settle_invoice_internal`: release what is still held, pay the investor and the platform, close everything. */
  function Finalize(s: State, id: InvoiceId): Result<State> {
    if id !in s.invoices then Err(InvoiceNotFound)
    else if s.invoices[id].status != Funded then Err(InvalidStatus)
    else if !HasInvestment(s, id) then Err(StorageKeyNotFound)
    else
      var invoice, investment := s.invoices[id], InvestmentFor(s, id);
      if invoice.totalPaid < invoice.amount then Err(PaymentTooLow)
      else
        var s1 :- if HasEscrow(s, id) && EscrowFor(s, id).status == Held then PayOutEscrow(s, id, Released) else Ok(s);
        var ledger :- PaySplit(s1.ledger, id, invoice.currency, invoice.business, investment.investor,
                               SplitFor(s.fee, investment.amount, invoice.totalPaid), FeeRecipient(s.fee));
        Ok(PaidState(s1.(ledger := ledger), id))
  }

  function ProcessPartialPayment(s: State, id: InvoiceId, amount: int, transactionId: string): Result<State> {
    if id !in s.invoices then Err(InvoiceNotFound)
    else
      var s1 :- RecordPayment(s, id, amount, transactionId);
      if id in s1.invoices && s1.invoices[id].totalPaid >= s1.invoices[id].amount then Finalize(s1, id) else Ok(s1)
  }

  function SettleInvoice(s: State, id: InvoiceId, amount: int): Result<State> {
    if amount <= 0 then Err(InvalidAmount)
    else if id in s.finalized then Err(InvalidStatus)
    else if id !in s.invoices then Err(InvoiceNotFound)
    else if s.invoices[id].status != Funded then Err(InvalidStatus)
    else if amount > s.invoices[id].amount - s.invoices[id].totalPaid then Err(InvalidAmount)
    else if !HasInvestment(s, id) then Err(StorageKeyNotFound)
    else if s.invoices[id].totalPaid + amount < s.invoices[id].amount then Err(PaymentTooLow)
    else
      var s1 :- RecordPayment(s, id, amount, SETTLEMENT_NONCE);
      Finalize(s1, id)
  }

  /* ---- defaults ---- */

  function GraceDeadline(invoice: Invoice, grace: nat): nat { SatAdd64(invoice.dueDate, grace) }

  /** A per-call grace period is bounded; without one, the configured period applies. */
  function ResolveGrace(grace: Option<u64>, configured: u64): Result<u64> {
    match grace
    case Some(g) => if g > MAX_GRACE_PERIOD then Err(InvalidTimestamp) else Ok(g)
    case None => Ok(configured)
  }

  /** `handle_default`, reached only after the deadline check. */
  function HandleDefault(s: State, id: InvoiceId): Result<State> {
    if id in s.guards then Err(DuplicateDefaultTransition)
    else if id !in s.invoices then Err(InvoiceNotFound)
    else if s.invoices[id].status != Funded then Err(InvalidStatus)
    else if !HasInvestment(s, id) then Err(StorageKeyNotFound)
    else
      var s1 := WithInvoice(s, id, s.invoices[id].(status := InvoiceStatus.Defaulted));
      Ok(CloseInvestment(s1.(guards := s.guards + {id}), id, InvestmentStatus.Defaulted,
                         Deactivate(InvestmentFor(s, id).insurance)))
  }

  function MarkInvoiceDefaulted(s: State, id: InvoiceId, grace: Option<u64>, configured: u64): Result<State> {
    if id !in s.invoices then Err(InvoiceNotFound)
    else if s.invoices[id].status == InvoiceStatus.Defaulted then Err(InvoiceAlreadyDefaulted)
    else if s.invoices[id].status != Funded then Err(InvoiceNotAvailableForFunding)
    else
      var g :- ResolveGrace(grace, configured);
      if s.now <= GraceDeadline(s.invoices[id], g) then Err(OperationNotAllowed)
      else HandleDefault(s, id)
  }

  /** Whether an invoice is past its deadline and still Funded. */
  predicate Due(s: State, id: InvoiceId, grace: nat) {
    id in s.invoices && s.invoices[id].status == Funded && s.now > GraceDeadline(s.invoices[id], grace)
  }

  function CheckInvoiceExpiration(s: State, id: InvoiceId, grace: Option<u64>, configured: u64): Result<State> {
    if id !in s.invoices then Err(InvoiceNotFound)
    else
      var g :- ResolveGrace(grace, configured);
      if Due(s, id, g) then HandleDefault(s, id) else Ok(s)
  }

  /** Default every due invoice of a list, in order. */
  function DefaultEach(s: State, ids: seq<InvoiceId>, grace: nat): Result<State>
    decreases |ids|
  {
    if |ids| == 0 then Ok(s)
    else
      var s1 :- DefaultEach(s, ids[..|ids| - 1], grace);
      if Due(s1, ids[|ids| - 1], grace) then HandleDefault(s1, ids[|ids| - 1]) else Ok(s1)
  }

  function ScanView(s: State): OverdueScan.ScanState {
    OverdueScan.ScanState(ListOf(s.lists, Funded), s.cursor)
  }

  /** `scan_funded_invoice_expirations`. */
  function ScanFunded(s: State, grace: nat, limit: Option<u32>): Result<State> {
    var k := OverdueScan.ResolveLimit(limit);
    var s1 :- DefaultEach(s, OverdueScan.Visited(ScanView(s), k), grace);
    Ok(s1.(cursor := OverdueScan.NextCursor(ScanView(s), k)))
  }

  /* ---- configuration ---- */

  function SetFee(s: State, config: FeeConfig): Result<State> {
    if config.bps > MAX_PLATFORM_FEE_BPS then Err(InvalidFeeBasisPoints) else Ok(s.(fee := Some(config)))
  }

  /* ---- steps and runs ---- */

  /** The authorized calls, the holders' own token operations, and the passing of time. */
  datatype Action =
    | Tick(seconds: nat)
    | Create(business: Address, amount: i128, currency: Address, dueDate: u64, kyc: Option<Error>, gate: Option<Error>)
    | Verify(id: InvoiceId)
    | Cancel(id: InvoiceId, kyc: Option<Error>)
    | Bidding(investor: Address, id: InvoiceId, bidAmount: i128, expectedReturn: i128, terms: BidTerms)
    | Withdraw(bid: BidId, kyc: Option<Error>)
    | DropBid(bid: BidId)
    | Cleanup(id: InvoiceId)
    | Accept(id: InvoiceId, bid: BidId, kyc: Option<Error>)
    | Release(id: InvoiceId)
    | Refund(id: InvoiceId, caller: Address)
    | Insure(investment: InvestmentId, provider: Address, percentage: u32)
    | PayPart(id: InvoiceId, payment: i128, transactionId: string)
    | Settle(id: InvoiceId, payment: i128)
    | MarkDefault(id: InvoiceId, grace: Option<u64>, configured: u64)
    | CheckExpiry(id: InvoiceId, grace: Option<u64>, configured: u64)
    | ScanOverdue(graceSeconds: u64, limit: Option<u32>)
    | ConfigureFee(config: FeeConfig)
    | HolderMoves(currency: Address, source: Address, target: Address, moved: int)
    | HolderApproves(currency: Address, holder: Address, allowance: nat)

  /** The contract's own address never acts as a business, an investor or a token holder that signs. */
  predicate Admissible(a: Action) {
    match a
    case Create(business, _, _, _, _, _) => business != SELF
    case Bidding(investor, _, _, _, _) => investor != SELF
    case HolderMoves(_, source, _, _) => source != SELF
    case _ => true
  }

  /** What one action does, or the error it fails with. */
  function Attempt(s: State, a: Action): Result<State>
    requires Admissible(a)
  {
    match a
    case Tick(seconds) => Ok(s.(now := SatAdd64(s.now, seconds)))
    case Create(business, amount, currency, dueDate, kyc, gate) => CreateInvoice(s, business, amount, currency,
        dueDate, kyc, gate)
    case Verify(id) => VerifyInvoice(s, id)
    case Cancel(id, kyc) => CancelInvoice(s, id, kyc)
    case Bidding(investor, id, amount, expected, terms) => PlaceBid(s, investor, id, amount, expected, terms)
    case Withdraw(k, kyc) => WithdrawBid(s, k, kyc)
    case DropBid(k) => Ok(CancelBid(s, k))
    case Cleanup(id) => Ok(s.(book := RefreshInvoice(s.book, s.now, id)))
    case Accept(id, k, kyc) => AcceptBidAndFund(s, id, k, kyc)
    case Release(id) => ReleaseEscrowFunds(s, id)
    case Refund(id, caller) => RefundEscrowFunds(s, id, caller)
    case Insure(v, provider, percentage) => AddInvestmentInsurance(s, v, provider, percentage)
    case PayPart(id, amount, tx) => ProcessPartialPayment(s, id, amount, tx)
    case Settle(id, amount) => SettleInvoice(s, id, amount)
    case MarkDefault(id, grace, configured) => MarkInvoiceDefaulted(s, id, grace, configured)
    case CheckExpiry(id, grace, configured) => CheckInvoiceExpiration(s, id, grace, configured)
    case ScanOverdue(grace, limit) => ScanFunded(s, grace, limit)
    case ConfigureFee(config) => SetFee(s, config)
    case HolderMoves(currency, source, target, amount) =>
      var ledger :- HolderTransfer(s.ledger, currency, source, target, amount);
      Ok(s.(ledger := ledger))
    case HolderApproves(currency, holder, amount) =>
      Ok(s.(ledger := s.ledger.(allowances := s.ledger.allowances[(currency, holder) := amount])))
  }

  /** A failing action leaves the state unchanged. */
  function Apply(s: State, a: Action): State
    requires Admissible(a)
  {
    match Attempt(s, a)
    case Ok(s') => s'
    case Err(_) => s
  }

  function Run(s: State, actions: seq<Action>): State
    requires forall a :: a in actions ==> Admissible(a)
  {
    if |actions| == 0 then s else Apply(Run(s, actions[..|actions| - 1]), actions[|actions| - 1])
  }
}
