/**
  What every reachable state satisfies. Everything the contract stores about one invoice is
  gathered in a slice, and the status of the invoice fixes the rest of its slice; the indexes
  tie the slices to the tables, and custody ties the tables to the token ledger.
 */
module Coherence {
  import opened Base
  import opened Lists
  import opened Token
  import opened BidBook
  import opened SettlementSplit
  import opened Insurance
  import opened Protocol

  /** All that is stored about one invoice. */
  datatype Slice = Slice(
    invoice: Invoice, escrow: Option<(EscrowId, Escrow)>, investment: Option<(InvestmentId, Investment)>,
    accepted: set<Bid>, payments: seq<Payment>, nonces: set<string>, finalized: bool, guarded: bool, moves: seq<Move>)

  function LookUp<T>(keyOf: map<InvoiceId, nat>, table: map<nat, T>, id: InvoiceId): Option<(nat, T)> {
    if id in keyOf && keyOf[id] in table then Some((keyOf[id], table[keyOf[id]])) else None
  }

  function EscrowOf(s: State, id: InvoiceId): Option<(EscrowId, Escrow)> { LookUp(s.escrowOf, s.escrows, id) }

  function InvestmentOf(s: State, id: InvoiceId): Option<(InvestmentId, Investment)> {
    LookUp(s.investmentOf, s.investments, id)
  }

  function NoncesOf(s: State, id: InvoiceId): set<string> {
    set p | p in s.nonces && p.0 == id :: p.1
  }

  function SliceOf(s: State, id: InvoiceId): Slice
    requires id in s.invoices
  {
    Slice(s.invoices[id], EscrowOf(s, id), InvestmentOf(s, id), AcceptedOn(s.book, id), PaymentsOf(s, id),
          NoncesOf(s, id), id in s.finalized, id in s.guards, MovesOf(s.ledger.moves, id))
  }

  function Total(payments: seq<Payment>): int {
    if |payments| == 0 then 0 else Total(payments[..|payments| - 1]) + payments[|payments| - 1].amount
  }

  /** The last `n` records, or all of them, in the form the invoice keeps inline. */
  function LastInline(payments: seq<Payment>): seq<HistoryEntry> {
    var n := |payments|;
    var kept := if n > MAX_INLINE_HISTORY then payments[n - MAX_INLINE_HISTORY..] else payments;
    seq(|kept|, i requires 0 <= i < |kept| => ToHistory(kept[i]))
  }

  /** The durable records: positive amounts, bounded length, and each non-empty nonce used once and remembered. */
  ghost predicate LogOk(payments: seq<Payment>, nonces: set<string>) {
    && |payments| <= MAX_PAYMENT_COUNT
    && (forall i :: 0 <= i < |payments| ==> payments[i].amount > 0)
    && (forall n :: n in nonces <==> n != "" && exists i :: 0 <= i < |payments| && payments[i].nonce == n)
    && (forall i, j :: 0 <= i < j < |payments| && payments[i].nonce != "" ==> payments[i].nonce != payments[j].nonce)
  }

  /** The invoice carries the total of the records and the last of them; a refund clears both. */
  ghost predicate TotalsOk(invoice: Invoice, payments: seq<Payment>) {
    && (if invoice.status == InvoiceStatus.Refunded then invoice.totalPaid == 0 && invoice.history == []
        else invoice.totalPaid == Total(payments) && invoice.history == LastInline(payments))
    && 0 <= invoice.totalPaid <= invoice.amount
    && invoice.totalPaid * 100 <= I128_MAX
  }

  ghost predicate PaymentsOk(v: Slice) { LogOk(v.payments, v.nonces) && TotalsOk(v.invoice, v.payments) }

  /** Nothing has been funded or paid. */
  ghost predicate Unfunded(v: Slice) {
    && v.escrow == None && v.investment == None && v.accepted == {} && v.payments == [] && v.moves == []
    && v.invoice.fundedAmount == 0 && v.invoice.fundedAt == None && v.invoice.investor == None
  }

  predicate WasFunded(status: InvoiceStatus) {
    status == Funded || status == Paid || status == InvoiceStatus.Defaulted || status == InvoiceStatus.Refunded
  }

  /** One escrow and one investment, agreeing with each other and with the invoice. */
  ghost predicate FundedOnce(v: Slice) {
    && v.escrow.Some? && v.investment.Some?
    && var e, i := v.escrow.value.1, v.investment.value.1;
      && e.investor == i.investor && e.amount == i.amount
      && 0 < e.amount <= v.invoice.amount
      && e.business == v.invoice.business && e.currency == v.invoice.currency
      && e.investor != SELF && e.investor != e.business
      && Sound(i.insurance, i.amount)
  }

  /** The invoice names its investor, and exactly the bid that funded it is Accepted. */
  ghost predicate FundedBy(v: Slice)
    requires FundedOnce(v)
  {
    var e := v.escrow.value.1;
    && v.invoice.investor == Some(e.investor) && v.invoice.fundedAmount == e.amount && v.invoice.fundedAt.Some?
    && exists b :: v.accepted == {b} && b.investor == e.investor && b.amount == e.amount
  }

  /** What the status of an invoice says about everything else. */
  ghost predicate StatusFixesRest(v: Slice) {
    if !WasFunded(v.invoice.status) then Unfunded(v)
    else
      && FundedOnce(v)
      && var e, i := v.escrow.value.1.status, v.investment.value.1;
        match v.invoice.status
        case Funded => FundedBy(v) && e != EscrowStatus.Refunded && i.status == Active && v.invoice.totalPaid < v.invoice.amount
        case Paid => FundedBy(v) && e == Released && i.status == Completed && v.invoice.totalPaid == v.invoice.amount
            && v.invoice.settledAt.Some?
        case Refunded => e == EscrowStatus.Refunded && i.status == InvestmentStatus.Refunded && v.accepted == {}
            && v.invoice.investor == None
        case _ =>
          && FundedBy(v) && e != EscrowStatus.Refunded && i.status == InvestmentStatus.Defaulted
          && ActivePercentage(i.insurance) == 0 && v.invoice.totalPaid < v.invoice.amount
  }

  function FundingMove(id: InvoiceId, e: Escrow): Move {
    Move(Some(id), e.currency, e.investor, SELF, Max(e.amount, 0))
  }

  function ReleaseMove(id: InvoiceId, e: Escrow): Move {
    Move(Some(id), e.currency, SELF, e.business, Max(e.amount, 0))
  }

  function RefundMove(id: InvoiceId, e: Escrow): Move { Move(Some(id), e.currency, SELF, e.investor, Max(e.amount, 0)) }

  /** The two moves of a settlement, at some admissible fee rate and recipient. */
  function SettlementMoves(id: InvoiceId, e: Escrow, split: Split, recipient: Address): seq<Move> {
    [Move(Some(id), e.currency, e.business, e.investor, Max(split.investorReturn, 0))]
    + if split.platformFee > 0 then [Move(Some(id), e.currency, e.business, recipient, split.platformFee)] else []
  }

  predicate AdmissibleFee(fee: Option<FeeConfig>) { fee.Some? ==> fee.value.bps <= MAX_PLATFORM_FEE_BPS }

  ghost predicate SettledWith(id: InvoiceId, v: Slice, fee: Option<FeeConfig>)
    requires FundedOnce(v)
  {
    var e := v.escrow.value.1;
    && AdmissibleFee(fee)
    && v.moves == [FundingMove(id, e), ReleaseMove(id, e)]
                  + SettlementMoves(id, e, SplitFor(fee, e.amount, v.invoice.amount), FeeRecipient(fee))
  }

  /** The transfers made for an invoice, fixed by where its escrow and its settlement stand. */
  ghost predicate MovesOk(id: InvoiceId, v: Slice)
    requires FundedOnce(v)
  {
    var e := v.escrow.value.1;
    match e.status
    case Held => v.moves == [FundingMove(id, e)]
    case Refunded => v.moves == [FundingMove(id, e), RefundMove(id, e)]
    case Released =>
      if v.invoice.status == Paid then exists fee :: SettledWith(id, v, fee)
      else v.moves == [FundingMove(id, e), ReleaseMove(id, e)]
  }

  /** The main invariant, for one invoice. */
  ghost predicate Coherent(id: InvoiceId, v: Slice) {
    && 0 < v.invoice.amount <= I128_MAX && v.invoice.business != SELF
    && PaymentsOk(v)
    && (v.guarded <==> v.invoice.status == InvoiceStatus.Defaulted)
    && (v.finalized <==> v.invoice.status == Paid)
    && StatusFixesRest(v)
    && (WasFunded(v.invoice.status) ==> MovesOk(id, v))
  }

  /** The seven status lists are duplicate-free and partition the stored invoices by status. */
  ghost predicate ListsOk(invoices: map<InvoiceId, Invoice>, lists: StatusLists) {
    && (forall st :: NoDup(ListOf(lists, st)))
    && (forall st, id :: id in ListOf(lists, st) <==> id in invoices && invoices[id].status == st)
  }

  /** Escrow ids come from a counter, and each escrow belongs to exactly one invoice. */
  ghost predicate EscrowsOk(ids: set<InvoiceId>, escrows: map<EscrowId, Escrow>, escrowOf: map<InvoiceId, EscrowId>,
                          count: nat) {
    && (forall e :: e in escrows ==> 1 <= e <= count && escrows[e].invoice in escrowOf && escrowOf[escrows[e].invoice] == e)
    && (forall id :: id in escrowOf ==> id in ids && escrowOf[id] in escrows && escrows[escrowOf[id]].invoice == id)
  }

  /** The same for investments. */
  ghost predicate InvestmentsOk(ids: set<InvoiceId>, investments: map<InvestmentId, Investment>,
                          investmentOf: map<InvoiceId, InvestmentId>, count: nat) {
    && (forall v :: v in investments ==>
          1 <= v <= count && investments[v].invoice in investmentOf && investmentOf[investments[v].invoice] == v)
    && (forall id :: id in investmentOf ==>
          id in ids && investmentOf[id] in investments && investments[investmentOf[id]].invoice == id)
  }

  ghost predicate IdsOk(ids: set<InvoiceId>, count: nat) { forall id :: id in ids ==> 1 <= id <= count }

  /**
    What was checked when a bid was placed still holds: its invoice exists, asks for at least as much, and is
    another's.
   */
  ghost predicate BidsFit(book: Book, invoices: map<InvoiceId, Invoice>) {
    forall k :: k in book.bids ==>
      && book.bids[k].invoice in invoices
      && book.bids[k].amount <= invoices[book.bids[k].invoice].amount
      && book.bids[k].investor != invoices[book.bids[k].invoice].business
      && book.bids[k].investor != SELF
  }

  /** The active index lists exactly the Active investments, once each. */
  ghost predicate ActiveOk(investments: map<InvestmentId, Investment>, active: seq<InvestmentId>) {
    && NoDup(active)
    && (forall v :: v in active <==> v in investments && investments[v].status == Active)
  }

  /** Invoices that do not exist have left no trace. */
  ghost predicate NoTrace(ids: set<InvoiceId>, finalized: set<InvoiceId>, guards: set<InvoiceId>,
                          payments: map<InvoiceId, seq<Payment>>, nonces: set<(InvoiceId, string)>, moves: seq<Move>)
  {
    && finalized <= ids && guards <= ids && payments.Keys <= ids
    && (forall p :: p in nonces ==> p.0 in ids)
    && (forall i :: 0 <= i < |moves| && moves[i].invoice.Some? ==> moves[i].invoice.value in ids)
  }

  function HeldIn(e: Escrow, c: Address): nat { if e.status == Held && e.currency == c then Max(e.amount, 0) else 0 }

  /** The sum of the Held escrows of one currency, over the ids handed out so far. */
  function HeldSum(escrows: map<EscrowId, Escrow>, count: nat, c: Address): nat {
    if count == 0 then 0
    else HeldSum(escrows, count - 1, c) + if count in escrows then HeldIn(escrows[count], c) else 0
  }

  /** The contract holds at least what it holds for others, in every currency. */
  ghost predicate Custody(ledger: Ledger, escrows: map<EscrowId, Escrow>, count: nat) {
    forall c :: Balance(ledger, c, SELF) >= HeldSum(escrows, count, c)
  }

  /** The part of the invariant that ties the tables, the indexes and the ledger together. */
  ghost predicate Structure(s: State) {
    && s.now <= U64_MAX
    && AdmissibleFee(s.fee)
    && BookOk(s.book)
    && BidsFit(s.book, s.invoices)
    && ListsOk(s.invoices, s.lists)
    && IdsOk(s.invoices.Keys, s.invoiceCount)
    && EscrowsOk(s.invoices.Keys, s.escrows, s.escrowOf, s.escrowCount)
    && InvestmentsOk(s.invoices.Keys, s.investments, s.investmentOf, s.investmentCount)
    && ActiveOk(s.investments, s.active)
    && NoTrace(s.invoices.Keys, s.finalized, s.guards, s.payments, s.nonces, s.ledger.moves)
    && Custody(s.ledger, s.escrows, s.escrowCount)
  }

  ghost predicate AllCoherent(s: State) {
    forall id :: id in s.invoices ==> Coherent(id, SliceOf(s, id))
  }

  ghost predicate Inv(s: State) { Structure(s) && AllCoherent(s) }
}
