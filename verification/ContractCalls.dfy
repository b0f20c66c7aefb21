/**
  The contract over its storages, with the entry points as they change them step by step.
  Each is proved to have exactly the outcome that `Protocol` specifies: the same new state, or
  the same error with the stored state rolled back. `require_auth` calls are the caller's part.
 */
module ContractCalls {
  import opened Base
  import opened Lists
  import opened Token
  import opened BasisPoints
  import opened BidBook
  import opened SettlementSplit
  import opened Insurance
  import opened Protocol
  import opened Coherence
  import opened Local
  import opened Frames
  import opened Simulation
  import opened Bookkeeping
  import opened Effects
  import opened Outcomes
  import opened FundedFacts
  import opened InvoiceStore
  import opened EscrowStore
  import opened InvestmentStore
  import opened SettlementStore
  import OverdueScan

  datatype OverdueScanResult = OverdueScanResult(overdue: nat, scanned: nat, totalFunded: nat, nextCursor: nat)

  /** What the host puts back when an entry point fails. */
  datatype Checkpoint = Checkpoint(state: State, records: map<(InvoiceId, nat), Payment>, counts: map<InvoiceId, nat>)

  class Contract {
    const admin: Address
    const invoices: InvoiceStorage
    const bids: BidStorage
    const escrows: EscrowStorage
    const investments: InvestmentStorage
    const settlements: SettlementStorage
    var now: nat
    var locked: bool
    var guards: set<InvoiceId>
    var cursor: nat
    var fee: Option<FeeConfig>
    var ledger: Ledger

    /** The stored state as a value. */
    function Snapshot(): State
      reads this, invoices, bids, escrows, investments, settlements
    {
      State(now, admin, invoices.invoices, invoices.count, invoices.lists, bids.Contents(),
            escrows.escrows, escrows.escrowOf, escrows.count,
            investments.investments, investments.investmentOf, investments.count, investments.active,
            settlements.Payments(), settlements.nonces, settlements.finalized, guards, cursor, fee, ledger)
    }

    ghost predicate Valid()
      reads this, invoices, bids, escrows, investments, settlements
    {
      Inv(Snapshot())
    }

    /** A step did what `spec` says, or failed with the same error. */
    ghost predicate Matches<T>(spec: Result<State>, r: Result<T>)
      reads this, invoices, bids, escrows, investments, settlements
    {
      match spec
      case Ok(s) => r.Ok? && Snapshot() == s
      case Err(e) => r == Err(e)
    }

    /** The same, and a failed call has left the state as it was. */
    ghost predicate Outcome<T>(before: State, spec: Result<State>, r: Result<T>)
      reads this, invoices, bids, escrows, investments, settlements
    {
      Matches(spec, r) && (r.Err? ==> Snapshot() == before)
    }

    /** A call under the payment guard: refused while the lock is held, and otherwise as specified. */
    ghost predicate Guarded<T>(wasLocked: bool, before: State, spec: Result<State>, r: Result<T>)
      reads this, invoices, bids, escrows, investments, settlements
    {
      && locked == wasLocked
      && if wasLocked then r == Err(OperationNotAllowed) && Snapshot() == before else Outcome(before, spec, r)
    }

    constructor (now: u64, admin: Address, balances: Holdings, allowances: Holdings)
      ensures Snapshot() == Init(now, admin, balances, allowances) && Valid() && !locked
      ensures fresh(invoices) && fresh(bids) && fresh(escrows) && fresh(investments) && fresh(settlements)
    {
      this.admin, this.now, locked := admin, now, false;
      invoices := new InvoiceStorage();
      bids := new BidStorage();
      escrows := new EscrowStorage();
      investments := new InvestmentStorage();
      settlements := new SettlementStorage();
      guards, cursor, fee, ledger := {}, 0, None, Ledger(balances, allowances, []);
      new;
      InitHolds(now, admin, balances, allowances);
    }

    /* ---- the host's rollback ---- */

    method Save() returns (c: Checkpoint)
      ensures c == Checkpoint(Snapshot(), settlements.records, settlements.counts)
    {
      c := Checkpoint(Snapshot(), settlements.records, settlements.counts);
    }

    method Rollback(c: Checkpoint)
      requires c.state.admin == admin && c.state.payments == Logs(c.records, c.counts)
      modifies this, invoices, bids, escrows, investments, settlements
      ensures Snapshot() == c.state && locked == old(locked)
    {
      hide Logs;
      var s := c.state;
      invoices.Restore(s);
      bids.Restore(s.book);
      escrows.Restore(s);
      investments.Restore(s);
      settlements.Restore(c.records, c.counts, s.nonces, s.finalized);
      now, guards, cursor, fee, ledger := s.now, s.guards, s.cursor, s.fee, s.ledger;
    }

    /* ---- reads ---- */

    /** Every stored invoice once, read off the status lists. */
    method GetAllInvoiceIds() returns (all: seq<InvoiceId>)
      requires Valid()
      ensures NoDup(all) && forall id :: id in all <==> id in invoices.invoices
    {
      hide BookOk, BidsFit, ActiveOk, Custody, EscrowsOk, InvestmentsOk, NoTrace, AllCoherent, ListsOk;
      all := invoices.GetAllInvoiceIds();
    }

    /* ---- tokens and escrow ---- */

    /** `transfer_funds`, with the token contract's own bookkeeping. */
    method TransferFunds(invoice: InvoiceId, c: Address, source: Address, target: Address,
                         amount: int) returns (r: Result<()>)
      modifies this`ledger
      ensures match Transfer(old(ledger), Some(invoice), c, source, target, amount)
        case Ok(l) => r.Ok? && ledger == l
        case Err(e) => r == Err(e) && ledger == old(ledger)
    {
      if amount <= 0 {
        return Err(InvalidAmount);
      }
      if source == target {
        ledger := ledger.(moves := ledger.moves + [Move(Some(invoice), c, source, target, amount)]);
        return Ok(());
      }
      var available := Balance(ledger, c, source);
      if available < amount {
        return Err(InsufficientFunds);
      }
      if source != SELF {
        var allowance := Allowance(ledger, c, source);
        if allowance < amount {
          return Err(OperationNotAllowed);
        }
        ledger := ledger.(allowances := ledger.allowances[(c, source) := allowance - amount]);
      }
      ledger := ledger.(balances := Shift(ledger.balances, c, source, target, amount),
                        moves := ledger.moves + [Move(Some(invoice), c, source, target, amount)]);
      r := Ok(());
    }

    method CreateEscrow(id: InvoiceId, investor: Address, business: Address, amount: int,
                        currency: Address) returns (r: Result<EscrowId>)
      modifies this`ledger, escrows
      ensures r.Err? ==> ledger == old(ledger) && unchanged(escrows)
      ensures match old(escrows.Find(id))
        case Some(_) => r == Err(if amount <= 0 then InvalidAmount else InvoiceAlreadyFunded)
        case None =>
          match Transfer(old(ledger), Some(id), currency, investor, SELF, amount)
          case Err(e) => r == Err(e)
          case Ok(l) =>
            && r == Ok(escrows.count) && ledger == l && escrows.count == old(escrows.count) + 1
            && escrows.escrowOf == old(escrows.escrowOf)[id := escrows.count]
            && escrows.escrows
               == old(escrows.escrows)[escrows.count := Escrow(id, investor, business, amount, currency, now, Held)]
    {
      if amount <= 0 {
        return Err(InvalidAmount);
      }
      if escrows.Find(id).Some? {
        return Err(InvoiceAlreadyFunded);
      }
      var _ :- TransferFunds(id, currency, investor, SELF, amount);
      var e := escrows.Add(Escrow(id, investor, business, amount, currency, now, Held));
      r := Ok(e);
    }

    /** `release_escrow` and `refund_escrow`: pay a held escrow out, then mark it. */
    method PayOut(id: InvoiceId, after: EscrowStatus) returns (r: Result<()>)
      modifies this`ledger, escrows`escrows
      ensures Matches(PayOutEscrow(old(Snapshot()), id, after), r)
    {
      hide Transfer, Logs;
      if escrows.Find(id).None? {
        return Err(StorageKeyNotFound);
      }
      var escrow := escrows.Find(id).value;
      if escrow.status != Held {
        return Err(InvalidStatus);
      }
      var payee := if after == Released then escrow.business else escrow.investor;
      var _ :- TransferFunds(id, escrow.currency, SELF, payee, escrow.amount);
      escrows.Update(escrows.escrowOf[id], escrow.(status := after));
      r := Ok(());
    }

    /* ---- payments and settlement ---- */

    method GetInvoiceProgress(id: InvoiceId) returns (r: Result<int>)
      ensures r == if id !in invoices.invoices then Err(InvoiceNotFound) else ProgressPercent(invoices.invoices[id])
    {
      if id !in invoices.invoices {
        return Err(InvoiceNotFound);
      }
      var invoice := invoices.invoices[id];
      if invoice.amount <= 0 {
        return Ok(0);
      }
      var scaled := invoice.totalPaid * 100;
      if scaled > I128_MAX {
        return Err(InvalidAmount);
      }
      r := Ok(Max(0, Min(100, scaled / invoice.amount)));
    }

    method UpdateInlinePaymentHistory(history: seq<HistoryEntry>, amount: int, timestamp: nat,
                            nonce: string) returns (slid: seq<HistoryEntry>)
      ensures slid == SlideHistory(history, HistoryEntry(amount, timestamp, nonce))
      ensures var all := history + [HistoryEntry(amount, timestamp, nonce)];
        |history| <= MAX_INLINE_HISTORY ==> slid == all[Max(|all| - MAX_INLINE_HISTORY, 0)..]
    {
      slid := history;
      if |slid| >= MAX_INLINE_HISTORY {
        slid := slid[1..];
      }
      slid := slid + [HistoryEntry(amount, timestamp, nonce)];
    }

    /** The storage writes of `record_payment`: the record with its count and nonce, then the invoice. */
    method StoreRecord(id: InvoiceId, payment: Payment)
      requires id in invoices.invoices
      modifies settlements, invoices`invoices, invoices`lists
      ensures Snapshot() == RecordedState(old(Snapshot()), id, payment)
    {
      hide Logs, SlideHistory;
      settlements.Append(id, payment);
      var invoice := invoices.invoices[id];
      var history := UpdateInlinePaymentHistory(invoice.history, payment.amount, payment.timestamp, payment.nonce);
      invoices.Update(id, invoice.(totalPaid := invoice.totalPaid + payment.amount, history := history));
    }

    method RecordPayment(id: InvoiceId, payer: Address, amount: int, nonce: string) returns (r: Result<()>)
      requires id in invoices.invoices && invoices.invoices[id].status == Funded ==> StillOwed(Snapshot(), id)
      requires id in invoices.invoices ==> payer == invoices.invoices[id].business
      modifies settlements, invoices`invoices, invoices`lists
      ensures Matches(Protocol.RecordPayment(old(Snapshot()), id, amount, nonce), r)
      ensures r.Ok? && (nonce == "" || (id, nonce) !in old(settlements.nonces)) ==>
        && id in old(invoices.invoices)
        && var owed := old(invoices.invoices)[id].amount - old(invoices.invoices)[id].totalPaid;
           PaymentStored(old(Snapshot()), Snapshot(), id, if amount < owed then amount else owed, nonce)
    {
      hide Logs, SlideHistory, PaymentStored;
      if amount <= 0 {
        return Err(InvalidAmount);
      }
      if id !in invoices.invoices {
        return Err(InvoiceNotFound);
      }
      var invoice := invoices.invoices[id];
      if invoice.status != Funded {
        return Err(InvalidStatus);
      }
      if payer != invoice.business {
        return Err(Unauthorized);
      }
      if |nonce| > 0 && (id, nonce) in settlements.nonces {
        var progress := GetInvoiceProgress(id);
        return progress.With(());
      }
      if settlements.Count(id) >= MAX_PAYMENT_COUNT {
        return Err(OperationNotAllowed);
      }
      var remaining := invoice.amount - invoice.totalPaid;
      if remaining <= 0 {
        return Err(InvalidStatus);
      }
      var applied := if amount > remaining then remaining else amount;
      if applied <= 0 {
        return Err(InvalidAmount);
      }
      if invoice.totalPaid + applied > invoice.amount {
        return Err(InvalidAmount);
      }
      StoreRecord(id, Payment(payer, applied, now, nonce));
      RecordedIsStored(old(Snapshot()), id, Payment(payer, applied, now, nonce));
      var progress := GetInvoiceProgress(id);
      r := progress.With(());
    }

    /** The transfers of a settlement. */
    method Disburse(id: InvoiceId, invoice: Invoice, investor: Address, split: Split) returns (r: Result<()>)
      modifies this`ledger
      ensures match PaySplit(old(ledger), id, invoice.currency, invoice.business, investor, split, FeeRecipient(fee))
        case Ok(l) => r.Ok? && ledger == l
        case Err(e) => r == Err(e)
    {
      hide Transfer;
      var _ :- TransferFunds(id, invoice.currency, invoice.business, investor, split.investorReturn);
      if split.platformFee > 0 {
        var recipient := if fee.Some? && fee.value.treasury.Some? then fee.value.treasury.value else SELF;
        var _ :- TransferFunds(id, invoice.currency, invoice.business, recipient, split.platformFee);
      }
      r := Ok(());
    }

    /** Finalize, mark the invoice Paid and close its investment. */
    method CloseAsPaid(id: InvoiceId) returns (r: Result<()>)
      requires Closable(Snapshot(), id)
      modifies settlements`finalized, invoices, investments
      ensures r.Ok? && Snapshot() == PaidState(old(Snapshot()), id)
    {
      hide Logs, Relist, Moved, Added, Removed;
      settlements.MarkFinalized(id);
      var invoice, v := invoices.invoices[id], investments.investmentOf[id];
      ListedOnce(invoices.lists, id, Funded, Paid);
      invoices.Update(id, MarkPaid(invoice, now));
      invoices.RemoveFromStatus(Funded, id);
      invoices.AddToStatus(Paid, id);
      r := investments.Update(v, investments.investments[v].(status := Completed));
    }

    /** `settle_invoice_internal`. */
    method SettleInternal(id: InvoiceId) returns (r: Result<()>)
      requires id in invoices.invoices && invoices.invoices[id].status == Funded ==> FundedParts(Snapshot(), id)
      requires id in settlements.finalized ==> id in invoices.invoices && invoices.invoices[id].status != Funded
      modifies this`ledger, escrows, settlements`finalized, invoices, investments
      ensures Matches(Finalize(old(Snapshot()), id), r)
    {
      hide Logs, PaySplit, PaidState, SplitFor, Transfer;
      if id in settlements.finalized {
        return Err(InvalidStatus);
      }
      if id !in invoices.invoices {
        return Err(InvoiceNotFound);
      }
      var invoice := invoices.invoices[id];
      if invoice.status != Funded {
        return Err(InvalidStatus);
      }
      var found := investments.Find(id);
      if found.None? {
        return Err(StorageKeyNotFound);
      }
      var investment := found.value.1;
      if invoice.totalPaid < invoice.amount || invoice.totalPaid < investment.amount {
        return Err(PaymentTooLow);
      }
      var escrow := escrows.Find(id);
      if escrow.Some? && escrow.value.status == Held {
        var _ :- PayOut(id, Released);
      }
      if invoice.investor.None? {
        return Err(Unauthorized);
      }
      var split := SplitConfigured(investment.amount, invoice.totalPaid);
      if split.investorReturn + split.platformFee != invoice.totalPaid {
        return Err(InvalidAmount);
      }
      var _ :- Disburse(id, invoice, invoice.investor.value, split);
      r := CloseAsPaid(id);
    }

    /** The configured fee, or the default calculator when none is configured; either way nothing is lost. */
    method SplitConfigured(invested: int, paid: int) returns (split: Split)
      requires 0 <= invested <= I128_MAX && 0 <= paid <= I128_MAX && AdmissibleFee(fee)
      ensures split == SplitFor(fee, invested, paid) && split.investorReturn + split.platformFee == paid
      ensures FlooredShare(split.platformFee, Max(paid - invested, 0), if fee.Some? then fee.value.bps else 200)
    {
      SplitConserves(fee, invested, paid);
      FeeIsTheShareOfProfit(fee, invested, paid);
      split := if fee.Some? then CalculatePlatformFee(fee.value.bps, invested, paid)
               else CalculateWithFeeBps(invested, paid, DEFAULT_PLATFORM_FEE_BPS);
    }

    /* ---- entry points: invoices before funding ---- */

    method UploadInvoice(business: Address, amount: i128, currency: Address, dueDate: u64, kyc: Option<Error>,
                         gate: Option<Error>)
        returns (r: Result<InvoiceId>)
      requires Valid() && business != SELF
      modifies invoices
      ensures Valid()
      ensures Outcome(old(Snapshot()), CreateInvoice(old(Snapshot()), business, amount, currency, dueDate, kyc, gate), r)
    {
      hide Structure, AllCoherent, Logs, StepOf;
      ghost var s := Snapshot();
      if kyc.Some? {
        return Err(kyc.value);
      }
      if amount <= 0 {
        return Err(InvalidAmount);
      }
      if dueDate <= now {
        return Err(InvoiceDueDateInvalid);
      }
      if gate.Some? {
        return Err(gate.value);
      }
      NextIsUnlisted(s);
      var id := invoices.NextCount();
      invoices.Store(id, NewInvoice(business, amount, currency, dueDate));
      r := Ok(id);
      ghost var c := Context(s.now, s.fee, None);
      CreateStep(c, s, business, amount, currency, dueDate, kyc, gate);
      StepKeeps(c, s, Snapshot());
    }

    method VerifyInvoice(id: InvoiceId) returns (r: Result<()>)
      requires Valid()
      modifies this, invoices, bids, escrows, investments, settlements
      ensures Valid()
      ensures if id in old(invoices.invoices) && old(invoices.invoices)[id].status == Funded
        then Guarded(old(locked), old(Snapshot()), Protocol.VerifyInvoice(old(Snapshot()), id), r)
        else locked == old(locked) && Outcome(old(Snapshot()), Protocol.VerifyInvoice(old(Snapshot()), id), r)
    {
      hide Inv, Structure, Logs, StepOf, Relist, Moved, Added, Removed, Protocol.ReleaseEscrowFunds;
      ghost var s := Snapshot();
      if id !in invoices.invoices {
        return Err(InvoiceNotFound);
      }
      var invoice := invoices.invoices[id];
      if invoice.status == Funded {
        r := ReleaseEscrowFunds(id);
        return;
      }
      if invoice.status != Pending {
        return Err(InvalidStatus);
      }
      ListedByStatus(s, id);
      ListedOnce(invoices.lists, id, Pending, Verified);
      invoices.RemoveFromStatus(Pending, id);
      invoices.Update(id, invoice.(status := Verified));
      invoices.AddToStatus(Verified, id);
      r := Ok(());
      StatusKeeps(s, id, Verifying);
    }

    method CancelInvoice(id: InvoiceId, kyc: Option<Error>) returns (r: Result<()>)
      requires Valid()
      modifies this, invoices, bids, escrows, investments, settlements
      ensures Valid() && locked == old(locked)
      ensures Outcome(old(Snapshot()), Protocol.CancelInvoice(old(Snapshot()), id, kyc), r)
    {
      hide Inv, Structure, Logs, StepOf, Relist, Moved, Added, Removed;
      ghost var s := Snapshot();
      if id !in invoices.invoices {
        return Err(InvoiceNotFound);
      }
      if kyc.Some? {
        return Err(kyc.value);
      }
      var saved := Save();
      var invoice := invoices.invoices[id];
      ListedByStatus(s, id);
      if invoice.status != InvoiceStatus.Cancelled {
        ListedOnce(invoices.lists, id, invoice.status, InvoiceStatus.Cancelled);
      }
      invoices.RemoveFromStatus(invoice.status, id);
      if invoice.status != Pending && invoice.status != Verified {
        Rollback(saved);
        return Err(InvalidStatus);
      }
      invoices.Update(id, invoice.(status := InvoiceStatus.Cancelled));
      invoices.AddToStatus(InvoiceStatus.Cancelled, id);
      r := Ok(());
      StatusKeeps(s, id, Cancelling);
    }

    /* ---- entry points: escrow ---- */

    method ReleaseBody(id: InvoiceId) returns (r: Result<()>)
      modifies this`ledger, escrows`escrows
      ensures Matches(Protocol.ReleaseEscrowFunds(old(Snapshot()), id), r)
    {
      hide Logs, PayOutEscrow;
      if id !in invoices.invoices {
        return Err(InvoiceNotFound);
      }
      if invoices.invoices[id].status != Funded {
        return Err(InvalidStatus);
      }
      r := PayOut(id, Released);
    }

    method ReleaseEscrowFunds(id: InvoiceId) returns (r: Result<()>)
      requires Valid()
      modifies this, invoices, bids, escrows, investments, settlements
      ensures Valid()
      ensures Guarded(old(locked), old(Snapshot()), Protocol.ReleaseEscrowFunds(old(Snapshot()), id), r)
    {
      hide Inv, Structure, Logs, StepOf, Protocol.ReleaseEscrowFunds;
      ghost var s := Snapshot();
      if locked {
        return Err(OperationNotAllowed);
      }
      var saved := Save();
      locked := true;
      r := ReleaseBody(id);
      locked := false;
      if r.Err? {
        Rollback(saved);
      } else {
        ghost var c := Context(s.now, s.fee, None);
        ReleaseStep(c, s, id);
        StepKeeps(c, s, Snapshot());
      }
    }

    /** Cancel the first accepted bid among the records of an invoice. */
    method CancelAcceptedBid(id: InvoiceId)
      modifies bids
      ensures var book := RefreshInvoice(old(bids.Contents()), now, id);
        var rs := Records(book.bids, IdsOf(book.byInvoice, id));
        || ((forall b :: b in rs ==> b.status != Accepted) && bids.Contents() == book)
        || exists b :: b in rs && b.status == Accepted
            && bids.Contents() == book.(bids := book.bids[b.id := b.(status := BidStatus.Cancelled)])
    {
      hide RefreshInvoice;
      var rs := bids.GetBidRecordsForInvoice(now, id);
      ghost var book := bids.Contents();
      for i := 0 to |rs|
        invariant bids.Contents() == book
        invariant forall j :: 0 <= j < i ==> rs[j].status != Accepted
      {
        if rs[i].status == Accepted {
          bids.UpdateBid(rs[i].(status := BidStatus.Cancelled));
          return;
        }
      }
    }

    /** Mark a refunded invoice and close its bid and its investment. */
    method CloseAsRefunded(id: InvoiceId) returns (r: Result<()>)
      requires Closable(Snapshot(), id)
      requires var book := RefreshInvoice(bids.Contents(), now, id);
        && (exists b :: b in Records(book.bids, IdsOf(book.byInvoice, id)) && b.status == Accepted)
        && forall b :: b in Records(book.bids, IdsOf(book.byInvoice, id)) && b.status == Accepted ==>
             CancelAccepted(book, id) == book.(bids := book.bids[b.id := b.(status := BidStatus.Cancelled)])
      modifies invoices, bids, investments
      ensures r.Ok?
      ensures var s := old(Snapshot()); Snapshot() == RefundedState(s.(book := RefreshInvoice(s.book, s.now, id)), id)
    {
      hide Logs, Relist, Moved, Added, Removed, RefreshInvoice, CancelAccepted, Records;
      ListedOnce(invoices.lists, id, Funded, InvoiceStatus.Refunded);
      var invoice, v := invoices.invoices[id], investments.investmentOf[id];
      invoices.Update(id, MarkRefunded(invoice));
      invoices.RemoveFromStatus(Funded, id);
      invoices.AddToStatus(InvoiceStatus.Refunded, id);
      CancelAcceptedBid(id);
      r := investments.Update(v, investments.investments[v].(status := InvestmentStatus.Refunded));
    }

    method RefundBody(id: InvoiceId, caller: Address) returns (r: Result<()>)
      requires Valid()
      modifies this`ledger, escrows`escrows, invoices, bids, investments
      ensures Matches(Protocol.RefundEscrowFunds(old(Snapshot()), id, caller), r)
    {
      hide Inv, Logs, PayOutEscrow, RefundedState, RefreshInvoice, CancelAccepted, Records;
      ghost var s := Snapshot();
      if id !in invoices.invoices {
        return Err(InvoiceNotFound);
      }
      if caller != admin && caller != invoices.invoices[id].business {
        return Err(Unauthorized);
      }
      if invoices.invoices[id].status != Funded {
        return Err(InvalidStatus);
      }
      FundedIsOk(s, id);
      ghost var b := AcceptedRecord(s, id);
      if escrows.Find(id).None? {
        return Err(StorageKeyNotFound);
      }
      var _ :- PayOut(id, EscrowStatus.Refunded);
      PaidOutClosable(s, id, EscrowStatus.Refunded, Snapshot());
      r := CloseAsRefunded(id);
    }

    method RefundEscrowFunds(id: InvoiceId, caller: Address) returns (r: Result<()>)
      requires Valid()
      modifies this, invoices, bids, escrows, investments, settlements
      ensures Valid()
      ensures Guarded(old(locked), old(Snapshot()), Protocol.RefundEscrowFunds(old(Snapshot()), id, caller), r)
    {
      hide Inv, Structure, Logs, StepOf, Protocol.RefundEscrowFunds;
      ghost var s := Snapshot();
      if locked {
        return Err(OperationNotAllowed);
      }
      var saved := Save();
      locked := true;
      r := RefundBody(id, caller);
      locked := false;
      if r.Err? {
        Rollback(saved);
      } else {
        ghost var c := Context(s.now, s.fee, None);
        RefundStep(c, s, id, caller);
        StepKeeps(c, s, Snapshot());
      }
    }

    /* ---- entry points: payments ---- */

    method PartialPaymentBody(id: InvoiceId, amount: i128, transactionId: string) returns (r: Result<()>)
      requires Valid()
      modifies this`ledger, escrows, settlements, invoices, investments
      ensures Matches(Protocol.ProcessPartialPayment(old(Snapshot()), id, amount, transactionId), r)
    {
      hide Inv, Logs, Finalize, SlideHistory;
      ghost var s := Snapshot();
      if id !in invoices.invoices {
        return Err(InvoiceNotFound);
      }
      if invoices.invoices[id].status == Funded {
        FundedIsOk(s, id);
      }
      var _ :- RecordPayment(id, invoices.invoices[id].business, amount, transactionId);
      RecordKeepsParts(s, id, amount, transactionId);
      var invoice := invoices.invoices[id];
      r := Ok(());
      if invoice.totalPaid >= invoice.amount {
        r := SettleInternal(id);
      }
    }

    method ProcessPartialPayment(id: InvoiceId, amount: i128, transactionId: string) returns (r: Result<()>)
      requires Valid()
      modifies this, invoices, bids, escrows, investments, settlements
      ensures Valid()
      ensures Guarded(old(locked), old(Snapshot()), Protocol.ProcessPartialPayment(old(Snapshot()), id, amount, transactionId), r)
      ensures r.Ok? && (transactionId == "" || (id, transactionId) !in old(settlements.nonces)) ==>
        PaidInto(old(Snapshot()), Snapshot(), id, amount, transactionId)
    {
      hide Inv, Structure, Logs, StepOf, PaidInto, Protocol.ProcessPartialPayment;
      ghost var s := Snapshot();
      if locked {
        return Err(OperationNotAllowed);
      }
      var saved := Save();
      locked := true;
      r := PartialPaymentBody(id, amount, transactionId);
      locked := false;
      if r.Err? {
        Rollback(saved);
      } else {
        ghost var c := Context(s.now, s.fee, None);
        PartialPaymentStep(c, s, id, amount, transactionId);
        StepKeeps(c, s, Snapshot());
        if transactionId == "" || (id, transactionId) !in s.nonces {
          PaysWhatIsOffered(s, id, amount, transactionId);
        }
      }
    }

    method SettleBody(id: InvoiceId, amount: i128) returns (r: Result<()>)
      requires Valid()
      modifies this`ledger, escrows, settlements, invoices, investments
      ensures Matches(Protocol.SettleInvoice(old(Snapshot()), id, amount), r)
    {
      hide Inv, Logs, Finalize, SlideHistory;
      ghost var s := Snapshot();
      if amount <= 0 {
        return Err(InvalidAmount);
      }
      if id in settlements.finalized {
        return Err(InvalidStatus);
      }
      if id !in invoices.invoices {
        return Err(InvoiceNotFound);
      }
      var invoice := invoices.invoices[id];
      if invoice.status != Funded {
        return Err(InvalidStatus);
      }
      FundedIsOk(s, id);
      if amount > invoice.amount - invoice.totalPaid {
        return Err(InvalidAmount);
      }
      var projected := invoice.totalPaid + amount;
      var found := investments.Find(id);
      if found.None? {
        return Err(StorageKeyNotFound);
      }
      if projected < invoice.amount || projected < found.value.1.amount {
        return Err(PaymentTooLow);
      }
      var _ :- RecordPayment(id, invoice.business, amount, SETTLEMENT_NONCE);
      RecordKeepsParts(s, id, amount, SETTLEMENT_NONCE);
      r := SettleInternal(id);
    }

    method SettleInvoice(id: InvoiceId, amount: i128) returns (r: Result<()>)
      requires Valid()
      modifies this, invoices, bids, escrows, investments, settlements
      ensures Valid()
      ensures Guarded(old(locked), old(Snapshot()), Protocol.SettleInvoice(old(Snapshot()), id, amount), r)
      ensures r.Ok? ==> PaidInto(old(Snapshot()), Snapshot(), id, amount, "settlement")
    {
      hide Inv, Structure, Logs, StepOf, PaidInto, Protocol.SettleInvoice;
      ghost var s := Snapshot();
      if locked {
        return Err(OperationNotAllowed);
      }
      var saved := Save();
      locked := true;
      r := SettleBody(id, amount);
      locked := false;
      if r.Err? {
        Rollback(saved);
      } else {
        ghost var c := Context(s.now, s.fee, None);
        SettleStep(c, s, id, amount);
        StepKeeps(c, s, Snapshot());
        SettlesWhatIsOwed(s, id, amount);
      }
    }

    /* ---- entry points: funding ---- */

    /** The state updates of `accept_bid_and_fund` once the escrow is created. */
    method RecordFunding(id: InvoiceId, bid: Bid)
      requires bid.id in bids.bids && bids.bids[bid.id] == bid && id in invoices.invoices
      requires invoices.invoices[id].status == Verified && id in ListOf(invoices.lists, Verified)
          && NoDup(ListOf(invoices.lists, Verified))
      modifies bids, invoices`invoices, invoices`lists, investments
      ensures bids.Contents() == SetStatus(old(bids.Contents()), bid.id, Accepted)
      ensures invoices.invoices == old(invoices.invoices)[id := MarkFunded(old(invoices.invoices)[id], bid.investor, bid.amount, now)]
      ensures invoices.lists == Relist(old(invoices.lists), id, Verified, Funded)
      ensures investments.count == old(investments.count) + 1
      ensures investments.investments == old(investments.investments)[investments.count := Investment(id, bid.investor,
          bid.amount, now, Active, [])]
      ensures investments.investmentOf == old(investments.investmentOf)[id := investments.count]
      ensures investments.active == AddUnique(old(investments.active), investments.count)
    {
      hide Logs, Relist, Moved, Added, Removed, AddUnique;
      ListedOnce(invoices.lists, id, Verified, Funded);
      bids.UpdateBid(bid.(status := Accepted));
      invoices.RemoveFromStatus(Verified, id);
      invoices.Update(id, MarkFunded(invoices.invoices[id], bid.investor, bid.amount, now));
      invoices.AddToStatus(Funded, id);
      var _ := investments.Add(Investment(id, bid.investor, bid.amount, now, Active, []));
    }

    /** `load_accept_bid_context`: every check before any funds move. */
    method LoadAcceptBidContext(id: InvoiceId, k: BidId, kyc: Option<Error>) returns (r: Result<(Invoice, Bid)>)
      requires Valid()
      modifies bids
      ensures bids.Contents() == RefreshInvoice(old(bids.Contents()), now, id)
      ensures match r
        case Err(e) => Protocol.AcceptBidAndFund(old(Snapshot()), id, k, kyc) == Err(e)
        case Ok((invoice, bid)) =>
          && id in invoices.invoices && invoices.invoices[id] == invoice && invoice.status == Verified && kyc.None?
          && k in bids.bids && bids.bids[k] == bid && bid.id == k && bid.invoice == id && bid.status == Placed
          && id !in escrows.escrowOf && id in ListOf(invoices.lists, Verified) && NoDup(ListOf(invoices.lists, Verified))
    {
      hide Inv, Logs, RefreshInvoice, Transfer, FundedState, BookOk, BidsFit;
      ghost var s := Snapshot();
      BookInOrder(s);
      PlacedFacts(s.book, now, id, k);
      var _ := bids.RefreshExpiredBids(now, id);
      if id !in invoices.invoices {
        return Err(InvoiceNotFound);
      }
      if kyc.Some? {
        return Err(kyc.value);
      }
      var invoice := invoices.invoices[id];
      if invoice.status == Funded {
        return Err(InvoiceAlreadyFunded);
      }
      if invoice.status == Verified {
        VerifiedFacts(s, id);
      }
      if !(invoice.status == Verified && invoice.fundedAmount == 0 && invoice.fundedAt.None? && invoice.investor.None?) {
        return Err(InvoiceNotAvailableForFunding);
      }
      if escrows.Find(id).Some? || investments.Find(id).Some? {
        return Err(InvalidStatus);
      }
      if k !in bids.bids {
        return Err(StorageKeyNotFound);
      }
      var bid := bids.bids[k];
      if bid.invoice != id {
        return Err(Unauthorized);
      }
      if bid.status != Placed || IsExpired(bid, now) {
        return Err(InvalidStatus);
      }
      if bid.amount <= 0 {
        return Err(InvalidAmount);
      }
      r := Ok((invoice, bid));
    }

    method AcceptBody(id: InvoiceId, k: BidId, kyc: Option<Error>) returns (r: Result<EscrowId>)
      requires Valid()
      modifies this`ledger, escrows, bids, invoices, investments
      ensures Matches(Protocol.AcceptBidAndFund(old(Snapshot()), id, k, kyc), r)
    {
      hide Inv, Logs, RefreshInvoice, Transfer, Relist, FundedState, SetStatus;
      ghost var s := Snapshot();
      var loaded :- LoadAcceptBidContext(id, k, kyc);
      var (invoice, bid) := loaded;
      var e :- CreateEscrow(id, bid.investor, invoice.business, bid.amount, invoice.currency);
      RecordFunding(id, bid);
      r := Ok(e);
      FundedByFields(s.(book := RefreshInvoice(s.book, s.now, id)), id, k, ledger, Snapshot());
    }

    method AcceptBidAndFund(id: InvoiceId, k: BidId, kyc: Option<Error>) returns (r: Result<EscrowId>)
      requires Valid()
      modifies this, invoices, bids, escrows, investments, settlements
      ensures Valid()
      ensures Guarded(old(locked), old(Snapshot()), Protocol.AcceptBidAndFund(old(Snapshot()), id, k, kyc), r)
    {
      hide Inv, Structure, Logs, StepOf, Protocol.AcceptBidAndFund;
      ghost var s := Snapshot();
      if locked {
        return Err(OperationNotAllowed);
      }
      var saved := Save();
      locked := true;
      r := AcceptBody(id, k, kyc);
      locked := false;
      if r.Err? {
        Rollback(saved);
      } else {
        ghost var c := Context(s.now, s.fee, None);
        AcceptStep(c, s, id, k, kyc);
        StepKeeps(c, s, Snapshot());
      }
    }

    /* ---- entry points: bids ---- */

    /** Whether the investor already has a live bid on the invoice. */
    method HasLiveBid(id: InvoiceId, investor: Address) returns (found: bool)
      requires BookOk(bids.Contents())
      ensures found <==> exists k :: k in PlacedOn(bids.Contents(), id) && bids.bids[k].investor == investor
    {
      hide BookOk, PlacedOn;
      var ids := IdsOf(bids.byInvoice, id);
      forall k ensures k in PlacedOn(bids.Contents(), id) <==> k in ids && k in bids.bids && bids.bids[k].status == Placed {
        PlacedAreListed(bids.Contents(), id, k);
      }
      found := false;
      for i := 0 to |ids|
        invariant found <==> exists j :: (0 <= j < i && ids[j] in bids.bids
                                          && bids.bids[ids[j]].status == Placed && bids.bids[ids[j]].investor == investor)
      {
        if ids[i] in bids.bids && bids.bids[ids[i]].investor == investor && bids.bids[ids[i]].status == Placed {
          found := true;
        }
      }
    }

    /** `validate_bid`. */
    method ValidateBid(id: InvoiceId, amount: i128, expectedReturn: i128, investor: Address,
                       terms: BidTerms) returns (r: Result<()>)
      requires id in invoices.invoices && invoices.invoices[id].status == Verified && amount > 0
      requires BookOk(bids.Contents())
      modifies bids
      ensures match BidRefusal(now, invoices.invoices[id], investor, amount, expectedReturn, terms)
        case Some(e) => r == Err(e)
        case None =>
          && bids.Contents() == RefreshInvoice(old(bids.Contents()), now, id)
          && (r == Err(OperationNotAllowed) || r == Ok(()))
          && (r.Err? <==> exists k :: k in PlacedOn(bids.Contents(), id) && bids.bids[k].investor == investor)
    {
      hide BookOk, RefreshInvoice, PlacedOn, Logs;
      var invoice := invoices.invoices[id];
      if now >= invoice.dueDate {
        return Err(InvalidStatus);
      }
      if invoice.business == investor {
        return Err(Unauthorized);
      }
      var percentMin := SatMul(invoice.amount, terms.minBps) / 10_000;
      var effectiveMin := if percentMin > terms.minAmount then percentMin else terms.minAmount;
      if amount < effectiveMin {
        return Err(InvalidAmount);
      }
      if amount > invoice.amount {
        return Err(InvoiceAmountInvalid);
      }
      if expectedReturn <= amount {
        return Err(InvalidAmount);
      }
      if terms.eligible.Some? {
        return Err(terms.eligible.value);
      }
      RefreshedInOrder(bids.Contents(), now, id);
      var _ := bids.RefreshExpiredBids(now, id);
      var found := HasLiveBid(id, investor);
      r := if found then Err(OperationNotAllowed) else Ok(());
    }

    /** The caps on live bids, per invoice and per investor, each behind its own cleanup. */
    method CheckBidLimits(investor: Address, id: InvoiceId, maxActive: nat) returns (r: Result<()>)
      requires BookOk(bids.Contents())
      modifies bids
      ensures var b1 := RefreshInvoice(old(bids.Contents()), now, id);
        var b2 := if maxActive > 0 then RefreshInvestor(b1, now, investor) else b1;
        if |PlacedOn(b1, id)| >= MAX_BIDS_PER_INVOICE then r == Err(MaxBidsPerInvoiceExceeded)
        else if maxActive > 0 && |PlacedBy(b2, investor)| >= maxActive then r == Err(OperationNotAllowed)
        else r.Ok? && bids.Contents() == b2 && BookOk(b2)
    {
      hide BookOk, RefreshInvoice, RefreshInvestor, PlacedOn, PlacedBy, PlacedIds;
      PlacingFacts(bids.Contents(), now, investor, id);
      var _ := bids.RefreshExpiredBids(now, id);
      var onInvoice := bids.GetActiveBidCount(now, id);
      if onInvoice >= MAX_BIDS_PER_INVOICE {
        return Err(MaxBidsPerInvoiceExceeded);
      }
      if maxActive > 0 {
        var byInvestor := bids.CountActivePlacedBidsForInvestor(now, investor);
        if byInvestor >= maxActive {
          return Err(OperationNotAllowed);
        }
      }
      r := Ok(());
    }

    method PlaceBidBody(investor: Address, id: InvoiceId, amount: i128, expectedReturn: i128,
                        terms: BidTerms) returns (r: Result<BidId>)
      requires Valid()
      modifies bids
      ensures Matches(Protocol.PlaceBid(old(Snapshot()), investor, id, amount, expectedReturn, terms), r)
    {
      hide Inv, Logs, BookOk, BidsFit, RefreshInvoice, RefreshInvestor, PlacedOn, PlacedBy, PlacedIds, Place,
           BidRefusal;
      ghost var s := Snapshot();
      if amount <= 0 {
        return Err(InvalidAmount);
      }
      if id !in invoices.invoices {
        return Err(InvoiceNotFound);
      }
      if invoices.invoices[id].status != Verified {
        return Err(InvalidStatus);
      }
      if terms.gate.Some? {
        return Err(terms.gate.value);
      }
      BookInOrder(s);
      var _ :- CheckBidLimits(investor, id, terms.maxActive);
      var _ :- ValidateBid(id, amount, expectedReturn, investor, terms);
      var k := bids.PlaceNew(id, investor, amount, expectedReturn, now, SatAdd64(now,
          Min(terms.ttlDays * SECONDS_PER_DAY, U64_MAX)));
      r := Ok(k);
    }

    method PlaceBid(investor: Address, id: InvoiceId, amount: i128, expectedReturn: i128,
                    terms: BidTerms) returns (r: Result<BidId>)
      requires Valid() && investor != SELF
      modifies this, invoices, bids, escrows, investments, settlements
      ensures Valid() && locked == old(locked)
      ensures Outcome(old(Snapshot()), Protocol.PlaceBid(old(Snapshot()), investor, id, amount, expectedReturn, terms), r)
    {
      hide Inv, Structure, Logs, StepOf, Protocol.PlaceBid;
      ghost var s := Snapshot();
      var saved := Save();
      r := PlaceBidBody(investor, id, amount, expectedReturn, terms);
      if r.Err? {
        Rollback(saved);
      } else {
        ghost var c := Context(s.now, s.fee, None);
        PlaceBidStep(c, s, investor, id, amount, expectedReturn, terms);
        StepKeeps(c, s, Snapshot());
      }
    }

    method WithdrawBid(k: BidId, kyc: Option<Error>) returns (r: Result<()>)
      requires Valid()
      modifies bids
      ensures Valid()
      ensures Outcome(old(Snapshot()), Protocol.WithdrawBid(old(Snapshot()), k, kyc), r)
    {
      hide Inv, Structure, Logs, StepOf;
      ghost var s := Snapshot();
      if k !in bids.bids {
        return Err(StorageKeyNotFound);
      }
      if kyc.Some? {
        return Err(kyc.value);
      }
      var bid := bids.bids[k];
      if bid.status != Placed {
        return Err(OperationNotAllowed);
      }
      StoredUnderId(s, k);
      bids.UpdateBid(bid.(status := BidStatus.Withdrawn));
      r := Ok(());
      ghost var c := Context(s.now, s.fee, None);
      EndBidStep(c, s, k, BidStatus.Withdrawn);
      StepKeeps(c, s, Snapshot());
    }

    method CancelBid(k: BidId) returns (done: bool)
      requires Valid()
      modifies bids
      ensures Valid() && Snapshot() == Protocol.CancelBid(old(Snapshot()), k)
      ensures done <==> k in old(bids.bids) && old(bids.bids)[k].status == Placed
    {
      hide Inv, Structure, Logs, StepOf;
      ghost var s := Snapshot();
      done := bids.CancelBid(k);
      if done {
        ghost var c := Context(s.now, s.fee, None);
        EndBidStep(c, s, k, BidStatus.Cancelled);
        StepKeeps(c, s, Snapshot());
      }
    }

    method CleanupExpiredBids(id: InvoiceId) returns (cleaned: nat)
      requires Valid()
      modifies bids
      ensures Valid() && Snapshot() == old(Snapshot()).(book := RefreshInvoice(old(Snapshot()).book, now, id))
      ensures cleaned == Cleaned(old(Snapshot()).book, now, id)
    {
      hide Inv, Structure, Logs, StepOf, RefreshInvoice;
      ghost var s := Snapshot();
      cleaned := bids.RefreshExpiredBids(now, id);
      ghost var c := Context(s.now, s.fee, None);
      CleanupStep(c, s, id);
      StepKeeps(c, s, Snapshot());
    }

    /* ---- entry points: insurance ---- */

    method AddInvestmentInsurance(v: InvestmentId, provider: Address, percentage: u32) returns (r: Result<i128>)
      requires Valid()
      modifies investments
      ensures Valid()
      ensures Outcome(old(Snapshot()), Protocol.AddInvestmentInsurance(old(Snapshot()), v, provider, percentage), r)
    {
      hide Inv, Structure, Logs, StepOf, WithPolicy, CalculatePremium;
      ghost var s := Snapshot();
      if v !in investments.investments {
        return Err(StorageKeyNotFound);
      }
      var investment := investments.investments[v];
      if investment.status != Active {
        return Err(InvalidStatus);
      }
      var premium := CalculatePremium(investment.amount, percentage);
      if premium <= 0 {
        return Err(InvalidAmount);
      }
      InvestmentFacts(s, v);
      var insured := new InsuredInvestment(investment.amount, investment.insurance);
      var cover :- insured.AddInsurance(provider, percentage, premium);
      var stored := investments.Update(v, investment.(insurance := insured.insurance));
      r := Ok(cover);
      ghost var c := Context(s.now, s.fee, None);
      InsureStep(c, s, v, provider, percentage);
      StepKeeps(c, s, Snapshot());
    }

    /* ---- entry points: defaults ---- */

    /** `handle_default`. */
    method DefaultBody(id: InvoiceId) returns (r: Result<()>)
      requires id in invoices.invoices && invoices.invoices[id].status == Funded ==> Closable(Snapshot(), id)
      requires id in invoices.invoices && invoices.invoices[id].status == InvoiceStatus.Defaulted ==> id in guards
      modifies this`guards, invoices, investments
      ensures Matches(HandleDefault(old(Snapshot()), id), r)
    {
      hide Logs, Relist, Moved, Added, Removed;
      if id in guards {
        return Err(DuplicateDefaultTransition);
      }
      guards := guards + {id};
      if id !in invoices.invoices {
        return Err(InvoiceNotFound);
      }
      var invoice := invoices.invoices[id];
      if invoice.status == InvoiceStatus.Defaulted {
        return Err(InvoiceAlreadyDefaulted);
      }
      if invoice.status != Funded {
        return Err(InvalidStatus);
      }
      r := CloseAsDefaulted(id);
    }

    /** Relist the invoice, claim its insurance, and close its investment. */
    method CloseAsDefaulted(id: InvoiceId) returns (r: Result<()>)
      requires Closable(Snapshot(), id)
      modifies invoices, investments
      ensures r.Ok?
      ensures var s, i := old(Snapshot()), old(InvestmentFor(Snapshot(), id));
        Snapshot() == CloseInvestment(WithInvoice(s, id, s.invoices[id].(status := InvoiceStatus.Defaulted)), id,
                                      InvestmentStatus.Defaulted, Deactivate(i.insurance))
    {
      hide Logs, Relist, Moved, Added, Removed, Deactivate;
      var v := investments.investmentOf[id];
      var investment := investments.investments[v];
      ListedOnce(invoices.lists, id, Funded, InvoiceStatus.Defaulted);
      invoices.RemoveFromStatus(Funded, id);
      invoices.Update(id, invoices.invoices[id].(status := InvoiceStatus.Defaulted));
      invoices.AddToStatus(InvoiceStatus.Defaulted, id);
      var insured := new InsuredInvestment(0, investment.insurance);
      var _ := insured.ProcessAllInsuranceClaims();
      r := investments.Update(v, investment.(status := InvestmentStatus.Defaulted, insurance := insured.insurance));
    }

    method ResolveGracePeriod(grace: Option<u64>, configured: u64) returns (r: Result<u64>)
      ensures r == ResolveGrace(grace, configured)
    {
      if grace.Some? {
        if grace.value > MAX_GRACE_PERIOD {
          return Err(InvalidTimestamp);
        }
        return Ok(grace.value);
      }
      r := Ok(configured);
    }

    method MarkInvoiceDefaulted(id: InvoiceId, grace: Option<u64>, configured: u64) returns (r: Result<()>)
      requires Valid()
      modifies this, invoices, bids, escrows, investments, settlements
      ensures Valid() && locked == old(locked)
      ensures Outcome(old(Snapshot()), Protocol.MarkInvoiceDefaulted(old(Snapshot()), id, grace, configured), r)
      ensures r.Ok? <==> CanDefault(old(Snapshot()), id, grace, configured)
    {
      hide Inv, Structure, Logs, StepOf, HandleDefault, CanDefault;
      ghost var s := Snapshot();
      DefaultIff(s, id, grace, configured);
      if id !in invoices.invoices {
        return Err(InvoiceNotFound);
      }
      var invoice := invoices.invoices[id];
      if invoice.status == InvoiceStatus.Defaulted {
        return Err(InvoiceAlreadyDefaulted);
      }
      if invoice.status != Funded {
        return Err(InvoiceNotAvailableForFunding);
      }
      var g :- ResolveGracePeriod(grace, configured);
      if now <= GraceDeadline(invoice, g) {
        return Err(OperationNotAllowed);
      }
      FundedIsOk(s, id);
      var saved := Save();
      r := DefaultBody(id);
      if r.Err? {
        Rollback(saved);
      } else {
        ghost var c := Context(s.now, s.fee, Some(g));
        DefaultStep(c, s, id, g);
        StepKeeps(c, s, Snapshot());
      }
    }

    /**
      `check_and_handle_expiration`, on the invoice as it is stored; says whether it was defaulted, or is at
      least overdue.
     */
    method CheckAndHandleExpiration(id: InvoiceId, grace: u64) returns (r: Result<bool>)
      requires Valid() && id in invoices.invoices
      modifies this`guards, invoices, investments
      ensures r.Ok? && Valid()
      ensures Due(old(Snapshot()), id, grace) ==> HandleDefault(old(Snapshot()), id) == Ok(Snapshot())
      ensures !Due(old(Snapshot()), id, grace) ==> Snapshot() == old(Snapshot())
      ensures r.value <==> now > GraceDeadline(old(invoices.invoices)[id], grace)
    {
      hide Inv, Structure, Logs, StepOf, HandleDefault;
      ghost var s := Snapshot();
      TimeBound(s);
      var invoice := invoices.invoices[id];
      if now <= GraceDeadline(invoice, grace) {
        return Ok(false);
      }
      if invoice.status == Funded {
        FundedIsOk(s, id);
        DefaultSucceeds(s, id);
        var done := DefaultBody(id);
        ghost var c := Context(s.now, s.fee, Some(grace));
        DefaultStep(c, s, id, grace);
        StepKeeps(c, s, Snapshot());
        return done.With(true);
      }
      r := Ok(now > invoice.dueDate);
    }

    method CheckInvoiceExpiration(id: InvoiceId, grace: Option<u64>, configured: u64) returns (r: Result<bool>)
      requires Valid()
      modifies this`guards, invoices, investments
      ensures Valid()
      ensures Outcome(old(Snapshot()), Protocol.CheckInvoiceExpiration(old(Snapshot()), id, grace, configured), r)
    {
      hide Inv, Structure, Logs, HandleDefault, GraceDeadline;
      if id !in invoices.invoices {
        return Err(InvoiceNotFound);
      }
      var g :- ResolveGracePeriod(grace, configured);
      r := CheckAndHandleExpiration(id, g);
    }

    /** One iteration of the scan; says whether the invoice is past its due date. */
    method ScanOne(id: InvoiceId, grace: u64) returns (overdue: bool)
      requires Valid() && id in invoices.invoices
      modifies this`guards, invoices, investments
      ensures Valid() && invoices.invoices.Keys == old(invoices.invoices.Keys)
      ensures forall j :: j in invoices.invoices ==> invoices.invoices[j].dueDate == old(invoices.invoices)[j].dueDate
      ensures Due(old(Snapshot()), id, grace) ==> HandleDefault(old(Snapshot()), id) == Ok(Snapshot())
      ensures !Due(old(Snapshot()), id, grace) ==> Snapshot() == old(Snapshot())
      ensures overdue <==> now > old(invoices.invoices)[id].dueDate
    {
      hide Inv, Logs, HandleDefault;
      var invoice := invoices.invoices[id];
      overdue := now > invoice.dueDate;
      DefaultKeepsShape(Snapshot(), id);
      if now > GraceDeadline(invoice, grace) {
        var _ := CheckAndHandleExpiration(id, grace);
      }
    }

    /** The loop of the scan: `scanLimit` entries of the snapshot `funded`, from `start`, wrapping at its end. */
    method ScanWindow(funded: seq<InvoiceId>, start: nat, scanLimit: nat, grace: u64) returns (overdue: nat,
                      position: nat)
      requires Valid() && start < |funded| && 1 <= scanLimit && funded == ListOf(invoices.lists, Funded)
      modifies this`guards, invoices, investments
      ensures Valid() && position == OverdueScan.Advance(start, |funded|, scanLimit)
      ensures DefaultEach(old(Snapshot()), OverdueScan.Window(funded, start, scanLimit), grace) == Ok(Snapshot())
      ensures overdue == LateCount(old(Snapshot()), OverdueScan.Window(funded, start, scanLimit))
    {
      hide Inv, Logs, HandleDefault, GraceDeadline, Due;
      ghost var s := Snapshot();
      ghost var ids := OverdueScan.Window(funded, start, scanLimit);
      FundedAreStored(s);
      OverdueScan.WindowAt(funded, start, scanLimit, 0);
      position, overdue := start, 0;
      for scanned := 0 to scanLimit
        invariant position < |funded| && position == OverdueScan.Advance(start, |funded|, scanned)
        invariant DefaultEach(s, ids[..scanned], grace) == Ok(Snapshot()) && Valid() && invoices.invoices.Keys == s.invoices.Keys
        invariant forall j :: j in s.invoices ==> invoices.invoices[j].dueDate == s.invoices[j].dueDate
        invariant overdue == LateCount(s, ids[..scanned])
      {
        OverdueScan.WindowAt(funded, start, scanLimit, scanned);
        OverdueScan.AdvanceOne(start, |funded|, scanned);
        assert ids[..scanned + 1][..scanned] == ids[..scanned];
        var late := ScanOne(funded[position], grace);
        if late {
          overdue := overdue + 1;
        }
        position := if position + 1 >= |funded| then 0 else position + 1;
      }
      assert ids[..scanLimit] == ids;
    }

    /** `scan_funded_invoice_expirations`: it never fails, and reports what it inspected. */
    method ScanFundedInvoiceExpirations(grace: u64, limit: Option<u32>) returns (r: Result<OverdueScanResult>)
      requires Valid()
      modifies this`guards, this`cursor, invoices, investments
      ensures Valid()
      ensures r.Ok? && Outcome(old(Snapshot()), ScanFunded(old(Snapshot()), grace, limit), r)
      ensures r.value.totalFunded == |ListOf(old(invoices.lists), Funded)| && r.value.nextCursor == cursor
      ensures r.value.overdue == LateCount(old(Snapshot()), OverdueScan.Visited(ScanView(old(Snapshot())),
          OverdueScan.ResolveLimit(limit)))
      ensures r.value.scanned == Min(OverdueScan.ResolveLimit(limit), r.value.totalFunded)
    {
      hide Inv, Logs, StepOf, DefaultEach, LateCount, OverdueScan.Window, OverdueScan.Advance;
      ghost var s := Snapshot();
      ScanKeeps(s, grace, limit);
      var funded := ListOf(invoices.lists, Funded);
      if |funded| == 0 {
        DefaultNone(s, grace);
        cursor := 0;
        return Ok(OverdueScanResult(0, 0, 0, 0));
      }
      var scanLimit := Min(OverdueScan.ResolveLimit(limit), |funded|);
      var overdue, position := ScanWindow(funded, OverdueScan.NormalizeCursor(cursor, |funded|), scanLimit, grace);
      cursor := if scanLimit >= |funded| then 0 else position;
      r := Ok(OverdueScanResult(overdue, scanLimit, |funded|, cursor));
    }

    /* ---- configuration and time ---- */

    method ConfigureFee(config: FeeConfig) returns (r: Result<()>)
      requires Valid()
      modifies this`fee
      ensures Valid() && Outcome(old(Snapshot()), SetFee(old(Snapshot()), config), r)
    {
      hide Inv, Logs, StepOf, AdmissibleFee;
      ghost var s := Snapshot();
      if config.bps > MAX_PLATFORM_FEE_BPS {
        return Err(InvalidFeeBasisPoints);
      }
      fee := Some(config);
      r := Ok(());
      ghost var c := Context(s.now, s.fee, None);
      FeeStep(c, s, config);
      StepKeeps(c, s, Snapshot());
    }

    /** The ledger closes: its time moves on. */
    method AdvanceTime(seconds: nat)
      requires Valid()
      modifies this`now
      ensures Valid() && Snapshot() == old(Snapshot()).(now := SatAdd64(old(now), seconds))
    {
      hide Inv, Structure, Logs, StepOf, AdmissibleFee;
      ghost var s := Snapshot();
      now := SatAdd64(now, seconds);
      TimeBound(s);
      InvStructure(s);
      ghost var c := Context(s.now, s.fee, None);
      QuietStep(c, s, now, s.fee);
      StepKeeps(c, s, Snapshot());
    }
  }
}
