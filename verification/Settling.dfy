/** Exactly when paying and settling succeed. */
module Settling {
  import opened Base
  import opened Token
  import opened BidBook
  import opened SettlementSplit
  import opened Insurance
  import opened Protocol
  import opened Coherence
  import opened Local
  import opened Frames
  import opened Simulation
  import opened Runs
  import opened Replays

  /** What the business has to find at settlement: the whole amount, less a fee that would come back to it. */
  function Owed(s: State, invoice: Invoice, invested: int): int {
    var split := SplitFor(s.fee, invested, invoice.amount);
    split.investorReturn + if FeeRecipient(s.fee) == invoice.business then 0 else split.platformFee
  }

  /** The business can pay at settlement, counting on the escrow that is released to it first. */
  predicate Affordable(s: State, id: InvoiceId)
    requires id in s.invoices && HasEscrow(s, id)
  {
    var invoice, e := s.invoices[id], EscrowFor(s, id);
    var owed := Owed(s, invoice, e.amount);
    && Allowance(s.ledger, e.currency, invoice.business) >= owed
    && Balance(s.ledger, e.currency, invoice.business) + (if e.status == Held then e.amount else 0) >= owed
  }

  lemma PaySplitSucceeds(l: Ledger, id: InvoiceId, c: Address, business: Address, investor: Address, split: Split,
                         recipient: Address)
    requires business != SELF && investor != business && split.investorReturn > 0 && split.platformFee >= 0
    ensures var owed := split.investorReturn + if recipient == business then 0 else split.platformFee;
      PaySplit(l, id, c, business, investor, split, recipient).Ok?
      <==> Balance(l, c, business) >= owed && Allowance(l, c, business) >= owed
  {
  }

  /** Paying out a Held escrow, to either side, never fails for lack of funds; a release hands the business its amount. */
  lemma PayOutSucceeds(s: State, id: InvoiceId, after: EscrowStatus)
    requires Structure(s) && HasEscrow(s, id) && EscrowFor(s, id).status == Held && EscrowFor(s, id).amount > 0
    ensures PayOutEscrow(s, id, after).Ok?
    ensures after == Released && EscrowFor(s, id).business != SELF ==>
      var e, l := EscrowFor(s, id), PayOutEscrow(s, id, Released).value.ledger;
      && Balance(l, e.currency, e.business) == Balance(s.ledger, e.currency, e.business) + e.amount
      && Allowance(l, e.currency, e.business) == Allowance(s.ledger, e.currency, e.business)
  {
    hide BookOk, BidsFit, ListsOk, ActiveOk, InvestmentsOk, NoTrace, HeldSum;
    var e := EscrowFor(s, id);
    HeldSumCovers(s.escrows, s.escrowCount, e.currency, s.escrowOf[id]);
  }

  lemma ReturnIsPositive(fee: Option<FeeConfig>, invested: int, amount: int)
    requires AdmissibleFee(fee) && 0 < invested <= amount <= I128_MAX
    ensures var split := SplitFor(fee, invested, amount);
      split.investorReturn > 0 && split.platformFee >= 0 && split.investorReturn + split.platformFee == amount
  {
    hide SplitFor;
    SplitConserves(fee, invested, amount);
  }

  /** A fully paid invoice can be finalized if and only if the business can pay. */
  lemma FinalizeSucceeds(s: State, id: InvoiceId)
    requires Structure(s) && id in s.invoices && s.invoices[id].status == Funded && s.invoices[id].amount <= I128_MAX
    requires FundedOnce(SliceOf(s, id)) && s.invoices[id].business != SELF && s.invoices[id].totalPaid == s.invoices[id].amount
    requires HasEscrow(s, id) && EscrowFor(s, id).status != EscrowStatus.Refunded
    ensures Finalize(s, id).Ok? <==> Affordable(s, id)
  {
    hide PaySplit, SplitFor, FeeRecipient, Transfer, PayOutEscrow, PaidState, BookOk, BidsFit, ListsOk, ActiveOk,
         Custody, EscrowsOk, InvestmentsOk, NoTrace,
         Sound, AcceptedOn, NoncesOf, MovesOf, Balance, Allowance;
    Parties(s, id);
    var invoice, e := s.invoices[id], EscrowFor(s, id);
    assert e.amount <= invoice.amount;
    ReturnIsPositive(s.fee, e.amount, invoice.amount);
    if e.status == Held {
      PayOutSucceeds(s, id, Released);
    }
    var l := if e.status == Held then PayOutEscrow(s, id, Released).value.ledger else s.ledger;
    PaySplitSucceeds(l, id, invoice.currency, invoice.business, e.investor, SplitFor(s.fee, e.amount, invoice.amount),
        FeeRecipient(s.fee));
  }

  /** A new payment record fits: there is room in the log, and the progress report does not overflow. */
  predicate RoomFor(s: State, id: InvoiceId, total: int) {
    |PaymentsOf(s, id)| < 1_000 && total * 100 <= I128_MAX
  }

  /** Once a record brings the total to the amount, finalizing succeeds if and only if the business can pay. */
  lemma CompletingSucceeds(s: State, id: InvoiceId, p: Payment)
    requires Inv(s) && id in s.invoices && s.invoices[id].status == Funded
    requires s.invoices[id].totalPaid + p.amount == s.invoices[id].amount
    ensures HasEscrow(s, id)
    ensures Finalize(RecordedState(s, id, p), id).Ok? <==> Affordable(s, id)
  {
    hide Structure, Finalize, Owed, StatusFixesRest, PaymentsOk, MovesOk, FundedOnce, AcceptedOn, NoncesOf, MovesOf,
         SlideHistory;
    var s1 := RecordedState(s, id, p);
    assert Coherent(id, SliceOf(s, id));
    InvStructure(s);
    RecordBlock(s, id, p);
    RecordedParties(s, id, p);
    CreditedTerms(s.invoices[id], p);
    FinalizeSucceeds(s1, id);
    assert Owed(s1, s1.invoices[id], EscrowFor(s1, id).amount) == Owed(s, s.invoices[id], EscrowFor(s, id).amount) by {
      OwedByTerms(s, s1, s.invoices[id], s1.invoices[id], EscrowFor(s, id).amount);
    }
  }

  lemma OwedByTerms(s: State, s1: State, invoice: Invoice, invoice1: Invoice, invested: int)
    requires s1.fee == s.fee && SameTerms(invoice, invoice1)
    ensures Owed(s1, invoice1, invested) == Owed(s, invoice, invested)
  {
    hide SplitFor, FeeRecipient;
  }

  lemma FundedHasEscrow(s: State, id: InvoiceId)
    requires Inv(s) && id in s.invoices && s.invoices[id].status == Funded
    ensures HasEscrow(s, id) && HasInvestment(s, id) && id !in s.finalized
    ensures 0 <= s.invoices[id].totalPaid < s.invoices[id].amount
  {
    hide Structure, LogOk, MovesOk, Total, LastInline, AcceptedOn, NoncesOf, MovesOf, FundedBy, Sound;
    assert Coherent(id, SliceOf(s, id));
  }

  /**
    `settle_invoice` succeeds if and only if the invoice is Funded, the payment is exactly what is
    still due, no earlier payment used the reserved transaction id, the log has room, the amount
    can be scaled to a percentage, and the business can pay.
   */
  ghost predicate CanSettle(s: State, id: InvoiceId, amount: int) {
    && id in s.invoices && s.invoices[id].status == Funded
    && amount == s.invoices[id].amount - s.invoices[id].totalPaid
    && (id, SETTLEMENT_NONCE) !in s.nonces
    && RoomFor(s, id, s.invoices[id].amount)
    && HasEscrow(s, id) && Affordable(s, id)
  }

  lemma SettleIff(s: State, id: InvoiceId, amount: i128)
    requires Inv(s)
    ensures SettleInvoice(s, id, amount).Ok? <==> CanSettle(s, id, amount)
  {
    hide Inv, Finalize, Affordable, SlideHistory, RecordedState;
    if id in s.invoices && s.invoices[id].status == Funded {
      FundedHasEscrow(s, id);
      if (id, SETTLEMENT_NONCE) in s.nonces {
        FinalizeTooEarly(s, id);
      }
      var p := NextPayment(s, id, amount, SETTLEMENT_NONCE);
      if amount == s.invoices[id].amount - s.invoices[id].totalPaid {
        CompletingSucceeds(s, id, p);
      }
    }
  }

  lemma SettleSucceedsIff(g: Genesis, actions: seq<Action>, id: InvoiceId, amount: i128)
    requires Legal(actions)
    ensures SettleInvoice(Reached(g, actions), id, amount).Ok? <==> CanSettle(Reached(g, actions), id, amount)
  {
    hide Inv, Reached, SettleInvoice, CanSettle;
    ReachedInv(g, actions);
    SettleIff(Reached(g, actions), id, amount);
  }

  lemma FinalizeTooEarly(s: State, id: InvoiceId)
    requires id in s.invoices && s.invoices[id].totalPaid < s.invoices[id].amount
    ensures Finalize(s, id).Err?
  {
  }

  /**
    When a partial payment succeeds: it repeats a recorded one, or is recorded and, if it completes the amount,
    affordable.
   */
  ghost predicate CanPay(s: State, id: InvoiceId, amount: int, transactionId: string) {
    && amount > 0 && id in s.invoices && s.invoices[id].status == Funded
    && (|| (transactionId != "" && (id, transactionId) in s.nonces)
        || var total := s.invoices[id].totalPaid + Min(amount, s.invoices[id].amount - s.invoices[id].totalPaid);
           RoomFor(s, id, total) && (total == s.invoices[id].amount ==> HasEscrow(s, id) && Affordable(s, id)))
  }

  lemma PayIff(s: State, id: InvoiceId, amount: i128, transactionId: string)
    requires Inv(s)
    ensures ProcessPartialPayment(s, id, amount, transactionId).Ok? <==> CanPay(s, id, amount, transactionId)
  {
    hide Inv, Finalize, Affordable, SlideHistory;
    if id in s.invoices && s.invoices[id].status == Funded {
      FundedHasEscrow(s, id);
      var p := NextPayment(s, id, amount, transactionId);
      if s.invoices[id].totalPaid + p.amount == s.invoices[id].amount {
        CompletingSucceeds(s, id, p);
      }
    }
  }

  lemma PartialPaymentSucceedsIff(g: Genesis, actions: seq<Action>, id: InvoiceId, amount: i128, transactionId: string)
    requires Legal(actions)
    ensures ProcessPartialPayment(Reached(g, actions), id, amount, transactionId).Ok? <==> CanPay(Reached(g, actions),
        id, amount, transactionId)
  {
    hide Inv, Reached, ProcessPartialPayment, CanPay;
    ReachedInv(g, actions);
    PayIff(Reached(g, actions), id, amount, transactionId);
  }

  lemma ReservedIdBlocks(s: State, actions: seq<Action>, id: InvoiceId, amount: i128)
    requires Inv(s) && Legal(actions) && id in s.invoices && (id, SETTLEMENT_NONCE) in s.nonces
    ensures SettleInvoice(Run(s, actions), id, amount).Err?
  {
    hide Inv, Run, SettleInvoice, Affordable;
    RecordedForGood(s, actions, id, SETTLEMENT_NONCE);
    RunKeeps(s, actions);
    SettleIff(Run(s, actions), id, amount);
  }

  /**
    Once a partial payment has used the reserved transaction id, `settle_invoice` fails for good; the invoice
    can only be completed by partial payments.
   */
  lemma ReservedIdBlocksSettle(g: Genesis, before: seq<Action>, after: seq<Action>, id: InvoiceId, amount: i128)
    requires Legal(before) && Legal(after) && (id, SETTLEMENT_NONCE) in Reached(g, before).nonces
    ensures Legal(before + after) && SettleInvoice(Reached(g, before + after), id, amount).Err?
  {
    hide Inv, Run, Reached, SettleInvoice, Affordable;
    ReachedInv(g, before);
    ReachedConcat(g, before, after);
    NonceOwner(Reached(g, before), id, SETTLEMENT_NONCE);
    ReservedIdBlocks(Reached(g, before), after, id, amount);
  }

  lemma NonceOwner(s: State, id: InvoiceId, nonce: string)
    requires Inv(s) && (id, nonce) in s.nonces
    ensures id in s.invoices
  {
    hide BookOk, BidsFit, ListsOk, ActiveOk, Custody, EscrowsOk, InvestmentsOk, AllCoherent;
  }

  /**
    Nothing stops a payer from using it: a part payment under that id is accepted wherever there is room, and
    from then on no settlement succeeds.
   */
  lemma NamingAPaymentSettlement(g: Genesis, before: seq<Action>, id: InvoiceId, part: i128, after: seq<Action>,
                          amount: i128)
    requires Legal(before) && Legal(after)
    requires var s := Reached(g, before);
      && id in s.invoices && s.invoices[id].status == Funded
      && 0 < part < s.invoices[id].amount - s.invoices[id].totalPaid && RoomFor(s, id, s.invoices[id].totalPaid + part)
    ensures ProcessPartialPayment(Reached(g, before), id, part, SETTLEMENT_NONCE).Ok?
    ensures SettleInvoice(Run(ProcessPartialPayment(Reached(g, before), id, part, SETTLEMENT_NONCE).value, after), id,
        amount).Err?
  {
    hide Inv, Run, Reached, Attempt, SettleInvoice, Affordable, ProcessPartialPayment, RoomFor, SliceOf, Evolves;
    var s := Reached(g, before);
    ReachedInv(g, before);
    PayIff(s, id, part, SETTLEMENT_NONCE);
    PayPartIs(s, id, part, SETTLEMENT_NONCE);
    AcceptedIsRecorded(s, id, part, SETTLEMENT_NONCE);
    ApplyEvolves(s, PayPart(id, part, SETTLEMENT_NONCE));
    ReservedIdBlocks(Apply(s, PayPart(id, part, SETTLEMENT_NONCE)), after, id, amount);
  }

  /** An amount too large to scale by 100 can never be settled in full. */
  lemma HugeInvoiceIsNeverPaid(g: Genesis, actions: seq<Action>, id: InvoiceId)
    requires Legal(actions) && id in Reached(g, actions).invoices && Reached(g, actions).invoices[id].amount * 100 > I128_MAX
    ensures Reached(g, actions).invoices[id].status != Paid
  {
    hide Reached, Structure, LogOk, MovesOk, Total, LastInline, EscrowOf, InvestmentOf, AcceptedOn, MovesOf, NoncesOf,
         FundedOnce, FundedBy;
    ReachedSlice(g, actions, id);
    assert SliceOf(Reached(g, actions), id).invoice == Reached(g, actions).invoices[id];
  }
}
