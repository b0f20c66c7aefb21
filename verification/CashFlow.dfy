/** Where the money goes, over whole runs. */
module CashFlow {
  import opened Base
  import opened Token
  import opened BasisPoints
  import opened BidBook
  import opened SettlementSplit
  import opened Insurance
  import opened Protocol
  import opened Coherence
  import opened Local
  import opened Frames
  import opened Simulation
  import opened Runs
  import OverdueScan

  /* ---- the ledger as a whole ---- */

  /** One ledger follows from another by moves that it records: supply is kept and the moves explain every balance. */
  ghost predicate Follows(l: Ledger, l': Ledger) {
    && l.moves <= l'.moves
    && (forall c :: Supply(l'.balances, c) == Supply(l.balances, c))
    && (forall c, a :: Balance(l', c, a) - Net(l'.moves, c, a) == Balance(l, c, a) - Net(l.moves, c, a))
  }

  lemma OneMoveFollows(l: Ledger, l': Ledger, m: Move)
    requires OneMove(l, l', m)
    ensures Follows(l, l')
  {
    hide Supply, Balance, Effect;
    forall c, a ensures Net(l'.moves, c, a) == Net(l.moves, c, a) + Effect(m, c, a) {
      NetAppend(l.moves, m, c, a);
    }
  }

  lemma FollowsTwice(l: Ledger, l1: Ledger, l2: Ledger)
    requires Follows(l, l1) && Follows(l1, l2)
    ensures Follows(l, l2)
  {
    hide Supply, Balance, Net;
  }

  lemma TransferFollows(l: Ledger, invoice: Option<InvoiceId>, c: Address, source: Address, target: Address,
                        amount: int)
    requires Transfer(l, invoice, c, source, target, amount).Ok?
    ensures Follows(l, Transfer(l, invoice, c, source, target, amount).value)
  {
    hide Transfer, OneMove, Follows;
    TransferIsOneMove(l, invoice, c, source, target, amount);
    OneMoveFollows(l, Transfer(l, invoice, c, source, target, amount).value, Move(invoice, c, source, target, amount));
  }

  lemma PayOutFollows(s: State, id: InvoiceId, after: EscrowStatus)
    requires PayOutEscrow(s, id, after).Ok?
    ensures Follows(s.ledger, PayOutEscrow(s, id, after).value.ledger)
  {
    hide Transfer, Follows;
    var e := EscrowFor(s, id);
    TransferFollows(s.ledger, Some(id), e.currency, SELF, if after == Released then e.business else e.investor, e.amount);
  }

  lemma PaySplitFollows(l: Ledger, id: InvoiceId, c: Address, business: Address, investor: Address, split: Split,
                        recipient: Address)
    requires PaySplit(l, id, c, business, investor, split, recipient).Ok?
    ensures Follows(l, PaySplit(l, id, c, business, investor, split, recipient).value)
  {
    hide Transfer, Follows;
    TransferFollows(l, Some(id), c, business, investor, split.investorReturn);
    if split.platformFee > 0 {
      var l1 := Transfer(l, Some(id), c, business, investor, split.investorReturn).value;
      TransferFollows(l1, Some(id), c, business, recipient, split.platformFee);
      FollowsTwice(l, l1, Transfer(l1, Some(id), c, business, recipient, split.platformFee).value);
    }
  }

  lemma FinalizeFollows(s: State, id: InvoiceId)
    requires Finalize(s, id).Ok?
    ensures Follows(s.ledger, Finalize(s, id).value.ledger)
  {
    hide PayOutEscrow, PaySplit, Follows, SplitFor, FeeRecipient;
    FollowsItself(s.ledger);
    var invoice, investment := s.invoices[id], InvestmentFor(s, id);
    var s1 := if HasEscrow(s, id) && EscrowFor(s, id).status == Held then PayOutEscrow(s, id, Released).value else s;
    if s1 != s {
      PayOutFollows(s, id, Released);
    }
    var split := SplitFor(s.fee, investment.amount, invoice.totalPaid);
    PaySplitFollows(s1.ledger, id, invoice.currency, invoice.business, investment.investor, split, FeeRecipient(s.fee));
    FollowsTwice(s.ledger, s1.ledger, Finalize(s, id).value.ledger);
  }

  lemma FollowsItself(l: Ledger)
    ensures Follows(l, l)
  {
  }

  lemma SameBalancesFollow(l: Ledger, l': Ledger)
    requires l'.balances == l.balances && l'.moves == l.moves
    ensures Follows(l, l')
  {
  }

  lemma HandleDefaultLedger(s: State, id: InvoiceId)
    requires HandleDefault(s, id).Ok?
    ensures HandleDefault(s, id).value.ledger == s.ledger
  {
    hide Relist, Deactivate;
  }

  lemma {:induction false} DefaultEachLedger(s: State, ids: seq<InvoiceId>, grace: nat)
    requires DefaultEach(s, ids, grace).Ok?
    ensures DefaultEach(s, ids, grace).value.ledger == s.ledger
    decreases |ids|
  {
    hide HandleDefault, Due;
    if |ids| > 0 {
      DefaultEachLedger(s, ids[..|ids| - 1], grace);
      var s1 := DefaultEach(s, ids[..|ids| - 1], grace).value;
      if Due(s1, ids[|ids| - 1], grace) {
        HandleDefaultLedger(s1, ids[|ids| - 1]);
      }
    }
  }

  lemma LedgerOfRelease(s: State, id: InvoiceId)
    requires ReleaseEscrowFunds(s, id).Ok?
    ensures Follows(s.ledger, ReleaseEscrowFunds(s, id).value.ledger)
  {
    hide Follows, PayOutEscrow;
    PayOutFollows(s, id, Released);
  }

  lemma LedgerOfAccept(s: State, id: InvoiceId, k: BidId, kyc: Option<Error>)
    requires AcceptBidAndFund(s, id, k, kyc).Ok?
    ensures Follows(s.ledger, AcceptBidAndFund(s, id, k, kyc).value.ledger)
  {
    hide Follows, Transfer, RefreshInvoice, SetStatus, Relist;
    var bid := RefreshInvoice(s.book, s.now, id).bids[k];
    TransferFollows(s.ledger, Some(id), s.invoices[id].currency, bid.investor, SELF, bid.amount);
  }

  lemma LedgerOfRefund(s: State, id: InvoiceId, caller: Address)
    requires RefundEscrowFunds(s, id, caller).Ok?
    ensures Follows(s.ledger, RefundEscrowFunds(s, id, caller).value.ledger)
  {
    hide Follows, PayOutEscrow, RefreshInvoice, Relist, CancelAccepted;
    PayOutFollows(s, id, EscrowStatus.Refunded);
  }

  lemma RecordLedger(s: State, id: InvoiceId, amount: int, nonce: string)
    requires RecordPayment(s, id, amount, nonce).Ok?
    ensures RecordPayment(s, id, amount, nonce).value.ledger == s.ledger
  {
  }

  lemma LedgerOfPartial(s: State, id: InvoiceId, amount: int, tx: string)
    requires ProcessPartialPayment(s, id, amount, tx).Ok?
    ensures Follows(s.ledger, ProcessPartialPayment(s, id, amount, tx).value.ledger)
  {
    hide Follows, RecordPayment, Finalize;
    RecordLedger(s, id, amount, tx);
    FollowsItself(s.ledger);
    var s1 := RecordPayment(s, id, amount, tx).value;
    if Finalize(s1, id).Ok? {
      FinalizeFollows(s1, id);
    }
  }

  lemma LedgerOfSettle(s: State, id: InvoiceId, amount: int)
    requires SettleInvoice(s, id, amount).Ok?
    ensures Follows(s.ledger, SettleInvoice(s, id, amount).value.ledger)
  {
    hide Follows, RecordPayment, Finalize;
    RecordLedger(s, id, amount, SETTLEMENT_NONCE);
    FinalizeFollows(RecordPayment(s, id, amount, SETTLEMENT_NONCE).value, id);
  }

  /** Every action only moves tokens in ways it records. */
  /** The actions that transfer nothing. */
  predicate Quiet(a: Action) {
    a.Tick? || a.Create? || a.Cancel? || a.Bidding? || a.Withdraw? || a.DropBid? || a.Cleanup? || a.Insure? || a.ConfigureFee?
  }

  lemma QuietLedger(s: State, a: Action)
    requires Admissible(a) && Quiet(a) && Attempt(s, a).Ok?
    ensures Attempt(s, a).value.ledger == s.ledger
  {
    hide Relist, SetStatus, RefreshInvoice, RefreshInvestor, Place, PlacedOn, PlacedBy, MinimumBid, WithPolicy,
         CalculatePremium;
  }

  lemma AttemptFollows(s: State, a: Action)
    requires Admissible(a) && Attempt(s, a).Ok?
    ensures Follows(s.ledger, Attempt(s, a).value.ledger)
  {
    hide Follows, OneMove, HolderTransfer, HandleDefault, ReleaseEscrowFunds, AcceptBidAndFund, RefundEscrowFunds,
         ProcessPartialPayment, SettleInvoice, DefaultEach, Relist, CreateInvoice, CancelInvoice, PlaceBid, WithdrawBid,
         CancelBid, RefreshInvoice, AddInvestmentInsurance, SetFee;
    FollowsItself(s.ledger);
    match a
    case Verify(id) => if s.invoices[id].status == Funded { LedgerOfRelease(s, id); }
    case Release(id) => LedgerOfRelease(s, id);
    case Accept(id, k, kyc) => LedgerOfAccept(s, id, k, kyc);
    case Refund(id, caller) => LedgerOfRefund(s, id, caller);
    case PayPart(id, amount, tx) => LedgerOfPartial(s, id, amount, tx);
    case Settle(id, amount) => LedgerOfSettle(s, id, amount);
    case MarkDefault(id, grace, configured) => HandleDefaultLedger(s, id);
    case CheckExpiry(id, grace, configured) =>
      if HandleDefault(s, id).Ok? {
        HandleDefaultLedger(s, id);
      }
    case ScanOverdue(grace, limit) => DefaultEachLedger(s, OverdueScan.Visited(ScanView(s),
        OverdueScan.ResolveLimit(limit)), grace);
    case HolderMoves(c, source, target, amount) =>
      HolderTransferIsOneMove(s.ledger, c, source, target, amount);
      OneMoveFollows(s.ledger, Attempt(s, a).value.ledger, Move(None, c, source, target, amount));
    case HolderApproves(_, _, _) => SameBalancesFollow(s.ledger, Attempt(s, a).value.ledger);
    case _ => QuietLedger(s, a);
  }

  lemma {:induction false} RunFollows(s: State, actions: seq<Action>)
    requires Legal(actions)
    ensures Follows(s.ledger, Run(s, actions).ledger)
    decreases |actions|
  {
    hide Follows, Attempt;
    FollowsItself(s.ledger);
    if |actions| > 0 {
      var front, a := actions[..|actions| - 1], actions[|actions| - 1];
      RunFollows(s, front);
      if Attempt(Run(s, front), a).Ok? {
        AttemptFollows(Run(s, front), a);
        FollowsTwice(s.ledger, Run(s, front).ledger, Run(s, actions).ledger);
      }
    }
  }

  /**
    In every run supply is conserved, and every balance is what the holder started with plus what the recorded
    moves brought.
   */
  lemma LedgerIsExplained(g: Genesis, actions: seq<Action>, c: Address, a: Address)
    requires Legal(actions)
    ensures var l := Reached(g, actions).ledger;
      && Supply(l.balances, c) == Supply(g.balances, c)
      && Balance(l, c, a) == Lookup(g.balances, c, a) + Net(l.moves, c, a)
  {
    hide Run, Supply;
    RunFollows(Init(g.now, g.admin, g.balances, g.allowances), actions);
  }

  /** In every run the contract holds at least the sum of its Held escrows, in every currency. */
  lemma CustodyInEveryRun(g: Genesis, actions: seq<Action>, c: Address)
    requires Legal(actions)
    ensures var s := Reached(g, actions); Balance(s.ledger, c, SELF) >= HeldSum(s.escrows, s.escrowCount, c)
    ensures var s := Reached(g, actions); forall e :: e in s.escrows ==> 1 <= e <= s.escrowCount
  {
    hide Reached, BookOk, BidsFit, ListsOk, ActiveOk, InvestmentsOk, NoTrace, AllCoherent, HeldSum;
    ReachedInv(g, actions);
  }

  /* ---- payouts ---- */

  /** The moves that take tokens out of the contract. */
  function Payouts(moves: seq<Move>): seq<Move> {
    if |moves| == 0 then []
    else if moves[|moves| - 1].source == SELF then Payouts(moves[..|moves| - 1]) + [moves[|moves| - 1]]
    else Payouts(moves[..|moves| - 1])
  }

  lemma PayoutsAppend(moves: seq<Move>, m: Move)
    ensures Payouts(moves + [m]) == if m.source == SELF then Payouts(moves) + [m] else Payouts(moves)
  {
    assert (moves + [m])[..|moves|] == moves;
  }

  lemma PayoutsOfSlice(id: InvoiceId, v: Slice)
    requires Coherent(id, v) && v.escrow.Some?
    ensures var e := v.escrow.value.1;
      Payouts(v.moves) == match e.status case Held => [] case Released => [ReleaseMove(id,
          e)] case Refunded => [RefundMove(id, e)]
  {
    hide PaymentsOk, FundedBy, SplitFor, FeeRecipient, AdmissibleFee;
    var e := v.escrow.value.1;
    var f := FundingMove(id, e);
    PayoutsAppend([], f);
    assert [] + [f] == [f];
    if e.status == Released {
      PayoutsAppend([f], ReleaseMove(id, e));
      assert [f] + [ReleaseMove(id, e)] == [f, ReleaseMove(id, e)];
      if v.invoice.status == Paid {
        var fee :| SettledWith(id, v, fee);
        PayoutsAtSettlement([f, ReleaseMove(id, e)], id, e, SplitFor(fee, e.amount, v.invoice.amount), FeeRecipient(fee));
      }
    } else if e.status == EscrowStatus.Refunded {
      PayoutsAppend([f], RefundMove(id, e));
      assert [f] + [RefundMove(id, e)] == [f, RefundMove(id, e)];
    }
  }

  lemma PayoutsAtSettlement(moves: seq<Move>, id: InvoiceId, e: Escrow, split: Split, recipient: Address)
    requires e.business != SELF
    ensures Payouts(moves + SettlementMoves(id, e, split, recipient)) == Payouts(moves)
  {
    var m := Move(Some(id), e.currency, e.business, e.investor, Max(split.investorReturn, 0));
    PayoutsAppend(moves, m);
    if split.platformFee > 0 {
      PayoutsAppend(moves + [m], Move(Some(id), e.currency, e.business, recipient, split.platformFee));
      assert moves + SettlementMoves(id, e, split, recipient) == moves + [m] + [Move(Some(id), e.currency, e.business,
          recipient, split.platformFee)];
    } else {
      assert moves + SettlementMoves(id, e, split, recipient) == moves + [m];
    }
  }

  /** Each escrow pays out at most once over the whole run: its full amount, to the business or back to the investor. */
  lemma EscrowPaysOutOnce(g: Genesis, actions: seq<Action>, id: InvoiceId)
    requires Legal(actions) && HasEscrow(Reached(g, actions), id)
    ensures var s := Reached(g, actions); var e := EscrowFor(s, id);
      e.amount > 0 && Payouts(MovesOf(s.ledger.moves, id)) == match e.status
        case Held => []
        case Released => [Move(Some(id), e.currency, SELF, e.business, e.amount)]
        case Refunded => [Move(Some(id), e.currency, SELF, e.investor, e.amount)]
  {
    hide Reached, Payouts, MovesOf, AcceptedOn, NoncesOf, PaymentsOf, PaymentsOk, MovesOk, FundedBy, Sound;
    var s := Reached(g, actions);
    EscrowHasInvoice(g, actions, id);
    ReachedSlice(g, actions, id);
    PayoutsOfSlice(id, SliceOf(s, id));
  }

  lemma EscrowHasInvoice(g: Genesis, actions: seq<Action>, id: InvoiceId)
    requires Legal(actions) && HasEscrow(Reached(g, actions), id)
    ensures id in Reached(g, actions).invoices
  {
    hide Reached, BookOk, BidsFit, ListsOk, ActiveOk, InvestmentsOk, NoTrace, AllCoherent, Custody;
    ReachedInv(g, actions);
  }

  /* ---- the cash flow of a settled invoice ---- */

  /**
    What a settled invoice brings address `a` in currency `c`, the business having paid `amount` and the platform taken
    `fee`; a party that plays several roles adds them up.
   */
  function Gain(e: Escrow, amount: int, fee: int, recipient: Address, c: Address, a: Address): int {
    if c != e.currency then 0
    else
      (if a == e.business then e.amount - amount else 0)
      + (if a == e.investor then amount - fee - e.amount else 0)
      + (if a == recipient then fee else 0)
  }

  lemma NetOne(m: Move, c: Address, a: Address)
    ensures Net([m], c, a) == Effect(m, c, a)
  {
    NetAppend([], m, c, a);
    assert [] + [m] == [m];
  }

  /** What funding, release and settlement bring each address, whoever the parties are. */
  lemma SettledNet(id: InvoiceId, e: Escrow, split: Split, recipient: Address, c: Address, a: Address)
    requires e.amount >= 0 && split.investorReturn >= 0 && split.platformFee >= 0
    ensures Net([FundingMove(id, e), ReleaseMove(id, e)] + SettlementMoves(id, e, split, recipient), c, a)
         == Gain(e, split.investorReturn + split.platformFee, split.platformFee, recipient, c, a)
  {
    hide Net;
    var f, r := FundingMove(id, e), ReleaseMove(id, e);
    var m := Move(Some(id), e.currency, e.business, e.investor, split.investorReturn);
    NetOne(f, c, a);
    NetAppend([f], r, c, a);
    NetAppend([f, r], m, c, a);
    assert [f] + [r] == [f, r] && [f, r] + [m] == [f, r, m];
    if split.platformFee > 0 {
      var p := Move(Some(id), e.currency, e.business, recipient, split.platformFee);
      NetAppend([f, r, m], p, c, a);
      assert [f, r] + SettlementMoves(id, e, split, recipient) == [f, r, m] + [p];
    } else {
      assert [f, r] + SettlementMoves(id, e, split, recipient) == [f, r, m];
    }
  }

  /** The moves of a Paid invoice, by the fee configuration that was in force when it was settled. */
  ghost predicate SettledUnder(id: InvoiceId, v: Slice, fee: Option<FeeConfig>) {
    && v.escrow.Some? && v.escrow.value.1.status == Released && v.invoice.status == Paid && FundedOnce(v)
        && SettledWith(id, v, fee)
  }

  lemma SettlingSettles(c: Context, id: InvoiceId, v: Slice, p: Payment)
    requires Coherent(id, v) && Enabled(c, v, Settling(p))
    ensures SettledUnder(id, After(c, id, v, Settling(p)), c.fee)
  {
    hide PaymentsOk, SplitFor, FeeRecipient;
    SettledCoherent(c, id, v, p);
    var v' := After(c, id, v, Settling(p));
    var e := v'.escrow.value.1;
    assert FundedOnce(v');
    assert v'.moves == [FundingMove(id, e), ReleaseMove(id, e)] + SettlementMoves(id, e, SplitFor(c.fee, e.amount,
        v.invoice.amount), FeeRecipient(c.fee));
  }

  /** Before action `k` the invoice is Funded, after it Paid. */
  ghost predicate SettledAt(g: Genesis, actions: seq<Action>, id: InvoiceId, k: nat)
    requires Legal(actions) && k < |actions|
  {
    && id in Reached(g, actions[..k]).invoices && Reached(g, actions[..k]).invoices[id].status == Funded
    && id in Reached(g, actions[..k + 1]).invoices && Reached(g, actions[..k + 1]).invoices[id].status == Paid
  }

  /** The one action of a run that settled a Paid invoice. */
  lemma {:induction false} FindSettlement(g: Genesis, actions: seq<Action>, id: InvoiceId) returns (k: nat)
    requires Legal(actions) && id in Reached(g, actions).invoices && Reached(g, actions).invoices[id].status == Paid
    ensures k < |actions| && SettledAt(g, actions, id, k)
    ensures SettledUnder(id, SliceOf(Reached(g, actions), id), Reached(g, actions[..k]).fee)
    decreases |actions|
  {
    hide Inv, Coherent, SliceOf, Apply, SettledUnder, After, Enabled, Init;
    if |actions| == 0 {
      NothingYet(g);
      assert false;
    }
    var front, a := actions[..|actions| - 1], actions[|actions| - 1];
    var s := Reached(g, front);
    assert Reached(g, actions) == Apply(s, a);
    assert actions[..|actions|] == actions;
    ReachedInv(g, front);
    if id in s.invoices && s.invoices[id].status == Paid {
      k := FindSettlement(g, front, id);
      assert front[..k] == actions[..k] && front[..k + 1] == actions[..k + 1];
      ClosedStays(g, front, a, id);
    } else {
      SettledNow(s, a, id);
      k := |actions| - 1;
    }
  }

  lemma NothingYet(g: Genesis)
    ensures Reached(g, []).invoices == map[]
  {
  }

  lemma ClosedStays(g: Genesis, front: seq<Action>, a: Action, id: InvoiceId)
    requires Legal(front) && Admissible(a) && id in Reached(g, front).invoices && Closed(Reached(g, front).invoices[id].status)
    ensures id in Apply(Reached(g, front), a).invoices
    ensures SliceOf(Apply(Reached(g, front), a), id) == SliceOf(Reached(g, front), id)
  {
    hide Inv, Reached, Apply, EscrowOf, InvestmentOf, AcceptedOn, PaymentsOf, NoncesOf, MovesOf;
    ReachedInv(g, front);
    ApplyEvolves(Reached(g, front), a);
  }

  /** The action that makes an invoice Paid settles it from Funded, with the fee then in force. */
  lemma SettledNow(s: State, a: Action, id: InvoiceId)
    requires Inv(s) && Admissible(a) && id in Apply(s, a).invoices && Apply(s, a).invoices[id].status == Paid
    requires !(id in s.invoices && s.invoices[id].status == Paid)
    ensures id in s.invoices && s.invoices[id].status == Funded
    ensures SettledUnder(id, SliceOf(Apply(s, a), id), s.fee)
  {
    hide Structure, Coherent, Apply, SettledUnder, After, LocalStep, EscrowOf, InvestmentOf, AcceptedOn, PaymentsOf,
         NoncesOf, MovesOf, GraceOf;
    ApplyStep(s, a);
    if id !in s.invoices {
      assert false;
    }
    var event := EventAt(s, a, id);
    EventOutcome(ContextOf(s, a), id, SliceOf(s, id), event);
    SettlingSettles(ContextOf(s, a), id, SliceOf(s, id), event.payment);
  }

  /**
    The whole-life cash flow. Whenever and however often the invoice was paid, and whether its
    escrow was released before the settlement or by it: over all transfers ever made for a Paid
    invoice the business nets the escrow minus the invoice amount, the investor nets what is left of the
    amount minus the escrow, the fee recipient nets the fee, and nobody else gains or loses anything. The fee
    is the share of the profit that was configured when the invoice was settled, or 2 percent if none was,
    rounded down; it goes to the configured treasury, or stays in the contract.
   */
  lemma WholeLifeCashFlow(g: Genesis, actions: seq<Action>, id: InvoiceId) returns (k: nat, fee: int)
    requires Legal(actions) && id in Reached(g, actions).invoices && Reached(g, actions).invoices[id].status == Paid
    ensures k < |actions| && SettledAt(g, actions, id, k)
    ensures var s, config := Reached(g, actions), Reached(g, actions[..k]).fee;
      && HasEscrow(s, id)
      && var e, amount := EscrowFor(s, id), s.invoices[id].amount;
      var recipient := if config.Some? && config.value.treasury.Some? then config.value.treasury.value else SELF;
      && 0 <= fee <= Max(amount - e.amount, 0)
      && FlooredShare(fee, Max(amount - e.amount, 0), if config.Some? then config.value.bps else 200)
      && forall c, a :: Net(MovesOf(s.ledger.moves, id), c, a) == Gain(e, amount, fee, recipient, c, a)
  {
    hide Reached, Net, SplitFor, FlooredShare, Gain, SettlementMoves, FundingMove, ReleaseMove, AcceptedOn, PaymentsOf,
         NoncesOf, MovesOf, PaymentsOk, Sound;
    k := FindSettlement(g, actions, id);
    var s, config := Reached(g, actions), Reached(g, actions[..k]).fee;
    ReachedSlice(g, actions, id);
    var e, amount := EscrowFor(s, id), s.invoices[id].amount;
    var split := SplitFor(config, e.amount, amount);
    SplitConserves(config, e.amount, amount);
    FeeIsTheShareOfProfit(config, e.amount, amount);
    fee := split.platformFee;
    forall c, a ensures Net(MovesOf(s.ledger.moves, id), c, a) == Gain(e, amount, fee, FeeRecipient(config), c, a) {
      SettledNet(id, e, split, FeeRecipient(config), c, a);
    }
  }
}
