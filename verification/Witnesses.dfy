/** States in which the contract surprises are reached from deployment, for every amount and due date that allows them. */
module Witnesses {
  import opened Base
  import opened Lists
  import opened Token
  import opened BidBook
  import opened SettlementSplit
  import opened Protocol
  import opened Coherence
  import opened Simulation
  import opened Runs
  import opened Replays
  import opened Settling
  import opened Outcomes
  import opened Scenarios

  /* ---- a Funded invoice ---- */

  lemma AsDeployed(funds: nat)
    ensures var s := Reached(Deployed(funds), []);
      && s == Init(0, ADMIN, map[(CURRENCY, INVESTOR) := funds], map[])
      && Balance(s.ledger, CURRENCY, INVESTOR) == funds && ListOf(s.lists, Funded) == []
  {
  }

  /** Every amount below the largest `i128` can be funded in full, with any due date in the future. */
  lemma FundedIsReachable(amount: i128, dueDate: u64)
    requires 0 < amount < I128_MAX && dueDate > 0
    ensures Legal(Funding(1, 1, Usual(amount, dueDate)))
    ensures var s := Reached(Deployed(amount), Funding(1, 1, Usual(amount, dueDate)));
      && s.now == 0 && s.fee == None && 1 in s.invoices
      && s.invoices[1] == MarkFunded(NewInvoice(BUSINESS, amount, CURRENCY, dueDate), INVESTOR, amount, 0)
      && HasEscrow(s, 1) && EscrowFor(s, 1) == Escrow(1, INVESTOR, BUSINESS, amount, CURRENCY, 0, Held)
      && PaymentsOf(s, 1) == [] && s.nonces == {}
  {
    hide Run, Reached, Balance;
    var g, actions := Deployed(amount), Funding(1, 1, Usual(amount, dueDate));
    AsDeployed(amount);
    Funds(g, [], Usual(amount, dueDate));
    assert [] + actions == actions;
  }

  /* ---- a Paid invoice ---- */

  predicate PaidWith(s: State, id: InvoiceId, amount: int) {
    id in s.invoices && s.invoices[id].amount == amount && s.invoices[id].status == Paid
  }

  /** A finalized invoice is Paid. */
  lemma FinalizedIsPaid(s: State, id: InvoiceId)
    requires Finalize(s, id).Ok?
    ensures id in s.invoices && PaidWith(Finalize(s, id).value, id, s.invoices[id].amount)
  {
    hide Transfer, Relist, SplitFor, FeeRecipient, PaySplit;
  }

  lemma SettledIsPaid(s: State, id: InvoiceId, amount: i128)
    requires SettleInvoice(s, id, amount).Ok?
    ensures id in s.invoices && PaidWith(SettleInvoice(s, id, amount).value, id, s.invoices[id].amount)
  {
    hide Finalize, ProgressPercent, SlideHistory;
    FinalizedIsPaid(RecordPayment(s, id, amount, SETTLEMENT_NONCE).value, id);
  }

  lemma SettleIs(s: State, id: InvoiceId, amount: i128)
    ensures Attempt(s, Settle(id, amount)) == SettleInvoice(s, id, amount)
  {
    hide SettleInvoice;
  }

  /** The business approves the amount and settles at once. */
  function PayingUp(amount: i128): seq<Action>
    requires amount > 0
  {
    [HolderApproves(CURRENCY, BUSINESS, amount), Settle(1, amount)]
  }

  lemma PaidIsReachable(amount: i128, dueDate: u64)
    requires 0 < amount && amount * 100 <= I128_MAX && dueDate > 0
    ensures var actions := Funding(1, 1, Usual(amount, dueDate)) + PayingUp(amount);
      Legal(actions) && PaidWith(Reached(Deployed(amount), actions), 1, amount)
  {
    hide Reached, Run, Funding, Inv, Attempt, SettleInvoice;
    var g, before := Deployed(amount), Funding(1, 1, Usual(amount, dueDate));
    FundedIsReachable(amount, dueDate);
    PaysUp(g, before, amount);
  }

  /** The released escrow covers the whole settlement: the investor gets back what it paid in. */
  lemma PaysUp(g: Genesis, before: seq<Action>, amount: i128)
    requires Legal(before) && FundedInFull(Reached(g, before), amount)
    requires PaymentsOf(Reached(g, before), 1) == [] && Reached(g, before).nonces == {}
    requires amount > 0 && amount * 100 <= I128_MAX
    ensures Legal(before + PayingUp(amount)) && PaidWith(Reached(g, before + PayingUp(amount)), 1, amount)
  {
    hide Reached, Run, Apply, Inv, CanSettle;
    var s, approve, settle := Reached(g, before), HolderApproves(CURRENCY, BUSINESS, amount), Settle(1, amount);
    Approves(s, CURRENCY, BUSINESS, amount);
    OneAction(s, approve);
    ReachedConcat(g, before, [approve]);
    CanSettleNow(Apply(s, approve), amount);
    Settles(g, before + [approve], 1, amount);
    OneAction(Apply(s, approve), settle);
    ReachedConcat(g, before + [approve], [settle]);
    assert before + [approve] + [settle] == before + PayingUp(amount);
  }

  lemma Settles(g: Genesis, actions: seq<Action>, id: InvoiceId, amount: i128)
    requires Legal(actions) && id in Reached(g, actions).invoices && CanSettle(Reached(g, actions), id, amount)
    ensures PaidWith(Apply(Reached(g, actions), Settle(id, amount)), id, Reached(g, actions).invoices[id].amount)
  {
    hide Reached, Attempt, SettleInvoice, CanSettle;
    var s := Reached(g, actions);
    SettleSucceedsIff(g, actions, id, amount);
    SettleIs(s, id, amount);
    SettledIsPaid(s, id, amount);
  }

  /** Invoice 1 is Funded in full by its only bid, nothing is paid yet, and no platform fee is configured. */
  predicate FundedInFull(s: State, amount: int) {
    && s.fee == None && 1 in s.invoices && HasEscrow(s, 1)
    && s.invoices[1].status == Funded && s.invoices[1].amount == amount && s.invoices[1].totalPaid == 0
    && s.invoices[1].business == BUSINESS
    && EscrowFor(s, 1).amount == amount && EscrowFor(s, 1).currency == CURRENCY && EscrowFor(s, 1).status == Held
  }

  lemma CanSettleNow(s: State, amount: i128)
    requires FundedInFull(s, amount) && PaymentsOf(s, 1) == [] && s.nonces == {} && amount > 0 && amount * 100 <= I128_MAX
    requires Allowance(s.ledger, CURRENCY, BUSINESS) >= amount
    ensures CanSettle(s, 1, amount)
  {
    hide Allowance, Balance;
    assert SplitFor(s.fee, amount, amount) == Split(amount, 0);
  }

  lemma TwoActions(s: State, a: Action, b: Action)
    requires Admissible(a) && Admissible(b)
    ensures Legal([a, b]) && Run(s, [a, b]) == Apply(Apply(s, a), b)
  {
    hide Apply;
    assert [a, b][..1] == [a];
    OneAction(s, a);
  }

  /** An invoice can be paid in full in some run iff its amount can be scaled by 100. */
  lemma PayableIff(amount: i128)
    requires amount > 0
    ensures (exists g, actions, id :: Legal(actions) && PaidWith(Reached(g, actions), id, amount)) <==> amount * 100 <= I128_MAX
  {
    hide Reached, Funding, PayingUp;
    if g, actions, id :| Legal(actions) && PaidWith(Reached(g, actions), id, amount) {
      if amount * 100 > I128_MAX {
        HugeInvoiceIsNeverPaid(g, actions, id);
      }
    }
    if amount * 100 <= I128_MAX {
      PaidIsReachable(amount, 1);
      assert PaidWith(Reached(Deployed(amount), Funding(1, 1, Usual(amount, 1)) + PayingUp(amount)), 1, amount);
    }
  }

  /* ---- a payment that blocks settlement ---- */

  /** Part of the invoice is paid under the transaction id that `settle_invoice` uses. */
  function PayingReserved(): seq<Action> { [PayPart(1, 1, SETTLEMENT_NONCE)] }

  /** For every amount of at least 2 there is a run with such a payment, and no settlement succeeds after it. */
  lemma ReservedIdIsReachable(amount: i128, dueDate: u64, after: seq<Action>, again: i128)
    requires 2 <= amount < I128_MAX && dueDate > 0 && Legal(after)
    ensures var actions := Funding(1, 1, Usual(amount, dueDate)) + PayingReserved();
      && Legal(actions) && Legal(actions + after)
      && (1, SETTLEMENT_NONCE) in Reached(Deployed(amount), actions).nonces
      && SettleInvoice(Reached(Deployed(amount), actions + after), 1, again).Err?
  {
    hide Reached, Run, Funding, Inv, Apply, SettleInvoice;
    var g, before := Deployed(amount), Funding(1, 1, Usual(amount, dueDate));
    FundedIsReachable(amount, dueDate);
    PaysReserved(g, before, 1, 1);
    OneAction(Reached(g, before), PayPart(1, 1, SETTLEMENT_NONCE));
    ReachedConcat(g, before, PayingReserved());
    ReservedIdBlocksSettle(g, before + PayingReserved(), after, 1, again);
  }

  lemma PaysReserved(g: Genesis, before: seq<Action>, id: InvoiceId, part: i128)
    requires Legal(before)
    requires var s := Reached(g, before);
      && id in s.invoices && s.invoices[id].status == Funded && PaymentsOf(s, id) == []
      && 0 < part < s.invoices[id].amount - s.invoices[id].totalPaid && (s.invoices[id].totalPaid + part) * 100 <= I128_MAX
    ensures (id, SETTLEMENT_NONCE) in Apply(Reached(g, before), PayPart(id, part, SETTLEMENT_NONCE)).nonces
  {
    hide Inv, Reached, Attempt, ProcessPartialPayment, Apply, Affordable;
    var s := Reached(g, before);
    ReachedInv(g, before);
    PayIff(s, id, part, SETTLEMENT_NONCE);
    PayPartIs(s, id, part, SETTLEMENT_NONCE);
    AcceptedIsRecorded(s, id, part, SETTLEMENT_NONCE);
  }

  /* ---- a stranded escrow ---- */

  /** The due date passes, and the invoice is defaulted without any grace period. */
  function Defaulting(dueDate: nat): seq<Action> { [Tick(dueDate + 1), MarkDefault(1, Some(0), 0)] }

  /** For every amount and every due date that can pass there is a run that leaves the escrow in the contract for good. */
  lemma StrandedEscrowIsReachable(amount: i128, dueDate: u64, after: seq<Action>)
    requires 0 < amount < I128_MAX && 0 < dueDate < U64_MAX && Legal(after)
    ensures var actions := Funding(1, 1, Usual(amount, dueDate)) + Defaulting(dueDate);
      && Legal(actions) && Legal(actions + after)
      && var s := Reached(Deployed(amount), actions + after);
         HasEscrow(s, 1) && EscrowFor(s, 1).status == Held && EscrowFor(s, 1).amount == amount
         && Balance(s.ledger, CURRENCY, SELF) >= amount
  {
    hide Reached, Run, Funding, Inv, Apply, Balance;
    var g, before := Deployed(amount), Funding(1, 1, Usual(amount, dueDate));
    FundedIsReachable(amount, dueDate);
    var s := Reached(g, before);
    GoesBad(g, before, 1, dueDate + 1, 0);
    TwoActions(s, Tick(dueDate + 1), MarkDefault(1, Some(0), 0));
    ReachedConcat(g, before, Defaulting(dueDate));
    DefaultStrandsHeldEscrow(g, before + Defaulting(dueDate), after, 1);
  }

  lemma GoesBad(g: Genesis, before: seq<Action>, id: InvoiceId, wait: nat, grace: u64)
    requires Legal(before)
    requires var s := Reached(g, before);
      && id in s.invoices && s.invoices[id].status == Funded && HasEscrow(s, id)
      && grace <= MAX_GRACE_PERIOD && SatAdd64(s.now, wait) > GraceDeadline(s.invoices[id], grace)
    ensures StillHeld(Reached(g, before), Apply(Apply(Reached(g, before), Tick(wait)), MarkDefault(id, Some(grace), 0)), id)
  {
    hide Inv, Reached, Apply, HandleDefault;
    var s := Reached(g, before);
    var s1 := Apply(s, Tick(wait));
    ReachedInv(g, before);
    Ticks(s, wait);
    ApplyEvolves(s, Tick(wait));
    DefaultSucceeds(s1, id);
    MarkDefaultIs(s1, id, grace);
    DefaultKeepsEscrow(s1, id);
  }

  /** A defaulted invoice whose escrow is as it was. */
  predicate StillHeld(s: State, s': State, id: InvoiceId)
    requires HasEscrow(s, id)
  {
    && id in s'.invoices && s'.invoices[id].status == InvoiceStatus.Defaulted
    && HasEscrow(s', id) && EscrowFor(s', id) == EscrowFor(s, id)
  }

  lemma Ticks(s: State, seconds: nat)
    ensures Apply(s, Tick(seconds)) == s.(now := SatAdd64(s.now, seconds))
  {
  }

  lemma MarkDefaultIs(s: State, id: InvoiceId, grace: u64)
    requires grace <= MAX_GRACE_PERIOD && Due(s, id, grace) && HandleDefault(s, id).Ok?
    ensures Apply(s, MarkDefault(id, Some(grace), 0)) == HandleDefault(s, id).value
  {
    hide HandleDefault;
  }

  lemma DefaultKeepsEscrow(s: State, id: InvoiceId)
    requires HandleDefault(s, id).Ok? && HasEscrow(s, id)
    ensures StillHeld(s, HandleDefault(s, id).value, id)
  {
    hide Relist;
  }
}
