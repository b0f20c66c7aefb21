/**
  The life of one invoice on its own: the events that can change its slice, when each is
  possible, and what it leaves. `Simulation` shows that every step of the protocol acts on
  every invoice as one of these events; what holds along them holds in every run.
 */
module Local {
  import opened Base
  import opened Lists
  import opened Token
  import opened BidBook
  import opened SettlementSplit
  import opened Insurance
  import opened Protocol
  import opened Coherence

  /**
    What a step takes from outside the invoice: the time, the fee in force, and the grace period a default is
    judged by.
   */
  datatype Context = Context(now: nat, fee: Option<FeeConfig>, grace: Option<nat>)

  datatype Event =
    | Rest
    | Verifying
    | Cancelling
    | Funding(bid: Bid, escrowId: EscrowId, investmentId: InvestmentId)
    | Releasing
    | Refunding
    | Insuring(provider: Address, percentage: nat)
    | Paying(payment: Payment)
    | Settling(payment: Payment)
    | Defaulting

  /** What is checked before a payment is recorded. */
  predicate Recordable(v: Slice, payment: Payment) {
    && v.invoice.status == Funded && |v.payments| < MAX_PAYMENT_COUNT
    && 0 < payment.amount <= v.invoice.amount - v.invoice.totalPaid
    && (payment.nonce != "" ==> payment.nonce !in v.nonces)
    && (v.invoice.totalPaid + payment.amount) * 100 <= I128_MAX
  }

  predicate Enabled(c: Context, v: Slice, event: Event) {
    match event
    case Rest => true
    case Verifying => v.invoice.status == Pending
    case Cancelling => v.invoice.status == Pending || v.invoice.status == Verified
    case Funding(bid, _, _) =>
      && v.invoice.status == Verified && bid.status == Accepted && 0 < bid.amount <= v.invoice.amount
      && bid.investor != SELF && bid.investor != v.invoice.business
    case Releasing => v.invoice.status == Funded && v.escrow.Some? && v.escrow.value.1.status == Held
    case Refunding => v.invoice.status == Funded && v.escrow.Some? && v.escrow.value.1.status == Held && v.investment.Some?
    case Insuring(provider, percentage) =>
      && v.investment.Some? && v.investment.value.1.status == Active
      && Insured(v.investment.value.1, provider, percentage).Ok?
    case Paying(p) => Recordable(v, p) && v.invoice.totalPaid + p.amount < v.invoice.amount
    case Settling(p) =>
      Recordable(v, p) && v.invoice.totalPaid + p.amount == v.invoice.amount && v.escrow.Some? && v.investment.Some?
          && AdmissibleFee(c.fee)
    case Defaulting =>
      && v.invoice.status == Funded && v.investment.Some?
      && c.grace.Some? && c.now > GraceDeadline(v.invoice, c.grace.value)
  }

  function Insured(i: Investment, provider: Address, percentage: nat): Result<seq<Coverage>> {
    WithPolicy(i.insurance, i.amount, provider, percentage, CalculatePremium(i.amount, percentage))
  }

  /** The slice with one more payment record. */
  function CreditedSlice(v: Slice, payment: Payment): Slice {
    v.(payments := v.payments + [payment],
       nonces := v.nonces + if payment.nonce != "" then {payment.nonce} else {},
       invoice := Credited(v.invoice, payment))
  }

  /** The slice once everything is paid out and closed. */
  function SettledSlice(c: Context, id: InvoiceId, v: Slice): Slice
    requires v.escrow.Some? && v.investment.Some?
  {
    var (e, i) := (v.escrow.value.1, v.investment.value.1);
    v.(invoice := MarkPaid(v.invoice, c.now),
       escrow := Some((v.escrow.value.0, e.(status := Released))),
       investment := Some((v.investment.value.0, i.(status := Completed))),
       finalized := true,
       moves := v.moves + (if e.status == Held then [ReleaseMove(id, e)] else [])
                + SettlementMoves(id, e, SplitFor(c.fee, i.amount, v.invoice.totalPaid), FeeRecipient(c.fee)))
  }

  function After(c: Context, id: InvoiceId, v: Slice, event: Event): Slice
    requires Enabled(c, v, event)
  {
    match event
    case Rest => v
    case Verifying => v.(invoice := v.invoice.(status := Verified))
    case Cancelling => v.(invoice := v.invoice.(status := InvoiceStatus.Cancelled))
    case Funding(bid, e, i) =>
      var escrow := Escrow(id, bid.investor, v.invoice.business, bid.amount, v.invoice.currency, c.now, Held);
      v.(invoice := MarkFunded(v.invoice, bid.investor, bid.amount, c.now),
         escrow := Some((e, escrow)), moves := v.moves + [FundingMove(id, escrow)],
         investment := Some((i, Investment(id, bid.investor, bid.amount, c.now, Active, []))),
         accepted := v.accepted + {bid})
    case Releasing =>
      var e := v.escrow.value.1;
      v.(escrow := Some((v.escrow.value.0, e.(status := Released))), moves := v.moves + [ReleaseMove(id, e)])
    case Refunding =>
      var (e, i) := (v.escrow.value.1, v.investment.value.1);
      v.(invoice := MarkRefunded(v.invoice),
         escrow := Some((v.escrow.value.0, e.(status := EscrowStatus.Refunded))),
         investment := Some((v.investment.value.0, i.(status := InvestmentStatus.Refunded))),
         accepted := {}, moves := v.moves + [RefundMove(id, e)])
    case Insuring(provider, percentage) =>
      var i := v.investment.value.1;
      v.(investment := Some((v.investment.value.0, i.(insurance := Insured(i, provider, percentage).value))))
    case Paying(p) => CreditedSlice(v, p)
    case Settling(p) => SettledSlice(c, id, CreditedSlice(v, p))
    case Defaulting =>
      var i := v.investment.value.1;
      v.(invoice := v.invoice.(status := InvoiceStatus.Defaulted), guarded := true,
         investment := Some((v.investment.value.0, i.(status := InvestmentStatus.Defaulted,
             insurance := Deactivate(i.insurance)))))
  }

  ghost predicate LocalStep(c: Context, id: InvoiceId, v: Slice, v': Slice) {
    exists event :: Enabled(c, v, event) && v' == After(c, id, v, event)
  }

  lemma ByEvent(c: Context, id: InvoiceId, v: Slice, event: Event)
    requires Enabled(c, v, event)
    ensures LocalStep(c, id, v, After(c, id, v, event))
  {
    hide Enabled, After;
  }

  /** A slice as `upload_invoice` leaves it. */
  predicate IsNew(v: Slice) {
    && v == Slice(v.invoice, None, None, {}, [], {}, false, false, [])
    && v.invoice == NewInvoice(v.invoice.business, v.invoice.amount, v.invoice.currency, v.invoice.dueDate)
    && 0 < v.invoice.amount <= I128_MAX && v.invoice.business != SELF
  }

  lemma NewCoherent(id: InvoiceId, v: Slice)
    requires IsNew(v)
    ensures Coherent(id, v)
  {
  }

  /* ---- every event keeps an invoice coherent ---- */

  lemma SamePayments(v: Slice, v': Slice)
    requires PaymentsOk(v) && v'.payments == v.payments && v'.nonces == v.nonces
    requires v.invoice.status != InvoiceStatus.Refunded && v'.invoice.status != InvoiceStatus.Refunded
    requires v'.invoice.amount == v.invoice.amount && v'.invoice.totalPaid == v.invoice.totalPaid
        && v'.invoice.history == v.invoice.history
    ensures PaymentsOk(v')
  {
    hide LogOk, Total, LastInline;
  }

  lemma UnfundedCoherent(id: InvoiceId, v: Slice, status: InvoiceStatus)
    requires Coherent(id, v) && !WasFunded(v.invoice.status) && !WasFunded(status)
    ensures Coherent(id, v.(invoice := v.invoice.(status := status)))
  {
    hide PaymentsOk;
    SamePayments(v, v.(invoice := v.invoice.(status := status)));
  }

  lemma FundedCoherent(c: Context, id: InvoiceId, v: Slice, bid: Bid, e: EscrowId, i: InvestmentId)
    requires Coherent(id, v) && Enabled(c, v, Funding(bid, e, i))
    ensures Coherent(id, After(c, id, v, Funding(bid, e, i)))
  {
    assert v.accepted + {bid} == {bid};
  }

  lemma ReleasedCoherent(c: Context, id: InvoiceId, v: Slice)
    requires Coherent(id, v) && Enabled(c, v, Releasing)
    ensures Coherent(id, After(c, id, v, Releasing))
  {
    hide PaymentsOk;
    SamePayments(v, After(c, id, v, Releasing));
  }

  lemma RefundedCoherent(c: Context, id: InvoiceId, v: Slice)
    requires Coherent(id, v) && Enabled(c, v, Refunding)
    ensures Coherent(id, After(c, id, v, Refunding))
  {
  }

  lemma InsuredCoherent(c: Context, id: InvoiceId, v: Slice, provider: Address, percentage: nat)
    requires Coherent(id, v) && Enabled(c, v, Insuring(provider, percentage))
    ensures Coherent(id, After(c, id, v, Insuring(provider, percentage)))
  {
    hide PaymentsOk, WithPolicy, CalculatePremium;
    var i := v.investment.value.1;
    WithPolicySound(i.insurance, i.amount, provider, percentage, CalculatePremium(i.amount, percentage));
    SamePayments(v, After(c, id, v, Insuring(provider, percentage)));
  }

  lemma HistorySlides(payments: seq<Payment>, payment: Payment)
    ensures LastInline(payments + [payment]) == SlideHistory(LastInline(payments), ToHistory(payment))
  {
  }

  /** The inline history after payments were slid into it one by one. */
  function Slid(payments: seq<Payment>): seq<HistoryEntry> {
    if |payments| == 0 then [] else SlideHistory(Slid(payments[..|payments| - 1]), ToHistory(payments[|payments| - 1]))
  }

  /** Sliding keeps the last 32 payments, or all of them, in order, and never more. */
  lemma {:induction false} SlidingKeepsTheLast(payments: seq<Payment>)
    ensures var kept := Min(|payments|, 32);
      && |Slid(payments)| == kept
      && forall i :: 0 <= i < kept ==> Slid(payments)[i] == ToHistory(payments[|payments| - kept + i])
    ensures Slid(payments) == LastInline(payments)
  {
    if |payments| > 0 {
      var front, last := payments[..|payments| - 1], payments[|payments| - 1];
      SlidingKeepsTheLast(front);
      HistorySlides(front, last);
      assert payments == front + [last];
    }
  }

  lemma LogAppended(payments: seq<Payment>, nonces: set<string>, payment: Payment)
    requires LogOk(payments, nonces) && |payments| < MAX_PAYMENT_COUNT && 0 < payment.amount
    requires payment.nonce != "" ==> payment.nonce !in nonces
    ensures LogOk(payments + [payment], nonces + if payment.nonce != "" then {payment.nonce} else {})
  {
    var ps, ns := payments + [payment], nonces + if payment.nonce != "" then {payment.nonce} else {};
    forall n ensures n in ns <==> n != "" && exists i :: 0 <= i < |ps| && ps[i].nonce == n {
      if n in ns {
        if n in nonces {
          var i :| 0 <= i < |payments| && payments[i].nonce == n;
          assert ps[i].nonce == n;
        } else {
          assert ps[|ps| - 1].nonce == n;
        }
      }
    }
  }

  lemma PaymentAppended(v: Slice, payment: Payment)
    requires PaymentsOk(v) && Recordable(v, payment)
    ensures PaymentsOk(CreditedSlice(v, payment))
  {
    hide LogOk, LastInline, SlideHistory;
    HistorySlides(v.payments, payment);
    LogAppended(v.payments, v.nonces, payment);
    assert (v.payments + [payment])[..|v.payments|] == v.payments;
  }

  lemma PaidInPart(c: Context, id: InvoiceId, v: Slice, p: Payment)
    requires Coherent(id, v) && Enabled(c, v, Paying(p))
    ensures Coherent(id, After(c, id, v, Paying(p)))
  {
    hide PaymentsOk;
    PaymentAppended(v, p);
  }

  lemma SettledCoherent(c: Context, id: InvoiceId, v: Slice, p: Payment)
    requires Coherent(id, v) && Enabled(c, v, Settling(p))
    ensures Coherent(id, After(c, id, v, Settling(p)))
  {
    hide PaymentsOk, SplitFor, FeeRecipient;
    PaymentAppended(v, p);
    var v' := After(c, id, v, Settling(p));
    SamePayments(CreditedSlice(v, p), v');
    assert FundedOnce(v');
    var e := v'.escrow.value.1;
    assert v'.moves == [FundingMove(id, e), ReleaseMove(id, e)] + SettlementMoves(id, e, SplitFor(c.fee, e.amount,
        v.invoice.amount), FeeRecipient(c.fee));
    assert SettledWith(id, v', c.fee);
  }

  lemma DefaultedCoherent(c: Context, id: InvoiceId, v: Slice)
    requires Coherent(id, v) && Enabled(c, v, Defaulting)
    ensures Coherent(id, After(c, id, v, Defaulting))
  {
    hide PaymentsOk;
    DeactivateIsInactive(v.investment.value.1.insurance, v.investment.value.1.amount);
    SamePayments(v, After(c, id, v, Defaulting));
  }

  /** No event can leave an invoice whose status disagrees with the rest of its slice. */
  lemma EventKeepsCoherent(c: Context, id: InvoiceId, v: Slice, event: Event)
    requires Coherent(id, v) && Enabled(c, v, event)
    ensures Coherent(id, After(c, id, v, event))
  {
    match event
    case Rest =>
    case Verifying => UnfundedCoherent(id, v, Verified);
    case Cancelling => UnfundedCoherent(id, v, InvoiceStatus.Cancelled);
    case Funding(bid, e, i) => FundedCoherent(c, id, v, bid, e, i);
    case Releasing => ReleasedCoherent(c, id, v);
    case Refunding => RefundedCoherent(c, id, v);
    case Insuring(provider, percentage) => InsuredCoherent(c, id, v, provider, percentage);
    case Paying(p) => PaidInPart(c, id, v, p);
    case Settling(p) => SettledCoherent(c, id, v, p);
    case Defaulting => DefaultedCoherent(c, id, v);
  }

  /* ---- what no event can undo ---- */

  predicate Closed(status: InvoiceStatus) {
    status == Paid || status == InvoiceStatus.Refunded || status == InvoiceStatus.Defaulted || status == InvoiceStatus.Cancelled
  }

  /** How far along its life an invoice is. */
  function Rank(status: InvoiceStatus): nat {
    match status
    case Pending => 0
    case Verified => 1
    case Funded => 2
    case _ => 3
  }

  /** Pending, Verified, Funded, and then one of the endings, Cancelled not after Funded. */
  predicate Later(a: InvoiceStatus, b: InvoiceStatus) {
    a == b || (Rank(a) < Rank(b) && !(a == Funded && b == InvoiceStatus.Cancelled))
  }

  /** The escrow keeps its id and terms, and is paid out at most once. */
  predicate SameEscrow(x: Option<(EscrowId, Escrow)>, y: Option<(EscrowId, Escrow)>) {
    x.Some? ==>
      && y.Some? && y.value.0 == x.value.0 && y.value.1 == x.value.1.(status := y.value.1.status)
      && (x.value.1.status != Held ==> y == x)
  }

  /** The investment keeps its id, parties and amount, and never becomes Active again. */
  predicate SameInvestment(x: Option<(InvestmentId, Investment)>, y: Option<(InvestmentId, Investment)>) {
    x.Some? ==>
      && y.Some? && y.value.0 == x.value.0
      && y.value.1 == x.value.1.(status := y.value.1.status, insurance := y.value.1.insurance)
      && (x.value.1.status != Active ==> y == x)
  }

  /** The terms an invoice was uploaded with. */
  predicate SameTerms(x: Invoice, y: Invoice) {
    x.business == y.business && x.amount == y.amount && x.currency == y.currency && x.dueDate == y.dueDate
  }

  /** One slice is in the other's future. */
  predicate Evolves(v: Slice, v': Slice) {
    && Later(v.invoice.status, v'.invoice.status)
    && SameTerms(v.invoice, v'.invoice)
    && SameEscrow(v.escrow, v'.escrow)
    && SameInvestment(v.investment, v'.investment)
    && v.payments <= v'.payments && v.nonces <= v'.nonces && v.moves <= v'.moves
    && (v.finalized ==> v'.finalized) && (v.guarded ==> v'.guarded)
    && (Closed(v.invoice.status) ==> v' == v)
  }

  lemma EventEvolves(c: Context, id: InvoiceId, v: Slice, event: Event)
    requires Coherent(id, v) && Enabled(c, v, event)
    ensures Evolves(v, After(c, id, v, event))
  {
    hide PaymentsOk, MovesOk, FundedBy, SplitFor, SettlementMoves, SlideHistory, Insured, Sound;
  }

  lemma EvolvesTransitive(u: Slice, v: Slice, w: Slice)
    requires Evolves(u, v) && Evolves(v, w)
    ensures Evolves(u, w)
  {
  }

  /** An invoice becomes Paid only by a settlement, and Defaulted only past its deadline. */
  lemma EventOutcome(c: Context, id: InvoiceId, v: Slice, event: Event)
    requires Enabled(c, v, event)
    ensures var v' := After(c, id, v, event);
      && (v'.invoice.status == Paid != v.invoice.status ==> event.Settling?)
      && (v'.invoice.status == InvoiceStatus.Defaulted != v.invoice.status ==> event == Defaulting)
      && (v'.invoice.status == InvoiceStatus.Refunded != v.invoice.status ==> event == Refunding)
  {
  }
}
