/** What holds in every run of the protocol, from deployment over any balances and allowances. */
module Runs {
  import opened Base
  import opened Lists
  import opened Token
  import opened BidBook
  import opened SettlementSplit
  import opened Insurance
  import opened Protocol
  import opened Coherence
  import opened Local
  import opened Frames
  import opened Simulation

  /** What a deployment starts from. */
  datatype Genesis = Genesis(
    now: u64, admin: Address, balances: Holdings, allowances: Holdings)

  ghost predicate Legal(actions: seq<Action>) { forall a :: a in actions ==> Admissible(a) }

  /** The state after a run. */
  function Reached(g: Genesis, actions: seq<Action>): State
    requires Legal(actions)
  {
    Run(Init(g.now, g.admin, g.balances, g.allowances), actions)
  }

  lemma {:induction false} RunConcat(s: State, first: seq<Action>, second: seq<Action>)
    requires Legal(first) && Legal(second)
    ensures Legal(first + second) && Run(s, first + second) == Run(Run(s, first), second)
    decreases |second|
  {
    if |second| == 0 {
      assert first + second == first;
    } else {
      var front, last := second[..|second| - 1], second[|second| - 1];
      RunConcat(s, first, front);
      assert (first + second)[..|first + second| - 1] == first + front;
    }
  }

  /** Every run keeps the invariant and carries each invoice forward. */
  lemma {:induction false} RunKeeps(s: State, actions: seq<Action>)
    requires Inv(s) && Legal(actions)
    ensures Inv(Run(s, actions))
    ensures forall id :: id in s.invoices ==>
      id in Run(s, actions).invoices && Evolves(SliceOf(s, id), SliceOf(Run(s, actions), id))
    decreases |actions|
  {
    hide Inv, Apply, SliceOf, Evolves;
    if |actions| == 0 {
      forall id | id in s.invoices ensures Evolves(SliceOf(s, id), SliceOf(s, id)) {
        EvolvesReflexive(SliceOf(s, id));
      }
    } else {
      var front, a := actions[..|actions| - 1], actions[|actions| - 1];
      RunKeeps(s, front);
      var s1 := Run(s, front);
      ApplyEvolves(s1, a);
      forall id | id in s.invoices ensures Evolves(SliceOf(s, id), SliceOf(Run(s, actions), id)) {
        EvolvesTransitive(SliceOf(s, id), SliceOf(s1, id), SliceOf(Run(s, actions), id));
      }
    }
  }

  lemma EvolvesReflexive(v: Slice)
    ensures Evolves(v, v)
  {
  }

  lemma ApplyEvolves(s: State, a: Action)
    requires Inv(s) && Admissible(a)
    ensures Inv(Apply(s, a))
    ensures forall id :: id in s.invoices ==> id in Apply(s, a).invoices && Evolves(SliceOf(s, id), SliceOf(Apply(s, a), id))
  {
    hide Structure, SliceOf, Evolves, Apply, Coherent, ContextOf, LocalStep;
    ApplyStep(s, a);
    forall id | id in s.invoices ensures Evolves(SliceOf(s, id), SliceOf(Apply(s, a), id)) {
      var event := EventAt(s, a, id);
      EventEvolves(ContextOf(s, a), id, SliceOf(s, id), event);
    }
  }

  /** The event by which an action acted on an invoice. */
  lemma EventAt(s: State, a: Action, id: InvoiceId) returns (event: Event)
    requires Inv(s) && Admissible(a) && id in s.invoices
    ensures id in Apply(s, a).invoices && Enabled(ContextOf(s, a), SliceOf(s, id), event)
    ensures SliceOf(Apply(s, a), id) == After(ContextOf(s, a), id, SliceOf(s, id), event)
    ensures Coherent(id, SliceOf(s, id))
  {
    hide Structure, SliceOf, Apply, Coherent, ContextOf, Enabled, After;
    ApplyStep(s, a);
    event :| Enabled(ContextOf(s, a), SliceOf(s, id), event)
             && SliceOf(Apply(s, a), id) == After(ContextOf(s, a), id, SliceOf(s, id), event);
  }

  /** The invariant in every reachable state. */
  lemma ReachedInv(g: Genesis, actions: seq<Action>)
    requires Legal(actions)
    ensures Inv(Reached(g, actions))
  {
    hide Inv, Init;
    InitHolds(g.now, g.admin, g.balances, g.allowances);
    RunKeeps(Init(g.now, g.admin, g.balances, g.allowances), actions);
  }

  lemma ReachedSlice(g: Genesis, actions: seq<Action>, id: InvoiceId)
    requires Legal(actions) && id in Reached(g, actions).invoices
    ensures Coherent(id, SliceOf(Reached(g, actions), id))
  {
    hide Coherent, Structure, SliceOf;
    ReachedInv(g, actions);
  }

  /* ---- status fixes the rest ---- */

  /** No escrow, no investment, no accepted bid, no payment. */
  ghost predicate Untouched(s: State, id: InvoiceId) {
    !HasEscrow(s, id) && !HasInvestment(s, id) && AcceptedOn(s.book, id) == {} && PaymentsOf(s, id) == []
  }

  /** One escrow and one investment over the same investor and amount. */
  ghost predicate Backed(s: State, id: InvoiceId, e: EscrowStatus, i: InvestmentStatus) {
    && HasEscrow(s, id) && HasInvestment(s, id)
    && EscrowFor(s, id).status == e && InvestmentFor(s, id).status == i
    && EscrowFor(s, id).investor == InvestmentFor(s, id).investor
    && EscrowFor(s, id).amount == InvestmentFor(s, id).amount
  }

  /** The invoice names its investor, and one accepted bid agrees with the escrow. */
  ghost predicate OneAcceptedBid(s: State, id: InvoiceId)
    requires id in s.invoices && HasEscrow(s, id)
  {
    && s.invoices[id].investor == Some(EscrowFor(s, id).investor)
    && s.invoices[id].fundedAmount == EscrowFor(s, id).amount
    && exists b :: AcceptedOn(s.book, id) == {b} && b.investor == EscrowFor(s, id).investor && b.amount == EscrowFor(s, id).amount
  }

  /** What the status of a stored invoice says about everything else that is stored about it. */
  ghost predicate StoredAgrees(s: State, id: InvoiceId)
    requires id in s.invoices
  {
    var invoice := s.invoices[id];
    && (id in s.guards <==> invoice.status == InvoiceStatus.Defaulted)
    && (id in s.finalized <==> invoice.status == Paid)
    && match invoice.status
       case Pending => Untouched(s, id)
       case Verified => Untouched(s, id)
       case Cancelled => Untouched(s, id)
       case Funded =>
         && (Backed(s, id, Held, Active) || Backed(s, id, Released, Active))
         && OneAcceptedBid(s, id) && s.investmentOf[id] in s.active && invoice.totalPaid < invoice.amount
       case Paid => Backed(s, id, Released, Completed) && OneAcceptedBid(s, id) && invoice.totalPaid == invoice.amount
       case Refunded =>
         && Backed(s, id, EscrowStatus.Refunded, InvestmentStatus.Refunded)
         && AcceptedOn(s.book, id) == {} && invoice.investor == None && invoice.totalPaid == 0
       case Defaulted =>
         && (Backed(s, id, Held, InvestmentStatus.Defaulted) || Backed(s, id, Released, InvestmentStatus.Defaulted))
         && OneAcceptedBid(s, id) && ActivePercentage(InvestmentFor(s, id).insurance) == 0
  }

  /** In every reachable state the status of an invoice fixes everything stored about it. */
  lemma StatusFixesEverything(g: Genesis, actions: seq<Action>, id: InvoiceId)
    requires Legal(actions) && id in Reached(g, actions).invoices
    ensures StoredAgrees(Reached(g, actions), id)
  {
    hide BookOk, BidsFit, ListsOk, Custody, EscrowsOk, InvestmentsOk, NoTrace, LogOk, Total, LastInline, MovesOk,
         AcceptedOn, MovesOf, NoncesOf, Sound, Reached;
    var s := Reached(g, actions);
    ReachedInv(g, actions);
    assert Coherent(id, SliceOf(s, id));
  }

  /* ---- what later actions cannot change ---- */

  /**
    An escrow id, once recorded for an invoice, stays, and the escrow keeps its parties, its amount and its
    currency.
   */
  lemma EscrowNeverReplaced(g: Genesis, before: seq<Action>, after: seq<Action>, id: InvoiceId)
    requires Legal(before) && Legal(after) && id in Reached(g, before).invoices && HasEscrow(Reached(g, before), id)
    ensures Legal(before + after)
    ensures var s, s' := Reached(g, before), Reached(g, before + after);
      && HasEscrow(s', id) && s'.escrowOf[id] == s.escrowOf[id]
      && EscrowFor(s', id) == EscrowFor(s, id).(status := EscrowFor(s', id).status)
      && (EscrowFor(s, id).status != Held ==> EscrowFor(s', id) == EscrowFor(s, id))
  {
    hide Inv, Reached, AcceptedOn, PaymentsOf, NoncesOf, MovesOf;
    var s := Reached(g, before);
    ReachedInv(g, before);
    RunKeeps(s, after);
    ReachedConcat(g, before, after);
    assert Evolves(SliceOf(s, id), SliceOf(Run(s, after), id));
  }

  lemma ReachedConcat(g: Genesis, before: seq<Action>, after: seq<Action>)
    requires Legal(before) && Legal(after)
    ensures Legal(before + after) && Reached(g, before + after) == Run(Reached(g, before), after)
  {
    hide Run, Init;
    RunConcat(Init(g.now, g.admin, g.balances, g.allowances), before, after);
  }

  /** Nothing about a Paid, Refunded, Defaulted or Cancelled invoice ever changes again. */
  lemma ClosedIsFrozen(g: Genesis, before: seq<Action>, after: seq<Action>, id: InvoiceId)
    requires Legal(before) && Legal(after)
    requires id in Reached(g, before).invoices && Closed(Reached(g, before).invoices[id].status)
    ensures Legal(before + after) && id in Reached(g, before + after).invoices
    ensures SliceOf(Reached(g, before + after), id) == SliceOf(Reached(g, before), id)
  {
    hide Inv, Reached, AcceptedOn, PaymentsOf, NoncesOf, MovesOf, EscrowOf, InvestmentOf;
    ReachedInv(g, before);
    RunKeeps(Reached(g, before), after);
    ReachedConcat(g, before, after);
  }

  /** A default does not return the escrow: one that is still Held then stays in the contract for good. */
  lemma DefaultStrandsHeldEscrow(g: Genesis, before: seq<Action>, after: seq<Action>, id: InvoiceId)
    requires Legal(before) && Legal(after)
    requires var s := Reached(g, before);
      id in s.invoices && s.invoices[id].status == InvoiceStatus.Defaulted && HasEscrow(s, id) && EscrowFor(s, id).status == Held
    ensures Legal(before + after)
    ensures var e, s' := EscrowFor(Reached(g, before), id), Reached(g, before + after);
      HasEscrow(s', id) && EscrowFor(s', id) == e && Balance(s'.ledger, e.currency, SELF) >= e.amount
  {
    hide Inv, Reached, AcceptedOn, PaymentsOf, NoncesOf, MovesOf;
    ClosedIsFrozen(g, before, after, id);
    var s' := Reached(g, before + after);
    ReachedInv(g, before + after);
    assert EscrowOf(s', id) == EscrowOf(Reached(g, before), id);
    HeldIsCovered(s', id);
  }

  lemma HeldIsCovered(s: State, id: InvoiceId)
    requires Inv(s) && HasEscrow(s, id) && EscrowFor(s, id).status == Held
    ensures Balance(s.ledger, EscrowFor(s, id).currency, SELF) >= EscrowFor(s, id).amount
  {
    hide BookOk, BidsFit, ListsOk, ActiveOk, InvestmentsOk, NoTrace, AllCoherent;
    HeldSumCovers(s.escrows, s.escrowCount, EscrowFor(s, id).currency, s.escrowOf[id]);
  }

  /* ---- one action ---- */

  /** The edges of the invoice life cycle. */
  predicate Edge(a: InvoiceStatus, b: InvoiceStatus) {
    || a == b
    || (a == Pending && (b == Verified || b == InvoiceStatus.Cancelled))
    || (a == Verified && (b == Funded || b == InvoiceStatus.Cancelled))
    || (a == Funded && (b == Paid || b == InvoiceStatus.Refunded || b == InvoiceStatus.Defaulted))
  }

  /** One action moves an invoice along one edge of its life cycle at most. */
  lemma OneEdgeAtATime(g: Genesis, actions: seq<Action>, a: Action, id: InvoiceId)
    requires Legal(actions) && Admissible(a) && id in Reached(g, actions).invoices
    ensures id in Apply(Reached(g, actions), a).invoices
    ensures Edge(Reached(g, actions).invoices[id].status, Apply(Reached(g, actions), a).invoices[id].status)
  {
    hide Inv, Coherent, ContextOf, Reached, Apply, SplitFor, SettlementMoves, SlideHistory, Insured, EscrowOf,
         InvestmentOf, AcceptedOn, PaymentsOf, NoncesOf, MovesOf;
    var s := Reached(g, actions);
    ReachedInv(g, actions);
    var event := EventAt(s, a, id);
    assert SliceOf(s, id).invoice == s.invoices[id] && SliceOf(Apply(s, a), id).invoice == Apply(s, a).invoices[id];
  }

  /**
    An invoice is defaulted only while Funded, by an action that judges deadlines, and strictly after due date
    plus grace.
   */
  lemma DefaultOnlyWhenOverdue(g: Genesis, actions: seq<Action>, a: Action, id: InvoiceId)
    requires Legal(actions) && Admissible(a) && id in Reached(g, actions).invoices
    requires id in Apply(Reached(g, actions), a).invoices
    requires Reached(g, actions).invoices[id].status != InvoiceStatus.Defaulted
    requires Apply(Reached(g, actions), a).invoices[id].status == InvoiceStatus.Defaulted
    ensures var s := Reached(g, actions);
      s.invoices[id].status == Funded && GraceOf(a).Some? && s.now > s.invoices[id].dueDate + GraceOf(a).value
  {
    hide Inv, Reached, Apply, GraceOf, SplitFor, SettlementMoves, Credited, Insured, EscrowOf, InvestmentOf, AcceptedOn,
         PaymentsOf, NoncesOf, MovesOf;
    var s := Reached(g, actions);
    ReachedInv(g, actions);
    TimeBound(s);
    var event := EventAt(s, a, id);
    assert SliceOf(s, id).invoice == s.invoices[id] && SliceOf(Apply(s, a), id).invoice == Apply(s, a).invoices[id];
    EventOutcome(ContextOf(s, a), id, SliceOf(s, id), event);
  }

  /* ---- payments ---- */

  /** The durable log of an invoice in every reachable state. */
  lemma PaymentLogAddsUp(g: Genesis, actions: seq<Action>, id: InvoiceId)
    requires Legal(actions) && id in Reached(g, actions).invoices
    ensures var s := Reached(g, actions); var log, invoice := PaymentsOf(s, id), s.invoices[id];
      && |log| <= 1_000
      && (forall i :: 0 <= i < |log| ==> log[i].amount > 0)
      && (forall i, j :: 0 <= i < j < |log| && log[i].nonce != "" ==> log[i].nonce != log[j].nonce)
      && (forall n :: (id, n) in s.nonces <==> n != "" && exists i :: 0 <= i < |log| && log[i].nonce == n)
      && 0 <= invoice.totalPaid <= invoice.amount
      && (invoice.status != InvoiceStatus.Refunded ==> invoice.totalPaid == Total(log) && invoice.history == LastInline(log))
  {
    hide Reached, Structure, FundedOnce, MovesOk, StatusFixesRest, Total, LastInline, EscrowOf, InvestmentOf,
         AcceptedOn, MovesOf;
    var s := Reached(g, actions);
    ReachedSlice(g, actions, id);
    forall n ensures (id, n) in s.nonces <==> n in SliceOf(s, id).nonces {
      NonceOfSlice(s, id, n);
    }
  }

  lemma PercentBelow(paid: int, amount: int)
    requires 0 <= paid <= amount && amount > 0
    ensures 0 <= paid * 100 / amount <= 100 && (paid * 100 / amount == 100 <==> paid == amount)
  {
  }

  /** The reported progress never fails, and reads 100 percent exactly for Paid invoices. */
  lemma ProgressIsExact(g: Genesis, actions: seq<Action>, id: InvoiceId)
    requires Legal(actions) && id in Reached(g, actions).invoices
    ensures var invoice := Reached(g, actions).invoices[id]; var p := ProgressPercent(invoice);
      p.Ok? && 0 <= p.value <= 100 && (p.value == 100 <==> invoice.status == Paid)
  {
    hide Reached, Structure, LogOk, MovesOk, FundedOnce, FundedBy, LastInline, EscrowOf, InvestmentOf, AcceptedOn,
         MovesOf, NoncesOf, PaymentsOf;
    ReachedSlice(g, actions, id);
    var v := SliceOf(Reached(g, actions), id);
    assert v.invoice == Reached(g, actions).invoices[id];
    PercentBelow(v.invoice.totalPaid, v.invoice.amount);
  }

  lemma {:induction false} TotalGrows(first: seq<Payment>, more: seq<Payment>)
    requires first <= more && forall i :: 0 <= i < |more| ==> more[i].amount > 0
    ensures Total(first) <= Total(more)
    decreases |more|
  {
    if |first| == |more| {
      assert first == more;
    } else {
      TotalGrows(first, more[..|more| - 1]);
    }
  }

  lemma PaidGrows(v: Slice, v': Slice)
    requires Evolves(v, v') && PaymentsOk(v) && PaymentsOk(v') && v'.invoice.status != InvoiceStatus.Refunded
    ensures v.invoice.totalPaid <= v'.invoice.totalPaid && v.invoice.amount == v'.invoice.amount
  {
    hide LastInline, Total, SameEscrow, SameInvestment;
    if v.invoice.status != InvoiceStatus.Refunded {
      TotalGrows(v.payments, v'.payments);
    }
  }

  lemma QuotientsCompare(p: nat, q: nat, d: nat, x: nat, y: nat)
    requires p * d <= x <= y < (q + 1) * d
    ensures p <= q
  {
  }

  lemma PercentRounds(paid: int, more: int, amount: int)
    requires 0 <= paid <= more && amount > 0
    ensures var p := paid * 100 / amount; p * amount <= paid * 100 < (p + 1) * amount && p <= more * 100 / amount
  {
    var p, q := paid * 100 / amount, more * 100 / amount;
    assert paid * 100 == p * amount + paid * 100 % amount && more * 100 == q * amount + more * 100 % amount;
    assert (p + 1) * amount == p * amount + amount && (q + 1) * amount == q * amount + amount;
    QuotientsCompare(p, q, amount, paid * 100, more * 100);
  }

  /**
    The reported progress is the paid share of the amount in whole percent, rounded down, and it never falls in
    any continuation that does not refund the invoice.
   */
  lemma ProgressNeverFalls(g: Genesis, before: seq<Action>, after: seq<Action>, id: InvoiceId)
    requires Legal(before) && Legal(after) && id in Reached(g, before).invoices
    ensures Legal(before + after) && id in Reached(g, before + after).invoices
    ensures var invoice, later := Reached(g, before).invoices[id], Reached(g, before + after).invoices[id];
      var p, p' := ProgressPercent(invoice), ProgressPercent(later);
      && p.Ok? && p'.Ok?
      && p.value * invoice.amount <= invoice.totalPaid * 100 < (p.value + 1) * invoice.amount
      && (later.status != InvoiceStatus.Refunded ==> p.value <= p'.value)
  {
    hide Reached, Run, Inv, Structure, LogOk, LastInline, Evolves, EscrowOf, InvestmentOf, AcceptedOn, MovesOf, NoncesOf,
         PaymentsOf, StatusFixesRest, MovesOk, FundedOnce, Total;
    var s, s' := Reached(g, before), Reached(g, before + after);
    ReachedConcat(g, before, after);
    ReachedInv(g, before);
    RunKeeps(s, after);
    ReachedSlice(g, before, id);
    ReachedSlice(g, before + after, id);
    var v, v' := SliceOf(s, id), SliceOf(s', id);
    assert v.invoice == s.invoices[id] && v'.invoice == s'.invoices[id];
    PercentRounds(v.invoice.totalPaid, v.invoice.totalPaid, v.invoice.amount);
    PercentBelow(v.invoice.totalPaid, v.invoice.amount);
    PercentBelow(v'.invoice.totalPaid, v'.invoice.amount);
    if v'.invoice.status != InvoiceStatus.Refunded {
      PaidGrows(v, v');
      PercentRounds(v.invoice.totalPaid, v'.invoice.totalPaid, v.invoice.amount);
    }
  }

  /* ---- insurance ---- */

  /**
    Over any run of added policies the active percentages stay within 100, the active cover within the
    principal, and each premium between 1 and its cover.
   */
  lemma CoverStaysWithinPrincipal(g: Genesis, actions: seq<Action>, id: InvoiceId)
    requires Legal(actions) && id in Reached(g, actions).invoices && HasInvestment(Reached(g, actions), id)
    ensures var i := InvestmentFor(Reached(g, actions), id);
      && ActivePercentage(i.insurance) <= 100 && 0 <= ActiveCover(i.insurance) <= i.amount
      && forall p :: p in i.insurance ==> 1 <= p.premium <= p.amount <= i.amount
  {
    hide Reached, Structure, PaymentsOk, MovesOk, FundedBy, ActivePercentage, ActiveCover, AcceptedOn, MovesOf,
         NoncesOf, PaymentsOf;
    ReachedSlice(g, actions, id);
    var i := InvestmentFor(Reached(g, actions), id);
    assert SliceOf(Reached(g, actions), id).investment.value.1 == i;
    ActiveCoverBounded(i.insurance, i.amount);
  }

  /* ---- the indexes ---- */

  /** The seven lists hold every stored invoice exactly once, in the list of its status. */
  lemma StatusListsPartition(g: Genesis, actions: seq<Action>, id: InvoiceId, status: InvoiceStatus)
    requires Legal(actions)
    ensures var s := Reached(g, actions);
      && NoDup(ListOf(s.lists, status))
      && (id in ListOf(s.lists, status) <==> id in s.invoices && s.invoices[id].status == status)
  {
    hide Reached, AllCoherent, BookOk, BidsFit, Custody, EscrowsOk, InvestmentsOk, NoTrace;
    ReachedInv(g, actions);
  }

  /**
    In every run each live bid is listed once by its invoice and once by its investor, and no invoice has more
    than 50 of them.
   */
  lemma BidBookInEveryRun(g: Genesis, actions: seq<Action>, k: BidId)
    requires Legal(actions) && k in Reached(g, actions).book.bids
    ensures var book := Reached(g, actions).book; var bid := book.bids[k];
      && bid.id == k
      && (bid.status == Placed ==> k in IdsOf(book.byInvoice, bid.invoice) && k in IdsOf(book.byInvestor, bid.investor))
      && NoDup(IdsOf(book.byInvoice, bid.invoice)) && NoDup(IdsOf(book.byInvestor, bid.investor))
      && |PlacedOn(book, bid.invoice)| <= 50
  {
    hide Reached, AllCoherent, BidsFit, Custody, EscrowsOk, InvestmentsOk, NoTrace, ListsOk, ActiveOk, PlacedOn;
    ReachedInv(g, actions);
  }
}
