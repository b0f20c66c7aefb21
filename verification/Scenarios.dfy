/**
  Runs that lead somewhere in particular: from deployment to a Funded invoice, to a Paid one, and to any list of
  Funded invoices with any of them overdue and the scan cursor anywhere.
 */
module Scenarios {
  import opened Base
  import opened Lists
  import opened Token
  import opened BidBook
  import opened SettlementSplit
  import opened Protocol
  import opened Coherence
  import opened Simulation
  import opened Runs

  const BUSINESS: Address := 1
  const INVESTOR: Address := 2
  const ADMIN: Address := 3
  const CURRENCY: Address := 4

  const FREE_TERMS: BidTerms := BidTerms(None, None, 0, 0, 0, 1)

  /** A deployment at time 0 with an investor who has money; nobody has approved anything yet. */
  function Deployed(funds: nat): Genesis {
    Genesis(0, ADMIN, map[(CURRENCY, INVESTOR) := funds], map[])
  }

  /** What an invoice is about, and who funds it in full. */
  datatype Deal = Deal(business: Address, investor: Address, currency: Address, amount: int, dueDate: nat)

  predicate Sensible(d: Deal) {
    && d.business != SELF && d.investor != SELF && d.investor != d.business
    && 0 < d.amount < I128_MAX && d.dueDate <= U64_MAX
  }

  /** The parties of the runs from deployment. */
  function Usual(amount: int, dueDate: nat): Deal { Deal(BUSINESS, INVESTOR, CURRENCY, amount, dueDate) }

  /** From nothing to a Funded invoice `id`, which is bid `k` on it that funds it in full. */
  function Funding(id: InvoiceId, k: BidId, d: Deal): seq<Action>
    requires Sensible(d)
  {
    [Create(d.business, d.amount, d.currency, d.dueDate, None, None),
     Verify(id),
     HolderApproves(d.currency, d.investor, d.amount),
     Bidding(d.investor, id, d.amount, d.amount + 1, FREE_TERMS),
     Accept(id, k, None)]
  }

  lemma {:induction false} FiveActions(s: State, actions: seq<Action>)
    requires Legal(actions) && |actions| == 5
    ensures Run(s, actions)
         == Apply(Apply(Apply(Apply(Apply(s, actions[0]), actions[1]), actions[2]), actions[3]), actions[4])
  {
    hide Apply;
    var a1, a2, a3, a4 := actions[..1], actions[..2], actions[..3], actions[..4];
    assert a1[..0] == [] && a2[..1] == a1 && a3[..2] == a2 && a4[..3] == a3;
    assert Run(s, a1) == Apply(s, actions[0]);
    assert Run(s, a2) == Apply(Run(s, a1), actions[1]);
    assert Run(s, a3) == Apply(Run(s, a2), actions[2]);
    assert Run(s, a4) == Apply(Run(s, a3), actions[3]);
  }

  lemma OneAction(s: State, a: Action)
    requires Admissible(a)
    ensures Legal([a]) && Run(s, [a]) == Apply(s, a)
  {
    hide Apply;
    assert [a][..0] == [];
    assert Run(s, []) == s;
  }

  lemma NextIsFresh(s: State)
    requires Inv(s)
    ensures s.invoiceCount + 1 !in s.invoices && s.invoiceCount + 1 !in ListOf(s.lists, Funded)
    ensures forall k :: k in s.book.bids ==> s.book.bids[k].invoice != s.invoiceCount + 1
    ensures PaymentsOf(s, s.invoiceCount + 1) == []
  {
    hide BookOk, Custody, EscrowsOk, InvestmentsOk, ActiveOk, AllCoherent, NoDup;
  }

  lemma Creates(s: State, d: Deal)
    requires Inv(s) && Sensible(d) && d.dueDate > s.now
    ensures var id := s.invoiceCount + 1;
      Apply(s, Create(d.business, d.amount, d.currency, d.dueDate, None, None))
      == s.(invoiceCount := id, invoices := s.invoices[id := NewInvoice(d.business, d.amount, d.currency, d.dueDate)],
            lists := s.lists[Pending := AddUnique(ListOf(s.lists, Pending), id)])
  {
    hide Inv;
  }

  lemma Verifies(s: State, id: InvoiceId)
    requires id in s.invoices && s.invoices[id].status == Pending
    ensures Apply(s, Verify(id)) == WithInvoice(s, id, s.invoices[id].(status := Verified))
  {
    hide WithInvoice;
  }

  lemma Approves(s: State, currency: Address, holder: Address, amount: nat)
    ensures var s' := Apply(s, HolderApproves(currency, holder, amount));
      && s' == s.(ledger := s'.ledger)
      && Allowance(s'.ledger, currency, holder) == amount && s'.ledger.balances == s.ledger.balances
  {
  }

  lemma BiddingIs(s: State, id: InvoiceId, d: Deal)
    requires Sensible(d)
    ensures Attempt(s, Bidding(d.investor, id, d.amount, d.amount + 1, FREE_TERMS))
         == PlaceBid(s, d.investor, id, d.amount, d.amount + 1, FREE_TERMS)
  {
    hide PlaceBid;
  }

  lemma AcceptIs(s: State, id: InvoiceId, k: BidId)
    ensures Attempt(s, Accept(id, k, None)) == AcceptBidAndFund(s, id, k, None)
  {
    hide AcceptBidAndFund;
  }

  /** The investor's bid on invoice `id` is the next in the book. */
  predicate BidStored(s: State, s': State, id: InvoiceId, d: Deal) {
    var k := s.book.count + 1;
    && s' == s.(book := s'.book) && s'.book.count == k && k in s'.book.bids
    && s'.book.bids[k]
       == Bid(k, id, d.investor, d.amount, d.amount + 1, s.now, Placed, SatAdd64(s.now, SECONDS_PER_DAY))
  }

  /** The first bid on a Verified invoice is placed. */
  lemma Bids(s: State, id: InvoiceId, d: Deal)
    requires Sensible(d) && id in s.invoices && s.invoices[id].status == Verified && s.now < s.invoices[id].dueDate
    requires s.invoices[id].business == d.business && s.invoices[id].amount == d.amount
    requires forall k :: k in s.book.bids ==> s.book.bids[k].invoice != id
    ensures BidStored(s, Apply(s, Bidding(d.investor, id, d.amount, d.amount + 1, FREE_TERMS)), id, d)
  {
    hide Attempt, RefreshInvoice, PlacedOn, MinimumBid;
    BiddingIs(s, id, d);
    NoBidsYet(s.book, s.now, id);
    NoBidsYet(RefreshInvoice(s.book, s.now, id), s.now, id);
    assert MinimumBid(s.invoices[id], FREE_TERMS) == 0 by {
      NoMinimum(s.invoices[id]);
    }
  }

  lemma NoMinimum(invoice: Invoice)
    ensures MinimumBid(invoice, FREE_TERMS) == 0
  {
    assert SatMul(invoice.amount, 0) == 0;
  }

  lemma NoBidsYet(book: Book, now: nat, id: InvoiceId)
    requires forall k :: k in book.bids ==> book.bids[k].invoice != id
    ensures var book' := RefreshInvoice(book, now, id);
      && PlacedOn(book', id) == {} && book'.count == book.count
      && forall k :: k in book'.bids ==> book'.bids[k].invoice != id
  {
    RefreshAges(book, now, id);
  }

  /** An invoice has been funded by bid `bid`, and its escrow is Held. */
  predicate EscrowTaken(s: State, s': State, id: InvoiceId, bid: Bid)
    requires id in s.invoices
  {
    var invoice := s.invoices[id];
    && s'.now == s.now && s'.cursor == s.cursor && s'.fee == s.fee && s'.invoiceCount == s.invoiceCount
    && s'.book.count == s.book.count && s'.payments == s.payments && s'.nonces == s.nonces
    && s'.invoices == s.invoices[id := MarkFunded(invoice, bid.investor, bid.amount, s.now)]
    && s'.lists == Relist(s.lists, id, invoice.status, Funded)
    && HasEscrow(s', id)
    && EscrowFor(s', id) == Escrow(id, bid.investor, invoice.business, bid.amount, invoice.currency, s.now, Held)
  }

  /** Accepting a live bid whose investor can pay funds the invoice. */
  lemma Accepts(s: State, id: InvoiceId, k: BidId)
    requires id in s.invoices && s.invoices[id].status == Verified
    requires k in s.book.bids && s.book.bids[k].invoice == id && s.book.bids[k].status == Placed
    requires !IsExpired(s.book.bids[k], s.now) && s.book.bids[k].amount > 0 && s.book.bids[k].investor != SELF
    requires var bid, c := s.book.bids[k], s.invoices[id].currency;
      Balance(s.ledger, c, bid.investor) >= bid.amount && Allowance(s.ledger, c, bid.investor) >= bid.amount
    ensures var s', bid := Apply(s, Accept(id, k, None)), s.book.bids[k];
      && EscrowTaken(s, s', id, bid)
      && Balance(s'.ledger, s.invoices[id].currency, bid.investor)
         == Balance(s.ledger, s.invoices[id].currency, bid.investor) - bid.amount
  {
    hide Attempt, RefreshInvoice, Relist, Balance, Allowance;
    AcceptIs(s, id, k);
    StillLive(s.book, s.now, id, k);
    PaysIn(s.ledger, id, s.invoices[id].currency, s.book.bids[k].investor, s.book.bids[k].amount);
  }

  lemma PaysIn(l: Ledger, id: InvoiceId, c: Address, source: Address, amount: int)
    requires source != SELF && 0 < amount <= Balance(l, c, source) && amount <= Allowance(l, c, source)
    ensures Transfer(l, Some(id), c, source, SELF, amount).Ok?
    ensures Balance(Transfer(l, Some(id), c, source, SELF, amount).value, c, source) == Balance(l, c, source) - amount
  {
  }

  lemma StillLive(book: Book, now: nat, id: InvoiceId, k: BidId)
    requires k in book.bids && !IsExpired(book.bids[k], now)
    ensures var book' := RefreshInvoice(book, now, id);
      k in book'.bids && book'.bids[k] == book.bids[k] && book'.count == book.count
  {
  }

  /* ---- one Funded invoice ---- */

  /** What `Funding` leaves behind: one more Funded invoice, at the end of the list, with its escrow Held. */
  ghost predicate FundedNext(s: State, s': State, id: InvoiceId, d: Deal) {
    && s'.invoiceCount == id && s'.book.count == s.book.count + 1 && s'.fee == s.fee
    && s'.now == s.now && s'.cursor == s.cursor && s'.nonces == s.nonces
    && s'.invoices
       == s.invoices[id := MarkFunded(NewInvoice(d.business, d.amount, d.currency, d.dueDate), d.investor, d.amount, s.now)]
    && ListOf(s'.lists, Funded) == ListOf(s.lists, Funded) + [id] && PaymentsOf(s', id) == []
    && HasEscrow(s', id) && EscrowFor(s', id) == Escrow(id, d.investor, d.business, d.amount, d.currency, s.now, Held)
    && Balance(s'.ledger, d.currency, d.investor) == Balance(s.ledger, d.currency, d.investor) - d.amount
  }

  function VerifiedInvoice(d: Deal): Invoice {
    NewInvoice(d.business, d.amount, d.currency, d.dueDate).(status := Verified)
  }

  /** The invoice is stored and Verified, and the investor has approved the amount. */
  ghost predicate Prepared(s: State, s': State, id: InvoiceId, d: Deal) {
    && s'.now == s.now && s'.cursor == s.cursor && s'.fee == s.fee && s'.book == s.book
    && s'.payments == s.payments && s'.nonces == s.nonces && s'.invoiceCount == id
    && s'.invoices == s.invoices[id := VerifiedInvoice(d)]
    && s'.lists == Relist(s.lists[Pending := AddUnique(ListOf(s.lists, Pending), id)], id, Pending, Verified)
    && s'.ledger.balances == s.ledger.balances && Allowance(s'.ledger, d.currency, d.investor) == d.amount
  }

  lemma Prepares(s: State, d: Deal)
    requires Inv(s) && Sensible(d) && d.dueDate > s.now
    ensures var id := s.invoiceCount + 1;
      var s1 := Apply(s, Create(d.business, d.amount, d.currency, d.dueDate, None, None));
      Prepared(s, Apply(Apply(s1, Verify(id)), HolderApproves(d.currency, d.investor, d.amount)), id, d)
  {
    hide Inv, Apply, Allowance, Relist;
    var id := s.invoiceCount + 1;
    var s1 := Apply(s, Create(d.business, d.amount, d.currency, d.dueDate, None, None));
    Creates(s, d);
    Verifies(s1, id);
    var s2 := Apply(s1, Verify(id));
    assert s2.invoices == s.invoices[id := VerifiedInvoice(d)];
    Approves(s2, d.currency, d.investor, d.amount);
  }

  lemma Concludes(s: State, s3: State, id: InvoiceId, k: BidId, d: Deal)
    requires Inv(s) && id == s.invoiceCount + 1 && k == s.book.count + 1
    requires Sensible(d) && d.dueDate > s.now && Balance(s.ledger, d.currency, d.investor) >= d.amount
    requires Prepared(s, s3, id, d)
    ensures var s4 := Apply(s3, Bidding(d.investor, id, d.amount, d.amount + 1, FREE_TERMS));
      FundedNext(s, Apply(s4, Accept(id, k, None)), id, d)
  {
    hide Inv, Apply, Balance, Allowance, Relist;
    NextIsFresh(s);
    Bids(s3, id, d);
    var s4 := Apply(s3, Bidding(d.investor, id, d.amount, d.amount + 1, FREE_TERMS));
    assert !IsExpired(s4.book.bids[k], s4.now) by {
      TimeBound(s);
    }
    SameBalance(s.ledger, s3.ledger, d.currency, d.investor);
    Accepts(s4, id, k);
    FundedLast(s, s.lists[Pending := AddUnique(ListOf(s.lists, Pending), id)], s3.lists,
        Apply(s4, Accept(id, k, None)).lists, id);
  }

  /** From any state that keeps the invariant, five actions fund one more invoice, if the investor has the money. */
  lemma FundsFrom(s: State, d: Deal)
    requires Inv(s) && Sensible(d) && d.dueDate > s.now && Balance(s.ledger, d.currency, d.investor) >= d.amount
    ensures var actions := Funding(s.invoiceCount + 1, s.book.count + 1, d);
      Legal(actions) && FundedNext(s, Run(s, actions), s.invoiceCount + 1, d)
  {
    hide Inv, Apply, Run, Balance, Prepared, FundedNext;
    var id, k := s.invoiceCount + 1, s.book.count + 1;
    var actions := Funding(id, k, d);
    FiveActions(s, actions);
    Prepares(s, d);
    Concludes(s, Apply(Apply(Apply(s, actions[0]), actions[1]), actions[2]), id, k, d);
  }

  /** From any reachable state and for any parties: funding goes through if the investor has the money and the date is ahead. */
  lemma Funds(g: Genesis, before: seq<Action>, d: Deal)
    requires Legal(before) && Sensible(d)
    requires var s := Reached(g, before); d.dueDate > s.now && Balance(s.ledger, d.currency, d.investor) >= d.amount
    ensures var s := Reached(g, before); var actions := Funding(s.invoiceCount + 1, s.book.count + 1, d);
      && Legal(actions) && Legal(before + actions)
      && FundedNext(s, Reached(g, before + actions), s.invoiceCount + 1, d)
  {
    hide Inv, Run, Reached, Funding, Balance, FundedNext;
    var s := Reached(g, before);
    ReachedInv(g, before);
    FundsFrom(s, d);
    ReachedConcat(g, before, Funding(s.invoiceCount + 1, s.book.count + 1, d));
  }

  lemma SameBalance(l: Ledger, l': Ledger, currency: Address, holder: Address)
    requires l'.balances == l.balances
    ensures Balance(l', currency, holder) == Balance(l, currency, holder)
  {
  }

  /** A new invoice passes through the lists and ends up last among the Funded ones. */
  lemma FundedLast(s: State, created: StatusLists, verified: StatusLists, funded: StatusLists, id: InvoiceId)
    requires id !in ListOf(s.lists, Funded)
    requires created == s.lists[Pending := AddUnique(ListOf(s.lists, Pending), id)]
    requires verified == Relist(created, id, Pending, Verified) && funded == Relist(verified, id, Verified, Funded)
    ensures ListOf(funded, Funded) == ListOf(s.lists, Funded) + [id]
  {
    hide RemoveFirst;
  }
}
