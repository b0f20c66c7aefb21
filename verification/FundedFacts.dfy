/** What the entry points know about a Funded invoice in a reachable state. */
module FundedFacts {
  import opened Base
  import opened Lists
  import opened Token
  import opened BidBook
  import opened SettlementSplit
  import opened Insurance
  import opened Protocol
  import opened Coherence
  import opened Local
  import opened Frames
  import opened Simulation

  /** A Funded invoice with an Active investment, each listed once. */
  ghost predicate Closable(s: State, id: InvoiceId) {
    && id in s.invoices && s.invoices[id].status == Funded && HasInvestment(s, id)
    && InvestmentFor(s, id).invoice == id && InvestmentFor(s, id).status == Active
    && id in ListOf(s.lists, Funded) && NoDup(ListOf(s.lists, Funded)) && NoDup(s.active)
  }

  /** Where the parts of a Funded invoice are, and how they agree. */
  ghost predicate FundedParts(s: State, id: InvoiceId) {
    && Closable(s, id) && HasEscrow(s, id)
    && var invoice, e, i := s.invoices[id], EscrowFor(s, id), InvestmentFor(s, id);
      && 0 < invoice.amount <= I128_MAX && 0 <= invoice.totalPaid <= invoice.amount
      && invoice.investor == Some(i.investor) && 0 < i.amount <= invoice.amount
      && e.status != EscrowStatus.Refunded
      && id !in s.finalized && id !in s.guards && AdmissibleFee(s.fee)
  }

  /** Before a payment completes it. */
  ghost predicate StillOwed(s: State, id: InvoiceId) {
    FundedParts(s, id) && s.invoices[id].totalPaid < s.invoices[id].amount && s.invoices[id].totalPaid * 100 <= I128_MAX
  }

  lemma ListFacts(s: State, id: InvoiceId)
    requires Structure(s) && id in s.invoices
    ensures id in ListOf(s.lists, s.invoices[id].status) && NoDup(ListOf(s.lists, s.invoices[id].status))
        && NoDup(s.active) && AdmissibleFee(s.fee)
  {
    hide BookOk, BidsFit, Custody, EscrowsOk, InvestmentsOk, NoTrace, AdmissibleFee;
  }

  lemma SliceFacts(s: State, id: InvoiceId)
    requires id in s.invoices && s.invoices[id].status == Funded && Coherent(id, SliceOf(s, id))
    ensures HasEscrow(s, id) && HasInvestment(s, id)
    ensures var invoice, e, i := s.invoices[id], EscrowFor(s, id), InvestmentFor(s, id);
      && 0 < invoice.amount <= I128_MAX && 0 <= invoice.totalPaid < invoice.amount && invoice.totalPaid * 100 <= I128_MAX
      && i.status == Active && invoice.investor == Some(i.investor) && 0 < i.amount <= invoice.amount
      && e.status != EscrowStatus.Refunded && id !in s.finalized && id !in s.guards
  {
    hide LogOk, Total, LastInline, MovesOk, AcceptedOn, NoncesOf, MovesOf, Sound;
  }

  lemma FundedIsOk(s: State, id: InvoiceId)
    requires Inv(s) && id in s.invoices && s.invoices[id].status == Funded
    ensures StillOwed(s, id)
  {
    hide Structure, Coherent, SliceOf;
    SliceFacts(s, id);
    ListFacts(s, id);
    InvestmentIds(s, id);
  }

  lemma RecordedKeepsParts(s: State, id: InvoiceId, p: Payment)
    requires FundedParts(s, id) && 0 <= p.amount <= s.invoices[id].amount - s.invoices[id].totalPaid
    ensures FundedParts(RecordedState(s, id, p), id)
  {
    CreditedTerms(s.invoices[id], p);
  }

  /** After a payment is recorded, or found to be a replay, the invoice can be closed. */
  lemma RecordKeepsParts(s: State, id: InvoiceId, amount: int, nonce: string)
    requires RecordPayment(s, id, amount, nonce).Ok? && (id in s.invoices && s.invoices[id].status == Funded ==> StillOwed(s, id))
    ensures FundedParts(RecordPayment(s, id, amount, nonce).value, id)
  {
    hide FundedParts, RecordedState, ProgressPercent;
    if RecordPayment(s, id, amount, nonce) != Ok(s) {
      RecordedKeepsParts(s, id, NextPayment(s, id, amount, nonce));
    }
  }

  lemma PaidOutClosable(s: State, id: InvoiceId, after: EscrowStatus, s1: State)
    requires Closable(s, id) && PayOutEscrow(s, id, after) == Ok(s1)
    ensures Closable(s1, id)
  {
    hide Transfer;
  }

  /* ---- the same about any stored invoice ---- */

  /** The next id is on no list. */
  lemma NextIsUnlisted(s: State)
    requires Inv(s)
    ensures s.invoiceCount + 1 !in ListOf(s.lists, Pending)
  {
    hide BookOk, BidsFit, Custody, EscrowsOk, InvestmentsOk, NoTrace, AllCoherent, ActiveOk;
    assert s.invoiceCount + 1 !in s.invoices.Keys;
  }

  lemma ListedByStatus(s: State, id: InvoiceId)
    requires Inv(s) && id in s.invoices
    ensures id in ListOf(s.lists, s.invoices[id].status) && NoDup(ListOf(s.lists, s.invoices[id].status))
  {
    hide Structure;
    ListFacts(s, id);
  }

  lemma StatusKeeps(s: State, id: InvoiceId, event: Event)
    requires Inv(s) && id in s.invoices && (event == Verifying || event == Cancelling)
    requires s.invoices[id].status == Pending || (event == Cancelling && s.invoices[id].status == Verified)
    ensures Inv(WithInvoice(s, id, s.invoices[id].(status := if event == Verifying then Verified else InvoiceStatus.Cancelled)))
  {
    hide Inv, StepOf, Relist, EscrowOf, InvestmentOf, AcceptedOn, PaymentsOf, NoncesOf, MovesOf;
    var c := Context(s.now, s.fee, None);
    assert Enabled(c, SliceOf(s, id), event);
    StatusStep(c, s, id, event);
    StepKeeps(c, s, WithInvoice(s, id,
        s.invoices[id].(status := if event == Verifying then Verified else InvoiceStatus.Cancelled)));
  }

  /* ---- the accepted bid of a Funded invoice ---- */

  /** The records of a list of ids are the records of its members. */
  lemma {:induction false} RecordsMembers(bids: map<BidId, Bid>, ids: seq<BidId>)
    ensures forall b :: b in Records(bids, ids) <==> exists k :: k in ids && k in bids && bids[k] == b
  {
    if |ids| > 0 {
      var front, last := ids[..|ids| - 1], ids[|ids| - 1];
      assert ids == front + [last];
      RecordsMembers(bids, front);
      forall b ensures b in Records(bids, ids) <==> exists k :: k in ids && k in bids && bids[k] == b {
        if k :| k in ids && k in bids && bids[k] == b {
          assert k in front || k == last;
        }
      }
    }
  }

  /**
    After the cleanup, the records of a Funded invoice hold one accepted bid, and cancelling it is all a refund
    does to the book.
   */
  lemma AcceptedRecord(s: State, id: InvoiceId) returns (b: Bid)
    requires Inv(s) && id in s.invoices && s.invoices[id].status == Funded
    ensures var book := RefreshInvoice(s.book, s.now, id);
      && b.status == Accepted && b in Records(book.bids, IdsOf(book.byInvoice, id))
      && (forall x :: x in Records(book.bids, IdsOf(book.byInvoice, id)) && x.status == Accepted ==> x == b)
      && CancelAccepted(book, id) == book.(bids := book.bids[b.id := b.(status := BidStatus.Cancelled)])
  {
    hide Structure, Coherent, BidsFit, RefreshInvoice, CancelAccepted;
    assert Coherent(id, SliceOf(s, id));
    BookInOrder(s);
    CleanupServes(s.book, s.invoices, s.now, id);
    var book := RefreshInvoice(s.book, s.now, id);
    b := TheAcceptedBid(id, SliceOf(s, id));
    assert AcceptedOn(book, id) == {b};
    OneAcceptedRecord(book, id, b);
  }

  lemma OneAcceptedRecord(book: Book, id: InvoiceId, b: Bid)
    requires BookOk(book) && AcceptedOn(book, id) == {b}
    ensures b.status == Accepted && b in Records(book.bids, IdsOf(book.byInvoice, id))
    ensures forall x :: x in Records(book.bids, IdsOf(book.byInvoice, id)) && x.status == Accepted ==> x == b
    ensures CancelAccepted(book, id) == book.(bids := book.bids[b.id := b.(status := BidStatus.Cancelled)])
  {
    hide TableOk, PlacedOn, CancelAccepted;
    var ids := IdsOf(book.byInvoice, id);
    assert TableOk(book);
    CancelTheAccepted(book, id, b);
    AcceptedStatus(book, id, b);
    RecordsMembers(book.bids, ids);
    assert b.id in ids;
    forall x | x in Records(book.bids, ids) && x.status == Accepted ensures x == b {
      var k :| k in ids && k in book.bids && book.bids[k] == x;
      assert x in AcceptedOn(book, id);
    }
  }

  /* ---- a Verified invoice and the bids on it ---- */

  lemma VerifiedFacts(s: State, id: InvoiceId)
    requires Inv(s) && id in s.invoices && s.invoices[id].status == Verified
    ensures id !in s.escrowOf && id !in s.investmentOf
    ensures var invoice := s.invoices[id]; invoice.fundedAmount == 0 && invoice.fundedAt == None && invoice.investor == None
    ensures id in ListOf(s.lists, Verified) && NoDup(ListOf(s.lists, Verified))
  {
    hide Structure, PaymentsOk, MovesOk, AcceptedOn, NoncesOf, MovesOf, EscrowOf, InvestmentOf;
    assert Coherent(id, SliceOf(s, id));
    assert SliceOf(s, id).invoice == s.invoices[id];
    NotYetFunded(s, id);
    ListFacts(s, id);
  }

  /** After the cleanup a Placed bid on the invoice is neither expired nor worthless, and is stored under its own id. */
  lemma PlacedFacts(book: Book, now: nat, id: InvoiceId, k: BidId)
    requires BookOk(book)
    ensures var book' := RefreshInvoice(book, now, id);
      k in book'.bids ==>
        && book'.bids[k].id == k && book'.bids[k].amount > 0
        && (book'.bids[k].invoice == id && book'.bids[k].status == Placed ==> !IsExpired(book'.bids[k], now))
  {
    hide PlacedOn;
    RefreshLeavesNoneLapsed(book.bids, book.byInvoice, ByInvoice, now, id);
  }

  /** The parts of `FundedState`, one by one. */
  lemma FundedByFields(s: State, id: InvoiceId, k: BidId, ledger: Ledger, s': State)
    requires id in s.invoices && k in s.book.bids
    requires var bid, invoice := s.book.bids[k], s.invoices[id];
      && s'.book == SetStatus(s.book, k, Accepted) && s'.ledger == ledger
      && s'.invoices == s.invoices[id := MarkFunded(invoice, bid.investor, bid.amount, s.now)]
      && s'.lists == Relist(s.lists, id, invoice.status, Funded)
      && s'.escrowCount == s.escrowCount + 1 && s'.escrowOf == s.escrowOf[id := s.escrowCount + 1]
      && s'.escrows == s.escrows[s.escrowCount + 1 := Escrow(id, bid.investor, invoice.business, bid.amount,
          invoice.currency, s.now, Held)]
      && s'.investmentCount == s.investmentCount + 1 && s'.investmentOf == s.investmentOf[id := s.investmentCount + 1]
      && s'.investments == s.investments[s.investmentCount + 1 := Investment(id, bid.investor, bid.amount, s.now, Active, [])]
      && s'.active == AddUnique(s.active, s.investmentCount + 1)
    requires s.(invoices := s'.invoices, lists := s'.lists, book := s'.book, ledger := ledger,
        escrowCount := s'.escrowCount, escrows := s'.escrows,
                escrowOf := s'.escrowOf, investmentCount := s'.investmentCount, investments := s'.investments,
                    investmentOf := s'.investmentOf,
                active := s'.active) == s'
    ensures s' == FundedState(s, id, k, ledger)
  {
  }

  /** What the checks of `place_bid` find in a book that is in order. */
  lemma PlacingFacts(book: Book, now: nat, investor: Address, id: InvoiceId)
    requires BookOk(book)
    ensures var b1 := RefreshInvoice(book, now, id); var b2 := RefreshInvestor(b1, now, investor);
      && BookOk(b1) && BookOk(b2) && RefreshInvoice(b1, now, id) == b1
      && |Filter(IdsOf(b1.byInvoice, id), PlacedIds(b1.bids))| == |PlacedOn(b1, id)|
      && |Filter(IdsOf(b2.byInvestor, investor), PlacedIds(b2.bids))| == |PlacedBy(b2, investor)|
  {
    hide BookOk, RefreshInvoice, RefreshInvestor, PlacedOn, PlacedBy;
    RefreshInvoiceOk(book, now, id);
    CleanupIdempotent(book, now, id);
    var b1 := RefreshInvoice(book, now, id);
    ActiveCountsAreDirect(b1, id);
    RefreshInvestorOk(b1, now, investor);
    ActiveCountsAreDirect(RefreshInvestor(b1, now, investor), investor);
  }

  lemma RefreshedInOrder(book: Book, now: nat, id: InvoiceId)
    requires BookOk(book)
    ensures BookOk(RefreshInvoice(book, now, id))
  {
    RefreshInvoiceOk(book, now, id);
  }

  /** The live bids on an invoice are the Placed entries of its index. */
  lemma PlacedAreListed(book: Book, id: InvoiceId, k: BidId)
    requires BookOk(book)
    ensures k in PlacedOn(book, id) <==> k in IdsOf(book.byInvoice, id) && k in book.bids && book.bids[k].status == Placed
  {
    hide TableOk;
  }

  /* ---- investments ---- */

  lemma InvestmentFacts(s: State, v: InvestmentId)
    requires Inv(s) && v in s.investments
    ensures var i := s.investments[v];
      && 0 < i.amount <= I128_MAX && NoDup(s.active) && i.invoice in s.investmentOf && s.investmentOf[i.invoice] == v
      && s.investmentOf[i.invoice := v] == s.investmentOf
  {
    hide Structure, Coherent, AcceptedOn, MovesOf, NoncesOf, PaymentsOf, EscrowOf;
    InvestmentHome(s, v);
    var id := s.investments[v].invoice;
    InvestedAmount(id, SliceOf(s, id));
    ListFacts(s, id);
  }

  lemma InvestedAmount(id: InvoiceId, v: Slice)
    requires Coherent(id, v) && v.investment.Some?
    ensures 0 < v.investment.value.1.amount <= I128_MAX
  {
    hide PaymentsOk, MovesOk;
  }

  lemma StoredUnderId(s: State, k: BidId)
    requires Inv(s) && k in s.book.bids
    ensures s.book.bids[k].id == k
  {
    hide Structure;
    InvStructure(s);
    BidFacts(s, k);
  }

  /* ---- the scan ---- */

  lemma FundedAreStored(s: State)
    requires Inv(s)
    ensures forall id :: id in ListOf(s.lists, Funded) ==> id in s.invoices
  {
    hide BookOk, BidsFit, ActiveOk, Custody, EscrowsOk, InvestmentsOk, NoTrace, AllCoherent;
  }

  lemma DefaultKeepsShape(s: State, id: InvoiceId)
    ensures HandleDefault(s, id).Ok? ==>
      var s' := HandleDefault(s, id).value;
      s'.invoices.Keys == s.invoices.Keys && forall j :: j in s.invoices ==> s'.invoices[j].dueDate == s.invoices[j].dueDate
  {
    hide Relist, Deactivate;
  }

  /** How many of the inspected invoices are past their due date. */
  function LateCount(s: State, ids: seq<InvoiceId>): nat {
    if |ids| == 0 then 0
    else
      var last := ids[|ids| - 1];
      LateCount(s, ids[..|ids| - 1]) + if last in s.invoices && s.now > s.invoices[last].dueDate then 1 else 0
  }

  lemma ScanKeeps(s: State, grace: nat, limit: Option<u32>)
    requires Inv(s)
    ensures ScanFunded(s, grace, limit).Ok? && Inv(ScanFunded(s, grace, limit).value)
  {
    hide Inv, StepOf, ScanFunded;
    var c := Context(s.now, s.fee, Some(grace));
    ScanStep(c, s, grace, limit);
    StepKeeps(c, s, ScanFunded(s, grace, limit).value);
  }

  lemma DefaultNone(s: State, grace: nat)
    ensures DefaultEach(s, [], grace) == Ok(s) && LateCount(s, []) == 0
  {
  }
}
