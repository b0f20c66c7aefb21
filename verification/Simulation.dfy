/**
  Every step of the protocol acts on every invoice as one event of `Local`, and keeps the
  structure around it; so the invariant of `Coherence` holds in every run.
 */
module Simulation {
  import opened Base
  import opened Lists
  import opened Token
  import opened BidBook
  import opened SettlementSplit
  import opened Insurance
  import opened Protocol
  import opened Coherence
  import opened Local
  import opened Frames

  /** Every invoice of `s` takes one event, and the others of `s'` are new. */
  ghost predicate Simulates(c: Context, s: State, s': State) {
    && (forall j :: j in s.invoices ==> j in s'.invoices && LocalStep(c, j, SliceOf(s, j), SliceOf(s', j)))
    && (forall j :: j in s'.invoices && j !in s.invoices ==> IsNew(SliceOf(s', j)))
  }

  ghost predicate StepOf(c: Context, s: State, s': State) { Structure(s') && Simulates(c, s, s') }

  /** A step on one invoice is a step of the whole. */
  lemma OneInvoice(c: Context, s: State, s': State, id: InvoiceId, event: Event)
    requires Structure(s') && OnlyTouches(s, s', id) && Enabled(c, SliceOf(s, id), event)
    requires SliceOf(s', id) == After(c, id, SliceOf(s, id), event)
    ensures StepOf(c, s, s')
  {
    hide Structure, Enabled, After, LocalStep, EscrowOf, InvestmentOf, AcceptedOn, PaymentsOf, NoncesOf, MovesOf;
    ByEvent(c, id, SliceOf(s, id), event);
    forall j | j in s.invoices ensures LocalStep(c, j, SliceOf(s, j), SliceOf(s', j)) {
      if j != id {
        SameNonces(s, s', j);
        assert SliceOf(s', j) == SliceOf(s, j);
        Resting(c, j, SliceOf(s, j));
      }
    }
  }

  lemma Resting(c: Context, j: InvoiceId, v: Slice)
    ensures LocalStep(c, j, v, v)
  {
    ByEvent(c, j, v, Rest);
  }

  /** A step that no invoice notices. */
  lemma NoInvoice(c: Context, s: State, s': State)
    requires Structure(s') && s'.invoices.Keys == s.invoices.Keys
    requires forall j :: j in s.invoices ==> SliceOf(s', j) == SliceOf(s, j)
    ensures StepOf(c, s, s')
  {
    hide Structure, SliceOf, LocalStep;
    forall j | j in s.invoices ensures LocalStep(c, j, SliceOf(s, j), SliceOf(s', j)) {
      Resting(c, j, SliceOf(s, j));
    }
  }

  /** Steps keep the invariant. */
  lemma StepKeeps(c: Context, s: State, s': State)
    requires Inv(s) && StepOf(c, s, s')
    ensures Inv(s')
  {
    hide Structure, SliceOf, Coherent, Enabled, After, IsNew;
    forall j | j in s'.invoices ensures Coherent(j, SliceOf(s', j)) {
      if j in s.invoices {
        var event :| Enabled(c, SliceOf(s, j), event) && SliceOf(s', j) == After(c, j, SliceOf(s, j), event);
        EventKeepsCoherent(c, j, SliceOf(s, j), event);
      } else {
        NewCoherent(j, SliceOf(s', j));
      }
    }
  }

  /* ---- invoices before funding ---- */

  lemma CreateLists(invoices: map<InvoiceId, Invoice>, lists: StatusLists, id: InvoiceId,
                    invoice: Invoice)
    requires ListsOk(invoices, lists) && id !in invoices && invoice.status == Pending
    ensures ListsOk(invoices[id := invoice], lists[Pending := AddUnique(ListOf(lists, Pending), id)])
  {
    var lists' := lists[Pending := AddUnique(ListOf(lists, Pending), id)];
    assert ListOf(lists', Pending) == ListOf(lists, Pending) + [id];
    assert forall st :: st != Pending ==> ListOf(lists', st) == ListOf(lists, st);
  }

  /** The next invoice id has left no trace. */
  lemma FreshId(s: State, id: InvoiceId)
    requires Inv(s) && id == s.invoiceCount + 1
    ensures id !in s.invoices && IdsOk(s.invoices.Keys + {id}, id)
    ensures id !in s.escrowOf && id !in s.investmentOf && id !in s.finalized && id !in s.guards
    ensures NoncesOf(s, id) == {} && AcceptedOn(s.book, id) == {} && PaymentsOf(s, id) == [] && MovesOf(s.ledger.moves, id) == []
  {
    hide BookOk, ListsOk, ActiveOk, Custody, AllCoherent;
    MovesOfNone(s.ledger.moves, id);
  }

  /** More invoices to choose from do not disturb the tables. */
  lemma MoreInvoices(s: State, invoices: map<InvoiceId, Invoice>)
    requires Inv(s) && s.invoices.Keys <= invoices.Keys && forall j :: j in s.invoices ==> invoices[j] == s.invoices[j]
    ensures EscrowsOk(invoices.Keys, s.escrows, s.escrowOf, s.escrowCount)
    ensures InvestmentsOk(invoices.Keys, s.investments, s.investmentOf, s.investmentCount)
    ensures NoTrace(invoices.Keys, s.finalized, s.guards, s.payments, s.nonces, s.ledger.moves)
    ensures BidsFit(s.book, invoices)
  {
    hide BookOk, ListsOk, ActiveOk, Custody, AllCoherent;
  }

  lemma CreatedSlice(s: State, s': State, id: InvoiceId, invoice: Invoice)
    requires Inv(s) && id == s.invoiceCount + 1
    requires s' == s.(invoices := s.invoices[id := invoice], invoiceCount := id, lists := s'.lists)
    ensures SliceOf(s', id) == Slice(invoice, None, None, {}, [], {}, false, false, [])
    ensures forall j :: j in s.invoices ==> j != id && SliceOf(s', j) == SliceOf(s, j)
  {
    hide Inv, MovesOf, AcceptedOn;
    FreshId(s, id);
  }

  lemma CreateStructure(s: State, invoice: Invoice)
    requires Inv(s) && invoice.status == Pending
    ensures var id := s.invoiceCount + 1;
      Structure(s.(invoiceCount := id, invoices := s.invoices[id := invoice],
                   lists := s.lists[Pending := AddUnique(ListOf(s.lists, Pending), id)]))
  {
    hide BookOk, BidsFit, ListsOk, IdsOk, ActiveOk, Custody, EscrowsOk, InvestmentsOk, NoTrace, MovesOf, AcceptedOn,
         AllCoherent;
    var id := s.invoiceCount + 1;
    FreshId(s, id);
    assert s.invoices[id := invoice].Keys == s.invoices.Keys + {id};
    CreateLists(s.invoices, s.lists, id, invoice);
    MoreInvoices(s, s.invoices[id := invoice]);
  }

  lemma CreateStep(c: Context, s: State, business: Address, amount: i128, currency: Address, dueDate: u64,
                   kyc: Option<Error>, gate: Option<Error>)
    requires Inv(s) && business != SELF && CreateInvoice(s, business, amount, currency, dueDate, kyc, gate).Ok?
    ensures StepOf(c, s, CreateInvoice(s, business, amount, currency, dueDate, kyc, gate).value)
  {
    hide Structure, AllCoherent, SliceOf, LocalStep;
    var s' := CreateInvoice(s, business, amount, currency, dueDate, kyc, gate).value;
    var id, invoice := s.invoiceCount + 1, NewInvoice(business, amount, currency, dueDate);
    CreateStructure(s, invoice);
    CreatedSlice(s, s', id, invoice);
    forall j | j in s.invoices ensures LocalStep(c, j, SliceOf(s, j), SliceOf(s', j)) {
      Resting(c, j, SliceOf(s, j));
    }
  }

  /** Changing only the status of an invoice. */
  lemma StatusStep(c: Context, s: State, id: InvoiceId, event: Event)
    requires Inv(s) && id in s.invoices && (event == Verifying || event == Cancelling) && Enabled(c, SliceOf(s, id), event)
    ensures StepOf(c, s, WithInvoice(s, id,
        s.invoices[id].(status := if event == Verifying then Verified else InvoiceStatus.Cancelled)))
  {
    hide Structure, OnlyTouches, EscrowOf, InvestmentOf, AcceptedOn, PaymentsOf, NoncesOf, MovesOf;
    var s' := WithInvoice(s, id, s.invoices[id].(status := if event == Verifying then Verified else InvoiceStatus.Cancelled));
    InvoiceBlock(s, id, s'.invoices[id]);
    OneInvoice(c, s, s', id, event);
  }

  /* ---- bids ---- */

  /** A book that may replace another: it is in order, its bids fit the invoices, and no accepted bid has changed. */
  ghost predicate Serves(book: Book, book': Book, invoices: map<InvoiceId, Invoice>) {
    BookOk(book') && BidsFit(book', invoices) && forall j :: AcceptedOn(book', j) == AcceptedOn(book, j)
  }

  lemma SameBookSlices(s: State, book: Book)
    requires Inv(s) && Serves(s.book, book, s.invoices)
    ensures Structure(s.(book := book))
    ensures forall j :: j in s.invoices ==> SliceOf(s.(book := book), j) == SliceOf(s, j)
  {
    hide BookOk, BidsFit, ListsOk, ActiveOk, Custody, EscrowsOk, InvestmentsOk, NoTrace, MovesOf, AcceptedOn,
         AllCoherent;
  }

  lemma BookStep(c: Context, s: State, book: Book)
    requires Inv(s) && Serves(s.book, book, s.invoices)
    ensures StepOf(c, s, s.(book := book)) && Inv(s.(book := book))
  {
    hide Inv, Structure, Simulates, SliceOf, Serves;
    SameBookSlices(s, book);
    NoInvoice(c, s, s.(book := book));
    StepKeeps(c, s, s.(book := book));
  }

  /** A step from the cleaned-up book is a step from the original one. */
  lemma AfterCleanup(c: Context, s: State, book: Book, s': State)
    requires Inv(s) && Serves(s.book, book, s.invoices) && StepOf(c, s.(book := book), s')
    ensures StepOf(c, s, s')
  {
    hide Inv, Structure, SliceOf, Serves, LocalStep, IsNew;
    SameBookSlices(s, book);
  }

  lemma AgeingServes(book: Book, book': Book, invoices: map<InvoiceId, Invoice>)
    requires BidsFit(book, invoices) && Ages(book, book') && BookOk(book')
    ensures Serves(book, book', invoices)
  {
    hide BookOk, AcceptedOn;
    forall j ensures AcceptedOn(book', j) == AcceptedOn(book, j) {
      AgeingKeepsAccepted(book, book', j);
    }
  }

  lemma CleanupServes(book: Book, invoices: map<InvoiceId, Invoice>, now: nat, id: InvoiceId)
    requires BookOk(book) && BidsFit(book, invoices)
    ensures Serves(book, RefreshInvoice(book, now, id), invoices)
  {
    hide BookOk, BidsFit, Ages, RefreshInvoice;
    RefreshAges(book, now, id);
    RefreshInvoiceOk(book, now, id);
    AgeingServes(book, RefreshInvoice(book, now, id), invoices);
  }

  lemma InvestorCleanupServes(book: Book, invoices: map<InvoiceId, Invoice>, now: nat, investor: Address)
    requires BookOk(book) && BidsFit(book, invoices)
    ensures Serves(book, RefreshInvestor(book, now, investor), invoices)
  {
    hide BookOk, BidsFit, Ages, RefreshInvestor;
    RefreshAges(book, now, investor);
    RefreshInvestorOk(book, now, investor);
    AgeingServes(book, RefreshInvestor(book, now, investor), invoices);
  }

  /** The three cleanups that placing a bid performs. */
  function PlacingBook(book: Book, now: nat, investor: Address, id: InvoiceId, maxActive: nat): Book {
    var b1 := RefreshInvoice(book, now, id);
    RefreshInvoice(if maxActive > 0 then RefreshInvestor(b1, now, investor) else b1, now, id)
  }

  lemma PlacingServes(book: Book, invoices: map<InvoiceId, Invoice>, now: nat, investor: Address, id: InvoiceId,
                      maxActive: nat)
    requires BookOk(book) && BidsFit(book, invoices)
    ensures Serves(book, PlacingBook(book, now, investor, id, maxActive), invoices)
  {
    hide BookOk, BidsFit, RefreshInvestor, RefreshInvoice, AcceptedOn;
    CleanupServes(book, invoices, now, id);
    var b1 := RefreshInvoice(book, now, id);
    InvestorCleanupServes(b1, invoices, now, investor);
    var b2 := if maxActive > 0 then RefreshInvestor(b1, now, investor) else b1;
    CleanupServes(b2, invoices, now, id);
  }

  /** The cleanups after the first do not add live bids. */
  lemma PlacingShrinks(book: Book, now: nat, investor: Address, id: InvoiceId, maxActive: nat)
    ensures |PlacedOn(PlacingBook(book, now, investor, id, maxActive), id)| <= |PlacedOn(RefreshInvoice(book, now, id), id)|
  {
    hide Ages, RefreshInvestor, RefreshInvoice, PlacedOn, AcceptedOn;
    var b1 := RefreshInvoice(book, now, id);
    RefreshAges(b1, now, investor);
    AgeingKeepsAccepted(b1, RefreshInvestor(b1, now, investor), id);
    var b2 := if maxActive > 0 then RefreshInvestor(b1, now, investor) else b1;
    RefreshAges(b2, now, id);
    AgeingKeepsAccepted(b2, RefreshInvoice(b2, now, id), id);
    SubsetCard(PlacedOn(RefreshInvoice(b2, now, id), id), PlacedOn(b1, id));
  }

  /** Entering a new bid in a book that has room for it. */
  lemma NewBidServes(book: Book, invoices: map<InvoiceId, Invoice>, now: nat, investor: Address, id: InvoiceId,
                     amount: int, expectedReturn: int, expires: nat)
    requires BookOk(book) && BidsFit(book, invoices) && id in invoices && investor != SELF && investor != invoices[id].business
    requires 0 < amount <= invoices[id].amount && |PlacedOn(book, id)| < MAX_BIDS_PER_INVOICE
    requires forall k :: k in PlacedOn(book, id) ==> book.bids[k].investor != investor
    ensures Serves(book, Place(book, id, investor, amount, expectedReturn, now, expires), invoices)
  {
    hide AcceptedOn, IndexOk, TableOk;
    PlaceOk(book, id, investor, amount, expectedReturn, now, expires);
    var book' := Place(book, id, investor, amount, expectedReturn, now, expires);
    forall j ensures AcceptedOn(book', j) == AcceptedOn(book, j) {
      PlaceKeepsAccepted(book, id, investor, amount, expectedReturn, now, expires, j);
    }
  }

  lemma PlaceBidStep(c: Context, s: State, investor: Address, id: InvoiceId, amount: int, expectedReturn: int,
                     terms: BidTerms)
    requires Inv(s) && investor != SELF && PlaceBid(s, investor, id, amount, expectedReturn, terms).Ok?
    ensures StepOf(c, s, PlaceBid(s, investor, id, amount, expectedReturn, terms).value)
  {
    hide BookOk, BidsFit, ListsOk, ActiveOk, Custody, EscrowsOk, InvestmentsOk, NoTrace, AllCoherent, AcceptedOn,
         RefreshInvestor, RefreshInvoice, PlacedOn, PlacedBy, Place, StepOf;
    var book := PlacingBook(s.book, s.now, investor, id, terms.maxActive);
    PlacingServes(s.book, s.invoices, s.now, investor, id, terms.maxActive);
    PlacingShrinks(s.book, s.now, investor, id, terms.maxActive);
    NewBidServes(book, s.invoices, s.now, investor, id, amount, expectedReturn, SatAdd64(s.now,
        Min(terms.ttlDays * SECONDS_PER_DAY, U64_MAX)));
    BookStep(c, s, PlaceBid(s, investor, id, amount, expectedReturn, terms).value.book);
  }

  /** Taking a Placed bid off the market. */
  lemma EndBidStep(c: Context, s: State, k: BidId, status: BidStatus)
    requires Inv(s) && k in s.book.bids && s.book.bids[k].status == Placed
    requires status == BidStatus.Withdrawn || status == BidStatus.Cancelled
    ensures StepOf(c, s, s.(book := SetStatus(s.book, k, status)))
  {
    hide BookOk, ListsOk, ActiveOk, Custody, EscrowsOk, InvestmentsOk, NoTrace, AllCoherent, AcceptedOn, StepOf;
    var book := SetStatus(s.book, k, status);
    SetStatusOk(s.book, k, status);
    forall j ensures AcceptedOn(book, j) == AcceptedOn(s.book, j) {
      EndBidKeepsAccepted(s.book, k, status, j);
    }
    BookStep(c, s, book);
  }

  lemma CleanupStep(c: Context, s: State, id: InvoiceId)
    requires Inv(s)
    ensures StepOf(c, s, s.(book := RefreshInvoice(s.book, s.now, id)))
  {
    hide BookOk, BidsFit, ListsOk, ActiveOk, Custody, EscrowsOk, InvestmentsOk, NoTrace, AllCoherent, AcceptedOn,
         StepOf, Serves, RefreshInvoice;
    CleanupServes(s.book, s.invoices, s.now, id);
    BookStep(c, s, RefreshInvoice(s.book, s.now, id));
  }

  lemma EndBidKeepsAccepted(book: Book, k: BidId, status: BidStatus, j: InvoiceId)
    requires k in book.bids && book.bids[k].status == Placed && status != Accepted
    ensures AcceptedOn(SetStatus(book, k, status), j) == AcceptedOn(book, j)
  {
    var book' := SetStatus(book, k, status);
    forall b ensures b in AcceptedOn(book', j) <==> b in AcceptedOn(book, j) {
      if b in AcceptedOn(book, j) {
        var i :| i in book.bids && book.bids[i] == b && b.status == Accepted;
        assert book'.bids[i] == b;
      }
      if b in AcceptedOn(book', j) {
        var i :| i in book'.bids && book'.bids[i] == b && b.status == Accepted;
        assert book.bids[i] == b;
      }
    }
  }

  /* ---- funding ---- */

  lemma AcceptingBid(book: Book, k: BidId, j: InvoiceId)
    requires k in book.bids && book.bids[k].status == Placed
    ensures AcceptedOn(SetStatus(book, k, Accepted), j)
         == AcceptedOn(book, j) + if j == book.bids[k].invoice then {book.bids[k].(status := Accepted)} else {}
  {
    var book' := SetStatus(book, k, Accepted);
    forall b ensures b in AcceptedOn(book', j)
                <==> b in AcceptedOn(book, j) || (j == book.bids[k].invoice && b == book.bids[k].(status := Accepted)) {
      if b in AcceptedOn(book, j) {
        var i :| i in book.bids && book.bids[i] == b && b.status == Accepted;
        assert book'.bids[i] == b;
      }
      if b in AcceptedOn(book', j) {
        var i :| i in book'.bids && book'.bids[i] == b && b.status == Accepted;
        assert i != k ==> book.bids[i] == b;
      }
      if b == book.bids[k].(status := Accepted) {
        assert book'.bids[k] == b;
      }
    }
  }

  lemma NotYetFunded(s: State, id: InvoiceId)
    requires Inv(s) && id in s.invoices && !WasFunded(s.invoices[id].status)
    ensures id !in s.escrowOf && id !in s.investmentOf
  {
    hide BookOk, BidsFit, ListsOk, ActiveOk, Custody, NoTrace;
    assert Coherent(id, SliceOf(s, id));
  }

  lemma BidFacts(s: State, k: BidId)
    requires Structure(s) && k in s.book.bids
    ensures var bid := s.book.bids[k];
      && bid.invoice in s.invoices && 0 < bid.amount <= s.invoices[bid.invoice].amount
      && bid.investor != SELF && bid.investor != s.invoices[bid.invoice].business && bid.id == k
  {
    hide ListsOk, ActiveOk, Custody, EscrowsOk, InvestmentsOk, NoTrace, IndexOk, PlacedOn;
  }

  lemma StatusKeepsFit(book: Book, k: BidId, status: BidStatus, invoices: map<InvoiceId, Invoice>)
    requires BidsFit(book, invoices) && k in book.bids
    ensures BidsFit(SetStatus(book, k, status), invoices)
  {
  }

  /** Accepting a bid once the invoice's bids are refreshed. */
  lemma FundingStep(c: Context, s: State, id: InvoiceId, k: BidId, ledger: Ledger)
    requires Inv(s) && id in s.invoices && s.invoices[id].status == Verified && c.now == s.now
    requires k in s.book.bids && s.book.bids[k].invoice == id && s.book.bids[k].status == Placed
    requires Transfer(s.ledger, Some(id), s.invoices[id].currency, s.book.bids[k].investor, SELF,
        s.book.bids[k].amount) == Ok(ledger)
    ensures StepOf(c, s, FundedState(s, id, k, ledger))
  {
    hide Structure, OnlyTouches, AllCoherent, AcceptedOn, SetStatus, BookOk, BidsFit, MovesOf, NoncesOf, PaymentsOf,
         StepOf;
    var bid, invoice := s.book.bids[k], s.invoices[id];
    BidFacts(s, k);
    NotYetFunded(s, id);
    var escrow := Escrow(id, bid.investor, invoice.business, bid.amount, invoice.currency, s.now, Held);
    var e, v := s.escrowCount + 1, s.investmentCount + 1;
    FundBlock(s, id, escrow, ledger);
    var sa := s.(ledger := ledger, escrowCount := e, escrows := s.escrows[e := escrow], escrowOf := s.escrowOf[id := e]);
    var investment := Investment(id, bid.investor, bid.amount, s.now, Active, []);
    InvestBlock(sa, id, investment);
    var sb := sa.(investmentCount := v, investments := sa.investments[v := investment],
                  investmentOf := sa.investmentOf[id := v], active := AddUnique(sa.active, v));
    TouchTwice(s, sa, sb, id);
    var invoice' := MarkFunded(invoice, bid.investor, bid.amount, s.now);
    InvoiceBlock(sb, id, invoice');
    var sc := WithInvoice(sb, id, invoice');
    TouchTwice(s, sb, sc, id);
    var book := SetStatus(s.book, k, Accepted);
    AcceptedBook(sc, k);
    BookBlock(sc, id, book);
    var sd := sc.(book := book);
    TouchTwice(s, sc, sd, id);
    OneInvoice(c, s, sd, id, Funding(bid.(status := Accepted), e, v));
  }

  lemma AcceptedBook(s: State, k: BidId)
    requires Structure(s) && k in s.book.bids && s.book.bids[k].status == Placed
    ensures var book := SetStatus(s.book, k, Accepted);
      && BookOk(book) && BidsFit(book, s.invoices)
      && (forall j :: j != s.book.bids[k].invoice ==> AcceptedOn(book, j) == AcceptedOn(s.book, j))
      && AcceptedOn(book, s.book.bids[k].invoice) == AcceptedOn(s.book,
          s.book.bids[k].invoice) + {s.book.bids[k].(status := Accepted)}
  {
    hide BookOk, BidsFit, ListsOk, ActiveOk, Custody, EscrowsOk, InvestmentsOk, NoTrace, AcceptedOn, SetStatus;
    SetStatusOk(s.book, k, Accepted);
    StatusKeepsFit(s.book, k, Accepted, s.invoices);
    forall j ensures AcceptedOn(SetStatus(s.book, k, Accepted), j)
         == AcceptedOn(s.book, j) + if j == s.book.bids[k].invoice then {s.book.bids[k].(status := Accepted)} else {} {
      AcceptingBid(s.book, k, j);
    }
  }

  lemma AcceptStep(c: Context, s: State, id: InvoiceId, k: BidId, kyc: Option<Error>)
    requires Inv(s) && AcceptBidAndFund(s, id, k, kyc).Ok? && c.now == s.now
    ensures StepOf(c, s, AcceptBidAndFund(s, id, k, kyc).value)
  {
    hide Inv, RefreshInvoice, SetStatus, AddUnique, StepOf, Serves, FundedState;
    BookInOrder(s);
    var book := RefreshInvoice(s.book, s.now, id);
    CleanupServes(s.book, s.invoices, s.now, id);
    BookStep(c, s, book);
    var s0, bid := s.(book := book), book.bids[k];
    var ledger := Transfer(s.ledger, Some(id), s.invoices[id].currency, bid.investor, SELF, bid.amount).value;
    FundingStep(c, s0, id, k, ledger);
    AfterCleanup(c, s, book, FundedState(s0, id, k, ledger));
  }

  lemma BookInOrder(s: State)
    requires Inv(s)
    ensures BookOk(s.book) && BidsFit(s.book, s.invoices)
  {
  }

  /* ---- release and refund ---- */

  lemma CoherentParties(id: InvoiceId, v: Slice)
    requires Coherent(id, v) && v.escrow.Some?
    ensures WasFunded(v.invoice.status) && FundedOnce(v)
    ensures v.escrow.value.1.business != SELF && v.escrow.value.1.investor != SELF
  {
  }

  lemma ReleaseStep(c: Context, s: State, id: InvoiceId)
    requires Inv(s) && ReleaseEscrowFunds(s, id).Ok?
    ensures StepOf(c, s, ReleaseEscrowFunds(s, id).value)
  {
    hide Structure, OnlyTouches, Coherent, AcceptedOn, MovesOf, NoncesOf, PaymentsOf;
    CoherentParties(id, SliceOf(s, id));
    PayOutBlock(s, id, Released);
    OneInvoice(c, s, ReleaseEscrowFunds(s, id).value, id, Releasing);
  }

  /** With one accepted bid, cancelling the accepted bids is cancelling that one. */
  lemma CancelTheAccepted(book: Book, id: InvoiceId, b: Bid)
    requires TableOk(book) && AcceptedOn(book, id) == {b}
    ensures b.id in book.bids && book.bids[b.id] == b
    ensures CancelAccepted(book, id) == SetStatus(book, b.id, BidStatus.Cancelled)
    ensures forall j :: AcceptedOn(CancelAccepted(book, id), j) == if j == id then {} else AcceptedOn(book, j)
  {
    var book' := CancelAccepted(book, id);
    assert b in AcceptedOn(book, id);
    forall k | k in book.bids && book.bids[k].invoice == id && book.bids[k].status == Accepted ensures k == b.id {
      assert book.bids[k] in AcceptedOn(book, id);
    }
    assert book'.bids == SetStatus(book, b.id, BidStatus.Cancelled).bids;
    forall j ensures AcceptedOn(book', j) == if j == id then {} else AcceptedOn(book, j) {
      if j != id {
        forall a ensures a in AcceptedOn(book', j) <==> a in AcceptedOn(book, j) {
          if a in AcceptedOn(book, j) {
            var k :| k in book.bids && book.bids[k] == a && a.status == Accepted;
            assert book'.bids[k] == a;
          }
          if a in AcceptedOn(book', j) {
            var k :| k in book'.bids && book'.bids[k] == a && a.status == Accepted;
            assert book.bids[k] == a;
          }
        }
      }
    }
  }

  lemma TheAcceptedBid(id: InvoiceId, v: Slice) returns (b: Bid)
    requires Coherent(id, v) && v.invoice.status == Funded
    ensures v.accepted == {b}
  {
    b :| v.accepted == {b};
  }

  lemma RefundBook(s: State, id: InvoiceId, b: Bid)
    requires Inv(s) && AcceptedOn(s.book, id) == {b}
    ensures var book := CancelAccepted(s.book, id);
      && BookOk(book) && BidsFit(book, s.invoices)
      && (forall j :: j != id ==> AcceptedOn(book, j) == AcceptedOn(s.book, j)) && AcceptedOn(book, id) == {}
  {
    hide BidsFit, ListsOk, ActiveOk, Custody, EscrowsOk, InvestmentsOk, NoTrace, IndexOk, AllCoherent, SetStatus,
         CancelAccepted, TableOk, PlacedOn;
    CancelTheAccepted(s.book, id, b);
    AcceptedStatus(s.book, id, b);
    SetStatusOk(s.book, b.id, BidStatus.Cancelled);
    StatusKeepsFit(s.book, b.id, BidStatus.Cancelled, s.invoices);
  }

  lemma AcceptedStatus(book: Book, id: InvoiceId, b: Bid)
    requires b in AcceptedOn(book, id)
    ensures b.status == Accepted && b.invoice == id
  {
  }

  /** Refunding once the invoice's bids are refreshed. */
  lemma RefundingStep(c: Context, s: State, id: InvoiceId, s1: State)
    requires Inv(s) && id in s.invoices && s.invoices[id].status == Funded && HasInvestment(s, id)
    requires PayOutEscrow(s, id, EscrowStatus.Refunded) == Ok(s1)
    requires id in s1.invoices && HasInvestment(s1, id)
    ensures StepOf(c, s, RefundedState(s1, id))
  {
    hide Structure, OnlyTouches, Coherent, AcceptedOn, BookOk, BidsFit, MovesOf, NoncesOf, PaymentsOf, Relist,
         CancelAccepted, StepOf;
    var v := SliceOf(s, id);
    CoherentParties(id, v);
    PayOutBlock(s, id, EscrowStatus.Refunded);
    var invoice := MarkRefunded(s.invoices[id]);
    InvoiceBlock(s1, id, invoice);
    var s2 := WithInvoice(s1, id, invoice);
    TouchTwice(s, s1, s2, id);
    var b := TheAcceptedBid(id, v);
    RefundBook(s, id, b);
    var book := CancelAccepted(s.book, id);
    BidsFitUpdate(book, s.invoices, id, invoice);
    BookBlock(s2, id, book);
    var s3 := s2.(book := book);
    TouchTwice(s, s2, s3, id);
    CloseBlock(s3, id, InvestmentStatus.Refunded, InvestmentFor(s, id).insurance);
    var s4 := CloseInvestment(s3, id, InvestmentStatus.Refunded, InvestmentFor(s, id).insurance);
    TouchTwice(s, s3, s4, id);
    OneInvoice(c, s, s4, id, Refunding);
  }

  lemma RefundStep(c: Context, s: State, id: InvoiceId, caller: Address)
    requires Inv(s) && RefundEscrowFunds(s, id, caller).Ok?
    ensures StepOf(c, s, RefundEscrowFunds(s, id, caller).value)
  {
    hide Inv, RefreshInvoice, CancelAccepted, Relist, StepOf, Serves;
    BookInOrder(s);
    var book := RefreshInvoice(s.book, s.now, id);
    CleanupServes(s.book, s.invoices, s.now, id);
    BookStep(c, s, book);
    var s0 := s.(book := book);
    var s1 := PayOutEscrow(s, id, EscrowStatus.Refunded).value;
    assert PayOutEscrow(s0, id, EscrowStatus.Refunded) == Ok(s1.(book := book));
    RefundingStep(c, s0, id, s1.(book := book));
    AfterCleanup(c, s, book, RefundedState(s1.(book := book), id));
  }

  /* ---- insurance ---- */

  lemma InvestmentHome(s: State, v: InvestmentId)
    requires Structure(s) && v in s.investments
    ensures var id := s.investments[v].invoice;
      id in s.invoices && HasInvestment(s, id) && s.investmentOf[id] == v
  {
    hide BookOk, BidsFit, ListsOk, ActiveOk, Custody, EscrowsOk, NoTrace;
  }

  lemma InsureStep(c: Context, s: State, v: InvestmentId, provider: Address, percentage: nat)
    requires Inv(s) && AddInvestmentInsurance(s, v, provider, percentage).Ok?
    ensures StepOf(c, s, AddInvestmentInsurance(s, v, provider, percentage).value)
  {
    hide Structure, OnlyTouches, Coherent, AcceptedOn, MovesOf, NoncesOf, PaymentsOf, WithPolicy, CalculatePremium,
         StepOf;
    var s' := AddInvestmentInsurance(s, v, provider, percentage).value;
    InvestmentHome(s, v);
    var id, i := s.investments[v].invoice, s.investments[v];
    InsureBlock(s, id, Insured(i, provider, percentage).value);
    OneInvoice(c, s, s', id, Insuring(provider, percentage));
  }

  /* ---- payments ---- */

  lemma NonceOfSlice(s: State, id: InvoiceId, nonce: string)
    requires id in s.invoices
    ensures nonce in SliceOf(s, id).nonces <==> (id, nonce) in s.nonces
  {
    assert nonce in NoncesOf(s, id) <==> (id, nonce) in s.nonces;
  }

  lemma RecordBlock(s: State, id: InvoiceId, payment: Payment)
    requires Structure(s) && id in s.invoices
    ensures var s' := RecordedState(s, id, payment);
      Structure(s') && OnlyTouches(s, s', id) && SliceOf(s', id) == CreditedSlice(SliceOf(s, id), payment)
  {
    hide Structure, OnlyTouches, AcceptedOn, MovesOf, SlideHistory, NoncesOf, EscrowOf, InvestmentOf;
    PaymentBlock(s, id, payment);
    var s1 := s.(payments := s.payments[id := PaymentsOf(s, id) + [payment]],
                 nonces := if payment.nonce != "" then s.nonces + {(id, payment.nonce)} else s.nonces);
    InvoiceBlock(s1, id, Credited(s.invoices[id], payment));
    assert RecordedState(s, id, payment) == WithInvoice(s1, id, Credited(s.invoices[id], payment));
    TouchTwice(s, s1, RecordedState(s, id, payment), id);
  }

  lemma FundedFacts(id: InvoiceId, v: Slice)
    requires Coherent(id, v) && v.invoice.status == Funded
    ensures PaymentsOk(v) && v.invoice.totalPaid < v.invoice.amount && FundedOnce(v)
        && v.escrow.value.1.status != EscrowStatus.Refunded
    ensures v.invoice.business != SELF && v.investment.value.1.status == Active
  {
  }

  /** Recording a payment either replays a known one, or appends a record. */
  lemma RecordChecks(s: State, id: InvoiceId, amount: int, nonce: string)
    requires RecordPayment(s, id, amount, nonce).Ok? && id in s.invoices && Coherent(id, SliceOf(s, id))
    ensures s.invoices[id].status == Funded
    ensures RecordPayment(s, id, amount, nonce) == Ok(s)
         || (RecordPayment(s, id, amount, nonce) == Ok(RecordedState(s, id, NextPayment(s, id, amount, nonce)))
             && Recordable(SliceOf(s, id), NextPayment(s, id, amount, nonce)))
  {
    hide Coherent, RecordedState, EscrowOf, InvestmentOf, NoncesOf, AcceptedOn, MovesOf, SlideHistory;
    FundedFacts(id, SliceOf(s, id));
    NonceOfSlice(s, id, nonce);
  }

  /* ---- settlement ---- */

  lemma Parties(s: State, id: InvoiceId)
    requires id in s.invoices && FundedOnce(SliceOf(s, id))
    ensures HasEscrow(s, id) && HasInvestment(s, id)
    ensures var invoice, e, i := s.invoices[id], EscrowFor(s, id), InvestmentFor(s, id);
      && e.investor == i.investor && e.amount == i.amount && e.business == invoice.business && e.currency == invoice.currency
      && e.investor != SELF && e.investor != e.business && e.amount > 0
  {
    hide NoncesOf, AcceptedOn, MovesOf;
  }

  /** The escrow is released, unless it already was. */
  lemma SettleRelease(s: State, id: InvoiceId, s1: State)
    requires Structure(s) && id in s.invoices && FundedOnce(SliceOf(s, id)) && s.invoices[id].business != SELF
    requires HasEscrow(s, id) && EscrowFor(s, id).status != EscrowStatus.Refunded
    requires Ok(s1) == if EscrowFor(s, id).status == Held then PayOutEscrow(s, id, Released) else Ok(s)
    ensures Structure(s1) && OnlyTouches(s, s1, id) && s1 == s.(ledger := s1.ledger, escrows := s1.escrows)
    ensures var e := EscrowFor(s, id);
      SliceOf(s1, id) == SliceOf(s, id).(
        escrow := Some((s.escrowOf[id], e.(status := Released))),
        moves := MovesOf(s.ledger.moves, id) + if e.status == Held then [ReleaseMove(id, e)] else [])
  {
    hide Structure, AcceptedOn, MovesOf, NoncesOf;
    Parties(s, id);
    var e := EscrowFor(s, id);
    if e.status == Held {
      PayOutBlock(s, id, Released);
    } else {
      assert MovesOf(s.ledger.moves, id) + [] == MovesOf(s.ledger.moves, id);
    }
  }

  lemma TransferPositive(l: Ledger, id: InvoiceId, c: Address, source: Address, target: Address, amount: int)
    requires Transfer(l, Some(id), c, source, target, amount).Ok?
    ensures amount > 0
  {
  }

  lemma PaySplitBlock(s: State, id: InvoiceId, e: Escrow, split: Split, recipient: Address, ledger: Ledger)
    requires Structure(s) && id in s.invoices && e.business != SELF
    requires PaySplit(s.ledger, id, e.currency, e.business, e.investor, split, recipient) == Ok(ledger)
    ensures var s' := s.(ledger := ledger);
      && Structure(s') && OnlyTouches(s, s', id)
      && SliceOf(s', id) == SliceOf(s, id).(moves := MovesOf(s.ledger.moves, id) + SettlementMoves(id, e, split, recipient))
  {
    hide Structure, OnlyTouches, AcceptedOn, MovesOf, Transfer, EscrowOf, InvestmentOf, NoncesOf;
    var l1 := Transfer(s.ledger, Some(id), e.currency, e.business, e.investor, split.investorReturn).value;
    TransferPositive(s.ledger, id, e.currency, e.business, e.investor, split.investorReturn);
    TransferBlock(s, id, e.currency, e.business, e.investor, split.investorReturn, l1);
    if split.platformFee > 0 {
      var s1 := s.(ledger := l1);
      TransferBlock(s1, id, e.currency, e.business, recipient, split.platformFee, ledger);
      TouchTwice(s, s1, s1.(ledger := ledger), id);
    }
  }

  lemma PaidBlock(s: State, id: InvoiceId)
    requires Structure(s) && id in s.invoices && HasInvestment(s, id)
    ensures var s', invoice := PaidState(s, id), s.invoices[id];
      && Structure(s') && OnlyTouches(s, s', id)
      && SliceOf(s', id) == SliceOf(s, id).(
           invoice := MarkPaid(invoice, s.now),
           investment := Some((s.investmentOf[id], InvestmentFor(s, id).(status := Completed))),
           finalized := true)
  {
    hide Structure, OnlyTouches, AcceptedOn, MovesOf, NoncesOf, Relist, EscrowOf;
    var invoice := MarkPaid(s.invoices[id], s.now);
    InvoiceBlock(s, id, invoice);
    var sa := WithInvoice(s, id, invoice);
    FlagBlock(sa, id, s.finalized + {id}, s.guards);
    var sb := sa.(finalized := s.finalized + {id}, guards := s.guards);
    TouchTwice(s, sa, sb, id);
    CloseBlock(sb, id, Completed, InvestmentFor(s, id).insurance);
    TouchTwice(s, sb, PaidState(s, id), id);
  }

  /** Finalizing a funded invoice settles its slice, with the time and the fee in force. */
  lemma FinalizeBlock(c: Context, s: State, id: InvoiceId)
    requires Structure(s) && id in s.invoices && FundedOnce(SliceOf(s, id)) && s.invoices[id].business != SELF
    requires HasEscrow(s, id) && EscrowFor(s, id).status != EscrowStatus.Refunded
    requires Finalize(s, id).Ok? && c.now == s.now && c.fee == s.fee
    ensures var s' := Finalize(s, id).value;
      Structure(s') && OnlyTouches(s, s', id) && SliceOf(s', id) == SettledSlice(c, id, SliceOf(s, id))
  {
    hide Structure, OnlyTouches, PaySplit, SplitFor, FeeRecipient, PaidState, SettlementMoves, PayOutEscrow, AcceptedOn,
         MovesOf, NoncesOf;
    Parties(s, id);
    var e, split := EscrowFor(s, id), SplitFor(s.fee, EscrowFor(s, id).amount, s.invoices[id].totalPaid);
    var s1 := if e.status == Held then PayOutEscrow(s, id, Released).value else s;
    SettleRelease(s, id, s1);
    var ledger := PaySplit(s1.ledger, id, e.currency, e.business, e.investor, split, FeeRecipient(s.fee)).value;
    PaySplitBlock(s1, id, e, split, FeeRecipient(s.fee), ledger);
    var s2 := s1.(ledger := ledger);
    TouchTwice(s, s1, s2, id);
    PaidBlock(s2, id);
    TouchTwice(s, s2, PaidState(s2, id), id);
  }

  /** Without a new record a funded invoice is not fully paid, so it cannot be finalized. */
  lemma FinalizeNeedsAll(s: State, id: InvoiceId)
    requires id in s.invoices && Finalize(s, id).Ok?
    ensures s.invoices[id].totalPaid >= s.invoices[id].amount
  {
  }

  /** The record just stored does not disturb what `Finalize` relies on. */
  lemma RecordedParties(s: State, id: InvoiceId, p: Payment)
    requires Structure(s) && id in s.invoices && Coherent(id, SliceOf(s, id)) && s.invoices[id].status == Funded
    ensures var s1 := RecordedState(s, id, p);
      && FundedOnce(SliceOf(s1, id)) && s1.invoices[id].business != SELF && AdmissibleFee(s.fee)
      && HasEscrow(s1, id) && EscrowFor(s1, id).status != EscrowStatus.Refunded && HasInvestment(s1, id)
  {
    hide BookOk, BidsFit, ListsOk, ActiveOk, Custody, EscrowsOk, InvestmentsOk, NoTrace, PaymentsOk, MovesOk, FundedBy,
         NoncesOf, AcceptedOn, MovesOf, Credited, Sound;
    var v := SliceOf(s, id);
    FundedFacts(id, v);
    var w := SliceOf(RecordedState(s, id, p), id);
    assert w.escrow == v.escrow && w.investment == v.investment;
    assert w.invoice.amount == v.invoice.amount && w.invoice.business == v.invoice.business
        && w.invoice.currency == v.invoice.currency by {
      CreditedTerms(v.invoice, p);
    }
  }

  lemma CreditedTerms(invoice: Invoice, p: Payment)
    ensures SameTerms(invoice, Credited(invoice, p)) && Credited(invoice, p).totalPaid == invoice.totalPaid + p.amount
  {
  }

  /** A new record that reaches the amount, followed by the settlement, is one event. */
  lemma FinalizeRecorded(c: Context, s: State, id: InvoiceId, p: Payment)
    requires Inv(s) && id in s.invoices && s.invoices[id].status == Funded && Recordable(SliceOf(s, id), p)
    requires Finalize(RecordedState(s, id, p), id).Ok? && c.now == s.now && c.fee == s.fee
    ensures StepOf(c, s, Finalize(RecordedState(s, id, p), id).value)
  {
    hide Structure, OnlyTouches, Coherent, Finalize, StepOf, CreditedSlice, SettledSlice, FundedOnce, Credited,
         AcceptedOn, MovesOf, NoncesOf;
    var s1 := RecordedState(s, id, p);
    FundedFacts(id, SliceOf(s, id));
    RecordedTotals(s, id, p);
    FinalizeNeedsAll(s1, id);
    RecordBlock(s, id, p);
    RecordedParties(s, id, p);
    FinalizeBlock(c, s1, id);
    TouchTwice(s, s1, Finalize(s1, id).value, id);
    OneInvoice(c, s, Finalize(s1, id).value, id, Settling(p));
  }

  /** A payment call that goes on to finalize has stored a new record first: a replay leaves the sum short. */
  lemma RecordThenFinalize(c: Context, s: State, id: InvoiceId, amount: int, nonce: string)
    requires Inv(s) && RecordPayment(s, id, amount, nonce).Ok? && c.now == s.now && c.fee == s.fee
    requires Finalize(RecordPayment(s, id, amount, nonce).value, id).Ok?
    ensures StepOf(c, s, Finalize(RecordPayment(s, id, amount, nonce).value, id).value)
  {
    hide Structure, Coherent, NextPayment, RecordedState, Recordable, Finalize, StepOf, SliceOf;
    RecordChecks(s, id, amount, nonce);
    SliceInvoice(s, id);
    FundedFacts(id, SliceOf(s, id));
    RecordedTotals(s, id, NextPayment(s, id, amount, nonce));
    FinalizeNeedsAll(RecordPayment(s, id, amount, nonce).value, id);
    FinalizeRecorded(c, s, id, NextPayment(s, id, amount, nonce));
  }

  lemma SliceInvoice(s: State, id: InvoiceId)
    requires id in s.invoices
    ensures SliceOf(s, id).invoice == s.invoices[id]
  {
  }

  lemma RecordOnly(c: Context, s: State, id: InvoiceId, p: Payment)
    requires Inv(s) && id in s.invoices && Recordable(SliceOf(s, id), p)
    requires s.invoices[id].totalPaid + p.amount < s.invoices[id].amount
    ensures StepOf(c, s, RecordedState(s, id, p))
  {
    hide Structure, OnlyTouches, AllCoherent, StepOf, CreditedSlice, RecordedState, AcceptedOn, MovesOf, NoncesOf;
    RecordBlock(s, id, p);
    OneInvoice(c, s, RecordedState(s, id, p), id, Paying(p));
  }

  lemma PartialPaymentStep(c: Context, s: State, id: InvoiceId, amount: int, transactionId: string)
    requires Inv(s) && ProcessPartialPayment(s, id, amount, transactionId).Ok? && c.now == s.now && c.fee == s.fee
    ensures StepOf(c, s, ProcessPartialPayment(s, id, amount, transactionId).value)
  {
    hide Structure, Coherent, SliceOf, Recordable, RecordedState, RecordPayment, NextPayment, Finalize, StepOf;
    RecordChecks(s, id, amount, transactionId);
    var s1 := RecordPayment(s, id, amount, transactionId).value;
    RecordedTotals(s, id, NextPayment(s, id, amount, transactionId));
    if s1.invoices[id].totalPaid >= s1.invoices[id].amount {
      RecordThenFinalize(c, s, id, amount, transactionId);
    } else if s1 != s {
      RecordOnly(c, s, id, NextPayment(s, id, amount, transactionId));
    } else {
      SameState(c, s);
    }
  }

  lemma RecordedTotals(s: State, id: InvoiceId, p: Payment)
    requires id in s.invoices
    ensures var s1 := RecordedState(s, id, p);
      id in s1.invoices && s1.invoices[id].totalPaid == s.invoices[id].totalPaid + p.amount
          && s1.invoices[id].amount == s.invoices[id].amount
  {
    CreditedTerms(s.invoices[id], p);
  }

  lemma SettleStep(c: Context, s: State, id: InvoiceId, amount: int)
    requires Inv(s) && SettleInvoice(s, id, amount).Ok? && c.now == s.now && c.fee == s.fee
    ensures StepOf(c, s, SettleInvoice(s, id, amount).value)
  {
    hide Structure, AllCoherent, RecordPayment, Finalize, StepOf;
    RecordThenFinalize(c, s, id, amount, SETTLEMENT_NONCE);
  }

  /* ---- defaults ---- */

  /** A Funded invoice can always be defaulted. */
  lemma DefaultSucceeds(s: State, id: InvoiceId)
    requires Inv(s) && id in s.invoices && s.invoices[id].status == Funded
    ensures HandleDefault(s, id).Ok?
  {
    hide Structure;
    assert Coherent(id, SliceOf(s, id));
    FundedFacts(id, SliceOf(s, id));
  }

  lemma DefaultBlock(s: State, id: InvoiceId)
    requires Structure(s) && HandleDefault(s, id).Ok?
    ensures var s', i := HandleDefault(s, id).value, InvestmentFor(s, id);
      && Structure(s') && OnlyTouches(s, s', id)
      && SliceOf(s', id) == SliceOf(s, id).(
           invoice := s.invoices[id].(status := InvoiceStatus.Defaulted), guarded := true,
           investment := Some((s.investmentOf[id], i.(status := InvestmentStatus.Defaulted,
               insurance := Deactivate(i.insurance)))))
      && s' == s.(invoices := s.invoices[id := s.invoices[id].(status := InvoiceStatus.Defaulted)], lists := s'.lists,
                  investments := s'.investments, active := s'.active, guards := s'.guards)
      && s'.lists == Relist(s.lists, id, Funded, InvoiceStatus.Defaulted)
  {
    hide Structure, OnlyTouches, AcceptedOn, MovesOf, Relist, NoncesOf, PaymentsOf, Deactivate;
    var invoice := s.invoices[id].(status := InvoiceStatus.Defaulted);
    InvoiceBlock(s, id, invoice);
    var sa := WithInvoice(s, id, invoice);
    FlagBlock(sa, id, s.finalized, s.guards + {id});
    var sb := sa.(finalized := s.finalized, guards := s.guards + {id});
    TouchTwice(s, sa, sb, id);
    var policies := Deactivate(InvestmentFor(s, id).insurance);
    CloseBlock(sb, id, InvestmentStatus.Defaulted, policies);
    TouchTwice(s, sb, CloseInvestment(sb, id, InvestmentStatus.Defaulted, policies), id);
  }

  lemma DefaultStep(c: Context, s: State, id: InvoiceId, grace: nat)
    requires Inv(s) && Due(s, id, grace) && HandleDefault(s, id).Ok? && c.now == s.now && c.grace == Some(grace)
    ensures StepOf(c, s, HandleDefault(s, id).value)
  {
    hide Structure, OnlyTouches, AllCoherent, AcceptedOn, MovesOf, Relist, NoncesOf, PaymentsOf, StepOf;
    DefaultBlock(s, id);
    OneInvoice(c, s, HandleDefault(s, id).value, id, Defaulting);
  }

  function Members(ids: seq<InvoiceId>): set<InvoiceId> { set j | j in ids }

  /** The slice of `j` after a scan that did or did not default it. */
  ghost predicate DefaultedIf(c: Context, s: State, j: InvoiceId, hit: bool, v: Slice)
    requires j in s.invoices
  {
    if hit then Enabled(c, SliceOf(s, j), Defaulting) && v == After(c, j, SliceOf(s, j), Defaulting) else v == SliceOf(s, j)
  }

  /** After a scan over `ids`, exactly the due invoices of `ids` have been defaulted. */
  ghost predicate ScannedOver(c: Context, s: State, s': State, ids: set<InvoiceId>, grace: nat) {
    && s'.now == s.now && s'.invoices.Keys == s.invoices.Keys && s'.cursor == s.cursor
    && forall j :: j in s.invoices ==> DefaultedIf(c, s, j, j in ids && Due(s, j, grace), SliceOf(s', j))
  }

  lemma OneMoreScanned(c: Context, s: State, s1: State, s2: State, ids: set<InvoiceId>, id: InvoiceId, grace: nat)
    requires Inv(s) && ScannedOver(c, s, s1, ids, grace) && c.now == s.now && c.grace == Some(grace) && Inv(s1)
    requires if Due(s1, id, grace) then HandleDefault(s1, id) == Ok(s2) else s2 == s1
    ensures ScannedOver(c, s, s2, ids + {id}, grace)
  {
    hide Structure, AllCoherent, SliceOf, DefaultedIf, Due, HandleDefault, OnlyTouches, Relist, Deactivate;
    DueExists(s1, id, grace);
    if Due(s1, id, grace) {
      DefaultBlock(s1, id);
      UntouchedSlices(s1, s2, id);
      TouchedId(s1, s2, id);
    }
    if id in s.invoices {
      ScannedSelf(c, s, s1, s2, id, id in ids, grace);
    }
    DueExists(s, id, grace);
  }

  lemma TouchedId(s: State, s': State, id: InvoiceId)
    requires OnlyTouches(s, s', id)
    ensures id in s.invoices && s'.invoices.Keys == s.invoices.Keys
  {
    hide EscrowOf, InvestmentOf, AcceptedOn, PaymentsOf, NoncesOf, MovesOf;
  }

  lemma DueExists(s: State, id: InvoiceId, grace: nat)
    ensures Due(s, id, grace) ==> id in s.invoices
  {
  }

  /** The invoice that was looked at last, whether or not it had been looked at before. */
  lemma ScannedSelf(c: Context, s: State, s1: State, s2: State, id: InvoiceId, seen: bool, grace: nat)
    requires id in s.invoices && id in s1.invoices && s1.now == s.now == c.now && c.grace == Some(grace)
    requires Structure(s1) && DefaultedIf(c, s, id, seen && Due(s, id, grace), SliceOf(s1, id))
    requires if Due(s1, id, grace) then HandleDefault(s1, id) == Ok(s2) else s2 == s1
    ensures id in s2.invoices && DefaultedIf(c, s, id, Due(s, id, grace), SliceOf(s2, id))
  {
    hide Structure, OnlyTouches, AcceptedOn, MovesOf, NoncesOf, PaymentsOf, Relist, Deactivate, GraceDeadline;
    if Due(s1, id, grace) {
      DefaultBlock(s1, id);
    }
  }

  lemma UntouchedSlices(s: State, s': State, id: InvoiceId)
    requires OnlyTouches(s, s', id)
    ensures forall j :: j in s.invoices && j != id ==> j in s'.invoices && SliceOf(s', j) == SliceOf(s, j)
  {
    hide EscrowOf, InvestmentOf, AcceptedOn, PaymentsOf, NoncesOf, MovesOf;
    forall j | j in s.invoices && j != id ensures SliceOf(s', j) == SliceOf(s, j) {
      SameNonces(s, s', j);
    }
  }

  /** Defaulting the due invoices of any list succeeds and defaults exactly those. */
  lemma {:induction false} DefaultEachScans(c: Context, s: State, ids: seq<InvoiceId>, grace: nat)
    requires Inv(s) && c.now == s.now && c.grace == Some(grace)
    ensures DefaultEach(s, ids, grace).Ok? && Inv(DefaultEach(s, ids, grace).value)
    ensures ScannedOver(c, s, DefaultEach(s, ids, grace).value, Members(ids), grace)
    decreases |ids|
  {
    hide Inv, HandleDefault, ScannedOver, StepOf;
    if |ids| == 0 {
      ScannedNothing(c, s, grace);
    } else {
      var front, id := ids[..|ids| - 1], ids[|ids| - 1];
      DefaultEachScans(c, s, front, grace);
      var s1 := DefaultEach(s, front, grace).value;
      assert s1.now == s.now by { ScannedTime(c, s, s1, Members(front), grace); }
      if Due(s1, id, grace) {
        DefaultSucceeds(s1, id);
        DefaultStep(c, s1, id, grace);
        StepKeeps(c, s1, HandleDefault(s1, id).value);
      }
      OneMoreScanned(c, s, s1, DefaultEach(s, ids, grace).value, Members(front), id, grace);
      assert Members(ids) == Members(front) + {id} by { assert ids == front + [id]; }
    }
  }

  lemma ScannedNothing(c: Context, s: State, grace: nat)
    ensures ScannedOver(c, s, s, Members([]), grace)
  {
  }

  lemma ScannedTime(c: Context, s: State, s': State, ids: set<InvoiceId>, grace: nat)
    requires ScannedOver(c, s, s', ids, grace)
    ensures s'.now == s.now
  {
  }

  lemma CursorIrrelevant(c: Context, s: State, s': State, ids: set<InvoiceId>, grace: nat, cursor: nat)
    requires ScannedOver(c, s, s', ids, grace) && Structure(s')
    ensures StepOf(c, s, s'.(cursor := cursor))
  {
    hide BookOk, BidsFit, ListsOk, ActiveOk, Custody, EscrowsOk, InvestmentsOk, NoTrace, DefaultedIf, AcceptedOn,
         MovesOf, StepOf;
    forall j | j in s'.invoices ensures SliceOf(s'.(cursor := cursor), j) == SliceOf(s', j) {
    }
    CursorStep(c, s, s', ids, grace, cursor);
  }

  lemma CursorStep(c: Context, s: State, s': State, ids: set<InvoiceId>, grace: nat, cursor: nat)
    requires ScannedOver(c, s, s', ids, grace) && Structure(s'.(cursor := cursor))
    requires forall j :: j in s'.invoices ==> SliceOf(s'.(cursor := cursor), j) == SliceOf(s', j)
    ensures StepOf(c, s, s'.(cursor := cursor))
  {
    hide Structure, SliceOf, LocalStep, Enabled, After, Due;
    forall j | j in s.invoices ensures LocalStep(c, j, SliceOf(s, j), SliceOf(s'.(cursor := cursor), j)) {
      if j in ids && Due(s, j, grace) {
        ByEvent(c, j, SliceOf(s, j), Defaulting);
      } else {
        Resting(c, j, SliceOf(s, j));
      }
    }
  }

  /** A scan never aborts. */
  lemma ScanStep(c: Context, s: State, grace: nat, limit: Option<u32>)
    requires Inv(s) && c.now == s.now && c.grace == Some(grace)
    ensures ScanFunded(s, grace, limit).Ok? && StepOf(c, s, ScanFunded(s, grace, limit).value)
  {
    hide Inv, DefaultEach, ScannedOver, StepOf, Structure;
    var k := OverdueScan.ResolveLimit(limit);
    var ids := OverdueScan.Visited(ScanView(s), k);
    DefaultEachScans(c, s, ids, grace);
    var s1 := DefaultEach(s, ids, grace).value;
    InvStructure(s1);
    CursorIrrelevant(c, s, s1, Members(ids), grace, OverdueScan.NextCursor(ScanView(s), k));
  }

  lemma InvStructure(s: State)
    requires Inv(s)
    ensures Structure(s)
  {
  }

  /* ---- the rest, and every step ---- */

  /** Time, configuration and the holders' own ledger operations. */
  lemma OutsideStep(c: Context, s: State, now: nat, fee: Option<FeeConfig>, ledger: Ledger)
    requires Structure(s) && now <= U64_MAX && AdmissibleFee(fee)
    requires Custody(ledger, s.escrows, s.escrowCount)
    requires NoTrace(s.invoices.Keys, s.finalized, s.guards, s.payments, s.nonces, ledger.moves)
    requires forall j :: MovesOf(ledger.moves, j) == MovesOf(s.ledger.moves, j)
    ensures StepOf(c, s, s.(now := now, fee := fee, ledger := ledger))
  {
    hide BookOk, BidsFit, ListsOk, ActiveOk, Custody, EscrowsOk, InvestmentsOk, NoTrace, AcceptedOn, MovesOf, StepOf;
    var s' := s.(now := now, fee := fee, ledger := ledger);
    forall j | j in s.invoices ensures SliceOf(s', j) == SliceOf(s, j) {
    }
    NoInvoice(c, s, s');
  }

  lemma SameState(c: Context, s: State)
    requires Inv(s)
    ensures StepOf(c, s, s)
  {
    hide Structure, SliceOf, AllCoherent, StepOf;
    NoInvoice(c, s, s);
  }

  lemma HolderMovesStep(c: Context, s: State, currency: Address, source: Address, target: Address, amount: int,
                        ledger: Ledger)
    requires Structure(s) && source != SELF && HolderTransfer(s.ledger, currency, source, target, amount) == Ok(ledger)
    ensures StepOf(c, s, s.(ledger := ledger))
  {
    hide BookOk, BidsFit, ListsOk, ActiveOk, EscrowsOk, InvestmentsOk, NoTrace, HeldSum, MovesOf, HolderTransfer,
         StepOf;
    HolderTransferIsOneMove(s.ledger, currency, source, target, amount);
    var m := Move(None, currency, source, target, amount);
    forall j ensures MovesOf(ledger.moves, j) == MovesOf(s.ledger.moves, j) {
      MovesAppend(s.ledger.moves, m, j);
    }
    TraceOfMove(s.invoices.Keys, s, s.ledger.moves, m);
    OutsideStep(c, s, s.now, s.fee, ledger);
  }

  lemma ApprovalStep(c: Context, s: State, currency: Address, holder: Address, amount: nat)
    requires Structure(s)
    ensures StepOf(c, s, s.(ledger := s.ledger.(allowances := s.ledger.allowances[(currency, holder) := amount])))
  {
    hide BookOk, BidsFit, ListsOk, ActiveOk, EscrowsOk, InvestmentsOk, NoTrace, HeldSum, MovesOf, StepOf;
    OutsideStep(c, s, s.now, s.fee, s.ledger.(allowances := s.ledger.allowances[(currency, holder) := amount]));
  }

  lemma QuietStep(c: Context, s: State, now: nat, fee: Option<FeeConfig>)
    requires Structure(s) && now <= U64_MAX && AdmissibleFee(fee)
    ensures StepOf(c, s, s.(now := now, fee := fee))
  {
    hide BookOk, BidsFit, ListsOk, ActiveOk, EscrowsOk, InvestmentsOk, NoTrace, Custody, MovesOf, StepOf;
    OutsideStep(c, s, now, fee, s.ledger);
  }

  lemma TimeBound(s: State)
    requires Inv(s)
    ensures s.now <= U64_MAX && AdmissibleFee(s.fee)
  {
  }

  /** The grace period an action judges deadlines by, if it does. */
  function GraceOf(a: Action): Option<nat> {
    match a
    case MarkDefault(_, grace, configured) => if ResolveGrace(grace, configured).Ok? then Some(ResolveGrace(grace,
        configured).value) else None
    case CheckExpiry(_, grace, configured) => if ResolveGrace(grace, configured).Ok? then Some(ResolveGrace(grace,
        configured).value) else None
    case ScanOverdue(grace, _) => Some(grace)
    case _ => None
  }

  function ContextOf(s: State, a: Action): Context { Context(s.now, s.fee, GraceOf(a)) }

  lemma VerifyStep(c: Context, s: State, id: InvoiceId)
    requires Inv(s) && VerifyInvoice(s, id).Ok?
    ensures StepOf(c, s, VerifyInvoice(s, id).value)
  {
    hide Inv, StepOf, WithInvoice, ReleaseEscrowFunds, EscrowOf, InvestmentOf;
    if s.invoices[id].status == Funded {
      ReleaseStep(c, s, id);
    } else {
      StatusStep(c, s, id, Verifying);
    }
  }

  lemma CancelStep(c: Context, s: State, id: InvoiceId, kyc: Option<Error>)
    requires Inv(s) && CancelInvoice(s, id, kyc).Ok?
    ensures StepOf(c, s, CancelInvoice(s, id, kyc).value)
  {
    hide Inv, StepOf, WithInvoice, EscrowOf, InvestmentOf;
    StatusStep(c, s, id, Cancelling);
  }

  lemma WithdrawStep(c: Context, s: State, k: BidId, kyc: Option<Error>)
    requires Inv(s) && WithdrawBid(s, k, kyc).Ok?
    ensures StepOf(c, s, WithdrawBid(s, k, kyc).value)
  {
    hide Inv, StepOf, SetStatus;
    EndBidStep(c, s, k, BidStatus.Withdrawn);
  }

  lemma DropBidStep(c: Context, s: State, k: BidId)
    requires Inv(s)
    ensures StepOf(c, s, CancelBid(s, k))
  {
    hide Inv, StepOf, SetStatus;
    if k in s.book.bids && s.book.bids[k].status == Placed {
      EndBidStep(c, s, k, BidStatus.Cancelled);
    } else {
      SameState(c, s);
    }
  }

  lemma MarkDefaultStep(c: Context, s: State, id: InvoiceId, grace: Option<u64>, configured: u64)
    requires Inv(s) && MarkInvoiceDefaulted(s, id, grace, configured).Ok? && c.now == s.now
    requires ResolveGrace(grace, configured).Ok? ==> c.grace == Some(ResolveGrace(grace, configured).value)
    ensures StepOf(c, s, MarkInvoiceDefaulted(s, id, grace, configured).value)
  {
    hide Inv, StepOf, HandleDefault, GraceDeadline;
    DefaultStep(c, s, id, ResolveGrace(grace, configured).value);
  }

  lemma CheckExpiryStep(c: Context, s: State, id: InvoiceId, grace: Option<u64>, configured: u64)
    requires Inv(s) && CheckInvoiceExpiration(s, id, grace, configured).Ok? && c.now == s.now
    requires ResolveGrace(grace, configured).Ok? ==> c.grace == Some(ResolveGrace(grace, configured).value)
    ensures StepOf(c, s, CheckInvoiceExpiration(s, id, grace, configured).value)
  {
    hide Inv, StepOf, HandleDefault, Due;
    var resolved := ResolveGrace(grace, configured).value;
    if Due(s, id, resolved) {
      DefaultStep(c, s, id, resolved);
    } else {
      SameState(c, s);
    }
  }

  /** Every action that succeeds acts on each invoice as one event. */
  lemma AttemptStep(s: State, a: Action)
    requires Inv(s) && Admissible(a) && Attempt(s, a).Ok?
    ensures StepOf(ContextOf(s, a), s, Attempt(s, a).value)
  {
    hide Inv, Structure, StepOf, CreateInvoice, VerifyInvoice, CancelInvoice, PlaceBid, WithdrawBid, CancelBid,
         RefreshInvoice, AcceptBidAndFund, ReleaseEscrowFunds, RefundEscrowFunds, AddInvestmentInsurance,
         ProcessPartialPayment, SettleInvoice, MarkInvoiceDefaulted, CheckInvoiceExpiration, ScanFunded, SetFee,
         HolderTransfer, ResolveGrace, AdmissibleFee;
    TimeBound(s);
    InvStructure(s);
    var c := ContextOf(s, a);
    match a
    case Tick(seconds) => QuietStep(c, s, SatAdd64(s.now, seconds), s.fee);
    case Create(business, amount, currency, dueDate, kyc, gate) => CreateStep(c, s, business, amount, currency,
        dueDate, kyc, gate);
    case Verify(id) => VerifyStep(c, s, id);
    case Cancel(id, kyc) => CancelStep(c, s, id, kyc);
    case Bidding(investor, id, amount, expected, terms) => PlaceBidStep(c, s, investor, id, amount, expected, terms);
    case Withdraw(k, kyc) => WithdrawStep(c, s, k, kyc);
    case DropBid(k) => DropBidStep(c, s, k);
    case Cleanup(id) => CleanupStep(c, s, id);
    case Accept(id, k, kyc) => AcceptStep(c, s, id, k, kyc);
    case Release(id) => ReleaseStep(c, s, id);
    case Refund(id, caller) => RefundStep(c, s, id, caller);
    case Insure(v, provider, percentage) => InsureStep(c, s, v, provider, percentage);
    case PayPart(id, amount, tx) => PartialPaymentStep(c, s, id, amount, tx);
    case Settle(id, amount) => SettleStep(c, s, id, amount);
    case MarkDefault(id, grace, configured) => MarkDefaultStep(c, s, id, grace, configured);
    case CheckExpiry(id, grace, configured) => CheckExpiryStep(c, s, id, grace, configured);
    case ScanOverdue(grace, limit) => ScanStep(c, s, grace, limit);
    case ConfigureFee(config) => FeeStep(c, s, config);
    case HolderMoves(currency, source, target, amount) =>
      var ledger := HolderTransfer(s.ledger, currency, source, target, amount).value;
      HolderMovesStep(c, s, currency, source, target, amount, ledger);
    case HolderApproves(currency, holder, amount) => ApprovalStep(c, s, currency, holder, amount);
  }

  lemma FeeStep(c: Context, s: State, config: FeeConfig)
    requires Inv(s) && SetFee(s, config).Ok?
    ensures StepOf(c, s, SetFee(s, config).value)
  {
    hide StepOf;
    TimeBound(s);
    QuietStep(c, s, s.now, Some(config));
  }

  /** So does every action, as one that fails leaves every invoice at rest. */
  lemma ApplyStep(s: State, a: Action)
    requires Inv(s) && Admissible(a)
    ensures StepOf(ContextOf(s, a), s, Apply(s, a)) && Inv(Apply(s, a))
  {
    hide Inv, Attempt, StepOf, ContextOf;
    if Attempt(s, a).Ok? {
      AttemptStep(s, a);
    } else {
      SameState(ContextOf(s, a), s);
    }
    StepKeeps(ContextOf(s, a), s, Apply(s, a));
  }

  lemma EmptyBookOk(book: Book)
    requires book == Book(map[], map[], map[], 0)
    ensures BookOk(book)
  {
    forall i ensures PlacedOn(book, i) == {} {
    }
  }

  lemma EmptyTablesOk(s: State)
    requires s.invoices == map[] && s.lists == map[] && s.escrowOf == map[] && s.investmentOf == map[]
        && s.escrows == map[] && s.investments == map[]
    requires s.active == [] && s.escrowCount == 0
    ensures ListsOk(s.invoices, s.lists) && ActiveOk(s.investments, s.active) && Custody(s.ledger, s.escrows, s.escrowCount)
    ensures EscrowsOk(s.invoices.Keys, s.escrows, s.escrowOf, s.escrowCount)
    ensures InvestmentsOk(s.invoices.Keys, s.investments, s.investmentOf, s.investmentCount)
  {
  }

  lemma InitHolds(now: u64, admin: Address, balances: Holdings, allowances: Holdings)
    ensures Inv(Init(now, admin, balances, allowances))
  {
    hide BookOk, ListsOk, ActiveOk, Custody, EscrowsOk, InvestmentsOk, Coherent, SliceOf;
    var s := Init(now, admin, balances, allowances);
    EmptyBookOk(s.book);
    EmptyTablesOk(s);
  }
}
