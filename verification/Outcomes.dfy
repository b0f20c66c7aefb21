/** Exactly when the funding calls succeed, said on the tables and the ledger instead of on cleanups and indexes. */
module Outcomes {
  import opened Base
  import opened Lists
  import opened Token
  import opened BidBook
  import opened Insurance
  import opened SettlementSplit
  import opened Protocol
  import opened Coherence
  import opened Local
  import opened Frames
  import opened Simulation
  import opened Runs
  import opened Settling

  /* ---- live bids, read off the table ---- */

  predicate Live(bid: Bid, now: nat) { bid.status == Placed && now <= bid.expires }

  function LiveOn(book: Book, now: nat, id: InvoiceId): set<BidId> {
    set k | k in book.bids && Live(book.bids[k], now) && book.bids[k].invoice == id
  }

  function LiveBy(book: Book, now: nat, investor: Address): set<BidId> {
    set k | k in book.bids && Live(book.bids[k], now) && book.bids[k].investor == investor
  }

  /** A cleanup leaves Placed exactly what is live, and does not change what is live anywhere. */
  lemma CleanupLeavesLive(book: Book, now: nat, id: InvoiceId)
    requires BookOk(book)
    ensures var book' := RefreshInvoice(book, now, id);
      && BookOk(book') && PlacedOn(book', id) == LiveOn(book, now, id)
      && (forall j :: LiveOn(book', now, j) == LiveOn(book, now, j))
      && (forall a :: LiveBy(book', now, a) == LiveBy(book, now, a))
      && (forall k :: k in book'.bids <==> k in book.bids)
      && (forall k :: k in book.bids ==> book'.bids[k] == book.bids[k].(status := book'.bids[k].status))
  {
    hide IndexOk, TableOk, Kept;
    RefreshInvoiceOk(book, now, id);
    OnIndex(book, id);
  }

  lemma OnIndex(book: Book, id: InvoiceId)
    requires BookOk(book)
    ensures forall k :: k in book.bids && book.bids[k].status == Placed && book.bids[k].invoice == id ==>
              k in IdsOf(book.byInvoice, id)
  {
    hide TableOk, PlacedOn;
  }

  lemma OnInvestorIndex(book: Book, investor: Address)
    requires BookOk(book)
    ensures forall k :: k in book.bids && book.bids[k].status == Placed && book.bids[k].investor == investor ==>
              k in IdsOf(book.byInvestor, investor)
  {
    hide TableOk, PlacedOn;
  }

  lemma InvestorCleanupLeavesLive(book: Book, now: nat, investor: Address)
    requires BookOk(book)
    ensures var book' := RefreshInvestor(book, now, investor);
      && BookOk(book') && PlacedBy(book', investor) == LiveBy(book, now, investor)
      && (forall j :: LiveOn(book', now, j) == LiveOn(book, now, j))
      && (forall k :: k in book'.bids <==> k in book.bids)
      && (forall k :: k in book.bids ==> book'.bids[k] == book.bids[k].(status := book'.bids[k].status))
  {
    hide IndexOk, TableOk, Kept, PlacedOn;
    RefreshInvestorOk(book, now, investor);
    OnInvestorIndex(book, investor);
  }

  /* ---- bidding ---- */

  /** At least `share` hundredths of a percent of `total`, rounded down. */
  predicate AtLeastShare(amount: int, total: int, share: nat) {
    if total * share <= I128_MAX then (amount + 1) * 10_000 > total * share
    else amount >= 0x7FFF_FFFF_FFFF_FFFF_FFFF_FFFF_FFFF_FFFF / 10_000
  }

  /**
    The terms of a bid: before the due date, by someone other than the business, from both minimums up to the
    invoice's amount, for more than is bid, by an eligible investor.
   */
  predicate Acceptable(now: nat, invoice: Invoice, investor: Address, amount: int, expectedReturn: int, terms: BidTerms) {
    && now < invoice.dueDate && investor != invoice.business
    && terms.minAmount <= amount && AtLeastShare(amount, invoice.amount, terms.minBps) && amount <= invoice.amount
    && expectedReturn > amount && terms.eligible.None?
  }

  lemma AcceptableIsNotRefused(now: nat, invoice: Invoice, investor: Address, amount: int, expectedReturn: int,
                          terms: BidTerms)
    requires 0 < invoice.amount <= I128_MAX
    ensures BidRefusal(now, invoice, investor, amount, expectedReturn, terms).None?
       <==> Acceptable(now, invoice, investor, amount, expectedReturn, terms)
  {
    MulLe(invoice.amount, 0, terms.minBps);
    AtLeastFloor(amount, SatMul(invoice.amount, terms.minBps));
  }

  lemma AtLeastFloor(amount: int, product: int)
    ensures amount >= product / 10_000 <==> (amount + 1) * 10_000 > product
  {
  }

  /**
    What a bid needs, without any cleanup: room under both caps, acceptable terms, and no live bid of the same
    investor on the invoice.
   */
  ghost predicate CanBid(s: State, investor: Address, id: InvoiceId, amount: int, expectedReturn: int,
                         terms: BidTerms) {
    && amount > 0 && id in s.invoices && s.invoices[id].status == Verified && terms.gate.None?
    && |LiveOn(s.book, s.now, id)| < 50
    && (terms.maxActive > 0 ==> |LiveBy(s.book, s.now, investor)| < terms.maxActive)
    && Acceptable(s.now, s.invoices[id], investor, amount, expectedReturn, terms)
    && !(exists k :: k in LiveOn(s.book, s.now, id) && s.book.bids[k].investor == investor)
  }

  lemma BidIff(s: State, investor: Address, id: InvoiceId, amount: int, expectedReturn: int, terms: BidTerms)
    requires BookOk(s.book) && (id in s.invoices ==> 0 < s.invoices[id].amount <= I128_MAX)
    ensures PlaceBid(s, investor, id, amount, expectedReturn, terms).Ok? <==> CanBid(s, investor, id, amount,
        expectedReturn, terms)
  {
    hide BookOk, RefreshInvoice, RefreshInvestor, PlacedOn, PlacedBy, LiveOn, LiveBy, BidRefusal, Acceptable, Place;
    if id in s.invoices {
      AcceptableIsNotRefused(s.now, s.invoices[id], investor, amount, expectedReturn, terms);
    }
    CleanupLeavesLive(s.book, s.now, id);
    var b1 := RefreshInvoice(s.book, s.now, id);
    InvestorCleanupLeavesLive(b1, s.now, investor);
    var b2 := if terms.maxActive > 0 then RefreshInvestor(b1, s.now, investor) else b1;
    CleanupLeavesLive(b2, s.now, id);
    var b3 := RefreshInvoice(b2, s.now, id);
    LiveAreStored(s.book, s.now, id);
    assert PlacedOn(b3, id) == LiveOn(s.book, s.now, id);
    assert forall k :: k in s.book.bids ==> b3.bids[k].investor == s.book.bids[k].investor;
  }

  lemma AmountInRange(s: State, id: InvoiceId)
    requires Inv(s)
    ensures id in s.invoices ==> 0 < s.invoices[id].amount <= I128_MAX
  {
    hide Structure, PaymentsOk, StatusFixesRest, MovesOk, EscrowOf, InvestmentOf, AcceptedOn, NoncesOf, MovesOf;
    if id in s.invoices {
      assert Coherent(id, SliceOf(s, id));
    }
  }

  lemma LiveAreStored(book: Book, now: nat, id: InvoiceId)
    ensures forall k :: k in LiveOn(book, now, id) ==> k in book.bids
  {
  }

  lemma PlaceBidSucceedsIff(g: Genesis, actions: seq<Action>, investor: Address, id: InvoiceId, amount: i128,
                          expectedReturn: i128, terms: BidTerms)
    requires Legal(actions)
    ensures PlaceBid(Reached(g, actions), investor, id, amount, expectedReturn, terms).Ok?
       <==> CanBid(Reached(g, actions), investor, id, amount, expectedReturn, terms)
  {
    hide Inv, Reached, PlaceBid, CanBid, BookOk;
    ReachedInv(g, actions);
    BookInOrder(Reached(g, actions));
    AmountInRange(Reached(g, actions), id);
    BidIff(Reached(g, actions), investor, id, amount, expectedReturn, terms);
  }

  /* ---- funding ---- */

  /** What accepting a bid needs: a Verified invoice, a live bid on it, and an investor who can pay. */
  ghost predicate CanFund(s: State, id: InvoiceId, k: BidId, kyc: Option<Error>) {
    && id in s.invoices && s.invoices[id].status == Verified && kyc.None?
    && k in LiveOn(s.book, s.now, id)
    && Balance(s.ledger, s.invoices[id].currency, s.book.bids[k].investor) >= s.book.bids[k].amount
    && Allowance(s.ledger, s.invoices[id].currency, s.book.bids[k].investor) >= s.book.bids[k].amount
  }

  lemma FundIff(s: State, id: InvoiceId, k: BidId, kyc: Option<Error>)
    requires Inv(s)
    ensures AcceptBidAndFund(s, id, k, kyc).Ok? <==> CanFund(s, id, k, kyc)
  {
    hide Inv, Structure, BookOk, BidsFit, RefreshInvoice, FundedState, Balance, Allowance;
    BookInOrder(s);
    InvStructure(s);
    CleanupLeavesLive(s.book, s.now, id);
    LiveAreStored(s.book, s.now, id);
    var book := RefreshInvoice(s.book, s.now, id);
    if k in s.book.bids {
      BidFacts(s, k);
      assert k in PlacedOn(book, id) <==> book.bids[k].status == Placed && book.bids[k].invoice == id;
      var bid := book.bids[k];
      if id in s.invoices {
        InwardTransfer(s.ledger, id, s.invoices[id].currency, bid.investor, bid.amount);
      }
    }
  }

  /** A transfer into the contract succeeds iff its source has the funds and the allowance. */
  lemma InwardTransfer(l: Ledger, id: InvoiceId, c: Address, source: Address, amount: int)
    requires source != SELF && amount > 0
    ensures Transfer(l, Some(id), c, source, SELF, amount).Ok?
       <==> Balance(l, c, source) >= amount && Allowance(l, c, source) >= amount
  {
  }

  lemma AcceptSucceedsIff(g: Genesis, actions: seq<Action>, id: InvoiceId, k: BidId, kyc: Option<Error>)
    requires Legal(actions)
    ensures AcceptBidAndFund(Reached(g, actions), id, k, kyc).Ok? <==> CanFund(Reached(g, actions), id, k, kyc)
  {
    hide Inv, Reached, AcceptBidAndFund, CanFund;
    ReachedInv(g, actions);
    FundIff(Reached(g, actions), id, k, kyc);
  }

  /* ---- release and refund ---- */

  ghost predicate HoldsEscrow(s: State, id: InvoiceId) {
    id in s.invoices && s.invoices[id].status == Funded && HasEscrow(s, id) && EscrowFor(s, id).status == Held
  }

  lemma PayOutIff(s: State, id: InvoiceId, caller: Address)
    requires Inv(s)
    ensures ReleaseEscrowFunds(s, id).Ok? <==> HoldsEscrow(s, id)
    ensures RefundEscrowFunds(s, id, caller).Ok?
       <==> HoldsEscrow(s, id) && (caller == s.admin || caller == s.invoices[id].business)
  {
    hide Inv, Structure, Transfer, RefundedState, RefreshInvoice, PayOutEscrow;
    InvStructure(s);
    if id in s.invoices && s.invoices[id].status == Funded {
      FundedHasEscrow(s, id);
      FundedAmounts(s, id);
      NotHeld(s, id, Released);
      NotHeld(s, id, EscrowStatus.Refunded);
      if EscrowFor(s, id).status == Held {
        PayOutSucceeds(s, id, Released);
        PayOutSucceeds(s, id, EscrowStatus.Refunded);
      }
    }
  }

  lemma NotHeld(s: State, id: InvoiceId, after: EscrowStatus)
    requires HasEscrow(s, id)
    ensures EscrowFor(s, id).status != Held ==> PayOutEscrow(s, id, after).Err?
    ensures PayOutEscrow(s, id, after).Ok? ==>
      var s1 := PayOutEscrow(s, id, after).value;
      s1.invoices == s.invoices && s1.investmentOf == s.investmentOf && s1.investments == s.investments
  {
    hide Transfer;
  }

  lemma FundedAmounts(s: State, id: InvoiceId)
    requires Inv(s) && id in s.invoices && s.invoices[id].status == Funded && HasEscrow(s, id)
    ensures EscrowFor(s, id).amount > 0
  {
    hide Structure, PaymentsOk, MovesOk, AcceptedOn, NoncesOf, MovesOf, FundedBy, Sound;
    assert Coherent(id, SliceOf(s, id));
  }

  /**
    Releasing succeeds iff the invoice is Funded and its escrow Held; refunding, iff moreover the caller is the
    admin or the business. Neither can fail for lack of funds.
   */
  lemma PayoutsSucceedIff(g: Genesis, actions: seq<Action>, id: InvoiceId, caller: Address)
    requires Legal(actions)
    ensures ReleaseEscrowFunds(Reached(g, actions), id).Ok? <==> HoldsEscrow(Reached(g, actions), id)
    ensures RefundEscrowFunds(Reached(g, actions), id, caller).Ok?
       <==> HoldsEscrow(Reached(g, actions), id)
            && (caller == Reached(g, actions).admin || caller == Reached(g, actions).invoices[id].business)
  {
    hide Inv, Reached, ReleaseEscrowFunds, RefundEscrowFunds;
    ReachedInv(g, actions);
    PayOutIff(Reached(g, actions), id, caller);
  }

  /* ---- defaulting ---- */

  /** A Funded invoice that is strictly past its due date plus `grace`. */
  predicate PastDue(s: State, id: InvoiceId, grace: nat) {
    id in s.invoices && s.invoices[id].status == Funded && s.now > s.invoices[id].dueDate + grace
  }

  lemma DueIsPastDue(s: State, id: InvoiceId, grace: nat)
    requires s.now <= U64_MAX
    ensures Due(s, id, grace) <==> PastDue(s, id, grace)
  {
  }

  /** The period given with the call is within 30 days, and the invoice past due by it, or by the configured one if none is given. */
  predicate CanDefault(s: State, id: InvoiceId, grace: Option<u64>, configured: u64) {
    && (grace.Some? ==> grace.value <= 2_592_000)
    && PastDue(s, id, if grace.Some? then grace.value else configured)
  }

  lemma DefaultIff(s: State, id: InvoiceId, grace: Option<u64>, configured: u64)
    requires Inv(s)
    ensures MarkInvoiceDefaulted(s, id, grace, configured).Ok? <==> CanDefault(s, id, grace, configured)
  {
    hide Inv, HandleDefault;
    TimeBound(s);
    if id in s.invoices && s.invoices[id].status == Funded {
      DefaultSucceeds(s, id);
    }
  }

  /**
    Defaulting succeeds iff the invoice is Funded and strictly past its due date plus the grace period: the one given
    with the call, which may not exceed 30 days, or the configured one if none is given.
   */
  lemma MarkDefaultedSucceedsIff(g: Genesis, actions: seq<Action>, id: InvoiceId, grace: Option<u64>, configured: u64)
    requires Legal(actions)
    ensures MarkInvoiceDefaulted(Reached(g, actions), id, grace, configured).Ok?
       <==> CanDefault(Reached(g, actions), id, grace, configured)
  {
    hide Inv, Reached, CanDefault, MarkInvoiceDefaulted;
    ReachedInv(g, actions);
    DefaultIff(Reached(g, actions), id, grace, configured);
  }

  /** An expiry check with an admissible period defaults exactly the same invoices, and otherwise changes nothing. */
  lemma CheckExpiryIff(g: Genesis, actions: seq<Action>, id: InvoiceId, grace: Option<u64>, configured: u64)
    requires Legal(actions)
    ensures var s := Reached(g, actions); var r := CheckInvoiceExpiration(s, id, grace, configured);
      && (r.Ok? <==> id in s.invoices && (grace.Some? ==> grace.value <= 2_592_000))
      && (r.Ok? ==>
            if PastDue(s, id, if grace.Some? then grace.value else configured)
            then r == MarkInvoiceDefaulted(s, id, grace, configured) else r == Ok(s))
  {
    hide Inv, Reached, HandleDefault;
    var s := Reached(g, actions);
    ReachedInv(g, actions);
    TimeBound(s);
    if id in s.invoices && s.invoices[id].status == Funded {
      DefaultSucceeds(s, id);
    }
  }

  /**
    What a grace period given with the call can change. It is refused above 30 days; otherwise it takes the place
    of the configured one altogether, longer or shorter, and the shorter it is the earlier the same default
    succeeds. An invoice that has been due for more than 30 days can be defaulted with any admissible one.
   */
  lemma GraceOnlyMovesTheDeadline(g: Genesis, actions: seq<Action>, id: InvoiceId, grace: u64, shorter: u64,
                          configured: u64, other: u64)
    requires Legal(actions) && shorter <= grace
    ensures var s := Reached(g, actions);
      && (grace > 2_592_000 ==> MarkInvoiceDefaulted(s, id, Some(grace), configured).Err?)
      && MarkInvoiceDefaulted(s, id, Some(grace), configured) == MarkInvoiceDefaulted(s, id, Some(grace), other)
      && (grace <= 2_592_000 ==>
            MarkInvoiceDefaulted(s, id, None, grace) == MarkInvoiceDefaulted(s, id, Some(grace), other))
      && (MarkInvoiceDefaulted(s, id, Some(grace), configured).Ok? ==>
            MarkInvoiceDefaulted(s, id, Some(shorter), configured) == MarkInvoiceDefaulted(s, id, Some(grace), configured))
      && (PastDue(s, id, 2_592_000) && grace <= 2_592_000 ==>
            MarkInvoiceDefaulted(s, id, Some(grace), configured).Ok?)
  {
    hide Reached, HandleDefault;
    MarkDefaultedSucceedsIff(g, actions, id, Some(grace), configured);
  }
}
