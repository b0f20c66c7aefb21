/** What a successful call changes, said on the stored fields. */
module Effects {
  import opened Base
  import opened Lists
  import opened Token
  import opened BasisPoints
  import opened BidBook
  import opened SettlementSplit
  import opened Insurance
  import opened Protocol
  import opened Coherence
  import opened Local
  import opened Frames
  import opened Simulation
  import opened Runs
  import opened Replays
  import opened Settling
  import opened Outcomes
  import opened Scenarios

  /* ---- payments ---- */

  /** One payment of `applied` under `tx`, and nothing else about payments, was recorded for `id`. */
  ghost predicate PaymentStored(s: State, s': State, id: InvoiceId, applied: int, tx: string) {
    && id in s.invoices && id in s'.invoices
    && PaymentsOf(s', id) == PaymentsOf(s, id) + [Payment(s.invoices[id].business, applied, s.now, tx)]
    && s'.invoices[id].totalPaid == s.invoices[id].totalPaid + applied
    && (forall j :: j != id ==> PaymentsOf(s', j) == PaymentsOf(s, j))
    && (forall j :: j in s.invoices && j != id ==> j in s'.invoices && s'.invoices[j] == s.invoices[j])
    && s'.nonces == s.nonces + (if tx == "" then {} else {(id, tx)})
  }

  /** Finalizing changes neither the log nor the total of a fully paid invoice. */
  lemma FinalizeKeepsPayments(s: State, id: InvoiceId)
    requires Finalize(s, id).Ok? && s.invoices[id].totalPaid <= s.invoices[id].amount
    ensures var s' := Finalize(s, id).value;
      && s'.payments == s.payments && s'.nonces == s.nonces
      && s'.invoices == s.invoices[id := s'.invoices[id]] && s'.invoices[id].status == Paid
      && s'.invoices[id].totalPaid == s.invoices[id].totalPaid
  {
    hide Transfer, Relist, SplitFor, FeeRecipient, PaySplit;
  }

  lemma RecordedIsStored(s: State, id: InvoiceId, p: Payment)
    requires id in s.invoices && p.payer == s.invoices[id].business && p.timestamp == s.now
    ensures PaymentStored(s, RecordedState(s, id, p), id, p.amount, p.nonce)
    ensures var s' := RecordedState(s, id, p);
      && s'.invoices[id].amount == s.invoices[id].amount && s'.invoices[id].status == s.invoices[id].status
  {
    hide SlideHistory;
  }

  lemma StoredThenFinalized(s: State, s1: State, id: InvoiceId, applied: int, tx: string)
    requires PaymentStored(s, s1, id, applied, tx) && Finalize(s1, id).Ok?
    requires s1.invoices[id].totalPaid <= s1.invoices[id].amount
    ensures PaymentStored(s, Finalize(s1, id).value, id, applied, tx)
  {
    hide Finalize;
    FinalizeKeepsPayments(s1, id);
  }

  /** What a call that succeeds and is not a replay leaves: what was offered, or what is still owed if that is less. */
  ghost predicate PaidInto(s: State, s': State, id: InvoiceId, amount: int, tx: string) {
    && id in s.invoices
    && var owed := s.invoices[id].amount - s.invoices[id].totalPaid;
    && 0 < owed && 0 < amount && PaymentStored(s, s', id, if amount < owed then amount else owed, tx)
    && s'.invoices[id].status == if amount < owed then Funded else Paid
  }

  lemma PaysWhatIsOffered(s: State, id: InvoiceId, amount: i128, tx: string)
    requires Inv(s) && (tx == "" || (id, tx) !in s.nonces) && ProcessPartialPayment(s, id, amount, tx).Ok?
    ensures PaidInto(s, ProcessPartialPayment(s, id, amount, tx).value, id, amount, tx)
  {
    hide Inv, PaymentStored, Finalize, RecordedState, SlideHistory, Affordable;
    PayIff(s, id, amount, tx);
    FundedHasEscrow(s, id);
    var p := NextPayment(s, id, amount, tx);
    var s1 := RecordedState(s, id, p);
    RecordedIsStored(s, id, p);
    StoredTotal(s, s1, id, p.amount, tx);
    if s1.invoices[id].totalPaid >= s1.invoices[id].amount {
      StoredThenFinalized(s, s1, id, p.amount, tx);
      FinalizeKeepsPayments(s1, id);
    }
  }

  /**
    A payment that is not a replay records what was offered, or what is still owed if that is less: one record by the
    business, at the ledger's time, under the transaction id. The invoice is Paid iff that completes its amount.
   */
  lemma PaymentIsRecorded(g: Genesis, actions: seq<Action>, id: InvoiceId, amount: i128, tx: string)
    requires Legal(actions) && (tx == "" || (id, tx) !in Reached(g, actions).nonces)
    requires ProcessPartialPayment(Reached(g, actions), id, amount, tx).Ok?
    ensures PaidInto(Reached(g, actions), ProcessPartialPayment(Reached(g, actions), id, amount, tx).value, id, amount, tx)
  {
    hide Reached, Inv, PaidInto, ProcessPartialPayment;
    ReachedInv(g, actions);
    PaysWhatIsOffered(Reached(g, actions), id, amount, tx);
  }

  lemma StoredTotal(s: State, s': State, id: InvoiceId, applied: int, tx: string)
    requires PaymentStored(s, s', id, applied, tx)
    ensures id in s.invoices && id in s'.invoices && s'.invoices[id].totalPaid == s.invoices[id].totalPaid + applied
  {
  }

  lemma SettlesWhatIsOwed(s: State, id: InvoiceId, amount: i128)
    requires Inv(s) && SettleInvoice(s, id, amount).Ok?
    ensures id in s.invoices && amount == s.invoices[id].amount - s.invoices[id].totalPaid
    ensures PaidInto(s, SettleInvoice(s, id, amount).value, id, amount, "settlement")
  {
    hide Inv, PaymentStored, Finalize, RecordedState, SlideHistory, Affordable;
    SettleIff(s, id, amount);
    FundedHasEscrow(s, id);
    var p := NextPayment(s, id, amount, SETTLEMENT_NONCE);
    var s1 := RecordedState(s, id, p);
    RecordedIsStored(s, id, p);
    StoredTotal(s, s1, id, p.amount, SETTLEMENT_NONCE);
    StoredThenFinalized(s, s1, id, p.amount, SETTLEMENT_NONCE);
    FinalizeKeepsPayments(s1, id);
  }

  /** A settlement records exactly what was still owed, under the reserved id, and the invoice is Paid. */
  lemma SettlementIsRecorded(g: Genesis, actions: seq<Action>, id: InvoiceId, amount: i128)
    requires Legal(actions) && SettleInvoice(Reached(g, actions), id, amount).Ok?
    ensures var s := Reached(g, actions);
      && id in s.invoices && amount == s.invoices[id].amount - s.invoices[id].totalPaid
      && PaidInto(s, SettleInvoice(s, id, amount).value, id, amount, "settlement")
  {
    hide Reached, Inv, PaidInto, SettleInvoice;
    ReachedInv(g, actions);
    SettlesWhatIsOwed(Reached(g, actions), id, amount);
  }

  /* ---- invoices and bids ---- */

  /** An upload succeeds iff its checks pass and its amount and due date are sensible; it stores a Pending invoice under a new id. */
  lemma UploadStores(g: Genesis, actions: seq<Action>, business: Address, amount: i128, currency: Address, dueDate: u64,
                          kyc: Option<Error>, gate: Option<Error>)
    requires Legal(actions)
    ensures var s := Reached(g, actions); var r := CreateInvoice(s, business, amount, currency, dueDate, kyc, gate);
      && (r.Ok? <==> kyc == None && amount > 0 && dueDate > s.now && gate == None)
      && (r.Ok? ==>
            var s', id := r.value, r.value.invoiceCount;
            && id !in s.invoices && s'.invoices.Keys == s.invoices.Keys + {id}
            && (forall j :: j in s.invoices ==> s'.invoices[j] == s.invoices[j])
            && var i := s'.invoices[id];
            && i.business == business && i.amount == amount && i.currency == currency && i.dueDate == dueDate
            && i.status == Pending && i.totalPaid == 0 && i.fundedAmount == 0 && i.history == []
            && i.investor == None && i.fundedAt == None && i.settledAt == None)
  {
    hide Reached, Inv;
    ReachedInv(g, actions);
    NextIsFresh(Reached(g, actions));
  }

  /** Verifying and cancelling change the status and nothing else of the invoice. */
  lemma StatusChanges(s: State, id: InvoiceId, kyc: Option<Error>)
    ensures id in s.invoices && s.invoices[id].status == Pending ==>
      VerifyInvoice(s, id).Ok? && VerifyInvoice(s, id).value.invoices == s.invoices[id := s.invoices[id].(status := Verified)]
    ensures CancelInvoice(s, id, kyc).Ok?
       <==> id in s.invoices && kyc == None && (s.invoices[id].status == Pending || s.invoices[id].status == Verified)
    ensures CancelInvoice(s, id, kyc).Ok? ==>
      CancelInvoice(s, id, kyc).value.invoices == s.invoices[id := s.invoices[id].(status := InvoiceStatus.Cancelled)]
  {
    hide Relist;
  }

  /** How the bids that were there before may have changed: those past their deadline are Expired, the others untouched. */
  ghost predicate OnlyExpired(book: Book, book': Book, now: nat) {
    forall k :: k in book.bids ==>
      && k in book'.bids
      && (book'.bids[k] == book.bids[k]
          || (book.bids[k].status == Placed && now > book.bids[k].expires && book'.bids[k] == book.bids[k].(status := Expired)))
  }

  lemma RefreshOnlyExpires(book: Book, now: nat, key: nat)
    ensures var book' := RefreshInvoice(book, now, key);
      OnlyExpired(book, book', now) && book'.count == book.count && book'.bids.Keys == book.bids.Keys
    ensures var book' := RefreshInvestor(book, now, key);
      OnlyExpired(book, book', now) && book'.count == book.count && book'.bids.Keys == book.bids.Keys
  {
  }

  lemma OnlyExpiredTwice(b: Book, b1: Book, b2: Book, now: nat)
    requires OnlyExpired(b, b1, now) && OnlyExpired(b1, b2, now)
    ensures OnlyExpired(b, b2, now)
  {
  }

  /** The bid as it was made, stored under the next id; nothing but the bid table changes, and there only lapsed bids. */
  ghost predicate BidRecorded(s: State, s': State, investor: Address, id: InvoiceId, amount: int, expectedReturn: int,
                          ttlDays: nat) {
    var k := s.book.count + 1;
    && s' == s.(book := s'.book) && s'.book.count == k && k !in s.book.bids
    && s'.book.bids.Keys == s.book.bids.Keys + {k} && OnlyExpired(s.book, s'.book, s.now)
    && var b := s'.book.bids[k];
    && b.id == k && b.invoice == id && b.investor == investor && b.amount == amount
    && b.expectedReturn == expectedReturn && b.timestamp == s.now && b.status == Placed
    && b.expires == if s.now + ttlDays * 86_400 > U64_MAX then U64_MAX else s.now + ttlDays * 86_400
  }

  lemma PlacedIsRecorded(s: State, b3: Book, investor: Address, id: InvoiceId, amount: int, expectedReturn: int,
                          ttlDays: nat)
    requires TableOk(s.book) && OnlyExpired(s.book, b3, s.now)
    requires b3.count == s.book.count && b3.bids.Keys == s.book.bids.Keys
    ensures var expires := SatAdd64(s.now, Min(ttlDays * SECONDS_PER_DAY, U64_MAX));
      BidRecorded(s, s.(book := Place(b3, id, investor, amount, expectedReturn, s.now, expires)), investor, id, amount,
          expectedReturn, ttlDays)
  {
    assert s.book.count + 1 !in s.book.bids;
  }

  /** The refreshes of a placement, in their order. */
  function RefreshedFor(s: State, investor: Address, id: InvoiceId, maxActive: nat): Book {
    var b1 := RefreshInvoice(s.book, s.now, id);
    RefreshInvoice(if maxActive > 0 then RefreshInvestor(b1, s.now, investor) else b1, s.now, id)
  }

  lemma RefreshedOnlyExpires(s: State, investor: Address, id: InvoiceId, maxActive: nat)
    ensures var b3 := RefreshedFor(s, investor, id, maxActive);
      OnlyExpired(s.book, b3, s.now) && b3.count == s.book.count && b3.bids.Keys == s.book.bids.Keys
  {
    hide RefreshInvoice, RefreshInvestor, OnlyExpired;
    var b1 := RefreshInvoice(s.book, s.now, id);
    var b2 := if maxActive > 0 then RefreshInvestor(b1, s.now, investor) else b1;
    RefreshOnlyExpires(s.book, s.now, id);
    RefreshOnlyExpires(b1, s.now, investor);
    RefreshOnlyExpires(b2, s.now, id);
    NothingExpires(b1, s.now);
    OnlyExpiredTwice(s.book, b1, b2, s.now);
    OnlyExpiredTwice(s.book, b2, RefreshInvoice(b2, s.now, id), s.now);
  }

  /** A bid that is accepted is stored as it was made, Placed, and lapses after the configured number of days. */
  lemma BidIsStored(g: Genesis, actions: seq<Action>, investor: Address, id: InvoiceId, amount: i128,
                          expectedReturn: i128, terms: BidTerms)
    requires Legal(actions) && PlaceBid(Reached(g, actions), investor, id, amount, expectedReturn, terms).Ok?
    ensures BidRecorded(Reached(g, actions), PlaceBid(Reached(g, actions), investor, id, amount, expectedReturn,
        terms).value, investor, id, amount, expectedReturn, terms.ttlDays)
  {
    hide Reached, Inv, RefreshInvoice, RefreshInvestor, OnlyExpired, BidRecorded, Place, PlacedOn, PlacedBy, BidRefusal,
         IndexOk, TableOk;
    var s := Reached(g, actions);
    ReachedInv(g, actions);
    BookInOrder(s);
    RefreshedOnlyExpires(s, investor, id, terms.maxActive);
    PlacedIsRecorded(s, RefreshedFor(s, investor, id, terms.maxActive), investor, id, amount, expectedReturn, terms.ttlDays);
  }

  lemma NothingExpires(book: Book, now: nat)
    ensures OnlyExpired(book, book, now)
  {
  }

  /** Withdrawing and cancelling end a Placed bid, each in its own way, and touch no other. */
  lemma BidEnds(s: State, k: BidId, kyc: Option<Error>)
    ensures WithdrawBid(s, k, kyc).Ok? <==> k in s.book.bids && kyc == None && s.book.bids[k].status == Placed
    ensures WithdrawBid(s, k, kyc).Ok? ==>
      WithdrawBid(s, k, kyc).value.book.bids == s.book.bids[k := s.book.bids[k].(status := BidStatus.Withdrawn)]
    ensures CancelBid(s, k).book.bids
         == if k in s.book.bids && s.book.bids[k].status == Placed
            then s.book.bids[k := s.book.bids[k].(status := BidStatus.Cancelled)] else s.book.bids
  {
  }

  /* ---- funding, insurance, configuration ---- */

  /** Bid `k` has funded invoice `id`: escrow, investment, invoice, bid and transfer all say so, in the same figures. */
  ghost predicate FundingRecorded(s: State, s': State, id: InvoiceId, k: BidId) {
    && id in s.invoices && k in s.book.bids && k in s'.book.bids && HasEscrow(s', id) && HasInvestment(s', id)
    && var b, i := s.book.bids[k], s.invoices[id];
    && b.amount > 0
    && EscrowFor(s', id) == Escrow(id, b.investor, i.business, b.amount, i.currency, s.now, Held)
    && InvestmentFor(s', id) == Investment(id, b.investor, b.amount, s.now, Active, [])
    && s'.invoices == s.invoices[id := i.(status := Funded, fundedAmount := b.amount, fundedAt := Some(s.now),
                                          investor := Some(b.investor))]
    && s'.book.bids[k] == b.(status := Accepted)
    && OnlyExpired(s.book, s'.book.(bids := s'.book.bids[k := b]), s.now)
    && s'.ledger.moves == s.ledger.moves + [Move(Some(id), i.currency, b.investor, SELF, b.amount)]
  }

  lemma FundedStateIsRecorded(s: State, s1: State, id: InvoiceId, k: BidId, l: Ledger)
    requires id in s.invoices && k in s.book.bids && s.book.bids[k].amount > 0
    requires s1 == s.(book := s1.book) && OnlyExpired(s.book, s1.book, s.now) && k in s1.book.bids
    requires s1.book.bids[k] == s.book.bids[k]
    requires l.moves
          == s.ledger.moves + [Move(Some(id), s.invoices[id].currency, s.book.bids[k].investor, SELF, s.book.bids[k].amount)]
    ensures FundingRecorded(s, FundedState(s1, id, k, l), id, k)
  {
    hide Relist, AddUnique;
    var s' := FundedState(s1, id, k, l);
    assert s'.book.bids[k := s.book.bids[k]] == s1.book.bids;
  }

  lemma AcceptanceIs(s: State, id: InvoiceId, k: BidId, kyc: Option<Error>)
    requires AcceptBidAndFund(s, id, k, kyc).Ok?
    ensures var book := RefreshInvoice(s.book, s.now, id);
      && id in s.invoices && k in book.bids
      && var t := Transfer(s.ledger, Some(id), s.invoices[id].currency, book.bids[k].investor, SELF, book.bids[k].amount);
      && t.Ok? && AcceptBidAndFund(s, id, k, kyc).value == FundedState(s.(book := book), id, k, t.value)
  {
    hide RefreshInvoice, Transfer, FundedState;
  }

  /**
    Accepting a bid takes its amount from the investor into the contract, in the invoice's currency, and records it
    three times: in the escrow, the investment and the invoice. The bid is Accepted and no other bid of the table
    changes, except for lapsed ones.
   */
  lemma AcceptanceIsRecorded(g: Genesis, actions: seq<Action>, id: InvoiceId, k: BidId, kyc: Option<Error>)
    requires Legal(actions) && AcceptBidAndFund(Reached(g, actions), id, k, kyc).Ok?
    ensures FundingRecorded(Reached(g, actions), AcceptBidAndFund(Reached(g, actions), id, k, kyc).value, id, k)
  {
    hide Reached, Inv, RefreshInvoice, AcceptBidAndFund, FundedState, FundingRecorded, OnlyExpired, Transfer;
    var s := Reached(g, actions);
    ReachedInv(g, actions);
    FundIff(s, id, k, kyc);
    AcceptanceIs(s, id, k, kyc);
    RefreshOnlyExpires(s.book, s.now, id);
    var book := RefreshInvoice(s.book, s.now, id);
    LiveIsKept(s, id, k);
    var l := Transfer(s.ledger, Some(id), s.invoices[id].currency, book.bids[k].investor, SELF, book.bids[k].amount).value;
    TransferMoves(s.ledger, id, s.invoices[id].currency, book.bids[k].investor, SELF, book.bids[k].amount);
    FundedStateIsRecorded(s, s.(book := book), id, k, l);
  }

  lemma LiveIsKept(s: State, id: InvoiceId, k: BidId)
    requires k in LiveOn(s.book, s.now, id)
    ensures var book := RefreshInvoice(s.book, s.now, id); k in s.book.bids && k in book.bids && book.bids[k] == s.book.bids[k]
  {
    StillLive(s.book, s.now, id, k);
  }

  lemma TransferMoves(l: Ledger, id: InvoiceId, c: Address, source: Address, target: Address, amount: int)
    ensures Transfer(l, Some(id), c, source, target, amount).Ok? ==>
      amount > 0 && Transfer(l, Some(id), c, source, target, amount).value.moves
                    == l.moves + [Move(Some(id), c, source, target, amount)]
  {
  }

  lemma PrincipalInRange(s: State, v: InvestmentId)
    requires Inv(s) && v in s.investments
    ensures s.investments[v].amount <= I128_MAX
  {
    hide BookOk, BidsFit, ListsOk, ActiveOk, Custody, EscrowsOk, NoTrace, PaymentsOk, MovesOk, FundedBy, Sound, AcceptedOn,
         NoncesOf, MovesOf;
    var id := s.investments[v].invoice;
    assert s.investmentOf[id] == v;
    assert Coherent(id, SliceOf(s, id));
  }

  /**
    Insuring an investment adds one active policy and changes nothing else: the cover is the percentage of the
    principal, the premium 2 percent of the cover, but at least 1.
   */
  lemma PolicyIsAdded(g: Genesis, actions: seq<Action>, v: InvestmentId, provider: Address, percentage: nat)
    returns (cover: int, share: int)
    requires Legal(actions) && AddInvestmentInsurance(Reached(g, actions), v, provider, percentage).Ok?
    ensures var s := Reached(g, actions); var s' := AddInvestmentInsurance(s, v, provider, percentage).value;
      && v in s.investments && s' == s.(investments := s'.investments)
      && Covers(cover, s.investments[v].amount, percentage) && FlooredShare(share, cover, 200)
      && s'.investments == s.investments[v := s.investments[v].(insurance :=
           s.investments[v].insurance + [Coverage(provider, percentage, cover, if share < 1 then 1 else share, true)])]
  {
    hide Reached, Inv, FlooredShare, Covers;
    var s := Reached(g, actions);
    ReachedInv(g, actions);
    PrincipalInRange(s, v);
    cover := CoverageAmount(s.investments[v].amount, percentage);
    share := PremiumIsTwoPercent(s.investments[v].amount, percentage);
  }

  /** A fee rate of up to 10 percent is stored with its treasury; time only moves forward, up to the last second. */
  lemma ConfiguredAsGiven(s: State, config: FeeConfig, seconds: nat)
    ensures SetFee(s, config).Ok? <==> config.bps <= 1_000
    ensures SetFee(s, config).Ok? ==> SetFee(s, config).value == s.(fee := Some(config))
    ensures Apply(s, Tick(seconds)) == s.(now := if s.now + seconds > U64_MAX then U64_MAX else s.now + seconds)
  {
  }
}
