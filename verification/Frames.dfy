/**
  The building blocks of a step on one invoice. Each block keeps the structure, touches no
  other invoice, and changes the slice of its own invoice in one stated way; a whole step is
  a chain of blocks, and only the last slice has to be coherent.
 */
module Frames {
  import opened Base
  import opened Lists
  import opened Token
  import opened BidBook
  import opened SettlementSplit
  import opened Insurance
  import opened Protocol
  import opened Coherence

  /* ---- what a step on one invoice may touch ---- */

  /** Outside invoice `id` nothing that belongs to an invoice has changed. */
  ghost predicate OnlyTouches(s: State, s': State, id: InvoiceId) {
    && id in s.invoices && id in s'.invoices
    && s'.invoices == s.invoices[id := s'.invoices[id]]
    && (forall j :: j != id ==> EscrowOf(s', j) == EscrowOf(s, j))
    && (forall j :: j != id ==> InvestmentOf(s', j) == InvestmentOf(s, j))
    && (forall j :: j != id ==> AcceptedOn(s'.book, j) == AcceptedOn(s.book, j))
    && (forall j :: j != id ==> PaymentsOf(s', j) == PaymentsOf(s, j))
    && (forall j, n :: j != id ==> ((j, n) in s'.nonces <==> (j, n) in s.nonces))
    && (forall j :: j != id ==> (j in s'.finalized <==> j in s.finalized) && (j in s'.guards <==> j in s.guards))
    && (forall j :: j != id ==> MovesOf(s'.ledger.moves, j) == MovesOf(s.ledger.moves, j))
  }

  lemma SameNonces(s: State, s': State, j: InvoiceId)
    requires forall n :: (j, n) in s'.nonces <==> (j, n) in s.nonces
    ensures NoncesOf(s', j) == NoncesOf(s, j)
  {
    forall n ensures n in NoncesOf(s', j) <==> n in NoncesOf(s, j) {
      assert n in NoncesOf(s', j) <==> (j, n) in s'.nonces;
      assert n in NoncesOf(s, j) <==> (j, n) in s.nonces;
    }
  }

  lemma RelistOk(invoices: map<InvoiceId, Invoice>, lists: StatusLists, id: InvoiceId,
                 invoice: Invoice)
    requires ListsOk(invoices, lists) && id in invoices
    ensures ListsOk(invoices[id := invoice], Relist(lists, id, invoices[id].status, invoice.status))
  {
    var before, after := invoices[id].status, invoice.status;
    if before != after {
      var lists' := Relist(lists, id, before, after);
      RemoveFirstDrops(ListOf(lists, before), id);
      assert ListOf(lists', before) == RemoveFirst(ListOf(lists, before), id);
      assert ListOf(lists', after) == ListOf(lists, after) + [id];
      assert forall st :: st != before && st != after ==> ListOf(lists', st) == ListOf(lists, st);
    }
  }

  lemma CloseActiveOk(investments: map<InvestmentId, Investment>, active: seq<InvestmentId>, v: InvestmentId,
                      investment: Investment)
    requires ActiveOk(investments, active) && v in investments && investment.status != Active
    ensures ActiveOk(investments[v := investment], RemoveFirst(active, v))
  {
    RemoveFirstDrops(active, v);
  }

  /* ---- custody ---- */

  lemma {:induction false} HeldSumUpdate(escrows: map<EscrowId, Escrow>, count: nat, c: Address, e: EscrowId,
                          escrow: Escrow)
    ensures HeldSum(escrows[e := escrow], count, c)
         == HeldSum(escrows, count, c)
            + if 1 <= e <= count then HeldIn(escrow, c) - (if e in escrows then HeldIn(escrows[e], c) else 0) else 0
  {
    if count > 0 {
      HeldSumUpdate(escrows, count - 1, c, e, escrow);
    }
  }

  /** A held escrow is part of the sum. */
  lemma {:induction false} HeldSumCovers(escrows: map<EscrowId, Escrow>, count: nat, c: Address, e: EscrowId)
    requires e in escrows && 1 <= e <= count
    ensures HeldSum(escrows, count, c) >= HeldIn(escrows[e], c)
  {
    if e < count {
      HeldSumCovers(escrows, count - 1, c, e);
    }
  }

  /* ---- moves ---- */

  lemma MovesOfNone(moves: seq<Move>, id: InvoiceId)
    requires forall i :: 0 <= i < |moves| ==> moves[i].invoice != Some(id)
    ensures MovesOf(moves, id) == []
  {
  }

  /** One more move for invoice `id` shows up in its history only. */
  lemma MoveFor(l: Ledger, l': Ledger, m: Move, id: InvoiceId)
    requires OneMove(l, l', m) && m.invoice == Some(id)
    ensures MovesOf(l'.moves, id) == MovesOf(l.moves, id) + [m]
    ensures forall j :: j != id ==> MovesOf(l'.moves, j) == MovesOf(l.moves, j)
  {
    forall j ensures MovesOf(l'.moves, j) == if j == id then MovesOf(l.moves, j) + [m] else MovesOf(l.moves, j) {
      MovesAppend(l.moves, m, j);
    }
  }

  /* ---- the blocks ---- */

  lemma TouchTwice(s: State, s1: State, s2: State, id: InvoiceId)
    requires OnlyTouches(s, s1, id) && OnlyTouches(s1, s2, id)
    ensures OnlyTouches(s, s2, id)
  {
    hide EscrowOf, InvestmentOf, AcceptedOn, PaymentsOf, MovesOf;
  }

  /** Bids keep fitting an invoice whose amount and business stay. */
  lemma BidsFitUpdate(book: Book, invoices: map<InvoiceId, Invoice>, id: InvoiceId, invoice: Invoice)
    requires BidsFit(book, invoices) && id in invoices
    requires invoice.amount == invoices[id].amount && invoice.business == invoices[id].business
    ensures BidsFit(book, invoices[id := invoice])
  {
  }

  /** Storing a changed invoice. */
  lemma InvoiceBlock(s: State, id: InvoiceId, invoice: Invoice)
    requires Structure(s) && id in s.invoices
    requires invoice.amount == s.invoices[id].amount && invoice.business == s.invoices[id].business
    ensures var s' := WithInvoice(s, id, invoice);
      && Structure(s') && OnlyTouches(s, s', id)
      && SliceOf(s', id) == SliceOf(s, id).(invoice := invoice)
  {
    hide BookOk, BidsFit, ListsOk, ActiveOk, Custody, EscrowsOk, InvestmentsOk, NoTrace, MovesOf, AcceptedOn, Relist;
    var s' := WithInvoice(s, id, invoice);
    RelistOk(s.invoices, s.lists, id, invoice);
    BidsFitUpdate(s.book, s.invoices, id, invoice);
    assert s'.invoices.Keys == s.invoices.Keys;
  }

  lemma EscrowChanged(ids: set<InvoiceId>, escrows: map<EscrowId, Escrow>, escrowOf: map<InvoiceId, EscrowId>,
                      count: nat, id: InvoiceId, escrow: Escrow)
    requires EscrowsOk(ids, escrows, escrowOf, count) && id in escrowOf && escrow.invoice == id
    ensures EscrowsOk(ids, escrows[escrowOf[id] := escrow], escrowOf, count)
    ensures forall j :: j != id ==> LookUp(escrowOf, escrows[escrowOf[id] := escrow], j) == LookUp(escrowOf, escrows, j)
  {
  }

  lemma EscrowAdded(ids: set<InvoiceId>, escrows: map<EscrowId, Escrow>, escrowOf: map<InvoiceId, EscrowId>, count: nat,
                    id: InvoiceId, escrow: Escrow)
    requires EscrowsOk(ids, escrows, escrowOf, count) && id !in escrowOf && id in ids && escrow.invoice == id
    ensures count + 1 !in escrows
    ensures EscrowsOk(ids, escrows[count + 1 := escrow], escrowOf[id := count + 1], count + 1)
    ensures forall j :: j != id ==>
      LookUp(escrowOf[id := count + 1], escrows[count + 1 := escrow], j) == LookUp(escrowOf, escrows, j)
  {
  }

  lemma InvestmentChanged(ids: set<InvoiceId>, investments: map<InvestmentId, Investment>, investmentOf: map<InvoiceId,
                          InvestmentId>, count: nat, id: InvoiceId, investment: Investment)
    requires InvestmentsOk(ids, investments, investmentOf, count) && id in investmentOf && investment.invoice == id
    ensures InvestmentsOk(ids, investments[investmentOf[id] := investment], investmentOf, count)
    ensures forall j :: j != id ==>
      LookUp(investmentOf, investments[investmentOf[id] := investment], j) == LookUp(investmentOf, investments, j)
  {
  }

  lemma InvestmentAdded(ids: set<InvoiceId>, investments: map<InvestmentId, Investment>, investmentOf: map<InvoiceId,
                        InvestmentId>, count: nat, id: InvoiceId, investment: Investment)
    requires InvestmentsOk(ids, investments, investmentOf, count) && id !in investmentOf && id in ids && investment.invoice == id
    ensures count + 1 !in investments
    ensures InvestmentsOk(ids, investments[count + 1 := investment], investmentOf[id := count + 1], count + 1)
    ensures forall j :: j != id ==>
      LookUp(investmentOf[id := count + 1], investments[count + 1 := investment], j) == LookUp(investmentOf, investments, j)
  {
  }

  lemma TraceOfMove(ids: set<InvoiceId>, s: State, moves: seq<Move>, m: Move)
    requires NoTrace(ids, s.finalized, s.guards, s.payments, s.nonces, moves)
    requires m.invoice.Some? ==> m.invoice.value in ids
    ensures NoTrace(ids, s.finalized, s.guards, s.payments, s.nonces, moves + [m])
  {
  }

  /**
    Custody across one move and one escrow update: what comes in covers what is newly held, and what goes out
    was held.
   */
  lemma CustodyUpdate(l: Ledger, l': Ledger, m: Move, escrows: map<EscrowId, Escrow>, count: nat, e: EscrowId,
                      escrow: Escrow, count': nat)
    requires Custody(l, escrows, count) && OneMove(l, l', m)
    requires (1 <= e <= count && e in escrows && count' == count) || (e == count + 1 == count' && e !in escrows)
    requires forall c :: Effect(m, c, SELF) >= HeldIn(escrow, c) - (if e in escrows then HeldIn(escrows[e], c) else 0)
    ensures Custody(l', escrows[e := escrow], count')
  {
    forall c ensures Balance(l', c, SELF) >= HeldSum(escrows[e := escrow], count', c) {
      HeldSumUpdate(escrows, count, c, e, escrow);
      HeldSumUpdate(escrows, count', c, e, escrow);
    }
  }

  /** The escrow of a Funded invoice is paid out: the move and the new escrow status go together. */
  lemma PayOutBlock(s: State, id: InvoiceId, after: EscrowStatus)
    requires Structure(s) && id in s.invoices && HasEscrow(s, id) && after != Held
    requires EscrowFor(s, id).business != SELF && EscrowFor(s, id).investor != SELF
    requires PayOutEscrow(s, id, after).Ok?
    ensures var s', e := PayOutEscrow(s, id, after).value, EscrowFor(s, id);
      && Structure(s') && OnlyTouches(s, s', id)
      && SliceOf(s', id) == SliceOf(s, id).(
           escrow := Some((s.escrowOf[id], e.(status := after))),
           moves := MovesOf(s.ledger.moves, id) + [if after == Released then ReleaseMove(id, e) else RefundMove(id, e)])
  {
    hide BookOk, BidsFit, ListsOk, ActiveOk, Custody, EscrowsOk, InvestmentsOk, NoTrace, MovesOf, AcceptedOn, OneMove,
         HeldSum;
    var s', e := PayOutEscrow(s, id, after).value, EscrowFor(s, id);
    var payee := if after == Released then e.business else e.investor;
    TransferIsOneMove(s.ledger, Some(id), e.currency, SELF, payee, e.amount);
    var m := Move(Some(id), e.currency, SELF, payee, e.amount);
    assert m == if after == Released then ReleaseMove(id, e) else RefundMove(id, e);
    MoveFor(s.ledger, s'.ledger, m, id);
    assert s'.ledger.moves == s.ledger.moves + [m];
    TraceOfMove(s.invoices.Keys, s, s.ledger.moves, m);
    EscrowIds(s, id);
    EscrowChanged(s.invoices.Keys, s.escrows, s.escrowOf, s.escrowCount, id, e.(status := after));
    CustodyUpdate(s.ledger, s'.ledger, m, s.escrows, s.escrowCount, s.escrowOf[id], e.(status := after), s.escrowCount);
  }

  lemma EscrowIds(s: State, id: InvoiceId)
    requires Structure(s) && HasEscrow(s, id)
    ensures 1 <= s.escrowOf[id] <= s.escrowCount && EscrowFor(s, id).invoice == id
  {
    hide BookOk, BidsFit, ListsOk, ActiveOk, Custody, InvestmentsOk, NoTrace;
  }

  lemma InvestmentIds(s: State, id: InvoiceId)
    requires Structure(s) && HasInvestment(s, id)
    ensures InvestmentFor(s, id).invoice == id
  {
    hide BookOk, BidsFit, ListsOk, ActiveOk, Custody, EscrowsOk, NoTrace;
  }

  /** The investor's money comes in and the escrow is recorded. */
  lemma FundBlock(s: State, id: InvoiceId, escrow: Escrow, ledger: Ledger)
    requires Structure(s) && id in s.invoices && id !in s.escrowOf
    requires escrow.invoice == id && escrow.status == Held && escrow.investor != SELF
    requires Transfer(s.ledger, Some(id), escrow.currency, escrow.investor, SELF, escrow.amount) == Ok(ledger)
    ensures var e := s.escrowCount + 1;
      var s' := s.(ledger := ledger, escrowCount := e, escrows := s.escrows[e := escrow], escrowOf := s.escrowOf[id := e]);
      && Structure(s') && OnlyTouches(s, s', id)
      && SliceOf(s', id) == SliceOf(s, id).(
           escrow := Some((e, escrow)), moves := MovesOf(s.ledger.moves, id) + [FundingMove(id, escrow)])
  {
    hide BookOk, BidsFit, ListsOk, ActiveOk, Custody, EscrowsOk, InvestmentsOk, NoTrace, MovesOf, AcceptedOn, OneMove,
         HeldSum;
    var m := FundingMove(id, escrow);
    TransferIsOneMove(s.ledger, Some(id), escrow.currency, escrow.investor, SELF, escrow.amount);
    MoveFor(s.ledger, ledger, m, id);
    assert ledger.moves == s.ledger.moves + [m];
    TraceOfMove(s.invoices.Keys, s, s.ledger.moves, m);
    EscrowAdded(s.invoices.Keys, s.escrows, s.escrowOf, s.escrowCount, id, escrow);
    CustodyUpdate(s.ledger, ledger, m, s.escrows, s.escrowCount, s.escrowCount + 1, escrow, s.escrowCount + 1);
  }

  /** A transfer for the invoice that does not come out of the contract. */
  lemma TransferBlock(s: State, id: InvoiceId, c: Address, source: Address, target: Address, amount: int,
                      ledger: Ledger)
    requires Structure(s) && id in s.invoices && source != SELF
    requires Transfer(s.ledger, Some(id), c, source, target, amount) == Ok(ledger)
    ensures var s' := s.(ledger := ledger);
      && Structure(s') && OnlyTouches(s, s', id)
      && SliceOf(s', id) == SliceOf(s, id).(moves := MovesOf(s.ledger.moves, id) + [Move(Some(id), c, source, target, amount)])
  {
    hide BookOk, BidsFit, ListsOk, ActiveOk, EscrowsOk, InvestmentsOk, NoTrace, MovesOf, AcceptedOn, HeldSum;
    var m := Move(Some(id), c, source, target, amount);
    TransferIsOneMove(s.ledger, Some(id), c, source, target, amount);
    MoveFor(s.ledger, ledger, m, id);
    assert ledger.moves == s.ledger.moves + [m];
    TraceOfMove(s.invoices.Keys, s, s.ledger.moves, m);
    assert Custody(ledger, s.escrows, s.escrowCount);
  }

  /** A new Active investment. */
  lemma InvestBlock(s: State, id: InvoiceId, investment: Investment)
    requires Structure(s) && id in s.invoices && id !in s.investmentOf
    requires investment.invoice == id && investment.status == Active
    ensures var v := s.investmentCount + 1;
      var s' := s.(investmentCount := v, investments := s.investments[v := investment],
                   investmentOf := s.investmentOf[id := v], active := AddUnique(s.active, v));
      && Structure(s') && OnlyTouches(s, s', id)
      && SliceOf(s', id) == SliceOf(s, id).(investment := Some((v, investment)))
  {
    hide BookOk, BidsFit, ListsOk, Custody, EscrowsOk, InvestmentsOk, NoTrace, MovesOf, AcceptedOn;
    InvestmentAdded(s.invoices.Keys, s.investments, s.investmentOf, s.investmentCount, id, investment);
    var v := s.investmentCount + 1;
    assert AddUnique(s.active, v) == s.active + [v];
    assert ActiveOk(s.investments[v := investment], s.active + [v]);
  }

  /** An investment leaves Active for good. */
  lemma CloseBlock(s: State, id: InvoiceId, status: InvestmentStatus, insurance: seq<Coverage>)
    requires Structure(s) && id in s.invoices && HasInvestment(s, id) && status != Active
    ensures var s' := CloseInvestment(s, id, status, insurance);
      && Structure(s') && OnlyTouches(s, s', id)
      && SliceOf(s', id) == SliceOf(s, id).(
           investment := Some((s.investmentOf[id], InvestmentFor(s, id).(status := status, insurance := insurance))))
  {
    hide BookOk, BidsFit, ListsOk, ActiveOk, Custody, EscrowsOk, InvestmentsOk, NoTrace, MovesOf, AcceptedOn;
    var investment := InvestmentFor(s, id).(status := status, insurance := insurance);
    InvestmentIds(s, id);
    InvestmentChanged(s.invoices.Keys, s.investments, s.investmentOf, s.investmentCount, id, investment);
    CloseActiveOk(s.investments, s.active, s.investmentOf[id], investment);
  }

  /** An Active investment changes its policies. */
  lemma InsureBlock(s: State, id: InvoiceId, insurance: seq<Coverage>)
    requires Structure(s) && id in s.invoices && HasInvestment(s, id)
    ensures var v := s.investmentOf[id];
      var s' := s.(investments := s.investments[v := s.investments[v].(insurance := insurance)]);
      && Structure(s') && OnlyTouches(s, s', id)
      && SliceOf(s', id) == SliceOf(s, id).(investment := Some((v, InvestmentFor(s, id).(insurance := insurance))))
  {
    hide BookOk, BidsFit, ListsOk, Custody, EscrowsOk, InvestmentsOk, NoTrace, MovesOf, AcceptedOn;
    InvestmentIds(s, id);
    InvestmentChanged(s.invoices.Keys, s.investments, s.investmentOf, s.investmentCount, id, InvestmentFor(s,
        id).(insurance := insurance));
  }

  /** The bid book changes the accepted bids of this invoice only. */
  lemma BookBlock(s: State, id: InvoiceId, book: Book)
    requires Structure(s) && id in s.invoices && BookOk(book) && BidsFit(book, s.invoices)
    requires forall j :: j != id ==> AcceptedOn(book, j) == AcceptedOn(s.book, j)
    ensures var s' := s.(book := book);
      && Structure(s') && OnlyTouches(s, s', id)
      && SliceOf(s', id) == SliceOf(s, id).(accepted := AcceptedOn(book, id))
  {
    hide BookOk, BidsFit, ListsOk, ActiveOk, Custody, EscrowsOk, InvestmentsOk, NoTrace, MovesOf, AcceptedOn;
  }

  /** One of the two one-way flags of an invoice is set. */
  lemma FlagBlock(s: State, id: InvoiceId, finalized: set<InvoiceId>, guards: set<InvoiceId>)
    requires Structure(s) && id in s.invoices
    requires s.finalized <= finalized <= s.finalized + {id} && s.guards <= guards <= s.guards + {id}
    ensures var s' := s.(finalized := finalized, guards := guards);
      && Structure(s') && OnlyTouches(s, s', id)
      && SliceOf(s', id) == SliceOf(s, id).(finalized := id in finalized, guarded := id in guards)
  {
    hide BookOk, BidsFit, ListsOk, ActiveOk, Custody, EscrowsOk, InvestmentsOk, MovesOf, AcceptedOn;
  }

  /** A payment record and its nonce are stored. */
  lemma PaymentBlock(s: State, id: InvoiceId, payment: Payment)
    requires Structure(s) && id in s.invoices
    ensures var s' := s.(payments := s.payments[id := PaymentsOf(s, id) + [payment]],
                         nonces := if payment.nonce != "" then s.nonces + {(id, payment.nonce)} else s.nonces);
      && Structure(s') && OnlyTouches(s, s', id)
      && SliceOf(s', id) == SliceOf(s, id).(
           payments := PaymentsOf(s, id) + [payment],
           nonces := NoncesOf(s, id) + if payment.nonce != "" then {payment.nonce} else {})
  {
    hide BookOk, BidsFit, ListsOk, ActiveOk, Custody, EscrowsOk, InvestmentsOk, MovesOf, AcceptedOn;
    var s' := s.(payments := s.payments[id := PaymentsOf(s, id) + [payment]],
                 nonces := if payment.nonce != "" then s.nonces + {(id, payment.nonce)} else s.nonces);
    forall n ensures n in NoncesOf(s', id) <==> n in NoncesOf(s, id) || (payment.nonce != "" && n == payment.nonce) {
      assert n in NoncesOf(s', id) <==> (id, n) in s'.nonces;
      assert n in NoncesOf(s, id) <==> (id, n) in s.nonces;
    }
    assert NoncesOf(s', id) == NoncesOf(s, id) + if payment.nonce != "" then {payment.nonce} else {};
  }
}
