/**
  The token contracts the protocol calls: a balance per (currency, holder) and the
  allowance each holder has granted to the protocol. `moves` is the history of the
  transfers that were carried out, oldest first.
 */
module Token {
  import opened Base

  /** One transfer; `invoice` names the invoice it was made for, `None` for the holders' own transfers. */
  datatype Move = Move(invoice: Option<InvoiceId>, currency: Address, source: Address, target: Address, amount: nat)

  /** An amount per (currency, holder). */
  type Holdings = map<(Address, Address), nat>

  datatype Ledger = Ledger(
    balances: Holdings,
    allowances: Holdings,
    moves: seq<Move>)

  function Lookup(m: Holdings, c: Address, a: Address): nat {
    if (c, a) in m then m[(c, a)] else 0
  }

  function Balance(l: Ledger, c: Address, a: Address): nat { Lookup(l.balances, c, a) }

  function Allowance(l: Ledger, c: Address, a: Address): nat { Lookup(l.allowances, c, a) }

  /** The balances after `amount` has gone from `source` to `target`. */
  function Shift(m: Holdings, c: Address, source: Address, target: Address, amount: nat)
    : Holdings
    requires amount <= Lookup(m, c, source)
  {
    var m1 := m[(c, source) := Lookup(m, c, source) - amount];
    m1[(c, target) := Lookup(m1, c, target) + amount]
  }

  /** `payments::transfer_funds`, with the invoice it is made for. */
  function Transfer(l: Ledger, invoice: Option<InvoiceId>, c: Address, source: Address, target: Address, amount: int)
    : Result<Ledger>
  {
    if amount <= 0 then Err(InvalidAmount)
    else
      var moves := l.moves + [Move(invoice, c, source, target, amount)];
      if source == target then Ok(l.(moves := moves))
      else if Balance(l, c, source) < amount then Err(InsufficientFunds)
      else if source == SELF then
        Ok(Ledger(Shift(l.balances, c, source, target, amount), l.allowances, moves))
      else if Allowance(l, c, source) < amount then Err(OperationNotAllowed)
      else
        Ok(Ledger(Shift(l.balances, c, source, target, amount),
                  l.allowances[(c, source) := Allowance(l, c, source) - amount], moves))
  }

  /** A holder's own transfer, made directly at the token contract; the protocol never initiates one. */
  function HolderTransfer(l: Ledger, c: Address, source: Address, target: Address, amount: int): Result<Ledger>
    requires source != SELF
  {
    if amount <= 0 then Err(InvalidAmount)
    else if Balance(l, c, source) < amount then Err(InsufficientFunds)
    else
      Ok(l.(balances := Shift(l.balances, c, source, target, amount),
            moves := l.moves + [Move(None, c, source, target, amount)]))
  }

  /** What one move adds to the holding of `a` in currency `c`. */
  function Effect(m: Move, c: Address, a: Address): int {
    (if m.currency == c && m.target == a then m.amount else 0) - (if m.currency == c && m.source == a then m.amount else 0)
  }

  /** What a history of moves adds to the holding of `a` in currency `c`. */
  function Net(moves: seq<Move>, c: Address, a: Address): int {
    if |moves| == 0 then 0 else Net(moves[..|moves| - 1], c, a) + Effect(moves[|moves| - 1], c, a)
  }

  /** The moves made for one invoice. */
  function MovesOf(moves: seq<Move>, id: InvoiceId): seq<Move> {
    if |moves| == 0 then []
    else MovesOf(moves[..|moves| - 1], id)
         + if moves[|moves| - 1].invoice == Some(id) then [moves[|moves| - 1]] else []
  }

  lemma NetAppend(moves: seq<Move>, m: Move, c: Address, a: Address)
    ensures Net(moves + [m], c, a) == Net(moves, c, a) + Effect(m, c, a)
  {
    assert (moves + [m])[..|moves|] == moves;
  }

  lemma MovesAppend(moves: seq<Move>, m: Move, id: InvoiceId)
    ensures MovesOf(moves + [m], id) == MovesOf(moves, id) + if m.invoice == Some(id) then [m] else []
  {
    assert (moves + [m])[..|moves|] == moves;
  }

  ghost function SomeKey(m: Holdings): (k: (Address, Address))
    requires |m| > 0
    ensures k in m
  {
    var k :| k in m; k
  }

  /** Total supply of one currency. */
  ghost function Supply(m: Holdings, c: Address): nat
    decreases |m|
  {
    if |m| == 0 then 0
    else
      var k := SomeKey(m);
      (if k.0 == c then m[k] else 0) + Supply(m - {k}, c)
  }

  lemma {:induction false} SupplyPick(m: Holdings, c: Address, k: (Address, Address))
    requires k in m
    ensures Supply(m, c) == (if k.0 == c then m[k] else 0) + Supply(m - {k}, c)
    decreases |m|
  {
    var p := SomeKey(m);
    if p != k {
      SupplyPick(m - {p}, c, k);
      SupplyPick(m - {k}, c, p);
      assert m - {p} - {k} == m - {k} - {p};
    }
  }

  lemma SupplySet(m: Holdings, c: Address, holder: (Address, Address), v: nat)
    ensures Supply(m[holder := v], c)
         == Supply(m, c) + if holder.0 == c then v - Lookup(m, holder.0, holder.1) else 0
  {
    var m' := m[holder := v];
    SupplyPick(m', c, holder);
    assert m' - {holder} == m - {holder};
    if holder in m {
      SupplyPick(m, c, holder);
    } else {
      assert m - {holder} == m;
    }
  }

  lemma ShiftConserves(m: Holdings, c: Address, source: Address, target: Address, amount: nat,
                       c': Address)
    requires amount <= Lookup(m, c, source)
    ensures Supply(Shift(m, c, source, target, amount), c') == Supply(m, c')
  {
    var m1 := m[(c, source) := Lookup(m, c, source) - amount];
    SupplySet(m, c', (c, source), Lookup(m, c, source) - amount);
    SupplySet(m1, c', (c, target), Lookup(m1, c, target) + amount);
  }

  /** One ledger follows from another by a single move: supply is kept and the move explains every balance. */
  ghost predicate OneMove(l: Ledger, l': Ledger, m: Move) {
    && l'.moves == l.moves + [m]
    && (forall c :: Supply(l'.balances, c) == Supply(l.balances, c))
    && (forall c, a :: Balance(l', c, a) == Balance(l, c, a) + Effect(m, c, a))
  }

  lemma TransferIsOneMove(l: Ledger, invoice: Option<InvoiceId>, c: Address, source: Address, target: Address,
                          amount: int)
    requires Transfer(l, invoice, c, source, target, amount).Ok?
    ensures amount > 0
    ensures OneMove(l, Transfer(l, invoice, c, source, target, amount).value, Move(invoice, c, source, target, amount))
  {
    if source != target {
      forall c' ensures Supply(Shift(l.balances, c, source, target, amount), c') == Supply(l.balances, c') {
        ShiftConserves(l.balances, c, source, target, amount, c');
      }
    }
  }

  lemma HolderTransferIsOneMove(l: Ledger, c: Address, source: Address, target: Address, amount: int)
    requires source != SELF && HolderTransfer(l, c, source, target, amount).Ok?
    ensures amount > 0
    ensures OneMove(l, HolderTransfer(l, c, source, target, amount).value, Move(None, c, source, target, amount))
  {
    forall c' ensures Supply(Shift(l.balances, c, source, target, amount), c') == Supply(l.balances, c') {
      ShiftConserves(l.balances, c, source, target, amount, c');
    }
  }
}
