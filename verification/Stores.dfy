/** `InvoiceStorage`: the invoice table, its counter and the seven status lists (`storage.rs`). */
module InvoiceStore {
  import opened Base
  import opened Lists
  import opened Protocol
  import opened Coherence
  import opened Bookkeeping

  class InvoiceStorage {
    var invoices: map<InvoiceId, Invoice>
    var count: nat
    var lists: StatusLists

    constructor ()
      ensures invoices == map[] && count == 0 && lists == map[]
    {
      invoices, count, lists := map[], 0, map[];
    }

    method Restore(s: State)
      modifies this
      ensures invoices == s.invoices && count == s.invoiceCount && lists == s.lists
    {
      invoices, count, lists := s.invoices, s.invoiceCount, s.lists;
    }

    method NextCount() returns (next: nat)
      modifies this`count
      ensures next == count == old(count) + 1
    {
      count := count + 1;
      next := count;
    }

    method RemoveFromStatus(status: InvoiceStatus, id: InvoiceId)
      modifies this`lists
      ensures lists == Removed(old(lists), status, id)
    {
      var ids := ListOf(lists, status);
      var pos := 0;
      while pos < |ids| && ids[pos] != id
        modifies {}
        invariant 0 <= pos <= |ids|
        invariant forall i :: 0 <= i < pos ==> ids[i] != id
      {
        pos := pos + 1;
      }
      if pos < |ids| {
        RemoveAt(ids, pos);
        lists := lists[status := ids[..pos] + ids[pos + 1..]];
      }
    }

    method AddToStatus(status: InvoiceStatus, id: InvoiceId)
      modifies this`lists
      ensures lists == Added(old(lists), status, id)
    {
      var ids := ListOf(lists, status);
      if id !in ids {
        lists := lists[status := ids + [id]];
      }
    }

    method Store(id: InvoiceId, invoice: Invoice)
      modifies this`invoices, this`lists
      ensures invoices == old(invoices)[id := invoice] && lists == Added(old(lists), invoice.status, id)
    {
      invoices := invoices[id := invoice];
      AddToStatus(invoice.status, id);
    }

    method Update(id: InvoiceId, invoice: Invoice)
      requires id in invoices
      modifies this`invoices, this`lists
      ensures invoices == old(invoices)[id := invoice]
      ensures lists == Moved(old(lists), id, old(invoices)[id].status, invoice.status)
    {
      if invoices[id].status != invoice.status {
        RemoveFromStatus(invoices[id].status, id);
        AddToStatus(invoice.status, id);
      }
      invoices := invoices[id := invoice];
    }

    /** All stored ids, read off the seven lists. */
    method GetAllInvoiceIds() returns (all: seq<InvoiceId>)
      requires ListsOk(invoices, lists)
      ensures NoDup(all) && forall id :: id in all <==> id in invoices
    {
      all := [];
      var statuses := [Pending, Verified, Funded, Paid, InvoiceStatus.Defaulted, InvoiceStatus.Cancelled, InvoiceStatus.Refunded];
      for i := 0 to 7
        invariant NoDup(all)
        invariant forall id :: id in all <==> id in invoices && invoices[id].status in statuses[..i]
      {
        var ids := ListOf(lists, statuses[i]);
        for j := 0 to |ids|
          invariant NoDup(all)
          invariant forall id :: id in all <==> (id in invoices && invoices[id].status in statuses[..i]) || id in ids[..j]
        {
          if ids[j] !in all {
            all := all + [ids[j]];
          }
        }
      }
      forall st: InvoiceStatus ensures st in statuses[..7] {
        match st
        case Pending => assert statuses[0] == st;
        case Verified => assert statuses[1] == st;
        case Funded => assert statuses[2] == st;
        case Paid => assert statuses[3] == st;
        case Defaulted => assert statuses[4] == st;
        case Cancelled => assert statuses[5] == st;
        case Refunded => assert statuses[6] == st;
      }
    }
  }
}

/** `EscrowStorage`: one escrow per invoice, under ids from a counter (`payments.rs`). */
module EscrowStore {
  import opened Base
  import opened Protocol

  class EscrowStorage {
    var escrows: map<EscrowId, Escrow>
    var escrowOf: map<InvoiceId, EscrowId>
    var count: nat

    constructor ()
      ensures escrows == map[] && escrowOf == map[] && count == 0
    {
      escrows, escrowOf, count := map[], map[], 0;
    }

    method Restore(s: State)
      modifies this
      ensures escrows == s.escrows && escrowOf == s.escrowOf && count == s.escrowCount
    {
      escrows, escrowOf, count := s.escrows, s.escrowOf, s.escrowCount;
    }

    function Find(id: InvoiceId): Option<Escrow>
      reads this
    {
      if id in escrowOf && escrowOf[id] in escrows then Some(escrows[escrowOf[id]]) else None
    }

    /** `generate_unique_escrow_id` and `store_escrow`. */
    method Add(escrow: Escrow) returns (e: EscrowId)
      modifies this
      ensures e == count == old(count) + 1
      ensures escrows == old(escrows)[e := escrow] && escrowOf == old(escrowOf)[escrow.invoice := e]
    {
      count := count + 1;
      e := count;
      escrows := escrows[e := escrow];
      escrowOf := escrowOf[escrow.invoice := e];
    }

    method Update(e: EscrowId, escrow: Escrow)
      modifies this`escrows
      ensures escrows == old(escrows)[e := escrow]
    {
      escrows := escrows[e := escrow];
    }
  }
}

/** `InvestmentStorage`: one investment per invoice, and the index of the Active ones (`investment.rs`). */
module InvestmentStore {
  import opened Base
  import opened Lists
  import opened Protocol
  import opened Bookkeeping

  class InvestmentStorage {
    var investments: map<InvestmentId, Investment>
    var investmentOf: map<InvoiceId, InvestmentId>
    var count: nat
    var active: seq<InvestmentId>

    constructor ()
      ensures investments == map[] && investmentOf == map[] && count == 0 && active == []
    {
      investments, investmentOf, count, active := map[], map[], 0, [];
    }

    method Restore(s: State)
      modifies this
      ensures investments == s.investments && investmentOf == s.investmentOf && count == s.investmentCount && active == s.active
    {
      investments, investmentOf, count, active := s.investments, s.investmentOf, s.investmentCount, s.active;
    }

    /** `get_investment_by_invoice`, which distrusts an index entry that points at another invoice's investment. */
    function Find(id: InvoiceId): Option<(InvestmentId, Investment)>
      reads this
    {
      if id in investmentOf && investmentOf[id] in investments && investments[investmentOf[id]].invoice == id
      then Some((investmentOf[id], investments[investmentOf[id]]))
      else None
    }

    method AddToActiveIndex(v: InvestmentId)
      modifies this`active
      ensures active == AddUnique(old(active), v)
    {
      for i := 0 to |active|
        invariant active == old(active)
        invariant v !in active[..i]
      {
        if active[i] == v {
          return;
        }
      }
      active := active + [v];
    }

    method RemoveFromActiveIndex(v: InvestmentId)
      requires NoDup(active)
      modifies this`active
      ensures active == RemoveFirst(old(active), v)
    {
      var updated: seq<InvestmentId> := [];
      ghost var keep := set x | x in active && x != v;
      for i := 0 to |active|
        modifies {}
        invariant updated == Filter(active[..i], keep)
      {
        FilterAppend(active[..i], active[i], keep);
        assert active[..i + 1] == active[..i] + [active[i]];
        if active[i] != v {
          updated := updated + [active[i]];
        }
      }
      RemoveFirstIsFilter(active, v, keep);
      assert active[..|active|] == active;
      active := updated;
    }

    /** `generate_unique_investment_id` and `store_investment`. */
    method Add(investment: Investment) returns (v: InvestmentId)
      modifies this
      ensures v == count == old(count) + 1
      ensures investments == old(investments)[v := investment] && investmentOf == old(investmentOf)[investment.invoice := v]
      ensures active == if investment.status == Active then AddUnique(old(active), v) else old(active)
    {
      count := count + 1;
      v := count;
      investments := investments[v := investment];
      investmentOf := investmentOf[investment.invoice := v];
      if investment.status == Active {
        AddToActiveIndex(v);
      }
    }

    /** `update_investment`; a transition that is not allowed aborts the call. */
    method Update(v: InvestmentId, investment: Investment) returns (r: Result<()>)
      requires v in investments && NoDup(active)
      modifies this`investments, this`investmentOf, this`active
      ensures r.Ok? <==>
        (old(investments)[v].status == investment.status || AllowedTransition(old(investments)[v].status, investment.status))
      ensures r.Ok? ==>
        && investments == old(investments)[v := investment] && investmentOf == old(investmentOf)[investment.invoice := v]
        && active == if old(investments)[v].status == Active != investment.status
                     then RemoveFirst(old(active), v) else old(active)
    {
      var previous := investments[v].status;
      if previous != investment.status {
        if !AllowedTransition(previous, investment.status) {
          return Err(InvalidStatus);
        }
        if previous == Active {
          RemoveFromActiveIndex(v);
        }
      }
      investments := investments[v := investment];
      investmentOf := investmentOf[investment.invoice := v];
      r := Ok(());
    }
  }
}

/**
  The settlement keys: payment records under (invoice, index), counts, used transaction ids and the finalized
  flags (`settlement.rs`).
 */
module SettlementStore {
  import opened Base
  import opened Protocol
  import opened Bookkeeping

  class SettlementStorage {
    var records: map<(InvoiceId, nat), Payment>
    var counts: map<InvoiceId, nat>
    var nonces: set<(InvoiceId, string)>
    var finalized: set<InvoiceId>

    /** The durable logs, one per invoice that has been paid. */
    function Payments(): map<InvoiceId, seq<Payment>>
      reads this
    {
      Logs(records, counts)
    }

    constructor ()
      ensures Payments() == map[] && nonces == {} && finalized == {}
    {
      records, counts, nonces, finalized := map[], map[], {}, {};
    }

    method Restore(records: map<(InvoiceId, nat), Payment>, counts: map<InvoiceId, nat>, nonces: set<(InvoiceId,
                   string)>, finalized: set<InvoiceId>)
      modifies this
      ensures Payments() == Logs(records, counts) && this.nonces == nonces && this.finalized == finalized
    {
      this.records, this.counts, this.nonces, this.finalized := records, counts, nonces, finalized;
    }

    function Count(id: InvoiceId): (n: nat)
      reads this
      ensures n == if id in Payments() then |Payments()[id]| else 0
    {
      CountOf(counts, id)
    }

    /** Store the record under the next index, the new count, and the transaction id. */
    method Append(id: InvoiceId, payment: Payment)
      modifies this
      ensures Payments() == old(Payments())[id := (if id in old(Payments()) then old(Payments())[id] else []) + [payment]]
      ensures nonces == if payment.nonce != "" then old(nonces) + {(id, payment.nonce)} else old(nonces)
      ensures finalized == old(finalized)
    {
      var count := CountOf(counts, id);
      LogAppend(records, counts, id, payment);
      records := records[(id, count) := payment];
      counts := counts[id := count + 1];
      if |payment.nonce| > 0 {
        nonces := nonces + {(id, payment.nonce)};
      }
    }

    method MarkFinalized(id: InvoiceId)
      modifies this`finalized
      ensures finalized == old(finalized) + {id}
    {
      finalized := finalized + {id};
    }
  }
}
