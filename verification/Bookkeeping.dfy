/** How the storage forms of the contract relate to the values of `Protocol`. */
module Bookkeeping {
  import opened Base
  import opened Lists
  import opened Protocol

  /* ---- payment records, stored one by one under (invoice, index) ---- */

  function RecordAt(records: map<(InvoiceId, nat), Payment>, id: InvoiceId, i: nat): Payment {
    if (id, i) in records then records[(id, i)] else Payment(0, 0, 0, "")
  }

  /** The first `n` records of an invoice. */
  function Log(records: map<(InvoiceId, nat), Payment>, id: InvoiceId, n: nat): (log: seq<Payment>)
    ensures |log| == n
  {
    if n == 0 then [] else Log(records, id, n - 1) + [RecordAt(records, id, n - 1)]
  }

  function Logs(records: map<(InvoiceId, nat), Payment>, counts: map<InvoiceId, nat>): map<InvoiceId, seq<Payment>> {
    map id | id in counts :: Log(records, id, counts[id])
  }

  function CountOf(counts: map<InvoiceId, nat>, id: InvoiceId): nat { if id in counts then counts[id] else 0 }

  lemma {:induction false} LogElsewhere(records: map<(InvoiceId, nat), Payment>, id: InvoiceId, n: nat, j: InvoiceId,
                          i: nat, p: Payment)
    requires j != id || i >= n
    ensures Log(records[(j, i) := p], id, n) == Log(records, id, n)
    decreases n
  {
    if n > 0 {
      LogElsewhere(records, id, n - 1, j, i, p);
    }
  }

  /** Storing one more record under the next index, and the next count, appends to one log. */
  lemma LogAppend(records: map<(InvoiceId, nat), Payment>, counts: map<InvoiceId, nat>, id: InvoiceId, p: Payment)
    ensures var n := CountOf(counts, id);
      Logs(records[(id, n) := p], counts[id := n + 1])
      == Logs(records, counts)[id := (if id in counts then Logs(records, counts)[id] else []) + [p]]
  {
    var n := CountOf(counts, id);
    var after := Logs(records[(id, n) := p], counts[id := n + 1]);
    forall j | j in after && j != id ensures after[j] == Logs(records, counts)[j] {
      LogElsewhere(records, j, counts[j], id, n, p);
    }
    LogElsewhere(records, id, n, id, n, p);
    assert after[id] == Log(records, id, n) + [p];
  }

  /* ---- status lists ---- */

  /** `remove_from_status_index`: the list is written back only when the entry was there. */
  function Removed(lists: StatusLists, status: InvoiceStatus, id: InvoiceId): StatusLists {
    if id in ListOf(lists, status) then lists[status := RemoveFirst(ListOf(lists, status), id)] else lists
  }

  /** `add_to_status_index`. */
  function Added(lists: StatusLists, status: InvoiceStatus, id: InvoiceId): StatusLists {
    if id in ListOf(lists, status) then lists else lists[status := ListOf(lists, status) + [id]]
  }

  /** What `update` does to the lists. */
  function Moved(lists: StatusLists, id: InvoiceId, before: InvoiceStatus,
                 after: InvoiceStatus): StatusLists {
    if before == after then lists else Added(Removed(lists, before, id), after, id)
  }

  /**
    Entry points also edit the lists around `update`, before it or after it; on duplicate-free lists that
    changes nothing more.
   */
  lemma ListedOnce(lists: StatusLists, id: InvoiceId, before: InvoiceStatus,
                   after: InvoiceStatus)
    requires id in ListOf(lists, before) && NoDup(ListOf(lists, before)) && before != after
    ensures Moved(lists, id, before, after) == Relist(lists, id, before, after)
    ensures Added(Moved(Removed(lists, before, id), id, before, after), after, id) == Relist(lists, id, before, after)
    ensures Added(Removed(Moved(lists, id, before, after), before, id), after, id) == Relist(lists, id, before, after)
  {
    RemoveFirstDrops(ListOf(lists, before), id);
    var gone := Removed(lists, before, id);
    assert id !in ListOf(gone, before);
    assert ListOf(Relist(lists, id, before, after), before) == RemoveFirst(ListOf(lists, before), id);
    assert id in ListOf(Relist(lists, id, before, after), after);
  }

  lemma {:induction false} RemoveAt<T>(xs: seq<T>, pos: nat)
    requires pos < |xs| && forall i :: 0 <= i < pos ==> xs[i] != xs[pos]
    ensures RemoveFirst(xs, xs[pos]) == xs[..pos] + xs[pos + 1..]
  {
    if pos > 0 {
      var rest := xs[1..];
      assert forall i :: 0 <= i < |rest| ==> rest[i] == xs[i + 1];
      RemoveAt(rest, pos - 1);
      assert xs[..pos] == [xs[0]] + rest[..pos - 1];
      assert rest[pos..] == xs[pos + 1..];
    }
  }
}
