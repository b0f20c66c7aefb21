/**
  The audit log (`audit.rs`): entries are appended to five indexes, and a query starts from whichever index is
  narrowest.
 */
module Audit {
  import opened Base

  const MAX_QUERY_LIMIT := 100

  datatype Operation =
    | InvoiceCreated | InvoiceUploaded | InvoiceVerified | InvoiceFunded | InvoicePaid | InvoiceDefaulted
    | InvoiceStatusChanged | InvoiceRated | BidPlaced | BidAccepted | BidWithdrawn | EscrowCreated
    | EscrowReleased | EscrowRefunded | PaymentProcessed | SettlementCompleted

  type AuditId = nat

  datatype Entry = Entry(id: AuditId, invoice: InvoiceId, operation: Operation, actor: Address, timestamp: nat,
      amount: Option<int>)

  datatype Filter = Filter(
    invoice: Option<InvoiceId>, operation: Option<Operation>, actor: Option<Address>, start: Option<nat>, end: Option<nat>)

  /** The storage keys of the indexes. */
  datatype Key = OfInvoice(invoice: InvoiceId) | OfOperation(operation: Operation) | OfActor(actor: Address) | OfDay(day: nat) | Everything

  predicate Has(e: Entry, key: Key) {
    match key
    case OfInvoice(i) => e.invoice == i
    case OfOperation(o) => e.operation == o
    case OfActor(a) => e.actor == a
    case OfDay(d) => e.timestamp / SECONDS_PER_DAY == d
    case Everything => true
  }

  /** `matches_filter`. */
  predicate MatchesFilter(e: Entry, f: Filter) {
    && (f.invoice.Some? ==> e.invoice == f.invoice.value)
    && (f.operation.Some? ==> e.operation == f.operation.value)
    && (f.actor.Some? ==> e.actor == f.actor.value)
    && (f.start.Some? ==> e.timestamp >= f.start.value)
    && (f.end.Some? ==> e.timestamp <= f.end.value)
  }

  /** The index a query starts from. */
  function StartKey(f: Filter): Key {
    if f.invoice.Some? then OfInvoice(f.invoice.value)
    else if f.operation.Some? then OfOperation(f.operation.value)
    else if f.actor.Some? then OfActor(f.actor.value)
    else Everything
  }

  /** The ids of the entries under a key, in log order. */
  function IdsUnder(log: seq<Entry>, key: Key): seq<AuditId> {
    if |log| == 0 then []
    else if Has(log[|log| - 1], key) then IdsUnder(log[..|log| - 1], key) + [log[|log| - 1].id]
    else IdsUnder(log[..|log| - 1], key)
  }

  /** What a query asks for: the entries of the log that match, in log order. */
  function Matching(log: seq<Entry>, f: Filter): seq<Entry> {
    if |log| == 0 then []
    else if MatchesFilter(log[|log| - 1], f) then Matching(log[..|log| - 1], f) + [log[|log| - 1]]
    else Matching(log[..|log| - 1], f)
  }

  function FirstOf(s: seq<Entry>, n: nat): seq<Entry> { if |s| <= n then s else s[..n] }

  /** The entries found by looking a list of ids up and filtering. */
  function Lookups(entries: map<AuditId, Entry>, ids: seq<AuditId>, f: Filter): seq<Entry> {
    if |ids| == 0 then []
    else
      var last := ids[|ids| - 1];
      if last in entries && MatchesFilter(entries[last], f) then Lookups(entries, ids[..|ids| - 1], f) + [entries[last]]
      else Lookups(entries, ids[..|ids| - 1], f)
  }

  lemma {:induction false} LookupsAppend(entries: map<AuditId, Entry>, ids: seq<AuditId>, id: AuditId, f: Filter)
    ensures Lookups(entries, ids + [id], f)
         == if id in entries && MatchesFilter(entries[id], f) then Lookups(entries, ids, f)
             + [entries[id]] else Lookups(entries, ids, f)
  {
    assert (ids + [id])[..|ids|] == ids;
  }

  /** Longer lists of ids find the same entries first. */
  lemma {:induction false} LookupsGrow(entries: map<AuditId, Entry>, ids: seq<AuditId>, n: nat, f: Filter)
    requires n <= |ids|
    ensures Lookups(entries, ids[..n], f) <= Lookups(entries, ids, f)
    decreases |ids|
  {
    if n == |ids| {
      assert ids[..n] == ids;
    } else {
      assert ids[..|ids| - 1][..n] == ids[..n];
      LookupsGrow(entries, ids[..|ids| - 1], n, f);
    }
  }

  /** Each stored entry is found under its id. */
  ghost predicate Stored(entries: map<AuditId, Entry>, log: seq<Entry>) {
    forall i :: 0 <= i < |log| ==> log[i].id in entries && entries[log[i].id] == log[i]
  }

  /** Whichever index a query starts from, it finds the matching entries of the whole log, in log order. */
  lemma {:induction false} AnyIndexWillDo(entries: map<AuditId, Entry>, log: seq<Entry>, f: Filter)
    requires Stored(entries, log)
    ensures Lookups(entries, IdsUnder(log, StartKey(f)), f) == Matching(log, f)
  {
    if |log| > 0 {
      var front, last := log[..|log| - 1], log[|log| - 1];
      AnyIndexWillDo(entries, front, f);
      if Has(last, StartKey(f)) {
        LookupsAppend(entries, IdsUnder(front, StartKey(f)), last.id, f);
      }
    }
  }

  lemma IdsUnderAppend(log: seq<Entry>, e: Entry, key: Key)
    ensures IdsUnder(log + [e], key) == if Has(e, key) then IdsUnder(log, key) + [e.id] else IdsUnder(log, key)
  {
    assert (log + [e])[..|log|] == log;
  }

  /* ---- every history ---- */

  /** What is stored: the entries, the index lists and the id counter. */
  datatype Trail = Trail(entries: map<AuditId, Entry>, index: map<Key, seq<AuditId>>, count: nat)

  /** One operation to be logged. */
  datatype Request = Request(invoice: InvoiceId, operation: Operation, actor: Address, timestamp: nat, amount: Option<int>)

  function EntryFor(r: Request, id: AuditId): Entry { Entry(id, r.invoice, r.operation, r.actor, r.timestamp, r.amount) }

  function Listed(index: map<Key, seq<AuditId>>, key: Key): seq<AuditId> { if key in index then index[key] else [] }

  function Pushed(index: map<Key, seq<AuditId>>, key: Key, id: AuditId): map<Key, seq<AuditId>> {
    index[key := Listed(index, key) + [id]]
  }

  /** The five lists an entry is added to, in the order of the five helpers. */
  function Indexed(index: map<Key, seq<AuditId>>, e: Entry): map<Key, seq<AuditId>> {
    Pushed(Pushed(Pushed(Pushed(Pushed(index, OfInvoice(e.invoice), e.id), OfOperation(e.operation), e.id),
        OfActor(e.actor), e.id), OfDay(e.timestamp / SECONDS_PER_DAY), e.id), Everything, e.id)
  }

  /** `log_operation`. */
  function Logged(t: Trail, r: Request): Trail {
    var e := EntryFor(r, t.count + 1);
    Trail(t.entries[e.id := e], Indexed(t.index, e), e.id)
  }

  function TrailOf(requests: seq<Request>): Trail {
    if |requests| == 0 then Trail(map[], map[], 0)
    else Logged(TrailOf(requests[..|requests| - 1]), requests[|requests| - 1])
  }

  /** The log itself, numbered from 1. */
  function LogOf(requests: seq<Request>): seq<Entry> {
    seq(|requests|, i requires 0 <= i < |requests| => EntryFor(requests[i], i + 1))
  }

  /** What a query answers. */
  function Answer(t: Trail, f: Filter, limit: nat): seq<Entry> {
    FirstOf(Lookups(t.entries, Listed(t.index, StartKey(f)), f), Min(limit, MAX_QUERY_LIMIT))
  }

  lemma IndexedLists(index: map<Key, seq<AuditId>>, e: Entry, key: Key)
    ensures Listed(Indexed(index, e), key) == if Has(e, key) then Listed(index, key) + [e.id] else Listed(index, key)
  {
  }

  /** After every history the entries are found under their ids, and every index lists exactly those under its key. */
  lemma {:induction false} EveryHistoryIsIndexed(requests: seq<Request>)
    ensures var t, log := TrailOf(requests), LogOf(requests);
      && t.count == |requests| && Stored(t.entries, log) && (forall id :: id in t.entries <==> 1 <= id <= t.count)
      && forall key :: Listed(t.index, key) == IdsUnder(log, key)
    decreases |requests|
  {
    hide Indexed, Has, IdsUnder, Listed;
    if |requests| == 0 {
      forall key ensures Listed(map[], key) == IdsUnder([], key) {
        NothingListed(key);
      }
    } else {
      var front, last := requests[..|requests| - 1], requests[|requests| - 1];
      EveryHistoryIsIndexed(front);
      var e := EntryFor(last, |requests|);
      assert LogOf(requests) == LogOf(front) + [e];
      forall key ensures Listed(TrailOf(requests).index, key) == IdsUnder(LogOf(requests), key) {
        IndexedLists(TrailOf(front).index, e, key);
        IdsUnderAppend(LogOf(front), e, key);
      }
    }
  }

  lemma NothingListed(key: Key)
    ensures Listed(map[], key) == [] && IdsUnder([], key) == []
  {
  }

  /** After every history a query answers the first `min(limit, 100)` matching entries of the log. */
  lemma QueriesReadTheLog(requests: seq<Request>, f: Filter, limit: u32)
    ensures Answer(TrailOf(requests), f, limit) == FirstOf(Matching(LogOf(requests), f), Min(limit, 100))
  {
    hide Lookups, Matching, IdsUnder, TrailOf, Stored;
    EveryHistoryIsIndexed(requests);
    AnyIndexWillDo(TrailOf(requests).entries, LogOf(requests), f);
  }

  ghost predicate InIdOrder(entries: seq<Entry>) {
    forall i, j :: 0 <= i < j < |entries| ==> entries[i].id < entries[j].id
  }

  lemma {:induction false} MatchingKeepsOrder(log: seq<Entry>, f: Filter)
    requires InIdOrder(log)
    ensures InIdOrder(Matching(log, f)) && forall e :: e in Matching(log, f) <==> e in log && MatchesFilter(e, f)
  {
    hide MatchesFilter;
    if |log| > 0 {
      var front, last := log[..|log| - 1], log[|log| - 1];
      MatchingKeepsOrder(front, f);
      assert log == front + [last];
      forall i | 0 <= i < |Matching(front, f)| ensures Matching(front, f)[i].id < last.id {
        var e := Matching(front, f)[i];
        assert e in front;
        var k :| 0 <= k < |front| && front[k] == e;
        assert log[k] == e;
      }
    }
  }

  /**
    What a query asks for, on the fields of the entries: the invoice, the operation and the actor it names, in the
    closed interval of time it names, in the order they were logged.
   */
  lemma MatchesOnFields(requests: seq<Request>, f: Filter)
    ensures var found := Matching(LogOf(requests), f);
      && InIdOrder(found)
      && forall e :: e in found <==>
           && e in LogOf(requests)
           && (f.invoice == None || f.invoice == Some(e.invoice))
           && (f.operation == None || f.operation == Some(e.operation))
           && (f.actor == None || f.actor == Some(e.actor))
           && (f.start.Some? ==> f.start.value <= e.timestamp)
           && (f.end.Some? ==> e.timestamp <= f.end.value)
  {
    MatchingKeepsOrder(LogOf(requests), f);
  }

  /** The day index holds the entries of one day. */
  lemma {:induction false} DayIndex(log: seq<Entry>, day: nat)
    ensures forall e :: e in log && day * 86_400 <= e.timestamp < (day + 1) * 86_400 ==> e.id in IdsUnder(log, OfDay(day))
    ensures forall id :: id in IdsUnder(log, OfDay(day)) ==>
      exists e :: e in log && e.id == id && day * 86_400 <= e.timestamp < (day + 1) * 86_400
  {
    if |log| > 0 {
      var front, last := log[..|log| - 1], log[|log| - 1];
      DayIndex(front, day);
      assert log == front + [last];
      assert last in log && forall e :: e in front ==> e in log;
    }
  }

  lemma {:induction false} MatchingGrows(log: seq<Entry>, more: seq<Entry>, f: Filter)
    requires log <= more
    ensures Matching(log, f) <= Matching(more, f)
    decreases |more|
  {
    if |log| == |more| {
      assert log == more;
    } else {
      MatchingGrows(log, more[..|more| - 1], f);
    }
  }

  /** The trail is append-only: what a query answered, it answers again, in the same places, whatever is logged later. */
  lemma AnswersOnlyGrow(requests: seq<Request>, more: seq<Request>, f: Filter, limit: u32)
    ensures var before, after := Answer(TrailOf(requests), f, limit), Answer(TrailOf(requests + more), f, limit);
      before <= after && (|before| == Min(limit, MAX_QUERY_LIMIT) ==> after == before)
  {
    hide Answer, Matching, TrailOf;
    QueriesReadTheLog(requests, f, limit);
    QueriesReadTheLog(requests + more, f, limit);
    assert LogOf(requests) <= LogOf(requests + more);
    MatchingGrows(LogOf(requests), LogOf(requests + more), f);
  }

  class AuditStorage {
    var entries: map<AuditId, Entry>
    var index: map<Key, seq<AuditId>>
    var count: nat
    ghost var log: seq<Entry>

    function ListFor(key: Key): seq<AuditId>
      reads this
    {
      Listed(index, key)
    }

    function Snapshot(): Trail
      reads this
    {
      Trail(entries, index, count)
    }

    /** Every index lists exactly the log entries under its key, in log order. */
    ghost predicate Valid()
      reads this
    {
      && Stored(entries, log)
      && (forall id :: id in entries ==> id <= count)
      && (forall key :: ListFor(key) == IdsUnder(log, key))
    }

    constructor ()
      ensures Valid() && log == [] && Snapshot() == TrailOf([])
    {
      entries, index, count := map[], map[], 0;
      log := [];
    }

    method Push(key: Key, id: AuditId)
      modifies this`index
      ensures index == Pushed(old(index), key, id)
    {
      index := index[key := ListFor(key) + [id]];
    }

    /** `store_audit_entry`, with the id from `generate_audit_id`. */
    method LogOperation(invoice: InvoiceId, operation: Operation, actor: Address, timestamp: nat,
                        amount: Option<int>) returns (id: AuditId)
      requires Valid()
      modifies this
      ensures Valid() && id == old(count) + 1 && count == id
      ensures log == old(log) + [Entry(id, invoice, operation, actor, timestamp, amount)]
      ensures Snapshot() == Logged(old(Snapshot()), Request(invoice, operation, actor, timestamp, amount))
    {
      hide IdsUnder, Indexed, Has, Listed;
      count := count + 1;
      id := count;
      var e := Entry(id, invoice, operation, actor, timestamp, amount);
      entries := entries[id := e];
      AddToIndexes(e);
      log := log + [e];
      forall key ensures ListFor(key) == IdsUnder(log, key) {
        IndexedLists(old(index), e, key);
        IdsUnderAppend(old(log), e, key);
      }
    }

    /** The five `add_to_*` helpers, in their order. */
    method AddToIndexes(e: Entry)
      modifies this`index
      ensures index == Indexed(old(index), e)
    {
      Push(OfInvoice(e.invoice), e.id);
      Push(OfOperation(e.operation), e.id);
      Push(OfActor(e.actor), e.id);
      Push(OfDay(e.timestamp / SECONDS_PER_DAY), e.id);
      Push(Everything, e.id);
    }

    /** Exactly the first `min(limit, 100)` matching entries of the global log, in log order. */
    method QueryAuditLogs(f: Filter, limit: u32) returns (results: seq<Entry>)
      requires Valid()
      ensures results == FirstOf(Matching(log, f), Min(limit, MAX_QUERY_LIMIT))
      ensures results == Answer(Snapshot(), f, limit)
    {
      var capped := Min(limit, MAX_QUERY_LIMIT);
      results := [];
      if capped == 0 {
        return;
      }
      var ids := ListFor(StartKey(f));
      AnyIndexWillDo(entries, log, f);
      for i := 0 to |ids|
        invariant results == Lookups(entries, ids[..i], f) && |results| <= capped
      {
        if |results| >= capped {
          LookupsGrow(entries, ids, i, f);
          return;
        }
        assert ids[..i + 1] == ids[..i] + [ids[i]];
        LookupsAppend(entries, ids[..i], ids[i], f);
        if ids[i] in entries {
          var entry := entries[ids[i]];
          if MatchesFilter(entry, f) {
            results := results + [entry];
          }
        }
      }
      assert ids[..|ids|] == ids;
    }
  }
}
