/** The overdue scan of the protocol: at a fixed time, repeating it defaults every overdue invoice. */
module Liveness {
  import opened Base
  import opened Lists
  import opened Token
  import opened BidBook
  import opened Insurance
  import opened Protocol
  import opened Coherence
  import opened Local
  import opened Frames
  import opened Simulation
  import opened Runs
  import OverdueScan

  /** The Funded invoices that are strictly past their due date plus the grace period. */
  function Overdue(s: State, grace: nat): set<InvoiceId> {
    set id | id in s.invoices && s.invoices[id].status == Funded && s.now > s.invoices[id].dueDate + grace
  }

  /** Before the end of time, saturating a deadline makes no difference. */
  lemma DueIsOverdue(s: State, grace: nat)
    requires s.now <= U64_MAX
    ensures forall id :: Due(s, id, grace) <==> id in Overdue(s, grace)
    ensures DueIds(s, grace) == Overdue(s, grace)
  {
  }

  /** The same, judged with the deadline as the contract computes it. */
  function DueIds(s: State, grace: nat): set<InvoiceId> {
    set id | id in s.invoices && Due(s, id, grace)
  }

  /** The funded invoices that a pass over `ids` leaves alone. */
  function Spared(s: State, ids: seq<InvoiceId>, grace: nat): set<InvoiceId> {
    set j | j in ListOf(s.lists, Funded) && !(j in ids && Due(s, j, grace))
  }

  /** What a pass over `ids` makes of one invoice. */
  function Judged(s: State, ids: seq<InvoiceId>, grace: nat, j: InvoiceId): Invoice
    requires j in s.invoices
  {
    if j in ids && Due(s, j, grace) then s.invoices[j].(status := InvoiceStatus.Defaulted) else s.invoices[j]
  }

  /**
    The due entries of `ids` have left the funded list, the others keep their order, and no other invoice has
    changed.
   */
  ghost predicate Passed(s: State, s': State, ids: seq<InvoiceId>, grace: nat) {
    && s'.now == s.now && s'.invoices.Keys == s.invoices.Keys
    && ListOf(s'.lists, Funded) == Filter(ListOf(s.lists, Funded), Spared(s, ids, grace))
    && forall j :: j in s.invoices ==> s'.invoices[j] == Judged(s, ids, grace, j)
  }

  lemma {:induction false} DefaultEachPasses(s: State, ids: seq<InvoiceId>, grace: nat)
    requires Inv(s)
    ensures DefaultEach(s, ids, grace).Ok?
    ensures var s' := DefaultEach(s, ids, grace).value; Inv(s') && Passed(s, s', ids, grace)
    decreases |ids|
  {
    hide Inv, HandleDefault, Passed, Due;
    if |ids| == 0 {
      PassedNone(s, grace);
      assert ids == [];
    } else {
      var front, id := ids[..|ids| - 1], ids[|ids| - 1];
      assert ids == front + [id];
      DefaultEachPasses(s, front, grace);
      var s1 := DefaultEach(s, front, grace).value;
      if Due(s1, id, grace) {
        DefaultOne(s1, id, grace);
        PassedDue(s, s1, HandleDefault(s1, id).value, front, id, grace);
      } else {
        PassedOther(s, s1, front, id, grace);
      }
    }
  }

  lemma PassedNone(s: State, grace: nat)
    ensures Passed(s, s, [], grace)
  {
    FilterAll(ListOf(s.lists, Funded), Spared(s, [], grace));
  }

  lemma PassedOther(s: State, s1: State, front: seq<InvoiceId>, id: InvoiceId, grace: nat)
    requires Inv(s) && Passed(s, s1, front, grace) && !Due(s1, id, grace)
    ensures Passed(s, s1, front + [id], grace)
  {
    hide Inv, GraceDeadline;
    FundedListNoDup(s);
    if id !in front {
      SameDeadline(s, s1, front, id, grace);
    }
    FilterSame(ListOf(s.lists, Funded), Spared(s, front, grace), Spared(s, front + [id], grace));
  }

  lemma SameDeadline(s: State, s1: State, front: seq<InvoiceId>, id: InvoiceId, grace: nat)
    requires Passed(s, s1, front, grace) && id !in front
    ensures Due(s1, id, grace) <==> Due(s, id, grace)
  {
    hide ListOf, Filter, Spared;
  }

  lemma PassedDue(s: State, s1: State, s2: State, front: seq<InvoiceId>, id: InvoiceId, grace: nat)
    requires Inv(s) && Inv(s1) && Passed(s, s1, front, grace) && Due(s1, id, grace)
    requires s2.now == s1.now && s2.invoices == s1.invoices[id := s1.invoices[id].(status := InvoiceStatus.Defaulted)]
    requires ListOf(s2.lists, Funded) == RemoveFirst(ListOf(s1.lists, Funded), id)
    ensures Passed(s, s2, front + [id], grace)
  {
    hide Inv, GraceDeadline, RemoveFirst, Filter;
    if id in front {
      StillDue(s, s1, front, id, grace);
    }
    SameDeadline(s, s1, front, id, grace);
    var list, before, after := ListOf(s.lists, Funded), Spared(s, front, grace), Spared(s, front + [id], grace);
    var kept := set j | j in list && j != id;
    FilterTwice(list, before, kept);
    FilterMembers(list, before);
    FundedListNoDup(s1);
    RemoveFirstIsFilter(ListOf(s1.lists, Funded), id, kept);
    FilterSame(list, before * kept, after);
  }

  /** An entry that was passed over is not due any more. */
  lemma StillDue(s: State, s1: State, front: seq<InvoiceId>, id: InvoiceId, grace: nat)
    requires Passed(s, s1, front, grace) && Due(s1, id, grace)
    ensures id !in front
  {
    hide ListOf, Filter, Spared;
  }

  lemma FundedListNoDup(s: State)
    requires Inv(s)
    ensures NoDup(ListOf(s.lists, Funded))
    ensures forall id :: id in ListOf(s.lists, Funded) <==> id in s.invoices && s.invoices[id].status == Funded
  {
    hide BookOk, BidsFit, ActiveOk, Custody, EscrowsOk, InvestmentsOk, NoTrace, AllCoherent;
  }

  lemma DefaultOne(s: State, id: InvoiceId, grace: nat)
    requires Inv(s) && Due(s, id, grace)
    ensures HandleDefault(s, id).Ok?
    ensures var s' := HandleDefault(s, id).value;
      && Inv(s') && s'.now == s.now && s'.invoices == s.invoices[id := s.invoices[id].(status := InvoiceStatus.Defaulted)]
      && ListOf(s'.lists, Funded) == RemoveFirst(ListOf(s.lists, Funded), id)
  {
    hide Inv, Structure, StepOf, OnlyTouches, RemoveFirst, AddUnique, HandleDefault, AcceptedOn, NoncesOf, MovesOf,
         PaymentsOf;
    DefaultSucceeds(s, id);
    InvStructure(s);
    DefaultBlock(s, id);
    var c := Context(s.now, s.fee, Some(grace));
    DefaultStep(c, s, id, grace);
    StepKeeps(c, s, HandleDefault(s, id).value);
  }

  /** One scan call acts on the list and the cursor as `OverdueScan.Scan` does, and changes no other status. */
  lemma ScanRefines(s: State, grace: nat, limit: Option<u32>)
    requires Inv(s)
    ensures ScanFunded(s, grace, limit).Ok?
    ensures var s', k := ScanFunded(s, grace, limit).value, OverdueScan.ResolveLimit(limit);
      && Inv(s') && s'.now == s.now && s'.invoices.Keys == s.invoices.Keys
      && ScanView(s') == OverdueScan.Scan(ScanView(s), DueIds(s, grace), k)
      && forall j :: j in s.invoices ==> s'.invoices[j] == Judged(s, OverdueScan.Visited(ScanView(s), k), grace, j)
  {
    hide Inv, DefaultEach, OverdueScan.Visited, OverdueScan.NextCursor, StepOf, GraceDeadline;
    var k := OverdueScan.ResolveLimit(limit);
    var visited, list := OverdueScan.Visited(ScanView(s), k), ListOf(s.lists, Funded);
    DefaultEachPasses(s, visited, grace);
    var c := Context(s.now, s.fee, Some(grace));
    ScanStep(c, s, grace, limit);
    StepKeeps(c, s, ScanFunded(s, grace, limit).value);
    FundedListNoDup(s);
    FilterSame(list, Spared(s, visited, grace), set j | j in list && !(j in visited && j in DueIds(s, grace)));
  }

  /** `calls` scans in a row. */
  function ScanTimes(s: State, grace: u64, limit: Option<u32>, calls: nat): State
    decreases calls
  {
    if calls == 0 then s else ScanTimes(Apply(s, ScanOverdue(grace, limit)), grace, limit, calls - 1)
  }

  lemma {:induction false} ScanTimesRefines(s: State, grace: u64, limit: Option<u32>, calls: nat)
    requires Inv(s)
    ensures var s', k := ScanTimes(s, grace, limit, calls), OverdueScan.ResolveLimit(limit);
      && Inv(s') && s'.now == s.now && s'.invoices.Keys == s.invoices.Keys
      && ScanView(s') == OverdueScan.Scans(ScanView(s), DueIds(s, grace), k, calls)
      && forall j :: j in s.invoices ==>
           || s'.invoices[j] == s.invoices[j]
           || (Due(s, j, grace) && s'.invoices[j] == s.invoices[j].(status := InvoiceStatus.Defaulted))
    decreases calls
  {
    hide Inv, Attempt, ScanFunded, GraceDeadline, OverdueScan.Scan;
    if calls > 0 {
      var s1 := Apply(s, ScanOverdue(grace, limit));
      ScanIs(s, grace, limit);
      ScanRefines(s, grace, limit);
      ScanTimesRefines(s1, grace, limit, calls - 1);
      FewerOverdue(s, s1, grace, limit, calls - 1);
    }
  }

  lemma ScanIs(s: State, grace: u64, limit: Option<u32>)
    ensures Attempt(s, ScanOverdue(grace, limit)) == ScanFunded(s, grace, limit)
  {
    hide ScanFunded;
  }

  /** The invoices that were overdue before the first call are the right set to follow through all of them. */
  lemma {:induction false} SameScans(st: OverdueScan.ScanState, due: set<InvoiceId>, due': set<InvoiceId>, k: nat,
                          calls: nat)
    requires forall x :: x in st.list ==> (x in due <==> x in due')
    ensures OverdueScan.Scans(st, due, k, calls) == OverdueScan.Scans(st, due', k, calls)
    decreases calls
  {
    hide OverdueScan.Visited, OverdueScan.NextCursor;
    if calls > 0 {
      var visited := OverdueScan.Visited(st, k);
      FilterSame(st.list, set x | x in st.list && !(x in visited && x in due), set x | x in st.list && !(x in visited
          && x in due'));
      OverdueScan.ScanMembers(st, due, k);
      SameScans(OverdueScan.Scan(st, due, k), due, due', k, calls - 1);
    }
  }

  lemma FewerOverdue(s: State, s1: State, grace: nat, limit: Option<u32>, calls: nat)
    requires Inv(s1) && s1.now == s.now && s1.invoices.Keys == s.invoices.Keys
    requires forall j :: j in s.invoices ==>
      || s1.invoices[j] == s.invoices[j]
      || (Due(s, j, grace) && s1.invoices[j] == s.invoices[j].(status := InvoiceStatus.Defaulted))
    ensures OverdueScan.Scans(ScanView(s1), DueIds(s1, grace), OverdueScan.ResolveLimit(limit), calls)
         == OverdueScan.Scans(ScanView(s1), DueIds(s, grace), OverdueScan.ResolveLimit(limit), calls)
  {
    hide Inv, GraceDeadline;
    FundedListNoDup(s1);
    SameScans(ScanView(s1), DueIds(s1, grace), DueIds(s, grace), OverdueScan.ResolveLimit(limit), calls);
  }

  /**
    Liveness of the scan. From any reachable state, with whatever cursor earlier calls left
    behind: m overdue invoices among n Funded ones are all defaulted by m * ceil(n / k) calls
    with limit k at one time and grace period, and no other invoice changes.
   */
  lemma OverdueInvoicesAreDefaulted(g: Genesis, actions: seq<Action>, grace: u64, limit: Option<u32>, calls: nat)
    requires Legal(actions)
    requires var s := Reached(g, actions);
      calls >= |Overdue(s, grace)| * OverdueScan.CeilDiv(|ListOf(s.lists, Funded)|, OverdueScan.ResolveLimit(limit))
    ensures var s := Reached(g, actions); var s' := ScanTimes(s, grace, limit, calls);
      && s'.invoices.Keys == s.invoices.Keys && Overdue(s', grace) == {}
      && forall j :: j in s.invoices ==> var invoice := s.invoices[j];
           s'.invoices[j] == if invoice.status == Funded && s.now > invoice.dueDate + grace
                             then invoice.(status := InvoiceStatus.Defaulted) else invoice
  {
    hide Inv, Reached, ScanTimes, Due, DueIds, OverdueScan.CeilDiv, OverdueScan.ResolveLimit;
    var s := Reached(g, actions);
    ReachedInv(g, actions);
    TimeBound(s);
    DueIsOverdue(s, grace);
    AllScanned(s, grace, limit, calls);
    DueIsOverdue(ScanTimes(s, grace, limit, calls), grace);
  }

  lemma AllScanned(s: State, grace: u64, limit: Option<u32>, calls: nat)
    requires Inv(s)
    requires calls >= |DueIds(s, grace)| * OverdueScan.CeilDiv(|ListOf(s.lists, Funded)|, OverdueScan.ResolveLimit(limit))
    ensures var s' := ScanTimes(s, grace, limit, calls);
      && s'.now == s.now && s'.invoices.Keys == s.invoices.Keys && DueIds(s', grace) == {}
      && forall j :: j in s.invoices ==>
           s'.invoices[j] == if Due(s, j, grace) then s.invoices[j].(status := InvoiceStatus.Defaulted) else s.invoices[j]
  {
    hide Inv, ScanTimes, GraceDeadline, OverdueScan.Scans, OverdueScan.CeilDiv;
    var s', k := ScanTimes(s, grace, limit, calls), OverdueScan.ResolveLimit(limit);
    FundedListNoDup(s);
    assert OverdueScan.Pending(ScanView(s), DueIds(s, grace)) == DueIds(s, grace);
    OverdueScan.EveryDueEntryIsFound(ScanView(s), DueIds(s, grace), k, calls);
    ScanTimesRefines(s, grace, limit, calls);
    FundedListNoDup(s');
    assert forall j :: j in s.invoices && Due(s, j, grace) && s'.invoices[j].status == Funded
                       ==> j in OverdueScan.Pending(ScanView(s'), DueIds(s, grace));
  }

  /** In no reachable state can a scan abort, whatever the grace period and the limit. */
  lemma ScanNeverAborts(g: Genesis, actions: seq<Action>, grace: u64, limit: Option<u32>)
    requires Legal(actions)
    ensures ScanFunded(Reached(g, actions), grace, limit).Ok?
  {
    hide Inv, Reached, ScanFunded, StepOf;
    var s := Reached(g, actions);
    ReachedInv(g, actions);
    ScanStep(Context(s.now, s.fee, Some(grace)), s, grace, limit);
  }
}
