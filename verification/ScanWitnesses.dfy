/** Every scan of a list happens in the protocol, so what a wrapped cursor fails to say of lists it fails to say of invoices. */
module ScanWitnesses {
  import opened Base
  import opened Lists
  import opened Token
  import opened BidBook
  import opened Protocol
  import opened Coherence
  import opened Simulation
  import opened Runs
  import opened Scenarios
  import opened Liveness
  import opened Witnesses
  import OverdueScan
  import WrapAround

  /** The ids from 1 to `n`. */
  function UpTo(n: nat): seq<InvoiceId> { seq(n, i => i + 1) }

  /** One invoice after another is funded, with the given due dates. */
  function FundingAll(dueDates: seq<u64>): seq<Action> {
    if |dueDates| == 0 then []
    else FundingAll(dueDates[..|dueDates| - 1]) + Funding(|dueDates|, |dueDates|, Usual(1, dueDates[|dueDates| - 1]))
  }

  /** The invoices 1 to n are Funded, in this order, with these due dates, at time 0 and with the cursor at 0. */
  ghost predicate AllFunded(s: State, dueDates: seq<u64>) {
    && s.now == 0 && s.cursor == 0 && ListOf(s.lists, Funded) == UpTo(|dueDates|)
    && s.invoiceCount == |dueDates| && s.book.count == |dueDates|
    && (forall id :: id in s.invoices <==> 1 <= id <= |dueDates|)
    && forall id :: id in s.invoices ==> s.invoices[id].status == Funded && s.invoices[id].dueDate == dueDates[id - 1]
  }

  lemma {:induction false} FundsAll(dueDates: seq<u64>, funds: nat)
    requires funds >= |dueDates| && forall d :: d in dueDates ==> d > 0
    ensures Legal(FundingAll(dueDates))
    ensures var s := Reached(Deployed(funds), FundingAll(dueDates));
      AllFunded(s, dueDates) && Balance(s.ledger, CURRENCY, INVESTOR) == funds - |dueDates|
    decreases |dueDates|
  {
    hide Reached, Run, Funding, Balance;
    var g, n := Deployed(funds), |dueDates|;
    if n == 0 {
      AsDeployed(funds);
    } else {
      var front, last := dueDates[..n - 1], dueDates[n - 1];
      assert last in dueDates && forall d :: d in front ==> d in dueDates;
      FundsAll(front, funds);
      Funds(g, FundingAll(front), Usual(1, last));
      OneMoreFunded(Reached(g, FundingAll(front)), Reached(g, FundingAll(dueDates)), dueDates);
    }
  }

  lemma OneMoreFunded(s: State, s': State, dueDates: seq<u64>)
    requires |dueDates| > 0 && AllFunded(s, dueDates[..|dueDates| - 1])
    requires FundedNext(s, s', |dueDates|, Usual(1, dueDates[|dueDates| - 1]))
    ensures AllFunded(s', dueDates)
  {
    var n := |dueDates|;
    assert UpTo(n) == UpTo(n - 1) + [n];
  }

  /* ---- moving the cursor ---- */

  function Repeat(a: Action, times: nat): seq<Action> { seq(times, _ => a) }

  lemma {:induction false} RepeatedScans(s: State, grace: u64, limit: Option<u32>, times: nat)
    ensures Legal(Repeat(ScanOverdue(grace, limit), times))
    ensures Run(s, Repeat(ScanOverdue(grace, limit), times)) == ScanTimes(s, grace, limit, times)
    decreases times
  {
    hide Apply;
    if times > 0 {
      var a := ScanOverdue(grace, limit);
      RepeatedScans(Apply(s, a), grace, limit, times - 1);
      OneAction(s, a);
      RunConcat(s, [a], Repeat(a, times - 1));
      assert [a] + Repeat(a, times - 1) == Repeat(a, times);
    }
  }

  /** While nothing is overdue, scans of one entry at a time move the cursor and change nothing else that a scan looks at. */
  lemma Rotates(s: State, cursor: nat)
    requires Inv(s) && DueIds(s, 0) == {} && s.cursor == 0 && cursor < |ListOf(s.lists, Funded)|
    ensures var s' := ScanTimes(s, 0, Some(1), cursor);
      s'.now == s.now && s'.invoices == s.invoices && ScanView(s') == OverdueScan.ScanState(ListOf(s.lists, Funded), cursor)
  {
    hide Inv, ScanTimes, GraceDeadline, OverdueScan.Scans, WrapAround.Place;
    var n := |ListOf(s.lists, Funded)|;
    ScanTimesRefines(s, 0, Some(1), cursor);
    forall j | j in s.invoices ensures !Due(s, j, 0) {
      assert j !in DueIds(s, 0);
    }
    if n > 1 {
      WrapAround.QuietScans(ScanView(s), {}, 1, cursor);
      assert WrapAround.Place(0, 1, n, cursor) == cursor by {
        OneByOne(n, cursor);
      }
    } else {
      NoScan(ScanView(s));
    }
  }

  lemma OneByOne(n: nat, cursor: nat)
    requires cursor < n
    ensures WrapAround.Place(0, 1, n, cursor) == cursor
  {
  }

  lemma NoScan(st: OverdueScan.ScanState)
    ensures OverdueScan.Scans(st, {}, 1, 0) == st
  {
  }

  /* ---- any list, any cursor, any overdue invoices ---- */

  /** Invoices that will be overdue at time 2 are due at 1. */
  function DueDates(n: nat, due: set<InvoiceId>): seq<u64> { seq(n, i => if i + 1 in due then 1 else 5) }

  function ScanScene(n: nat, cursor: nat, due: set<InvoiceId>): seq<Action> {
    FundingAll(DueDates(n, due)) + Repeat(ScanOverdue(0, Some(1)), cursor) + [Tick(2)]
  }

  /** There is a run to `n` Funded invoices with the cursor anywhere and any of them overdue. */
  lemma EveryScanIsReachable(n: nat, cursor: nat, due: set<InvoiceId>)
    requires cursor < n && forall id :: id in due ==> 1 <= id <= n
    ensures Legal(ScanScene(n, cursor, due))
    ensures var s := Reached(Deployed(n), ScanScene(n, cursor, due));
      ScanView(s) == OverdueScan.ScanState(UpTo(n), cursor) && Overdue(s, 0) == due && DueIds(s, 0) == due
  {
    hide Reached, Run, FundingAll, Inv, Repeat, Apply, ScanTimes;
    var g, dueDates, turns := Deployed(n), DueDates(n, due), Repeat(ScanOverdue(0, Some(1)), cursor);
    FundsAll(dueDates, n);
    var s := Reached(g, FundingAll(dueDates));
    ReachedInv(g, FundingAll(dueDates));
    assert DueIds(s, 0) == {};
    Rotates(s, cursor);
    RepeatedScans(s, 0, Some(1), cursor);
    ReachedConcat(g, FundingAll(dueDates), turns);
    var s1 := Reached(g, FundingAll(dueDates) + turns);
    Ticks(s1, 2);
    OneAction(s1, Tick(2));
    ReachedConcat(g, FundingAll(dueDates) + turns, [Tick(2)]);
    DueIsOverdue(Reached(g, ScanScene(n, cursor, due)), 0);
  }

  /* ---- what a wrap of the stored cursor says ---- */

  /** A scan from this state stores 0 although an overdue invoice is left. */
  ghost predicate Misleads(s: State, grace: nat, limit: Option<u32>) {
    && ScanFunded(s, grace, limit).Ok?
    && ScanFunded(s, grace, limit).value.cursor == 0 && Overdue(ScanFunded(s, grace, limit).value, grace) != {}
  }

  /** What is overdue after a scan is what the list scan leaves pending. */
  lemma LeftOver(s: State, grace: nat, limit: Option<u32>)
    requires Inv(s)
    ensures ScanFunded(s, grace, limit).Ok?
    ensures var s', st := ScanFunded(s, grace, limit).value,
                OverdueScan.Scan(ScanView(s), DueIds(s, grace), OverdueScan.ResolveLimit(limit));
      s'.now <= U64_MAX && s'.cursor == st.cursor && DueIds(s', grace) == OverdueScan.Pending(st, DueIds(s, grace))
  {
    hide Inv, ScanFunded, OverdueScan.Scan, GraceDeadline;
    ScanRefines(s, grace, limit);
    TimeBound(s);
    FundedListNoDup(ScanFunded(s, grace, limit).value);
  }

  lemma Misleading(s: State, grace: nat, limit: Option<u32>)
    requires Inv(s)
    ensures var st := OverdueScan.Scan(ScanView(s), DueIds(s, grace), OverdueScan.ResolveLimit(limit));
      Misleads(s, grace, limit) <==> st.cursor == 0 && OverdueScan.Pending(st, DueIds(s, grace)) != {}
  {
    hide Inv, ScanFunded, OverdueScan.Scan, OverdueScan.Pending, DueIds, Overdue;
    LeftOver(s, grace, limit);
    DueIsOverdue(ScanFunded(s, grace, limit).value, grace);
  }

  /** In no reachable state with `n` Funded invoices does a scan store 0 and leave an overdue invoice. */
  ghost predicate WrapIsReliable(n: nat, limit: Option<u32>) {
    forall g, actions, grace: u64 ::
      Legal(actions) && |ListOf(Reached(g, actions).lists, Funded)| == n ==> !Misleads(Reached(g, actions), grace, limit)
  }

  /** A stored cursor of 0 can be relied on exactly when one call takes in every Funded invoice. */
  lemma WrapIsReliableIff(n: nat, limit: Option<u32>)
    ensures WrapIsReliable(n, limit) <==> OverdueScan.ResolveLimit(limit) >= n
  {
    hide Reached, Misleads, ScanScene, OverdueScan.ResolveLimit;
    var k := OverdueScan.ResolveLimit(limit);
    if k >= n {
      forall g, actions, grace: u64 | Legal(actions) && |ListOf(Reached(g, actions).lists, Funded)| == n
        ensures !Misleads(Reached(g, actions), grace, limit)
      {
        Reliable(g, actions, grace, limit);
      }
    } else {
      MissesOne(n, limit);
      EveryScanIsReachable(n, n - k, {1});
      assert !WrapIsReliable(n, limit);
    }
  }

  lemma Reliable(g: Genesis, actions: seq<Action>, grace: u64, limit: Option<u32>)
    requires Legal(actions) && OverdueScan.ResolveLimit(limit) >= |ListOf(Reached(g, actions).lists, Funded)|
    ensures !Misleads(Reached(g, actions), grace, limit)
  {
    hide Reached, Misleads, OverdueScan.Scan, OverdueScan.Pending, Inv, DueIds;
    var s := Reached(g, actions);
    ReachedInv(g, actions);
    Misleading(s, grace, limit);
    FundedListNoDup(s);
    if OverdueScan.Scan(ScanView(s), DueIds(s, grace), OverdueScan.ResolveLimit(limit)).cursor == 0 {
      WrapAround.CoveredIff(ScanView(s), DueIds(s, grace), OverdueScan.ResolveLimit(limit));
    }
  }

  /** With more invoices than one call takes in, the last window of the list hides an overdue first one. */
  lemma MissesOne(n: nat, limit: Option<u32>)
    requires n > OverdueScan.ResolveLimit(limit)
    ensures var scene := ScanScene(n, n - OverdueScan.ResolveLimit(limit), {1});
      Legal(scene) && Misleads(Reached(Deployed(n), scene), 0, limit)
  {
    hide Reached, Misleads, ScanScene, OverdueScan.Scan, Inv;
    var k := OverdueScan.ResolveLimit(limit);
    var scene := ScanScene(n, n - k, {1});
    EveryScanIsReachable(n, n - k, {1});
    ReachedInv(Deployed(n), scene);
    Misleading(Reached(Deployed(n), scene), 0, limit);
    assert UpTo(n)[0] == 1;
    WrapAround.MissedEntry(UpTo(n), k);
  }

  /** Five Funded invoices, the last of them overdue: scanning two at a time until the cursor is 0 never ends. */
  lemma ScanningMayNeverEnd(calls: nat)
    requires calls >= 1
    ensures Legal(ScanScene(5, 0, {5}))
    ensures ScanTimes(Reached(Deployed(5), ScanScene(5, 0, {5})), 0, Some(2), calls).cursor != 0
  {
    hide Reached, ScanScene, ScanTimes, OverdueScan.Scans, Inv;
    EveryScanIsReachable(5, 0, {5});
    var s := Reached(Deployed(5), ScanScene(5, 0, {5}));
    ReachedInv(Deployed(5), ScanScene(5, 0, {5}));
    ScanTimesRefines(s, 0, Some(2), calls);
    assert UpTo(5) == [1, 2, 3, 4, 5];
    WrapAround.LoopThatNeverEnds(calls);
  }

  /** Starting at 0 does not help: three overdue invoices, one per call, and the second call stores 0 with one left. */
  lemma FreshCursorMisleads()
    ensures Legal(ScanScene(3, 0, {1, 2, 3}))
    ensures var s := ScanTimes(Reached(Deployed(3), ScanScene(3, 0, {1, 2, 3})), 0, Some(1), 2);
      s.cursor == 0 && 2 in s.invoices && s.invoices[2].status == Funded
  {
    hide Reached, ScanScene, ScanTimes, OverdueScan.Scans, Inv;
    EveryScanIsReachable(3, 0, {1, 2, 3});
    var s := Reached(Deployed(3), ScanScene(3, 0, {1, 2, 3}));
    ReachedInv(Deployed(3), ScanScene(3, 0, {1, 2, 3}));
    ScanTimesRefines(s, 0, Some(1), 2);
    assert UpTo(3) == [1, 2, 3];
    OverdueScan.CursorZeroIsNotCoverage();
    FundedListNoDup(ScanTimes(s, 0, Some(1), 2));
  }
}
