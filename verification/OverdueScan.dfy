/**
  The rotating overdue scan (`defaults.rs`), reduced to the list it walks and the cursor it
  stores. Each call inspects a window of the funded list and removes the due entries it
  finds there, so the list shrinks underneath the cursor.
 */
module OverdueScan {
  import opened Base
  import opened Lists

  const DEFAULT_LIMIT := 25
  const MAX_LIMIT := 100

  datatype ScanState = ScanState(list: seq<InvoiceId>, cursor: nat)

  function NormalizeCursor(cursor: nat, funded: nat): nat {
    if funded == 0 || cursor >= funded then 0 else cursor
  }

  function ResolveLimit(limit: Option<u32>): (k: nat)
    ensures 1 <= k <= MAX_LIMIT
    ensures limit == None ==> k == 25
    ensures limit.Some? ==> if limit.value == 0 then k == 1 else if limit.value <= 100 then k == limit.value else k == 100
  {
    Min(Max(if limit.Some? then limit.value else DEFAULT_LIMIT, 1), MAX_LIMIT)
  }

  /** The next position, wrapping at the end of the list. */
  function Next(cursor: nat, n: nat): nat { if cursor + 1 >= n then 0 else cursor + 1 }

  /** The entries inspected by `k` iterations from `cursor`. */
  function Window(list: seq<InvoiceId>, cursor: nat, k: nat): seq<InvoiceId>
    requires cursor < |list|
    decreases k
  {
    if k == 0 then [] else [list[cursor]] + Window(list, Next(cursor, |list|), k - 1)
  }

  /** The cursor after `k` iterations. */
  function Advance(cursor: nat, n: nat, k: nat): nat
    requires cursor < n
    ensures Advance(cursor, n, k) < n
    decreases k
  {
    if k == 0 then cursor else Advance(Next(cursor, n), n, k - 1)
  }

  /** Iteration `i` inspects the entry the cursor has advanced to. */
  lemma {:induction false} WindowAt(list: seq<InvoiceId>, cursor: nat, k: nat, i: nat)
    requires cursor < |list| && i < k
    ensures |Window(list, cursor, k)| == k && Window(list, cursor, k)[i] == list[Advance(cursor, |list|, i)]
    decreases k
  {
    if k > 1 {
      WindowAt(list, Next(cursor, |list|), k - 1, if i > 0 then i - 1 else 0);
    }
  }

  lemma {:induction false} AdvanceOne(cursor: nat, n: nat, i: nat)
    requires cursor < n
    ensures Advance(cursor, n, i + 1) == Next(Advance(cursor, n, i), n)
    decreases i
  {
    if i == 0 {
      assert Advance(Next(cursor, n), n, 0) == Next(cursor, n);
    } else {
      AdvanceOne(Next(cursor, n), n, i - 1);
    }
  }

  function Visited(st: ScanState, limit: nat): seq<InvoiceId> {
    var n := |st.list|;
    if n == 0 then [] else Window(st.list, NormalizeCursor(st.cursor, n), Min(limit, n))
  }

  function NextCursor(st: ScanState, limit: nat): nat {
    var n := |st.list|;
    if limit >= n then 0 else Advance(NormalizeCursor(st.cursor, n), n, limit)
  }

  /** One scan call: the visited due entries leave the list. */
  function Scan(st: ScanState, due: set<InvoiceId>, limit: nat): ScanState {
    var visited := Visited(st, limit);
    ScanState(Filter(st.list, set x | x in st.list && !(x in visited && x in due)), NextCursor(st, limit))
  }

  function Scans(st: ScanState, due: set<InvoiceId>, limit: nat, calls: nat): ScanState
    decreases calls
  {
    if calls == 0 then st else Scans(Scan(st, due, limit), due, limit, calls - 1)
  }

  /** The due entries still listed. */
  function Pending(st: ScanState, due: set<InvoiceId>): set<InvoiceId> {
    set x | x in st.list && x in due
  }

  /** How many iterations after `cursor` position `p` is inspected. */
  function Distance(cursor: nat, p: nat, n: nat): int {
    if p >= cursor then p - cursor else p - cursor + n
  }

  lemma {:induction false} WindowReaches(list: seq<InvoiceId>, cursor: nat, k: nat, p: nat)
    requires cursor < |list| && p < |list| && Distance(cursor, p, |list|) < k
    ensures list[p] in Window(list, cursor, k)
    decreases k
  {
    if p != cursor {
      WindowReaches(list, Next(cursor, |list|), k - 1, p);
    }
  }

  lemma {:induction false} AdvanceDistance(cursor: nat, n: nat, k: nat, p: nat)
    requires cursor < n && p < n && k <= Distance(cursor, p, n)
    ensures Distance(Advance(cursor, n, k), p, n) == Distance(cursor, p, n) - k
    decreases k
  {
    if k > 0 {
      AdvanceDistance(Next(cursor, n), n, k - 1, p);
    }
  }

  lemma ScanMembers(st: ScanState, due: set<InvoiceId>, limit: nat)
    ensures forall x :: x in Scan(st, due, limit).list <==> x in st.list && !(x in Visited(st, limit) && x in due)
    ensures |Scan(st, due, limit).list| <= |st.list|
    ensures Pending(Scan(st, due, limit), due) <= Pending(st, due)
  {
    var stay := set x | x in st.list && !(x in Visited(st, limit) && x in due);
    FilterMembers(st.list, stay);
    FilterShorter(st.list, stay);
  }

  /** A call that finds a due entry in its window leaves strictly fewer. */
  lemma HitMakesProgress(st: ScanState, due: set<InvoiceId>, limit: nat, x: InvoiceId)
    requires x in st.list && x in due && x in Visited(st, limit)
    ensures |Pending(Scan(st, due, limit), due)| < |Pending(st, due)|
  {
    ScanMembers(st, due, limit);
    SubsetCard(Pending(Scan(st, due, limit), due), Pending(st, due) - {x});
  }

  /** A call that finds none leaves the list alone and brings every entry it missed closer. */
  lemma MissMovesCursor(st: ScanState, due: set<InvoiceId>, limit: nat, p: nat)
    requires limit >= 1 && p < |st.list| && st.list[p] in due
    requires forall x :: x in Visited(st, limit) ==> x !in due
    ensures var n, st' := |st.list|, Scan(st, due, limit);
      && st'.list == st.list && limit < n
      && Distance(NormalizeCursor(st'.cursor, n), p, n) == Distance(NormalizeCursor(st.cursor, n), p, n) - limit
      && Distance(NormalizeCursor(st.cursor, n), p, n) >= limit
  {
    var n := |st.list|;
    var c := NormalizeCursor(st.cursor, n);
    if Distance(c, p, n) < Min(limit, n) {
      WindowReaches(st.list, c, Min(limit, n), p);
    } else {
      FilterAll(st.list, set x | x in st.list && !(x in Visited(st, limit) && x in due));
      AdvanceDistance(c, n, limit, p);
    }
  }

  lemma {:induction false} DrainedStaysDrained(st: ScanState, due: set<InvoiceId>, limit: nat, calls: nat)
    requires Pending(st, due) == {}
    ensures Pending(Scans(st, due, limit, calls), due) == {}
    decreases calls
  {
    hide Scan, Pending, Visited;
    if calls > 0 {
      ScanMembers(st, due, limit);
      DrainedStaysDrained(Scan(st, due, limit), due, limit, calls - 1);
    }
  }

  /**
    The due entry at `p` is within `q` windows of the cursor, `rounds` windows cover the list, and the calls
    suffice for finding it and every other pending entry.
   */
  ghost predicate Reaches(st: ScanState, due: set<InvoiceId>, limit: nat, rounds: nat, q: nat, p: nat, calls: nat) {
    && limit >= 1 && |st.list| <= rounds * limit && 1 <= q <= rounds
    && p < |st.list| && st.list[p] in due
    && Distance(NormalizeCursor(st.cursor, |st.list|), p, |st.list|) < q * limit
    && calls >= (|Pending(st, due)| - 1) * rounds + q
  }

  lemma EnoughCalls(left: int, rounds: nat, q: nat, calls: nat)
    requires left >= 1 && calls >= (left - 1) * rounds + q && q >= 1
    ensures calls >= 1
  {
    MulLe(rounds, 0, left - 1);
  }

  lemma EnoughAfterHit(left: int, left': int, rounds: nat, q: nat, calls: nat)
    requires left' < left && calls >= (left - 1) * rounds + q && q >= 1
    ensures calls - 1 >= (left' - 1) * rounds + rounds
  {
    MulLe(rounds, left', left - 1);
  }

  lemma OneRoundLess(q: nat, limit: nat, d: int)
    requires limit >= 1 && limit <= d < q * limit
    ensures q >= 2 && d - limit < (q - 1) * limit
  {
    if q <= 1 {
      MulLe(limit, q, 1);
    }
    assert (q - 1) * limit == q * limit - limit;
  }

  /** Every entry that is still listed is within a full round of any cursor. */
  lemma WithinOneRound(cursor: nat, p: nat, n: nat, rounds: nat, limit: nat)
    requires p < n <= rounds * limit
    ensures Distance(NormalizeCursor(cursor, n), p, n) < rounds * limit && rounds >= 1
  {
  }

  /** After a call that found something due, another pending entry is within a full round. */
  lemma AfterHit(st: ScanState, due: set<InvoiceId>, limit: nat, rounds: nat, q: nat, p: nat, calls: nat, x: InvoiceId)
    returns (p': nat)
    requires Reaches(st, due, limit, rounds, q, p, calls) && x in Visited(st, limit) && x in due && x in st.list
    requires Pending(Scan(st, due, limit), due) != {}
    ensures calls >= 1 && Reaches(Scan(st, due, limit), due, limit, rounds, rounds, p', calls - 1)
  {
    hide Scan, Visited, Pending, Distance, NormalizeCursor;
    var st' := Scan(st, due, limit);
    HitMakesProgress(st, due, limit, x);
    ScanMembers(st, due, limit);
    EnoughAfterHit(|Pending(st, due)|, |Pending(st', due)|, rounds, q, calls);
    p' := SomePending(st', due);
    WithinOneRound(st'.cursor, p', |st'.list|, rounds, limit);
    EnoughCalls(|Pending(st, due)|, rounds, q, calls);
  }

  lemma SomePending(st: ScanState, due: set<InvoiceId>) returns (p: nat)
    requires Pending(st, due) != {}
    ensures p < |st.list| && st.list[p] in due
  {
    var y :| y in Pending(st, due);
    p :| 0 <= p < |st.list| && st.list[p] == y;
  }

  /** After a call that found nothing due, the same entry is one window closer. */
  lemma AfterMiss(st: ScanState, due: set<InvoiceId>, limit: nat, rounds: nat, q: nat, p: nat, calls: nat)
    requires Reaches(st, due, limit, rounds, q, p, calls) && forall x :: x in Visited(st, limit) ==> x !in due
    ensures calls >= 1 && q >= 1 && Reaches(Scan(st, due, limit), due, limit, rounds, q - 1, p, calls - 1)
  {
    hide Scan, Visited, Distance, NormalizeCursor;
    var n := |st.list|;
    MissMovesCursor(st, due, limit, p);
    assert st.list[p] in Pending(st, due);
    EnoughCalls(|Pending(st, due)|, rounds, q, calls);
    OneRoundLess(q, limit, Distance(NormalizeCursor(st.cursor, n), p, n));
  }

  lemma ReachesCalls(st: ScanState, due: set<InvoiceId>, limit: nat, rounds: nat, q: nat, p: nat, calls: nat)
    requires Reaches(st, due, limit, rounds, q, p, calls)
    ensures calls >= 1
  {
    hide Distance, NormalizeCursor;
    assert st.list[p] in Pending(st, due);
    EnoughCalls(|Pending(st, due)|, rounds, q, calls);
  }

  /**
    The termination measure: with `rounds * limit` covering the list, a due entry within
    `q * limit` of the cursor is found in at most `q` calls, and each later one in at most `rounds`.
   */
  lemma {:induction false} Drains(st: ScanState, due: set<InvoiceId>, limit: nat, rounds: nat, q: nat, p: nat,
                          calls: nat)
    requires Reaches(st, due, limit, rounds, q, p, calls)
    ensures Pending(Scans(st, due, limit, calls), due) == {}
    decreases calls
  {
    hide Reaches, Scan, Visited, Pending;
    ReachesCalls(st, due, limit, rounds, q, p, calls);
    VisitedListed(st, limit);
    var st' := Scan(st, due, limit);
    if Pending(st', due) == {} {
      DrainedStaysDrained(st', due, limit, calls - 1);
    } else if x :| x in Visited(st, limit) && x in due && x in st.list {
      var p' := AfterHit(st, due, limit, rounds, q, p, calls, x);
      Drains(st', due, limit, rounds, rounds, p', calls - 1);
    } else {
      AfterMiss(st, due, limit, rounds, q, p, calls);
      Drains(st', due, limit, rounds, q - 1, p, calls - 1);
    }
  }

  lemma {:induction false} WindowListed(list: seq<InvoiceId>, cursor: nat, k: nat)
    requires cursor < |list|
    ensures forall x :: x in Window(list, cursor, k) ==> x in list
    decreases k
  {
    if k > 0 {
      WindowListed(list, Next(cursor, |list|), k - 1);
    }
  }

  lemma VisitedListed(st: ScanState, limit: nat)
    ensures forall x :: x in Visited(st, limit) ==> x in st.list
  {
    if |st.list| > 0 {
      WindowListed(st.list, NormalizeCursor(st.cursor, |st.list|), Min(limit, |st.list|));
    }
  }

  /** How many windows of `k` cover `n` entries. */
  function CeilDiv(n: nat, k: nat): (r: nat)
    requires k >= 1
    ensures r * k - k < n <= r * k
  {
    (n + k - 1) / k
  }

  /** From any list and any stored cursor, m * ceil(n / k) calls leave no due entry. */
  lemma EveryDueEntryIsFound(st: ScanState, due: set<InvoiceId>, limit: nat, calls: nat)
    requires limit >= 1
    requires calls >= |Pending(st, due)| * CeilDiv(|st.list|, limit)
    ensures Pending(Scans(st, due, limit, calls), due) == {}
  {
    if Pending(st, due) == {} {
      DrainedStaysDrained(st, due, limit, calls);
    } else {
      hide Distance, NormalizeCursor, CeilDiv;
      var rounds, left := CeilDiv(|st.list|, limit), |Pending(st, due)|;
      var p := SomePending(st, due);
      WithinOneRound(st.cursor, p, |st.list|, rounds, limit);
      assert (left - 1) * rounds + rounds == left * rounds;
      Drains(st, due, limit, rounds, rounds, p, calls);
    }
  }

  /**
    The cursor coming back to 0 does not mean that every entry has been inspected: three due
    entries, one per call, and after two calls the cursor is 0 while the second entry was skipped.
   */
  lemma CursorZeroIsNotCoverage()
    ensures var st := Scans(ScanState([1, 2, 3], 0), {1, 2, 3}, 1, 2);
      st.cursor == 0 && 2 in Pending(st, {1, 2, 3})
  {
    var due := {1, 2, 3};
    var st0 := ScanState([1, 2, 3], 0);
    assert Visited(st0, 1) == [1] by { assert Window(st0.list, 0, 1) == [1] + Window(st0.list, 1, 0); }
    DropFirst([1, 2, 3], 1, set x | x in st0.list && !(x in Visited(st0, 1) && x in due));
    assert Advance(0, 3, 1) == Advance(1, 3, 0);
    var st1 := ScanState([2, 3], 1);
    assert Scan(st0, due, 1) == st1;
    assert Visited(st1, 1) == [3] by { assert Window(st1.list, 1, 1) == [3] + Window(st1.list, 0, 0); }
    ScanMembers(st1, due, 1);
    assert Advance(1, 2, 1) == Advance(0, 2, 0);
    assert Scans(st1, due, 1, 1) == Scans(Scan(st1, due, 1), due, 1, 0);
    assert Scans(st0, due, 1, 2) == Scans(st1, due, 1, 1);
  }

  lemma DropFirst(xs: seq<InvoiceId>, x: InvoiceId, stay: set<InvoiceId>)
    requires |xs| > 0 && xs[0] == x && x !in stay && forall y :: y in xs[1..] ==> y in stay
    ensures Filter(xs, stay) == xs[1..]
  {
    assert xs == [x] + xs[1..];
    FilterConcat([x], xs[1..], stay);
    FilterAll(xs[1..], stay);
  }
}
