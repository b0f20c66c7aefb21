/**
  Scanning "until the cursor wraps to 0", as the scanner documents it: exactly when a wrap means that every
  entry was covered, and exactly when the cursor ever wraps.
 */
module WrapAround {
  import opened Base
  import opened Lists
  import opened OverdueScan

  /* ---- what a wrap says ---- */

  /** Going round the list is counting modulo its length. */
  lemma {:induction false} AdvanceIsModular(cursor: nat, n: nat, k: nat)
    requires cursor < n
    ensures Advance(cursor, n, k) == (cursor + k) % n
    decreases k
  {
    if k > 0 {
      AdvanceIsModular(Next(cursor, n), n, k - 1);
      if cursor + 1 == n {
        FullTurn(k - 1, n);
      }
    }
  }

  /** Quotient and remainder are unique. */
  lemma ModIs(x: nat, n: nat, q: int, r: nat)
    requires x == n * q + r && r < n
    ensures x % n == r
  {
    var d := x / n - q;
    assert n * d == r - x % n by {
      assert n * d == n * (x / n) - n * q;
    }
    if d > 0 {
      MulLe(n, 1, d);
    } else if d < 0 {
      MulLe(n, d, -1);
    }
  }

  lemma FullTurn(x: nat, n: nat)
    requires n > 0
    ensures (n + x) % n == x % n
  {
    assert n * (x / n + 1) == n * (x / n) + n;
    ModIs(n + x, n, x / n + 1, x % n);
  }

  /** A call stores 0 only if it takes in the whole list, or if its window ends with the list. */
  lemma WrapsIff(st: ScanState, limit: nat)
    requires limit >= 1
    ensures var n := |st.list|;
      NextCursor(st, limit) == 0 <==> limit >= n || NormalizeCursor(st.cursor, n) + limit == n
  {
    var n := |st.list|;
    var c := NormalizeCursor(st.cursor, n);
    if limit < n {
      AdvanceIsModular(c, n, limit);
      ModIs(c + limit, n, if c + limit >= n then 1 else 0, if c + limit >= n then c + limit - n else c + limit);
    }
  }

  /** A window that does not pass the end of the list is a slice of it. */
  lemma {:induction false} WindowIsSlice(list: seq<InvoiceId>, cursor: nat, k: nat)
    requires cursor < |list| && cursor + k <= |list|
    ensures Window(list, cursor, k) == list[cursor..cursor + k]
    decreases k
  {
    if k > 1 {
      WindowIsSlice(list, cursor + 1, k - 1);
    } else if k == 1 {
      assert Window(list, Next(cursor, |list|), 0) == [];
    }
  }

  lemma {:induction false} WholeWindow(list: seq<InvoiceId>, cursor: nat)
    requires cursor < |list|
    ensures forall x :: x in list ==> x in Window(list, cursor, |list|)
  {
    forall x | x in list ensures x in Window(list, cursor, |list|) {
      var p :| 0 <= p < |list| && list[p] == x;
      WindowReaches(list, cursor, |list|, p);
    }
  }

  /** When a call stores 0, nothing due is left iff the call took in the whole list or nothing due stands before its window. */
  lemma CoveredIff(st: ScanState, due: set<InvoiceId>, limit: nat)
    requires NoDup(st.list) && limit >= 1 && Scan(st, due, limit).cursor == 0
    ensures var n := |st.list|;
      Pending(Scan(st, due, limit), due) == {} <==> limit >= n || forall i :: 0 <= i < n - limit ==> st.list[i] !in due
  {
    hide Scan;
    var n, st' := |st.list|, Scan(st, due, limit);
    ScanMembers(st, due, limit);
    ScanCursor(st, due, limit);
    WrapsIff(st, limit);
    if limit >= n {
      if n > 0 {
        WholeWindow(st.list, NormalizeCursor(st.cursor, n));
      }
      assert forall x :: x !in Pending(st', due);
    } else {
      var cut := n - limit;
      WindowIsSlice(st.list, cut, limit);
      assert Visited(st, limit) == st.list[cut..];
      forall i | 0 <= i < cut ensures st.list[i] in Pending(st', due) <==> st.list[i] in due {
        assert st.list[i] !in st.list[cut..];
      }
      forall i | cut <= i < n ensures st.list[i] in Visited(st, limit) {
        assert st.list[cut..][i - cut] == st.list[i];
      }
    }
  }

  lemma ScanCursor(st: ScanState, due: set<InvoiceId>, limit: nat)
    ensures Scan(st, due, limit).cursor == NextCursor(st, limit)
  {
  }

  /** Whatever earlier calls have stored and whatever is due: a call that stores 0 leaves nothing due. */
  ghost predicate WrapMeansCoverage(list: seq<InvoiceId>, limit: nat) {
    forall cursor: nat, due: set<InvoiceId> ::
      var st' := Scan(ScanState(list, cursor), due, limit); st'.cursor == 0 ==> Pending(st', due) == {}
  }

  /** A cursor and a due entry with which a wrap leaves the entry behind. */
  lemma MissedEntry(list: seq<InvoiceId>, limit: nat)
    requires NoDup(list) && 1 <= limit < |list|
    ensures var st' := Scan(ScanState(list, |list| - limit), {list[0]}, limit);
      st'.cursor == 0 && list[0] in Pending(st', {list[0]})
  {
    hide Scan;
    var st, due := ScanState(list, |list| - limit), {list[0]};
    WrapsIff(st, limit);
    ScanCursor(st, due, limit);
    CoveredIff(st, due, limit);
    assert list[0] in due;
    ScanMembers(st, due, limit);
  }

  /** A wrap means coverage exactly when one call takes in the whole list. */
  lemma WrapMeansCoverageIff(list: seq<InvoiceId>, limit: nat)
    requires NoDup(list) && limit >= 1
    ensures WrapMeansCoverage(list, limit) <==> limit >= |list|
  {
    hide Scan, Pending;
    if limit >= |list| {
      forall cursor: nat, due: set<InvoiceId> | Scan(ScanState(list, cursor), due, limit).cursor == 0
        ensures Pending(Scan(ScanState(list, cursor), due, limit), due) == {}
      {
        CoveredIff(ScanState(list, cursor), due, limit);
      }
    } else {
      MissedEntry(list, limit);
      assert Pending(Scan(ScanState(list, |list| - limit), {list[0]}, limit), {list[0]}) != {};
    }
  }

  /* ---- whether the cursor wraps at all ---- */

  /** With nothing due, the cursor moves on by the limit, modulo the length. */
  lemma {:induction false} QuietScans(st: ScanState, due: set<InvoiceId>, limit: nat, calls: nat)
    requires Pending(st, due) == {} && limit < |st.list| && st.cursor < |st.list|
    ensures Scans(st, due, limit, calls) == ScanState(st.list, Place(st.cursor, limit, |st.list|, calls))
    decreases calls
  {
    hide Scan, Pending;
    var n := |st.list|;
    if calls > 0 {
      QuietScan(st, due, limit);
      var st' := Scan(st, due, limit);
      QuietScans(st', due, limit, calls - 1);
      ModPlus(st.cursor + limit, (calls - 1) * limit, n);
      assert (calls - 1) * limit == calls * limit - limit;
    } else {
      assert calls * limit == 0;
      assert st.cursor % n == st.cursor;
    }
  }

  lemma QuietScan(st: ScanState, due: set<InvoiceId>, limit: nat)
    requires Pending(st, due) == {} && limit < |st.list| && st.cursor < |st.list|
    ensures Scan(st, due, limit) == ScanState(st.list, (st.cursor + limit) % |st.list|)
    ensures Pending(Scan(st, due, limit), due) == {}
  {
    hide Scan, NextCursor;
    VisitedListed(st, limit);
    forall x | x in st.list ensures x !in due {
      assert x !in Pending(st, due);
    }
    MissedScan(st, due, limit);
  }

  /** A call that finds nothing due only moves the cursor. */
  lemma MissedScan(st: ScanState, due: set<InvoiceId>, limit: nat)
    requires limit < |st.list| && st.cursor < |st.list| && forall x :: x in Visited(st, limit) ==> x !in due
    ensures Scan(st, due, limit) == ScanState(st.list, (st.cursor + limit) % |st.list|)
  {
    FilterAll(st.list, set x | x in st.list && !(x in Visited(st, limit) && x in due));
    AdvanceIsModular(st.cursor, |st.list|, limit);
  }

  /** A remainder can be taken before a sum is completed. */
  lemma ModPlus(x: nat, y: nat, n: nat)
    requires n > 0
    ensures (x % n + y) % n == (x + y) % n
  {
    var q := x / n;
    assert x + y == (x % n + y) + n * q;
    ModMultiple(x % n + y, q, n);
  }

  lemma {:induction false} ModMultiple(x: nat, q: nat, n: nat)
    requires n > 0
    ensures (x + n * q) % n == x % n
    decreases q
  {
    if q > 0 {
      ModMultiple(x, q - 1, n);
      assert x + n * q == n + (x + n * (q - 1));
      FullTurn(x + n * (q - 1), n);
    }
  }

  function Gcd(a: nat, b: nat): (g: nat)
    ensures a > 0 || b > 0 ==> g > 0
    decreases b
  {
    if b == 0 then a else Gcd(b, a % b)
  }

  /** The greatest common divisor divides both, and is a combination of both. */
  lemma {:induction false} GcdFacts(a: nat, b: nat) returns (u: nat, w: nat, x: int, y: int)
    requires a > 0
    ensures var g := Gcd(a, b); a == g * u && b == g * w && a * x + b * y == g
    decreases b
  {
    if b == 0 {
      u, w, x, y := 1, 0, 1, 0;
    } else {
      var q, r, g := a / b, a % b, Gcd(a, b);
      assert a == b * q + r;
      var u', w', x', y' := GcdFacts(b, r);
      u, w, x, y := u' * q + w', u', y', x' - q * y';
      Recombine(a, b, q, r, g, u', w', x', y');
    }
  }

  lemma Recombine(a: nat, b: nat, q: nat, r: nat, g: nat, u: nat, w: nat, x: int, y: int)
    requires a == b * q + r && b == g * u && r == g * w && b * x + r * y == g
    ensures a == g * (u * q + w) && a * y + b * (x - q * y) == g
  {
    assert b * q == g * u * q == g * (u * q);
    assert a * y == b * q * y + r * y;
    assert b * (x - q * y) == b * x - b * q * y;
  }

  /** After `t` steps of `limit` around `n` places, from `c`. */
  function Place(c: nat, limit: nat, n: nat, t: nat): nat
    requires n > 0
  {
    (c + t * limit) % n
  }

  lemma DividesIfReached(c: nat, limit: nat, n: nat, t: nat)
    requires limit >= 1 && n >= 1 && Place(c, limit, n, t) == 0
    ensures c % Gcd(limit, n) == 0
  {
    hide Gcd;
    var u, w, _, _ := GcdFacts(limit, n);
    var m := (c + t * limit) / n;
    assert c + t * limit == n * m;
    DivisorOfDifference(c, t, limit, n, m, Gcd(limit, n), u, w);
  }

  lemma ReachedIfDivides(c: nat, limit: nat, n: nat) returns (t: nat)
    requires limit >= 1 && n >= 1 && c % Gcd(limit, n) == 0
    ensures t >= 1 && Place(c, limit, n, t) == 0
  {
    hide Gcd;
    var _, _, x, y := GcdFacts(limit, n);
    var g := Gcd(limit, n);
    var m := c / g;
    assert c == g * m;
    t := StepsToZero(c, limit, n, g, m, x, y);
  }

  /** Steps of `limit` around `n` places reach 0 from `c` iff the common divisor of both divides `c`. */
  lemma ReachesZeroIff(c: nat, limit: nat, n: nat)
    requires limit >= 1 && n >= 1
    ensures (exists t: nat :: t >= 1 && Place(c, limit, n, t) == 0) <==> c % Gcd(limit, n) == 0
  {
    hide Gcd, Place;
    if t: nat :| t >= 1 && Place(c, limit, n, t) == 0 {
      DividesIfReached(c, limit, n, t);
    }
    if c % Gcd(limit, n) == 0 {
      var t := ReachedIfDivides(c, limit, n);
    }
  }

  lemma DivisorOfDifference(c: nat, t: nat, limit: nat, n: nat, m: nat, g: nat, u: nat, w: nat)
    requires c + t * limit == n * m && limit == g * u && n == g * w && g > 0
    ensures c % g == 0
  {
    assert t * limit == g * (t * u) && n * m == g * (w * m);
    var z := w * m - t * u;
    assert c == g * z by {
      assert g * z == g * (w * m) - g * (t * u);
    }
    SignOf(g, z);
    ModIs(c, g, z, 0);
  }

  lemma SignOf(g: nat, z: int)
    requires g > 0 && g * z >= 0
    ensures z >= 0
  {
  }

  lemma StepsToZero(c: nat, limit: nat, n: nat, g: nat, m: nat, x: int, y: int) returns (t: nat)
    requires c == g * m && limit * x + n * y == g && n >= 1 && limit >= 1
    ensures t >= 1 && (c + t * limit) % n == 0
  {
    var turns := Max(m * x, 0) + 1;
    MulLe(turns, 1, n);
    t := turns * n - m * x;
    var z := m * y + turns * limit;
    StepsLand(c, limit, n, g, m, x, y, turns);
    assert t * limit >= 0;
    SignOf(n, z);
    ModIs(c + t * limit, n, z, 0);
  }

  lemma StepsLand(c: nat, limit: nat, n: nat, g: nat, m: nat, x: int, y: int, turns: nat)
    requires c == g * m && limit * x + n * y == g
    ensures c + (turns * n - m * x) * limit == n * (m * y + turns * limit)
  {
    assert c == m * (limit * x + n * y) == m * (limit * x) + m * (n * y);
    assert m * (limit * x) == m * x * limit && m * (n * y) == n * (m * y);
    assert (turns * n - m * x) * limit == turns * n * limit - m * x * limit;
    assert turns * n * limit == n * (turns * limit);
  }

  /** The call numbered `calls`, counting from one, stores 0. */
  predicate WrapsAfter(st: ScanState, due: set<InvoiceId>, limit: nat, calls: nat) {
    calls >= 1 && Scans(st, due, limit, calls).cursor == 0
  }

  /**
    Once nothing is due, scanning until the cursor wraps ends exactly when the limit takes in the whole list or
    its common divisor with the length divides the stored cursor; otherwise it goes on for ever.
   */
  lemma WrapsEventuallyIff(st: ScanState, due: set<InvoiceId>, limit: nat)
    requires Pending(st, due) == {} && limit >= 1
    ensures (exists calls :: WrapsAfter(st, due, limit, calls))
       <==> limit >= |st.list| || NormalizeCursor(st.cursor, |st.list|) % Gcd(limit, |st.list|) == 0
  {
    hide Gcd, Scan, Place, NormalizeCursor, Pending;
    var n := |st.list|;
    if limit >= n {
      assert WrapsAfter(st, due, limit, 1) by {
        ScanCursor(st, due, limit);
        assert Scans(Scan(st, due, limit), due, limit, 0) == Scan(st, due, limit);
      }
    } else {
      var c := NormalizeCursor(st.cursor, n);
      Normalized(st, due, limit);
      ReachesZeroIff(c, limit, n);
      forall calls: nat | calls >= 1 ensures Scans(st, due, limit, calls).cursor == Place(c, limit, n, calls) {
        StaleCursor(st, due, limit, calls);
        QuietScans(ScanState(st.list, c), due, limit, calls);
      }
      if t: nat :| t >= 1 && Place(c, limit, n, t) == 0 {
        assert WrapsAfter(st, due, limit, t);
      }
    }
  }

  lemma Normalized(st: ScanState, due: set<InvoiceId>, limit: nat)
    requires |st.list| > 0
    ensures NormalizeCursor(st.cursor, |st.list|) < |st.list|
    ensures Pending(ScanState(st.list, NormalizeCursor(st.cursor, |st.list|)), due) == Pending(st, due)
  {
  }

  /** A call reads a stored cursor past the end as 0, so the first call and all after it do the same from there. */
  lemma StaleCursor(st: ScanState, due: set<InvoiceId>, limit: nat, calls: nat)
    requires |st.list| > 0 && calls >= 1
    ensures Scans(st, due, limit, calls)
         == Scans(ScanState(st.list, NormalizeCursor(st.cursor, |st.list|)), due, limit, calls)
  {
    hide Window, Advance, Filter;
    assert Scan(st, due, limit) == Scan(ScanState(st.list, NormalizeCursor(st.cursor, |st.list|)), due, limit);
  }

  /* ---- a loop that never ends ---- */

  lemma {:induction false} AfterThree(st: ScanState, due: set<InvoiceId>, limit: nat, calls: nat)
    requires calls >= 3
    ensures Scans(st, due, limit, calls)
         == Scans(Scan(Scan(Scan(st, due, limit), due, limit), due, limit), due, limit, calls - 3)
  {
    hide Scan;
    var st1 := Scan(st, due, limit);
    assert Scans(st, due, limit, calls) == Scans(st1, due, limit, calls - 1);
    assert Scans(st1, due, limit, calls - 1) == Scans(Scan(st1, due, limit), due, limit, calls - 2);
  }

  /**
    The third call removes the one due entry and leaves four entries with an odd cursor; steps of two never bring
    that back to 0.
   */
  lemma LoopThatNeverEnds(calls: nat)
    ensures !WrapsAfter(ScanState([1, 2, 3, 4, 5], 0), {5}, 2, calls)
  {
    hide Scan;
    var list, due := [1, 2, 3, 4, 5], {5};
    var st0, st1, st2, st3 := ScanState(list, 0), ScanState(list, 2), ScanState(list, 4), ScanState([1, 2, 3, 4], 1);
    WindowIsSlice(list, 0, 2);
    MissedScan(st0, due, 2);
    WindowIsSlice(list, 2, 2);
    MissedScan(st1, due, 2);
    LastIsRemoved();
    FirstCalls(st0, due, 2);
    if calls > 3 {
      AfterThree(st0, due, 2, calls);
      assert !WrapsAfter(st3, due, 2, calls - 3) by {
        assert Gcd(2, 4) == Gcd(4, 2) == Gcd(2, 0) == 2;
        WrapsEventuallyIff(st3, due, 2);
      }
    }
  }

  lemma FirstCalls(st: ScanState, due: set<InvoiceId>, limit: nat)
    ensures Scans(st, due, limit, 1) == Scan(st, due, limit)
    ensures Scans(st, due, limit, 2) == Scan(Scan(st, due, limit), due, limit)
    ensures Scans(st, due, limit, 3) == Scan(Scan(Scan(st, due, limit), due, limit), due, limit)
  {
    hide Scan;
    var st1, st2 := Scan(st, due, limit), Scan(Scan(st, due, limit), due, limit);
    assert Scans(st1, due, limit, 0) == st1 && Scans(st2, due, limit, 0) == st2;
    assert Scans(st1, due, limit, 1) == Scans(st2, due, limit, 0);
    assert Scans(st1, due, limit, 2) == Scans(st2, due, limit, 1);
    assert Scans(st2, due, limit, 1) == Scans(Scan(st2, due, limit), due, limit, 0);
  }

  lemma LastIsRemoved()
    ensures Scan(ScanState([1, 2, 3, 4, 5], 4), {5}, 2) == ScanState([1, 2, 3, 4], 1)
  {
    var list, due := [1, 2, 3, 4, 5], {5};
    var st := ScanState(list, 4);
    assert Visited(st, 2) == [5, 1] by {
      assert Window(list, 4, 2) == [5] + Window(list, 0, 1);
      assert Window(list, 0, 1) == [1] + Window(list, 1, 0);
    }
    hide Window, Visited, Filter;
    var stay := set x | x in list && !(x in Visited(st, 2) && x in due);
    DropLast([1, 2, 3, 4], 5, stay);
    assert list == [1, 2, 3, 4] + [5];
    assert Scan(st, due, 2).list == Filter(list, stay);
    AdvanceIsModular(4, 5, 2);
  }

  lemma DropLast(xs: seq<InvoiceId>, x: InvoiceId, stay: set<InvoiceId>)
    requires x !in stay && forall y :: y in xs ==> y in stay
    ensures Filter(xs + [x], stay) == xs
  {
    FilterAppend(xs, x, stay);
    FilterAll(xs, stay);
  }
}
