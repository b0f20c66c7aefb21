/** The index lists the contract keeps in storage: append-if-absent, remove-first, filter. */
module Lists {

  ghost predicate NoDup<T>(xs: seq<T>) {
    forall i, j :: 0 <= i < j < |xs| ==> xs[i] != xs[j]
  }

  /** Append unless already present. */
  function AddUnique<T(==)>(xs: seq<T>, x: T): seq<T> {
    if x in xs then xs else xs + [x]
  }

  /** Remove the first occurrence, if any. */
  function RemoveFirst<T(==)>(xs: seq<T>, x: T): seq<T> {
    if |xs| == 0 then []
    else if xs[0] == x then xs[1..]
    else [xs[0]] + RemoveFirst(xs[1..], x)
  }

  /** The entries that belong to `keep`, in order. */
  function Filter<T(==)>(xs: seq<T>, keep: set<T>): seq<T> {
    if |xs| == 0 then []
    else if xs[|xs| - 1] in keep then Filter(xs[..|xs| - 1], keep) + [xs[|xs| - 1]]
    else Filter(xs[..|xs| - 1], keep)
  }

  lemma FilterNone<T>(keep: set<T>)
    ensures Filter([], keep) == []
  {
  }

  lemma {:induction false} FilterNothing<T>(xs: seq<T>, keep: set<T>)
    requires forall x :: x in xs ==> x !in keep
    ensures Filter(xs, keep) == []
  {
    if |xs| > 0 {
      assert xs[|xs| - 1] in xs;
      FilterNothing(xs[..|xs| - 1], keep);
    }
  }

  lemma {:induction false} FilterMembers<T>(xs: seq<T>, keep: set<T>)
    ensures forall x :: x in Filter(xs, keep) <==> x in xs && x in keep
  {
    if |xs| > 0 {
      var front, last := xs[..|xs| - 1], xs[|xs| - 1];
      FilterMembers(front, keep);
      assert xs == front + [last];
    }
  }

  lemma {:induction false} FilterShorter<T>(xs: seq<T>, keep: set<T>)
    ensures |Filter(xs, keep)| <= |xs|
  {
    if |xs| > 0 {
      FilterShorter(xs[..|xs| - 1], keep);
    }
  }

  lemma {:induction false} FilterNoDup<T>(xs: seq<T>, keep: set<T>)
    requires NoDup(xs)
    ensures NoDup(Filter(xs, keep))
  {
    if |xs| > 0 {
      var front, last := xs[..|xs| - 1], xs[|xs| - 1];
      FilterNoDup(front, keep);
      FilterMembers(front, keep);
      assert last !in Filter(front, keep);
    }
  }

  lemma FilterAppend<T>(xs: seq<T>, x: T, keep: set<T>)
    ensures Filter(xs + [x], keep) == Filter(xs, keep) + if x in keep then [x] else []
  {
    assert (xs + [x])[..|xs|] == xs;
  }

  lemma {:induction false} FilterConcat<T>(xs: seq<T>, ys: seq<T>, keep: set<T>)
    ensures Filter(xs + ys, keep) == Filter(xs, keep) + Filter(ys, keep)
  {
    if |ys| == 0 {
      assert xs + ys == xs;
    } else {
      var front, last := ys[..|ys| - 1], ys[|ys| - 1];
      FilterConcat(xs, front, keep);
      assert ys == front + [last] && xs + ys == (xs + front) + [last];
      FilterAppend(xs + front, last, keep);
    }
  }

  lemma {:induction false} FilterAll<T>(xs: seq<T>, keep: set<T>)
    ensures (forall x :: x in xs ==> x in keep) <==> Filter(xs, keep) == xs
    ensures (forall x :: x in xs ==> x in keep) <==> |Filter(xs, keep)| == |xs|
  {
    if |xs| > 0 {
      var front, last := xs[..|xs| - 1], xs[|xs| - 1];
      FilterAll(front, keep);
      FilterShorter(front, keep);
      assert xs == front + [last];
    }
  }

  /** Filtering only depends on which members are kept. */
  lemma {:induction false} FilterSame<T>(xs: seq<T>, keep: set<T>, keep': set<T>)
    requires forall x :: x in xs ==> (x in keep <==> x in keep')
    ensures Filter(xs, keep) == Filter(xs, keep')
  {
    if |xs| > 0 {
      assert xs[|xs| - 1] in xs;
      FilterSame(xs[..|xs| - 1], keep, keep');
    }
  }

  lemma {:induction false} FilterTwice<T>(xs: seq<T>, f: set<T>, g: set<T>)
    ensures Filter(Filter(xs, f), g) == Filter(xs, f * g)
  {
    if |xs| > 0 {
      var front, last := xs[..|xs| - 1], xs[|xs| - 1];
      FilterTwice(front, f, g);
      if last in f {
        FilterAppend(Filter(front, f), last, g);
      }
    }
  }

  /** Removing the first occurrence from a duplicate-free list drops exactly that entry. */
  lemma {:induction false} RemoveFirstDrops<T>(xs: seq<T>, x: T)
    requires NoDup(xs)
    ensures forall y :: y in RemoveFirst(xs, x) <==> y in xs && y != x
    ensures NoDup(RemoveFirst(xs, x))
    ensures x !in xs ==> RemoveFirst(xs, x) == xs
  {
    if |xs| > 0 {
      var tail := xs[1..];
      assert xs == [xs[0]] + tail;
      assert xs[0] !in tail;
      if xs[0] != x {
        RemoveFirstDrops(tail, x);
      }
    }
  }

  /** On a duplicate-free list, removing the first occurrence is filtering the entry out. */
  lemma {:induction false} RemoveFirstIsFilter<T>(xs: seq<T>, x: T, keep: set<T>)
    requires NoDup(xs)
    requires forall y :: y in xs ==> (y in keep <==> y != x)
    ensures RemoveFirst(xs, x) == Filter(xs, keep)
  {
    if |xs| > 0 {
      var tail := xs[1..];
      assert xs == [xs[0]] + tail;
      assert forall y :: y in xs <==> y == xs[0] || y in tail;
      FilterConcat([xs[0]], tail, keep);
      if xs[0] == x {
        assert x !in tail;
        FilterAll(tail, keep);
      } else {
        RemoveFirstIsFilter(tail, x, keep);
      }
    }
  }

  /** A duplicate-free list has as many kept entries as there are kept members. */
  lemma {:induction false} FilterCounts<T>(xs: seq<T>, keep: set<T>, members: set<T>)
    requires NoDup(xs)
    requires forall x :: x in members <==> x in xs && x in keep
    ensures |Filter(xs, keep)| == |members|
  {
    if |xs| > 0 {
      var front, last := xs[..|xs| - 1], xs[|xs| - 1];
      assert xs == front + [last];
      assert last !in front;
      FilterCounts(front, keep, members - {last});
    } else {
      assert members == {};
    }
  }

  lemma SubsetCard<T>(a: set<T>, b: set<T>)
    requires a <= b
    ensures |a| <= |b|
  {
    assert b == a + (b - a);
  }
}
