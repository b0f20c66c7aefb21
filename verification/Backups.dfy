/** Backup retention (`backup.rs`): an in-place bubble sort by age, then two purges. */
module Backups {
  import opened Base
  import opened Lists

  type BackupId = nat

  datatype BackupStatus = Active | Archived | Corrupted

  datatype Backup = Backup(timestamp: nat, status: BackupStatus)

  datatype RetentionPolicy = RetentionPolicy(maxBackups: u32, maxAgeSeconds: u64, autoCleanup: bool)

  /** A backup and its timestamp, as the cleanup sorts them. */
  datatype Pair = Pair(id: BackupId, time: nat)

  /** The store with its counter, its policy and the ledger time. */
  datatype Vault = Vault(store: Store, count: nat, policy: RetentionPolicy, now: nat)

  /** The records, their payloads, and the global list. */
  datatype Store = Store(backups: map<BackupId, Backup>, payloads: map<BackupId, seq<nat>>, list: seq<BackupId>)

  /** The Active backups of the list, in list order. */
  function ActivePairs(backups: map<BackupId, Backup>, list: seq<BackupId>): seq<Pair> {
    if |list| == 0 then []
    else
      var last := list[|list| - 1];
      if last in backups && backups[last].status == Active
      then ActivePairs(backups, list[..|list| - 1]) + [Pair(last, backups[last].timestamp)]
      else ActivePairs(backups, list[..|list| - 1])
  }

  /* ---- the sort ---- */

  ghost predicate Sorted(s: seq<Pair>) { forall i, j :: 0 <= i < j < |s| ==> s[i].time <= s[j].time }

  /** The entries of one timestamp, in order. */
  function AtTime(s: seq<Pair>, t: nat): seq<Pair> {
    if |s| == 0 then []
    else if s[|s| - 1].time == t then AtTime(s[..|s| - 1], t) + [s[|s| - 1]]
    else AtTime(s[..|s| - 1], t)
  }

  /** The same entries, those of equal timestamps still in the same order. */
  ghost predicate SameEntries(r: seq<Pair>, s: seq<Pair>) {
    multiset(r) == multiset(s) && forall t :: AtTime(r, t) == AtTime(s, t)
  }

  /** Insert behind every entry that is not younger. */
  function Insert(s: seq<Pair>, p: Pair): seq<Pair> {
    if |s| == 0 || s[|s| - 1].time <= p.time then s + [p]
    else Insert(s[..|s| - 1], p) + [s[|s| - 1]]
  }

  /** The oldest first, list order among equals. */
  function OldestFirst(s: seq<Pair>): seq<Pair> {
    if |s| == 0 then [] else Insert(OldestFirst(s[..|s| - 1]), s[|s| - 1])
  }

  lemma {:induction false} AtTimeConcat(r: seq<Pair>, s: seq<Pair>, t: nat)
    ensures AtTime(r + s, t) == AtTime(r, t) + AtTime(s, t)
  {
    if |s| == 0 {
      assert r + s == r;
    } else {
      AtTimeConcat(r, s[..|s| - 1], t);
      assert (r + s)[..|r + s| - 1] == r + s[..|s| - 1];
    }
  }

  lemma AtTimeOne(p: Pair, t: nat)
    ensures AtTime([p], t) == if p.time == t then [p] else []
  {
    assert [p][..0] == [];
    assert AtTime([p][..0], t) == [];
  }

  /** Neighbours of different timestamps can be read in either order. */
  lemma NeighboursAtTime(front: seq<Pair>, x: Pair, y: Pair, back: seq<Pair>, t: nat)
    requires x.time != y.time
    ensures AtTime(front + [x, y] + back, t) == AtTime(front + [y, x] + back, t)
  {
    hide AtTime;
    AtTimeConcat(front + [x, y], back, t);
    AtTimeConcat(front, [x, y], t);
    AtTimeConcat([x], [y], t);
    AtTimeConcat(front + [y, x], back, t);
    AtTimeConcat(front, [y, x], t);
    AtTimeConcat([y], [x], t);
    AtTimeOne(x, t);
    AtTimeOne(y, t);
    assert [x] + [y] == [x, y] && [y] + [x] == [y, x];
  }

  /** Swapping neighbours of different timestamps keeps every entry and every order among equals. */
  lemma SwapKeepsEntries(s: seq<Pair>, j: nat)
    requires j + 1 < |s| && s[j].time != s[j + 1].time
    ensures SameEntries(s[j := s[j + 1]][j + 1 := s[j]], s)
  {
    hide AtTime;
    var r := s[j := s[j + 1]][j + 1 := s[j]];
    assert s == s[..j] + [s[j], s[j + 1]] + s[j + 2..];
    assert r == s[..j] + [s[j + 1], s[j]] + s[j + 2..];
    forall t ensures AtTime(r, t) == AtTime(s, t) {
      NeighboursAtTime(s[..j], s[j], s[j + 1], s[j + 2..], t);
    }
  }

  lemma {:induction false} InsertMembers(s: seq<Pair>, p: Pair)
    ensures multiset(Insert(s, p)) == multiset(s) + multiset{p}
    ensures forall x :: x in Insert(s, p) <==> x in s || x == p
  {
    if |s| > 0 && s[|s| - 1].time > p.time {
      var front, last := s[..|s| - 1], s[|s| - 1];
      InsertMembers(front, p);
      assert s == front + [last];
    }
  }

  lemma {:induction false} InsertSorted(s: seq<Pair>, p: Pair)
    requires Sorted(s)
    ensures Sorted(Insert(s, p))
  {
    if |s| > 0 && s[|s| - 1].time > p.time {
      var front, last := s[..|s| - 1], s[|s| - 1];
      InsertSorted(front, p);
      InsertMembers(front, p);
      forall x | x in Insert(front, p) ensures x.time <= last.time {
        if x in front {
          var i :| 0 <= i < |front| && front[i] == x;
          assert s[i] == x;
        }
      }
    }
  }

  lemma {:induction false} InsertAtTime(s: seq<Pair>, p: Pair, t: nat)
    ensures AtTime(Insert(s, p), t) == AtTime(s + [p], t)
  {
    if |s| > 0 && s[|s| - 1].time > p.time {
      var front, last := s[..|s| - 1], s[|s| - 1];
      InsertAtTime(front, p, t);
      AtTimeConcat(Insert(front, p), [last], t);
      AtTimeConcat(front + [p], [last], t);
      NeighboursAtTime(front, last, p, [], t);
      assert front + [last, p] + [] == s + [p];
      assert front + [p, last] + [] == front + [p] + [last];
    }
  }

  lemma InsertKeepsEntries(s: seq<Pair>, p: Pair)
    requires Sorted(s)
    ensures Sorted(Insert(s, p)) && SameEntries(Insert(s, p), s + [p])
  {
    InsertSorted(s, p);
    InsertMembers(s, p);
    forall t ensures AtTime(Insert(s, p), t) == AtTime(s + [p], t) {
      InsertAtTime(s, p, t);
    }
  }

  /** `OldestFirst` is a stable sort. */
  lemma {:induction false} OldestFirstSorts(s: seq<Pair>)
    ensures Sorted(OldestFirst(s)) && SameEntries(OldestFirst(s), s)
  {
    if |s| > 0 {
      var front, last := s[..|s| - 1], s[|s| - 1];
      OldestFirstSorts(front);
      InsertKeepsEntries(OldestFirst(front), last);
      assert s == front + [last];
      forall t ensures AtTime(OldestFirst(s), t) == AtTime(s, t) {
        AtTimeConcat(OldestFirst(front), [last], t);
        AtTimeConcat(front, [last], t);
      }
    }
  }

  lemma {:induction false} NothingAtTime(s: seq<Pair>, t: nat)
    requires forall x :: x in s ==> x.time != t
    ensures AtTime(s, t) == []
  {
    if |s| > 0 {
      assert s[|s| - 1] in s;
      NothingAtTime(s[..|s| - 1], t);
    }
  }

  lemma NoneLater(s: seq<Pair>, t: nat)
    requires Sorted(s) && (|s| == 0 || s[|s| - 1].time < t)
    ensures AtTime(s, t) == []
  {
    forall x | x in s ensures x.time != t {
      var i :| 0 <= i < |s| && s[i] == x;
    }
    NothingAtTime(s, t);
  }

  lemma WithoutLast(s: seq<Pair>, t: nat)
    requires |s| > 0
    ensures var all := AtTime(s, t);
      if s[|s| - 1].time == t then |all| > 0 && AtTime(s[..|s| - 1], t) == all[..|all| - 1] && all[|all| - 1] == s[|s| - 1]
      else AtTime(s[..|s| - 1], t) == all
  {
  }

  lemma LastAgree(r: seq<Pair>, s: seq<Pair>)
    requires |r| > 0 && Sorted(r) && Sorted(s) && forall t :: AtTime(r, t) == AtTime(s, t)
    ensures |s| > 0 && s[|s| - 1] == r[|r| - 1]
  {
    var t := r[|r| - 1].time;
    WithoutLast(r, t);
    assert AtTime(s, t) == AtTime(r, t);
    if |s| > 0 && s[|s| - 1].time >= t {
      WithoutLast(s, s[|s| - 1].time);
      assert AtTime(s, s[|s| - 1].time) == AtTime(r, s[|s| - 1].time);
      if s[|s| - 1].time > t {
        NoneLater(r, s[|s| - 1].time);
      }
    } else {
      NoneLater(s, t);
    }
  }

  /** There is only one stable sort of a list. */
  lemma {:induction false} StableSortIsUnique(r: seq<Pair>, s: seq<Pair>)
    requires Sorted(r) && Sorted(s) && forall t :: AtTime(r, t) == AtTime(s, t)
    ensures r == s
    decreases |r|
  {
    if |r| == 0 {
      if |s| > 0 {
        LastAgree(s, r);
      }
    } else {
      LastAgree(r, s);
      var r', s' := r[..|r| - 1], s[..|s| - 1];
      forall t ensures AtTime(r', t) == AtTime(s', t) {
        WithoutLast(r, t);
        WithoutLast(s, t);
      }
      StableSortIsUnique(r', s');
      assert r == r' + [r[|r| - 1]] && s == s' + [s[|s| - 1]];
    }
  }

  lemma SameAsItself(s: seq<Pair>)
    ensures SameEntries(s, s)
  {
  }

  lemma SwapStep(s: seq<Pair>, original: seq<Pair>, j: nat)
    requires SameEntries(s, original) && j + 1 < |s| && s[j].time > s[j + 1].time
    ensures SameEntries(s[j := s[j + 1]][j + 1 := s[j]], original)
  {
    hide AtTime;
    SwapKeepsEntries(s, j);
  }

  /** The last `n - m` entries are in place: sorted, and none before them is younger. */
  ghost predicate Placed(s: seq<Pair>, m: int) {
    forall i, j :: 0 <= i < j < |s| && m <= j ==> s[i].time <= s[j].time
  }

  /** One inner step: the youngest of the first `j + 1` entries is at `j`. */
  ghost predicate Carried(s: seq<Pair>, j: nat)
    requires j < |s|
  {
    forall k :: 0 <= k < j ==> s[k].time <= s[j].time
  }

  lemma CarryOne(s: seq<Pair>, m: int, j: nat)
    requires j + 1 < |s| && j + 1 < m && Placed(s, m) && Carried(s, j)
    ensures s[j].time <= s[j + 1].time ==> Carried(s, j + 1)
    ensures s[j].time > s[j + 1].time ==>
      var r := s[j := s[j + 1]][j + 1 := s[j]]; Placed(r, m) && Carried(r, j + 1)
  {
  }

  /** The in-place bubble sort: oldest first, list order among equals. */
  method BubbleSort(a: array<Pair>)
    modifies a
    ensures a[..] == OldestFirst(old(a[..]))
  {
    hide SameEntries, Placed, Carried;
    var len := a.Length;
    SameAsItself(a[..]);
    NonePlaced(a[..]);
    for i := 0 to len
      invariant SameEntries(a[..], old(a[..])) && Placed(a[..], len - i)
    {
      NoneCarried(a[..]);
      for j := 0 to len - i - 1
        invariant SameEntries(a[..], old(a[..])) && Placed(a[..], len - i) && Carried(a[..], j)
      {
        ghost var s := a[..];
        CarryOne(s, len - i, j);
        if a[j].time > a[j + 1].time {
          SwapStep(s, old(a[..]), j);
          a[j], a[j + 1] := a[j + 1], a[j];
          assert a[..] == s[j := s[j + 1]][j + 1 := s[j]];
        }
      }
      OneMorePlaced(a[..], len - i);
    }
    AllPlaced(a[..], old(a[..]));
  }

  lemma NonePlaced(s: seq<Pair>)
    ensures Placed(s, |s|)
  {
  }

  lemma NoneCarried(s: seq<Pair>)
    requires |s| > 0
    ensures Carried(s, 0)
  {
  }

  lemma OneMorePlaced(s: seq<Pair>, m: int)
    requires 1 <= m <= |s| && Placed(s, m) && Carried(s, m - 1)
    ensures Placed(s, m - 1)
  {
  }

  lemma AllPlaced(s: seq<Pair>, original: seq<Pair>)
    requires Placed(s, 0) && SameEntries(s, original)
    ensures s == OldestFirst(original)
  {
    OldestFirstSorts(original);
    StableSortIsUnique(s, OldestFirst(original));
  }

  /* ---- what a cleanup keeps ---- */

  /** Past the maximum age; timestamps in the future have age 0. */
  predicate TooOld(p: Pair, now: nat, maxAge: nat) { Max(now - p.time, 0) > maxAge }

  /** What the age purge leaves; without a maximum age, everything. */
  function Young(s: seq<Pair>, now: nat, maxAge: nat): seq<Pair> {
    if |s| == 0 then []
    else if maxAge > 0 && TooOld(s[|s| - 1], now, maxAge) then Young(s[..|s| - 1], now, maxAge)
    else Young(s[..|s| - 1], now, maxAge) + [s[|s| - 1]]
  }

  /** What the count purge leaves: the last `maxBackups`; without a maximum, everything. */
  function Newest(s: seq<Pair>, maxBackups: nat): seq<Pair> {
    if maxBackups > 0 && |s| > maxBackups then s[|s| - maxBackups..] else s
  }

  function IdsIn(s: seq<Pair>): set<BackupId> { set p | p in s :: p.id }

  /** The Active backups a cleanup keeps, oldest first. */
  function Retained(st: Store, policy: RetentionPolicy, now: nat): seq<Pair> {
    Newest(Young(OldestFirst(ActivePairs(st.backups, st.list)), now, policy.maxAgeSeconds), policy.maxBackups)
  }

  function Others(list: seq<BackupId>, ids: set<BackupId>): set<BackupId> { set x | x in list && x !in ids }

  /** The store without some backups: no record, no payload, no list entry. */
  function Without(st: Store, ids: set<BackupId>): Store {
    Store(st.backups - ids, st.payloads - ids, Filter(st.list, Others(st.list, ids)))
  }

  /** A cleanup removes every Active backup that is not retained, and nothing else. */
  function CleanedUp(st: Store, policy: RetentionPolicy, now: nat): Store {
    Without(st, IdsIn(ActivePairs(st.backups, st.list)) - IdsIn(Retained(st, policy, now)))
  }

  lemma {:induction false} ActivePairsMembers(backups: map<BackupId, Backup>, list: seq<BackupId>)
    ensures forall p :: p in ActivePairs(backups, list) <==>
              (p.id in list && p.id in backups && backups[p.id].status == Active && p.time == backups[p.id].timestamp)
    ensures NoDup(list) ==> NoDup(ActivePairs(backups, list))
  {
    if |list| > 0 {
      var front, last := list[..|list| - 1], list[|list| - 1];
      ActivePairsMembers(backups, front);
      assert list == front + [last];
      if NoDup(list) {
        assert last !in front;
      }
    }
  }

  lemma {:induction false} YoungMembers(s: seq<Pair>, now: nat, maxAge: nat)
    ensures forall p :: p in Young(s, now, maxAge) <==> p in s && !(maxAge > 0 && TooOld(p, now, maxAge))
    ensures |Young(s, now, maxAge)| <= |s|
  {
    if |s| > 0 {
      YoungMembers(s[..|s| - 1], now, maxAge);
      assert s == s[..|s| - 1] + [s[|s| - 1]];
    }
  }

  /** `a` stands somewhere in front of `b`. */
  ghost predicate Before<T(!new)>(s: seq<T>, a: T, b: T) { exists j :: 0 <= j < |s| && s[j] == b && a in s[..j] }

  lemma BeforeAppend<T(!new)>(s: seq<T>, x: T, a: T, b: T)
    ensures Before(s + [x], a, b) <==> Before(s, a, b) || (x == b && a in s)
  {
    var r := s + [x];
    assert r[..|s|] == s;
    if Before(r, a, b) {
      var j :| 0 <= j < |r| && r[j] == b && a in r[..j];
      assert j < |s| ==> r[..j] == s[..j];
    }
    if Before(s, a, b) {
      var j :| 0 <= j < |s| && s[j] == b && a in s[..j];
      assert r[..j] == s[..j] && r[j] == b;
    }
    if x == b && a in s {
      assert r[|s|] == b;
    }
  }

  /** The age purge keeps the order. */
  lemma {:induction false} BeforeAmongYoung(s: seq<Pair>, now: nat, maxAge: nat, a: Pair, b: Pair)
    requires Before(Young(s, now, maxAge), a, b)
    ensures Before(s, a, b)
  {
    hide Before, TooOld;
    NothingBefore(a, b);
    if |s| > 0 {
      var front, last := s[..|s| - 1], s[|s| - 1];
      assert s == front + [last];
      BeforeAppend(front, last, a, b);
      BeforeAppend(Young(front, now, maxAge), last, a, b);
      YoungMembers(front, now, maxAge);
      if Before(Young(front, now, maxAge), a, b) {
        BeforeAmongYoung(front, now, maxAge, a, b);
      }
    }
  }

  lemma NothingBefore<T(!new)>(a: T, b: T)
    ensures !Before([], a, b)
  {
  }

  /** The order of two entries of one timestamp can be read off the entries of that timestamp. */
  lemma {:induction false} BeforeAtTime(s: seq<Pair>, a: Pair, b: Pair)
    requires a.time == b.time
    ensures Before(AtTime(s, a.time), a, b) <==> Before(s, a, b)
    ensures a in AtTime(s, a.time) <==> a in s
  {
    hide Before;
    if |s| > 0 {
      var front, last := s[..|s| - 1], s[|s| - 1];
      assert s == front + [last];
      BeforeAtTime(front, a, b);
      BeforeAppend(front, last, a, b);
      BeforeAppend(AtTime(front, a.time), last, a, b);
    }
  }

  /** The pairs stand in the order of the backup list. */
  lemma {:induction false} BeforeInList(backups: map<BackupId, Backup>, list: seq<BackupId>, a: Pair, b: Pair)
    requires Before(ActivePairs(backups, list), a, b)
    ensures Before(list, a.id, b.id)
  {
    hide Before;
    NothingBefore(a, b);
    if |list| > 0 {
      var front, last := list[..|list| - 1], list[|list| - 1];
      assert list == front + [last];
      ActivePairsMembers(backups, front);
      BeforeAppend(front, last, a.id, b.id);
      if last in backups {
        BeforeAppend(ActivePairs(backups, front), Pair(last, backups[last].timestamp), a, b);
      }
      if Before(ActivePairs(backups, front), a, b) {
        BeforeInList(backups, front, a, b);
      }
    }
  }

  /** The sort does not change how many entries are not over age. */
  lemma {:induction false} YoungCounts(s: seq<Pair>, now: nat, maxAge: nat)
    ensures forall p :: multiset(Young(s, now, maxAge))[p]
                        == if maxAge > 0 && TooOld(p, now, maxAge) then 0 else multiset(s)[p]
  {
    hide TooOld;
    if |s| > 0 {
      YoungCounts(s[..|s| - 1], now, maxAge);
      assert s == s[..|s| - 1] + [s[|s| - 1]];
    }
  }

  lemma YoungOfSame(r: seq<Pair>, s: seq<Pair>, now: nat, maxAge: nat)
    requires multiset(r) == multiset(s)
    ensures multiset(Young(r, now, maxAge)) == multiset(Young(s, now, maxAge))
    ensures |Young(r, now, maxAge)| == |Young(s, now, maxAge)|
  {
    hide Young, TooOld;
    YoungCounts(r, now, maxAge);
    YoungCounts(s, now, maxAge);
    assert multiset(Young(r, now, maxAge)) == multiset(Young(s, now, maxAge));
    assert |multiset(Young(r, now, maxAge))| == |multiset(Young(s, now, maxAge))|;
  }

  /** The count purge keeps as many as it may, and drops only what stands in front of everything it keeps. */
  lemma NewestAreLast(young: seq<Pair>, maxBackups: nat)
    requires NoDup(young)
    ensures var kept := Newest(young, maxBackups);
      && |kept| == (if maxBackups == 0 then |young| else Min(maxBackups, |young|))
      && NoDup(kept) && (forall p :: p in kept ==> p in young)
      && (forall q :: q in young && q !in kept ==> maxBackups > 0 && |kept| == maxBackups)
      && (forall p, q :: p in kept && q in young && q !in kept ==> Before(young, q, p))
  {
    var kept := Newest(young, maxBackups);
    var cut := |young| - |kept|;
    assert kept == young[cut..];
    forall k | cut <= k < |young| ensures young[k] in kept {
      assert kept[k - cut] == young[k];
    }
    forall p, q | p in kept && q in young && q !in kept ensures Before(young, q, p) {
      var i :| 0 <= i < |kept| && kept[i] == p;
      var j :| 0 <= j < |young| && young[j] == q;
      assert young[cut + i] == p && young[..cut + i][j] == q;
    }
  }

  lemma SortedBefore(s: seq<Pair>, a: Pair, b: Pair)
    requires Sorted(s) && Before(s, a, b)
    ensures a.time <= b.time
  {
    var j :| 0 <= j < |s| && s[j] == b && a in s[..j];
    var i :| 0 <= i < j && s[i] == a;
  }

  /** Of two entries in the order of a stable sort, the second is newer, or as new and behind the first in the list. */
  lemma SortedOrder(st: Store, now: nat, maxAge: nat, q: Pair, p: Pair)
    requires Before(Young(OldestFirst(ActivePairs(st.backups, st.list)), now, maxAge), q, p)
    ensures q.time < p.time || (q.time == p.time && Before(st.list, q.id, p.id))
  {
    hide ActivePairs, OldestFirst, Young, Before, AtTime, Sorted;
    var active := ActivePairs(st.backups, st.list);
    BeforeAmongYoung(OldestFirst(active), now, maxAge, q, p);
    OldestFirstSorts(active);
    SortedBefore(OldestFirst(active), q, p);
    if q.time == p.time {
      BeforeAtTime(OldestFirst(active), q, p);
      BeforeAtTime(active, q, p);
      BeforeInList(st.backups, st.list, q, p);
    }
  }

  /**
    What a cleanup keeps, said without sorting. Of the Active backups not over age it keeps the maximum number,
    or all if there are fewer or no maximum is set; and everything it drops is older than everything it keeps,
    or as old and earlier in the list.
   */
  lemma KeepsTheNewest(st: Store, policy: RetentionPolicy, now: nat)
    requires NoDup(st.list)
    ensures var kept := Retained(st, policy, now);
      var young := Young(ActivePairs(st.backups, st.list), now, policy.maxAgeSeconds);
      && (forall p :: p in young <==>
            && p.id in st.list && p.id in st.backups
            && st.backups[p.id].status == Active && p.time == st.backups[p.id].timestamp
            && !(policy.maxAgeSeconds > 0 && TooOld(p, now, policy.maxAgeSeconds)))
      && NoDup(young) && NoDup(kept) && (forall p :: p in kept ==> p in young)
      && |kept| == (if policy.maxBackups == 0 then |young| else Min(policy.maxBackups, |young|))
      && (forall q :: q in young && q !in kept ==> policy.maxBackups > 0 && |kept| == policy.maxBackups)
      && (forall p, q :: p in kept && q in young && q !in kept ==>
            q.time < p.time || (q.time == p.time && Before(st.list, q.id, p.id)))
  {
    hide ActivePairs, OldestFirst, Young, TooOld, Newest, SameEntries, Before, NoDup;
    var active, maxAge := ActivePairs(st.backups, st.list), policy.maxAgeSeconds;
    var sorted := Young(OldestFirst(active), now, maxAge);
    var young := Young(active, now, maxAge);
    ActivePairsMembers(st.backups, st.list);
    YoungMembers(active, now, maxAge);
    YoungDistinct(active, now, maxAge);
    SortedPairs(st);
    SortPermutes(active);
    YoungOfSame(OldestFirst(active), active, now, maxAge);
    YoungDistinct(OldestFirst(active), now, maxAge);
    NewestAreLast(sorted, policy.maxBackups);
    forall p ensures p in sorted <==> p in young {
      assert p in multiset(sorted) <==> p in multiset(young);
    }
    var kept := Newest(sorted, policy.maxBackups);
    forall p, q | p in kept && q in young && q !in kept
      ensures q.time < p.time || (q.time == p.time && Before(st.list, q.id, p.id))
    {
      SortedOrder(st, now, maxAge, q, p);
    }
  }

  lemma SortPermutes(s: seq<Pair>)
    ensures multiset(OldestFirst(s)) == multiset(s)
  {
    OldestFirstSorts(s);
  }

  /** A cleanup leaves every backup that is not Active alone. */
  lemma OthersUntouched(st: Store, policy: RetentionPolicy, now: nat, id: BackupId)
    requires id in st.backups && st.backups[id].status != Active
    ensures var after := CleanedUp(st, policy, now);
      && id in after.backups && after.backups[id] == st.backups[id]
      && (id in after.list <==> id in st.list)
      && (id in st.payloads ==> id in after.payloads && after.payloads[id] == st.payloads[id])
  {
    ActivePairsMembers(st.backups, st.list);
    var gone := IdsIn(ActivePairs(st.backups, st.list)) - IdsIn(Retained(st, policy, now));
    assert id !in gone;
    FilterMembers(st.list, Others(st.list, gone));
  }

  /* ---- the storage ---- */

  lemma WithoutNothing(st: Store)
    ensures Without(st, {}) == st
  {
    FilterAll(st.list, Others(st.list, {}));
    assert st.backups - {} == st.backups && st.payloads - {} == st.payloads;
  }

  lemma WithoutTwice(st: Store, a: set<BackupId>, b: set<BackupId>)
    ensures Without(Without(st, a), b) == Without(st, a + b)
  {
    var ka := Others(st.list, a);
    FilterMembers(st.list, ka);
    var kb := Others(Filter(st.list, ka), b);
    FilterTwice(st.list, ka, kb);
    FilterSame(st.list, ka * kb, Others(st.list, a + b));
    assert st.backups - a - b == st.backups - (a + b) && st.payloads - a - b == st.payloads - (a + b);
  }

  /** Ids of the first entries that the age purge drops. */
  function Dropped(s: seq<Pair>, now: nat, maxAge: nat): set<BackupId> {
    set p | p in s && TooOld(p, now, maxAge) :: p.id
  }

  /** The entry at the boundary between what is kept and what is still to be looked at. */
  lemma AtCut(young: seq<Pair>, sorted: seq<Pair>, k: nat)
    requires k < |sorted|
    ensures var pending, i, rest := young + sorted[k..], |young|, sorted[k + 1..];
      pending[i] == sorted[k] && pending[..i] + pending[i + 1..] == young + rest && pending == (young + [sorted[k]]) + rest
  {
  }

  lemma NothingYoung(now: nat, maxAge: nat)
    ensures Young([], now, maxAge) == []
  {
  }

  lemma YoungAppend(s: seq<Pair>, k: nat, now: nat, maxAge: nat)
    requires k < |s| && maxAge > 0
    ensures Young(s[..k + 1], now, maxAge)
         == if TooOld(s[k], now, maxAge) then Young(s[..k], now, maxAge) else Young(s[..k], now, maxAge) + [s[k]]
  {
    assert s[..k + 1][..k] == s[..k];
  }

  lemma NothingDropped(now: nat, maxAge: nat)
    ensures Dropped([], now, maxAge) == {}
  {
  }

  lemma DroppedAppend(s: seq<Pair>, k: nat, now: nat, maxAge: nat)
    requires k < |s|
    ensures Dropped(s[..k + 1], now, maxAge)
         == if TooOld(s[k], now, maxAge) then Dropped(s[..k], now, maxAge) + {s[k].id} else Dropped(s[..k], now, maxAge)
  {
    assert s[..k + 1] == s[..k] + [s[k]];
    forall id ensures id in Dropped(s[..k + 1], now, maxAge)
                 <==> id in Dropped(s[..k], now, maxAge) || (TooOld(s[k], now, maxAge) && id == s[k].id) {
      if id in Dropped(s[..k], now, maxAge) {
        var p :| p in s[..k] && TooOld(p, now, maxAge) && p.id == id;
        assert p in s[..k + 1];
      }
      assert s[k] in s[..k + 1];
    }
  }

  lemma {:induction false} AllYoung(s: seq<Pair>, now: nat)
    ensures Young(s, now, 0) == s
  {
    if |s| > 0 {
      AllYoung(s[..|s| - 1], now);
    }
  }

  lemma {:induction false} CountsOfDistinct(s: seq<Pair>)
    ensures NoDup(s) <==> forall p :: multiset(s)[p] <= 1
  {
    if |s| > 0 {
      var front, last := s[..|s| - 1], s[|s| - 1];
      CountsOfDistinct(front);
      assert s == front + [last];
      assert multiset(s) == multiset(front) + multiset{last};
      if NoDup(s) {
        assert last !in front;
      }
      if forall p :: multiset(s)[p] <= 1 {
        assert multiset(s)[last] == multiset(front)[last] + 1;
        forall p ensures multiset(front)[p] <= 1 {
          assert multiset(s)[p] <= 1;
        }
      }
    }
  }

  lemma {:induction false} YoungDistinct(s: seq<Pair>, now: nat, maxAge: nat)
    requires NoDup(s)
    ensures NoDup(Young(s, now, maxAge))
  {
    if |s| > 0 {
      YoungDistinct(s[..|s| - 1], now, maxAge);
      YoungMembers(s[..|s| - 1], now, maxAge);
      assert s[|s| - 1] !in s[..|s| - 1];
    }
  }

  /** The sorted pairs are the active ones, one per id. */
  lemma SortedPairs(st: Store)
    requires NoDup(st.list)
    ensures var active := ActivePairs(st.backups, st.list); var sorted := OldestFirst(active);
      && |sorted| == |active| && NoDup(sorted) && (forall p :: p in sorted <==> p in active)
      && forall p, q :: p in active && q in active && p.id == q.id ==> p == q
  {
    var active := ActivePairs(st.backups, st.list);
    var sorted := OldestFirst(active);
    ActivePairsMembers(st.backups, st.list);
    OldestFirstSorts(active);
    assert |sorted| == |multiset(sorted)| == |multiset(active)| == |active|;
    forall p ensures p in sorted <==> p in active {
      assert p in multiset(sorted) <==> p in multiset(active);
    }
    CountsOfDistinct(active);
    CountsOfDistinct(sorted);
  }

  lemma PurgedFromSorted(sorted: seq<Pair>, now: nat, maxAge: nat, maxBackups: nat)
    requires NoDup(sorted) && forall p, q :: p in sorted && q in sorted && p.id == q.id ==> p == q
    ensures var young := Young(sorted, now, maxAge); var kept := Newest(young, maxBackups);
      (if maxAge > 0 then Dropped(sorted, now, maxAge) else {}) + IdsIn(young[..|young| - |kept|]) == IdsIn(sorted) - IdsIn(kept)
  {
    hide Young, TooOld;
    var young := Young(sorted, now, maxAge);
    var kept := Newest(young, maxBackups);
    var cut := |young| - |kept|;
    YoungMembers(sorted, now, maxAge);
    YoungDistinct(sorted, now, maxAge);
    assert young == young[..cut] + kept;
    forall p ensures p in young <==> p in young[..cut] || p in kept {
    }
    forall p | p in young[..cut] ensures p !in kept {
    }
    var dropped := if maxAge > 0 then Dropped(sorted, now, maxAge) else {};
    forall id ensures id in dropped + IdsIn(young[..cut]) <==> id in IdsIn(sorted) - IdsIn(kept) {
      if p :| p in sorted && p.id == id {
        assert id in IdsIn(kept) <==> p in kept;
        assert id in IdsIn(young[..cut]) <==> p in young[..cut];
        assert id in dropped <==> maxAge > 0 && TooOld(p, now, maxAge);
      }
    }
  }

  /** The ids of the two purges are those of the Active backups that are not retained. */
  lemma PurgedIds(st: Store, policy: RetentionPolicy, now: nat)
    requires NoDup(st.list)
    ensures var active := ActivePairs(st.backups, st.list);
      var sorted := OldestFirst(active);
      var young := Young(sorted, now, policy.maxAgeSeconds);
      var kept := Newest(young, policy.maxBackups);
      && |sorted| == |active|
      && (if policy.maxAgeSeconds > 0 then Dropped(sorted, now, policy.maxAgeSeconds) else {}) + IdsIn(young[..|young| - |kept|])
         == IdsIn(active) - IdsIn(kept)
  {
    hide Young, TooOld, ActivePairs, OldestFirst, Newest, Dropped;
    var active := ActivePairs(st.backups, st.list);
    SortedPairs(st);
    PurgedFromSorted(OldestFirst(active), now, policy.maxAgeSeconds, policy.maxBackups);
    assert IdsIn(OldestFirst(active)) == IdsIn(active);
  }

  function AgeGone(sorted: seq<Pair>, now: nat, maxAge: nat): set<BackupId> {
    if maxAge > 0 then Dropped(sorted, now, maxAge) else {}
  }

  function CountGone(young: seq<Pair>, maxBackups: nat): set<BackupId> {
    IdsIn(young[..|young| - |Newest(young, maxBackups)|])
  }

  /** Without a maximum age the age purge does nothing. */
  lemma AgePurge(st: Store, sorted: seq<Pair>, now: nat, maxAge: nat)
    ensures maxAge == 0 ==> Young(sorted, now, maxAge) == sorted && Without(st, AgeGone(sorted, now, maxAge)) == st
    ensures maxAge > 0 ==> AgeGone(sorted, now, maxAge) == Dropped(sorted, now, maxAge)
    ensures |Young(sorted, now, maxAge)| <= |sorted|
  {
    hide Without;
    WithoutNothing(st);
    AllYoung(sorted, now);
    YoungMembers(sorted, now, maxAge);
  }

  /** Without a maximum number the count purge does nothing. */
  lemma CountPurge(st: Store, young: seq<Pair>, maxBackups: nat)
    ensures maxBackups == 0 ==> Newest(young, maxBackups) == young && Without(st, CountGone(young, maxBackups)) == st
    ensures |Newest(young, maxBackups)| <= |young|
  {
    hide Without;
    WithoutNothing(st);
    if maxBackups == 0 {
      assert young[..0] == [];
      assert IdsIn([]) == {};
    }
  }

  lemma BothPurges(st: Store, policy: RetentionPolicy, now: nat)
    requires NoDup(st.list)
    ensures var sorted := OldestFirst(ActivePairs(st.backups, st.list));
      var young := Young(sorted, now, policy.maxAgeSeconds);
      && |sorted| == |ActivePairs(st.backups, st.list)|
      && Without(Without(st, AgeGone(sorted, now, policy.maxAgeSeconds)), CountGone(young,
          policy.maxBackups)) == CleanedUp(st, policy, now)
  {
    hide ActivePairs, OldestFirst, Young, Newest, Without, Dropped, IdsIn;
    var sorted := OldestFirst(ActivePairs(st.backups, st.list));
    var young := Young(sorted, now, policy.maxAgeSeconds);
    WithoutTwice(st, AgeGone(sorted, now, policy.maxAgeSeconds), CountGone(young, policy.maxBackups));
    CountPurge(st, young, policy.maxBackups);
    PurgedIds(st, policy, now);
  }

  /* ---- the entry points ---- */

  /** Add an Active backup under `id`. */
  function Stored(st: Store, id: BackupId, time: nat, invoices: seq<nat>): Store {
    Store(st.backups[id := Backup(time, Active)], st.payloads[id := invoices], AddUnique(st.list, id))
  }

  /** `cleanup_old_backups`, for what it leaves behind. */
  function Cleaned(v: Vault): Vault {
    if v.policy.autoCleanup then v.(store := CleanedUp(v.store, v.policy, v.now)) else v
  }

  /** `create_backup`: a new Active backup under the next id, then a cleanup. */
  function Created(v: Vault, invoices: seq<nat>): Result<Vault> {
    var id := v.count + 1;
    if id in v.store.backups then Err(OperationNotAllowed)
    else Ok(Cleaned(v.(count := id, store := Stored(v.store, id, v.now, invoices))))
  }

  /** `archive_backup`: the record stays, marked, and leaves the list. */
  function Archive(v: Vault, id: BackupId): Result<Vault> {
    if id !in v.store.backups then Err(StorageKeyNotFound)
    else
      var st := v.store;
      Ok(v.(store := Store(st.backups[id := st.backups[id].(status := Archived)], st.payloads,
                           Filter(st.list, Others(st.list, {id})))))
  }

  class BackupStorage {
    var backups: map<BackupId, Backup>
    var payloads: map<BackupId, seq<nat>>
    var list: seq<BackupId>
    var count: nat
    var policy: RetentionPolicy
    var now: nat

    function Snapshot(): Vault
      reads this
    {
      Vault(Contents(), count, policy, now)
    }

    function Contents(): Store
      reads this
    {
      Store(backups, payloads, list)
    }

    constructor (now: nat)
      ensures Snapshot() == Vault(Store(map[], map[], []), 0, RetentionPolicy(5, 0, true), now)
    {
      backups, payloads, list, count, policy, this.now := map[], map[], [], 0, RetentionPolicy(5, 0, true), now;
    }

    method AddToBackupList(id: BackupId)
      requires NoDup(list)
      modifies this`list
      ensures list == AddUnique(old(list), id) && NoDup(list)
    {
      for i := 0 to |list|
        invariant list == old(list) && id !in list[..i]
      {
        if list[i] == id {
          return;
        }
      }
      list := list + [id];
    }

    method RemoveFromBackupList(id: BackupId)
      modifies this`list
      ensures list == Filter(old(list), Others(old(list), {id}))
    {
      var kept: seq<BackupId> := [];
      ghost var keep := Others(list, {id});
      for i := 0 to |list|
        modifies {}
        invariant kept == Filter(list[..i], keep)
      {
        FilterAppend(list[..i], list[i], keep);
        assert list[..i + 1] == list[..i] + [list[i]];
        if list[i] != id {
          kept := kept + [list[i]];
        }
      }
      assert list[..|list|] == list;
      list := kept;
    }

    /** Remove the list entry, the record and the payload. */
    method PurgeBackup(id: BackupId)
      modifies this`backups, this`payloads, this`list
      ensures Contents() == Without(old(Contents()), {id})
    {
      RemoveFromBackupList(id);
      backups := backups - {id};
      payloads := payloads - {id};
    }

    /** The pairs of the Active backups, in list order. */
    method CollectActive() returns (pairs: seq<Pair>)
      ensures pairs == ActivePairs(backups, list)
    {
      pairs := [];
      for i := 0 to |list|
        invariant pairs == ActivePairs(backups, list[..i])
      {
        assert list[..i + 1][..i] == list[..i];
        if list[i] in backups && backups[list[i]].status == Active {
          pairs := pairs + [Pair(list[i], backups[list[i]].timestamp)];
        }
      }
      assert list[..|list|] == list;
    }

    /** The same, sorted by age. */
    method SortedActive() returns (sorted: seq<Pair>)
      ensures sorted == OldestFirst(ActivePairs(backups, list))
    {
      var pairs := CollectActive();
      var a := new Pair[|pairs|](i requires 0 <= i < |pairs| => pairs[i]);
      assert a[..] == pairs;
      BubbleSort(a);
      sorted := a[..];
    }

    /** Purge what is too old, removing it from the sorted pairs by index. */
    method PurgeByAge(sorted: seq<Pair>, removed: nat) returns (pending: seq<Pair>, count: nat)
      requires policy.maxAgeSeconds > 0 && removed <= U32_MAX
      modifies this`backups, this`payloads, this`list
      ensures pending == Young(sorted, now, policy.maxAgeSeconds)
      ensures Contents() == Without(old(Contents()), Dropped(sorted, now, policy.maxAgeSeconds))
      ensures count == Min(removed + |sorted| - |pending|, U32_MAX)
    {
      hide Without, Dropped, TooOld, Young;
      var maxAge, time := policy.maxAgeSeconds, now;
      ghost var before, young, gone, k := Contents(), [], {}, 0;
      pending, count := sorted, removed;
      var i := 0;
      WithoutNothing(before);
      NothingDropped(time, maxAge);
      NothingYoung(time, maxAge);
      assert sorted[..0] == [];
      while i < |pending|
        invariant 0 <= k <= |sorted| && i == |young| <= k && pending == young + sorted[k..]
        invariant young == Young(sorted[..k], time, maxAge) && gone == Dropped(sorted[..k], time, maxAge)
        invariant Contents() == Without(before, gone)
        invariant count == Min(removed + k - i, U32_MAX)
        decreases |pending| - i
      {
        var p := pending[i];
        ghost var rest := sorted[k + 1..];
        AtCut(young, sorted, k);
        YoungAppend(sorted, k, time, maxAge);
        DroppedAppend(sorted, k, time, maxAge);
        if TooOld(p, time, maxAge) {
          WithoutTwice(before, gone, {p.id});
          PurgeBackup(p.id);
          gone := gone + {p.id};
          pending := pending[..i] + pending[i + 1..];
          count := Min(count + 1, U32_MAX);
        } else {
          young := young + [p];
          i := i + 1;
        }
        k := k + 1;
      }
      assert sorted[..k] == sorted;
    }

    /** Purge from the front until at most the maximum number is left. */
    method PurgeByCount(young: seq<Pair>, removed: nat) returns (pending: seq<Pair>, count: nat)
      requires policy.maxBackups > 0 && removed <= U32_MAX
      modifies this`backups, this`payloads, this`list
      ensures pending == Newest(young, policy.maxBackups)
      ensures Contents() == Without(old(Contents()), IdsIn(young[..|young| - |pending|]))
      ensures count == Min(removed + |young| - |pending|, U32_MAX)
    {
      ghost var before := Contents();
      ghost var k := 0;
      pending, count := young, removed;
      WithoutNothing(before);
      assert IdsIn(young[..0]) == {};
      while |pending| > policy.maxBackups
        invariant 0 <= k <= |young| && pending == young[k..] && policy == old(policy)
        invariant k > 0 ==> |pending| >= policy.maxBackups
        invariant Contents() == Without(before, IdsIn(young[..k]))
        invariant count == Min(removed + k, U32_MAX)
        decreases |pending|
      {
        var oldest := pending[0];
        assert young[..k + 1] == young[..k] + [oldest];
        assert IdsIn(young[..k + 1]) == IdsIn(young[..k]) + {oldest.id};
        WithoutTwice(before, IdsIn(young[..k]), {oldest.id});
        PurgeBackup(oldest.id);
        pending := pending[1..];
        count := Min(count + 1, U32_MAX);
        k := k + 1;
      }
    }

    /** `cleanup_old_backups`. */
    method CleanupOldBackups() returns (removed: nat)
      requires NoDup(list)
      modifies this`backups, this`payloads, this`list
      ensures if !policy.autoCleanup then removed == 0 && Contents() == old(Contents())
        else
          && Contents() == CleanedUp(old(Contents()), policy, now)
          && removed == Min(|ActivePairs(old(backups), old(list))| - |Retained(old(Contents()), policy, now)|, U32_MAX)
    {
      hide ActivePairs, OldestFirst, Young, Newest, Without, Dropped, CleanedUp, IdsIn, NoDup;
      if !policy.autoCleanup {
        return 0;
      }
      ghost var st := Contents();
      var pending := SortedActive();
      ghost var sorted := pending;
      removed := 0;
      if policy.maxAgeSeconds > 0 {
        pending, removed := PurgeByAge(pending, removed);
      }
      ghost var afterAge := Contents();
      AgePurge(st, sorted, now, policy.maxAgeSeconds);
      ghost var young := pending;
      if policy.maxBackups > 0 {
        pending, removed := PurgeByCount(pending, removed);
      }
      CountPurge(afterAge, young, policy.maxBackups);
      BothPurges(st, policy, now);
      assert removed == Min(|sorted| - |pending|, U32_MAX);
    }

    /** `create_backup`, with the payload read off the invoice storage. */
    method CreateBackup(invoices: seq<nat>) returns (r: Result<BackupId>)
      requires NoDup(list)
      modifies this`backups, this`payloads, this`list, this`count
      ensures match Created(old(Snapshot()), invoices)
        case Ok(v) => r == Ok(v.count) && Snapshot() == v
        case Err(e) => r == Err(e) && Contents() == old(Contents())
    {
      hide CleanedUp, Retained;
      count := count + 1;
      var id := count;
      if id in backups {
        return Err(OperationNotAllowed);
      }
      backups := backups[id := Backup(now, Active)];
      payloads := payloads[id := invoices];
      AddToBackupList(id);
      var _ := CleanupOldBackups();
      r := Ok(id);
    }

    method ArchiveBackup(id: BackupId) returns (r: Result<()>)
      modifies this`backups, this`list
      ensures match Archive(old(Snapshot()), id)
        case Ok(v) => r.Ok? && Snapshot() == v
        case Err(e) => r == Err(e) && Snapshot() == old(Snapshot())
    {
      if id !in backups {
        return Err(StorageKeyNotFound);
      }
      backups := backups[id := backups[id].(status := Archived)];
      RemoveFromBackupList(id);
      r := Ok(());
    }
  }
}
