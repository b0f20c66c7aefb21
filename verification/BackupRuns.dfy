/** What every run of the backup entry points keeps, and what it can do to a backup. */
module BackupRuns {
  import opened Base
  import opened Lists
  import opened Backups

  datatype Event =
    | Tick(seconds: nat)
    | Create(invoices: seq<nat>)
    | ArchiveOne(id: BackupId)
    | Cleanup
    | Configure(policy: RetentionPolicy)

  /** A failing event leaves the vault as it was. */
  function Step(v: Vault, e: Event): Vault {
    match e
    case Tick(seconds) => v.(now := SatAdd64(v.now, seconds))
    case Create(invoices) => (match Created(v, invoices) case Ok(v') => v' case Err(_) => v)
    case ArchiveOne(id) => (match Archive(v, id) case Ok(v') => v' case Err(_) => v)
    case Cleanup => Cleaned(v)
    case Configure(policy) => v.(policy := policy)
  }

  function Run(v: Vault, events: seq<Event>): Vault {
    if |events| == 0 then v else Step(Run(v, events[..|events| - 1]), events[|events| - 1])
  }

  /** After any events from deployment. */
  function After(now: u64, events: seq<Event>): Vault {
    Run(Vault(Store(map[], map[], []), 0, RetentionPolicy(5, 0, true), now), events)
  }

  ghost predicate Increasing(list: seq<BackupId>) { forall i, j :: 0 <= i < j < |list| ==> list[i] < list[j] }

  /** Later ids have later timestamps, none in the future. */
  ghost predicate InTime(backups: map<BackupId, Backup>, count: nat, now: nat) {
    && (forall id :: id in backups ==> 1 <= id <= count && backups[id].timestamp <= now)
    && (forall a, b :: a in backups && b in backups && a < b ==> backups[a].timestamp <= backups[b].timestamp)
  }

  /**
    The list holds exactly the Active backups, once each and in the order they were made; every record has its
    payload and the other way round; and ids follow the counter and the clock.
   */
  ghost predicate WellKept(v: Vault) {
    && Increasing(v.store.list)
    && (forall id :: id in v.store.list <==> id in v.store.backups && v.store.backups[id].status == Active)
    && v.store.backups.Keys == v.store.payloads.Keys
    && InTime(v.store.backups, v.count, v.now) && v.now <= U64_MAX
  }

  lemma IncreasingNoDup(list: seq<BackupId>)
    requires Increasing(list)
    ensures NoDup(list)
  {
  }

  lemma {:induction false} FilterIncreasing(list: seq<BackupId>, keep: set<BackupId>)
    requires Increasing(list)
    ensures Increasing(Filter(list, keep))
  {
    if |list| > 0 {
      var front, last := list[..|list| - 1], list[|list| - 1];
      FilterIncreasing(front, keep);
      FilterMembers(front, keep);
      assert forall i :: 0 <= i < |Filter(front, keep)| ==> Filter(front, keep)[i] in front;
    }
  }

  /** Taking Active backups out keeps the rest in order. */
  lemma WithoutKeeps(v: Vault, ids: set<BackupId>)
    requires WellKept(v)
    ensures WellKept(v.(store := Without(v.store, ids)))
  {
    hide Filter;
    FilterIncreasing(v.store.list, Others(v.store.list, ids));
    FilterMembers(v.store.list, Others(v.store.list, ids));
  }

  lemma CleanedKeeps(v: Vault)
    requires WellKept(v)
    ensures WellKept(Cleaned(v))
  {
    hide Without, WellKept;
    if v.policy.autoCleanup {
      WithoutKeeps(v, IdsIn(ActivePairs(v.store.backups, v.store.list)) - IdsIn(Retained(v.store, v.policy, v.now)));
    }
  }

  lemma StoredKeeps(v: Vault, invoices: seq<nat>)
    requires WellKept(v)
    ensures v.count + 1 !in v.store.backups
    ensures WellKept(v.(count := v.count + 1, store := Stored(v.store, v.count + 1, v.now, invoices)))
  {
    var id, list := v.count + 1, v.store.list;
    assert id !in list;
    assert AddUnique(list, id) == list + [id];
    assert forall i :: 0 <= i < |list| ==> list[i] in list;
  }

  lemma ArchivedInTime(backups: map<BackupId, Backup>, count: nat, now: nat, id: BackupId)
    requires InTime(backups, count, now) && id in backups
    ensures InTime(backups[id := backups[id].(status := Archived)], count, now)
  {
    var after := backups[id := backups[id].(status := Archived)];
    assert forall k :: k in backups ==> after[k].timestamp == backups[k].timestamp;
  }

  lemma ArchiveKeeps(v: Vault, id: BackupId)
    requires WellKept(v) && id in v.store.backups
    ensures WellKept(Archive(v, id).value)
  {
    hide Filter, InTime, Increasing;
    FilterIncreasing(v.store.list, Others(v.store.list, {id}));
    FilterMembers(v.store.list, Others(v.store.list, {id}));
    ArchivedInTime(v.store.backups, v.count, v.now, id);
  }

  lemma TickKeeps(v: Vault, seconds: nat)
    requires WellKept(v)
    ensures WellKept(v.(now := SatAdd64(v.now, seconds)))
  {
    hide Increasing;
  }

  lemma ConfigureKeeps(v: Vault, policy: RetentionPolicy)
    requires WellKept(v)
    ensures WellKept(v.(policy := policy))
  {
    hide Increasing, InTime;
  }

  lemma StepKeeps(v: Vault, e: Event)
    requires WellKept(v)
    ensures WellKept(Step(v, e))
  {
    hide WellKept, Cleaned, Stored;
    match e
    case Tick(seconds) => TickKeeps(v, seconds);
    case Create(invoices) =>
      StoredKeeps(v, invoices);
      CleanedKeeps(v.(count := v.count + 1, store := Stored(v.store, v.count + 1, v.now, invoices)));
    case ArchiveOne(id) =>
      if id in v.store.backups { ArchiveKeeps(v, id); }
    case Cleanup => CleanedKeeps(v);
    case Configure(policy) => ConfigureKeeps(v, policy);
  }

  lemma {:induction false} RunKeeps(v: Vault, events: seq<Event>)
    requires WellKept(v)
    ensures WellKept(Run(v, events))
    decreases |events|
  {
    hide WellKept, Step;
    if |events| > 0 {
      RunKeeps(v, events[..|events| - 1]);
      StepKeeps(Run(v, events[..|events| - 1]), events[|events| - 1]);
    }
  }

  /** The backups are well kept after every sequence of events, and a new one is never refused. */
  lemma EveryRunKeeps(now: u64, events: seq<Event>, invoices: seq<nat>)
    ensures WellKept(After(now, events)) && NoDup(After(now, events).store.list)
    ensures Created(After(now, events), invoices).Ok?
  {
    hide Run, Cleaned;
    var start := Vault(Store(map[], map[], []), 0, RetentionPolicy(5, 0, true), now);
    assert WellKept(start);
    RunKeeps(start, events);
    IncreasingNoDup(After(now, events).store.list);
    StoredKeeps(After(now, events), invoices);
  }

  /* ---- what becomes of one backup ---- */

  /**
    A backup that is gone stays gone, one that is archived stays as it is, payload included, and an Active one
    can only be archived or removed, its timestamp and payload never changing.
   */
  predicate Ages(v: Vault, v': Vault, id: BackupId) {
    var before, after := v.store, v'.store;
    && v.count <= v'.count
    && (id <= v.count && id in after.backups ==> id in before.backups)
    && (id in before.backups && before.backups[id].status == Archived ==>
          id in after.backups && after.backups[id] == before.backups[id])
    && (id in before.backups && id in after.backups ==>
          after.backups[id] == before.backups[id].(status := after.backups[id].status))
    && (id in before.backups && id in after.backups && id in before.payloads ==>
          id in after.payloads && after.payloads[id] == before.payloads[id])
  }

  lemma CleanedAges(v: Vault, id: BackupId)
    ensures Ages(v, Cleaned(v), id)
  {
    hide CleanedUp;
    if v.policy.autoCleanup {
      if id in v.store.backups && v.store.backups[id].status == Archived {
        OthersUntouched(v.store, v.policy, v.now, id);
      }
      CleanedIsPart(v.store, v.policy, v.now);
    }
  }

  lemma CleanedIsPart(st: Store, policy: RetentionPolicy, now: nat)
    ensures var st' := CleanedUp(st, policy, now);
      && (forall id :: id in st'.backups ==> id in st.backups && st'.backups[id] == st.backups[id])
      && (forall id :: id in st'.backups && id in st.payloads ==>
            id in st'.payloads && st'.payloads[id] == st.payloads[id])
  {
    hide ActivePairs, Retained;
  }

  lemma AgesTransitive(u: Vault, v: Vault, w: Vault, id: BackupId)
    requires Ages(u, v, id) && Ages(v, w, id) && WellKept(u)
    ensures Ages(u, w, id)
  {
  }

  lemma StoredAges(v: Vault, invoices: seq<nat>, id: BackupId)
    requires WellKept(v)
    ensures Ages(v, v.(count := v.count + 1, store := Stored(v.store, v.count + 1, v.now, invoices)), id)
  {
    hide Increasing;
    StoredKeeps(v, invoices);
  }

  lemma ArchiveAges(v: Vault, archived: BackupId, id: BackupId)
    requires archived in v.store.backups
    ensures Ages(v, Archive(v, archived).value, id)
  {
    hide Filter, Others;
  }

  lemma StepAges(v: Vault, e: Event, id: BackupId)
    requires WellKept(v)
    ensures Ages(v, Step(v, e), id)
  {
    hide WellKept, Cleaned, Stored, Ages;
    Unchanged(v, v, id);
    match e
    case Tick(seconds) => Unchanged(v, v.(now := SatAdd64(v.now, seconds)), id);
    case Create(invoices) =>
      StoredKeeps(v, invoices);
      StoredAges(v, invoices, id);
      var v1 := v.(count := v.count + 1, store := Stored(v.store, v.count + 1, v.now, invoices));
      CleanedAges(v1, id);
      AgesTransitive(v, v1, Cleaned(v1), id);
    case ArchiveOne(archived) =>
      if archived in v.store.backups { ArchiveAges(v, archived, id); }
    case Cleanup => CleanedAges(v, id);
    case Configure(policy) => Unchanged(v, v.(policy := policy), id);
  }

  lemma {:induction false} RunAges(v: Vault, events: seq<Event>, id: BackupId)
    requires WellKept(v)
    ensures Ages(v, Run(v, events), id)
    decreases |events|
  {
    hide WellKept, Step, Ages;
    if |events| == 0 {
      Unchanged(v, v, id);
    } else {
      var front, e := events[..|events| - 1], events[|events| - 1];
      RunAges(v, front, id);
      RunKeeps(v, front);
      StepAges(Run(v, front), e, id);
      AgesTransitive(v, Run(v, front), Run(v, events), id);
    }
  }

  lemma Unchanged(v: Vault, v': Vault, id: BackupId)
    requires v'.store == v.store && v'.count == v.count
    ensures Ages(v, v', id)
  {
  }

  lemma {:induction false} RunConcat(v: Vault, first: seq<Event>, second: seq<Event>)
    ensures Run(v, first + second) == Run(Run(v, first), second)
    decreases |second|
  {
    hide Step;
    if |second| == 0 {
      assert first + second == first;
    } else {
      RunConcat(v, first, second[..|second| - 1]);
      assert (first + second)[..|first + second| - 1] == first + second[..|second| - 1];
    }
  }

  lemma BackupsOnlyAge(now: u64, before: seq<Event>, after: seq<Event>, id: BackupId)
    ensures Ages(After(now, before), After(now, before + after), id)
  {
    hide Run, WellKept, Ages;
    var start := Vault(Store(map[], map[], []), 0, RetentionPolicy(5, 0, true), now);
    EveryRunKeeps(now, before, []);
    RunConcat(start, before, after);
    RunAges(After(now, before), after, id);
  }

  /* ---- what a cleanup does to the list ---- */

  /** On a list in order of time the sort has nothing to do. */
  lemma SortIsIdle(s: seq<Pair>)
    requires Sorted(s)
    ensures OldestFirst(s) == s
  {
    hide AtTime;
    OldestFirstSorts(s);
    StableSortIsUnique(OldestFirst(s), s);
  }

  /** The pairs of a list of Active backups are its entries with their timestamps. */
  lemma {:induction false} ListedPairs(backups: map<BackupId, Backup>, list: seq<BackupId>)
    requires forall i :: 0 <= i < |list| ==> list[i] in backups && backups[list[i]].status == Active
    ensures var s := ActivePairs(backups, list);
      |s| == |list| && forall i :: 0 <= i < |s| ==> s[i] == Pair(list[i], backups[list[i]].timestamp)
  {
    if |list| > 0 {
      ListedPairs(backups, list[..|list| - 1]);
    }
  }

  lemma PairsSorted(backups: map<BackupId, Backup>, list: seq<BackupId>, s: seq<Pair>, count: nat, now: nat)
    requires Increasing(list) && InTime(backups, count, now) && |s| == |list|
    requires forall i :: 0 <= i < |s| ==> list[i] in backups && s[i] == Pair(list[i], backups[list[i]].timestamp)
    ensures Sorted(s)
  {
    forall i, j | 0 <= i < j < |s| ensures s[i].time <= s[j].time {
      assert list[i] < list[j];
    }
  }

  lemma SortedFront(s: seq<Pair>)
    requires Sorted(s) && |s| > 0
    ensures Sorted(s[..|s| - 1]) && forall q :: q in s[..|s| - 1] ==> q.time <= s[|s| - 1].time
  {
  }

  /** On sorted pairs the age purge drops a front part. */
  lemma {:induction false} YoungIsTail(s: seq<Pair>, now: nat, maxAge: nat) returns (cut: nat)
    requires Sorted(s)
    ensures cut <= |s| && Young(s, now, maxAge) == s[cut..]
    ensures cut > 0 ==> maxAge > 0 && TooOld(s[cut - 1], now, maxAge)
  {
    hide Sorted, TooOld;
    if |s| == 0 {
      cut := 0;
    } else {
      var front, last := s[..|s| - 1], s[|s| - 1];
      SortedFront(s);
      cut := YoungIsTail(front, now, maxAge);
      if maxAge > 0 && TooOld(last, now, maxAge) {
        AllTooOld(front, last, now, maxAge);
        cut := |s|;
      } else {
        assert s[cut..] == front[cut..] + [last];
      }
    }
  }

  lemma {:induction false} AllTooOld(s: seq<Pair>, p: Pair, now: nat, maxAge: nat)
    requires maxAge > 0 && TooOld(p, now, maxAge) && forall q :: q in s ==> q.time <= p.time
    ensures Young(s, now, maxAge) == []
  {
    if |s| > 0 {
      assert s[|s| - 1] in s;
      AllTooOld(s[..|s| - 1], p, now, maxAge);
    }
  }

  lemma FilterTail(list: seq<BackupId>, cut: nat, keep: set<BackupId>)
    requires cut <= |list| && forall i :: 0 <= i < |list| ==> (list[i] in keep <==> i >= cut)
    ensures Filter(list, keep) == list[cut..]
  {
    assert list == list[..cut] + list[cut..];
    FilterConcat(list[..cut], list[cut..], keep);
    FilterAll(list[cut..], keep);
    FilterNothing(list[..cut], keep);
  }

  /** Pairs of a list, from a position on, have the ids of the list from that position on. */
  lemma TailIds(s: seq<Pair>, list: seq<BackupId>, cut: nat)
    requires Increasing(list) && |s| == |list| && (forall i :: 0 <= i < |s| ==> s[i].id == list[i]) && cut <= |s|
    ensures forall i :: 0 <= i < |list| ==>
      (list[i] in IdsIn(s[cut..]) <==> i >= cut) && list[i] in IdsIn(s)
  {
    forall i | 0 <= i < |list| ensures (list[i] in IdsIn(s[cut..]) <==> i >= cut) && list[i] in IdsIn(s) {
      assert s[i] in s;
      if i >= cut {
        assert s[cut..][i - cut] == s[i];
      }
    }
  }

  /** The pairs of a well-kept list: one for each entry, sorted. */
  lemma VaultPairs(v: Vault)
    requires WellKept(v)
    ensures var s, list := ActivePairs(v.store.backups, v.store.list), v.store.list;
      && |s| == |list| && Sorted(s)
      && forall i :: 0 <= i < |s| ==> list[i] in v.store.backups && s[i] == Pair(list[i], v.store.backups[list[i]].timestamp)
  {
    hide ActivePairs, Sorted, InTime, Increasing;
    var list := v.store.list;
    forall i | 0 <= i < |list| ensures list[i] in v.store.backups && v.store.backups[list[i]].status == Active {
      assert list[i] in list;
    }
    ListedPairs(v.store.backups, list);
    PairsSorted(v.store.backups, list, ActivePairs(v.store.backups, list), v.count, v.now);
  }

  /** Where sorted pairs are cut by the two purges, and why. */
  lemma CutSorted(s: seq<Pair>, now: nat, maxAge: nat, maxBackups: nat) returns (cut: nat)
    requires Sorted(s)
    ensures cut <= |s| && Newest(Young(s, now, maxAge), maxBackups) == s[cut..]
    ensures maxBackups > 0 ==> |s| - cut <= maxBackups
    ensures forall p :: p in s[cut..] && maxAge > 0 ==> !TooOld(p, now, maxAge)
    ensures cut > 0 ==> |s| - cut == maxBackups > 0 || (maxAge > 0 && TooOld(s[cut - 1], now, maxAge))
  {
    hide Sorted, TooOld, Young;
    var young := YoungIsTail(s, now, maxAge);
    YoungMembers(s, now, maxAge);
    var kept := Newest(s[young..], maxBackups);
    cut := |s| - |kept|;
    assert kept == s[cut..];
    forall p | p in kept ensures p in s[young..] {
      var i :| 0 <= i < |kept| && kept[i] == p;
      assert s[young..][cut - young + i] == p;
    }
  }

  /** In a well-kept vault a cleanup leaves the end of the list. */
  lemma CleanedList(v: Vault, cut: nat)
    requires WellKept(v) && v.policy.autoCleanup
    requires var s := ActivePairs(v.store.backups, v.store.list);
      && cut <= |s| == |v.store.list| && Retained(v.store, v.policy, v.now) == s[cut..]
      && forall i :: 0 <= i < |s| ==> s[i].id == v.store.list[i]
    ensures Cleaned(v).store.list == v.store.list[cut..]
  {
    hide ActivePairs, Retained, IdsIn, Filter, Increasing;
    var s, list := ActivePairs(v.store.backups, v.store.list), v.store.list;
    TailIds(s, list, cut);
    FilterTail(list, cut, Others(list, IdsIn(s) - IdsIn(s[cut..])));
  }

  /**
    In every run a cleanup drops a front part of the list, the oldest backups: what is left is within the maximum
    number and not over age, and nothing is dropped without one of the two reasons.
   */
  lemma CleanupDropsTheFront(now: u64, events: seq<Event>) returns (cut: nat)
    requires After(now, events).policy.autoCleanup
    ensures var v := After(now, events); var list, list' := v.store.list, Cleaned(v).store.list;
      && cut <= |list| && list' == list[cut..] && (forall id :: id in list ==> id in v.store.backups)
      && (v.policy.maxBackups > 0 ==> |list'| <= v.policy.maxBackups)
      && (forall id :: id in list' && v.policy.maxAgeSeconds > 0 ==>
            v.now - v.store.backups[id].timestamp <= v.policy.maxAgeSeconds)
      && (cut > 0 ==>
            || |list'| == v.policy.maxBackups > 0
            || v.now - v.store.backups[list[cut - 1]].timestamp > v.policy.maxAgeSeconds > 0)
  {
    hide Run, Cleaned, ActivePairs, Increasing, InTime, OldestFirst, Young, Newest, Sorted;
    var v := After(now, events);
    var s := ActivePairs(v.store.backups, v.store.list);
    EveryRunKeeps(now, events, []);
    VaultPairs(v);
    SortIsIdle(s);
    cut := CutSorted(s, v.now, v.policy.maxAgeSeconds, v.policy.maxBackups);
    CleanedList(v, cut);
    forall id | id in v.store.list[cut..] && v.policy.maxAgeSeconds > 0
      ensures v.now - v.store.backups[id].timestamp <= v.policy.maxAgeSeconds
    {
      var i :| 0 <= i < |s| - cut && v.store.list[cut..][i] == id;
      assert s[cut..][i] == s[cut + i] && s[cut..][i] in s[cut..];
    }
  }
}
