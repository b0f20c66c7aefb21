/** Ranking the placed bids of an invoice, and the separate path that finds only the best one (`bid.rs`). */
module BidRanking {
  import opened Base
  import opened Lists
  import opened BidBook

  datatype Ordering = Less | Equal | Greater

  function Cmp(x: int, y: int): Ordering { if x < y then Less else if x > y then Greater else Equal }

  function Profit(b: Bid): int { SatSub(b.expectedReturn, b.amount) }

  /** `compare_bids`. */
  function CompareBids(a: Bid, b: Bid): Ordering {
    if Profit(a) != Profit(b) then Cmp(Profit(a), Profit(b))
    else if a.expectedReturn != b.expectedReturn then Cmp(a.expectedReturn, b.expectedReturn)
    else if a.amount != b.amount then Cmp(a.amount, b.amount)
    else if a.timestamp != b.timestamp then Cmp(a.timestamp, b.timestamp)
    else Cmp(a.id, b.id)
  }

  /** A total order; bids that compare equal share their id. */
  lemma CompareIsTotalOrder(a: Bid, b: Bid, c: Bid)
    ensures CompareBids(a, b) == Greater <==> CompareBids(b, a) == Less
    ensures CompareBids(a, b) == Equal <==> CompareBids(b, a) == Equal
    ensures CompareBids(a, b) == Equal ==> a.id == b.id && CompareBids(a, c) == CompareBids(b, c)
    ensures CompareBids(a, b) == Greater && CompareBids(b, c) == Greater ==> CompareBids(a, c) == Greater
    ensures CompareBids(a, a) == Equal
  {
  }

  /**
    `a` is ranked above `b`: by profit (what is expected back less what is bid, limited to an `i128`); then by what is
    expected back, by what is bid, by time, the later first, and last by id.
   */
  predicate Outranks(a: Bid, b: Bid) {
    var profitA, profitB := Saturate(a.expectedReturn - a.amount), Saturate(b.expectedReturn - b.amount);
    || profitA > profitB
    || (profitA == profitB
        && (|| a.expectedReturn > b.expectedReturn
            || (a.expectedReturn == b.expectedReturn
                && (|| a.amount > b.amount
                    || (a.amount == b.amount && (a.timestamp > b.timestamp || (a.timestamp == b.timestamp && a.id > b.id)))))))
  }

  /** The comparison is the order on the fields. */
  lemma ComparesFields(a: Bid, b: Bid)
    ensures CompareBids(a, b) == Greater <==> Outranks(a, b)
    ensures CompareBids(a, b) == Less <==> Outranks(b, a)
  {
  }

  /** No bid stands behind one that it outranks; so neither profit nor any tie-break ever rises along the list. */
  ghost predicate RankedByProfit(bids: seq<Bid>) {
    forall i, j :: 0 <= i < j < |bids| ==> !Outranks(bids[j], bids[i])
  }

  lemma DescendingByProfit(bids: seq<Bid>)
    requires Descending(bids)
    ensures RankedByProfit(bids)
  {
    hide CompareBids, Outranks;
    forall i, j | 0 <= i < j < |bids| ensures !Outranks(bids[j], bids[i]) {
      ComparesFields(bids[i], bids[j]);
    }
  }

  /** The best of some bids is one of them, and none of them outranks it. */
  lemma BestByProfit(bids: seq<Bid>)
    ensures BestOf(bids) == None <==> bids == []
    ensures BestOf(bids).Some? ==>
      BestOf(bids).value in bids && forall b :: b in bids ==> !Outranks(b, BestOf(bids).value)
  {
    hide CompareBids, Outranks;
    if |bids| > 0 {
      forall b | b in bids ensures !Outranks(b, bids[BestIndex(bids)]) {
        ComparesFields(b, bids[BestIndex(bids)]);
      }
    }
  }

  /** The records that are still Placed, in order. */
  function PlacedRecords(records: seq<Bid>): seq<Bid> {
    if |records| == 0 then []
    else PlacedRecords(records[..|records| - 1])
         + if records[|records| - 1].status == Placed then [records[|records| - 1]] else []
  }

  /** `i` is the position of the first bid that no other bid beats. */
  predicate FirstBest(bids: seq<Bid>, i: nat) {
    && i < |bids|
    && (forall j :: 0 <= j < |bids| ==> CompareBids(bids[j], bids[i]) != Greater)
    && (forall j :: 0 <= j < i ==> CompareBids(bids[j], bids[i]) == Less)
  }

  function BestIndex(bids: seq<Bid>): (i: nat)
    requires |bids| > 0
    ensures FirstBest(bids, i)
  {
    if |bids| == 1 then 0
    else
      var front := bids[..|bids| - 1];
      var i := BestIndex(front);
      var last := bids[|bids| - 1];
      assert forall j :: 0 <= j < |front| ==> front[j] == bids[j];
      if CompareBids(last, bids[i]) == Greater then
        BeatsAll(front, i, last);
        |bids| - 1
      else i
  }

  lemma BeatsAll(front: seq<Bid>, i: nat, last: Bid)
    requires FirstBest(front, i) && CompareBids(last, front[i]) == Greater
    ensures forall j :: 0 <= j < |front| ==> CompareBids(front[j], last) == Less
  {
    forall j | 0 <= j < |front| ensures CompareBids(front[j], last) == Less {
      CompareIsTotalOrder(last, front[i], front[j]);
      CompareIsTotalOrder(front[j], front[i], last);
      CompareIsTotalOrder(front[j], last, front[i]);
    }
  }

  function Without(bids: seq<Bid>, i: nat): (r: seq<Bid>)
    requires i < |bids|
    ensures |r| == |bids| - 1
  {
    bids[..i] + bids[i + 1..]
  }

  /** Selection sort: best first. */
  function Ranking(bids: seq<Bid>): (r: seq<Bid>)
    ensures |r| == |bids|
    decreases |bids|
  {
    if |bids| == 0 then []
    else [bids[BestIndex(bids)]] + Ranking(Without(bids, BestIndex(bids)))
  }

  /** No bid is ranked below one it beats. */
  ghost predicate Descending(bids: seq<Bid>) {
    forall i, j :: 0 <= i < j < |bids| ==> CompareBids(bids[i], bids[j]) != Less
  }

  ghost predicate DistinctIds(bids: seq<Bid>) {
    forall i, j :: 0 <= i < j < |bids| ==> bids[i].id != bids[j].id
  }

  lemma WithoutOne(bids: seq<Bid>, i: nat)
    requires i < |bids|
    ensures multiset(bids) == multiset{bids[i]} + multiset(Without(bids, i))
  {
    assert bids == bids[..i] + [bids[i]] + bids[i + 1..];
  }

  lemma PrependBest(best: Bid, ranked: seq<Bid>)
    requires Descending(ranked) && forall b :: b in ranked ==> CompareBids(best, b) != Less
    ensures Descending([best] + ranked)
  {
    hide CompareBids;
    var all := [best] + ranked;
    forall i, j | 0 <= i < j < |all| ensures CompareBids(all[i], all[j]) != Less {
      if i == 0 {
        assert all[j] in ranked;
      } else {
        assert all[i] == ranked[i - 1] && all[j] == ranked[j - 1];
      }
    }
  }

  /** The ranking is a descending permutation. */
  lemma {:induction false} RankingSorts(bids: seq<Bid>)
    ensures multiset(Ranking(bids)) == multiset(bids)
    ensures Descending(Ranking(bids))
    decreases |bids|
  {
    hide CompareBids, Descending, Without;
    if |bids| == 0 {
      NothingRanked();
    } else {
      var i := BestIndex(bids);
      var rest := Without(bids, i);
      RankingSorts(rest);
      WithoutOne(bids, i);
      forall b | b in Ranking(rest) ensures CompareBids(bids[i], b) != Less {
        assert b in multiset(Ranking(rest));
        assert b in multiset(bids);
        var k :| 0 <= k < |bids| && bids[k] == b;
        BestBeats(bids, k);
      }
      PrependBest(bids[i], Ranking(rest));
    }
  }

  lemma NothingRanked()
    ensures Descending([])
  {
  }

  lemma BestBeats(bids: seq<Bid>, k: nat)
    requires k < |bids|
    ensures CompareBids(bids[BestIndex(bids)], bids[k]) != Less
  {
    CompareIsTotalOrder(bids[k], bids[BestIndex(bids)], bids[k]);
  }

  lemma SameHead(a: seq<Bid>, b: seq<Bid>)
    requires multiset(a) == multiset(b) && Descending(a) && Descending(b) && DistinctIds(a) && |a| > 0 && |b| > 0
    ensures a[0] == b[0]
  {
    assert b[0] in multiset(a) && a[0] in multiset(b);
    var i :| 0 <= i < |a| && a[i] == b[0];
    var j :| 0 <= j < |b| && b[j] == a[0];
    CompareIsTotalOrder(a[0], b[0], a[0]);
  }

  /** With distinct ids there is only one descending arrangement. */
  lemma {:induction false} DescendingIsUnique(a: seq<Bid>, b: seq<Bid>)
    requires multiset(a) == multiset(b) && Descending(a) && Descending(b) && DistinctIds(a)
    ensures a == b
    decreases |a|
  {
    hide *;
    SameSize(a, b);
    if |a| == 0 {
    } else {
      SameHead(a, b);
      SameTails(a, b);
      TailKeepsOrder(a);
      TailKeepsOrder(b);
      TailKeepsIds(a);
      DescendingIsUnique(a[1..], b[1..]);
      assert a == [a[0]] + a[1..] && b == [b[0]] + b[1..];
    }
  }

  lemma SameSize(a: seq<Bid>, b: seq<Bid>)
    requires multiset(a) == multiset(b)
    ensures |a| == |b|
  {
    assert |a| == |multiset(a)| == |multiset(b)| == |b|;
  }

  lemma SameTails(a: seq<Bid>, b: seq<Bid>)
    requires multiset(a) == multiset(b) && |a| > 0 && |b| > 0 && a[0] == b[0]
    ensures multiset(a[1..]) == multiset(b[1..])
  {
    assert a == [a[0]] + a[1..] && b == [b[0]] + b[1..];
    assert multiset(a[1..]) == multiset(a) - multiset{a[0]};
    assert multiset(b[1..]) == multiset(b) - multiset{b[0]};
  }

  lemma TailKeepsOrder(a: seq<Bid>)
    requires Descending(a) && |a| > 0
    ensures Descending(a[1..])
  {
    hide CompareBids;
  }

  lemma TailKeepsIds(a: seq<Bid>)
    requires DistinctIds(a) && |a| > 0
    ensures DistinctIds(a[1..])
  {
  }

  /** The ranking does not depend on the order of the invoice's bid list. */
  lemma RankingIgnoresOrder(bids: seq<Bid>, other: seq<Bid>)
    requires multiset(bids) == multiset(other) && DistinctIds(bids)
    ensures Ranking(bids) == Ranking(other)
  {
    RankingSorts(bids);
    RankingSorts(other);
    DistinctIdsPermute(bids, Ranking(bids));
    DescendingIsUnique(Ranking(bids), Ranking(other));
  }

  lemma DistinctIdsPermute(a: seq<Bid>, b: seq<Bid>)
    requires multiset(a) == multiset(b) && DistinctIds(a)
    ensures DistinctIds(b)
  {
    forall i, j | 0 <= i < j < |b| ensures b[i].id != b[j].id {
      if b[i].id == b[j].id {
        assert b[i] in multiset(a) && b[j] in multiset(a);
        var p :| 0 <= p < |a| && a[p] == b[i];
        var q :| 0 <= q < |a| && a[q] == b[j];
        AtMostOnce(a, b[i]);
        TwiceInSeq(b, i, j);
      }
    }
  }

  lemma {:induction false} AtMostOnce(a: seq<Bid>, b: Bid)
    requires DistinctIds(a)
    ensures multiset(a)[b] <= 1
  {
    if |a| > 0 {
      var front, last := a[..|a| - 1], a[|a| - 1];
      AtMostOnce(front, b);
      assert a == front + [last];
      assert last !in front;
    }
  }

  lemma TwiceInSeq(b: seq<Bid>, i: nat, j: nat)
    requires i < j < |b| && b[i] == b[j]
    ensures multiset(b)[b[i]] >= 2
  {
    assert b == b[..i] + [b[i]] + b[i + 1..j] + [b[j]] + b[j + 1..];
  }

  /** What `get_best_bid` finds is the head of the ranking; it finds nothing exactly when the ranking is empty. */
  lemma BestIsHeadOfRanking(records: seq<Bid>)
    ensures var placed := PlacedRecords(records);
      && (BestOf(placed) == None <==> Ranking(placed) == [])
      && (BestOf(placed).Some? ==> BestOf(placed).value == Ranking(placed)[0])
      && (BestOf(placed).Some? ==> forall b :: b in placed ==> CompareBids(b, BestOf(placed).value) != Greater)
  {
  }

  function BestOf(bids: seq<Bid>): Option<Bid> {
    if |bids| == 0 then None else Some(bids[BestIndex(bids)])
  }

  lemma PlacedAppend(records: seq<Bid>, i: nat)
    requires i < |records|
    ensures PlacedRecords(records[..i + 1])
         == if records[i].status == Placed then PlacedRecords(records[..i]) + [records[i]] else PlacedRecords(records[..i])
  {
    assert records[..i + 1][..i] == records[..i];
  }

  /** `select_best_placed_bid`: one pass over all records. */
  method SelectBestPlacedBid(records: seq<Bid>) returns (best: Option<Bid>)
    ensures best == BestOf(PlacedRecords(records))
  {
    best := None;
    for idx := 0 to |records|
      invariant best == BestOf(PlacedRecords(records[..idx]))
    {
      PlacedAppend(records, idx);
      var candidate := records[idx];
      if candidate.status != Placed { continue; }
      BestOfAppend(PlacedRecords(records[..idx]), candidate);
      match best
      case None => best := Some(candidate);
      case Some(current) =>
        if CompareBids(candidate, current) == Greater {
          best := Some(candidate);
        }
    }
    assert records[..|records|] == records;
  }

  lemma BestOfAppend(bids: seq<Bid>, b: Bid)
    ensures BestOf(bids + [b])
         == if |bids| == 0 || CompareBids(b, bids[BestIndex(bids)]) == Greater then Some(b) else BestOf(bids)
  {
    assert (bids + [b])[..|bids|] == bids;
  }

  /** `select_best_index`. */
  method SelectBestIndex(bids: seq<Bid>) returns (best: Option<nat>)
    ensures best == if |bids| == 0 then None else Some(BestIndex(bids))
  {
    hide CompareBids;
    if |bids| == 0 { return None; }
    var bestIdx, bestBid := 0, bids[0];
    for idx := 1 to |bids|
      invariant bestIdx == BestIndex(bids[..idx]) && bestIdx < idx && bestBid == bids[bestIdx]
    {
      assert bids[..idx + 1][..idx] == bids[..idx];
      if CompareBids(bids[idx], bestBid) == Greater {
        bestIdx, bestBid := idx, bids[idx];
      }
    }
    assert bids[..|bids|] == bids;
    best := Some(bestIdx);
  }

  method CollectPlaced(records: seq<Bid>) returns (placed: seq<Bid>)
    ensures placed == PlacedRecords(records)
  {
    placed := [];
    for idx := 0 to |records|
      invariant placed == PlacedRecords(records[..idx])
    {
      PlacedAppend(records, idx);
      if records[idx].status == Placed {
        placed := placed + [records[idx]];
      }
    }
    assert records[..|records|] == records;
  }

  method CopyWithout(bids: seq<Bid>, i: nat) returns (rest: seq<Bid>)
    requires i < |bids|
    ensures rest == Without(bids, i)
  {
    rest := [];
    for copy := 0 to |bids|
      invariant rest == if copy <= i then bids[..copy] else bids[..i] + bids[i + 1..copy]
    {
      if copy != i {
        rest := rest + [bids[copy]];
      }
    }
  }

  /** The loops of `rank_bids`. */
  method RankRecords(records: seq<Bid>) returns (ranked: seq<Bid>)
    ensures ranked == Ranking(PlacedRecords(records)) && RankedByProfit(ranked)
  {
    hide RankedByProfit, Descending, Ranking, PlacedRecords, CompareBids, Without;
    var remaining := CollectPlaced(records);
    RankingSorts(remaining);
    DescendingByProfit(Ranking(remaining));
    ranked := [];
    while |remaining| > 0
      invariant ranked + Ranking(remaining) == Ranking(PlacedRecords(records))
      decreases |remaining|
    {
      RankingOf(remaining);
      var best := SelectBestIndex(remaining);
      ranked := ranked + [remaining[best.value]];
      remaining := CopyWithout(remaining, best.value);
    }
    RankingOf(remaining);
  }

  lemma RankingOf(bids: seq<Bid>)
    ensures Ranking(bids) == if |bids| == 0 then [] else [bids[BestIndex(bids)]] + Ranking(Without(bids, BestIndex(bids)))
  {
  }

  /** `rank_bids` on the stored book. */
  method RankBids(store: BidStorage, now: nat, id: InvoiceId) returns (ranked: seq<Bid>)
    modifies store
    ensures store.Contents() == RefreshInvoice(old(store.Contents()), now, id)
    ensures ranked == Ranking(PlacedRecords(Records(store.bids, IdsOf(store.byInvoice, id)))) && RankedByProfit(ranked)
  {
    var records := store.GetBidRecordsForInvoice(now, id);
    ranked := RankRecords(records);
  }

  /** `get_best_bid` on the stored book. */
  method GetBestBid(store: BidStorage, now: nat, id: InvoiceId) returns (best: Option<Bid>)
    modifies store
    ensures store.Contents() == RefreshInvoice(old(store.Contents()), now, id)
    ensures var placed := PlacedRecords(Records(store.bids, IdsOf(store.byInvoice, id)));
      && best == BestOf(placed) && (best == None <==> placed == [])
      && (best.Some? ==> best.value in placed && forall b :: b in placed ==> !Outranks(b, best.value))
  {
    var records := store.GetBidRecordsForInvoice(now, id);
    BestByProfit(PlacedRecords(records));
    best := SelectBestPlacedBid(records);
  }

  lemma RecordsAppend(bids: map<BidId, Bid>, ids: seq<BidId>, k: BidId)
    requires k in bids
    ensures Records(bids, ids + [k]) == Records(bids, ids) + [bids[k]]
    ensures PlacedRecords(Records(bids, ids + [k]))
         == PlacedRecords(Records(bids, ids)) + if bids[k].status == Placed then [bids[k]] else []
  {
    var records := Records(bids, ids);
    assert (ids + [k])[..|ids|] == ids;
    assert (records + [bids[k]])[..|records|] == records;
  }

  /** The records are the placed bids of the ids, once each. */
  ghost predicate PlacedUnder(bids: map<BidId, Bid>, ids: seq<BidId>, placed: seq<Bid>) {
    && (forall b :: b in placed <==> b.id in ids && b.id in bids && bids[b.id] == b && b.status == Placed)
    && DistinctIds(placed)
  }

  lemma PlacedUnderOneMore(bids: map<BidId, Bid>, ids: seq<BidId>, placed: seq<Bid>, k: BidId)
    requires PlacedUnder(bids, ids, placed) && k !in ids && k in bids && bids[k].id == k
    ensures PlacedUnder(bids, ids + [k], placed + if bids[k].status == Placed then [bids[k]] else [])
  {
    assert forall b :: b in placed ==> b.id != k;
  }

  lemma {:induction false} RecordsOfIndex(bids: map<BidId, Bid>, ids: seq<BidId>)
    requires NoDup(ids)
    requires forall k :: k in ids ==> k in bids && bids[k].id == k
    ensures PlacedUnder(bids, ids, PlacedRecords(Records(bids, ids)))
  {
    hide PlacedRecords, Records, PlacedUnder, NoDup;
    if |ids| == 0 {
      assert ids == [];
      NoRecords(bids);
    } else {
      var front, last := ids[..|ids| - 1], ids[|ids| - 1];
      assert ids == front + [last];
      FrontNoDup(ids);
      RecordsOfIndex(bids, front);
      RecordsAppend(bids, front, last);
      PlacedUnderOneMore(bids, front, PlacedRecords(Records(bids, front)), last);
    }
  }

  lemma NoRecords(bids: map<BidId, Bid>)
    ensures PlacedUnder(bids, [], PlacedRecords(Records(bids, [])))
  {
  }

  lemma FrontNoDup(ids: seq<BidId>)
    requires NoDup(ids) && |ids| > 0
    ensures NoDup(ids[..|ids| - 1]) && ids[|ids| - 1] !in ids[..|ids| - 1]
  {
  }

  /** A Placed bid of the invoice that has not lapsed, read off the table as it was before the refresh. */
  predicate LiveRecord(book: Book, now: nat, id: InvoiceId, b: Bid) {
    b.id in book.bids && book.bids[b.id] == b && b.status == Placed && b.invoice == id && now <= b.expires
  }

  lemma SamePlaced(placed: seq<Bid>)
    ensures forall b :: b in Ranking(placed) <==> b in placed
  {
    hide Ranking, Descending;
    RankingSorts(placed);
    forall b ensures b in Ranking(placed) <==> b in placed {
      assert b in multiset(Ranking(placed)) <==> b in multiset(placed);
    }
  }

  /** What is Placed under the refreshed index is what was live before. */
  lemma PlacedAreLive(book: Book, now: nat, id: InvoiceId, placed: seq<Bid>)
    requires BookOk(book)
    requires var after := RefreshInvoice(book, now, id); PlacedUnder(after.bids, IdsOf(after.byInvoice, id), placed)
    ensures forall b :: b in placed <==> LiveRecord(book, now, id, b)
  {
    hide DistinctIds, Kept, PlacedOn, TableOk, NoDup;
    var after := RefreshInvoice(book, now, id);
    RefreshInvoiceOk(book, now, id);
    RefreshLeavesNoneLapsed(book.bids, book.byInvoice, ByInvoice, now, id);
    forall b ensures b in placed <==> LiveRecord(book, now, id, b) {
      if LiveRecord(book, now, id, b) {
        assert after.bids[b.id] == b;
        assert b.id in IdsOf(after.byInvoice, KeyOf(b, ByInvoice));
      }
    }
  }

  lemma RefreshedIndex(book: Book, now: nat, id: InvoiceId)
    requires BookOk(book)
    ensures var after := RefreshInvoice(book, now, id); var ids := IdsOf(after.byInvoice, id);
      NoDup(ids) && forall k :: k in ids ==> k in after.bids && after.bids[k].id == k
  {
    hide RefreshInvoice, PlacedOn;
    RefreshInvoiceOk(book, now, id);
  }

  /** On a book in order, what is ranked is exactly the invoice's placed bids that have not lapsed, each once. */
  lemma RankedAreTheLiveBids(book: Book, now: nat, id: InvoiceId)
    requires BookOk(book)
    ensures var after := RefreshInvoice(book, now, id);
      var ranked := Ranking(PlacedRecords(Records(after.bids, IdsOf(after.byInvoice, id))));
      && (forall b :: b in ranked <==> LiveRecord(book, now, id, b))
      && DistinctIds(ranked) && Descending(ranked) && RankedByProfit(ranked)
  {
    hide BookOk, RefreshInvoice, PlacedRecords, Records, Ranking, DistinctIds, Descending, NoDup, LiveRecord,
         RankedByProfit;
    var after := RefreshInvoice(book, now, id);
    var ids := IdsOf(after.byInvoice, id);
    var placed := PlacedRecords(Records(after.bids, ids));
    RefreshedIndex(book, now, id);
    RecordsOfIndex(after.bids, ids);
    PlacedAreLive(book, now, id, placed);
    SamePlaced(placed);
    RankingSorts(placed);
    DistinctIdsPermute(placed, Ranking(placed));
    DescendingByProfit(Ranking(placed));
  }

  /** The best bid of an invoice is a live one, and no live bid on it brings a higher profit or wins a tie against it. */
  lemma BestIsTheMostProfitable(book: Book, now: nat, id: InvoiceId)
    requires BookOk(book)
    ensures var after := RefreshInvoice(book, now, id);
      var best := BestOf(PlacedRecords(Records(after.bids, IdsOf(after.byInvoice, id))));
      && (best == None <==> forall b :: !LiveRecord(book, now, id, b))
      && (best.Some? ==>
            && LiveRecord(book, now, id, best.value)
            && forall b :: LiveRecord(book, now, id, b) ==> !Outranks(b, best.value))
  {
    hide BookOk, RefreshInvoice, PlacedRecords, Records, DistinctIds, NoDup, LiveRecord, Outranks, BestOf;
    var after := RefreshInvoice(book, now, id);
    var ids := IdsOf(after.byInvoice, id);
    var placed := PlacedRecords(Records(after.bids, ids));
    RefreshedIndex(book, now, id);
    RecordsOfIndex(after.bids, ids);
    PlacedAreLive(book, now, id, placed);
    BestByProfit(placed);
    if |placed| > 0 {
      assert placed[0] in placed;
    }
  }
}
