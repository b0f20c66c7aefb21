/**
  The bid table and its two indexes (`bid.rs`). Expired bids are pruned from the invoice
  index by one function and from the investor index by another.
 */
module BidBook {
  import opened Base
  import opened Lists

  const MAX_BIDS_PER_INVOICE := 50

  datatype BidStatus = Placed | Withdrawn | Accepted | Expired | Cancelled

  datatype Bid = Bid(
    id: BidId, invoice: InvoiceId, investor: Address, amount: int, expectedReturn: int,
    timestamp: nat, status: BidStatus, expires: nat)

  datatype Book = Book(
    bids: map<BidId, Bid>,
    byInvoice: map<InvoiceId, seq<BidId>>,
    byInvestor: map<Address, seq<BidId>>,
    count: nat)

  function IdsOf(index: map<nat, seq<BidId>>, key: nat): seq<BidId> {
    if key in index then index[key] else []
  }

  predicate IsExpired(bid: Bid, now: nat) { now > bid.expires }

  /** A bid that is still Placed although its deadline has passed. */
  predicate Lapsed(bid: Bid, now: nat) { bid.status == Placed && IsExpired(bid, now) }

  predicate Terminal(status: BidStatus) { status == Accepted || status == Withdrawn || status == BidStatus.Cancelled }

  /** The index entries a cleanup keeps. */
  function Keeps(bids: map<BidId, Bid>, now: nat): set<BidId> {
    set k | k in bids && bids[k].status != Expired && !Lapsed(bids[k], now)
  }

  /** The table after every lapsed bid listed in `ids` has become Expired. */
  function Lapse(bids: map<BidId, Bid>, ids: seq<BidId>, now: nat): map<BidId, Bid> {
    map k | k in bids :: if k in ids && Lapsed(bids[k], now) then bids[k].(status := Expired) else bids[k]
  }

  function Kept(book: Book, now: nat, ids: seq<BidId>): seq<BidId> { Filter(ids, Keeps(book.bids, now)) }

  /** `refresh_expired_bids` / `cleanup_expired_bids`. */
  function RefreshInvoice(book: Book, now: nat, id: InvoiceId): Book {
    var ids := IdsOf(book.byInvoice, id);
    var kept := Kept(book, now, ids);
    book.(bids := Lapse(book.bids, ids, now),
          byInvoice := if |kept| < |ids| then book.byInvoice[id := kept] else book.byInvoice)
  }

  /** The number a cleanup reports. */
  function Cleaned(book: Book, now: nat, id: InvoiceId): int {
    |IdsOf(book.byInvoice, id)| - |Kept(book, now, IdsOf(book.byInvoice, id))|
  }

  /** `refresh_investor_bids`. */
  function RefreshInvestor(book: Book, now: nat, investor: Address): Book {
    var ids := IdsOf(book.byInvestor, investor);
    var kept := Kept(book, now, ids);
    book.(bids := Lapse(book.bids, ids, now),
          byInvestor := if |kept| < |ids| then book.byInvestor[investor := kept] else book.byInvestor)
  }

  function SetStatus(book: Book, k: BidId, status: BidStatus): Book
    requires k in book.bids
  {
    book.(bids := book.bids[k := book.bids[k].(status := status)])
  }

  /** A new bid under the next id, entered in the table and in both indexes. */
  function Place(book: Book, id: InvoiceId, investor: Address, amount: int, expectedReturn: int, now: nat,
                 expires: nat): Book {
    var k := book.count + 1;
    Book(book.bids[k := Bid(k, id, investor, amount, expectedReturn, now, Placed, expires)],
         book.byInvoice[id := AddUnique(IdsOf(book.byInvoice, id), k)],
         book.byInvestor[investor := AddUnique(IdsOf(book.byInvestor, investor), k)],
         k)
  }

  function PlacedIds(bids: map<BidId, Bid>): set<BidId> { set k | k in bids && bids[k].status == Placed }

  /** Counted from the table, without any index. */
  function PlacedOn(book: Book, id: InvoiceId): set<BidId> {
    set k | k in book.bids && book.bids[k].status == Placed && book.bids[k].invoice == id
  }

  function PlacedBy(book: Book, investor: Address): set<BidId> {
    set k | k in book.bids && book.bids[k].status == Placed && book.bids[k].investor == investor
  }

  /** The accepted bids on an invoice. */
  function AcceptedOn(book: Book, id: InvoiceId): set<Bid> {
    set k | k in book.bids && book.bids[k].status == Accepted && book.bids[k].invoice == id :: book.bids[k]
  }

  /** The records `get_bid_records_for_invoice` returns, once the index is refreshed. */
  function Records(bids: map<BidId, Bid>, ids: seq<BidId>): seq<Bid> {
    if |ids| == 0 then []
    else if ids[|ids| - 1] in bids then Records(bids, ids[..|ids| - 1]) + [bids[ids[|ids| - 1]]]
    else Records(bids, ids[..|ids| - 1])
  }

  ghost predicate TableOk(book: Book) {
    && (forall k :: k in book.bids ==> 1 <= k <= book.count && book.bids[k].id == k && book.bids[k].amount > 0)
    && (forall j, k ::
         (j in book.bids && k in book.bids && book.bids[j].status == Placed && book.bids[k].status == Placed
          && book.bids[j].invoice == book.bids[k].invoice && book.bids[j].investor == book.bids[k].investor) ==> j == k)
  }

  /** Which of its two indexes a bid is looked up in. */
  datatype Side = ByInvoice | ByInvestor

  function KeyOf(bid: Bid, side: Side): nat { if side == ByInvoice then bid.invoice else bid.investor }

  /** The index lists are duplicate-free, hold only their own bids, and miss no bid that is not Expired. */
  ghost predicate IndexOk(bids: map<BidId, Bid>, index: map<nat, seq<BidId>>, side: Side) {
    && (forall i :: NoDup(IdsOf(index, i)))
    && (forall i, k :: k in IdsOf(index, i) ==> k in bids && KeyOf(bids[k], side) == i)
    && (forall k :: k in bids && bids[k].status != Expired ==> k in IdsOf(index, KeyOf(bids[k], side)))
  }

  /** What every run keeps: both indexes are duplicate-free and list every bid that is not Expired. */
  ghost predicate BookOk(book: Book) {
    && TableOk(book)
    && IndexOk(book.bids, book.byInvoice, ByInvoice)
    && IndexOk(book.bids, book.byInvestor, ByInvestor)
    && (forall i :: |PlacedOn(book, i)| <= MAX_BIDS_PER_INVOICE)
  }

  /**
    How a table may change: bids are never dropped or rewritten, only their status moves, and terminal bids
    stay as they are.
   */
  ghost predicate Ages(book: Book, book': Book) {
    && book'.bids.Keys == book.bids.Keys && book'.count == book.count
    && forall k :: k in book.bids ==>
      || book'.bids[k] == book.bids[k]
      || (book.bids[k].status == Placed && book'.bids[k] == book.bids[k].(status := Expired))
  }

  lemma RefreshAges(book: Book, now: nat, key: nat)
    ensures Ages(book, RefreshInvoice(book, now, key)) && Ages(book, RefreshInvestor(book, now, key))
  {
  }

  /** Ageing leaves the accepted bids alone and never adds a placed one. */
  lemma AgeingKeepsAccepted(book: Book, book': Book, id: InvoiceId)
    requires Ages(book, book')
    ensures AcceptedOn(book', id) == AcceptedOn(book, id)
    ensures PlacedOn(book', id) <= PlacedOn(book, id)
  {
    forall b ensures b in AcceptedOn(book', id) <==> b in AcceptedOn(book, id) {
      if b in AcceptedOn(book', id) {
        var k :| k in book'.bids && book'.bids[k] == b && b.status == Accepted;
        assert book.bids[k] == b;
      }
      if b in AcceptedOn(book, id) {
        var k :| k in book.bids && book.bids[k] == b && b.status == Accepted;
        assert book'.bids[k] == b;
      }
    }
  }

  /** A cleanup drops exactly the expired and unknown entries, reports how many, and touches no terminal bid. */
  lemma CleanupIsExact(book: Book, now: nat, id: InvoiceId)
    ensures var book' := RefreshInvoice(book, now, id);
      && IdsOf(book'.byInvoice, id) == Kept(book, now, IdsOf(book.byInvoice, id))
      && (forall k :: k in IdsOf(book'.byInvoice, id) <==>
            k in IdsOf(book.byInvoice, id) && k in book.bids && book'.bids[k].status != Expired)
      && (forall k :: k in book.bids && Terminal(book.bids[k].status) ==> book'.bids[k] == book.bids[k])
      && (forall k :: k in IdsOf(book'.byInvoice, id) ==> !Lapsed(book'.bids[k], now))
      && 0 <= Cleaned(book, now, id) == |IdsOf(book.byInvoice, id)| - |IdsOf(book'.byInvoice, id)|
      && (Cleaned(book, now, id) == 0 <==> IdsOf(book'.byInvoice, id) == IdsOf(book.byInvoice, id))
  {
    var ids := IdsOf(book.byInvoice, id);
    FilterMembers(ids, Keeps(book.bids, now));
    FilterShorter(ids, Keeps(book.bids, now));
    FilterAll(ids, Keeps(book.bids, now));
  }

  /** At one ledger time a second cleanup changes nothing and reports 0. */
  lemma CleanupIdempotent(book: Book, now: nat, id: InvoiceId)
    ensures var book' := RefreshInvoice(book, now, id);
      RefreshInvoice(book', now, id) == book' && Cleaned(book', now, id) == 0
  {
    var book' := RefreshInvoice(book, now, id);
    CleanupIsExact(book, now, id);
    var kept := IdsOf(book'.byInvoice, id);
    FilterAll(kept, Keeps(book'.bids, now));
    assert Lapse(book'.bids, kept, now) == book'.bids;
  }

  /** The investor's cleanup drops entries by the same rule and is idempotent too. */
  lemma InvestorCleanupIdempotent(book: Book, now: nat, investor: Address)
    ensures var book' := RefreshInvestor(book, now, investor);
      && RefreshInvestor(book', now, investor) == book'
      && IdsOf(book'.byInvestor, investor) == Kept(book, now, IdsOf(book.byInvestor, investor))
      && (forall k :: k in IdsOf(book'.byInvestor, investor) ==> k in book'.bids && !Lapsed(book'.bids[k], now))
  {
    var book' := RefreshInvestor(book, now, investor);
    var ids := IdsOf(book.byInvestor, investor);
    FilterMembers(ids, Keeps(book.bids, now));
    FilterShorter(ids, Keeps(book.bids, now));
    FilterAll(ids, Keeps(book.bids, now));
    var kept := IdsOf(book'.byInvestor, investor);
    assert kept == Kept(book, now, ids);
    FilterAll(kept, Keeps(book'.bids, now));
    assert Lapse(book'.bids, kept, now) == book'.bids;
  }

  /** The lists of an index after one of them is refreshed. */
  lemma RefreshedLists(index: map<nat, seq<BidId>>, bids: map<BidId, Bid>, now: nat, key: nat, i: nat)
    ensures var ids := IdsOf(index, key);
      var kept := Filter(ids, Keeps(bids, now));
      IdsOf(if |kept| < |ids| then index[key := kept] else index, i) == if i == key then kept else IdsOf(index, i)
  {
    FilterShorter(IdsOf(index, key), Keeps(bids, now));
    FilterAll(IdsOf(index, key), Keeps(bids, now));
  }

  /** Refreshing one list of an index keeps the index in order. */
  lemma IndexAfterRefresh(index: map<nat, seq<BidId>>, bids: map<BidId, Bid>, now: nat, key: nat, side: Side)
    requires IndexOk(bids, index, side)
    ensures var ids := IdsOf(index, key);
      var kept := Filter(ids, Keeps(bids, now));
      IndexOk(Lapse(bids, ids, now), if |kept| < |ids| then index[key := kept] else index, side)
  {
    var ids := IdsOf(index, key);
    var kept := Filter(ids, Keeps(bids, now));
    var index' := if |kept| < |ids| then index[key := kept] else index;
    FilterMembers(ids, Keeps(bids, now));
    forall i
      ensures NoDup(IdsOf(index', i))
      ensures forall k :: k in IdsOf(index', i) ==> k in bids && KeyOf(bids[k], side) == i
    {
      RefreshedLists(index, bids, now, key, i);
      FilterNoDup(ids, Keeps(bids, now));
    }
    var bids' := Lapse(bids, ids, now);
    forall k | k in bids' && bids'[k].status != Expired ensures k in IdsOf(index', KeyOf(bids'[k], side)) {
      RefreshedLists(index, bids, now, key, KeyOf(bids[k], side));
      assert k in IdsOf(index, KeyOf(bids[k], side));
    }
  }

  /** The other index does not notice. */
  lemma IndexUnderAging(book: Book, book': Book, index: map<nat, seq<BidId>>, side: Side)
    requires IndexOk(book.bids, index, side) && Ages(book, book')
    ensures IndexOk(book'.bids, index, side)
  {
    hide NoDup, IdsOf;
  }

  lemma TableUnderAging(book: Book, book': Book)
    requires TableOk(book) && Ages(book, book')
    ensures TableOk(book')
  {
  }

  lemma LiveBound(book: Book, book': Book)
    requires Ages(book, book') && forall i :: |PlacedOn(book, i)| <= MAX_BIDS_PER_INVOICE
    ensures forall i :: |PlacedOn(book', i)| <= MAX_BIDS_PER_INVOICE
  {
    forall i ensures |PlacedOn(book', i)| <= MAX_BIDS_PER_INVOICE {
      AgeingKeepsAccepted(book, book', i);
      SubsetCard(PlacedOn(book', i), PlacedOn(book, i));
    }
  }

  lemma RefreshInvoiceOk(book: Book, now: nat, id: InvoiceId)
    requires BookOk(book)
    ensures BookOk(RefreshInvoice(book, now, id))
  {
    var book' := RefreshInvoice(book, now, id);
    RefreshAges(book, now, id);
    LiveBound(book, book');
    TableUnderAging(book, book');
    IndexAfterRefresh(book.byInvoice, book.bids, now, id, ByInvoice);
    IndexUnderAging(book, book', book.byInvestor, ByInvestor);
  }

  lemma RefreshInvestorOk(book: Book, now: nat, investor: Address)
    requires BookOk(book)
    ensures BookOk(RefreshInvestor(book, now, investor))
  {
    var book' := RefreshInvestor(book, now, investor);
    RefreshAges(book, now, investor);
    LiveBound(book, book');
    TableUnderAging(book, book');
    IndexAfterRefresh(book.byInvestor, book.bids, now, investor, ByInvestor);
    IndexUnderAging(book, book', book.byInvoice, ByInvoice);
  }

  /** Settling a bid that has not expired on a terminal status keeps the book in order. */
  lemma SetStatusOk(book: Book, k: BidId, status: BidStatus)
    requires BookOk(book) && k in book.bids && Terminal(status) && book.bids[k].status != Expired
    ensures BookOk(SetStatus(book, k, status))
  {
    hide IndexOk, TableOk, PlacedOn;
    TableSetStatus(book, k, status);
    IndexSetStatus(book, k, status, book.byInvoice, ByInvoice);
    IndexSetStatus(book, k, status, book.byInvestor, ByInvestor);
    forall i ensures |PlacedOn(SetStatus(book, k, status), i)| <= MAX_BIDS_PER_INVOICE {
      FewerPlaced(book, k, status, i);
    }
  }

  lemma TableSetStatus(book: Book, k: BidId, status: BidStatus)
    requires TableOk(book) && k in book.bids && Terminal(status)
    ensures TableOk(SetStatus(book, k, status))
  {
  }

  lemma FewerPlaced(book: Book, k: BidId, status: BidStatus, i: InvoiceId)
    requires k in book.bids && Terminal(status)
    ensures |PlacedOn(SetStatus(book, k, status), i)| <= |PlacedOn(book, i)|
  {
    SubsetCard(PlacedOn(SetStatus(book, k, status), i), PlacedOn(book, i));
  }

  lemma IndexSetStatus(book: Book, k: BidId, status: BidStatus, index: map<nat, seq<BidId>>, side: Side)
    requires IndexOk(book.bids, index, side) && k in book.bids && book.bids[k].status != Expired
    ensures IndexOk(SetStatus(book, k, status).bids, index, side)
  {
    hide NoDup;
  }

  lemma PlaceOk(book: Book, id: InvoiceId, investor: Address, amount: int, expectedReturn: int, now: nat, expires: nat)
    requires BookOk(book) && amount > 0
    requires |PlacedOn(book, id)| < MAX_BIDS_PER_INVOICE
    requires forall k :: k in PlacedOn(book, id) ==> book.bids[k].investor != investor
    ensures BookOk(Place(book, id, investor, amount, expectedReturn, now, expires))
  {
    var book' := Place(book, id, investor, amount, expectedReturn, now, expires);
    PlaceTableOk(book, id, investor, amount, expectedReturn, now, expires);
    IndexWithNew(book.byInvoice, book.bids, book'.bids[book.count + 1], ByInvoice);
    IndexWithNew(book.byInvestor, book.bids, book'.bids[book.count + 1], ByInvestor);
    forall i ensures |PlacedOn(book', i)| <= MAX_BIDS_PER_INVOICE {
      PlaceCounts(book, id, investor, amount, expectedReturn, now, expires, i);
    }
  }

  lemma PlaceTableOk(book: Book, id: InvoiceId, investor: Address, amount: int, expectedReturn: int, now: nat,
                     expires: nat)
    requires TableOk(book) && amount > 0
    requires forall k :: k in PlacedOn(book, id) ==> book.bids[k].investor != investor
    ensures TableOk(Place(book, id, investor, amount, expectedReturn, now, expires))
    ensures book.count + 1 !in book.bids
  {
    forall j | j in book.bids && book.bids[j].status == Placed && book.bids[j].invoice == id
      ensures book.bids[j].investor != investor
    {
      assert j in PlacedOn(book, id);
    }
  }

  lemma PlaceCounts(book: Book, id: InvoiceId, investor: Address, amount: int, expectedReturn: int, now: nat,
                    expires: nat, i: InvoiceId)
    requires book.count + 1 !in book.bids
    ensures PlacedOn(Place(book, id, investor, amount, expectedReturn, now, expires), i)
         == PlacedOn(book, i) + if i == id then {book.count + 1} else {}
    ensures |PlacedOn(Place(book, id, investor, amount, expectedReturn, now, expires), i)|
         == |PlacedOn(book, i)| + if i == id then 1 else 0
  {
  }

  lemma IndexWithNew(index: map<nat, seq<BidId>>, bids: map<BidId, Bid>, bid: Bid, side: Side)
    requires IndexOk(bids, index, side) && bid.id !in bids
    ensures IndexOk(bids[bid.id := bid], index[KeyOf(bid, side) := AddUnique(IdsOf(index, KeyOf(bid, side)), bid.id)], side)
  {
    hide NoDup;
    var key, bids' := KeyOf(bid, side), bids[bid.id := bid];
    var index' := index[key := AddUnique(IdsOf(index, key), bid.id)];
    assert bid.id !in IdsOf(index, key);
    AppendNoDup(IdsOf(index, key), bid.id);
    assert forall i :: IdsOf(index', i) == if i == key then IdsOf(index, key) + [bid.id] else IdsOf(index, i);
    forall k | k in bids' && bids'[k].status != Expired ensures k in IdsOf(index', KeyOf(bids'[k], side)) {
      assert k != bid.id ==> k in IdsOf(index, KeyOf(bids[k], side));
    }
  }

  lemma AppendNoDup(ids: seq<BidId>, k: BidId)
    requires NoDup(ids) && k !in ids
    ensures NoDup(ids + [k])
  {
  }

  lemma PlaceKeepsAccepted(book: Book, id: InvoiceId, investor: Address, amount: int, expectedReturn: int, now: nat,
                          expires: nat, i: InvoiceId)
    requires TableOk(book)
    ensures AcceptedOn(Place(book, id, investor, amount, expectedReturn, now, expires), i) == AcceptedOn(book, i)
  {
    var book' := Place(book, id, investor, amount, expectedReturn, now, expires);
    assert book.count + 1 !in book.bids;
    forall b ensures b in AcceptedOn(book', i) <==> b in AcceptedOn(book, i) {
      if b in AcceptedOn(book, i) {
        var j :| j in book.bids && book.bids[j] == b && b.status == Accepted;
        assert book'.bids[j] == b;
      }
    }
  }

  /** Counting through either index gives the number of placed bids in the table. */
  lemma ActiveCountsAreDirect(book: Book, key: nat)
    requires BookOk(book)
    ensures |Filter(IdsOf(book.byInvoice, key), PlacedIds(book.bids))| == |PlacedOn(book, key)|
    ensures |Filter(IdsOf(book.byInvestor, key), PlacedIds(book.bids))| == |PlacedBy(book, key)|
  {
    FilterCounts(IdsOf(book.byInvoice, key), PlacedIds(book.bids), PlacedOn(book, key));
    FilterCounts(IdsOf(book.byInvestor, key), PlacedIds(book.bids), PlacedBy(book, key));
  }

  /** After a refresh no placed bid of that key is past its deadline. */
  lemma RefreshLeavesNoneLapsed(bids: map<BidId, Bid>, index: map<nat, seq<BidId>>, side: Side, now: nat, key: nat)
    requires IndexOk(bids, index, side)
    ensures var bids' := Lapse(bids, IdsOf(index, key), now);
      forall k :: k in bids' && bids'[k].status == Placed && KeyOf(bids'[k], side) == key ==> !IsExpired(bids'[k], now)
  {
    var bids' := Lapse(bids, IdsOf(index, key), now);
    forall k | k in bids' && bids'[k].status == Placed && KeyOf(bids'[k], side) == key ensures !IsExpired(bids'[k], now) {
      assert k in IdsOf(index, KeyOf(bids[k], side));
    }
  }

  lemma LapseNone(bids: map<BidId, Bid>, now: nat)
    ensures Lapse(bids, [], now) == bids && Ended(bids, bids) == {}
  {
  }

  /** Lapsing one more id after a list of them is lapsing the longer list, and does not change which entries stay. */
  lemma LapseTwice(bids: map<BidId, Bid>, ids: seq<BidId>, k: BidId, now: nat)
    ensures Lapse(Lapse(bids, ids, now), [k], now) == Lapse(bids, ids + [k], now)
    ensures k in Keeps(Lapse(bids, ids, now), now) <==> k in Keeps(bids, now)
  {
  }

  /** The bids that were Placed in `before` and are Expired in `after`. */
  function Ended(before: map<BidId, Bid>, after: map<BidId, Bid>): set<BidId> {
    set k | k in before && k in after && before[k].status == Placed && after[k].status == Expired
  }

  lemma EndedOneMore(bids: map<BidId, Bid>, ids: seq<BidId>, k: BidId, now: nat)
    ensures var lapsed := Lapse(bids, ids, now);
      |Ended(bids, Lapse(bids, ids + [k], now))|
      == |Ended(bids, lapsed)| + if k in lapsed && Lapsed(lapsed[k], now) then 1 else 0
  {
    var lapsed := Lapse(bids, ids, now);
    var more := if k in lapsed && Lapsed(lapsed[k], now) then {k} else {};
    assert Ended(bids, Lapse(bids, ids + [k], now)) == Ended(bids, lapsed) + more;
  }

  /** The bid storage, with its table and index lists. */
  class BidStorage {
    var bids: map<BidId, Bid>
    var byInvoice: map<InvoiceId, seq<BidId>>
    var byInvestor: map<Address, seq<BidId>>
    var count: nat

    function Contents(): Book
      reads this
    {
      Book(bids, byInvoice, byInvestor, count)
    }

    constructor ()
      ensures Contents() == Book(map[], map[], map[], 0)
    {
      bids, byInvoice, byInvestor, count := map[], map[], map[], 0;
    }

    /** Put back an earlier state of the storage. */
    method Restore(book: Book)
      modifies this
      ensures Contents() == book
    {
      bids, byInvoice, byInvestor, count := book.bids, book.byInvoice, book.byInvestor, book.count;
    }

    /** One step of either cleanup loop: expire the bid if it has lapsed, and say whether its entry stays. */
    method VisitEntry(k: BidId, now: nat) returns (stays: bool, lapsed: bool)
      modifies this`bids
      ensures bids == Lapse(old(bids), [k], now)
      ensures stays <==> k in Keeps(old(bids), now)
      ensures lapsed <==> k in old(bids) && Lapsed(old(bids)[k], now)
    {
      stays, lapsed := false, false;
      if k in bids {
        var bid := bids[k];
        if Terminal(bid.status) {
          stays := true;
        } else if bid.status == Placed && IsExpired(bid, now) {
          bids := bids[k := bid.(status := Expired)];
          lapsed := true;
        } else if bid.status == Expired {
        } else {
          stays := true;
        }
      }
    }

    method RefreshExpiredBids(now: nat, id: InvoiceId) returns (cleaned: nat)
      modifies this
      ensures Contents() == RefreshInvoice(old(Contents()), now, id)
      ensures cleaned == Cleaned(old(Contents()), now, id)
    {
      hide Lapse, Filter, Keeps, Lapsed;
      var ids := IdsOf(byInvoice, id);
      var active: seq<BidId> := [];
      cleaned := 0;
      FilterNone(Keeps(bids, now));
      LapseNone(bids, now);
      for i := 0 to |ids|
        modifies this`bids
        invariant bids == Lapse(old(bids), ids[..i], now)
        invariant active == Filter(ids[..i], Keeps(old(bids), now))
        invariant cleaned == i - |active|
      {
        assert ids[..i + 1] == ids[..i] + [ids[i]];
        FilterAppend(ids[..i], ids[i], Keeps(old(bids), now));
        LapseTwice(old(bids), ids[..i], ids[i], now);
        var stays, _ := VisitEntry(ids[i], now);
        if stays {
          active := active + [ids[i]];
        } else {
          cleaned := cleaned + 1;
        }
      }
      assert ids[..|ids|] == ids;
      FilterShorter(ids, Keeps(old(bids), now));
      if |active| < |ids| || cleaned > 0 {
        byInvoice := byInvoice[id := active];
      }
    }

    method RefreshInvestorBids(now: nat, investor: Address) returns (newlyExpired: nat)
      modifies this
      ensures Contents() == RefreshInvestor(old(Contents()), now, investor)
      ensures newlyExpired == |Ended(old(bids), bids)|
    {
      hide Lapse, Filter, Keeps, Lapsed, Ended;
      var ids := IdsOf(byInvestor, investor);
      var active: seq<BidId> := [];
      newlyExpired := 0;
      FilterNone(Keeps(bids, now));
      LapseNone(bids, now);
      for i := 0 to |ids|
        modifies this`bids
        invariant bids == Lapse(old(bids), ids[..i], now)
        invariant active == Filter(ids[..i], Keeps(old(bids), now))
        invariant newlyExpired == |Ended(old(bids), bids)|
      {
        assert ids[..i + 1] == ids[..i] + [ids[i]];
        FilterAppend(ids[..i], ids[i], Keeps(old(bids), now));
        LapseTwice(old(bids), ids[..i], ids[i], now);
        EndedOneMore(old(bids), ids[..i], ids[i], now);
        var stays, lapsed := VisitEntry(ids[i], now);
        if stays {
          active := active + [ids[i]];
        }
        if lapsed {
          newlyExpired := newlyExpired + 1;
        }
      }
      assert ids[..|ids|] == ids;
      if |active| < |ids| {
        byInvestor := byInvestor[investor := active];
      }
    }

    method GetActiveBidCount(now: nat, id: InvoiceId) returns (active: nat)
      modifies this
      ensures Contents() == RefreshInvoice(old(Contents()), now, id)
      ensures active == |Filter(IdsOf(byInvoice, id), PlacedIds(bids))|
    {
      var _ := RefreshExpiredBids(now, id);
      var ids := IdsOf(byInvoice, id);
      active := 0;
      for i := 0 to |ids|
        modifies {}
        invariant active == |Filter(ids[..i], PlacedIds(bids))|
      {
        assert ids[..i + 1] == ids[..i] + [ids[i]];
        FilterAppend(ids[..i], ids[i], PlacedIds(bids));
        if ids[i] in bids && bids[ids[i]].status == Placed {
          active := active + 1;
        }
      }
      assert ids[..|ids|] == ids;
    }

    method CountActivePlacedBidsForInvestor(now: nat, investor: Address) returns (active: nat)
      modifies this
      ensures Contents() == RefreshInvestor(old(Contents()), now, investor)
      ensures active == |Filter(IdsOf(byInvestor, investor), PlacedIds(bids))|
    {
      var _ := RefreshInvestorBids(now, investor);
      var ids := IdsOf(byInvestor, investor);
      InvestorCleanupIdempotent(old(Contents()), now, investor);
      active := 0;
      for i := 0 to |ids|
        modifies {}
        invariant active == |Filter(ids[..i], PlacedIds(bids))|
      {
        assert ids[..i + 1] == ids[..i] + [ids[i]];
        FilterAppend(ids[..i], ids[i], PlacedIds(bids));
        assert ids[i] in ids;
        if ids[i] in bids && bids[ids[i]].status == Placed && !IsExpired(bids[ids[i]], now) {
          active := active + 1;
        }
      }
      assert ids[..|ids|] == ids;
    }

    method GetBidRecordsForInvoice(now: nat, id: InvoiceId) returns (records: seq<Bid>)
      modifies this
      ensures Contents() == RefreshInvoice(old(Contents()), now, id)
      ensures records == Records(bids, IdsOf(byInvoice, id))
    {
      var _ := RefreshExpiredBids(now, id);
      var ids := IdsOf(byInvoice, id);
      records := [];
      for i := 0 to |ids|
        modifies {}
        invariant records == Records(bids, ids[..i])
      {
        assert ids[..i + 1][..i] == ids[..i];
        if ids[i] in bids {
          records := records + [bids[ids[i]]];
        }
      }
      assert ids[..|ids|] == ids;
    }

    method UpdateBid(bid: Bid)
      modifies this
      ensures Contents() == old(Contents()).(bids := old(bids)[bid.id := bid])
    {
      bids := bids[bid.id := bid];
    }

    /** `generate_unique_bid_id`, `store_bid` and `add_bid_to_invoice`, as `place_bid` calls them. */
    method PlaceNew(id: InvoiceId, investor: Address, amount: int, expectedReturn: int, now: nat,
                    expires: nat) returns (k: BidId)
      modifies this
      ensures Contents() == Place(old(Contents()), id, investor, amount, expectedReturn, now, expires)
      ensures k == old(count) + 1
    {
      k := count + 1;
      count := k;
      bids := bids[k := Bid(k, id, investor, amount, expectedReturn, now, Placed, expires)];
      byInvestor := byInvestor[investor := AddUnique(IdsOf(byInvestor, investor), k)];
      byInvoice := byInvoice[id := AddUnique(IdsOf(byInvoice, id), k)];
    }

    /** Cancel a bid that is still Placed; says whether it did. */
    method CancelBid(k: BidId) returns (done: bool)
      modifies this
      ensures done <==> k in old(bids) && old(bids)[k].status == Placed
      ensures Contents() == if done then old(Contents()).(bids := old(bids)[k := old(bids)[k].(status := BidStatus.Cancelled)])
                            else old(Contents())
    {
      if k in bids && bids[k].status == Placed {
        bids := bids[k := bids[k].(status := BidStatus.Cancelled)];
        return true;
      }
      return false;
    }
  }
}
