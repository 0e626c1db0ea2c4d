/** The order listing: the in-memory form, the SQL form, and the pages they cut. */
module Listing {
  import opened Basics
  import opened OrderModel
  import opened Ordering
  import Money

  datatype Filter = Filter(
    customerId: Option<Uuid>,
    status: Option<Status>,
    startDate: Option<int>,
    endDate: Option<int>,
    page: Int64,
    pageSize: Int64)

  const MAX_PAGE_SIZE: Int64 := 100

  /** No slice of orders gets this long. */
  const MAX_LENGTH: int := 0x100_0000_0000_0000

  predicate Matches(o: Order, f: Filter) {
    && (f.customerId.Some? ==> o.customerId == f.customerId.value)
    && (f.status.Some? ==> o.status == f.status.value)
    && (f.startDate.Some? ==> !(o.createdAt < f.startDate.value))
    && (f.endDate.Some? ==> !(o.createdAt > f.endDate.value))
  }

  // ---- The order of the list ----

  /** Creation time, then the id's text: how the in-memory repository sorts. */
  predicate TextBefore(a: Order, b: Order) {
    if a.createdAt == b.createdAt then Below(TextCodes(a.id), TextCodes(b.id)) else a.createdAt < b.createdAt
  }

  /** Creation time, then the id's bytes: ORDER BY created_at, id. */
  predicate BytesBefore(a: Order, b: Order) {
    a.createdAt < b.createdAt || (a.createdAt == b.createdAt && Below(Bytes(a.id), Bytes(b.id)))
  }

  /** Creation time, then the id as a number. */
  predicate Precedes(a: Order, b: Order) {
    a.createdAt < b.createdAt || (a.createdAt == b.createdAt && a.id < b.id)
  }

  /** All three are the same strict total order. */
  lemma SameOrder(a: Order, b: Order)
    ensures TextBefore(a, b) <==> Precedes(a, b)
    ensures BytesBefore(a, b) <==> Precedes(a, b)
  {
    UuidOrders(a.id, b.id);
  }

  predicate Sorted(s: seq<Order>) {
    forall i, j :: 0 <= i < j < |s| ==> Precedes(s[i], s[j])
  }

  predicate DistinctIds(s: seq<Order>) {
    forall i, j :: 0 <= i < j < |s| ==> s[i].id != s[j].id
  }

  /** The matching orders, each once. */
  ghost predicate Collects(s: seq<Order>, orders: map<Uuid, Order>, f: Filter) {
    && (forall o :: o in s <==> exists id :: id in orders && orders[id] == o && Matches(o, f))
    && DistinctIds(s)
  }

  /** The whole sorted result of a filter. */
  ghost predicate IsListing(s: seq<Order>, orders: map<Uuid, Order>, f: Filter) {
    Sorted(s) && Collects(s, orders, f)
  }

  /** Orders are stored under their own ids. */
  predicate Keyed(orders: map<Uuid, Order>) {
    forall id :: id in orders ==> orders[id].id == id
  }

  lemma FirstIsLeast(s: seq<Order>, o: Order)
    requires Sorted(s) && o in s
    ensures s[0] == o || Precedes(s[0], o)
  {
  }

  lemma {:induction false} SortedIsUnique(a: seq<Order>, b: seq<Order>)
    requires Sorted(a) && Sorted(b) && forall o :: o in a <==> o in b
    ensures a == b
    decreases |a|
  {
    assert b != [] ==> b[0] in b && b[0] in a;
    assert a != [] ==> a[0] in a && a[0] in b;
    if a == [] {
    } else {
      FirstIsLeast(a, b[0]);
      FirstIsLeast(b, a[0]);
      forall o ensures o in a[1..] <==> o in b[1..] {
        if o in a[1..] {
          assert o in a && Precedes(a[0], o);
          assert o in b;
        }
        if o in b[1..] {
          assert o in b && Precedes(b[0], o);
          assert o in a;
        }
      }
      SortedIsUnique(a[1..], b[1..]);
      assert a == [a[0]] + a[1..] && b == [b[0]] + b[1..];
    }
  }

  /** The result of a filter does not depend on the order in which the map is walked. */
  lemma ListingIsUnique(a: seq<Order>, b: seq<Order>, orders: map<Uuid, Order>, f: Filter)
    requires IsListing(a, orders, f) && IsListing(b, orders, f)
    ensures a == b
  {
    SortedIsUnique(a, b);
  }

  /** What a listing holds, in which order: both dates included, by creation time and then by id. */
  lemma ListingHolds(all: seq<Order>, orders: map<Uuid, Order>, f: Filter)
    requires IsListing(all, orders, f) && Keyed(orders)
    ensures forall o :: o in all <==>
      && o.id in orders && orders[o.id] == o
      && (f.customerId.Some? ==> o.customerId == f.customerId.value)
      && (f.status.Some? ==> o.status == f.status.value)
      && (f.startDate.Some? ==> f.startDate.value <= o.createdAt)
      && (f.endDate.Some? ==> o.createdAt <= f.endDate.value)
    ensures forall i, j :: 0 <= i < j < |all| ==>
      all[i].createdAt < all[j].createdAt || (all[i].createdAt == all[j].createdAt && all[i].id < all[j].id)
  {
  }

  /** The ids of the matching orders. */
  function MatchingIds(orders: map<Uuid, Order>, f: Filter): set<Uuid> {
    set id | id in orders && Matches(orders[id], f)
  }

  lemma {:induction false} IdsAreCounted(s: seq<Order>)
    requires DistinctIds(s)
    ensures |set o | o in s :: o.id| == |s|
  {
    if s == [] {
    } else {
      var n := |s| - 1;
      IdsAreCounted(s[..n]);
      assert s == s[..n] + [s[n]];
      assert (set o | o in s :: o.id) == (set o | o in s[..n] :: o.id) + {s[n].id};
    }
  }

  /** A listing is as long as there are matching orders. */
  lemma ListingCountsMatches(all: seq<Order>, orders: map<Uuid, Order>, f: Filter)
    requires IsListing(all, orders, f) && Keyed(orders)
    ensures |all| == |MatchingIds(orders, f)|
  {
    IdsAreCounted(all);
    forall id | id in MatchingIds(orders, f) ensures id in set o | o in all :: o.id {
      assert orders[id] in all;
    }
    assert (set o | o in all :: o.id) == MatchingIds(orders, f);
  }

  // ---- Pages ----

  function Min(a: int, b: int): int {
    if a < b then a else b
  }

  /** At most pageSize orders from the given place on. */
  function WindowAt(all: seq<Order>, place: nat, pageSize: nat): seq<Order> {
    var lo := Min(place, |all|);
    all[lo..Min(lo + pageSize, |all|)]
  }

  lemma NoNegativeProduct(a: nat, b: nat)
    ensures a * b >= 0
  {
  }

  /** The orders of one page, without any overflow. */
  function Window(all: seq<Order>, page: int, pageSize: int): seq<Order>
    requires page >= 1 && pageSize >= 1
  {
    NoNegativeProduct(page - 1, pageSize);
    WindowAt(all, (page - 1) * pageSize, pageSize)
  }

  /** A page skips the pages before it, and is full unless the list ends. */
  lemma WindowHolds(all: seq<Order>, page: int, pageSize: int)
    requires page >= 1 && pageSize >= 1
    ensures var skipped := (page - 1) * pageSize;
            var shown := Window(all, page, pageSize);
      && |shown| == (if skipped + pageSize <= |all| then pageSize
                     else if skipped <= |all| then |all| - skipped
                     else 0)
      && forall k :: 0 <= k < |shown| ==> skipped + k < |all| && shown[k] == all[skipped + k]
  {
    NoNegativeProduct(page - 1, pageSize);
  }

  datatype ListResult =
    | Page(items: seq<Order>, page: Int64, pageSize: Int64, total: Int64, totalPages: Int64)
    | Failure    // a run-time panic in memory, an error from the database

  /** Go's (total + pageSize - 1) / pageSize. */
  function TotalPages(total: Int64, pageSize: Int64): Int64 {
    if pageSize > 0 then Wrap(Money.TruncDiv(Wrap(Wrap(total + pageSize) - 1), pageSize)) else 0
  }

  /** Where the page starts, as int64 arithmetic has it. */
  function Offset(f: Filter): Int64 {
    Wrap(Wrap(f.page - 1) * f.pageSize)
  }

  /** What the in-memory List returns for the sorted matches, from the given offset on. */
  function PageFrom(all: seq<Order>, offset: Int64, f: Filter): ListResult
    requires |all| <= MAX_LENGTH
  {
    var start := Min(offset, |all|);
    var end := Min(Wrap(start + f.pageSize), |all|);
    if 0 <= start <= end
    then Page(all[start..end], f.page, f.pageSize, |all|, TotalPages(|all|, f.pageSize))
    else Failure
  }

  function PageOf(all: seq<Order>, f: Filter): ListResult
    requires |all| <= MAX_LENGTH
  {
    PageFrom(all, Offset(f), f)
  }

  /** The bounds that the service enforces. */
  predicate Validated(f: Filter) {
    f.page >= 1 && 1 <= f.pageSize <= MAX_PAGE_SIZE
  }

  lemma WrappedOffset(all: seq<Order>, exact: nat, f: Filter)
    requires |all| <= MAX_LENGTH && Validated(f)
    ensures var r := PageFrom(all, Wrap(exact), f);
      (r.Page? && r.items == WindowAt(all, exact, f.pageSize)) <==> FitsInt64(exact) || Wrap(exact) >= |all|
  {
    if !FitsInt64(exact) {
      assert WindowAt(all, exact, f.pageSize) == [];
    }
  }

  /**
   * A validated page is the right one if and only if its offset fits an int64, or wraps to a
   * number past the end anyway.
   */
  lemma PageIsRightIff(all: seq<Order>, f: Filter)
    requires |all| <= MAX_LENGTH && Validated(f)
    ensures var r := PageOf(all, f);
      (r.Page? && r.items == Window(all, f.page, f.pageSize))
      <==> FitsInt64((f.page - 1) * f.pageSize) || Offset(f) >= |all|
  {
    NoNegativeProduct(f.page - 1, f.pageSize);
    WrappedOffset(all, (f.page - 1) * f.pageSize, f);
  }

  /** A page far enough out starts again at the front. */
  lemma FarPageWrapsAround(all: seq<Order>)
    requires 0 < |all| <= MAX_LENGTH
    ensures var f := Filter(None, None, None, None, 0x4000_0000_0000_0001, 4);
      Validated(f) && Offset(f) == 0 && PageOf(all, f).Page? && PageOf(all, f).items != Window(all, f.page, f.pageSize)
  {
    var f := Filter(None, None, None, None, 0x4000_0000_0000_0001, 4);
    assert (f.page - 1) * f.pageSize == TWO_64;
    assert Wrap(TWO_64) == 0;
    PageIsRightIff(all, f);
  }

  // ---- Pages partition the result ----

  lemma DivisionBounds(a: nat, b: nat)
    requires b >= 1
    ensures (a / b) * b <= a < (a / b) * b + b
  {
  }

  lemma ProductGrows(q: nat, b: nat)
    requires b >= 1
    ensures q <= q * b
  {
    NoNegativeProduct(q, b - 1);
  }

  lemma QuotientIsSmaller(a: nat, b: nat)
    requires b >= 1
    ensures 0 <= a / b <= a
  {
    DivisionBounds(a, b);
    ProductGrows(a / b, b);
  }

  lemma TotalPagesDivides(total: int, pageSize: Int64)
    requires 0 <= total <= MAX_LENGTH && 1 <= pageSize <= MAX_PAGE_SIZE
    ensures TotalPages(total, pageSize) == (total + pageSize - 1) / pageSize
  {
    QuotientIsSmaller(total + pageSize - 1, pageSize);
  }

  lemma QuotientIsCeiling(total: nat, pageSize: nat, n: int)
    requires pageSize >= 1 && n == (total + pageSize - 1) / pageSize
    ensures n >= 0 && (n - 1) * pageSize < total <= n * pageSize
  {
    DivisionBounds(total + pageSize - 1, pageSize);
    assert (n - 1) * pageSize == n * pageSize - pageSize;
  }

  /** TotalPages is the exact ceiling. */
  lemma TotalPagesIsCeiling(total: int, pageSize: Int64)
    requires 0 <= total <= MAX_LENGTH && 1 <= pageSize <= MAX_PAGE_SIZE
    ensures var n := TotalPages(total, pageSize);
      n >= 0 && (n - 1) * pageSize < total <= n * pageSize
  {
    TotalPagesDivides(total, pageSize);
    QuotientIsCeiling(total, pageSize, TotalPages(total, pageSize));
  }

  /** The pages 1 to n, one after the other. */
  function Pages(all: seq<Order>, n: nat, pageSize: int): seq<Order>
    requires pageSize >= 1
  {
    if n == 0 then [] else Pages(all, n - 1, pageSize) + Window(all, n, pageSize)
  }

  /** A window is the part of the list between two page ends. */
  lemma WindowBetween(all: seq<Order>, n: nat, pageSize: int)
    requires pageSize >= 1 && n >= 1
    ensures 0 <= (n - 1) * pageSize <= n * pageSize
    ensures Window(all, n, pageSize) == all[Min((n - 1) * pageSize, |all|)..Min(n * pageSize, |all|)]
  {
    NoNegativeProduct(n - 1, pageSize);
    assert (n - 1) * pageSize + pageSize == n * pageSize;
  }

  lemma TakeMore(all: seq<Order>, lo: nat, hi: nat)
    requires lo <= hi <= |all|
    ensures all[..lo] + all[lo..hi] == all[..hi]
  {
  }

  lemma {:induction false} PagesArePrefix(all: seq<Order>, n: nat, pageSize: int)
    requires pageSize >= 1
    ensures n * pageSize >= 0 && Pages(all, n, pageSize) == all[..Min(n * pageSize, |all|)]
  {
    NoNegativeProduct(n, pageSize);
    if n == 0 {
    } else {
      PagesArePrefix(all, n - 1, pageSize);
      WindowBetween(all, n, pageSize);
      TakeMore(all, Min((n - 1) * pageSize, |all|), Min(n * pageSize, |all|));
    }
  }

  lemma LaterPagesStartLater(n: nat, later: int, pageSize: nat)
    requires later > n
    ensures (later - 1) * pageSize >= n * pageSize
  {
    NoNegativeProduct(later - 1 - n, pageSize);
    assert (later - 1) * pageSize == n * pageSize + (later - 1 - n) * pageSize;
  }

  lemma LaterWindowIsEmpty(all: seq<Order>, later: int, pageSize: Int64)
    requires |all| <= MAX_LENGTH && 1 <= pageSize <= MAX_PAGE_SIZE
    requires later > TotalPages(|all|, pageSize)
    ensures TotalPages(|all|, pageSize) >= 0 && later >= 1
    ensures (later - 1) * pageSize >= |all| && Window(all, later, pageSize) == []
  {
    TotalPagesIsCeiling(|all|, pageSize);
    LaterPagesStartLater(TotalPages(|all|, pageSize), later, pageSize);
  }

  lemma EarlierPageFits(total: nat, page: int, n: int, pageSize: int)
    requires 1 <= page <= n && pageSize >= 1 && (n - 1) * pageSize < total
    ensures 0 <= (page - 1) * pageSize < total
  {
    NoNegativeProduct(page - 1, pageSize);
    NoNegativeProduct(n - page, pageSize);
    assert (n - 1) * pageSize == (page - 1) * pageSize + (n - page) * pageSize;
  }

  /** A page up to TotalPages is the intended window: its offset never wraps. */
  lemma PageWithinIsRight(all: seq<Order>, f: Filter)
    requires |all| <= MAX_LENGTH && Validated(f) && f.page <= TotalPages(|all|, f.pageSize)
    ensures PageOf(all, f).Page? && PageOf(all, f).items == Window(all, f.page, f.pageSize)
  {
    TotalPagesIsCeiling(|all|, f.pageSize);
    EarlierPageFits(|all|, f.page, TotalPages(|all|, f.pageSize), f.pageSize);
    PageIsRightIff(all, f);
  }

  function ItemsOf(r: ListResult): seq<Order> {
    if r.Page? then r.items else []
  }

  /** The items of the pages 1 to n that List returns, one after the other. */
  function Returned(all: seq<Order>, f: Filter, n: nat): seq<Order>
    requires |all| <= MAX_LENGTH && n < TWO_63
  {
    if n == 0 then [] else Returned(all, f, n - 1) + ItemsOf(PageOf(all, f.(page := n)))
  }

  lemma {:induction false} ReturnedAreWindows(all: seq<Order>, f: Filter, n: nat)
    requires |all| <= MAX_LENGTH && 1 <= f.pageSize <= MAX_PAGE_SIZE && n <= TotalPages(|all|, f.pageSize)
    ensures Returned(all, f, n) == Pages(all, n, f.pageSize)
  {
    if n == 0 {
    } else {
      ReturnedAreWindows(all, f, n - 1);
      PageWithinIsRight(all, f.(page := n));
    }
  }

  lemma AllPages(all: seq<Order>, pageSize: Int64)
    requires |all| <= MAX_LENGTH && 1 <= pageSize <= MAX_PAGE_SIZE
    ensures TotalPages(|all|, pageSize) >= 0 && Pages(all, TotalPages(|all|, pageSize), pageSize) == all
  {
    TotalPagesIsCeiling(|all|, pageSize);
    PagesArePrefix(all, TotalPages(|all|, pageSize), pageSize);
    assert all[..|all|] == all;
  }

  /** What List returns for pages 1 to TotalPages is the whole result, each order once and in order. */
  lemma PagesPartition(all: seq<Order>, f: Filter)
    requires |all| <= MAX_LENGTH && 1 <= f.pageSize <= MAX_PAGE_SIZE
    ensures TotalPages(|all|, f.pageSize) >= 0
    ensures Returned(all, f, TotalPages(|all|, f.pageSize)) == all
  {
    AllPages(all, f.pageSize);
    ReturnedAreWindows(all, f, TotalPages(|all|, f.pageSize));
  }

  /** A later page is empty if and only if its offset fits an int64, or wraps to a number past the end. */
  lemma LaterPageIsEmptyIff(all: seq<Order>, f: Filter)
    requires |all| <= MAX_LENGTH && Validated(f) && f.page > TotalPages(|all|, f.pageSize)
    ensures PageOf(all, f).Page? && PageOf(all, f).items == []
       <==> FitsInt64((f.page - 1) * f.pageSize) || Offset(f) >= |all|
  {
    LaterWindowIsEmpty(all, f.page, f.pageSize);
    PageIsRightIff(all, f);
  }

  // ---- The page over SQL ----

  /** The page of the sorted matches as LIMIT and OFFSET cut it; negative bounds are an error. */
  function SqlPageOf(all: seq<Order>, f: Filter): ListResult
    requires |all| <= MAX_LENGTH
  {
    if f.pageSize < 0 || Offset(f) < 0 then Failure
    else Page(WindowAt(all, Offset(f), f.pageSize), f.page, f.pageSize, |all|, TotalPages(|all|, f.pageSize))
  }

  /** Memory and SQL return the same unless the end of the slice overflows in memory: for every filter. */
  lemma PagesAgreeIff(all: seq<Order>, f: Filter)
    requires |all| <= MAX_LENGTH
    ensures SqlPageOf(all, f) == PageOf(all, f)
       <==> f.pageSize < 0 || Offset(f) < 0 || FitsInt64(Min(Offset(f), |all|) + f.pageSize)
  {
  }
}
