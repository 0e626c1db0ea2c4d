/** The two List methods, in memory and over SQL, and their agreement. */
module ListRepositories {
  import opened Basics
  import opened OrderModel
  import opened Listing

  // ---- Collecting and sorting ----

  /** The orders that pass the test, each once, in the order in which the map happens to be walked. */
  method Collect(orders: map<Uuid, Order>, keep: Order -> bool) returns (matched: seq<Order>)
    requires Keyed(orders)
    ensures forall o :: o in matched <==> exists id :: id in orders && orders[id] == o && keep(o)
    ensures DistinctIds(matched)
    ensures |matched| <= |orders|
  {
    matched := [];
    var left := orders.Keys;
    assert |orders.Keys| == |orders|;
    while left != {}
      invariant left <= orders.Keys
      invariant forall o :: o in matched <==> exists id :: id in orders && id !in left && orders[id] == o && keep(o)
      invariant forall i, j :: 0 <= i < j < |matched| ==> matched[i].id != matched[j].id
      invariant |matched| + |left| <= |orders|
      decreases left
    {
      var id :| id in left;
      left := left - {id};
      if keep(orders[id]) {
        forall k | 0 <= k < |matched| ensures matched[k].id != id {
          assert matched[k] in matched;
        }
        matched := matched + [orders[id]];
      }
    }
  }

  method Swap(a: array<Order>, j: nat)
    requires 0 < j < a.Length
    modifies a
    ensures a[..] == old(a[..])[j := old(a[j - 1])][j - 1 := old(a[j])]
    ensures multiset(a[..]) == old(multiset(a[..]))
  {
    a[j], a[j - 1] := a[j - 1], a[j];
  }

  /** Sort a slice in place by creation time and id text. */
  method SortSlice(a: array<Order>)
    requires DistinctIds(a[..])
    modifies a
    ensures Sorted(a[..])
    ensures multiset(a[..]) == old(multiset(a[..]))
  {
    var i := 0;
    while i < a.Length
      invariant 0 <= i <= a.Length
      invariant DistinctIds(a[..])
      invariant multiset(a[..]) == old(multiset(a[..]))
      invariant forall p, q :: 0 <= p < q < i ==> Precedes(a[p], a[q])
    {
      var j := i;
      while j > 0 && TextBefore(a[j], a[j - 1])
        invariant 0 <= j <= i
        invariant DistinctIds(a[..])
        invariant multiset(a[..]) == old(multiset(a[..]))
        invariant forall p, q :: 0 <= p < q <= i && p != j && q != j ==> Precedes(a[p], a[q])
        invariant forall q :: j < q <= i ==> Precedes(a[j], a[q])
      {
        SameOrder(a[j], a[j - 1]);
        Swap(a, j);
        j := j - 1;
      }
      if j > 0 {
        SameOrder(a[j], a[j - 1]);
        assert a[..][j - 1].id != a[..][j].id;
        assert Precedes(a[j - 1], a[j]);
      }
      i := i + 1;
    }
  }

  /** The same, from and to a sequence: the caller's slice is fresh. */
  method SortedCopy(s: seq<Order>) returns (r: seq<Order>)
    requires DistinctIds(s)
    ensures Sorted(r) && |r| == |s| && forall o :: o in r <==> o in s
  {
    var a := new Order[|s|](k requires 0 <= k < |s| => s[k]);
    assert a[..] == s;
    SortSlice(a);
    r := a[..];
    assert |multiset(r)| == |multiset(s)|;
    forall o ensures o in r <==> o in s {
      assert o in r <==> o in multiset(r);
      assert o in s <==> o in multiset(s);
    }
  }

  lemma SortedIsDistinct(s: seq<Order>, orders: map<Uuid, Order>)
    requires Sorted(s) && Keyed(orders)
    requires forall o :: o in s ==> exists id :: id in orders && orders[id] == o
    ensures DistinctIds(s)
  {
    forall i, j | 0 <= i < j < |s| ensures s[i].id != s[j].id {
      assert s[i] in s && s[j] in s;
      assert Precedes(s[i], s[j]);
    }
  }

  // ---- In memory ----

  /** The part of the sorted matches that the filter asks for. */
  method CutPage(matched: seq<Order>, f: Filter) returns (r: ListResult)
    requires |matched| <= MAX_LENGTH
    ensures r == PageOf(matched, f)
  {
    var total := |matched|;
    var start := Wrap(Wrap(f.page - 1) * f.pageSize);
    if start > total {
      start := total;
    }
    var end := Wrap(start + f.pageSize);
    if end > total {
      end := total;
    }
    var totalPages := TotalPages(total, f.pageSize);
    if !(0 <= start <= end) {
      return Failure;
    }
    return Page(matched[start..end], f.page, f.pageSize, total, totalPages);
  }

  /** There is a sorted listing of the matching orders, and this is the page that the filter cuts from it. */
  ghost predicate IsPageOfListing(r: ListResult, orders: map<Uuid, Order>, f: Filter) {
    && (exists all :: IsListing(all, orders, f))
    && (forall all :: IsListing(all, orders, f) ==> |all| <= MAX_LENGTH && r == PageOf(all, f))
  }

  lemma OneListing(all: seq<Order>, orders: map<Uuid, Order>, f: Filter)
    requires IsListing(all, orders, f) && |all| <= MAX_LENGTH
    ensures IsPageOfListing(PageOf(all, f), orders, f)
  {
    forall other | IsListing(other, orders, f) ensures other == all {
      ListingIsUnique(other, all, orders, f);
    }
  }

  /** InMemoryRepository.List. */
  method List(orders: map<Uuid, Order>, f: Filter) returns (r: ListResult)
    requires Keyed(orders) && |orders| <= MAX_LENGTH
    ensures IsPageOfListing(r, orders, f)
    ensures r.Page? ==> r.page == f.page && r.pageSize == f.pageSize && r.total == |MatchingIds(orders, f)|
  {
    var found := Collect(orders, o => Matches(o, f));
    var matched := SortedCopy(found);
    SortedIsDistinct(matched, orders);
    r := CutPage(matched, f);
    OneListing(matched, orders, f);
    ListingCountsMatches(matched, orders, f);
  }

  // ---- SQL ----

  datatype Column = CustomerIdColumn | StatusColumn | CreatedAtColumn

  datatype Comparison = Equal | AtLeast | AtMost

  /** column op $placeholder */
  datatype Condition = Condition(column: Column, op: Comparison, placeholder: int)

  datatype Arg = UuidArg(id: Uuid) | StatusArg(status: Status) | TimeArg(time: int) | IntArg(n: int)

  /** column op arg, for one row. */
  predicate Satisfies(o: Order, column: Column, op: Comparison, arg: Arg) {
    match column
    case CustomerIdColumn => arg.UuidArg? && op == Equal && o.customerId == arg.id
    case StatusColumn => arg.StatusArg? && op == Equal && o.status == arg.status
    case CreatedAtColumn =>
      && arg.TimeArg?
      && match op
         case Equal => o.createdAt == arg.time
         case AtLeast => o.createdAt >= arg.time
         case AtMost => o.createdAt <= arg.time
  }

  /** The condition, with its placeholder bound by position, for one row. */
  predicate Holds(cond: Condition, args: seq<Arg>, o: Order) {
    1 <= cond.placeholder <= |args| && Satisfies(o, cond.column, cond.op, args[cond.placeholder - 1])
  }

  /** The conditions, joined by AND; no condition at all means every row. */
  predicate Where(conds: seq<Condition>, args: seq<Arg>, o: Order) {
    forall k :: 0 <= k < |conds| ==> Holds(conds[k], args, o)
  }

  lemma WhereAppended(conds: seq<Condition>, args: seq<Arg>, more: seq<Arg>, o: Order)
    requires forall k :: 0 <= k < |conds| ==> 1 <= conds[k].placeholder <= |args|
    ensures Where(conds, args + more, o) <==> Where(conds, args, o)
  {
    forall k | 0 <= k < |conds| ensures Holds(conds[k], args + more, o) <==> Holds(conds[k], args, o) {
      assert (args + more)[conds[k].placeholder - 1] == args[conds[k].placeholder - 1];
    }
  }

  /** The numbered conditions, evaluated against any row, say what the filter says. */
  ghost predicate Expresses(conds: seq<Condition>, args: seq<Arg>, f: Filter) {
    && |conds| == |args|
    && (forall k :: 0 <= k < |conds| ==> conds[k].placeholder == k + 1)
    && (forall o :: Where(conds, args, o) <==> Matches(o, f))
  }

  /** The query asks for this comparison with this argument. */
  predicate AsksFor(conds: seq<Condition>, args: seq<Arg>, column: Column, op: Comparison, arg: Arg) {
    exists k :: 0 <= k < |conds| && k < |args| && conds[k] == Condition(column, op, k + 1) && args[k] == arg
  }

  /** The dates are compared with >= and <=, so both ends are included. */
  predicate AsksForDates(conds: seq<Condition>, args: seq<Arg>, f: Filter) {
    && (f.startDate.Some? ==> AsksFor(conds, args, CreatedAtColumn, AtLeast, TimeArg(f.startDate.value)))
    && (f.endDate.Some? ==> AsksFor(conds, args, CreatedAtColumn, AtMost, TimeArg(f.endDate.value)))
  }

  lemma StillAsks(conds: seq<Condition>, args: seq<Arg>, more: Condition, arg: Arg)
    requires |conds| == |args| && more.placeholder == |args| + 1
    ensures forall column, op, a :: AsksFor(conds, args, column, op, a) ==>
              AsksFor(conds + [more], args + [arg], column, op, a)
    ensures AsksFor(conds + [more], args + [arg], more.column, more.op, arg)
  {
    forall column, op, a | AsksFor(conds, args, column, op, a)
      ensures AsksFor(conds + [more], args + [arg], column, op, a)
    {
      var k :| 0 <= k < |conds| && k < |args| && conds[k] == Condition(column, op, k + 1) && args[k] == a;
      assert (conds + [more])[k] == conds[k] && (args + [arg])[k] == args[k];
    }
    assert (conds + [more])[|conds|] == more && (args + [arg])[|conds|] == arg;
  }

  /** One more condition on one more argument. */
  lemma OneMoreCondition(conds: seq<Condition>, args: seq<Arg>, f: Filter,
                         column: Column, op: Comparison, arg: Arg, g: Filter)
    requires Expresses(conds, args, f)
    requires forall o :: Matches(o, g) <==> Matches(o, f) && Satisfies(o, column, op, arg)
    ensures Expresses(conds + [Condition(column, op, |args| + 1)], args + [arg], g)
  {
    var cond := Condition(column, op, |args| + 1);
    var all := conds + [cond];
    assert all[|conds|] == cond && forall k :: 0 <= k < |conds| ==> all[k] == conds[k];
    forall o ensures Where(all, args + [arg], o) <==> Matches(o, g) {
      WhereAppended(conds, args, [arg], o);
      assert Holds(cond, args + [arg], o) <==> Satisfies(o, column, op, arg);
    }
  }

  lemma CustomerCondition(conds: seq<Condition>, args: seq<Arg>, f: Filter, id: Uuid)
    requires Expresses(conds, args, f) && f.customerId == None
    ensures Expresses(conds + [Condition(CustomerIdColumn, Equal, |args| + 1)], args + [UuidArg(id)],
                      f.(customerId := Some(id)))
  {
    OneMoreCondition(conds, args, f, CustomerIdColumn, Equal, UuidArg(id), f.(customerId := Some(id)));
  }

  lemma StatusCondition(conds: seq<Condition>, args: seq<Arg>, f: Filter, status: Status)
    requires Expresses(conds, args, f) && f.status == None
    ensures Expresses(conds + [Condition(StatusColumn, Equal, |args| + 1)], args + [StatusArg(status)],
                      f.(status := Some(status)))
  {
    OneMoreCondition(conds, args, f, StatusColumn, Equal, StatusArg(status), f.(status := Some(status)));
  }

  lemma StartCondition(conds: seq<Condition>, args: seq<Arg>, f: Filter, time: int)
    requires Expresses(conds, args, f) && f.startDate == None
    ensures Expresses(conds + [Condition(CreatedAtColumn, AtLeast, |args| + 1)], args + [TimeArg(time)],
                      f.(startDate := Some(time)))
  {
    OneMoreCondition(conds, args, f, CreatedAtColumn, AtLeast, TimeArg(time), f.(startDate := Some(time)));
  }

  lemma EndCondition(conds: seq<Condition>, args: seq<Arg>, f: Filter, time: int)
    requires Expresses(conds, args, f) && f.endDate == None
    ensures Expresses(conds + [Condition(CreatedAtColumn, AtMost, |args| + 1)], args + [TimeArg(time)],
                      f.(endDate := Some(time)))
  {
    OneMoreCondition(conds, args, f, CreatedAtColumn, AtMost, TimeArg(time), f.(endDate := Some(time)));
  }

  /** The part of orderConditions that is about dates. */
  method DateConditions(f: Filter, conds0: seq<Condition>, args0: seq<Arg>)
    returns (conds: seq<Condition>, args: seq<Arg>)
    requires Expresses(conds0, args0, f.(startDate := None, endDate := None))
    ensures Expresses(conds, args, f)
    ensures AsksForDates(conds, args, f)
    ensures forall column, op, a :: AsksFor(conds0, args0, column, op, a) ==> AsksFor(conds, args, column, op, a)
  {
    conds, args := conds0, args0;
    if f.startDate.Some? {
      StartCondition(conds, args, f.(startDate := None, endDate := None), f.startDate.value);
      StillAsks(conds, args, Condition(CreatedAtColumn, AtLeast, |args| + 1), TimeArg(f.startDate.value));
      args := args + [TimeArg(f.startDate.value)];
      conds := conds + [Condition(CreatedAtColumn, AtLeast, |args|)];
    }
    assert Expresses(conds, args, f.(endDate := None));
    if f.endDate.Some? {
      EndCondition(conds, args, f.(endDate := None), f.endDate.value);
      StillAsks(conds, args, Condition(CreatedAtColumn, AtMost, |args| + 1), TimeArg(f.endDate.value));
      args := args + [TimeArg(f.endDate.value)];
      conds := conds + [Condition(CreatedAtColumn, AtMost, |args|)];
    }
  }

  /** orderConditions: the numbered conditions and their arguments are matchesOrder. */
  method OrderConditions(f: Filter) returns (conds: seq<Condition>, args: seq<Arg>)
    ensures Expresses(conds, args, f)
    ensures f.customerId.Some? ==> AsksFor(conds, args, CustomerIdColumn, Equal, UuidArg(f.customerId.value))
    ensures f.status.Some? ==> AsksFor(conds, args, StatusColumn, Equal, StatusArg(f.status.value))
    ensures AsksForDates(conds, args, f)
  {
    conds, args := [], [];
    ghost var g := f.(startDate := None, endDate := None);
    assert Expresses(conds, args, g.(customerId := None, status := None));
    if f.customerId.Some? {
      CustomerCondition(conds, args, g.(customerId := None, status := None), f.customerId.value);
      StillAsks(conds, args, Condition(CustomerIdColumn, Equal, |args| + 1), UuidArg(f.customerId.value));
      args := args + [UuidArg(f.customerId.value)];
      conds := conds + [Condition(CustomerIdColumn, Equal, |args|)];
    }
    assert Expresses(conds, args, g.(status := None));
    if f.status.Some? {
      StatusCondition(conds, args, g.(status := None), f.status.value);
      StillAsks(conds, args, Condition(StatusColumn, Equal, |args| + 1), StatusArg(f.status.value));
      args := args + [StatusArg(f.status.value)];
      conds := conds + [Condition(StatusColumn, Equal, |args|)];
    }
    assert Expresses(conds, args, g);
    conds, args := DateConditions(f, conds, args);
  }

  /** A row as the driver hands it over: the total comes as text. */
  datatype Row = Row(order: Order, totalText: string)

  function RowOf(o: Order): Row {
    Row(o.(total := 0), Money.Decimal(o.total))
  }

  /** SELECT count(*) FROM orders WHERE ... */
  method CountRows(table: map<Uuid, Order>, conds: seq<Condition>, args: seq<Arg>)
    returns (n: nat, ghost rows: seq<Order>)
    requires Keyed(table)
    ensures n == |rows| <= |table|
    ensures forall o :: o in rows <==> exists id :: id in table && table[id] == o && Where(conds, args, o)
    ensures DistinctIds(rows)
  {
    var found := Collect(table, o => Where(conds, args, o));
    return |found|, found;
  }

  /**
   * SELECT ... FROM orders WHERE ... ORDER BY created_at, id LIMIT $limit OFFSET $offset. The
   * database refuses negative bounds.
   */
  method SelectRows(table: map<Uuid, Order>, conds: seq<Condition>, args: seq<Arg>, limitAt: int, offsetAt: int)
    returns (rows: Option<seq<Row>>, ghost all: seq<Order>)
    requires Keyed(table)
    requires 1 <= limitAt <= |args| && args[limitAt - 1].IntArg?
    requires 1 <= offsetAt <= |args| && args[offsetAt - 1].IntArg?
    ensures forall i, j :: 0 <= i < j < |all| ==> BytesBefore(all[i], all[j])
    ensures forall o :: o in all <==> exists id :: id in table && table[id] == o && Where(conds, args, o)
    ensures var limit, offset := args[limitAt - 1].n, args[offsetAt - 1].n;
      if limit < 0 || offset < 0 then rows == None
      else rows.Some? && |rows.value| == |WindowAt(all, offset, limit)|
           && forall k :: 0 <= k < |rows.value| ==> rows.value[k] == RowOf(WindowAt(all, offset, limit)[k])
  {
    var found := Collect(table, o => Where(conds, args, o));
    var sorted := SortedCopy(found);
    all := sorted;
    forall i, j | 0 <= i < j < |all| ensures BytesBefore(all[i], all[j]) {
      SameOrder(all[i], all[j]);
    }
    var limit, offset := args[limitAt - 1].n, args[offsetAt - 1].n;
    if limit < 0 || offset < 0 {
      return None, all;
    }
    var window := WindowAt(sorted, offset, limit);
    return Some(seq(|window|, k requires 0 <= k < |window| => RowOf(window[k]))), all;
  }

  /** Scan one row; the total goes through the money parser. */
  method Scan(row: Row) returns (o: Option<Order>)
    ensures o == match Money.Parse(row.totalText)
                 case None => None
                 case Some(total) => Some(row.order.(total := total))
  {
    var total := Money.ParseString(row.totalText);
    if total == None {
      return None;
    }
    return Some(row.order.(total := total.value));
  }

  /** What is stored comes back unchanged. */
  lemma ScanReadsBack(o: Order)
    ensures Money.Parse(RowOf(o).totalText) == Some(o.total)
    ensures RowOf(o).order.(total := o.total) == o
  {
    Money.DecimalRoundTrip(o.total);
  }

  /** The row of a stored order. */
  method ScanStored(row: Row, ghost stored: Order) returns (o: Option<Order>)
    requires row == RowOf(stored)
    ensures o == Some(stored)
  {
    ScanReadsBack(stored);
    o := Scan(row);
  }

  /** Every row of a result, until one cannot be read: stored orders always can. */
  method ScanAll(rows: seq<Row>, ghost stored: seq<Order>) returns (items: Option<seq<Order>>)
    requires |rows| == |stored| && forall k {:trigger rows[k]} :: 0 <= k < |rows| ==> rows[k] == RowOf(stored[k])
    ensures items == Some(stored)
  {
    var done: seq<Order> := [];
    for k := 0 to |rows|
      invariant |done| == k && forall i :: 0 <= i < k ==> done[i] == stored[i]
    {
      var o := ScanStored(rows[k], stored[k]);
      if o == None {
        return None;
      }
      done := done + [o.value];
    }
    assert done == stored;
    return Some(done);
  }

  /** The rows of the result, or the database's error, as a page. */
  method ReadPage(rows: Option<seq<Row>>, total: nat, f: Filter, ghost all: seq<Order>) returns (r: ListResult)
    requires total == |all| <= MAX_LENGTH
    requires f.pageSize < 0 || Offset(f) < 0 ==> rows == None
    requires f.pageSize >= 0 && Offset(f) >= 0 ==>
      var window := WindowAt(all, Offset(f), f.pageSize);
      && rows.Some? && |rows.value| == |window|
      && forall k {:trigger rows.value[k]} :: 0 <= k < |window| ==> rows.value[k] == RowOf(window[k])
    ensures r == SqlPageOf(all, f)
  {
    if rows == None {
      return Failure;
    }
    var items := ScanAll(rows.value, WindowAt(all, Offset(f), f.pageSize));
    if items == None {
      return Failure;
    }
    return Page(items.value, f.page, f.pageSize, total, TotalPages(total, f.pageSize));
  }

  /** There is a sorted listing of the matching orders, and this is the page that SQL cuts from it. */
  ghost predicate IsSqlPageOfListing(r: ListResult, orders: map<Uuid, Order>, f: Filter) {
    && (exists all :: IsListing(all, orders, f))
    && (forall all :: IsListing(all, orders, f) ==> |all| <= MAX_LENGTH && r == SqlPageOf(all, f))
  }

  lemma OneSqlListing(all: seq<Order>, orders: map<Uuid, Order>, f: Filter)
    requires IsListing(all, orders, f) && |all| <= MAX_LENGTH
    ensures IsSqlPageOfListing(SqlPageOf(all, f), orders, f)
  {
    forall other | IsListing(other, orders, f) ensures other == all {
      ListingIsUnique(other, all, orders, f);
    }
  }

  /**
   * PostgresRepository.List, for every table and every filter: the numbered conditions, the count
   * and LIMIT/OFFSET together cut their page from the same sorted listing as the in-memory List.
   */
  method PostgresList(table: map<Uuid, Order>, f: Filter) returns (r: ListResult)
    requires Keyed(table) && |table| <= MAX_LENGTH
    ensures IsSqlPageOfListing(r, table, f)
    ensures r.Page? ==> r.page == f.page && r.pageSize == f.pageSize && r.total == |MatchingIds(table, f)|
  {
    var conds, args := OrderConditions(f);
    var total, counted := CountRows(table, conds, args);
    ghost var bounds := [IntArg(f.pageSize), IntArg(Offset(f))];
    LimitsDoNotMatter(conds, args, bounds, f);
    args := args + [IntArg(f.pageSize), IntArg(Wrap(Wrap(f.page - 1) * f.pageSize))];
    var rows, all := SelectRows(table, conds, args, |args| - 1, |args|);
    BytesSortedIsListing(all, table, f);
    SameCount(all, counted);
    r := ReadPage(rows, total, f, all);
    OneSqlListing(all, table, f);
    ListingCountsMatches(all, table, f);
  }

  /** LIMIT and OFFSET come last, so the conditions still mean the same. */
  lemma LimitsDoNotMatter(conds: seq<Condition>, args: seq<Arg>, bounds: seq<Arg>, f: Filter)
    requires Expresses(conds, args, f)
    ensures forall o :: Where(conds, args + bounds, o) <==> Matches(o, f)
  {
    forall o ensures Where(conds, args + bounds, o) <==> Matches(o, f) {
      WhereAppended(conds, args, bounds, o);
    }
  }

  lemma BytesSortedIsListing(all: seq<Order>, table: map<Uuid, Order>, f: Filter)
    requires Keyed(table)
    requires forall i, j :: 0 <= i < j < |all| ==> BytesBefore(all[i], all[j])
    requires forall o :: o in all <==> exists id :: id in table && table[id] == o && Matches(o, f)
    ensures IsListing(all, table, f)
  {
    forall i, j | 0 <= i < j < |all| ensures Precedes(all[i], all[j]) {
      SameOrder(all[i], all[j]);
    }
    SortedIsDistinct(all, table);
  }

  lemma SameCount(a: seq<Order>, b: seq<Order>)
    requires DistinctIds(a) && DistinctIds(b) && forall o :: o in a <==> o in b
    ensures |a| == |b|
  {
    var s := set o | o in a;
    assert s == set o | o in b;
    DistinctCount(a);
    DistinctCount(b);
  }

  lemma {:induction false} DistinctCount(a: seq<Order>)
    requires DistinctIds(a)
    ensures |set o | o in a| == |a|
  {
    if a == [] {
    } else {
      var n := |a| - 1;
      DistinctCount(a[..n]);
      assert a == a[..n] + [a[n]];
      assert (set o | o in a) == (set o | o in a[..n]) + {a[n]};
    }
  }

  /** No page size so large that adding it to a place in the list overflows. */
  predicate EndFits(f: Filter) {
    f.pageSize < TWO_63 - MAX_LENGTH
  }

  /** The two repositories agree on every table and every filter, validated or not, up to that page size. */
  method ListsAgree(orders: map<Uuid, Order>, f: Filter) returns (memory: ListResult, sql: ListResult)
    requires Keyed(orders) && |orders| <= MAX_LENGTH
    ensures EndFits(f) ==> memory == sql
    ensures IsPageOfListing(memory, orders, f) && IsSqlPageOfListing(sql, orders, f)
  {
    memory := List(orders, f);
    sql := PostgresList(orders, f);
    ghost var all :| IsListing(all, orders, f);
    PagesAgreeIff(all, f);
  }
}
