/** Orders, their lifecycle table and their totals (internal/order/model.go, status.go). */
module OrderModel {
  import opened Basics

  datatype Status = Created | Processing | Paid | Shipped | Canceled | Failed

  datatype Order = Order(
    id: Uuid,
    customerId: Uuid,
    status: Status,
    total: Int64,
    createdBy: Uuid,
    createdAt: int,
    updatedAt: int,
    processedAt: Option<int>)

  datatype Item = Item(
    id: Uuid,
    orderId: Uuid,
    productId: Uuid,
    quantity: Int64,
    unitPrice: Int64,
    totalPrice: Int64)

  /** UPDATE orders SET status, updated_at: unconditional, as in both repositories. */
  function WithStatus(orders: map<Uuid, Order>, id: Uuid, to: Status, now: int): map<Uuid, Order> {
    if id in orders then orders[id := orders[id].(status := to, updatedAt := now)] else orders
  }

  /** UPDATE orders SET status, processed_at, updated_at: unconditional as well. */
  function WithProcessed(orders: map<Uuid, Order>, id: Uuid, to: Status, now: int): map<Uuid, Order> {
    if id in orders then orders[id := orders[id].(status := to, processedAt := Some(now), updatedAt := now)] else orders
  }

  predicate CanTransition(from: Status, to: Status) {
    match from
    case Created => to == Processing || to == Canceled
    case Processing => to == Paid || to == Failed
    case Paid => to == Shipped
    case _ => false
  }

  /** The transition table, as a set of pairs. */
  lemma TransitionTable(from: Status, to: Status)
    ensures CanTransition(from, to) <==>
      (from, to) in {(Created, Processing), (Created, Canceled),
                     (Processing, Paid), (Processing, Failed), (Paid, Shipped)}
  {
  }

  /** The statuses that carry a processing time. */
  predicate Settled(status: Status) {
    status == Paid || status == Failed || status == Shipped
  }

  function Rank(status: Status): nat {
    match status
    case Created => 0
    case Processing => 1
    case Paid => 2
    case _ => 3
  }

  /** A status history that starts at Created and follows the transition table. */
  predicate IsPath(trail: seq<Status>) {
    && |trail| > 0
    && trail[0] == Created
    && forall k :: 0 < k < |trail| ==> CanTransition(trail[k - 1], trail[k])
  }

  /** A path climbs in rank at every write. */
  lemma {:induction false} PathClimbs(trail: seq<Status>, i: nat, j: nat)
    requires IsPath(trail) && i < j < |trail|
    ensures Rank(trail[i]) + (j - i) <= Rank(trail[j])
    decreases j
  {
    assert CanTransition(trail[j - 1], trail[j]);
    if i < j - 1 {
      PathClimbs(trail, i, j - 1);
    }
  }

  /** A lifecycle is short: at most three writes, never the same status twice. */
  lemma PathIsShort(trail: seq<Status>)
    requires IsPath(trail)
    ensures |trail| <= 4
    ensures forall i, j :: 0 <= i < j < |trail| ==> Rank(trail[i]) < Rank(trail[j])
  {
    forall i, j | 0 <= i < j < |trail| ensures Rank(trail[i]) < Rank(trail[j]) {
      PathClimbs(trail, i, j);
    }
    if |trail| > 4 {
      PathClimbs(trail, 0, 4);
    }
  }

  // ---- Totals ----

  function ItemTotal(unitPrice: Int64, quantity: Int64): Int64 {
    Wrap(unitPrice * quantity)
  }

  /** The value the summing loop of OrderTotal leaves: int64 additions from left to right. */
  function Summed(totals: seq<Int64>): Int64 {
    if totals == [] then 0 else Wrap(Summed(totals[..|totals| - 1]) + totals[|totals| - 1])
  }

  method OrderTotal(itemTotals: seq<Int64>) returns (total: Int64)
    ensures total == Summed(itemTotals)
    ensures total == Wrap(Sum(itemTotals))
  {
    total := 0;
    for k := 0 to |itemTotals|
      invariant total == Summed(itemTotals[..k])
    {
      assert itemTotals[..k + 1][..k] == itemTotals[..k];
      total := Wrap(total + itemTotals[k]);
    }
    assert itemTotals[..|itemTotals|] == itemTotals;
    SummedIsWrappedSum(itemTotals);
  }

  /** The exact sum. */
  ghost function Sum(xs: seq<int>): int {
    if xs == [] then 0 else Sum(xs[..|xs| - 1]) + xs[|xs| - 1]
  }

  /** Intermediate wrapping never shows: the loop ends at the exact sum, wrapped once. */
  lemma {:induction false} SummedIsWrappedSum(totals: seq<Int64>)
    ensures Summed(totals) == Wrap(Sum(totals))
  {
    if totals == [] {
    } else {
      var n := |totals| - 1;
      SummedIsWrappedSum(totals[..n]);
      WrapAdd(Sum(totals[..n]), totals[n]);
    }
  }

  datatype Line = Line(unitPrice: Int64, quantity: Int64)

  function LineTotals(lines: seq<Line>): (r: seq<Int64>)
    ensures |r| == |lines|
  {
    seq(|lines|, k requires 0 <= k < |lines| => ItemTotal(lines[k].unitPrice, lines[k].quantity))
  }

  ghost function ExactTotal(lines: seq<Line>): int {
    if lines == [] then 0
    else ExactTotal(lines[..|lines| - 1]) + lines[|lines| - 1].unitPrice * lines[|lines| - 1].quantity
  }

  /** The exact price of each line. */
  function Prices(lines: seq<Line>): (r: seq<int>)
    ensures |r| == |lines|
  {
    seq(|lines|, k requires 0 <= k < |lines| => lines[k].unitPrice * lines[k].quantity)
  }

  lemma {:induction false} ExactTotalIsSum(lines: seq<Line>)
    ensures ExactTotal(lines) == Sum(Prices(lines))
  {
    if lines == [] {
    } else {
      ExactTotalIsSum(lines[..|lines| - 1]);
      assert Prices(lines)[..|lines| - 1] == Prices(lines[..|lines| - 1]);
    }
  }

  /** Wrapped terms, summed with wrapping, give the exact sum wrapped once. */
  lemma {:induction false} SummedWraps(totals: seq<Int64>, exact: seq<int>)
    requires |totals| == |exact| && forall k :: 0 <= k < |totals| ==> totals[k] == Wrap(exact[k])
    ensures Summed(totals) == Wrap(Sum(exact))
  {
    if totals == [] {
    } else {
      var n := |totals| - 1;
      SummedWraps(totals[..n], exact[..n]);
      WrapBoth(Sum(exact[..n]), exact[n]);
    }
  }

  /** The stored total of any order is its exact total, wrapped once. */
  lemma StoredTotal(lines: seq<Line>)
    ensures Summed(LineTotals(lines)) == Wrap(ExactTotal(lines))
  {
    ExactTotalIsSum(lines);
    SummedWraps(LineTotals(lines), Prices(lines));
  }

  /** The stored total is right exactly when the true total fits: no hidden wrap can cancel out. */
  lemma TotalExactIffFits(lines: seq<Line>)
    ensures Summed(LineTotals(lines)) == ExactTotal(lines) <==> FitsInt64(ExactTotal(lines))
  {
    StoredTotal(lines);
  }

  /** Four pieces at 2^62 cents come to 2^64 cents, and are stored as nothing at all. */
  lemma TotalCanVanish()
    ensures var lines := [Line(0x4000_0000_0000_0000, 4)];
      Sellable(lines) && ExactTotal(lines) == TWO_64 && Summed(LineTotals(lines)) == 0
  {
    var lines := [Line(0x4000_0000_0000_0000, 4)];
    assert lines[..0] == [];
    StoredTotal(lines);
    WrapCongruent(TWO_64, 0, 1);
  }

  ghost predicate Sellable(lines: seq<Line>) {
    forall k :: 0 <= k < |lines| ==> lines[k].unitPrice > 0 && lines[k].quantity >= 1
  }

  lemma ProductIsPositive(a: int, b: int)
    requires a > 0 && b >= 1
    ensures a * b >= 1
  {
  }

  lemma {:induction false} PrefixSum(xs: seq<int>, k: nat)
    requires k <= |xs| && forall j :: 0 <= j < |xs| ==> xs[j] > 0
    ensures 0 <= Sum(xs[..k]) <= Sum(xs) && (k < |xs| ==> xs[k] <= Sum(xs))
    decreases |xs|
  {
    if xs == [] {
    } else if k == |xs| {
      assert xs[..k] == xs;
      PrefixSum(xs[..k - 1], 0);
    } else {
      var n := |xs| - 1;
      assert xs[..n][..k] == xs[..k];
      PrefixSum(xs[..n], k);
    }
  }

  lemma PrefixTotal(lines: seq<Line>, k: nat)
    requires Sellable(lines) && k <= |lines|
    ensures 0 <= ExactTotal(lines[..k]) <= ExactTotal(lines)
    ensures k < |lines| ==> 0 < lines[k].unitPrice * lines[k].quantity <= ExactTotal(lines)
  {
    forall j | 0 <= j < |lines| ensures Prices(lines)[j] > 0 {
      ProductIsPositive(lines[j].unitPrice, lines[j].quantity);
    }
    PrefixSum(Prices(lines), k);
    assert Prices(lines)[..k] == Prices(lines[..k]);
    ExactTotalIsSum(lines);
    ExactTotalIsSum(lines[..k]);
  }

  lemma LineIsExact(line: Line)
    requires FitsInt64(line.unitPrice * line.quantity)
    ensures ItemTotal(line.unitPrice, line.quantity) == line.unitPrice * line.quantity
  {
  }

  lemma PrefixIsExact(lines: seq<Line>, k: nat)
    requires k <= |lines| && FitsInt64(ExactTotal(lines[..k]))
    ensures Summed(LineTotals(lines)[..k]) == ExactTotal(lines[..k])
  {
    assert LineTotals(lines)[..k] == LineTotals(lines[..k]);
    StoredTotal(lines[..k]);
  }

  /**
   * With positive prices and quantities and a true total that fits, nothing wraps on the way:
   * every line product and every prefix of the summing loop is exact.
   */
  lemma NoWrapAnywhere(lines: seq<Line>, k: nat)
    requires Sellable(lines) && FitsInt64(ExactTotal(lines)) && k <= |lines|
    ensures Summed(LineTotals(lines)[..k]) == ExactTotal(lines[..k])
    ensures k < |lines| ==> LineTotals(lines)[k] == lines[k].unitPrice * lines[k].quantity
  {
    PrefixTotal(lines, k);
    PrefixIsExact(lines, k);
    if k < |lines| {
      LineIsExact(lines[k]);
    }
  }

  lemma {:induction false} ExactTotalRemove(lines: seq<Line>, k: nat)
    requires k < |lines|
    ensures ExactTotal(lines) == ExactTotal(lines[..k] + lines[k + 1..]) + lines[k].unitPrice * lines[k].quantity
    decreases |lines|
  {
    var n := |lines| - 1;
    var rest := lines[..k] + lines[k + 1..];
    if k == n {
      assert rest == lines[..n];
    } else {
      ExactTotalRemove(lines[..n], k);
      assert rest[..n - 1] == lines[..n][..k] + lines[..n][k + 1..];
      assert rest[n - 1] == lines[n];
    }
  }

  lemma {:induction false} ExactTotalPermuted(a: seq<Line>, b: seq<Line>)
    requires multiset(a) == multiset(b)
    ensures ExactTotal(a) == ExactTotal(b)
    decreases |a|
  {
    assert |multiset(a)| == |multiset(b)|;
    if a == [] {
    } else {
      var n := |a| - 1;
      assert a[n] in multiset(b);
      var k :| 0 <= k < |b| && b[k] == a[n];
      var rest := b[..k] + b[k + 1..];
      assert b == b[..k] + [b[k]] + b[k + 1..];
      assert a == a[..n] + [a[n]];
      assert multiset(rest) == multiset(b) - multiset{b[k]};
      ExactTotalRemove(b, k);
      ExactTotalPermuted(a[..n], rest);
    }
  }

  /** The stored total does not depend on the order of the lines, even when it wraps. */
  lemma TotalIgnoresLineOrder(a: seq<Line>, b: seq<Line>)
    requires multiset(a) == multiset(b)
    ensures Summed(LineTotals(a)) == Summed(LineTotals(b))
  {
    StoredTotal(a);
    StoredTotal(b);
    ExactTotalPermuted(a, b);
  }
}
