/** An allocation half way: what the first lines in lock order have reserved, and what that says about the whole order. */
module Allocation {
  import opened Sums
  import opened Tables
  import opened Protocol
  import opened SalesSteps

  ghost function Taken(entries: seq<Listed>, warehouse: nat, k: Key): int {
    Sum(entries, ListedOrderedAt(warehouse, k))
  }

  /** The stock with the quantities of `entries` reserved. */
  ghost function PartialStock(stock: map<Key, StockLevel>, warehouse: nat, entries: seq<Listed>): map<Key, StockLevel> {
    map k | k in stock :: stock[k].(reserved := stock[k].reserved + Taken(entries, warehouse, k))
  }

  /** The order lines with those of `entries` marked as reserved. */
  ghost function PartialLines(lines: seq<SalesLine>, entries: seq<Listed>): seq<SalesLine> {
    seq(|lines|, l requires 0 <= l < |lines| => if Placed(entries, l) then lines[l].(reserved := lines[l].ordered) else lines[l])
  }

  function KeyOf(e: Listed, warehouse: nat): Key {
    Key(e.line.product, warehouse)
  }

  /** What `entries` take together is free at each of their keys. */
  ghost predicate Fits(stock: map<Key, StockLevel>, warehouse: nat, entries: seq<Listed>) {
    forall j :: 0 <= j < |entries| ==>
      var k := KeyOf(entries[j], warehouse);
      Taken(entries, warehouse, k) <= Available(stock, k)
  }

  lemma {:induction false} TakenNext(entries: seq<Listed>, e: Listed, warehouse: nat, k: Key)
    ensures Taken(entries + [e], warehouse, k) == Taken(entries, warehouse, k) + if KeyOf(e, warehouse) == k then e.line.ordered else 0
  {
    SumAppend(entries, e, ListedOrderedAt(warehouse, k));
  }

  lemma {:induction false} PartialStockNext(stock: map<Key, StockLevel>, warehouse: nat, entries: seq<Listed>, e: Listed)
    requires KeyOf(e, warehouse) in stock
    ensures var k := KeyOf(e, warehouse);
            var before := PartialStock(stock, warehouse, entries);
            PartialStock(stock, warehouse, entries + [e]) == before[k := before[k].(reserved := before[k].reserved + e.line.ordered)]
  {
    forall k | k in stock {
      TakenNext(entries, e, warehouse, k);
    }
  }

  lemma {:induction false} PartialLinesNext(lines: seq<SalesLine>, entries: seq<Listed>, e: Listed)
    requires e.index < |lines| && e.line == lines[e.index]
    requires forall j :: 0 <= j < |entries| ==> entries[j].index != e.index
    ensures PartialLines(lines, entries + [e])
            == PartialLines(lines, entries)[e.index := PartialLines(lines, entries)[e.index].(reserved := e.line.ordered)]
  {
    forall l | 0 <= l < |lines| ensures Placed(entries + [e], l) <==> Placed(entries, l) || l == e.index {
      if Placed(entries, l) {
        var i :| 0 <= i < |entries| && entries[i].index == l;
        assert (entries + [e])[i].index == l;
      }
      if l == e.index {
        assert (entries + [e])[|entries|].index == l;
      }
    }
  }

  lemma {:induction false} NewReservationsNext(o: nat, warehouse: nat, entries: seq<Listed>, e: Listed)
    ensures NewReservations(o, warehouse, entries + [e]) == NewReservations(o, warehouse, entries) + [NewReservation(o, warehouse, e)]
  {
  }

  /** One more line fits if it fits into what the earlier ones left. */
  lemma {:induction false} FitsNext(stock: map<Key, StockLevel>, warehouse: nat, entries: seq<Listed>, e: Listed)
    requires Fits(stock, warehouse, entries)
    requires e.line.ordered <= Available(PartialStock(stock, warehouse, entries), KeyOf(e, warehouse))
    ensures Fits(stock, warehouse, entries + [e])
    ensures KeyOf(e, warehouse) in stock
  {
    forall j | 0 <= j < |entries + [e]|
      ensures Taken(entries + [e], warehouse, KeyOf((entries + [e])[j], warehouse)) <= Available(stock, KeyOf((entries + [e])[j], warehouse))
    {
      TakenNext(entries, e, warehouse, KeyOf((entries + [e])[j], warehouse));
    }
  }

  ghost predicate LockOrder(order: SalesOrder, sorted: seq<Listed>) {
    sorted == SortedByProduct(Listing(order.lines))
  }

  /** When every line in lock order has found its quantity, the whole order is covered. */
  lemma {:induction false} AllFit(stock: map<Key, StockLevel>, order: SalesOrder, sorted: seq<Listed>)
    requires LockOrder(order, sorted) && Fits(stock, order.warehouse, sorted)
    ensures Sufficient(stock, order)
  {
    SortedHasEveryLine(order.lines, sorted);
    forall l | 0 <= l < |order.lines|
      ensures Demand(order, Key(order.lines[l].product, order.warehouse)) <= Available(stock, Key(order.lines[l].product, order.warehouse))
    {
      assert Placed(sorted, l);
      var j :| 0 <= j < |sorted| && sorted[j].index == l;
      assert sorted[j].line == order.lines[l];
      SortedDemand(order, KeyOf(sorted[j], order.warehouse));
    }
  }

  /** The first `n + 1` lines in lock order want no more of a key than the whole order does. */
  lemma {:induction false} PartOfDemand(order: SalesOrder, sorted: seq<Listed>, n: nat, k: Key)
    requires LockOrder(order, sorted) && n < |sorted| && KeyOf(sorted[n], order.warehouse) == k
    ensures 0 <= Taken(sorted[..n], order.warehouse, k)
    ensures Taken(sorted[..n], order.warehouse, k) + sorted[n].line.ordered <= Demand(order, k)
  {
    SortedDemand(order, k);
    SumSlice(sorted, n + 1, ListedOrderedAt(order.warehouse, k));
    SumNonNegative(sorted[n + 1..], ListedOrderedAt(order.warehouse, k));
    assert sorted[..n + 1] == sorted[..n] + [sorted[n]];
    TakenNext(sorted[..n], sorted[n], order.warehouse, k);
    SumNonNegative(sorted[..n], ListedOrderedAt(order.warehouse, k));
  }

  /** When one line in lock order finds too little left, the order is not covered, whatever the other lines are. */
  lemma {:induction false} OneFails(stock: map<Key, StockLevel>, order: SalesOrder, sorted: seq<Listed>, n: nat)
    requires LockOrder(order, sorted) && n < |sorted|
    requires Available(PartialStock(stock, order.warehouse, sorted[..n]), KeyOf(sorted[n], order.warehouse)) < sorted[n].line.ordered
    ensures !Sufficient(stock, order)
  {
    var k := KeyOf(sorted[n], order.warehouse);
    SortedHasEveryLine(order.lines, sorted);
    PartOfDemand(order, sorted, n, k);
    var l := sorted[n].index;
    assert Key(order.lines[l].product, order.warehouse) == k;
    assert Available(stock, k) < Demand(order, k);
  }

  /** Line `n` in lock order finds its quantity in what the earlier lines have left. */
  ghost predicate FindsEnough(stock: map<Key, StockLevel>, order: SalesOrder, sorted: seq<Listed>, n: nat)
    requires n < |sorted|
  {
    sorted[n].line.ordered <= Available(PartialStock(stock, order.warehouse, sorted[..n]), KeyOf(sorted[n], order.warehouse))
  }

  lemma {:induction false} FoundFits(stock: map<Key, StockLevel>, order: SalesOrder, sorted: seq<Listed>, n: nat)
    requires n <= |sorted| && forall i :: 0 <= i < n ==> FindsEnough(stock, order, sorted, i)
    ensures Fits(stock, order.warehouse, sorted[..n])
  {
    if n != 0 {
      FoundFits(stock, order, sorted, n - 1);
      assert FindsEnough(stock, order, sorted, n - 1);
      FitsNext(stock, order.warehouse, sorted[..n - 1], sorted[n - 1]);
      assert sorted[..n] == sorted[..n - 1] + [sorted[n - 1]];
    }
  }

  /**
   * The allocation criterion: the line-by-line loop gets through exactly when, product by product,
   * the order's lines together want no more than was available before the first of them.
   */
  lemma {:induction false} LoopCriterion(stock: map<Key, StockLevel>, order: SalesOrder, sorted: seq<Listed>)
    requires LockOrder(order, sorted)
    ensures (forall n :: 0 <= n < |sorted| ==> FindsEnough(stock, order, sorted, n)) <==> Sufficient(stock, order)
  {
    if n :| 0 <= n < |sorted| && !FindsEnough(stock, order, sorted, n) {
      OneFails(stock, order, sorted, n);
    } else {
      FoundFits(stock, order, sorted, |sorted|);
      assert sorted[..|sorted|] == sorted;
      AllFit(stock, order, sorted);
    }
  }

  /** After the last line, the partial tables are those of the whole allocation. */
  lemma {:induction false} WholeAllocation(stock: map<Key, StockLevel>, order: SalesOrder, sorted: seq<Listed>)
    requires LockOrder(order, sorted)
    ensures PartialStock(stock, order.warehouse, sorted) == ReserveStock(stock, order)
    ensures PartialLines(order.lines, sorted) == ReserveLines(order.lines)
  {
    WholeStock(stock, order, sorted);
    SortedHasEveryLine(order.lines, sorted);
    forall l | 0 <= l < |order.lines| ensures Placed(sorted, l) {
    }
  }

  lemma {:induction false} WholeStock(stock: map<Key, StockLevel>, order: SalesOrder, sorted: seq<Listed>)
    requires LockOrder(order, sorted)
    ensures PartialStock(stock, order.warehouse, sorted) == ReserveStock(stock, order)
  {
    forall k | k in stock ensures Taken(sorted, order.warehouse, k) == Demand(order, k) {
      SortedDemand(order, k);
    }
  }

  lemma {:induction false} NothingTaken(stock: map<Key, StockLevel>, warehouse: nat, lines: seq<SalesLine>)
    ensures PartialStock(stock, warehouse, []) == stock
    ensures PartialLines(lines, []) == lines
  {
  }
}
