/** Every transaction of the sales side keeps the invariant. */
module SalesSteps {
  import opened Sums
  import opened Tables
  import opened Protocol
  import opened Invariants
  import SO = SalesOrderLifecycle

  // ---------- One order changes ----------

  /** Agreement survives any change of the sales table that leaves the fulfilled counters alone. */
  lemma {:induction false} SalesAgreeStays(s: State, t: State)
    requires SalesAgree(s)
    requires t.movements == s.movements && t.emitted == s.emitted && t.processed == s.processed
    requires forall ref :: IsSalesLine(t.sales, ref) ==>
               && IsSalesLine(s.sales, ref)
               && SalesLineOf(t.sales, ref).fulfilled == SalesLineOf(s.sales, ref).fulfilled
               && (t.sales[ref.order].status.Cancelled? ==>
                     s.sales[ref.order].status.Cancelled? || Pending(s.emitted, s.processed, ShippedFor(ref)) == 0)
    ensures SalesAgree(t)
  {
  }

  /** Reservations survive any change of the sales table that neither starts nor cancels an order. */
  lemma {:induction false} ReservationsStayOk(rows: seq<Reservation>, a: seq<SalesOrder>, b: seq<SalesOrder>,
                           movements: seq<Movement>, stock: map<Key, StockLevel>)
    requires ReservationsOk(rows, a, movements, stock)
    requires SalesForward(a, b)
    requires forall o :: 0 <= o < |a| && Started(a[o].status) ==> (a[o].status.Cancelled? <==> b[o].status.Cancelled?)
    requires forall o :: 0 <= o < |b| && Holding(b[o].status) ==> o < |a| && Holding(a[o].status)
    ensures ReservationsOk(rows, b, movements, stock)
  {
    forall i | 0 <= i < |rows| ensures ReservationOk(rows[i], b, movements, stock) {
      assert ReservationOk(rows[i], a, movements, stock);
    }
    forall ref | IsSalesLine(b, ref) && Holding(b[ref.order].status) ensures HasRow(rows, ref) {
      assert IsSalesLine(a, ref) && Holding(a[ref.order].status);
    }
  }

  /** Totals move by what the one changed order moves. */
  lemma {:induction false} TotalsOfUpdate(sales: seq<SalesOrder>, o: nat, order': SalesOrder, k: Key)
    requires o < |sales|
    ensures Sum(sales[o := order'], FulfilledAt(k)) == Sum(sales, FulfilledAt(k)) - FulfilledAt(k)(sales[o]) + FulfilledAt(k)(order')
    ensures Sum(sales[o := order'], ReservedAt(k)) == Sum(sales, ReservedAt(k)) - ReservedAt(k)(sales[o]) + ReservedAt(k)(order')
  {
    SumUpdate(sales, o, order', FulfilledAt(k));
    SumUpdate(sales, o, order', ReservedAt(k));
  }

  // ---------- Create and confirm ----------

  lemma {:induction false} NewOrderWeighsNothing(warehouse: nat, items: seq<Item>, k: Key)
    ensures Sum(NewSalesLines(items), LineFulfilledAt(warehouse, k)) == 0
    ensures Sum(NewSalesLines(items), LineReservedAt(warehouse, k)) == 0
  {
    SumZero(NewSalesLines(items), LineFulfilledAt(warehouse, k));
    SumZero(NewSalesLines(items), LineReservedAt(warehouse, k));
  }

  lemma {:induction false} NewOrderAgrees(s: State, t: State, order: SalesOrder)
    requires SalesAgree(s) && MovementsOk(s.movements, s.sales, s.purchases) && EventsOk(s.emitted, s.sales, s.purchases)
    requires t == s.(sales := s.sales + [order])
    requires order.status.Draft? && forall l :: 0 <= l < |order.lines| ==> order.lines[l].fulfilled == 0
    ensures SalesAgree(t)
  {
    forall ref | IsSalesLine(t.sales, ref)
      ensures SalesLineOf(t.sales, ref).fulfilled
              == Sum(t.movements, ShippedFor(ref)) + Pending(t.emitted, t.processed, ShippedFor(ref))
      ensures t.sales[ref.order].status.Cancelled? ==> Pending(t.emitted, t.processed, ShippedFor(ref)) == 0
    {
      if ref.order == |s.sales| {
        NothingShipped(s.movements, s.sales, s.purchases, ref);
        NothingShippedPending(s, ref);
      } else {
        assert IsSalesLine(s.sales, ref);
      }
    }
  }

  lemma {:induction false} NewOrderTotals(s: State, warehouse: nat, items: seq<Item>)
    requires TotalsOk(s)
    ensures TotalsOk(CreateSalesOrder(s, warehouse, items))
  {
    var t := CreateSalesOrder(s, warehouse, items);
    var order := SalesOrder(SO.Draft, warehouse, NewSalesLines(items));
    forall k: Key
      ensures Sum(t.sales, FulfilledAt(k)) == Sum(s.sales, FulfilledAt(k))
      ensures Sum(t.sales, ReservedAt(k)) == Sum(s.sales, ReservedAt(k))
    {
      SumAppend(s.sales, order, FulfilledAt(k));
      SumAppend(s.sales, order, ReservedAt(k));
      NewOrderWeighsNothing(warehouse, items, k);
    }
  }

  lemma {:induction false} CreateSalesOrderKeeps(origin: State, s: State, warehouse: nat, items: seq<Item>)
    requires Inv(origin, s) && items != []
    ensures Inv(origin, CreateSalesOrder(s, warehouse, items))
  {
    var t := CreateSalesOrder(s, warehouse, items);
    NewOrderOk(s.sales, warehouse, items);
    NewOrderAgrees(s, t, t.sales[|s.sales|]);
    NewOrderTotals(s, warehouse, items);
    ReservationsStayOk(s.reservations, s.sales, t.sales, s.movements, s.stock);
    SalesSideKeeps(origin, s, t);
  }

  lemma {:induction false} NewOrderOk(sales: seq<SalesOrder>, warehouse: nat, items: seq<Item>)
    requires SalesOk(sales) && items != []
    ensures var sales' := sales + [SalesOrder(SO.Draft, warehouse, NewSalesLines(items))];
            && SalesOk(sales') && SalesForward(sales, sales')
            && forall o :: 0 <= o < |sales'| && Holding(sales'[o].status) ==> o < |sales| && Holding(sales[o].status)
  {
  }

  /** The order a change of status alone makes of an order that holds nothing. */
  lemma {:induction false} RestatusOrderOk(order: SalesOrder, status: SO.Status)
    requires SalesOrderOk(order) && !Started(order.status)
    requires status.Confirmed? || status.Cancelled?
    ensures SalesOrderOk(order.(status := status))
  {
    var order' := order.(status := status);
    forall l | 0 <= l < |order.lines| ensures SalesLineOk(status, order'.lines[l]) {
      assert SalesLineOk(order.status, order.lines[l]);
    }
    assert order'.lines[0].fulfilled < order'.lines[0].ordered;
  }

  lemma {:induction false} RestatusAgrees(s: State, o: nat, status: SO.Status)
    requires SalesAgree(s) && EventsOk(s.emitted, s.sales, s.purchases)
    requires o < |s.sales| && !Started(s.sales[o].status)
    ensures SalesAgree(s.(sales := s.sales[o := s.sales[o].(status := status)]))
  {
    var t := s.(sales := s.sales[o := s.sales[o].(status := status)]);
    forall ref | IsSalesLine(t.sales, ref)
      ensures IsSalesLine(s.sales, ref)
      ensures ref.order == o ==> Pending(s.emitted, s.processed, ShippedFor(ref)) == 0
    {
      if ref.order == o {
        NothingShippedPending(s, ref);
      }
    }
    SalesAgreeStays(s, t);
  }

  lemma {:induction false} RestatusTotals(s: State, o: nat, status: SO.Status)
    requires TotalsOk(s) && o < |s.sales|
    ensures TotalsOk(s.(sales := s.sales[o := s.sales[o].(status := status)]))
  {
    forall k: Key
      ensures Sum(s.sales[o := s.sales[o].(status := status)], FulfilledAt(k)) == Sum(s.sales, FulfilledAt(k))
      ensures Sum(s.sales[o := s.sales[o].(status := status)], ReservedAt(k)) == Sum(s.sales, ReservedAt(k))
    {
      TotalsOfUpdate(s.sales, o, s.sales[o].(status := status), k);
    }
  }

  /** Confirming, and cancelling an order that was never allocated. */
  lemma {:induction false} RestatusKeeps(origin: State, s: State, o: nat, status: SO.Status)
    requires Inv(origin, s) && o < |s.sales|
    requires !Started(s.sales[o].status)
    requires status.Confirmed? || status.Cancelled?
    ensures Inv(origin, s.(sales := s.sales[o := s.sales[o].(status := status)]))
  {
    var t := s.(sales := s.sales[o := s.sales[o].(status := status)]);
    RestatusOrderOk(s.sales[o], status);
    UpdateIsForward(s.sales, o, t.sales[o]);
    RestatusAgrees(s, o, status);
    RestatusTotals(s, o, status);
    ReservationsStayOk(s.reservations, s.sales, t.sales, s.movements, s.stock);
    SalesSideKeeps(origin, s, t);
  }

  // ---------- The lock order ----------

  lemma {:induction false} InsertKeepsBag(sorted: seq<Listed>, x: Listed)
    ensures multiset(InsertByProduct(sorted, x)) == multiset(sorted) + multiset{x}
  {
    if sorted == [] || sorted[|sorted| - 1].line.product <= x.line.product {
    } else {
      InsertKeepsBag(sorted[..|sorted| - 1], x);
      assert sorted == sorted[..|sorted| - 1] + [sorted[|sorted| - 1]];
    }
  }

  ghost predicate ByProduct(entries: seq<Listed>) {
    forall i, j :: 0 <= i < j < |entries| ==> entries[i].line.product <= entries[j].line.product
  }

  lemma {:induction false} InsertKeepsOrder(sorted: seq<Listed>, x: Listed)
    requires ByProduct(sorted)
    ensures ByProduct(InsertByProduct(sorted, x))
  {
    if sorted == [] || sorted[|sorted| - 1].line.product <= x.line.product {
    } else {
      var n := |sorted| - 1;
      var shorter := InsertByProduct(sorted[..n], x);
      InsertKeepsOrder(sorted[..n], x);
      InsertKeepsBag(sorted[..n], x);
      forall i | 0 <= i < |shorter| ensures shorter[i].line.product <= sorted[n].line.product {
        assert shorter[i] in multiset(shorter);
        assert shorter[i] in multiset(sorted[..n]) || shorter[i] == x;
        if shorter[i] in multiset(sorted[..n]) {
          var j :| 0 <= j < n && sorted[j] == shorter[i];
        }
      }
    }
  }

  /** The lock order is a rearrangement of the lines, by ascending product. */
  lemma {:induction false} SortedIsListing(entries: seq<Listed>)
    ensures multiset(SortedByProduct(entries)) == multiset(entries)
    ensures |SortedByProduct(entries)| == |entries|
    ensures ByProduct(SortedByProduct(entries))
  {
    if entries != [] {
      var n := |entries| - 1;
      SortedIsListing(entries[..n]);
      InsertKeepsBag(SortedByProduct(entries[..n]), entries[n]);
      InsertKeepsOrder(SortedByProduct(entries[..n]), entries[n]);
      assert entries == entries[..n] + [entries[n]];
      SameSize(SortedByProduct(entries), entries);
    }
  }

  lemma {:induction false} SameSize<T>(a: seq<T>, b: seq<T>)
    requires multiset(a) == multiset(b)
    ensures |a| == |b|
  {
    assert |multiset(a)| == |multiset(b)|;
  }

  /** Line `l` has a place in the lock order. */
  ghost predicate Placed(sorted: seq<Listed>, l: nat) {
    exists i :: 0 <= i < |sorted| && sorted[i].index == l
  }

  /** Every line of the order is locked exactly once. */
  lemma {:induction false} SortedHasEveryLine(lines: seq<SalesLine>, sorted: seq<Listed>)
    requires sorted == SortedByProduct(Listing(lines))
    ensures |sorted| == |lines|
    ensures forall i :: 0 <= i < |sorted| ==> sorted[i].index < |lines| && sorted[i].line == lines[sorted[i].index]
    ensures forall i, j :: 0 <= i < j < |sorted| ==> sorted[i].index != sorted[j].index
    ensures forall l :: 0 <= l < |lines| ==> Placed(sorted, l)
  {
    SortedIsListing(Listing(lines));
    BagOfListing(lines, sorted);
  }

  lemma {:induction false} BagOfListing(lines: seq<SalesLine>, sorted: seq<Listed>)
    requires multiset(sorted) == multiset(Listing(lines))
    ensures forall i :: 0 <= i < |sorted| ==> sorted[i].index < |lines| && sorted[i].line == lines[sorted[i].index]
    ensures forall i, j :: 0 <= i < j < |sorted| ==> sorted[i].index != sorted[j].index
    ensures forall l :: 0 <= l < |lines| ==> Placed(sorted, l)
  {
    var entries := Listing(lines);
    forall i | 0 <= i < |sorted| ensures sorted[i].index < |lines| && sorted[i].line == lines[sorted[i].index] {
      assert sorted[i] in multiset(sorted);
      assert sorted[i] in multiset(entries);
      var j :| 0 <= j < |entries| && entries[j] == sorted[i];
    }
    forall i, j | 0 <= i < j < |sorted| ensures sorted[i].index != sorted[j].index {
      if sorted[i].index == sorted[j].index {
        TwiceInBag(sorted, i, j);
        OnceInListing(lines, sorted[i].index);
        assert false;
      }
    }
    forall l | 0 <= l < |lines| ensures Placed(sorted, l) {
      assert entries[l] in multiset(entries);
      assert entries[l] in multiset(sorted);
      var i :| 0 <= i < |sorted| && sorted[i] == entries[l];
    }
  }

  lemma {:induction false} TwiceInBag<T>(s: seq<T>, i: nat, j: nat)
    requires i < j < |s| && s[i] == s[j]
    ensures 2 <= multiset(s)[s[i]]
  {
    assert s == s[..i] + [s[i]] + s[i + 1..j] + [s[j]] + s[j + 1..];
  }

  lemma {:induction false} OnceInListing(lines: seq<SalesLine>, l: nat)
    requires l < |lines|
    ensures multiset(Listing(lines))[Listed(l, lines[l])] == 1
  {
    var entries := Listing(lines);
    var x := entries[l];
    assert entries == entries[..l] + [x] + entries[l + 1..];
    assert x !in entries[..l] && x !in entries[l + 1..];
    assert multiset(entries) == multiset(entries[..l]) + multiset{x} + multiset(entries[l + 1..]);
  }

  ghost function ListedOrderedAt(warehouse: nat, k: Key): Listed -> int {
    (e: Listed) => if Key(e.line.product, warehouse) == k then e.line.ordered else 0
  }

  /** In lock order, too, the lines add up to the order's demand. */
  lemma {:induction false} SortedDemand(order: SalesOrder, k: Key)
    ensures Sum(SortedByProduct(Listing(order.lines)), ListedOrderedAt(order.warehouse, k)) == Demand(order, k)
  {
    var f := ListedOrderedAt(order.warehouse, k);
    SortedIsListing(Listing(order.lines));
    SumBag(SortedByProduct(Listing(order.lines)), Listing(order.lines), f);
    SumSame(Listing(order.lines), f, order.lines, LineOrderedAt(order.warehouse, k));
  }

  // ---------- Allocate ----------

  lemma {:induction false} DemandFits(stock: map<Key, StockLevel>, order: SalesOrder, k: Key)
    requires Sufficient(stock, order)
    ensures 0 <= Demand(order, k)
    ensures k !in stock ==> Demand(order, k) == 0
    ensures k in stock && stock[k].reserved <= stock[k].onHand ==> stock[k].reserved + Demand(order, k) <= stock[k].onHand
  {
    SumNonNegative(order.lines, LineOrderedAt(order.warehouse, k));
    if l :| 0 <= l < |order.lines| && Key(order.lines[l].product, order.warehouse) == k {
      SumAtLeastRow(order.lines, l, LineOrderedAt(order.warehouse, k));
    } else {
      SumZero(order.lines, LineOrderedAt(order.warehouse, k));
    }
  }

  /** The new rows hold exactly the order's demand. */
  lemma {:induction false} NewRowsHoldDemand(o: nat, order: SalesOrder, k: Key)
    ensures Sum(NewReservations(o, order.warehouse, SortedByProduct(Listing(order.lines))), OutstandingAt(k)) == Demand(order, k)
  {
    var sorted := SortedByProduct(Listing(order.lines));
    var rows := NewReservations(o, order.warehouse, sorted);
    forall i | 0 <= i < |rows| ensures OutstandingAt(k)(rows[i]) == ListedOrderedAt(order.warehouse, k)(sorted[i]) {
      assert rows[i] == NewReservation(o, order.warehouse, sorted[i]);
    }
    SumSame(rows, OutstandingAt(k), sorted, ListedOrderedAt(order.warehouse, k));
    SortedDemand(order, k);
  }

  /** One new reservation is what the invariant wants of it. */
  lemma {:induction false} NewRowOk(s: State, o: nat, entry: Listed, sales': seq<SalesOrder>, stock': map<Key, StockLevel>)
    requires o < |s.sales| && s.sales[o].status.Confirmed?
    requires Sufficient(s.stock, s.sales[o]) && MovementsOk(s.movements, s.sales, s.purchases)
    requires entry.index < |s.sales[o].lines| && entry.line == s.sales[o].lines[entry.index]
    requires sales' == s.sales[o := s.sales[o].(status := SO.Allocated, lines := ReserveLines(s.sales[o].lines))]
    requires stock'.Keys == s.stock.Keys
    ensures ReservationOk(NewReservation(o, s.sales[o].warehouse, entry), sales', s.movements, stock')
  {
    var order := s.sales[o];
    var r := NewReservation(o, order.warehouse, entry);
    NothingShipped(s.movements, s.sales, s.purchases, r.ref);
    SumAtLeastRow(order.lines, entry.index, LineOrderedAt(order.warehouse, r.key));
    assert Demand(order, r.key) <= Available(s.stock, r.key);
  }

  /** The rows of other orders do not notice an allocation. */
  lemma {:induction false} OldRowOk(s: State, o: nat, r: Reservation, sales': seq<SalesOrder>, stock': map<Key, StockLevel>)
    requires o < |s.sales| && s.sales[o].status.Confirmed?
    requires ReservationOk(r, s.sales, s.movements, s.stock)
    requires sales' == s.sales[o := s.sales[o].(status := SO.Allocated, lines := ReserveLines(s.sales[o].lines))]
    requires stock'.Keys == s.stock.Keys
    ensures ReservationOk(r, sales', s.movements, stock') && r.ref.order != o
  {
  }

  /** Every line of an order that holds stock has a row once the new rows are added. */
  lemma {:induction false} AllocateHasRows(s: State, o: nat, ref: LineRef)
    requires Allocate(s, o).Committed?
    requires IsSalesLine(s.sales, ref) && (ref.order == o || HasRow(s.reservations, ref))
    ensures HasRow(Allocate(s, o).state.reservations, ref)
  {
    var rows := Allocate(s, o).state.reservations;
    var n := |s.reservations|;
    if ref.order == o {
      var sorted := SortedByProduct(Listing(s.sales[o].lines));
      SortedHasEveryLine(s.sales[o].lines, sorted);
      assert Placed(sorted, ref.line);
      var i :| 0 <= i < |sorted| && sorted[i].index == ref.line;
      assert rows[n + i].ref == ref;
    } else {
      var i :| 0 <= i < n && s.reservations[i].ref == ref;
      assert rows[i].ref == ref;
    }
  }

  /** The rows are one per line, before and after. */
  lemma {:induction false} AllocateKeepsUnique(rows: seq<Reservation>, o: nat, warehouse: nat, lines: seq<SalesLine>, sorted: seq<Listed>)
    requires UniqueRefs(rows) && sorted == SortedByProduct(Listing(lines))
    requires forall i :: 0 <= i < |rows| ==> rows[i].ref.order != o
    ensures UniqueRefs(rows + NewReservations(o, warehouse, sorted))
  {
    SortedHasEveryLine(lines, sorted);
    var all := rows + NewReservations(o, warehouse, sorted);
    forall i | |rows| <= i < |all| ensures all[i].ref == LineRef(o, sorted[i - |rows|].index) {
      assert all[i] == NewReservation(o, warehouse, sorted[i - |rows|]);
    }
  }

  lemma {:induction false} AllocateKeepsRows(s: State, o: nat, i: nat)
    requires Allocate(s, o).Committed?
    requires MovementsOk(s.movements, s.sales, s.purchases)
    requires i < |s.reservations| ==> ReservationOk(s.reservations[i], s.sales, s.movements, s.stock)
    ensures var t := Allocate(s, o).state;
            i < |t.reservations| ==> ReservationOk(t.reservations[i], t.sales, t.movements, t.stock)
  {
    var t := Allocate(s, o).state;
    var sorted := SortedByProduct(Listing(s.sales[o].lines));
    if i < |s.reservations| {
      OldRowOk(s, o, s.reservations[i], t.sales, t.stock);
    } else if i < |t.reservations| {
      SortedHasEveryLine(s.sales[o].lines, sorted);
      NewRowOk(s, o, sorted[i - |s.reservations|], t.sales, t.stock);
    }
  }

  lemma {:induction false} AllocateKeepsReservations(s: State, o: nat)
    requires Allocate(s, o).Committed?
    requires MovementsOk(s.movements, s.sales, s.purchases)
    requires ReservationsOk(s.reservations, s.sales, s.movements, s.stock)
    ensures var t := Allocate(s, o).state;
            ReservationsOk(t.reservations, t.sales, t.movements, t.stock)
  {
    var t := Allocate(s, o).state;
    var order := s.sales[o];
    forall i | 0 <= i < |t.reservations| ensures ReservationOk(t.reservations[i], t.sales, t.movements, t.stock) {
      AllocateKeepsRows(s, o, i);
    }
    forall i | 0 <= i < |s.reservations| ensures s.reservations[i].ref.order != o {
      OldRowOk(s, o, s.reservations[i], t.sales, t.stock);
    }
    AllocateKeepsUnique(s.reservations, o, order.warehouse, order.lines, SortedByProduct(Listing(order.lines)));
    forall ref | IsSalesLine(t.sales, ref) && Holding(t.sales[ref.order].status) ensures HasRow(t.reservations, ref) {
      assert IsSalesLine(s.sales, ref);
      AllocateHasRows(s, o, ref);
    }
  }

  /** The order's lines move from nothing to their whole quantity reserved. */
  lemma {:induction false} ReservingWeighs(order: SalesOrder, k: Key)
    requires SalesOrderOk(order) && order.status.Confirmed?
    ensures var order' := order.(status := SO.Allocated, lines := ReserveLines(order.lines));
            && ReservedAt(k)(order) == 0 && ReservedAt(k)(order') == Demand(order, k)
            && FulfilledAt(k)(order') == FulfilledAt(k)(order)
  {
    var lines := ReserveLines(order.lines);
    forall l | 0 <= l < |order.lines| ensures order.lines[l].reserved == 0 {
      assert SalesLineOk(order.status, order.lines[l]);
    }
    SumSame(lines, LineFulfilledAt(order.warehouse, k), order.lines, LineFulfilledAt(order.warehouse, k));
    SumSame(lines, LineReservedAt(order.warehouse, k), order.lines, LineOrderedAt(order.warehouse, k));
    SumZero(order.lines, LineReservedAt(order.warehouse, k));
  }

  lemma {:induction false} AllocateAddsLines(s: State, o: nat, k: Key)
    requires Allocate(s, o).Committed?
    requires SalesOrderOk(s.sales[o])
    ensures var t := Allocate(s, o).state;
            && Sum(t.sales, FulfilledAt(k)) == Sum(s.sales, FulfilledAt(k))
            && Sum(t.sales, ReservedAt(k)) == Sum(s.sales, ReservedAt(k)) + Demand(s.sales[o], k)
  {
    ReservingWeighs(s.sales[o], k);
    TotalsOfUpdate(s.sales, o, Allocate(s, o).state.sales[o], k);
  }

  /** An allocation adds the order's demand to every measure of what is reserved, and to nothing else. */
  lemma {:induction false} AllocateAdds(s: State, o: nat, k: Key)
    requires Allocate(s, o).Committed?
    requires SalesOrderOk(s.sales[o])
    ensures var t := Allocate(s, o).state;
            && Sum(t.sales, FulfilledAt(k)) == Sum(s.sales, FulfilledAt(k))
            && Sum(t.sales, ReservedAt(k)) == Sum(s.sales, ReservedAt(k)) + Demand(s.sales[o], k)
            && ReservedIn(t.stock, k) == ReservedIn(s.stock, k) + Demand(s.sales[o], k)
            && Sum(t.reservations, OutstandingAt(k)) == Sum(s.reservations, OutstandingAt(k)) + Demand(s.sales[o], k)
  {
    var order := s.sales[o];
    var rows := NewReservations(o, order.warehouse, SortedByProduct(Listing(order.lines)));
    AllocateAddsLines(s, o, k);
    DemandFits(s.stock, order, k);
    SumConcat(s.reservations, rows, OutstandingAt(k));
    NewRowsHoldDemand(o, order, k);
  }

  lemma {:induction false} AllocateKeepsTotals(s: State, o: nat)
    requires Allocate(s, o).Committed?
    requires SalesOrderOk(s.sales[o]) && TotalsOk(s)
    ensures TotalsOk(Allocate(s, o).state)
  {
    forall k: Key {
      AllocateAdds(s, o, k);
    }
  }

  lemma {:induction false} AllocateKeepsStock(s: State, o: nat)
    requires Allocate(s, o).Committed?
    requires SalesOrderOk(s.sales[o]) && StockOk(s.stock, s.movements, s.reservations)
    ensures var t := Allocate(s, o).state;
            StockOk(t.stock, t.movements, t.reservations)
  {
    var t := Allocate(s, o).state;
    forall k | k in t.stock
      ensures t.stock[k].reserved == Sum(t.reservations, OutstandingAt(k))
      ensures t.stock[k].onHand == s.stock[k].onHand && 0 <= t.stock[k].reserved <= t.stock[k].onHand
    {
      AllocateAdds(s, o, k);
      DemandFits(s.stock, s.sales[o], k);
    }
  }

  lemma {:induction false} AllocatedOrderOk(order: SalesOrder)
    requires SalesOrderOk(order) && order.status.Confirmed?
    ensures SalesOrderOk(order.(status := SO.Allocated, lines := ReserveLines(order.lines)))
  {
    var lines := ReserveLines(order.lines);
    forall l | 0 <= l < |lines| ensures SalesLineOk(SO.Allocated, lines[l]) {
      assert SalesLineOk(order.status, order.lines[l]);
    }
  }

  lemma {:induction false} AllocateKeepsSales(s: State, o: nat)
    requires Allocate(s, o).Committed? && SalesOk(s.sales) && SalesAgree(s)
    ensures var t := Allocate(s, o).state;
            SalesOk(t.sales) && SalesForward(s.sales, t.sales) && SalesAgree(t)
  {
    AllocatedOrderOk(s.sales[o]);
    UpdateIsForward(s.sales, o, Allocate(s, o).state.sales[o]);
    SalesAgreeStays(s, Allocate(s, o).state);
  }

  lemma {:induction false} AllocateKeeps(origin: State, s: State, o: nat)
    requires Inv(origin, s) && Allocate(s, o).Committed?
    ensures Inv(origin, Allocate(s, o).state)
  {
    AllocateKeepsSales(s, o);
    AllocateKeepsReservations(s, o);
    AllocateKeepsTotals(s, o);
    AllocateKeepsStock(s, o);
    SalesSideKeeps(origin, s, Allocate(s, o).state);
  }
}
