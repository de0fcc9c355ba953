/** Delivering an event, for the first time or again, keeps the invariant. */
module DeliverySteps {
  import opened Wrappers
  import opened Sums
  import opened Tables
  import opened Protocol
  import opened Invariants
  import opened PurchaseSteps
  import PO = PurchaseOrderLifecycle

  // ---------- Posting moves rows from in flight to the ledger ----------

  /** Whatever is measured, a delivery leaves ledger plus in-flight unchanged. */
  lemma {:induction false} PostedPlusPending(s: State, id: nat, f: Movement -> int)
    requires id < |s.emitted| && id !in s.processed
    ensures var ms := MovementsOf(s.emitted[id]);
            Sum(s.movements + ms, f) + Pending(s.emitted, s.processed + {id}, f)
            == Sum(s.movements, f) + Pending(s.emitted, s.processed, f)
  {
    SumConcat(s.movements, MovementsOf(s.emitted[id]), f);
    PendingClaim(s.emitted, s.processed, id, f);
  }

  ghost predicate Posts(s: State, t: State, id: nat) {
    && id < |s.emitted| && id !in s.processed
    && t.processed == s.processed + {id}
    && t.emitted == s.emitted
    && t.movements == s.movements + MovementsOf(s.emitted[id])
  }

  lemma {:induction false} PostKeepsSales(s: State, t: State, id: nat)
    requires Posts(s, t, id) && t.sales == s.sales
    requires SalesAgree(s)
    ensures SalesAgree(t)
  {
    forall ref | IsSalesLine(t.sales, ref)
      ensures SalesLineOf(t.sales, ref).fulfilled
              == Sum(t.movements, ShippedFor(ref)) + Pending(t.emitted, t.processed, ShippedFor(ref))
      ensures t.sales[ref.order].status.Cancelled? ==> Pending(t.emitted, t.processed, ShippedFor(ref)) == 0
    {
      assert IsSalesLine(s.sales, ref);
      PostedPlusPending(s, id, ShippedFor(ref));
      PendingClaim(s.emitted, s.processed, id, ShippedFor(ref));
      EventShipsNonNegative(s.emitted[id], ref, Key(0, 0));
      PendingShipsNonNegative(s.emitted, s.processed + {id}, ref, Key(0, 0));
    }
  }

  lemma {:induction false} PostKeepsPurchases(s: State, t: State, id: nat)
    requires Posts(s, t, id) && t.purchases == s.purchases && t.receipts == s.receipts
    requires PurchasesAgree(s)
    ensures PurchasesAgree(t)
  {
    forall ref | IsPurchaseLine(t.purchases, ref)
      ensures PurchaseLineOf(t.purchases, ref).received
              == Sum(t.movements, ArrivedFor(ref)) + Pending(t.emitted, t.processed, ArrivedFor(ref))
      ensures PurchaseLineOf(t.purchases, ref).received == Sum(t.receipts, ReceiptFor(ref))
    {
      assert IsPurchaseLine(s.purchases, ref);
      PostedPlusPending(s, id, ArrivedFor(ref));
    }
    assert forall i :: 0 <= i < |t.receipts| ==> IsPurchaseLine(s.purchases, t.receipts[i].poLine);
  }

  lemma {:induction false} PostKeepsMovements(s: State, t: State, id: nat)
    requires Posts(s, t, id)
    requires MovementsOk(s.movements, s.sales, s.purchases) && EventsOk(s.emitted, s.sales, s.purchases)
    ensures MovementsOk(t.movements, s.sales, s.purchases)
  {
    assert MovementsOk(MovementsOf(s.emitted[id]), s.sales, s.purchases);
  }

  lemma {:induction false} BagsCommute<T>(a: multiset<T>, b: multiset<T>, c: multiset<T>)
    ensures a + b + c == a + c + b
  {
  }

  lemma {:induction false} PostedClaim(emitted: seq<Event>, processed: set<nat>, id: nat)
    requires id < |emitted| && id !in processed
    ensures Posted(emitted, processed + {id}) == Posted(emitted, processed) + multiset(MovementsOf(emitted[id]))
  {
    var n := |emitted| - 1;
    if id < n {
      PostedClaim(emitted[..n], processed, id);
      BagsCommute(Posted(emitted[..n], processed), multiset(MovementsOf(emitted[id])),
                  if n in processed then multiset(MovementsOf(emitted[n])) else multiset{});
    } else {
      PostedIgnores(emitted[..n], processed, id);
    }
  }

  lemma {:induction false} PostedIgnores(emitted: seq<Event>, processed: set<nat>, id: nat)
    requires |emitted| <= id
    ensures Posted(emitted, processed + {id}) == Posted(emitted, processed)
  {
    if emitted != [] {
      PostedIgnores(emitted[..|emitted| - 1], processed, id);
    }
  }

  lemma {:induction false} KeysOfConcat(a: seq<Movement>, b: seq<Movement>)
    ensures KeysOf(a + b) == KeysOf(a) + KeysOf(b)
  {
    forall k | k in KeysOf(a) + KeysOf(b) ensures k in KeysOf(a + b) {
      if k in KeysOf(a) {
        var i :| 0 <= i < |a| && a[i].key == k;
        assert (a + b)[i].key == k;
      } else {
        var i :| 0 <= i < |b| && b[i].key == k;
        assert (a + b)[|a| + i].key == k;
      }
    }
  }

  lemma {:induction false} PostKeepsBag(origin: State, s: State, t: State, id: nat)
    requires Posts(s, t, id) && BagOk(origin, s) && ClaimsOk(s.processed, s.emitted)
    requires t.stock.Keys == s.stock.Keys + KeysOf(MovementsOf(s.emitted[id]))
    ensures BagOk(origin, t) && ClaimsOk(t.processed, t.emitted)
  {
    PostedClaim(s.emitted, s.processed, id);
    KeysOfConcat(s.movements, MovementsOf(s.emitted[id]));
  }

  /** If no key falls below zero while the new rows are appended one by one, the history stays sound. */
  lemma {:induction false} PostKeepsLog(origin: State, s: State, t: State, id: nat)
    requires Posts(s, t, id) && LogOk(origin, s.movements)
    requires forall k: Key, n :: 0 <= n <= |MovementsOf(s.emitted[id])| ==>
               0 <= Sum(s.movements, DeltaAt(k)) + Sum(MovementsOf(s.emitted[id])[..n], DeltaAt(k))
    ensures LogOk(origin, t.movements)
  {
    var ms := MovementsOf(s.emitted[id]);
    forall k: Key, n | 0 <= n <= |t.movements| ensures 0 <= Sum(t.movements[..n], DeltaAt(k)) {
      if n <= |s.movements| {
        assert t.movements[..n] == s.movements[..n];
      } else {
        var m := n - |s.movements|;
        assert t.movements[..n] == s.movements + ms[..m];
        SumConcat(s.movements, ms[..m], DeltaAt(k));
      }
    }
    assert forall i :: 0 <= i < |ms| ==> !ms[i].source.Opening?;
  }

  // ---------- A receipt is posted ----------

  ghost predicate DeliversReceipt(s: State, id: nat) {
    id < |s.emitted| && id !in s.processed && s.emitted[id].PoReceived?
  }

  lemma {:induction false} ReceiptKeepsStock(s: State, id: nat)
    requires DeliversReceipt(s, id)
    requires StockOk(s.stock, s.movements, s.reservations)
    requires ReservationsOk(s.reservations, s.sales, s.movements, s.stock)
    ensures var t := Deliver(s, id);
            StockOk(t.stock, t.movements, t.reservations)
  {
    var t := Deliver(s, id);
    var ms := MovementsOf(s.emitted[id]);
    forall k | k in t.stock
      ensures t.stock[k].onHand == Sum(t.movements, DeltaAt(k))
      ensures t.stock[k].reserved == Sum(t.reservations, OutstandingAt(k))
      ensures 0 <= t.stock[k].reserved <= t.stock[k].onHand
    {
      SumConcat(s.movements, ms, DeltaAt(k));
      SumNonNegative(ms, DeltaAt(k));
      if k !in s.stock {
        UnstockedIsEmpty(s, k);
      }
    }
    forall i | 0 <= i < |t.movements| ensures t.movements[i].key in t.stock {
      if |s.movements| <= i {
        assert ms[i - |s.movements|].key in KeysOf(ms);
      }
    }
  }

  /** A key without a stock row has no ledger rows and no reservations. */
  lemma {:induction false} UnstockedIsEmpty(s: State, k: Key)
    requires StockOk(s.stock, s.movements, s.reservations)
    requires ReservationsOk(s.reservations, s.sales, s.movements, s.stock)
    requires k !in s.stock
    ensures Sum(s.movements, DeltaAt(k)) == 0 && Sum(s.reservations, OutstandingAt(k)) == 0
  {
    forall i | 0 <= i < |s.movements| ensures s.movements[i].key != k {
    }
    SumZero(s.movements, DeltaAt(k));
    forall i | 0 <= i < |s.reservations| ensures OutstandingAt(k)(s.reservations[i]) == 0 {
      assert ReservationOk(s.reservations[i], s.sales, s.movements, s.stock);
    }
    SumZero(s.reservations, OutstandingAt(k));
  }

  lemma {:induction false} ReceiptKeepsReservations(s: State, id: nat)
    requires DeliversReceipt(s, id)
    requires ReservationsOk(s.reservations, s.sales, s.movements, s.stock)
    ensures var t := Deliver(s, id);
            ReservationsOk(t.reservations, t.sales, t.movements, t.stock)
  {
    var t := Deliver(s, id);
    forall i | 0 <= i < |t.reservations| ensures ReservationOk(t.reservations[i], t.sales, t.movements, t.stock) {
      var r := s.reservations[i];
      assert ReservationOk(r, s.sales, s.movements, s.stock);
      SumConcat(s.movements, MovementsOf(s.emitted[id]), ShippedFor(r.ref));
      ReceiptShipsNothing(s.emitted[id], r.ref, r.key);
    }
  }

  lemma {:induction false} ReceiptKeepsTotals(s: State, id: nat)
    requires DeliversReceipt(s, id) && TotalsOk(s)
    ensures TotalsOk(Deliver(s, id))
  {
    var t := Deliver(s, id);
    forall k: Key
      ensures Sum(t.movements, ShippedAt(k)) + Pending(t.emitted, t.processed, ShippedAt(k))
              == Sum(s.movements, ShippedAt(k)) + Pending(s.emitted, s.processed, ShippedAt(k))
      ensures Sum(t.movements, ArrivedAt(k)) + Pending(t.emitted, t.processed, ArrivedAt(k))
              == Sum(s.movements, ArrivedAt(k)) + Pending(s.emitted, s.processed, ArrivedAt(k))
      ensures Pending(t.emitted, t.processed, ShippedAt(k)) == Pending(s.emitted, s.processed, ShippedAt(k))
    {
      PostedPlusPending(s, id, ShippedAt(k));
      PostedPlusPending(s, id, ArrivedAt(k));
      PendingClaim(s.emitted, s.processed, id, ShippedAt(k));
      ReceiptShipsNothing(s.emitted[id], LineRef(0, 0), k);
    }
  }

  lemma {:induction false} ReceiptKeepsLog(origin: State, s: State, id: nat)
    requires DeliversReceipt(s, id) && LogOk(origin, s.movements)
    ensures LogOk(origin, Deliver(s, id).movements)
  {
    var ms := MovementsOf(s.emitted[id]);
    forall k: Key, n | 0 <= n <= |ms| ensures 0 <= Sum(s.movements, DeltaAt(k)) + Sum(ms[..n], DeltaAt(k)) {
      assert s.movements[..|s.movements|] == s.movements;
      SumNonNegative(ms[..n], DeltaAt(k));
    }
    PostKeepsLog(origin, s, Deliver(s, id), id);
  }

  lemma {:induction false} ReceiptKeeps(origin: State, s: State, id: nat)
    requires Inv(origin, s) && DeliversReceipt(s, id)
    ensures Inv(origin, Deliver(s, id))
  {
    var t := Deliver(s, id);
    PostKeepsSales(s, t, id);
    PostKeepsPurchases(s, t, id);
    PostKeepsMovements(s, t, id);
    PostKeepsBag(origin, s, t, id);
    ReceiptKeepsStock(s, id);
    ReceiptKeepsReservations(s, id);
    ReceiptKeepsTotals(s, id);
    ReceiptKeepsLog(origin, s, id);
  }

  // ---------- A fulfilment is posted ----------

  ghost predicate DeliversFulfillment(s: State, id: nat) {
    id < |s.emitted| && id !in s.processed && s.emitted[id].SalesOrderFulfilled?
  }

  /** A fulfilment in flight finds its order's reservation still open and large enough. */
  lemma {:induction false} FulfillmentFits(s: State, id: nat, ref: LineRef)
    requires DeliversFulfillment(s, id) && IsSalesLine(s.sales, ref)
    requires SalesOk(s.sales) && SalesAgree(s)
    ensures var q := Sum(MovementsOf(s.emitted[id]), ShippedFor(ref));
            && 0 <= q
            && Sum(s.movements, ShippedFor(ref)) + q <= SalesLineOf(s.sales, ref).ordered
            && (0 < q ==> !s.sales[ref.order].status.Cancelled?)
  {
    forall e | 0 <= e < |s.emitted| ensures 0 <= Sum(MovementsOf(s.emitted[e]), ShippedFor(ref)) {
      EventShipsNonNegative(s.emitted[e], ref, Key(0, 0));
    }
    PendingAtLeast(s.emitted, s.processed, id, ShippedFor(ref));
    assert SalesOrderOk(s.sales[ref.order]);
    assert SalesLineOk(s.sales[ref.order].status, SalesLineOf(s.sales, ref));
  }

  /** Each ledger row of the event has its one reservation, for the same key. */
  ghost predicate RowsFor(ms: seq<Movement>, rows: seq<Reservation>) {
    forall j :: 0 <= j < |ms| ==> ms[j].source.Fulfillment? && HasRow(rows, ms[j].source.soLine)
  }

  ghost predicate KeysMatch(ms: seq<Movement>, rows: seq<Reservation>) {
    forall i, j :: 0 <= i < |rows| && 0 <= j < |ms| && ms[j].source.Fulfillment? && ms[j].source.soLine == rows[i].ref ==>
      rows[i].key == ms[j].key
  }

  lemma {:induction false} FulfillmentHasRows(s: State, id: nat)
    requires DeliversFulfillment(s, id)
    requires SalesOk(s.sales) && SalesAgree(s) && EventsOk(s.emitted, s.sales, s.purchases)
    requires ReservationsOk(s.reservations, s.sales, s.movements, s.stock)
    ensures RowsFor(MovementsOf(s.emitted[id]), s.reservations) && KeysMatch(MovementsOf(s.emitted[id]), s.reservations)
    ensures forall j :: 0 <= j < |MovementsOf(s.emitted[id])| ==> MovementsOf(s.emitted[id])[j].key in s.stock
  {
    var ms := MovementsOf(s.emitted[id]);
    assert MovementsOk(ms, s.sales, s.purchases);
    forall i, j | 0 <= i < |s.reservations| && 0 <= j < |ms| && ms[j].source.soLine == s.reservations[i].ref
      ensures s.reservations[i].key == ms[j].key
    {
      assert MovementOk(ms[j], s.sales, s.purchases);
      assert ReservationOk(s.reservations[i], s.sales, s.movements, s.stock);
    }
    forall j | 0 <= j < |ms| ensures HasRow(s.reservations, ms[j].source.soLine) && ms[j].key in s.stock {
      assert MovementOk(ms[j], s.sales, s.purchases);
      var ref := ms[j].source.soLine;
      SumAtLeastRow(ms, j, ShippedFor(ref));
      FulfillmentFits(s, id, ref);
      assert Holding(s.sales[ref.order].status);
      assert HasRow(s.reservations, ref);
      var i :| 0 <= i < |s.reservations| && s.reservations[i].ref == ref;
      assert ReservationOk(s.reservations[i], s.sales, s.movements, s.stock);
    }
  }

  /** What a batch of shipments takes from the reservation rows of a key. */
  ghost function TakenAt(ms: seq<Movement>, k: Key): Reservation -> int {
    (r: Reservation) => if r.key == k then Sum(ms, ShippedFor(r.ref)) else 0
  }

  ghost function TakenBy(m: Movement, k: Key): Reservation -> int {
    (r: Reservation) => if r.key == k then ShippedFor(r.ref)(m) else 0
  }

  /** Taken row by row or ledger row by ledger row, a batch of shipments takes the same from a key. */
  lemma {:induction false} TakenIsShipped(ms: seq<Movement>, rows: seq<Reservation>, k: Key)
    requires UniqueRefs(rows) && RowsFor(ms, rows) && KeysMatch(ms, rows)
    ensures Sum(rows, TakenAt(ms, k)) == Sum(ms, ShippedAt(k))
  {
    if ms == [] {
      SumZero(rows, TakenAt(ms, k));
    } else {
      var n := |ms| - 1;
      var m := ms[n];
      TakenIsShipped(ms[..n], rows, k);
      SumSplit(rows, TakenAt(ms, k), rows, TakenAt(ms[..n], k), rows, TakenBy(m, k));
      assert HasRow(rows, m.source.soLine);
      var i :| 0 <= i < |rows| && rows[i].ref == m.source.soLine;
      forall j | 0 <= j < |rows| && j != i ensures TakenBy(m, k)(rows[j]) == 0 {
        assert rows[j].ref != rows[i].ref;
      }
      SumSingle(rows, i, TakenBy(m, k));
    }
  }

  /** One reservation, before and after a fulfilment in flight is posted. */
  lemma {:induction false} ConsumedRow(s: State, id: nat, i: nat)
    requires DeliversFulfillment(s, id) && i < |s.reservations|
    requires SalesOk(s.sales) && SalesAgree(s)
    requires ReservationOk(s.reservations[i], s.sales, s.movements, s.stock)
    ensures var t := Deliver(s, id);
            var q := Sum(MovementsOf(s.emitted[id]), ShippedFor(s.reservations[i].ref));
            && ReservationOk(t.reservations[i], t.sales, t.movements, t.stock)
            && t.reservations[i].ref == s.reservations[i].ref
            && t.reservations[i].key == s.reservations[i].key
            && forall k :: OutstandingAt(k)(t.reservations[i])
                           == OutstandingAt(k)(s.reservations[i]) - if s.reservations[i].key == k then q else 0
  {
    var r := s.reservations[i];
    FulfillmentFits(s, id, r.ref);
    SumConcat(s.movements, MovementsOf(s.emitted[id]), ShippedFor(r.ref));
  }

  lemma {:induction false} FulfillmentKeepsReservations(s: State, id: nat)
    requires DeliversFulfillment(s, id)
    requires SalesOk(s.sales) && SalesAgree(s)
    requires ReservationsOk(s.reservations, s.sales, s.movements, s.stock)
    ensures var t := Deliver(s, id);
            ReservationsOk(t.reservations, t.sales, t.movements, t.stock)
  {
    var t := Deliver(s, id);
    forall i | 0 <= i < |t.reservations|
      ensures ReservationOk(t.reservations[i], t.sales, t.movements, t.stock)
      ensures t.reservations[i].ref == s.reservations[i].ref
    {
      ConsumedRow(s, id, i);
    }
    forall ref | IsSalesLine(t.sales, ref) && Holding(t.sales[ref.order].status) ensures HasRow(t.reservations, ref) {
      assert IsSalesLine(s.sales, ref) && HasRow(s.reservations, ref);
      var i :| 0 <= i < |s.reservations| && s.reservations[i].ref == ref;
      assert t.reservations[i].ref == ref;
    }
  }

  /** Posting a fulfilment takes from the rows of a key what it takes from its stock. */
  lemma {:induction false} FulfillmentTakes(s: State, id: nat, k: Key)
    requires DeliversFulfillment(s, id)
    requires SalesOk(s.sales) && SalesAgree(s) && EventsOk(s.emitted, s.sales, s.purchases)
    requires ReservationsOk(s.reservations, s.sales, s.movements, s.stock)
    ensures Sum(Deliver(s, id).reservations, OutstandingAt(k))
            == Sum(s.reservations, OutstandingAt(k)) - Sum(MovementsOf(s.emitted[id]), ShippedAt(k))
  {
    var t := Deliver(s, id);
    var ms := MovementsOf(s.emitted[id]);
    FulfillmentHasRows(s, id);
    TakenIsShipped(ms, s.reservations, k);
    forall i | 0 <= i < |s.reservations|
      ensures OutstandingAt(k)(s.reservations[i]) == OutstandingAt(k)(t.reservations[i]) + TakenAt(ms, k)(s.reservations[i])
    {
      ConsumedRow(s, id, i);
    }
    SumSplit(s.reservations, OutstandingAt(k), t.reservations, OutstandingAt(k), s.reservations, TakenAt(ms, k));
  }

  /** The stock row of one key, after as before, agrees with the ledger and the reservations. */
  lemma {:induction false} FulfillmentKeepsStockAt(s: State, id: nat, k: Key)
    requires DeliversFulfillment(s, id) && k in s.stock
    requires StockOk(s.stock, s.movements, s.reservations)
    requires var t := Deliver(s, id);
             && Sum(t.reservations, OutstandingAt(k))
                == Sum(s.reservations, OutstandingAt(k)) - Sum(MovementsOf(s.emitted[id]), ShippedAt(k))
             && forall i :: 0 <= i < |t.reservations| ==> t.reservations[i].fulfilled <= t.reservations[i].quantity
    ensures var t := Deliver(s, id);
            && t.stock[k].onHand == Sum(t.movements, DeltaAt(k))
            && t.stock[k].reserved == Sum(t.reservations, OutstandingAt(k))
            && 0 <= t.stock[k].reserved <= t.stock[k].onHand
  {
    SumConcat(s.movements, MovementsOf(s.emitted[id]), DeltaAt(k));
    DeltaOfFulfillment(s.emitted[id], k);
    SumNonNegative(Deliver(s, id).reservations, OutstandingAt(k));
  }

  lemma {:induction false} FulfillmentKeepsKeys(s: State, id: nat)
    requires DeliversFulfillment(s, id)
    requires SalesOk(s.sales) && SalesAgree(s) && EventsOk(s.emitted, s.sales, s.purchases)
    requires ReservationsOk(s.reservations, s.sales, s.movements, s.stock)
    requires forall i :: 0 <= i < |s.movements| ==> s.movements[i].key in s.stock
    ensures var t := Deliver(s, id);
            && t.stock.Keys == s.stock.Keys
            && forall i :: 0 <= i < |t.movements| ==> t.movements[i].key in t.stock
  {
    FulfillmentHasRows(s, id);
  }

  lemma {:induction false} FulfillmentKeepsStock(s: State, id: nat)
    requires DeliversFulfillment(s, id)
    requires SalesOk(s.sales) && SalesAgree(s) && EventsOk(s.emitted, s.sales, s.purchases)
    requires ReservationsOk(s.reservations, s.sales, s.movements, s.stock)
    requires StockOk(s.stock, s.movements, s.reservations)
    ensures var t := Deliver(s, id);
            StockOk(t.stock, t.movements, t.reservations)
  {
    var t := Deliver(s, id);
    FulfillmentKeepsKeys(s, id);
    FulfillmentKeepsReservations(s, id);
    forall i | 0 <= i < |t.reservations| ensures t.reservations[i].fulfilled <= t.reservations[i].quantity {
      assert ReservationOk(t.reservations[i], t.sales, t.movements, t.stock);
    }
    forall k | k in t.stock
      ensures t.stock[k].onHand == Sum(t.movements, DeltaAt(k))
      ensures t.stock[k].reserved == Sum(t.reservations, OutstandingAt(k))
      ensures 0 <= t.stock[k].reserved <= t.stock[k].onHand
    {
      FulfillmentTakes(s, id, k);
      FulfillmentKeepsStockAt(s, id, k);
    }
  }

  lemma {:induction false} FulfillmentKeepsTotals(s: State, id: nat)
    requires DeliversFulfillment(s, id) && TotalsOk(s)
    requires forall j :: 0 <= j < |MovementsOf(s.emitted[id])| ==> MovementsOf(s.emitted[id])[j].key in s.stock
    ensures TotalsOk(Deliver(s, id))
  {
    var t := Deliver(s, id);
    var ms := MovementsOf(s.emitted[id]);
    forall k: Key
      ensures Sum(t.movements, ShippedAt(k)) + Pending(t.emitted, t.processed, ShippedAt(k))
              == Sum(s.movements, ShippedAt(k)) + Pending(s.emitted, s.processed, ShippedAt(k))
      ensures Sum(t.movements, ArrivedAt(k)) + Pending(t.emitted, t.processed, ArrivedAt(k))
              == Sum(s.movements, ArrivedAt(k)) + Pending(s.emitted, s.processed, ArrivedAt(k))
      ensures Pending(t.emitted, t.processed, ShippedAt(k)) - ReservedIn(t.stock, k)
              == Pending(s.emitted, s.processed, ShippedAt(k)) - ReservedIn(s.stock, k)
    {
      PostedPlusPending(s, id, ShippedAt(k));
      PostedPlusPending(s, id, ArrivedAt(k));
      PendingClaim(s.emitted, s.processed, id, ShippedAt(k));
      if k !in s.stock {
        SumZero(ms, ShippedAt(k));
      }
    }
  }

  lemma {:induction false} FulfillmentKeepsLog(origin: State, s: State, id: nat)
    requires DeliversFulfillment(s, id) && LogOk(origin, s.movements)
    requires StockOk(Deliver(s, id).stock, Deliver(s, id).movements, Deliver(s, id).reservations)
    requires forall j :: 0 <= j < |MovementsOf(s.emitted[id])| ==> MovementsOf(s.emitted[id])[j].key in s.stock
    ensures LogOk(origin, Deliver(s, id).movements)
  {
    var t := Deliver(s, id);
    var ms := MovementsOf(s.emitted[id]);
    forall k: Key, n | 0 <= n <= |ms| ensures 0 <= Sum(s.movements, DeltaAt(k)) + Sum(ms[..n], DeltaAt(k)) {
      assert s.movements[..|s.movements|] == s.movements;
      if k in s.stock {
        SumSlice(ms, n, DeltaAt(k));
        ShipmentsOnlyTake(ms[n..], k);
        SumConcat(s.movements, ms, DeltaAt(k));
        assert 0 <= t.stock[k].onHand;
      } else {
        SumZero(ms[..n], DeltaAt(k));
      }
    }
    PostKeepsLog(origin, s, t, id);
  }

  lemma {:induction false} ShipmentsOnlyTake(ms: seq<Movement>, k: Key)
    requires forall j :: 0 <= j < |ms| ==> ms[j].delta <= 0
    ensures Sum(ms, DeltaAt(k)) <= 0
  {
    if ms != [] {
      ShipmentsOnlyTake(ms[..|ms| - 1], k);
    }
  }

  lemma {:induction false} FulfillmentKeeps(origin: State, s: State, id: nat)
    requires Inv(origin, s) && DeliversFulfillment(s, id)
    ensures Inv(origin, Deliver(s, id))
  {
    var t := Deliver(s, id);
    var ms := MovementsOf(s.emitted[id]);
    FulfillmentHasRows(s, id);
    assert KeysOf(ms) <= s.stock.Keys;
    PostKeepsSales(s, t, id);
    PostKeepsPurchases(s, t, id);
    PostKeepsMovements(s, t, id);
    PostKeepsBag(origin, s, t, id);
    FulfillmentKeepsReservations(s, id);
    FulfillmentKeepsStock(s, id);
    FulfillmentKeepsTotals(s, id);
    FulfillmentKeepsLog(origin, s, id);
  }

  // ---------- A shipment is heard of ----------

  /** Claiming an event without ledger rows changes nothing but the claim. */
  lemma {:induction false} ClaimKeeps(origin: State, s: State, id: nat)
    requires Inv(origin, s) && id < |s.emitted| && id !in s.processed && MovementsOf(s.emitted[id]) == []
    ensures Inv(origin, s.(processed := s.processed + {id}))
  {
    var t := s.(processed := s.processed + {id});
    assert s.movements + [] == s.movements;
    PostKeepsSales(s, t, id);
    PostKeepsPurchases(s, t, id);
    PostKeepsBag(origin, s, t, id);
    ClaimKeepsTotals(s, id);
  }

  lemma {:induction false} ClaimKeepsTotals(s: State, id: nat)
    requires TotalsOk(s) && id < |s.emitted| && id !in s.processed && MovementsOf(s.emitted[id]) == []
    ensures TotalsOk(s.(processed := s.processed + {id}))
  {
    var t := s.(processed := s.processed + {id});
    forall k: Key
      ensures Pending(t.emitted, t.processed, ShippedAt(k)) == Pending(s.emitted, s.processed, ShippedAt(k))
      ensures Pending(t.emitted, t.processed, ArrivedAt(k)) == Pending(s.emitted, s.processed, ArrivedAt(k))
    {
      PendingClaim(s.emitted, s.processed, id, ShippedAt(k));
      PendingClaim(s.emitted, s.processed, id, ArrivedAt(k));
    }
  }

  lemma {:induction false} DeliverKeeps(origin: State, s: State, id: nat)
    requires Inv(origin, s)
    ensures Inv(origin, Deliver(s, id))
  {
    if id < |s.emitted| && id !in s.processed {
      match s.emitted[id]
      case PoReceived(_, _, _) => ReceiptKeeps(origin, s, id);
      case SalesOrderFulfilled(_, _, _) => FulfillmentKeeps(origin, s, id);
      case ShipmentCreated(None, _) =>
      case ShipmentCreated(Some(p), _) =>
        ClaimKeeps(origin, s, id);
        if p < |s.purchases| && s.purchases[p].status.Approved? {
          MoveKeeps(origin, s.(processed := s.processed + {id}), p, PO.Shipped);
        }
    }
  }
}
