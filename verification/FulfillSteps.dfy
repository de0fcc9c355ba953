/** Fulfilling and cancelling sales orders keep the invariant. */
module FulfillSteps {
  import opened Sums
  import opened Tables
  import opened Protocol
  import opened Invariants
  import opened SalesSteps
  import SO = SalesOrderLifecycle

  // ---------- The fulfilment guard ----------

  lemma {:induction false} AcceptsPrefix(lines: seq<SalesLine>, requests: seq<Request>, n: nat)
    requires n <= |requests| && FulfillAccepts(lines, requests)
    ensures FulfillAccepts(lines, requests[..n])
  {
    forall i | 0 <= i < n ensures !FulfillFailsAt(lines, requests[..n], i) {
      assert requests[..n][..i + 1] == requests[..i + 1];
      assert !FulfillFailsAt(lines, requests, i);
    }
  }

  lemma {:induction false} RequestedGrows(requests: seq<Request>, n: nat, line: nat)
    requires n <= |requests|
    ensures 0 <= Requested(requests[..n], line) <= Requested(requests, line)
  {
    SumSlice(requests, n, QtyOn(line));
    SumNonNegative(requests[..n], QtyOn(line));
    SumNonNegative(requests[n..], QtyOn(line));
  }

  lemma {:induction false} RequestedLast(requests: seq<Request>, line: nat)
    requires requests != []
    ensures var n := |requests| - 1;
            Requested(requests, line) == Requested(requests[..n], line) + if requests[n].line == line then requests[n].qty else 0
  {
  }

  /**
   * The guard of the live rows, request by request, accepts a list exactly when every line is known
   * and no line is asked for more than it has reserved, repeated entries added up.
   */
  lemma {:induction false} FulfillCriterion(lines: seq<SalesLine>, requests: seq<Request>)
    ensures FulfillAccepts(lines, requests) <==>
            forall i :: 0 <= i < |requests| ==>
              requests[i].line < |lines| && Requested(requests, requests[i].line) <= lines[requests[i].line].reserved
  {
    if FulfillAccepts(lines, requests) {
      forall i | 0 <= i < |requests|
        ensures requests[i].line < |lines| && Requested(requests, requests[i].line) <= lines[requests[i].line].reserved
      {
        assert !FulfillFailsAt(lines, requests, i);
        AcceptedFits(lines, requests, requests[i].line);
        SumAtLeastRow(requests, i, QtyOn(requests[i].line));
      }
    }
    if forall i :: 0 <= i < |requests| ==>
         requests[i].line < |lines| && Requested(requests, requests[i].line) <= lines[requests[i].line].reserved {
      forall i | 0 <= i < |requests| ensures !FulfillFailsAt(lines, requests, i) {
        RequestedGrows(requests, i + 1, requests[i].line);
      }
    }
  }

  lemma {:induction false} AcceptedFits(lines: seq<SalesLine>, requests: seq<Request>, l: nat)
    requires FulfillAccepts(lines, requests) && l < |lines|
    ensures Requested(requests, l) == 0 || 0 < Requested(requests, l) <= lines[l].reserved
  {
    if requests != [] {
      var n := |requests| - 1;
      AcceptsPrefix(lines, requests, n);
      AcceptedFits(lines, requests[..n], l);
      if requests[n].line == l {
        assert requests[..n + 1] == requests;
        assert !FulfillFailsAt(lines, requests, n);
      }
    }
  }

  /** Fulfilling a list is fulfilling all but its last entry, then the last one. */
  lemma {:induction false} FulfillLast(lines: seq<SalesLine>, requests: seq<Request>)
    requires requests != [] && requests[|requests| - 1].line < |lines|
    ensures var n := |requests| - 1;
            var before := FulfillLines(lines, requests[..n]);
            var l := requests[n].line;
            FulfillLines(lines, requests) == before[l := before[l].(
              reserved := before[l].reserved - requests[n].qty, fulfilled := before[l].fulfilled + requests[n].qty)]
  {
    var n := |requests| - 1;
    forall l | 0 <= l < |lines| {
      RequestedLast(requests, l);
    }
  }

  ghost function FulfillmentEvent(o: nat, order: SalesOrder, requests: seq<Request>): Event
    requires KnownLines(|order.lines|, requests)
  {
    SalesOrderFulfilled(o, order.warehouse, FulfilledPayload(order.lines, requests))
  }

  /** One more request moves its quantity between the counters of its line. */
  lemma {:induction false} LastMovesLine(order: SalesOrder, requests: seq<Request>, k: Key)
    requires requests != [] && requests[|requests| - 1].line < |order.lines|
    ensures var n := |requests| - 1;
            var r := requests[n];
            var qty := if Key(order.lines[r.line].product, order.warehouse) == k then r.qty else 0;
            var before := FulfillLines(order.lines, requests[..n]);
            var lines := FulfillLines(order.lines, requests);
            && Sum(lines, LineFulfilledAt(order.warehouse, k)) == Sum(before, LineFulfilledAt(order.warehouse, k)) + qty
            && Sum(lines, LineReservedAt(order.warehouse, k)) == Sum(before, LineReservedAt(order.warehouse, k)) - qty
  {
    var n := |requests| - 1;
    var r := requests[n];
    var before := FulfillLines(order.lines, requests[..n]);
    var last := before[r.line].(reserved := before[r.line].reserved - r.qty, fulfilled := before[r.line].fulfilled + r.qty);
    FulfillLast(order.lines, requests);
    SumUpdate(before, r.line, last, LineFulfilledAt(order.warehouse, k));
    SumUpdate(before, r.line, last, LineReservedAt(order.warehouse, k));
  }

  lemma {:induction false} LastIsShipped(o: nat, order: SalesOrder, requests: seq<Request>, k: Key)
    requires requests != [] && KnownLines(|order.lines|, requests)
    ensures var n := |requests| - 1;
            var r := requests[n];
            Sum(MovementsOf(FulfillmentEvent(o, order, requests)), ShippedAt(k))
            == Sum(MovementsOf(FulfillmentEvent(o, order, requests[..n])), ShippedAt(k))
               + if Key(order.lines[r.line].product, order.warehouse) == k then r.qty else 0
  {
    var n := |requests| - 1;
    var ms := MovementsOf(FulfillmentEvent(o, order, requests));
    assert ms[..n] == MovementsOf(FulfillmentEvent(o, order, requests[..n]));
  }

  /** The event ships, per key, exactly what the counters of the lines move. */
  lemma {:induction false} EventMatchesLines(o: nat, order: SalesOrder, requests: seq<Request>, k: Key)
    requires KnownLines(|order.lines|, requests)
    ensures var shipped := Sum(MovementsOf(FulfillmentEvent(o, order, requests)), ShippedAt(k));
            var lines := FulfillLines(order.lines, requests);
            && Sum(lines, LineFulfilledAt(order.warehouse, k)) == Sum(order.lines, LineFulfilledAt(order.warehouse, k)) + shipped
            && Sum(lines, LineReservedAt(order.warehouse, k)) == Sum(order.lines, LineReservedAt(order.warehouse, k)) - shipped
    decreases |requests|
  {
    if requests == [] {
      assert FulfillLines(order.lines, requests) == order.lines;
    } else {
      var n := |requests| - 1;
      EventMatchesLines(o, order, requests[..n], k);
      LastMovesLine(order, requests, k);
      LastIsShipped(o, order, requests, k);
    }
  }

  /** The event ships, per line, exactly what was requested of the line, and nothing of other orders. */
  lemma {:induction false} EventMatchesRequests(o: nat, order: SalesOrder, requests: seq<Request>, ref: LineRef)
    requires KnownLines(|order.lines|, requests)
    ensures Sum(MovementsOf(FulfillmentEvent(o, order, requests)), ShippedFor(ref))
            == if ref.order == o then Requested(requests, ref.line) else 0
  {
    var ms := MovementsOf(FulfillmentEvent(o, order, requests));
    if ref.order == o {
      SumSame(ms, ShippedFor(ref), requests, QtyOn(ref.line));
    } else {
      SumZero(ms, ShippedFor(ref));
    }
  }

  lemma {:induction false} FulfillmentArrivesNowhere(e: Event, ref: LineRef, k: Key)
    requires e.SalesOrderFulfilled?
    ensures Sum(MovementsOf(e), ArrivedFor(ref)) == 0 && Sum(MovementsOf(e), ArrivedAt(k)) == 0
  {
    SumZero(MovementsOf(e), ArrivedFor(ref));
    SumZero(MovementsOf(e), ArrivedAt(k));
  }

  // ---------- Emitting events ----------

  lemma {:induction false} EmitKeepsPurchases(s: State, t: State, e: Event)
    requires PurchasesAgree(s) && ClaimsOk(s.processed, s.emitted)
    requires t.purchases == s.purchases && t.receipts == s.receipts && t.movements == s.movements && t.processed == s.processed
    requires t.emitted == s.emitted + [e]
    requires forall ref :: Sum(MovementsOf(e), ArrivedFor(ref)) == 0
    ensures PurchasesAgree(t)
  {
    forall ref | IsPurchaseLine(t.purchases, ref)
      ensures Pending(t.emitted, t.processed, ArrivedFor(ref)) == Pending(s.emitted, s.processed, ArrivedFor(ref))
    {
      assert IsPurchaseLine(s.purchases, ref);
      PendingAppend(s.emitted, e, s.processed, ArrivedFor(ref));
    }
    assert forall i :: 0 <= i < |t.receipts| ==> IsPurchaseLine(s.purchases, t.receipts[i].poLine);
  }

  lemma {:induction false} EmitKeepsBag(origin: State, s: State, t: State, e: Event)
    requires BagOk(origin, s) && ClaimsOk(s.processed, s.emitted)
    requires t.stock.Keys == s.stock.Keys && t.movements == s.movements && t.processed == s.processed && t.emitted == s.emitted + [e]
    ensures BagOk(origin, t) && ClaimsOk(t.processed, t.emitted)
  {
    assert t.emitted[..|s.emitted|] == s.emitted;
    assert |s.emitted| !in s.processed;
  }

  // ---------- Fulfill ----------

  lemma {:induction false} FulfilledOrderOk(order: SalesOrder, requests: seq<Request>)
    requires SalesOrderOk(order) && order.status in SO.FULFILLABLE
    requires requests != [] && FulfillAccepts(order.lines, requests)
    ensures var lines := FulfillLines(order.lines, requests);
            var status := if AllFulfilled(lines) then SO.Fulfilled else SO.PartiallyFulfilled;
            SalesOrderOk(order.(status := status, lines := lines))
  {
    var lines := FulfillLines(order.lines, requests);
    var status := if AllFulfilled(lines) then SO.Fulfilled else SO.PartiallyFulfilled;
    forall l | 0 <= l < |lines| ensures SalesLineOk(status, lines[l]) {
      assert SalesLineOk(order.status, order.lines[l]);
      AcceptedFits(order.lines, requests, l);
    }
    assert !FulfillFailsAt(order.lines, requests, 0);
    var l := requests[0].line;
    SumAtLeastRow(requests, 0, QtyOn(l));
    assert SalesLineOk(order.status, order.lines[l]);
    assert 0 < lines[l].fulfilled;
  }

  lemma {:induction false} FulfillAgrees(s: State, o: nat, requests: seq<Request>)
    requires Fulfill(s, o, requests).Committed?
    requires SalesAgree(s) && ClaimsOk(s.processed, s.emitted)
    ensures SalesAgree(Fulfill(s, o, requests).state)
  {
    var t := Fulfill(s, o, requests).state;
    var order := s.sales[o];
    var e := FulfillmentEvent(o, order, requests);
    forall ref | IsSalesLine(t.sales, ref)
      ensures SalesLineOf(t.sales, ref).fulfilled
              == Sum(t.movements, ShippedFor(ref)) + Pending(t.emitted, t.processed, ShippedFor(ref))
      ensures t.sales[ref.order].status.Cancelled? ==> Pending(t.emitted, t.processed, ShippedFor(ref)) == 0
    {
      assert IsSalesLine(s.sales, ref);
      PendingAppend(s.emitted, e, s.processed, ShippedFor(ref));
      EventMatchesRequests(o, order, requests, ref);
    }
  }

  /** Fulfilling moves a key's quantity from reserved to fulfilled and puts it in flight. */
  lemma {:induction false} FulfillMoves(s: State, o: nat, requests: seq<Request>, k: Key)
    requires Fulfill(s, o, requests).Committed?
    requires ClaimsOk(s.processed, s.emitted) && KnownLines(|s.sales[o].lines|, requests)
    ensures var t := Fulfill(s, o, requests).state;
            var shipped := Sum(MovementsOf(FulfillmentEvent(o, s.sales[o], requests)), ShippedAt(k));
            && Sum(t.sales, FulfilledAt(k)) == Sum(s.sales, FulfilledAt(k)) + shipped
            && Sum(t.sales, ReservedAt(k)) == Sum(s.sales, ReservedAt(k)) - shipped
            && Pending(t.emitted, t.processed, ShippedAt(k)) == Pending(s.emitted, s.processed, ShippedAt(k)) + shipped
            && Pending(t.emitted, t.processed, ArrivedAt(k)) == Pending(s.emitted, s.processed, ArrivedAt(k))
  {
    var t := Fulfill(s, o, requests).state;
    var order := s.sales[o];
    var e := FulfillmentEvent(o, order, requests);
    TotalsOfUpdate(s.sales, o, t.sales[o], k);
    EventMatchesLines(o, order, requests, k);
    PendingAppend(s.emitted, e, s.processed, ShippedAt(k));
    PendingAppend(s.emitted, e, s.processed, ArrivedAt(k));
    FulfillmentArrivesNowhere(e, LineRef(0, 0), k);
  }

  lemma {:induction false} FulfillKeepsTotals(s: State, o: nat, requests: seq<Request>)
    requires Fulfill(s, o, requests).Committed?
    requires TotalsOk(s) && ClaimsOk(s.processed, s.emitted)
    ensures TotalsOk(Fulfill(s, o, requests).state)
  {
    forall k: Key {
      FulfillMoves(s, o, requests, k);
    }
  }

  lemma {:induction false} FulfillKeepsEvents(s: State, o: nat, requests: seq<Request>)
    requires Fulfill(s, o, requests).Committed? && requests != []
    requires EventsOk(s.emitted, s.sales, s.purchases)
    ensures var t := Fulfill(s, o, requests).state;
            EventsOk(t.emitted, t.sales, t.purchases)
  {
    var t := Fulfill(s, o, requests).state;
    var ms := MovementsOf(FulfillmentEvent(o, s.sales[o], requests));
    EventsStayOk(s.emitted, s.sales, s.purchases, t.sales, t.purchases);
    forall i | 0 <= i < |ms| ensures MovementOk(ms[i], t.sales, t.purchases) {
      assert IsSalesLine(t.sales, LineRef(o, requests[i].line));
    }
  }

  lemma {:induction false} FulfillKeepsSales(s: State, o: nat, requests: seq<Request>)
    requires Fulfill(s, o, requests).Committed? && requests != []
    requires SalesOk(s.sales)
    ensures var t := Fulfill(s, o, requests).state;
            SalesOk(t.sales) && SalesForward(s.sales, t.sales)
  {
    FulfilledOrderOk(s.sales[o], requests);
    UpdateIsForward(s.sales, o, Fulfill(s, o, requests).state.sales[o]);
  }

  lemma {:induction false} FulfillKeeps(origin: State, s: State, o: nat, requests: seq<Request>)
    requires Inv(origin, s) && requests != []
    requires Fulfill(s, o, requests).Committed?
    ensures Inv(origin, Fulfill(s, o, requests).state)
  {
    var t := Fulfill(s, o, requests).state;
    var e := FulfillmentEvent(o, s.sales[o], requests);
    FulfillKeepsSales(s, o, requests);
    MovementsStayOk(s.movements, s.sales, s.purchases, t.sales, t.purchases);
    FulfillKeepsEvents(s, o, requests);
    FulfillAgrees(s, o, requests);
    FulfillKeepsTotals(s, o, requests);
    forall ref {
      FulfillmentArrivesNowhere(e, ref, Key(0, 0));
    }
    EmitKeepsPurchases(s, t, e);
    EmitKeepsBag(origin, s, t, e);
    ReservationsStayOk(s.reservations, s.sales, t.sales, s.movements, s.stock);
  }

  // ---------- Cancel ----------

  /** With no fulfilment in flight, nothing is pending for any line of the order. */
  lemma {:induction false} NothingInFlight(s: State, ref: LineRef)
    requires !FulfillmentInFlight(s, ref.order)
    ensures Pending(s.emitted, s.processed, ShippedFor(ref)) == 0
  {
    forall e | 0 <= e < |s.emitted| && e !in s.processed ensures Sum(MovementsOf(s.emitted[e]), ShippedFor(ref)) == 0 {
      SumZero(MovementsOf(s.emitted[e]), ShippedFor(ref));
    }
    PendingZero(s.emitted, s.processed, ShippedFor(ref));
  }

  /** What the rows of the first `n` lines of order `o` should still hold of key `k`. */
  ghost function HeldUpTo(o: nat, lines: seq<SalesLine>, k: Key, n: nat): Reservation -> int {
    (r: Reservation) =>
      if r.ref.order == o && r.ref.line < n && r.ref.line < |lines| && r.key == k then lines[r.ref.line].reserved else 0
  }

  ghost function HeldBy(o: nat, lines: seq<SalesLine>, k: Key, l: nat): Reservation -> int {
    (r: Reservation) => if r.ref == LineRef(o, l) && l < |lines| && r.key == k then lines[l].reserved else 0
  }

  /** The one row of a line holds what the line has reserved. */
  lemma {:induction false} RowOfLine(rows: seq<Reservation>, o: nat, order: SalesOrder, k: Key, l: nat)
    requires l < |order.lines| && UniqueRefs(rows) && HasRow(rows, LineRef(o, l))
    requires forall i :: 0 <= i < |rows| && rows[i].ref == LineRef(o, l) ==> rows[i].key == Key(order.lines[l].product, order.warehouse)
    ensures Sum(rows, HeldBy(o, order.lines, k, l)) == LineReservedAt(order.warehouse, k)(order.lines[l])
  {
    var i :| 0 <= i < |rows| && rows[i].ref == LineRef(o, l);
    SumSingle(rows, i, HeldBy(o, order.lines, k, l));
  }

  /** Summing over the rows of an order is summing over its lines: each line has exactly one row. */
  lemma {:induction false} RowsAreLines(rows: seq<Reservation>, o: nat, order: SalesOrder, k: Key, n: nat)
    requires n <= |order.lines| && UniqueRefs(rows)
    requires forall l :: 0 <= l < |order.lines| ==> HasRow(rows, LineRef(o, l))
    requires forall i :: 0 <= i < |rows| && rows[i].ref.order == o ==>
               rows[i].ref.line < |order.lines| && rows[i].key == Key(order.lines[rows[i].ref.line].product, order.warehouse)
    ensures Sum(rows, HeldUpTo(o, order.lines, k, n)) == Sum(order.lines[..n], LineReservedAt(order.warehouse, k))
  {
    if n == 0 {
      SumZero(rows, HeldUpTo(o, order.lines, k, 0));
    } else {
      var l := n - 1;
      RowsAreLines(rows, o, order, k, l);
      HeldNext(rows, o, order.lines, k, l);
      RowOfLine(rows, o, order, k, l);
      SumNext(order.lines, l, LineReservedAt(order.warehouse, k));
    }
  }

  lemma {:induction false} HeldNext(rows: seq<Reservation>, o: nat, lines: seq<SalesLine>, k: Key, l: nat)
    ensures Sum(rows, HeldUpTo(o, lines, k, l + 1)) == Sum(rows, HeldUpTo(o, lines, k, l)) + Sum(rows, HeldBy(o, lines, k, l))
  {
    SumSplit(rows, HeldUpTo(o, lines, k, l + 1), rows, HeldUpTo(o, lines, k, l), rows, HeldBy(o, lines, k, l));
  }

  /** What the active rows of a settled order still hold is what its lines have reserved. */
  lemma {:induction false} ReleasedIsReserved(s: State, o: nat, k: Key)
    requires o < |s.sales| && !FulfillmentInFlight(s, o)
    requires SalesOrderOk(s.sales[o]) && (s.sales[o].status.Allocated? || s.sales[o].status.PartiallyFulfilled?)
    requires SalesAgree(s) && ReservationsOk(s.reservations, s.sales, s.movements, s.stock)
    ensures Sum(s.reservations, OutstandingOf(o, k)) == ReservedAt(k)(s.sales[o])
  {
    var order := s.sales[o];
    var rows := s.reservations;
    forall i | 0 <= i < |rows|
      ensures rows[i].ref.order == o ==>
                rows[i].ref.line < |order.lines| && rows[i].key == Key(order.lines[rows[i].ref.line].product, order.warehouse)
      ensures OutstandingOf(o, k)(rows[i]) == HeldUpTo(o, order.lines, k, |order.lines|)(rows[i])
    {
      var r := rows[i];
      assert ReservationOk(r, s.sales, s.movements, s.stock);
      if r.ref.order == o {
        NothingInFlight(s, r.ref);
        assert SalesLineOk(order.status, order.lines[r.ref.line]);
      }
    }
    forall l | 0 <= l < |order.lines| ensures HasRow(rows, LineRef(o, l)) {
      assert IsSalesLine(s.sales, LineRef(o, l));
    }
    RowsAreLines(rows, o, order, k, |order.lines|);
    SumSame(rows, OutstandingOf(o, k), rows, HeldUpTo(o, order.lines, k, |order.lines|));
    assert order.lines[..|order.lines|] == order.lines;
  }

  ghost predicate Releases(s: State, o: nat) {
    o < |s.sales| && (s.sales[o].status.Allocated? || s.sales[o].status.PartiallyFulfilled?)
  }

  /** A release takes from the rows' sum exactly what it gives back to the stock row. */
  lemma {:induction false} ReleaseTakes(rows: seq<Reservation>, o: nat, k: Key)
    ensures Sum(ReleaseRows(rows, o), OutstandingAt(k)) == Sum(rows, OutstandingAt(k)) - Sum(rows, OutstandingOf(o, k))
  {
    SumSplit(rows, OutstandingAt(k), ReleaseRows(rows, o), OutstandingAt(k), rows, OutstandingOf(o, k));
  }

  lemma {:induction false} ReleasedRowOk(s: State, o: nat, r: Reservation)
    requires Releases(s, o) && ReservationOk(r, s.sales, s.movements, s.stock)
    ensures var t := CancelSalesOrder(s, o).state;
            ReservationOk(ReleaseRow(r, o), t.sales, t.movements, t.stock)
  {
  }

  lemma {:induction false} CancelKeepsReservations(s: State, o: nat)
    requires Releases(s, o)
    requires ReservationsOk(s.reservations, s.sales, s.movements, s.stock)
    ensures var t := CancelSalesOrder(s, o).state;
            ReservationsOk(t.reservations, t.sales, t.movements, t.stock)
  {
    var t := CancelSalesOrder(s, o).state;
    forall i | 0 <= i < |t.reservations| ensures ReservationOk(t.reservations[i], t.sales, t.movements, t.stock) {
      ReleasedRowOk(s, o, s.reservations[i]);
    }
    forall ref | IsSalesLine(t.sales, ref) && Holding(t.sales[ref.order].status) ensures HasRow(t.reservations, ref) {
      assert IsSalesLine(s.sales, ref) && HasRow(s.reservations, ref);
      ReleaseKeepsRow(s.reservations, o, ref);
    }
  }

  lemma {:induction false} ReleaseKeepsRow(rows: seq<Reservation>, o: nat, ref: LineRef)
    requires HasRow(rows, ref)
    ensures HasRow(ReleaseRows(rows, o), ref)
  {
    var i :| 0 <= i < |rows| && rows[i].ref == ref;
    assert ReleaseRows(rows, o)[i].ref == ref;
  }

  lemma {:induction false} CancelKeepsStock(s: State, o: nat)
    requires Releases(s, o)
    requires ReservationsOk(s.reservations, s.sales, s.movements, s.stock)
    requires StockOk(s.stock, s.movements, s.reservations)
    ensures var t := CancelSalesOrder(s, o).state;
            StockOk(t.stock, t.movements, t.reservations)
  {
    var t := CancelSalesOrder(s, o).state;
    var rows := s.reservations;
    forall i | 0 <= i < |rows| ensures rows[i].fulfilled <= rows[i].quantity {
      assert ReservationOk(rows[i], s.sales, s.movements, s.stock);
    }
    forall k | k in t.stock
      ensures t.stock[k].reserved == Sum(t.reservations, OutstandingAt(k))
      ensures t.stock[k].onHand == s.stock[k].onHand && 0 <= t.stock[k].reserved <= t.stock[k].onHand
    {
      ReleaseTakes(rows, o, k);
      SumNonNegative(rows, OutstandingOf(o, k));
      SumNonNegative(t.reservations, OutstandingAt(k));
    }
  }

  lemma {:induction false} CancelKeepsTotals(s: State, o: nat)
    requires Releases(s, o) && !FulfillmentInFlight(s, o)
    requires SalesOrderOk(s.sales[o]) && SalesAgree(s) && TotalsOk(s)
    requires ReservationsOk(s.reservations, s.sales, s.movements, s.stock)
    ensures TotalsOk(CancelSalesOrder(s, o).state)
  {
    var t := CancelSalesOrder(s, o).state;
    var order := s.sales[o];
    forall k: Key
      ensures Sum(t.sales, FulfilledAt(k)) == Sum(s.sales, FulfilledAt(k))
      ensures Sum(t.sales, ReservedAt(k)) == Sum(s.sales, ReservedAt(k)) - Sum(s.reservations, OutstandingOf(o, k))
      ensures ReservedIn(t.stock, k) == ReservedIn(s.stock, k) - Sum(s.reservations, OutstandingOf(o, k))
    {
      TotalsOfUpdate(s.sales, o, t.sales[o], k);
      SumSame(t.sales[o].lines, LineFulfilledAt(order.warehouse, k), order.lines, LineFulfilledAt(order.warehouse, k));
      SumZero(t.sales[o].lines, LineReservedAt(order.warehouse, k));
      ReleasedIsReserved(s, o, k);
      RowsNeedStock(s, o, k);
    }
  }

  lemma {:induction false} RowsNeedStock(s: State, o: nat, k: Key)
    requires ReservationsOk(s.reservations, s.sales, s.movements, s.stock)
    ensures k !in s.stock ==> Sum(s.reservations, OutstandingOf(o, k)) == 0
  {
    if k !in s.stock {
      forall i | 0 <= i < |s.reservations| ensures OutstandingOf(o, k)(s.reservations[i]) == 0 {
        assert ReservationOk(s.reservations[i], s.sales, s.movements, s.stock);
      }
      SumZero(s.reservations, OutstandingOf(o, k));
    }
  }

  lemma {:induction false} CancelledOrderOk(order: SalesOrder)
    requires SalesOrderOk(order) && (order.status.Allocated? || order.status.PartiallyFulfilled?)
    ensures SalesOrderOk(order.(status := SO.Cancelled, lines := UnreserveLines(order.lines)))
  {
    var lines := UnreserveLines(order.lines);
    forall l | 0 <= l < |lines| ensures SalesLineOk(SO.Cancelled, lines[l]) {
      assert SalesLineOk(order.status, order.lines[l]);
    }
    if order.status.Allocated? {
      assert SalesLineOk(order.status, order.lines[0]);
      assert lines[0].fulfilled < lines[0].ordered;
    } else {
      var l :| 0 <= l < |order.lines| && order.lines[l].fulfilled < order.lines[l].ordered;
      assert lines[l].fulfilled < lines[l].ordered;
    }
  }

  lemma {:induction false} CancelAgrees(s: State, o: nat)
    requires Releases(s, o) && !FulfillmentInFlight(s, o)
    requires SalesAgree(s)
    ensures SalesAgree(CancelSalesOrder(s, o).state)
  {
    var t := CancelSalesOrder(s, o).state;
    forall ref | IsSalesLine(t.sales, ref)
      ensures IsSalesLine(s.sales, ref)
      ensures ref.order == o ==> Pending(s.emitted, s.processed, ShippedFor(ref)) == 0
    {
      if ref.order == o {
        NothingInFlight(s, ref);
      }
    }
    SalesAgreeStays(s, t);
  }

  lemma {:induction false} CancelKeepsSales(s: State, o: nat)
    requires Releases(s, o) && SalesOk(s.sales)
    ensures var t := CancelSalesOrder(s, o).state;
            SalesOk(t.sales) && SalesForward(s.sales, t.sales)
  {
    CancelledOrderOk(s.sales[o]);
    UpdateIsForward(s.sales, o, CancelSalesOrder(s, o).state.sales[o]);
  }

  lemma {:induction false} CancelFrames(s: State, o: nat)
    requires Releases(s, o)
    ensures var t := CancelSalesOrder(s, o).state;
            && t == s.(sales := t.sales, stock := t.stock, reservations := t.reservations)
            && t.stock.Keys == s.stock.Keys
  {
  }

  lemma {:induction false} ReleasingCancelKeeps(origin: State, s: State, o: nat)
    requires Inv(origin, s) && !FulfillmentInFlight(s, o) && Releases(s, o)
    ensures Inv(origin, CancelSalesOrder(s, o).state)
  {
    CancelKeepsSales(s, o);
    CancelAgrees(s, o);
    CancelKeepsReservations(s, o);
    CancelKeepsStock(s, o);
    CancelKeepsTotals(s, o);
    CancelFrames(s, o);
    SalesSideKeeps(origin, s, CancelSalesOrder(s, o).state);
  }

  lemma {:induction false} CancelKeeps(origin: State, s: State, o: nat)
    requires Inv(origin, s) && !FulfillmentInFlight(s, o)
    requires CancelSalesOrder(s, o).Committed?
    ensures Inv(origin, CancelSalesOrder(s, o).state)
  {
    if Releases(s, o) {
      ReleasingCancelKeeps(origin, s, o);
    } else {
      RestatusKeeps(origin, s, o, SO.Cancelled);
    }
  }
}
