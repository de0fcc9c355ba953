/**
 * Where the code keeps its promise only under a condition: cancelling while a fulfilment is in
 * flight, and receipts that repeat a line.  For each: an input that fails, at the end of a run, and
 * the exact condition.
 */
module SideConditions {
  import opened Wrappers
  import opened Sums
  import opened Tables
  import opened Protocol
  import opened Invariants
  import opened FulfillSteps
  import opened PurchaseSteps
  import opened DeliverySteps
  import opened Theorems
  import SO = SalesOrderLifecycle
  import PO = PurchaseOrderLifecycle

  // ---------- Cancelling: an input that fails ----------

  /** Ten units of product 0 in warehouse 0. */
  ghost function TenInStock(): State {
    Start(map[Key(0, 0) := StockLevel(10, 0)], [Movement(Key(0, 0), 10, Opening)])
  }

  lemma {:induction false} TenIsSound()
    ensures SoundOpening(TenInStock().stock, TenInStock().movements)
  {
    var ledger := [Movement(Key(0, 0), 10, Opening)];
    forall k: Key, n | 0 <= n <= |ledger| ensures 0 <= Sum(ledger[..n], DeltaAt(k)) {
      SumNonNegative(ledger[..n], DeltaAt(k));
    }
    SumSingle(ledger, 0, DeltaAt(Key(0, 0)));
  }

  /** Ten units ordered and allocated, four of them fulfilled. */
  function FulfillFour(): seq<Step> {
    [StepCreateSales(0, [Item(0, 10)]), StepConfirm(0), StepAllocate(0), StepFulfill(0, [Request(0, 4)])]
  }

  /** The tables then, before the fulfilment is posted. */
  ghost function FourInFlight(): State {
    State(
      [SalesOrder(SO.PartiallyFulfilled, 0, [SalesLine(0, 10, 6, 4)])], [], [],
      map[Key(0, 0) := StockLevel(10, 10)], [Movement(Key(0, 0), 10, Opening)],
      [Reservation(LineRef(0, 0), Key(0, 0), 10, 0, Active)],
      {}, [SalesOrderFulfilled(0, 0, [FulfilledLine(0, 0, 4)])])
  }

  /** The order as it is created, confirmed and allocated. */
  ghost function Ordered(status: SO.Status): State {
    TenInStock().(sales := [SalesOrder(status, 0, [SalesLine(0, 10, 0, 0)])])
  }

  ghost function TenReserved(): State {
    TenInStock().(
      sales := [SalesOrder(SO.Allocated, 0, [SalesLine(0, 10, 10, 0)])],
      stock := map[Key(0, 0) := StockLevel(10, 10)],
      reservations := [Reservation(LineRef(0, 0), Key(0, 0), 10, 0, Active)])
  }

  lemma {:induction false} TenAllocated()
    ensures Allocate(Ordered(SO.Confirmed), 0) == Committed(TenReserved())
  {
    var order := Ordered(SO.Confirmed).sales[0];
    var sorted := SortedByProduct(Listing(order.lines));
    assert Listing(order.lines) == [Listed(0, order.lines[0])];
    assert Listing(order.lines)[..0] == [];
    assert SortedByProduct([]) == [];
    assert sorted == [Listed(0, order.lines[0])];
    SumSingle(order.lines, 0, LineOrderedAt(0, Key(0, 0)));
    assert Demand(order, Key(0, 0)) == 10;
    assert ReserveStock(Ordered(SO.Confirmed).stock, order) == TenReserved().stock;
    assert NewReservations(0, 0, sorted) == TenReserved().reservations;
    assert ReserveLines(order.lines) == TenReserved().sales[0].lines;
  }

  lemma {:induction false} FourFulfilled()
    ensures Fulfill(TenReserved(), 0, [Request(0, 4)]) == Committed(FourInFlight())
  {
    var lines := TenReserved().sales[0].lines;
    var requests := [Request(0, 4)];
    assert requests[..1] == requests;
    SumSingle(requests, 0, QtyOn(0));
    assert !FulfillFailsAt(lines, requests, 0);
    assert FulfillAccepts(lines, requests);
    assert FulfillLines(lines, requests) == FourInFlight().sales[0].lines;
    assert !AllFulfilled(FulfillLines(lines, requests)) by {
      assert FulfillLines(lines, requests)[0].fulfilled == 4;
    }
    assert FulfilledPayload(lines, requests) == [FulfilledLine(0, 0, 4)];
    assert Fulfill(TenReserved(), 0, requests).state.sales == FourInFlight().sales;
    assert Fulfill(TenReserved(), 0, requests).state.emitted == FourInFlight().emitted;
  }

  lemma {:induction false} FulfillFourRun()
    ensures OrderlyRun(TenInStock(), FulfillFour())
    ensures Run(TenInStock(), FulfillFour()) == FourInFlight()
  {
    var s := TenInStock();
    var steps := FulfillFour();
    OneMoreStep(s, [], steps[0]);
    assert NewSalesLines([Item(0, 10)]) == [SalesLine(0, 10, 0, 0)];
    assert [] + [steps[0]] == [steps[0]];
    assert Run(s, [steps[0]]) == Ordered(SO.Draft);
    OneMoreStep(s, [steps[0]], steps[1]);
    assert Run(s, [steps[0]] + [steps[1]]) == Ordered(SO.Confirmed);
    OneMoreStep(s, [steps[0]] + [steps[1]], steps[2]);
    TenAllocated();
    OneMoreStep(s, [steps[0]] + [steps[1]] + [steps[2]], steps[3]);
    FourFulfilled();
    assert steps == [steps[0]] + [steps[1]] + [steps[2]] + [steps[3]];
  }

  lemma {:induction false} CancelledTooSoon()
    ensures var s := FourInFlight();
            && CancelSalesOrder(s, 0).Committed?
            && Deliver(CancelSalesOrder(s, 0).state, 0).stock == map[Key(0, 0) := StockLevel(6, -4)]
  {
    var s := FourInFlight();
    var t := CancelSalesOrder(s, 0).state;
    SumSingle(s.reservations, 0, OutstandingOf(0, Key(0, 0)));
    assert t.stock == map[Key(0, 0) := StockLevel(10, 0)];
    var ms := MovementsOf(t.emitted[0]);
    assert ms == [Movement(Key(0, 0), -4, Fulfillment(LineRef(0, 0)))];
    SumSingle(ms, 0, ShippedAt(Key(0, 0)));
  }

  /**
   * Cancelling while four units are in flight: the cancellation commits and releases all ten, and
   * when the fulfilment is posted after all, the stock row reserves minus four.
   */
  lemma {:induction false} LateFulfillmentGoesNegative()
    ensures SoundOpening(TenInStock().stock, TenInStock().movements) && OrderlyRun(TenInStock(), FulfillFour())
    ensures var s := Run(TenInStock(), FulfillFour());
            && CancelSalesOrder(s, 0).Committed?
            && Deliver(CancelSalesOrder(s, 0).state, 0).stock == map[Key(0, 0) := StockLevel(6, -4)]
  {
    TenIsSound();
    FulfillFourRun();
    CancelledTooSoon();
  }

  // ---------- Cancelling: how far off, and exactly when ----------

  ghost predicate CacheAgrees(s: State) {
    forall k :: k in s.stock ==> s.stock[k].reserved == Sum(s.reservations, OutstandingAt(k))
  }

  lemma {:induction false} LateRowsUnmoved(rows: seq<Reservation>, ms: seq<Movement>, o: nat, k: Key)
    requires forall i :: 0 <= i < |rows| && rows[i].ref.order == o ==> !rows[i].status.Active?
    requires forall j :: 0 <= j < |ms| ==> ms[j].source.Fulfillment? && ms[j].source.soLine.order == o
    ensures Sum(ConsumeRows(rows, ms), OutstandingAt(k)) == Sum(rows, OutstandingAt(k))
  {
    var rows' := ConsumeRows(rows, ms);
    forall i | 0 <= i < |rows| ensures OutstandingAt(k)(rows'[i]) == OutstandingAt(k)(rows[i]) {
      if rows[i].ref.order != o {
        SumZero(ms, ShippedFor(rows[i].ref));
      }
    }
    SumSame(rows', OutstandingAt(k), rows, OutstandingAt(k));
  }

  lemma {:induction false} LatePosting(t: State, o: nat, id: nat, k: Key)
    requires DeliversFulfillment(t, id) && t.emitted[id].so == o
    requires forall i :: 0 <= i < |t.reservations| && t.reservations[i].ref.order == o ==> !t.reservations[i].status.Active?
    requires k in t.stock && t.stock[k].reserved == Sum(t.reservations, OutstandingAt(k))
    ensures var u := Deliver(t, id);
            && k in u.stock
            && u.stock[k].reserved == Sum(u.reservations, OutstandingAt(k)) - Sum(MovementsOf(t.emitted[id]), ShippedAt(k))
  {
    LateRowsUnmoved(t.reservations, MovementsOf(t.emitted[id]), o, k);
  }

  /** Posting a fulfilment of an order cancelled meanwhile leaves every stock row short by exactly what it ships. */
  lemma {:induction false} LateFulfillmentShortfall(s: State, o: nat, id: nat, k: Key)
    requires Releases(s, o) && DeliversFulfillment(s, id) && s.emitted[id].so == o
    requires ReservationsOk(s.reservations, s.sales, s.movements, s.stock)
    requires StockOk(s.stock, s.movements, s.reservations)
    requires k in s.stock
    ensures var u := Deliver(CancelSalesOrder(s, o).state, id);
            && k in u.stock
            && u.stock[k].reserved == Sum(u.reservations, OutstandingAt(k)) - Sum(MovementsOf(s.emitted[id]), ShippedAt(k))
  {
    var t := CancelSalesOrder(s, o).state;
    assert t.stock[k].reserved == Sum(t.reservations, OutstandingAt(k)) by {
      CancelKeepsStock(s, o);
    }
    LatePosting(t, o, id, k);
  }

  lemma {:induction false} FulfillmentShipsSomething(s: State, id: nat)
    requires DeliversFulfillment(s, id) && EventsOk(s.emitted, s.sales, s.purchases)
    ensures var ms := MovementsOf(s.emitted[id]);
            ms != [] && 0 < Sum(ms, ShippedAt(ms[0].key)) && 0 < Sum(ms, ShippedFor(ms[0].source.soLine))
  {
    var ms := MovementsOf(s.emitted[id]);
    assert |ms| == |s.emitted[id].fulfilled|;
    SumAtLeastRow(ms, 0, ShippedAt(ms[0].key));
    SumAtLeastRow(ms, 0, ShippedFor(ms[0].source.soLine));
  }

  /** Every fulfilment still in flight breaks the agreement when it is posted after the cancellation. */
  lemma {:induction false} LateFulfillmentBreaks(s: State, o: nat, id: nat)
    requires Releases(s, o) && DeliversFulfillment(s, id) && s.emitted[id].so == o
    requires SalesOk(s.sales) && SalesAgree(s) && EventsOk(s.emitted, s.sales, s.purchases)
    requires ReservationsOk(s.reservations, s.sales, s.movements, s.stock)
    requires StockOk(s.stock, s.movements, s.reservations)
    ensures !CacheAgrees(Deliver(CancelSalesOrder(s, o).state, id))
  {
    FulfillmentHasRows(s, id);
    FulfillmentShipsSomething(s, id);
    LateFulfillmentShortfall(s, o, id, MovementsOf(s.emitted[id])[0].key);
  }

  /** Every reservation of the order has counted what its line has counted: a condition on rows a caller can query. */
  ghost predicate CaughtUp(s: State, o: nat) {
    forall i :: 0 <= i < |s.reservations| && s.reservations[i].ref.order == o ==>
      && IsSalesLine(s.sales, s.reservations[i].ref)
      && s.reservations[i].fulfilled == SalesLineOf(s.sales, s.reservations[i].ref).fulfilled
  }

  lemma {:induction false} SettledIsCaughtUp(s: State, o: nat)
    requires SalesAgree(s) && ReservationsOk(s.reservations, s.sales, s.movements, s.stock)
    requires !FulfillmentInFlight(s, o)
    ensures CaughtUp(s, o)
  {
    forall i | 0 <= i < |s.reservations| && s.reservations[i].ref.order == o
      ensures IsSalesLine(s.sales, s.reservations[i].ref)
      ensures s.reservations[i].fulfilled == SalesLineOf(s.sales, s.reservations[i].ref).fulfilled
    {
      assert ReservationOk(s.reservations[i], s.sales, s.movements, s.stock);
      NothingInFlight(s, s.reservations[i].ref);
    }
  }

  lemma {:induction false} InFlightIsBehind(s: State, id: nat)
    requires SalesOk(s.sales) && SalesAgree(s) && EventsOk(s.emitted, s.sales, s.purchases)
    requires ReservationsOk(s.reservations, s.sales, s.movements, s.stock)
    requires DeliversFulfillment(s, id)
    ensures !CaughtUp(s, s.emitted[id].so)
  {
    var ref := MovementsOf(s.emitted[id])[0].source.soLine by {
      FulfillmentShipsSomething(s, id);
    }
    FulfillmentShipsSomething(s, id);
    FulfillmentHasRows(s, id);
    PendingShipsAtLeast(s, id, ref);
    assert HasRow(s.reservations, ref);
    var i :| 0 <= i < |s.reservations| && s.reservations[i].ref == ref;
    assert ReservationOk(s.reservations[i], s.sales, s.movements, s.stock);
  }

  lemma {:induction false} PendingShipsAtLeast(s: State, id: nat, ref: LineRef)
    requires EventsOk(s.emitted, s.sales, s.purchases) && id < |s.emitted| && id !in s.processed
    ensures Sum(MovementsOf(s.emitted[id]), ShippedFor(ref)) <= Pending(s.emitted, s.processed, ShippedFor(ref))
  {
    forall e | 0 <= e < |s.emitted| ensures 0 <= Sum(MovementsOf(s.emitted[e]), ShippedFor(ref)) {
      EventShipsNonNegative(s.emitted[e], ref, Key(0, 0));
    }
    PendingAtLeast(s.emitted, s.processed, id, ShippedFor(ref));
  }

  lemma {:induction false} CaughtUpExactly(s: State, o: nat)
    requires SalesOk(s.sales) && SalesAgree(s) && EventsOk(s.emitted, s.sales, s.purchases)
    requires ReservationsOk(s.reservations, s.sales, s.movements, s.stock)
    ensures CaughtUp(s, o) <==> !FulfillmentInFlight(s, o)
  {
    if FulfillmentInFlight(s, o) {
      var id :| 0 <= id < |s.emitted| && id !in s.processed && s.emitted[id].SalesOrderFulfilled? && s.emitted[id].so == o;
      InFlightIsBehind(s, id);
    } else {
      SettledIsCaughtUp(s, o);
    }
  }

  lemma {:induction false} LateCancelBreaks(origin: State, s: State, o: nat)
    requires Inv(origin, s) && CancelSalesOrder(s, o).Committed? && FulfillmentInFlight(s, o)
    ensures var t := CancelSalesOrder(s, o).state;
            !Inv(origin, t) && exists ids :: !CacheAgrees(DeliverAll(t, ids))
  {
    var t := CancelSalesOrder(s, o).state;
    var id :| 0 <= id < |s.emitted| && id !in s.processed && s.emitted[id].SalesOrderFulfilled? && s.emitted[id].so == o;
    HeldWhenInFlight(s, id);
    LateFulfillmentBreaks(s, o, id);
    assert DeliverAll(t, []) == t;
    assert [id][..0] == [];
    assert DeliverAll(t, [id]) == Deliver(t, id);
    if Inv(origin, t) {
      DeliverAllKeeps(origin, t, [id]);
    }
  }

  /** Only an order that was allocated has anything in flight. */
  lemma {:induction false} HeldWhenInFlight(s: State, id: nat)
    requires DeliversFulfillment(s, id) && EventsOk(s.emitted, s.sales, s.purchases)
    requires CancelSalesOrder(s, s.emitted[id].so).Committed?
    ensures Releases(s, s.emitted[id].so)
  {
    var ms := MovementsOf(s.emitted[id]);
    FulfillmentShipsSomething(s, id);
    assert MovementOk(ms[0], s.sales, s.purchases);
  }

  /**
   * When cancelling is safe: the invariant survives, and the reserved counter keeps agreeing with
   * the reservations under all later deliveries, exactly when no fulfilment of the order is in
   * flight - that is, exactly when its reservations have counted what its lines have.
   */
  lemma {:induction false} CancelSafeExactly(origin: State, s: State, o: nat)
    requires Inv(origin, s) && CancelSalesOrder(s, o).Committed?
    ensures var t := CancelSalesOrder(s, o).state;
            && (Inv(origin, t) <==> CaughtUp(s, o))
            && ((forall ids :: CacheAgrees(DeliverAll(t, ids))) <==> CaughtUp(s, o))
    ensures CaughtUp(s, o) <==> !FulfillmentInFlight(s, o)
  {
    var t := CancelSalesOrder(s, o).state;
    CaughtUpExactly(s, o);
    if FulfillmentInFlight(s, o) {
      LateCancelBreaks(origin, s, o);
    } else {
      CancelKeeps(origin, s, o);
      forall ids ensures CacheAgrees(DeliverAll(t, ids)) {
        DeliverAllKeeps(origin, t, ids);
      }
    }
  }

  // ---------- Receiving: an input that fails ----------

  /** A purchase order over ten units, approved and shipped. */
  function OrderTen(): seq<Step> {
    [StepCreatePurchase(0, [Item(0, 10)]), StepApprove(0), StepCreateShipment(Inbound, Some(0), None), StepDeliver(0)]
  }

  ghost function Purchased(status: PO.Status): State {
    Start(map[], []).(purchases := [PurchaseOrder(status, 0, [PurchaseLine(0, 10, 0)])])
  }

  ghost function TenShipped(): State {
    Purchased(PO.Shipped).(emitted := [ShipmentCreated(Some(0), None)], processed := {0})
  }

  lemma {:induction false} OrderTenRun()
    ensures OrderlyRun(Start(map[], []), OrderTen())
    ensures Run(Start(map[], []), OrderTen()) == TenShipped()
  {
    var s := Start(map[], []);
    var steps := OrderTen();
    OneMoreStep(s, [], steps[0]);
    assert NewPurchaseLines([Item(0, 10)]) == [PurchaseLine(0, 10, 0)];
    assert [] + [steps[0]] == [steps[0]];
    assert Run(s, [steps[0]]) == Purchased(PO.Draft);
    OneMoreStep(s, [steps[0]], steps[1]);
    assert Run(s, [steps[0]] + [steps[1]]) == Purchased(PO.Approved);
    OneMoreStep(s, [steps[0]] + [steps[1]], steps[2]);
    OneMoreStep(s, [steps[0]] + [steps[1]] + [steps[2]], steps[3]);
    assert steps == [steps[0]] + [steps[1]] + [steps[2]] + [steps[3]];
  }

  /** The guard alone does not prevent it: six and six of ten ordered, in one receipt, are accepted and make twelve. */
  lemma {:induction false} RepeatedReceiptExceeds()
    ensures SoundOpening(map[], []) && OrderlyRun(Start(map[], []), OrderTen())
    ensures var s := Run(Start(map[], []), OrderTen());
            var outcome := Receive(s, 0, [Request(0, 6), Request(0, 6)]);
            && outcome.Committed?
            && outcome.state.purchases == [PurchaseOrder(PO.Received, 0, [PurchaseLine(0, 10, 12)])]
  {
    OrderTenRun();
    var requests := [Request(0, 6), Request(0, 6)];
    assert requests[..1] == [Request(0, 6)];
    assert requests[..1][..0] == [];
    assert Sum(requests[..1], QtyOn(0)) == 6;
    assert Sum(requests, QtyOn(0)) == 12;
    var lines := TenShipped().purchases[0].lines;
    assert !ReceiveFailsAt(lines, requests, 0) && !ReceiveFailsAt(lines, requests, 1);
    assert ReceiveAccepts(lines, requests);
    assert ReceiveLines(lines, requests) == [PurchaseLine(0, 10, 12)];
    assert AllReceived(ReceiveLines(lines, requests));
  }

  // ---------- Receiving: exactly when ----------

  ghost predicate WithinOrdered(lines: seq<PurchaseLine>) {
    forall l :: 0 <= l < |lines| ==> lines[l].received <= lines[l].ordered
  }

  lemma {:induction false} ReceivedWithinOrdered(lines: seq<PurchaseLine>, requests: seq<Request>)
    ensures WithinOrdered(ReceiveLines(lines, requests)) <==> ReceiptFits(lines, requests)
  {
    var lines' := ReceiveLines(lines, requests);
    if WithinOrdered(lines') {
      forall l | 0 <= l < |lines| ensures Requested(requests, l) <= lines[l].ordered - lines[l].received {
        assert lines'[l].received <= lines'[l].ordered;
      }
    }
  }

  lemma {:induction false} OrderWithinOrdered(po: PurchaseOrder)
    requires PurchaseOrderOk(po)
    ensures WithinOrdered(po.lines)
  {
    forall l | 0 <= l < |po.lines| ensures po.lines[l].received <= po.lines[l].ordered {
      assert PurchaseLineOk(po.status, po.lines[l]);
    }
  }

  /**
   * When receiving is safe, for receipts of one order that do not overlap (for those that do, see
   * ReceiptConditions.dfy): a committed receipt keeps the invariant, and the order within what was
   * ordered, exactly when no line is asked, entries added up, for more than it lacks.  Naming each
   * line once is enough.
   */
  lemma {:induction false} ReceiveSafeExactly(origin: State, s: State, p: nat, requests: seq<Request>)
    requires Inv(origin, s) && requests != [] && Receive(s, p, requests).Committed?
    ensures var t := Receive(s, p, requests).state;
            var fits := ReceiptFits(s.purchases[p].lines, requests);
            && (Inv(origin, t) <==> fits)
            && (WithinOrdered(t.purchases[p].lines) <==> fits)
            && (DistinctLines(requests) ==> fits)
  {
    var t := Receive(s, p, requests).state;
    var lines := s.purchases[p].lines;
    ReceivedWithinOrdered(lines, requests);
    OrderWithinOrdered(s.purchases[p]);
    if DistinctLines(requests) {
      DistinctFits(lines, requests);
    }
    if ReceiptFits(lines, requests) {
      ReceiveKeeps(origin, s, p, requests);
    }
    if Inv(origin, t) {
      OrderWithinOrdered(t.purchases[p]);
    }
  }
}
