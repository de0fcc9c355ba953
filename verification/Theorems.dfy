/** What holds after every orderly run of the protocol, whatever the delay, order and repetition of deliveries. */
module Theorems {
  import opened Wrappers
  import opened Sums
  import opened Tables
  import opened Protocol
  import opened Invariants
  import opened SalesSteps
  import opened FulfillSteps
  import opened PurchaseSteps
  import opened DeliverySteps
  import SO = SalesOrderLifecycle
  import PO = PurchaseOrderLifecycle

  // ---------- The invariant over runs ----------

  lemma {:induction false} AfterKeeps(origin: State, s: State, step: Step)
    requires Inv(origin, s) && Orderly(s, step)
    ensures Inv(origin, After(s, step))
  {
    if Attempt(s, step).Committed? {
      match step
      case StepCreateSales(warehouse, items) => CreateSalesOrderKeeps(origin, s, warehouse, items);
      case StepConfirm(o) => RestatusKeeps(origin, s, o, SO.Confirmed);
      case StepAllocate(o) => AllocateKeeps(origin, s, o);
      case StepCancelSales(o) => CancelKeeps(origin, s, o);
      case StepFulfill(o, requests) => FulfillKeeps(origin, s, o, requests);
      case StepCreatePurchase(warehouse, items) => CreatePurchaseOrderKeeps(origin, s, warehouse, items);
      case StepApprove(p) => MoveKeeps(origin, s, p, PO.Approved);
      case StepCancelPurchase(p) => MoveKeeps(origin, s, p, PO.Cancelled);
      case StepReceive(p, requests) => ReceiveKeeps(origin, s, p, requests);
      case StepCreateShipment(direction, forPo, forSo) => CreateShipmentKeeps(origin, s, direction, forPo, forSo);
      case StepDeliver(id) => DeliverKeeps(origin, s, id);
    }
  }

  lemma {:induction false} OneMoreStep(s: State, steps: seq<Step>, step: Step)
    requires OrderlyRun(s, steps) && Orderly(Run(s, steps), step)
    ensures OrderlyRun(s, steps + [step]) && Run(s, steps + [step]) == After(Run(s, steps), step)
  {
    assert (steps + [step])[..|steps|] == steps;
  }

  lemma {:induction false} RunKeepsFrom(origin: State, s: State, steps: seq<Step>)
    requires Inv(origin, s) && OrderlyRun(s, steps)
    ensures Inv(origin, Run(s, steps))
  {
    if steps != [] {
      var n := |steps| - 1;
      RunKeepsFrom(origin, s, steps[..n]);
      AfterKeeps(origin, Run(s, steps[..n]), steps[n]);
    }
  }

  /** Every state an orderly run reaches from sound opening stock satisfies the invariant. */
  lemma {:induction false} RunKeeps(stock: map<Key, StockLevel>, ledger: seq<Movement>, steps: seq<Step>)
    requires SoundOpening(stock, ledger) && OrderlyRun(Start(stock, ledger), steps)
    ensures Inv(Start(stock, ledger), Run(Start(stock, ledger), steps))
  {
    OpeningHolds(stock, ledger);
    RunKeepsFrom(Start(stock, ledger), Start(stock, ledger), steps);
  }

  // ---------- Conservation and agreement ----------

  function OnHandIn(stock: map<Key, StockLevel>, k: Key): int {
    if k in stock then stock[k].onHand else 0
  }

  lemma {:induction false} OpeningPart(origin: State, movements: seq<Movement>, k: Key)
    requires LogOk(origin, movements)
    ensures Sum(movements, OpeningAt(k)) == Sum(origin.movements, DeltaAt(k))
  {
    var n := |origin.movements|;
    SumSlice(movements, n, OpeningAt(k));
    assert movements[..n] == origin.movements;
    SumSame(origin.movements, OpeningAt(k), origin.movements, DeltaAt(k));
    SumZero(movements[n..], OpeningAt(k));
  }

  /** On-hand stock in terms of the orders: what was received, less what was fulfilled, corrected by what is in flight. */
  lemma {:induction false} OnHandFromOrders(origin: State, s: State, k: Key)
    requires Inv(origin, s)
    ensures OnHandIn(s.stock, k) == Sum(s.movements, DeltaAt(k))
    ensures OnHandIn(s.stock, k)
            == Sum(origin.movements, DeltaAt(k)) + Sum(s.purchases, ReceivedAt(k)) - Sum(s.sales, FulfilledAt(k))
               - Pending(s.emitted, s.processed, ArrivedAt(k)) + Pending(s.emitted, s.processed, ShippedAt(k))
  {
    if k !in s.stock {
      UnstockedIsEmpty(s, k);
    }
    DeltaParts(s.movements, k);
    OpeningPart(origin, s.movements, k);
  }

  /** End-to-end conservation, after every orderly run and for every key. */
  lemma {:induction false} Conservation(stock: map<Key, StockLevel>, ledger: seq<Movement>, steps: seq<Step>, k: Key)
    requires SoundOpening(stock, ledger) && OrderlyRun(Start(stock, ledger), steps)
    ensures var s := Run(Start(stock, ledger), steps);
            && OnHandIn(s.stock, k) == Sum(s.movements, DeltaAt(k))
            && OnHandIn(s.stock, k)
               == Sum(ledger, DeltaAt(k)) + Sum(s.purchases, ReceivedAt(k)) - Sum(s.sales, FulfilledAt(k))
                  - Pending(s.emitted, s.processed, ArrivedAt(k)) + Pending(s.emitted, s.processed, ShippedAt(k))
  {
    RunKeeps(stock, ledger, steps);
    OnHandFromOrders(Start(stock, ledger), Run(Start(stock, ledger), steps), k);
  }

  lemma {:induction false} ReservedFromOrders(origin: State, s: State, k: Key)
    requires Inv(origin, s)
    ensures ReservedIn(s.stock, k) == Sum(s.reservations, OutstandingAt(k))
    ensures ReservedIn(s.stock, k) == Sum(s.sales, ReservedAt(k)) + Pending(s.emitted, s.processed, ShippedAt(k))
  {
    if k !in s.stock {
      UnstockedIsEmpty(s, k);
    }
  }

  /** The reserved counter is what active reservations hold, and what the order lines reserve plus what is in flight. */
  lemma {:induction false} ReservedAgreement(stock: map<Key, StockLevel>, ledger: seq<Movement>, steps: seq<Step>, k: Key)
    requires SoundOpening(stock, ledger) && OrderlyRun(Start(stock, ledger), steps)
    ensures var s := Run(Start(stock, ledger), steps);
            && ReservedIn(s.stock, k) == Sum(s.reservations, OutstandingAt(k))
            && ReservedIn(s.stock, k) == Sum(s.sales, ReservedAt(k)) + Pending(s.emitted, s.processed, ShippedAt(k))
  {
    RunKeeps(stock, ledger, steps);
    ReservedFromOrders(Start(stock, ledger), Run(Start(stock, ledger), steps), k);
  }

  /** Row `i` is the reservation of line `ref` and differs from the line only by what is in flight. */
  ghost predicate RowAgrees(s: State, ref: LineRef, i: nat)
    requires IsSalesLine(s.sales, ref)
  {
    && i < |s.reservations|
    && s.reservations[i].ref == ref
    && var line := SalesLineOf(s.sales, ref);
       var row := s.reservations[i];
       var inFlight := Pending(s.emitted, s.processed, ShippedFor(ref));
       && line.reserved + inFlight == row.quantity - row.fulfilled
       && line.fulfilled == row.fulfilled + inFlight
  }

  lemma {:induction false} LineAgrees(origin: State, s: State, ref: LineRef)
    requires Inv(origin, s)
    requires IsSalesLine(s.sales, ref) && Holding(s.sales[ref.order].status)
    ensures exists i :: RowAgrees(s, ref, i)
  {
    assert HasRow(s.reservations, ref);
    var i :| 0 <= i < |s.reservations| && s.reservations[i].ref == ref;
    assert ReservationOk(s.reservations[i], s.sales, s.movements, s.stock);
    assert SalesOrderOk(s.sales[ref.order]);
    assert SalesLineOk(s.sales[ref.order].status, SalesLineOf(s.sales, ref));
    assert RowAgrees(s, ref, i);
  }

  /** Fulfillment and Inventory agree on every line of an allocated, uncancelled order, up to what is in flight. */
  lemma {:induction false} LineAgreement(stock: map<Key, StockLevel>, ledger: seq<Movement>, steps: seq<Step>, ref: LineRef)
    requires SoundOpening(stock, ledger) && OrderlyRun(Start(stock, ledger), steps)
    requires var s := Run(Start(stock, ledger), steps);
             IsSalesLine(s.sales, ref) && Holding(s.sales[ref.order].status)
    ensures exists i :: RowAgrees(Run(Start(stock, ledger), steps), ref, i)
  {
    RunKeeps(stock, ledger, steps);
    LineAgrees(Start(stock, ledger), Run(Start(stock, ledger), steps), ref);
  }

  /** No key is ever oversold, and no prefix of its ledger, in append order, sums to less than zero. */
  lemma {:induction false} NoOversell(stock: map<Key, StockLevel>, ledger: seq<Movement>, steps: seq<Step>, k: Key, n: nat)
    requires SoundOpening(stock, ledger) && OrderlyRun(Start(stock, ledger), steps)
    ensures var s := Run(Start(stock, ledger), steps);
            && 0 <= ReservedIn(s.stock, k) <= OnHandIn(s.stock, k)
            && ledger <= s.movements
            && (n <= |s.movements| ==> 0 <= Sum(s.movements[..n], DeltaAt(k)))
  {
    RunKeeps(stock, ledger, steps);
  }

  // ---------- Exactly once, in any order ----------

  lemma {:induction false} DeliverFrames(s: State, id: nat)
    ensures var t := Deliver(s, id);
            && t.sales == s.sales && t.emitted == s.emitted && t.receipts == s.receipts
            && SameSlots(t.reservations, s.reservations)
            && |t.purchases| == |s.purchases|
  {
  }

  /** Event `id` would claim: it exists, and it is not a shipment without a purchase order. */
  ghost predicate Claimable(s: State, id: nat) {
    id < |s.emitted| && !(s.emitted[id].ShipmentCreated? && s.emitted[id].forPo.None?)
  }

  lemma {:induction false} DeliverAllKeeps(origin: State, s: State, ids: seq<nat>)
    requires Inv(origin, s)
    ensures Inv(origin, DeliverAll(s, ids))
  {
    if ids != [] {
      var n := |ids| - 1;
      DeliverAllKeeps(origin, s, ids[..n]);
      DeliverKeeps(origin, DeliverAll(s, ids[..n]), ids[n]);
    }
  }

  /** Deliveries leave orders, events and reservation slots alone, and claim exactly the claimable events among them. */
  ghost predicate Delivered(s: State, ids: seq<nat>, t: State) {
    && t.sales == s.sales && t.emitted == s.emitted && t.receipts == s.receipts
    && SameSlots(t.reservations, s.reservations)
    && |t.purchases| == |s.purchases|
    && (forall id :: id in t.processed <==> id in s.processed || (id in ids && Claimable(s, id)))
  }

  lemma {:induction false} DeliverAllFrames(s: State, ids: seq<nat>)
    ensures Delivered(s, ids, DeliverAll(s, ids))
  {
    if ids != [] {
      var n := |ids| - 1;
      DeliverAllFrames(s, ids[..n]);
      DeliverFrames(DeliverAll(s, ids[..n]), ids[n]);
      assert ids == ids[..n] + [ids[n]];
    }
  }

  /** Stock, reservations and the bag of ledger rows are a function of the orders and of the set of claimed events. */
  lemma {:induction false} ClaimsDetermineInventory(origin: State, a: State, b: State)
    requires Inv(origin, a) && Inv(origin, b)
    requires a.sales == b.sales && a.emitted == b.emitted && a.processed == b.processed
    requires SameSlots(a.reservations, b.reservations)
    ensures multiset(a.movements) == multiset(b.movements)
    ensures a.reservations == b.reservations
    ensures a.stock == b.stock
  {
    SameRows(a, b);
    SameStock(origin, a, b);
  }

  lemma {:induction false} SameStock(origin: State, a: State, b: State)
    requires BagOk(origin, a) && BagOk(origin, b)
    requires StockOk(a.stock, a.movements, a.reservations) && StockOk(b.stock, b.movements, b.reservations)
    requires a.reservations == b.reservations && multiset(a.movements) == multiset(b.movements)
    ensures a.stock == b.stock
  {
    SameKeys(a.movements, b.movements);
    forall k | k in a.stock ensures k in b.stock && a.stock[k] == b.stock[k] {
      SumBag(a.movements, b.movements, DeltaAt(k));
    }
  }

  lemma {:induction false} SameRows(a: State, b: State)
    requires ReservationsOk(a.reservations, a.sales, a.movements, a.stock)
    requires ReservationsOk(b.reservations, b.sales, b.movements, b.stock)
    requires a.sales == b.sales && multiset(a.movements) == multiset(b.movements)
    requires SameSlots(a.reservations, b.reservations)
    ensures a.reservations == b.reservations
  {
    forall i | 0 <= i < |a.reservations| ensures a.reservations[i] == b.reservations[i] {
      assert ReservationOk(a.reservations[i], a.sales, a.movements, a.stock);
      assert ReservationOk(b.reservations[i], b.sales, b.movements, b.stock);
      SumBag(a.movements, b.movements, ShippedFor(a.reservations[i].ref));
    }
  }

  lemma {:induction false} SameKeys(a: seq<Movement>, b: seq<Movement>)
    requires multiset(a) == multiset(b)
    ensures KeysOf(a) == KeysOf(b)
  {
    forall k | k in KeysOf(a) ensures k in KeysOf(b) {
      var i :| 0 <= i < |a| && a[i].key == k;
      assert a[i] in multiset(b);
      var j :| 0 <= j < |b| && b[j] == a[i];
    }
    forall k | k in KeysOf(b) ensures k in KeysOf(a) {
      var i :| 0 <= i < |b| && b[i].key == k;
      assert b[i] in multiset(a);
      var j :| 0 <= j < |a| && a[j] == b[i];
    }
  }

  lemma {:induction false} SameClaims(s: State, ids: seq<nat>, t: State, ids': seq<nat>, t': State)
    requires Delivered(s, ids, t) && Delivered(s, ids', t')
    requires forall id :: id in ids <==> id in ids'
    ensures t.sales == t'.sales && t.emitted == t'.emitted && t.processed == t'.processed
    ensures SameSlots(t.reservations, t'.reservations)
  {
    assert t.processed == t'.processed;
  }

  /**
   * Exactly once and order independence: two sequences of deliveries of the same events, in any
   * order and with any repetitions, end in the same stock rows, reservation rows, claims and bag
   * of ledger rows.
   */
  lemma {:induction false} ExactlyOnce(origin: State, s: State, ids: seq<nat>, ids': seq<nat>)
    requires Inv(origin, s)
    requires forall id :: id in ids <==> id in ids'
    ensures var t, t' := DeliverAll(s, ids), DeliverAll(s, ids');
            && t.stock == t'.stock
            && t.reservations == t'.reservations
            && t.processed == t'.processed
            && multiset(t.movements) == multiset(t'.movements)
  {
    DeliverAllKeeps(origin, s, ids);
    DeliverAllKeeps(origin, s, ids');
    DeliverAllFrames(s, ids);
    DeliverAllFrames(s, ids');
    SameClaims(s, ids, DeliverAll(s, ids), ids', DeliverAll(s, ids'));
    ClaimsDetermineInventory(origin, DeliverAll(s, ids), DeliverAll(s, ids'));
  }

  /** Unclaimed event `id` announces the shipment of order `p`. */
  ghost predicate AnnouncedBy(s: State, id: nat, p: nat) {
    id < |s.emitted| && id !in s.processed && s.emitted[id].ShipmentCreated? && s.emitted[id].forPo == Some(p)
  }

  /** Order `p` is announced as shipped by one of the unclaimed events `ids`. */
  ghost predicate AnnouncedAmong(s: State, ids: seq<nat>, p: nat) {
    exists id :: id in ids && AnnouncedBy(s, id, p)
  }

  lemma {:induction false} AnnouncedNext(s: State, ids: seq<nat>, id: nat, p: nat)
    ensures AnnouncedAmong(s, ids + [id], p) <==> AnnouncedAmong(s, ids, p) || AnnouncedBy(s, id, p)
  {
    if AnnouncedAmong(s, ids, p) {
      var other :| other in ids && AnnouncedBy(s, other, p);
      assert other in ids + [id];
    } else if AnnouncedBy(s, id, p) {
      assert id in ids + [id];
    }
  }

  lemma {:induction false} DeliveryShips(s: State, id: nat, p: nat)
    requires p < |s.purchases|
    ensures var t := Deliver(s, id);
            && |t.purchases| == |s.purchases|
            && t.purchases[p] == if s.purchases[p].status.Approved? && AnnouncedBy(s, id, p)
                                 then s.purchases[p].(status := PO.Shipped) else s.purchases[p]
  {
  }

  /** Deliveries move a purchase order exactly when it is approved and one of them announces its shipment. */
  lemma {:induction false} DeliveriesShip(s: State, ids: seq<nat>, p: nat)
    requires p < |s.purchases|
    ensures var t := DeliverAll(s, ids);
            && |t.purchases| == |s.purchases|
            && t.purchases[p] == if s.purchases[p].status.Approved? && AnnouncedAmong(s, ids, p)
                                 then s.purchases[p].(status := PO.Shipped) else s.purchases[p]
  {
    if ids != [] {
      var n := |ids| - 1;
      DeliveriesShip(s, ids[..n], p);
      DeliverAllFrames(s, ids[..n]);
      DeliveryShips(DeliverAll(s, ids[..n]), ids[n], p);
      assert ids == ids[..n] + [ids[n]];
      AnnouncedNext(s, ids[..n], ids[n], p);
      assert ids[n] in ids[..n] && AnnouncedBy(s, ids[n], p) ==> AnnouncedAmong(s, ids[..n], p);
    }
  }

  // ---------- Shipments and orders ----------

  /** No order is linked to two shipments. */
  ghost predicate LinkedOnce(emitted: seq<Event>) {
    forall i, j :: 0 <= i < j < |emitted| && emitted[i].ShipmentCreated? ==> !Links(emitted[j], emitted[i].forPo, emitted[i].forSo)
  }

  /** Links are mutual. */
  lemma {:induction false} LinksBothWays(a: Event, b: Event)
    requires a.ShipmentCreated? && b.ShipmentCreated?
    ensures Links(a, b.forPo, b.forSo) <==> Links(b, a.forPo, a.forSo)
  {
  }

  lemma {:induction false} StepLinksOnce(s: State, step: Step)
    requires LinkedOnce(s.emitted)
    ensures LinkedOnce(After(s, step).emitted)
  {
    if step.StepCreateShipment? && Attempt(s, step).Committed? {
      var e := ShipmentCreated(step.forPo, step.forSo);
      forall i | 0 <= i < |s.emitted| && s.emitted[i].ShipmentCreated? ensures !Links(e, s.emitted[i].forPo, s.emitted[i].forSo) {
        LinksBothWays(s.emitted[i], e);
      }
    }
  }

  /** Over any run every purchase order and every sales order gets at most one shipment. */
  lemma {:induction false} OneShipmentPerOrder(stock: map<Key, StockLevel>, ledger: seq<Movement>, steps: seq<Step>)
    ensures LinkedOnce(Run(Start(stock, ledger), steps).emitted)
  {
    if steps != [] {
      var n := |steps| - 1;
      OneShipmentPerOrder(stock, ledger, steps[..n]);
      StepLinksOnce(Run(Start(stock, ledger), steps[..n]), steps[n]);
    }
  }

  // ---------- Missing rows ----------

  /**
   * The branch that creates a stock row is taken by receipts only: a fulfilment in flight finds
   * the stock row of every line and the reservation of every line, and a release finds the stock
   * row of every reservation.
   */
  lemma {:induction false} RowsAreThere(stock: map<Key, StockLevel>, ledger: seq<Movement>, steps: seq<Step>, id: nat)
    requires SoundOpening(stock, ledger) && OrderlyRun(Start(stock, ledger), steps)
    ensures var s := Run(Start(stock, ledger), steps);
            && (DeliversFulfillment(s, id) ==>
                  && RowsFor(MovementsOf(s.emitted[id]), s.reservations)
                  && KeysOf(MovementsOf(s.emitted[id])) <= s.stock.Keys)
            && (forall i :: 0 <= i < |s.reservations| ==> s.reservations[i].key in s.stock)
  {
    RunKeeps(stock, ledger, steps);
    var s := Run(Start(stock, ledger), steps);
    if DeliversFulfillment(s, id) {
      FulfillmentHasRows(s, id);
    }
    forall i | 0 <= i < |s.reservations| ensures s.reservations[i].key in s.stock {
      assert ReservationOk(s.reservations[i], s.sales, s.movements, s.stock);
    }
  }

  // ---------- Status and counters ----------

  /** What the status of a sales order says about its counters, after every orderly run. */
  lemma {:induction false} SalesCoupling(stock: map<Key, StockLevel>, ledger: seq<Movement>, steps: seq<Step>, o: nat)
    requires SoundOpening(stock, ledger) && OrderlyRun(Start(stock, ledger), steps)
    requires o < |Run(Start(stock, ledger), steps).sales|
    ensures var order := Run(Start(stock, ledger), steps).sales[o];
            && (forall l :: 0 <= l < |order.lines| ==> 0 <= order.lines[l].fulfilled <= order.lines[l].ordered)
            && (!Started(order.status) ==>
                  forall l :: 0 <= l < |order.lines| ==> order.lines[l].reserved == 0 && order.lines[l].fulfilled == 0)
            && (Holding(order.status) ==>
                  forall l :: 0 <= l < |order.lines| ==> order.lines[l].reserved + order.lines[l].fulfilled == order.lines[l].ordered)
            && (order.status.Fulfilled? <==> AllFulfilled(order.lines))
            && (Holding(order.status) ==>
                  (order.status.Allocated? <==> forall l :: 0 <= l < |order.lines| ==> order.lines[l].fulfilled == 0))
            && (order.status.Cancelled? ==> forall l :: 0 <= l < |order.lines| ==> order.lines[l].reserved == 0)
  {
    RunKeeps(stock, ledger, steps);
    var order := Run(Start(stock, ledger), steps).sales[o];
    assert SalesOrderOk(order);
    forall l | 0 <= l < |order.lines| ensures SalesLineOk(order.status, order.lines[l]) {
    }
    assert SalesLineOk(order.status, order.lines[0]);
  }

  /** What the status of a purchase order says about its counters, and what the counters say about receipts and ledger. */
  lemma {:induction false} PurchaseCoupling(stock: map<Key, StockLevel>, ledger: seq<Movement>, steps: seq<Step>, p: nat)
    requires SoundOpening(stock, ledger) && OrderlyRun(Start(stock, ledger), steps)
    requires p < |Run(Start(stock, ledger), steps).purchases|
    ensures var s := Run(Start(stock, ledger), steps);
            var po := s.purchases[p];
            && (po.status.Received? <==> AllReceived(po.lines))
            && forall l :: 0 <= l < |po.lines| ==>
                 && 0 <= po.lines[l].received <= po.lines[l].ordered
                 && po.lines[l].received == Sum(s.receipts, ReceiptFor(LineRef(p, l)))
                 && po.lines[l].received
                    == Sum(s.movements, ArrivedFor(LineRef(p, l))) + Pending(s.emitted, s.processed, ArrivedFor(LineRef(p, l)))
  {
    RunKeeps(stock, ledger, steps);
    var s := Run(Start(stock, ledger), steps);
    var po := s.purchases[p];
    assert PurchaseOrderOk(po);
    forall l | 0 <= l < |po.lines| ensures PurchaseLineOk(po.status, po.lines[l]) && IsPurchaseLine(s.purchases, LineRef(p, l)) {
    }
    assert PurchaseLineOk(po.status, po.lines[0]);
  }
}
