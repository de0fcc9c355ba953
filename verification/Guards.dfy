/**
 * Which order accepts which operation, status by status, and which error the others get: what the
 * transition tables and the status lists come down to, without naming them.
 */
module Guards {
  import opened Wrappers
  import opened Sums
  import opened Tables
  import opened Protocol
  import opened Invariants
  import opened SalesSteps
  import opened FulfillSteps
  import opened Theorems
  import opened Lifetimes
  import SO = SalesOrderLifecycle
  import PO = PurchaseOrderLifecycle

  /** The outcome commits exactly if `accepts`; a missing row, and else the guard, decides the error. */
  ghost predicate Decided(outcome: Outcome, known: bool, accepts: bool, error: Error) {
    && (outcome.Committed? <==> known && accepts)
    && (!known ==> outcome == RolledBack(NotFound))
    && (known && !accepts ==> outcome == RolledBack(error))
  }

  // ---------- Sales orders ----------

  /** Exactly a draft is confirmed. */
  lemma {:induction false} ConfirmExactly(s: State, o: nat)
    ensures Decided(Confirm(s, o), o < |s.sales|, o < |s.sales| && s.sales[o].status.Draft?, InvalidTransition)
    ensures Confirm(s, o).Committed? ==> Confirm(s, o).state.sales[o] == s.sales[o].(status := SO.Confirmed)
  {
  }

  /** Exactly an order that is neither fulfilled nor cancelled is cancelled: one with life left. */
  lemma {:induction false} CancelExactly(s: State, o: nat)
    ensures Decided(CancelSalesOrder(s, o), o < |s.sales|,
                    o < |s.sales| && !s.sales[o].status.Fulfilled? && !s.sales[o].status.Cancelled?, InvalidTransition)
    ensures SalesOk(s.sales) && o < |s.sales| ==> (CancelSalesOrder(s, o).Committed? <==> 0 < SalesLife(s.sales[o]))
    ensures CancelSalesOrder(s, o).Committed? ==> CancelSalesOrder(s, o).state.sales[o].status.Cancelled?
  {
    if SalesOk(s.sales) && o < |s.sales| {
      OpenSalesLife(s.sales[o]);
    }
  }

  /** Every key has free what the order wants of it. */
  ghost predicate Covered(s: State, order: SalesOrder) {
    forall k: Key :: Demand(order, k) <= OnHandIn(s.stock, k) - ReservedIn(s.stock, k)
  }

  lemma {:induction false} SufficientIsCovered(origin: State, s: State, o: nat)
    requires Inv(origin, s) && o < |s.sales|
    ensures Sufficient(s.stock, s.sales[o]) <==> Covered(s, s.sales[o])
  {
    var order := s.sales[o];
    if Sufficient(s.stock, order) {
      forall k: Key ensures Demand(order, k) <= OnHandIn(s.stock, k) - ReservedIn(s.stock, k) {
        if l :| 0 <= l < |order.lines| && Key(order.lines[l].product, order.warehouse) == k {
          assert Demand(order, k) <= Available(s.stock, k);
        } else {
          SumZero(order.lines, LineOrderedAt(order.warehouse, k));
          FreeIsNotNegative(s.stock, s.movements, s.reservations, k);
        }
      }
    }
    if Covered(s, order) {
      forall l | 0 <= l < |order.lines|
        ensures var k := Key(order.lines[l].product, order.warehouse); Demand(order, k) <= Available(s.stock, k)
      {
        var k := Key(order.lines[l].product, order.warehouse);
        assert Demand(order, k) <= OnHandIn(s.stock, k) - ReservedIn(s.stock, k);
      }
    }
  }

  lemma {:induction false} FreeIsNotNegative(stock: map<Key, StockLevel>, movements: seq<Movement>, rows: seq<Reservation>, k: Key)
    requires StockOk(stock, movements, rows)
    ensures 0 <= OnHandIn(stock, k) - ReservedIn(stock, k)
  {
  }

  /** Exactly a confirmed order is allocated, if every key has free what the order wants of it; its status is looked at first. */
  ghost predicate AllocateDecided(s: State, o: nat) {
    var outcome := Allocate(s, o);
    && (outcome.Committed? <==> o < |s.sales| && s.sales[o].status.Confirmed? && Covered(s, s.sales[o]))
    && (outcome == RolledBack(NotFound) <==> |s.sales| <= o)
    && (outcome == RolledBack(InvalidTransition) <==> o < |s.sales| && !s.sales[o].status.Confirmed?)
    && (outcome == RolledBack(InsufficientStock) <==> o < |s.sales| && s.sales[o].status.Confirmed? && !Covered(s, s.sales[o]))
    && (outcome.Committed? ==> outcome.state.sales[o].status.Allocated?)
  }

  lemma {:induction false} CoveredDecides(s: State, o: nat)
    requires o < |s.sales| ==> (Sufficient(s.stock, s.sales[o]) <==> Covered(s, s.sales[o]))
    ensures AllocateDecided(s, o)
  {
  }

  lemma {:induction false} AllocateExactly(origin: State, s: State, o: nat)
    requires Inv(origin, s)
    ensures AllocateDecided(s, o)
  {
    if o < |s.sales| {
      SufficientIsCovered(origin, s, o);
    }
    CoveredDecides(s, o);
  }

  /** All entries name a line, and none asks, all entries of its line added up, for more than is reserved. */
  ghost predicate Deliverable(lines: seq<SalesLine>, requests: seq<Request>) {
    forall i :: 0 <= i < |requests| ==>
      requests[i].line < |lines| && Requested(requests, requests[i].line) <= lines[requests[i].line].reserved
  }

  /** The first entry of an unknown line comes before the entries so far exceed what is reserved. */
  ghost predicate UnknownBeforeOver(lines: seq<SalesLine>, requests: seq<Request>) {
    exists i :: 0 <= i < |requests| && |lines| <= requests[i].line && Deliverable(lines, requests[..i])
  }

  /** Exactly an allocated or partially fulfilled order is fulfilled, by lists that ask for what is reserved at most. */
  lemma {:induction false} FulfillExactly(s: State, o: nat, requests: seq<Request>)
    ensures var held := o < |s.sales| && (s.sales[o].status.Allocated? || s.sales[o].status.PartiallyFulfilled?);
            && (Fulfill(s, o, requests).Committed? <==> held && Deliverable(s.sales[o].lines, requests))
            && (Fulfill(s, o, requests) == RolledBack(NotFound) <==> |s.sales| <= o)
            && (Fulfill(s, o, requests) == RolledBack(InvalidStatus) <==> o < |s.sales| && !held)
            && (Fulfill(s, o, requests) == RolledBack(UnknownLine) <==> held && UnknownBeforeOver(s.sales[o].lines, requests))
            && (Fulfill(s, o, requests) == RolledBack(OverFulfillment)
                <==> held && !Deliverable(s.sales[o].lines, requests) && !UnknownBeforeOver(s.sales[o].lines, requests))
  {
    if o < |s.sales| {
      FulfillCriterion(s.sales[o].lines, requests);
      UnknownLineFirst(s.sales[o].lines, requests);
    }
  }

  lemma {:induction false} UnknownLineFirst(lines: seq<SalesLine>, requests: seq<Request>)
    ensures UnknownBeforeOver(lines, requests)
            <==> exists i: nat :: FirstFulfillFailure(lines, requests, i) && requests[i].line >= |lines|
    ensures UnknownBeforeOver(lines, requests) ==> !Deliverable(lines, requests)
  {
    forall i | 0 <= i < |requests| && |lines| <= requests[i].line
      ensures Deliverable(lines, requests[..i]) <==> FirstFulfillFailure(lines, requests, i)
    {
      FulfillCriterion(lines, requests[..i]);
    }
    if i :| 0 <= i < |requests| && |lines| <= requests[i].line && Deliverable(lines, requests[..i]) {
      assert FirstFulfillFailure(lines, requests, i);
    }
    if i: nat :| FirstFulfillFailure(lines, requests, i) && requests[i].line >= |lines| {
      assert Deliverable(lines, requests[..i]);
    }
  }

  // ---------- Purchase orders ----------

  /** Exactly a draft is approved. */
  lemma {:induction false} ApproveExactly(s: State, p: nat)
    ensures Decided(MovePurchaseOrder(s, p, PO.Approved), p < |s.purchases|, p < |s.purchases| && s.purchases[p].status.Draft?,
                    InvalidTransition)
    ensures MovePurchaseOrder(s, p, PO.Approved).Committed? ==>
              MovePurchaseOrder(s, p, PO.Approved).state.purchases[p] == s.purchases[p].(status := PO.Approved)
  {
  }

  /** Exactly an order that is neither received nor cancelled is cancelled: one with life left. */
  lemma {:induction false} CancelPurchaseExactly(s: State, p: nat)
    ensures Decided(MovePurchaseOrder(s, p, PO.Cancelled), p < |s.purchases|,
                    p < |s.purchases| && !s.purchases[p].status.Received? && !s.purchases[p].status.Cancelled?, InvalidTransition)
    ensures PurchasesOk(s.purchases) && p < |s.purchases| ==>
              (MovePurchaseOrder(s, p, PO.Cancelled).Committed? <==> 0 < PurchaseLife(s.purchases[p]))
    ensures MovePurchaseOrder(s, p, PO.Cancelled).Committed? ==>
              MovePurchaseOrder(s, p, PO.Cancelled).state.purchases[p] == s.purchases[p].(status := PO.Cancelled)
  {
    if PurchasesOk(s.purchases) && p < |s.purchases| {
      OpenPurchaseLife(s.purchases[p]);
    }
  }

  /** Every entry by itself names a line and fits into what the line lacked before the receipt. */
  ghost predicate EachFits(lines: seq<PurchaseLine>, requests: seq<Request>) {
    forall i :: 0 <= i < |requests| ==>
      requests[i].line < |lines| && requests[i].qty <= lines[requests[i].line].ordered - lines[requests[i].line].received
  }

  /** The first entry of an unknown line comes before one that does not fit. */
  ghost predicate UnknownBeforeExcess(lines: seq<PurchaseLine>, requests: seq<Request>) {
    exists i :: 0 <= i < |requests| && |lines| <= requests[i].line && EachFits(lines, requests[..i])
  }

  /** Exactly a shipped or partially received order is received, by lists each entry of which fits. */
  lemma {:induction false} ReceiveExactly(s: State, p: nat, requests: seq<Request>)
    ensures var coming := p < |s.purchases| && (s.purchases[p].status.Shipped? || s.purchases[p].status.PartiallyReceived?);
            && (Receive(s, p, requests).Committed? <==> coming && EachFits(s.purchases[p].lines, requests))
            && (Receive(s, p, requests) == RolledBack(NotFound) <==> |s.purchases| <= p)
            && (Receive(s, p, requests) == RolledBack(InvalidStatus) <==> p < |s.purchases| && !coming)
            && (Receive(s, p, requests) == RolledBack(UnknownLine) <==> coming && UnknownBeforeExcess(s.purchases[p].lines, requests))
            && (Receive(s, p, requests) == RolledBack(OverReceipt)
                <==> coming && !EachFits(s.purchases[p].lines, requests) && !UnknownBeforeExcess(s.purchases[p].lines, requests))
  {
    if p < |s.purchases| {
      EachFitsIsAccepted(s.purchases[p].lines, requests);
      UnknownPurchaseLineFirst(s.purchases[p].lines, requests);
    }
  }

  lemma {:induction false} EachFitsIsAccepted(lines: seq<PurchaseLine>, requests: seq<Request>)
    ensures EachFits(lines, requests) <==> ReceiveAccepts(lines, requests)
  {
    if ReceiveAccepts(lines, requests) {
      forall i | 0 <= i < |requests|
        ensures requests[i].line < |lines| && requests[i].qty <= lines[requests[i].line].ordered - lines[requests[i].line].received
      {
        assert !ReceiveFailsAt(lines, requests, i);
      }
    }
  }

  lemma {:induction false} UnknownPurchaseLineFirst(lines: seq<PurchaseLine>, requests: seq<Request>)
    ensures UnknownBeforeExcess(lines, requests)
            <==> exists i: nat :: FirstReceiveFailure(lines, requests, i) && requests[i].line >= |lines|
    ensures UnknownBeforeExcess(lines, requests) ==> !EachFits(lines, requests)
  {
    forall i | 0 <= i < |requests| && |lines| <= requests[i].line
      ensures EachFits(lines, requests[..i]) <==> FirstReceiveFailure(lines, requests, i)
    {
      EachFitsIsAccepted(lines, requests[..i]);
    }
    if i :| 0 <= i < |requests| && |lines| <= requests[i].line && EachFits(lines, requests[..i]) {
      assert FirstReceiveFailure(lines, requests, i);
    }
    if i: nat :| FirstReceiveFailure(lines, requests, i) && requests[i].line >= |lines| {
      assert EachFits(lines, requests[..i]);
    }
  }

  // ---------- Shipments of orders ----------

  /** No shipment announced so far is linked to purchase order `p`. */
  ghost predicate PurchaseUnlinked(s: State, p: nat) {
    forall id :: 0 <= id < |s.emitted| && s.emitted[id].ShipmentCreated? ==> s.emitted[id].forPo != Some(p)
  }

  ghost predicate SalesUnlinked(s: State, o: nat) {
    forall id :: 0 <= id < |s.emitted| && s.emitted[id].ShipmentCreated? ==> s.emitted[id].forSo != Some(o)
  }

  /** Each of the given orders exists and has no shipment yet. */
  ghost predicate BothFree(s: State, forPo: Maybe<nat>, forSo: Maybe<nat>) {
    && (forPo.Some? ==> forPo.value < |s.purchases| && PurchaseUnlinked(s, forPo.value))
    && (forSo.Some? ==> forSo.value < |s.sales| && SalesUnlinked(s, forSo.value))
  }

  /** The order the direction asks for has the status it needs: approved inwards, holding or having used stock outwards. */
  ghost predicate ReadyToShip(s: State, direction: Direction, forPo: Maybe<nat>, forSo: Maybe<nat>) {
    match direction
    case Inbound => forPo.Some? && forPo.value < |s.purchases| && s.purchases[forPo.value].status.Approved?
    case Outbound =>
      && forSo.Some? && forSo.value < |s.sales|
      && var status := s.sales[forSo.value].status;
         status.Allocated? || status.PartiallyFulfilled? || status.Fulfilled?
  }

  /** The order the direction asks for, if one is given. */
  ghost function Asked(direction: Direction, forPo: Maybe<nat>, forSo: Maybe<nat>): Maybe<nat> {
    if direction.Inbound? then forPo else forSo
  }

  ghost predicate AskedExists(s: State, direction: Direction, asked: nat) {
    if direction.Inbound? then asked < |s.purchases| else asked < |s.sales|
  }

  lemma {:induction false} UnlinkedExactly(s: State, forPo: Maybe<nat>, forSo: Maybe<nat>)
    ensures AlreadyLinked(s, forPo, forSo)
            <==> (forPo.Some? && !PurchaseUnlinked(s, forPo.value)) || (forSo.Some? && !SalesUnlinked(s, forSo.value))
  {
    if forPo.Some? && !PurchaseUnlinked(s, forPo.value) {
      var id :| 0 <= id < |s.emitted| && s.emitted[id].ShipmentCreated? && s.emitted[id].forPo == forPo;
      assert Links(s.emitted[id], forPo, forSo);
    }
    if forSo.Some? && !SalesUnlinked(s, forSo.value) {
      var id :| 0 <= id < |s.emitted| && s.emitted[id].ShipmentCreated? && s.emitted[id].forSo == forSo;
      assert Links(s.emitted[id], forPo, forSo);
    }
  }

  /**
   * A shipment is created exactly if the order its direction asks for is ready and every order it is
   * linked to exists and has no shipment yet; what it announces are those links.
   */
  lemma {:induction false} ShipmentExactly(s: State, direction: Direction, forPo: Maybe<nat>, forSo: Maybe<nat>)
    ensures var outcome := CreateShipment(s, direction, forPo, forSo);
            var asked := Asked(direction, forPo, forSo);
            var ready := ReadyToShip(s, direction, forPo, forSo);
            && (outcome.Committed? <==> ready && BothFree(s, forPo, forSo))
            && (outcome.Committed? ==> outcome.state == s.(emitted := s.emitted + [ShipmentCreated(forPo, forSo)]))
            && (outcome == RolledBack(ValidationFailed) <==> asked.None?)
            && (outcome == RolledBack(NotFound) <==> asked.Some? && !AskedExists(s, direction, asked.value))
            && (outcome == RolledBack(InvalidStatus) <==> asked.Some? && AskedExists(s, direction, asked.value) && !ready)
            && (outcome == RolledBack(UniqueViolation)
                <==> ready && ((forPo.Some? && !PurchaseUnlinked(s, forPo.value)) || (forSo.Some? && !SalesUnlinked(s, forSo.value))))
            && (outcome.Committed? || outcome == RolledBack(UniqueViolation) || outcome == RolledBack(ForeignKeyViolation) || !ready)
  {
    UnlinkedExactly(s, forPo, forSo);
  }
}
