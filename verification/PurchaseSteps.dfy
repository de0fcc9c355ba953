/** Every transaction of the procurement side keeps the invariant. */
module PurchaseSteps {
  import opened Wrappers
  import opened Sums
  import opened Tables
  import opened Protocol
  import opened Invariants
  import opened FulfillSteps
  import PO = PurchaseOrderLifecycle

  // ---------- Frames: what a change of the purchase table leaves alone ----------

  lemma {:induction false} PurchasesAgreeStays(s: State, t: State)
    requires PurchasesAgree(s)
    requires t.movements == s.movements && t.emitted == s.emitted && t.processed == s.processed && t.receipts == s.receipts
    requires forall ref :: IsPurchaseLine(s.purchases, ref) ==> IsPurchaseLine(t.purchases, ref)
    requires forall ref :: IsPurchaseLine(t.purchases, ref) ==>
               IsPurchaseLine(s.purchases, ref) && PurchaseLineOf(t.purchases, ref).received == PurchaseLineOf(s.purchases, ref).received
    ensures PurchasesAgree(t)
  {
  }

  // ---------- Create, approve, cancel, ship ----------

  lemma {:induction false} NewPurchaseAgrees(s: State, warehouse: nat, items: seq<Item>)
    requires PurchasesAgree(s) && MovementsOk(s.movements, s.sales, s.purchases) && EventsOk(s.emitted, s.sales, s.purchases)
    ensures PurchasesAgree(CreatePurchaseOrder(s, warehouse, items))
  {
    var t := CreatePurchaseOrder(s, warehouse, items);
    forall ref | IsPurchaseLine(t.purchases, ref)
      ensures PurchaseLineOf(t.purchases, ref).received
              == Sum(t.movements, ArrivedFor(ref)) + Pending(t.emitted, t.processed, ArrivedFor(ref))
      ensures PurchaseLineOf(t.purchases, ref).received == Sum(t.receipts, ReceiptFor(ref))
    {
      if ref.order == |s.purchases| {
        NothingArrived(s.movements, s.sales, s.purchases, ref);
        NothingArrivedPending(s, ref);
        forall i | 0 <= i < |s.receipts| ensures s.receipts[i].poLine != ref {
          assert IsPurchaseLine(s.purchases, s.receipts[i].poLine);
        }
        SumZero(s.receipts, ReceiptFor(ref));
      } else {
        assert IsPurchaseLine(s.purchases, ref);
      }
    }
    forall i | 0 <= i < |t.receipts| ensures IsPurchaseLine(t.purchases, t.receipts[i].poLine) {
      assert IsPurchaseLine(s.purchases, s.receipts[i].poLine);
    }
  }

  lemma {:induction false} NewPurchaseTotals(s: State, warehouse: nat, items: seq<Item>)
    requires TotalsOk(s)
    ensures TotalsOk(CreatePurchaseOrder(s, warehouse, items))
  {
    forall k: Key
      ensures Sum(CreatePurchaseOrder(s, warehouse, items).purchases, ReceivedAt(k)) == Sum(s.purchases, ReceivedAt(k))
    {
      SumAppend(s.purchases, PurchaseOrder(PO.Draft, warehouse, NewPurchaseLines(items)), ReceivedAt(k));
      SumZero(NewPurchaseLines(items), LineReceivedAt(warehouse, k));
    }
  }

  lemma {:induction false} CreatePurchaseOrderKeeps(origin: State, s: State, warehouse: nat, items: seq<Item>)
    requires Inv(origin, s) && items != []
    ensures Inv(origin, CreatePurchaseOrder(s, warehouse, items))
  {
    NewPurchaseOk(s.purchases, warehouse, items);
    NewPurchaseAgrees(s, warehouse, items);
    NewPurchaseTotals(s, warehouse, items);
    PurchaseSideKeeps(origin, s, CreatePurchaseOrder(s, warehouse, items));
  }

  lemma {:induction false} NewPurchaseOk(purchases: seq<PurchaseOrder>, warehouse: nat, items: seq<Item>)
    requires PurchasesOk(purchases) && items != []
    ensures var purchases' := purchases + [PurchaseOrder(PO.Draft, warehouse, NewPurchaseLines(items))];
            PurchasesOk(purchases') && PurchasesForward(purchases, purchases')
  {
  }

  /** Every guarded change of status except those of receiving, and the one a shipment causes. */
  ghost predicate PlainMove(a: PO.Status, b: PO.Status) {
    PO.CanMove(a, b) && (b.Approved? || b.Shipped? || b.Cancelled?)
  }

  lemma {:induction false} MovedOrderOk(po: PurchaseOrder, target: PO.Status)
    requires PurchaseOrderOk(po) && PlainMove(po.status, target)
    ensures PurchaseOrderOk(po.(status := target))
  {
    forall l | 0 <= l < |po.lines| ensures PurchaseLineOk(target, po.lines[l]) {
      assert PurchaseLineOk(po.status, po.lines[l]);
    }
    if !po.status.PartiallyReceived? {
      assert PurchaseLineOk(po.status, po.lines[0]);
      assert po.(status := target).lines[0].received < po.(status := target).lines[0].ordered;
    }
  }

  lemma {:induction false} MoveAgrees(s: State, p: nat, target: PO.Status)
    requires PurchasesAgree(s) && p < |s.purchases|
    ensures PurchasesAgree(s.(purchases := s.purchases[p := s.purchases[p].(status := target)]))
  {
    PurchasesAgreeStays(s, s.(purchases := s.purchases[p := s.purchases[p].(status := target)]));
  }

  lemma {:induction false} MoveTotals(s: State, p: nat, target: PO.Status)
    requires TotalsOk(s) && p < |s.purchases|
    ensures TotalsOk(s.(purchases := s.purchases[p := s.purchases[p].(status := target)]))
  {
    forall k: Key
      ensures Sum(s.purchases[p := s.purchases[p].(status := target)], ReceivedAt(k)) == Sum(s.purchases, ReceivedAt(k))
    {
      SumUpdate(s.purchases, p, s.purchases[p].(status := target), ReceivedAt(k));
    }
  }

  lemma {:induction false} MoveKeeps(origin: State, s: State, p: nat, target: PO.Status)
    requires Inv(origin, s) && p < |s.purchases| && PlainMove(s.purchases[p].status, target)
    ensures Inv(origin, s.(purchases := s.purchases[p := s.purchases[p].(status := target)]))
  {
    var t := s.(purchases := s.purchases[p := s.purchases[p].(status := target)]);
    MovedOrderOk(s.purchases[p], target);
    MoveAgrees(s, p, target);
    MoveTotals(s, p, target);
    PurchaseSideKeeps(origin, s, t);
  }

  // ---------- Receive ----------

  /** With each line named once, a request list asks of a line what its one entry asks. */
  lemma {:induction false} DistinctRequested(requests: seq<Request>, i: nat)
    requires DistinctLines(requests) && i < |requests|
    ensures Requested(requests, requests[i].line) == requests[i].qty
  {
    SumSingle(requests, i, QtyOn(requests[i].line));
  }

  lemma {:induction false} UnrequestedIsZero(requests: seq<Request>, l: nat)
    requires forall i :: 0 <= i < |requests| ==> requests[i].line != l
    ensures Requested(requests, l) == 0
  {
    SumZero(requests, QtyOn(l));
  }

  /** Receiving a list is receiving all but its last entry, then the last one. */
  lemma {:induction false} ReceiveLast(lines: seq<PurchaseLine>, requests: seq<Request>)
    requires requests != [] && requests[|requests| - 1].line < |lines|
    ensures var n := |requests| - 1;
            var before := ReceiveLines(lines, requests[..n]);
            var l := requests[n].line;
            ReceiveLines(lines, requests) == before[l := before[l].(received := before[l].received + requests[n].qty)]
  {
    var n := |requests| - 1;
    forall l | 0 <= l < |lines| {
      RequestedLast(requests, l);
    }
  }

  ghost function ReceiptEvent(p: nat, po: PurchaseOrder, requests: seq<Request>, first: nat): Event
    requires KnownLines(|po.lines|, requests)
  {
    PoReceived(p, po.warehouse, ReceivedPayload(po.lines, requests, first))
  }

  lemma {:induction false} LastRaisesLine(po: PurchaseOrder, requests: seq<Request>, k: Key)
    requires requests != [] && requests[|requests| - 1].line < |po.lines|
    ensures var n := |requests| - 1;
            var r := requests[n];
            Sum(ReceiveLines(po.lines, requests), LineReceivedAt(po.warehouse, k))
            == Sum(ReceiveLines(po.lines, requests[..n]), LineReceivedAt(po.warehouse, k))
               + if Key(po.lines[r.line].product, po.warehouse) == k then r.qty else 0
  {
    var n := |requests| - 1;
    var r := requests[n];
    var before := ReceiveLines(po.lines, requests[..n]);
    ReceiveLast(po.lines, requests);
    SumUpdate(before, r.line, before[r.line].(received := before[r.line].received + r.qty), LineReceivedAt(po.warehouse, k));
  }

  /** The event brings, per key, exactly what the counters of the lines rise by. */
  lemma {:induction false} ReceiptMatchesLines(p: nat, po: PurchaseOrder, requests: seq<Request>, first: nat, k: Key)
    requires KnownLines(|po.lines|, requests)
    ensures Sum(ReceiveLines(po.lines, requests), LineReceivedAt(po.warehouse, k))
            == Sum(po.lines, LineReceivedAt(po.warehouse, k)) + Sum(MovementsOf(ReceiptEvent(p, po, requests, first)), ArrivedAt(k))
    decreases |requests|
  {
    if requests == [] {
      assert ReceiveLines(po.lines, requests) == po.lines;
    } else {
      var n := |requests| - 1;
      ReceiptMatchesLines(p, po, requests[..n], first, k);
      LastRaisesLine(po, requests, k);
      assert MovementsOf(ReceiptEvent(p, po, requests, first))[..n] == MovementsOf(ReceiptEvent(p, po, requests[..n], first));
    }
  }

  lemma {:induction false} ReceiptMatchesRequests(p: nat, po: PurchaseOrder, requests: seq<Request>, first: nat, ref: LineRef)
    requires KnownLines(|po.lines|, requests)
    ensures Sum(MovementsOf(ReceiptEvent(p, po, requests, first)), ArrivedFor(ref))
            == if ref.order == p then Requested(requests, ref.line) else 0
    ensures Sum(ReceiptLines(p, po.lines, requests), ReceiptFor(ref)) == if ref.order == p then Requested(requests, ref.line) else 0
  {
    var ms := MovementsOf(ReceiptEvent(p, po, requests, first));
    if ref.order == p {
      SumSame(ms, ArrivedFor(ref), requests, QtyOn(ref.line));
      SumSame(ReceiptLines(p, po.lines, requests), ReceiptFor(ref), requests, QtyOn(ref.line));
    } else {
      SumZero(ms, ArrivedFor(ref));
      SumZero(ReceiptLines(p, po.lines, requests), ReceiptFor(ref));
    }
  }

  lemma {:induction false} ReceiptShipsNothing(e: Event, ref: LineRef, k: Key)
    requires e.PoReceived?
    ensures Sum(MovementsOf(e), ShippedFor(ref)) == 0 && Sum(MovementsOf(e), ShippedAt(k)) == 0
  {
    SumZero(MovementsOf(e), ShippedFor(ref));
    SumZero(MovementsOf(e), ShippedAt(k));
  }

  /** An accepted request list that names each line once never exceeds what is left of a line. */
  lemma {:induction false} DistinctFits(lines: seq<PurchaseLine>, requests: seq<Request>)
    requires ReceiveAccepts(lines, requests) && DistinctLines(requests)
    requires forall l :: 0 <= l < |lines| ==> lines[l].received <= lines[l].ordered
    ensures ReceiptFits(lines, requests)
  {
    forall l | 0 <= l < |lines| ensures Requested(requests, l) <= lines[l].ordered - lines[l].received {
      if i :| 0 <= i < |requests| && requests[i].line == l {
        DistinctRequested(requests, i);
        assert !ReceiveFailsAt(lines, requests, i);
      } else {
        UnrequestedIsZero(requests, l);
      }
    }
  }

  lemma {:induction false} ReceivedOrderOk(po: PurchaseOrder, requests: seq<Request>)
    requires PurchaseOrderOk(po) && po.status in PO.RECEIVABLE
    requires requests != [] && ReceiveAccepts(po.lines, requests) && ReceiptFits(po.lines, requests)
    ensures var lines := ReceiveLines(po.lines, requests);
            var status := if AllReceived(lines) then PO.Received else PO.PartiallyReceived;
            PurchaseOrderOk(po.(status := status, lines := lines))
  {
    var lines := ReceiveLines(po.lines, requests);
    var status := if AllReceived(lines) then PO.Received else PO.PartiallyReceived;
    forall l | 0 <= l < |lines| ensures PurchaseLineOk(status, lines[l]) {
      assert PurchaseLineOk(po.status, po.lines[l]);
      SumNonNegative(requests, QtyOn(l));
    }
    assert !ReceiveFailsAt(po.lines, requests, 0);
    SumAtLeastRow(requests, 0, QtyOn(requests[0].line));
    assert PurchaseLineOk(po.status, po.lines[requests[0].line]);
    assert 0 < lines[requests[0].line].received;
  }

  lemma {:induction false} ReceiveAgrees(s: State, p: nat, requests: seq<Request>)
    requires Receive(s, p, requests).Committed?
    requires PurchasesAgree(s) && ClaimsOk(s.processed, s.emitted)
    ensures PurchasesAgree(Receive(s, p, requests).state)
  {
    var t := Receive(s, p, requests).state;
    var po := s.purchases[p];
    var e := ReceiptEvent(p, po, requests, |s.receipts|);
    forall ref | IsPurchaseLine(t.purchases, ref)
      ensures PurchaseLineOf(t.purchases, ref).received
              == Sum(t.movements, ArrivedFor(ref)) + Pending(t.emitted, t.processed, ArrivedFor(ref))
      ensures PurchaseLineOf(t.purchases, ref).received == Sum(t.receipts, ReceiptFor(ref))
    {
      assert IsPurchaseLine(s.purchases, ref);
      PendingAppend(s.emitted, e, s.processed, ArrivedFor(ref));
      SumConcat(s.receipts, ReceiptLines(p, po.lines, requests), ReceiptFor(ref));
      ReceiptMatchesRequests(p, po, requests, |s.receipts|, ref);
    }
    forall i | 0 <= i < |t.receipts| ensures IsPurchaseLine(t.purchases, t.receipts[i].poLine) {
      if i < |s.receipts| {
        assert IsPurchaseLine(s.purchases, s.receipts[i].poLine);
      }
    }
  }

  lemma {:induction false} ReceiveKeepsSales(s: State, p: nat, requests: seq<Request>)
    requires Receive(s, p, requests).Committed?
    requires SalesAgree(s) && ClaimsOk(s.processed, s.emitted)
    ensures SalesAgree(Receive(s, p, requests).state)
  {
    var t := Receive(s, p, requests).state;
    var e := ReceiptEvent(p, s.purchases[p], requests, |s.receipts|);
    forall ref | IsSalesLine(t.sales, ref)
      ensures Pending(t.emitted, t.processed, ShippedFor(ref)) == Pending(s.emitted, s.processed, ShippedFor(ref))
    {
      PendingAppend(s.emitted, e, s.processed, ShippedFor(ref));
      ReceiptShipsNothing(e, ref, Key(0, 0));
    }
    assert forall ref :: IsSalesLine(t.sales, ref) ==> IsSalesLine(s.sales, ref);
  }

  lemma {:induction false} ReceiveKeepsTotals(s: State, p: nat, requests: seq<Request>)
    requires Receive(s, p, requests).Committed?
    requires TotalsOk(s) && ClaimsOk(s.processed, s.emitted)
    ensures TotalsOk(Receive(s, p, requests).state)
  {
    var t := Receive(s, p, requests).state;
    var po := s.purchases[p];
    var e := ReceiptEvent(p, po, requests, |s.receipts|);
    forall k: Key
      ensures Sum(t.purchases, ReceivedAt(k)) == Sum(s.purchases, ReceivedAt(k)) + Sum(MovementsOf(e), ArrivedAt(k))
      ensures Pending(t.emitted, t.processed, ArrivedAt(k)) == Pending(s.emitted, s.processed, ArrivedAt(k)) + Sum(MovementsOf(e), ArrivedAt(k))
      ensures Pending(t.emitted, t.processed, ShippedAt(k)) == Pending(s.emitted, s.processed, ShippedAt(k))
    {
      SumUpdate(s.purchases, p, t.purchases[p], ReceivedAt(k));
      ReceiptMatchesLines(p, po, requests, |s.receipts|, k);
      PendingAppend(s.emitted, e, s.processed, ShippedAt(k));
      PendingAppend(s.emitted, e, s.processed, ArrivedAt(k));
      ReceiptShipsNothing(e, LineRef(0, 0), k);
    }
  }

  lemma {:induction false} ReceiveKeepsEvents(s: State, p: nat, requests: seq<Request>)
    requires Receive(s, p, requests).Committed?
    requires EventsOk(s.emitted, s.sales, s.purchases)
    ensures var t := Receive(s, p, requests).state;
            EventsOk(t.emitted, t.sales, t.purchases)
  {
    var t := Receive(s, p, requests).state;
    var ms := MovementsOf(ReceiptEvent(p, s.purchases[p], requests, |s.receipts|));
    EventsStayOk(s.emitted, s.sales, s.purchases, t.sales, t.purchases);
    forall i | 0 <= i < |ms| ensures MovementOk(ms[i], t.sales, t.purchases) {
      assert IsPurchaseLine(t.purchases, LineRef(p, requests[i].line));
    }
  }

  lemma {:induction false} ReceiveKeepsOrders(s: State, p: nat, requests: seq<Request>)
    requires PurchasesOk(s.purchases) && requests != []
    requires Receive(s, p, requests).Committed? && ReceiptFits(s.purchases[p].lines, requests)
    ensures var t := Receive(s, p, requests).state;
            PurchasesOk(t.purchases) && PurchasesForward(s.purchases, t.purchases)
  {
    ReceivedOrderOk(s.purchases[p], requests);
  }

  lemma {:induction false} ReceiveKeeps(origin: State, s: State, p: nat, requests: seq<Request>)
    requires Inv(origin, s) && requests != []
    requires Receive(s, p, requests).Committed? && ReceiptFits(s.purchases[p].lines, requests)
    ensures Inv(origin, Receive(s, p, requests).state)
  {
    var t := Receive(s, p, requests).state;
    ReceiveKeepsOrders(s, p, requests);
    MovementsStayOk(s.movements, s.sales, s.purchases, t.sales, t.purchases);
    ReceiveKeepsEvents(s, p, requests);
    ReceiveAgrees(s, p, requests);
    ReceiveKeepsSales(s, p, requests);
    ReceiveKeepsTotals(s, p, requests);
    EmitKeepsBag(origin, s, t, ReceiptEvent(p, s.purchases[p], requests, |s.receipts|));
  }

  // ---------- A shipment is announced ----------

  /** An announcement ships and receives nothing. */
  ghost predicate Announces(s: State, t: State, e: Event) {
    e.ShipmentCreated? && t == s.(emitted := s.emitted + [e]) && ClaimsOk(s.processed, s.emitted)
  }

  lemma {:induction false} AnnouncementPends(s: State, t: State, e: Event, f: Movement -> int)
    requires Announces(s, t, e)
    ensures Pending(t.emitted, t.processed, f) == Pending(s.emitted, s.processed, f)
  {
    assert MovementsOf(e) == [];
    PendingAppend(s.emitted, e, s.processed, f);
  }

  lemma {:induction false} AnnouncementAgrees(s: State, t: State, e: Event)
    requires Announces(s, t, e)
    requires SalesAgree(s) && PurchasesAgree(s)
    ensures SalesAgree(t) && PurchasesAgree(t)
  {
    forall ref | IsSalesLine(t.sales, ref)
      ensures IsSalesLine(s.sales, ref)
      ensures Pending(t.emitted, t.processed, ShippedFor(ref)) == Pending(s.emitted, s.processed, ShippedFor(ref))
    {
      AnnouncementPends(s, t, e, ShippedFor(ref));
    }
    assert MovementsOf(e) == [];
    EmitKeepsPurchases(s, t, e);
  }

  lemma {:induction false} AnnouncementTotals(s: State, t: State, e: Event)
    requires Announces(s, t, e)
    requires TotalsOk(s)
    ensures TotalsOk(t)
  {
    forall k: Key
      ensures Pending(t.emitted, t.processed, ShippedAt(k)) == Pending(s.emitted, s.processed, ShippedAt(k))
      ensures Pending(t.emitted, t.processed, ArrivedAt(k)) == Pending(s.emitted, s.processed, ArrivedAt(k))
    {
      AnnouncementPends(s, t, e, ShippedAt(k));
      AnnouncementPends(s, t, e, ArrivedAt(k));
    }
  }

  lemma {:induction false} AnnouncementEvents(s: State, t: State, e: Event)
    requires Announces(s, t, e) && EventsOk(s.emitted, s.sales, s.purchases)
    ensures EventsOk(t.emitted, t.sales, t.purchases)
  {
    assert MovementsOf(e) == [];
  }

  lemma {:induction false} CreateShipmentKeeps(origin: State, s: State, direction: Direction, forPo: Maybe<nat>, forSo: Maybe<nat>)
    requires Inv(origin, s) && CreateShipment(s, direction, forPo, forSo).Committed?
    ensures Inv(origin, CreateShipment(s, direction, forPo, forSo).state)
  {
    AnnouncementKeeps(origin, s, CreateShipment(s, direction, forPo, forSo).state, ShipmentCreated(forPo, forSo));
  }

  lemma {:induction false} AnnouncementKeeps(origin: State, s: State, t: State, e: Event)
    requires Inv(origin, s) && Announces(s, t, e)
    ensures Inv(origin, t)
  {
    AnnouncementEvents(s, t, e);
    AnnouncementAgrees(s, t, e);
    AnnouncementTotals(s, t, e);
    EmitKeepsBag(origin, s, t, e);
  }
}
