/** How long an order can live, which way its status can move, and what it leaves behind. */
module Lifetimes {
  import opened Sums
  import opened Tables
  import opened Protocol
  import opened Invariants
  import opened FulfillSteps
  import opened Theorems
  import SO = SalesOrderLifecycle
  import PO = PurchaseOrderLifecycle

  // ---------- A measure of what an order can still go through ----------

  ghost function LineToFulfill(): SalesLine -> int {
    (l: SalesLine) => l.ordered - l.fulfilled
  }

  ghost function LineOrdered(): SalesLine -> int {
    (l: SalesLine) => l.ordered
  }

  /** An upper bound on the changes still ahead of a sales order. */
  ghost function SalesLife(o: SalesOrder): int {
    match o.status
    case Draft => 2 + Sum(o.lines, LineToFulfill())
    case Confirmed => 1 + Sum(o.lines, LineToFulfill())
    case Allocated => Sum(o.lines, LineToFulfill())
    case PartiallyFulfilled => Sum(o.lines, LineToFulfill())
    case Fulfilled => 0
    case Cancelled => 0
  }

  ghost function LineToReceive(): PurchaseLine -> int {
    (l: PurchaseLine) => l.ordered - l.received
  }

  ghost function PurchaseLineOrdered(): PurchaseLine -> int {
    (l: PurchaseLine) => l.ordered
  }

  /** An upper bound on the changes still ahead of a purchase order. */
  ghost function PurchaseLife(p: PurchaseOrder): int {
    match p.status
    case Draft => 2 + Sum(p.lines, LineToReceive())
    case Approved => 1 + Sum(p.lines, LineToReceive())
    case Shipped => Sum(p.lines, LineToReceive())
    case PartiallyReceived => Sum(p.lines, LineToReceive())
    case Received => 0
    case Cancelled => 0
  }

  /** Smaller everywhere and strictly smaller somewhere makes a smaller sum. */
  lemma {:induction false} SumShrinks<T>(s: seq<T>, t: seq<T>, f: T -> int, i: nat)
    requires |s| == |t| && i < |s|
    requires forall j :: 0 <= j < |s| ==> f(t[j]) <= f(s[j])
    requires f(t[i]) < f(s[i])
    ensures Sum(t, f) < Sum(s, f)
  {
    var n := |s| - 1;
    if i < n {
      SumShrinks(s[..n], t[..n], f, i);
    } else {
      SumNotLarger(s[..n], t[..n], f);
    }
  }

  lemma {:induction false} SumNotLarger<T>(s: seq<T>, t: seq<T>, f: T -> int)
    requires |s| == |t|
    requires forall j :: 0 <= j < |s| ==> f(t[j]) <= f(s[j])
    ensures Sum(t, f) <= Sum(s, f)
  {
    if s != [] {
      SumNotLarger(s[..|s| - 1], t[..|t| - 1], f);
    }
  }

  /** An order that can still be acted on has life left. */
  lemma {:induction false} OpenSalesLife(o: SalesOrder)
    requires SalesOrderOk(o)
    ensures 0 <= SalesLife(o)
    ensures 0 < SalesLife(o) <==> !o.status.Fulfilled? && !o.status.Cancelled?
    ensures 0 <= Sum(o.lines, LineToFulfill())
  {
    forall l | 0 <= l < |o.lines| ensures 0 <= LineToFulfill()(o.lines[l]) {
      assert SalesLineOk(o.status, o.lines[l]);
    }
    SumNonNegative(o.lines, LineToFulfill());
    if o.status.Allocated? {
      assert SalesLineOk(o.status, o.lines[0]);
      SumAtLeastRow(o.lines, 0, LineToFulfill());
    } else if o.status.PartiallyFulfilled? {
      var l :| 0 <= l < |o.lines| && o.lines[l].fulfilled < o.lines[l].ordered;
      SumAtLeastRow(o.lines, l, LineToFulfill());
    }
  }

  lemma {:induction false} OpenPurchaseLife(p: PurchaseOrder)
    requires PurchaseOrderOk(p)
    ensures 0 <= PurchaseLife(p)
    ensures 0 < PurchaseLife(p) <==> !p.status.Received? && !p.status.Cancelled?
    ensures 0 <= Sum(p.lines, LineToReceive())
  {
    forall l | 0 <= l < |p.lines| ensures 0 <= LineToReceive()(p.lines[l]) {
      assert PurchaseLineOk(p.status, p.lines[l]);
    }
    SumNonNegative(p.lines, LineToReceive());
    if p.status.Shipped? {
      assert PurchaseLineOk(p.status, p.lines[0]);
      SumAtLeastRow(p.lines, 0, LineToReceive());
    } else if p.status.PartiallyReceived? {
      var l :| 0 <= l < |p.lines| && p.lines[l].received < p.lines[l].ordered;
      SumAtLeastRow(p.lines, l, LineToReceive());
    }
  }

  // ---------- One change shortens a life and follows the transition table ----------

  /** The edges of the transition table, and a further part of a partial fulfilment. */
  ghost predicate SalesEdge(a: SO.Status, b: SO.Status) {
    match a
    case Draft => b.Confirmed? || b.Cancelled?
    case Confirmed => b.Allocated? || b.Cancelled?
    case Allocated => b.PartiallyFulfilled? || b.Fulfilled? || b.Cancelled?
    case PartiallyFulfilled => b.PartiallyFulfilled? || b.Fulfilled? || b.Cancelled?
    case _ => false
  }

  ghost predicate PurchaseEdge(a: PO.Status, b: PO.Status) {
    match a
    case Draft => b.Approved? || b.Cancelled?
    case Approved => b.Shipped? || b.Cancelled?
    case Shipped => b.PartiallyReceived? || b.Received? || b.Cancelled?
    case PartiallyReceived => b.PartiallyReceived? || b.Received? || b.Cancelled?
    case _ => false
  }

  lemma {:induction false} FulfillShortensLife(order: SalesOrder, requests: seq<Request>)
    requires SalesOrderOk(order) && order.status in SO.FULFILLABLE
    requires requests != [] && FulfillAccepts(order.lines, requests)
    ensures var lines := FulfillLines(order.lines, requests);
            Sum(lines, LineToFulfill()) < Sum(order.lines, LineToFulfill())
  {
    var lines := FulfillLines(order.lines, requests);
    forall l | 0 <= l < |lines| ensures LineToFulfill()(lines[l]) <= LineToFulfill()(order.lines[l]) {
      AcceptedFits(order.lines, requests, l);
    }
    assert !FulfillFailsAt(order.lines, requests, 0);
    SumAtLeastRow(requests, 0, QtyOn(requests[0].line));
    SumShrinks(order.lines, lines, LineToFulfill(), requests[0].line);
  }

  lemma {:induction false} ReceiveShortensLife(po: PurchaseOrder, requests: seq<Request>)
    requires requests != [] && ReceiveAccepts(po.lines, requests)
    ensures var lines := ReceiveLines(po.lines, requests);
            Sum(lines, LineToReceive()) < Sum(po.lines, LineToReceive())
  {
    var lines := ReceiveLines(po.lines, requests);
    forall l | 0 <= l < |lines| ensures LineToReceive()(lines[l]) <= LineToReceive()(po.lines[l]) {
      SumNonNegative(requests, QtyOn(l));
    }
    assert !ReceiveFailsAt(po.lines, requests, 0);
    SumAtLeastRow(requests, 0, QtyOn(requests[0].line));
    SumShrinks(po.lines, lines, LineToReceive(), requests[0].line);
  }

  lemma {:induction false} ReservingKeepsToFulfill(lines: seq<SalesLine>)
    ensures Sum(ReserveLines(lines), LineToFulfill()) == Sum(lines, LineToFulfill())
  {
    SumSame(ReserveLines(lines), LineToFulfill(), lines, LineToFulfill());
  }

  /** What the ordered quantities add up to; no operation changes it. */
  ghost function SalesSize(o: SalesOrder): int {
    Sum(o.lines, LineOrdered())
  }

  ghost function PurchaseSize(p: PurchaseOrder): int {
    Sum(p.lines, PurchaseLineOrdered())
  }

  /** The transaction a step attempts on sales order `o`, if any. */
  ghost predicate ActsOnSales(step: Step, o: nat) {
    match step
    case StepConfirm(x) => x == o
    case StepAllocate(x) => x == o
    case StepCancelSales(x) => x == o
    case StepFulfill(x, _) => x == o
    case _ => false
  }

  ghost predicate ActsOnPurchase(step: Step, p: nat) {
    match step
    case StepApprove(x) => x == p
    case StepCancelPurchase(x) => x == p
    case StepReceive(x, _) => x == p
    case _ => false
  }

  /** From `a` to `b` the status moved along the table, the life got shorter, and the size stayed. */
  ghost predicate SalesMoved(a: SalesOrder, b: SalesOrder) {
    SalesEdge(a.status, b.status) && SalesLife(b) < SalesLife(a) && SalesSize(b) == SalesSize(a)
  }

  ghost predicate PurchaseMoved(a: PurchaseOrder, b: PurchaseOrder) {
    PurchaseEdge(a.status, b.status) && PurchaseLife(b) < PurchaseLife(a) && PurchaseSize(b) == PurchaseSize(a)
  }

  lemma {:induction false} ConfirmedMoved(order: SalesOrder)
    requires SalesOrderOk(order) && order.status.Draft?
    ensures SalesMoved(order, order.(status := SO.Confirmed))
  {
    OpenSalesLife(order);
  }

  lemma {:induction false} AllocatedMoved(order: SalesOrder)
    requires SalesOrderOk(order) && order.status.Confirmed?
    ensures SalesMoved(order, order.(status := SO.Allocated, lines := ReserveLines(order.lines)))
  {
    OpenSalesLife(order);
    ReservingKeepsToFulfill(order.lines);
    SumSame(ReserveLines(order.lines), LineOrdered(), order.lines, LineOrdered());
  }

  lemma {:induction false} CancelledMoved(order: SalesOrder, lines: seq<SalesLine>)
    requires SalesOrderOk(order) && SO.CanMove(order.status, SO.Cancelled)
    requires lines == order.lines || lines == UnreserveLines(order.lines)
    ensures SalesMoved(order, order.(status := SO.Cancelled, lines := lines))
  {
    OpenSalesLife(order);
    SumSame(lines, LineOrdered(), order.lines, LineOrdered());
  }

  lemma {:induction false} FulfilledMoved(order: SalesOrder, requests: seq<Request>)
    requires SalesOrderOk(order) && order.status in SO.FULFILLABLE
    requires requests != [] && FulfillAccepts(order.lines, requests)
    ensures var lines := FulfillLines(order.lines, requests);
            SalesMoved(order, order.(status := if AllFulfilled(lines) then SO.Fulfilled else SO.PartiallyFulfilled, lines := lines))
  {
    OpenSalesLife(order);
    FulfillShortensLife(order, requests);
    SumSame(FulfillLines(order.lines, requests), LineOrdered(), order.lines, LineOrdered());
  }

  /** The order's own operations, one lemma for each. */
  lemma {:induction false} OperationMovesSales(s: State, step: Step, o: nat)
    requires o < |s.sales| && SalesOrderOk(s.sales[o]) && Orderly(s, step)
    requires ActsOnSales(step, o) && Attempt(s, step).Committed?
    ensures var t := After(s, step);
            o < |t.sales| && SalesMoved(s.sales[o], t.sales[o])
  {
    var order := s.sales[o];
    match step
    case StepConfirm(_) => ConfirmedMoved(order);
    case StepAllocate(_) => AllocatedMoved(order);
    case StepCancelSales(_) => CancelledMoved(order, After(s, step).sales[o].lines);
    case StepFulfill(_, requests) => FulfilledMoved(order, requests);
  }

  /** All other steps, deliveries included, leave a sales order alone. */
  lemma {:induction false} OthersLeaveSales(s: State, step: Step, o: nat)
    requires o < |s.sales| && !(ActsOnSales(step, o) && Attempt(s, step).Committed?)
    ensures var t := After(s, step);
            o < |t.sales| && t.sales[o] == s.sales[o]
  {
  }

  /**
   * A step leaves a sales order as it was, or moves its status along the transition table and
   * shortens its life; a committed operation on the order always does the latter.
   */
  lemma {:induction false} SalesOrderMoves(s: State, step: Step, o: nat)
    requires SalesOk(s.sales) && Orderly(s, step) && o < |s.sales|
    ensures var t := After(s, step);
            && o < |t.sales|
            && (t.sales[o] == s.sales[o]
                || (SalesEdge(s.sales[o].status, t.sales[o].status) && SalesLife(t.sales[o]) < SalesLife(s.sales[o])))
            && (ActsOnSales(step, o) && Attempt(s, step).Committed? ==> SalesLife(t.sales[o]) < SalesLife(s.sales[o]))
            && SalesSize(t.sales[o]) == SalesSize(s.sales[o])
  {
    if ActsOnSales(step, o) && Attempt(s, step).Committed? {
      OperationMovesSales(s, step, o);
    } else {
      OthersLeaveSales(s, step, o);
    }
  }

  lemma {:induction false} RestatusedMoved(po: PurchaseOrder, target: PO.Status)
    requires PurchaseOrderOk(po) && PO.CanMove(po.status, target) && (target.Approved? || target.Shipped? || target.Cancelled?)
    ensures PurchaseMoved(po, po.(status := target))
  {
    OpenPurchaseLife(po);
  }

  lemma {:induction false} ReceivedMoved(po: PurchaseOrder, requests: seq<Request>)
    requires PurchaseOrderOk(po) && po.status in PO.RECEIVABLE
    requires requests != [] && ReceiveAccepts(po.lines, requests)
    ensures var lines := ReceiveLines(po.lines, requests);
            PurchaseMoved(po, po.(status := if AllReceived(lines) then PO.Received else PO.PartiallyReceived, lines := lines))
  {
    OpenPurchaseLife(po);
    ReceiveShortensLife(po, requests);
    SumSame(ReceiveLines(po.lines, requests), PurchaseLineOrdered(), po.lines, PurchaseLineOrdered());
  }

  lemma {:induction false} OperationMovesPurchase(s: State, step: Step, p: nat)
    requires p < |s.purchases| && PurchaseOrderOk(s.purchases[p]) && Orderly(s, step)
    requires ActsOnPurchase(step, p) && Attempt(s, step).Committed?
    ensures var t := After(s, step);
            p < |t.purchases| && PurchaseMoved(s.purchases[p], t.purchases[p])
  {
    var po := s.purchases[p];
    match step
    case StepApprove(_) => RestatusedMoved(po, PO.Approved);
    case StepCancelPurchase(_) => RestatusedMoved(po, PO.Cancelled);
    case StepReceive(_, requests) => ReceivedMoved(po, requests);
  }

  /** A delivery ships an approved order or leaves it alone. */
  lemma {:induction false} DeliveryMovesPurchase(s: State, id: nat, p: nat)
    requires p < |s.purchases| && PurchaseOrderOk(s.purchases[p])
    ensures var t := Deliver(s, id);
            p < |t.purchases| && (t.purchases[p] == s.purchases[p] || PurchaseMoved(s.purchases[p], t.purchases[p]))
  {
    if s.purchases[p].status.Approved? {
      RestatusedMoved(s.purchases[p], PO.Shipped);
    }
  }

  lemma {:induction false} OthersLeavePurchase(s: State, step: Step, p: nat)
    requires p < |s.purchases| && !(ActsOnPurchase(step, p) && Attempt(s, step).Committed?) && !step.StepDeliver?
    ensures var t := After(s, step);
            p < |t.purchases| && t.purchases[p] == s.purchases[p]
  {
  }

  lemma {:induction false} PurchaseOrderMoves(s: State, step: Step, p: nat)
    requires PurchasesOk(s.purchases) && Orderly(s, step) && p < |s.purchases|
    ensures var t := After(s, step);
            && p < |t.purchases|
            && (t.purchases[p] == s.purchases[p]
                || (PurchaseEdge(s.purchases[p].status, t.purchases[p].status)
                    && PurchaseLife(t.purchases[p]) < PurchaseLife(s.purchases[p])))
            && (ActsOnPurchase(step, p) && Attempt(s, step).Committed? ==> PurchaseLife(t.purchases[p]) < PurchaseLife(s.purchases[p]))
            && PurchaseSize(t.purchases[p]) == PurchaseSize(s.purchases[p])
  {
    assert PurchaseOrderOk(s.purchases[p]);
    if ActsOnPurchase(step, p) && Attempt(s, step).Committed? {
      OperationMovesPurchase(s, step, p);
    } else if step.StepDeliver? {
      DeliveryMovesPurchase(s, step.id, p);
    } else {
      OthersLeavePurchase(s, step, p);
    }
  }

  // ---------- Bounded lives ----------

  /** How often sales order `o` changed in a run. */
  ghost function SalesChanges(s: State, steps: seq<Step>, o: nat): nat {
    if steps == [] then 0
    else
      var n := |steps| - 1;
      var a := Run(s, steps[..n]);
      var b := After(a, steps[n]);
      SalesChanges(s, steps[..n], o) + if o < |a.sales| && o < |b.sales| && b.sales[o] != a.sales[o] then 1 else 0
  }

  ghost function PurchaseChanges(s: State, steps: seq<Step>, p: nat): nat {
    if steps == [] then 0
    else
      var n := |steps| - 1;
      var a := Run(s, steps[..n]);
      var b := After(a, steps[n]);
      PurchaseChanges(s, steps[..n], p) + if p < |a.purchases| && p < |b.purchases| && b.purchases[p] != a.purchases[p] then 1 else 0
  }

  /** How many operations on sales order `o` committed in a run. */
  ghost function SalesOperations(s: State, steps: seq<Step>, o: nat): nat {
    if steps == [] then 0
    else
      var n := |steps| - 1;
      SalesOperations(s, steps[..n], o) + if ActsOnSales(steps[n], o) && Attempt(Run(s, steps[..n]), steps[n]).Committed? then 1 else 0
  }

  ghost function PurchaseOperations(s: State, steps: seq<Step>, p: nat): nat {
    if steps == [] then 0
    else
      var n := |steps| - 1;
      PurchaseOperations(s, steps[..n], p) + if ActsOnPurchase(steps[n], p) && Attempt(Run(s, steps[..n]), steps[n]).Committed? then 1 else 0
  }

  /** A committed operation on an order changes it. */
  lemma {:induction false} OperationChanges(a: State, step: Step, o: nat)
    requires SalesOk(a.sales) && PurchasesOk(a.purchases) && Orderly(a, step) && Attempt(a, step).Committed?
    ensures var b := After(a, step);
            && (ActsOnSales(step, o) ==> o < |a.sales| && o < |b.sales| && b.sales[o] != a.sales[o])
            && (ActsOnPurchase(step, o) ==> o < |a.purchases| && o < |b.purchases| && b.purchases[o] != a.purchases[o])
  {
    if ActsOnSales(step, o) {
      SalesOrderMoves(a, step, o);
    }
    if ActsOnPurchase(step, o) {
      PurchaseOrderMoves(a, step, o);
    }
  }

  lemma {:induction false} OperationsAreChanges(stock: map<Key, StockLevel>, ledger: seq<Movement>, steps: seq<Step>, o: nat)
    requires SoundOpening(stock, ledger) && OrderlyRun(Start(stock, ledger), steps)
    ensures SalesOperations(Start(stock, ledger), steps, o) <= SalesChanges(Start(stock, ledger), steps, o)
    ensures PurchaseOperations(Start(stock, ledger), steps, o) <= PurchaseChanges(Start(stock, ledger), steps, o)
  {
    if steps != [] {
      var n := |steps| - 1;
      var origin := Start(stock, ledger);
      var a := Run(origin, steps[..n]);
      OperationsAreChanges(stock, ledger, steps[..n], o);
      RunKeeps(stock, ledger, steps[..n]);
      SalesOkOf(origin, a);
      if Attempt(a, steps[n]).Committed? {
        OperationChanges(a, steps[n], o);
      }
    }
  }

  lemma {:induction false} NewSalesLife(warehouse: nat, items: seq<Item>)
    ensures var o := SalesOrder(SO.Draft, warehouse, NewSalesLines(items));
            SalesLife(o) == 2 + SalesSize(o)
  {
    SumSame(NewSalesLines(items), LineToFulfill(), NewSalesLines(items), LineOrdered());
  }

  lemma {:induction false} NewPurchaseLife(warehouse: nat, items: seq<Item>)
    ensures var p := PurchaseOrder(PO.Draft, warehouse, NewPurchaseLines(items));
            PurchaseLife(p) == 2 + PurchaseSize(p)
  {
    SumSame(NewPurchaseLines(items), LineToReceive(), NewPurchaseLines(items), PurchaseLineOrdered());
  }

  lemma {:induction false} SalesOkOf(origin: State, s: State)
    requires Inv(origin, s)
    ensures SalesOk(s.sales) && PurchasesOk(s.purchases)
  {
  }

  /** Changes made and life left of a sales order never add up to more than two plus its ordered quantity. */
  lemma {:induction false} SalesLifeBound(stock: map<Key, StockLevel>, ledger: seq<Movement>, steps: seq<Step>, o: nat)
    requires SoundOpening(stock, ledger) && OrderlyRun(Start(stock, ledger), steps)
    ensures var s := Run(Start(stock, ledger), steps);
            var changes := SalesChanges(Start(stock, ledger), steps, o);
            if o < |s.sales| then changes + SalesLife(s.sales[o]) <= 2 + SalesSize(s.sales[o]) else changes == 0
  {
    if steps != [] {
      var n := |steps| - 1;
      var origin := Start(stock, ledger);
      var a := Run(origin, steps[..n]);
      RunKeeps(stock, ledger, steps[..n]);
      SalesOkOf(origin, a);
      SalesLifeBound(stock, ledger, steps[..n], o);
      SalesLifeStep(a, steps[n], o);
    }
  }

  lemma {:induction false} SalesLifeStep(a: State, step: Step, o: nat)
    requires SalesOk(a.sales) && Orderly(a, step)
    ensures var b := After(a, step);
            && (o < |a.sales| ==>
                  && o < |b.sales|
                  && SalesSize(b.sales[o]) == SalesSize(a.sales[o])
                  && (b.sales[o] != a.sales[o] ==> SalesLife(b.sales[o]) < SalesLife(a.sales[o])))
            && (|a.sales| <= o < |b.sales| ==> SalesLife(b.sales[o]) == 2 + SalesSize(b.sales[o]))
  {
    if o < |a.sales| {
      SalesOrderMoves(a, step, o);
    } else if step.StepCreateSales? {
      NewSalesLife(step.warehouse, step.items);
    }
  }

  lemma {:induction false} PurchaseLifeBound(stock: map<Key, StockLevel>, ledger: seq<Movement>, steps: seq<Step>, p: nat)
    requires SoundOpening(stock, ledger) && OrderlyRun(Start(stock, ledger), steps)
    ensures var s := Run(Start(stock, ledger), steps);
            var changes := PurchaseChanges(Start(stock, ledger), steps, p);
            if p < |s.purchases| then changes + PurchaseLife(s.purchases[p]) <= 2 + PurchaseSize(s.purchases[p]) else changes == 0
  {
    if steps != [] {
      var n := |steps| - 1;
      var origin := Start(stock, ledger);
      var a := Run(origin, steps[..n]);
      RunKeeps(stock, ledger, steps[..n]);
      SalesOkOf(origin, a);
      PurchaseLifeBound(stock, ledger, steps[..n], p);
      PurchaseLifeStep(a, steps[n], p);
    }
  }

  lemma {:induction false} PurchaseLifeStep(a: State, step: Step, p: nat)
    requires PurchasesOk(a.purchases) && Orderly(a, step)
    ensures var b := After(a, step);
            && (p < |a.purchases| ==>
                  && p < |b.purchases|
                  && PurchaseSize(b.purchases[p]) == PurchaseSize(a.purchases[p])
                  && (b.purchases[p] != a.purchases[p] ==> PurchaseLife(b.purchases[p]) < PurchaseLife(a.purchases[p])))
            && (|a.purchases| <= p < |b.purchases| ==> PurchaseLife(b.purchases[p]) == 2 + PurchaseSize(b.purchases[p]))
  {
    if p < |a.purchases| {
      PurchaseOrderMoves(a, step, p);
    } else if step.StepCreatePurchase? {
      NewPurchaseLife(step.warehouse, step.items);
    }
  }

  /**
   * Bounded lives: over a whole run, no order changes - by operations or by events, however often
   * these are delivered - more often than two plus what it ordered; so no more than that many
   * operations on it ever commit.
   */
  lemma {:induction false} BoundedLives(stock: map<Key, StockLevel>, ledger: seq<Movement>, steps: seq<Step>, o: nat)
    requires SoundOpening(stock, ledger) && OrderlyRun(Start(stock, ledger), steps)
    ensures var origin := Start(stock, ledger);
            var s := Run(origin, steps);
            && (o < |s.sales| ==> SalesOperations(origin, steps, o) <= SalesChanges(origin, steps, o) <= 2 + SalesSize(s.sales[o]))
            && (o < |s.purchases| ==>
                  PurchaseOperations(origin, steps, o) <= PurchaseChanges(origin, steps, o) <= 2 + PurchaseSize(s.purchases[o]))
  {
    var s := Run(Start(stock, ledger), steps);
    RunKeeps(stock, ledger, steps);
    SalesOkOf(Start(stock, ledger), s);
    SalesLifeBound(stock, ledger, steps, o);
    PurchaseLifeBound(stock, ledger, steps, o);
    OperationsAreChanges(stock, ledger, steps, o);
    if o < |s.sales| {
      OpenSalesLife(s.sales[o]);
    }
    if o < |s.purchases| {
      OpenPurchaseLife(s.purchases[o]);
    }
  }
}
