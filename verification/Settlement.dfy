/**
 * What one sales order leaves behind when it is over: whether it was fulfilled or cancelled half
 * way, stock has lost exactly what was fulfilled and nothing stays reserved for it.
 */
module Settlement {
  import opened Sums
  import opened Tables
  import opened Protocol
  import opened Invariants
  import opened SalesSteps
  import opened FulfillSteps
  import opened DeliverySteps
  import opened Theorems

  /** The step belongs to sales order `o`: an operation on it, or a delivery of one of its fulfilments. */
  ghost predicate About(s: State, step: Step, o: nat) {
    match step
    case StepConfirm(x) => x == o
    case StepAllocate(x) => x == o
    case StepCancelSales(x) => x == o
    case StepFulfill(x, _) => x == o
    case StepDeliver(id) => id < |s.emitted| && s.emitted[id].SalesOrderFulfilled? && s.emitted[id].so == o
    case _ => false
  }

  ghost predicate AboutRun(s: State, steps: seq<Step>, o: nat) {
    steps == []
    || (AboutRun(s, steps[..|steps| - 1], o) && About(Run(s, steps[..|steps| - 1]), steps[|steps| - 1], o))
  }

  /** Shipments of other orders. */
  ghost function ShippedByOthers(o: nat, k: Key): Movement -> int {
    (m: Movement) => if m.source.Fulfillment? && m.source.soLine.order != o && m.key == k then -m.delta else 0
  }

  ghost function ShippedBy(o: nat, k: Key): Movement -> int {
    (m: Movement) => if m.source.Fulfillment? && m.source.soLine.order == o && m.key == k then -m.delta else 0
  }

  /** The reservations of all other orders, in table order. */
  ghost function OthersRows(rows: seq<Reservation>, o: nat): seq<Reservation> {
    if rows == [] then []
    else
      var n := |rows| - 1;
      if rows[n].ref.order == o then OthersRows(rows[..n], o) else OthersRows(rows[..n], o) + [rows[n]]
  }

  // ---------- Other orders' reservations ----------

  lemma {:induction false} OthersConcat(a: seq<Reservation>, b: seq<Reservation>, o: nat)
    requires forall i :: 0 <= i < |b| ==> b[i].ref.order == o
    ensures OthersRows(a + b, o) == OthersRows(a, o)
  {
    if b == [] {
      assert a + b == a;
    } else {
      var n := |b| - 1;
      assert (a + b)[..|a + b| - 1] == a + b[..n];
      OthersConcat(a, b[..n], o);
    }
  }

  /** Rewriting the rows of one order in place leaves the others as they are. */
  lemma {:induction false} OthersUntouched(a: seq<Reservation>, b: seq<Reservation>, o: nat)
    requires SameSlots(a, b)
    requires forall i :: 0 <= i < |a| && a[i].ref.order != o ==> b[i] == a[i]
    ensures OthersRows(b, o) == OthersRows(a, o)
  {
    if a != [] {
      var n := |a| - 1;
      OthersUntouched(a[..n], b[..n], o);
    }
  }

  // ---------- What a run about one order leaves alone ----------

  /** Everything a run about order `o` must not touch. */
  ghost predicate OthersSame(s: State, t: State, o: nat) {
    && |t.sales| == |s.sales|
    && (forall x :: 0 <= x < |s.sales| && x != o ==> t.sales[x] == s.sales[x])
    && t.purchases == s.purchases
    && t.receipts == s.receipts
    && t.stock.Keys == s.stock.Keys
    && OthersRows(t.reservations, o) == OthersRows(s.reservations, o)
    && (forall k: Key ::
          && Pending(t.emitted, t.processed, ArrivedAt(k)) == Pending(s.emitted, s.processed, ArrivedAt(k))
          && Pending(t.emitted, t.processed, ShippedByOthers(o, k)) == Pending(s.emitted, s.processed, ShippedByOthers(o, k)))
  }

  lemma {:induction false} OwnEventWeighsNothing(e: Event, o: nat, k: Key)
    requires e.SalesOrderFulfilled? && e.so == o
    ensures Sum(MovementsOf(e), ArrivedAt(k)) == 0 && Sum(MovementsOf(e), ShippedByOthers(o, k)) == 0
  {
    SumZero(MovementsOf(e), ArrivedAt(k));
    SumZero(MovementsOf(e), ShippedByOthers(o, k));
  }

  lemma {:induction false} FulfillLeavesOthers(s: State, o: nat, requests: seq<Request>)
    requires Fulfill(s, o, requests).Committed? && ClaimsOk(s.processed, s.emitted)
    ensures OthersSame(s, Fulfill(s, o, requests).state, o)
  {
    var t := Fulfill(s, o, requests).state;
    var e := FulfillmentEvent(o, s.sales[o], requests);
    forall k: Key
      ensures Pending(t.emitted, t.processed, ArrivedAt(k)) == Pending(s.emitted, s.processed, ArrivedAt(k))
      ensures Pending(t.emitted, t.processed, ShippedByOthers(o, k)) == Pending(s.emitted, s.processed, ShippedByOthers(o, k))
    {
      PendingAppend(s.emitted, e, s.processed, ArrivedAt(k));
      PendingAppend(s.emitted, e, s.processed, ShippedByOthers(o, k));
      OwnEventWeighsNothing(e, o, k);
    }
  }

  lemma {:induction false} DeliverLeavesOthers(s: State, o: nat, id: nat)
    requires DeliversFulfillment(s, id) && s.emitted[id].so == o
    ensures OthersSame(s, Deliver(s, id), o)
  {
    var t := Deliver(s, id);
    var ms := MovementsOf(s.emitted[id]);
    forall k: Key
      ensures Pending(t.emitted, t.processed, ArrivedAt(k)) == Pending(s.emitted, s.processed, ArrivedAt(k))
      ensures Pending(t.emitted, t.processed, ShippedByOthers(o, k)) == Pending(s.emitted, s.processed, ShippedByOthers(o, k))
    {
      PendingClaim(s.emitted, s.processed, id, ArrivedAt(k));
      PendingClaim(s.emitted, s.processed, id, ShippedByOthers(o, k));
      OwnEventWeighsNothing(s.emitted[id], o, k);
    }
    forall i | 0 <= i < |s.reservations| && s.reservations[i].ref.order != o ensures t.reservations[i] == s.reservations[i] {
      SumZero(ms, ShippedFor(s.reservations[i].ref));
    }
    OthersUntouched(s.reservations, t.reservations, o);
  }

  lemma {:induction false} AllocateLeavesOthers(s: State, o: nat)
    requires Allocate(s, o).Committed?
    ensures OthersSame(s, Allocate(s, o).state, o)
  {
    var order := s.sales[o];
    OthersConcat(s.reservations, NewReservations(o, order.warehouse, SortedByProduct(Listing(order.lines))), o);
  }

  lemma {:induction false} CancelLeavesOthers(s: State, o: nat)
    requires CancelSalesOrder(s, o).Committed?
    ensures OthersSame(s, CancelSalesOrder(s, o).state, o)
  {
    var t := CancelSalesOrder(s, o).state;
    OthersUntouched(s.reservations, t.reservations, o);
  }

  lemma {:induction false} StepLeavesOthers(s: State, step: Step, o: nat)
    requires ClaimsOk(s.processed, s.emitted) && About(s, step, o)
    ensures OthersSame(s, After(s, step), o)
  {
    if Attempt(s, step).Committed? {
      match step
      case StepConfirm(_) =>
      case StepAllocate(_) => AllocateLeavesOthers(s, o);
      case StepCancelSales(_) => CancelLeavesOthers(s, o);
      case StepFulfill(_, requests) => FulfillLeavesOthers(s, o, requests);
      case StepDeliver(id) =>
        if id !in s.processed {
          DeliverLeavesOthers(s, o, id);
        }
    }
  }

  lemma {:induction false} RunLeavesOthers(origin: State, s: State, steps: seq<Step>, o: nat)
    requires Inv(origin, s) && OrderlyRun(s, steps) && AboutRun(s, steps, o)
    ensures OthersSame(s, Run(s, steps), o)
  {
    if steps != [] {
      var n := |steps| - 1;
      var m := Run(s, steps[..n]);
      RunLeavesOthers(origin, s, steps[..n], o);
      RunKeepsFrom(origin, s, steps[..n]);
      ClaimsOf(origin, m);
      StepLeavesOthers(m, steps[n], o);
    }
  }

  lemma {:induction false} ClaimsOf(origin: State, s: State)
    requires Inv(origin, s)
    ensures ClaimsOk(s.processed, s.emitted) && TotalsOk(s) && SalesOk(s.sales) && EventsOk(s.emitted, s.sales, s.purchases)
  {
  }

  // ---------- An order that is over ----------

  /** The order can change no more, and all its fulfilments are posted. */
  ghost predicate Over(s: State, o: nat) {
    && o < |s.sales|
    && (s.sales[o].status.Fulfilled? || s.sales[o].status.Cancelled?)
    && !FulfillmentInFlight(s, o)
  }

  lemma {:induction false} OverReservesNothing(order: SalesOrder, k: Key)
    requires SalesOrderOk(order) && (order.status.Fulfilled? || order.status.Cancelled?)
    ensures ReservedAt(k)(order) == 0
  {
    forall l | 0 <= l < |order.lines| ensures order.lines[l].reserved == 0 {
      assert SalesLineOk(order.status, order.lines[l]);
    }
    SumZero(order.lines, LineReservedAt(order.warehouse, k));
  }

  lemma {:induction false} UnstartedHoldsNothing(order: SalesOrder, k: Key)
    requires SalesOrderOk(order) && !Started(order.status)
    ensures ReservedAt(k)(order) == 0 && FulfilledAt(k)(order) == 0
  {
    forall l | 0 <= l < |order.lines| ensures order.lines[l].reserved == 0 && order.lines[l].fulfilled == 0 {
      assert SalesLineOk(order.status, order.lines[l]);
    }
    SumZero(order.lines, LineReservedAt(order.warehouse, k));
    SumZero(order.lines, LineFulfilledAt(order.warehouse, k));
  }

  lemma {:induction false} SettledShipsNothing(s: State, o: nat, k: Key)
    requires !FulfillmentInFlight(s, o)
    ensures Pending(s.emitted, s.processed, ShippedBy(o, k)) == 0
  {
    forall e | 0 <= e < |s.emitted| && e !in s.processed ensures Sum(MovementsOf(s.emitted[e]), ShippedBy(o, k)) == 0 {
      SumZero(MovementsOf(s.emitted[e]), ShippedBy(o, k));
    }
    PendingZero(s.emitted, s.processed, ShippedBy(o, k));
  }

  lemma {:induction false} UnstartedShipsNothing(s: State, o: nat, k: Key)
    requires EventsOk(s.emitted, s.sales, s.purchases) && o < |s.sales| && !Started(s.sales[o].status)
    ensures Pending(s.emitted, s.processed, ShippedBy(o, k)) == 0
  {
    forall e | 0 <= e < |s.emitted| ensures Sum(MovementsOf(s.emitted[e]), ShippedBy(o, k)) == 0 {
      var ms := MovementsOf(s.emitted[e]);
      forall i | 0 <= i < |ms| ensures ShippedBy(o, k)(ms[i]) == 0 {
        assert MovementOk(ms[i], s.sales, s.purchases);
      }
      SumZero(ms, ShippedBy(o, k));
    }
    PendingZero(s.emitted, s.processed, ShippedBy(o, k));
  }

  lemma {:induction false} PendingOfOthers(s: State, o: nat, k: Key)
    requires Pending(s.emitted, s.processed, ShippedBy(o, k)) == 0
    ensures Pending(s.emitted, s.processed, ShippedAt(k)) == Pending(s.emitted, s.processed, ShippedByOthers(o, k))
  {
    PendingSplit(s.emitted, s.processed, ShippedAt(k), ShippedByOthers(o, k), ShippedBy(o, k));
  }

  /** Replacing one order of the table changes the table's totals by that order. */
  lemma {:induction false} TotalsDiffer(a: seq<SalesOrder>, b: seq<SalesOrder>, o: nat, k: Key)
    requires |a| == |b| && o < |a| && forall x :: 0 <= x < |a| && x != o ==> b[x] == a[x]
    ensures Sum(b, FulfilledAt(k)) == Sum(a, FulfilledAt(k)) - FulfilledAt(k)(a[o]) + FulfilledAt(k)(b[o])
    ensures Sum(b, ReservedAt(k)) == Sum(a, ReservedAt(k)) - ReservedAt(k)(a[o]) + ReservedAt(k)(b[o])
  {
    assert b == a[o := b[o]];
    TotalsOfUpdate(a, o, b[o], k);
  }

  lemma {:induction false} SettledReserved(s: State, t: State, o: nat, k: Key)
    requires TotalsOk(s) && TotalsOk(t) && SalesOk(s.sales) && SalesOk(t.sales)
    requires EventsOk(s.emitted, s.sales, s.purchases)
    requires o < |s.sales| && !Started(s.sales[o].status)
    requires OthersSame(s, t, o) && Over(t, o)
    ensures ReservedIn(t.stock, k) == ReservedIn(s.stock, k)
    ensures Sum(t.sales, FulfilledAt(k)) == Sum(s.sales, FulfilledAt(k)) + FulfilledAt(k)(t.sales[o])
    ensures Pending(t.emitted, t.processed, ShippedAt(k)) == Pending(s.emitted, s.processed, ShippedAt(k))
  {
    TotalsDiffer(s.sales, t.sales, o, k);
    UnstartedHoldsNothing(s.sales[o], k);
    OverReservesNothing(t.sales[o], k);
    UnstartedShipsNothing(s, o, k);
    SettledShipsNothing(t, o, k);
    PendingOfOthers(s, o, k);
    PendingOfOthers(t, o, k);
  }

  /** The stock that is left when `order` has taken what it fulfilled. */
  ghost function Withdraw(stock: map<Key, StockLevel>, order: SalesOrder): map<Key, StockLevel> {
    map k | k in stock :: stock[k].(onHand := stock[k].onHand - FulfilledAt(k)(order))
  }

  /** `OnHandFromOrders` as an equation the row-by-row argument can use by name. */
  ghost predicate OnHandAccounted(origin: State, s: State, k: Key) {
    OnHandIn(s.stock, k)
    == Sum(origin.movements, DeltaAt(k)) + Sum(s.purchases, ReceivedAt(k)) - Sum(s.sales, FulfilledAt(k))
       - Pending(s.emitted, s.processed, ArrivedAt(k)) + Pending(s.emitted, s.processed, ShippedAt(k))
  }

  lemma {:induction false} SettledRow(origin: State, s: State, t: State, o: nat, k: Key)
    requires OnHandAccounted(origin, s, k) && OnHandAccounted(origin, t, k)
    requires TotalsOk(s) && TotalsOk(t) && SalesOk(s.sales) && SalesOk(t.sales)
    requires EventsOk(s.emitted, s.sales, s.purchases)
    requires o < |s.sales| && !Started(s.sales[o].status)
    requires OthersSame(s, t, o) && Over(t, o)
    ensures OnHandIn(t.stock, k) == OnHandIn(s.stock, k) - FulfilledAt(k)(t.sales[o])
    ensures ReservedIn(t.stock, k) == ReservedIn(s.stock, k)
  {
    SettledReserved(s, t, o, k);
  }

  /** What one key keeps after order `o` is over. */
  lemma {:induction false} SettlesKey(origin: State, s: State, t: State, o: nat, k: Key)
    requires Inv(origin, s) && Inv(origin, t)
    requires o < |s.sales| && !Started(s.sales[o].status)
    requires OthersSame(s, t, o) && Over(t, o)
    ensures OnHandIn(t.stock, k) == OnHandIn(s.stock, k) - FulfilledAt(k)(t.sales[o])
    ensures ReservedIn(t.stock, k) == ReservedIn(s.stock, k)
  {
    OnHandFromOrders(origin, s, k);
    OnHandFromOrders(origin, t, k);
    ClaimsOf(origin, s);
    ClaimsOf(origin, t);
    SettledRow(origin, s, t, o, k);
  }

  ghost predicate KeepsRows(a: map<Key, StockLevel>, b: map<Key, StockLevel>, order: SalesOrder) {
    b.Keys == a.Keys
    && forall k: Key :: OnHandIn(b, k) == OnHandIn(a, k) - FulfilledAt(k)(order) && ReservedIn(b, k) == ReservedIn(a, k)
  }

  lemma {:induction false} KeptRowsAreWithdrawn(a: map<Key, StockLevel>, b: map<Key, StockLevel>, order: SalesOrder)
    requires KeepsRows(a, b, order)
    ensures b == Withdraw(a, order)
  {
    forall k | k in b ensures k in a && b[k] == Withdraw(a, order)[k] {
      assert OnHandIn(b, k) == OnHandIn(a, k) - FulfilledAt(k)(order) && ReservedIn(b, k) == ReservedIn(a, k);
    }
  }

  lemma {:induction false} SettledStates(origin: State, s: State, t: State, o: nat)
    requires Inv(origin, s) && Inv(origin, t)
    requires o < |s.sales| && !Started(s.sales[o].status)
    requires OthersSame(s, t, o) && Over(t, o)
    ensures t.stock == Withdraw(s.stock, t.sales[o])
  {
    forall k: Key
      ensures OnHandIn(t.stock, k) == OnHandIn(s.stock, k) - FulfilledAt(k)(t.sales[o]) && ReservedIn(t.stock, k) == ReservedIn(s.stock, k)
    {
      SettlesKey(origin, s, t, o, k);
    }
    KeptRowsAreWithdrawn(s.stock, t.stock, t.sales[o]);
  }

  /**
   * Settlement.  From any reachable state in which order `o` has not been allocated, let anything
   * happen to that order - allocation, fulfilments in parts, deliveries, cancellation - until it is
   * over.  Then stock has lost exactly the fulfilled quantities, every reserved counter is back
   * where it was, and the reservations of all other orders are untouched.
   */
  lemma {:induction false} Settles(origin: State, s: State, steps: seq<Step>, o: nat)
    requires Inv(origin, s) && OrderlyRun(s, steps) && AboutRun(s, steps, o)
    requires o < |s.sales| && !Started(s.sales[o].status)
    requires Over(Run(s, steps), o)
    ensures var t := Run(s, steps);
            && t.stock == Withdraw(s.stock, t.sales[o])
            && OthersRows(t.reservations, o) == OthersRows(s.reservations, o)
  {
    RunKeepsFrom(origin, s, steps);
    RunLeavesOthers(origin, s, steps, o);
    SettledStates(origin, s, Run(s, steps), o);
  }

  // ---------- What it writes to the ledger ----------

  /** Only deliveries write to the ledger: no request does, and in particular no release. */
  lemma {:induction false} OnlyDeliveriesWrite(s: State, step: Step)
    ensures s.movements <= After(s, step).movements
    ensures !step.StepDeliver? ==> After(s, step).movements == s.movements
  {
  }

  /** Every row of the ledger from row `n` on is a fulfilment of order `o`. */
  ghost predicate OnlyFulfills(ms: seq<Movement>, n: nat, o: nat) {
    forall i :: n <= i < |ms| ==> ms[i].source.Fulfillment? && ms[i].source.soLine.order == o
  }

  lemma {:induction false} StepWritesOwn(s: State, step: Step, o: nat)
    requires About(s, step, o)
    ensures OnlyFulfills(After(s, step).movements, |s.movements|, o)
  {
    OnlyDeliveriesWrite(s, step);
  }

  lemma {:induction false} RunWritesOwn(s: State, steps: seq<Step>, o: nat)
    requires AboutRun(s, steps, o)
    ensures s.movements <= Run(s, steps).movements
    ensures OnlyFulfills(Run(s, steps).movements, |s.movements|, o)
  {
    if steps != [] {
      var n := |steps| - 1;
      RunWritesOwn(s, steps[..n], o);
      OnlyDeliveriesWrite(Run(s, steps[..n]), steps[n]);
      StepWritesOwn(Run(s, steps[..n]), steps[n], o);
    }
  }

  lemma {:induction false} SettledLineIsWritten(s: State, t: State, o: nat, l: nat)
    requires MovementsOk(s.movements, s.sales, s.purchases) && o < |s.sales| && !Started(s.sales[o].status)
    requires s.movements <= t.movements && SalesAgree(t) && !FulfillmentInFlight(t, o)
    requires o < |t.sales| && l < |t.sales[o].lines|
    ensures Sum(t.movements[|s.movements|..], ShippedFor(LineRef(o, l))) == t.sales[o].lines[l].fulfilled
  {
    var ref := LineRef(o, l);
    assert IsSalesLine(t.sales, ref);
    NothingInFlight(t, ref);
    NothingShipped(s.movements, s.sales, s.purchases, ref);
    SumSlice(t.movements, |s.movements|, ShippedFor(ref));
    assert t.movements[..|s.movements|] == s.movements;
  }

  /**
   * The ledger of one order: from a reachable state in which it was not allocated until it is over,
   * the ledger only grows, only by fulfilments of the order, and line by line by exactly what was
   * fulfilled - whatever was reserved and released in between.
   */
  lemma {:induction false} LedgerOfOneOrder(origin: State, s: State, steps: seq<Step>, o: nat)
    requires Inv(origin, s) && OrderlyRun(s, steps) && AboutRun(s, steps, o)
    requires o < |s.sales| && !Started(s.sales[o].status)
    requires Over(Run(s, steps), o)
    ensures var t := Run(s, steps);
            && s.movements <= t.movements
            && OnlyFulfills(t.movements, |s.movements|, o)
            && forall l :: 0 <= l < |t.sales[o].lines| ==>
                 Sum(t.movements[|s.movements|..], ShippedFor(LineRef(o, l))) == t.sales[o].lines[l].fulfilled
  {
    var t := Run(s, steps);
    RunWritesOwn(s, steps, o);
    RunKeepsFrom(origin, s, steps);
    forall l | 0 <= l < |t.sales[o].lines|
      ensures Sum(t.movements[|s.movements|..], ShippedFor(LineRef(o, l))) == t.sales[o].lines[l].fulfilled
    {
      SettledLineIsWritten(s, t, o, l);
    }
  }

  /** An order that fulfilled nothing wrote nothing. */
  lemma {:induction false} NothingFulfilledNothingWritten(s: State, t: State, o: nat)
    requires MovementsOk(t.movements, t.sales, t.purchases) && o < |t.sales|
    requires s.movements <= t.movements && OnlyFulfills(t.movements, |s.movements|, o)
    requires forall l :: 0 <= l < |t.sales[o].lines| ==> Sum(t.movements[|s.movements|..], ShippedFor(LineRef(o, l))) == 0
    ensures t.movements == s.movements
  {
    var n := |s.movements|;
    if n < |t.movements| {
      var written := t.movements[n..];
      forall i | 0 <= i < |written| ensures written[i] == t.movements[n + i] && MovementOk(written[i], t.sales, t.purchases) {
      }
      SumAtLeastRow(written, 0, ShippedFor(written[0].source.soLine));
    }
  }

  // ---------- Special cases ----------

  lemma {:induction false} WithdrawNothing(stock: map<Key, StockLevel>, order: SalesOrder)
    requires forall l :: 0 <= l < |order.lines| ==> order.lines[l].fulfilled == 0
    ensures Withdraw(stock, order) == stock
  {
    forall k | k in stock ensures FulfilledAt(k)(order) == 0 {
      SumZero(order.lines, LineFulfilledAt(order.warehouse, k));
    }
  }

  /** Cancelling before anything was fulfilled restores the stock exactly and leaves no trace in the ledger. */
  lemma {:induction false} UnfulfilledCancelRestores(origin: State, s: State, steps: seq<Step>, o: nat)
    requires Inv(origin, s) && OrderlyRun(s, steps) && AboutRun(s, steps, o)
    requires o < |s.sales| && !Started(s.sales[o].status)
    requires Over(Run(s, steps), o)
    requires var lines := Run(s, steps).sales[o].lines;
             forall l :: 0 <= l < |lines| ==> lines[l].fulfilled == 0
    ensures Run(s, steps).stock == s.stock
    ensures Run(s, steps).movements == s.movements
  {
    Settles(origin, s, steps, o);
    WithdrawNothing(s.stock, Run(s, steps).sales[o]);
    UnfulfilledWritesNothing(origin, s, steps, o);
  }

  lemma {:induction false} UnfulfilledWritesNothing(origin: State, s: State, steps: seq<Step>, o: nat)
    requires Inv(origin, s) && OrderlyRun(s, steps) && AboutRun(s, steps, o)
    requires o < |s.sales| && !Started(s.sales[o].status)
    requires Over(Run(s, steps), o)
    requires var lines := Run(s, steps).sales[o].lines;
             forall l :: 0 <= l < |lines| ==> lines[l].fulfilled == 0
    ensures Run(s, steps).movements == s.movements
  {
    LedgerOfOneOrder(origin, s, steps, o);
    RunKeepsFrom(origin, s, steps);
    MovementsOkOf(origin, Run(s, steps));
    NothingFulfilledNothingWritten(s, Run(s, steps), o);
  }

  lemma {:induction false} MovementsOkOf(origin: State, s: State)
    requires Inv(origin, s)
    ensures MovementsOk(s.movements, s.sales, s.purchases)
  {
  }

  /** An order fulfilled in full has fulfilled its demand. */
  lemma {:induction false} FullyFulfilledIsDemand(order: SalesOrder, k: Key)
    requires SalesOrderOk(order) && order.status.Fulfilled?
    ensures FulfilledAt(k)(order) == Demand(order, k)
  {
    forall l | 0 <= l < |order.lines| ensures order.lines[l].fulfilled == order.lines[l].ordered {
      assert SalesLineOk(order.status, order.lines[l]);
    }
    SumSame(order.lines, LineFulfilledAt(order.warehouse, k), order.lines, LineOrderedAt(order.warehouse, k));
  }

  lemma {:induction false} SameWithdrawal(stock: map<Key, StockLevel>, a: SalesOrder, b: SalesOrder)
    requires SalesOrderOk(b) && b.status.Fulfilled?
    requires forall k: Key :: Demand(b, k) == FulfilledAt(k)(a)
    ensures Withdraw(stock, a) == Withdraw(stock, b)
  {
    forall k: Key ensures FulfilledAt(k)(b) == FulfilledAt(k)(a) {
      FullyFulfilledIsDemand(b, k);
    }
  }

  lemma {:induction false} SalesOrderOkOf(origin: State, s: State, o: nat)
    requires Inv(origin, s) && o < |s.sales|
    ensures SalesOrderOk(s.sales[o])
  {
  }

  /**
   * Two orders that are over leave the same stock if one of them ordered and got, key by key, what
   * the other one got.
   */
  lemma {:induction false} AlikeOrdersSettleAlike(origin: State, s: State, steps: seq<Step>, o: nat, steps': seq<Step>, p: nat)
    requires Inv(origin, s)
    requires OrderlyRun(s, steps) && AboutRun(s, steps, o) && OrderlyRun(s, steps') && AboutRun(s, steps', p)
    requires o < |s.sales| && !Started(s.sales[o].status) && p < |s.sales| && !Started(s.sales[p].status)
    requires Over(Run(s, steps), o) && Over(Run(s, steps'), p) && Run(s, steps').sales[p].status.Fulfilled?
    requires forall k: Key :: Demand(Run(s, steps').sales[p], k) == FulfilledAt(k)(Run(s, steps).sales[o])
    ensures Run(s, steps).stock == Run(s, steps').stock
    ensures forall k: Key :: Sum(Run(s, steps).movements, DeltaAt(k)) == Sum(Run(s, steps').movements, DeltaAt(k))
  {
    Settles(origin, s, steps, o);
    Settles(origin, s, steps', p);
    RunKeepsFrom(origin, s, steps');
    SalesOrderOkOf(origin, Run(s, steps'), p);
    SameWithdrawal(s.stock, Run(s, steps).sales[o], Run(s, steps').sales[p]);
    LedgerSums(origin, s, steps);
    LedgerSums(origin, s, steps');
  }

  lemma {:induction false} LedgerSums(origin: State, s: State, steps: seq<Step>)
    requires Inv(origin, s) && OrderlyRun(s, steps)
    ensures forall k: Key :: Sum(Run(s, steps).movements, DeltaAt(k)) == OnHandIn(Run(s, steps).stock, k)
  {
    RunKeepsFrom(origin, s, steps);
    forall k: Key {
      OnHandFromOrders(origin, Run(s, steps), k);
    }
  }
}
