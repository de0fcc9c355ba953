/** The invariant of the protocol, part by part, and the facts its parts rest on. */
module Invariants {
  import opened Sums
  import opened Tables
  import opened Protocol
  import SO = SalesOrderLifecycle
  import PO = PurchaseOrderLifecycle

  // ---------- References ----------

  ghost predicate IsSalesLine(sales: seq<SalesOrder>, ref: LineRef) {
    ref.order < |sales| && ref.line < |sales[ref.order].lines|
  }

  ghost function SalesLineOf(sales: seq<SalesOrder>, ref: LineRef): SalesLine
    requires IsSalesLine(sales, ref)
  {
    sales[ref.order].lines[ref.line]
  }

  ghost function SalesKey(sales: seq<SalesOrder>, ref: LineRef): Key
    requires IsSalesLine(sales, ref)
  {
    Key(SalesLineOf(sales, ref).product, sales[ref.order].warehouse)
  }

  ghost predicate IsPurchaseLine(purchases: seq<PurchaseOrder>, ref: LineRef) {
    ref.order < |purchases| && ref.line < |purchases[ref.order].lines|
  }

  ghost function PurchaseLineOf(purchases: seq<PurchaseOrder>, ref: LineRef): PurchaseLine
    requires IsPurchaseLine(purchases, ref)
  {
    purchases[ref.order].lines[ref.line]
  }

  ghost function PurchaseKey(purchases: seq<PurchaseOrder>, ref: LineRef): Key
    requires IsPurchaseLine(purchases, ref)
  {
    Key(PurchaseLineOf(purchases, ref).product, purchases[ref.order].warehouse)
  }

  /** The order has been allocated at some time. */
  predicate Started(status: SO.Status) {
    !status.Draft? && !status.Confirmed?
  }

  /** The order has been allocated and not been cancelled since. */
  predicate Holding(status: SO.Status) {
    status.Allocated? || status.PartiallyFulfilled? || status.Fulfilled?
  }

  // ---------- Parts of the invariant ----------

  /** How status and counters of a sales line go together. */
  ghost predicate SalesLineOk(status: SO.Status, l: SalesLine) {
    match status
    case Draft => l.reserved == 0 && l.fulfilled == 0
    case Confirmed => l.reserved == 0 && l.fulfilled == 0
    case Allocated => l.reserved == l.ordered && l.fulfilled == 0
    case PartiallyFulfilled => 0 <= l.reserved && 0 <= l.fulfilled && l.reserved + l.fulfilled == l.ordered
    case Fulfilled => l.reserved == 0 && l.fulfilled == l.ordered
    case Cancelled => l.reserved == 0 && 0 <= l.fulfilled <= l.ordered
  }

  ghost predicate SalesOrderOk(o: SalesOrder) {
    && o.lines != []
    && (forall l :: 0 <= l < |o.lines| ==> SalesLineOk(o.status, o.lines[l]))
    && (o.status.PartiallyFulfilled? ==> exists l :: 0 <= l < |o.lines| && 0 < o.lines[l].fulfilled)
    && (o.status.PartiallyFulfilled? ==> exists l :: 0 <= l < |o.lines| && o.lines[l].fulfilled < o.lines[l].ordered)
    && (o.status.Cancelled? ==> exists l :: 0 <= l < |o.lines| && o.lines[l].fulfilled < o.lines[l].ordered)
  }

  ghost predicate SalesOk(sales: seq<SalesOrder>) {
    forall o :: 0 <= o < |sales| ==> SalesOrderOk(sales[o])
  }

  /** How status and counter of a purchase line go together. */
  ghost predicate PurchaseLineOk(status: PO.Status, l: PurchaseLine) {
    match status
    case Draft => l.received == 0
    case Approved => l.received == 0
    case Shipped => l.received == 0
    case PartiallyReceived => 0 <= l.received <= l.ordered
    case Received => l.received == l.ordered
    case Cancelled => 0 <= l.received <= l.ordered
  }

  ghost predicate PurchaseOrderOk(p: PurchaseOrder) {
    && p.lines != []
    && (forall l :: 0 <= l < |p.lines| ==> PurchaseLineOk(p.status, p.lines[l]))
    && (p.status.PartiallyReceived? ==> exists l :: 0 <= l < |p.lines| && 0 < p.lines[l].received)
    && (p.status.PartiallyReceived? || p.status.Cancelled? ==>
          exists l :: 0 <= l < |p.lines| && p.lines[l].received < p.lines[l].ordered)
  }

  ghost predicate PurchasesOk(purchases: seq<PurchaseOrder>) {
    forall p :: 0 <= p < |purchases| ==> PurchaseOrderOk(purchases[p])
  }

  /** A movement names an existing line of its key, with the sign of its kind. */
  ghost predicate MovementOk(m: Movement, sales: seq<SalesOrder>, purchases: seq<PurchaseOrder>) {
    match m.source
    case Opening => true
    case Receipt(ref, _) => IsPurchaseLine(purchases, ref) && m.key == PurchaseKey(purchases, ref) && 0 < m.delta
    case Fulfillment(ref) =>
      IsSalesLine(sales, ref) && m.key == SalesKey(sales, ref) && m.delta < 0 && Started(sales[ref.order].status)
  }

  ghost predicate MovementsOk(ms: seq<Movement>, sales: seq<SalesOrder>, purchases: seq<PurchaseOrder>) {
    forall i :: 0 <= i < |ms| ==> MovementOk(ms[i], sales, purchases)
  }

  ghost predicate EventsOk(emitted: seq<Event>, sales: seq<SalesOrder>, purchases: seq<PurchaseOrder>) {
    && (forall e :: 0 <= e < |emitted| ==> MovementsOk(MovementsOf(emitted[e]), sales, purchases))
    && (forall e :: 0 <= e < |emitted| && emitted[e].SalesOrderFulfilled? ==> emitted[e].fulfilled != [])
  }

  ghost predicate ClaimsOk(processed: set<nat>, emitted: seq<Event>) {
    forall id :: id in processed ==> id < |emitted|
  }

  /** The status a reservation has, given the status of its order. */
  ghost function ExpectedStatus(order: SO.Status, r: Reservation): ReservationStatus {
    if r.fulfilled == r.quantity then ReservationStatus.Fulfilled
    else if order.Cancelled? then ReservationStatus.Cancelled
    else Active
  }

  ghost predicate ReservationOk(r: Reservation, sales: seq<SalesOrder>, movements: seq<Movement>, stock: map<Key, StockLevel>) {
    && IsSalesLine(sales, r.ref)
    && r.key == SalesKey(sales, r.ref)
    && Started(sales[r.ref.order].status)
    && r.quantity == SalesLineOf(sales, r.ref).ordered
    && r.fulfilled == Sum(movements, ShippedFor(r.ref))
    && 0 <= r.fulfilled <= r.quantity
    && r.status == ExpectedStatus(sales[r.ref.order].status, r)
    && r.key in stock
  }

  ghost predicate UniqueRefs(rows: seq<Reservation>) {
    forall i, j :: 0 <= i < j < |rows| ==> rows[i].ref != rows[j].ref
  }

  ghost predicate HasRow(rows: seq<Reservation>, ref: LineRef) {
    exists i :: 0 <= i < |rows| && rows[i].ref == ref
  }

  /** The same lines have their reservations in the same places. */
  ghost predicate SameSlots(a: seq<Reservation>, b: seq<Reservation>) {
    && |a| == |b|
    && forall i :: 0 <= i < |a| ==> a[i].ref == b[i].ref
  }

  ghost predicate ReservationsOk(rows: seq<Reservation>, sales: seq<SalesOrder>, movements: seq<Movement>, stock: map<Key, StockLevel>) {
    && (forall i :: 0 <= i < |rows| ==> ReservationOk(rows[i], sales, movements, stock))
    && UniqueRefs(rows)
    && (forall ref :: IsSalesLine(sales, ref) && Holding(sales[ref.order].status) ==> HasRow(rows, ref))
  }

  /** What a line says is fulfilled is what the ledger shipped for it plus what is still in flight. */
  ghost predicate SalesAgree(s: State) {
    forall ref :: IsSalesLine(s.sales, ref) ==>
      && SalesLineOf(s.sales, ref).fulfilled
         == Sum(s.movements, ShippedFor(ref)) + Pending(s.emitted, s.processed, ShippedFor(ref))
      && (s.sales[ref.order].status.Cancelled? ==> Pending(s.emitted, s.processed, ShippedFor(ref)) == 0)
  }

  /** What a line says is received is what its receipts add up to, and what the ledger shows plus what is in flight. */
  ghost predicate PurchasesAgree(s: State) {
    && (forall ref :: IsPurchaseLine(s.purchases, ref) ==>
          && PurchaseLineOf(s.purchases, ref).received
             == Sum(s.movements, ArrivedFor(ref)) + Pending(s.emitted, s.processed, ArrivedFor(ref))
          && PurchaseLineOf(s.purchases, ref).received == Sum(s.receipts, ReceiptFor(ref)))
    && (forall i :: 0 <= i < |s.receipts| ==> IsPurchaseLine(s.purchases, s.receipts[i].poLine))
  }

  ghost predicate StockOk(stock: map<Key, StockLevel>, movements: seq<Movement>, rows: seq<Reservation>) {
    && (forall k :: k in stock ==>
          && stock[k].onHand == Sum(movements, DeltaAt(k))
          && stock[k].reserved == Sum(rows, OutstandingAt(k))
          && 0 <= stock[k].reserved <= stock[k].onHand)
    && (forall i :: 0 <= i < |movements| ==> movements[i].key in stock)
  }

  function ReservedIn(stock: map<Key, StockLevel>, k: Key): int {
    if k in stock then stock[k].reserved else 0
  }

  ghost predicate TotalsOk(s: State) {
    forall k: Key ::
      && Sum(s.sales, FulfilledAt(k)) == Sum(s.movements, ShippedAt(k)) + Pending(s.emitted, s.processed, ShippedAt(k))
      && Sum(s.purchases, ReceivedAt(k)) == Sum(s.movements, ArrivedAt(k)) + Pending(s.emitted, s.processed, ArrivedAt(k))
      && Sum(s.sales, ReservedAt(k)) + Pending(s.emitted, s.processed, ShippedAt(k)) == ReservedIn(s.stock, k)
  }

  /** The ledger only grows, and at no point of its history does any key go below zero. */
  ghost predicate LogOk(origin: State, movements: seq<Movement>) {
    && origin.movements <= movements
    && (forall i :: 0 <= i < |origin.movements| ==> movements[i].source.Opening?)
    && (forall i :: |origin.movements| <= i < |movements| ==> !movements[i].source.Opening?)
    && (forall k: Key, n :: 0 <= n <= |movements| ==> 0 <= Sum(movements[..n], DeltaAt(k)))
  }

  /** The ledger rows of all claimed events, as a bag. */
  ghost function Posted(emitted: seq<Event>, processed: set<nat>): multiset<Movement> {
    if emitted == [] then multiset{}
    else
      var n := |emitted| - 1;
      Posted(emitted[..n], processed) + if n in processed then multiset(MovementsOf(emitted[n])) else multiset{}
  }

  /** Ledger and stock rows are exactly the opening ones and those of the claimed events. */
  ghost predicate BagOk(origin: State, s: State) {
    && multiset(s.movements) == multiset(origin.movements) + Posted(s.emitted, s.processed)
    && s.stock.Keys == origin.stock.Keys + KeysOf(s.movements)
  }

  ghost predicate Inv(origin: State, s: State) {
    && SalesOk(s.sales)
    && PurchasesOk(s.purchases)
    && EventsOk(s.emitted, s.sales, s.purchases)
    && ClaimsOk(s.processed, s.emitted)
    && MovementsOk(s.movements, s.sales, s.purchases)
    && ReservationsOk(s.reservations, s.sales, s.movements, s.stock)
    && SalesAgree(s)
    && PurchasesAgree(s)
    && StockOk(s.stock, s.movements, s.reservations)
    && TotalsOk(s)
    && LogOk(origin, s.movements)
    && BagOk(origin, s)
  }

  // ---------- Pending sums ----------

  lemma {:induction false} PendingAppend(emitted: seq<Event>, e: Event, processed: set<nat>, f: Movement -> int)
    requires ClaimsOk(processed, emitted)
    ensures Pending(emitted + [e], processed, f) == Pending(emitted, processed, f) + Sum(MovementsOf(e), f)
  {
    assert (emitted + [e])[..|emitted|] == emitted;
    assert |emitted| !in processed;
  }

  lemma {:induction false} PendingLast(emitted: seq<Event>, processed: set<nat>, f: Movement -> int)
    requires emitted != []
    ensures var n := |emitted| - 1;
            Pending(emitted, processed, f)
            == Pending(emitted[..n], processed, f) + if n in processed then 0 else Sum(MovementsOf(emitted[n]), f)
  {
  }

  /** Claiming an event takes its movements out of the pending sum, whatever is measured. */
  lemma {:induction false} PendingClaim(emitted: seq<Event>, processed: set<nat>, id: nat, f: Movement -> int)
    requires id < |emitted| && id !in processed
    ensures Pending(emitted, processed + {id}, f) == Pending(emitted, processed, f) - Sum(MovementsOf(emitted[id]), f)
  {
    var n := |emitted| - 1;
    PendingLast(emitted, processed, f);
    PendingLast(emitted, processed + {id}, f);
    if id < n {
      PendingClaim(emitted[..n], processed, id, f);
    } else {
      PendingIgnores(emitted[..n], processed, id, f);
    }
  }

  lemma {:induction false} PendingIgnores(emitted: seq<Event>, processed: set<nat>, id: nat, f: Movement -> int)
    requires |emitted| <= id
    ensures Pending(emitted, processed + {id}, f) == Pending(emitted, processed, f)
  {
    if emitted != [] {
      PendingIgnores(emitted[..|emitted| - 1], processed, id, f);
    }
  }

  lemma {:induction false} PendingZero(emitted: seq<Event>, processed: set<nat>, f: Movement -> int)
    requires forall e :: 0 <= e < |emitted| && e !in processed ==> Sum(MovementsOf(emitted[e]), f) == 0
    ensures Pending(emitted, processed, f) == 0
  {
    if emitted != [] {
      PendingZero(emitted[..|emitted| - 1], processed, f);
    }
  }

  /** An unclaimed event never weighs more than all pending ones together. */
  lemma {:induction false} PendingAtLeast(emitted: seq<Event>, processed: set<nat>, id: nat, f: Movement -> int)
    requires id < |emitted| && id !in processed
    requires forall e :: 0 <= e < |emitted| ==> 0 <= Sum(MovementsOf(emitted[e]), f)
    ensures Sum(MovementsOf(emitted[id]), f) <= Pending(emitted, processed, f)
  {
    var n := |emitted| - 1;
    PendingLast(emitted, processed, f);
    if id < n {
      PendingAtLeast(emitted[..n], processed, id, f);
    } else {
      PendingNonNegative(emitted[..n], processed, f);
    }
  }

  lemma {:induction false} PendingNonNegative(emitted: seq<Event>, processed: set<nat>, f: Movement -> int)
    requires forall e :: 0 <= e < |emitted| ==> 0 <= Sum(MovementsOf(emitted[e]), f)
    ensures 0 <= Pending(emitted, processed, f)
  {
    if emitted != [] {
      PendingNonNegative(emitted[..|emitted| - 1], processed, f);
    }
  }

  lemma {:induction false} PendingSplit(emitted: seq<Event>, processed: set<nat>, f: Movement -> int, g: Movement -> int, h: Movement -> int)
    requires forall m: Movement :: f(m) == g(m) + h(m)
    ensures Pending(emitted, processed, f) == Pending(emitted, processed, g) + Pending(emitted, processed, h)
  {
    if emitted != [] {
      var n := |emitted| - 1;
      PendingSplit(emitted[..n], processed, f, g, h);
      var ms := MovementsOf(emitted[n]);
      SumSplit(ms, f, ms, g, ms, h);
    }
  }

  /** Shipments of a line and of a key are never negative, event by event. */
  lemma {:induction false} EventShipsNonNegative(e: Event, ref: LineRef, k: Key)
    ensures 0 <= Sum(MovementsOf(e), ShippedFor(ref))
    ensures 0 <= Sum(MovementsOf(e), ShippedAt(k))
    ensures 0 <= Sum(MovementsOf(e), ArrivedFor(ref))
    ensures 0 <= Sum(MovementsOf(e), ArrivedAt(k))
  {
    SumNonNegative(MovementsOf(e), ShippedFor(ref));
    SumNonNegative(MovementsOf(e), ShippedAt(k));
    SumNonNegative(MovementsOf(e), ArrivedFor(ref));
    SumNonNegative(MovementsOf(e), ArrivedAt(k));
  }

  lemma {:induction false} PendingShipsNonNegative(emitted: seq<Event>, processed: set<nat>, ref: LineRef, k: Key)
    ensures 0 <= Pending(emitted, processed, ShippedFor(ref))
    ensures 0 <= Pending(emitted, processed, ShippedAt(k))
    ensures 0 <= Pending(emitted, processed, ArrivedFor(ref))
    ensures 0 <= Pending(emitted, processed, ArrivedAt(k))
  {
    forall e | 0 <= e < |emitted|
      ensures 0 <= Sum(MovementsOf(emitted[e]), ShippedFor(ref))
      ensures 0 <= Sum(MovementsOf(emitted[e]), ShippedAt(k))
      ensures 0 <= Sum(MovementsOf(emitted[e]), ArrivedFor(ref))
      ensures 0 <= Sum(MovementsOf(emitted[e]), ArrivedAt(k))
    {
      EventShipsNonNegative(emitted[e], ref, k);
    }
    PendingNonNegative(emitted, processed, ShippedFor(ref));
    PendingNonNegative(emitted, processed, ShippedAt(k));
    PendingNonNegative(emitted, processed, ArrivedFor(ref));
    PendingNonNegative(emitted, processed, ArrivedAt(k));
  }

  // ---------- What the tables cannot mention ----------

  /** Nothing is shipped for a line that does not exist or was never allocated. */
  lemma {:induction false} NothingShipped(ms: seq<Movement>, sales: seq<SalesOrder>, purchases: seq<PurchaseOrder>, ref: LineRef)
    requires MovementsOk(ms, sales, purchases)
    requires IsSalesLine(sales, ref) ==> !Started(sales[ref.order].status)
    ensures Sum(ms, ShippedFor(ref)) == 0
  {
    forall i | 0 <= i < |ms| ensures ShippedFor(ref)(ms[i]) == 0 {
      assert MovementOk(ms[i], sales, purchases);
    }
    SumZero(ms, ShippedFor(ref));
  }

  lemma {:induction false} NothingShippedPending(s: State, ref: LineRef)
    requires EventsOk(s.emitted, s.sales, s.purchases)
    requires IsSalesLine(s.sales, ref) ==> !Started(s.sales[ref.order].status)
    ensures Pending(s.emitted, s.processed, ShippedFor(ref)) == 0
  {
    forall e | 0 <= e < |s.emitted| ensures Sum(MovementsOf(s.emitted[e]), ShippedFor(ref)) == 0 {
      NothingShipped(MovementsOf(s.emitted[e]), s.sales, s.purchases, ref);
    }
    PendingZero(s.emitted, s.processed, ShippedFor(ref));
  }

  /** Nothing arrives for a purchase line that does not exist. */
  lemma {:induction false} NothingArrived(ms: seq<Movement>, sales: seq<SalesOrder>, purchases: seq<PurchaseOrder>, ref: LineRef)
    requires MovementsOk(ms, sales, purchases)
    requires !IsPurchaseLine(purchases, ref)
    ensures Sum(ms, ArrivedFor(ref)) == 0
  {
    forall i | 0 <= i < |ms| ensures ArrivedFor(ref)(ms[i]) == 0 {
      assert MovementOk(ms[i], sales, purchases);
    }
    SumZero(ms, ArrivedFor(ref));
  }

  lemma {:induction false} NothingArrivedPending(s: State, ref: LineRef)
    requires EventsOk(s.emitted, s.sales, s.purchases)
    requires !IsPurchaseLine(s.purchases, ref)
    ensures Pending(s.emitted, s.processed, ArrivedFor(ref)) == 0
  {
    forall e | 0 <= e < |s.emitted| ensures Sum(MovementsOf(s.emitted[e]), ArrivedFor(ref)) == 0 {
      NothingArrived(MovementsOf(s.emitted[e]), s.sales, s.purchases, ref);
    }
    PendingZero(s.emitted, s.processed, ArrivedFor(ref));
  }

  // ---------- Tables that only move forward ----------

  /** No sales line changes its product, quantity or warehouse, and no order forgets that it was allocated. */
  ghost predicate SalesForward(a: seq<SalesOrder>, b: seq<SalesOrder>) {
    && |a| <= |b|
    && forall o :: 0 <= o < |a| ==>
         && b[o].warehouse == a[o].warehouse
         && |b[o].lines| == |a[o].lines|
         && (Started(a[o].status) ==> Started(b[o].status))
         && forall l :: 0 <= l < |a[o].lines| ==>
              b[o].lines[l].product == a[o].lines[l].product && b[o].lines[l].ordered == a[o].lines[l].ordered
  }

  ghost predicate PurchasesForward(a: seq<PurchaseOrder>, b: seq<PurchaseOrder>) {
    && |a| <= |b|
    && forall p :: 0 <= p < |a| ==>
         && b[p].warehouse == a[p].warehouse
         && |b[p].lines| == |a[p].lines|
         && forall l :: 0 <= l < |a[p].lines| ==>
              b[p].lines[l].product == a[p].lines[l].product && b[p].lines[l].ordered == a[p].lines[l].ordered
  }

  lemma {:induction false} MovementsStayOk(ms: seq<Movement>, sales: seq<SalesOrder>, purchases: seq<PurchaseOrder>,
                        sales': seq<SalesOrder>, purchases': seq<PurchaseOrder>)
    requires MovementsOk(ms, sales, purchases)
    requires SalesForward(sales, sales') && PurchasesForward(purchases, purchases')
    ensures MovementsOk(ms, sales', purchases')
  {
    forall i | 0 <= i < |ms| ensures MovementOk(ms[i], sales', purchases') {
      assert MovementOk(ms[i], sales, purchases);
    }
  }

  lemma {:induction false} EventsStayOk(emitted: seq<Event>, sales: seq<SalesOrder>, purchases: seq<PurchaseOrder>,
                     sales': seq<SalesOrder>, purchases': seq<PurchaseOrder>)
    requires EventsOk(emitted, sales, purchases)
    requires SalesForward(sales, sales') && PurchasesForward(purchases, purchases')
    ensures EventsOk(emitted, sales', purchases')
  {
    forall e | 0 <= e < |emitted| ensures MovementsOk(MovementsOf(emitted[e]), sales', purchases') {
      MovementsStayOk(MovementsOf(emitted[e]), sales, purchases, sales', purchases');
    }
  }

  /** One order that keeps its lines' products, quantities and its warehouse, and does not forget an allocation. */
  lemma {:induction false} UpdateIsForward(sales: seq<SalesOrder>, o: nat, order': SalesOrder)
    requires o < |sales|
    requires order'.warehouse == sales[o].warehouse && |order'.lines| == |sales[o].lines|
    requires Started(sales[o].status) ==> Started(order'.status)
    requires forall l :: 0 <= l < |order'.lines| ==>
               order'.lines[l].product == sales[o].lines[l].product && order'.lines[l].ordered == sales[o].lines[l].ordered
    ensures SalesForward(sales, sales[o := order'])
  {
  }

  /** What is left to show when only sales orders, stock and reservations change. */
  lemma {:induction false} SalesSideKeeps(origin: State, s: State, t: State)
    requires Inv(origin, s)
    requires t == s.(sales := t.sales, stock := t.stock, reservations := t.reservations)
    requires t.stock.Keys == s.stock.Keys
    requires SalesOk(t.sales) && SalesForward(s.sales, t.sales) && SalesAgree(t)
    requires ReservationsOk(t.reservations, t.sales, t.movements, t.stock)
    requires StockOk(t.stock, t.movements, t.reservations) && TotalsOk(t)
    ensures Inv(origin, t)
  {
    MovementsStayOk(s.movements, s.sales, s.purchases, t.sales, t.purchases);
    EventsStayOk(s.emitted, s.sales, s.purchases, t.sales, t.purchases);
  }

  /** What is left to show when only purchase orders change. */
  lemma {:induction false} PurchaseSideKeeps(origin: State, s: State, t: State)
    requires Inv(origin, s)
    requires t == s.(purchases := t.purchases)
    requires PurchasesOk(t.purchases) && PurchasesForward(s.purchases, t.purchases)
    requires PurchasesAgree(t) && TotalsOk(t)
    ensures Inv(origin, t)
  {
    MovementsStayOk(s.movements, s.sales, s.purchases, t.sales, t.purchases);
    EventsStayOk(s.emitted, s.sales, s.purchases, t.sales, t.purchases);
    assert SalesAgree(t);
  }

  // ---------- The parts of a delta ----------

  /** Every movement is opening stock, a receipt or a shipment, and counts in exactly one of them. */
  lemma {:induction false} DeltaParts(ms: seq<Movement>, k: Key)
    ensures Sum(ms, DeltaAt(k)) == Sum(ms, OpeningAt(k)) + Sum(ms, ArrivedAt(k)) - Sum(ms, ShippedAt(k))
  {
    var received := (m: Movement) => OpeningAt(k)(m) + ArrivedAt(k)(m);
    SumSplit(ms, received, ms, OpeningAt(k), ms, ArrivedAt(k));
    SumSplit(ms, received, ms, DeltaAt(k), ms, ShippedAt(k));
  }

  /** The weight of a batch that touches a key in one way only. */
  lemma {:induction false} DeltaOfFulfillment(e: Event, k: Key)
    requires e.SalesOrderFulfilled?
    ensures Sum(MovementsOf(e), DeltaAt(k)) == -Sum(MovementsOf(e), ShippedAt(k))
    ensures Sum(MovementsOf(e), ArrivedAt(k)) == 0
  {
    DeltaParts(MovementsOf(e), k);
    SumZero(MovementsOf(e), OpeningAt(k));
    SumZero(MovementsOf(e), ArrivedAt(k));
  }

  lemma {:induction false} KeyWithoutRows(ms: seq<Movement>, k: Key)
    requires k !in KeysOf(ms)
    ensures Sum(ms, DeltaAt(k)) == 0 && Sum(ms, ArrivedAt(k)) == 0 && Sum(ms, ShippedAt(k)) == 0
  {
    forall i | 0 <= i < |ms| ensures ms[i].key != k {
      assert ms[i].key in KeysOf(ms);
    }
    SumZero(ms, DeltaAt(k));
    SumZero(ms, ArrivedAt(k));
    SumZero(ms, ShippedAt(k));
  }

  // ---------- The opening state ----------

  lemma {:induction false} OpeningHolds(stock: map<Key, StockLevel>, ledger: seq<Movement>)
    requires SoundOpening(stock, ledger)
    ensures Inv(Start(stock, ledger), Start(stock, ledger))
  {
    var s := Start(stock, ledger);
    forall k: Key
      ensures Sum(ledger, ShippedAt(k)) == 0 && Sum(ledger, ArrivedAt(k)) == 0
    {
      SumZero(ledger, ShippedAt(k));
      SumZero(ledger, ArrivedAt(k));
    }
    forall k | k in stock ensures 0 <= stock[k].onHand {
      assert ledger[..|ledger|] == ledger;
    }
    assert KeysOf(ledger) <= stock.Keys;
    assert ReservationsOk(s.reservations, s.sales, s.movements, s.stock);
    assert TotalsOk(s);
    assert BagOk(s, s);
  }
}
