/** The inventory-risk rows: two accumulating loops over order lines, and what they mean for stock and orders. */
module RiskRows {
  import opened Wrappers
  import opened Sums
  import opened Tables
  import opened Protocol
  import opened Invariants
  import opened Theorems
  import SO = SalesOrderLifecycle
  import PO = PurchaseOrderLifecycle

  datatype RiskLevel = Stockout | ProjectedStockout | Healthy

  datatype RiskRow = RiskRow(onHand: int, reserved: int, available: int, incoming: int, demand: int, projected: int, level: RiskLevel)

  /** One line of a query result: its key and what is still open of it. */
  datatype OpenLine = OpenLine(key: Key, quantity: int)

  function Classify(available: int, projected: int): RiskLevel {
    if available <= 0 then Stockout else if projected < 0 then ProjectedStockout else Healthy
  }

  // ---------- The queries ----------

  function PurchaseLinesOf(p: PurchaseOrder, products: set<nat>, n: nat): seq<OpenLine>
    requires n <= |p.lines|
  {
    if n == 0 then []
    else
      var l := p.lines[n - 1];
      PurchaseLinesOf(p, products, n - 1)
      + if l.product in products then [OpenLine(Key(l.product, p.warehouse), l.ordered - l.received)] else []
  }

  /** Open lines of incoming purchase orders, for the products and warehouses in scope. */
  function IncomingLines(purchases: seq<PurchaseOrder>, products: set<nat>, warehouses: set<nat>): seq<OpenLine> {
    if purchases == [] then []
    else
      var p := purchases[|purchases| - 1];
      IncomingLines(purchases[..|purchases| - 1], products, warehouses)
      + if p.status in PO.INCOMING && p.warehouse in warehouses then PurchaseLinesOf(p, products, |p.lines|) else []
  }

  function SalesLinesOf(o: SalesOrder, products: set<nat>, n: nat): seq<OpenLine>
    requires n <= |o.lines|
  {
    if n == 0 then []
    else
      var l := o.lines[n - 1];
      SalesLinesOf(o, products, n - 1)
      + if l.product in products then [OpenLine(Key(l.product, o.warehouse), l.ordered - l.fulfilled)] else []
  }

  /** Open lines of sales orders that are demand, for the products and warehouses in scope. */
  function DemandLines(sales: seq<SalesOrder>, products: set<nat>, warehouses: set<nat>): seq<OpenLine> {
    if sales == [] then []
    else
      var o := sales[|sales| - 1];
      DemandLines(sales[..|sales| - 1], products, warehouses)
      + if o.status in SO.OPEN_DEMAND && o.warehouse in warehouses then SalesLinesOf(o, products, |o.lines|) else []
  }

  // ---------- What the sums should be ----------

  ghost function OpenAt(k: Key): OpenLine -> int {
    (l: OpenLine) => if l.key == k then l.quantity else 0
  }

  ghost function LineIncomingAt(warehouse: nat, k: Key): PurchaseLine -> int {
    (l: PurchaseLine) => if Key(l.product, warehouse) == k then l.ordered - l.received else 0
  }

  ghost function LineDemandAt(warehouse: nat, k: Key): SalesLine -> int {
    (l: SalesLine) => if Key(l.product, warehouse) == k then l.ordered - l.fulfilled else 0
  }

  ghost function IncomingAt(k: Key): PurchaseOrder -> int {
    (p: PurchaseOrder) => if p.status in PO.INCOMING then Sum(p.lines, LineIncomingAt(p.warehouse, k)) else 0
  }

  ghost function DemandAt(k: Key): SalesOrder -> int {
    (o: SalesOrder) => if o.status in SO.OPEN_DEMAND then Sum(o.lines, LineDemandAt(o.warehouse, k)) else 0
  }

  /** The demand of orders that are confirmed but not yet allocated. */
  ghost function ConfirmedDemandAt(k: Key): SalesOrder -> int {
    (o: SalesOrder) => if o.status.Confirmed? then Sum(o.lines, LineOrderedAt(o.warehouse, k)) else 0
  }

  lemma {:induction false} PurchaseLinesSum(p: PurchaseOrder, products: set<nat>, n: nat, k: Key)
    requires n <= |p.lines| && k.product in products
    ensures Sum(PurchaseLinesOf(p, products, n), OpenAt(k)) == Sum(p.lines[..n], LineIncomingAt(p.warehouse, k))
  {
    if n != 0 {
      PurchaseLinesSum(p, products, n - 1, k);
      var l := p.lines[n - 1];
      SumNext(p.lines, n - 1, LineIncomingAt(p.warehouse, k));
      if l.product in products {
        SumAppend(PurchaseLinesOf(p, products, n - 1), OpenLine(Key(l.product, p.warehouse), l.ordered - l.received), OpenAt(k));
      } else {
        assert PurchaseLinesOf(p, products, n) == PurchaseLinesOf(p, products, n - 1);
      }
    }
  }

  lemma {:induction false} ForeignPurchaseLines(p: PurchaseOrder, k: Key)
    requires p.warehouse != k.warehouse
    ensures Sum(p.lines, LineIncomingAt(p.warehouse, k)) == 0
  {
    SumZero(p.lines, LineIncomingAt(p.warehouse, k));
  }

  /** For a key in scope, the restricted query misses nothing. */
  lemma {:induction false} IncomingLinesSum(purchases: seq<PurchaseOrder>, products: set<nat>, warehouses: set<nat>, k: Key)
    requires k.product in products && k.warehouse in warehouses
    ensures Sum(IncomingLines(purchases, products, warehouses), OpenAt(k)) == Sum(purchases, IncomingAt(k))
  {
    if purchases != [] {
      var n := |purchases| - 1;
      var p := purchases[n];
      var before := IncomingLines(purchases[..n], products, warehouses);
      IncomingLinesSum(purchases[..n], products, warehouses, k);
      if p.status in PO.INCOMING && p.warehouse in warehouses {
        SumConcat(before, PurchaseLinesOf(p, products, |p.lines|), OpenAt(k));
        PurchaseLinesSum(p, products, |p.lines|, k);
        assert p.lines[..|p.lines|] == p.lines;
      } else {
        assert IncomingLines(purchases, products, warehouses) == before;
        if p.status in PO.INCOMING {
          ForeignPurchaseLines(p, k);
        }
      }
    }
  }

  lemma {:induction false} SalesLinesSum(o: SalesOrder, products: set<nat>, n: nat, k: Key)
    requires n <= |o.lines| && k.product in products
    ensures Sum(SalesLinesOf(o, products, n), OpenAt(k)) == Sum(o.lines[..n], LineDemandAt(o.warehouse, k))
  {
    if n != 0 {
      SalesLinesSum(o, products, n - 1, k);
      var l := o.lines[n - 1];
      SumNext(o.lines, n - 1, LineDemandAt(o.warehouse, k));
      if l.product in products {
        SumAppend(SalesLinesOf(o, products, n - 1), OpenLine(Key(l.product, o.warehouse), l.ordered - l.fulfilled), OpenAt(k));
      } else {
        assert SalesLinesOf(o, products, n) == SalesLinesOf(o, products, n - 1);
      }
    }
  }

  lemma {:induction false} ForeignSalesLines(o: SalesOrder, k: Key)
    requires o.warehouse != k.warehouse
    ensures Sum(o.lines, LineDemandAt(o.warehouse, k)) == 0
  {
    SumZero(o.lines, LineDemandAt(o.warehouse, k));
  }

  lemma {:induction false} DemandLinesSum(sales: seq<SalesOrder>, products: set<nat>, warehouses: set<nat>, k: Key)
    requires k.product in products && k.warehouse in warehouses
    ensures Sum(DemandLines(sales, products, warehouses), OpenAt(k)) == Sum(sales, DemandAt(k))
  {
    if sales != [] {
      var n := |sales| - 1;
      var o := sales[n];
      var before := DemandLines(sales[..n], products, warehouses);
      DemandLinesSum(sales[..n], products, warehouses, k);
      if o.status in SO.OPEN_DEMAND && o.warehouse in warehouses {
        SumConcat(before, SalesLinesOf(o, products, |o.lines|), OpenAt(k));
        SalesLinesSum(o, products, |o.lines|, k);
        assert o.lines[..|o.lines|] == o.lines;
      } else {
        assert DemandLines(sales, products, warehouses) == before;
        if o.status in SO.OPEN_DEMAND {
          ForeignSalesLines(o, k);
        }
      }
    }
  }

  // ---------- The computation ----------

  function GetOrZero(m: map<Key, int>, k: Key): int {
    if k in m then m[k] else 0
  }

  /** Adds up the open quantities per key. */
  method SumByKey(lines: seq<OpenLine>) returns (byKey: map<Key, int>)
    ensures forall k: Key :: GetOrZero(byKey, k) == Sum(lines, OpenAt(k))
  {
    byKey := map[];
    for i := 0 to |lines|
      invariant forall k: Key :: GetOrZero(byKey, k) == Sum(lines[..i], OpenAt(k))
    {
      var line := lines[i];
      assert lines[..i + 1] == lines[..i] + [line];
      forall k: Key ensures Sum(lines[..i + 1], OpenAt(k)) == Sum(lines[..i], OpenAt(k)) + OpenAt(k)(line) {
        SumAppend(lines[..i], line, OpenAt(k));
      }
      byKey := byKey[line.key := GetOrZero(byKey, line.key) + line.quantity];
    }
    assert lines[..|lines|] == lines;
  }

  predicate InScope(k: Key, warehouse: Maybe<nat>) {
    warehouse.Some? ==> k.warehouse == warehouse.value
  }

  /** The row of a key, from its stock row and the open orders. */
  ghost predicate RowOk(s: State, k: Key, row: RiskRow) {
    && k in s.stock
    && row.onHand == s.stock[k].onHand
    && row.reserved == s.stock[k].reserved
    && row.available == row.onHand - row.reserved
    && row.incoming == Sum(s.purchases, IncomingAt(k))
    && row.demand == Sum(s.sales, DemandAt(k))
    && row.projected == row.available + row.incoming - row.demand
    && row.level == Classify(row.available, row.projected)
  }

  function RowFor(level: StockLevel, incoming: int, demand: int): RiskRow {
    var available := level.onHand - level.reserved;
    var projected := available + incoming - demand;
    RiskRow(level.onHand, level.reserved, available, incoming, demand, projected, Classify(available, projected))
  }

  lemma {:induction false} RowIsExact(s: State, k: Key, products: set<nat>, warehouses: set<nat>, incoming: int, demand: int)
    requires k in s.stock && k.product in products && k.warehouse in warehouses
    requires incoming == Sum(IncomingLines(s.purchases, products, warehouses), OpenAt(k))
    requires demand == Sum(DemandLines(s.sales, products, warehouses), OpenAt(k))
    ensures RowOk(s, k, RowFor(s.stock[k], incoming, demand))
  {
    IncomingLinesSum(s.purchases, products, warehouses, k);
    DemandLinesSum(s.sales, products, warehouses, k);
  }

  function LevelsInScope(stock: map<Key, StockLevel>, warehouse: Maybe<nat>): map<Key, StockLevel> {
    map k | k in stock && InScope(k, warehouse) :: stock[k]
  }

  /** One row per stock row in scope, each with exact sums, although the queries only see the products and warehouses listed. */
  method ComputeInventoryRiskRows(s: State, warehouse: Maybe<nat>) returns (rows: map<Key, RiskRow>)
    ensures forall k :: k in rows <==> k in s.stock && (warehouse.None? || k.warehouse == warehouse.value)
    ensures forall k :: k in rows ==> RowOk(s, k, rows[k])
  {
    var levels := LevelsInScope(s.stock, warehouse);
    if |levels| == 0 {
      forall k | k in s.stock ensures !InScope(k, warehouse) {
        assert k !in levels;
      }
      return map[];
    }
    var products := set k | k in levels :: k.product;
    var warehouses := set k | k in levels :: k.warehouse;
    var incomingByKey := SumByKey(IncomingLines(s.purchases, products, warehouses));
    var demandByKey := SumByKey(DemandLines(s.sales, products, warehouses));
    rows := map k | k in levels :: RowFor(levels[k], GetOrZero(incomingByKey, k), GetOrZero(demandByKey, k));
    forall k | k in rows ensures RowOk(s, k, rows[k]) {
      RowIsExact(s, k, products, warehouses, GetOrZero(incomingByKey, k), GetOrZero(demandByKey, k));
    }
  }

  // ---------- What the rows say about orders and reservations ----------

  /** The demand of one order is what it has reserved, or its whole size while it is only confirmed. */
  lemma {:induction false} OrderDemand(o: SalesOrder, k: Key)
    requires SalesOrderOk(o)
    ensures DemandAt(k)(o) == ConfirmedDemandAt(k)(o) + ReservedAt(k)(o)
  {
    forall l | 0 <= l < |o.lines| ensures SalesLineOk(o.status, o.lines[l]) {
    }
    if o.status.Confirmed? {
      SumSame(o.lines, LineDemandAt(o.warehouse, k), o.lines, LineOrderedAt(o.warehouse, k));
      SumZero(o.lines, LineReservedAt(o.warehouse, k));
    } else if o.status in SO.OPEN_DEMAND {
      SumSame(o.lines, LineDemandAt(o.warehouse, k), o.lines, LineReservedAt(o.warehouse, k));
    } else {
      SumZero(o.lines, LineReservedAt(o.warehouse, k));
    }
  }

  lemma {:induction false} DemandSplits(sales: seq<SalesOrder>, k: Key)
    requires SalesOk(sales)
    ensures Sum(sales, DemandAt(k)) == Sum(sales, ConfirmedDemandAt(k)) + Sum(sales, ReservedAt(k))
  {
    forall o | 0 <= o < |sales| ensures DemandAt(k)(sales[o]) == ConfirmedDemandAt(k)(sales[o]) + ReservedAt(k)(sales[o]) {
      OrderDemand(sales[o], k);
    }
    SumSplit(sales, DemandAt(k), sales, ConfirmedDemandAt(k), sales, ReservedAt(k));
  }

  // ---------- What is still to come ----------

  ghost function LineBoughtAt(warehouse: nat, k: Key): PurchaseLine -> int {
    (l: PurchaseLine) => if Key(l.product, warehouse) == k then l.ordered else 0
  }

  /** The whole of an order. */
  ghost function BoughtAt(k: Key): PurchaseOrder -> int {
    (p: PurchaseOrder) => Sum(p.lines, LineBoughtAt(p.warehouse, k))
  }

  /** The whole of an order that is approved and not yet shipped. */
  ghost function ApprovedAt(k: Key): PurchaseOrder -> int {
    (p: PurchaseOrder) => if p.status.Approved? then BoughtAt(k)(p) else 0
  }

  /** What a shipped or partially received order lacks. */
  ghost function LackingAt(k: Key): PurchaseOrder -> int {
    (p: PurchaseOrder) => if p.status.Shipped? || p.status.PartiallyReceived? then BoughtAt(k)(p) - ReceivedAt(k)(p) else 0
  }

  lemma {:induction false} OrderLacks(p: PurchaseOrder, k: Key)
    ensures Sum(p.lines, LineIncomingAt(p.warehouse, k)) == BoughtAt(k)(p) - ReceivedAt(k)(p)
  {
    SumSplit(p.lines, LineBoughtAt(p.warehouse, k), p.lines, LineIncomingAt(p.warehouse, k), p.lines, LineReceivedAt(p.warehouse, k));
  }

  lemma {:induction false} OrderIncoming(p: PurchaseOrder, k: Key)
    requires PurchaseOrderOk(p)
    ensures IncomingAt(k)(p) == ApprovedAt(k)(p) + LackingAt(k)(p)
    ensures p.status.Approved? ==> ReceivedAt(k)(p) == 0
  {
    OrderLacks(p, k);
    if p.status.Approved? {
      forall l | 0 <= l < |p.lines| ensures p.lines[l].received == 0 {
        assert PurchaseLineOk(p.status, p.lines[l]);
      }
      SumZero(p.lines, LineReceivedAt(p.warehouse, k));
    }
  }

  /** Incoming is the whole of the approved orders and what the shipped and partially received ones lack. */
  lemma {:induction false} IncomingSplits(purchases: seq<PurchaseOrder>, k: Key)
    requires PurchasesOk(purchases)
    ensures Sum(purchases, IncomingAt(k)) == Sum(purchases, ApprovedAt(k)) + Sum(purchases, LackingAt(k))
  {
    forall p | 0 <= p < |purchases| ensures IncomingAt(k)(purchases[p]) == ApprovedAt(k)(purchases[p]) + LackingAt(k)(purchases[p]) {
      OrderIncoming(purchases[p], k);
    }
    SumSplit(purchases, IncomingAt(k), purchases, ApprovedAt(k), purchases, LackingAt(k));
  }

  /** Goods are still to come for the order. */
  predicate UnderWay(p: PurchaseOrder) {
    p.status.Approved? || p.status.Shipped? || p.status.PartiallyReceived?
  }

  /** From `a` to `b` an order under way has been received, and nothing has come for any other. */
  ghost predicate Came(a: PurchaseOrder, b: PurchaseOrder) {
    && b.warehouse == a.warehouse && |b.lines| == |a.lines|
    && if UnderWay(a) then b.status.Received? && SameOrdered(a.lines, b.lines) else b.lines == a.lines
  }

  ghost predicate AllCame(a: seq<PurchaseOrder>, b: seq<PurchaseOrder>) {
    |b| == |a| && forall p :: 0 <= p < |a| ==> Came(a[p], b[p])
  }

  ghost predicate SameOrdered(a: seq<PurchaseLine>, b: seq<PurchaseLine>)
    requires |a| == |b|
  {
    forall l :: 0 <= l < |a| ==> b[l].product == a[l].product && b[l].ordered == a[l].ordered
  }

  /** An order that comes in full raises what is received by what was incoming of it. */
  lemma {:induction false} OrderCame(a: PurchaseOrder, b: PurchaseOrder, k: Key)
    requires PurchaseOrderOk(a) && PurchaseOrderOk(b) && Came(a, b)
    ensures ReceivedAt(k)(b) == ReceivedAt(k)(a) + IncomingAt(k)(a)
  {
    OrderIncoming(a, k);
    if UnderWay(a) {
      OrderLacks(a, k);
      forall l | 0 <= l < |b.lines| ensures b.lines[l].received == a.lines[l].ordered {
        assert PurchaseLineOk(b.status, b.lines[l]);
      }
      SumSame(b.lines, LineReceivedAt(b.warehouse, k), a.lines, LineBoughtAt(a.warehouse, k));
    }
  }

  lemma {:induction false} ReceivedRises(a: seq<PurchaseOrder>, b: seq<PurchaseOrder>, k: Key)
    requires PurchasesOk(a) && PurchasesOk(b) && AllCame(a, b)
    ensures Sum(b, ReceivedAt(k)) == Sum(a, ReceivedAt(k)) + Sum(a, IncomingAt(k))
  {
    forall p | 0 <= p < |a| ensures ReceivedAt(k)(b[p]) == ReceivedAt(k)(a[p]) + IncomingAt(k)(a[p]) {
      OrderCame(a[p], b[p], k);
    }
    SumSplit(b, ReceivedAt(k), a, ReceivedAt(k), a, IncomingAt(k));
  }

  lemma {:induction false} OrdersOk(origin: State, s: State)
    requires Inv(origin, s)
    ensures PurchasesOk(s.purchases) && SalesOk(s.sales)
  {
  }

  /**
   * What incoming promises.  From any reachable state, once every order under way has been received
   * in full and everything is posted, on-hand of a key has gained exactly its incoming quantity, after
   * what was in flight before and what was fulfilled since.
   */
  lemma {:induction false} IncomingIsGained(origin: State, s: State, t: State, k: Key)
    requires Inv(origin, s) && Inv(origin, t) && AllCame(s.purchases, t.purchases)
    requires Pending(t.emitted, t.processed, ArrivedAt(k)) == 0 && Pending(t.emitted, t.processed, ShippedAt(k)) == 0
    ensures OnHandIn(t.stock, k)
            == OnHandIn(s.stock, k) + Sum(s.purchases, IncomingAt(k))
               + Pending(s.emitted, s.processed, ArrivedAt(k)) - Pending(s.emitted, s.processed, ShippedAt(k))
               - (Sum(t.sales, FulfilledAt(k)) - Sum(s.sales, FulfilledAt(k)))
  {
    OrdersOk(origin, s);
    OrdersOk(origin, t);
    ReceivedRises(s.purchases, t.purchases, k);
    OnHandFromOrders(origin, s, k);
    OnHandFromOrders(origin, t, k);
  }

  // ---------- What the rows say ----------

  /** Out of stock exactly if nothing is free; projected to be exactly if something is, and the projection is negative. */
  lemma {:induction false} LevelExactly(s: State, k: Key, row: RiskRow)
    requires RowOk(s, k, row)
    ensures row.level.Stockout? <==> row.onHand <= row.reserved
    ensures row.level.ProjectedStockout? <==> row.reserved < row.onHand && row.projected < 0
    ensures row.level.Healthy? <==> row.reserved < row.onHand && 0 <= row.projected
  {
  }

  lemma {:induction false} StockIsOk(origin: State, s: State, k: Key)
    requires Inv(origin, s) && k in s.stock
    ensures 0 <= s.stock[k].reserved <= s.stock[k].onHand
  {
  }

  /**
   * After every orderly run a risk row's availability is never negative, and its projection counts
   * reserved stock twice - once as unavailable, once as demand - less what is in flight.  A key is out
   * of stock exactly if all of it is reserved, and projected to be if that sum turns negative.
   */
  lemma {:induction false} ProjectionMeaning(stock: map<Key, StockLevel>, ledger: seq<Movement>, steps: seq<Step>, k: Key, row: RiskRow)
    requires SoundOpening(stock, ledger) && OrderlyRun(Start(stock, ledger), steps)
    requires RowOk(Run(Start(stock, ledger), steps), k, row)
    ensures var s := Run(Start(stock, ledger), steps);
            var inFlight := Pending(s.emitted, s.processed, ShippedAt(k));
            var incoming := Sum(s.purchases, ApprovedAt(k)) + Sum(s.purchases, LackingAt(k));
            var projected := row.onHand + incoming - Sum(s.sales, ConfirmedDemandAt(k)) - 2 * row.reserved + inFlight;
            && 0 <= row.available
            && row.incoming == incoming
            && row.demand == Sum(s.sales, ConfirmedDemandAt(k)) + row.reserved - inFlight
            && row.projected == projected
            && (row.level.Stockout? <==> row.onHand == row.reserved)
            && (row.level.ProjectedStockout? <==> row.reserved < row.onHand && projected < 0)
  {
    RunKeeps(stock, ledger, steps);
    var s := Run(Start(stock, ledger), steps);
    OrdersOk(Start(stock, ledger), s);
    DemandSplits(s.sales, k);
    IncomingSplits(s.purchases, k);
    ReservedFromOrders(Start(stock, ledger), s, k);
    StockIsOk(Start(stock, ledger), s, k);
    LevelExactly(s, k, row);
  }
}
