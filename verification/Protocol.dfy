/**
 * What every transaction of the protocol does to the tables, as one closed form per transaction.
 * The loops of the services are proved against these forms in Services.dfy.
 */
module Protocol {
  import opened Wrappers
  import opened Sums
  import opened Tables
  import SO = SalesOrderLifecycle
  import PO = PurchaseOrderLifecycle

  // ---------- Weights: what a row contributes to a key or to an order line ----------

  ghost function DeltaAt(k: Key): Movement -> int {
    (m: Movement) => if m.key == k then m.delta else 0
  }

  ghost function OpeningAt(k: Key): Movement -> int {
    (m: Movement) => if m.source.Opening? && m.key == k then m.delta else 0
  }

  ghost function ArrivedAt(k: Key): Movement -> int {
    (m: Movement) => if m.source.Receipt? && m.key == k then m.delta else 0
  }

  ghost function ShippedAt(k: Key): Movement -> int {
    (m: Movement) => if m.source.Fulfillment? && m.key == k then -m.delta else 0
  }

  ghost function ArrivedFor(ref: LineRef): Movement -> int {
    (m: Movement) => if m.source.Receipt? && m.source.poLine == ref then m.delta else 0
  }

  ghost function ShippedFor(ref: LineRef): Movement -> int {
    (m: Movement) => if m.source.Fulfillment? && m.source.soLine == ref then -m.delta else 0
  }

  /** What an active reservation still holds. */
  ghost function OutstandingAt(k: Key): Reservation -> int {
    (r: Reservation) => if r.status.Active? && r.key == k then r.quantity - r.fulfilled else 0
  }

  ghost function OutstandingOf(o: nat, k: Key): Reservation -> int {
    (r: Reservation) => if r.ref.order == o && r.status.Active? && r.key == k then r.quantity - r.fulfilled else 0
  }

  ghost function LineOrderedAt(warehouse: nat, k: Key): SalesLine -> int {
    (l: SalesLine) => if Key(l.product, warehouse) == k then l.ordered else 0
  }

  ghost function LineReservedAt(warehouse: nat, k: Key): SalesLine -> int {
    (l: SalesLine) => if Key(l.product, warehouse) == k then l.reserved else 0
  }

  ghost function LineFulfilledAt(warehouse: nat, k: Key): SalesLine -> int {
    (l: SalesLine) => if Key(l.product, warehouse) == k then l.fulfilled else 0
  }

  ghost function LineReceivedAt(warehouse: nat, k: Key): PurchaseLine -> int {
    (l: PurchaseLine) => if Key(l.product, warehouse) == k then l.received else 0
  }

  ghost function ReservedAt(k: Key): SalesOrder -> int {
    (o: SalesOrder) => Sum(o.lines, LineReservedAt(o.warehouse, k))
  }

  ghost function FulfilledAt(k: Key): SalesOrder -> int {
    (o: SalesOrder) => Sum(o.lines, LineFulfilledAt(o.warehouse, k))
  }

  ghost function ReceivedAt(k: Key): PurchaseOrder -> int {
    (p: PurchaseOrder) => Sum(p.lines, LineReceivedAt(p.warehouse, k))
  }

  ghost function ReceiptFor(ref: LineRef): ReceiptLine -> int {
    (r: ReceiptLine) => if r.poLine == ref then r.qty else 0
  }

  ghost function QtyOn(line: nat): Request -> int {
    (r: Request) => if r.line == line then r.qty else 0
  }

  // ---------- Events and the movements they stand for ----------

  /** The ledger rows an event posts when it is handled, in payload order. */
  function MovementsOf(e: Event): seq<Movement> {
    match e
    case PoReceived(po, warehouse, lines) =>
      seq(|lines|, i requires 0 <= i < |lines| =>
        Movement(Key(lines[i].product, warehouse), lines[i].qty, Receipt(LineRef(po, lines[i].line), lines[i].receiptLine)))
    case SalesOrderFulfilled(so, warehouse, lines) =>
      seq(|lines|, i requires 0 <= i < |lines| =>
        Movement(Key(lines[i].product, warehouse), 0 - lines[i].qty, Fulfillment(LineRef(so, lines[i].line))))
    case ShipmentCreated(_, _) => []
  }

  /** The sum of `f` over the movements of all events that are emitted but not yet claimed. */
  ghost function Pending(emitted: seq<Event>, processed: set<nat>, f: Movement -> int): int {
    if emitted == [] then 0
    else
      var n := |emitted| - 1;
      Pending(emitted[..n], processed, f) + if n in processed then 0 else Sum(MovementsOf(emitted[n]), f)
  }

  // ---------- Sales orders ----------

  ghost function CreateSalesOrder(s: State, warehouse: nat, items: seq<Item>): State {
    s.(sales := s.sales + [SalesOrder(SO.Draft, warehouse, NewSalesLines(items))])
  }

  function NewSalesLines(items: seq<Item>): seq<SalesLine> {
    seq(|items|, i requires 0 <= i < |items| => SalesLine(items[i].product, items[i].qty, 0, 0))
  }

  ghost function Confirm(s: State, o: nat): Outcome {
    if o >= |s.sales| then RolledBack(NotFound)
    else if !SO.CanMove(s.sales[o].status, SO.Confirmed) then RolledBack(InvalidTransition)
    else Committed(s.(sales := s.sales[o := s.sales[o].(status := SO.Confirmed)]))
  }

  /** What is free at a key; a missing stock row counts as empty. */
  function Available(stock: map<Key, StockLevel>, k: Key): int {
    if k in stock then stock[k].onHand - stock[k].reserved else 0
  }

  /** What the whole order wants of one key, all its lines together. */
  ghost function Demand(order: SalesOrder, k: Key): int {
    Sum(order.lines, LineOrderedAt(order.warehouse, k))
  }

  /** The allocation criterion: no product is wanted beyond what is free of it. */
  ghost predicate Sufficient(stock: map<Key, StockLevel>, order: SalesOrder) {
    forall l :: 0 <= l < |order.lines| ==>
      var k := Key(order.lines[l].product, order.warehouse);
      Demand(order, k) <= Available(stock, k)
  }

  ghost function ReserveStock(stock: map<Key, StockLevel>, order: SalesOrder): map<Key, StockLevel> {
    map k | k in stock :: stock[k].(reserved := stock[k].reserved + Demand(order, k))
  }

  function ReserveLines(lines: seq<SalesLine>): seq<SalesLine> {
    seq(|lines|, i requires 0 <= i < |lines| => lines[i].(reserved := lines[i].ordered))
  }

  /** An order line together with its id. */
  datatype Listed = Listed(index: nat, line: SalesLine)

  function Listing(lines: seq<SalesLine>): seq<Listed> {
    seq(|lines|, i requires 0 <= i < |lines| => Listed(i, lines[i]))
  }

  /** Inserts `x` behind every entry whose product is not larger, so equal products keep their order. */
  function InsertByProduct(sorted: seq<Listed>, x: Listed): seq<Listed> {
    if sorted == [] || sorted[|sorted| - 1].line.product <= x.line.product then sorted + [x]
    else InsertByProduct(sorted[..|sorted| - 1], x) + [sorted[|sorted| - 1]]
  }

  /** The order's lines in lock order. */
  function SortedByProduct(entries: seq<Listed>): seq<Listed> {
    if entries == [] then []
    else InsertByProduct(SortedByProduct(entries[..|entries| - 1]), entries[|entries| - 1])
  }

  function NewReservation(o: nat, warehouse: nat, entry: Listed): Reservation {
    Reservation(LineRef(o, entry.index), Key(entry.line.product, warehouse), entry.line.ordered, 0, Active)
  }

  function NewReservations(o: nat, warehouse: nat, entries: seq<Listed>): seq<Reservation> {
    seq(|entries|, i requires 0 <= i < |entries| => NewReservation(o, warehouse, entries[i]))
  }

  ghost function Allocate(s: State, o: nat): Outcome {
    if o >= |s.sales| then RolledBack(NotFound)
    else
      var order := s.sales[o];
      if !SO.CanMove(order.status, SO.Allocated) then RolledBack(InvalidTransition)
      else if !Sufficient(s.stock, order) then RolledBack(InsufficientStock)
      else Committed(s.(
        sales := s.sales[o := order.(status := SO.Allocated, lines := ReserveLines(order.lines))],
        stock := ReserveStock(s.stock, order),
        reservations := s.reservations + NewReservations(o, order.warehouse, SortedByProduct(Listing(order.lines)))))
  }

  /** Gives back what the active reservations of order `o` still hold. */
  ghost function ReleaseStock(stock: map<Key, StockLevel>, rows: seq<Reservation>, o: nat): map<Key, StockLevel> {
    map k | k in stock :: stock[k].(reserved := stock[k].reserved - Sum(rows, OutstandingOf(o, k)))
  }

  function ReleaseRow(r: Reservation, o: nat): Reservation {
    if r.ref.order == o && r.status.Active? then r.(status := ReservationStatus.Cancelled) else r
  }

  function ReleaseRows(rows: seq<Reservation>, o: nat): seq<Reservation> {
    seq(|rows|, i requires 0 <= i < |rows| => ReleaseRow(rows[i], o))
  }

  function UnreserveLines(lines: seq<SalesLine>): seq<SalesLine> {
    seq(|lines|, i requires 0 <= i < |lines| => lines[i].(reserved := 0))
  }

  ghost function CancelSalesOrder(s: State, o: nat): Outcome {
    if o >= |s.sales| then RolledBack(NotFound)
    else
      var order := s.sales[o];
      if !SO.CanMove(order.status, SO.Cancelled) then RolledBack(InvalidTransition)
      else if order.status.Allocated? || order.status.PartiallyFulfilled? then
        Committed(s.(
          sales := s.sales[o := order.(status := SO.Cancelled, lines := UnreserveLines(order.lines))],
          stock := ReleaseStock(s.stock, s.reservations, o),
          reservations := ReleaseRows(s.reservations, o)))
      else Committed(s.(sales := s.sales[o := order.(status := SO.Cancelled)]))
  }

  /** Every request names one of the first `count` lines. */
  predicate KnownLines(count: nat, requests: seq<Request>) {
    forall i :: 0 <= i < |requests| ==> requests[i].line < count
  }

  /** What a request list asks of one line, repeated entries added up. */
  ghost function Requested(requests: seq<Request>, line: nat): int {
    Sum(requests, QtyOn(line))
  }

  /** Request `i` is refused: its line is unknown, or with the earlier requests it exceeds what is reserved. */
  ghost predicate FulfillFailsAt(lines: seq<SalesLine>, requests: seq<Request>, i: nat)
    requires i < |requests|
  {
    requests[i].line >= |lines| || lines[requests[i].line].reserved < Requested(requests[..i + 1], requests[i].line)
  }

  ghost predicate FulfillAccepts(lines: seq<SalesLine>, requests: seq<Request>) {
    && KnownLines(|lines|, requests)
    && forall i :: 0 <= i < |requests| ==> !FulfillFailsAt(lines, requests, i)
  }

  ghost predicate FirstFulfillFailure(lines: seq<SalesLine>, requests: seq<Request>, i: nat) {
    && i < |requests|
    && FulfillFailsAt(lines, requests, i)
    && FulfillAccepts(lines, requests[..i])
  }

  ghost function FulfillError(lines: seq<SalesLine>, requests: seq<Request>): Error {
    if exists i: nat :: FirstFulfillFailure(lines, requests, i) && requests[i].line >= |lines| then UnknownLine
    else OverFulfillment
  }

  ghost function FulfillLines(lines: seq<SalesLine>, requests: seq<Request>): seq<SalesLine> {
    seq(|lines|, l requires 0 <= l < |lines| =>
      lines[l].(reserved := lines[l].reserved - Requested(requests, l), fulfilled := lines[l].fulfilled + Requested(requests, l)))
  }

  predicate AllFulfilled(lines: seq<SalesLine>) {
    forall l :: 0 <= l < |lines| ==> lines[l].ordered <= lines[l].fulfilled
  }

  function FulfilledPayload(lines: seq<SalesLine>, requests: seq<Request>): seq<FulfilledLine>
    requires KnownLines(|lines|, requests)
  {
    seq(|requests|, i requires 0 <= i < |requests| =>
      FulfilledLine(requests[i].line, lines[requests[i].line].product, requests[i].qty))
  }

  /** Commits the fulfilled quantities and emits the event that will post them to the ledger. */
  ghost function Fulfill(s: State, o: nat, requests: seq<Request>): Outcome {
    if o >= |s.sales| then RolledBack(NotFound)
    else
      var order := s.sales[o];
      if order.status !in SO.FULFILLABLE then RolledBack(InvalidStatus)
      else if !FulfillAccepts(order.lines, requests) then RolledBack(FulfillError(order.lines, requests))
      else
        var lines := FulfillLines(order.lines, requests);
        var status := if AllFulfilled(lines) then SO.Fulfilled else SO.PartiallyFulfilled;
        Committed(s.(
          sales := s.sales[o := order.(status := status, lines := lines)],
          emitted := s.emitted + [SalesOrderFulfilled(o, order.warehouse, FulfilledPayload(order.lines, requests))]))
  }

  // ---------- Purchase orders ----------

  ghost function CreatePurchaseOrder(s: State, warehouse: nat, items: seq<Item>): State {
    s.(purchases := s.purchases + [PurchaseOrder(PO.Draft, warehouse, NewPurchaseLines(items))])
  }

  function NewPurchaseLines(items: seq<Item>): seq<PurchaseLine> {
    seq(|items|, i requires 0 <= i < |items| => PurchaseLine(items[i].product, items[i].qty, 0))
  }

  /** Approve and cancel: a guarded change of status. */
  ghost function MovePurchaseOrder(s: State, p: nat, target: PO.Status): Outcome {
    if p >= |s.purchases| then RolledBack(NotFound)
    else if !PO.CanMove(s.purchases[p].status, target) then RolledBack(InvalidTransition)
    else Committed(s.(purchases := s.purchases[p := s.purchases[p].(status := target)]))
  }

  /** Receipt `i` is refused against the snapshot the transaction read, whatever earlier entries asked for. */
  predicate ReceiveFailsAt(lines: seq<PurchaseLine>, requests: seq<Request>, i: nat)
    requires i < |requests|
  {
    || requests[i].line >= |lines|
    || lines[requests[i].line].ordered < lines[requests[i].line].received + requests[i].qty
  }

  ghost predicate ReceiveAccepts(lines: seq<PurchaseLine>, requests: seq<Request>) {
    && KnownLines(|lines|, requests)
    && forall i :: 0 <= i < |requests| ==> !ReceiveFailsAt(lines, requests, i)
  }

  ghost predicate FirstReceiveFailure(lines: seq<PurchaseLine>, requests: seq<Request>, i: nat) {
    && i < |requests|
    && ReceiveFailsAt(lines, requests, i)
    && ReceiveAccepts(lines, requests[..i])
  }

  ghost function ReceiveError(lines: seq<PurchaseLine>, requests: seq<Request>): Error {
    if exists i: nat :: FirstReceiveFailure(lines, requests, i) && requests[i].line >= |lines| then UnknownLine
    else OverReceipt
  }

  ghost function ReceiveLines(lines: seq<PurchaseLine>, requests: seq<Request>): seq<PurchaseLine> {
    seq(|lines|, l requires 0 <= l < |lines| => lines[l].(received := lines[l].received + Requested(requests, l)))
  }

  predicate AllReceived(lines: seq<PurchaseLine>) {
    forall l :: 0 <= l < |lines| ==> lines[l].ordered <= lines[l].received
  }

  function ReceiptLines(p: nat, lines: seq<PurchaseLine>, requests: seq<Request>): seq<ReceiptLine>
    requires KnownLines(|lines|, requests)
  {
    seq(|requests|, i requires 0 <= i < |requests| =>
      ReceiptLine(LineRef(p, requests[i].line), lines[requests[i].line].product, requests[i].qty))
  }

  /** `first` is the id of the receipt line written for the first request. */
  function ReceivedPayload(lines: seq<PurchaseLine>, requests: seq<Request>, first: nat): seq<ReceivedLine>
    requires KnownLines(|lines|, requests)
  {
    seq(|requests|, i requires 0 <= i < |requests| =>
      ReceivedLine(requests[i].line, first + i, lines[requests[i].line].product, requests[i].qty))
  }

  /** Commits the received quantities with their receipt lines and emits the event for the ledger. */
  ghost function Receive(s: State, p: nat, requests: seq<Request>): Outcome {
    if p >= |s.purchases| then RolledBack(NotFound)
    else
      var po := s.purchases[p];
      if po.status !in PO.RECEIVABLE then RolledBack(InvalidStatus)
      else if !ReceiveAccepts(po.lines, requests) then RolledBack(ReceiveError(po.lines, requests))
      else
        var lines := ReceiveLines(po.lines, requests);
        var status := if AllReceived(lines) then PO.Received else PO.PartiallyReceived;
        Committed(s.(
          purchases := s.purchases[p := po.(status := status, lines := lines)],
          receipts := s.receipts + ReceiptLines(p, po.lines, requests),
          emitted := s.emitted + [PoReceived(p, po.warehouse, ReceivedPayload(po.lines, requests, |s.receipts|))]))
  }

  // ---------- Events ----------

  const SHIPPABLE: set<SO.Status> := {SO.Allocated, SO.PartiallyFulfilled, SO.Fulfilled}

  /** Why a shipment in this direction may not be created for these orders. */
  function ShipmentRefusal(s: State, direction: Direction, forPo: Maybe<nat>, forSo: Maybe<nat>): Maybe<Error> {
    match direction
    case Inbound =>
      if forPo.None? then Some(ValidationFailed)
      else if forPo.value >= |s.purchases| then Some(NotFound)
      else if !s.purchases[forPo.value].status.Approved? then Some(InvalidStatus)
      else None
    case Outbound =>
      if forSo.None? then Some(ValidationFailed)
      else if forSo.value >= |s.sales| then Some(NotFound)
      else if s.sales[forSo.value].status !in SHIPPABLE then Some(InvalidStatus)
      else None
  }

  /** Event `e` tells of a shipment linked to one of the orders; every shipment has told of itself. */
  predicate Links(e: Event, forPo: Maybe<nat>, forSo: Maybe<nat>) {
    e.ShipmentCreated? && ((forPo.Some? && e.forPo == forPo) || (forSo.Some? && e.forSo == forSo))
  }

  /** Some shipment is linked to one of the orders already: the unique columns refuse a second one. */
  predicate AlreadyLinked(s: State, forPo: Maybe<nat>, forSo: Maybe<nat>) {
    exists id :: 0 <= id < |s.emitted| && Links(s.emitted[id], forPo, forSo)
  }

  predicate DanglingLink(s: State, forPo: Maybe<nat>, forSo: Maybe<nat>) {
    (forPo.Some? && forPo.value >= |s.purchases|) || (forSo.Some? && forSo.value >= |s.sales|)
  }

  /** Commits a shipment and announces it.  Only the order its direction asks for is checked; the other link is stored as it came. */
  ghost function CreateShipment(s: State, direction: Direction, forPo: Maybe<nat>, forSo: Maybe<nat>): Outcome {
    var refusal := ShipmentRefusal(s, direction, forPo, forSo);
    if refusal.Some? then RolledBack(refusal.value)
    else if AlreadyLinked(s, forPo, forSo) then RolledBack(UniqueViolation)
    else if DanglingLink(s, forPo, forSo) then RolledBack(ForeignKeyViolation)
    else Committed(s.(emitted := s.emitted + [ShipmentCreated(forPo, forSo)]))
  }

  function KeysOf(ms: seq<Movement>): set<Key> {
    set i | 0 <= i < |ms| :: ms[i].key
  }

  /** A receipt raises on-hand and creates the rows that do not exist yet. */
  ghost function ArriveStock(stock: map<Key, StockLevel>, ms: seq<Movement>): map<Key, StockLevel> {
    map k | k in stock.Keys + KeysOf(ms) ::
      var level := if k in stock then stock[k] else StockLevel(0, 0);
      level.(onHand := level.onHand + Sum(ms, DeltaAt(k)))
  }

  /** A fulfilment lowers on-hand and reserved by the same quantity. */
  ghost function ShipStock(stock: map<Key, StockLevel>, ms: seq<Movement>): map<Key, StockLevel> {
    map k | k in stock ::
      StockLevel(stock[k].onHand - Sum(ms, ShippedAt(k)), stock[k].reserved - Sum(ms, ShippedAt(k)))
  }

  /** Counts shipped units towards a reservation and closes it when nothing is left. */
  function ConsumeRow(r: Reservation, qty: int): Reservation {
    if qty == 0 then r
    else r.(fulfilled := r.fulfilled + qty,
            status := if r.quantity <= r.fulfilled + qty then ReservationStatus.Fulfilled else r.status)
  }

  ghost function ConsumeRows(rows: seq<Reservation>, ms: seq<Movement>): seq<Reservation> {
    seq(|rows|, i requires 0 <= i < |rows| => ConsumeRow(rows[i], Sum(ms, ShippedFor(rows[i].ref))))
  }

  /**
   * One delivery of event `id`.  A claimed id changes nothing, and a shipment without a purchase
   * order is ignored before it is claimed.
   */
  ghost function Deliver(s: State, id: nat): State {
    if id >= |s.emitted| || id in s.processed then s
    else
      var e := s.emitted[id];
      var ms := MovementsOf(e);
      match e
      case PoReceived(_, _, _) =>
        s.(processed := s.processed + {id}, movements := s.movements + ms, stock := ArriveStock(s.stock, ms))
      case SalesOrderFulfilled(_, _, _) =>
        s.(processed := s.processed + {id}, movements := s.movements + ms, stock := ShipStock(s.stock, ms),
           reservations := ConsumeRows(s.reservations, ms))
      case ShipmentCreated(None, _) => s
      case ShipmentCreated(Some(p), _) =>
        if p < |s.purchases| && s.purchases[p].status.Approved? then
          s.(processed := s.processed + {id}, purchases := s.purchases[p := s.purchases[p].(status := PO.Shipped)])
        else s.(processed := s.processed + {id})
  }

  // ---------- Runs ----------

  datatype Step =
    | StepCreateSales(warehouse: nat, items: seq<Item>)
    | StepConfirm(o: nat)
    | StepAllocate(o: nat)
    | StepCancelSales(o: nat)
    | StepFulfill(o: nat, requests: seq<Request>)
    | StepCreatePurchase(warehouse: nat, items: seq<Item>)
    | StepApprove(p: nat)
    | StepCancelPurchase(p: nat)
    | StepReceive(p: nat, requests: seq<Request>)
    | StepCreateShipment(direction: Direction, forPo: Maybe<nat>, forSo: Maybe<nat>)
    | StepDeliver(id: nat)

  ghost function Attempt(s: State, step: Step): Outcome {
    match step
    case StepCreateSales(warehouse, items) => Committed(CreateSalesOrder(s, warehouse, items))
    case StepConfirm(o) => Confirm(s, o)
    case StepAllocate(o) => Allocate(s, o)
    case StepCancelSales(o) => CancelSalesOrder(s, o)
    case StepFulfill(o, requests) => Fulfill(s, o, requests)
    case StepCreatePurchase(warehouse, items) => Committed(CreatePurchaseOrder(s, warehouse, items))
    case StepApprove(p) => MovePurchaseOrder(s, p, PO.Approved)
    case StepCancelPurchase(p) => MovePurchaseOrder(s, p, PO.Cancelled)
    case StepReceive(p, requests) => Receive(s, p, requests)
    case StepCreateShipment(direction, forPo, forSo) => CreateShipment(s, direction, forPo, forSo)
    case StepDeliver(id) => Committed(Deliver(s, id))
  }

  /** The tables after a step: those it commits, or the old ones when it rolls back. */
  ghost function After(s: State, step: Step): State {
    match Attempt(s, step)
    case Committed(t) => t
    case RolledBack(_) => s
  }

  /** Some fulfilment of order `o` is emitted but not yet posted to the ledger. */
  ghost predicate FulfillmentInFlight(s: State, o: nat) {
    exists id :: 0 <= id < |s.emitted| && id !in s.processed && s.emitted[id].SalesOrderFulfilled? && s.emitted[id].so == o
  }

  /** No line is asked, repeated entries added up, for more than it lacks. */
  ghost predicate ReceiptFits(lines: seq<PurchaseLine>, requests: seq<Request>) {
    forall l :: 0 <= l < |lines| ==> Requested(requests, l) <= lines[l].ordered - lines[l].received
  }

  ghost predicate DistinctLines(requests: seq<Request>) {
    forall i, j :: 0 <= i < j < |requests| ==> requests[i].line != requests[j].line
  }

  /**
   * What callers owe: request lists are never empty; a receipt that is accepted entry by entry also
   * fits in total, as it always does when it names each line once; an order is not cancelled while
   * one of its fulfilments is still in flight.
   */
  ghost predicate Orderly(s: State, step: Step) {
    match step
    case StepCreateSales(_, items) => items != []
    case StepCreatePurchase(_, items) => items != []
    case StepFulfill(_, requests) => requests != []
    case StepReceive(p, requests) =>
      requests != [] && (p < |s.purchases| && ReceiveAccepts(s.purchases[p].lines, requests) ==> ReceiptFits(s.purchases[p].lines, requests))
    case StepCancelSales(o) => !FulfillmentInFlight(s, o)
    case _ => true
  }

  ghost function Run(s: State, steps: seq<Step>): State {
    if steps == [] then s else After(Run(s, steps[..|steps| - 1]), steps[|steps| - 1])
  }

  ghost predicate OrderlyRun(s: State, steps: seq<Step>) {
    steps == []
    || (OrderlyRun(s, steps[..|steps| - 1]) && Orderly(Run(s, steps[..|steps| - 1]), steps[|steps| - 1]))
  }

  ghost function DeliverAll(s: State, ids: seq<nat>): State {
    if ids == [] then s else Deliver(DeliverAll(s, ids[..|ids| - 1]), ids[|ids| - 1])
  }

  /** The tables before any order: opening stock with its ledger rows, nothing reserved, nothing emitted. */
  ghost function Start(stock: map<Key, StockLevel>, ledger: seq<Movement>): State {
    State([], [], [], stock, ledger, [], {}, [])
  }

  /** Opening stock the ledger accounts for, row by row and never below zero. */
  ghost predicate SoundOpening(stock: map<Key, StockLevel>, ledger: seq<Movement>) {
    && (forall i :: 0 <= i < |ledger| ==> ledger[i].source.Opening? && ledger[i].key in stock)
    && (forall k :: k in stock ==> stock[k].reserved == 0 && stock[k].onHand == Sum(ledger, DeltaAt(k)))
    && (forall k: Key, n :: 0 <= n <= |ledger| ==> 0 <= Sum(ledger[..n], DeltaAt(k)))
  }
}
