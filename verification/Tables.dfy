/**
 * The rows of the order-to-ledger protocol.  Row ids of orders, order lines, receipt lines and
 * events are their positions in insertion order: no such row is ever deleted.
 */
module Tables {
  import opened Wrappers
  import SO = SalesOrderLifecycle
  import PO = PurchaseOrderLifecycle

  /** A quantity a request may carry: a positive integer. */
  type Qty = n: int | 0 < n witness 1

  datatype Key = Key(product: nat, warehouse: nat)

  datatype LineRef = LineRef(order: nat, line: nat)

  // Fulfillment

  datatype SalesLine = SalesLine(product: nat, ordered: Qty, reserved: int, fulfilled: int)

  datatype SalesOrder = SalesOrder(status: SO.Status, warehouse: nat, lines: seq<SalesLine>)

  // Procurement

  datatype PurchaseLine = PurchaseLine(product: nat, ordered: Qty, received: int)

  datatype PurchaseOrder = PurchaseOrder(status: PO.Status, warehouse: nat, lines: seq<PurchaseLine>)

  datatype ReceiptLine = ReceiptLine(poLine: LineRef, product: nat, qty: Qty)

  // Inventory

  datatype StockLevel = StockLevel(onHand: int, reserved: int)

  /** What caused a movement; opening stock has no order line behind it. */
  datatype Source =
    | Opening
    | Receipt(poLine: LineRef, receiptLine: nat)
    | Fulfillment(soLine: LineRef)

  datatype Movement = Movement(key: Key, delta: int, source: Source)

  datatype ReservationStatus = Active | Fulfilled | Cancelled

  datatype Reservation = Reservation(ref: LineRef, key: Key, quantity: int, fulfilled: int, status: ReservationStatus)

  // Domain events that change state when they are handled

  datatype ReceivedLine = ReceivedLine(line: nat, receiptLine: nat, product: nat, qty: Qty)

  datatype FulfilledLine = FulfilledLine(line: nat, product: nat, qty: Qty)

  datatype Event =
    | PoReceived(po: nat, poWarehouse: nat, received: seq<ReceivedLine>)
    | SalesOrderFulfilled(so: nat, soWarehouse: nat, fulfilled: seq<FulfilledLine>)
    | ShipmentCreated(forPo: Maybe<nat>, forSo: Maybe<nat>)

  datatype Direction = Inbound | Outbound

  /** One requested quantity of one order line. */
  datatype Request = Request(line: nat, qty: Qty)

  /** One line of a new order. */
  datatype Item = Item(product: nat, qty: Qty)

  /** All tables, and every event emitted so far; `processed` holds the claimed event ids. */
  datatype State = State(
    sales: seq<SalesOrder>,
    purchases: seq<PurchaseOrder>,
    receipts: seq<ReceiptLine>,
    stock: map<Key, StockLevel>,
    movements: seq<Movement>,
    reservations: seq<Reservation>,
    processed: set<nat>,
    emitted: seq<Event>)

  datatype Error =
    | NotFound
    | InvalidTransition
    | InvalidStatus
    | UnknownLine
    | OverFulfillment
    | OverReceipt
    | InsufficientStock
    | UniqueViolation
    | ForeignKeyViolation
    | ValidationFailed

  /** How a transaction ends: with new tables, or rolled back with an error. */
  datatype Outcome = Committed(state: State) | RolledBack(error: Error)
}
