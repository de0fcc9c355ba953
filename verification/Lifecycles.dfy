/** Sales-order statuses, their transition table and the status lists derived from it. */
module SalesOrderLifecycle {
  datatype Status = Draft | Confirmed | Allocated | PartiallyFulfilled | Fulfilled | Cancelled

  function Successors(current: Status): set<Status> {
    match current
    case Draft => {Confirmed, Cancelled}
    case Confirmed => {Allocated, Cancelled}
    case Allocated => {PartiallyFulfilled, Fulfilled, Cancelled}
    case PartiallyFulfilled => {Fulfilled, Cancelled}
    case Fulfilled => {}
    case Cancelled => {}
  }

  predicate CanMove(current: Status, target: Status) {
    target in Successors(current)
  }

  const FULFILLABLE: set<Status> := {Allocated, PartiallyFulfilled}
  const OPEN_DEMAND: set<Status> := {Confirmed, Allocated, PartiallyFulfilled}
}

/** Purchase-order statuses, their transition table and the status lists derived from it. */
module PurchaseOrderLifecycle {
  datatype Status = Draft | Approved | Shipped | PartiallyReceived | Received | Cancelled

  function Successors(current: Status): set<Status> {
    match current
    case Draft => {Approved, Cancelled}
    case Approved => {Shipped, Cancelled}
    case Shipped => {PartiallyReceived, Received, Cancelled}
    case PartiallyReceived => {Received, Cancelled}
    case Received => {}
    case Cancelled => {}
  }

  predicate CanMove(current: Status, target: Status) {
    target in Successors(current)
  }

  const RECEIVABLE: set<Status> := {Shipped, PartiallyReceived}
  const INCOMING: set<Status> := {Approved, Shipped, PartiallyReceived}
}

/** Shipment statuses and their transition table. */
module ShipmentLifecycle {
  datatype Status = Created | Booked | InTransit | Arrived | Delivered | Cancelled

  function Successors(current: Status): set<Status> {
    match current
    case Created => {Booked, Cancelled}
    case Booked => {InTransit, Cancelled}
    case InTransit => {Arrived, Cancelled}
    case Arrived => {Delivered}
    case Delivered => {}
    case Cancelled => {}
  }

  predicate CanMove(current: Status, target: Status) {
    target in Successors(current)
  }

  const ACTIVE: set<Status> := {Created, Booked, InTransit, Arrived}
}
