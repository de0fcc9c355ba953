# The order-to-ledger protocol, verified

Three modules of the system each own a part of one quantity. Fulfillment owns what is reserved and
fulfilled of a sales-order line, Procurement owns what is received of a purchase-order line, and
Inventory owns the stock rows, the movement ledger and the reservations. They are joined by direct
calls inside one transaction and by events that may arrive late, in any order and repeatedly. This
project models that protocol in Dafny and proves what it keeps.

How the files fit together:

- `Tables.dfy`, `Lifecycles.dfy`, `Wrappers.dfy` hold the rows, the events and the three transition tables.
- `Protocol.dfy` says in closed form what one transaction does to all tables: what is committed, or
  which error rolls it back. A `Run` is any sequence of such transactions and of event deliveries;
  an event that was emitted can be delivered at any later point, any number of times, or never.
- `Services.dfy` has the services as classes that update the tables step by step, with the loops,
  guards and roll-backs of the source. Every method is specified on any tables, and proved to do
  exactly what `Protocol.dfy` says on those a run can reach.
- `Invariants.dfy` states one invariant over all tables. `SalesSteps.dfy`, `FulfillSteps.dfy`,
  `PurchaseSteps.dfy` and `DeliverySteps.dfy` prove that each transaction keeps it.
- `Theorems.dfy`, `Lifetimes.dfy`, `Settlement.dfy`, `Replay.dfy`, `Completion.dfy` and
  `ReceiptTrail.dfy` draw the results about whole runs from it. `SideConditions.dfy` has the conditions
  on callers that the runs assume.
- `Guards.dfy` says status by status which order accepts which operation, without naming the tables
  and lists in which the services look that up. `Inbound.dfy` follows goods from a new purchase order
  to the stock row, and says which approved orders can still be shipped.
- `Allocation.dfy`, `ConcurrentAllocation.dfy`, `ConcurrencyTheorems.dfy`, `ConcurrencyProgress.dfy`
  and `ConcurrentRuns.dfy` model concurrent allocations statement by statement, with row locks, and
  prove that they are serializable, never deadlock, always end, and refine the runs above.
- `ConcurrentFulfillment.dfy` and `FulfillmentMarks.dfy` model overlapping fulfilments of one order
  statement by statement, `ConcurrentReceiving.dfy` and `ReceiptConditions.dfy` overlapping receipts of
  one purchase order; `Overlaps.dfy` holds what the two have in common. They say for which requests
  every interleaving keeps its promises.
- `Shipments.dfy`, `ShipmentRequests.dfy` and `ShipmentsService.dfy` do the shipment row that repeats
  its tracking log and the exception register derived from it.
- `RiskRows.dfy` and `Incoming.dfy` do the inventory-risk rows, `Numbering.dfy` the document numbers,
  `Sums.dfy` sums over rows.

"In flight" means emitted but not yet applied: an event whose handler has not claimed it.

Every lemma switches Dafny's automatic induction off; where a proof is by induction, it calls itself.

Some promises hold only under a condition. For each there is a lemma with an input that fails, and
the exact condition.

- Cancelling. If an order is cancelled while one of its fulfilments is in flight, the release gives
  back too much, and posting the fulfilment afterwards takes it once more: ten in stock, ten ordered
  and allocated, four fulfilled, cancelled, posted leaves the stock row reserving minus four
  (`SideConditions.LateFulfillmentGoesNegative`). A cancellation is safe exactly when the order's
  reservations have counted what its lines have (`SideConditions.CancelSafeExactly`). The comment at
  apps/api/src/modules/inventory/inventory.service.ts:135-137 calls the release safe without a lock
  and does not name this condition.
- Receiving, one receipt at a time. The guard compares every entry of a receipt with the same
  snapshot, so six and six of ten ordered are received as twelve
  (`SideConditions.RepeatedReceiptExceeds`). A receipt that no other receipt of the order overlaps is
  safe exactly when no line is asked, repeated entries added up, for more than it lacks
  (`SideConditions.ReceiveSafeExactly`). The comment at
  apps/api/src/modules/procurement/purchase-orders.service.ts:160-161 promises rejection without this
  condition.
- Receiving, with overlaps. The snapshot is read without a lock, so two receipts of six of ten that
  overlap both pass and make twelve (`ConcurrentReceiving.OverlapExceeds`). All schedules stay within
  what was ordered exactly when all lists that pass the guard one by one also fit together
  (`ReceiptConditions.WithinOrderedExactly`).
- Marking an order fulfilled. Two fulfilments of different lines that overlap each miss the other's
  uncommitted counters; both commit, and a complete order stays partially fulfilled
  (`ConcurrentFulfillment.OverlapLosesTheMark`). All schedules leave the right mark exactly when no
  selection of the lists that completes the order contains two lists without a common line
  (`FulfillmentMarks.MarkRightExactly`).
- Marking an order received. The same happens to receipts of different lines
  (`ReceiptConditions.OverlapLosesReceived`); all schedules leave the right mark exactly when in every
  selection of acceptable lists that completes the order, each list completes it with just those it
  shares a line with (`ReceiptConditions.ReceivedMarkExactly`).
- Shipping an approved order. A shipment stores both links it is given, but only the order its
  direction asks for is checked. An outbound shipment that also names a draft purchase order uses up
  that order's one link; its announcement finds a draft and is claimed, and the order, once approved,
  can never be shipped (`Inbound.SideLinkStrands`; a concrete run is `Inbound.StrandedOrder`). An approved
  order can still be shipped exactly if no announcement of a shipment linked to it has been handled
  (`Inbound.ShippableExactly`), and all that is incoming can come exactly if no approved order is
  stranded so (`Incoming.IncomingComesExactly`).
- Showing a shipment's place. An empty name without coordinates is logged but not shown
  (`Shipments.EmptyNameIsNotShown`); a null name with coordinates clears the shown place and leaves the
  same log as a name left out (`Shipments.NullNameClears`). The exact conditions are
  `Shipments.PlaceFollowsLogExactly` and `Shipments.PlaceIsLastExactly`.
- Sorting document numbers. The millionth number of a year sorts before its predecessor
  (`Numbering.SeventhDigitBreaksOrder`); string order is issue order exactly up to 999999
  (`Numbering.StringOrderExactly`).

Runs of whole transactions in which no caller does either of the first two are called orderly
(`Protocol.OrderlyRun`); request and line lists are non-empty and quantities positive, as the request
classes demand (apps/api/src/modules/fulfillment/dto/create-sales-order.dto.ts:20-22 and 48-52).

## Model

| member | source | states |
|---|---|---|
| Services.Database.ClaimEvent | apps/api/src/common/events/claim-event.ts:10-20 | the claim succeeds exactly if the event was never claimed, and afterwards it is claimed; nothing else changes |
| Services.Database.FindReservation | apps/api/src/modules/inventory/inventory.service.ts:194-197 | finds the reservation of a line, or says that there is none |
| Services.InventoryService.ReserveForSalesOrder | apps/api/src/modules/inventory/inventory.service.ts:86-127 | refuses exactly when less than the quantity is available, a missing stock row counting as nothing, or when the line already has a reservation; otherwise raises reserved and adds one active reservation |
| Services.InventoryService.UpsertWarehouseStockLevel | apps/api/src/modules/inventory/inventory.service.ts:291-315 | moves an existing stock row by the given deltas, or creates it with no reserved quantity |
| Services.InventoryService.PostMovement | apps/api/src/modules/inventory/inventory.service.ts:245-279 | appends one ledger row and moves its stock row by the same delta, in one transaction |
| Services.InventoryService.ReleaseReservationsForSalesOrder | apps/api/src/modules/inventory/inventory.service.ts:139-164 | on any tables the loop closes exactly the active reservations of the order and releases row by row, creating a missing stock row empty; where no row has over-counted or misses its stock row, this gives back per key the sum of what the rows hold |
| Services.InventoryService.HandlePoReceived | apps/api/src/modules/inventory/inventory.service.ts:41-63 | posting line by line equals one delivery: per key the sum of the received quantities arrives, and a claimed event changes nothing |
| Services.InventoryService.PostFulfilledLine | apps/api/src/modules/inventory/inventory.service.ts:184-203 | succeeds exactly if the line has a reservation; then one negative ledger row, on-hand and reserved lowered alike, the line's first reservation counted up and closed when used up |
| Services.InventoryService.HandleSalesOrderFulfilled | apps/api/src/modules/inventory/inventory.service.ts:175-208 | on any tables: fails exactly if an unclaimed event names a line without reservation, and then everything, the claim included, is undone; otherwise the claim and the lines posted one after the other, or nothing if claimed before; on consistent tables this equals one delivery, also when an event names a line twice |
| Services.PostStepsAddUp | apps/api/src/modules/inventory/inventory.service.ts:184-206 | where every line has its one reservation and its stock row, posting line by line adds up to posting the event: per key and per line the sums of what it ships |
| Services.SalesOrdersService.Create | apps/api/src/modules/fulfillment/sales-orders.service.ts:34-61 | draws the next number and adds one draft order with both counters of every line at zero; nothing else changes |
| Services.SalesOrdersService.Confirm | apps/api/src/modules/fulfillment/sales-orders.service.ts:110-131 | confirms a draft order; an unknown order or a status that may not be confirmed is refused without effect |
| Services.SalesOrdersService.AllocateLines | apps/api/src/modules/fulfillment/sales-orders.service.ts:147-162 | on any tables: the lines one after the other in lock order, up to the first that finds too little or already has a reservation, whose error is the answer |
| Services.SalesOrdersService.Allocate | apps/api/src/modules/fulfillment/sales-orders.service.ts:139-166 | on any tables: all lines reserved one after the other and the order allocated, or the first refusal and everything as before; on consistent tables success means exactly that the total demand per key was available |
| Services.StepsAddUp | apps/api/src/modules/fulfillment/sales-orders.service.ts:147-162 | for an order without reservations the line-by-line loop either adds up to the per-key totals or is refused for too little stock, the order's total demand then exceeding what was available |
| Services.ByLinesIsWhole | apps/api/src/modules/fulfillment/sales-orders.service.ts:142-166 | on consistent tables allocating line by line is allocating as a whole, outcome by outcome |
| Services.SalesOrdersService.Cancel | apps/api/src/modules/fulfillment/sales-orders.service.ts:190-218 | on any tables: refused exactly for an unknown order or a forbidden status, without effect; otherwise cancelled, with reservations released row by row and reserved counters zeroed exactly when the order held stock; on consistent tables the release gives back the per-key sums |
| Services.ReleaseStepsAddUp | apps/api/src/modules/inventory/inventory.service.ts:149-162 | where no row has over-counted or misses its stock row, releasing row by row gives back per key the sum of what the rows hold |
| Services.SalesOrdersService.Fulfill | apps/api/src/modules/fulfillment/sales-orders.service.ts:233-287 | the guard on the live rows accepts repeated lines only while they fit together; one refused request rolls back all; otherwise counters move, status follows them and one event is emitted |
| Services.PurchaseOrdersService.Create | apps/api/src/modules/procurement/purchase-orders.service.ts:25-51 | draws the next number and adds one draft purchase order with nothing received; nothing else changes |
| Services.PurchaseOrdersService.Move | apps/api/src/modules/procurement/purchase-orders.service.ts:106-154 | approve and cancel change the status of one order along the transition table, or refuse without effect |
| Services.PurchaseOrdersService.Receive | apps/api/src/modules/procurement/purchase-orders.service.ts:163-239 | the check loop and the write loop: the first bad line decides the error and nothing is written; otherwise counters, receipt lines, status and one event, all from the same request |
| Services.PurchaseOrdersService.HandleShipmentCreated | apps/api/src/modules/procurement/purchase-orders.service.ts:254-269 | ships an approved order once per event; without an order it does not even claim, and an order that moved on is left alone |
| Services.ShipmentCreator.Create | apps/api/src/modules/logistics/shipments.service.ts:38-126 | checks only the order its direction asks for, then draws a number, and is refused with the number given back if either linked order has a shipment already or does not exist; otherwise announces the shipment once |
| Services.ReachableIsConsistent | apps/api/src/modules/inventory/inventory.service.ts:191-203 | every state that meets the invariant has the rows the release and fulfilment loops look up |
| Allocation.LoopCriterion | apps/api/src/modules/fulfillment/sales-orders.service.ts:147-162 | every line finds its quantity in what the earlier lines left, exactly when for every product the order's lines together want at most the initial available quantity, repeated products included |
| Allocation.AllFit | apps/api/src/modules/inventory/inventory.service.ts:96-112 | quantities that fit at every key in lock order cover the whole order |
| Allocation.OneFails | apps/api/src/modules/inventory/inventory.service.ts:101-107 | one line that finds too little proves that the whole order is not covered |
| Allocation.WholeAllocation | apps/api/src/modules/fulfillment/sales-orders.service.ts:151-164 | after the last line, line-by-line writes add up to the demand per key and to every line being reserved |
| SalesSteps.SortedIsListing | apps/api/src/modules/fulfillment/sales-orders.service.ts:147 | the lock order is a permutation of the order's lines, ascending by product |
| SalesSteps.SortedHasEveryLine | apps/api/src/modules/fulfillment/sales-orders.service.ts:147-162 | every line of the order occurs exactly once in the lock order |
| SalesSteps.AllocateAdds | apps/api/src/modules/inventory/inventory.service.ts:109-124 | an allocation adds the order's demand to the stock row, to the reservations and to the line counters alike |
| SalesSteps.RestatusKeeps | apps/api/src/modules/fulfillment/sales-orders.service.ts:110-131 | confirming, and cancelling an order that holds nothing, keep the invariant |
| SalesSteps.AllocateKeeps | apps/api/src/modules/fulfillment/sales-orders.service.ts:142-166 | a committed allocation keeps the invariant |
| FulfillSteps.FulfillCriterion | apps/api/src/modules/fulfillment/sales-orders.service.ts:247-266 | the request-by-request guard accepts a list exactly when every line is known and no line is asked, repeated entries added up, for more than it has reserved |
| FulfillSteps.EventMatchesLines | apps/api/src/modules/fulfillment/sales-orders.service.ts:256-268 | the emitted event ships per key exactly what the counters of the lines moved |
| FulfillSteps.EventMatchesRequests | apps/api/src/modules/fulfillment/sales-orders.service.ts:268-286 | the emitted event ships per line exactly what was requested of it and nothing of other orders |
| FulfillSteps.RowsAreLines | apps/api/src/modules/inventory/inventory.service.ts:144-153 | summing over an order's reservations is summing over its lines: each line has exactly one reservation |
| FulfillSteps.ReleasedIsReserved | apps/api/src/modules/inventory/inventory.service.ts:149-157 | with nothing in flight, what a release gives back per key is what the order's lines still have reserved |
| FulfillSteps.FulfillKeeps | apps/api/src/modules/fulfillment/sales-orders.service.ts:236-287 | a committed fulfilment keeps the invariant, its event being in flight |
| FulfillSteps.CancelKeeps | apps/api/src/modules/fulfillment/sales-orders.service.ts:193-218 | a cancellation with nothing of the order in flight keeps the invariant |
| PurchaseSteps.MoveKeeps | apps/api/src/modules/procurement/purchase-orders.service.ts:106-154 | approving, shipping and cancelling a purchase order keep the invariant |
| PurchaseSteps.ReceiptMatchesLines | apps/api/src/modules/procurement/purchase-orders.service.ts:197-219 | the emitted event brings per key exactly what the counters of the lines rose by |
| PurchaseSteps.ReceiveKeeps | apps/api/src/modules/procurement/purchase-orders.service.ts:166-239 | a committed receipt that fits in total keeps the invariant, its event being in flight |
| PurchaseSteps.CreateShipmentKeeps | apps/api/src/modules/logistics/shipments.service.ts:38-126 | creating a shipment keeps the invariant |
| DeliverySteps.TakenIsShipped | apps/api/src/modules/inventory/inventory.service.ts:184-203 | counted over reservations or over ledger rows, a batch of shipments takes the same from a key |
| DeliverySteps.FulfillmentTakes | apps/api/src/modules/inventory/inventory.service.ts:184-203 | posting a fulfilment lowers what the reservations of a key hold by exactly what it ships of that key |
| DeliverySteps.DeliverKeeps | apps/api/src/modules/inventory/inventory.service.ts:41-63 | delivering any event, claimed or not, keeps the invariant |
| Theorems.AfterKeeps | apps/api/src/modules/fulfillment/sales-orders.service.ts:110-290 | every orderly transaction and every delivery keeps the invariant |
| Theorems.RunKeeps | apps/api/src/common/events/domain-events.ts:9-15 | every state an orderly run can reach meets the invariant, whatever the order, delay and repetition of deliveries |
| Theorems.Conservation | apps/api/src/modules/inventory/inventory.service.ts:245-279 | end to end, per key: on-hand is the ledger sum, and it is opening stock plus all received minus all fulfilled, less receipts and plus fulfilments in flight, over all orders, cancelled ones included |
| Theorems.ReservedAgreement | apps/api/src/modules/inventory/inventory.service.ts:109-124 | per key: reserved is what the active reservations hold, and what the order lines have reserved plus what is in flight |
| Theorems.LineAgreement | apps/api/src/modules/inventory/inventory.service.ts:184-203 | every line of an allocated, uncancelled order has a reservation that differs from the line's two counters only by what is in flight |
| Theorems.NoOversell | apps/api/src/modules/inventory/inventory.service.ts:91-112 | reserved never falls below zero nor exceeds on-hand, and every prefix of the ledger sums to at least zero per key, under any schedule of deliveries |
| Theorems.ClaimsDetermineInventory | apps/api/src/common/events/claim-event.ts:10-20 | stock rows, reservations and the bag of ledger rows are a function of the orders and of the set of claimed events |
| Theorems.ExactlyOnce | apps/api/src/common/events/claim-event.ts:10-20 | two delivery sequences of the same events, in any order and with any repetition, end in the same stock rows, reservations, claims and bag of ledger rows |
| Theorems.DeliveriesShip | apps/api/src/modules/procurement/purchase-orders.service.ts:254-269 | after any deliveries a purchase order is shipped by them exactly when it was approved and an unclaimed event among them announces it, whatever their order and number |
| Theorems.OneShipmentPerOrder | packages/database/prisma/migrations/20260824082516_init/migration.sql:295-298 | over any run every purchase order and every sales order is linked to at most one shipment, although creation checks only one of the two |
| Theorems.RowsAreThere | apps/api/src/modules/inventory/inventory.service.ts:272-315 | only receipts take the branch that creates a stock row: fulfilments in flight and releases always find their stock rows, and fulfilments their reservations |
| Theorems.SalesCoupling | apps/api/src/modules/fulfillment/sales-orders.service.ts:246-275 | what each sales status says about the counters: none before allocation, reserved plus fulfilled equal to ordered while holding, fulfilled exactly when complete, allocated exactly when none has started, nothing reserved once cancelled, never over-fulfilled |
| Theorems.PurchaseCoupling | apps/api/src/modules/procurement/purchase-orders.service.ts:166-228 | received stays within ordered, equals the line's receipt lines, equals its ledger arrivals plus those in flight, and the status is received exactly when all lines are complete |
| SideConditions.LateFulfillmentGoesNegative | apps/api/src/modules/inventory/inventory.service.ts:149-162 | at the end of an orderly run from ten in stock: four of ten fulfilled and in flight, cancelled, then posted leaves on-hand six and reserved minus four |
| SideConditions.LateFulfillmentShortfall | apps/api/src/modules/inventory/inventory.service.ts:184-203 | for every order, every fulfilment in flight and every key: cancelling and then posting leaves the reserved counter short of the reservations by exactly what the fulfilment ships |
| SideConditions.LateFulfillmentBreaks | apps/api/src/modules/inventory/inventory.service.ts:149-162 | for every order and every fulfilment still in flight: cancelling and then delivering it breaks the agreement |
| SideConditions.CaughtUpExactly | apps/api/src/modules/inventory/inventory.service.ts:194-197 | nothing of an order is in flight exactly when every reservation of it has counted what its line has: a condition on rows, checkable before the call |
| SideConditions.CancelSafeExactly | apps/api/src/modules/inventory/inventory.service.ts:144-162 | a committed cancellation keeps the invariant, and leaves the reserved counter in step with the reservations under all later deliveries, exactly when the order's reservations have counted what its lines have |
| SideConditions.RepeatedReceiptExceeds | apps/api/src/modules/procurement/purchase-orders.service.ts:176-191 | at the end of an orderly run that orders and ships ten: a receipt of six and six on one line commits, with twelve received |
| SideConditions.ReceiveSafeExactly | apps/api/src/modules/procurement/purchase-orders.service.ts:176-228 | for receipts of one order that do not overlap: in every reachable state a committed receipt keeps the invariant, and the order within what was ordered, exactly when no line is asked, entries added up, for more than it lacks; naming each line once suffices |
| Lifetimes.SalesOrderMoves | apps/api/src/modules/fulfillment/sales-order-lifecycle.ts:22-35 | any step leaves a sales order as it was, or moves it along the transition table and shortens its life; a committed operation on it always does the latter |
| Lifetimes.PurchaseOrderMoves | apps/api/src/modules/procurement/purchase-order-lifecycle.ts:14-30 | the same for purchase orders, redelivered shipment events included |
| Lifetimes.SalesLifeBound | apps/api/src/modules/fulfillment/sales-order-lifecycle.ts:22-35 | changes made and life left of a sales order never add up to more than two plus its ordered quantity |
| Lifetimes.PurchaseLifeBound | apps/api/src/modules/procurement/purchase-order-lifecycle.ts:14-30 | the same bound for purchase orders |
| Lifetimes.OpenSalesLife | apps/api/src/modules/fulfillment/sales-order-lifecycle.ts:31-32 | the life measure is zero exactly in the terminal states, so these are absorbing |
| Lifetimes.BoundedLives | apps/api/src/modules/procurement/purchase-orders.service.ts:254-269 | over a whole run no more than two plus the ordered quantity operations on an order commit, and it changes no more often than that, however often events are delivered |
| Guards.ConfirmExactly | apps/api/src/modules/fulfillment/sales-orders.service.ts:110-131 | exactly a draft is confirmed; an unknown order and every other status have their own errors |
| Guards.CancelExactly | apps/api/src/modules/fulfillment/sales-orders.service.ts:193-213 | exactly an order that is neither fulfilled nor cancelled is cancelled, which in every reachable state is one with life left |
| Guards.AllocateExactly | apps/api/src/modules/fulfillment/sales-orders.service.ts:139-165 | in every reachable state exactly a confirmed order is allocated, if every key has free what the order wants of it; the status is looked at first |
| Guards.FulfillExactly | apps/api/src/modules/fulfillment/sales-orders.service.ts:236-266 | exactly an allocated or partially fulfilled order is fulfilled, by lists that ask of no line more than it has reserved; an unknown line is reported only if the entries before it fit |
| Guards.ApproveExactly | apps/api/src/modules/procurement/purchase-orders.service.ts:106-124 | exactly a draft is approved |
| Guards.CancelPurchaseExactly | apps/api/src/modules/procurement/purchase-orders.service.ts:137-144 | exactly a purchase order that is neither received nor cancelled is cancelled, which in every reachable state is one with life left |
| Guards.ReceiveExactly | apps/api/src/modules/procurement/purchase-orders.service.ts:166-191 | exactly a shipped or partially received order is received, by lists each entry of which fits; draft, approved, received and cancelled orders are refused for their status, and the first bad entry decides the error |
| Guards.ShipmentExactly | apps/api/src/modules/logistics/shipments.service.ts:48-109 | a shipment is created exactly if the order its direction asks for is ready - approved inwards, allocated or fulfilled in part or whole outwards - and every order it is linked to exists and has no shipment yet; each refusal has its error |
| Completion.EventuallyAgree | apps/api/src/common/events/domain-events.ts:9-15 | once every emitted event has been delivered, in any order and any number of times, the three modules agree exactly per key: on-hand is opening stock plus received minus fulfilled, reserved is what the order lines have reserved |
| Completion.LinesEventuallyAgree | apps/api/src/modules/inventory/inventory.service.ts:184-203 | then every line of an order that holds stock has a reservation with the line's own counters |
| Completion.HeldOrderCanBeCompleted | apps/api/src/modules/fulfillment/sales-orders.service.ts:239-275 | in every reachable state an allocated or partially fulfilled order is completed by the one request that asks for all it has reserved: the guards never leave it stuck |
| Completion.ShippedOrderCanBeCompleted | apps/api/src/modules/procurement/purchase-orders.service.ts:169-225 | in every reachable state a shipped or partially received order is completed by the one receipt of all it lacks |
| Completion.RestCanBeReceived | apps/api/src/modules/procurement/purchase-orders.service.ts:169-225 | in every reachable state, after a committed receipt that leaves a line short the receipt of the rest commits and completes the order |
| Inbound.GoodsArrive | apps/api/src/modules/procurement/purchase-orders.service.ts:25-242 | in every reachable state a purchase order over any items goes through - created, approved, announced, received and posted - leaves one line, one receipt line and one ledger row per item, and raises on-hand of every key by exactly what the items of that product in that warehouse add up to |
| Inbound.RunLinksExist | apps/api/src/modules/logistics/shipments.service.ts:93-109 | over any run shipments are linked only to orders that exist |
| Inbound.ShippableExactly | apps/api/src/modules/procurement/purchase-orders.service.ts:254-268 | in every reachable state an approved order can still be shipped exactly if no announcement of a shipment linked to it has been handled; otherwise no continuation ever ships it |
| Inbound.SideLinkStrands | apps/api/src/modules/logistics/shipments.service.ts:66-109 | any outbound shipment that also names a draft purchase order, handled before the order is approved, leaves an approved order that can never be shipped |
| Inbound.StrandedOrder | apps/api/src/modules/logistics/shipments.service.ts:66-109 | at the end of a concrete orderly run there is such an order |
| ReceiptTrail.EveryReceiptArrivesOnce | apps/api/src/modules/procurement/purchase-orders.service.ts:197-219 | after every orderly run each arrival in the ledger names a receipt line with its own order line, product and quantity, no two the same one, and each receipt line is named exactly once in the ledger and in flight together |
| ReceiptTrail.ReceiptsEventuallyArrive | apps/api/src/modules/inventory/inventory.service.ts:49-60 | once every emitted event has been delivered each receipt line has exactly one ledger row |
| Settlement.RunLeavesOthers | apps/api/src/modules/fulfillment/sales-orders.service.ts:193-218 | whatever happens to one order leaves the other orders, their reservations and their shipments alone |
| Settlement.Settles | apps/api/src/modules/inventory/inventory.service.ts:139-164 | from any reachable state, once an order is over its stock has lost exactly what it fulfilled, every reserved counter is back where it was, and other orders' reservations are untouched |
| Settlement.UnfulfilledCancelRestores | apps/api/src/modules/fulfillment/sales-orders.service.ts:184-189 | cancelling before anything was fulfilled restores the stock exactly and leaves the ledger untouched |
| Settlement.LedgerOfOneOrder | apps/api/src/modules/inventory/inventory.service.ts:129-138 | from any reachable state until an order is over the ledger only grows, only by fulfilments of the order, and line by line by exactly what was fulfilled: reserving and releasing write nothing |
| Settlement.AlikeOrdersSettleAlike | apps/api/src/modules/fulfillment/sales-orders.service.ts:184-218 | two orders that are over leave the same stock if one ordered and got, key by key, what the other got |
| Replay.ReplayRuns | apps/api/src/modules/fulfillment/sales-orders.service.ts:34-290 | an order for the fulfilled lines of one that is over can be created, confirmed, allocated, fulfilled at once and posted: every step commits |
| Replay.AsIfOnlyFulfilledWasOrdered | apps/api/src/modules/fulfillment/sales-orders.service.ts:184-218 | whatever happened to an order until it was over, placing an order for just its fulfilled lines instead goes through and leaves exactly the same stock rows and per-key ledger totals, with one ledger row per line |
| ConcurrencyTheorems.SelectDecides | apps/api/src/modules/inventory/inventory.service.ts:91-107 | a locking read that finds too little for one line proves that allocating the whole order at this moment fails; one that finds enough keeps all lines so far covered together |
| ConcurrencyTheorems.InsertDecides | packages/database/prisma/migrations/20260825031059_phase2_outbound_fulfillment/migration.sql:108 | the unique reservation per line stops exactly the transactions whose order somebody else allocated meanwhile |
| ConcurrencyTheorems.LockedRowsStay | apps/api/src/modules/inventory/inventory.service.ts:79-84 | a commit never moves a stock row that another transaction has locked |
| ConcurrencyTheorems.OneHolderPerOrder | apps/api/src/modules/inventory/inventory.service.ts:91-95 | of two open allocations of one order that is still confirmed, only one can hold a lock |
| ConcurrencyTheorems.RefusalStands | apps/api/src/modules/inventory/inventory.service.ts:101-107 | a refusal decided before other allocations commit is still right afterwards |
| ConcurrencyTheorems.CommitIsAllocate | apps/api/src/modules/fulfillment/sales-orders.service.ts:142-166 | a transaction ready to commit has written exactly what allocating the order in one piece now would write |
| ConcurrencyTheorems.NextKeeps | apps/api/src/modules/inventory/inventory.service.ts:86-127 | every statement of every transaction keeps the locking invariant and the serial history |
| ConcurrencyTheorems.Serializable | apps/api/src/modules/fulfillment/sales-orders.service.ts:142-166 | after any interleaving of any allocations, of distinct orders or of one, the committed tables and the set of failures are those of running the finished ones one at a time in finishing order |
| ConcurrencyProgress.HolderIsAhead | apps/api/src/modules/inventory/inventory.service.ts:75-77 | whoever holds the row a transaction waits for is unfinished and can itself wait only for a later product |
| ConcurrencyProgress.InsertNeverBlocked | packages/database/prisma/migrations/20260825031059_phase2_outbound_fulfillment/migration.sql:108 | no insert ever waits for another transaction's uncommitted reservation |
| ConcurrencyProgress.NoDeadlock | apps/api/src/modules/fulfillment/sales-orders.service.ts:133-147 | while some transaction is unfinished, some transaction can run, repeated products and repeated orders included |
| ConcurrencyProgress.SchedulesEnd | apps/api/src/modules/fulfillment/sales-orders.service.ts:147-164 | no schedule is longer than four statements per line plus three per transaction |
| ConcurrencyProgress.StuckIsFinished | apps/api/src/modules/fulfillment/sales-orders.service.ts:133-166 | a schedule that cannot go on has finished every transaction |
| ConcurrentRuns.SchedulesRefineRuns | apps/api/src/modules/inventory/inventory.service.ts:70-127 | at any moment of any interleaving the committed tables are those of an orderly run of whole transactions |
| ConcurrentRuns.NoConcurrentOversell | apps/api/src/modules/inventory/inventory.service.ts:79-84 | at any moment of any interleaving reserved stays within on-hand and agrees with the order lines |
| ConcurrentFulfillment.QuantitiesSerialize | apps/api/src/modules/fulfillment/sales-orders.service.ts:246-266 | for an order of any reachable state: after any interleaving of any fulfilments of it, with any aborts, the committed lines are those of one list after the other, each acceptable in its turn; nothing is over-fulfilled |
| ConcurrentFulfillment.StatusExactly | apps/api/src/modules/fulfillment/sales-orders.service.ts:271-275 | in one interleaving, once something has committed: the order is marked fulfilled exactly if all lines are complete and the transaction that committed last had read them after every other commit; the lemma behind FulfillmentMarks.MarkRightExactly |
| ConcurrentFulfillment.StaleReadIsIncomplete | apps/api/src/modules/fulfillment/sales-orders.service.ts:271-273 | a read that missed a commit never finds the order complete, so the mark is never set wrongly |
| ConcurrentFulfillment.OverlapLosesTheMark | apps/api/src/modules/fulfillment/sales-orders.service.ts:271-275 | a concrete schedule of two fulfilments after which every line is complete, nothing can run, and the order is still partially fulfilled |
| ConcurrentFulfillment.CompleteAcceptsNothing | apps/api/src/modules/fulfillment/sales-orders.service.ts:256-266 | a complete order accepts no further request, so a lost mark stays lost |
| ConcurrentFulfillment.NextKeeps | apps/api/src/modules/fulfillment/sales-orders.service.ts:236-278 | every statement and every abort keeps the history of commits, the held lines and what was read |
| FulfillmentMarks.MarkRightExactly | apps/api/src/modules/fulfillment/sales-orders.service.ts:246-275 | for an order of any reachable state and any request lists: every schedule leaves it marked fulfilled exactly if its lines are complete, if and only if no selection of the lists that completes the order contains two lists without a common line |
| FulfillmentMarks.ApartLosesMark | apps/api/src/modules/fulfillment/sales-orders.service.ts:271-275 | for every completing selection with two lists without a common line there is a schedule that completes the order and loses the mark |
| Overlaps.CommitKeepsApart | apps/api/src/modules/fulfillment/sales-orders.service.ts:256-259 | what a read can have missed are only commits of lists that have no line in common with its own, since both held all their line locks |
| ConcurrentReceiving.QuantitiesAddUp | apps/api/src/modules/procurement/purchase-orders.service.ts:193-219 | after any interleaving of any receipts of one order, with any aborts, the committed lines are those of the committed lists added up, each of which passed the guard on the first snapshot |
| ConcurrentReceiving.NextKeeps | apps/api/src/modules/procurement/purchase-orders.service.ts:166-228 | every statement and every abort keeps the history of commits, the locks, what was accepted and what was read |
| ConcurrentReceiving.OverlapExceeds | apps/api/src/modules/procurement/purchase-orders.service.ts:184-203 | a concrete schedule of two receipts of six of ten ordered, each naming the line once, after which twelve are received |
| ReceiptConditions.WithinOrderedExactly | apps/api/src/modules/procurement/purchase-orders.service.ts:176-203 | for a purchase order of any reachable state and any request lists: no schedule receives more than was ordered, if and only if all selections of lists that pass the guard one by one also fit together |
| ReceiptConditions.ReceivedMarkExactly | apps/api/src/modules/procurement/purchase-orders.service.ts:221-225 | for a purchase order of any reachable state and any request lists: every schedule leaves it marked received exactly if its lines are complete, if and only if in every selection of acceptable lists that completes the order each list completes it with just those it shares a line with |
| ReceiptConditions.ReceivedIsComplete | apps/api/src/modules/procurement/purchase-orders.service.ts:221-223 | the received mark is never set wrongly, in any interleaving |
| ReceiptConditions.OverlapLosesReceived | apps/api/src/modules/procurement/purchase-orders.service.ts:221-225 | two receipts of different lines have a schedule after which all is received and the order is not marked so |
| ShipmentsService.ShipmentRows.constructor | apps/api/src/modules/logistics/shipments.service.ts:93-115 | a new shipment with its first log entry; its checks, number and announcement are `Services.ShipmentCreator.Create` |
| ShipmentsService.ShipmentRows.AppendShipmentEvent | apps/api/src/modules/logistics/shipments.service.ts:324-370 | logs the report and patches the last-tracking time and the position: coordinates left out stay, a name left out stays, a null name is cleared |
| ShipmentsService.ShipmentRows.OpenException | apps/api/src/modules/logistics/shipments.service.ts:410-434 | refreshes the first open exception of the kind, or adds one |
| ShipmentsService.ShipmentRows.ResolveOpenException | apps/api/src/modules/logistics/shipments.service.ts:436-441 | closes every open exception of the kind and nothing else |
| ShipmentsService.ShipmentRows.EvaluateExceptions | apps/api/src/modules/logistics/shipments.service.ts:372-408 | leaves the row and the log alone and brings the register up to date |
| ShipmentsService.ShipmentRows.Transition | apps/api/src/modules/logistics/shipments.service.ts:298-322 | succeeds exactly along the transition table, then stamps, logs and evaluates; a refusal changes nothing |
| ShipmentsService.ShipmentRows.UpdateEta | apps/api/src/modules/logistics/shipments.service.ts:248-266 | sets the estimate, logs it and evaluates |
| ShipmentsService.ShipmentRows.CreateManualEvent | apps/api/src/modules/logistics/shipments.service.ts:228-246 | logs a manual event, which carries no status, and evaluates |
| Shipments.RowFollowsLog | apps/api/src/modules/logistics/shipments.service.ts:298-370 | after any run the row is a fold of its log - last status on a path of the transition table from CREATED, first times of departure, arrival and delivery, last tracking time, last coordinates - and the shown place is what the last locating request that did not leave the name out said |
| Shipments.TimesInOrder | apps/api/src/modules/logistics/shipments.service.ts:304-308 | with a clock that never runs backwards departure is at most arrival, arrival at most delivery, and delivery is stamped exactly when delivered |
| Shipments.PlaceFollowsLogExactly | apps/api/src/modules/logistics/shipments.service.ts:361-367 | the shown place is at every moment a fold of the log exactly if null names with coordinates come only while no place is shown |
| Shipments.PlaceIsLastExactly | apps/api/src/modules/logistics/shipments.service.ts:361-367 | the shown place is at every moment the last one named in the log exactly if, besides, empty names without coordinates come only while the shown name is empty |
| Shipments.EmptyNameIsNotShown | apps/api/src/modules/logistics/shipments.service.ts:362 | a concrete run whose last logged name is empty while the one before stays shown |
| Shipments.NullNameClears | apps/api/src/modules/logistics/shipments.service.ts:362-366 | two concrete runs with the same log, one showing no place and one showing the last named |
| Shipments.EvaluateIsExact | apps/api/src/modules/logistics/shipments.service.ts:372-408 | after an evaluation both kinds are open exactly when due, at most once, for every shipment that is not delivered or cancelled, and never for one that is |
| Shipments.EvaluateReportsDelay | apps/api/src/modules/logistics/shipments.service.ts:383-390 | the open ETA exception reports the whole minutes of the delay and is critical exactly from a full day on |
| Shipments.RegisterStaysOk | apps/api/src/modules/logistics/shipments.service.ts:410-441 | over every run at most one open exception per kind, and none for a shipment that is delivered or cancelled |
| Shipments.RegisterIsExact | apps/api/src/modules/logistics/shipments.service.ts:382-407 | after every operation of every run that leaves a shipment neither delivered nor cancelled the open exceptions are exactly those due at its evaluation, with the delay they report and staleness a mere warning |
| Shipments.StaleBound | apps/api/src/modules/logistics/shipments.service.ts:395-398 | rounding down makes a shipment stale one full minute after the threshold, not at it |
| ShipmentRequests.MovesExactly | apps/api/src/modules/logistics/shipment-lifecycle.ts:12-28 | a shipment moves exactly one stage on from created over booked, in transit and arrived to delivered, or is cancelled before it has arrived |
| ShipmentRequests.LogIsRequested | apps/api/src/modules/logistics/shipments.service.ts:228-266 | the log is the creation and then, in order, one entry per accepted request: its event type, time, place, latitude and longitude, and a status exactly for accepted moves |
| ShipmentRequests.RowIsRequested | apps/api/src/modules/logistics/shipments.service.ts:248-254 | after every run the expected arrival is that of the last update, and latitude and longitude are each the one last reported |
| ShipmentRequests.CancelUntilArrival | apps/api/src/modules/logistics/shipment-lifecycle.ts:5-11 | over every run a shipment can be cancelled exactly until its log says that it arrived or was cancelled |
| ShipmentRequests.RegisterIsHistory | apps/api/src/modules/logistics/shipments.service.ts:410-441 | over every run exceptions are never removed, closed ones never change, and one that stays due keeps its row |
| RiskRows.SumByKey | apps/api/src/modules/analytics/inventory-analytics.service.ts:139-148 | the map-building loop computes, for every key, exactly the sum of its lines' open quantities |
| RiskRows.IncomingLinesSum | apps/api/src/modules/analytics/inventory-analytics.service.ts:117-128 | restricting the query to the products and warehouses in scope loses nothing for a key in scope: incoming is summed over all orders still arriving |
| RiskRows.DemandLinesSum | apps/api/src/modules/analytics/inventory-analytics.service.ts:129-136 | the same for demand over all open sales orders |
| RiskRows.ComputeInventoryRiskRows | apps/api/src/modules/analytics/inventory-analytics.service.ts:106-172 | one row per stock row in scope, with exact incoming and demand sums |
| RiskRows.DemandSplits | apps/api/src/modules/analytics/inventory-analytics.service.ts:144-148 | demand is what is reserved on the lines plus the whole of the orders that are only confirmed |
| RiskRows.IncomingSplits | apps/api/src/modules/analytics/inventory-analytics.service.ts:139-143 | incoming is the whole of the approved orders and what the shipped and partially received ones lack |
| RiskRows.IncomingIsGained | apps/api/src/modules/analytics/inventory-analytics.service.ts:139-143 | once every order under way has been received in full and everything is posted, on-hand of a key has gained exactly its incoming quantity, after what was in flight and fulfilled |
| Incoming.IncomingComesExactly | apps/api/src/modules/analytics/inventory-analytics.service.ts:121-143 | from every reachable state all that is incoming can come, every order under way received in full and everything posted, exactly if no approved order is stranded; and whenever it has come so, on-hand of every key has gained its incoming quantity |
| RiskRows.ProjectionMeaning | apps/api/src/modules/analytics/inventory-analytics.service.ts:150-155 | in every reachable state available is never negative and the projection is on-hand plus what approved, shipped and partially received orders still bring, less confirmed demand and twice the reserved quantity, plus what is in flight; a key is out of stock exactly if all of it is reserved, and projected to be exactly if that sum is negative |
| Numbering.NumberSequence.NextDocumentNumber | apps/api/src/common/numbering.ts:11-22 | advances the counter of one prefix and year by one and prints it |
| Numbering.DrawnInRun | apps/api/src/common/numbering.ts:15-21 | the counters and numbers of a run are those of drawing one number after the other |
| Numbering.SuffixParsesBack | apps/api/src/common/numbering.ts:21 | the padded suffix parses back to the counter, whatever its size |
| Numbering.NumberIsInjective | apps/api/src/common/numbering.ts:13-21 | a number tells its prefix, its year and its counter, even when the prefix contains dashes |
| Numbering.CountersGrow | apps/api/src/common/numbering.ts:15-19 | the counter of a key never runs backwards and every request for the key pushes it on |
| Numbering.NumbersAreDistinct | apps/api/src/common/numbering.ts:4-10 | over any run no number is given twice, across prefixes and years |
| Numbering.NoGaps | apps/api/src/common/numbering.ts:15-19 | numbers count up from one without gaps: each is one more than the requests for its prefix and year before it |
| Numbering.FirstNumber | apps/api/src/common/numbering.ts:21 | the first sales order of 2026 is SO-2026-000001 |
| Numbering.SameLengthOrder | apps/api/src/common/numbering.ts:21 | numerals of one length are ordered as strings as their values are |
| Numbering.SeventhDigitBreaksOrder | apps/api/src/common/numbering.ts:21 | the millionth number of a year sorts before its predecessor |
| Numbering.StringOrderExactly | apps/api/src/common/numbering.ts:21 | string order is issue order for all counters up to a limit exactly if the limit is at most 999999 |

## Left out

- Services.InventoryService.UpsertWarehouseStockLevel: does not model the retry after a lost first-write race, nor the unique index with a nullable component; one stock row per product and warehouse is assumed.
- Theorems.RunKeeps: assumes that orders are not cancelled while one of their fulfilments is in flight and that an accepted receipt fits in total; both conditions are shown exact.
- Shipments.RowFollowsLog: does not replay the estimated arrival from the log, because a manual entry may carry the same type as an estimate update without changing the estimate; `ShipmentRequests.RowIsRequested` states it from the requests instead.
- Theorems.AfterKeeps: takes transactions as whole steps. Those of one order are assumed not to overlap, apart from allocations, fulfilments and receipts each among themselves; a cancellation that reads a confirmed order while its allocation commits, for one, leaves the reservation behind.
- ConcurrencyTheorems.Serializable: covers allocations against each other. Deliveries of receipts and releases take their rows unsorted and appear only as whole transactions. Uncommitted writes are kept as each transaction's own log instead of being written in place.
- FulfillmentMarks.MarkRightExactly: covers fulfilments of one order against each other, up to their commits. Deadlocks among them are possible, their lines being locked in request order, and appear as aborts.
- ReceiptConditions.WithinOrderedExactly: covers receipts of one order against each other, up to their commits; the order and its lines are taken as read by one statement.
- Shipments.RegisterStaysOk: takes operations on a shipment as whole steps; no unique index stands behind "one open exception per kind", and two overlapping evaluations could each open one.
- Numbering.NumberSequence.NextDocumentNumber: the counter is one atomic step, as the row lock of the upsert makes it, and the year is a parameter.
- Quantities are unbounded integers; the 32-bit columns of the database and their overflow errors are not modelled.
- Row and event ids are insertion positions instead of random identifiers; products are numbered, and the collation that sorts product identifiers is the order of these numbers. The library's sort is a stable insertion sort.
- Tenancy, permissions, users, the audit log and the notifications that only observers read (stock changed, stock low, order approved, order allocated, shipment delivered).
- An event that is lost between commit and delivery simply stays in flight; its retry is any later delivery.
- ShipmentsService.ShipmentRows.CreateManualEvent: takes coordinates as given or left out; a null coordinate makes the request fail before it writes.
- ShipmentsService.ShipmentRows.constructor: one shipment row is modelled at a time and exists; that a shipment is linked to an order is read off the event that announces it.
- The staleness threshold is a whole number of hours, and exception messages, notes and other metadata are not modelled.
- Names, money, currencies, dates of orders, list filters, sorting and pagination of query results; in the risk rows the product and warehouse names and the cost price.
- The other analytics services, the movement trend, customers, suppliers, products, warehouses, authentication and the web application: filtered counts, plain row updates and interface code.
