/**
 * The way of goods from a new purchase order to the stock row: it always goes through, and it
 * brings every key exactly what the ordered items add up to.
 */
module Inbound {
  import opened Wrappers
  import opened Sums
  import opened Tables
  import opened Protocol
  import opened Invariants
  import opened DeliverySteps
  import opened Theorems
  import opened Guards
  import opened SideConditions
  import SO = SalesOrderLifecycle
  import PO = PurchaseOrderLifecycle

  // ---------- What was asked for, seen from the items alone ----------

  /** What an item brings to a key when it is ordered for `warehouse`. */
  ghost function ItemAt(warehouse: nat, k: Key): Item -> int {
    (i: Item) => if Key(i.product, warehouse) == k then i.qty else 0
  }

  /** One request for all of every item. */
  function AllItems(items: seq<Item>): seq<Request> {
    seq(|items|, i requires 0 <= i < |items| => Request(i, items[i].qty))
  }

  /** The order over `items` as it should look in each status: line `i` is item `i`. */
  function OrderOver(warehouse: nat, items: seq<Item>, status: PO.Status): PurchaseOrder {
    PurchaseOrder(status, warehouse, seq(|items|, i requires 0 <= i < |items| =>
      PurchaseLine(items[i].product, items[i].qty, if status.Received? then items[i].qty else 0)))
  }

  /** One receipt line per item. */
  function ItemReceipts(items: seq<Item>, p: nat): seq<ReceiptLine> {
    seq(|items|, i requires 0 <= i < |items| => ReceiptLine(LineRef(p, i), items[i].product, items[i].qty))
  }

  /** One ledger row per item, naming its own receipt line; `first` is the id of the first one. */
  function ItemRows(warehouse: nat, items: seq<Item>, p: nat, first: nat): seq<Movement> {
    seq(|items|, i requires 0 <= i < |items| =>
      Movement(Key(items[i].product, warehouse), items[i].qty, Receipt(LineRef(p, i), first + i)))
  }

  /** The announcement of the receipt of everything. */
  function AllReceivedEvent(warehouse: nat, items: seq<Item>, p: nat, first: nat): Event {
    PoReceived(p, warehouse, seq(|items|, i requires 0 <= i < |items| => ReceivedLine(i, first + i, items[i].product, items[i].qty)))
  }

  /** Orders `items` as purchase order `p`, approves, announces, receives and posts; `id` is the next event. */
  function OrderAndReceive(warehouse: nat, items: seq<Item>, p: nat, id: nat): seq<Step> {
    [StepCreatePurchase(warehouse, items), StepApprove(p), StepCreateShipment(Inbound, Some(p), None), StepDeliver(id),
     StepReceive(p, AllItems(items)), StepDeliver(id + 1)]
  }

  // ---------- Links of shipments ----------

  /** Shipments are linked to orders that exist. */
  ghost predicate LinksExist(s: State) {
    forall id :: 0 <= id < |s.emitted| && s.emitted[id].ShipmentCreated? ==>
      && (s.emitted[id].forPo.Some? ==> s.emitted[id].forPo.value < |s.purchases|)
      && (s.emitted[id].forSo.Some? ==> s.emitted[id].forSo.value < |s.sales|)
  }

  lemma {:induction false} TablesGrow(s: State, step: Step)
    ensures var t := After(s, step);
            && |s.sales| <= |t.sales| && |s.purchases| <= |t.purchases|
            && s.emitted <= t.emitted && s.processed <= t.processed
            && (forall id :: |s.emitted| <= id < |t.emitted| && t.emitted[id].ShipmentCreated? ==>
                  step.StepCreateShipment? && t.emitted[id] == ShipmentCreated(step.forPo, step.forSo))
  {
  }

  lemma {:induction false} StepLinksExist(s: State, step: Step)
    requires LinksExist(s)
    ensures LinksExist(After(s, step))
  {
    TablesGrow(s, step);
    var t := After(s, step);
    forall id | 0 <= id < |t.emitted| && t.emitted[id].ShipmentCreated?
      ensures t.emitted[id].forPo.Some? ==> t.emitted[id].forPo.value < |t.purchases|
      ensures t.emitted[id].forSo.Some? ==> t.emitted[id].forSo.value < |t.sales|
    {
      if id < |s.emitted| {
        assert t.emitted[id] == s.emitted[id];
      } else {
        assert Attempt(s, step).Committed?;
        ShipmentExactly(s, step.direction, step.forPo, step.forSo);
      }
    }
  }

  lemma {:induction false} RunLinksExist(stock: map<Key, StockLevel>, ledger: seq<Movement>, steps: seq<Step>)
    ensures LinksExist(Run(Start(stock, ledger), steps))
  {
    if steps != [] {
      var n := |steps| - 1;
      RunLinksExist(stock, ledger, steps[..n]);
      StepLinksExist(Run(Start(stock, ledger), steps[..n]), steps[n]);
    }
  }

  // ---------- Step by step ----------

  /** Order `p` is the last one, over `items`, in status `status`. */
  ghost predicate Standing(s: State, warehouse: nat, items: seq<Item>, p: nat, status: PO.Status) {
    |s.purchases| == p + 1 && s.purchases[p] == OrderOver(warehouse, items, status)
  }

  lemma {:induction false} CreateStands(s: State, warehouse: nat, items: seq<Item>)
    ensures var t := After(s, StepCreatePurchase(warehouse, items));
            && Standing(t, warehouse, items, |s.purchases|, PO.Draft)
            && t == s.(purchases := t.purchases)
  {
    assert NewPurchaseLines(items) == OrderOver(warehouse, items, PO.Draft).lines;
  }

  lemma {:induction false} ApproveStands(s: State, warehouse: nat, items: seq<Item>, p: nat)
    requires Standing(s, warehouse, items, p, PO.Draft)
    ensures var t := After(s, StepApprove(p));
            && Standing(t, warehouse, items, p, PO.Approved)
            && t == s.(purchases := t.purchases)
  {
    ApproveExactly(s, p);
    assert OrderOver(warehouse, items, PO.Draft).lines == OrderOver(warehouse, items, PO.Approved).lines;
  }

  lemma {:induction false} AnnounceStands(s: State, warehouse: nat, items: seq<Item>, p: nat)
    requires Standing(s, warehouse, items, p, PO.Approved) && PurchaseUnlinked(s, p)
    ensures var t := After(s, StepCreateShipment(Inbound, Some(p), None));
            && Standing(t, warehouse, items, p, PO.Approved)
            && t == s.(emitted := s.emitted + [ShipmentCreated(Some(p), None)])
  {
    ShipmentExactly(s, Inbound, Some(p), None);
  }

  lemma {:induction false} ShipStands(s: State, warehouse: nat, items: seq<Item>, p: nat, id: nat)
    requires Standing(s, warehouse, items, p, PO.Approved)
    requires |s.emitted| == id + 1 && id !in s.processed && s.emitted[id] == ShipmentCreated(Some(p), None)
    ensures var t := After(s, StepDeliver(id));
            && Standing(t, warehouse, items, p, PO.Shipped)
            && t == s.(purchases := t.purchases, processed := s.processed + {id})
  {
    assert OrderOver(warehouse, items, PO.Shipped).lines == OrderOver(warehouse, items, PO.Approved).lines;
  }

  lemma {:induction false} AllItemsAsked(items: seq<Item>, l: nat)
    requires l < |items|
    ensures Requested(AllItems(items), l) == items[l].qty
  {
    SumSingle(AllItems(items), l, QtyOn(l));
  }

  lemma {:induction false} ReceiveStands(s: State, warehouse: nat, items: seq<Item>, p: nat)
    requires Standing(s, warehouse, items, p, PO.Shipped)
    ensures var t := After(s, StepReceive(p, AllItems(items)));
            && ReceiptFits(s.purchases[p].lines, AllItems(items))
            && Standing(t, warehouse, items, p, PO.Received)
            && t == s.(purchases := t.purchases, receipts := s.receipts + ItemReceipts(items, p),
                       emitted := s.emitted + [AllReceivedEvent(warehouse, items, p, |s.receipts|)])
  {
    var lines := s.purchases[p].lines;
    forall l | 0 <= l < |items| ensures Requested(AllItems(items), l) == items[l].qty {
      AllItemsAsked(items, l);
    }
    EachFitsIsAccepted(lines, AllItems(items));
    assert ReceiveLines(lines, AllItems(items)) == OrderOver(warehouse, items, PO.Received).lines;
    assert ReceiptLines(p, lines, AllItems(items)) == ItemReceipts(items, p);
    assert ReceivedPayload(lines, AllItems(items), |s.receipts|) == AllReceivedEvent(warehouse, items, p, |s.receipts|).received;
  }

  lemma {:induction false} RowsWeighItems(warehouse: nat, items: seq<Item>, p: nat, first: nat, k: Key)
    ensures Sum(ItemRows(warehouse, items, p, first), DeltaAt(k)) == Sum(items, ItemAt(warehouse, k))
  {
    SumSame(ItemRows(warehouse, items, p, first), DeltaAt(k), items, ItemAt(warehouse, k));
  }

  /** From `a` to `b` every key has gained what the items bring it, and nothing else has moved. */
  ghost predicate Gained(a: map<Key, StockLevel>, b: map<Key, StockLevel>, warehouse: nat, items: seq<Item>) {
    forall k: Key ::
      && OnHandIn(b, k) == OnHandIn(a, k) + Sum(items, ItemAt(warehouse, k))
      && ReservedIn(b, k) == ReservedIn(a, k)
  }

  lemma {:induction false} PostStands(s: State, warehouse: nat, items: seq<Item>, p: nat, id: nat, first: nat)
    requires Standing(s, warehouse, items, p, PO.Received)
    requires |s.emitted| == id + 1 && id !in s.processed && s.emitted[id] == AllReceivedEvent(warehouse, items, p, first)
    ensures var t := After(s, StepDeliver(id));
            && Standing(t, warehouse, items, p, PO.Received)
            && t == s.(processed := s.processed + {id}, stock := t.stock, movements := s.movements + ItemRows(warehouse, items, p, first))
            && Gained(s.stock, t.stock, warehouse, items)
  {
    var ms := ItemRows(warehouse, items, p, first);
    assert MovementsOf(s.emitted[id]) == ms;
    forall k: Key
      ensures OnHandIn(ArriveStock(s.stock, ms), k) == OnHandIn(s.stock, k) + Sum(items, ItemAt(warehouse, k))
      ensures ReservedIn(ArriveStock(s.stock, ms), k) == ReservedIn(s.stock, k)
    {
      RowsWeighItems(warehouse, items, p, first, k);
      if k !in KeysOf(ms) {
        KeyWithoutRows(ms, k);
      }
    }
  }

  // ---------- The whole way ----------

  /** What ordering and receiving `items` should leave of tables `s`. */
  ghost predicate Arrived(s: State, t: State, warehouse: nat, items: seq<Item>) {
    var p := |s.purchases|;
    && t.purchases == s.purchases + [OrderOver(warehouse, items, PO.Received)]
    && t.receipts == s.receipts + ItemReceipts(items, p)
    && t.movements == s.movements + ItemRows(warehouse, items, p, |s.receipts|)
    && Gained(s.stock, t.stock, warehouse, items)
    && t.sales == s.sales && t.reservations == s.reservations
  }

  lemma {:induction false} UpToApproval(s: State, warehouse: nat, items: seq<Item>)
    requires items != []
    ensures var steps := OrderAndReceive(warehouse, items, |s.purchases|, |s.emitted|)[..2];
            var t := Run(s, steps);
            && OrderlyRun(s, steps)
            && Standing(t, warehouse, items, |s.purchases|, PO.Approved)
            && t.purchases[..|s.purchases|] == s.purchases
            && t == s.(purchases := t.purchases)
  {
    var p, id := |s.purchases|, |s.emitted|;
    var steps := OrderAndReceive(warehouse, items, p, id);
    assert [] + [steps[0]] == [steps[0]];
    OneMoreStep(s, [], steps[0]);
    CreateStands(s, warehouse, items);
    OneMoreStep(s, [steps[0]], steps[1]);
    ApproveStands(Run(s, [steps[0]]), warehouse, items, p);
    assert steps[..2] == [steps[0]] + [steps[1]];
  }

  lemma {:induction false} UpToReceipt(s: State, warehouse: nat, items: seq<Item>)
    requires items != [] && PurchaseUnlinked(s, |s.purchases|) && |s.emitted| !in s.processed
    ensures var steps := OrderAndReceive(warehouse, items, |s.purchases|, |s.emitted|)[..4];
            var t := Run(s, steps);
            && OrderlyRun(s, steps)
            && Standing(t, warehouse, items, |s.purchases|, PO.Shipped)
            && t.purchases[..|s.purchases|] == s.purchases
            && t == s.(purchases := t.purchases, processed := s.processed + {|s.emitted|},
                       emitted := s.emitted + [ShipmentCreated(Some(|s.purchases|), None)])
  {
    var p, id := |s.purchases|, |s.emitted|;
    var steps := OrderAndReceive(warehouse, items, p, id);
    UpToApproval(s, warehouse, items);
    OneMoreStep(s, steps[..2], steps[2]);
    AnnounceStands(Run(s, steps[..2]), warehouse, items, p);
    OneMoreStep(s, steps[..2] + [steps[2]], steps[3]);
    ShipStands(Run(s, steps[..2] + [steps[2]]), warehouse, items, p, id);
    assert steps[..4] == steps[..2] + [steps[2]] + [steps[3]];
  }

  lemma {:induction false} WholeWay(s: State, warehouse: nat, items: seq<Item>)
    requires items != [] && PurchaseUnlinked(s, |s.purchases|) && ClaimsOk(s.processed, s.emitted)
    ensures var steps := OrderAndReceive(warehouse, items, |s.purchases|, |s.emitted|);
            OrderlyRun(s, steps) && Arrived(s, Run(s, steps), warehouse, items)
  {
    var p, id := |s.purchases|, |s.emitted|;
    var steps := OrderAndReceive(warehouse, items, p, id);
    UpToReceipt(s, warehouse, items);
    var shipped := Run(s, steps[..4]);
    ReceiveStands(shipped, warehouse, items, p);
    OneMoreStep(s, steps[..4], steps[4]);
    var received := Run(s, steps[..4] + [steps[4]]);
    PostStands(received, warehouse, items, p, id + 1, |s.receipts|);
    OneMoreStep(s, steps[..4] + [steps[4]], steps[5]);
    assert steps == steps[..4] + [steps[4]] + [steps[5]];
  }

  /**
   * Goods arrive.  In every reachable state a purchase order over any items, for any warehouse, goes
   * through: created, approved, announced, received in one receipt and posted.  It leaves one line, one
   * receipt line and one ledger row per item, with the item's own product and quantity, and raises
   * on-hand of every key by exactly what the items of that product in that warehouse add up to.
   */
  lemma {:induction false} GoodsArrive(stock: map<Key, StockLevel>, ledger: seq<Movement>, steps: seq<Step>, warehouse: nat, items: seq<Item>)
    requires SoundOpening(stock, ledger) && OrderlyRun(Start(stock, ledger), steps) && items != []
    ensures var s := Run(Start(stock, ledger), steps);
            var inbound := OrderAndReceive(warehouse, items, |s.purchases|, |s.emitted|);
            OrderlyRun(s, inbound) && Arrived(s, Run(s, inbound), warehouse, items)
  {
    var s := Run(Start(stock, ledger), steps);
    RunKeeps(stock, ledger, steps);
    ClaimsAreEmitted(Start(stock, ledger), s);
    RunLinksExist(stock, ledger, steps);
    assert PurchaseUnlinked(s, |s.purchases|);
    WholeWay(s, warehouse, items);
  }

  lemma {:induction false} ClaimsAreEmitted(origin: State, s: State)
    requires Inv(origin, s)
    ensures ClaimsOk(s.processed, s.emitted)
  {
  }

  // ---------- Approved orders that can still be shipped ----------

  /** The one shipment of order `p` has been heard of already. */
  ghost predicate LinkSpent(s: State, p: nat) {
    exists id :: 0 <= id < |s.emitted| && SpentBy(s, id, p)
  }

  ghost predicate SpentBy(s: State, id: nat, p: nat)
    requires id < |s.emitted|
  {
    id in s.processed && s.emitted[id].ShipmentCreated? && s.emitted[id].forPo == Some(p)
  }

  /** Approved or cancelled, with its only shipment spent: it can never be shipped. */
  ghost predicate Stranded(s: State, p: nat) {
    && p < |s.purchases|
    && (s.purchases[p].status.Approved? || s.purchases[p].status.Cancelled?)
    && LinkSpent(s, p) && LinkedOnce(s.emitted)
  }

  lemma {:induction false} StrandedHearsNothing(s: State, id: nat, p: nat)
    requires LinkSpent(s, p) && LinkedOnce(s.emitted)
    ensures !AnnouncedBy(s, id, p)
  {
    var spent :| 0 <= spent < |s.emitted| && SpentBy(s, spent, p);
    if AnnouncedBy(s, id, p) {
      assert Links(s.emitted[id], s.emitted[spent].forPo, s.emitted[spent].forSo);
      assert Links(s.emitted[spent], s.emitted[id].forPo, s.emitted[id].forSo);
      assert false;
    }
  }

  lemma {:induction false} SpentStays(s: State, step: Step, p: nat)
    requires LinkSpent(s, p)
    ensures LinkSpent(After(s, step), p)
  {
    TablesGrow(s, step);
    var id :| 0 <= id < |s.emitted| && SpentBy(s, id, p);
    assert After(s, step).emitted[id] == s.emitted[id];
    assert SpentBy(After(s, step), id, p);
  }

  lemma {:induction false} StrandedStatus(s: State, step: Step, p: nat)
    requires p < |s.purchases| && (s.purchases[p].status.Approved? || s.purchases[p].status.Cancelled?)
    requires step.StepDeliver? ==> !AnnouncedBy(s, step.id, p)
    ensures var t := After(s, step);
            p < |t.purchases| && (t.purchases[p].status.Approved? || t.purchases[p].status.Cancelled?)
  {
    match step
    case StepApprove(q) => ApproveExactly(s, q);
    case StepCancelPurchase(q) => CancelPurchaseExactly(s, q);
    case StepReceive(q, requests) => ReceiveExactly(s, q, requests);
    case StepDeliver(id) => DeliveryShips(s, id, p);
    case _ =>
  }

  lemma {:induction false} StrandedStays(s: State, step: Step, p: nat)
    requires Stranded(s, p)
    ensures Stranded(After(s, step), p)
  {
    if step.StepDeliver? {
      StrandedHearsNothing(s, step.id, p);
    }
    StrandedStatus(s, step, p);
    SpentStays(s, step, p);
    StepLinksOnce(s, step);
  }

  lemma {:induction false} StrandedForGood(s: State, steps: seq<Step>, p: nat)
    requires Stranded(s, p)
    ensures Stranded(Run(s, steps), p)
  {
    if steps != [] {
      StrandedForGood(s, steps[..|steps| - 1], p);
      StrandedStays(Run(s, steps[..|steps| - 1]), steps[|steps| - 1], p);
    }
  }

  /** What ships an approved order: the delivery of the announcement in flight, or a new shipment and its delivery. */
  ghost function WayToShip(s: State, p: nat): seq<Step> {
    if id: nat :| id < |s.emitted| && AnnouncedBy(s, id, p) then [StepDeliver(id)]
    else [StepCreateShipment(Inbound, Some(p), None), StepDeliver(|s.emitted|)]
  }

  /** From `s` to `t` order `p` has been shipped, and nothing else that concerns purchase or sales orders. */
  ghost predicate JustShipped(s: State, t: State, p: nat) {
    && p < |s.purchases|
    && t.purchases == s.purchases[p := s.purchases[p].(status := PO.Shipped)]
    && t.sales == s.sales
    && forall q :: q != p && LinkSpent(t, q) ==> LinkSpent(s, q)
  }

  /** Claiming events that concern `p` alone, old or new, spends no other link. */
  lemma {:induction false} OthersUnspent(s: State, t: State, p: nat, id: nat, q: nat)
    requires s.emitted <= t.emitted && t.processed == s.processed + {id} && id < |t.emitted|
    requires t.emitted[id].ShipmentCreated? && t.emitted[id].forPo == Some(p)
    requires |t.emitted| == |s.emitted| || (|t.emitted| == |s.emitted| + 1 && id == |s.emitted|)
    requires q != p && LinkSpent(t, q)
    ensures LinkSpent(s, q)
  {
    var spent :| 0 <= spent < |t.emitted| && SpentBy(t, spent, q);
    assert spent != id;
    assert SpentBy(s, spent, q);
  }

  lemma {:induction false} AnnouncedShips(s: State, p: nat, id: nat)
    requires p < |s.purchases| && s.purchases[p].status.Approved? && AnnouncedBy(s, id, p)
    ensures JustShipped(s, Deliver(s, id), p)
  {
    forall q | q != p && LinkSpent(Deliver(s, id), q) ensures LinkSpent(s, q) {
      OthersUnspent(s, Deliver(s, id), p, id, q);
    }
  }

  /** With no announcement at all, a new shipment ships the order. */
  lemma {:induction false} NewShipmentShips(s: State, p: nat)
    requires p < |s.purchases| && s.purchases[p].status.Approved? && PurchaseUnlinked(s, p) && |s.emitted| !in s.processed
    ensures var way := [StepCreateShipment(Inbound, Some(p), None), StepDeliver(|s.emitted|)];
            OrderlyRun(s, way) && JustShipped(s, Run(s, way), p)
  {
    var way := [StepCreateShipment(Inbound, Some(p), None), StepDeliver(|s.emitted|)];
    ShipmentExactly(s, Inbound, Some(p), None);
    OneMoreStep(s, [], way[0]);
    assert [] + [way[0]] == [way[0]];
    OneMoreStep(s, [way[0]], way[1]);
    assert [way[0]] + [way[1]] == way;
    forall q | q != p && LinkSpent(Run(s, way), q) ensures LinkSpent(s, q) {
      OthersUnspent(s, Run(s, way), p, |s.emitted|, q);
    }
  }

  lemma {:induction false} UnspentShips(s: State, p: nat)
    requires p < |s.purchases| && s.purchases[p].status.Approved? && !LinkSpent(s, p) && ClaimsOk(s.processed, s.emitted)
    ensures OrderlyRun(s, WayToShip(s, p)) && JustShipped(s, Run(s, WayToShip(s, p)), p)
  {
    var way := WayToShip(s, p);
    if exists id: nat :: id < |s.emitted| && AnnouncedBy(s, id, p) {
      OneMoreStep(s, [], way[0]);
      assert [] + [way[0]] == way;
      AnnouncedShips(s, p, way[0].id);
    } else {
      forall id | 0 <= id < |s.emitted| && s.emitted[id].ShipmentCreated? ensures s.emitted[id].forPo != Some(p) {
        assert !AnnouncedBy(s, id, p) && !SpentBy(s, id, p);
      }
      NewShipmentShips(s, p);
    }
  }

  /** Some orderly continuation ships order `p`. */
  ghost predicate CanBeShipped(s: State, p: nat) {
    exists steps :: OrderlyRun(s, steps) && ShippedIn(Run(s, steps), p)
  }

  ghost predicate ShippedIn(s: State, p: nat) {
    p < |s.purchases| && s.purchases[p].status.Shipped?
  }

  /**
   * In every reachable state an approved order can still be shipped exactly if the announcement of a
   * shipment linked to it has not been handled yet; otherwise no continuation, orderly or not, ever
   * ships it.
   */
  lemma {:induction false} ShippableExactly(stock: map<Key, StockLevel>, ledger: seq<Movement>, steps: seq<Step>, p: nat)
    requires SoundOpening(stock, ledger) && OrderlyRun(Start(stock, ledger), steps)
    requires var s := Run(Start(stock, ledger), steps);
             p < |s.purchases| && s.purchases[p].status.Approved?
    ensures var s := Run(Start(stock, ledger), steps);
            && (CanBeShipped(s, p) <==> !LinkSpent(s, p))
            && (LinkSpent(s, p) ==> forall more :: !ShippedIn(Run(s, more), p))
  {
    var s := Run(Start(stock, ledger), steps);
    if LinkSpent(s, p) {
      OneShipmentPerOrder(stock, ledger, steps);
      forall more ensures !ShippedIn(Run(s, more), p) {
        StrandedForGood(s, more, p);
      }
    } else {
      RunKeeps(stock, ledger, steps);
      ClaimsAreEmitted(Start(stock, ledger), s);
      UnspentShips(s, p);
      assert ShippedIn(Run(s, WayToShip(s, p)), p);
    }
  }

  /** An outbound shipment that also names draft order `p`, heard of before the order is approved. */
  function SideLink(p: nat, o: nat, id: nat): seq<Step> {
    [StepCreateShipment(Outbound, Some(p), Some(o)), StepDeliver(id), StepApprove(p)]
  }

  /**
   * How an approved order gets there: only the sales order of an outbound shipment is checked, so any
   * draft purchase order named beside it has its one link used up, and once approved it is stranded.
   */
  lemma {:induction false} SideLinkStrands(s: State, p: nat, o: nat)
    requires ClaimsOk(s.processed, s.emitted)
    requires p < |s.purchases| && s.purchases[p].status.Draft? && ReadyToShip(s, Outbound, Some(p), Some(o))
    requires BothFree(s, Some(p), Some(o))
    ensures var t := Run(s, SideLink(p, o, |s.emitted|));
            && OrderlyRun(s, SideLink(p, o, |s.emitted|))
            && p < |t.purchases| && t.purchases[p].status.Approved? && LinkSpent(t, p)
  {
    var id := |s.emitted|;
    var steps := SideLink(p, o, id);
    ShipmentExactly(s, Outbound, Some(p), Some(o));
    OneMoreStep(s, [], steps[0]);
    assert [] + [steps[0]] == [steps[0]];
    OneMoreStep(s, [steps[0]], steps[1]);
    var heard := Run(s, [steps[0]] + [steps[1]]);
    DeliveryShips(Run(s, [steps[0]]), id, p);
    assert SpentBy(heard, id, p);
    OneMoreStep(s, [steps[0]] + [steps[1]], steps[2]);
    ApproveExactly(heard, p);
    assert steps == [steps[0]] + [steps[1]] + [steps[2]];
    SpentStays(heard, steps[2], p);
  }

  /** Four of ten are fulfilled; draft order 0 is named beside sales order 0, then approved. */
  function StrandOne(): seq<Step> {
    FulfillFour() + [StepCreatePurchase(0, [Item(0, 1)])] + SideLink(0, 0, 1)
  }

  ghost function WithDraft(): State {
    FourInFlight().(purchases := [PurchaseOrder(PO.Draft, 0, [PurchaseLine(0, 1, 0)])])
  }

  lemma {:induction false} DraftBeside()
    ensures OrderlyRun(TenInStock(), FulfillFour() + [StepCreatePurchase(0, [Item(0, 1)])])
    ensures Run(TenInStock(), FulfillFour() + [StepCreatePurchase(0, [Item(0, 1)])]) == WithDraft()
  {
    FulfillFourRun();
    OneMoreStep(TenInStock(), FulfillFour(), StepCreatePurchase(0, [Item(0, 1)]));
    assert NewPurchaseLines([Item(0, 1)]) == [PurchaseLine(0, 1, 0)];
  }

  lemma {:induction false} LastApart(first: seq<Step>, more: seq<Step>)
    requires more != []
    ensures first + more == first + more[..|more| - 1] + [more[|more| - 1]]
  {
  }

  lemma {:induction false} MoreSteps(s: State, first: seq<Step>, more: seq<Step>)
    requires OrderlyRun(s, first) && OrderlyRun(Run(s, first), more)
    ensures OrderlyRun(s, first + more) && Run(s, first + more) == Run(Run(s, first), more)
  {
    if more == [] {
      assert first + more == first;
    } else {
      var n := |more| - 1;
      MoreSteps(s, first, more[..n]);
      OneMoreStep(s, first + more[..n], more[n]);
      LastApart(first, more);
    }
  }

  /** At the end of an orderly run: an approved order that no continuation ever ships. */
  lemma {:induction false} StrandedOrder()
    ensures SoundOpening(TenInStock().stock, TenInStock().movements) && OrderlyRun(TenInStock(), StrandOne())
    ensures var t := Run(TenInStock(), StrandOne());
            0 < |t.purchases| && t.purchases[0].status.Approved? && forall more :: !ShippedIn(Run(t, more), 0)
  {
    TenIsSound();
    DraftBeside();
    var s := WithDraft();
    assert s.emitted[0].SalesOrderFulfilled?;
    assert BothFree(s, Some(0), Some(0));
    SideLinkStrands(s, 0, 0);
    MoreSteps(TenInStock(), FulfillFour() + [StepCreatePurchase(0, [Item(0, 1)])], SideLink(0, 0, 1));
    ShippableExactly(TenInStock().stock, TenInStock().movements, StrandOne(), 0);
  }
}
