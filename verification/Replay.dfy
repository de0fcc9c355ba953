/**
 * A cancelled order against the order that should have been placed: one for its fulfilled
 * quantities only, created, confirmed, allocated, fulfilled at once and posted.
 */
module Replay {
  import opened Sums
  import opened Tables
  import opened Protocol
  import opened Invariants
  import opened SalesSteps
  import opened FulfillSteps
  import opened DeliverySteps
  import opened Theorems
  import opened Settlement
  import SO = SalesOrderLifecycle

  // ---------- The order for what was fulfilled ----------

  /** The lines of which something was fulfilled, each as a new line for just that. */
  function FulfilledItems(lines: seq<SalesLine>): seq<Item> {
    if lines == [] then []
    else
      var l := lines[|lines| - 1];
      FulfilledItems(lines[..|lines| - 1]) + if 0 < l.fulfilled then [Item(l.product, l.fulfilled)] else []
  }

  /** One request for all of every line. */
  function AllOf(items: seq<Item>): seq<Request> {
    seq(|items|, i requires 0 <= i < |items| => Request(i, items[i].qty))
  }

  /** Orders `items` as the order with id `p`, gets all of it, and posts event `id`. */
  function PlaceAndFulfill(warehouse: nat, items: seq<Item>, p: nat, id: nat): seq<Step> {
    [StepCreateSales(warehouse, items)] + FulfillAtOnce(items, p, id)
  }

  function FulfillAtOnce(items: seq<Item>, p: nat, id: nat): seq<Step> {
    [StepConfirm(p), StepAllocate(p), StepFulfill(p, AllOf(items)), StepDeliver(id)]
  }

  lemma {:induction false} ItemsWeighFulfilled(warehouse: nat, lines: seq<SalesLine>, k: Key)
    requires forall l :: 0 <= l < |lines| ==> 0 <= lines[l].fulfilled
    ensures Sum(NewSalesLines(FulfilledItems(lines)), LineOrderedAt(warehouse, k)) == Sum(lines, LineFulfilledAt(warehouse, k))
  {
    if lines != [] {
      var n := |lines| - 1;
      var before := FulfilledItems(lines[..n]);
      ItemsWeighFulfilled(warehouse, lines[..n], k);
      if 0 < lines[n].fulfilled {
        var item := Item(lines[n].product, lines[n].fulfilled);
        assert NewSalesLines(before + [item]) == NewSalesLines(before) + [SalesLine(item.product, item.qty, 0, 0)];
        SumAppend(NewSalesLines(before), SalesLine(item.product, item.qty, 0, 0), LineOrderedAt(warehouse, k));
      } else {
        assert FulfilledItems(lines) == before;
      }
    }
  }

  // ---------- The order while it goes through ----------

  function ItemLines(items: seq<Item>, status: SO.Status): seq<SalesLine> {
    seq(|items|, i requires 0 <= i < |items| =>
      SalesLine(items[i].product, items[i].qty,
                if status.Allocated? then items[i].qty else 0,
                if status.Fulfilled? then items[i].qty else 0))
  }

  function ItemOrder(warehouse: nat, items: seq<Item>, status: SO.Status): SalesOrder {
    SalesOrder(status, warehouse, ItemLines(items, status))
  }

  lemma {:induction false} AllRequested(items: seq<Item>, l: nat)
    requires l < |items|
    ensures Requested(AllOf(items), l) == items[l].qty
  {
    SumSingle(AllOf(items), l, QtyOn(l));
  }

  lemma {:induction false} AllIsFulfilled(items: seq<Item>)
    ensures var lines := ItemLines(items, SO.Allocated);
            && FulfillAccepts(lines, AllOf(items))
            && FulfillLines(lines, AllOf(items)) == ItemLines(items, SO.Fulfilled)
            && AllFulfilled(ItemLines(items, SO.Fulfilled))
  {
    var lines := ItemLines(items, SO.Allocated);
    forall l | 0 <= l < |items| ensures Requested(AllOf(items), l) == items[l].qty {
      AllRequested(items, l);
    }
    FulfillCriterion(lines, AllOf(items));
  }

  /** Order `p` is there in status `status`, nothing of it is in flight, and it is the last one. */
  ghost predicate At(s: State, warehouse: nat, items: seq<Item>, p: nat, status: SO.Status) {
    |s.sales| == p + 1 && s.sales[p] == ItemOrder(warehouse, items, status)
  }

  lemma {:induction false} ConfirmGoesThrough(s: State, warehouse: nat, items: seq<Item>, p: nat)
    requires At(s, warehouse, items, p, SO.Draft)
    ensures var t := After(s, StepConfirm(p));
            && At(t, warehouse, items, p, SO.Confirmed)
            && t == s.(sales := t.sales)
  {
    assert ItemLines(items, SO.Draft) == ItemLines(items, SO.Confirmed);
  }

  lemma {:induction false} AllocateGoesThrough(s: State, warehouse: nat, items: seq<Item>, p: nat)
    requires At(s, warehouse, items, p, SO.Confirmed)
    requires forall k: Key :: Demand(ItemOrder(warehouse, items, SO.Confirmed), k) <= Available(s.stock, k)
    ensures var t := After(s, StepAllocate(p));
            && At(t, warehouse, items, p, SO.Allocated)
            && t.emitted == s.emitted && t.processed == s.processed && t.movements == s.movements
  {
    assert Sufficient(s.stock, s.sales[p]);
    assert ReserveLines(ItemLines(items, SO.Confirmed)) == ItemLines(items, SO.Allocated);
  }

  lemma {:induction false} FulfillGoesThrough(s: State, warehouse: nat, items: seq<Item>, p: nat)
    requires At(s, warehouse, items, p, SO.Allocated)
    ensures var t := After(s, StepFulfill(p, AllOf(items)));
            && At(t, warehouse, items, p, SO.Fulfilled)
            && t.emitted == s.emitted + [SalesOrderFulfilled(p, warehouse, FulfilledPayload(ItemLines(items, SO.Allocated), AllOf(items)))]
            && t.processed == s.processed && t.movements == s.movements
  {
    AllIsFulfilled(items);
  }

  /** The ledger rows of the whole order: one per line, of its whole quantity. */
  function RowsOf(warehouse: nat, items: seq<Item>, p: nat): seq<Movement> {
    seq(|items|, i requires 0 <= i < |items| =>
      Movement(Key(items[i].product, warehouse), 0 - items[i].qty, Fulfillment(LineRef(p, i))))
  }

  lemma {:induction false} DeliverGoesThrough(s: State, warehouse: nat, items: seq<Item>, p: nat, id: nat)
    requires At(s, warehouse, items, p, SO.Fulfilled)
    requires |s.emitted| == id + 1 && id !in s.processed
    requires s.emitted[id] == SalesOrderFulfilled(p, warehouse, FulfilledPayload(ItemLines(items, SO.Allocated), AllOf(items)))
    ensures var t := After(s, StepDeliver(id));
            && At(t, warehouse, items, p, SO.Fulfilled)
            && t.emitted == s.emitted && t.processed == s.processed + {id}
            && t.movements == s.movements + RowsOf(warehouse, items, p)
  {
    assert MovementsOf(s.emitted[id]) == RowsOf(warehouse, items, p);
  }

  // ---------- The run ----------

  lemma {:induction false} OneMoreAbout(s: State, steps: seq<Step>, step: Step, o: nat)
    requires AboutRun(s, steps, o) && About(Run(s, steps), step, o)
    ensures AboutRun(s, steps + [step], o)
  {
    assert (steps + [step])[..|steps|] == steps;
  }

  /** The new order goes through, from its creation to its posting, if its items are available. */
  lemma {:induction false} FulfillAtOnceRun(s: State, warehouse: nat, items: seq<Item>, p: nat, id: nat)
    requires At(s, warehouse, items, p, SO.Draft) && items != []
    requires |s.emitted| == id && id !in s.processed
    requires forall k: Key :: Demand(ItemOrder(warehouse, items, SO.Confirmed), k) <= Available(s.stock, k)
    ensures var steps := FulfillAtOnce(items, p, id);
            var t := Run(s, steps);
            && OrderlyRun(s, steps) && AboutRun(s, steps, p)
            && At(t, warehouse, items, p, SO.Fulfilled)
            && |t.emitted| == id + 1 && t.emitted[..id] == s.emitted
            && t.processed == s.processed + {id}
            && t.movements == s.movements + RowsOf(warehouse, items, p)
  {
    var steps := FulfillAtOnce(items, p, id);
    var one := [StepConfirm(p)];
    var two := one + [StepAllocate(p)];
    var three := two + [StepFulfill(p, AllOf(items))];
    assert steps == three + [StepDeliver(id)];
    assert [] + one == one;
    OneMoreStep(s, [], StepConfirm(p));
    OneMoreAbout(s, [], StepConfirm(p), p);
    ConfirmGoesThrough(s, warehouse, items, p);
    OneMoreStep(s, one, StepAllocate(p));
    OneMoreAbout(s, one, StepAllocate(p), p);
    AllocateGoesThrough(Run(s, one), warehouse, items, p);
    assert |AllOf(items)| == |items|;
    OneMoreStep(s, two, StepFulfill(p, AllOf(items)));
    OneMoreAbout(s, two, StepFulfill(p, AllOf(items)), p);
    FulfillGoesThrough(Run(s, two), warehouse, items, p);
    OneMoreStep(s, three, StepDeliver(id));
    OneMoreAbout(s, three, StepDeliver(id), p);
    DeliverGoesThrough(Run(s, three), warehouse, items, p, id);
  }

  lemma {:induction false} FirstStep(s: State, first: Step, rest: seq<Step>)
    requires Orderly(s, first) && OrderlyRun(After(s, first), rest)
    ensures OrderlyRun(s, [first] + rest) && Run(s, [first] + rest) == Run(After(s, first), rest)
  {
    if rest == [] {
      OneMoreStep(s, [], first);
      assert [] + [first] == [first] + rest;
    } else {
      var n := |rest| - 1;
      FirstStep(s, first, rest[..n]);
      OneMoreStep(s, [first] + rest[..n], rest[n]);
      assert [first] + rest == [first] + rest[..n] + [rest[n]];
    }
  }

  /** What an order got was available before it was allocated. */
  lemma {:induction false} FulfilledWasAvailable(origin: State, s: State, t: State, o: nat, k: Key)
    requires Inv(origin, s) && Inv(origin, t)
    requires o < |s.sales| && !Started(s.sales[o].status)
    requires OthersSame(s, t, o) && Over(t, o)
    ensures FulfilledAt(k)(t.sales[o]) <= Available(s.stock, k)
  {
    SettlesKey(origin, s, t, o, k);
    WithinOnHand(origin, t, k);
  }

  lemma {:induction false} WithinOnHand(origin: State, s: State, k: Key)
    requires Inv(origin, s)
    ensures 0 <= ReservedIn(s.stock, k) <= OnHandIn(s.stock, k)
  {
  }

  lemma {:induction false} ItemsWeigh(order: SalesOrder, k: Key)
    requires SalesOrderOk(order)
    ensures var items := FulfilledItems(order.lines);
            && Demand(ItemOrder(order.warehouse, items, SO.Confirmed), k) == FulfilledAt(k)(order)
            && FulfilledAt(k)(ItemOrder(order.warehouse, items, SO.Fulfilled)) == FulfilledAt(k)(order)
  {
    var items := FulfilledItems(order.lines);
    forall l | 0 <= l < |order.lines| ensures 0 <= order.lines[l].fulfilled {
      assert SalesLineOk(order.status, order.lines[l]);
    }
    ItemsWeighFulfilled(order.warehouse, order.lines, k);
    assert NewSalesLines(items) == ItemLines(items, SO.Confirmed);
    SumSame(ItemLines(items, SO.Fulfilled), LineFulfilledAt(order.warehouse, k),
            ItemLines(items, SO.Confirmed), LineOrderedAt(order.warehouse, k));
  }

  /** The order for what `order` got can be placed in `s` and goes through. */
  lemma {:induction false} ReplayRuns(origin: State, s: State, order: SalesOrder)
    requires Inv(origin, s) && SalesOrderOk(order) && FulfilledItems(order.lines) != []
    requires forall k: Key :: FulfilledAt(k)(order) <= Available(s.stock, k)
    ensures var items := FulfilledItems(order.lines);
            var p := |s.sales|;
            var created := CreateSalesOrder(s, order.warehouse, items);
            var steps := FulfillAtOnce(items, p, |s.emitted|);
            var t := Run(created, steps);
            && Inv(origin, created)
            && OrderlyRun(s, PlaceAndFulfill(order.warehouse, items, p, |s.emitted|))
            && t == Run(s, PlaceAndFulfill(order.warehouse, items, p, |s.emitted|))
            && OrderlyRun(created, steps) && AboutRun(created, steps, p)
            && At(t, order.warehouse, items, p, SO.Fulfilled) && Over(t, p)
            && t.movements == s.movements + RowsOf(order.warehouse, items, p)
  {
    var items := FulfilledItems(order.lines);
    var p := |s.sales|;
    var created := CreateSalesOrder(s, order.warehouse, items);
    CreateSalesOrderKeeps(origin, s, order.warehouse, items);
    assert NewSalesLines(items) == ItemLines(items, SO.Draft);
    forall k: Key ensures Demand(ItemOrder(order.warehouse, items, SO.Confirmed), k) <= Available(created.stock, k) {
      ItemsWeigh(order, k);
    }
    ClaimsBelow(origin, s);
    FulfillAtOnceRun(created, order.warehouse, items, p, |s.emitted|);
    FirstStep(s, StepCreateSales(order.warehouse, items), FulfillAtOnce(items, p, |s.emitted|));
    NewOrderNotInFlight(origin, s, Run(created, FulfillAtOnce(items, p, |s.emitted|)));
  }

  lemma {:induction false} ClaimsBelow(origin: State, s: State)
    requires Inv(origin, s)
    ensures |s.emitted| !in s.processed
  {
  }

  /** No event of the old tables fulfils the new order, and its own event is posted. */
  lemma {:induction false} NewOrderNotInFlight(origin: State, s: State, t: State)
    requires Inv(origin, s)
    requires |t.emitted| == |s.emitted| + 1 && t.emitted[..|s.emitted|] == s.emitted && t.processed == s.processed + {|s.emitted|}
    ensures !FulfillmentInFlight(t, |s.sales|)
  {
    forall id | 0 <= id < |s.emitted| && s.emitted[id].SalesOrderFulfilled? ensures s.emitted[id].so != |s.sales| {
      EventNamesOrder(s, id);
    }
    forall id | 0 <= id < |t.emitted| && id !in t.processed && t.emitted[id].SalesOrderFulfilled? ensures t.emitted[id].so != |s.sales| {
      assert t.emitted[id] == t.emitted[..|s.emitted|][id];
    }
  }

  lemma {:induction false} EventNamesOrder(s: State, id: nat)
    requires EventsOk(s.emitted, s.sales, s.purchases) && id < |s.emitted| && s.emitted[id].SalesOrderFulfilled?
    ensures s.emitted[id].so < |s.sales|
  {
    var ms := MovementsOf(s.emitted[id]);
    assert |ms| == |s.emitted[id].fulfilled|;
    assert MovementOk(ms[0], s.sales, s.purchases);
  }

  /**
   * As if only the fulfilled part had been ordered.  From any reachable state let anything happen
   * to an order until it is over, with something fulfilled.  Had an order for just its fulfilled
   * lines been placed instead, it would have gone through at once, and it would have left exactly
   * the same stock rows and, per key, the same ledger total - one ledger row per line.
   */
  lemma {:induction false} AsIfOnlyFulfilledWasOrdered(origin: State, s: State, steps: seq<Step>, o: nat)
    requires Inv(origin, s) && OrderlyRun(s, steps) && AboutRun(s, steps, o)
    requires o < |s.sales| && !Started(s.sales[o].status)
    requires Over(Run(s, steps), o) && FulfilledItems(Run(s, steps).sales[o].lines) != []
    ensures var t := Run(s, steps);
            var order := t.sales[o];
            var items := FulfilledItems(order.lines);
            var p := |s.sales|;
            var replay := PlaceAndFulfill(order.warehouse, items, p, |s.emitted|);
            var t' := Run(s, replay);
            && OrderlyRun(s, replay)
            && At(t', order.warehouse, items, p, SO.Fulfilled) && Over(t', p)
            && t'.stock == t.stock
            && t'.movements == s.movements + RowsOf(order.warehouse, items, p)
            && forall k: Key :: Sum(t'.movements, DeltaAt(k)) == Sum(t.movements, DeltaAt(k))
  {
    var t := Run(s, steps);
    var order := t.sales[o];
    SettledBehaviour(origin, s, steps, o);
    ReplayRuns(origin, s, order);
    var items := FulfilledItems(order.lines);
    var p := |s.sales|;
    var created := CreateSalesOrder(s, order.warehouse, items);
    var rest := FulfillAtOnce(items, p, |s.emitted|);
    Settles(origin, created, rest, p);
    forall k: Key ensures FulfilledAt(k)(Run(created, rest).sales[p]) == FulfilledAt(k)(order) {
      ItemsWeigh(order, k);
    }
    SameFulfilledSameStock(s.stock, order, Run(created, rest).sales[p]);
    LedgerSums(origin, s, steps);
    LedgerSums(origin, created, rest);
  }

  lemma {:induction false} SameFulfilledSameStock(stock: map<Key, StockLevel>, a: SalesOrder, b: SalesOrder)
    requires forall k: Key :: FulfilledAt(k)(a) == FulfilledAt(k)(b)
    ensures Withdraw(stock, a) == Withdraw(stock, b)
  {
  }

  /** What the comparison needs to know of the order that is over. */
  lemma {:induction false} SettledBehaviour(origin: State, s: State, steps: seq<Step>, o: nat)
    requires Inv(origin, s) && OrderlyRun(s, steps) && AboutRun(s, steps, o)
    requires o < |s.sales| && !Started(s.sales[o].status)
    requires Over(Run(s, steps), o)
    ensures var t := Run(s, steps);
            && t.stock == Withdraw(s.stock, t.sales[o])
            && SalesOrderOk(t.sales[o])
            && forall k: Key :: FulfilledAt(k)(t.sales[o]) <= Available(s.stock, k)
  {
    var t := Run(s, steps);
    RunKeepsFrom(origin, s, steps);
    RunLeavesOthers(origin, s, steps, o);
    SettledStates(origin, s, t, o);
    SalesOrderOkOf(origin, t, o);
    forall k: Key ensures FulfilledAt(k)(t.sales[o]) <= Available(s.stock, k) {
      FulfilledWasAvailable(origin, s, t, o, k);
    }
  }
}
