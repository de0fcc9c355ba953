/** Nothing gets stuck: late events catch up, and every order under way can be completed. */
module Completion {
  import opened Sums
  import opened Tables
  import opened Protocol
  import opened Invariants
  import opened FulfillSteps
  import opened Theorems
  import SO = SalesOrderLifecycle
  import PO = PurchaseOrderLifecycle

  // ---------- Catching up ----------

  /** Every emitted event is among `ids`. */
  ghost predicate CoversAll(s: State, ids: seq<nat>) {
    forall id :: 0 <= id < |s.emitted| ==> id in ids
  }

  lemma {:induction false} NothingPending(s: State, ids: seq<nat>, t: State, f: Movement -> int)
    requires Delivered(s, ids, t) && CoversAll(s, ids)
    ensures Pending(t.emitted, t.processed, f) == 0
  {
    forall e | 0 <= e < |t.emitted| && e !in t.processed ensures Sum(MovementsOf(t.emitted[e]), f) == 0 {
      assert !Claimable(s, e);
    }
    PendingZero(t.emitted, t.processed, f);
  }

  /**
   * Eventual agreement: after any orderly run, once every emitted event has been delivered - in any
   * order, any number of times - the three modules agree exactly: on-hand is opening stock plus
   * received minus fulfilled, and reserved is what the order lines have reserved.
   */
  lemma {:induction false} EventuallyAgree(stock: map<Key, StockLevel>, ledger: seq<Movement>, steps: seq<Step>, ids: seq<nat>, k: Key)
    requires SoundOpening(stock, ledger) && OrderlyRun(Start(stock, ledger), steps)
    requires CoversAll(Run(Start(stock, ledger), steps), ids)
    ensures var s := Run(Start(stock, ledger), steps);
            var t := DeliverAll(s, ids);
            && t.sales == s.sales
            && OnHandIn(t.stock, k) == Sum(ledger, DeltaAt(k)) + Sum(t.purchases, ReceivedAt(k)) - Sum(s.sales, FulfilledAt(k))
            && ReservedIn(t.stock, k) == Sum(s.sales, ReservedAt(k))
  {
    var origin := Start(stock, ledger);
    var s := Run(origin, steps);
    var t := DeliverAll(s, ids);
    RunKeeps(stock, ledger, steps);
    DeliverAllKeeps(origin, s, ids);
    DeliverAllFrames(s, ids);
    NothingPending(s, ids, t, ArrivedAt(k));
    NothingPending(s, ids, t, ShippedAt(k));
    OnHandFromOrders(origin, t, k);
    ReservedFromOrders(origin, t, k);
  }

  lemma {:induction false} CaughtUpLine(origin: State, s: State, ids: seq<nat>, t: State, ref: LineRef)
    requires Inv(origin, t) && Delivered(s, ids, t) && CoversAll(s, ids)
    requires IsSalesLine(s.sales, ref) && Holding(s.sales[ref.order].status)
    ensures exists i :: SameCounters(SalesLineOf(s.sales, ref), t.reservations, ref, i)
  {
    NothingPending(s, ids, t, ShippedFor(ref));
    LineAgrees(origin, t, ref);
    var i :| RowAgrees(t, ref, i);
    assert SameCounters(SalesLineOf(s.sales, ref), t.reservations, ref, i);
  }

  /** Then every line of an order that holds stock has a reservation with its own counters. */
  lemma {:induction false} LinesEventuallyAgree(stock: map<Key, StockLevel>, ledger: seq<Movement>, steps: seq<Step>, ids: seq<nat>, ref: LineRef)
    requires SoundOpening(stock, ledger) && OrderlyRun(Start(stock, ledger), steps)
    requires var s := Run(Start(stock, ledger), steps);
             CoversAll(s, ids) && IsSalesLine(s.sales, ref) && Holding(s.sales[ref.order].status)
    ensures var s := Run(Start(stock, ledger), steps);
            exists i :: SameCounters(SalesLineOf(s.sales, ref), DeliverAll(s, ids).reservations, ref, i)
  {
    var origin := Start(stock, ledger);
    var s := Run(origin, steps);
    RunKeeps(stock, ledger, steps);
    DeliverAllKeeps(origin, s, ids);
    DeliverAllFrames(s, ids);
    CaughtUpLine(origin, s, ids, DeliverAll(s, ids), ref);
  }

  ghost predicate SameCounters(line: SalesLine, rows: seq<Reservation>, ref: LineRef, i: nat) {
    && i < |rows|
    && rows[i].ref == ref
    && line.fulfilled == rows[i].fulfilled
    && line.reserved == rows[i].quantity - rows[i].fulfilled
  }

  // ---------- Completing a sales order ----------

  /** Asks for all that the first `n` lines still have reserved. */
  function RestToFulfill(lines: seq<SalesLine>, n: nat): seq<Request>
    requires n <= |lines|
  {
    if n == 0 then []
    else RestToFulfill(lines, n - 1) + if 0 < lines[n - 1].reserved then [Request(n - 1, lines[n - 1].reserved)] else []
  }

  lemma {:induction false} RestAsksForReserved(lines: seq<SalesLine>, n: nat, l: nat)
    requires n <= |lines| && forall j :: 0 <= j < |lines| ==> 0 <= lines[j].reserved
    ensures KnownLines(n, RestToFulfill(lines, n))
    ensures Requested(RestToFulfill(lines, n), l) == if l < n then lines[l].reserved else 0
  {
    if n != 0 {
      RestAsksForReserved(lines, n - 1, l);
      if 0 < lines[n - 1].reserved {
        SumAppend(RestToFulfill(lines, n - 1), Request(n - 1, lines[n - 1].reserved), QtyOn(l));
      } else {
        assert RestToFulfill(lines, n) == RestToFulfill(lines, n - 1);
      }
    }
  }

  lemma {:induction false} RestIsAccepted(order: SalesOrder)
    requires SalesOrderOk(order) && order.status in SO.FULFILLABLE
    ensures var rest := RestToFulfill(order.lines, |order.lines|);
            && rest != []
            && FulfillAccepts(order.lines, rest)
            && AllFulfilled(FulfillLines(order.lines, rest))
  {
    var rest := RestToFulfill(order.lines, |order.lines|);
    forall l | 0 <= l < |order.lines|
      ensures 0 <= order.lines[l].reserved && order.lines[l].reserved + order.lines[l].fulfilled == order.lines[l].ordered
    {
      assert SalesLineOk(order.status, order.lines[l]);
    }
    forall l: nat ensures KnownLines(|order.lines|, rest) && Requested(rest, l) == if l < |order.lines| then order.lines[l].reserved else 0 {
      RestAsksForReserved(order.lines, |order.lines|, l);
    }
    FulfillCriterion(order.lines, rest);
    SomethingLeft(order);
    assert rest == [] ==> forall l: nat :: Requested(rest, l) == 0;
  }

  lemma {:induction false} SomethingLeft(order: SalesOrder)
    requires SalesOrderOk(order) && order.status in SO.FULFILLABLE
    ensures exists l :: 0 <= l < |order.lines| && 0 < order.lines[l].reserved
  {
    if order.status.Allocated? {
      assert SalesLineOk(order.status, order.lines[0]);
      assert 0 < order.lines[0].reserved;
    } else {
      var l :| 0 <= l < |order.lines| && order.lines[l].fulfilled < order.lines[l].ordered;
      assert SalesLineOk(order.status, order.lines[l]);
      assert 0 < order.lines[l].reserved;
    }
  }

  /** In every reachable state an allocated or partially fulfilled order can be fulfilled in full, by one request. */
  lemma {:induction false} HeldOrderCanBeCompleted(stock: map<Key, StockLevel>, ledger: seq<Movement>, steps: seq<Step>, o: nat)
    requires SoundOpening(stock, ledger) && OrderlyRun(Start(stock, ledger), steps)
    requires var s := Run(Start(stock, ledger), steps);
             o < |s.sales| && (s.sales[o].status.Allocated? || s.sales[o].status.PartiallyFulfilled?)
    ensures var s := Run(Start(stock, ledger), steps);
            var step := StepFulfill(o, RestToFulfill(s.sales[o].lines, |s.sales[o].lines|));
            && Orderly(s, step)
            && Attempt(s, step).Committed?
            && After(s, step).sales[o].status.Fulfilled?
  {
    RunKeeps(stock, ledger, steps);
    RestIsAccepted(Run(Start(stock, ledger), steps).sales[o]);
  }

  // ---------- Completing a purchase order ----------

  function Lack(l: PurchaseLine): int {
    l.ordered - l.received
  }

  /** Receives all that the first `n` lines still lack. */
  function RestToReceive(lines: seq<PurchaseLine>, n: nat): seq<Request>
    requires n <= |lines|
  {
    if n == 0 then []
    else RestToReceive(lines, n - 1) + if 0 < Lack(lines[n - 1]) then [Request(n - 1, Lack(lines[n - 1]))] else []
  }

  lemma {:induction false} RestNamesEachOnce(lines: seq<PurchaseLine>, n: nat)
    requires n <= |lines|
    ensures var rest := RestToReceive(lines, n);
            && DistinctLines(rest)
            && forall i :: 0 <= i < |rest| ==> rest[i].line < n && rest[i].qty == Lack(lines[rest[i].line])
  {
    if n != 0 {
      RestNamesEachOnce(lines, n - 1);
    }
  }

  lemma {:induction false} RestAsksForLack(lines: seq<PurchaseLine>, n: nat, l: nat)
    requires n <= |lines| && forall j :: 0 <= j < |lines| ==> 0 <= Lack(lines[j])
    ensures Requested(RestToReceive(lines, n), l) == if l < n then Lack(lines[l]) else 0
  {
    if n != 0 {
      RestAsksForLack(lines, n - 1, l);
      if 0 < Lack(lines[n - 1]) {
        SumAppend(RestToReceive(lines, n - 1), Request(n - 1, Lack(lines[n - 1])), QtyOn(l));
      } else {
        assert RestToReceive(lines, n) == RestToReceive(lines, n - 1);
      }
    }
  }

  lemma {:induction false} RestIsReceivable(po: PurchaseOrder)
    requires PurchaseOrderOk(po) && po.status in PO.RECEIVABLE
    ensures var rest := RestToReceive(po.lines, |po.lines|);
            && rest != []
            && DistinctLines(rest)
            && ReceiveAccepts(po.lines, rest)
            && ReceiptFits(po.lines, rest)
            && AllReceived(ReceiveLines(po.lines, rest))
  {
    var rest := RestToReceive(po.lines, |po.lines|);
    forall l | 0 <= l < |po.lines| ensures 0 <= Lack(po.lines[l]) {
      assert PurchaseLineOk(po.status, po.lines[l]);
    }
    forall l: nat ensures Requested(rest, l) == if l < |po.lines| then Lack(po.lines[l]) else 0 {
      RestAsksForLack(po.lines, |po.lines|, l);
    }
    RestNamesEachOnce(po.lines, |po.lines|);
    SomethingLacks(po);
    assert rest == [] ==> forall l: nat :: Requested(rest, l) == 0;
  }

  lemma {:induction false} SomethingLacks(po: PurchaseOrder)
    requires PurchaseOrderOk(po) && po.status in PO.RECEIVABLE
    ensures exists l :: 0 <= l < |po.lines| && 0 < Lack(po.lines[l])
  {
    if po.status.Shipped? {
      assert PurchaseLineOk(po.status, po.lines[0]);
      assert 0 < Lack(po.lines[0]);
    } else {
      var l :| 0 <= l < |po.lines| && po.lines[l].received < po.lines[l].ordered;
      assert 0 < Lack(po.lines[l]);
    }
  }

  /** In every reachable state a shipped or partially received order can be received in full, by one request. */
  lemma {:induction false} ShippedOrderCanBeCompleted(stock: map<Key, StockLevel>, ledger: seq<Movement>, steps: seq<Step>, p: nat)
    requires SoundOpening(stock, ledger) && OrderlyRun(Start(stock, ledger), steps)
    requires var s := Run(Start(stock, ledger), steps);
             p < |s.purchases| && (s.purchases[p].status.Shipped? || s.purchases[p].status.PartiallyReceived?)
    ensures var s := Run(Start(stock, ledger), steps);
            var step := StepReceive(p, RestToReceive(s.purchases[p].lines, |s.purchases[p].lines|));
            && Orderly(s, step)
            && Attempt(s, step).Committed?
            && After(s, step).purchases[p].status.Received?
  {
    RunKeeps(stock, ledger, steps);
    RestIsReceivable(Run(Start(stock, ledger), steps).purchases[p]);
  }

  /** A line of order `p` still lacks something. */
  ghost predicate LeavesShort(s: State, p: nat) {
    p < |s.purchases| && exists l :: 0 <= l < |s.purchases[p].lines| && 0 < Lack(s.purchases[p].lines[l])
  }

  /** After a receipt that leaves a line short, in every reachable state, one more receipt brings the rest. */
  lemma {:induction false} RestCanBeReceived(stock: map<Key, StockLevel>, ledger: seq<Movement>, steps: seq<Step>, p: nat, requests: seq<Request>)
    requires SoundOpening(stock, ledger) && OrderlyRun(Start(stock, ledger), steps)
    requires var s := Run(Start(stock, ledger), steps);
             Orderly(s, StepReceive(p, requests)) && Attempt(s, StepReceive(p, requests)).Committed?
    ensures var t := After(Run(Start(stock, ledger), steps), StepReceive(p, requests));
            && p < |t.purchases|
            && (!LeavesShort(t, p) ==> t.purchases[p].status.Received?)
            && (LeavesShort(t, p) ==>
                  var rest := StepReceive(p, RestToReceive(t.purchases[p].lines, |t.purchases[p].lines|));
                  && t.purchases[p].status.PartiallyReceived?
                  && Attempt(t, rest).Committed?
                  && After(t, rest).purchases[p].status.Received?)
  {
    var s := Run(Start(stock, ledger), steps);
    var t := After(s, StepReceive(p, requests));
    if LeavesShort(t, p) {
      OneMoreStep(Start(stock, ledger), steps, StepReceive(p, requests));
      assert t.purchases[p].status.PartiallyReceived?;
      ShippedOrderCanBeCompleted(stock, ledger, steps + [StepReceive(p, requests)], p);
    }
  }
}
