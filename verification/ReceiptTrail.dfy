/**
 * The trail from a receipt to the ledger: every arrival names its own receipt line, and every
 * receipt line arrives once - already in the ledger, or still in flight.
 */
module ReceiptTrail {
  import opened Sums
  import opened Tables
  import opened Protocol
  import opened Invariants
  import opened PurchaseSteps
  import opened DeliverySteps
  import opened Theorems
  import opened Completion

  /** One for an arrival that names receipt line `r`. */
  ghost function NamesReceipt(r: nat): Movement -> int {
    (m: Movement) => if m.source.Receipt? && m.source.receiptLine == r then 1 else 0
  }

  /** An arrival repeats the order line, the product and the quantity of the receipt line it names. */
  ghost predicate MatchesReceipt(m: Movement, receipts: seq<ReceiptLine>) {
    m.source.Receipt? ==>
      && m.source.receiptLine < |receipts|
      && var line := receipts[m.source.receiptLine];
         line.poLine == m.source.poLine && line.product == m.key.product && line.qty == m.delta
  }

  ghost predicate AllMatch(ms: seq<Movement>, receipts: seq<ReceiptLine>) {
    forall i :: 0 <= i < |ms| ==> MatchesReceipt(ms[i], receipts)
  }

  /** How often receipt line `r` is named in the ledger and in flight. */
  ghost function TimesNamed(s: State, r: nat): int {
    Sum(s.movements, NamesReceipt(r)) + Pending(s.emitted, s.processed, NamesReceipt(r))
  }

  ghost predicate TrailOk(s: State) {
    && AllMatch(s.movements, s.receipts)
    && (forall e :: 0 <= e < |s.emitted| ==> AllMatch(MovementsOf(s.emitted[e]), s.receipts))
    && (forall r: nat :: TimesNamed(s, r) == if r < |s.receipts| then 1 else 0)
  }

  // ---------- Receiving ----------

  lemma {:induction false} NamedOnce(p: nat, po: PurchaseOrder, requests: seq<Request>, first: nat, r: nat)
    requires KnownLines(|po.lines|, requests)
    ensures Sum(MovementsOf(ReceiptEvent(p, po, requests, first)), NamesReceipt(r)) == if first <= r < first + |requests| then 1 else 0
  {
    var ms := MovementsOf(ReceiptEvent(p, po, requests, first));
    if first <= r < first + |requests| {
      SumSingle(ms, r - first, NamesReceipt(r));
    } else {
      SumZero(ms, NamesReceipt(r));
    }
  }

  lemma {:induction false} ReceivedMatch(p: nat, po: PurchaseOrder, requests: seq<Request>, receipts: seq<ReceiptLine>)
    requires KnownLines(|po.lines|, requests)
    ensures AllMatch(MovementsOf(ReceiptEvent(p, po, requests, |receipts|)), receipts + ReceiptLines(p, po.lines, requests))
  {
    var ms := MovementsOf(ReceiptEvent(p, po, requests, |receipts|));
    forall i | 0 <= i < |ms| ensures MatchesReceipt(ms[i], receipts + ReceiptLines(p, po.lines, requests)) {
      assert ms[i].source.receiptLine == |receipts| + i;
    }
  }

  lemma {:induction false} ReceiveKeepsTrail(s: State, p: nat, requests: seq<Request>)
    requires TrailOk(s) && ClaimsOk(s.processed, s.emitted) && Receive(s, p, requests).Committed?
    ensures TrailOk(Receive(s, p, requests).state)
  {
    var t := Receive(s, p, requests).state;
    var po := s.purchases[p];
    var e := ReceiptEvent(p, po, requests, |s.receipts|);
    assert t.emitted == s.emitted + [e];
    ReceivedMatch(p, po, requests, s.receipts);
    forall r: nat ensures TimesNamed(t, r) == if r < |t.receipts| then 1 else 0 {
      assert TimesNamed(s, r) == if r < |s.receipts| then 1 else 0;
      PendingAppend(s.emitted, e, s.processed, NamesReceipt(r));
      NamedOnce(p, po, requests, |s.receipts|, r);
    }
  }

  // ---------- Other events ----------

  lemma {:induction false} OthersNameNothing(e: Event, r: nat)
    requires !e.PoReceived?
    ensures Sum(MovementsOf(e), NamesReceipt(r)) == 0
  {
    SumZero(MovementsOf(e), NamesReceipt(r));
  }

  /** Announcing anything but a receipt leaves the trail as it is. */
  lemma {:induction false} EmitKeepsTrail(s: State, t: State, e: Event)
    requires TrailOk(s) && ClaimsOk(s.processed, s.emitted) && !e.PoReceived?
    requires t.emitted == s.emitted + [e] && t.processed == s.processed && t.movements == s.movements && t.receipts == s.receipts
    ensures TrailOk(t)
  {
    forall r: nat ensures TimesNamed(t, r) == TimesNamed(s, r) {
      PendingAppend(s.emitted, e, s.processed, NamesReceipt(r));
      OthersNameNothing(e, r);
    }
    assert AllMatch(MovementsOf(e), t.receipts);
  }

  // ---------- Deliveries ----------

  lemma {:induction false} PostKeepsTrail(s: State, t: State, id: nat)
    requires TrailOk(s) && Posts(s, t, id) && t.receipts == s.receipts
    ensures TrailOk(t)
  {
    forall r: nat ensures TimesNamed(t, r) == TimesNamed(s, r) {
      PostedPlusPending(s, id, NamesReceipt(r));
    }
    assert AllMatch(MovementsOf(s.emitted[id]), s.receipts);
  }

  lemma {:induction false} DeliverKeepsTrail(s: State, id: nat)
    requires TrailOk(s)
    ensures TrailOk(Deliver(s, id))
  {
    var t := Deliver(s, id);
    if t.processed == s.processed {
      assert t == s;
    } else {
      assert s.movements + [] == s.movements;
      PostKeepsTrail(s, t, id);
    }
  }

  // ---------- Runs ----------

  lemma {:induction false} StepKeepsTrail(s: State, step: Step)
    requires TrailOk(s) && ClaimsOk(s.processed, s.emitted)
    ensures TrailOk(After(s, step))
  {
    var t := After(s, step);
    if Attempt(s, step).Committed? {
      match step
      case StepReceive(p, requests) => ReceiveKeepsTrail(s, p, requests);
      case StepFulfill(o, requests) => EmitKeepsTrail(s, t, t.emitted[|s.emitted|]);
      case StepCreateShipment(_, forPo, forSo) => EmitKeepsTrail(s, t, ShipmentCreated(forPo, forSo));
      case StepDeliver(id) => DeliverKeepsTrail(s, id);
      case _ => SameTrail(s, t);
    }
  }

  lemma {:induction false} SameTrail(s: State, t: State)
    requires TrailOk(s)
    requires t.emitted == s.emitted && t.processed == s.processed && t.movements == s.movements && t.receipts == s.receipts
    ensures TrailOk(t)
  {
    forall r: nat ensures TimesNamed(t, r) == TimesNamed(s, r) {
    }
  }

  lemma {:induction false} OpeningTrail(stock: map<Key, StockLevel>, ledger: seq<Movement>)
    requires SoundOpening(stock, ledger)
    ensures TrailOk(Start(stock, ledger))
  {
    forall r: nat ensures Sum(ledger, NamesReceipt(r)) == 0 {
      SumZero(ledger, NamesReceipt(r));
    }
  }

  lemma {:induction false} RunKeepsTrail(stock: map<Key, StockLevel>, ledger: seq<Movement>, steps: seq<Step>)
    requires SoundOpening(stock, ledger) && OrderlyRun(Start(stock, ledger), steps)
    ensures TrailOk(Run(Start(stock, ledger), steps))
  {
    if steps == [] {
      OpeningTrail(stock, ledger);
    } else {
      var n := |steps| - 1;
      RunKeepsTrail(stock, ledger, steps[..n]);
      RunKeeps(stock, ledger, steps[..n]);
      ClaimsAreOk(Start(stock, ledger), Run(Start(stock, ledger), steps[..n]));
      StepKeepsTrail(Run(Start(stock, ledger), steps[..n]), steps[n]);
    }
  }

  lemma {:induction false} ClaimsAreOk(origin: State, s: State)
    requires Inv(origin, s)
    ensures ClaimsOk(s.processed, s.emitted)
  {
  }

  /** Two rows that name the same receipt line count twice. */
  lemma {:induction false} TwoNamesCountTwice(ms: seq<Movement>, i: nat, j: nat, r: nat)
    requires i < j < |ms| && NamesReceipt(r)(ms[i]) == 1 && NamesReceipt(r)(ms[j]) == 1
    ensures 2 <= Sum(ms, NamesReceipt(r))
  {
    SumSlice(ms, j, NamesReceipt(r));
    SumAtLeastRow(ms[..j], i, NamesReceipt(r));
    SumAtLeastRow(ms[j..], 0, NamesReceipt(r));
  }

  lemma {:induction false} PendingNamesNonNegative(s: State, r: nat)
    ensures 0 <= Pending(s.emitted, s.processed, NamesReceipt(r))
  {
    forall e | 0 <= e < |s.emitted| ensures 0 <= Sum(MovementsOf(s.emitted[e]), NamesReceipt(r)) {
      SumNonNegative(MovementsOf(s.emitted[e]), NamesReceipt(r));
    }
    PendingNonNegative(s.emitted, s.processed, NamesReceipt(r));
  }

  lemma {:induction false} NamedDistinctly(s: State, i: nat, j: nat)
    requires TrailOk(s) && i < j < |s.movements| && s.movements[i].source.Receipt? && s.movements[j].source.Receipt?
    ensures s.movements[i].source.receiptLine != s.movements[j].source.receiptLine
  {
    var r := s.movements[i].source.receiptLine;
    assert TimesNamed(s, r) <= 1;
    PendingNamesNonNegative(s, r);
    if r == s.movements[j].source.receiptLine {
      TwoNamesCountTwice(s.movements, i, j, r);
    }
  }

  /**
   * After every orderly run each arrival in the ledger names a receipt line with its own order line,
   * product and quantity, no two name the same one, and each receipt line is named exactly once in
   * the ledger and in flight together.
   */
  lemma {:induction false} EveryReceiptArrivesOnce(stock: map<Key, StockLevel>, ledger: seq<Movement>, steps: seq<Step>)
    requires SoundOpening(stock, ledger) && OrderlyRun(Start(stock, ledger), steps)
    ensures var s := Run(Start(stock, ledger), steps);
            && AllMatch(s.movements, s.receipts)
            && (forall i, j :: 0 <= i < j < |s.movements| && s.movements[i].source.Receipt? && s.movements[j].source.Receipt? ==>
                  s.movements[i].source.receiptLine != s.movements[j].source.receiptLine)
            && (forall r: nat :: r < |s.receipts| ==>
                  Sum(s.movements, NamesReceipt(r)) + Pending(s.emitted, s.processed, NamesReceipt(r)) == 1)
  {
    var s := Run(Start(stock, ledger), steps);
    RunKeepsTrail(stock, ledger, steps);
    forall i, j | 0 <= i < j < |s.movements| && s.movements[i].source.Receipt? && s.movements[j].source.Receipt?
      ensures s.movements[i].source.receiptLine != s.movements[j].source.receiptLine
    {
      NamedDistinctly(s, i, j);
    }
    forall r: nat | r < |s.receipts| ensures Sum(s.movements, NamesReceipt(r)) + Pending(s.emitted, s.processed, NamesReceipt(r)) == 1 {
      assert TimesNamed(s, r) == 1;
    }
  }

  lemma {:induction false} DeliverAllKeepsTrail(s: State, ids: seq<nat>)
    requires TrailOk(s)
    ensures TrailOk(DeliverAll(s, ids))
  {
    if ids != [] {
      DeliverAllKeepsTrail(s, ids[..|ids| - 1]);
      DeliverKeepsTrail(DeliverAll(s, ids[..|ids| - 1]), ids[|ids| - 1]);
    }
  }

  /** Once every emitted event has been delivered, each receipt line has exactly one ledger row. */
  lemma {:induction false} ReceiptsEventuallyArrive(stock: map<Key, StockLevel>, ledger: seq<Movement>, steps: seq<Step>, ids: seq<nat>, r: nat)
    requires SoundOpening(stock, ledger) && OrderlyRun(Start(stock, ledger), steps)
    requires CoversAll(Run(Start(stock, ledger), steps), ids) && r < |Run(Start(stock, ledger), steps).receipts|
    ensures Sum(DeliverAll(Run(Start(stock, ledger), steps), ids).movements, NamesReceipt(r)) == 1
  {
    var s := Run(Start(stock, ledger), steps);
    RunKeepsTrail(stock, ledger, steps);
    DeliverAllKeepsTrail(s, ids);
    DeliverAllFrames(s, ids);
    NothingPending(s, ids, DeliverAll(s, ids), NamesReceipt(r));
    assert TimesNamed(DeliverAll(s, ids), r) == 1;
  }
}
