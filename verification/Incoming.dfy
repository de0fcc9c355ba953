/** What the risk rows call incoming can come in full, exactly as long as no approved order is stranded. */
module Incoming {
  import opened Sums
  import opened Tables
  import opened Protocol
  import opened Invariants
  import opened Theorems
  import opened Completion
  import opened Inbound
  import opened RiskRows

  // ---------- One order ----------

  /** From `s` to `t` order `p` has come in full, no other order has changed, and no other link is spent. */
  ghost predicate JustCame(s: State, t: State, p: nat) {
    && p < |s.purchases| && |t.purchases| == |s.purchases|
    && t.purchases == s.purchases[p := t.purchases[p]]
    && Came(s.purchases[p], t.purchases[p]) && t.purchases[p].status.Received?
    && t.sales == s.sales
    && forall q :: q != p && LinkSpent(t, q) ==> LinkSpent(s, q)
  }

  function ReceiveAllOf(s: State, p: nat): Step
    requires p < |s.purchases|
  {
    StepReceive(p, RestToReceive(s.purchases[p].lines, |s.purchases[p].lines|))
  }

  lemma {:induction false} ReceiptSpendsNothing(s: State, t: State, q: nat)
    requires t.processed == s.processed && s.emitted <= t.emitted
    requires forall id :: |s.emitted| <= id < |t.emitted| ==> t.emitted[id].PoReceived?
    requires LinkSpent(t, q)
    ensures LinkSpent(s, q)
  {
    var id :| 0 <= id < |t.emitted| && SpentBy(t, id, q);
    assert SpentBy(s, id, q);
  }

  lemma {:induction false} RestComes(s: State, p: nat)
    requires p < |s.purchases| && PurchaseOrderOk(s.purchases[p])
    requires s.purchases[p].status.Shipped? || s.purchases[p].status.PartiallyReceived?
    ensures Orderly(s, ReceiveAllOf(s, p)) && JustCame(s, After(s, ReceiveAllOf(s, p)), p)
  {
    RestIsReceivable(s.purchases[p]);
    var t := After(s, ReceiveAllOf(s, p));
    forall q | q != p && LinkSpent(t, q) ensures LinkSpent(s, q) {
      ReceiptSpendsNothing(s, t, q);
    }
  }

  lemma {:induction false} ShippedThenCame(s: State, m: State, t: State, p: nat)
    requires p < |s.purchases| && s.purchases[p].status.Approved? && JustShipped(s, m, p) && JustCame(m, t, p)
    ensures JustCame(s, t, p)
  {
  }

  lemma {:induction false} ShippedOk(s: State, m: State, p: nat)
    requires p < |s.purchases| && PurchaseOrderOk(s.purchases[p]) && s.purchases[p].status.Approved? && JustShipped(s, m, p)
    ensures PurchaseOrderOk(m.purchases[p])
  {
    forall l | 0 <= l < |m.purchases[p].lines| ensures PurchaseLineOk(m.purchases[p].status, m.purchases[p].lines[l]) {
      assert PurchaseLineOk(s.purchases[p].status, s.purchases[p].lines[l]);
    }
  }

  /** An order under way comes in full, unless it is stranded. */
  lemma {:induction false} OneOrderComes(s: State, p: nat) returns (way: seq<Step>)
    requires p < |s.purchases| && PurchaseOrderOk(s.purchases[p]) && UnderWay(s.purchases[p]) && ClaimsOk(s.processed, s.emitted)
    requires s.purchases[p].status.Approved? ==> !LinkSpent(s, p)
    ensures OrderlyRun(s, way) && JustCame(s, Run(s, way), p)
  {
    if s.purchases[p].status.Approved? {
      UnspentShips(s, p);
      var m := Run(s, WayToShip(s, p));
      ShippedOk(s, m, p);
      RestComes(m, p);
      OneMoreStep(s, WayToShip(s, p), ReceiveAllOf(m, p));
      way := WayToShip(s, p) + [ReceiveAllOf(m, p)];
      ShippedThenCame(s, m, Run(s, way), p);
    } else {
      RestComes(s, p);
      OneMoreStep(s, [], ReceiveAllOf(s, p));
      way := [] + [ReceiveAllOf(s, p)];
    }
  }

  // ---------- All orders ----------

  /** No approved order has its link spent. */
  ghost predicate NoneStranded(s: State) {
    forall p: nat :: p < |s.purchases| && s.purchases[p].status.Approved? ==> !LinkSpent(s, p)
  }

  /** The first `n` orders have come as far as they were under way; the others are as they were. */
  ghost predicate CameUpTo(a: seq<PurchaseOrder>, b: seq<PurchaseOrder>, n: nat) {
    && |b| == |a|
    && forall p :: 0 <= p < |a| ==> if p < n then Came(a[p], b[p]) && !b[p].status.Approved? else b[p] == a[p]
  }

  lemma {:induction false} CameNext(s: State, m: State, t: State, n: nat)
    requires n < |s.purchases| && CameUpTo(s.purchases, m.purchases, n) && NoneStranded(m)
    requires if UnderWay(m.purchases[n]) then JustCame(m, t, n) else t == m
    ensures CameUpTo(s.purchases, t.purchases, n + 1) && NoneStranded(t) && t.sales == m.sales
  {
  }

  lemma {:induction false} RunWellFormed(origin: State, s: State, steps: seq<Step>)
    requires Inv(origin, s) && OrderlyRun(s, steps)
    ensures PurchasesOk(Run(s, steps).purchases) && ClaimsOk(Run(s, steps).processed, Run(s, steps).emitted)
  {
    RunKeepsFrom(origin, s, steps);
  }

  lemma {:induction false} NextOrderComes(m: State, n: nat) returns (way: seq<Step>)
    requires n < |m.purchases| && PurchaseOrderOk(m.purchases[n]) && ClaimsOk(m.processed, m.emitted) && NoneStranded(m)
    ensures OrderlyRun(m, way)
    ensures if UnderWay(m.purchases[n]) then JustCame(m, Run(m, way), n) else Run(m, way) == m
  {
    way := [];
    if UnderWay(m.purchases[n]) {
      way := OneOrderComes(m, n);
    }
  }

  /** `steps` bring the first `n` orders. */
  ghost predicate BringFirst(s: State, steps: seq<Step>, n: nat) {
    && OrderlyRun(s, steps)
    && CameUpTo(s.purchases, Run(s, steps).purchases, n) && NoneStranded(Run(s, steps)) && Run(s, steps).sales == s.sales
  }

  lemma {:induction false} BringNext(s: State, before: seq<Step>, n: nat) returns (steps: seq<Step>)
    requires n < |s.purchases| && BringFirst(s, before, n)
    requires PurchasesOk(Run(s, before).purchases) && ClaimsOk(Run(s, before).processed, Run(s, before).emitted)
    ensures BringFirst(s, steps, n + 1)
  {
    var m := Run(s, before);
    var way := NextOrderComes(m, n);
    MoreSteps(s, before, way);
    steps := before + way;
    CameNext(s, m, Run(m, way), n);
  }

  lemma {:induction false} OrdersCome(origin: State, s: State, n: nat) returns (steps: seq<Step>)
    requires Inv(origin, s) && n <= |s.purchases| && NoneStranded(s)
    ensures BringFirst(s, steps, n)
  {
    if n == 0 {
      steps := [];
    } else {
      var before := OrdersCome(origin, s, n - 1);
      RunWellFormed(origin, s, before);
      steps := BringNext(s, before, n - 1);
    }
  }

  // ---------- All events ----------

  function DeliverSteps(n: nat): seq<Step> {
    seq(n, i requires 0 <= i < n => StepDeliver(i))
  }

  function FirstIds(n: nat): seq<nat> {
    seq(n, i requires 0 <= i < n => i)
  }

  lemma {:induction false} OneMoreId(n: nat)
    ensures DeliverSteps(n + 1) == DeliverSteps(n) + [StepDeliver(n)]
    ensures FirstIds(n + 1) == FirstIds(n) + [n] && FirstIds(n + 1)[..n] == FirstIds(n)
  {
  }

  lemma {:induction false} OneMoreDelivery(s: State, n: nat)
    requires OrderlyRun(s, DeliverSteps(n)) && Run(s, DeliverSteps(n)) == DeliverAll(s, FirstIds(n))
    ensures OrderlyRun(s, DeliverSteps(n + 1)) && Run(s, DeliverSteps(n + 1)) == DeliverAll(s, FirstIds(n + 1))
  {
    OneMoreId(n);
    OneMoreStep(s, DeliverSteps(n), StepDeliver(n));
  }

  lemma {:induction false} DeliverInRun(s: State, n: nat)
    ensures OrderlyRun(s, DeliverSteps(n)) && Run(s, DeliverSteps(n)) == DeliverAll(s, FirstIds(n))
  {
    if n != 0 {
      DeliverInRun(s, n - 1);
      OneMoreDelivery(s, n - 1);
    }
  }

  /** Nothing that moves stock is in flight. */
  ghost predicate AllPosted(s: State) {
    forall k: Key :: Pending(s.emitted, s.processed, ArrivedAt(k)) == 0 && Pending(s.emitted, s.processed, ShippedAt(k)) == 0
  }

  /** Without approved orders, delivering everything posts everything and changes no order. */
  lemma {:induction false} EverythingPosted(s: State)
    requires forall p :: 0 <= p < |s.purchases| ==> !s.purchases[p].status.Approved?
    ensures var t := Run(s, DeliverSteps(|s.emitted|));
            OrderlyRun(s, DeliverSteps(|s.emitted|)) && t.purchases == s.purchases && t.sales == s.sales && AllPosted(t)
  {
    var ids := FirstIds(|s.emitted|);
    DeliverInRun(s, |s.emitted|);
    var t := DeliverAll(s, ids);
    DeliverAllFrames(s, ids);
    forall p | 0 <= p < |s.purchases| ensures t.purchases[p] == s.purchases[p] {
      DeliveriesShip(s, ids, p);
    }
    assert CoversAll(s, ids) by {
      forall id | 0 <= id < |s.emitted| ensures id in ids {
        assert ids[id] == id;
      }
    }
    forall k: Key ensures Pending(t.emitted, t.processed, ArrivedAt(k)) == 0 && Pending(t.emitted, t.processed, ShippedAt(k)) == 0 {
      NothingPending(s, ids, t, ArrivedAt(k));
      NothingPending(s, ids, t, ShippedAt(k));
    }
  }

  // ---------- What incoming promises ----------

  /** From `s` to `t` all that was incoming has come and is posted, and no sales order has changed. */
  ghost predicate Complete(s: State, t: State) {
    AllCame(s.purchases, t.purchases) && t.sales == s.sales && AllPosted(t)
  }

  /** Then on-hand of every key has gained what was incoming, after what was in flight. */
  ghost predicate GainedIncoming(s: State, t: State) {
    forall k: Key ::
      OnHandIn(t.stock, k)
      == OnHandIn(s.stock, k) + Sum(s.purchases, IncomingAt(k))
         + Pending(s.emitted, s.processed, ArrivedAt(k)) - Pending(s.emitted, s.processed, ShippedAt(k))
  }

  lemma {:induction false} CompleteGains(origin: State, s: State, t: State)
    requires Inv(origin, s) && Inv(origin, t) && Complete(s, t)
    ensures GainedIncoming(s, t)
  {
    forall k: Key
      ensures OnHandIn(t.stock, k)
              == OnHandIn(s.stock, k) + Sum(s.purchases, IncomingAt(k))
                 + Pending(s.emitted, s.processed, ArrivedAt(k)) - Pending(s.emitted, s.processed, ShippedAt(k))
    {
      assert Pending(t.emitted, t.processed, ArrivedAt(k)) == 0 && Pending(t.emitted, t.processed, ShippedAt(k)) == 0;
      IncomingIsGained(origin, s, t, k);
    }
  }

  lemma {:induction false} AllComes(origin: State, s: State) returns (steps: seq<Step>)
    requires Inv(origin, s) && NoneStranded(s)
    ensures OrderlyRun(s, steps) && Complete(s, Run(s, steps))
  {
    var orders := OrdersCome(origin, s, |s.purchases|);
    var m := Run(s, orders);
    EverythingPosted(m);
    MoreSteps(s, orders, DeliverSteps(|m.emitted|));
    steps := orders + DeliverSteps(|m.emitted|);
  }

  lemma {:induction false} StrandedNeverComes(s: State, steps: seq<Step>, p: nat)
    requires Stranded(s, p) && s.purchases[p].status.Approved?
    ensures !AllCame(s.purchases, Run(s, steps).purchases)
  {
    StrandedForGood(s, steps, p);
    assert !Came(s.purchases[p], Run(s, steps).purchases[p]);
  }

  /** Some orderly continuation brings and posts all that is incoming. */
  ghost predicate CanComplete(s: State) {
    exists more :: OrderlyRun(s, more) && Complete(s, Run(s, more))
  }

  /**
   * From every reachable state all that is incoming can come - every order under way received in full,
   * every event posted, no sales order touched - exactly if no approved order is stranded; and whenever
   * it has come so, on-hand of every key has gained its incoming quantity, after what was in flight.
   */
  lemma {:induction false} IncomingComesExactly(stock: map<Key, StockLevel>, ledger: seq<Movement>, steps: seq<Step>)
    requires SoundOpening(stock, ledger) && OrderlyRun(Start(stock, ledger), steps)
    ensures var s := Run(Start(stock, ledger), steps);
            && (CanComplete(s) <==> NoneStranded(s))
            && (forall more :: OrderlyRun(s, more) && Complete(s, Run(s, more)) ==> GainedIncoming(s, Run(s, more)))
  {
    var origin := Start(stock, ledger);
    var s := Run(origin, steps);
    RunKeeps(stock, ledger, steps);
    if NoneStranded(s) {
      var more := AllComes(origin, s);
      assert Complete(s, Run(s, more));
    } else {
      var p: nat :| p < |s.purchases| && s.purchases[p].status.Approved? && LinkSpent(s, p);
      OneShipmentPerOrder(stock, ledger, steps);
      forall more ensures !Complete(s, Run(s, more)) {
        StrandedNeverComes(s, more, p);
      }
    }
    forall more | OrderlyRun(s, more) && Complete(s, Run(s, more)) ensures GainedIncoming(s, Run(s, more)) {
      RunKeepsFrom(origin, s, more);
      CompleteGains(origin, s, Run(s, more));
    }
  }
}
