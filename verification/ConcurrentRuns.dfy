/** Statement-level schedules refine the one-transaction-at-a-time machine, so everything proved of runs holds after them. */
module ConcurrentRuns {
  import opened Sums
  import opened Tables
  import opened Protocol
  import opened Invariants
  import opened Theorems
  import opened ConcurrentAllocation
  import opened ConcurrencyTheorems

  /** One allocation step per order. */
  function AllocationSteps(orders: seq<nat>): seq<Step> {
    seq(|orders|, i requires 0 <= i < |orders| => StepAllocate(orders[i]))
  }

  lemma {:induction false} OneMoreOrder(s: State, db: State, steps: seq<Step>, orders: seq<nat>, o: nat)
    requires OrderlyRun(s, steps) && Serial(db, orders) == Run(s, steps)
    ensures Serial(db, orders + [o]) == Run(s, steps + [StepAllocate(o)])
    ensures OrderlyRun(s, steps + [StepAllocate(o)])
  {
    SerialNext(db, orders, o);
    OneMoreStep(s, steps, StepAllocate(o));
  }

  lemma {:induction false} StepsOfPrefix(steps: seq<Step>, orders: seq<nat>)
    requires orders != []
    ensures var n := |orders| - 1;
            && orders == orders[..n] + [orders[n]]
            && steps + AllocationSteps(orders) == (steps + AllocationSteps(orders[..n])) + [StepAllocate(orders[n])]
  {
  }

  /** Allocating orders one after the other is a run of the machine. */
  lemma {:induction false} SerialIsRun(s: State, db: State, steps: seq<Step>, orders: seq<nat>)
    requires OrderlyRun(s, steps) && db == Run(s, steps)
    ensures Serial(db, orders) == Run(s, steps + AllocationSteps(orders))
    ensures OrderlyRun(s, steps + AllocationSteps(orders))
    decreases |orders|
  {
    if orders == [] {
      assert steps + AllocationSteps(orders) == steps;
    } else {
      var n := |orders| - 1;
      SerialIsRun(s, db, steps, orders[..n]);
      OneMoreOrder(s, db, steps + AllocationSteps(orders[..n]), orders[..n], orders[n]);
      StepsOfPrefix(steps, orders);
    }
  }

  /**
   * Refinement: whatever an orderly run led to, and however allocations then interleave, at any
   * moment the committed tables are those of an orderly run - the old one followed by one whole
   * allocation per finished transaction.
   */
  lemma {:induction false} SchedulesRefineRuns(stock: map<Key, StockLevel>, ledger: seq<Movement>, steps: seq<Step>, orders: seq<nat>, schedule: seq<nat>)
    requires SoundOpening(stock, ledger) && OrderlyRun(Start(stock, ledger), steps)
    requires Runs(Init(Run(Start(stock, ledger), steps), orders), schedule)
    ensures var c := Reached(Init(Run(Start(stock, ledger), steps), orders), schedule);
            && FinishedOk(c)
            && var all := steps + AllocationSteps(OrdersOf(c.txs, c.finished));
               OrderlyRun(Start(stock, ledger), all) && c.db == Run(Start(stock, ledger), all)
  {
    var s := Run(Start(stock, ledger), steps);
    RunKeeps(stock, ledger, steps);
    ReachableDbOk(Start(stock, ledger), s);
    Serializable(s, orders, schedule);
    var c := Reached(Init(s, orders), schedule);
    SerialIsRun(Start(stock, ledger), s, steps, OrdersOf(c.txs, c.finished));
  }

  /** Concurrent allocations never oversell: at any moment of any interleaving reserved stays within on-hand. */
  lemma {:induction false} NoConcurrentOversell(stock: map<Key, StockLevel>, ledger: seq<Movement>, steps: seq<Step>, orders: seq<nat>, schedule: seq<nat>, k: Key)
    requires SoundOpening(stock, ledger) && OrderlyRun(Start(stock, ledger), steps)
    requires Runs(Init(Run(Start(stock, ledger), steps), orders), schedule)
    ensures var db := Reached(Init(Run(Start(stock, ledger), steps), orders), schedule).db;
            && 0 <= ReservedIn(db.stock, k) <= OnHandIn(db.stock, k)
            && ReservedIn(db.stock, k) == Sum(db.sales, ReservedAt(k)) + Pending(db.emitted, db.processed, ShippedAt(k))
  {
    var s := Run(Start(stock, ledger), steps);
    var c := Reached(Init(s, orders), schedule);
    SchedulesRefineRuns(stock, ledger, steps, orders, schedule);
    var all := steps + AllocationSteps(OrdersOf(c.txs, c.finished));
    NoOversell(stock, ledger, all, k, 0);
    ReservedAgreement(stock, ledger, all, k);
  }
}
