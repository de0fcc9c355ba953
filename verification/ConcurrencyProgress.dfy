/** Concurrent allocations never deadlock, and every schedule of them is bounded. */
module ConcurrencyProgress {
  import opened Sums
  import opened Tables
  import opened Protocol
  import opened Invariants
  import opened SalesSteps
  import opened Allocation
  import opened Services
  import opened ConcurrentAllocation
  import opened ConcurrencyTheorems

  // ---------- No deadlock ----------

  lemma {:induction false} RowsNeedLock(db: State, locks: map<Key, nat>, u: nat, ux: Tx, ref: LineRef)
    requires InProgress(ux.phase) && TxOk(db, locks, u, ux) && HasRow(ux.rows, ref)
    ensures ux.o == ref.order && 0 < Held(ux) && db.sales[ux.o].status.Confirmed?
  {
    var i :| 0 <= i < |ux.rows| && ux.rows[i].ref == ref;
    assert ux.rows[i] == NewReservation(ux.o, ux.warehouse, ux.sorted[i]);
  }

  /** No insert ever waits for somebody else's uncommitted reservation. */
  lemma {:induction false} InsertNeverBlocked(c: Sys, t: nat)
    requires TxsOk(c) && t < |c.txs| && c.txs[t].phase.Working? && c.txs[t].phase.stage.Insert?
    ensures c.txs[t].phase.pc < |c.txs[t].sorted| && !InsertBlocked(c, t)
  {
    assert TxOk(c.db, c.locks, t, c.txs[t]);
    forall u | 0 <= u < |c.txs| && u != t && InProgress(c.txs[u].phase) ensures !HasRow(c.txs[u].rows, NextRow(c.txs[t]).ref) {
      assert TxOk(c.db, c.locks, u, c.txs[u]);
      if HasRow(c.txs[u].rows, NextRow(c.txs[t]).ref) {
        RowsNeedLock(c.db, c.locks, u, c.txs[u], NextRow(c.txs[t]).ref);
        OneHolderPerOrder(c.db, c.locks, t, c.txs[t], u, c.txs[u]);
      }
    }
  }

  /** The transaction waits for a row somebody else has locked. */
  ghost predicate Waiting(c: Sys, t: nat) {
    && t < |c.txs|
    && c.txs[t].phase.Working? && c.txs[t].phase.stage.Select?
    && c.txs[t].phase.pc < |c.txs[t].sorted|
    && Wanted(c.txs[t]) in c.locks
    && c.locks[Wanted(c.txs[t])] != t
  }

  /** An unfinished transaction that cannot run is waiting for a row lock, and for nothing else. */
  lemma {:induction false} OnlyLocksBlock(c: Sys, t: nat)
    requires TxsOk(c) && t < |c.txs| && !c.txs[t].phase.Done?
    ensures Enabled(c, t) || Waiting(c, t)
  {
    assert TxOk(c.db, c.locks, t, c.txs[t]);
    if c.txs[t].phase.Working? && c.txs[t].phase.stage.Insert? {
      InsertNeverBlocked(c, t);
    }
  }

  /** Whoever holds the row a waiting transaction wants is unfinished, and if it waits too, then for a later product. */
  lemma {:induction false} HolderIsAhead(c: Sys, t: nat)
    requires TxsOk(c) && LocksOk(c) && Waiting(c, t)
    ensures var u := c.locks[Wanted(c.txs[t])];
            && u < |c.txs|
            && !c.txs[u].phase.Done?
            && (Waiting(c, u) ==> Wanted(c.txs[t]).product < Wanted(c.txs[u]).product)
  {
    var k := Wanted(c.txs[t]);
    var u := c.locks[k];
    var ux := c.txs[u];
    assert Holder(ux, k);
    assert TxOk(c.db, c.locks, u, ux);
    if Waiting(c, u) {
      var j :| 0 <= j < Held(ux) && KeyOf(ux.sorted[j], ux.warehouse) == k;
      SortedIsListing(Listing(c.db.sales[ux.o].lines));
      assert ux.sorted[j].line.product <= ux.sorted[ux.phase.pc].line.product;
      assert Wanted(ux) != k;
    }
  }

  /** Beyond every product anybody waits for. */
  ghost function Beyond(txs: seq<Tx>): nat {
    if txs == [] then 0
    else
      var n := |txs| - 1;
      var rest := Beyond(txs[..n]);
      if txs[n].phase.Working? && txs[n].phase.pc < |txs[n].sorted| && rest <= Wanted(txs[n]).product
      then Wanted(txs[n]).product + 1 else rest
  }

  lemma {:induction false} WantedWithin(txs: seq<Tx>, t: nat)
    requires t < |txs| && txs[t].phase.Working? && txs[t].phase.pc < |txs[t].sorted|
    ensures Wanted(txs[t]).product < Beyond(txs)
  {
    var n := |txs| - 1;
    if t < n {
      WantedWithin(txs[..n], t);
    }
  }

  /** Following the holders of wanted rows leads to a transaction that can run. */
  lemma {:induction false} FindRunnable(c: Sys, t: nat) returns (u: nat)
    requires TxsOk(c) && LocksOk(c) && t < |c.txs| && !c.txs[t].phase.Done?
    ensures Enabled(c, u)
    decreases if Waiting(c, t) then Beyond(c.txs) - Wanted(c.txs[t]).product else 0
  {
    OnlyLocksBlock(c, t);
    if Waiting(c, t) {
      HolderIsAhead(c, t);
      WantedWithin(c.txs, t);
      var next := c.locks[Wanted(c.txs[t])];
      if Waiting(c, next) {
        WantedWithin(c.txs, next);
      }
      u := FindRunnable(c, next);
    } else {
      u := t;
    }
  }

  /**
   * Deadlock freedom: after any interleaving, as long as some transaction is unfinished, some
   * transaction can run - also when orders repeat products and when one order is allocated twice.
   */
  lemma {:induction false} NoDeadlock(db: State, orders: seq<nat>, schedule: seq<nat>, t: nat)
    requires DbOk(db) && Runs(Init(db, orders), schedule)
    requires var c := Reached(Init(db, orders), schedule);
             t < |c.txs| && !c.txs[t].phase.Done?
    ensures exists u :: Enabled(Reached(Init(db, orders), schedule), u)
  {
    ScheduleKeeps(db, orders, schedule);
    var u := FindRunnable(Reached(Init(db, orders), schedule), t);
  }

  // ---------- Every schedule ends ----------

  ghost function LineCount(sales: seq<SalesOrder>, o: nat): nat {
    if o < |sales| then |sales[o].lines| else 0
  }

  function StageIndex(stage: Stage): nat {
    match stage
    case Select => 0
    case Update => 1
    case Insert => 2
    case Mark => 3
  }

  /** How many statements a transaction can still run at most; `sales` gives the line counts. */
  ghost function Left(sales: seq<SalesOrder>): Tx -> int {
    (tx: Tx) =>
      match tx.phase
      case Idle => 4 * LineCount(sales, tx.o) + 3
      case Working(pc, stage) => 4 * (|tx.sorted| - pc) - StageIndex(stage) + 2
      case Closing => 2
      case Committing => 1
      case Failing => 1
      case Done(_) => 0
  }

  ghost predicate SameShape(a: seq<SalesOrder>, b: seq<SalesOrder>) {
    |a| == |b| && forall o :: 0 <= o < |a| ==> |b[o].lines| == |a[o].lines|
  }

  lemma {:induction false} NextKeepsShape(c: Sys, t: nat)
    requires Enabled(c, t)
    ensures SameShape(c.db.sales, Next(c, t).db.sales) && |Next(c, t).txs| == |c.txs|
  {
  }

  lemma {:induction false} NextShortens(sales: seq<SalesOrder>, c: Sys, t: nat)
    requires Enabled(c, t) && SameShape(sales, c.db.sales)
    ensures Sum(Next(c, t).txs, Left(sales)) < Sum(c.txs, Left(sales))
  {
    OwnShortens(sales, c, t);
    SumUpdate(c.txs, t, Next(c, t).txs[t], Left(sales));
  }

  lemma {:induction false} OwnShortens(sales: seq<SalesOrder>, c: Sys, t: nat)
    requires Enabled(c, t) && SameShape(sales, c.db.sales)
    ensures Next(c, t).txs == c.txs[t := Next(c, t).txs[t]]
    ensures Left(sales)(Next(c, t).txs[t]) < Left(sales)(c.txs[t])
  {
    if c.txs[t].phase.Idle? {
      BeginShortens(sales, c.db, c.txs[t]);
    }
  }

  lemma {:induction false} BeginShortens(sales: seq<SalesOrder>, db: State, tx: Tx)
    requires tx.phase.Idle? && SameShape(sales, db.sales)
    ensures Left(sales)(Begin(db, tx)) < Left(sales)(tx)
  {
    if tx.o < |db.sales| {
      SortedIsListing(Listing(db.sales[tx.o].lines));
    }
  }

  ghost predicate PositionsOk(txs: seq<Tx>) {
    forall t :: 0 <= t < |txs| && txs[t].phase.Working? ==> txs[t].phase.pc < |txs[t].sorted|
  }

  lemma {:induction false} LeftNonNegative(sales: seq<SalesOrder>, txs: seq<Tx>)
    requires PositionsOk(txs)
    ensures 0 <= Sum(txs, Left(sales))
  {
    SumNonNegative(txs, Left(sales));
  }

  lemma {:induction false} ScheduleShortens(db: State, orders: seq<nat>, schedule: seq<nat>)
    requires Runs(Init(db, orders), schedule)
    ensures var c := Reached(Init(db, orders), schedule);
            && SameShape(db.sales, c.db.sales)
            && |schedule| + Sum(c.txs, Left(db.sales)) <= Sum(Init(db, orders).txs, Left(db.sales))
  {
    if schedule != [] {
      var n := |schedule| - 1;
      var c := Reached(Init(db, orders), schedule[..n]);
      ScheduleShortens(db, orders, schedule[..n]);
      NextKeepsShape(c, schedule[n]);
      NextShortens(db.sales, c, schedule[n]);
    }
  }

  ghost function StatementsOf(sales: seq<SalesOrder>): nat -> int {
    (o: nat) => 4 * LineCount(sales, o) + 3
  }

  lemma {:induction false} InitLeft(db: State, orders: seq<nat>)
    ensures Sum(Init(db, orders).txs, Left(db.sales)) == Sum(orders, StatementsOf(db.sales))
  {
    SumSame(Init(db, orders).txs, Left(db.sales), orders, StatementsOf(db.sales));
  }

  lemma {:induction false} PositionsOf(db: State, c: Sys)
    requires SysInv(db, c)
    ensures PositionsOk(c.txs)
  {
    forall t | 0 <= t < |c.txs| && c.txs[t].phase.Working? ensures c.txs[t].phase.pc < |c.txs[t].sorted| {
      assert TxOk(c.db, c.locks, t, c.txs[t]);
    }
  }

  /** Termination: no schedule is longer than four statements per order line and three per transaction. */
  lemma {:induction false} SchedulesEnd(db: State, orders: seq<nat>, schedule: seq<nat>)
    requires DbOk(db) && Runs(Init(db, orders), schedule)
    ensures |schedule| <= Sum(orders, StatementsOf(db.sales))
  {
    ScheduleKeeps(db, orders, schedule);
    ScheduleShortens(db, orders, schedule);
    PositionsOf(db, Reached(Init(db, orders), schedule));
    LeftNonNegative(db.sales, Reached(Init(db, orders), schedule).txs);
    InitLeft(db, orders);
  }

  /** A schedule that cannot be continued has finished every transaction. */
  lemma {:induction false} StuckIsFinished(db: State, orders: seq<nat>, schedule: seq<nat>, t: nat)
    requires DbOk(db) && Runs(Init(db, orders), schedule) && t < |orders|
    requires forall u :: !Enabled(Reached(Init(db, orders), schedule), u)
    ensures var c := Reached(Init(db, orders), schedule);
            t < |c.txs| && c.txs[t].o == orders[t] && t in c.finished
  {
    ScheduleKeeps(db, orders, schedule);
    ScheduleKeepsOrders(db, orders, schedule);
    var c := Reached(Init(db, orders), schedule);
    if !c.txs[t].phase.Done? {
      NoDeadlock(db, orders, schedule, t);
    }
  }

  lemma {:induction false} ScheduleKeepsOrders(db: State, orders: seq<nat>, schedule: seq<nat>)
    requires Runs(Init(db, orders), schedule)
    ensures var c := Reached(Init(db, orders), schedule);
            |c.txs| == |orders| && forall t :: 0 <= t < |orders| ==> c.txs[t].o == orders[t]
  {
    if schedule != [] {
      var n := |schedule| - 1;
      ScheduleKeepsOrders(db, orders, schedule[..n]);
      NextKeepsOrders(Reached(Init(db, orders), schedule[..n]), schedule[n]);
    }
  }

  lemma {:induction false} NextKeepsOrders(c: Sys, t: nat)
    requires Enabled(c, t)
    ensures |Next(c, t).txs| == |c.txs| && forall u :: 0 <= u < |c.txs| ==> Next(c, t).txs[u].o == c.txs[u].o
  {
  }
}
