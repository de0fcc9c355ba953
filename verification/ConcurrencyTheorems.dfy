/** Concurrent allocations are serializable, never deadlock and always come to an end. */
module ConcurrencyTheorems {
  import opened Sums
  import opened Tables
  import opened Protocol
  import opened Invariants
  import opened SalesSteps
  import opened Allocation
  import opened Services
  import opened ConcurrentAllocation
  import SO = SalesOrderLifecycle

  // ---------- History ----------

  /** A step of `t` that finishes nothing and commits nothing leaves the history alone. */
  lemma {:induction false} UnfinishedKeepsHistory(db: State, c: Sys, t: nat, tx: Tx, locks: map<Key, nat>)
    requires FinishedOk(c) && SerialSoFar(db, c)
    requires t < |c.txs| && !c.txs[t].phase.Done? && !tx.phase.Done? && tx.o == c.txs[t].o
    ensures var c' := Put(c.(locks := locks), t, tx);
            FinishedOk(c') && SerialSoFar(db, c')
  {
    var c' := Put(c.(locks := locks), t, tx);
    assert OrdersOf(c'.txs, c.finished) == OrdersOf(c.txs, c.finished);
    forall u | 0 <= u < |c'.txs| && c'.txs[u].phase.Done? ensures u in c'.finished {
      assert c.txs[u].phase.Done?;
    }
  }

  lemma {:induction false} FinishListsFinished(c: Sys, t: nat, db': State, ok: bool)
    requires FinishedOk(c) && t < |c.txs| && !c.txs[t].phase.Done?
    ensures FinishedOk(Finish(c.(db := db'), t, ok))
  {
    var c' := Finish(c.(db := db'), t, ok);
    forall u | 0 <= u < |c'.txs| && c'.txs[u].phase.Done? ensures u in c'.finished {
      if u == t {
        assert c'.finished[|c.finished|] == u;
      } else {
        assert u in c.finished;
      }
    }
  }

  lemma {:induction false} SerialNext(db: State, orders: seq<nat>, o: nat)
    ensures Serial(db, orders + [o]) == match Allocate(Serial(db, orders), o)
                                        case Committed(after) => after
                                        case RolledBack(_) => Serial(db, orders)
  {
    assert (orders + [o])[..|orders|] == orders;
  }

  /** Finishing `t` extends the serial history by its order. */
  lemma {:induction false} FinishKeepsHistory(db: State, c: Sys, t: nat, db': State, ok: bool)
    requires FinishedOk(c) && SerialSoFar(db, c)
    requires t < |c.txs| && !c.txs[t].phase.Done?
    requires if ok then Allocate(c.db, c.txs[t].o) == Committed(db') else Allocate(c.db, c.txs[t].o).RolledBack? && db' == c.db
    ensures var c' := Finish(c.(db := db'), t, ok);
            FinishedOk(c') && SerialSoFar(db, c')
  {
    var c' := Finish(c.(db := db'), t, ok);
    FinishListsFinished(c, t, db', ok);
    FinishListsOrders(c, t, db', ok);
    SerialNext(db, OrdersOf(c.txs, c.finished), c.txs[t].o);
    forall i | 0 <= i < |c'.finished|
      ensures c'.txs[c'.finished[i]].phase.ok
              <==> Allocate(Serial(db, OrdersOf(c'.txs, c'.finished)[..i]), c'.txs[c'.finished[i]].o).Committed?
    {
      FinishKeepsOutcome(db, c, t, db', ok, i);
    }
  }

  lemma {:induction false} FinishListsOrders(c: Sys, t: nat, db': State, ok: bool)
    requires FinishedOk(c) && t < |c.txs| && FinishedOk(Finish(c.(db := db'), t, ok))
    ensures var c' := Finish(c.(db := db'), t, ok);
            OrdersOf(c'.txs, c'.finished) == OrdersOf(c.txs, c.finished) + [c.txs[t].o]
  {
  }

  /** Each finished transaction's outcome is the one of its turn. */
  lemma {:induction false} FinishKeepsOutcome(db: State, c: Sys, t: nat, db': State, ok: bool, i: nat)
    requires FinishedOk(c) && SerialSoFar(db, c)
    requires t < |c.txs| && !c.txs[t].phase.Done? && i <= |c.finished|
    requires ok <==> Allocate(c.db, c.txs[t].o).Committed?
    requires FinishedOk(Finish(c.(db := db'), t, ok))
    ensures var c' := Finish(c.(db := db'), t, ok);
            c'.txs[c'.finished[i]].phase.ok
            <==> Allocate(Serial(db, OrdersOf(c'.txs, c'.finished)[..i]), c'.txs[c'.finished[i]].o).Committed?
  {
    FinishListsOrders(c, t, db', ok);
    var before := OrdersOf(c.txs, c.finished);
    if i < |c.finished| {
      assert (before + [c.txs[t].o])[..i] == before[..i];
    } else {
      assert (before + [c.txs[t].o])[..i] == before;
    }
  }

  // ---------- Steps that only move their own transaction ----------

  lemma {:induction false} OwnStepKeepsOthers(c: Sys, t: nat, tx: Tx)
    requires t < |c.txs| && TxsOk(c) && LocksOk(c)
    requires TxOk(c.db, c.locks, t, tx)
    requires forall k :: k in c.locks && c.locks[k] == t ==> Holder(tx, k)
    ensures TxsOk(Put(c, t, tx)) && LocksOk(Put(c, t, tx))
  {
  }

  lemma {:induction false} OwnStepKeeps(db: State, c: Sys, t: nat, tx: Tx)
    requires SysInv(db, c) && t < |c.txs| && !c.txs[t].phase.Done? && !tx.phase.Done? && tx.o == c.txs[t].o
    requires TxOk(c.db, c.locks, t, tx)
    requires forall k :: k in c.locks && c.locks[k] == t ==> Holder(tx, k)
    ensures SysInv(db, Put(c, t, tx))
  {
    OwnStepKeepsOthers(c, t, tx);
    UnfinishedKeepsHistory(db, c, t, tx, c.locks);
  }

  lemma {:induction false} BeginOk(db: State, locks: map<Key, nat>, t: nat, tx: Tx)
    requires tx == NewTx(tx.o) && DbOk(db)
    ensures TxOk(db, locks, t, Begin(db, tx))
  {
    if tx.o < |db.sales| && SO.CanMove(db.sales[tx.o].status, SO.Allocated) {
      SortedHasEveryLine(db.sales[tx.o].lines, SortedByProduct(Listing(db.sales[tx.o].lines)));
    }
  }

  lemma {:induction false} UpdateOk(db: State, locks: map<Key, nat>, t: nat, tx: Tx)
    requires TxOk(db, locks, t, tx) && tx.phase.Working? && tx.phase.stage.Update?
    ensures TxOk(db, locks, t, tx.(phase := Working(tx.phase.pc, Insert), taken := tx.taken + [tx.sorted[tx.phase.pc]]))
  {
    var pc := tx.phase.pc;
    assert tx.sorted[..pc] + [tx.sorted[pc]] == tx.sorted[..pc + 1];
  }

  /** A live transaction never meets its own or a foreign reservation; a doomed one always does. */
  lemma {:induction false} InsertDecides(db: State, locks: map<Key, nat>, t: nat, tx: Tx)
    requires TxOk(db, locks, t, tx) && tx.phase.Working? && tx.phase.stage.Insert? && DbOk(db)
    ensures HasRow(db.reservations + tx.rows, NextRow(tx).ref) <==> Doomed(db, tx)
    ensures Doomed(db, tx) <==> !Live(db, tx)
  {
    var pc := tx.phase.pc;
    if Live(db, tx) {
      SortedHasEveryLine(db.sales[tx.o].lines, tx.sorted);
      forall i | 0 <= i < |db.reservations + tx.rows| ensures (db.reservations + tx.rows)[i].ref != NextRow(tx).ref {
        if |db.reservations| <= i {
          assert tx.rows[i - |db.reservations|] == NewReservation(tx.o, tx.warehouse, tx.sorted[i - |db.reservations|]);
        }
      }
    } else {
      var i :| 0 <= i < |db.reservations| && db.reservations[i].ref == LineRef(tx.o, tx.sorted[0].index);
      assert (db.reservations + tx.rows)[i].ref == NextRow(tx).ref;
    }
  }

  lemma {:induction false} InsertOk(db: State, locks: map<Key, nat>, t: nat, tx: Tx)
    requires TxOk(db, locks, t, tx) && tx.phase.Working? && tx.phase.stage.Insert? && DbOk(db)
    ensures HasRow(db.reservations + tx.rows, NextRow(tx).ref) ==> TxOk(db, locks, t, tx.(phase := Failing))
    ensures !HasRow(db.reservations + tx.rows, NextRow(tx).ref) ==>
              TxOk(db, locks, t, tx.(phase := Working(tx.phase.pc, Mark), rows := tx.rows + [NextRow(tx)]))
  {
    var pc := tx.phase.pc;
    InsertDecides(db, locks, t, tx);
    assert tx.sorted[..pc] + [tx.sorted[pc]] == tx.sorted[..pc + 1];
  }

  lemma {:induction false} MarkOk(db: State, locks: map<Key, nat>, t: nat, tx: Tx)
    requires TxOk(db, locks, t, tx) && tx.phase.Working? && tx.phase.stage.Mark?
    ensures var pc := tx.phase.pc;
            TxOk(db, locks, t, tx.(phase := if pc + 1 < |tx.sorted| then Working(pc + 1, Select) else Closing,
                                   marked := tx.marked + [tx.sorted[pc]]))
  {
    var pc := tx.phase.pc;
    assert tx.sorted[..pc] + [tx.sorted[pc]] == tx.sorted[..pc + 1];
    assert tx.sorted[..|tx.sorted|] == tx.sorted;
  }

  // ---------- Locking ----------

  /** What the locking read decides is what allocating the whole order now would decide. */
  lemma {:induction false} SelectDecides(db: State, locks: map<Key, nat>, t: nat, tx: Tx)
    requires TxOk(db, locks, t, tx) && tx.phase.Working? && tx.phase.stage.Select?
    ensures var k := Wanted(tx);
            var qty := tx.sorted[tx.phase.pc].line.ordered;
            && (Seen(db, tx, k) < qty ==> Allocate(db, tx.o).RolledBack?)
            && (qty <= Seen(db, tx, k) ==> k in db.stock)
            && (qty <= Seen(db, tx, k) && Live(db, tx) ==> Fits(db.stock, tx.warehouse, tx.sorted[..tx.phase.pc + 1]))
  {
    var pc := tx.phase.pc;
    assert tx.sorted[..pc] + [tx.sorted[pc]] == tx.sorted[..pc + 1];
    if Live(db, tx) {
      if Seen(db, tx, Wanted(tx)) < tx.sorted[pc].line.ordered {
        OneFails(db.stock, db.sales[tx.o], tx.sorted, pc);
      } else {
        FitsNext(db.stock, tx.warehouse, tx.sorted[..pc], tx.sorted[pc]);
      }
    }
  }

  ghost function Locked(c: Sys, t: nat): map<Key, nat>
    requires Enabled(c, t) && c.txs[t].phase.Working?
  {
    if Wanted(c.txs[t]) in c.db.stock then c.locks[Wanted(c.txs[t]) := t] else c.locks
  }

  /** Enough in the row: the transaction goes on with the lock. */
  lemma {:induction false} SelectedEnough(c: Sys, t: nat)
    requires Enabled(c, t) && c.txs[t].phase.Working? && c.txs[t].phase.stage.Select?
    requires TxOk(c.db, c.locks, t, c.txs[t])
    requires c.txs[t].sorted[c.txs[t].phase.pc].line.ordered <= Seen(c.db, c.txs[t], Wanted(c.txs[t]))
    ensures TxOk(c.db, Locked(c, t), t, c.txs[t].(phase := Working(c.txs[t].phase.pc, Update)))
  {
    SelectDecides(c.db, c.locks, t, c.txs[t]);
  }

  lemma {:induction false} SelectedTxOk(c: Sys, t: nat)
    requires Enabled(c, t) && c.txs[t].phase.Working? && c.txs[t].phase.stage.Select?
    requires TxOk(c.db, c.locks, t, c.txs[t])
    ensures var tx := c.txs[t];
            TxOk(c.db, Locked(c, t), t,
                 tx.(phase := if Seen(c.db, tx, Wanted(tx)) < tx.sorted[tx.phase.pc].line.ordered then Failing
                              else Working(tx.phase.pc, Update)))
  {
    if Seen(c.db, c.txs[t], Wanted(c.txs[t])) < c.txs[t].sorted[c.txs[t].phase.pc].line.ordered {
      SelectDecides(c.db, c.locks, t, c.txs[t]);
    } else {
      SelectedEnough(c, t);
    }
  }

  /** A lock that was free, or already the taker's, disturbs nobody. */
  lemma {:induction false} LockingKeepsOthers(c: Sys, t: nat, tx: Tx)
    requires Enabled(c, t) && c.txs[t].phase.Working? && c.txs[t].phase.stage.Select?
    requires TxsOk(c) && LocksOk(c)
    requires TxOk(c.db, Locked(c, t), t, tx)
    requires tx.phase.Failing? || (tx.sorted == c.txs[t].sorted && tx.warehouse == c.txs[t].warehouse && tx.phase == Working(c.txs[t].phase.pc, Update))
    ensures TxsOk(Put(c.(locks := Locked(c, t)), t, tx)) && LocksOk(Put(c.(locks := Locked(c, t)), t, tx))
  {
    var locks := Locked(c, t);
    forall u | 0 <= u < |c.txs| && u != t ensures TxOk(c.db, locks, u, c.txs[u]) {
      assert TxOk(c.db, c.locks, u, c.txs[u]);
    }
    forall k | k in locks ensures locks[k] < |c.txs| && Holder(if locks[k] == t then tx else c.txs[locks[k]], k) {
      if k == Wanted(c.txs[t]) {
        if tx.phase.Working? {
          assert KeyOf(tx.sorted[tx.phase.pc], tx.warehouse) == k;
        }
      } else {
        assert Holder(c.txs[c.locks[k]], k);
      }
    }
  }

  lemma {:induction false} SelectKeeps(db: State, c: Sys, t: nat)
    requires SysInv(db, c) && Enabled(c, t) && c.txs[t].phase.Working? && c.txs[t].phase.stage.Select?
    ensures SysInv(db, Next(c, t))
  {
    var tx := c.txs[t];
    var tx' := tx.(phase := if Seen(c.db, tx, Wanted(tx)) < tx.sorted[tx.phase.pc].line.ordered then Failing else Working(tx.phase.pc, Update));
    assert TxOk(c.db, c.locks, t, tx);
    SelectedTxOk(c, t);
    LockingKeepsOthers(c, t, tx');
    UnfinishedKeepsHistory(db, c, t, tx', Locked(c, t));
  }

  // ---------- Finishing ----------

  lemma {:induction false} UnlockKeepsLocks(c: Sys, t: nat, db': State, ok: bool)
    requires LocksOk(c) && t < |c.txs|
    ensures LocksOk(Finish(c.(db := db'), t, ok))
  {
    var c' := Finish(c.(db := db'), t, ok);
    forall k | k in c'.locks ensures c'.locks[k] < |c'.txs| && Holder(c'.txs[c'.locks[k]], k) {
      assert Holder(c.txs[c.locks[k]], k);
    }
  }

  lemma {:induction false} RollbackKeeps(db: State, c: Sys, t: nat)
    requires SysInv(db, c) && t < |c.txs| && c.txs[t].phase.Failing?
    ensures SysInv(db, Finish(c, t, false))
  {
    assert TxOk(c.db, c.locks, t, c.txs[t]);
    var c' := Finish(c, t, false);
    RollbackKeepsOthers(c, t);
    UnlockKeepsLocks(c, t, c.db, false);
    FinishKeepsHistory(db, c, t, c.db, false);
  }

  lemma {:induction false} RollbackKeepsOthers(c: Sys, t: nat)
    requires TxsOk(c) && t < |c.txs|
    ensures TxsOk(Finish(c, t, false))
  {
    forall u | 0 <= u < |c.txs| && u != t ensures TxOk(c.db, Unlock(c.locks, t), u, c.txs[u]) {
      assert TxOk(c.db, c.locks, u, c.txs[u]);
    }
  }

  /** A transaction ready to commit has built exactly what allocating the order in one piece gives. */
  lemma {:induction false} CommitIsAllocate(db: State, locks: map<Key, nat>, t: nat, tx: Tx)
    requires TxOk(db, locks, t, tx) && tx.phase.Committing?
    ensures Allocate(db, tx.o) == Committed(CommitTables(db, tx))
  {
    assert tx.sorted[..|tx.sorted|] == tx.sorted;
    AllFit(db.stock, db.sales[tx.o], tx.sorted);
    WholeAllocation(db.stock, db.sales[tx.o], tx.sorted);
    assert SO.CanMove(db.sales[tx.o].status, SO.Allocated);
    assert CommitTables(db, tx).stock == ReserveStock(db.stock, db.sales[tx.o]);
  }

  /** A refusal stands: commits of others only raise what is reserved, and never make an order allocatable again. */
  lemma {:induction false} RefusalStands(db: State, tx: Tx, o: nat)
    requires tx.o < |db.sales| && db.sales[tx.o].status.Confirmed?
    requires Allocate(db, o).RolledBack?
    ensures Allocate(CommitTables(db, tx), o).RolledBack?
  {
    if o < |db.sales| && o != tx.o && SO.CanMove(db.sales[o].status, SO.Allocated) {
      var order := db.sales[o];
      var l :| 0 <= l < |order.lines|
               && Available(db.stock, Key(order.lines[l].product, order.warehouse)) < Demand(order, Key(order.lines[l].product, order.warehouse));
      var k := Key(order.lines[l].product, order.warehouse);
      SumNonNegative(tx.taken, ListedOrderedAt(tx.warehouse, k));
      assert Available(CommitTables(db, tx).stock, k) < Demand(order, k);
    }
  }

  /** A commit does not move rows that somebody else has locked. */
  lemma {:induction false} LockedRowsStay(db: State, locks: map<Key, nat>, t: nat, tx: Tx, k: Key)
    requires TxOk(db, locks, t, tx) && tx.phase.Committing?
    requires k in locks && locks[k] != t
    ensures Available(CommitTables(db, tx).stock, k) == Available(db.stock, k)
  {
    forall j | 0 <= j < |tx.taken| ensures KeyOf(tx.taken[j], tx.warehouse) != k {
      assert KeyOf(tx.sorted[j], tx.warehouse) in locks;
    }
    SumZero(tx.taken, ListedOrderedAt(tx.warehouse, k));
  }

  /** Of two live transactions for one order, only one can have passed its first lock. */
  lemma {:induction false} OneHolderPerOrder(db: State, locks: map<Key, nat>, t: nat, tx: Tx, u: nat, ux: Tx)
    requires InProgress(tx.phase) && InProgress(ux.phase) && TxOk(db, locks, t, tx) && TxOk(db, locks, u, ux)
    requires t != u && tx.o == ux.o && db.sales[tx.o].status.Confirmed?
    ensures Held(tx) == 0 || Held(ux) == 0
  {
    var k := KeyOf(tx.sorted[0], tx.warehouse);
    assert 0 < Held(tx) ==> k in locks && locks[k] == t;
    assert tx.sorted == ux.sorted && tx.warehouse == ux.warehouse;
    assert 0 < Held(ux) ==> k in locks && locks[k] == u;
  }

  /** A transaction of another order sees no difference that matters to it. */
  lemma {:induction false} OtherOrderStaysOk(db: State, locks: map<Key, nat>, t: nat, tx: Tx, u: nat, ux: Tx)
    requires TxOk(db, locks, t, tx) && tx.phase.Committing?
    requires TxOk(db, locks, u, ux) && InProgress(ux.phase) && u != t && ux.o != tx.o
    ensures TxOk(CommitTables(db, tx), Unlock(locks, t), u, ux)
  {
    var db' := CommitTables(db, tx);
    if Live(db, ux) {
      forall j | 0 <= j < Held(ux)
        ensures Taken(ux.sorted[..Held(ux)], ux.warehouse, KeyOf(ux.sorted[j], ux.warehouse)) <= Available(db'.stock, KeyOf(ux.sorted[j], ux.warehouse))
      {
        assert ux.sorted[..Held(ux)][j] == ux.sorted[j];
        LockedRowsStay(db, locks, t, tx, KeyOf(ux.sorted[j], ux.warehouse));
      }
    } else {
      var i :| 0 <= i < |db.reservations| && db.reservations[i].ref == LineRef(ux.o, ux.sorted[0].index);
      assert db'.reservations[i].ref == LineRef(ux.o, ux.sorted[0].index);
    }
  }

  /** A transaction of the same order, still waiting for its first lock, is doomed. */
  lemma {:induction false} SameOrderIsDoomed(db: State, locks: map<Key, nat>, t: nat, tx: Tx, u: nat, ux: Tx)
    requires TxOk(db, locks, t, tx) && tx.phase.Committing?
    requires TxOk(db, locks, u, ux) && InProgress(ux.phase) && u != t && ux.o == tx.o
    ensures TxOk(CommitTables(db, tx), Unlock(locks, t), u, ux)
  {
    var db' := CommitTables(db, tx);
    OneHolderPerOrder(db, locks, t, tx, u, ux);
    assert ux.sorted == tx.sorted;
    var i := |db.reservations|;
    assert db'.reservations[i] == NewReservation(tx.o, tx.warehouse, tx.sorted[0]);
    assert HasRow(db'.reservations, LineRef(ux.o, ux.sorted[0].index));
  }

  lemma {:induction false} CommitKeepsOthers(c: Sys, t: nat)
    requires TxsOk(c) && t < |c.txs| && c.txs[t].phase.Committing?
    ensures c.txs[t].o < |c.db.sales|
    ensures TxsOk(Finish(c.(db := CommitTables(c.db, c.txs[t])), t, true))
  {
    var tx := c.txs[t];
    assert TxOk(c.db, c.locks, t, tx);
    var db' := CommitTables(c.db, tx);
    forall u | 0 <= u < |c.txs| && u != t ensures TxOk(db', Unlock(c.locks, t), u, c.txs[u]) {
      var ux := c.txs[u];
      assert TxOk(c.db, c.locks, u, ux);
      if ux.phase.Failing? {
        RefusalStands(c.db, tx, ux.o);
      } else if InProgress(ux.phase) {
        if ux.o == tx.o {
          SameOrderIsDoomed(c.db, c.locks, t, tx, u, ux);
        } else {
          OtherOrderStaysOk(c.db, c.locks, t, tx, u, ux);
        }
      }
    }
  }

  lemma {:induction false} CommitKeepsDb(db: State, locks: map<Key, nat>, t: nat, tx: Tx)
    requires DbOk(db) && TxOk(db, locks, t, tx) && tx.phase.Committing?
    ensures DbOk(CommitTables(db, tx))
  {
    var db' := CommitTables(db, tx);
    forall i | 0 <= i < |db'.reservations|
      ensures db'.reservations[i].ref.order < |db'.sales| && Started(db'.sales[db'.reservations[i].ref.order].status)
    {
      if |db.reservations| <= i {
        assert db'.reservations[i] == NewReservation(tx.o, tx.warehouse, tx.sorted[i - |db.reservations|]);
      }
    }
    assert |PartialLines(db.sales[tx.o].lines, tx.marked)| == |db.sales[tx.o].lines|;
  }

  lemma {:induction false} CommitKeeps(db: State, c: Sys, t: nat)
    requires SysInv(db, c) && t < |c.txs| && c.txs[t].phase.Committing?
    ensures SysInv(db, Next(c, t))
  {
    var tx := c.txs[t];
    assert TxOk(c.db, c.locks, t, tx);
    CommitIsAllocate(c.db, c.locks, t, tx);
    CommitKeepsOthers(c, t);
    CommitKeepsDb(c.db, c.locks, t, tx);
    UnlockKeepsLocks(c, t, CommitTables(c.db, tx), true);
    FinishKeepsHistory(db, c, t, CommitTables(c.db, tx), true);
  }

  // ---------- Serializability ----------

  lemma {:induction false} TxOkOf(db: State, c: Sys, t: nat)
    requires SysInv(db, c) && t < |c.txs|
    ensures TxOk(c.db, c.locks, t, c.txs[t]) && DbOk(c.db) && LocksOk(c)
  {
  }

  lemma {:induction false} BeginKeeps(db: State, c: Sys, t: nat)
    requires SysInv(db, c) && Enabled(c, t) && c.txs[t].phase.Idle?
    ensures SysInv(db, Next(c, t))
  {
    TxOkOf(db, c, t);
    BeginOk(c.db, c.locks, t, c.txs[t]);
    NoLocksYet(c, t);
    OwnStepKeeps(db, c, t, Begin(c.db, c.txs[t]));
  }

  lemma {:induction false} UpdateKeeps(db: State, c: Sys, t: nat)
    requires SysInv(db, c) && Enabled(c, t) && c.txs[t].phase.Working? && c.txs[t].phase.stage.Update?
    ensures SysInv(db, Next(c, t))
  {
    var tx := c.txs[t];
    var pc := tx.phase.pc;
    TxOkOf(db, c, t);
    UpdateOk(c.db, c.locks, t, tx);
    OwnLocks(c, t);
    OwnStepKeeps(db, c, t, tx.(phase := Working(pc, Insert), taken := tx.taken + [tx.sorted[pc]]));
  }

  lemma {:induction false} InsertKeeps(db: State, c: Sys, t: nat)
    requires SysInv(db, c) && Enabled(c, t) && c.txs[t].phase.Working? && c.txs[t].phase.stage.Insert?
    ensures SysInv(db, Next(c, t))
  {
    var tx := c.txs[t];
    TxOkOf(db, c, t);
    InsertOk(c.db, c.locks, t, tx);
    OwnLocks(c, t);
    if HasRow(c.db.reservations + tx.rows, NextRow(tx).ref) {
      OwnStepKeeps(db, c, t, tx.(phase := Failing));
    } else {
      OwnStepKeeps(db, c, t, tx.(phase := Working(tx.phase.pc, Mark), rows := tx.rows + [NextRow(tx)]));
    }
  }

  lemma {:induction false} MarkKeeps(db: State, c: Sys, t: nat)
    requires SysInv(db, c) && Enabled(c, t) && c.txs[t].phase.Working? && c.txs[t].phase.stage.Mark?
    ensures SysInv(db, Next(c, t))
  {
    var tx := c.txs[t];
    var pc := tx.phase.pc;
    TxOkOf(db, c, t);
    MarkOk(c.db, c.locks, t, tx);
    OwnLocks(c, t);
    MarkOnlyMoves(c, t);
    OwnStepKeeps(db, c, t, tx.(phase := if pc + 1 < |tx.sorted| then Working(pc + 1, Select) else Closing,
                               marked := tx.marked + [tx.sorted[pc]]));
  }

  lemma {:induction false} MarkOnlyMoves(c: Sys, t: nat)
    requires Enabled(c, t) && c.txs[t].phase.Working? && c.txs[t].phase.stage.Mark?
    ensures var tx := c.txs[t];
            var pc := tx.phase.pc;
            Next(c, t) == Put(c, t, tx.(phase := if pc + 1 < |tx.sorted| then Working(pc + 1, Select) else Closing,
                                        marked := tx.marked + [tx.sorted[pc]]))
  {
  }

  lemma {:induction false} CloseKeeps(db: State, c: Sys, t: nat)
    requires SysInv(db, c) && Enabled(c, t) && c.txs[t].phase.Closing?
    ensures SysInv(db, Next(c, t))
  {
    TxOkOf(db, c, t);
    OwnLocks(c, t);
    OwnStepKeeps(db, c, t, c.txs[t].(phase := Committing));
  }

  lemma {:induction false} NextKeeps(db: State, c: Sys, t: nat)
    requires SysInv(db, c) && Enabled(c, t)
    ensures SysInv(db, Next(c, t))
  {
    match c.txs[t].phase
    case Idle => BeginKeeps(db, c, t);
    case Working(_, Select) => SelectKeeps(db, c, t);
    case Working(_, Update) => UpdateKeeps(db, c, t);
    case Working(_, Insert) => InsertKeeps(db, c, t);
    case Working(_, Mark) => MarkKeeps(db, c, t);
    case Closing => CloseKeeps(db, c, t);
    case Committing => CommitKeeps(db, c, t);
    case Failing => RollbackKeeps(db, c, t);
  }

  lemma {:induction false} OwnLocks(c: Sys, t: nat)
    requires LocksOk(c) && t < |c.txs|
    ensures forall k :: k in c.locks && c.locks[k] == t ==> Holder(c.txs[t], k)
  {
  }

  lemma {:induction false} NoLocksYet(c: Sys, t: nat)
    requires LocksOk(c) && t < |c.txs| && c.txs[t].phase.Idle?
    ensures forall k :: k in c.locks ==> c.locks[k] != t
  {
    forall k | k in c.locks ensures c.locks[k] != t {
      assert Holder(c.txs[c.locks[k]], k);
    }
  }

  lemma {:induction false} ScheduleKeeps(db: State, orders: seq<nat>, schedule: seq<nat>)
    requires DbOk(db) && Runs(Init(db, orders), schedule)
    ensures SysInv(db, Reached(Init(db, orders), schedule))
  {
    if schedule == [] {
      InitHolds(db, orders);
    } else {
      var n := |schedule| - 1;
      ScheduleKeeps(db, orders, schedule[..n]);
      NextKeeps(db, Reached(Init(db, orders), schedule[..n]), schedule[n]);
    }
  }

  /**
   * Serializability: after any interleaving of any number of allocations - of distinct orders or of
   * the same one - the committed tables, and who succeeded, are those of running the finished
   * transactions one at a time in the order in which they finished.
   */
  lemma {:induction false} Serializable(db: State, orders: seq<nat>, schedule: seq<nat>)
    requires DbOk(db) && Runs(Init(db, orders), schedule)
    ensures var c := Reached(Init(db, orders), schedule);
            && FinishedOk(c)
            && c.db == Serial(db, OrdersOf(c.txs, c.finished))
            && (forall i :: 0 <= i < |c.finished| ==>
                  (c.txs[c.finished[i]].phase.ok <==>
                   Allocate(Serial(db, OrdersOf(c.txs, c.finished)[..i]), c.txs[c.finished[i]].o).Committed?))
  {
    ScheduleKeeps(db, orders, schedule);
  }
}
