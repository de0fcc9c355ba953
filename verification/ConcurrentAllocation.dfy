/**
 * Concurrent allocations, statement by statement.  Every transaction locks the stock row of its
 * next line, decides on what it reads there, writes, and keeps its locks until it commits or rolls
 * back.  Uncommitted writes are private to their transaction; a read under a lock sees the
 * committed row and the reader's own writes.
 */
module ConcurrentAllocation {
  import opened Tables
  import opened Protocol
  import opened Invariants
  import opened Allocation
  import opened Services
  import SO = SalesOrderLifecycle

  /** The next statement for the current line: lock and read, raise the stock row, insert the reservation, mark the line. */
  datatype Stage = Select | Update | Insert | Mark

  datatype Phase =
    | Idle
    | Working(pc: nat, stage: Stage)
    | Closing
    | Committing
    | Failing
    | Done(ok: bool)

  /** One allocation: what it read when it began, and what it has written so far. */
  datatype Tx = Tx(
    o: nat,
    phase: Phase,
    warehouse: nat,
    sorted: seq<Listed>,
    taken: seq<Listed>,
    rows: seq<Reservation>,
    marked: seq<Listed>)

  /** Committed tables, row locks with their holders, all transactions, and the finished ones in finishing order. */
  datatype Sys = Sys(db: State, locks: map<Key, nat>, txs: seq<Tx>, finished: seq<nat>)

  function NewTx(o: nat): Tx {
    Tx(o, Idle, 0, [], [], [], [])
  }

  function Init(db: State, orders: seq<nat>): Sys {
    Sys(db, map[], seq(|orders|, i requires 0 <= i < |orders| => NewTx(orders[i])), [])
  }

  predicate InProgress(phase: Phase) {
    phase.Working? || phase.Closing? || phase.Committing?
  }

  function Wanted(tx: Tx): Key
    requires tx.phase.Working? && tx.phase.pc < |tx.sorted|
  {
    KeyOf(tx.sorted[tx.phase.pc], tx.warehouse)
  }

  /** The reservation the transaction inserts next. */
  function NextRow(tx: Tx): Reservation
    requires tx.phase.Working? && tx.phase.pc < |tx.sorted|
  {
    NewReservation(tx.o, tx.warehouse, tx.sorted[tx.phase.pc])
  }

  /** Another open transaction has already inserted, uncommitted, a reservation of the same line. */
  ghost predicate InsertBlocked(c: Sys, t: nat)
    requires t < |c.txs| && c.txs[t].phase.Working? && c.txs[t].phase.pc < |c.txs[t].sorted|
  {
    exists u :: 0 <= u < |c.txs| && u != t && InProgress(c.txs[u].phase) && HasRow(c.txs[u].rows, NextRow(c.txs[t]).ref)
  }

  // The locks that marking a line and closing the order take on their own rows need no model: two
  // open allocations of one order contend for the stock row of its first line before they write
  // either (`OneHolderPerOrder`), and allocations of different orders write different rows.

  /** Transaction `t` has a statement to run and waits for nobody. */
  ghost predicate Enabled(c: Sys, t: nat) {
    && t < |c.txs|
    && match c.txs[t].phase
       case Done(_) => false
       case Working(pc, stage) =>
         && pc < |c.txs[t].sorted|
         && (stage.Select? && Wanted(c.txs[t]) in c.locks ==> c.locks[Wanted(c.txs[t])] == t)
         && (stage.Insert? ==> !InsertBlocked(c, t))
       case _ => true
  }

  /** Reads the order, its status and its lines. */
  function Begin(db: State, tx: Tx): Tx {
    if tx.o >= |db.sales| || !SO.CanMove(db.sales[tx.o].status, SO.Allocated) then tx.(phase := Failing)
    else
      var sorted := SortedByProduct(Listing(db.sales[tx.o].lines));
      tx.(phase := if sorted == [] then Closing else Working(0, Select), warehouse := db.sales[tx.o].warehouse, sorted := sorted)
  }

  /** What a locking read of key `k` sees: the committed row with the transaction's own reservations. */
  ghost function Seen(db: State, tx: Tx, k: Key): int {
    Available(PartialStock(db.stock, tx.warehouse, tx.taken), k)
  }

  ghost function CommitTables(db: State, tx: Tx): State
    requires tx.o < |db.sales|
  {
    var order := db.sales[tx.o];
    db.(stock := PartialStock(db.stock, tx.warehouse, tx.taken),
        sales := db.sales[tx.o := order.(status := SO.Allocated, lines := PartialLines(order.lines, tx.marked))],
        reservations := db.reservations + tx.rows)
  }

  function Unlock(locks: map<Key, nat>, t: nat): map<Key, nat> {
    map k | k in locks && locks[k] != t :: locks[k]
  }

  function Put(c: Sys, t: nat, tx: Tx): Sys
    requires t < |c.txs|
  {
    c.(txs := c.txs[t := tx])
  }

  function Finish(c: Sys, t: nat, ok: bool): Sys
    requires t < |c.txs|
  {
    c.(locks := Unlock(c.locks, t), txs := c.txs[t := c.txs[t].(phase := Done(ok))], finished := c.finished + [t])
  }

  /** One statement of transaction `t`. */
  ghost function Next(c: Sys, t: nat): Sys
    requires Enabled(c, t)
  {
    var tx := c.txs[t];
    match tx.phase
    case Idle => Put(c, t, Begin(c.db, tx))
    case Working(pc, Select) =>
      var k := Wanted(tx);
      var locks := if k in c.db.stock then c.locks[k := t] else c.locks;
      if Seen(c.db, tx, k) < tx.sorted[pc].line.ordered then Put(c.(locks := locks), t, tx.(phase := Failing))
      else Put(c.(locks := locks), t, tx.(phase := Working(pc, Update)))
    case Working(pc, Update) =>
      Put(c, t, tx.(phase := Working(pc, Insert), taken := tx.taken + [tx.sorted[pc]]))
    case Working(pc, Insert) =>
      if HasRow(c.db.reservations + tx.rows, NextRow(tx).ref) then Put(c, t, tx.(phase := Failing))
      else Put(c, t, tx.(phase := Working(pc, Mark), rows := tx.rows + [NextRow(tx)]))
    case Working(pc, Mark) =>
      Put(c, t, tx.(phase := if pc + 1 < |tx.sorted| then Working(pc + 1, Select) else Closing, marked := tx.marked + [tx.sorted[pc]]))
    case Closing => Put(c, t, tx.(phase := Committing))
    case Committing =>
      if tx.o < |c.db.sales| then Finish(c.(db := CommitTables(c.db, tx)), t, true) else Finish(c, t, false)
    case Failing => Finish(c, t, false)
    case Done(_) => c
  }

  /** The state a schedule leads to, if each of its statements can run. */
  ghost predicate Runs(c: Sys, schedule: seq<nat>)
  {
    schedule == []
    || (Runs(c, schedule[..|schedule| - 1]) && Enabled(Reached(c, schedule[..|schedule| - 1]), schedule[|schedule| - 1]))
  }

  ghost function Reached(c: Sys, schedule: seq<nat>): Sys
  {
    if schedule == [] then c
    else
      var before := Reached(c, schedule[..|schedule| - 1]);
      if Enabled(before, schedule[|schedule| - 1]) then Next(before, schedule[|schedule| - 1]) else before
  }

  // ---------- One at a time ----------

  /** The tables after allocating `orders` one after the other; a refused allocation changes nothing. */
  ghost function Serial(db: State, orders: seq<nat>): State {
    if orders == [] then db
    else
      var n := |orders| - 1;
      var before := Serial(db, orders[..n]);
      match Allocate(before, orders[n])
      case Committed(after) => after
      case RolledBack(_) => before
  }

  function OrdersOf(txs: seq<Tx>, ids: seq<nat>): seq<nat>
    requires forall i :: 0 <= i < |ids| ==> ids[i] < |txs|
  {
    seq(|ids|, i requires 0 <= i < |ids| => txs[ids[i]].o)
  }

  // ---------- The invariant ----------

  /** Orders have lines, and no reservation belongs to an order that was never allocated. */
  ghost predicate DbOk(db: State) {
    && (forall o :: 0 <= o < |db.sales| ==> db.sales[o].lines != [])
    && (forall i :: 0 <= i < |db.reservations| ==>
          db.reservations[i].ref.order < |db.sales| && Started(db.sales[db.reservations[i].ref.order].status))
  }

  lemma {:induction false} ReachableDbOk(origin: State, s: State)
    requires Inv(origin, s)
    ensures DbOk(s)
  {
    forall o | 0 <= o < |s.sales| ensures s.sales[o].lines != [] {
      assert SalesOrderOk(s.sales[o]);
    }
    forall i | 0 <= i < |s.reservations|
      ensures s.reservations[i].ref.order < |s.sales| && Started(s.sales[s.reservations[i].ref.order].status)
    {
      assert ReservationOk(s.reservations[i], s.sales, s.movements, s.stock);
    }
  }

  /** For how many lines, in lock order, the transaction has locked the row and found enough. */
  function Held(tx: Tx): nat {
    match tx.phase
    case Working(pc, Select) => pc
    case Working(pc, _) => pc + 1
    case Closing => |tx.sorted|
    case Committing => |tx.sorted|
    case _ => 0
  }

  /** What has been written so far, in terms of the position in the program. */
  ghost predicate Progress(tx: Tx) {
    match tx.phase
    case Working(pc, stage) =>
      && pc < |tx.sorted|
      && tx.taken == tx.sorted[..if stage.Insert? || stage.Mark? then pc + 1 else pc]
      && tx.rows == NewReservations(tx.o, tx.warehouse, tx.sorted[..if stage.Mark? then pc + 1 else pc])
      && tx.marked == tx.sorted[..pc]
    case _ =>
      tx.taken == tx.sorted && tx.rows == NewReservations(tx.o, tx.warehouse, tx.sorted) && tx.marked == tx.sorted
  }

  ghost predicate HoldsLocks(db: State, locks: map<Key, nat>, t: nat, tx: Tx) {
    && Held(tx) <= |tx.sorted|
    && forall j :: 0 <= j < Held(tx) ==>
         var k := KeyOf(tx.sorted[j], tx.warehouse);
         k in locks && locks[k] == t && k in db.stock
  }

  /** The order is still to be allocated, as it was when the transaction read it. */
  ghost predicate Live(db: State, tx: Tx) {
    && tx.o < |db.sales|
    && db.sales[tx.o].status.Confirmed?
    && LockOrder(db.sales[tx.o], tx.sorted)
    && Held(tx) <= |tx.sorted|
    && Fits(db.stock, tx.warehouse, tx.sorted[..Held(tx)])
  }

  /** Another transaction has allocated the same order meanwhile; this one will fail at its first insert at the latest. */
  ghost predicate Doomed(db: State, tx: Tx) {
    && tx.o < |db.sales|
    && Started(db.sales[tx.o].status)
    && tx.phase.Working? && tx.phase.pc == 0 && !tx.phase.stage.Mark?
    && tx.sorted != []
    && HasRow(db.reservations, LineRef(tx.o, tx.sorted[0].index))
  }

  ghost predicate TxOk(db: State, locks: map<Key, nat>, t: nat, tx: Tx) {
    match tx.phase
    case Idle => tx == NewTx(tx.o)
    case Done(_) => true
    case Failing => Allocate(db, tx.o).RolledBack?
    case _ =>
      && Progress(tx)
      && tx.o < |db.sales|
      && tx.warehouse == db.sales[tx.o].warehouse
      && tx.sorted != []
      && HoldsLocks(db, locks, t, tx)
      && (Live(db, tx) || Doomed(db, tx))
  }

  ghost predicate TxsOk(c: Sys) {
    forall t :: 0 <= t < |c.txs| ==> TxOk(c.db, c.locks, t, c.txs[t])
  }

  /** A lock is held by an unfinished transaction, which has asked for the row in its lock order. */
  ghost predicate Holder(tx: Tx, k: Key) {
    || tx.phase.Failing?
    || (InProgress(tx.phase) && Held(tx) <= |tx.sorted| && exists j :: 0 <= j < Held(tx) && KeyOf(tx.sorted[j], tx.warehouse) == k)
  }

  ghost predicate LocksOk(c: Sys) {
    forall k :: k in c.locks ==> c.locks[k] < |c.txs| && Holder(c.txs[c.locks[k]], k)
  }

  /** `finished` lists exactly the transactions that are done, each once. */
  ghost predicate FinishedOk(c: Sys) {
    && (forall i :: 0 <= i < |c.finished| ==> c.finished[i] < |c.txs| && c.txs[c.finished[i]].phase.Done?)
    && (forall i, j :: 0 <= i < j < |c.finished| ==> c.finished[i] != c.finished[j])
    && (forall t :: 0 <= t < |c.txs| && c.txs[t].phase.Done? ==> t in c.finished)
  }

  /**
   * The committed tables, and who succeeded, are those of running the finished transactions one
   * at a time in finishing order.
   */
  ghost predicate SerialSoFar(db: State, c: Sys)
    requires FinishedOk(c)
  {
    && c.db == Serial(db, OrdersOf(c.txs, c.finished))
    && forall i :: 0 <= i < |c.finished| ==>
         (c.txs[c.finished[i]].phase.ok <==>
          Allocate(Serial(db, OrdersOf(c.txs, c.finished)[..i]), c.txs[c.finished[i]].o).Committed?)
  }

  ghost predicate SysInv(db: State, c: Sys) {
    && DbOk(c.db)
    && TxsOk(c)
    && LocksOk(c)
    && FinishedOk(c)
    && SerialSoFar(db, c)
  }

  lemma {:induction false} InitHolds(db: State, orders: seq<nat>)
    requires DbOk(db)
    ensures SysInv(db, Init(db, orders))
  {
    assert OrdersOf(Init(db, orders).txs, []) == [];
  }
}
