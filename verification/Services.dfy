/**
 * The services as they work on the tables: statement by statement, loop by loop, rolling back on
 * errors.  Each operation is proved to do what Protocol.dfy says of it.
 */
module Services {
  import opened Wrappers
  import opened Sums
  import opened Tables
  import opened Protocol
  import opened Invariants
  import opened SalesSteps
  import opened FulfillSteps
  import opened PurchaseSteps
  import opened DeliverySteps
  import opened Allocation
  import opened Numbering
  import P = Protocol
  import SO = SalesOrderLifecycle
  import PO = PurchaseOrderLifecycle

  /** What the operations may take for granted about the tables; every reachable state has it. */
  ghost predicate Consistent(s: State) {
    && (forall i :: 0 <= i < |s.reservations| ==> RowConsistent(s, s.reservations[i]))
    && UniqueRefs(s.reservations)
    && (forall id: nat :: DeliversFulfillment(s, id) ==>
          RowsFor(MovementsOf(s.emitted[id]), s.reservations) && KeysOf(MovementsOf(s.emitted[id])) <= s.stock.Keys)
  }

  ghost predicate RowConsistent(s: State, r: Reservation) {
    && IsSalesLine(s.sales, r.ref)
    && Started(s.sales[r.ref.order].status)
    && r.key in s.stock
    && r.fulfilled <= r.quantity
  }

  lemma {:induction false} ReachableIsConsistent(origin: State, s: State)
    requires Inv(origin, s)
    ensures Consistent(s)
  {
    forall i | 0 <= i < |s.reservations| ensures RowConsistent(s, s.reservations[i]) {
      assert ReservationOk(s.reservations[i], s.sales, s.movements, s.stock);
    }
    forall id: nat | DeliversFulfillment(s, id)
      ensures RowsFor(MovementsOf(s.emitted[id]), s.reservations) && KeysOf(MovementsOf(s.emitted[id])) <= s.stock.Keys
    {
      FulfillmentHasRows(s, id);
    }
  }

  /** A call answers with no error and the committed tables, or with the error and the old tables. */
  ghost predicate Answers(r: Maybe<Error>, outcome: Outcome, before: State, after: State) {
    match outcome
    case Committed(t) => r.None? && after == t
    case RolledBack(e) => r == Some(e) && after == before
  }

  /** Position of the first reservation of line `ref`, or the table size. */
  ghost function FirstRow(rows: seq<Reservation>, ref: LineRef): (i: nat)
    ensures i <= |rows|
    ensures forall j :: 0 <= j < i ==> rows[j].ref != ref
    ensures i < |rows| ==> rows[i].ref == ref
  {
    if rows == [] then 0
    else
      var i := FirstRow(rows[..|rows| - 1], ref);
      if i < |rows| - 1 || rows[i].ref == ref then i else |rows|
  }

  /** The tables of one tenant, and the events its services have emitted. */
  class Database {
    var sales: seq<SalesOrder>
    var purchases: seq<PurchaseOrder>
    var receipts: seq<ReceiptLine>
    var stock: map<Key, StockLevel>
    var movements: seq<Movement>
    var reservations: seq<Reservation>
    var processed: set<nat>
    var emitted: seq<Event>

    constructor (stock: map<Key, StockLevel>, ledger: seq<Movement>)
      ensures Rows() == Start(stock, ledger)
    {
      sales, purchases, receipts := [], [], [];
      this.stock, movements, reservations := stock, ledger, [];
      processed, emitted := {}, [];
    }

    function Rows(): State
      reads this
    {
      State(sales, purchases, receipts, stock, movements, reservations, processed, emitted)
    }

    /** Undoes everything written since the tables were `saved`. */
    method Rollback(saved: State)
      modifies this
      ensures Rows() == saved
    {
      sales, purchases, receipts := saved.sales, saved.purchases, saved.receipts;
      stock, movements, reservations := saved.stock, saved.movements, saved.reservations;
      processed, emitted := saved.processed, saved.emitted;
    }

    /** The row of line `ref`, or the table size if it has none. */
    method FindReservation(ref: LineRef) returns (i: nat)
      ensures i == FirstRow(reservations, ref)
      ensures i <= |reservations|
      ensures i < |reservations| ==> reservations[i].ref == ref
      ensures i == |reservations| <==> !HasRow(reservations, ref)
    {
      i := 0;
      while i < |reservations|
        invariant i <= |reservations|
        invariant forall j :: 0 <= j < i ==> reservations[j].ref != ref
      {
        if reservations[i].ref == ref {
          return;
        }
        i := i + 1;
      }
    }

    /** Inserts the claim of an event; false if it was claimed before. */
    method ClaimEvent(id: nat) returns (claimed: bool)
      modifies this
      ensures claimed <==> id !in old(processed)
      ensures Rows() == old(Rows()).(processed := old(processed) + {id})
    {
      claimed := id !in processed;
      processed := processed + {id};
    }
  }

  // ---------- Inventory ----------

  /** The tables after one ledger row is appended and its stock row moved, or created without any reserved quantity. */
  ghost function WithMovement(s: State, m: Movement, release: int): State {
    s.(movements := s.movements + [m],
       stock := s.stock[m.key :=
         if m.key in s.stock then StockLevel(s.stock[m.key].onHand + m.delta, s.stock[m.key].reserved - release)
         else StockLevel(m.delta, 0)])
  }

  /** The tables after shipped units are counted towards reservation row `j`. */
  ghost function CountTowards(s: State, j: nat, qty: int): State
    requires j < |s.reservations|
  {
    var row := s.reservations[j].(fulfilled := s.reservations[j].fulfilled + qty);
    s.(reservations := s.reservations[j :=
      if row.quantity <= row.fulfilled then row.(status := ReservationStatus.Fulfilled) else row])
  }

  class InventoryService {
    const db: Database

    constructor (db: Database)
      ensures this.db == db
    {
      this.db := db;
    }

    /** Reserves one line, or says why it cannot; the caller's transaction rolls back then. */
    method ReserveForSalesOrder(ref: LineRef, k: Key, qty: Qty) returns (r: Maybe<Error>)
      modifies db
      ensures r == Some(InsufficientStock) <==> Available(old(db.stock), k) < qty
      ensures r == Some(UniqueViolation) <==> qty <= Available(old(db.stock), k) && HasRow(old(db.reservations), ref)
      ensures r.None? || r == Some(InsufficientStock) || r == Some(UniqueViolation)
      ensures r.None? ==>
                && k in old(db.stock)
                && db.Rows() == old(db.Rows()).(
                     stock := old(db.stock)[k := old(db.stock)[k].(reserved := old(db.stock)[k].reserved + qty)],
                     reservations := old(db.reservations) + [Reservation(ref, k, qty, 0, Active)])
    {
      var onHand := if k in db.stock then db.stock[k].onHand else 0;
      var reserved := if k in db.stock then db.stock[k].reserved else 0;
      if onHand - reserved < qty {
        return Some(InsufficientStock);
      }
      db.stock := db.stock[k := db.stock[k].(reserved := db.stock[k].reserved + qty)];
      var i := db.FindReservation(ref);
      if i < |db.reservations| {
        return Some(UniqueViolation);
      }
      db.reservations := db.reservations + [Reservation(ref, k, qty, 0, Active)];
      return None;
    }

    /** Updates the stock row of a key, or creates it without any reserved quantity. */
    method UpsertWarehouseStockLevel(k: Key, onHandBy: int, reservedBy: int, onHandIfNew: int)
      modifies db
      ensures db.Rows() == old(db.Rows()).(
                stock := old(db.stock)[k :=
                  if k in old(db.stock) then StockLevel(old(db.stock)[k].onHand + onHandBy, old(db.stock)[k].reserved + reservedBy)
                  else StockLevel(onHandIfNew, 0)])
    {
      if k in db.stock {
        var level := db.stock[k];
        db.stock := db.stock[k := StockLevel(level.onHand + onHandBy, level.reserved + reservedBy)];
      } else {
        db.stock := db.stock[k := StockLevel(onHandIfNew, 0)];
      }
    }

    /** Appends a ledger row and moves the stock row with it. */
    method PostMovement(m: Movement, release: int)
      modifies db
      ensures db.Rows() == WithMovement(old(db.Rows()), m, release)
    {
      db.movements := db.movements + [m];
      UpsertWarehouseStockLevel(m.key, m.delta, -release, m.delta);
    }

    /** Releases row `i` if it is an active one of order `o`. */
    method ReleaseOne(i: nat, o: nat)
      requires i < |db.reservations|
      modifies db
      ensures var row := old(db.reservations)[i];
              db.Rows() == old(db.Rows()).(
                stock := ReleaseStep(old(db.stock), row, o),
                reservations := old(db.reservations)[i := ReleaseRow(row, o)])
    {
      var row := db.reservations[i];
      if row.ref.order == o && row.status.Active? {
        var remaining := row.quantity - row.fulfilled;
        if 0 < remaining {
          UpsertWarehouseStockLevel(row.key, 0, -remaining, 0);
        }
        db.reservations := db.reservations[i := row.(status := ReservationStatus.Cancelled)];
      }
    }

    /** Gives back what the active reservations of an order still hold, and closes them. */
    method ReleaseReservationsForSalesOrder(o: nat)
      modifies db
      ensures db.Rows() == old(db.Rows()).(
                stock := ReleaseSteps(old(db.stock), old(db.reservations), o),
                reservations := ReleaseRows(old(db.reservations), o))
      ensures RowsReleasable(old(db.stock), old(db.reservations)) ==> db.stock == ReleaseStock(old(db.stock), old(db.reservations), o)
    {
      ghost var before := db.Rows();
      ghost var rows := db.reservations;
      for i := 0 to |db.reservations|
        invariant db.Rows() == before.(
                    stock := ReleaseSteps(before.stock, rows[..i], o),
                    reservations := ReleaseRows(rows[..i], o) + rows[i..])
      {
        ReleaseRowsNext(rows, i, o);
        assert rows[..i + 1][..i] == rows[..i];
        ReleaseOne(i, o);
      }
      assert rows[..|rows|] == rows;
      if RowsReleasable(before.stock, rows) {
        ReleaseStepsAddUp(before.stock, rows, o);
      }
    }

    /** Posts a receipt to the ledger, once per event. */
    method HandlePoReceived(id: nat)
      requires id < |db.emitted| && db.emitted[id].PoReceived?
      modifies db
      ensures db.Rows() == Deliver(old(db.Rows()), id)
    {
      var e := db.emitted[id];
      var claimed := db.ClaimEvent(id);
      if !claimed {
        assert old(db.processed) + {id} == old(db.processed);
        return;
      }
      ghost var before := db.Rows();
      ghost var ms := MovementsOf(e);
      ArrivedNone(before, ms);
      for i := 0 to |e.received|
        invariant db.Rows() == Arrived(before, ms[..i])
      {
        var line := e.received[i];
        ArrivedNext(before, ms, i);
        PostMovement(Movement(Key(line.product, e.poWarehouse), line.qty, Receipt(LineRef(e.po, line.line), line.receiptLine)), 0);
      }
      assert ms[..|ms|] == ms;
    }

    /** Posts one fulfilled line and counts it towards its reservation; fails if the line has none. */
    method PostFulfilledLine(so: nat, warehouse: nat, line: FulfilledLine) returns (ok: bool)
      modifies db
      ensures ok <==> HasRow(old(db.reservations), LineRef(so, line.line))
      ensures PostStep(old(db.Rows()), so, warehouse, line) == if ok then Some(db.Rows()) else None
    {
      PostMovement(Movement(Key(line.product, warehouse), 0 - line.qty, Fulfillment(LineRef(so, line.line))), line.qty);
      ghost var posted := db.Rows();
      var j := db.FindReservation(LineRef(so, line.line));
      if j == |db.reservations| {
        return false;
      }
      var row := db.reservations[j].(fulfilled := db.reservations[j].fulfilled + line.qty);
      db.reservations := db.reservations[j := row];
      if row.quantity <= row.fulfilled {
        db.reservations := db.reservations[j := row.(status := ReservationStatus.Fulfilled)];
      }
      assert db.Rows() == CountTowards(posted, j, line.qty);
      ok := true;
    }

    /** Posts the lines of a fulfilment one by one, up to the first without a reservation. */
    method PostLines(e: Event) returns (ok: bool)
      requires e.SalesOrderFulfilled?
      modifies db
      ensures PostSteps(old(db.Rows()), e, |e.fulfilled|) == if ok then Some(db.Rows()) else None
    {
      ghost var before := db.Rows();
      for i := 0 to |e.fulfilled|
        invariant PostSteps(before, e, i) == Some(db.Rows())
      {
        ok := PostFulfilledLine(e.so, e.soWarehouse, e.fulfilled[i]);
        if !ok {
          StoppedForGood(before, e, i + 1, |e.fulfilled|);
          return;
        }
      }
      ok := true;
    }

    /**
     * Posts a fulfilment to the ledger and counts it towards its reservations, once per event.  If a
     * line has no reservation the whole transaction, claim included, is undone.
     */
    method HandleSalesOrderFulfilled(id: nat) returns (ok: bool)
      requires id < |db.emitted| && db.emitted[id].SalesOrderFulfilled?
      modifies db
      ensures ok <==> id in old(db.processed) || RowsFor(MovementsOf(old(db.emitted)[id]), old(db.reservations))
      ensures !ok || id in old(db.processed) ==> db.Rows() == old(db.Rows())
      ensures ok && id !in old(db.processed) ==>
                PostSteps(old(db.Rows()).(processed := old(db.processed) + {id}), old(db.emitted)[id], |old(db.emitted)[id].fulfilled|)
                == Some(db.Rows())
      ensures Consistent(old(db.Rows())) ==> ok && db.Rows() == Deliver(old(db.Rows()), id)
    {
      var saved := db.Rows();
      var claimed := db.ClaimEvent(id);
      if !claimed {
        assert saved.processed + {id} == saved.processed;
        return true;
      }
      assert DeliversFulfillment(saved, id);
      var e := db.emitted[id];
      ghost var before := db.Rows();
      PostedAtAll(before, e);
      if Postable(before, e) {
        PostStepsAddUp(before, e);
      }
      ok := PostLines(e);
      if !ok {
        db.Rollback(saved);
      }
    }
  }

  lemma {:induction false} PostedAtAll(s: State, e: Event)
    requires e.SalesOrderFulfilled?
    ensures PostSteps(s, e, |e.fulfilled|).Some? <==> RowsFor(MovementsOf(e), s.reservations)
  {
    PostStepsRows(s, e, |e.fulfilled|);
    forall i | 0 <= i < |e.fulfilled| ensures MovementsOf(e)[i].source == Fulfillment(LineRef(e.so, e.fulfilled[i].line)) {
    }
    if RowsFor(MovementsOf(e), s.reservations) {
      forall i | 0 <= i < |e.fulfilled| ensures HasRow(s.reservations, LineRef(e.so, e.fulfilled[i].line)) {
        assert HasRow(s.reservations, MovementsOf(e)[i].source.soLine);
      }
    }
  }

  /** The first line without a reservation stops the posting. */
  lemma {:induction false} StoppedForGood(s: State, e: Event, m: nat, n: nat)
    requires e.SalesOrderFulfilled? && m <= n <= |e.fulfilled| && PostSteps(s, e, m).None?
    ensures PostSteps(s, e, n).None?
  {
    if m < n {
      StoppedForGood(s, e, m, n - 1);
    }
  }

  /** The tables after one fulfilled line is posted, if it has a reservation. */
  ghost function PostStep(s: State, so: nat, warehouse: nat, line: FulfilledLine): Maybe<State> {
    var j := FirstRow(s.reservations, LineRef(so, line.line));
    if j == |s.reservations| then None
    else Some(CountTowards(WithMovement(s, Movement(Key(line.product, warehouse), 0 - line.qty, Fulfillment(LineRef(so, line.line))), line.qty),
                           j, line.qty))
  }

  /** The tables after the first `n` lines of a fulfilment are posted one by one. */
  ghost function PostSteps(s: State, e: Event, n: nat): Maybe<State>
    requires e.SalesOrderFulfilled? && n <= |e.fulfilled|
  {
    if n == 0 then Some(s)
    else
      match PostSteps(s, e, n - 1)
      case None => None
      case Some(t) => PostStep(t, e.so, e.soWarehouse, e.fulfilled[n - 1])
  }

  /** The first `n` lines of the fulfilment have reservations. */
  ghost predicate HaveRows(rows: seq<Reservation>, e: Event, n: nat)
    requires e.SalesOrderFulfilled? && n <= |e.fulfilled|
  {
    forall i :: 0 <= i < n ==> HasRow(rows, LineRef(e.so, e.fulfilled[i].line))
  }

  lemma {:induction false} HaveRowsNext(rows: seq<Reservation>, e: Event, n: nat)
    requires e.SalesOrderFulfilled? && n < |e.fulfilled|
    ensures HaveRows(rows, e, n + 1) <==> HaveRows(rows, e, n) && HasRow(rows, LineRef(e.so, e.fulfilled[n].line))
  {
  }

  /** Posting succeeds as long as every line has a reservation, and moves no reservation to another place. */
  lemma {:induction false} PostStepsRows(s: State, e: Event, n: nat)
    requires e.SalesOrderFulfilled? && n <= |e.fulfilled|
    ensures PostSteps(s, e, n).Some? <==> HaveRows(s.reservations, e, n)
    ensures PostSteps(s, e, n).Some? ==> SameSlots(PostSteps(s, e, n).value.reservations, s.reservations)
  {
    if n != 0 {
      PostStepsRows(s, e, n - 1);
      HaveRowsNext(s.reservations, e, n - 1);
      if PostSteps(s, e, n - 1).Some? {
        PostStepRows(PostSteps(s, e, n - 1).value, e.so, e.soWarehouse, e.fulfilled[n - 1], s.reservations);
      }
    }
  }

  lemma {:induction false} PostStepRows(t: State, so: nat, warehouse: nat, line: FulfilledLine, rows: seq<Reservation>)
    requires SameSlots(t.reservations, rows)
    ensures var next := PostStep(t, so, warehouse, line);
            && (next.Some? <==> HasRow(rows, LineRef(so, line.line)))
            && (next.Some? ==> SameSlots(next.value.reservations, rows))
  {
    SameSlotsSameRows(t.reservations, rows, LineRef(so, line.line));
    FirstRowFinds(t.reservations, LineRef(so, line.line));
  }

  lemma {:induction false} FirstRowFinds(rows: seq<Reservation>, ref: LineRef)
    ensures FirstRow(rows, ref) < |rows| <==> HasRow(rows, ref)
  {
  }

  /** A chain of states, each one line further than the one before, is what posting goes through. */
  lemma {:induction false} PostChain(e: Event, states: seq<State>, n: nat)
    requires e.SalesOrderFulfilled? && n <= |e.fulfilled| && |states| == |e.fulfilled| + 1
    requires forall i :: 0 <= i < |e.fulfilled| ==> PostStep(states[i], e.so, e.soWarehouse, e.fulfilled[i]) == Some(states[i + 1])
    ensures PostSteps(states[0], e, n) == Some(states[n])
  {
    if n != 0 {
      PostChain(e, states, n - 1);
    }
  }

  /** Where every line has its rows, posting line by line adds up to posting the event. */
  lemma {:induction false} PostStepsAddUp(s: State, e: Event)
    requires Postable(s, e)
    ensures PostSteps(s, e, |e.fulfilled|) == Some(Shipped(s, MovementsOf(e)))
  {
    var ms := MovementsOf(e);
    var n := |e.fulfilled|;
    var states := seq(n + 1, i requires 0 <= i <= n => Shipped(s, ms[..i]));
    forall i | 0 <= i < n ensures PostStep(states[i], e.so, e.soWarehouse, e.fulfilled[i]) == Some(states[i + 1]) {
      OneMorePosted(s, e, i);
    }
    PostChain(e, states, n);
    ShippedNone(s, ms);
    assert ms[..n] == ms;
  }

  lemma {:induction false} OneMorePosted(s: State, e: Event, i: nat)
    requires Postable(s, e) && i < |e.fulfilled|
    ensures PostStep(Shipped(s, MovementsOf(e)[..i]), e.so, e.soWarehouse, e.fulfilled[i]) == Some(Shipped(s, MovementsOf(e)[..i + 1]))
  {
    var t := Shipped(s, MovementsOf(e)[..i]);
    ShippedLineHasRow(s, MovementsOf(e), i);
    FirstRowFinds(t.reservations, LineRef(e.so, e.fulfilled[i].line));
    ShippedNext(s, MovementsOf(e), i, FirstRow(t.reservations, LineRef(e.so, e.fulfilled[i].line)));
  }

  /** Every line of the fulfilment has its reservation, just one, and its stock row. */
  ghost predicate Postable(s: State, e: Event) {
    && e.SalesOrderFulfilled?
    && UniqueRefs(s.reservations)
    && RowsFor(MovementsOf(e), s.reservations)
    && KeysOf(MovementsOf(e)) <= s.stock.Keys
  }

  lemma {:induction false} SameSlotsSameRows(a: seq<Reservation>, b: seq<Reservation>, ref: LineRef)
    requires SameSlots(a, b)
    ensures HasRow(a, ref) <==> HasRow(b, ref)
  {
    if HasRow(b, ref) {
      var i :| 0 <= i < |b| && b[i].ref == ref;
      assert a[i].ref == ref;
    }
  }

  // ---------- One more row of a batch ----------

  /** One release of the loop: only what is still held, and only for active rows of the order. */
  ghost function ReleaseStep(stock: map<Key, StockLevel>, row: Reservation, o: nat): map<Key, StockLevel> {
    if row.ref.order == o && row.status.Active? && row.fulfilled < row.quantity
    then stock[row.key :=
      if row.key in stock then stock[row.key].(reserved := stock[row.key].reserved - (row.quantity - row.fulfilled)) else StockLevel(0, 0)]
    else stock
  }

  ghost function ReleaseSteps(stock: map<Key, StockLevel>, rows: seq<Reservation>, o: nat): map<Key, StockLevel> {
    if rows == [] then stock else ReleaseStep(ReleaseSteps(stock, rows[..|rows| - 1], o), rows[|rows| - 1], o)
  }

  /** No row has counted too much or misses its stock row. */
  ghost predicate RowsReleasable(stock: map<Key, StockLevel>, rows: seq<Reservation>) {
    forall i :: 0 <= i < |rows| ==> rows[i].key in stock && rows[i].fulfilled <= rows[i].quantity
  }

  lemma {:induction false} ReleaseRowsNext(rows: seq<Reservation>, i: nat, o: nat)
    requires i < |rows|
    ensures ReleaseRows(rows[..i + 1], o) + rows[i + 1..] == (ReleaseRows(rows[..i], o) + rows[i..])[i := ReleaseRow(rows[i], o)]
  {
  }

  /** Released one by one, the rows give back per key the sum of what they hold. */
  lemma {:induction false} ReleaseStepsAddUp(stock: map<Key, StockLevel>, rows: seq<Reservation>, o: nat)
    requires RowsReleasable(stock, rows)
    ensures ReleaseSteps(stock, rows, o) == ReleaseStock(stock, rows, o)
  {
    if rows != [] {
      var n := |rows| - 1;
      ReleaseStepsAddUp(stock, rows[..n], o);
      ReleaseLast(stock, rows[..n], rows[n], o);
      assert rows == rows[..n] + [rows[n]];
    }
  }

  lemma {:induction false} ReleaseLast(stock: map<Key, StockLevel>, rows: seq<Reservation>, row: Reservation, o: nat)
    requires row.key in stock && row.fulfilled <= row.quantity
    ensures ReleaseStock(stock, rows + [row], o) == ReleaseStep(ReleaseStock(stock, rows, o), row, o)
  {
    forall k | k in stock ensures ReleaseStock(stock, rows + [row], o)[k] == ReleaseStep(ReleaseStock(stock, rows, o), row, o)[k] {
      ReleaseLastAt(stock, rows, row, o, k);
    }
  }

  lemma {:induction false} ReleaseLastAt(stock: map<Key, StockLevel>, rows: seq<Reservation>, row: Reservation, o: nat, k: Key)
    requires row.key in stock && row.fulfilled <= row.quantity && k in stock
    ensures ReleaseStock(stock, rows + [row], o)[k] == ReleaseStep(ReleaseStock(stock, rows, o), row, o)[k]
  {
    SumAppend(rows, row, OutstandingOf(o, k));
  }

  /** The tables after the movements `ms` of a receipt are posted. */
  ghost function Arrived(s: State, ms: seq<Movement>): State {
    s.(movements := s.movements + ms, stock := ArriveStock(s.stock, ms))
  }

  lemma {:induction false} ArrivedNone(s: State, ms: seq<Movement>)
    ensures Arrived(s, ms[..0]) == s
  {
    assert s.movements + [] == s.movements;
    assert ArriveStock(s.stock, []) == s.stock;
  }

  lemma {:induction false} ArrivedNext(s: State, ms: seq<Movement>, i: nat)
    requires i < |ms|
    ensures Arrived(s, ms[..i + 1]) == WithMovement(Arrived(s, ms[..i]), ms[i], 0)
  {
    assert s.movements + ms[..i] + [ms[i]] == s.movements + ms[..i + 1];
    ArriveNext(s.stock, ms, i);
  }

  lemma {:induction false} KeysOfNext(ms: seq<Movement>, i: nat)
    requires i < |ms|
    ensures KeysOf(ms[..i + 1]) == KeysOf(ms[..i]) + {ms[i].key}
  {
    assert ms[..i + 1] == ms[..i] + [ms[i]];
    KeysOfConcat(ms[..i], [ms[i]]);
    assert KeysOf([ms[i]]) == {ms[i].key} by {
      assert [ms[i]][0].key in KeysOf([ms[i]]);
    }
  }

  lemma {:induction false} DeltaNext(ms: seq<Movement>, i: nat, k: Key)
    requires i < |ms|
    ensures Sum(ms[..i + 1], DeltaAt(k)) == Sum(ms[..i], DeltaAt(k)) + DeltaAt(k)(ms[i])
  {
    assert ms[..i + 1] == ms[..i] + [ms[i]];
    SumAppend(ms[..i], ms[i], DeltaAt(k));
  }

  /** The stock table after one more arrival. */
  ghost function ArriveOne(stock: map<Key, StockLevel>, m: Movement): map<Key, StockLevel> {
    stock[m.key := if m.key in stock then StockLevel(stock[m.key].onHand + m.delta, stock[m.key].reserved) else StockLevel(m.delta, 0)]
  }

  lemma {:induction false} ArriveNextAt(stock: map<Key, StockLevel>, ms: seq<Movement>, i: nat, k: Key)
    requires i < |ms| && k in ArriveStock(stock, ms[..i + 1])
    ensures k in ArriveOne(ArriveStock(stock, ms[..i]), ms[i])
    ensures ArriveStock(stock, ms[..i + 1])[k] == ArriveOne(ArriveStock(stock, ms[..i]), ms[i])[k]
  {
    KeysOfNext(ms, i);
    DeltaNext(ms, i, k);
    if k !in ArriveStock(stock, ms[..i]) {
      KeyWithoutRows(ms[..i], k);
    }
  }

  lemma {:induction false} ArriveNext(stock: map<Key, StockLevel>, ms: seq<Movement>, i: nat)
    requires i < |ms|
    ensures ArriveStock(stock, ms[..i + 1]) == ArriveOne(ArriveStock(stock, ms[..i]), ms[i])
  {
    KeysOfNext(ms, i);
    assert ArriveStock(stock, ms[..i + 1]).Keys == ArriveOne(ArriveStock(stock, ms[..i]), ms[i]).Keys;
    forall k | k in ArriveStock(stock, ms[..i + 1])
      ensures ArriveStock(stock, ms[..i + 1])[k] == ArriveOne(ArriveStock(stock, ms[..i]), ms[i])[k]
    {
      ArriveNextAt(stock, ms, i, k);
    }
  }

  /** The tables after the movements `ms` of a fulfilment are posted. */
  ghost function Shipped(s: State, ms: seq<Movement>): State {
    s.(movements := s.movements + ms, stock := ShipStock(s.stock, ms), reservations := ConsumeRows(s.reservations, ms))
  }

  lemma {:induction false} ShippedNone(s: State, ms: seq<Movement>)
    ensures Shipped(s, ms[..0]) == s
  {
    assert s.movements + [] == s.movements;
    assert ShipStock(s.stock, []) == s.stock;
    assert ConsumeRows(s.reservations, []) == s.reservations;
  }

  lemma {:induction false} ShippedNext(s: State, ms: seq<Movement>, i: nat, j: nat)
    requires i < |ms| && ms[i].key in s.stock && j < |s.reservations| && UniqueRefs(s.reservations)
    requires forall n :: 0 <= n < |ms| ==> ms[n].source.Fulfillment? && ms[n].delta < 0
    requires s.reservations[j].ref == ms[i].source.soLine
    ensures var before := Shipped(s, ms[..i]);
            var m := ms[i];
            Shipped(s, ms[..i + 1]) == CountTowards(WithMovement(before, m, -m.delta), j, -m.delta)
  {
    assert s.movements + ms[..i] + [ms[i]] == s.movements + ms[..i + 1];
    ShipNext(s.stock, ms, i);
    ConsumeNext(s.reservations, ms, i, j);
  }

  lemma {:induction false} ShipNext(stock: map<Key, StockLevel>, ms: seq<Movement>, i: nat)
    requires i < |ms| && ms[i].key in stock && ms[i].source.Fulfillment?
    ensures var before := ShipStock(stock, ms[..i]);
            var k := ms[i].key;
            ShipStock(stock, ms[..i + 1]) == before[k := StockLevel(before[k].onHand + ms[i].delta, before[k].reserved + ms[i].delta)]
  {
    assert ms[..i + 1] == ms[..i] + [ms[i]];
    forall k | k in stock {
      SumAppend(ms[..i], ms[i], ShippedAt(k));
    }
  }

  /** Half way through the batch, the next line still finds its rows. */
  lemma {:induction false} ShippedLineHasRow(s: State, ms: seq<Movement>, i: nat)
    requires i < |ms| && RowsFor(ms, s.reservations) && KeysOf(ms) <= s.stock.Keys
    ensures ms[i].key in s.stock
    ensures HasRow(ConsumeRows(s.reservations, ms[..i]), ms[i].source.soLine)
  {
    assert ms[i].key in KeysOf(ms);
    assert HasRow(s.reservations, ms[i].source.soLine);
    var j :| 0 <= j < |s.reservations| && s.reservations[j].ref == ms[i].source.soLine;
    assert ConsumeRows(s.reservations, ms[..i])[j].ref == ms[i].source.soLine;
  }

  /** Counting one more shipment towards the only row of its line. */
  lemma {:induction false} ConsumeNext(rows: seq<Reservation>, ms: seq<Movement>, i: nat, j: nat)
    requires i < |ms| && j < |rows| && UniqueRefs(rows)
    requires forall n :: 0 <= n < |ms| ==> ms[n].source.Fulfillment? && ms[n].delta < 0
    requires rows[j].ref == ms[i].source.soLine
    ensures var before := ConsumeRows(rows, ms[..i]);
            var row := before[j].(fulfilled := before[j].fulfilled - ms[i].delta);
            ConsumeRows(rows, ms[..i + 1]) == before[j :=
              if row.quantity <= row.fulfilled then row.(status := ReservationStatus.Fulfilled) else row]
  {
    assert ms[..i + 1] == ms[..i] + [ms[i]];
    forall n | 0 <= n < |rows|
      ensures Sum(ms[..i + 1], ShippedFor(rows[n].ref)) == Sum(ms[..i], ShippedFor(rows[n].ref)) + if n == j then -ms[i].delta else 0
    {
      SumAppend(ms[..i], ms[i], ShippedFor(rows[n].ref));
      assert n != j ==> rows[n].ref != rows[j].ref;
    }
    SumNonNegative(ms[..i], ShippedFor(rows[j].ref));
  }

  // ---------- Sales orders ----------

  class SalesOrdersService {
    const db: Database
    const inventory: InventoryService

    const numbers: NumberSequence

    constructor (db: Database, inventory: InventoryService, numbers: NumberSequence)
      requires inventory.db == db
      ensures this.db == db && this.inventory == inventory && this.numbers == numbers && Wired()
    {
      this.db, this.inventory, this.numbers := db, inventory, numbers;
    }

    /** Both services work on the same tables. */
    predicate Wired() {
      inventory.db == db
    }

    /** Adds a draft order under the next number. */
    method Create(warehouse: nat, items: seq<Item>, year: nat) returns (number: string)
      modifies db, numbers
      ensures db.Rows() == CreateSalesOrder(old(db.Rows()), warehouse, items)
      ensures Drawn(old(numbers.values), Draw("SO", year), numbers.values, number)
    {
      number := numbers.NextDocumentNumber("SO", year);
      db.sales := db.sales + [SalesOrder(SO.Draft, warehouse, NewSalesLines(items))];
    }

    method Confirm(o: nat) returns (r: Maybe<Error>)
      modifies db
      ensures Answers(r, P.Confirm(old(db.Rows()), o), old(db.Rows()), db.Rows())
    {
      if o >= |db.sales| {
        return Some(NotFound);
      }
      if !SO.CanMove(db.sales[o].status, SO.Confirmed) {
        return Some(InvalidTransition);
      }
      db.sales := db.sales[o := db.sales[o].(status := SO.Confirmed)];
      return None;
    }

    /** Reserves one line and notes it on the line. */
    method AllocateLine(o: nat, warehouse: nat, entry: Listed) returns (r: Maybe<Error>)
      requires Wired() && o < |db.sales| && entry.index < |db.sales[o].lines|
      modifies db
      ensures match AllocateStep(old(db.Rows()), o, warehouse, entry)
              case Committed(t) => r.None? && db.Rows() == t
              case RolledBack(e) => r == Some(e)
    {
      r := inventory.ReserveForSalesOrder(LineRef(o, entry.index), Key(entry.line.product, warehouse), entry.line.ordered);
      if r.None? {
        var order := db.sales[o];
        db.sales := db.sales[o := order.(lines :=
          order.lines[entry.index := order.lines[entry.index].(reserved := entry.line.ordered)])];
      }
    }

    /** Reserves line `i` in lock order when the earlier ones are reserved. */
    method AllocateNext(o: nat, warehouse: nat, sorted: seq<Listed>, i: nat, ghost saved: State) returns (r: Maybe<Error>)
      requires Wired() && o < |saved.sales| && LockOrder(saved.sales[o], sorted) && i < |sorted|
      requires AllocateSteps(saved, o, warehouse, sorted[..i]) == Committed(db.Rows())
      modifies db
      ensures match AllocateSteps(saved, o, warehouse, sorted[..i + 1])
              case Committed(t) => r.None? && db.Rows() == t
              case RolledBack(e) => r == Some(e)
    {
      SortedHasEveryLine(saved.sales[o].lines, sorted);
      StepsKeepCount(saved, o, warehouse, sorted[..i]);
      assert sorted[..i + 1][..i] == sorted[..i];
      r := AllocateLine(o, warehouse, sorted[i]);
    }

    /**
     * Reserves the lines one by one in lock order until one of them finds too little, or already has
     * a reservation.
     */
    method AllocateLines(o: nat, sorted: seq<Listed>) returns (r: Maybe<Error>)
      requires Wired() && o < |db.sales| && LockOrder(db.sales[o], sorted)
      modifies db
      ensures match AllocateSteps(old(db.Rows()), o, old(db.sales)[o].warehouse, sorted)
              case Committed(t) => r.None? && db.Rows() == t
              case RolledBack(e) => r == Some(e)
    {
      ghost var saved := db.Rows();
      var warehouse := db.sales[o].warehouse;
      for i := 0 to |sorted|
        invariant AllocateSteps(saved, o, warehouse, sorted[..i]) == Committed(db.Rows())
      {
        r := AllocateNext(o, warehouse, sorted, i, saved);
        if r.Some? {
          RefusedForGood(saved, o, warehouse, sorted, i + 1);
          return;
        }
      }
      assert sorted[..|sorted|] == sorted;
      r := None;
    }

    /** Reserves every line in lock order, or nothing at all. */
    method Allocate(o: nat) returns (r: Maybe<Error>)
      requires Wired()
      modifies db
      ensures Answers(r, AllocateByLines(old(db.Rows()), o), old(db.Rows()), db.Rows())
      ensures Consistent(old(db.Rows())) ==> Answers(r, P.Allocate(old(db.Rows()), o), old(db.Rows()), db.Rows())
    {
      if o >= |db.sales| {
        return Some(NotFound);
      }
      var saved := db.Rows();
      var order := db.sales[o];
      if !SO.CanMove(order.status, SO.Allocated) {
        return Some(InvalidTransition);
      }
      ByLinesIsWhole(saved, o);
      StepsKeepCount(saved, o, order.warehouse, SortedByProduct(Listing(order.lines)));
      r := AllocateLines(o, SortedByProduct(Listing(order.lines)));
      if r.Some? {
        db.Rollback(saved);
        return;
      }
      db.sales := db.sales[o := db.sales[o].(status := SO.Allocated)];
    }

    /** Cancels an order and gives back whatever is still reserved for it. */
    method Cancel(o: nat) returns (r: Maybe<Error>)
      requires Wired()
      modifies db
      ensures r == if o >= |old(db.sales)| then Some(NotFound)
                   else if !SO.CanMove(old(db.sales)[o].status, SO.Cancelled) then Some(InvalidTransition)
                   else None
      ensures r.Some? ==> db.Rows() == old(db.Rows())
      ensures r.None? ==> db.Rows() == CancelByRows(old(db.Rows()), o)
      ensures Consistent(old(db.Rows())) ==> Answers(r, CancelSalesOrder(old(db.Rows()), o), old(db.Rows()), db.Rows())
    {
      if o >= |db.sales| {
        return Some(NotFound);
      }
      var order := db.sales[o];
      if !SO.CanMove(order.status, SO.Cancelled) {
        return Some(InvalidTransition);
      }
      if order.status.Allocated? || order.status.PartiallyFulfilled? {
        ghost var saved := db.Rows();
        if Consistent(saved) {
          ConsistentIsReleasable(saved);
        }
        inventory.ReleaseReservationsForSalesOrder(o);
        db.sales := db.sales[o := order.(lines := UnreserveLines(order.lines))];
      }
      db.sales := db.sales[o := db.sales[o].(status := SO.Cancelled)];
      return None;
    }

    /** Moves the requested quantities from reserved to fulfilled, guarded by the live rows, and announces them. */
    method Fulfill(o: nat, requests: seq<Request>) returns (r: Maybe<Error>)
      modifies db
      ensures Answers(r, P.Fulfill(old(db.Rows()), o, requests), old(db.Rows()), db.Rows())
    {
      if o >= |db.sales| {
        return Some(NotFound);
      }
      var saved := db.Rows();
      var order := db.sales[o];
      if order.status !in SO.FULFILLABLE {
        return Some(InvalidStatus);
      }
      var payload: seq<FulfilledLine> := [];
      FulfillNone(order.lines);
      for i := 0 to |requests|
        invariant db.Rows() == saved.(sales := saved.sales[o := order.(lines := FulfillLines(order.lines, requests[..i]))])
        invariant FulfillAccepts(order.lines, requests[..i])
        invariant payload == FulfilledPayload(order.lines, requests[..i])
      {
        var request := requests[i];
        if request.line >= |order.lines| {
          FulfillRefused(order.lines, requests, i);
          db.Rollback(saved);
          return Some(UnknownLine);
        }
        var lines := db.sales[o].lines;
        var live := lines[request.line];
        FulfillNext(order.lines, requests, i);
        if live.reserved < request.qty {
          FulfillRefused(order.lines, requests, i);
          db.Rollback(saved);
          return Some(OverFulfillment);
        }
        db.sales := db.sales[o := db.sales[o].(lines := lines[request.line :=
          live.(reserved := live.reserved - request.qty, fulfilled := live.fulfilled + request.qty)])];
        payload := payload + [FulfilledLine(request.line, order.lines[request.line].product, request.qty)];
      }
      assert requests[..|requests|] == requests;
      var status := if AllFulfilled(db.sales[o].lines) then SO.Fulfilled else SO.PartiallyFulfilled;
      db.sales := db.sales[o := db.sales[o].(status := status)];
      db.emitted := db.emitted + [SalesOrderFulfilled(o, order.warehouse, payload)];
      return None;
    }
  }

  /** The tables after one line is reserved: its stock row, its reservation and its counter. */
  ghost function LineAllocated(s: State, o: nat, k: Key, entry: Listed): State
    requires o < |s.sales| && entry.index < |s.sales[o].lines| && k in s.stock
  {
    var order := s.sales[o];
    s.(stock := s.stock[k := s.stock[k].(reserved := s.stock[k].reserved + entry.line.ordered)],
       reservations := s.reservations + [Reservation(LineRef(o, entry.index), k, entry.line.ordered, 0, Active)],
       sales := s.sales[o := order.(lines :=
         order.lines[entry.index := order.lines[entry.index].(reserved := entry.line.ordered)])])
  }

  /** The tables after the lines of `entries` are reserved and nothing else. */
  ghost function PartlyAllocated(s: State, o: nat, entries: seq<Listed>): State
    requires o < |s.sales|
  {
    var order := s.sales[o];
    s.(stock := PartialStock(s.stock, order.warehouse, entries),
       sales := s.sales[o := order.(lines := PartialLines(order.lines, entries))],
       reservations := s.reservations + NewReservations(o, order.warehouse, entries))
  }

  lemma {:induction false} AllocatedNothing(s: State, o: nat, sorted: seq<Listed>)
    requires o < |s.sales|
    ensures PartlyAllocated(s, o, sorted[..0]) == s
  {
    assert sorted[..0] == [];
    NothingTaken(s.stock, s.sales[o].warehouse, s.sales[o].lines);
  }

  lemma {:induction false} AllocatedNext(s: State, o: nat, sorted: seq<Listed>, i: nat)
    requires o < |s.sales| && i < |sorted|
    requires sorted[i].index < |s.sales[o].lines| && sorted[i].line == s.sales[o].lines[sorted[i].index]
    requires forall m, n :: 0 <= m < n < |sorted| ==> sorted[m].index != sorted[n].index
    requires Fits(s.stock, s.sales[o].warehouse, sorted[..i])
    requires sorted[i].line.ordered
             <= Available(PartialStock(s.stock, s.sales[o].warehouse, sorted[..i]), KeyOf(sorted[i], s.sales[o].warehouse))
    ensures Fits(s.stock, s.sales[o].warehouse, sorted[..i + 1])
    ensures var before := PartlyAllocated(s, o, sorted[..i]);
            var k := KeyOf(sorted[i], s.sales[o].warehouse);
            && k in before.stock
            && PartlyAllocated(s, o, sorted[..i + 1]) == LineAllocated(before, o, k, sorted[i])
  {
    var order := s.sales[o];
    assert sorted[..i + 1] == sorted[..i] + [sorted[i]];
    FitsNext(s.stock, order.warehouse, sorted[..i], sorted[i]);
    PartialStockNext(s.stock, order.warehouse, sorted[..i], sorted[i]);
    PartialLinesNext(order.lines, sorted[..i], sorted[i]);
    NewReservationsNext(o, order.warehouse, sorted[..i], sorted[i]);
  }

  lemma {:induction false} AllocatedAll(s: State, o: nat, sorted: seq<Listed>)
    requires o < |s.sales| && LockOrder(s.sales[o], sorted) && Fits(s.stock, s.sales[o].warehouse, sorted)
    ensures Sufficient(s.stock, s.sales[o])
    ensures PartlyAllocated(s, o, sorted) == s.(
              stock := ReserveStock(s.stock, s.sales[o]),
              sales := s.sales[o := s.sales[o].(lines := ReserveLines(s.sales[o].lines))],
              reservations := s.reservations + NewReservations(o, s.sales[o].warehouse, sorted))
  {
    AllFit(s.stock, s.sales[o], sorted);
    WholeAllocation(s.stock, s.sales[o], sorted);
  }

  ghost predicate SameLineCount(a: seq<SalesOrder>, b: seq<SalesOrder>, o: nat) {
    o < |a| && o < |b| && |a[o].lines| == |b[o].lines|
  }

  lemma {:induction false} ConsistentIsReleasable(s: State)
    requires Consistent(s)
    ensures RowsReleasable(s.stock, s.reservations)
  {
    forall i | 0 <= i < |s.reservations| ensures s.reservations[i].key in s.stock && s.reservations[i].fulfilled <= s.reservations[i].quantity {
      assert RowConsistent(s, s.reservations[i]);
    }
  }

  /** The tables after a permitted cancellation, released row by row. */
  ghost function CancelByRows(s: State, o: nat): State
    requires o < |s.sales|
  {
    var order := s.sales[o];
    if order.status.Allocated? || order.status.PartiallyFulfilled? then
      s.(sales := s.sales[o := order.(status := SO.Cancelled, lines := UnreserveLines(order.lines))],
         stock := ReleaseSteps(s.stock, s.reservations, o),
         reservations := ReleaseRows(s.reservations, o))
    else s.(sales := s.sales[o := order.(status := SO.Cancelled)])
  }

  /** What reserving one line does to any tables. */
  ghost function AllocateStep(s: State, o: nat, warehouse: nat, entry: Listed): Outcome {
    var k := Key(entry.line.product, warehouse);
    if o >= |s.sales| || entry.index >= |s.sales[o].lines| then RolledBack(NotFound)
    else if Available(s.stock, k) < entry.line.ordered then RolledBack(InsufficientStock)
    else if HasRow(s.reservations, LineRef(o, entry.index)) then RolledBack(UniqueViolation)
    else Committed(LineAllocated(s, o, k, entry))
  }

  /** The lines one after the other, up to the first that is refused. */
  ghost function AllocateSteps(s: State, o: nat, warehouse: nat, entries: seq<Listed>): Outcome {
    if entries == [] then Committed(s)
    else
      var n := |entries| - 1;
      match AllocateSteps(s, o, warehouse, entries[..n])
      case Committed(t) => AllocateStep(t, o, warehouse, entries[n])
      case RolledBack(e) => RolledBack(e)
  }

  /** What allocating an order does to any tables, line by line. */
  ghost function AllocateByLines(s: State, o: nat): Outcome {
    if o >= |s.sales| then RolledBack(NotFound)
    else if !SO.CanMove(s.sales[o].status, SO.Allocated) then RolledBack(InvalidTransition)
    else
      match AllocateSteps(s, o, s.sales[o].warehouse, SortedByProduct(Listing(s.sales[o].lines)))
      case Committed(t) =>
        if o < |t.sales| then Committed(t.(sales := t.sales[o := t.sales[o].(status := SO.Allocated)])) else RolledBack(NotFound)
      case RolledBack(e) => RolledBack(e)
  }

  lemma {:induction false} StepsKeepCount(s: State, o: nat, warehouse: nat, entries: seq<Listed>)
    requires o < |s.sales|
    ensures AllocateSteps(s, o, warehouse, entries).Committed? ==> SameLineCount(AllocateSteps(s, o, warehouse, entries).state.sales, s.sales, o)
  {
    if entries != [] {
      StepsKeepCount(s, o, warehouse, entries[..|entries| - 1]);
    }
  }

  /** A refusal among the first `n` lines is the answer. */
  lemma {:induction false} RefusedForGood(s: State, o: nat, warehouse: nat, entries: seq<Listed>, n: nat)
    requires n <= |entries| && AllocateSteps(s, o, warehouse, entries[..n]).RolledBack?
    ensures AllocateSteps(s, o, warehouse, entries) == AllocateSteps(s, o, warehouse, entries[..n])
  {
    if n == |entries| {
      assert entries[..n] == entries;
    } else {
      var m := |entries| - 1;
      assert entries[..m][..n] == entries[..n];
      RefusedForGood(s, o, warehouse, entries[..m], n);
    }
  }

  /** For an order without reservations the lines add up to a partial allocation, or the order is not covered. */
  lemma {:induction false} StepsAddUp(s: State, o: nat, sorted: seq<Listed>, n: nat)
    requires o < |s.sales| && LockOrder(s.sales[o], sorted) && n <= |sorted| && NoRowsOf(s.reservations, o)
    ensures match AllocateSteps(s, o, s.sales[o].warehouse, sorted[..n])
            case Committed(t) => t == PartlyAllocated(s, o, sorted[..n]) && Fits(s.stock, s.sales[o].warehouse, sorted[..n])
            case RolledBack(e) => e == InsufficientStock && !Sufficient(s.stock, s.sales[o])
  {
    if n == 0 {
      AllocatedNothing(s, o, sorted);
    } else {
      var i := n - 1;
      StepsAddUp(s, o, sorted, i);
      StepsNext(s, o, s.sales[o].warehouse, sorted, i);
      if AllocateSteps(s, o, s.sales[o].warehouse, sorted[..i]).Committed? {
        SortedHasEveryLine(s.sales[o].lines, sorted);
        OneMoreStepAddsUp(s, o, sorted, i);
      }
    }
  }

  lemma {:induction false} StepsNext(s: State, o: nat, warehouse: nat, entries: seq<Listed>, i: nat)
    requires i < |entries|
    ensures AllocateSteps(s, o, warehouse, entries[..i + 1])
            == match AllocateSteps(s, o, warehouse, entries[..i])
               case Committed(t) => AllocateStep(t, o, warehouse, entries[i])
               case RolledBack(e) => RolledBack(e)
  {
    assert entries[..i + 1][..i] == entries[..i];
  }

  lemma {:induction false} OneMoreStepAddsUp(s: State, o: nat, sorted: seq<Listed>, i: nat)
    requires o < |s.sales| && LockOrder(s.sales[o], sorted) && i < |sorted| && NoRowsOf(s.reservations, o)
    requires Fits(s.stock, s.sales[o].warehouse, sorted[..i])
    requires sorted[i].index < |s.sales[o].lines| && sorted[i].line == s.sales[o].lines[sorted[i].index]
    requires forall m, n :: 0 <= m < n < |sorted| ==> sorted[m].index != sorted[n].index
    ensures match AllocateStep(PartlyAllocated(s, o, sorted[..i]), o, s.sales[o].warehouse, sorted[i])
            case Committed(t) => t == PartlyAllocated(s, o, sorted[..i + 1]) && Fits(s.stock, s.sales[o].warehouse, sorted[..i + 1])
            case RolledBack(e) => e == InsufficientStock && !Sufficient(s.stock, s.sales[o])
  {
    var before := PartlyAllocated(s, o, sorted[..i]);
    assert |before.sales[o].lines| == |s.sales[o].lines|;
    NoRowYet(s, o, sorted, i);
    if Available(before.stock, KeyOf(sorted[i], s.sales[o].warehouse)) < sorted[i].line.ordered {
      OneFails(s.stock, s.sales[o], sorted, i);
    } else {
      AllocatedNext(s, o, sorted, i);
    }
  }

  /** In consistent tables, allocating line by line is allocating as a whole. */
  lemma {:induction false} ByLinesIsWhole(s: State, o: nat)
    ensures Consistent(s) ==> AllocateByLines(s, o) == P.Allocate(s, o)
  {
    if Consistent(s) && o < |s.sales| && SO.CanMove(s.sales[o].status, SO.Allocated) {
      UnstartedHasNoRows(s, o);
      StartableByLines(s, o, SortedByProduct(Listing(s.sales[o].lines)));
    }
  }

  lemma {:induction false} StartableByLines(s: State, o: nat, sorted: seq<Listed>)
    requires o < |s.sales| && LockOrder(s.sales[o], sorted) && NoRowsOf(s.reservations, o)
    requires SO.CanMove(s.sales[o].status, SO.Allocated)
    ensures AllocateByLines(s, o) == P.Allocate(s, o)
  {
    StepsAddUp(s, o, sorted, |sorted|);
    assert sorted[..|sorted|] == sorted;
    if AllocateSteps(s, o, s.sales[o].warehouse, sorted).Committed? {
      AllocatedAll(s, o, sorted);
    }
  }

  ghost predicate NoRowsOf(rows: seq<Reservation>, o: nat) {
    forall j :: 0 <= j < |rows| ==> rows[j].ref.order != o
  }

  lemma {:induction false} UnstartedHasNoRows(s: State, o: nat)
    requires Consistent(s) && o < |s.sales| && !Started(s.sales[o].status)
    ensures NoRowsOf(s.reservations, o)
  {
    forall j | 0 <= j < |s.reservations| ensures s.reservations[j].ref.order != o {
      assert RowConsistent(s, s.reservations[j]);
    }
  }

  /** While an order is being allocated, the next line has no reservation yet. */
  lemma {:induction false} NoRowYet(s: State, o: nat, sorted: seq<Listed>, i: nat)
    requires NoRowsOf(s.reservations, o) && o < |s.sales| && i < |sorted|
    requires forall m, n :: 0 <= m < n < |sorted| ==> sorted[m].index != sorted[n].index
    ensures !HasRow(PartlyAllocated(s, o, sorted[..i]).reservations, LineRef(o, sorted[i].index))
  {
  }

  lemma {:induction false} FulfillNone(lines: seq<SalesLine>)
    ensures FulfillLines(lines, []) == lines
  {
  }

  /** The live row decides request `i` as the closed form does. */
  lemma {:induction false} FulfillNext(lines: seq<SalesLine>, requests: seq<Request>, i: nat)
    requires i < |requests| && requests[i].line < |lines|
    requires FulfillAccepts(lines, requests[..i])
    ensures var live := FulfillLines(lines, requests[..i])[requests[i].line];
            && (FulfillFailsAt(lines, requests, i) <==> live.reserved < requests[i].qty)
            && (requests[i].qty <= live.reserved ==>
                  && FulfillAccepts(lines, requests[..i + 1])
                  && FulfillLines(lines, requests[..i + 1]) == FulfillLines(lines, requests[..i])[requests[i].line :=
                       live.(reserved := live.reserved - requests[i].qty, fulfilled := live.fulfilled + requests[i].qty)])
  {
    var upTo := requests[..i + 1];
    assert upTo[..i] == requests[..i];
    FulfillLast(lines, upTo);
    RequestedLast(upTo, requests[i].line);
    if requests[i].qty <= FulfillLines(lines, requests[..i])[requests[i].line].reserved {
      forall j | 0 <= j < i + 1 ensures !FulfillFailsAt(lines, upTo, j) {
        if j < i {
          assert upTo[..j + 1] == requests[..i][..j + 1];
          assert !FulfillFailsAt(lines, requests[..i], j);
        } else {
          assert upTo[..j + 1] == upTo;
        }
      }
    }
  }

  lemma {:induction false} AcceptedEarlier(lines: seq<SalesLine>, requests: seq<Request>, n: nat)
    requires n <= |requests| && FulfillAccepts(lines, requests[..n])
    ensures forall j :: 0 <= j < n ==> !FulfillFailsAt(lines, requests, j)
  {
    forall j | 0 <= j < n ensures !FulfillFailsAt(lines, requests, j) {
      assert requests[..n][..j + 1] == requests[..j + 1];
      assert !FulfillFailsAt(lines, requests[..n], j);
    }
  }

  /** The first request that fails decides the error. */
  lemma {:induction false} FulfillRefused(lines: seq<SalesLine>, requests: seq<Request>, i: nat)
    requires i < |requests| && FulfillFailsAt(lines, requests, i) && FulfillAccepts(lines, requests[..i])
    ensures !FulfillAccepts(lines, requests)
    ensures FulfillError(lines, requests) == if requests[i].line >= |lines| then UnknownLine else OverFulfillment
  {
    assert FirstFulfillFailure(lines, requests, i);
    AcceptedEarlier(lines, requests, i);
    forall j: nat | FirstFulfillFailure(lines, requests, j) ensures j == i {
      AcceptedEarlier(lines, requests, j);
    }
  }

  // ---------- Purchase orders ----------

  class PurchaseOrdersService {
    const db: Database
    const numbers: NumberSequence

    constructor (db: Database, numbers: NumberSequence)
      ensures this.db == db && this.numbers == numbers
    {
      this.db, this.numbers := db, numbers;
    }

    /** Adds a draft order under the next number. */
    method Create(warehouse: nat, items: seq<Item>, year: nat) returns (number: string)
      modifies db, numbers
      ensures db.Rows() == CreatePurchaseOrder(old(db.Rows()), warehouse, items)
      ensures Drawn(old(numbers.values), Draw("PO", year), numbers.values, number)
    {
      number := numbers.NextDocumentNumber("PO", year);
      db.purchases := db.purchases + [PurchaseOrder(PO.Draft, warehouse, NewPurchaseLines(items))];
    }

    /** Approve and cancel. */
    method Move(p: nat, target: PO.Status) returns (r: Maybe<Error>)
      modifies db
      ensures Answers(r, MovePurchaseOrder(old(db.Rows()), p, target), old(db.Rows()), db.Rows())
    {
      if p >= |db.purchases| {
        return Some(NotFound);
      }
      if !PO.CanMove(db.purchases[p].status, target) {
        return Some(InvalidTransition);
      }
      db.purchases := db.purchases[p := db.purchases[p].(status := target)];
      return None;
    }

    /** Raises the counter of one line and writes its receipt line. */
    method ReceiveLine(p: nat, request: Request)
      requires p < |db.purchases| && request.line < |db.purchases[p].lines|
      modifies db
      ensures var po := old(db.purchases)[p];
              var line := po.lines[request.line];
              db.Rows() == old(db.Rows()).(
                purchases := old(db.purchases)[p := po.(lines := po.lines[request.line := line.(received := line.received + request.qty)])],
                receipts := old(db.receipts) + [ReceiptLine(LineRef(p, request.line), line.product, request.qty)])
    {
      var lines := db.purchases[p].lines;
      var line := lines[request.line];
      db.purchases := db.purchases[p := db.purchases[p].(lines := lines[request.line := line.(received := line.received + request.qty)])];
      db.receipts := db.receipts + [ReceiptLine(LineRef(p, request.line), line.product, request.qty)];
    }

    /** Raises the counters and writes the receipt, line by line. */
    method WriteReceipt(p: nat, requests: seq<Request>) returns (payload: seq<ReceivedLine>)
      requires p < |db.purchases| && KnownLines(|db.purchases[p].lines|, requests)
      modifies db
      ensures var po := old(db.purchases)[p];
              && db.Rows() == old(db.Rows()).(
                   purchases := old(db.purchases)[p := po.(lines := ReceiveLines(po.lines, requests))],
                   receipts := old(db.receipts) + ReceiptLines(p, po.lines, requests))
              && payload == ReceivedPayload(po.lines, requests, |old(db.receipts)|)
    {
      ghost var saved := db.Rows();
      var po := db.purchases[p];
      payload := [];
      ReceiveNone(po.lines);
      for i := 0 to |requests|
        invariant db.Rows() == saved.(
                    purchases := saved.purchases[p := po.(lines := ReceiveLines(po.lines, requests[..i]))],
                    receipts := saved.receipts + ReceiptLines(p, po.lines, requests[..i]))
        invariant payload == ReceivedPayload(po.lines, requests[..i], |saved.receipts|)
      {
        var request := requests[i];
        assert requests[..i + 1][..i] == requests[..i];
        ReceiveLast(po.lines, requests[..i + 1]);
        payload := payload + [ReceivedLine(request.line, |db.receipts|, po.lines[request.line].product, request.qty)];
        ReceiveLine(p, request);
      }
      assert requests[..|requests|] == requests;
    }

    /** Checks every line against the order, then raises the counters, writes the receipt and announces it. */
    method Receive(p: nat, requests: seq<Request>) returns (r: Maybe<Error>)
      modifies db
      ensures Answers(r, P.Receive(old(db.Rows()), p, requests), old(db.Rows()), db.Rows())
    {
      if p >= |db.purchases| {
        return Some(NotFound);
      }
      ghost var saved := db.Rows();
      var po := db.purchases[p];
      if po.status !in PO.RECEIVABLE {
        return Some(InvalidStatus);
      }
      for i := 0 to |requests|
        invariant db.Rows() == saved
        invariant ReceiveAccepts(po.lines, requests[..i])
      {
        var request := requests[i];
        if request.line >= |po.lines| {
          ReceiveRefused(po.lines, requests, i);
          return Some(UnknownLine);
        }
        if po.lines[request.line].received + request.qty > po.lines[request.line].ordered {
          ReceiveRefused(po.lines, requests, i);
          return Some(OverReceipt);
        }
        ReceiveCheckedNext(po.lines, requests, i);
      }
      assert requests[..|requests|] == requests;
      var payload := WriteReceipt(p, requests);
      var status := if AllReceived(db.purchases[p].lines) then PO.Received else PO.PartiallyReceived;
      db.purchases := db.purchases[p := db.purchases[p].(status := status)];
      db.emitted := db.emitted + [PoReceived(p, po.warehouse, payload)];
      return None;
    }

    /** Marks an approved order as shipped, once per event; an order that has moved on is left alone. */
    method HandleShipmentCreated(id: nat)
      requires id < |db.emitted| && db.emitted[id].ShipmentCreated?
      modifies db
      ensures db.Rows() == Deliver(old(db.Rows()), id)
    {
      var forPo := db.emitted[id].forPo;
      if forPo.None? {
        return;
      }
      var claimed := db.ClaimEvent(id);
      if !claimed {
        assert old(db.processed) + {id} == old(db.processed);
        return;
      }
      var p := forPo.value;
      if p >= |db.purchases| || !db.purchases[p].status.Approved? {
        return;
      }
      db.purchases := db.purchases[p := db.purchases[p].(status := PO.Shipped)];
    }
  }

  // ---------- Shipments ----------

  class ShipmentCreator {
    const db: Database
    const numbers: NumberSequence

    constructor (db: Database, numbers: NumberSequence)
      ensures this.db == db && this.numbers == numbers
    {
      this.db, this.numbers := db, numbers;
    }

    /**
     * Checks the order the direction asks for, draws a number, inserts the shipment and announces it.
     * A number drawn for a shipment the database refuses is given back with the transaction.
     */
    method Create(direction: Direction, forPo: Maybe<nat>, forSo: Maybe<nat>, year: nat) returns (r: Maybe<Error>, number: string)
      modifies db, numbers
      ensures Answers(r, P.CreateShipment(old(db.Rows()), direction, forPo, forSo), old(db.Rows()), db.Rows())
      ensures if r.None? then Drawn(old(numbers.values), Draw("SHP", year), numbers.values, number)
              else numbers.values == old(numbers.values)
    {
      number := "";
      match direction {
        case Inbound =>
          if forPo.None? {
            return Some(ValidationFailed), number;
          }
          if forPo.value >= |db.purchases| {
            return Some(NotFound), number;
          }
          if !db.purchases[forPo.value].status.Approved? {
            return Some(InvalidStatus), number;
          }
        case Outbound =>
          if forSo.None? {
            return Some(ValidationFailed), number;
          }
          if forSo.value >= |db.sales| {
            return Some(NotFound), number;
          }
          if db.sales[forSo.value].status !in SHIPPABLE {
            return Some(InvalidStatus), number;
          }
      }
      var saved := numbers.values;
      number := numbers.NextDocumentNumber("SHP", year);
      if AlreadyLinked(db.Rows(), forPo, forSo) {
        numbers.values := saved;
        return Some(UniqueViolation), number;
      }
      if DanglingLink(db.Rows(), forPo, forSo) {
        numbers.values := saved;
        return Some(ForeignKeyViolation), number;
      }
      db.emitted := db.emitted + [ShipmentCreated(forPo, forSo)];
      r := None;
    }
  }

  lemma {:induction false} ReceiveNone(lines: seq<PurchaseLine>)
    ensures ReceiveLines(lines, []) == lines
  {
  }

  lemma {:induction false} ReceivableEarlier(lines: seq<PurchaseLine>, requests: seq<Request>, n: nat)
    requires n <= |requests|
    ensures ReceiveAccepts(lines, requests[..n]) <==> forall j :: 0 <= j < n ==> !ReceiveFailsAt(lines, requests, j)
  {
    forall j | 0 <= j < n ensures ReceiveFailsAt(lines, requests[..n], j) <==> ReceiveFailsAt(lines, requests, j) {
      assert requests[..n][j] == requests[j];
    }
    if forall j :: 0 <= j < n ==> !ReceiveFailsAt(lines, requests, j) {
      forall j | 0 <= j < n ensures requests[..n][j].line < |lines| {
        assert !ReceiveFailsAt(lines, requests, j);
      }
    }
  }

  lemma {:induction false} ReceiveCheckedNext(lines: seq<PurchaseLine>, requests: seq<Request>, i: nat)
    requires i < |requests| && !ReceiveFailsAt(lines, requests, i) && ReceiveAccepts(lines, requests[..i])
    ensures ReceiveAccepts(lines, requests[..i + 1])
  {
    ReceivableEarlier(lines, requests, i);
    ReceivableEarlier(lines, requests, i + 1);
  }

  lemma {:induction false} ReceiveRefused(lines: seq<PurchaseLine>, requests: seq<Request>, i: nat)
    requires i < |requests| && ReceiveFailsAt(lines, requests, i) && ReceiveAccepts(lines, requests[..i])
    ensures !ReceiveAccepts(lines, requests)
    ensures ReceiveError(lines, requests) == if requests[i].line >= |lines| then UnknownLine else OverReceipt
  {
    assert FirstReceiveFailure(lines, requests, i);
    ReceivableEarlier(lines, requests, i);
    forall j: nat | FirstReceiveFailure(lines, requests, j) ensures j == i {
      ReceivableEarlier(lines, requests, j);
    }
  }
}
