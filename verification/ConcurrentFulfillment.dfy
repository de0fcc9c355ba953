/**
 * Concurrent fulfilments of one order, statement by statement: guarded updates of live line rows, a
 * read of all lines, a write of the status.  The quantities are those of some serial execution; the
 * status is right exactly if the transaction that commits last has read the lines after all others
 * committed.  For which requests that is sure to happen is the subject of FulfillmentMarks.dfy.
 */
module ConcurrentFulfillment {
  import opened Wrappers
  import opened Sums
  import opened Tables
  import opened Protocol
  import opened Invariants
  import opened FulfillSteps
  import opened Overlaps
  import SO = SalesOrderLifecycle

  /** The committed order, the row locks with their holders, all transactions, and the committed ones in order. */
  datatype Sys = Sys(
    lines: seq<SalesLine>,
    status: SO.Status,
    lineLocks: map<nat, nat>,
    orderLock: Maybe<nat>,
    txs: seq<Tx>,
    committed: seq<nat>)

  function Init(order: SalesOrder, lists: seq<seq<Request>>): Sys {
    Sys(order.lines, order.status, map[], None, seq(|lists|, i => Tx(Idle, false, 0)), [])
  }

  predicate Enabled(lists: seq<seq<Request>>, c: Sys, move: Move) {
    var t := move.t;
    && t < |c.txs| && t < |lists|
    && match c.txs[t].phase
       case Done(_) => false
       case Updating(pc) =>
         pc < |lists[t]| && (move.Run? && lists[t][pc].line in c.lineLocks ==> c.lineLocks[lists[t][pc].line] == t)
       case Writing => move.Run? && c.orderLock.Some? ==> c.orderLock.value == t
       case _ => true
  }

  function Finish(c: Sys, t: nat, ok: bool): Sys
    requires t < |c.txs|
  {
    c.(txs := c.txs[t := c.txs[t].(phase := Done(ok))],
       lineLocks := Unlock(c.lineLocks, t),
       orderLock := if c.orderLock == Some(t) then None else c.orderLock,
       committed := if ok then c.committed + [t] else c.committed)
  }

  /** One statement.  A guarded update sees the committed row and the transaction's own updates of it. */
  ghost function Next(lists: seq<seq<Request>>, c: Sys, move: Move): Sys
    requires Enabled(lists, c, move)
  {
    var t := move.t;
    var tx := c.txs[t];
    if move.Abort? then c.(txs := c.txs[t := tx.(phase := Failing)])
    else
      match tx.phase
      case Idle => c.(txs := c.txs[t := tx.(phase := if c.status in SO.FULFILLABLE && lists[t] != [] then Updating(0) else Failing)])
      case Updating(pc) =>
        if FulfillFailsAt(c.lines, lists[t], pc) then c.(txs := c.txs[t := tx.(phase := Failing)])
        else c.(txs := c.txs[t := tx.(phase := if pc + 1 < |lists[t]| then Updating(pc + 1) else Reading)],
                lineLocks := c.lineLocks[lists[t][pc].line := t])
      case Reading =>
        c.(txs := c.txs[t := Tx(Writing, AllFulfilled(FulfillLines(c.lines, lists[t])), |c.committed|)])
      case Writing => c.(txs := c.txs[t := tx.(phase := Committing)], orderLock := Some(t))
      case Committing =>
        Finish(c.(lines := FulfillLines(c.lines, lists[t]), status := StatusFor(tx.complete)), t, true)
      case Failing => Finish(c, t, false)
      case Done(_) => c
  }

  function StatusFor(complete: bool): SO.Status {
    if complete then SO.Fulfilled else SO.PartiallyFulfilled
  }

  ghost predicate Runs(lists: seq<seq<Request>>, c: Sys, schedule: seq<Move>) {
    schedule == []
    || (var n := |schedule| - 1;
        Runs(lists, c, schedule[..n]) && Enabled(lists, Reached(lists, c, schedule[..n]), schedule[n]))
  }

  ghost function Reached(lists: seq<seq<Request>>, c: Sys, schedule: seq<Move>): Sys {
    if schedule == [] then c
    else
      var n := |schedule| - 1;
      var before := Reached(lists, c, schedule[..n]);
      if Enabled(lists, before, schedule[n]) then Next(lists, before, schedule[n]) else before
  }

  // ---------- The invariant ----------

  /** The lines after the requests of `ids`, one transaction after the other. */
  ghost function Applied(lines: seq<SalesLine>, lists: seq<seq<Request>>, ids: seq<nat>): seq<SalesLine>
    requires Ids(lists, ids)
  {
    if ids == [] then lines
    else
      var n := |ids| - 1;
      FulfillLines(Applied(lines, lists, ids[..n]), lists[ids[n]])
  }

  /** Nothing is over-fulfilled: what is reserved is what is left. */
  ghost predicate LinesOk(lines: seq<SalesLine>) {
    forall l :: 0 <= l < |lines| ==>
      0 <= lines[l].reserved && 0 <= lines[l].fulfilled && lines[l].reserved + lines[l].fulfilled == lines[l].ordered
  }

  /** The first `n` updates of `t` were accepted and are still good: their lines are locked. */
  ghost predicate Holds(lists: seq<seq<Request>>, c: Sys, t: nat, n: nat)
    requires t < |lists| && n <= |lists[t]|
  {
    && FulfillAccepts(c.lines, lists[t][..n])
    && Locked(lists, c.lineLocks, t, n)
  }

  /** The read of `t` told whether its own requests, on top of those committed by then, complete the order. */
  ghost predicate ReadOk(lines: seq<SalesLine>, lists: seq<seq<Request>>, committed: seq<nat>, t: nat, tx: Tx)
    requires Ids(lists, committed) && t < |lists|
  {
    && tx.seen <= |committed|
    && (tx.complete <==> AllFulfilled(FulfillLines(Applied(lines, lists, committed[..tx.seen]), lists[t])))
  }

  ghost predicate TxOk(lines: seq<SalesLine>, lists: seq<seq<Request>>, c: Sys, t: nat)
    requires t < |c.txs| && t < |lists| && Ids(lists, c.committed)
  {
    match c.txs[t].phase
    case Updating(pc) => pc < |lists[t]| && Holds(lists, c, t, pc)
    case Reading => Holds(lists, c, t, |lists[t]|)
    case Writing => Holds(lists, c, t, |lists[t]|) && ReadOk(lines, lists, c.committed, t, c.txs[t])
    case Committing => Holds(lists, c, t, |lists[t]|) && ReadOk(lines, lists, c.committed, t, c.txs[t])
    case _ => true
  }

  /** Transaction number `i` of the committed ones was acceptable when it committed, and had read before. */
  ghost predicate CommitOk(lines: seq<SalesLine>, lists: seq<seq<Request>>, c: Sys, i: nat)
    requires i < |c.committed| && Ids(lists, c.committed)
  {
    var t := c.committed[i];
    && t < |c.txs|
    && lists[t] != []
    && FulfillAccepts(Applied(lines, lists, c.committed[..i]), lists[t])
    && ReadOk(lines, lists, c.committed[..i], t, c.txs[t])
    && c.txs[t].phase == Done(true)
  }

  ghost predicate SysInv(order: SalesOrder, lists: seq<seq<Request>>, c: Sys) {
    && |c.txs| == |lists|
    && Ids(lists, c.committed)
    && c.lines == Applied(order.lines, lists, c.committed)
    && LinesOk(c.lines)
    && (forall t :: 0 <= t < |c.txs| ==> TxOk(order.lines, lists, c, t))
    && (forall i :: 0 <= i < |c.committed| ==> CommitOk(order.lines, lists, c, i))
    && c.status == if c.committed == [] then order.status else StatusFor(c.txs[c.committed[|c.committed| - 1]].complete)
  }

  /** Every order that may be fulfilled in a reachable state has such lines. */
  lemma {:induction false} HeldLinesOk(order: SalesOrder)
    requires SalesOrderOk(order) && order.status in SO.FULFILLABLE
    ensures LinesOk(order.lines)
  {
    forall l | 0 <= l < |order.lines|
      ensures 0 <= order.lines[l].reserved && 0 <= order.lines[l].fulfilled
      ensures order.lines[l].reserved + order.lines[l].fulfilled == order.lines[l].ordered
    {
      assert SalesLineOk(order.status, order.lines[l]);
    }
  }

  // ---------- Every statement keeps it ----------

  lemma {:induction false} AppliedNext(lines: seq<SalesLine>, lists: seq<seq<Request>>, ids: seq<nat>, t: nat)
    requires Ids(lists, ids) && t < |lists|
    ensures Ids(lists, ids + [t])
    ensures Applied(lines, lists, ids + [t]) == FulfillLines(Applied(lines, lists, ids), lists[t])
  {
    assert (ids + [t])[..|ids|] == ids;
  }

  lemma {:induction false} FulfilledLinesOk(lines: seq<SalesLine>, requests: seq<Request>)
    requires LinesOk(lines) && FulfillAccepts(lines, requests)
    ensures LinesOk(FulfillLines(lines, requests))
  {
    forall l | 0 <= l < |lines|
      ensures 0 <= Requested(requests, l) <= lines[l].reserved
    {
      AcceptedFits(lines, requests, l);
    }
  }

  /** A commit leaves the lines alone that its requests do not name. */
  lemma {:induction false} UnnamedLineStays(lines: seq<SalesLine>, requests: seq<Request>, l: nat)
    requires l < |lines| && forall i :: 0 <= i < |requests| ==> requests[i].line != l
    ensures FulfillLines(lines, requests)[l] == lines[l]
  {
    SumZero(requests, QtyOn(l));
  }

  /** Accepted updates stay accepted as long as their lines stay. */
  lemma {:induction false} AcceptedStays(a: seq<SalesLine>, b: seq<SalesLine>, requests: seq<Request>)
    requires FulfillAccepts(a, requests) && |a| == |b|
    requires forall i :: 0 <= i < |requests| && requests[i].line < |a| ==> b[requests[i].line] == a[requests[i].line]
    ensures FulfillAccepts(b, requests)
  {
    forall i | 0 <= i < |requests| ensures requests[i].line < |b| && !FulfillFailsAt(b, requests, i) {
      assert !FulfillFailsAt(a, requests, i);
    }
  }

  /** What another transaction holds survives the commit of `u`. */
  lemma {:induction false} HoldsAfterCommit(lists: seq<seq<Request>>, c: Sys, u: nat, t: nat, n: nat, c': Sys)
    requires u < |lists| && t < |lists| && n <= |lists[t]| && u != t
    requires Holds(lists, c, u, |lists[u]|) && Holds(lists, c, t, n)
    requires c'.lines == FulfillLines(c.lines, lists[u]) && c'.lineLocks == Unlock(c.lineLocks, u)
    ensures Holds(lists, c', t, n)
  {
    forall i | 0 <= i < n ensures c'.lines[lists[t][i].line] == c.lines[lists[t][i].line] {
      assert lists[t][..n][i] == lists[t][i];
      forall j | 0 <= j < |lists[u]| ensures lists[u][j].line != lists[t][i].line {
        assert c.lineLocks[lists[u][j].line] == u;
      }
      UnnamedLineStays(c.lines, lists[u], lists[t][i].line);
    }
    AcceptedStays(c.lines, c'.lines, lists[t][..n]);
  }

  /** An update that passes its guard extends what the transaction holds. */
  lemma {:induction false} UpdateHolds(lists: seq<seq<Request>>, c: Sys, t: nat, pc: nat)
    requires t < |lists| && pc < |lists[t]| && Holds(lists, c, t, pc) && !FulfillFailsAt(c.lines, lists[t], pc)
    ensures Holds(lists, c.(lineLocks := c.lineLocks[lists[t][pc].line := t]), t, pc + 1)
  {
    var upTo := lists[t][..pc + 1];
    forall i | 0 <= i < |upTo| ensures upTo[i].line < |c.lines| && !FulfillFailsAt(c.lines, upTo, i) {
      assert upTo[..i + 1] == lists[t][..i + 1];
      if i < pc {
        assert lists[t][..pc][..i + 1] == lists[t][..i + 1];
        assert !FulfillFailsAt(c.lines, lists[t][..pc], i);
      }
    }
  }

  /** Locking one more free line takes nothing from others. */
  lemma {:induction false} LockKeepsOthers(lists: seq<seq<Request>>, c: Sys, t: nat, l: nat, u: nat, n: nat)
    requires u < |lists| && n <= |lists[u]| && Holds(lists, c, u, n) && u != t
    requires l in c.lineLocks ==> c.lineLocks[l] == t
    ensures Holds(lists, c.(lineLocks := c.lineLocks[l := t]), u, n)
  {
  }

  lemma {:induction false} UnlockKeepsOthers(lists: seq<seq<Request>>, c: Sys, t: nat, u: nat, n: nat, c': Sys)
    requires u < |lists| && n <= |lists[u]| && Holds(lists, c, u, n) && u != t
    requires c'.lines == c.lines && c'.lineLocks == Unlock(c.lineLocks, t)
    ensures Holds(lists, c', u, n)
  {
  }

  lemma {:induction false} ReadStays(lines: seq<SalesLine>, lists: seq<seq<Request>>, committed: seq<nat>, more: nat, t: nat, tx: Tx)
    requires Ids(lists, committed) && t < |lists| && more < |lists| && ReadOk(lines, lists, committed, t, tx)
    ensures Ids(lists, committed + [more]) && ReadOk(lines, lists, committed + [more], t, tx)
  {
    assert (committed + [more])[..tx.seen] == committed[..tx.seen];
  }

  /** Steps that commit nothing and end in phase `tx` keep the history of commits. */
  lemma {:induction false} HistoryStays(order: SalesOrder, lists: seq<seq<Request>>, c: Sys, t: nat, c': Sys)
    requires SysInv(order, lists, c) && t < |c.txs| && !c.txs[t].phase.Done?
    requires |c'.txs| == |c.txs| && c'.committed == c.committed && c'.status == c.status
    requires forall u :: 0 <= u < |c.txs| && u != t ==> c'.txs[u] == c.txs[u]
    ensures forall i :: 0 <= i < |c'.committed| ==> CommitOk(order.lines, lists, c', i)
    ensures c'.status == if c'.committed == [] then order.status else StatusFor(c'.txs[c'.committed[|c'.committed| - 1]].complete)
  {
    forall i | 0 <= i < |c.committed| ensures CommitOk(order.lines, lists, c', i) && c.committed[i] != t {
      assert CommitOk(order.lines, lists, c, i);
    }
  }

  lemma {:induction false} UpdateKeeps(order: SalesOrder, lists: seq<seq<Request>>, c: Sys, t: nat)
    requires SysInv(order, lists, c) && Enabled(lists, c, Run(t)) && c.txs[t].phase.Updating?
    requires !FulfillFailsAt(c.lines, lists[t], c.txs[t].phase.pc)
    ensures SysInv(order, lists, Next(lists, c, Run(t)))
  {
    var c' := Next(lists, c, Run(t));
    var pc := c.txs[t].phase.pc;
    assert TxOk(order.lines, lists, c, t);
    UpdateHolds(lists, c, t, pc);
    assert lists[t][..|lists[t]|] == lists[t];
    forall u | 0 <= u < |c'.txs| ensures TxOk(order.lines, lists, c', u) {
      assert TxOk(order.lines, lists, c, u);
      if u != t {
        OthersHold(order, lists, c, t, u, lists[t][pc].line);
      }
    }
    HistoryStays(order, lists, c, t, c');
  }

  /** How many of its updates a transaction has behind it. */
  function Behind(lists: seq<seq<Request>>, c: Sys, t: nat): nat
    requires t < |c.txs| && t < |lists|
  {
    match c.txs[t].phase
    case Updating(pc) => if pc <= |lists[t]| then pc else 0
    case Reading => |lists[t]|
    case Writing => |lists[t]|
    case Committing => |lists[t]|
    case _ => 0
  }

  lemma {:induction false} OthersHold(order: SalesOrder, lists: seq<seq<Request>>, c: Sys, t: nat, u: nat, l: nat)
    requires |c.txs| == |lists| && Ids(lists, c.committed) && u < |c.txs| && TxOk(order.lines, lists, c, u) && u != t
    requires l in c.lineLocks ==> c.lineLocks[l] == t
    ensures Behind(lists, c, u) <= |lists[u]|
    ensures 0 < Behind(lists, c, u) ==> Holds(lists, c.(lineLocks := c.lineLocks[l := t]), u, Behind(lists, c, u))
  {
    if 0 < Behind(lists, c, u) {
      LockKeepsOthers(lists, c, t, l, u, Behind(lists, c, u));
    }
  }

  lemma {:induction false} PlainKeeps(order: SalesOrder, lists: seq<seq<Request>>, c: Sys, t: nat, tx: Tx, orderLock: Maybe<nat>)
    requires SysInv(order, lists, c) && t < |c.txs| && !c.txs[t].phase.Done? && !tx.phase.Done?
    requires TxOk(order.lines, lists, c.(txs := c.txs[t := tx]), t)
    ensures SysInv(order, lists, c.(txs := c.txs[t := tx], orderLock := orderLock))
  {
    var c' := c.(txs := c.txs[t := tx], orderLock := orderLock);
    forall u | 0 <= u < |c'.txs| ensures TxOk(order.lines, lists, c', u) {
      assert u != t ==> TxOk(order.lines, lists, c, u);
    }
    HistoryStays(order, lists, c, t, c');
  }

  lemma {:induction false} RollbackKeeps(order: SalesOrder, lists: seq<seq<Request>>, c: Sys, t: nat)
    requires SysInv(order, lists, c) && t < |c.txs| && c.txs[t].phase.Failing?
    ensures SysInv(order, lists, Finish(c, t, false))
  {
    var c' := Finish(c, t, false);
    forall u | 0 <= u < |c'.txs| ensures TxOk(order.lines, lists, c', u) {
      assert TxOk(order.lines, lists, c, u);
      if u != t && 0 < Behind(lists, c, u) {
        UnlockKeepsOthers(lists, c, t, u, Behind(lists, c, u), c');
      }
    }
    HistoryStays(order, lists, c, t, c');
  }

  lemma {:induction false} CommitKeepsTxs(order: SalesOrder, lists: seq<seq<Request>>, c: Sys, t: nat, c': Sys)
    requires SysInv(order, lists, c) && t < |c.txs| && c.txs[t].phase.Committing?
    requires c' == Finish(c.(lines := FulfillLines(c.lines, lists[t]), status := StatusFor(c.txs[t].complete)), t, true)
    ensures Ids(lists, c'.committed) && forall u :: 0 <= u < |c'.txs| ==> TxOk(order.lines, lists, c', u)
  {
    assert TxOk(order.lines, lists, c, t);
    AppliedNext(order.lines, lists, c.committed, t);
    forall u | 0 <= u < |c'.txs| ensures TxOk(order.lines, lists, c', u) {
      assert TxOk(order.lines, lists, c, u);
      if u != t && 0 < Behind(lists, c, u) {
        HoldsAfterCommit(lists, c, t, u, Behind(lists, c, u), c');
      }
      if u != t && (c.txs[u].phase.Writing? || c.txs[u].phase.Committing?) {
        ReadStays(order.lines, lists, c.committed, t, u, c.txs[u]);
      }
    }
  }

  lemma {:induction false} CommitKeepsHistory(order: SalesOrder, lists: seq<seq<Request>>, c: Sys, t: nat, c': Sys)
    requires SysInv(order, lists, c) && t < |c.txs| && c.txs[t].phase.Committing? && lists[t] != []
    requires c' == Finish(c.(lines := FulfillLines(c.lines, lists[t]), status := StatusFor(c.txs[t].complete)), t, true)
    ensures Ids(lists, c'.committed) && forall i :: 0 <= i < |c'.committed| ==> CommitOk(order.lines, lists, c', i)
  {
    assert TxOk(order.lines, lists, c, t);
    var n := |c.committed|;
    assert lists[t][..|lists[t]|] == lists[t];
    forall i | 0 <= i < n + 1 ensures CommitOk(order.lines, lists, c', i) {
      if i < n {
        assert CommitOk(order.lines, lists, c, i);
        assert c'.committed[..i] == c.committed[..i];
      } else {
        assert c'.committed[..n] == c.committed;
      }
    }
  }

  lemma {:induction false} CommitKeepsLines(order: SalesOrder, lists: seq<seq<Request>>, c: Sys, t: nat)
    requires SysInv(order, lists, c) && t < |c.txs| && c.txs[t].phase.Committing?
    ensures Ids(lists, c.committed + [t])
    ensures FulfillLines(c.lines, lists[t]) == Applied(order.lines, lists, c.committed + [t])
    ensures LinesOk(FulfillLines(c.lines, lists[t]))
  {
    assert TxOk(order.lines, lists, c, t);
    assert lists[t][..|lists[t]|] == lists[t];
    AppliedNext(order.lines, lists, c.committed, t);
    FulfilledLinesOk(c.lines, lists[t]);
  }

  lemma {:induction false} CommitKeeps(order: SalesOrder, lists: seq<seq<Request>>, c: Sys, t: nat)
    requires SysInv(order, lists, c) && t < |c.txs| && c.txs[t].phase.Committing? && lists[t] != []
    ensures SysInv(order, lists, Next(lists, c, Run(t)))
  {
    var c' := Next(lists, c, Run(t));
    CommitKeepsLines(order, lists, c, t);
    CommitKeepsTxs(order, lists, c, t, c');
    CommitKeepsHistory(order, lists, c, t, c');
  }

  lemma {:induction false} NextKeeps(order: SalesOrder, lists: seq<seq<Request>>, c: Sys, move: Move)
    requires NoneEmpty(lists) && SysInv(order, lists, c) && Enabled(lists, c, move)
    ensures SysInv(order, lists, Next(lists, c, move))
  {
    var t := move.t;
    var tx := c.txs[t];
    assert TxOk(order.lines, lists, c, t);
    if move.Abort? {
      PlainKeeps(order, lists, c, t, tx.(phase := Failing), c.orderLock);
    } else {
      match tx.phase
      case Idle =>
        PlainKeeps(order, lists, c, t, tx.(phase := if c.status in SO.FULFILLABLE && lists[t] != [] then Updating(0) else Failing), c.orderLock);
      case Updating(pc) =>
        if FulfillFailsAt(c.lines, lists[t], pc) {
          PlainKeeps(order, lists, c, t, tx.(phase := Failing), c.orderLock);
        } else {
          UpdateKeeps(order, lists, c, t);
        }
      case Reading =>
        assert c.committed[..|c.committed|] == c.committed;
        PlainKeeps(order, lists, c, t, Tx(Writing, AllFulfilled(FulfillLines(c.lines, lists[t])), |c.committed|), c.orderLock);
      case Writing => PlainKeeps(order, lists, c, t, tx.(phase := Committing), Some(t));
      case Committing => CommitKeeps(order, lists, c, t);
      case Failing => RollbackKeeps(order, lists, c, t);
    }
  }

  lemma {:induction false} ScheduleKeeps(order: SalesOrder, lists: seq<seq<Request>>, schedule: seq<Move>)
    requires NoneEmpty(lists) && LinesOk(order.lines) && Runs(lists, Init(order, lists), schedule)
    ensures SysInv(order, lists, Reached(lists, Init(order, lists), schedule))
  {
    if schedule != [] {
      var n := |schedule| - 1;
      ScheduleKeeps(order, lists, schedule[..n]);
      NextKeeps(order, lists, Reached(lists, Init(order, lists), schedule[..n]), schedule[n]);
    }
  }

  // ---------- Quantities ----------

  lemma {:induction false} LinesSerialize(order: SalesOrder, lists: seq<seq<Request>>, schedule: seq<Move>)
    requires NoneEmpty(lists) && LinesOk(order.lines) && Runs(lists, Init(order, lists), schedule)
    ensures var c := Reached(lists, Init(order, lists), schedule);
            && Ids(lists, c.committed)
            && c.lines == Applied(order.lines, lists, c.committed)
            && LinesOk(c.lines)
            && forall i :: 0 <= i < |c.committed| ==>
                 FulfillAccepts(Applied(order.lines, lists, c.committed[..i]), lists[c.committed[i]])
  {
    ScheduleKeeps(order, lists, schedule);
    var c := Reached(lists, Init(order, lists), schedule);
    forall i | 0 <= i < |c.committed| ensures FulfillAccepts(Applied(order.lines, lists, c.committed[..i]), lists[c.committed[i]]) {
      assert CommitOk(order.lines, lists, c, i);
    }
  }

  /**
   * The quantities are serializable: for an order of any reachable state, after any interleaving and
   * any aborts the committed lines are those of fulfilling the committed requests one list after the
   * other, each acceptable when its turn came; nothing is over-fulfilled.
   */
  lemma {:induction false} QuantitiesSerialize(origin: State, s: State, o: nat, lists: seq<seq<Request>>, schedule: seq<Move>)
    requires Inv(origin, s) && o < |s.sales| && (s.sales[o].status.Allocated? || s.sales[o].status.PartiallyFulfilled?) && NoneEmpty(lists)
    requires Runs(lists, Init(s.sales[o], lists), schedule)
    ensures var c := Reached(lists, Init(s.sales[o], lists), schedule);
            && Ids(lists, c.committed)
            && c.lines == Applied(s.sales[o].lines, lists, c.committed)
            && LinesOk(c.lines)
            && forall i :: 0 <= i < |c.committed| ==>
                 FulfillAccepts(Applied(s.sales[o].lines, lists, c.committed[..i]), lists[c.committed[i]])
  {
    HeldLinesOk(s.sales[o]);
    LinesSerialize(s.sales[o], lists, schedule);
  }

  // ---------- Status ----------

  lemma {:induction false} AppliedGrows(lines: seq<SalesLine>, lists: seq<seq<Request>>, ids: seq<nat>, m: nat, l: nat)
    requires Ids(lists, ids) && m <= |ids| && l < |lines|
    ensures var a, b := Applied(lines, lists, ids[..m]), Applied(lines, lists, ids);
            |a| == |b| == |lines| && a[l].fulfilled <= b[l].fulfilled && a[l].ordered == b[l].ordered
    decreases |ids|
  {
    if ids == [] {
      assert ids[..m] == [];
    } else {
      var n := |ids| - 1;
      if m <= n {
        AppliedGrows(lines, lists, ids[..n], m, l);
        assert ids[..n][..m] == ids[..m];
        SumNonNegative(lists[ids[n]], QtyOn(l));
      } else {
        assert ids[..m] == ids;
        AppliedGrows(lines, lists, ids[..n], n, l);
      }
    }
  }

  /** A commit that `t` did not see fulfils something on top of what `t` saw. */
  lemma {:induction false} UnseenCommitAdds(lines: seq<SalesLine>, lists: seq<seq<Request>>, ids: seq<nat>, m: nat, l: nat)
    requires Ids(lists, ids) && m < |ids| && l < |lines|
    requires lists[ids[m]] != [] && lists[ids[m]][0].line == l
    ensures var a, b := Applied(lines, lists, ids[..m]), Applied(lines, lists, ids);
            |a| == |b| == |lines| && a[l].fulfilled < b[l].fulfilled && a[l].ordered == b[l].ordered
  {
    AppliedGrows(lines, lists, ids, m + 1, l);
    AppliedGrows(lines, lists, ids[..m], 0, l);
    assert ids[..m + 1] == ids[..m] + [ids[m]];
    AppliedNext(lines, lists, ids[..m], ids[m]);
    SumAtLeastRow(lists[ids[m]], 0, QtyOn(l));
  }

  /** A read that missed a commit cannot have found the order complete. */
  lemma {:induction false} StaleReadIsIncomplete(lines: seq<SalesLine>, lists: seq<seq<Request>>, ids: seq<nat>, m: nat, t: nat)
    requires Ids(lists, ids) && m < |ids| && t < |lists|
    requires lists[ids[m]] != [] && FulfillAccepts(Applied(lines, lists, ids[..m]), lists[ids[m]])
    requires LinesOk(FulfillLines(Applied(lines, lists, ids), lists[t]))
    ensures !AllFulfilled(FulfillLines(Applied(lines, lists, ids[..m]), lists[t]))
  {
    AppliedLength(lines, lists, ids[..m]);
    var l := lists[ids[m]][0].line;
    UnseenCommitAdds(lines, lists, ids, m, l);
    var seen := FulfillLines(Applied(lines, lists, ids[..m]), lists[t]);
    var now := FulfillLines(Applied(lines, lists, ids), lists[t]);
    assert seen[l].fulfilled < now[l].fulfilled <= now[l].ordered == seen[l].ordered;
  }

  lemma {:induction false} AppliedLength(lines: seq<SalesLine>, lists: seq<seq<Request>>, ids: seq<nat>)
    requires Ids(lists, ids)
    ensures |Applied(lines, lists, ids)| == |lines|
  {
    if ids != [] {
      AppliedLength(lines, lists, ids[..|ids| - 1]);
    }
  }

  lemma {:induction false} LastCommitDecides(order: SalesOrder, lists: seq<seq<Request>>, c: Sys)
    requires NoneEmpty(lists) && SysInv(order, lists, c) && c.committed != []
    ensures var n := |c.committed| - 1;
            c.txs[c.committed[n]].complete <==> AllFulfilled(c.lines) && c.txs[c.committed[n]].seen == n
  {
    var n := |c.committed| - 1;
    var t := c.committed[n];
    var ids := c.committed[..n];
    var m := c.txs[t].seen;
    assert CommitOk(order.lines, lists, c, n);
    assert ids + [t] == c.committed;
    AppliedNext(order.lines, lists, ids, t);
    if m < n {
      assert CommitOk(order.lines, lists, c, m);
      assert ids[..m] == c.committed[..m];
      StaleReadIsIncomplete(order.lines, lists, ids, m, t);
    } else {
      assert ids[..m] == ids;
    }
  }

  /**
   * The status exactly: once something has committed, the order is marked fulfilled if and only if
   * all its lines are complete and the transaction that committed last had read them after every
   * other commit.  So the mark is never wrong when it is set, and it is missing from a complete
   * order exactly when the last read was stale.
   */
  lemma {:induction false} StatusExactly(order: SalesOrder, lists: seq<seq<Request>>, schedule: seq<Move>)
    requires NoneEmpty(lists) && LinesOk(order.lines) && Runs(lists, Init(order, lists), schedule)
    requires Reached(lists, Init(order, lists), schedule).committed != []
    ensures var c := Reached(lists, Init(order, lists), schedule);
            var n := |c.committed| - 1;
            && c.committed[n] < |c.txs|
            && (c.status.Fulfilled? <==> AllFulfilled(c.lines) && c.txs[c.committed[n]].seen == n)
            && (!c.status.Fulfilled? ==> c.status.PartiallyFulfilled?)
  {
    ScheduleKeeps(order, lists, schedule);
    var c := Reached(lists, Init(order, lists), schedule);
    assert CommitOk(order.lines, lists, c, |c.committed| - 1);
    LastCommitDecides(order, lists, c);
  }

  /** A complete order accepts no further request, so one with a stale mark never gets the right one. */
  lemma {:induction false} CompleteAcceptsNothing(lines: seq<SalesLine>, requests: seq<Request>)
    requires LinesOk(lines) && AllFulfilled(lines) && requests != []
    ensures !FulfillAccepts(lines, requests)
  {
    if FulfillAccepts(lines, requests) {
      var l := requests[0].line;
      AcceptedFits(lines, requests, l);
      SumAtLeastRow(requests, 0, QtyOn(l));
      assert false;
    }
  }

  // ---------- An input that fails ----------

  /** Two lines of one unit each, both reserved. */
  function TwoLines(): SalesOrder {
    SalesOrder(SO.Allocated, 0, [SalesLine(0, 1, 1, 0), SalesLine(1, 1, 1, 0)])
  }

  /** Two transactions, each for one of the lines. */
  function OneEach(): seq<seq<Request>> {
    [[Request(0, 1)], [Request(1, 1)]]
  }

  /** Both update their line and read the lines before either commits. */
  function BothReadFirst(): seq<Move> {
    [Run(0), Run(0), Run(1), Run(1), Run(0), Run(1), Run(0), Run(0), Run(1), Run(1)]
  }

  /** Transaction `t` may take the step, and it leads from `a` to `b`. */
  ghost predicate Leads(a: Sys, t: nat, b: Sys) {
    Enabled(OneEach(), a, Run(t)) && Next(OneEach(), a, Run(t)) == b
  }

  /** A chain of steps is a schedule. */
  lemma {:induction false} Follow(states: seq<Sys>, moves: seq<Move>)
    requires |states| == |moves| + 1
    requires forall i :: 0 <= i < |moves| ==> moves[i].Run? && Leads(states[i], moves[i].t, states[i + 1])
    ensures Runs(OneEach(), states[0], moves)
    ensures Reached(OneEach(), states[0], moves) == states[|moves|]
  {
    if moves != [] {
      var n := |moves| - 1;
      Follow(states[..n + 1], moves[..n]);
      assert Leads(states[n], moves[n].t, states[n + 1]);
    }
  }

  /** The system after both have updated their line, with what each has read. */
  ghost function BothUpdated(first: Tx, second: Tx): Sys {
    Sys(TwoLines().lines, SO.Allocated, map[0 := 0, 1 := 1], None, [first, second], [])
  }

  /** The system after the first has committed what it found incomplete. */
  ghost function FirstCommitted(second: Tx, orderLock: Maybe<nat>): Sys {
    Sys([SalesLine(0, 1, 0, 1), SalesLine(1, 1, 1, 0)], SO.PartiallyFulfilled, map[1 := 1], orderLock,
        [Tx(Done(true), false, 0), second], [0])
  }

  ghost function BothCommitted(): Sys {
    Sys([SalesLine(0, 1, 0, 1), SalesLine(1, 1, 0, 1)], SO.PartiallyFulfilled, map[], None,
        [Tx(Done(true), false, 0), Tx(Done(true), false, 0)], [0, 1])
  }

  lemma {:induction false} OneUnit(t: nat)
    requires t < 2
    ensures var list := OneEach()[t];
            && list[..1] == list
            && !FulfillFailsAt(TwoLines().lines, list, 0)
            && FulfillLines(TwoLines().lines, list) == TwoLines().lines[t := SalesLine(t, 1, 0, 1)]
            && !AllFulfilled(FulfillLines(TwoLines().lines, list))
  {
    var list := OneEach()[t];
    assert list[..1] == list;
    SumSingle(list, 0, QtyOn(t));
    SumZero(list, QtyOn(1 - t));
    assert FulfillLines(TwoLines().lines, list)[1 - t].fulfilled == 0;
  }

  lemma {:induction false} BothBegin()
    ensures var idle, updating, reading := Tx(Idle, false, 0), Tx(Updating(0), false, 0), Tx(Reading, false, 0);
            var s := Init(TwoLines(), OneEach());
            var s1, s2, s3 := s.(txs := [updating, idle]), s.(txs := [reading, idle], lineLocks := map[0 := 0]),
                              s.(txs := [reading, updating], lineLocks := map[0 := 0]);
            && Leads(s, 0, s1) && Leads(s1, 0, s2) && Leads(s2, 1, s3) && Leads(s3, 1, BothUpdated(reading, reading))
  {
    OneUnit(0);
    OneUnit(1);
    assert Init(TwoLines(), OneEach()).txs == [Tx(Idle, false, 0), Tx(Idle, false, 0)];
    assert map[0 := 0][1 := 1] == map[0 := 0, 1 := 1];
  }

  lemma {:induction false} BothReadAndOneCommits()
    ensures var reading, writing, committing := Tx(Reading, false, 0), Tx(Writing, false, 0), Tx(Committing, false, 0);
            var s4, s5, s6 := BothUpdated(reading, reading), BothUpdated(writing, reading), BothUpdated(writing, writing);
            var s7 := BothUpdated(committing, writing).(orderLock := Some(0));
            && Leads(s4, 0, s5) && Leads(s5, 1, s6) && Leads(s6, 0, s7) && Leads(s7, 0, FirstCommitted(writing, None))
  {
    OneUnit(0);
    OneUnit(1);
    assert Unlock(map[0 := 0, 1 := 1], 0) == map[1 := 1];
  }

  lemma {:induction false} OtherCommits()
    ensures var writing, committing := Tx(Writing, false, 0), Tx(Committing, false, 0);
            && Leads(FirstCommitted(writing, None), 1, FirstCommitted(committing, Some(1)))
            && Leads(FirstCommitted(committing, Some(1)), 1, BothCommitted())
  {
    var list := OneEach()[1];
    SumSingle(list, 0, QtyOn(1));
    SumZero(list, QtyOn(0));
    var lines := [SalesLine(0, 1, 0, 1), SalesLine(1, 1, 1, 0)];
    assert FulfillLines(lines, list) == BothCommitted().lines;
    assert Unlock(map[1 := 1], 1) == map[];
  }

  ghost function Overlap(): seq<Sys> {
    var idle, updating, reading := Tx(Idle, false, 0), Tx(Updating(0), false, 0), Tx(Reading, false, 0);
    var writing, committing := Tx(Writing, false, 0), Tx(Committing, false, 0);
    var s := Init(TwoLines(), OneEach());
    [s, s.(txs := [updating, idle]), s.(txs := [reading, idle], lineLocks := map[0 := 0]),
     s.(txs := [reading, updating], lineLocks := map[0 := 0]), BothUpdated(reading, reading),
     BothUpdated(writing, reading), BothUpdated(writing, writing), BothUpdated(committing, writing).(orderLock := Some(0)),
     FirstCommitted(writing, None), FirstCommitted(committing, Some(1)), BothCommitted()]
  }

  lemma {:induction false} OverlapLeads(i: nat)
    requires i < |BothReadFirst()|
    ensures Leads(Overlap()[i], BothReadFirst()[i].t, Overlap()[i + 1])
  {
    if i < 4 {
      BothBegin();
    } else if i < 8 {
      BothReadAndOneCommits();
    } else {
      OtherCommits();
    }
  }

  /**
   * Two fulfilments of different lines that overlap: both commit, every line of the order is
   * complete, nothing is left to run - and the order stays marked partially fulfilled.
   */
  lemma {:induction false} OverlapLosesTheMark()
    ensures Runs(OneEach(), Init(TwoLines(), OneEach()), BothReadFirst())
    ensures var c := Reached(OneEach(), Init(TwoLines(), OneEach()), BothReadFirst());
            && AllFulfilled(c.lines)
            && c.status.PartiallyFulfilled?
            && forall move :: !Enabled(OneEach(), c, move)
  {
    forall i | 0 <= i < |BothReadFirst()| ensures Leads(Overlap()[i], BothReadFirst()[i].t, Overlap()[i + 1]) {
      OverlapLeads(i);
    }
    OverlapEnds();
    Follow(Overlap(), BothReadFirst());
  }

  lemma {:induction false} OverlapEnds()
    ensures |Overlap()| == |BothReadFirst()| + 1 && Overlap()[0] == Init(TwoLines(), OneEach())
    ensures var c := Overlap()[|BothReadFirst()|];
            && AllFulfilled(c.lines)
            && c.status.PartiallyFulfilled?
            && forall move :: !Enabled(OneEach(), c, move)
    ensures forall i :: 0 <= i < |BothReadFirst()| ==> BothReadFirst()[i].Run?
  {
  }
}
