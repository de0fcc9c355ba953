/**
 * Concurrent receipts of one purchase order, statement by statement: a snapshot without locks, a
 * guard on the snapshot, increments of live line rows, a read of all lines, a write of the status.
 */
module ConcurrentReceiving {
  import opened Wrappers
  import opened Sums
  import opened Tables
  import opened Protocol
  import opened Invariants
  import opened Overlaps
  import PO = PurchaseOrderLifecycle

  /** The committed order, the row locks with their holders, all transactions, and the committed ones in order. */
  datatype Sys = Sys(
    lines: seq<PurchaseLine>,
    status: PO.Status,
    lineLocks: map<nat, nat>,
    orderLock: Maybe<nat>,
    txs: seq<Tx>,
    committed: seq<nat>)

  function Init(po: PurchaseOrder, lists: seq<seq<Request>>): Sys {
    Sys(po.lines, po.status, map[], None, seq(|lists|, i => Tx(Idle, false, 0)), [])
  }

  predicate Enabled(lists: seq<seq<Request>>, c: Sys, move: Move) {
    var t := move.t;
    && t < |c.txs| && t < |lists|
    && match c.txs[t].phase
       case Done(_) => false
       case Updating(pc) =>
         pc < |lists[t]| && (move.Run? && lists[t][pc].line in c.lineLocks ==> c.lineLocks[lists[t][pc].line] == t)
       case Writing => move.Run? && c.orderLock.Some? ==> c.orderLock.value == t
       case _ => true
  }

  function Finish(c: Sys, t: nat, ok: bool): Sys
    requires t < |c.txs|
  {
    c.(txs := c.txs[t := c.txs[t].(phase := Done(ok))],
       lineLocks := Unlock(c.lineLocks, t),
       orderLock := if c.orderLock == Some(t) then None else c.orderLock,
       committed := if ok then c.committed + [t] else c.committed)
  }

  function StatusFor(complete: bool): PO.Status {
    if complete then PO.Received else PO.PartiallyReceived
  }

  /**
   * One statement.  The first reads the order and checks every request against what it read; the
   * increments that follow are unconditional.
   */
  ghost function Next(lists: seq<seq<Request>>, c: Sys, move: Move): Sys
    requires Enabled(lists, c, move)
  {
    var t := move.t;
    var tx := c.txs[t];
    if move.Abort? then c.(txs := c.txs[t := tx.(phase := Failing)])
    else
      match tx.phase
      case Idle =>
        var accepted := c.status in PO.RECEIVABLE && lists[t] != [] && ReceiveAccepts(c.lines, lists[t]);
        c.(txs := c.txs[t := tx.(phase := if accepted then Updating(0) else Failing)])
      case Updating(pc) =>
        c.(txs := c.txs[t := tx.(phase := if pc + 1 < |lists[t]| then Updating(pc + 1) else Reading)],
           lineLocks := c.lineLocks[lists[t][pc].line := t])
      case Reading =>
        c.(txs := c.txs[t := Tx(Writing, AllReceived(ReceiveLines(c.lines, lists[t])), |c.committed|)])
      case Writing => c.(txs := c.txs[t := tx.(phase := Committing)], orderLock := Some(t))
      case Committing =>
        Finish(c.(lines := ReceiveLines(c.lines, lists[t]), status := StatusFor(tx.complete)), t, true)
      case Failing => Finish(c, t, false)
      case Done(_) => c
  }

  ghost predicate Runs(lists: seq<seq<Request>>, c: Sys, schedule: seq<Move>) {
    schedule == []
    || (var n := |schedule| - 1;
        Runs(lists, c, schedule[..n]) && Enabled(lists, Reached(lists, c, schedule[..n]), schedule[n]))
  }

  ghost function Reached(lists: seq<seq<Request>>, c: Sys, schedule: seq<Move>): Sys {
    if schedule == [] then c
    else
      var n := |schedule| - 1;
      var before := Reached(lists, c, schedule[..n]);
      if Enabled(lists, before, schedule[n]) then Next(lists, before, schedule[n]) else before
  }

  // ---------- What has been received ----------

  /** The lines after the requests of `ids`, one transaction after the other. */
  ghost function Applied(lines: seq<PurchaseLine>, lists: seq<seq<Request>>, ids: seq<nat>): seq<PurchaseLine>
    requires Ids(lists, ids)
  {
    if ids == [] then lines
    else
      var n := |ids| - 1;
      ReceiveLines(Applied(lines, lists, ids[..n]), lists[ids[n]])
  }

  lemma {:induction false} AppliedNext(lines: seq<PurchaseLine>, lists: seq<seq<Request>>, ids: seq<nat>, t: nat)
    requires Ids(lists, ids) && t < |lists|
    ensures Ids(lists, ids + [t])
    ensures Applied(lines, lists, ids + [t]) == ReceiveLines(Applied(lines, lists, ids), lists[t])
  {
    assert (ids + [t])[..|ids|] == ids;
  }

  lemma {:induction false} AppliedLength(lines: seq<PurchaseLine>, lists: seq<seq<Request>>, ids: seq<nat>)
    requires Ids(lists, ids)
    ensures |Applied(lines, lists, ids)| == |lines|
  {
    if ids != [] {
      AppliedLength(lines, lists, ids[..|ids| - 1]);
    }
  }

  lemma {:induction false} AppliedSum(lines: seq<PurchaseLine>, lists: seq<seq<Request>>, ids: seq<nat>, l: nat)
    requires Ids(lists, ids) && l < |lines|
    ensures |Applied(lines, lists, ids)| == |lines|
    ensures Applied(lines, lists, ids)[l] == lines[l].(received := lines[l].received + Sum(ids, AskOf(lists, l)))
  {
    if ids != [] {
      AppliedSum(lines, lists, ids[..|ids| - 1], l);
    }
  }

  /** Together the lists `ids` bring at least what is missing. */
  ghost predicate Complete(lines: seq<PurchaseLine>, lists: seq<seq<Request>>, ids: seq<nat>) {
    forall l :: 0 <= l < |lines| ==> lines[l].ordered - lines[l].received <= Sum(ids, AskOf(lists, l))
  }

  lemma {:induction false} CompleteIsAllReceived(lines: seq<PurchaseLine>, lists: seq<seq<Request>>, ids: seq<nat>)
    requires Ids(lists, ids)
    ensures AllReceived(Applied(lines, lists, ids)) <==> Complete(lines, lists, ids)
  {
    AppliedLength(lines, lists, ids);
    forall l | 0 <= l < |lines|
      ensures Applied(lines, lists, ids)[l].ordered <= Applied(lines, lists, ids)[l].received
              <==> lines[l].ordered - lines[l].received <= Sum(ids, AskOf(lists, l))
    {
      AppliedSum(lines, lists, ids, l);
    }
  }

  /** What a later snapshot accepts, the first one accepted. */
  lemma {:induction false} AcceptedFromTheStart(lines: seq<PurchaseLine>, lists: seq<seq<Request>>, ids: seq<nat>, requests: seq<Request>)
    requires Ids(lists, ids) && ReceiveAccepts(Applied(lines, lists, ids), requests)
    ensures ReceiveAccepts(lines, requests)
  {
    AppliedLength(lines, lists, ids);
    forall i | 0 <= i < |requests| ensures requests[i].line < |lines| && !ReceiveFailsAt(lines, requests, i) {
      assert !ReceiveFailsAt(Applied(lines, lists, ids), requests, i);
      AppliedSum(lines, lists, ids, requests[i].line);
      AsksNonNegative(lists, ids, requests[i].line);
    }
  }

  // ---------- The invariant ----------

  /** The read of `t` told whether its own requests, on top of those committed by then, complete the order. */
  ghost predicate ReadOk(lines: seq<PurchaseLine>, lists: seq<seq<Request>>, committed: seq<nat>, t: nat, tx: Tx)
    requires Ids(lists, committed) && t < |lists|
  {
    && tx.seen <= |committed|
    && (tx.complete <==> AllReceived(ReceiveLines(Applied(lines, lists, committed[..tx.seen]), lists[t])))
  }

  /** How many of its increments a transaction has behind it. */
  function Behind(requests: seq<Request>, tx: Tx): nat {
    match tx.phase
    case Updating(pc) => if pc <= |requests| then pc else 0
    case Reading => |requests|
    case Writing => |requests|
    case Committing => |requests|
    case _ => 0
  }

  /** An active transaction was accepted by the first snapshot, holds its lines, and remembers what it read. */
  ghost predicate TxOk(po: PurchaseOrder, lists: seq<seq<Request>>, c: Sys, t: nat, tx: Tx)
    requires t < |lists| && Ids(lists, c.committed)
  {
    && (tx.phase.Updating? ==> tx.phase.pc < |lists[t]|)
    && (tx.phase.Updating? || tx.phase.Reading? || tx.phase.Writing? || tx.phase.Committing? ==> ReceiveAccepts(po.lines, lists[t]))
    && Locked(lists, c.lineLocks, t, Behind(lists[t], tx))
    && (tx.phase.Writing? || tx.phase.Committing? ==> ReadOk(po.lines, lists, c.committed, t, tx))
  }

  ghost predicate CommitOk(po: PurchaseOrder, lists: seq<seq<Request>>, c: Sys, i: nat)
    requires i < |c.committed| && Ids(lists, c.committed)
  {
    var t := c.committed[i];
    && t < |c.txs|
    && ReceiveAccepts(po.lines, lists[t])
    && ReadOk(po.lines, lists, c.committed[..i], t, c.txs[t])
    && c.txs[t].phase == Done(true)
  }

  ghost predicate SysInv(po: PurchaseOrder, lists: seq<seq<Request>>, c: Sys) {
    && |c.txs| == |lists|
    && Ids(lists, c.committed)
    && c.lines == Applied(po.lines, lists, c.committed)
    && (forall t :: 0 <= t < |c.txs| ==> TxOk(po, lists, c, t, c.txs[t]))
    && (forall i :: 0 <= i < |c.committed| ==> CommitOk(po, lists, c, i))
    && ReadsApart(lists, c.txs, c.committed)
    && c.status == if c.committed == [] then po.status else StatusFor(c.txs[c.committed[|c.committed| - 1]].complete)
  }

  // ---------- Every statement keeps it ----------

  lemma {:induction false} ReadStays(lines: seq<PurchaseLine>, lists: seq<seq<Request>>, committed: seq<nat>, more: nat, t: nat, tx: Tx)
    requires Ids(lists, committed) && t < |lists| && more < |lists| && ReadOk(lines, lists, committed, t, tx)
    ensures Ids(lists, committed + [more]) && ReadOk(lines, lists, committed + [more], t, tx)
  {
    assert (committed + [more])[..tx.seen] == committed[..tx.seen];
  }

  /** A step of `t` that commits nothing, and leaves the others their locks, keeps the invariant if `t` is all right. */
  lemma {:induction false} PlainKeeps(po: PurchaseOrder, lists: seq<seq<Request>>, c: Sys, t: nat, c': Sys)
    requires SysInv(po, lists, c) && t < |c.txs| && !c.txs[t].phase.Done?
    requires |c'.txs| == |c.txs| && c' == c.(txs := c.txs[t := c'.txs[t]], lineLocks := c'.lineLocks, orderLock := c'.orderLock)
    requires TxOk(po, lists, c', t, c'.txs[t])
    requires forall l :: l in c.lineLocks && c.lineLocks[l] != t ==> l in c'.lineLocks && c'.lineLocks[l] == c.lineLocks[l]
    requires c'.txs[t].phase.Writing? || c'.txs[t].phase.Committing? ==>
               c'.txs[t].seen == |c.committed| || (c'.txs[t].seen == c.txs[t].seen && (c.txs[t].phase.Writing? || c.txs[t].phase.Committing?))
    ensures SysInv(po, lists, c')
  {
    forall u | 0 <= u < |c'.txs| ensures TxOk(po, lists, c', u, c'.txs[u]) {
      assert u != t ==> TxOk(po, lists, c, u, c.txs[u]);
    }
    forall i | 0 <= i < |c.committed| ensures CommitOk(po, lists, c', i) && c.committed[i] != t {
      assert CommitOk(po, lists, c, i);
    }
    PlainKeepsApart(lists, c.txs, c.committed, t, c'.txs[t]);
  }

  lemma {:induction false} BeginOk(po: PurchaseOrder, lists: seq<seq<Request>>, c: Sys, t: nat)
    requires SysInv(po, lists, c) && t < |c.txs| && c.txs[t].phase.Idle? && Enabled(lists, c, Run(t))
    ensures var c' := Next(lists, c, Run(t));
            TxOk(po, lists, c', t, c'.txs[t])
  {
    if ReceiveAccepts(c.lines, lists[t]) {
      AcceptedFromTheStart(po.lines, lists, c.committed, lists[t]);
    }
  }

  lemma {:induction false} CommitKeepsTxs(po: PurchaseOrder, lists: seq<seq<Request>>, c: Sys, t: nat, c': Sys)
    requires SysInv(po, lists, c) && t < |c.txs| && c.txs[t].phase.Committing?
    requires c' == Finish(c.(lines := ReceiveLines(c.lines, lists[t]), status := StatusFor(c.txs[t].complete)), t, true)
    ensures Ids(lists, c'.committed) && forall u :: 0 <= u < |c'.txs| ==> TxOk(po, lists, c', u, c'.txs[u])
  {
    AppliedNext(po.lines, lists, c.committed, t);
    forall u | 0 <= u < |c'.txs| ensures TxOk(po, lists, c', u, c'.txs[u]) {
      assert TxOk(po, lists, c, u, c.txs[u]);
      if u != t && (c.txs[u].phase.Writing? || c.txs[u].phase.Committing?) {
        ReadStays(po.lines, lists, c.committed, t, u, c.txs[u]);
      }
    }
  }

  lemma {:induction false} CommitKeepsHistory(po: PurchaseOrder, lists: seq<seq<Request>>, c: Sys, t: nat, c': Sys)
    requires SysInv(po, lists, c) && t < |c.txs| && c.txs[t].phase.Committing?
    requires c' == Finish(c.(lines := ReceiveLines(c.lines, lists[t]), status := StatusFor(c.txs[t].complete)), t, true)
    ensures Ids(lists, c'.committed) && forall i :: 0 <= i < |c'.committed| ==> CommitOk(po, lists, c', i)
  {
    assert TxOk(po, lists, c, t, c.txs[t]);
    var n := |c.committed|;
    forall i | 0 <= i < n + 1 ensures CommitOk(po, lists, c', i) {
      if i < n {
        assert CommitOk(po, lists, c, i);
        assert c'.committed[..i] == c.committed[..i];
      } else {
        assert c'.committed[..n] == c.committed;
      }
    }
  }

  lemma {:induction false} CommitKeeps(po: PurchaseOrder, lists: seq<seq<Request>>, c: Sys, t: nat)
    requires SysInv(po, lists, c) && t < |c.txs| && c.txs[t].phase.Committing?
    ensures SysInv(po, lists, Next(lists, c, Run(t)))
  {
    var c' := Next(lists, c, Run(t));
    AppliedNext(po.lines, lists, c.committed, t);
    CommitKeepsTxs(po, lists, c, t, c');
    CommitKeepsHistory(po, lists, c, t, c');
    AllLocked(po, lists, c);
    CommitKeepsApart(lists, c.txs, c.committed, t, c'.txs[t], c.lineLocks);
  }

  lemma {:induction false} AllLocked(po: PurchaseOrder, lists: seq<seq<Request>>, c: Sys)
    requires SysInv(po, lists, c)
    ensures forall u :: 0 <= u < |c.txs| && (c.txs[u].phase.Writing? || c.txs[u].phase.Committing?) ==>
              Locked(lists, c.lineLocks, u, |lists[u]|)
  {
    forall u | 0 <= u < |c.txs| && (c.txs[u].phase.Writing? || c.txs[u].phase.Committing?)
      ensures Locked(lists, c.lineLocks, u, |lists[u]|)
    {
      assert TxOk(po, lists, c, u, c.txs[u]);
    }
  }

  lemma {:induction false} NextKeeps(po: PurchaseOrder, lists: seq<seq<Request>>, c: Sys, move: Move)
    requires SysInv(po, lists, c) && Enabled(lists, c, move)
    ensures SysInv(po, lists, Next(lists, c, move))
  {
    var t := move.t;
    if move.Run? && c.txs[t].phase.Committing? {
      CommitKeeps(po, lists, c, t);
    } else {
      PlainStepOk(po, lists, c, move);
      PlainKeeps(po, lists, c, t, Next(lists, c, move));
    }
  }

  /** A step that is not a commit moves only its own transaction and leaves it all right. */
  lemma {:induction false} PlainStepOk(po: PurchaseOrder, lists: seq<seq<Request>>, c: Sys, move: Move)
    requires SysInv(po, lists, c) && Enabled(lists, c, move) && !(move.Run? && c.txs[move.t].phase.Committing?)
    ensures var t := move.t;
            var c' := Next(lists, c, move);
            && |c'.txs| == |c.txs|
            && c' == c.(txs := c.txs[t := c'.txs[t]], lineLocks := c'.lineLocks, orderLock := c'.orderLock)
            && TxOk(po, lists, c', t, c'.txs[t])
            && (forall l :: l in c.lineLocks && c.lineLocks[l] != t ==> l in c'.lineLocks && c'.lineLocks[l] == c.lineLocks[l])
  {
    assert TxOk(po, lists, c, move.t, c.txs[move.t]);
    if move.Run? && c.txs[move.t].phase.Idle? {
      BeginOk(po, lists, c, move.t);
    }
    assert c.committed[..|c.committed|] == c.committed;
  }

  lemma {:induction false} ScheduleKeeps(po: PurchaseOrder, lists: seq<seq<Request>>, schedule: seq<Move>)
    requires Runs(lists, Init(po, lists), schedule)
    ensures SysInv(po, lists, Reached(lists, Init(po, lists), schedule))
  {
    if schedule != [] {
      var n := |schedule| - 1;
      ScheduleKeeps(po, lists, schedule[..n]);
      NextKeeps(po, lists, Reached(lists, Init(po, lists), schedule[..n]), schedule[n]);
    }
  }

  // ---------- Which lists can commit together ----------

  /** Each of the lists `ids` passes the guard on the lines as they are. */
  ghost predicate Acceptable(lines: seq<PurchaseLine>, lists: seq<seq<Request>>, ids: seq<nat>) {
    && Ids(lists, ids)
    && Distinct(ids)
    && forall i :: 0 <= i < |ids| ==> ReceiveAccepts(lines, lists[ids[i]])
  }

  /** What has committed was acceptable from the start, list by list. */
  lemma {:induction false} CommittedAcceptable(po: PurchaseOrder, lists: seq<seq<Request>>, c: Sys)
    requires SysInv(po, lists, c)
    ensures Acceptable(po.lines, lists, c.committed)
  {
    forall i | 0 <= i < |c.committed| ensures ReceiveAccepts(po.lines, lists[c.committed[i]]) {
      assert CommitOk(po, lists, c, i);
    }
  }

  /**
   * Quantities add up: after any interleaving and any aborts the committed lines are those of
   * receiving the committed lists one after the other - each of which passed the guard on the first
   * snapshot, but not necessarily when its turn came.
   */
  lemma {:induction false} QuantitiesAddUp(po: PurchaseOrder, lists: seq<seq<Request>>, schedule: seq<Move>)
    requires Runs(lists, Init(po, lists), schedule)
    ensures var c := Reached(lists, Init(po, lists), schedule);
            && Acceptable(po.lines, lists, c.committed)
            && c.lines == Applied(po.lines, lists, c.committed)
  {
    ScheduleKeeps(po, lists, schedule);
    CommittedAcceptable(po, lists, Reached(lists, Init(po, lists), schedule));
  }

  // ---------- Inputs that fail ----------

  /** Transaction `t` may take the step, and it leads from `a` to `b`. */
  ghost predicate Leads(lists: seq<seq<Request>>, a: Sys, t: nat, b: Sys) {
    Enabled(lists, a, Run(t)) && Next(lists, a, Run(t)) == b
  }

  /** A chain of steps is a schedule. */
  lemma {:induction false} Follow(lists: seq<seq<Request>>, states: seq<Sys>, moves: seq<Move>)
    requires |states| == |moves| + 1
    requires forall i :: 0 <= i < |moves| ==> moves[i].Run? && Leads(lists, states[i], moves[i].t, states[i + 1])
    ensures Runs(lists, states[0], moves)
    ensures Reached(lists, states[0], moves) == states[|moves|]
  {
    if moves != [] {
      var n := |moves| - 1;
      Follow(lists, states[..n + 1], moves[..n]);
      assert Leads(lists, states[n], moves[n].t, states[n + 1]);
    }
  }

  function TenOrdered(): PurchaseOrder {
    PurchaseOrder(PO.Shipped, 0, [PurchaseLine(0, 10, 0)])
  }

  function SixTwice(): seq<seq<Request>> {
    [[Request(0, 6)], [Request(0, 6)]]
  }

  /** Both read the order before either writes; then one runs to its end, then the other. */
  function BothBeginFirst(): seq<Move> {
    [Run(0), Run(1), Run(0), Run(0), Run(0), Run(0), Run(1), Run(1), Run(1), Run(1)]
  }

  ghost function SixAndSix(): seq<Sys> {
    var idle, updating, reading := Tx(Idle, false, 0), Tx(Updating(0), false, 0), Tx(Reading, false, 0);
    var s := Init(TenOrdered(), SixTwice());
    var half := Sys([PurchaseLine(0, 10, 6)], PO.PartiallyReceived, map[], None, [Tx(Done(true), false, 0), updating], [0]);
    [s,
     s.(txs := [updating, idle]),
     s.(txs := [updating, updating]),
     s.(txs := [reading, updating], lineLocks := map[0 := 0]),
     s.(txs := [Tx(Writing, false, 0), updating], lineLocks := map[0 := 0]),
     s.(txs := [Tx(Committing, false, 0), updating], lineLocks := map[0 := 0], orderLock := Some(0)),
     half,
     half.(txs := [Tx(Done(true), false, 0), reading], lineLocks := map[0 := 1]),
     half.(txs := [Tx(Done(true), false, 0), Tx(Writing, true, 1)], lineLocks := map[0 := 1]),
     half.(txs := [Tx(Done(true), false, 0), Tx(Committing, true, 1)], lineLocks := map[0 := 1], orderLock := Some(1)),
     Sys([PurchaseLine(0, 10, 12)], PO.Received, map[], None, [Tx(Done(true), false, 0), Tx(Done(true), true, 1)], [0, 1])]
  }

  lemma {:induction false} SixMore(received: int)
    ensures var lines := [PurchaseLine(0, 10, received)];
            ReceiveLines(lines, [Request(0, 6)]) == [PurchaseLine(0, 10, received + 6)]
    ensures AllReceived([PurchaseLine(0, 10, received + 6)]) <==> 4 <= received
    ensures ReceiveAccepts([PurchaseLine(0, 10, 0)], [Request(0, 6)])
  {
    var list := [Request(0, 6)];
    SumSingle(list, 0, QtyOn(0));
    assert !ReceiveFailsAt([PurchaseLine(0, 10, 0)], list, 0);
    assert [PurchaseLine(0, 10, received + 6)][0].ordered == 10;
  }

  lemma {:induction false} FirstSixLeads(i: nat)
    requires i < 6
    ensures Leads(SixTwice(), SixAndSix()[i], BothBeginFirst()[i].t, SixAndSix()[i + 1])
  {
    SixMore(0);
    assert SixTwice()[0] == [Request(0, 6)] && SixTwice()[1] == [Request(0, 6)];
    assert Init(TenOrdered(), SixTwice()).txs == [Tx(Idle, false, 0), Tx(Idle, false, 0)];
    assert Unlock(map[0 := 0], 0) == map[];
  }

  lemma {:induction false} SecondSixLeads(i: nat)
    requires 6 <= i < 10
    ensures Leads(SixTwice(), SixAndSix()[i], BothBeginFirst()[i].t, SixAndSix()[i + 1])
  {
    SixMore(6);
    assert SixTwice()[1] == [Request(0, 6)];
    assert Unlock(map[0 := 1], 1) == map[];
  }

  /**
   * Two receipts of six of ten ordered, each naming its line once, that overlap: both pass the guard
   * on their snapshot, both commit, and twelve are received.
   */
  lemma {:induction false} OverlapExceeds()
    ensures Runs(SixTwice(), Init(TenOrdered(), SixTwice()), BothBeginFirst())
    ensures Reached(SixTwice(), Init(TenOrdered(), SixTwice()), BothBeginFirst()).lines == [PurchaseLine(0, 10, 12)]
  {
    forall i | 0 <= i < |BothBeginFirst()| ensures Leads(SixTwice(), SixAndSix()[i], BothBeginFirst()[i].t, SixAndSix()[i + 1]) {
      if i < 6 {
        FirstSixLeads(i);
      } else {
        SecondSixLeads(i);
      }
    }
    Follow(SixTwice(), SixAndSix(), BothBeginFirst());
  }
}
