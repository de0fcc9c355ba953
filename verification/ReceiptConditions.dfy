/**
 * For which requests overlapping receipts of one purchase order always stay within what was ordered,
 * and always leave the right mark: conditions on the request lists alone.
 */
module ReceiptConditions {
  import opened Wrappers
  import opened Sums
  import opened Tables
  import opened Protocol
  import opened Invariants
  import opened SideConditions
  import opened Overlaps
  import opened ConcurrentReceiving
  import PO = PurchaseOrderLifecycle

  // ---------- Splitting a selection ----------

  /** The lists of `ids` other than `b` that have a line in common with it. */
  function Beside(lists: seq<seq<Request>>, ids: seq<nat>, b: nat): seq<nat> {
    if ids == [] then []
    else
      var t := ids[|ids| - 1];
      var rest := Beside(lists, ids[..|ids| - 1], b);
      if t != b && t < |lists| && b < |lists| && Meet(lists[t], lists[b]) then rest + [t] else rest
  }

  /** The lists of `ids` other than `b` that have no line in common with it. */
  function Apart(lists: seq<seq<Request>>, ids: seq<nat>, b: nat): seq<nat> {
    if ids == [] then []
    else
      var t := ids[|ids| - 1];
      var rest := Apart(lists, ids[..|ids| - 1], b);
      if t != b && !(t < |lists| && b < |lists| && Meet(lists[t], lists[b])) then rest + [t] else rest
  }

  lemma {:induction false} LastIn(ids: seq<nat>, b: nat)
    requires ids != [] && Distinct(ids)
    ensures var n := |ids| - 1;
            && Distinct(ids[..n])
            && (b in ids <==> b in ids[..n] || ids[n] == b)
            && ids[n] !in ids[..n]
  {
    assert ids == ids[..|ids| - 1] + [ids[|ids| - 1]];
  }

  lemma {:induction false} SplitSum(lists: seq<seq<Request>>, ids: seq<nat>, b: nat, f: nat -> int)
    requires Distinct(ids)
    ensures Sum(ids, f) == Sum(Beside(lists, ids, b), f) + Sum(Apart(lists, ids, b), f) + if b in ids then f(b) else 0
  {
    if ids != [] {
      var n := |ids| - 1;
      var t := ids[n];
      SplitSum(lists, ids[..n], b, f);
      LastIn(ids, b);
      if t != b {
        if t < |lists| && b < |lists| && Meet(lists[t], lists[b]) {
          SumAppend<nat>(Beside(lists, ids[..n], b), t, f);
        } else {
          SumAppend<nat>(Apart(lists, ids[..n], b), t, f);
        }
      }
    }
  }

  lemma {:induction false} OneMoreDistinct(ids: seq<nat>, t: nat)
    requires Distinct(ids) && t !in ids
    ensures Distinct(ids + [t])
  {
  }

  lemma {:induction false} SplitIds(lists: seq<seq<Request>>, ids: seq<nat>, b: nat)
    requires Distinct(ids)
    ensures forall t :: t in Beside(lists, ids, b) ==> t in ids && t != b && t < |lists| && b < |lists| && Meet(lists[t], lists[b])
    ensures forall t :: t in Apart(lists, ids, b) ==> t in ids && t != b && (t < |lists| && b < |lists| ==> !Meet(lists[t], lists[b]))
    ensures Distinct(Beside(lists, ids, b)) && Distinct(Apart(lists, ids, b))
  {
    if ids != [] {
      var n := |ids| - 1;
      LastIn(ids, b);
      SplitIds(lists, ids[..n], b);
      forall t | t in ids[..n] ensures t in ids {
      }
      OneMoreDistinct(Beside(lists, ids[..n], b), ids[n]);
      OneMoreDistinct(Apart(lists, ids[..n], b), ids[n]);
    }
  }

  /** The lists beside `b` do not come from a stretch of lists that are all apart from it. */
  lemma {:induction false} BesideEarlier(lists: seq<seq<Request>>, ids: seq<nat>, b: nat, m: nat, f: nat -> int)
    requires m <= |ids| && forall i :: m <= i < |ids| ==> ids[i] == b || !(ids[i] < |lists| && b < |lists| && Meet(lists[ids[i]], lists[b]))
    ensures Beside(lists, ids, b) == Beside(lists, ids[..m], b)
  {
    if m < |ids| {
      var n := |ids| - 1;
      BesideEarlier(lists, ids[..n], b, m, f);
      assert ids[..n][..m] == ids[..m];
    } else {
      assert ids[..m] == ids;
    }
  }

  lemma {:induction false} BesideAsksLess(lists: seq<seq<Request>>, ids: seq<nat>, b: nat, l: nat)
    ensures Sum(Beside(lists, ids, b), AskOf(lists, l)) <= Sum(ids, AskOf(lists, l))
  {
    if ids != [] {
      var n := |ids| - 1;
      BesideAsksLess(lists, ids[..n], b, l);
      SumAppend(Beside(lists, ids[..n], b), ids[n], AskOf(lists, l));
      AsksNonNegative(lists, [ids[n]], l);
      SumSingle([ids[n]], 0, AskOf(lists, l));
    }
  }

  // ---------- The conditions ----------

  /** Together the lists `ids` ask for no more than is missing. */
  ghost predicate FitTogether(lines: seq<PurchaseLine>, lists: seq<seq<Request>>, ids: seq<nat>) {
    forall l :: 0 <= l < |lines| ==> Sum(ids, AskOf(lists, l)) <= lines[l].ordered - lines[l].received
  }

  lemma {:induction false} FitIsWithin(lines: seq<PurchaseLine>, lists: seq<seq<Request>>, ids: seq<nat>)
    requires Ids(lists, ids)
    ensures WithinOrdered(Applied(lines, lists, ids)) <==> FitTogether(lines, lists, ids)
  {
    AppliedLength(lines, lists, ids);
    forall l | 0 <= l < |lines|
      ensures Applied(lines, lists, ids)[l].received <= Applied(lines, lists, ids)[l].ordered
              <==> Sum(ids, AskOf(lists, l)) <= lines[l].ordered - lines[l].received
    {
      AppliedSum(lines, lists, ids, l);
    }
  }

  /** Each list of the selection completes the order with just those it shares a line with. */
  ghost predicate EachSeesCompletion(lines: seq<PurchaseLine>, lists: seq<seq<Request>>, ids: seq<nat>) {
    forall j :: 0 <= j < |ids| ==> Complete(lines, lists, Beside(lists, ids, ids[j]) + [ids[j]])
  }

  /** Once something has committed, the order is marked received exactly if all its lines are complete. */
  ghost predicate MarkRight(c: Sys) {
    c.committed != [] ==> (c.status.Received? <==> AllReceived(c.lines))
  }

  // ---------- The mark in a schedule ----------

  /** A read that found the order complete is still right. */
  lemma {:induction false} CompleteStays(lines: seq<PurchaseLine>, lists: seq<seq<Request>>, ids: seq<nat>, m: nat, t: nat)
    requires Ids(lists, ids) && t < |lists| && m <= |ids|
    requires Complete(lines, lists, ids[..m] + [t])
    ensures Complete(lines, lists, ids + [t])
  {
    forall l | 0 <= l < |lines| ensures Sum(ids[..m] + [t], AskOf(lists, l)) <= Sum(ids + [t], AskOf(lists, l)) {
      SumSlice(ids, m, AskOf(lists, l));
      AsksNonNegative(lists, ids[m..], l);
      SumAppend(ids[..m], t, AskOf(lists, l));
      SumAppend(ids, t, AskOf(lists, l));
    }
  }

  /** The last commit's read told whether the lists committed by then, with its own, complete the order. */
  lemma {:induction false} LastRead(po: PurchaseOrder, lists: seq<seq<Request>>, c: Sys)
    requires SysInv(po, lists, c) && c.committed != []
    ensures var n := |c.committed| - 1;
            var t := c.committed[n];
            var seen := c.txs[t].seen;
            && seen <= n
            && (c.status.Received? <==> Complete(po.lines, lists, c.committed[..seen] + [t]))
  {
    var n := |c.committed| - 1;
    var t := c.committed[n];
    var seen := c.txs[t].seen;
    assert CommitOk(po, lists, c, n);
    assert c.committed[..n][..seen] == c.committed[..seen];
    AppliedNext(po.lines, lists, c.committed[..seen], t);
    CompleteIsAllReceived(po.lines, lists, c.committed[..seen] + [t]);
  }

  /** The mark is never set wrongly: what a read found complete stays complete. */
  lemma {:induction false} ReceivedIsComplete(po: PurchaseOrder, lists: seq<seq<Request>>, c: Sys)
    requires SysInv(po, lists, c) && c.committed != [] && c.status.Received?
    ensures Complete(po.lines, lists, c.committed)
  {
    var n := |c.committed| - 1;
    var t := c.committed[n];
    LastRead(po, lists, c);
    assert c.committed[..n][..c.txs[t].seen] == c.committed[..c.txs[t].seen];
    CompleteStays(po.lines, lists, c.committed[..n], c.txs[t].seen, t);
    assert c.committed[..n] + [t] == c.committed;
  }

  lemma {:induction false} ConditionKeepsMark(po: PurchaseOrder, lists: seq<seq<Request>>, c: Sys)
    requires SysInv(po, lists, c)
    requires Complete(po.lines, lists, c.committed) ==> EachSeesCompletion(po.lines, lists, c.committed)
    ensures MarkRight(c)
  {
    if c.committed != [] {
      CompleteIsAllReceived(po.lines, lists, c.committed);
      if c.status.Received? {
        ReceivedIsComplete(po, lists, c);
      }
      if Complete(po.lines, lists, c.committed) {
        SeenSuffices(po, lists, c);
        LastRead(po, lists, c);
      }
    }
  }

  /** What the last commit did not see had no line in common with it, so what it saw includes all that matters. */
  lemma {:induction false} SeenSuffices(po: PurchaseOrder, lists: seq<seq<Request>>, c: Sys)
    requires SysInv(po, lists, c) && c.committed != []
    requires var t := c.committed[|c.committed| - 1];
             Complete(po.lines, lists, Beside(lists, c.committed, t) + [t])
    ensures var t := c.committed[|c.committed| - 1];
            c.txs[t].seen <= |c.committed| && Complete(po.lines, lists, c.committed[..c.txs[t].seen] + [t])
  {
    var n := |c.committed| - 1;
    var t := c.committed[n];
    var seen := c.txs[t].seen;
    LastRead(po, lists, c);
    assert MissedApart(lists, c.committed[..n], t, c.txs[t]);
    forall i | seen <= i < |c.committed| ensures c.committed[i] == t || !Meet(lists[c.committed[i]], lists[t]) {
      if i < n {
        assert c.committed[..n][i] == c.committed[i];
      }
    }
    forall l | 0 <= l < |po.lines|
      ensures Sum(Beside(lists, c.committed, t) + [t], AskOf(lists, l)) <= Sum(c.committed[..seen] + [t], AskOf(lists, l))
    {
      BesideEarlier(lists, c.committed, t, seen, AskOf(lists, l));
      BesideAsksLess(lists, c.committed[..seen], t, l);
      SumAppend(Beside(lists, c.committed, t), t, AskOf(lists, l));
      SumAppend(c.committed[..seen], t, AskOf(lists, l));
    }
  }

  // ---------- Schedules to order ----------

  /** Some schedule leads from `a` to `c`. */
  ghost predicate CanReach(lists: seq<seq<Request>>, a: Sys, c: Sys) {
    exists schedule :: Runs(lists, a, schedule) && Reached(lists, a, schedule) == c
  }

  lemma {:induction false} CanStay(lists: seq<seq<Request>>, a: Sys)
    ensures CanReach(lists, a, a)
  {
    assert Runs(lists, a, []) && Reached(lists, a, []) == a;
  }

  lemma {:induction false} CanStep(lists: seq<seq<Request>>, a: Sys, c: Sys, move: Move)
    requires CanReach(lists, a, c) && Enabled(lists, c, move)
    ensures CanReach(lists, a, Next(lists, c, move))
  {
    var schedule :| Runs(lists, a, schedule) && Reached(lists, a, schedule) == c;
    var more := schedule + [move];
    assert more[..|schedule|] == schedule;
    assert Runs(lists, a, more) && Reached(lists, a, more) == Next(lists, c, move);
  }

  /** All of `ids` have passed the guard and nothing has been written yet. */
  ghost predicate Begun(po: PurchaseOrder, lists: seq<seq<Request>>, ids: seq<nat>, c: Sys) {
    && c == Init(po, lists).(txs := c.txs)
    && |c.txs| == |lists|
    && forall t :: 0 <= t < |c.txs| ==> c.txs[t] == Tx(if t in ids then Updating(0) else Idle, false, 0)
  }

  lemma {:induction false} CanBegin(po: PurchaseOrder, lists: seq<seq<Request>>, ids: seq<nat>) returns (c: Sys)
    requires NoneEmpty(lists) && po.status in PO.RECEIVABLE && Acceptable(po.lines, lists, ids)
    ensures CanReach(lists, Init(po, lists), c) && Begun(po, lists, ids, c)
  {
    if ids == [] {
      c := Init(po, lists);
      CanStay(lists, c);
    } else {
      var n := |ids| - 1;
      var before := CanBegin(po, lists, ids[..n]);
      LastIn(ids, ids[n]);
      OneMoreBegun(po, lists, ids[..n], before, ids[n]);
      CanStep(lists, Init(po, lists), before, Run(ids[n]));
      c := Next(lists, before, Run(ids[n]));
      assert ids == ids[..n] + [ids[n]];
    }
  }

  lemma {:induction false} OneMoreBegun(po: PurchaseOrder, lists: seq<seq<Request>>, ids: seq<nat>, c: Sys, t: nat)
    requires Begun(po, lists, ids, c) && t !in ids && t < |lists|
    requires lists[t] != [] && po.status in PO.RECEIVABLE && ReceiveAccepts(po.lines, lists[t])
    ensures Enabled(lists, c, Run(t)) && Begun(po, lists, ids + [t], Next(lists, c, Run(t)))
  {
  }

  /** `t` has passed the guard, and nobody holds its lines. */
  ghost predicate Ready(lists: seq<seq<Request>>, c: Sys, t: nat) {
    && t < |c.txs| && t < |lists|
    && c.txs[t].phase == Updating(0)
    && lists[t] != []
    && forall i :: 0 <= i < |lists[t]| ==> lists[t][i].line !in c.lineLocks
  }

  /** `t` has incremented its first `n` lines. */
  function Updated(lists: seq<seq<Request>>, c: Sys, t: nat, n: nat): Sys
    requires t < |c.txs| && t < |lists| && n <= |lists[t]|
  {
    c.(txs := c.txs[t := c.txs[t].(phase := if n < |lists[t]| then Updating(n) else Reading)],
       lineLocks := LockAll(c.lineLocks, lists[t][..n], t))
  }

  lemma {:induction false} CanUpdate(lists: seq<seq<Request>>, a: Sys, c: Sys, t: nat, n: nat)
    requires CanReach(lists, a, c) && Ready(lists, c, t) && n <= |lists[t]|
    ensures CanReach(lists, a, Updated(lists, c, t, n))
  {
    if n == 0 {
      assert LockAll(c.lineLocks, lists[t][..0], t) == c.lineLocks;
      assert Updated(lists, c, t, 0) == c;
    } else {
      CanUpdate(lists, a, c, t, n - 1);
      UpdateRuns(lists, c, t, n - 1);
      CanStep(lists, a, Updated(lists, c, t, n - 1), Run(t));
    }
  }

  lemma {:induction false} UpdateRuns(lists: seq<seq<Request>>, c: Sys, t: nat, n: nat)
    requires Ready(lists, c, t) && n < |lists[t]|
    ensures var before := Updated(lists, c, t, n);
            Enabled(lists, before, Run(t)) && Next(lists, before, Run(t)) == Updated(lists, c, t, n + 1)
  {
    LockNext(c.lineLocks, lists[t], n, t);
  }

  /** The system after `t` has incremented its lines and read them all. */
  ghost function HasRead(lists: seq<seq<Request>>, c: Sys, t: nat): Sys
    requires t < |c.txs| && t < |lists|
  {
    c.(txs := c.txs[t := Tx(Writing, AllReceived(ReceiveLines(c.lines, lists[t])), |c.committed|)],
       lineLocks := LockAll(c.lineLocks, lists[t], t))
  }

  lemma {:induction false} CanRead(lists: seq<seq<Request>>, a: Sys, c: Sys, t: nat)
    requires CanReach(lists, a, c) && Ready(lists, c, t)
    ensures CanReach(lists, a, HasRead(lists, c, t))
  {
    CanUpdate(lists, a, c, t, |lists[t]|);
    assert lists[t][..|lists[t]|] == lists[t];
    CanStep(lists, a, Updated(lists, c, t, |lists[t]|), Run(t));
  }

  /** The system after `t`, which has read, has committed. */
  ghost function HasCommitted(lists: seq<seq<Request>>, c: Sys, t: nat): Sys
    requires t < |c.txs| && t < |lists|
  {
    c.(lines := ReceiveLines(c.lines, lists[t]),
       status := StatusFor(c.txs[t].complete),
       lineLocks := Unlock(c.lineLocks, t),
       txs := c.txs[t := c.txs[t].(phase := Done(true))],
       committed := c.committed + [t])
  }

  lemma {:induction false} CanCommit(lists: seq<seq<Request>>, a: Sys, c: Sys, t: nat)
    requires CanReach(lists, a, c) && t < |c.txs| && t < |lists| && c.txs[t].phase.Writing? && c.orderLock.None?
    ensures CanReach(lists, a, HasCommitted(lists, c, t))
  {
    CanStep(lists, a, c, Run(t));
    CanStep(lists, a, Next(lists, c, Run(t)), Run(t));
  }

  /** `c'` is `c` after the transactions `ids` have run to their commits, one after the other. */
  ghost predicate RanInTurn(lists: seq<seq<Request>>, ids: seq<nat>, c: Sys, c': Sys) {
    && Ids(lists, ids)
    && c'.lines == Applied(c.lines, lists, ids)
    && c'.lineLocks == c.lineLocks && c'.orderLock == c.orderLock
    && |c'.txs| == |c.txs|
    && (forall t :: 0 <= t < |c.txs| && t !in ids ==> c'.txs[t] == c.txs[t])
    && c'.committed == c.committed + ids
  }

  lemma {:induction false} CanRunInTurn(lists: seq<seq<Request>>, a: Sys, c: Sys, ids: seq<nat>) returns (c': Sys)
    requires CanReach(lists, a, c) && c.orderLock.None? && Ids(lists, ids) && Distinct(ids)
    requires forall i :: 0 <= i < |ids| ==> Ready(lists, c, ids[i])
    requires forall l :: l in c.lineLocks ==> c.lineLocks[l] !in ids
    ensures CanReach(lists, a, c') && RanInTurn(lists, ids, c, c')
  {
    if ids == [] {
      c' := c;
      assert c.committed + ids == c.committed;
    } else {
      var n := |ids| - 1;
      var t := ids[n];
      forall i | 0 <= i < n ensures ids[..n][i] == ids[i] && ids[i] != t {
      }
      var before := CanRunInTurn(lists, a, c, ids[..n]);
      StillReady(lists, ids[..n], c, before, t);
      CanRead(lists, a, before, t);
      CanCommit(lists, a, HasRead(lists, before, t), t);
      c' := HasCommitted(lists, HasRead(lists, before, t), t);
      OneMoreRan(lists, ids[..n], c, before, t);
      assert ids == ids[..n] + [t];
    }
  }

  lemma {:induction false} StillReady(lists: seq<seq<Request>>, ids: seq<nat>, c: Sys, c': Sys, t: nat)
    requires RanInTurn(lists, ids, c, c') && Ready(lists, c, t) && t !in ids
    ensures Ready(lists, c', t)
  {
  }

  lemma {:induction false} OneMoreRan(lists: seq<seq<Request>>, ids: seq<nat>, c: Sys, before: Sys, t: nat)
    requires RanInTurn(lists, ids, c, before) && Ready(lists, before, t) && t !in ids
    requires forall l :: l in c.lineLocks ==> c.lineLocks[l] != t
    ensures RanInTurn(lists, ids + [t], c, HasCommitted(lists, HasRead(lists, before, t), t))
  {
    UnlockLocked(before.lineLocks, lists[t], t);
    AppliedNext(c.lines, lists, ids, t);
  }

  // ---------- Within what was ordered ----------

  /** All lists that pass the guard now can pass it together and then all commit. */
  lemma {:induction false} AllCanCommit(po: PurchaseOrder, lists: seq<seq<Request>>, ids: seq<nat>) returns (schedule: seq<Move>)
    requires NoneEmpty(lists) && po.status in PO.RECEIVABLE && Acceptable(po.lines, lists, ids)
    ensures Runs(lists, Init(po, lists), schedule)
    ensures Reached(lists, Init(po, lists), schedule).lines == Applied(po.lines, lists, ids)
  {
    var begun := CanBegin(po, lists, ids);
    var c := CanRunInTurn(lists, Init(po, lists), begun, ids);
    schedule :| Runs(lists, Init(po, lists), schedule) && Reached(lists, Init(po, lists), schedule) == c;
  }

  /**
   * When overlapping receipts stay within what was ordered.  For a purchase order of any reachable
   * state and any request lists: no schedule ever receives more than was ordered, if and only if all
   * selections of lists that pass the guard one by one also fit together.
   */
  lemma {:induction false} WithinOrderedExactly(origin: State, s: State, p: nat, lists: seq<seq<Request>>)
    requires Inv(origin, s) && p < |s.purchases| && (s.purchases[p].status.Shipped? || s.purchases[p].status.PartiallyReceived?) && NoneEmpty(lists)
    ensures (forall schedule :: Runs(lists, Init(s.purchases[p], lists), schedule) ==>
               WithinOrdered(Reached(lists, Init(s.purchases[p], lists), schedule).lines))
            <==> forall ids :: Acceptable(s.purchases[p].lines, lists, ids) ==> FitTogether(s.purchases[p].lines, lists, ids)
  {
    var po := s.purchases[p];
    if forall ids :: Acceptable(po.lines, lists, ids) ==> FitTogether(po.lines, lists, ids) {
      forall schedule | Runs(lists, Init(po, lists), schedule)
        ensures WithinOrdered(Reached(lists, Init(po, lists), schedule).lines)
      {
        QuantitiesAddUp(po, lists, schedule);
        FitIsWithin(po.lines, lists, Reached(lists, Init(po, lists), schedule).committed);
      }
    } else {
      var ids :| Acceptable(po.lines, lists, ids) && !FitTogether(po.lines, lists, ids);
      var schedule := AllCanCommit(po, lists, ids);
      FitIsWithin(po.lines, lists, ids);
    }
  }

  // ---------- The right mark ----------

  lemma {:induction false} ApartNotLocked(lists: seq<seq<Request>>, c: Sys, b: nat, a: nat)
    requires a < |lists| && b < |lists| && !Meet(lists[a], lists[b]) && c.lineLocks == map[]
    ensures forall i :: 0 <= i < |lists[a]| ==> lists[a][i].line !in LockAll(c.lineLocks, lists[b], b)
  {
    forall i | 0 <= i < |lists[a]| ensures lists[a][i].line !in LinesOf(lists[b]) {
    }
  }

  lemma {:induction false} SelectedInRange(lists: seq<seq<Request>>, ids: seq<nat>, b: nat)
    requires Ids(lists, ids) && Distinct(ids) && b in ids
    ensures forall t :: t in Apart(lists, ids, b) ==>
              t in ids && t !in Beside(lists, ids, b) && t < |lists| && b < |lists| && !Meet(lists[t], lists[b])
  {
    SplitIds(lists, ids, b);
  }

  /** First the lists beside `b` run, then `b` reads, then the lists apart from it run, then `b` commits what it read. */
  lemma {:induction false} CanMiss(po: PurchaseOrder, lists: seq<seq<Request>>, ids: seq<nat>, b: nat) returns (c: Sys)
    requires NoneEmpty(lists) && po.status in PO.RECEIVABLE && Acceptable(po.lines, lists, ids) && b in ids
    ensures CanReach(lists, Init(po, lists), c) && c.committed != []
    ensures var beside, apart := Beside(lists, ids, b), Apart(lists, ids, b);
            && Ids(lists, beside) && Ids(lists, beside + [b]) && Ids(lists, apart)
            && c.lines == ReceiveLines(Applied(Applied(po.lines, lists, beside), lists, apart), lists[b])
            && c.status == StatusFor(AllReceived(Applied(po.lines, lists, beside + [b])))
  {
    var beside, apart := Beside(lists, ids, b), Apart(lists, ids, b);
    SplitIds(lists, ids, b);
    var begun := CanBegin(po, lists, ids);
    forall i | 0 <= i < |beside| ensures beside[i] < |lists| && Ready(lists, begun, beside[i]) {
      assert beside[i] in beside;
    }
    var c1 := CanRunInTurn(lists, Init(po, lists), begun, beside);
    SelectedInRange(lists, ids, b);
    CanRead(lists, Init(po, lists), c1, b);
    var c2 := HasRead(lists, c1, b);
    forall i | 0 <= i < |apart| ensures apart[i] < |lists| && Ready(lists, c2, apart[i]) {
      assert apart[i] in apart;
      ApartNotLocked(lists, c1, b, apart[i]);
    }
    var c3 := CanRunInTurn(lists, Init(po, lists), c2, apart);
    CanCommit(lists, Init(po, lists), c3, b);
    c := HasCommitted(lists, c3, b);
    AppliedNext(po.lines, lists, beside, b);
  }

  lemma {:induction false} MissOutcome(lines: seq<PurchaseLine>, lists: seq<seq<Request>>, ids: seq<nat>, b: nat)
    requires Ids(lists, ids) && Distinct(ids) && b in ids && Complete(lines, lists, ids)
    requires Ids(lists, Beside(lists, ids, b)) && Ids(lists, Apart(lists, ids, b))
    ensures AllReceived(ReceiveLines(Applied(Applied(lines, lists, Beside(lists, ids, b)), lists, Apart(lists, ids, b)), lists[b]))
  {
    var beside, apart := Beside(lists, ids, b), Apart(lists, ids, b);
    var first := Applied(lines, lists, beside);
    AppliedLength(lines, lists, beside);
    AppliedLength(first, lists, apart);
    forall l | 0 <= l < |lines| ensures Applied(first, lists, apart)[l].ordered <= Applied(first, lists, apart)[l].received + Requested(lists[b], l) {
      MissOutcomeAt(lines, lists, ids, b, l);
    }
  }

  lemma {:induction false} MissOutcomeAt(lines: seq<PurchaseLine>, lists: seq<seq<Request>>, ids: seq<nat>, b: nat, l: nat)
    requires Ids(lists, ids) && Distinct(ids) && b in ids && l < |lines|
    requires Ids(lists, Beside(lists, ids, b)) && Ids(lists, Apart(lists, ids, b))
    requires lines[l].ordered - lines[l].received <= Sum(ids, AskOf(lists, l))
    ensures var now := Applied(Applied(lines, lists, Beside(lists, ids, b)), lists, Apart(lists, ids, b));
            l < |now| && now[l].ordered <= now[l].received + Requested(lists[b], l)
  {
    AppliedSum(lines, lists, Beside(lists, ids, b), l);
    AppliedSum(Applied(lines, lists, Beside(lists, ids, b)), lists, Apart(lists, ids, b), l);
    SplitSum(lists, ids, b, AskOf(lists, l));
  }

  /** Two lines of one unit each, shipped, and one receipt for each of them. */
  function TwoShipped(): PurchaseOrder {
    PurchaseOrder(PO.Shipped, 0, [PurchaseLine(0, 1, 0), PurchaseLine(1, 1, 0)])
  }

  function OneEach(): seq<seq<Request>> {
    [[Request(0, 1)], [Request(1, 1)]]
  }

  lemma {:induction false} OneUnit(t: nat, l: nat)
    requires t < 2 && l < 2
    ensures Requested(OneEach()[t], l) == if t == l then 1 else 0
    ensures ReceiveAccepts(TwoShipped().lines, OneEach()[t])
  {
    var list := OneEach()[t];
    if t == l {
      SumSingle(list, 0, QtyOn(l));
    } else {
      SumZero(list, QtyOn(l));
    }
    assert !ReceiveFailsAt(TwoShipped().lines, list, 0);
  }

  /** Two receipts of different lines can overlap so that all is received and the order is not marked so. */
  lemma {:induction false} OverlapLosesReceived()
    ensures exists schedule ::
              && Runs(OneEach(), Init(TwoShipped(), OneEach()), schedule)
              && !MarkRight(Reached(OneEach(), Init(TwoShipped(), OneEach()), schedule))
  {
    var lists := OneEach();
    forall t: nat, l: nat | t < 2 && l < 2
      ensures AskOf(lists, l)(t) == if t == l then 1 else 0
      ensures ReceiveAccepts(TwoShipped().lines, lists[t])
    {
      OneUnit(t, l);
    }
    forall l: nat | l < 2
      ensures Sum<nat>([0, 1], AskOf(lists, l)) == 1 && Sum<nat>([1], AskOf(lists, l)) == l
    {
      SumAppend<nat>([0], 1, AskOf(lists, l));
      SumSingle<nat>([0], 0, AskOf(lists, l));
      SumSingle<nat>([1], 0, AskOf(lists, l));
      assert [0] + [1] == [0, 1];
    }
    NothingBeside();
    assert !Complete(TwoShipped().lines, lists, [1]) by {
      assert Sum<nat>([1], AskOf(lists, 0)) == 0;
      assert TwoShipped().lines[0].ordered == 1;
    }
    LostMark(TwoShipped(), lists, [0, 1], 1);
  }

  lemma {:induction false} NothingBeside()
    ensures Beside(OneEach(), [0, 1], 1) + [1] == [1]
  {
    assert [0, 1][..1] == [0] && [0][..0] == [];
    assert Beside(OneEach(), [], 1) == [];
    assert !Meet(OneEach()[0], OneEach()[1]);
    assert Beside(OneEach(), [0], 1) == [];
  }

  /**
   * When overlapping receipts leave the right mark.  For a purchase order of any reachable state and
   * any request lists: every schedule leaves the order marked received exactly if its lines are
   * complete, if and only if in every selection of lists that pass the guard one by one and together
   * complete the order, each list completes it with just those it shares a line with.
   */
  lemma {:induction false} ReceivedMarkExactly(origin: State, s: State, p: nat, lists: seq<seq<Request>>)
    requires Inv(origin, s) && p < |s.purchases| && (s.purchases[p].status.Shipped? || s.purchases[p].status.PartiallyReceived?) && NoneEmpty(lists)
    ensures (forall schedule :: Runs(lists, Init(s.purchases[p], lists), schedule) ==>
               MarkRight(Reached(lists, Init(s.purchases[p], lists), schedule)))
            <==> forall ids :: Acceptable(s.purchases[p].lines, lists, ids) && Complete(s.purchases[p].lines, lists, ids) ==>
                   EachSeesCompletion(s.purchases[p].lines, lists, ids)
  {
    ReceivedMarkIff(s.purchases[p], lists);
  }

  lemma {:induction false} KeptMark(po: PurchaseOrder, lists: seq<seq<Request>>, schedule: seq<Move>)
    requires Runs(lists, Init(po, lists), schedule)
    requires forall ids :: Acceptable(po.lines, lists, ids) && Complete(po.lines, lists, ids) ==> EachSeesCompletion(po.lines, lists, ids)
    ensures MarkRight(Reached(lists, Init(po, lists), schedule))
  {
    var c := Reached(lists, Init(po, lists), schedule);
    ScheduleKeeps(po, lists, schedule);
    CommittedAcceptable(po, lists, c);
    ConditionKeepsMark(po, lists, c);
  }

  lemma {:induction false} LostMark(po: PurchaseOrder, lists: seq<seq<Request>>, ids: seq<nat>, j: nat)
    requires NoneEmpty(lists) && po.status in PO.RECEIVABLE
    requires Acceptable(po.lines, lists, ids) && Complete(po.lines, lists, ids) && j < |ids|
    requires !Complete(po.lines, lists, Beside(lists, ids, ids[j]) + [ids[j]])
    ensures exists schedule :: Runs(lists, Init(po, lists), schedule) && !MarkRight(Reached(lists, Init(po, lists), schedule))
  {
    var c := CanMiss(po, lists, ids, ids[j]);
    MissOutcome(po.lines, lists, ids, ids[j]);
    CompleteIsAllReceived(po.lines, lists, Beside(lists, ids, ids[j]) + [ids[j]]);
    var schedule :| Runs(lists, Init(po, lists), schedule) && Reached(lists, Init(po, lists), schedule) == c;
  }

  lemma {:induction false} ReceivedMarkIff(po: PurchaseOrder, lists: seq<seq<Request>>)
    requires po.status in PO.RECEIVABLE && NoneEmpty(lists)
    ensures (forall schedule :: Runs(lists, Init(po, lists), schedule) ==> MarkRight(Reached(lists, Init(po, lists), schedule)))
            <==> forall ids :: Acceptable(po.lines, lists, ids) && Complete(po.lines, lists, ids) ==> EachSeesCompletion(po.lines, lists, ids)
  {
    if forall ids :: Acceptable(po.lines, lists, ids) && Complete(po.lines, lists, ids) ==> EachSeesCompletion(po.lines, lists, ids) {
      forall schedule | Runs(lists, Init(po, lists), schedule) ensures MarkRight(Reached(lists, Init(po, lists), schedule)) {
        KeptMark(po, lists, schedule);
      }
    } else {
      var ids :| Acceptable(po.lines, lists, ids) && Complete(po.lines, lists, ids) && !EachSeesCompletion(po.lines, lists, ids);
      var j :| 0 <= j < |ids| && !Complete(po.lines, lists, Beside(lists, ids, ids[j]) + [ids[j]]);
      LostMark(po, lists, ids, j);
    }
  }
}
