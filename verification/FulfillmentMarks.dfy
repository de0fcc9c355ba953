/**
 * For which requests overlapping fulfilments of one order always leave the right mark: a condition on
 * the request lists alone.
 */
module FulfillmentMarks {
  import opened Wrappers
  import opened Sums
  import opened Tables
  import opened Protocol
  import opened Invariants
  import opened FulfillSteps
  import opened Overlaps
  import opened ConcurrentFulfillment
  import SO = SalesOrderLifecycle

  // ---------- What a read can have missed ----------

  lemma {:induction false} LockedOf(order: SalesOrder, lists: seq<seq<Request>>, c: Sys)
    requires SysInv(order, lists, c)
    ensures forall u :: 0 <= u < |c.txs| && (c.txs[u].phase.Writing? || c.txs[u].phase.Committing?) ==>
              Locked(lists, c.lineLocks, u, |lists[u]|)
  {
    forall u | 0 <= u < |c.txs| && (c.txs[u].phase.Writing? || c.txs[u].phase.Committing?)
      ensures Locked(lists, c.lineLocks, u, |lists[u]|)
    {
      assert TxOk(order.lines, lists, c, u);
    }
  }

  lemma {:induction false} NextKeepsApart(order: SalesOrder, lists: seq<seq<Request>>, c: Sys, move: Move)
    requires SysInv(order, lists, c) && Enabled(lists, c, move) && ReadsApart(lists, c.txs, c.committed)
    ensures var c' := Next(lists, c, move);
            ReadsApart(lists, c'.txs, c'.committed)
  {
    var c' := Next(lists, c, move);
    var t := move.t;
    assert c'.txs == c.txs[t := c'.txs[t]];
    if move.Run? && c.txs[t].phase.Committing? {
      LockedOf(order, lists, c);
      CommitKeepsApart(lists, c.txs, c.committed, t, c'.txs[t], c.lineLocks);
    } else {
      PlainKeepsApart(lists, c.txs, c.committed, t, c'.txs[t]);
    }
  }

  lemma {:induction false} ScheduleKeepsApart(order: SalesOrder, lists: seq<seq<Request>>, schedule: seq<Move>)
    requires NoneEmpty(lists) && LinesOk(order.lines) && Runs(lists, Init(order, lists), schedule)
    ensures var c := Reached(lists, Init(order, lists), schedule);
            ReadsApart(lists, c.txs, c.committed)
  {
    if schedule != [] {
      var n := |schedule| - 1;
      ScheduleKeepsApart(order, lists, schedule[..n]);
      ScheduleKeeps(order, lists, schedule[..n]);
      NextKeepsApart(order, lists, Reached(lists, Init(order, lists), schedule[..n]), schedule[n]);
    }
  }

  // ---------- Selections of lists ----------

  /** Taken together the lists `ids` ask for exactly what is reserved: they fit, and they complete the order. */
  ghost predicate Completes(lines: seq<SalesLine>, lists: seq<seq<Request>>, ids: seq<nat>) {
    && Ids(lists, ids)
    && Distinct(ids)
    && (forall i :: 0 <= i < |ids| ==> KnownLines(|lines|, lists[ids[i]]))
    && forall l :: 0 <= l < |lines| ==> Sum(ids, AskOf(lists, l)) == lines[l].reserved
  }

  ghost predicate PairwiseMeet(lists: seq<seq<Request>>, ids: seq<nat>)
    requires Ids(lists, ids)
  {
    forall i, j :: 0 <= i < j < |ids| ==> Meet(lists[ids[i]], lists[ids[j]])
  }

  lemma {:induction false} AppliedSum(lines: seq<SalesLine>, lists: seq<seq<Request>>, ids: seq<nat>, l: nat)
    requires Ids(lists, ids) && l < |lines|
    ensures |Applied(lines, lists, ids)| == |lines|
    ensures var asked := Sum(ids, AskOf(lists, l));
            Applied(lines, lists, ids)[l] == lines[l].(reserved := lines[l].reserved - asked, fulfilled := lines[l].fulfilled + asked)
  {
    if ids != [] {
      AppliedSum(lines, lists, ids[..|ids| - 1], l);
    }
  }

  /** Lines with nothing reserved are complete, and only those. */
  lemma {:induction false} CompleteIsUnreserved(lines: seq<SalesLine>)
    requires LinesOk(lines)
    ensures AllFulfilled(lines) <==> forall l :: 0 <= l < |lines| ==> lines[l].reserved == 0
  {
    if AllFulfilled(lines) {
      forall l | 0 <= l < |lines| ensures lines[l].reserved == 0 {
        assert lines[l].ordered <= lines[l].fulfilled;
      }
    }
  }

  /** What has committed and left the order complete is such a selection. */
  lemma {:induction false} CommittedCompletes(order: SalesOrder, lists: seq<seq<Request>>, c: Sys)
    requires SysInv(order, lists, c) && Distinct(c.committed) && AllFulfilled(c.lines)
    ensures Completes(order.lines, lists, c.committed)
  {
    forall i | 0 <= i < |c.committed| ensures KnownLines(|order.lines|, lists[c.committed[i]]) {
      assert CommitOk(order.lines, lists, c, i);
      AppliedLength(order.lines, lists, c.committed[..i]);
    }
    CompleteIsUnreserved(c.lines);
    AppliedLength(order.lines, lists, c.committed);
    forall l | 0 <= l < |order.lines| ensures Sum(c.committed, AskOf(lists, l)) == order.lines[l].reserved {
      AppliedSum(order.lines, lists, c.committed, l);
      assert c.lines[l].reserved == 0;
    }
  }

  // ---------- If every two lists of a completing selection meet ----------

  /** Once something has committed, the order is marked fulfilled exactly if all its lines are complete. */
  ghost predicate MarkRight(c: Sys) {
    c.committed != [] ==> (c.status.Fulfilled? <==> AllFulfilled(c.lines))
  }

  lemma {:induction false} MeetingKeepsMark(order: SalesOrder, lists: seq<seq<Request>>, schedule: seq<Move>)
    requires NoneEmpty(lists) && LinesOk(order.lines) && Runs(lists, Init(order, lists), schedule)
    requires forall ids :: Completes(order.lines, lists, ids) ==> PairwiseMeet(lists, ids)
    ensures MarkRight(Reached(lists, Init(order, lists), schedule))
  {
    var c := Reached(lists, Init(order, lists), schedule);
    if c.committed != [] {
      StatusExactly(order, lists, schedule);
      if AllFulfilled(c.lines) {
        ScheduleKeeps(order, lists, schedule);
        ScheduleKeepsApart(order, lists, schedule);
        CommittedCompletes(order, lists, c);
        LastReadMissedNothing(order, lists, c);
      }
    }
  }

  lemma {:induction false} LastReadMissedNothing(order: SalesOrder, lists: seq<seq<Request>>, c: Sys)
    requires SysInv(order, lists, c) && c.committed != [] && ReadsApart(lists, c.txs, c.committed)
    requires PairwiseMeet(lists, c.committed)
    ensures c.txs[c.committed[|c.committed| - 1]].seen == |c.committed| - 1
  {
    var n := |c.committed| - 1;
    assert CommitOk(order.lines, lists, c, n);
    FirstMissed(lists, c.txs, c.committed);
  }

  // ---------- If two lists of a completing selection do not meet ----------

  /** Some schedule leads from `a` to `c`. */
  ghost predicate CanReach(lists: seq<seq<Request>>, a: Sys, c: Sys) {
    exists schedule :: Runs(lists, a, schedule) && Reached(lists, a, schedule) == c
  }

  lemma {:induction false} CanStay(lists: seq<seq<Request>>, a: Sys)
    ensures CanReach(lists, a, a)
  {
    assert Runs(lists, a, []) && Reached(lists, a, []) == a;
  }

  lemma {:induction false} CanStep(lists: seq<seq<Request>>, a: Sys, c: Sys, move: Move)
    requires CanReach(lists, a, c) && Enabled(lists, c, move)
    ensures CanReach(lists, a, Next(lists, c, move))
  {
    var schedule :| Runs(lists, a, schedule) && Reached(lists, a, schedule) == c;
    var more := schedule + [move];
    assert more[..|schedule|] == schedule;
    assert Runs(lists, a, more) && Reached(lists, a, more) == Next(lists, c, move);
  }

  function AtPhase(c: Sys, t: nat, phase: Phase): Sys
    requires t < |c.txs|
  {
    c.(txs := c.txs[t := c.txs[t].(phase := phase)])
  }

  /** `t` has updated its first `n` lines. */
  function Updated(lists: seq<seq<Request>>, c: Sys, t: nat, n: nat): Sys
    requires t < |c.txs| && t < |lists| && n <= |lists[t]|
  {
    AtPhase(c, t, if n < |lists[t]| then Updating(n) else Reading).(lineLocks := LockAll(c.lineLocks, lists[t][..n], t))
  }

  /** `t` may begin, and all its updates will pass: they fit, and nobody has locked their lines. */
  ghost predicate Ready(lists: seq<seq<Request>>, c: Sys, t: nat) {
    && t < |c.txs| && t < |lists|
    && c.txs[t].phase.Idle?
    && c.status in SO.FULFILLABLE
    && lists[t] != []
    && FulfillAccepts(c.lines, lists[t])
    && forall i :: 0 <= i < |lists[t]| ==> lists[t][i].line !in c.lineLocks
  }

  lemma {:induction false} CanUpdate(lists: seq<seq<Request>>, a: Sys, c: Sys, t: nat, n: nat)
    requires CanReach(lists, a, c) && Ready(lists, c, t) && n <= |lists[t]|
    ensures CanReach(lists, a, Updated(lists, c, t, n))
  {
    if n == 0 {
      CanStep(lists, a, c, Run(t));
      assert LockAll(c.lineLocks, lists[t][..0], t) == c.lineLocks;
    } else {
      CanUpdate(lists, a, c, t, n - 1);
      var before := Updated(lists, c, t, n - 1);
      UpdateRuns(lists, c, t, n - 1);
      CanStep(lists, a, before, Run(t));
    }
  }

  lemma {:induction false} UpdateRuns(lists: seq<seq<Request>>, c: Sys, t: nat, n: nat)
    requires Ready(lists, c, t) && n < |lists[t]|
    ensures var before := Updated(lists, c, t, n);
            Enabled(lists, before, Run(t)) && Next(lists, before, Run(t)) == Updated(lists, c, t, n + 1)
  {
    assert !FulfillFailsAt(c.lines, lists[t], n);
    LockNext(c.lineLocks, lists[t], n, t);
  }

  /** The system after `t` has updated its lines and read them all. */
  ghost function HasRead(lists: seq<seq<Request>>, c: Sys, t: nat): Sys
    requires t < |c.txs| && t < |lists|
  {
    c.(txs := c.txs[t := Tx(Writing, AllFulfilled(FulfillLines(c.lines, lists[t])), |c.committed|)],
       lineLocks := LockAll(c.lineLocks, lists[t], t))
  }

  lemma {:induction false} CanRead(lists: seq<seq<Request>>, a: Sys, c: Sys, t: nat)
    requires CanReach(lists, a, c) && Ready(lists, c, t)
    ensures CanReach(lists, a, HasRead(lists, c, t))
  {
    CanUpdate(lists, a, c, t, |lists[t]|);
    assert lists[t][..|lists[t]|] == lists[t];
    CanStep(lists, a, Updated(lists, c, t, |lists[t]|), Run(t));
  }

  /** The system after `t`, which has read, has committed. */
  ghost function HasCommitted(lists: seq<seq<Request>>, c: Sys, t: nat): Sys
    requires t < |c.txs| && t < |lists|
  {
    c.(lines := FulfillLines(c.lines, lists[t]),
       status := StatusFor(c.txs[t].complete),
       lineLocks := Unlock(c.lineLocks, t),
       txs := c.txs[t := c.txs[t].(phase := Done(true))],
       committed := c.committed + [t])
  }

  lemma {:induction false} CanCommit(lists: seq<seq<Request>>, a: Sys, c: Sys, t: nat)
    requires CanReach(lists, a, c) && t < |c.txs| && t < |lists| && c.txs[t].phase.Writing? && c.orderLock.None?
    ensures CanReach(lists, a, HasCommitted(lists, c, t))
  {
    CanStep(lists, a, c, Run(t));
    var closing := AtPhase(c, t, Committing).(orderLock := Some(t));
    CanStep(lists, a, closing, Run(t));
  }

  /** The system after `t` has run from its begin to its commit, while others hold their locks. */
  ghost function Alone(lists: seq<seq<Request>>, c: Sys, t: nat): Sys
    requires t < |c.txs| && t < |lists|
  {
    var lines := FulfillLines(c.lines, lists[t]);
    c.(lines := lines,
       status := StatusFor(AllFulfilled(lines)),
       txs := c.txs[t := Tx(Done(true), AllFulfilled(lines), |c.committed|)],
       committed := c.committed + [t])
  }

  lemma {:induction false} CanRunAlone(lists: seq<seq<Request>>, a: Sys, c: Sys, t: nat)
    requires CanReach(lists, a, c) && Ready(lists, c, t) && c.orderLock.None?
    requires forall l :: l in c.lineLocks ==> c.lineLocks[l] != t
    ensures CanReach(lists, a, Alone(lists, c, t))
  {
    CanRead(lists, a, c, t);
    CanCommit(lists, a, HasRead(lists, c, t), t);
    UnlockLocked(c.lineLocks, lists[t], t);
  }

  // ---------- Running a selection ----------

  /** Nothing is locked, the lists `done` have committed in turn, and all other transactions are still to begin. */
  ghost predicate RanInTurn(order: SalesOrder, lists: seq<seq<Request>>, done: seq<nat>, c: Sys) {
    && Ids(lists, done)
    && c.lines == Applied(order.lines, lists, done)
    && c.status in SO.FULFILLABLE
    && c.lineLocks == map[] && c.orderLock.None?
    && |c.txs| == |lists|
    && (forall t :: 0 <= t < |c.txs| && t !in done ==> c.txs[t].phase.Idle?)
    && c.committed == done
  }

  /** A list that fits into what the lists before it leave is accepted after them. */
  lemma {:induction false} FitsAfter(lines: seq<SalesLine>, lists: seq<seq<Request>>, done: seq<nat>, t: nat)
    requires Ids(lists, done) && t < |lists| && KnownLines(|lines|, lists[t])
    requires forall l :: 0 <= l < |lines| ==> Sum(done, AskOf(lists, l)) + Requested(lists[t], l) <= lines[l].reserved
    ensures FulfillAccepts(Applied(lines, lists, done), lists[t])
  {
    AppliedLength(lines, lists, done);
    forall i | 0 <= i < |lists[t]|
      ensures lists[t][i].line < |lines|
      ensures Requested(lists[t], lists[t][i].line) <= Applied(lines, lists, done)[lists[t][i].line].reserved
    {
      AppliedSum(lines, lists, done, lists[t][i].line);
    }
    FulfillCriterion(Applied(lines, lists, done), lists[t]);
  }

  /** While something asked for is still reserved, the order is not complete. */
  lemma {:induction false} NotYetComplete(lines: seq<SalesLine>, lists: seq<seq<Request>>, done: seq<nat>, l: nat)
    requires Ids(lists, done) && l < |lines| && LinesOk(lines)
    requires Sum(done, AskOf(lists, l)) < lines[l].reserved
    ensures !AllFulfilled(Applied(lines, lists, done))
  {
    AppliedSum(lines, lists, done, l);
    assert Applied(lines, lists, done)[l].fulfilled < Applied(lines, lists, done)[l].ordered;
  }

  /** Lists that fit together, with line `l` left incomplete, can run one after the other. */
  lemma {:induction false} CanRunInTurn(order: SalesOrder, lists: seq<seq<Request>>, ids: seq<nat>, l: nat) returns (c: Sys)
    requires NoneEmpty(lists) && LinesOk(order.lines) && order.status in SO.FULFILLABLE
    requires Ids(lists, ids) && Distinct(ids)
    requires forall i :: 0 <= i < |ids| ==> KnownLines(|order.lines|, lists[ids[i]])
    requires forall k :: 0 <= k < |order.lines| ==> Sum(ids, AskOf(lists, k)) <= order.lines[k].reserved
    requires l < |order.lines| && Sum(ids, AskOf(lists, l)) < order.lines[l].reserved
    ensures CanReach(lists, Init(order, lists), c) && RanInTurn(order, lists, ids, c)
  {
    if ids == [] {
      c := Init(order, lists);
      CanStay(lists, c);
    } else {
      var n := |ids| - 1;
      var done := ids[..n];
      forall k | 0 <= k < |order.lines|
        ensures Sum(done, AskOf(lists, k)) + Requested(lists[ids[n]], k) == Sum(ids, AskOf(lists, k))
        ensures 0 <= Requested(lists[ids[n]], k)
      {
        SumNonNegative(lists[ids[n]], QtyOn(k));
      }
      var before := CanRunInTurn(order, lists, done, l);
      FitsAfter(order.lines, lists, done, ids[n]);
      CanRunAlone(lists, Init(order, lists), before, ids[n]);
      c := Alone(lists, before, ids[n]);
      NotYetComplete(order.lines, lists, ids, l);
      assert done + [ids[n]] == ids;
    }
  }

  // ---------- The two that do not meet ----------

  /** `b` reads, then `a` runs as a whole, then `b` commits what it read. */
  lemma {:induction false} CanOverlap(lists: seq<seq<Request>>, start: Sys, c: Sys, a: nat, b: nat) returns (c': Sys)
    requires CanReach(lists, start, c) && a != b && c.lineLocks == map[] && c.orderLock.None?
    requires Ready(lists, c, a) && Ready(lists, c, b) && !Meet(lists[a], lists[b])
    ensures CanReach(lists, start, c')
    ensures c'.lines == FulfillLines(FulfillLines(c.lines, lists[a]), lists[b])
    ensures c'.status == StatusFor(AllFulfilled(FulfillLines(c.lines, lists[b])))
    ensures c'.committed != []
  {
    var read := HasRead(lists, c, b);
    CanRead(lists, start, c, b);
    forall i | 0 <= i < |lists[a]| ensures lists[a][i].line !in read.lineLocks {
      assert lists[a][i].line !in LinesOf(lists[b]);
    }
    CanRunAlone(lists, start, read, a);
    var other := Alone(lists, read, a);
    CanCommit(lists, start, other, b);
    c' := HasCommitted(lists, other, b);
  }

  /** The sum over a selection is the sum over the others, plus the two. */
  lemma {:induction false} WithoutTwo(ids: seq<nat>, i: nat, j: nat, f: nat -> int)
    requires i < j < |ids|
    ensures Sum(ids, f) == Sum(ids[..i] + ids[i + 1..j] + ids[j + 1..], f) + f(ids[i]) + f(ids[j])
  {
    var x, y, z := ids[..i], ids[i + 1..j], ids[j + 1..];
    assert ids == (x + [ids[i]] + y) + [ids[j]] + z;
    SumInsert(x + [ids[i]] + y, ids[j], z, f);
    assert (x + [ids[i]] + y) + z == x + [ids[i]] + (y + z);
    SumInsert(x, ids[i], y + z, f);
    assert x + (y + z) == x + y + z;
  }

  lemma {:induction false} OthersDistinct(ids: seq<nat>, i: nat, j: nat)
    requires i < j < |ids| && Distinct(ids)
    ensures var rest := ids[..i] + ids[i + 1..j] + ids[j + 1..];
            && Distinct(rest)
            && ids[i] !in rest && ids[j] !in rest && ids[i] != ids[j]
            && forall n :: 0 <= n < |rest| ==> rest[n] in ids
  {
    var rest := ids[..i] + ids[i + 1..j] + ids[j + 1..];
    forall n | 0 <= n < |rest| ensures rest[n] == ids[if n < i then n else if n < j - 1 then n + 1 else n + 2] {
    }
  }

  /** Two lists of a completing selection without a common line: run the others first, then these two overlapping. */
  lemma {:induction false} ApartLosesMark(order: SalesOrder, lists: seq<seq<Request>>, ids: seq<nat>, i: nat, j: nat)
    requires NoneEmpty(lists) && LinesOk(order.lines) && (order.status.Allocated? || order.status.PartiallyFulfilled?)
    requires Completes(order.lines, lists, ids) && i < j < |ids| && !Meet(lists[ids[i]], lists[ids[j]])
    ensures exists schedule :: Runs(lists, Init(order, lists), schedule) && !MarkRight(Reached(lists, Init(order, lists), schedule))
  {
    var lines := order.lines;
    var a, b := ids[i], ids[j];
    var rest := ids[..i] + ids[i + 1..j] + ids[j + 1..];
    OthersDistinct(ids, i, j);
    forall k | 0 <= k < |lines|
      ensures Sum(rest, AskOf(lists, k)) + Requested(lists[a], k) + Requested(lists[b], k) == lines[k].reserved
      ensures 0 <= Requested(lists[a], k) && 0 <= Requested(lists[b], k)
    {
      WithoutTwo(ids, i, j, AskOf(lists, k));
      SumNonNegative(lists[a], QtyOn(k));
      SumNonNegative(lists[b], QtyOn(k));
    }
    var l := lists[a][0].line;
    SumAtLeastRow(lists[a], 0, QtyOn(l));
    var c := CanRunInTurn(order, lists, rest, l);
    FitsAfter(lines, lists, rest, a);
    FitsAfter(lines, lists, rest, b);
    var c' := CanOverlap(lists, Init(order, lists), c, a, b);
    AppliedNext(lines, lists, rest, a);
    AppliedNext(lines, lists, rest + [a], b);
    AppliedNext(lines, lists, rest, b);
    OverlapOutcome(lines, lists, rest, a, b, l);
    var schedule :| Runs(lists, Init(order, lists), schedule) && Reached(lists, Init(order, lists), schedule) == c';
  }

  lemma {:induction false} OverlapOutcome(lines: seq<SalesLine>, lists: seq<seq<Request>>, rest: seq<nat>, a: nat, b: nat, l: nat)
    requires LinesOk(lines) && Ids(lists, rest) && a < |lists| && b < |lists| && l < |lines|
    requires forall k :: 0 <= k < |lines| ==>
               Sum(rest, AskOf(lists, k)) + Requested(lists[a], k) + Requested(lists[b], k) == lines[k].reserved
    requires 0 < Requested(lists[a], l)
    ensures AllFulfilled(Applied(lines, lists, rest + [a] + [b]))
    ensures !AllFulfilled(Applied(lines, lists, rest + [b]))
  {
    AppliedLength(lines, lists, rest + [a] + [b]);
    forall k | 0 <= k < |lines| ensures Applied(lines, lists, rest + [a] + [b])[k].ordered <= Applied(lines, lists, rest + [a] + [b])[k].fulfilled {
      SumAppend(rest + [a], b, AskOf(lists, k));
      SumAppend(rest, a, AskOf(lists, k));
      AppliedSum(lines, lists, rest + [a] + [b], k);
    }
    SumAppend(rest, b, AskOf(lists, l));
    NotYetComplete(lines, lists, rest + [b], l);
  }

  // ---------- The condition ----------

  /**
   * When overlapping fulfilments leave the right mark.  For an order of any reachable state and any
   * request lists: every schedule leaves the order marked fulfilled exactly if its lines are complete,
   * if and only if no selection of the lists that completes the order contains two lists without a
   * common line.
   */
  lemma {:induction false} MarkRightExactly(origin: State, s: State, o: nat, lists: seq<seq<Request>>)
    requires Inv(origin, s) && o < |s.sales| && (s.sales[o].status.Allocated? || s.sales[o].status.PartiallyFulfilled?) && NoneEmpty(lists)
    ensures (forall schedule :: Runs(lists, Init(s.sales[o], lists), schedule) ==>
               MarkRight(Reached(lists, Init(s.sales[o], lists), schedule)))
            <==> forall ids :: Completes(s.sales[o].lines, lists, ids) ==> PairwiseMeet(lists, ids)
  {
    HeldLinesOk(s.sales[o]);
    MarkRightIff(s.sales[o], lists);
  }

  lemma {:induction false} MarkRightIff(order: SalesOrder, lists: seq<seq<Request>>)
    requires LinesOk(order.lines) && order.status in SO.FULFILLABLE && NoneEmpty(lists)
    ensures (forall schedule :: Runs(lists, Init(order, lists), schedule) ==> MarkRight(Reached(lists, Init(order, lists), schedule)))
            <==> forall ids :: Completes(order.lines, lists, ids) ==> PairwiseMeet(lists, ids)
  {
    if forall ids :: Completes(order.lines, lists, ids) ==> PairwiseMeet(lists, ids) {
      forall schedule | Runs(lists, Init(order, lists), schedule) ensures MarkRight(Reached(lists, Init(order, lists), schedule)) {
        MeetingKeepsMark(order, lists, schedule);
      }
    } else {
      var ids :| Completes(order.lines, lists, ids) && !PairwiseMeet(lists, ids);
      var i, j :| 0 <= i < j < |ids| && !Meet(lists[ids[i]], lists[ids[j]]);
      ApartLosesMark(order, lists, ids, i, j);
    }
  }
}
