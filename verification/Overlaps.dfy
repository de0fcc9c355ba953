/**
 * What overlapping requests on one order have in common: each updates the lines it names under row
 * locks, then reads all lines, then writes the status, and holds its locks until it commits or rolls
 * back.
 */
module Overlaps {
  import opened Sums
  import opened Tables
  import opened Protocol

  /** The next statement: begin, update the line of request `pc`, read all lines, write the status, commit or roll back. */
  datatype Phase =
    | Idle
    | Updating(pc: nat)
    | Reading
    | Writing
    | Committing
    | Failing
    | Done(ok: bool)

  /** What the read found, and how many transactions had committed by then. */
  datatype Tx = Tx(phase: Phase, complete: bool, seen: nat)

  /** A transaction runs its next statement, or the database aborts it - as the victim of a deadlock, say. */
  datatype Move = Run(t: nat) | Abort(t: nat)

  function Unlock(locks: map<nat, nat>, t: nat): map<nat, nat> {
    map l | l in locks && locks[l] != t :: locks[l]
  }

  function LinesOf(requests: seq<Request>): set<nat> {
    set i | 0 <= i < |requests| :: requests[i].line
  }

  /** The locks when `t` has also locked the lines its requests name. */
  function LockAll(locks: map<nat, nat>, requests: seq<Request>, t: nat): map<nat, nat> {
    map l | l in locks.Keys + LinesOf(requests) :: if l in LinesOf(requests) then t else locks[l]
  }

  ghost predicate Ids(lists: seq<seq<Request>>, ids: seq<nat>) {
    forall i :: 0 <= i < |ids| ==> ids[i] < |lists|
  }

  ghost predicate Distinct(ids: seq<nat>) {
    forall i, j :: 0 <= i < j < |ids| ==> ids[i] != ids[j]
  }

  ghost predicate NoneEmpty(lists: seq<seq<Request>>) {
    forall t :: 0 <= t < |lists| ==> lists[t] != []
  }

  /** Some line is named by both. */
  predicate Meet(a: seq<Request>, b: seq<Request>) {
    exists i, j :: 0 <= i < |a| && 0 <= j < |b| && a[i].line == b[j].line
  }

  /** What request list `t` asks of line `l`. */
  ghost function AskOf(lists: seq<seq<Request>>, l: nat): nat -> int {
    (t: nat) => if t < |lists| then Requested(lists[t], l) else 0
  }

  lemma {:induction false} AsksNonNegative(lists: seq<seq<Request>>, ids: seq<nat>, l: nat)
    ensures 0 <= Sum(ids, AskOf(lists, l))
  {
    forall i | 0 <= i < |ids| ensures 0 <= AskOf(lists, l)(ids[i]) {
      if ids[i] < |lists| {
        SumNonNegative(lists[ids[i]], QtyOn(l));
      }
    }
    SumNonNegative(ids, AskOf(lists, l));
  }

  /** A transaction holds the locks of its first `n` lines. */
  ghost predicate Locked(lists: seq<seq<Request>>, locks: map<nat, nat>, t: nat, n: nat)
    requires t < |lists| && n <= |lists[t]|
  {
    forall i :: 0 <= i < n ==> lists[t][i].line in locks && locks[lists[t][i].line] == t
  }

  /** Two transactions that hold all their lines at once name no common line. */
  lemma {:induction false} HeldApart(lists: seq<seq<Request>>, locks: map<nat, nat>, t: nat, u: nat)
    requires t < |lists| && u < |lists| && t != u
    requires Locked(lists, locks, t, |lists[t]|) && Locked(lists, locks, u, |lists[u]|)
    ensures !Meet(lists[t], lists[u])
  {
  }

  lemma {:induction false} UnlockLocked(locks: map<nat, nat>, requests: seq<Request>, t: nat)
    requires forall l :: l in locks ==> locks[l] != t
    requires forall i :: 0 <= i < |requests| ==> requests[i].line !in locks
    ensures Unlock(LockAll(locks, requests, t), t) == locks
  {
    forall l | l in locks ensures l in Unlock(LockAll(locks, requests, t), t) && l !in LinesOf(requests) {
    }
  }

  lemma {:induction false} LockNext(locks: map<nat, nat>, requests: seq<Request>, n: nat, t: nat)
    requires n < |requests|
    ensures LockAll(locks, requests[..n + 1], t) == LockAll(locks, requests[..n], t)[requests[n].line := t]
  {
    assert LinesOf(requests[..n + 1]) == LinesOf(requests[..n]) + {requests[n].line} by {
      assert requests[..n + 1] == requests[..n] + [requests[n]];
      assert requests[..n + 1][n].line in LinesOf(requests[..n + 1]);
      forall l | l in LinesOf(requests[..n]) ensures l in LinesOf(requests[..n + 1]) {
        var i :| 0 <= i < n && requests[..n][i].line == l;
        assert requests[..n + 1][i].line == l;
      }
    }
  }

  /** The read of a transaction missed only commits of lists that have no line in common with its own. */
  ghost predicate MissedApart(lists: seq<seq<Request>>, committed: seq<nat>, t: nat, tx: Tx) {
    forall i :: tx.seen <= i < |committed| && committed[i] < |lists| && t < |lists| ==> !Meet(lists[committed[i]], lists[t])
  }

  /** This holds of every transaction that has read, committed or not; and nothing commits twice. */
  ghost predicate ReadsApart(lists: seq<seq<Request>>, txs: seq<Tx>, committed: seq<nat>) {
    && Distinct(committed)
    && (forall i :: 0 <= i < |committed| ==> committed[i] < |txs| && txs[committed[i]].phase.Done?)
    && (forall t :: 0 <= t < |txs| && (txs[t].phase.Writing? || txs[t].phase.Committing?) ==> MissedApart(lists, committed, t, txs[t]))
    && (forall n :: 0 <= n < |committed| ==> MissedApart(lists, committed[..n], committed[n], txs[committed[n]]))
  }

  /** The first commit the last one missed, if any, has no line in common with it. */
  lemma {:induction false} FirstMissed(lists: seq<seq<Request>>, txs: seq<Tx>, committed: seq<nat>)
    requires ReadsApart(lists, txs, committed) && Ids(lists, committed) && committed != []
    ensures var n := |committed| - 1;
            var seen := txs[committed[n]].seen;
            seen < n ==> !Meet(lists[committed[seen]], lists[committed[n]])
  {
    var n := |committed| - 1;
    var tx := txs[committed[n]];
    assert MissedApart(lists, committed[..n], committed[n], tx);
    if tx.seen < n {
      assert committed[..n][tx.seen] == committed[tx.seen];
    }
  }

  /** Steps of `t` that commit nothing: it has not read, or reads now, or keeps what it read. */
  lemma {:induction false} PlainKeepsApart(lists: seq<seq<Request>>, txs: seq<Tx>, committed: seq<nat>, t: nat, tx: Tx)
    requires ReadsApart(lists, txs, committed) && t < |txs| && !txs[t].phase.Done?
    requires tx.phase.Writing? || tx.phase.Committing? ==>
               tx.seen == |committed| || (tx.seen == txs[t].seen && (txs[t].phase.Writing? || txs[t].phase.Committing?))
    ensures ReadsApart(lists, txs[t := tx], committed)
  {
    if (tx.phase.Writing? || tx.phase.Committing?) && tx.seen == txs[t].seen && tx.seen != |committed| {
      assert MissedApart(lists, committed, t, txs[t]);
    }
    forall n | 0 <= n < |committed| ensures MissedApart(lists, committed[..n], committed[n], txs[t := tx][committed[n]]) {
      assert MissedApart(lists, committed[..n], committed[n], txs[committed[n]]);
    }
  }

  /** A commit of `t` meets no other transaction that has read: both hold all their lines. */
  lemma {:induction false} CommitKeepsApart(lists: seq<seq<Request>>, txs: seq<Tx>, committed: seq<nat>, t: nat, tx: Tx, locks: map<nat, nat>)
    requires ReadsApart(lists, txs, committed) && t < |txs| && |txs| == |lists|
    requires txs[t].phase.Committing? && tx.phase.Done? && tx.seen == txs[t].seen
    requires forall u :: 0 <= u < |txs| && (txs[u].phase.Writing? || txs[u].phase.Committing?) ==> Locked(lists, locks, u, |lists[u]|)
    ensures ReadsApart(lists, txs[t := tx], committed + [t])
  {
    var txs', committed' := txs[t := tx], committed + [t];
    forall u | 0 <= u < |txs'| && (txs'[u].phase.Writing? || txs'[u].phase.Committing?)
      ensures MissedApart(lists, committed', u, txs'[u])
    {
      assert MissedApart(lists, committed, u, txs[u]);
      HeldApart(lists, locks, t, u);
    }
    forall n | 0 <= n < |committed'| ensures MissedApart(lists, committed'[..n], committed'[n], txs'[committed'[n]]) {
      if n < |committed| {
        assert committed'[..n] == committed[..n];
        assert MissedApart(lists, committed[..n], committed[n], txs[committed[n]]);
      } else {
        assert committed'[..n] == committed;
        assert MissedApart(lists, committed, t, txs[t]);
      }
    }
  }
}
