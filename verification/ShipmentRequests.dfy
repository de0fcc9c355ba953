/**
 * A shipment seen from the requests alone: what its log holds, which moves are accepted, where it is
 * shown and when it is expected, and what an evaluation may do to the register's history.
 */
module ShipmentRequests {
  import opened Wrappers
  import opened Shipments
  import SL = ShipmentLifecycle

  // ---------- The log ----------

  /** Exactly these moves are allowed. */
  lemma {:induction false} MovesExactly(s: Shipment, target: SL.Status)
    ensures Allowed(s, Transition(target)) <==> Follows(s.row.status, target)
  {
  }

  /** The entry a status leaves: departure is logged as a dispatch, every other status under its own name. */
  ghost predicate LoggedAs(status: SL.Status, eventType: EventType) {
    match status
    case Created => eventType.Created?
    case Booked => eventType.Booked?
    case InTransit => eventType.Dispatched?
    case Arrived => eventType.Arrived?
    case Delivered => eventType.Delivered?
    case Cancelled => eventType.Cancelled?
  }

  /** `e` reports that `status` was reached at `at`, and says nothing about a place. */
  ghost predicate IsMilestone(e: TrackingEvent, status: SL.Status, at: int) {
    e.status == Some(status) && LoggedAs(status, e.eventType) && e.at == at && SaysNoPlace(e)
  }

  ghost predicate SaysNoPlace(e: TrackingEvent) {
    e.place.None? && e.latitude.None? && e.longitude.None?
  }

  /** `e` is what manual event `op` asked to be logged. */
  ghost predicate IsReport(e: TrackingEvent, op: Op) {
    && op.ManualEvent?
    && e.status.None? && e.eventType == op.eventType && e.at == op.at
    && e.latitude == op.latitude && e.longitude == op.longitude
    && e.place == if op.place.Named? then Some(op.place.name) else None
  }

  /** The request adds an entry: looking never does, and a move only if it is allowed. */
  ghost predicate Leaves(s: Shipment, op: Op) {
    match op
    case Transition(target) => Follows(s.row.status, target)
    case Look => false
    case _ => true
  }

  ghost predicate IsEntry(e: TrackingEvent, op: Op, now: int) {
    match op
    case Transition(target) => IsMilestone(e, target, now)
    case UpdateEta(_) => e.status.None? && e.eventType.EtaUpdated? && e.at == now && SaysNoPlace(e)
    case ManualEvent(_, _, _, _, _) => IsReport(e, op)
    case Look => false
  }

  /** The log is the creation, then the entries of the requests that leave one, in the order of the requests. */
  ghost predicate LogTells(created: int, logged: int, staleHours: nat, ops: seq<Timed>, log: seq<TrackingEvent>) {
    if ops == [] then |log| == 1 && IsMilestone(log[0], SL.Created, logged)
    else
      var n := |ops| - 1;
      if Leaves(Run(created, logged, staleHours, ops[..n]), ops[n].op) then
        && log != []
        && IsEntry(log[|log| - 1], ops[n].op, ops[n].now)
        && LogTells(created, logged, staleHours, ops[..n], log[..|log| - 1])
      else LogTells(created, logged, staleHours, ops[..n], log)
  }

  lemma {:induction false} ApplyLogs(s: Shipment, op: Op, staleHours: nat, now: int, later: int)
    ensures var t := Apply(s, op, staleHours, now, later);
            if Leaves(s, op) then |t.log| == |s.log| + 1 && t.log[..|s.log|] == s.log && IsEntry(t.log[|s.log|], op, now)
            else t.log == s.log
  {
    if op.Transition? {
      MovesExactly(s, op.target);
    }
    if Allowed(s, op) {
      EvaluateLeavesRow(Written(s, op, now), staleHours, later);
    }
  }

  lemma {:induction false} LogIsRequested(created: int, logged: int, staleHours: nat, ops: seq<Timed>)
    ensures LogTells(created, logged, staleHours, ops, Run(created, logged, staleHours, ops).log)
  {
    if ops != [] {
      var n := |ops| - 1;
      LogIsRequested(created, logged, staleHours, ops[..n]);
      ApplyLogs(Run(created, logged, staleHours, ops[..n]), ops[n].op, staleHours, ops[n].now, ops[n].later);
    }
  }

  // ---------- The row ----------

  /** The estimate the requests so far leave: that of the last update, however many came before. */
  ghost function RequestedEta(ops: seq<Timed>): Maybe<int> {
    if ops == [] then None
    else if ops[|ops| - 1].op.UpdateEta? then Some(ops[|ops| - 1].op.eta)
    else RequestedEta(ops[..|ops| - 1])
  }

  /** The latitude of the last report that gives one. */
  ghost function RequestedLatitude(ops: seq<Timed>): Maybe<int> {
    if ops == [] then None
    else
      var op := ops[|ops| - 1].op;
      if op.ManualEvent? && op.latitude.Some? then op.latitude else RequestedLatitude(ops[..|ops| - 1])
  }

  ghost function RequestedLongitude(ops: seq<Timed>): Maybe<int> {
    if ops == [] then None
    else
      var op := ops[|ops| - 1].op;
      if op.ManualEvent? && op.longitude.Some? then op.longitude else RequestedLongitude(ops[..|ops| - 1])
  }

  /**
   * After every run the expected arrival is that of the last update, and the shown coordinates are
   * those last reported, latitude and longitude each for itself.
   */
  lemma {:induction false} RowIsRequested(created: int, logged: int, staleHours: nat, ops: seq<Timed>)
    ensures var s := Run(created, logged, staleHours, ops);
            && s.eta == RequestedEta(ops)
            && s.row.latitude == RequestedLatitude(ops)
            && s.row.longitude == RequestedLongitude(ops)
  {
    if ops != [] {
      var n := |ops| - 1;
      RowIsRequested(created, logged, staleHours, ops[..n]);
      var s := Run(created, logged, staleHours, ops[..n]);
      if Allowed(s, ops[n].op) {
        EvaluateLeavesRow(Written(s, ops[n].op, ops[n].now), staleHours, ops[n].later);
      }
    }
  }

  // ---------- Cancelling ----------

  /** The log says of one of its entries that the shipment arrived, or that it was cancelled. */
  ghost predicate ArrivedOrCancelled(log: seq<TrackingEvent>) {
    FirstAt(log, {SL.Arrived, SL.Cancelled}).Some?
  }

  lemma {:induction false} FirstAtFinds(log: seq<TrackingEvent>, which: set<SL.Status>, i: nat)
    requires i < |Statuses(log)| && Statuses(log)[i] in which
    ensures FirstAt(log, which).Some?
  {
    FirstAtNeedsStatus(log, which);
  }

  lemma {:induction false} StatusBeforeArrival(s: Shipment)
    requires RowRepeatsLog(s)
    ensures ArrivedOrCancelled(s.log) <==> s.row.status.Arrived? || s.row.status.Delivered? || s.row.status.Cancelled?
  {
    var statuses := Statuses(s.log);
    var n := |statuses| - 1;
    var which := {SL.Arrived, SL.Cancelled};
    FirstAtNeedsStatus(s.log, which);
    if s.row.status.Created? || s.row.status.Booked? || s.row.status.InTransit? {
      forall i | 0 <= i < |statuses| ensures statuses[i] !in which {
        OnceOnly(statuses, i);
      }
    } else {
      assert s.row.status.Delivered? ==> Follows(statuses[n - 1], statuses[n]);
      FirstAtFinds(s.log, which, if s.row.status.Delivered? then n - 1 else n);
    }
  }

  /** Over every run a shipment can be cancelled exactly until its log says that it arrived or was cancelled. */
  lemma {:induction false} CancelUntilArrival(created: int, logged: int, staleHours: nat, ops: seq<Timed>)
    ensures var s := Run(created, logged, staleHours, ops);
            Allowed(s, Transition(SL.Cancelled)) <==> !ArrivedOrCancelled(s.log)
  {
    var s := Run(created, logged, staleHours, ops);
    RowRepeats(created, logged, staleHours, ops);
    StatusBeforeArrival(s);
    MovesExactly(s, SL.Cancelled);
  }

  // ---------- The history of exceptions ----------

  /** Rows are never removed and never change their kind, closed rows never change, and an exception that stays due keeps its row. */
  ghost predicate History(before: seq<ExceptionRow>, after: seq<ExceptionRow>) {
    && |before| <= |after|
    && (forall i :: 0 <= i < |before| ==> after[i].kind == before[i].kind && (!before[i].open ==> after[i] == before[i]))
    && (forall i :: 0 <= i < |before| && before[i].open && HasOpen(after, before[i].kind) ==> after[i].open)
  }

  /** What may happen to the register on behalf of one kind. */
  ghost predicate OneKind(before: seq<ExceptionRow>, after: seq<ExceptionRow>, kind: ExceptionKind) {
    && |before| <= |after|
    && (forall i :: 0 <= i < |before| ==>
          && after[i].kind == before[i].kind
          && (IsOpen(before[i], kind) || after[i] == before[i])
          && (IsOpen(before[i], kind) && HasOpen(after, kind) ==> after[i].open))
    && (forall i :: |before| <= i < |after| ==> after[i].kind == kind)
  }

  lemma {:induction false} ResolveIsOneKind(rows: seq<ExceptionRow>, kind: ExceptionKind)
    ensures OneKind(rows, Resolve(rows, kind), kind)
  {
    ResolveCloses(rows, kind, kind);
  }

  lemma {:induction false} RaiseIsOneKind(rows: seq<ExceptionRow>, kind: ExceptionKind, severity: Severity, minutes: int)
    ensures OneKind(rows, Raise(rows, kind, severity, minutes), kind)
  {
  }

  lemma {:induction false} KindsMakeHistory(a: seq<ExceptionRow>, b: seq<ExceptionRow>, c: seq<ExceptionRow>)
    requires OneKind(a, b, EtaExceeded) && OneKind(b, c, TrackingStale)
    ensures History(a, c)
  {
    forall i | 0 <= i < |a| && a[i].open && HasOpen(c, a[i].kind) ensures c[i].open {
      if a[i].kind.EtaExceeded? {
        var j :| 0 <= j < |c| && IsOpen(c[j], EtaExceeded);
        assert IsOpen(b[j], EtaExceeded);
        assert IsOpen(a[i], EtaExceeded) && b[i].open;
      } else {
        assert b[i] == a[i];
      }
    }
  }

  /** What an evaluation does about delays. */
  function AfterEta(s: Shipment, now: int): seq<ExceptionRow> {
    var delay := if s.eta.Some? then Minutes(s.eta.value, now) else 0;
    if Watched(s) && Late(s, now) then Raise(s.exceptions, EtaExceeded, if DAY_MINUTES <= delay then Critical else Warning, delay)
    else Resolve(s.exceptions, EtaExceeded)
  }

  lemma {:induction false} EtaIsOneKind(s: Shipment, now: int)
    ensures OneKind(s.exceptions, AfterEta(s, now), EtaExceeded)
  {
    var delay := if s.eta.Some? then Minutes(s.eta.value, now) else 0;
    RaiseIsOneKind(s.exceptions, EtaExceeded, if DAY_MINUTES <= delay then Critical else Warning, delay);
    ResolveIsOneKind(s.exceptions, EtaExceeded);
  }

  lemma {:induction false} EvaluateInTwo(s: Shipment, staleHours: nat, now: int)
    ensures Evaluate(s, staleHours, now).exceptions
            == if Watched(s) && Stale(s, staleHours, now) then Raise(AfterEta(s, now), TrackingStale, Warning, 0)
               else Resolve(AfterEta(s, now), TrackingStale)
  {
  }

  lemma {:induction false} StaleIsOneKind(s: Shipment, staleHours: nat, now: int)
    ensures OneKind(AfterEta(s, now), Evaluate(s, staleHours, now).exceptions, TrackingStale)
  {
    EvaluateInTwo(s, staleHours, now);
    RaiseIsOneKind(AfterEta(s, now), TrackingStale, Warning, 0);
    ResolveIsOneKind(AfterEta(s, now), TrackingStale);
  }

  lemma {:induction false} EvaluateHistory(s: Shipment, staleHours: nat, now: int)
    ensures History(s.exceptions, Evaluate(s, staleHours, now).exceptions)
  {
    EtaIsOneKind(s, now);
    StaleIsOneKind(s, staleHours, now);
    KindsMakeHistory(s.exceptions, AfterEta(s, now), Evaluate(s, staleHours, now).exceptions);
  }

  lemma {:induction false} WrittenLeavesRegister(s: Shipment, op: Op, now: int)
    ensures Written(s, op, now).exceptions == s.exceptions
  {
  }

  /** Over every run the register of exceptions is a history: each further request only adds rows, refreshes open ones or closes them. */
  lemma {:induction false} RegisterIsHistory(created: int, logged: int, staleHours: nat, ops: seq<Timed>)
    requires ops != []
    ensures History(Run(created, logged, staleHours, ops[..|ops| - 1]).exceptions, Run(created, logged, staleHours, ops).exceptions)
  {
    var n := |ops| - 1;
    var s := Run(created, logged, staleHours, ops[..n]);
    if Allowed(s, ops[n].op) {
      WrittenLeavesRegister(s, ops[n].op, ops[n].now);
      EvaluateHistory(Written(s, ops[n].op, ops[n].now), staleHours, ops[n].later);
    }
  }
}
