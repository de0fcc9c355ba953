/**
 * A shipment: a row that must agree with its append-only tracking log, and a register of
 * exceptions derived from it.  Times are in milliseconds.
 */
module Shipments {
  import opened Wrappers
  import SL = ShipmentLifecycle

  datatype EventType =
    | Created | Booked | Dispatched | InTransit | Arrived | Delivered | Cancelled
    | Delayed | EtaUpdated | LocationUpdated | NoteAdded

  /** A place name as a request sends it: left out, explicitly null, or a name. */
  datatype Patch = Absent | Null | Named(name: string)

  /** What is reported about a shipment; only transitions and creation carry a status. */
  datatype Report = Report(
    eventType: EventType,
    status: Maybe<SL.Status>,
    at: int,
    place: Patch,
    latitude: Maybe<int>,
    longitude: Maybe<int>)

  /** One entry of the tracking log. */
  datatype TrackingEvent = TrackingEvent(
    eventType: EventType,
    status: Maybe<SL.Status>,
    at: int,
    place: Maybe<string>,
    latitude: Maybe<int>,
    longitude: Maybe<int>)

  /** The part of the shipment row that repeats what the log says. */
  datatype Projection = Projection(
    status: SL.Status,
    departed: Maybe<int>,
    arrived: Maybe<int>,
    delivered: Maybe<int>,
    lastTracking: int,
    place: Maybe<string>,
    latitude: Maybe<int>,
    longitude: Maybe<int>)

  datatype ExceptionKind = EtaExceeded | TrackingStale

  datatype Severity = Warning | Critical

  /** `minutes` is the delay an ETA exception reports; a staleness exception reports none. */
  datatype ExceptionRow = ExceptionRow(kind: ExceptionKind, severity: Severity, minutes: int, open: bool)

  datatype Shipment = Shipment(row: Projection, eta: Maybe<int>, log: seq<TrackingEvent>, exceptions: seq<ExceptionRow>)

  const MINUTE := 60000
  const DAY_MINUTES := 24 * 60

  function Or<T>(m: Maybe<T>, default: T): Maybe<T> {
    if m.Some? then m else Some(default)
  }

  function Newer<T>(m: Maybe<T>, older: Maybe<T>): Maybe<T> {
    if m.Some? then m else older
  }

  // ---------- Operations ----------

  /** The report says where the shipment is; an empty name alone does not. */
  predicate Locates(r: Report) {
    (r.place.Named? && r.place.name != "") || r.latitude.Some? || r.longitude.Some?
  }

  /** How a report is logged: a null name and one left out look the same. */
  function Logged(r: Report): TrackingEvent {
    TrackingEvent(r.eventType, r.status, r.at, if r.place.Named? then Some(r.place.name) else None, r.latitude, r.longitude)
  }

  /** A name left out keeps the old one; a null name clears it. */
  function Patched(place: Patch, shown: Maybe<string>): Maybe<string> {
    match place
    case Absent => shown
    case Null => None
    case Named(name) => Some(name)
  }

  /** Appends to the log and patches the row with what the report says. */
  function Append(s: Shipment, r: Report): Shipment {
    var row := s.row.(lastTracking := r.at);
    var located := if Locates(r)
                   then row.(place := Patched(r.place, row.place), latitude := Newer(r.latitude, row.latitude),
                             longitude := Newer(r.longitude, row.longitude))
                   else row;
    s.(row := located, log := s.log + [Logged(r)])
  }

  function EventTypeFor(status: SL.Status): EventType {
    match status
    case Created => EventType.Created
    case Booked => EventType.Booked
    case InTransit => Dispatched
    case Arrived => EventType.Arrived
    case Delivered => EventType.Delivered
    case Cancelled => EventType.Cancelled
  }

  function StatusEvent(status: SL.Status, at: int): Report {
    Report(EventTypeFor(status), Some(status), at, Absent, None, None)
  }

  /** A new shipment; the log entry is written a moment after the row. */
  function Create(now: int, later: int): Shipment {
    Append(Shipment(Projection(SL.Created, None, None, None, now, None, None, None), None, [], []), StatusEvent(SL.Created, later))
  }

  /** What reaching `target` writes to the row. */
  function Reach(row: Projection, target: SL.Status, now: int): Projection {
    row.(status := target,
         departed := if target.InTransit? then Or(row.departed, now) else row.departed,
         arrived := if target.Arrived? || target.Delivered? then Or(row.arrived, now) else row.arrived,
         delivered := if target.Delivered? then Some(now) else row.delivered)
  }

  predicate IsOpen(r: ExceptionRow, kind: ExceptionKind) {
    r.open && r.kind == kind
  }

  predicate HasOpen(rows: seq<ExceptionRow>, kind: ExceptionKind) {
    exists i :: 0 <= i < |rows| && IsOpen(rows[i], kind)
  }

  function Resolve(rows: seq<ExceptionRow>, kind: ExceptionKind): seq<ExceptionRow> {
    seq(|rows|, i requires 0 <= i < |rows| => if IsOpen(rows[i], kind) then rows[i].(open := false) else rows[i])
  }

  /** Position of the first open row of a kind, or the table size. */
  function FirstOpen(rows: seq<ExceptionRow>, kind: ExceptionKind): (i: nat)
    ensures i <= |rows|
    ensures forall j :: 0 <= j < i ==> !IsOpen(rows[j], kind)
    ensures i < |rows| ==> IsOpen(rows[i], kind)
  {
    if rows == [] then 0
    else if IsOpen(rows[0], kind) then 0
    else
      var rest := FirstOpen(rows[1..], kind);
      assert forall j :: 1 <= j < 1 + rest ==> rows[j] == rows[1..][j - 1];
      1 + rest
  }

  /** Refreshes the open exception of the kind, or opens one. */
  function Raise(rows: seq<ExceptionRow>, kind: ExceptionKind, severity: Severity, minutes: int): seq<ExceptionRow> {
    var i := FirstOpen(rows, kind);
    if i < |rows| then rows[i := rows[i].(severity := severity, minutes := minutes)]
    else rows + [ExceptionRow(kind, severity, minutes, true)]
  }

  /** Whole minutes between two times, rounded down. */
  function Minutes(from: int, to: int): int {
    (to - from) / MINUTE
  }

  predicate Late(s: Shipment, now: int) {
    s.eta.Some? && s.eta.value < now
  }

  predicate Stale(s: Shipment, staleHours: nat, now: int) {
    staleHours * 60 < Minutes(s.row.lastTracking, now)
  }

  /** Brings the exception register in line with the row at time `now`. */
  function Evaluate(s: Shipment, staleHours: nat, now: int): Shipment {
    if s.row.status !in SL.ACTIVE then
      s.(exceptions := Resolve(Resolve(s.exceptions, EtaExceeded), TrackingStale))
    else
      var delay := if s.eta.Some? then Minutes(s.eta.value, now) else 0;
      var afterEta := if Late(s, now) then Raise(s.exceptions, EtaExceeded, if DAY_MINUTES <= delay then Critical else Warning, delay)
                      else Resolve(s.exceptions, EtaExceeded);
      s.(exceptions := if Stale(s, staleHours, now) then Raise(afterEta, TrackingStale, Warning, 0) else Resolve(afterEta, TrackingStale))
  }

  /** What a user may do to a shipment; every operation reads the clock once before it writes and once when it evaluates. */
  datatype Op =
    | Transition(target: SL.Status)
    | UpdateEta(eta: int)
    | ManualEvent(eventType: EventType, at: int, place: Patch, latitude: Maybe<int>, longitude: Maybe<int>)
    | Look

  predicate Allowed(s: Shipment, op: Op) {
    op.Transition? ==> SL.CanMove(s.row.status, op.target)
  }

  /** The shipment between the writes of an allowed operation and its evaluation. */
  function Written(s: Shipment, op: Op, now: int): Shipment {
    match op
    case Transition(target) => Append(s.(row := Reach(s.row, target, now)), StatusEvent(target, now))
    case UpdateEta(eta) => Append(s.(eta := Some(eta)), Report(EtaUpdated, None, now, Absent, None, None))
    case ManualEvent(eventType, at, place, latitude, longitude) =>
      Append(s, Report(eventType, None, at, place, latitude, longitude))
    case Look => s
  }

  /** The shipment after an operation that writes at `now` and evaluates at `later`; a refused transition changes nothing. */
  function Apply(s: Shipment, op: Op, staleHours: nat, now: int, later: int): Shipment {
    if Allowed(s, op) then Evaluate(Written(s, op, now), staleHours, later) else s
  }

  /** One operation with its two readings of the clock. */
  datatype Timed = Timed(op: Op, now: int, later: int)

  function Run(created: int, logged: int, staleHours: nat, ops: seq<Timed>): Shipment {
    if ops == [] then Create(created, logged)
    else
      var n := |ops| - 1;
      Apply(Run(created, logged, staleHours, ops[..n]), ops[n].op, staleHours, ops[n].now, ops[n].later)
  }

  /** The clock never runs backwards. */
  ghost predicate Clocked(created: int, logged: int, ops: seq<Timed>) {
    && created <= logged
    && (forall i :: 0 <= i < |ops| ==> logged <= ops[i].now <= ops[i].later)
    && (forall i, j :: 0 <= i < j < |ops| ==> ops[i].later <= ops[j].now)
  }

  // ---------- The row repeats the log ----------

  /** The statuses the log carries, in order. */
  ghost function Statuses(log: seq<TrackingEvent>): seq<SL.Status> {
    if log == [] then []
    else
      var n := |log| - 1;
      Statuses(log[..n]) + if log[n].status.Some? then [log[n].status.value] else []
  }

  /** When the log first carried one of the statuses `which`. */
  ghost function FirstAt(log: seq<TrackingEvent>, which: set<SL.Status>): Maybe<int> {
    if log == [] then None
    else
      var n := |log| - 1;
      var before := FirstAt(log[..n], which);
      if before.Some? then before
      else if log[n].status.Some? && log[n].status.value in which then Some(log[n].at)
      else None
  }

  ghost function LastLatitude(log: seq<TrackingEvent>): Maybe<int> {
    if log == [] then None else Newer(log[|log| - 1].latitude, LastLatitude(log[..|log| - 1]))
  }

  ghost function LastLongitude(log: seq<TrackingEvent>): Maybe<int> {
    if log == [] then None else Newer(log[|log| - 1].longitude, LastLongitude(log[..|log| - 1]))
  }

  /** The last name the log defines. */
  ghost function LastPlace(log: seq<TrackingEvent>): Maybe<string> {
    if log == [] then None else Newer(log[|log| - 1].place, LastPlace(log[..|log| - 1]))
  }

  /** The last name the log defines in an entry that locates the shipment. */
  ghost function LocatedPlace(log: seq<TrackingEvent>): Maybe<string> {
    if log == [] then None
    else
      var n := |log| - 1;
      if LogLocates(log[n]) then Newer(log[n].place, LocatedPlace(log[..n])) else LocatedPlace(log[..n])
  }

  predicate LogLocates(e: TrackingEvent) {
    (e.place.Some? && e.place.value != "") || e.latitude.Some? || e.longitude.Some?
  }

  function Rank(status: SL.Status): nat {
    match status
    case Created => 0
    case Booked => 1
    case InTransit => 2
    case Arrived => 3
    case Delivered => 4
    case Cancelled => 5
  }

  /** One stage further on the way from created to delivered, or cancelled before the shipment has arrived. */
  predicate Follows(current: SL.Status, target: SL.Status) {
    if target.Cancelled? then current.Created? || current.Booked? || current.InTransit?
    else Rank(target) == Rank(current) + 1
  }

  /** The statuses lead from creation along the transition table. */
  ghost predicate Path(statuses: seq<SL.Status>) {
    && statuses != []
    && statuses[0] == SL.Created
    && forall i :: 0 < i < |statuses| ==> Follows(statuses[i - 1], statuses[i])
  }

  ghost predicate RowRepeatsLog(s: Shipment) {
    && s.log != []
    && Path(Statuses(s.log))
    && s.row.status == Statuses(s.log)[|Statuses(s.log)| - 1]
    && s.row.lastTracking == s.log[|s.log| - 1].at
    && s.row.departed == FirstAt(s.log, {SL.InTransit})
    && s.row.arrived == FirstAt(s.log, {SL.Arrived, SL.Delivered})
    && s.row.delivered == FirstAt(s.log, {SL.Delivered})
    && s.row.latitude == LastLatitude(s.log)
    && s.row.longitude == LastLongitude(s.log)
  }

  /** How far a shipment has come, as seen from its row. */
  ghost predicate TimesOk(s: Shipment, now: int) {
    && (s.row.status.Created? || s.row.status.Booked? ==> s.row.departed.None? && s.row.arrived.None?)
    && (s.row.status.InTransit? ==> s.row.departed.Some? && s.row.arrived.None?)
    && (s.row.status.Arrived? || s.row.status.Delivered? ==> s.row.departed.Some? && s.row.arrived.Some?)
    && (s.row.delivered.Some? <==> s.row.status.Delivered?)
    && (s.row.departed.Some? ==> s.row.departed.value <= now)
    && (s.row.arrived.Some? ==> s.row.departed.Some? && s.row.departed.value <= s.row.arrived.value <= now)
    && (s.row.delivered.Some? ==> s.row.arrived.Some? && s.row.arrived.value <= s.row.delivered.value <= now)
  }

  lemma {:induction false} AppendToLog(s: Shipment, e: Report)
    ensures Append(s, e).log[..|s.log|] == s.log
    ensures Append(s, e).log[|s.log|] == Logged(e)
  {
  }

  /** An event without a status keeps the row in step. */
  lemma {:induction false} AppendRepeats(s: Shipment, e: Report)
    requires RowRepeatsLog(s) && e.status.None?
    ensures RowRepeatsLog(Append(s, e))
  {
    AppendToLog(s, e);
    assert Statuses(Append(s, e).log) == Statuses(s.log);
  }

  /** A status is logged once at most: no transition leads back to it. */
  lemma {:induction false} OnceOnly(statuses: seq<SL.Status>, i: nat)
    requires Path(statuses) && i < |statuses|
    ensures Rank(statuses[i]) <= Rank(statuses[|statuses| - 1])
    decreases |statuses| - i
  {
    if i < |statuses| - 1 {
      assert Follows(statuses[i + 1 - 1], statuses[i + 1]);
      OnceOnly(statuses, i + 1);
    }
  }

  lemma {:induction false} FirstAtNeedsStatus(log: seq<TrackingEvent>, which: set<SL.Status>)
    ensures FirstAt(log, which).Some? <==> exists i :: 0 <= i < |Statuses(log)| && Statuses(log)[i] in which
  {
    if log != [] {
      var n := |log| - 1;
      FirstAtNeedsStatus(log[..n], which);
      var before := Statuses(log[..n]);
      var all := Statuses(log);
      if i :| 0 <= i < |before| && before[i] in which {
        assert all[i] in which;
      } else if log[n].status.Some? && log[n].status.value in which {
        assert all[|all| - 1] in which;
      } else {
        forall i | 0 <= i < |all| ensures all[i] !in which {
          if i < |before| {
            assert all[i] == before[i];
          }
        }
      }
    }
  }

  /** A transition keeps the row in step with the log. */
  lemma {:induction false} ReachRepeats(s: Shipment, target: SL.Status, now: int)
    requires RowRepeatsLog(s) && SL.CanMove(s.row.status, target)
    ensures RowRepeatsLog(Append(s.(row := Reach(s.row, target, now)), StatusEvent(target, now)))
  {
    var t := Append(s.(row := Reach(s.row, target, now)), StatusEvent(target, now));
    var statuses := Statuses(s.log);
    assert t.log[..|s.log|] == s.log;
    assert Statuses(t.log) == statuses + [target];
    if target.Delivered? || target.InTransit? {
      NotLoggedYet(s, target);
    }
  }

  lemma {:induction false} NotLoggedYet(s: Shipment, target: SL.Status)
    requires RowRepeatsLog(s) && SL.CanMove(s.row.status, target)
    ensures FirstAt(s.log, {target}).None?
  {
    var statuses := Statuses(s.log);
    FirstAtNeedsStatus(s.log, {target});
    forall i | 0 <= i < |statuses| ensures statuses[i] != target {
      OnceOnly(statuses, i);
    }
  }

  lemma {:induction false} CreateRepeats(now: int, later: int)
    ensures RowRepeatsLog(Create(now, later))
  {
    var s := Create(now, later);
    assert s.log == [Logged(StatusEvent(SL.Created, later))];
    assert s.log[..0] == [];
    assert Statuses(s.log) == [SL.Created];
  }

  lemma {:induction false} WrittenRepeats(s: Shipment, op: Op, now: int)
    requires RowRepeatsLog(s) && Allowed(s, op)
    ensures RowRepeatsLog(Written(s, op, now))
  {
    match op
    case Transition(target) => ReachRepeats(s, target, now);
    case UpdateEta(eta) => AppendRepeats(s.(eta := Some(eta)), Report(EtaUpdated, None, now, Absent, None, None));
    case ManualEvent(eventType, at, place, latitude, longitude) =>
      AppendRepeats(s, Report(eventType, None, at, place, latitude, longitude));
    case Look =>
  }

  lemma {:induction false} EvaluateLeavesRow(s: Shipment, staleHours: nat, now: int)
    ensures Evaluate(s, staleHours, now).row == s.row && Evaluate(s, staleHours, now).log == s.log
  {
  }

  /** The place the requests so far leave: the last one that locates the shipment decides, unless it leaves the name out. */
  ghost function RequestedPlace(ops: seq<Timed>): Maybe<string> {
    if ops == [] then None
    else
      var before := RequestedPlace(ops[..|ops| - 1]);
      match ops[|ops| - 1].op
      case ManualEvent(eventType, at, place, latitude, longitude) =>
        if Locates(Report(eventType, None, at, place, latitude, longitude)) then Patched(place, before) else before
      case _ => before
  }

  lemma {:induction false} RowRepeats(created: int, logged: int, staleHours: nat, ops: seq<Timed>)
    ensures RowRepeatsLog(Run(created, logged, staleHours, ops))
  {
    if ops == [] {
      CreateRepeats(created, logged);
    } else {
      var n := |ops| - 1;
      var s := Run(created, logged, staleHours, ops[..n]);
      RowRepeats(created, logged, staleHours, ops[..n]);
      if Allowed(s, ops[n].op) {
        WrittenRepeats(s, ops[n].op, ops[n].now);
        EvaluateLeavesRow(Written(s, ops[n].op, ops[n].now), staleHours, ops[n].later);
      }
    }
  }

  lemma {:induction false} PlaceIsRequested(created: int, logged: int, staleHours: nat, ops: seq<Timed>)
    ensures Run(created, logged, staleHours, ops).row.place == RequestedPlace(ops)
  {
    if ops != [] {
      var n := |ops| - 1;
      var s := Run(created, logged, staleHours, ops[..n]);
      PlaceIsRequested(created, logged, staleHours, ops[..n]);
      if Allowed(s, ops[n].op) {
        EvaluateLeavesRow(Written(s, ops[n].op, ops[n].now), staleHours, ops[n].later);
      }
    }
  }

  /**
   * After every run the row is what its log says - last status on a legal path, first times, last
   * tracking time, last coordinates - and the shown place is what the requests said.  The place is
   * not always what the log says: see `PlaceFollowsLogExactly`.
   */
  lemma {:induction false} RowFollowsLog(created: int, logged: int, staleHours: nat, ops: seq<Timed>)
    ensures RowRepeatsLog(Run(created, logged, staleHours, ops))
    ensures Run(created, logged, staleHours, ops).row.place == RequestedPlace(ops)
  {
    RowRepeats(created, logged, staleHours, ops);
    PlaceIsRequested(created, logged, staleHours, ops);
  }

  lemma {:induction false} WrittenTimes(s: Shipment, op: Op, now: int, clock: int)
    requires TimesOk(s, now) && Allowed(s, op) && now <= clock
    ensures TimesOk(Written(s, op, now), clock)
  {
  }

  lemma {:induction false} ClockedPrefix(created: int, logged: int, ops: seq<Timed>)
    requires Clocked(created, logged, ops) && ops != []
    ensures var n := |ops| - 1;
            Clocked(created, logged, ops[..n]) && forall i :: 0 <= i < n ==> ops[..n][i].later <= ops[n].now
  {
  }

  /** With a clock that never runs backwards, departure, arrival and delivery come in order, and delivery is stamped exactly when delivered. */
  lemma {:induction false} TimesInOrder(created: int, logged: int, staleHours: nat, ops: seq<Timed>, now: int)
    requires Clocked(created, logged, ops)
    requires forall i :: 0 <= i < |ops| ==> ops[i].later <= now
    ensures TimesOk(Run(created, logged, staleHours, ops), now)
  {
    if ops != [] {
      var n := |ops| - 1;
      var s := Run(created, logged, staleHours, ops[..n]);
      ClockedPrefix(created, logged, ops);
      TimesInOrder(created, logged, staleHours, ops[..n], ops[n].now);
      if Allowed(s, ops[n].op) {
        WrittenTimes(s, ops[n].op, ops[n].now, now);
        EvaluateLeavesRow(Written(s, ops[n].op, ops[n].now), staleHours, ops[n].later);
      }
    }
  }

  // ---------- The shown place ----------

  /** The request names the empty place and nothing else: it is logged but not shown. */
  predicate Blank(op: Op) {
    op.ManualEvent? && op.place == Named("") && op.latitude.None? && op.longitude.None?
  }

  /** The request sends a null name with coordinates: the shown name is cleared, and the log does not tell. */
  predicate Clears(op: Op) {
    op.ManualEvent? && op.place.Null? && (op.latitude.Some? || op.longitude.Some?)
  }

  ghost predicate ShowsLocated(s: Shipment) {
    s.row.place == LocatedPlace(s.log)
  }

  ghost predicate ShowsLast(s: Shipment) {
    s.row.place == LastPlace(s.log)
  }

  lemma {:induction false} ApplyToPlace(s: Shipment, op: Op, staleHours: nat, now: int, later: int)
    ensures var t := Apply(s, op, staleHours, now, later);
            && (ShowsLocated(s) ==> (ShowsLocated(t) <==> (Clears(op) ==> s.row.place.None?)))
            && (ShowsLast(s) ==> (ShowsLast(t) <==> (Clears(op) ==> s.row.place.None?) && (Blank(op) ==> s.row.place == Some(""))))
  {
    if Allowed(s, op) {
      EvaluateLeavesRow(Written(s, op, now), staleHours, later);
      if !op.Look? {
        assert Written(s, op, now).log[..|s.log|] == s.log;
      }
    }
  }

  /** After every request of the run the shown place is the last one located in the log. */
  ghost predicate AlwaysLocated(created: int, logged: int, staleHours: nat, ops: seq<Timed>) {
    && ShowsLocated(Run(created, logged, staleHours, ops))
    && (ops == [] || AlwaysLocated(created, logged, staleHours, ops[..|ops| - 1]))
  }

  /** After every request of the run the shown place is the last one named in the log. */
  ghost predicate AlwaysLast(created: int, logged: int, staleHours: nat, ops: seq<Timed>) {
    && ShowsLast(Run(created, logged, staleHours, ops))
    && (ops == [] || AlwaysLast(created, logged, staleHours, ops[..|ops| - 1]))
  }

  /** Null names with coordinates only come while no place is shown. */
  ghost predicate ClearsNothing(created: int, logged: int, staleHours: nat, ops: seq<Timed>) {
    ops == []
    || (var n := |ops| - 1;
        && ClearsNothing(created, logged, staleHours, ops[..n])
        && (Clears(ops[n].op) ==> Run(created, logged, staleHours, ops[..n]).row.place.None?))
  }

  /** Empty names without coordinates only come while the shown name is empty already. */
  ghost predicate BlanksNothing(created: int, logged: int, staleHours: nat, ops: seq<Timed>) {
    ops == []
    || (var n := |ops| - 1;
        && BlanksNothing(created, logged, staleHours, ops[..n])
        && (Blank(ops[n].op) ==> Run(created, logged, staleHours, ops[..n]).row.place == Some("")))
  }

  lemma {:induction false} NoPlaceYet(created: int, logged: int)
    ensures ShowsLocated(Create(created, logged)) && ShowsLast(Create(created, logged))
  {
    var log := Create(created, logged).log;
    assert log == [Logged(StatusEvent(SL.Created, logged))];
    assert log[..0] == [];
  }

  /** The shown place is a fold of the log at every moment exactly if no request clears a shown place with a null name. */
  lemma {:induction false} PlaceFollowsLogExactly(created: int, logged: int, staleHours: nat, ops: seq<Timed>)
    ensures AlwaysLocated(created, logged, staleHours, ops) <==> ClearsNothing(created, logged, staleHours, ops)
  {
    if ops == [] {
      NoPlaceYet(created, logged);
    } else {
      var n := |ops| - 1;
      PlaceFollowsLogExactly(created, logged, staleHours, ops[..n]);
      ApplyToPlace(Run(created, logged, staleHours, ops[..n]), ops[n].op, staleHours, ops[n].now, ops[n].later);
      assert AlwaysLocated(created, logged, staleHours, ops[..n]) ==> ShowsLocated(Run(created, logged, staleHours, ops[..n]));
    }
  }

  /**
   * The shown place is at every moment the last one named in the log exactly if no request clears a
   * shown place with a null name and no request logs an empty name that is not shown.
   */
  lemma {:induction false} PlaceIsLastExactly(created: int, logged: int, staleHours: nat, ops: seq<Timed>)
    ensures AlwaysLast(created, logged, staleHours, ops)
            <==> ClearsNothing(created, logged, staleHours, ops) && BlanksNothing(created, logged, staleHours, ops)
  {
    if ops == [] {
      NoPlaceYet(created, logged);
    } else {
      var n := |ops| - 1;
      PlaceIsLastExactly(created, logged, staleHours, ops[..n]);
      ApplyToPlace(Run(created, logged, staleHours, ops[..n]), ops[n].op, staleHours, ops[n].now, ops[n].later);
      assert AlwaysLast(created, logged, staleHours, ops[..n]) ==> ShowsLast(Run(created, logged, staleHours, ops[..n]));
    }
  }

  /** Two manual location updates, one after the other. */
  function TwoReports(first: Patch, second: Patch, coordinates: Maybe<int>): seq<Timed> {
    [Timed(ManualEvent(LocationUpdated, 2, first, coordinates, coordinates), 2, 3),
     Timed(ManualEvent(LocationUpdated, 4, second, coordinates, coordinates), 4, 5)]
  }

  lemma {:induction false} TwoReportsRun(first: Patch, second: Patch, coordinates: Maybe<int>)
    ensures var ops := TwoReports(first, second, coordinates);
            var one := Report(LocationUpdated, None, 2, first, coordinates, coordinates);
            var two := Report(LocationUpdated, None, 4, second, coordinates, coordinates);
            var s := Run(0, 1, 24, ops);
            && s.log == [Logged(StatusEvent(SL.Created, 1)), Logged(one), Logged(two)]
            && s.row.place == (var shown := if Locates(one) then Patched(first, None) else None;
                               if Locates(two) then Patched(second, shown) else shown)
  {
    var ops := TwoReports(first, second, coordinates);
    assert ops[..1][..0] == [];
    assert ops[..1] == [ops[0]];
    var created := Run(0, 1, 24, []);
    var s1 := Run(0, 1, 24, ops[..1]);
    assert s1 == Apply(created, ops[0].op, 24, 2, 3);
    EvaluateLeavesRow(Written(created, ops[0].op, 2), 24, 3);
    EvaluateLeavesRow(Written(s1, ops[1].op, 4), 24, 5);
  }

  /** An empty name after "Dock 1", without coordinates: logged, but "Dock 1" stays shown. */
  lemma {:induction false} EmptyNameIsNotShown()
    ensures var s := Run(0, 1, 24, TwoReports(Named("Dock 1"), Named(""), None));
            s.row.place == Some("Dock 1") && LastPlace(s.log) == Some("")
  {
    TwoReportsRun(Named("Dock 1"), Named(""), None);
  }

  /**
   * A null name after "Dock 1", with coordinates: nothing is shown although the log last named
   * "Dock 1".  Leaving the name out instead writes the same log and keeps "Dock 1", so the row is
   * no function of the log.
   */
  lemma {:induction false} NullNameClears()
    ensures var cleared := Run(0, 1, 24, TwoReports(Named("Dock 1"), Null, Some(7)));
            var kept := Run(0, 1, 24, TwoReports(Named("Dock 1"), Absent, Some(7)));
            && cleared.row.place == None && LastPlace(cleared.log) == Some("Dock 1")
            && kept.row.place == Some("Dock 1")
            && kept.log == cleared.log
  {
    TwoReportsRun(Named("Dock 1"), Null, Some(7));
    TwoReportsRun(Named("Dock 1"), Absent, Some(7));
    LastOfThree(Run(0, 1, 24, TwoReports(Named("Dock 1"), Null, Some(7))).log);
  }

  lemma {:induction false} LastOfThree(log: seq<TrackingEvent>)
    requires |log| == 3
    ensures LastPlace(log) == Newer(log[2].place, Newer(log[1].place, log[0].place))
  {
    assert log[..2][..1] == log[..1] && log[..1][..0] == [];
    assert LastPlace(log[..1]) == log[0].place;
    assert LastPlace(log[..2]) == Newer(log[1].place, log[0].place);
  }

  // ---------- The exception register ----------

  ghost predicate AtMostOneOpen(rows: seq<ExceptionRow>, kind: ExceptionKind) {
    forall i, j :: 0 <= i < j < |rows| ==> !(IsOpen(rows[i], kind) && IsOpen(rows[j], kind))
  }

  /** The shipment is still under way: exceptions are looked for until it is delivered or cancelled. */
  predicate Watched(s: Shipment) {
    !s.row.status.Delivered? && !s.row.status.Cancelled?
  }

  ghost predicate RegisterOk(s: Shipment) {
    && (forall kind :: AtMostOneOpen(s.exceptions, kind))
    && (s.row.status.Delivered? || s.row.status.Cancelled? ==> forall kind :: !HasOpen(s.exceptions, kind))
  }

  lemma {:induction false} ResolveCloses(rows: seq<ExceptionRow>, kind: ExceptionKind, other: ExceptionKind)
    ensures !HasOpen(Resolve(rows, kind), kind)
    ensures other != kind ==> (HasOpen(Resolve(rows, kind), other) <==> HasOpen(rows, other))
    ensures AtMostOneOpen(rows, other) ==> AtMostOneOpen(Resolve(rows, kind), other)
  {
    if other != kind && HasOpen(rows, other) {
      var i :| 0 <= i < |rows| && IsOpen(rows[i], other);
      assert IsOpen(Resolve(rows, kind)[i], other);
    }
  }

  lemma {:induction false} RaiseOpens(rows: seq<ExceptionRow>, kind: ExceptionKind, severity: Severity, minutes: int, other: ExceptionKind)
    ensures HasOpen(Raise(rows, kind, severity, minutes), kind)
    ensures other != kind ==> (HasOpen(Raise(rows, kind, severity, minutes), other) <==> HasOpen(rows, other))
    ensures AtMostOneOpen(rows, other) ==> AtMostOneOpen(Raise(rows, kind, severity, minutes), other)
    ensures AtMostOneOpen(rows, kind) ==>
              forall r :: r in Raise(rows, kind, severity, minutes) && IsOpen(r, kind) ==> r.severity == severity && r.minutes == minutes
  {
    var i := FirstOpen(rows, kind);
    var rows' := Raise(rows, kind, severity, minutes);
    assert IsOpen(rows'[i], kind);
    if other != kind && HasOpen(rows, other) {
      var j :| 0 <= j < |rows| && IsOpen(rows[j], other);
      assert IsOpen(rows'[j], other);
    }
    if other != kind && HasOpen(rows', other) {
      var j :| 0 <= j < |rows'| && IsOpen(rows'[j], other);
      assert IsOpen(rows[j], other);
    }
  }

  /** Every open ETA exception reports the whole minutes of the delay, in milliseconds, and is critical exactly from a full day on. */
  ghost predicate ReportsDelay(rows: seq<ExceptionRow>, delay: int) {
    forall r :: r in rows && IsOpen(r, EtaExceeded) ==>
      && r.minutes * 60000 <= delay < (r.minutes + 1) * 60000
      && (r.severity.Critical? <==> 86400000 <= delay)
  }

  lemma {:induction false} MinutesRoundDown(from: int, to: int)
    ensures Minutes(from, to) * MINUTE <= to - from < (Minutes(from, to) + 1) * MINUTE
    ensures DAY_MINUTES <= Minutes(from, to) <==> DAY_MINUTES * MINUTE <= to - from
  {
  }

  /** What an evaluation reports about a late shipment. */
  lemma {:induction false} EvaluateReportsDelay(s: Shipment, staleHours: nat, now: int)
    requires AtMostOneOpen(s.exceptions, EtaExceeded) && Watched(s) && Late(s, now)
    ensures ReportsDelay(Evaluate(s, staleHours, now).exceptions, now - s.eta.value)
  {
    var delay := Minutes(s.eta.value, now);
    var severity := if DAY_MINUTES <= delay then Critical else Warning;
    var afterEta := Raise(s.exceptions, EtaExceeded, severity, delay);
    MinutesRoundDown(s.eta.value, now);
    RaiseOpens(s.exceptions, EtaExceeded, severity, delay, EtaExceeded);
    forall r | r in Evaluate(s, staleHours, now).exceptions && IsOpen(r, EtaExceeded) ensures r in afterEta {
      OtherKindStays(afterEta, TrackingStale, r);
    }
  }

  /** Every open staleness exception is a warning. */
  ghost predicate OnlyWarns(rows: seq<ExceptionRow>) {
    forall r :: r in rows && IsOpen(r, TrackingStale) ==> r.severity.Warning? && r.minutes == 0
  }

  lemma {:induction false} EvaluateWarns(s: Shipment, staleHours: nat, now: int)
    requires forall kind :: AtMostOneOpen(s.exceptions, kind)
    ensures OnlyWarns(Evaluate(s, staleHours, now).exceptions)
  {
    EvaluateIsExact(s, staleHours, now);
    var rows := Evaluate(s, staleHours, now).exceptions;
    if HasOpen(rows, TrackingStale) {
      var delay := if s.eta.Some? then Minutes(s.eta.value, now) else 0;
      var severity := if DAY_MINUTES <= delay then Critical else Warning;
      var afterEta := if Late(s, now) then Raise(s.exceptions, EtaExceeded, severity, delay) else Resolve(s.exceptions, EtaExceeded);
      RaiseOpens(s.exceptions, EtaExceeded, severity, delay, TrackingStale);
      ResolveCloses(s.exceptions, EtaExceeded, TrackingStale);
      RaiseOpens(afterEta, TrackingStale, Warning, 0, TrackingStale);
    } else {
      forall r | r in rows ensures !IsOpen(r, TrackingStale) {
        var i :| 0 <= i < |rows| && rows[i] == r;
      }
    }
  }

  /** Raising or resolving one kind adds no open row of another. */
  lemma {:induction false} OtherKindStays(rows: seq<ExceptionRow>, kind: ExceptionKind, r: ExceptionRow)
    requires r.open && r.kind != kind
    ensures r in Raise(rows, kind, Warning, 0) ==> r in rows
    ensures r in Resolve(rows, kind) ==> r in rows
  {
    if r in Resolve(rows, kind) {
      var i :| 0 <= i < |rows| && Resolve(rows, kind)[i] == r;
      assert rows[i] == r;
    }
  }

  /** After every evaluation the register says exactly what holds at that moment. */
  lemma {:induction false} EvaluateIsExact(s: Shipment, staleHours: nat, now: int)
    requires forall kind :: AtMostOneOpen(s.exceptions, kind)
    ensures var t := Evaluate(s, staleHours, now);
            && RegisterOk(t)
            && (Watched(s) ==>
                  && (HasOpen(t.exceptions, EtaExceeded) <==> Late(s, now))
                  && (HasOpen(t.exceptions, TrackingStale) <==> Stale(s, staleHours, now)))
  {
    if !Watched(s) {
      var one := Resolve(s.exceptions, EtaExceeded);
      forall kind ensures AtMostOneOpen(one, kind) && AtMostOneOpen(Resolve(one, TrackingStale), kind) && !HasOpen(Resolve(one, TrackingStale), kind) {
        ResolveCloses(s.exceptions, EtaExceeded, kind);
        ResolveCloses(one, TrackingStale, kind);
      }
    } else {
      var delay := if s.eta.Some? then Minutes(s.eta.value, now) else 0;
      var severity := if DAY_MINUTES <= delay then Critical else Warning;
      var afterEta := if Late(s, now) then Raise(s.exceptions, EtaExceeded, severity, delay) else Resolve(s.exceptions, EtaExceeded);
      ResolveCloses(s.exceptions, EtaExceeded, EtaExceeded);
      RaiseOpens(s.exceptions, EtaExceeded, severity, delay, EtaExceeded);
      forall kind ensures AtMostOneOpen(afterEta, kind) {
        ResolveCloses(s.exceptions, EtaExceeded, kind);
        RaiseOpens(s.exceptions, EtaExceeded, severity, delay, kind);
      }
      forall kind
        ensures AtMostOneOpen(Evaluate(s, staleHours, now).exceptions, kind)
      {
        ResolveCloses(afterEta, TrackingStale, kind);
        RaiseOpens(afterEta, TrackingStale, Warning, 0, kind);
      }
      ResolveCloses(afterEta, TrackingStale, EtaExceeded);
      RaiseOpens(afterEta, TrackingStale, Warning, 0, EtaExceeded);
    }
  }

  /** Over every run: one open exception per kind at most, and none for a shipment that is delivered or cancelled. */
  lemma {:induction false} RegisterStaysOk(created: int, logged: int, staleHours: nat, ops: seq<Timed>)
    ensures RegisterOk(Run(created, logged, staleHours, ops))
  {
    if ops != [] {
      var n := |ops| - 1;
      var s := Run(created, logged, staleHours, ops[..n]);
      RegisterStaysOk(created, logged, staleHours, ops[..n]);
      if Allowed(s, ops[n].op) {
        var written := Written(s, ops[n].op, ops[n].now);
        EvaluateIsExact(written, staleHours, ops[n].later);
      }
    }
  }

  /** After every allowed operation the open exceptions are exactly those due at its evaluation, to the floored minute. */
  lemma {:induction false} RegisterIsExact(created: int, logged: int, staleHours: nat, ops: seq<Timed>)
    requires ops != []
    requires Allowed(Run(created, logged, staleHours, ops[..|ops| - 1]), ops[|ops| - 1].op)
    requires Watched(Run(created, logged, staleHours, ops))
    ensures var s := Run(created, logged, staleHours, ops);
            var now := ops[|ops| - 1].later;
            && (HasOpen(s.exceptions, EtaExceeded) <==> s.eta.Some? && s.eta.value < now)
            && (HasOpen(s.exceptions, TrackingStale) <==> (staleHours * 60 + 1) * 60000 <= now - s.row.lastTracking)
            && (s.eta.Some? && s.eta.value < now ==> ReportsDelay(s.exceptions, now - s.eta.value))
            && OnlyWarns(s.exceptions)
  {
    var n := |ops| - 1;
    var s := Run(created, logged, staleHours, ops[..n]);
    RegisterStaysOk(created, logged, staleHours, ops[..n]);
    var written := Written(s, ops[n].op, ops[n].now);
    EvaluateIsExact(written, staleHours, ops[n].later);
    EvaluateWarns(written, staleHours, ops[n].later);
    StaleBound(written, staleHours, ops[n].later);
    if Late(written, ops[n].later) {
      EvaluateReportsDelay(written, staleHours, ops[n].later);
    }
  }

  /** Rounding down makes a shipment stale one full minute after the threshold. */
  lemma {:induction false} StaleBound(s: Shipment, staleHours: nat, now: int)
    ensures Stale(s, staleHours, now) <==> (staleHours * 60 + 1) * 60000 <= now - s.row.lastTracking
  {
    var x := now - s.row.lastTracking;
    var h := staleHours * 60;
    assert x == MINUTE * (x / MINUTE) + x % MINUTE;
    if h < x / MINUTE {
      assert h + 1 <= x / MINUTE;
      assert (h + 1) * MINUTE <= (x / MINUTE) * MINUTE;
    }
  }
}
