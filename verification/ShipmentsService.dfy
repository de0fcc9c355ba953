/** The shipment service as it writes its rows, proved against Shipments.dfy. */
module ShipmentsService {
  import opened Wrappers
  import opened Shipments
  import SL = ShipmentLifecycle

  /** The rows of one shipment. */
  class ShipmentRows {
    var status: SL.Status
    var departed: Maybe<int>
    var arrived: Maybe<int>
    var delivered: Maybe<int>
    var eta: Maybe<int>
    var lastTracking: int
    var place: Maybe<string>
    var latitude: Maybe<int>
    var longitude: Maybe<int>
    var log: seq<TrackingEvent>
    var exceptions: seq<ExceptionRow>
    const staleHours: nat

    function View(): Shipment
      reads this
    {
      Shipment(Projection(status, departed, arrived, delivered, lastTracking, place, latitude, longitude), eta, log, exceptions)
    }

    constructor (staleHours: nat, now: int, later: int)
      ensures View() == Create(now, later) && this.staleHours == staleHours
    {
      this.staleHours := staleHours;
      status := SL.Created;
      departed, arrived, delivered, eta := None, None, None, None;
      lastTracking := now;
      place, latitude, longitude := None, None, None;
      log, exceptions := [], [];
      new;
      AppendShipmentEvent(StatusEvent(SL.Created, later));
    }

    method AppendShipmentEvent(e: Report)
      modifies this
      ensures View() == Append(old(View()), e)
    {
      log := log + [Logged(e)];
      lastTracking := e.at;
      if Locates(e) {
        match e.place {
          case Absent =>
          case Null => place := None;
          case Named(name) => place := Some(name);
        }
        if e.latitude.Some? {
          latitude := e.latitude;
        }
        if e.longitude.Some? {
          longitude := e.longitude;
        }
      }
    }

    /** Refreshes the open exception of a kind, or opens one. */
    method OpenException(kind: ExceptionKind, severity: Severity, minutes: int)
      modifies this`exceptions
      ensures exceptions == Raise(old(exceptions), kind, severity, minutes)
    {
      var i := 0;
      while i < |exceptions|
        invariant i <= |exceptions| && exceptions == old(exceptions)
        invariant forall j :: 0 <= j < i ==> !IsOpen(exceptions[j], kind)
      {
        if IsOpen(exceptions[i], kind) {
          assert FirstOpen(exceptions, kind) == i;
          exceptions := exceptions[i := exceptions[i].(severity := severity, minutes := minutes)];
          return;
        }
        i := i + 1;
      }
      exceptions := exceptions + [ExceptionRow(kind, severity, minutes, true)];
    }

    /** Closes every open exception of a kind. */
    method ResolveOpenException(kind: ExceptionKind)
      modifies this`exceptions
      ensures exceptions == Resolve(old(exceptions), kind)
    {
      for i := 0 to |exceptions|
        invariant |exceptions| == |old(exceptions)|
        invariant forall j :: 0 <= j < i ==> exceptions[j] == Resolve(old(exceptions), kind)[j]
        invariant forall j :: i <= j < |exceptions| ==> exceptions[j] == old(exceptions)[j]
      {
        if IsOpen(exceptions[i], kind) {
          exceptions := exceptions[i := exceptions[i].(open := false)];
        }
      }
    }

    method EvaluateExceptions(now: int)
      modifies this`exceptions
      ensures View() == Evaluate(old(View()), staleHours, now)
    {
      if status !in SL.ACTIVE {
        ResolveOpenException(EtaExceeded);
        ResolveOpenException(TrackingStale);
        return;
      }
      if eta.Some? && now > eta.value {
        var delay := Minutes(eta.value, now);
        OpenException(EtaExceeded, if delay >= DAY_MINUTES then Critical else Warning, delay);
      } else {
        ResolveOpenException(EtaExceeded);
      }
      if Minutes(lastTracking, now) > staleHours * 60 {
        OpenException(TrackingStale, Warning, 0);
      } else {
        ResolveOpenException(TrackingStale);
      }
    }

    /** Moves the status if the table allows it, stamps the times, logs and evaluates. */
    method Transition(target: SL.Status, now: int, later: int) returns (ok: bool)
      modifies this
      ensures ok <==> SL.CanMove(old(status), target)
      ensures View() == Apply(old(View()), Op.Transition(target), staleHours, now, later)
    {
      if !SL.CanMove(status, target) {
        return false;
      }
      status := target;
      if target.InTransit? && departed.None? {
        departed := Some(now);
      }
      if (target.Arrived? || target.Delivered?) && arrived.None? {
        arrived := Some(now);
      }
      if target.Delivered? {
        delivered := Some(now);
      }
      AppendShipmentEvent(StatusEvent(target, now));
      EvaluateExceptions(later);
      return true;
    }

    method UpdateEta(newEta: int, now: int, later: int)
      modifies this
      ensures View() == Apply(old(View()), Op.UpdateEta(newEta), staleHours, now, later)
    {
      eta := Some(newEta);
      AppendShipmentEvent(Report(EtaUpdated, None, now, Absent, None, None));
      EvaluateExceptions(later);
    }

    method CreateManualEvent(eventType: EventType, at: int, name: Patch, lat: Maybe<int>, long: Maybe<int>, later: int)
      modifies this
      ensures View() == Apply(old(View()), ManualEvent(eventType, at, name, lat, long), staleHours, at, later)
    {
      AppendShipmentEvent(Report(eventType, None, at, name, lat, long));
      EvaluateExceptions(later);
    }
  }
}
