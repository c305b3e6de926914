/**
 * The read-only views over the three stores: the system status rollup and
 * the ledger queries, newest event first.
 */
module Reports {
  import opened Models

  // ---------------------------------------------------------------------
  // System status
  // ---------------------------------------------------------------------

  function SensorsIn(sensors: map<SensorId, Sensor>, s: SensorStatus): set<SensorId> {
    set id | id in sensors && sensors[id].estado == s
  }

  function BarriersAt(barriers: map<BarrierId, Barrier>, p: BarrierPosition): set<BarrierId> {
    set id | id in barriers && barriers[id].estado == p
  }

  /** The number of events inserted at or after `since`, of one kind or (None) of any kind. */
  function CountSince(events: seq<Event>, since: nat, kind: Option<EventKind>): nat {
    if events == [] then 0
    else
      var last := events[|events| - 1];
      CountSince(events[..|events| - 1], since, kind)
      + (if last.fecha >= since && (kind.None? || kind == Some(last.tipo)) then 1 else 0)
  }

  datatype SensorCounts = SensorCounts(total: nat, activos: nat, inactivos: nat, bloqueados: nat, perdidos: nat)
  datatype BarrierCounts = BarrierCounts(total: nat, abiertas: nat, cerradas: nat)
  datatype EventCounts = EventCounts(total: nat, permitidos: nat, denegados: nat)
  datatype Report = Report(sensores: SensorCounts, barreras: BarrierCounts, eventos: EventCounts, timestamp: nat)

  /** The four status classes partition the registry. */
  lemma StatusesPartitionSensors(sensors: map<SensorId, Sensor>)
    ensures |SensorsIn(sensors, Activo)| + |SensorsIn(sensors, Inactivo)|
          + |SensorsIn(sensors, Bloqueado)| + |SensorsIn(sensors, Perdido)| == |sensors|
  {
    var a, i, b, p := SensorsIn(sensors, Activo), SensorsIn(sensors, Inactivo),
                      SensorsIn(sensors, Bloqueado), SensorsIn(sensors, Perdido);
    var ai, aib := a + i, a + i + b;
    assert |ai| == |a| + |i| by { assert a !! i; }
    assert |aib| == |ai| + |b| by { assert ai !! b; }
    assert |aib + p| == |aib| + |p| by { assert aib !! p; }
    assert sensors.Keys == aib + p by {
      forall id | id in sensors.Keys ensures id in aib + p {
        match sensors[id].estado
        case Activo => assert id in a;
        case Inactivo => assert id in i;
        case Bloqueado => assert id in b;
        case Perdido => assert id in p;
      }
    }
  }

  /** The two positions partition the barriers. */
  lemma PositionsPartitionBarriers(barriers: map<BarrierId, Barrier>)
    ensures |BarriersAt(barriers, Abierta)| + |BarriersAt(barriers, Cerrada)| == |barriers|
  {
    var o, c := BarriersAt(barriers, Abierta), BarriersAt(barriers, Cerrada);
    assert o !! c;
    assert barriers.Keys == o + c;
  }

  /** Events of one kind in the window are no more than all events in the window. */
  lemma {:induction false} KindCountWithinTotal(events: seq<Event>, since: nat, k: EventKind)
    ensures CountSince(events, since, Some(k)) <= CountSince(events, since, None)
  {
    if events != [] {
      KindCountWithinTotal(events[..|events| - 1], since, k);
    }
  }

  /** Granted plus denied events in the window are no more than all events in the window. */
  lemma {:induction false} GrantedPlusDeniedWithinTotal(events: seq<Event>, since: nat)
    ensures CountSince(events, since, Some(AccesoPermitido)) + CountSince(events, since, Some(AccesoDenegado))
         <= CountSince(events, since, None)
  {
    if events != [] {
      GrantedPlusDeniedWithinTotal(events[..|events| - 1], since);
    }
  }

  /**
   * The dashboard rollup at time `now` over the window starting at `since`:
   * sensors by status, barriers by position, windowed events by kind.
   */
  function SystemReport(sensors: map<SensorId, Sensor>, barriers: map<BarrierId, Barrier>,
                        events: seq<Event>, since: nat, now: nat): (r: Report)
    ensures r.sensores.total == |sensors| && r.barreras.total == |barriers|
    ensures r.sensores.activos + r.sensores.inactivos + r.sensores.bloqueados + r.sensores.perdidos
         == r.sensores.total
    ensures r.barreras.abiertas + r.barreras.cerradas == r.barreras.total
    ensures r.eventos.permitidos + r.eventos.denegados <= r.eventos.total
    ensures r.eventos.total <= |events|
    ensures r.timestamp == now
  {
    StatusesPartitionSensors(sensors);
    PositionsPartitionBarriers(barriers);
    GrantedPlusDeniedWithinTotal(events, since);
    CountWithinLength(events, since);
    Report(
      SensorCounts(|sensors|, |SensorsIn(sensors, Activo)|, |SensorsIn(sensors, Inactivo)|,
                   |SensorsIn(sensors, Bloqueado)|, |SensorsIn(sensors, Perdido)|),
      BarrierCounts(|barriers|, |BarriersAt(barriers, Abierta)|, |BarriersAt(barriers, Cerrada)|),
      EventCounts(CountSince(events, since, None),
                  CountSince(events, since, Some(AccesoPermitido)),
                  CountSince(events, since, Some(AccesoDenegado))),
      now)
  }

  lemma {:induction false} CountWithinLength(events: seq<Event>, since: nat)
    ensures CountSince(events, since, None) <= |events|
  {
    if events != [] {
      CountWithinLength(events[..|events| - 1], since);
    }
  }

  /** Appending an event moves each count by one exactly when the event is in the window and of that kind. */
  lemma CountAfterAppend(events: seq<Event>, e: Event, since: nat, kind: Option<EventKind>)
    ensures CountSince(events + [e], since, kind)
         == CountSince(events, since, kind) + (if e.fecha >= since && (kind.None? || kind == Some(e.tipo)) then 1 else 0)
  {
    assert (events + [e])[..|events|] == events;
  }

  // ---------------------------------------------------------------------
  // Ledger queries
  // ---------------------------------------------------------------------

  /** The filters the ledger is queried with: none, one sensor, or one stored kind code. */
  datatype Filter = Everything | BySensor(id: SensorId) | ByKindCode(code: string)

  predicate Matches(f: Filter, e: Event) {
    match f
    case Everything => true
    case BySensor(id) => e.sensor == Registered(id)
    case ByKindCode(code) => EventKindCode(e.tipo) == code
  }

  /** The events of an insertion-ordered ledger that pass the filter, newest first. */
  function Query(events: seq<Event>, f: Filter): (r: seq<Event>)
    ensures forall e :: e in r <==> e in events && Matches(f, e)
    ensures |r| <= |events|
  {
    if events == [] then []
    else
      var last := events[|events| - 1];
      (if Matches(f, last) then [last] else []) + Query(events[..|events| - 1], f)
  }

  /** `r` holds each event of `events` that passes the filter as often as `events` does, and no other event. */
  ghost predicate SelectedFrom(r: seq<Event>, events: seq<Event>, f: Filter) {
    forall e :: multiset(r)[e] == if Matches(f, e) then multiset(events)[e] else 0
  }

  /** A query selects exactly the events that pass the filter, each as often as the ledger holds it. */
  lemma {:induction false} QueryKeepsMultiplicity(events: seq<Event>, f: Filter)
    ensures SelectedFrom(Query(events, f), events, f)
  {
    if events != [] {
      var prefix, last := events[..|events| - 1], events[|events| - 1];
      assert events == prefix + [last];
      QueryKeepsMultiplicity(prefix, f);
    }
  }

  /** On a chronological ledger a query comes back in the declared order, newest first. */
  lemma {:induction false} QueryNewestFirst(events: seq<Event>, f: Filter)
    requires Chronological(events)
    ensures StrictlyNewestFirst(Query(events, f))
    ensures NewestFirst(Query(events, f))
  {
    if events != [] {
      var prefix, last := events[..|events| - 1], events[|events| - 1];
      QueryNewestFirst(prefix, f);
      forall x | x in Query(prefix, f)
        ensures x.fecha < last.fecha
      {
        var k :| 0 <= k < |prefix| && prefix[k] == x;
        assert events[k] == x;
      }
    }
  }

  /** A just-appended event is the first result of any query it passes. */
  lemma AppendedEventComesFirst(events: seq<Event>, e: Event, f: Filter)
    requires Matches(f, e)
    ensures Query(events + [e], f) == [e] + Query(events, f)
  {
    assert (events + [e])[..|events|] == events;
  }

  /** A kind code outside the five choices selects nothing. */
  lemma {:induction false} UnknownKindCodeSelectsNothing(events: seq<Event>, code: string)
    requires code !in EventKindCodes
    ensures Query(events, ByKindCode(code)) == []
  {
    if events != [] {
      UnknownKindCodeSelectsNothing(events[..|events| - 1], code);
      EventKindCodeListed(events[|events| - 1].tipo);
    }
  }

  lemma EventKindCodeListed(k: EventKind)
    ensures EventKindCode(k) in EventKindCodes
  {
  }
}
