/**
 * The access-decision and barrier endpoints as transactions on one state:
 * the sensor registry, the barriers and the append-only event ledger, with a
 * logical clock standing in for the time of each request.
 */
module Views {
  import opened Models
  import opened Serializers
  import opened Permissions
  import opened Reports

  /** The response codes the endpoints answer with: 200, 201, 400, 401, 403 and 404. */
  datatype Http = Ok | Created | BadRequest | Unauthorized | Forbidden | NotFound

  /** Why an access request was decided the way it was. */
  datatype Reason = Unregistered | NotActive(status: SensorStatus) | Admitted

  datatype ErrorKind =
    | UidRequired
    | UidAndStatusRequired
    | BarrierIdRequired
    | SensorIdRequired
    | KindRequired
    | InvalidStatus
    | SensorNotFound
    | BarrierNotFound
    | Refused(denial: Denial)

  datatype Body =
    | Error(kind: ErrorKind)
    | Decision(granted: bool, reason: Reason, decidedSensor: Option<SensorId>, atBarrier: Option<BarrierId>,
               eventId: Option<EventId>, timestamp: Option<nat>)
    | BarrierState(barrier: BarrierId, position: BarrierPosition, closeEventId: Option<EventId>)
    | StatusChanged(sensor: SensorId, previous: SensorStatus, current: SensorStatus)
    | SensorState(sensor: SensorId, record: Sensor)
    | NewRecord(id: nat)
    | Invalid(errors: seq<FieldError>)
    | Dashboard(report: Report)
    | Events(events: seq<Event>)

  datatype Response = Response(status: Http, body: Body)

  /** A string request parameter that Python treats as true: present and not empty. */
  predicate Present(s: Option<string>) {
    s.Some? && s.value != ""
  }

  /** An integer request parameter that Python treats as true: present and not zero. */
  predicate PresentId(n: Option<nat>) {
    n.Some? && n.value != 0
  }

  /** The response of a request the permission check turned away. */
  function Refusal(d: Denial): Response {
    Response(if d == NotAuthenticated then Unauthorized else Forbidden, Error(Refused(d)))
  }

  /**
   * A request the gate turns away is answered 401 exactly when the caller is
   * anonymous and 403 exactly when an authenticated caller lacks the right.
   */
  lemma RefusalNamesCaller(policy: Policy, m: HttpMethod, p: Principal)
    requires Check(policy, m, p).Some?
    ensures Refusal(Check(policy, m, p).value).status == Unauthorized <==> !IsAuthenticated(p)
    ensures Refusal(Check(policy, m, p).value).status == Forbidden <==> IsAuthenticated(p)
  {
  }

  // ---------------------------------------------------------------------
  // Store invariants
  // ---------------------------------------------------------------------

  /** Sensor keys are allocated below `next`; uids are unique. */
  ghost predicate RegistryValid(sensors: map<SensorId, Sensor>, next: nat) {
    && 1 <= next
    && UidsUnique(sensors)
    && (forall id :: id in sensors ==> 1 <= id < next)
  }

  /** Barrier keys are allocated below `next`; names are unique; one barrier per department. */
  ghost predicate BarriersValid(barriers: map<BarrierId, Barrier>, next: nat) {
    && BarrierNamesUnique(barriers)
    && OneBarrierPerDepartment(barriers)
    && 1 <= next
    && (forall id :: id in barriers ==> 1 <= id < next)
  }

  /**
   * The ledger: event i has id i + 1, events are in insertion (and time)
   * order, none is later than the clock, and every reference resolves.
   */
  ghost predicate LedgerValid(events: seq<Event>, sensors: map<SensorId, Sensor>,
                              barriers: map<BarrierId, Barrier>, now: nat) {
    && (forall i :: 0 <= i < |events| ==> events[i].id == i + 1 && events[i].fecha <= now)
    && Chronological(events)
    && (forall i :: 0 <= i < |events| && events[i].sensor.Registered? ==> events[i].sensor.id in sensors)
    && (forall i :: 0 <= i < |events| && events[i].barrera.Some? ==> events[i].barrera.value in barriers)
  }

  class AccessSystem {
    var sensors: map<SensorId, Sensor>
    var barriers: map<BarrierId, Barrier>
    var events: seq<Event>
    var now: nat
    var nextSensorId: nat
    var nextBarrierId: nat

    ghost predicate Valid()
      reads this
    {
      && RegistryValid(sensors, nextSensorId)
      && BarriersValid(barriers, nextBarrierId)
      && LedgerValid(events, sensors, barriers, now)
    }

    /** No event carries the current time yet. */
    ghost predicate AfterLastEvent()
      reads this
    {
      forall i :: 0 <= i < |events| ==> events[i].fecha < now
    }

    /** An empty system at time zero. */
    constructor ()
      ensures Valid()
      ensures sensors == map[] && barriers == map[] && events == [] && now == 0
      ensures nextSensorId == 1 && nextBarrierId == 1
    {
      sensors, barriers, events := map[], map[], [];
      now, nextSensorId, nextBarrierId := 0, 1, 1;
    }

    // -------------------------------------------------------------------
    // The store operations the endpoints are built from
    // -------------------------------------------------------------------

    /** The time of a new request. */
    method Tick()
      requires Valid()
      modifies this`now
      ensures Valid() && AfterLastEvent()
      ensures now == old(now) + 1
    {
      now := now + 1;
    }

    /** Evento.objects.create: the next id, the current time, appended at the end. */
    method CreateEvent(sensor: SensorRef, tipo: EventKind, barrera: Option<BarrierId>,
                       usuario: Option<ProfileId>, mensaje: Message) returns (ev: Event)
      requires Valid() && AfterLastEvent()
      requires sensor.Registered? ==> sensor.id in sensors
      requires barrera.Some? ==> barrera.value in barriers
      modifies this`events
      ensures Valid()
      ensures ev == Event(|old(events)| + 1, sensor, tipo, barrera, usuario, mensaje, now)
      ensures events == old(events) + [ev]
    {
      ev := Event(|events| + 1, sensor, tipo, barrera, usuario, mensaje, now);
      events := events + [ev];
    }

    /** `barrera.estado = position; barrera.save()`: the change time is refreshed too. */
    method SaveBarrierPosition(id: BarrierId, position: BarrierPosition)
      requires Valid() && id in barriers
      modifies this`barriers
      ensures Valid()
      ensures barriers == old(barriers)[id := old(barriers)[id].(estado := position, ultimoCambio := now)]
    {
      barriers := barriers[id := barriers[id].(estado := position, ultimoCambio := now)];
      assert forall b :: b in barriers ==> b in old(barriers);
    }

    /** `sensor.estado = status; sensor.save()`: the modification time is refreshed too. */
    method SaveSensorStatus(id: SensorId, status: SensorStatus)
      requires Valid() && id in sensors
      modifies this`sensors
      ensures Valid()
      ensures sensors == old(sensors)[id := old(sensors)[id].(estado := status, actualizado := now)]
    {
      sensors := sensors[id := sensors[id].(estado := status, actualizado := now)];
      assert forall s :: s in sensors ==> s in old(sensors);
    }

    // -------------------------------------------------------------------
    // Access decisions
    // -------------------------------------------------------------------

    /**
     * simular_lectura_sensor (no permission check). A missing uid changes
     * nothing; every other request appends exactly one event: denied for an
     * unknown uid (with no sensor identity) or a sensor that is not active,
     * granted for an active sensor. No sensor or barrier changes.
     */
    method LecturaSensor(uid: Option<string>) returns (r: Response)
      requires Valid()
      modifies this
      ensures Valid()
      ensures now == old(now) + 1
      ensures sensors == old(sensors) && barriers == old(barriers)
      ensures nextSensorId == old(nextSensorId) && nextBarrierId == old(nextBarrierId)
      ensures !Present(uid) ==>
        events == old(events) && r == Response(BadRequest, Error(UidRequired))
      ensures Present(uid) && FindSensorByUid(sensors, uid.value).None? ==>
        && events == old(events) + [Event(|old(events)| + 1, Unidentified, AccesoDenegado, None, None,
                                          UnknownUid(uid.value), now)]
        && r == Response(NotFound, Decision(false, Unregistered, None, None, None, None))
      ensures Present(uid) && FindSensorByUid(sensors, uid.value).Some? ==>
        var id := FindSensorByUid(sensors, uid.value).value;
        var status := sensors[id].estado;
        var eid := |old(events)| + 1;
        if status == Activo then
          && events == old(events) + [Event(eid, Registered(id), AccesoPermitido, None, None, Granted, now)]
          && r == Response(Ok, Decision(true, Admitted, Some(id), None, Some(eid), Some(now)))
        else
          && events == old(events) + [Event(eid, Registered(id), AccesoDenegado, None, None, DeniedFor(status), now)]
          && r == Response(Forbidden, Decision(false, NotActive(status), Some(id), None, Some(eid), None))
    {
      Tick();
      if !Present(uid) {
        return Response(BadRequest, Error(UidRequired));
      }
      var found := FindSensorByUid(sensors, uid.value);
      if found.None? {
        var _ := CreateEvent(Unidentified, AccesoDenegado, None, None, UnknownUid(uid.value));
        return Response(NotFound, Decision(false, Unregistered, None, None, None, None));
      }
      var id := found.value;
      var sensor := sensors[id];
      if sensor.estado == Inactivo {
        var ev := CreateEvent(Registered(id), AccesoDenegado, None, None, DeniedFor(Inactivo));
        r := Response(Forbidden, Decision(false, NotActive(Inactivo), Some(id), None, Some(ev.id), None));
      } else if sensor.estado == Bloqueado {
        var ev := CreateEvent(Registered(id), AccesoDenegado, None, None, DeniedFor(Bloqueado));
        r := Response(Forbidden, Decision(false, NotActive(Bloqueado), Some(id), None, Some(ev.id), None));
      } else if sensor.estado == Perdido {
        var ev := CreateEvent(Registered(id), AccesoDenegado, None, None, DeniedFor(Perdido));
        r := Response(Forbidden, Decision(false, NotActive(Perdido), Some(id), None, Some(ev.id), None));
      } else {
        var ev := CreateEvent(Registered(id), AccesoPermitido, None, None, Granted);
        r := Response(Ok, Decision(true, Admitted, Some(id), None, Some(ev.id), Some(ev.fecha)));
      }
    }

    /**
     * simular_intento_acceso (admins only). An unknown uid is refused with no
     * event; a sensor that is not active gets one denied event; an active
     * sensor gets one granted event and, when the requested barrier exists,
     * that barrier (and only it) is opened and referenced by the event. A
     * barrier id that does not resolve does not stop the admission.
     */
    method IntentoAcceso(p: Principal, uid: Option<string>, barreraId: Option<nat>) returns (r: Response)
      requires Valid()
      modifies this
      ensures Valid()
      ensures now == old(now) + 1
      ensures sensors == old(sensors)
      ensures nextSensorId == old(nextSensorId) && nextBarrierId == old(nextBarrierId)
      ensures Check(AuthenticatedAdmin, Post, p).Some? ==>
        && r == Refusal(Check(AuthenticatedAdmin, Post, p).value)
        && barriers == old(barriers) && events == old(events)
      ensures Check(AuthenticatedAdmin, Post, p).None? && !Present(uid) ==>
        && r == Response(BadRequest, Error(UidRequired))
        && barriers == old(barriers) && events == old(events)
      ensures Check(AuthenticatedAdmin, Post, p).None? && Present(uid)
              && FindSensorByUid(sensors, uid.value).None? ==>
        && r == Response(NotFound, Decision(false, Unregistered, None, None, None, None))
        && barriers == old(barriers) && events == old(events)
      ensures Check(AuthenticatedAdmin, Post, p).None? && Present(uid)
              && FindSensorByUid(sensors, uid.value).Some? ==>
        var id := FindSensorByUid(sensors, uid.value).value;
        var status := sensors[id].estado;
        var eid := |old(events)| + 1;
        var target := if PresentId(barreraId) && barreraId.value in old(barriers)
                      then Some(barreraId.value) else None;
        if status != Activo then
          && barriers == old(barriers)
          && events == old(events) + [Event(eid, Registered(id), AccesoDenegado, None, None, DeniedFor(status), now)]
          && r == Response(Forbidden, Decision(false, NotActive(status), Some(id), None, Some(eid), None))
        else
          && barriers == (if target.Some?
                          then old(barriers)[target.value := old(barriers)[target.value].(estado := Abierta, ultimoCambio := now)]
                          else old(barriers))
          && events == old(events) + [Event(eid, Registered(id), AccesoPermitido, target, None, GrantedAtBarrier, now)]
          && r == Response(Ok, Decision(true, Admitted, Some(id), target, Some(eid), Some(now)))
    {
      Tick();
      var denial := Check(AuthenticatedAdmin, Post, p);
      if denial.Some? {
        return Refusal(denial.value);
      }
      if !Present(uid) {
        return Response(BadRequest, Error(UidRequired));
      }
      var found := FindSensorByUid(sensors, uid.value);
      if found.None? {
        return Response(NotFound, Decision(false, Unregistered, None, None, None, None));
      }
      var id := found.value;
      var sensor := sensors[id];
      if sensor.estado != Activo {
        var ev := CreateEvent(Registered(id), AccesoDenegado, None, None, DeniedFor(sensor.estado));
        return Response(Forbidden, Decision(false, NotActive(sensor.estado), Some(id), None, Some(ev.id), None));
      }
      var barrera: Option<BarrierId> := None;
      if PresentId(barreraId) {
        if barreraId.value in barriers {
          barrera := barreraId;
          SaveBarrierPosition(barreraId.value, Abierta);
        }
      }
      var ev := CreateEvent(Registered(id), AccesoPermitido, barrera, None, GrantedAtBarrier);
      r := Response(Ok, Decision(true, Admitted, Some(id), barrera, Some(ev.id), Some(ev.fecha)));
    }

    /**
     * SensorViewSet.solicitar_acceso (write request under IsAdminOrReadOnly,
     * so admins only). A sensor that is not active is refused and nothing is
     * written; an active one gets one event, written as an attempt and then
     * rewritten in place, so that its final kind is a granted access.
     */
    method SolicitarAcceso(p: Principal, pk: SensorId) returns (r: Response)
      requires Valid()
      modifies this
      ensures Valid()
      ensures now == old(now) + 1
      ensures sensors == old(sensors) && barriers == old(barriers)
      ensures nextSensorId == old(nextSensorId) && nextBarrierId == old(nextBarrierId)
      ensures Check(AuthenticatedAdminOrReadOnly, Post, p).Some? ==>
        r == Refusal(Check(AuthenticatedAdminOrReadOnly, Post, p).value) && events == old(events)
      ensures Check(AuthenticatedAdminOrReadOnly, Post, p).None? && pk !in sensors ==>
        r == Response(NotFound, Error(SensorNotFound)) && events == old(events)
      ensures Check(AuthenticatedAdminOrReadOnly, Post, p).None? && pk in sensors && sensors[pk].estado != Activo ==>
        && r == Response(Forbidden, Decision(false, NotActive(sensors[pk].estado), Some(pk), None, None, None))
        && events == old(events)
      ensures Check(AuthenticatedAdminOrReadOnly, Post, p).None? && pk in sensors && sensors[pk].estado == Activo ==>
        var eid := |old(events)| + 1;
        && events == old(events) + [Event(eid, Registered(pk), AccesoPermitido, None, None, Granted, now)]
        && r == Response(Ok, Decision(true, Admitted, Some(pk), None, Some(eid), Some(now)))
    {
      Tick();
      var denial := Check(AuthenticatedAdminOrReadOnly, Post, p);
      if denial.Some? {
        return Refusal(denial.value);
      }
      if pk !in sensors {
        return Response(NotFound, Error(SensorNotFound));
      }
      var sensor := sensors[pk];
      if sensor.estado != Activo {
        return Response(Forbidden, Decision(false, NotActive(sensor.estado), Some(pk), None, None, None));
      }
      var ev := CreateEvent(Registered(pk), AccesoIntentado, None, None, AttemptedWith);
      // The record just created is rewritten in place as a granted access.
      ev := ev.(tipo := AccesoPermitido, mensaje := Granted);
      events := events[|events| - 1 := ev];
      r := Response(Ok, Decision(true, Admitted, Some(pk), None, Some(ev.id), Some(ev.fecha)));
    }

    // -------------------------------------------------------------------
    // Barrier actions
    // -------------------------------------------------------------------

    /**
     * BarreraViewSet.abrir (admins only): the barrier is open afterwards,
     * whatever it was, and exactly one manual-open event references it and
     * the acting profile. An unknown barrier changes nothing.
     */
    method Abrir(p: Principal, pk: BarrierId) returns (r: Response)
      requires Valid()
      modifies this
      ensures Valid()
      ensures now == old(now) + 1
      ensures sensors == old(sensors)
      ensures nextSensorId == old(nextSensorId) && nextBarrierId == old(nextBarrierId)
      ensures Check(AuthenticatedAdmin, Post, p).Some? ==>
        && r == Refusal(Check(AuthenticatedAdmin, Post, p).value)
        && barriers == old(barriers) && events == old(events)
      ensures Check(AuthenticatedAdmin, Post, p).None? && pk !in old(barriers) ==>
        && r == Response(NotFound, Error(BarrierNotFound))
        && barriers == old(barriers) && events == old(events)
      ensures Check(AuthenticatedAdmin, Post, p).None? && pk in old(barriers) ==>
        && barriers == old(barriers)[pk := old(barriers)[pk].(estado := Abierta, ultimoCambio := now)]
        && events == old(events) + [Event(|old(events)| + 1, Unidentified, BarreraAbierta, Some(pk),
                                          ActingProfile(p), OpenedManually, now)]
        && ActingProfile(p).Some?
        && r == Response(Ok, BarrierState(pk, Abierta, None))
    {
      Tick();
      var denial := Check(AuthenticatedAdmin, Post, p);
      if denial.Some? {
        return Refusal(denial.value);
      }
      if pk !in barriers {
        return Response(NotFound, Error(BarrierNotFound));
      }
      SaveBarrierPosition(pk, Abierta);
      var _ := CreateEvent(Unidentified, BarreraAbierta, Some(pk), ActingProfile(p), OpenedManually);
      r := Response(Ok, BarrierState(pk, Abierta, None));
    }

    /**
     * BarreraViewSet.cerrar (admins only): the barrier is closed afterwards,
     * whatever it was, and exactly one manual-close event references it and
     * the acting profile. An unknown barrier changes nothing.
     */
    method Cerrar(p: Principal, pk: BarrierId) returns (r: Response)
      requires Valid()
      modifies this
      ensures Valid()
      ensures now == old(now) + 1
      ensures sensors == old(sensors)
      ensures nextSensorId == old(nextSensorId) && nextBarrierId == old(nextBarrierId)
      ensures Check(AuthenticatedAdmin, Post, p).Some? ==>
        && r == Refusal(Check(AuthenticatedAdmin, Post, p).value)
        && barriers == old(barriers) && events == old(events)
      ensures Check(AuthenticatedAdmin, Post, p).None? && pk !in old(barriers) ==>
        && r == Response(NotFound, Error(BarrierNotFound))
        && barriers == old(barriers) && events == old(events)
      ensures Check(AuthenticatedAdmin, Post, p).None? && pk in old(barriers) ==>
        && barriers == old(barriers)[pk := old(barriers)[pk].(estado := Cerrada, ultimoCambio := now)]
        && events == old(events) + [Event(|old(events)| + 1, Unidentified, BarreraCerrada, Some(pk),
                                          ActingProfile(p), ClosedManually, now)]
        && ActingProfile(p).Some?
        && r == Response(Ok, BarrierState(pk, Cerrada, None))
    {
      Tick();
      var denial := Check(AuthenticatedAdmin, Post, p);
      if denial.Some? {
        return Refusal(denial.value);
      }
      if pk !in barriers {
        return Response(NotFound, Error(BarrierNotFound));
      }
      SaveBarrierPosition(pk, Cerrada);
      var _ := CreateEvent(Unidentified, BarreraCerrada, Some(pk), ActingProfile(p), ClosedManually);
      r := Response(Ok, BarrierState(pk, Cerrada, None));
    }

    /**
     * simular_cierre_barrera (admins only): a missing id is a bad request, an
     * unknown one not found, both changing nothing; otherwise the barrier is
     * closed and exactly one automatic-close event (with no acting profile)
     * references it; its id is returned.
     */
    method CierreBarrera(p: Principal, barreraId: Option<nat>) returns (r: Response)
      requires Valid()
      modifies this
      ensures Valid()
      ensures now == old(now) + 1
      ensures sensors == old(sensors)
      ensures nextSensorId == old(nextSensorId) && nextBarrierId == old(nextBarrierId)
      ensures Check(AuthenticatedAdmin, Post, p).Some? ==>
        && r == Refusal(Check(AuthenticatedAdmin, Post, p).value)
        && barriers == old(barriers) && events == old(events)
      ensures Check(AuthenticatedAdmin, Post, p).None? && !PresentId(barreraId) ==>
        && r == Response(BadRequest, Error(BarrierIdRequired))
        && barriers == old(barriers) && events == old(events)
      ensures Check(AuthenticatedAdmin, Post, p).None? && PresentId(barreraId) && barreraId.value !in old(barriers) ==>
        && r == Response(NotFound, Error(BarrierNotFound))
        && barriers == old(barriers) && events == old(events)
      ensures Check(AuthenticatedAdmin, Post, p).None? && PresentId(barreraId) && barreraId.value in old(barriers) ==>
        var id := barreraId.value;
        var eid := |old(events)| + 1;
        && barriers == old(barriers)[id := old(barriers)[id].(estado := Cerrada, ultimoCambio := now)]
        && events == old(events) + [Event(eid, Unidentified, BarreraCerrada, Some(id), None, ClosedAutomatically, now)]
        && r == Response(Ok, BarrierState(id, Cerrada, Some(eid)))
    {
      Tick();
      var denial := Check(AuthenticatedAdmin, Post, p);
      if denial.Some? {
        return Refusal(denial.value);
      }
      if !PresentId(barreraId) {
        return Response(BadRequest, Error(BarrierIdRequired));
      }
      var id := barreraId.value;
      if id !in barriers {
        return Response(NotFound, Error(BarrierNotFound));
      }
      SaveBarrierPosition(id, Cerrada);
      var ev := CreateEvent(Unidentified, BarreraCerrada, Some(id), None, ClosedAutomatically);
      r := Response(Ok, BarrierState(id, Cerrada, Some(ev.id)));
    }

    // -------------------------------------------------------------------
    // Administrative status changes (no event is written)
    // -------------------------------------------------------------------

    /**
     * SensorViewSet.cambiar_estado (admins only): an unknown sensor is not
     * found, a value outside the four states a bad request; otherwise exactly
     * that sensor's status changes. The ledger and the barriers never change.
     */
    method CambiarEstado(p: Principal, pk: SensorId, estado: Option<string>) returns (r: Response)
      requires Valid()
      modifies this
      ensures Valid()
      ensures now == old(now) + 1
      ensures barriers == old(barriers) && events == old(events)
      ensures nextSensorId == old(nextSensorId) && nextBarrierId == old(nextBarrierId)
      ensures Check(AuthenticatedAdmin, Post, p).Some? ==>
        r == Refusal(Check(AuthenticatedAdmin, Post, p).value) && sensors == old(sensors)
      ensures Check(AuthenticatedAdmin, Post, p).None? && pk !in old(sensors) ==>
        r == Response(NotFound, Error(SensorNotFound)) && sensors == old(sensors)
      ensures Check(AuthenticatedAdmin, Post, p).None? && pk in old(sensors)
              && (estado.None? || ParseSensorStatus(estado.value).None?) ==>
        r == Response(BadRequest, Error(InvalidStatus)) && sensors == old(sensors)
      ensures Check(AuthenticatedAdmin, Post, p).None? && pk in old(sensors)
              && estado.Some? && ParseSensorStatus(estado.value).Some? ==>
        var status := ParseSensorStatus(estado.value).value;
        && sensors == old(sensors)[pk := old(sensors)[pk].(estado := status, actualizado := now)]
        && r == Response(Ok, SensorState(pk, sensors[pk]))
    {
      Tick();
      var denial := Check(AuthenticatedAdmin, Post, p);
      if denial.Some? {
        return Refusal(denial.value);
      }
      if pk !in sensors {
        return Response(NotFound, Error(SensorNotFound));
      }
      var status := if estado.Some? then ParseSensorStatus(estado.value) else None;
      if status.None? {
        return Response(BadRequest, Error(InvalidStatus));
      }
      SaveSensorStatus(pk, status.value);
      r := Response(Ok, SensorState(pk, sensors[pk]));
    }

    /**
     * simular_cambio_estado_sensor (admins only): missing parameters and a
     * value outside the four states are bad requests, checked before the
     * lookup; an unknown uid is not found; otherwise exactly that sensor's
     * status changes and the previous one is reported. No event is written.
     */
    method CambioEstadoSensor(p: Principal, uid: Option<string>, nuevoEstado: Option<string>) returns (r: Response)
      requires Valid()
      modifies this
      ensures Valid()
      ensures now == old(now) + 1
      ensures barriers == old(barriers) && events == old(events)
      ensures nextSensorId == old(nextSensorId) && nextBarrierId == old(nextBarrierId)
      ensures Check(AuthenticatedAdmin, Post, p).Some? ==>
        r == Refusal(Check(AuthenticatedAdmin, Post, p).value) && sensors == old(sensors)
      ensures Check(AuthenticatedAdmin, Post, p).None? && (!Present(uid) || !Present(nuevoEstado)) ==>
        r == Response(BadRequest, Error(UidAndStatusRequired)) && sensors == old(sensors)
      ensures Check(AuthenticatedAdmin, Post, p).None? && Present(uid) && Present(nuevoEstado)
              && ParseSensorStatus(nuevoEstado.value).None? ==>
        r == Response(BadRequest, Error(InvalidStatus)) && sensors == old(sensors)
      ensures Check(AuthenticatedAdmin, Post, p).None? && Present(uid) && Present(nuevoEstado)
              && ParseSensorStatus(nuevoEstado.value).Some? && FindSensorByUid(old(sensors), uid.value).None? ==>
        r == Response(NotFound, Error(SensorNotFound)) && sensors == old(sensors)
      ensures Check(AuthenticatedAdmin, Post, p).None? && Present(uid) && Present(nuevoEstado)
              && ParseSensorStatus(nuevoEstado.value).Some? && FindSensorByUid(old(sensors), uid.value).Some? ==>
        var id := FindSensorByUid(old(sensors), uid.value).value;
        var status := ParseSensorStatus(nuevoEstado.value).value;
        && sensors == old(sensors)[id := old(sensors)[id].(estado := status, actualizado := now)]
        && r == Response(Ok, StatusChanged(id, old(sensors)[id].estado, status))
    {
      Tick();
      var denial := Check(AuthenticatedAdmin, Post, p);
      if denial.Some? {
        return Refusal(denial.value);
      }
      if !Present(uid) || !Present(nuevoEstado) {
        return Response(BadRequest, Error(UidAndStatusRequired));
      }
      var status := ParseSensorStatus(nuevoEstado.value);
      if status.None? {
        return Response(BadRequest, Error(InvalidStatus));
      }
      var found := FindSensorByUid(sensors, uid.value);
      if found.None? {
        return Response(NotFound, Error(SensorNotFound));
      }
      var id := found.value;
      var previous := sensors[id].estado;
      SaveSensorStatus(id, status.value);
      r := Response(Ok, StatusChanged(id, previous, status.value));
    }

    // -------------------------------------------------------------------
    // Registration of sensors and barriers (the create path the validators guard)
    // -------------------------------------------------------------------

    /**
     * Creating a sensor (write request under IsAdminOrReadOnly): the field
     * errors are returned and nothing changes, or the sensor is inserted
     * under a fresh key with the default status unless one is given.
     */
    method RegisterSensor(p: Principal, uid: string, nombre: string, estado: Option<string>,
                          departamento: Option<DepartmentId>, usuario: Option<ProfileId>) returns (r: Response)
      requires Valid()
      modifies this
      ensures Valid()
      ensures now == old(now) + 1
      ensures barriers == old(barriers) && events == old(events) && nextBarrierId == old(nextBarrierId)
      ensures Check(AuthenticatedAdminOrReadOnly, Post, p).Some? ==>
        && r == Refusal(Check(AuthenticatedAdminOrReadOnly, Post, p).value)
        && sensors == old(sensors) && nextSensorId == old(nextSensorId)
      ensures Check(AuthenticatedAdminOrReadOnly, Post, p).None? && SensorCreateErrors(uid, nombre, estado, old(sensors)) != [] ==>
        && r == Response(BadRequest, Invalid(SensorCreateErrors(uid, nombre, estado, old(sensors))))
        && sensors == old(sensors) && nextSensorId == old(nextSensorId)
      ensures Check(AuthenticatedAdminOrReadOnly, Post, p).None? && SensorCreateErrors(uid, nombre, estado, old(sensors)) == [] ==>
        var id := old(nextSensorId);
        var status := if estado.Some? then ParseSensorStatus(estado.value).value else DefaultSensorStatus;
        && id !in old(sensors)
        && sensors == old(sensors)[id := Sensor(uid, nombre, status, departamento, usuario, now, now)]
        && nextSensorId == id + 1
        && r == Response(Created, NewRecord(id))
    {
      Tick();
      var denial := Check(AuthenticatedAdminOrReadOnly, Post, p);
      if denial.Some? {
        return Refusal(denial.value);
      }
      var errors := SensorCreateErrors(uid, nombre, estado, sensors);
      if errors != [] {
        return Response(BadRequest, Invalid(errors));
      }
      var status := if estado.Some? then ParseSensorStatus(estado.value).value else DefaultSensorStatus;
      var id := nextSensorId;
      var s := Sensor(uid, nombre, status, departamento, usuario, now, now);
      AcceptedUidKeepsUniqueOnCreate(sensors, id, s);
      sensors := sensors[id := s];
      nextSensorId := nextSensorId + 1;
      r := Response(Created, NewRecord(id));
    }

    /**
     * Creating a barrier (write request under IsAdminOrReadOnly): the field
     * errors are returned and nothing changes, or the barrier is inserted
     * under a fresh key, closed unless a position is given. A department
     * that already has a barrier is refused, so the link stays one-to-one.
     */
    method RegisterBarrier(p: Principal, nombre: string, estado: Option<string>,
                           departamento: Option<DepartmentId>) returns (r: Response)
      requires Valid()
      modifies this
      ensures Valid()
      ensures now == old(now) + 1
      ensures sensors == old(sensors) && events == old(events) && nextSensorId == old(nextSensorId)
      ensures Check(AuthenticatedAdminOrReadOnly, Post, p).Some? ==>
        && r == Refusal(Check(AuthenticatedAdminOrReadOnly, Post, p).value)
        && barriers == old(barriers) && nextBarrierId == old(nextBarrierId)
      ensures Check(AuthenticatedAdminOrReadOnly, Post, p).None? && BarrierCreateErrors(nombre, estado, departamento, old(barriers)) != [] ==>
        && r == Response(BadRequest, Invalid(BarrierCreateErrors(nombre, estado, departamento, old(barriers))))
        && barriers == old(barriers) && nextBarrierId == old(nextBarrierId)
      ensures Check(AuthenticatedAdminOrReadOnly, Post, p).None? && BarrierCreateErrors(nombre, estado, departamento, old(barriers)) == [] ==>
        var id := old(nextBarrierId);
        var position := if estado.Some? then ParseBarrierPosition(estado.value).value else DefaultBarrierPosition;
        && id !in old(barriers)
        && barriers == old(barriers)[id := Barrier(nombre, position, departamento, now)]
        && nextBarrierId == id + 1
        && r == Response(Created, NewRecord(id))
    {
      Tick();
      var denial := Check(AuthenticatedAdminOrReadOnly, Post, p);
      if denial.Some? {
        return Refusal(denial.value);
      }
      var errors := BarrierCreateErrors(nombre, estado, departamento, barriers);
      if errors != [] {
        return Response(BadRequest, Invalid(errors));
      }
      var position := if estado.Some? then ParseBarrierPosition(estado.value).value else DefaultBarrierPosition;
      var id := nextBarrierId;
      var b := Barrier(nombre, position, departamento, now);
      AcceptedBarrierKeepsConstraints(barriers, id, b, estado);
      barriers := barriers[id := b];
      nextBarrierId := nextBarrierId + 1;
      r := Response(Created, NewRecord(id));
    }

    // -------------------------------------------------------------------
    // Reports (read-only)
    // -------------------------------------------------------------------

    /**
     * estado_sistema (authenticated callers): the rollup over the window
     * that starts at `since`.
     */
    function EstadoSistema(p: Principal, since: nat): (r: Response)
      reads this
      ensures !IsAuthenticated(p) ==> r == Response(Unauthorized, Error(Refused(NotAuthenticated)))
      ensures IsAuthenticated(p) ==>
        && r.status == Ok && r.body.Dashboard?
        && r.body.report == SystemReport(sensors, barriers, events, since, now)
        && r.body.report.sensores.total == |sensors|
    {
      var denial := Check(AuthenticatedOnly, Get, p);
      if denial.Some? then Refusal(denial.value)
      else Response(Ok, Dashboard(SystemReport(sensors, barriers, events, since, now)))
    }

    /**
     * EventoViewSet.por_sensor (authenticated callers): a missing id is a bad
     * request, an unknown sensor not found; otherwise exactly that sensor's
     * events, newest first.
     */
    function PorSensor(p: Principal, sensorId: Option<SensorId>): (r: Response)
      requires Valid()
      reads this
      ensures !IsAuthenticated(p) ==> r.status == Unauthorized
      ensures IsAuthenticated(p) && sensorId.None? ==> r == Response(BadRequest, Error(SensorIdRequired))
      ensures IsAuthenticated(p) && sensorId.Some? && sensorId.value !in sensors ==>
        r == Response(NotFound, Error(SensorNotFound))
      ensures IsAuthenticated(p) && sensorId.Some? && sensorId.value in sensors ==>
        && r.status == Ok && r.body.Events?
        && (forall e :: e in r.body.events <==> e in events && e.sensor == Registered(sensorId.value))
        && SelectedFrom(r.body.events, events, BySensor(sensorId.value))
        && NewestFirst(r.body.events) && StrictlyNewestFirst(r.body.events)
    {
      var denial := Check(AuthenticatedOnly, Get, p);
      if denial.Some? then Refusal(denial.value)
      else if sensorId.None? then Response(BadRequest, Error(SensorIdRequired))
      else if sensorId.value !in sensors then Response(NotFound, Error(SensorNotFound))
      else
        QueryNewestFirst(events, BySensor(sensorId.value));
        QueryKeepsMultiplicity(events, BySensor(sensorId.value));
        Response(Ok, Events(Query(events, BySensor(sensorId.value))))
    }

    /**
     * EventoViewSet.por_tipo (authenticated callers): a missing kind is a bad
     * request; otherwise exactly the events stored with that kind code,
     * newest first (none for a code outside the five kinds).
     */
    function PorTipo(p: Principal, tipo: Option<string>): (r: Response)
      requires Valid()
      reads this
      ensures !IsAuthenticated(p) ==> r.status == Unauthorized
      ensures IsAuthenticated(p) && !Present(tipo) ==> r == Response(BadRequest, Error(KindRequired))
      ensures IsAuthenticated(p) && Present(tipo) ==>
        && r.status == Ok && r.body.Events?
        && (forall e :: e in r.body.events <==> e in events && EventKindCode(e.tipo) == tipo.value)
        && SelectedFrom(r.body.events, events, ByKindCode(tipo.value))
        && NewestFirst(r.body.events) && StrictlyNewestFirst(r.body.events)
        && (tipo.value !in EventKindCodes ==> r.body.events == [])
    {
      var denial := Check(AuthenticatedOnly, Get, p);
      if denial.Some? then Refusal(denial.value)
      else if !Present(tipo) then Response(BadRequest, Error(KindRequired))
      else
        QueryNewestFirst(events, ByKindCode(tipo.value));
        QueryKeepsMultiplicity(events, ByKindCode(tipo.value));
        if tipo.value !in EventKindCodes then
          UnknownKindCodeSelectsNothing(events, tipo.value);
          Response(Ok, Events(Query(events, ByKindCode(tipo.value))))
        else
          Response(Ok, Events(Query(events, ByKindCode(tipo.value))))
    }
  }
}
