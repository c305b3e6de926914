/**
 * The events that no sensor triggered, as the endpoints write them: the
 * mandatory sensor reference is filled with `Sensor.objects.first()`, the most
 * recently created sensor. This module models that behaviour on values and
 * exhibits its two consequences: with an empty registry the insert fails
 * (after the barrier was already saved), and with a non-empty one the event
 * is filed under a sensor that had nothing to do with it. The rest of the
 * model records such events with the sensor reference `Unidentified`.
 */
module Findings {
  import opened Models
  import opened Reports
  import opened Views

  /** The outcome of a request: a response, or an unhandled error (HTTP 500). */
  datatype Reply = Replied(status: Http) | ServerError

  /** The three stores as the request leaves them. */
  datatype Store = Store(sensors: map<SensorId, Sensor>, barriers: map<BarrierId, Barrier>, events: seq<Event>)

  predicate IsNewest(sensors: map<SensorId, Sensor>, id: SensorId) {
    id in sensors && forall other :: other in sensors ==> sensors[other].creado <= sensors[id].creado
  }

  /** A non-empty registry has a most recently created sensor. */
  lemma NewestSensorExists(sensors: map<SensorId, Sensor>)
    requires sensors != map[]
    ensures exists id :: IsNewest(sensors, id)
    decreases sensors.Keys
  {
    var k :| k in sensors;
    var rest := sensors - {k};
    assert forall o :: o in sensors ==> o == k || o in rest;
    if rest == map[] {
      assert IsNewest(sensors, k);
    } else {
      NewestSensorExists(rest);
      var m :| IsNewest(rest, m);
      if sensors[k].creado <= rest[m].creado {
        assert IsNewest(sensors, m);
      } else {
        assert IsNewest(sensors, k);
      }
    }
  }

  /** `Sensor.objects.first()` under the declared ordering `-fecha_creacion`; None on an empty registry. */
  ghost function FirstSensor(sensors: map<SensorId, Sensor>): (r: Option<SensorId>)
    ensures r.None? <==> sensors == map[]
    ensures r.Some? ==> IsNewest(sensors, r.value)
  {
    if sensors == map[] then None
    else
      NewestSensorExists(sensors);
      var id :| IsNewest(sensors, id); Some(id)
  }

  /**
   * BarreraViewSet.abrir / cerrar and simular_cierre_barrera as written, after
   * the barrier was found: the barrier is saved first, then the event insert
   * runs with the first sensor; with no sensor the insert violates the NOT
   * NULL reference and the request ends in an unhandled error, the saved
   * position staying behind (no request-wide transaction).
   */
  ghost function BarrierActionAsWritten(st: Store, pk: BarrierId, position: BarrierPosition, tipo: EventKind,
                                  usuario: Option<ProfileId>, mensaje: Message, now: nat): (r: (Store, Reply))
    requires pk in st.barriers
    ensures r.0.sensors == st.sensors
    ensures r.0.barriers == st.barriers[pk := st.barriers[pk].(estado := position, ultimoCambio := now)]
    ensures r.1 == ServerError <==> st.sensors == map[]
    ensures r.1 == ServerError ==> r.0.events == st.events
    ensures r.1 != ServerError ==>
      exists id :: (IsNewest(st.sensors, id)
        && r.0.events == st.events + [Event(|st.events| + 1, Registered(id), tipo, Some(pk), usuario, mensaje, now)])
  {
    var barriers := st.barriers[pk := st.barriers[pk].(estado := position, ultimoCambio := now)];
    var first := FirstSensor(st.sensors);
    if first.None? then (Store(st.sensors, barriers, st.events), ServerError)
    else
      var ev := Event(|st.events| + 1, Registered(first.value), tipo, Some(pk), usuario, mensaje, now);
      (Store(st.sensors, barriers, st.events + [ev]), Replied(Ok))
  }

  /**
   * simular_lectura_sensor as written, for a uid that is not registered: the
   * denied event is filed under the first sensor, and on an empty registry the
   * insert fails and neither the event nor the 404 reply is produced.
   */
  ghost function UnknownUidAsWritten(st: Store, uid: string, now: nat): (r: (Store, Reply))
    ensures r.0.sensors == st.sensors && r.0.barriers == st.barriers
    ensures r.1 == ServerError <==> st.sensors == map[]
    ensures r.1 == ServerError ==> r.0.events == st.events
    ensures r.1 != ServerError ==>
      && r.1 == Replied(NotFound)
      && (exists id :: (IsNewest(st.sensors, id)
           && r.0.events == st.events + [Event(|st.events| + 1, Registered(id), AccesoDenegado, None, None, UnknownUid(uid), now)]))
  {
    var first := FirstSensor(st.sensors);
    if first.None? then (st, ServerError)
    else
      var ev := Event(|st.events| + 1, Registered(first.value), AccesoDenegado, None, None, UnknownUid(uid), now);
      (Store(st.sensors, st.barriers, st.events + [ev]), Replied(NotFound))
  }

  /** Every change of a barrier's position comes with a new event that names that barrier. */
  ghost predicate MoveAudited(before: Store, after: Store, pk: BarrierId)
    requires pk in before.barriers && pk in after.barriers
    requires |before.events| <= |after.events|
  {
    after.barriers[pk].estado != before.barriers[pk].estado ==>
      exists i :: |before.events| <= i < |after.events| && after.events[i].barrera == Some(pk)
  }

  const EntranceOnly: Store := Store(map[], map[1 := Barrier("Barrera Entrada Principal", Cerrada, Some(1), 0)], [])

  /** Counterexample: opening a closed barrier with no sensor registered moves it, writes no event, and fails. */
  lemma EmptyRegistryOpenIsUnaudited()
    ensures var r := BarrierActionAsWritten(EntranceOnly, 1, Abierta, BarreraAbierta, Some(1), OpenedManually, 1);
      && r.1 == ServerError
      && r.0.barriers[1].estado == Abierta
      && r.0.events == []
      && !MoveAudited(EntranceOnly, r.0, 1)
  {
  }

  /** Counterexample: an unknown uid presented to an empty registry gets no audit event. */
  lemma EmptyRegistryUnknownUidIsUnaudited()
    ensures var r := UnknownUidAsWritten(Store(map[], map[], []), "AA:BB:CC:DD:EE:99", 1);
      r.1 == ServerError && r.0.events == []
  {
  }

  /** Counterexample: with one sensor registered, an unknown uid's denial shows up in that sensor's history. */
  lemma UnknownUidFiledUnderFirstSensor()
    ensures
      var card := Sensor("AA:BB:CC:DD:EE:01", "Tarjeta Acceso 001", Activo, None, None, 0, 0);
      var r := UnknownUidAsWritten(Store(map[1 := card], map[], []), "AA:BB:CC:DD:EE:99", 1);
      && r.1 == Replied(NotFound)
      && |Query(r.0.events, BySensor(1))| == 1
      && Query(r.0.events, BySensor(1))[0].mensaje == UnknownUid("AA:BB:CC:DD:EE:99")
  {
    var card := Sensor("AA:BB:CC:DD:EE:01", "Tarjeta Acceso 001", Activo, None, None, 0, 0);
    var st := Store(map[1 := card], map[], []);
    assert 1 in st.sensors;
    assert FirstSensor(st.sensors) == Some(1);
    var r := UnknownUidAsWritten(st, "AA:BB:CC:DD:EE:99", 1);
    assert r.0.events == [Event(1, Registered(1), AccesoDenegado, None, None, UnknownUid("AA:BB:CC:DD:EE:99"), 1)];
  }

  /**
   * Where a sensor exists the as-written barrier action is the corrected one
   * up to the sensor reference: the same barriers, the ledger kept, and one
   * new event whose other fields are those the corrected action writes.
   */
  lemma BarrierActionAsWrittenAuditsWhenRegistryNonEmpty(st: Store, pk: BarrierId, position: BarrierPosition,
                                                          tipo: EventKind, usuario: Option<ProfileId>,
                                                          mensaje: Message, now: nat)
    requires pk in st.barriers && st.sensors != map[]
    ensures var r := BarrierActionAsWritten(st, pk, position, tipo, usuario, mensaje, now);
      && r.0.barriers == st.barriers[pk := st.barriers[pk].(estado := position, ultimoCambio := now)]
      && |r.0.events| == |st.events| + 1
      && r.0.events[..|st.events|] == st.events
      && r.0.events[|st.events|].sensor.Registered?
      && r.0.events[|st.events|].(sensor := Unidentified)
         == Event(|st.events| + 1, Unidentified, tipo, Some(pk), usuario, mensaje, now)
      && MoveAudited(st, r.0, pk)
  {
    var r := BarrierActionAsWritten(st, pk, position, tipo, usuario, mensaje, now);
    assert r.0.events[|st.events|].barrera == Some(pk);
  }
}
