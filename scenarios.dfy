/**
 * Concrete scenarios of the endpoints on a fresh system, with the sample data of
 * the seeding script: card AA:BB:CC:DD:EE:01 (active), bracelet
 * AA:BB:CC:DD:EE:03 (blocked) and the main entrance barrier.
 */
module Scenarios {
  import opened Models
  import opened Serializers
  import opened Permissions
  import opened Reports
  import opened Views

  const AdminCaller: Principal := Authenticated(Some(Profile(1, Some(Admin))))
  const OperatorCaller: Principal := Authenticated(Some(Profile(2, Some(Operador))))

  const Card: string := "AA:BB:CC:DD:EE:01"
  const Bracelet: string := "AA:BB:CC:DD:EE:03"
  const Entrance: string := "Barrera Entrada Principal"

  const CardRecord: Sensor := Sensor(Card, "Tarjeta Acceso 001", Activo, Some(1), None, 0, 0)
  const BraceletRecord: Sensor := Sensor(Bracelet, "Pulsera RFID 003", Bloqueado, Some(3), None, 0, 0)

  /** A fresh system holding the given stores, an empty ledger and the clock at zero. */
  method Setup(sensors: map<SensorId, Sensor>, barriers: map<BarrierId, Barrier>,
               nextSensor: nat, nextBarrier: nat) returns (sys: AccessSystem)
    requires RegistryValid(sensors, nextSensor) && BarriersValid(barriers, nextBarrier)
    ensures fresh(sys) && sys.Valid()
    ensures sys.sensors == sensors && sys.barriers == barriers && sys.events == [] && sys.now == 0
  {
    sys := new AccessSystem();
    sys.sensors, sys.barriers := sensors, barriers;
    sys.nextSensorId, sys.nextBarrierId := nextSensor, nextBarrier;
  }

  /** An active card presented at the closed entrance barrier is admitted and opens it. */
  method ActiveCardOpensClosedBarrier() returns (r: Response, position: BarrierPosition, added: seq<Event>)
    ensures r.status == Ok && r.body.Decision? && r.body.granted
    ensures position == Abierta
    ensures added == [Event(1, Registered(1), AccesoPermitido, Some(1), None, GrantedAtBarrier, 1)]
  {
    var sys := Setup(map[1 := CardRecord], map[1 := Barrier(Entrance, Cerrada, Some(1), 0)], 2, 2);
    assert sys.sensors[1].uid == Card;
    assert FindSensorByUid(sys.sensors, Card) == Some(1);
    r := sys.IntentoAcceso(AdminCaller, Some(Card), Some(1));
    position := sys.barriers[1].estado;
    added := sys.events;
  }

  /** A blocked bracelet presented at the open entrance barrier is denied; the barrier stays open. */
  method BlockedBraceletLeavesBarrierOpen() returns (r: Response, position: BarrierPosition, added: seq<Event>)
    ensures r.status == Forbidden && r.body.Decision? && !r.body.granted
    ensures r.body.reason == NotActive(Bloqueado)
    ensures position == Abierta
    ensures added == [Event(1, Registered(2), AccesoDenegado, None, None, DeniedFor(Bloqueado), 1)]
  {
    var sys := Setup(map[1 := CardRecord, 2 := BraceletRecord], map[1 := Barrier(Entrance, Abierta, Some(1), 0)], 3, 2);
    assert sys.sensors[2].uid == Bracelet && Card[16] != Bracelet[16];
    assert FindSensorByUid(sys.sensors, Bracelet) == Some(2);
    r := sys.IntentoAcceso(AdminCaller, Some(Bracelet), Some(1));
    position := sys.barriers[1].estado;
    added := sys.events;
  }

  /** A uid nobody registered is denied as unregistered, with one event that names no sensor. */
  method UnknownUidIsDeniedAndAudited() returns (r: Response, added: seq<Event>)
    ensures r == Response(NotFound, Decision(false, Unregistered, None, None, None, None))
    ensures added == [Event(1, Unidentified, AccesoDenegado, None, None, UnknownUid("AA:BB:CC:DD:EE:99"), 1)]
  {
    var sys := Setup(map[1 := CardRecord], map[], 2, 1);
    assert FindSensorByUid(sys.sensors, "AA:BB:CC:DD:EE:99") == None;
    r := sys.LecturaSensor(Some("AA:BB:CC:DD:EE:99"));
    added := sys.events;
  }

  /** An operator may read but not move a barrier; opening twice leaves it open both times. */
  method OpeningIsIdempotentAndAdminOnly() returns (denied: Response, first: BarrierPosition, second: BarrierPosition, count: nat)
    ensures denied == Response(Forbidden, Error(Refused(PermissionDenied)))
    ensures first == Abierta && second == Abierta
    ensures count == 2
  {
    var sys := Setup(map[], map[1 := Barrier(Entrance, Cerrada, None, 0)], 1, 2);
    denied := sys.Abrir(OperatorCaller, 1);
    assert sys.barriers.Keys == {1} && sys.events == [];
    var _ := sys.Abrir(AdminCaller, 1);
    first := sys.barriers[1].estado;
    assert sys.barriers.Keys == {1} && |sys.events| == 1;
    var _ := sys.Abrir(AdminCaller, 1);
    second := sys.barriers[1].estado;
    count := |sys.events|;
  }

  /** A second sensor with a registered uid is refused and the first is left as it was. */
  method DuplicateUidIsRefused() returns (r: Response, original: Sensor, size: nat)
    ensures r == Response(BadRequest, Invalid([UidTaken]))
    ensures original == CardRecord
    ensures size == 1
  {
    var sys := Setup(map[1 := CardRecord], map[], 2, 1);
    assert sys.sensors[1].uid == Card;
    assert UidFieldErrors(Card, sys.sensors) == [UidTaken];
    assert SensorCreateErrors(Card, "Llavero RFID 002", None, sys.sensors) == [UidTaken];
    r := sys.RegisterSensor(AdminCaller, Card, "Llavero RFID 002", None, None, None);
    original := sys.sensors[1];
    size := |sys.sensors|;
  }

  /** A just-written event is the first one the sensor's history returns. */
  method NewEventHeadsSensorHistory() returns (history: Response)
    ensures history.status == Ok && history.body.Events?
    ensures |history.body.events| == 1
    ensures history.body.events[0] == Event(1, Registered(1), AccesoPermitido, None, None, Granted, 1)
  {
    var sys := Setup(map[1 := CardRecord], map[], 2, 1);
    assert sys.sensors[1].uid == Card;
    assert FindSensorByUid(sys.sensors, Card) == Some(1);
    var _ := sys.LecturaSensor(Some(Card));
    AppendedEventComesFirst([], sys.events[0], BySensor(1));
    history := sys.PorSensor(OperatorCaller, Some(1));
  }

  /** Four characters are one too few for a uid; five are enough. */
  lemma UidLengthBoundary()
    ensures SensorCreateErrors("AB:CD", "Tarjeta", None, map[]) == []
    ensures SensorCreateErrors("ABCD", "Tarjeta", None, map[]) == [UidTooShort]
  {
  }

  /** Three granted and two denied events in the window, one granted before it. */
  const Early: Event := Event(1, Registered(1), AccesoPermitido, None, None, Granted, 1)
  const Ledger: seq<Event> := [
    Early,
    Event(2, Registered(1), AccesoPermitido, None, None, Granted, 30),
    Event(3, Registered(2), AccesoDenegado, None, None, DeniedFor(Bloqueado), 31),
    Event(4, Registered(1), AccesoPermitido, Some(1), None, GrantedAtBarrier, 32),
    Event(5, Unidentified, AccesoDenegado, None, None, UnknownUid("AA:BB:CC:DD:EE:99"), 33),
    Event(6, Registered(1), AccesoPermitido, None, None, Granted, 34)
  ]

  /** The window starting at 10 sees five events: three granted, two denied. */
  lemma WindowedEventCounts()
    ensures SystemReport(map[], map[], Ledger, 10, 34).eventos == EventCounts(5, 3, 2)
  {
    var l := Ledger;
    assert l[..1] == [Early];
    assert CountSince([Early][..0], 10, None) == 0;
    assert l[..2][..1] == l[..1] && l[..3][..2] == l[..2] && l[..4][..3] == l[..3];
    assert l[..5][..4] == l[..4] && l[..6][..5] == l[..5] && l[..6] == l;
    assert CountSince(l[..1], 10, None) == 0;
    assert CountSince(l[..2], 10, None) == 1;
    assert CountSince(l[..3], 10, None) == 2;
    assert CountSince(l[..4], 10, None) == 3;
    assert CountSince(l[..5], 10, None) == 4;
    assert CountSince(l[..1], 10, Some(AccesoPermitido)) == 0;
    assert CountSince(l[..2], 10, Some(AccesoPermitido)) == 1;
    assert CountSince(l[..3], 10, Some(AccesoPermitido)) == 1;
    assert CountSince(l[..4], 10, Some(AccesoPermitido)) == 2;
    assert CountSince(l[..5], 10, Some(AccesoPermitido)) == 2;
    assert CountSince(l[..1], 10, Some(AccesoDenegado)) == 0;
    assert CountSince(l[..2], 10, Some(AccesoDenegado)) == 0;
    assert CountSince(l[..3], 10, Some(AccesoDenegado)) == 1;
    assert CountSince(l[..4], 10, Some(AccesoDenegado)) == 1;
    assert CountSince(l[..5], 10, Some(AccesoDenegado)) == 2;
  }
}
