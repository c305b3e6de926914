/**
 * The data model of the access-control backend: the choices and defaults of
 * sensors, barriers, events and roles, the entity records, and the
 * constraints the database declares across records (unique uid, one barrier
 * per department, unique department and role names, event ordering).
 */
module Models {

  datatype Option<T> = None | Some(value: T)

  // Primary keys of the stores; the database assigns them from 1 upwards.
  type SensorId = nat
  type BarrierId = nat
  type DepartmentId = nat
  type ProfileId = nat
  type EventId = nat

  /** Sensor.estado; a new sensor is Activo. */
  datatype SensorStatus = Activo | Inactivo | Bloqueado | Perdido

  /** Barrera.estado; a new barrier is Cerrada. */
  datatype BarrierPosition = Abierta | Cerrada

  /** Evento.tipo. */
  datatype EventKind =
    | AccesoIntentado
    | AccesoPermitido
    | AccesoDenegado
    | BarreraAbierta
    | BarreraCerrada

  /** Rol.nombre. */
  datatype RoleName = Admin | Operador

  const DefaultSensorStatus: SensorStatus := Activo
  const DefaultBarrierPosition: BarrierPosition := Cerrada

  // Length limits declared on the model fields.
  const MaxUidLength: nat := 100
  const MaxNameLength: nat := 100
  const MinNameLength: nat := 3

  // ---------------------------------------------------------------------
  // The stored codes of the choices, and their inverses
  // ---------------------------------------------------------------------

  function SensorStatusCode(s: SensorStatus): string {
    match s
    case Activo => "activo"
    case Inactivo => "inactivo"
    case Bloqueado => "bloqueado"
    case Perdido => "perdido"
  }

  const SensorStatusCodes: seq<string> := ["activo", "inactivo", "bloqueado", "perdido"]

  /** Reads a stored sensor status; exactly the four codes are accepted. */
  function ParseSensorStatus(code: string): (r: Option<SensorStatus>)
    ensures forall s :: r == Some(s) <==> SensorStatusCode(s) == code
    ensures r.Some? <==> code in SensorStatusCodes
  {
    if code == "activo" then Some(Activo)
    else if code == "inactivo" then Some(Inactivo)
    else if code == "bloqueado" then Some(Bloqueado)
    else if code == "perdido" then Some(Perdido)
    else None
  }

  function BarrierPositionCode(p: BarrierPosition): string {
    match p
    case Abierta => "abierta"
    case Cerrada => "cerrada"
  }

  const BarrierPositionCodes: seq<string> := ["abierta", "cerrada"]

  /** Reads a stored barrier position; exactly the two codes are accepted. */
  function ParseBarrierPosition(code: string): (r: Option<BarrierPosition>)
    ensures forall p :: r == Some(p) <==> BarrierPositionCode(p) == code
    ensures r.Some? <==> code in BarrierPositionCodes
  {
    if code == "abierta" then Some(Abierta)
    else if code == "cerrada" then Some(Cerrada)
    else None
  }

  function EventKindCode(k: EventKind): string {
    match k
    case AccesoIntentado => "acceso_intentado"
    case AccesoPermitido => "acceso_permitido"
    case AccesoDenegado => "acceso_denegado"
    case BarreraAbierta => "barrera_abierta"
    case BarreraCerrada => "barrera_cerrada"
  }

  const EventKindCodes: seq<string> :=
    ["acceso_intentado", "acceso_permitido", "acceso_denegado", "barrera_abierta", "barrera_cerrada"]

  /** Reads a stored event kind; exactly the five codes are accepted. */
  function ParseEventKind(code: string): (r: Option<EventKind>)
    ensures forall k :: r == Some(k) <==> EventKindCode(k) == code
    ensures r.Some? <==> code in EventKindCodes
  {
    if code == "acceso_intentado" then Some(AccesoIntentado)
    else if code == "acceso_permitido" then Some(AccesoPermitido)
    else if code == "acceso_denegado" then Some(AccesoDenegado)
    else if code == "barrera_abierta" then Some(BarreraAbierta)
    else if code == "barrera_cerrada" then Some(BarreraCerrada)
    else None
  }

  function RoleNameCode(n: RoleName): string {
    match n
    case Admin => "admin"
    case Operador => "operador"
  }

  /** Reads a stored role name; exactly "admin" and "operador" are accepted. */
  function ParseRoleName(code: string): (r: Option<RoleName>)
    ensures forall n :: r == Some(n) <==> RoleNameCode(n) == code
    ensures r.Some? <==> code in ["admin", "operador"]
  {
    if code == "admin" then Some(Admin)
    else if code == "operador" then Some(Operador)
    else None
  }

  // ---------------------------------------------------------------------
  // Entity records
  // ---------------------------------------------------------------------

  /** A sensor; `creado` is fixed at insert, `actualizado` refreshed on every save. */
  datatype Sensor = Sensor(
    uid: string,
    nombre: string,
    estado: SensorStatus,
    departamento: Option<DepartmentId>,
    usuario: Option<ProfileId>,
    creado: nat,
    actualizado: nat)

  /** A barrier; `ultimoCambio` is refreshed on every save. */
  datatype Barrier = Barrier(
    nombre: string,
    estado: BarrierPosition,
    departamento: Option<DepartmentId>,
    ultimoCambio: nat)

  /**
   * The sensor an event refers to. Every event has one; `Unidentified` stands
   * for the events that no real sensor triggered (an unknown uid, a barrier
   * moved by hand or by the automatic close).
   */
  datatype SensorRef = Registered(id: SensorId) | Unidentified

  /** The free-text message of an event, as the situation it describes. */
  datatype Message =
    | UnknownUid(uid: string)
    | DeniedFor(status: SensorStatus)
    | Granted
    | GrantedAtBarrier
    | AttemptedWith
    | OpenedManually
    | ClosedManually
    | ClosedAutomatically

  /**
   * An audit event. The sensor reference is mandatory; the barrier and the
   * acting user are optional; `fecha` is set once, when the event is inserted.
   */
  datatype Event = Event(
    id: EventId,
    sensor: SensorRef,
    tipo: EventKind,
    barrera: Option<BarrierId>,
    usuarioAccion: Option<ProfileId>,
    mensaje: Message,
    fecha: nat)

  datatype Department = Department(nombre: string, descripcion: string, ubicacion: string, activo: bool)

  datatype Role = Role(nombre: RoleName, descripcion: string)

  // ---------------------------------------------------------------------
  // Constraints across records
  // ---------------------------------------------------------------------

  /** Sensor.uid is unique: no two sensors share a uid. */
  predicate UidsUnique(sensors: map<SensorId, Sensor>) {
    forall a, b :: a in sensors && b in sensors && sensors[a].uid == sensors[b].uid ==> a == b
  }

  function SensorsWithUid(sensors: map<SensorId, Sensor>, uid: string): set<SensorId> {
    set id | id in sensors && sensors[id].uid == uid
  }

  /** Under uid uniqueness at most one sensor carries a given uid. */
  lemma UidNamesAtMostOneSensor(sensors: map<SensorId, Sensor>, uid: string)
    requires UidsUnique(sensors)
    ensures |SensorsWithUid(sensors, uid)| <= 1
  {
    var found := SensorsWithUid(sensors, uid);
    if found != {} {
      var x :| x in found;
      assert found == {x};
    }
  }

  /** The exact-match lookup `Sensor.objects.get(uid=uid)`. */
  function FindSensorByUid(sensors: map<SensorId, Sensor>, uid: string): (r: Option<SensorId>)
    requires UidsUnique(sensors)
    ensures r.Some? ==> r.value in sensors && sensors[r.value].uid == uid
    ensures r.None? ==> forall id :: id in sensors ==> sensors[id].uid != uid
  {
    if exists id :: id in sensors && sensors[id].uid == uid then
      var id :| id in sensors && sensors[id].uid == uid; Some(id)
    else None
  }

  predicate UidInUse(sensors: map<SensorId, Sensor>, uid: string) {
    exists id :: id in sensors && sensors[id].uid == uid
  }

  /** Barrera.nombre is unique. */
  predicate BarrierNamesUnique(barriers: map<BarrierId, Barrier>) {
    forall a, b :: a in barriers && b in barriers && barriers[a].nombre == barriers[b].nombre ==> a == b
  }

  /** Barrera.departamento is one-to-one: a department is linked to at most one barrier. */
  predicate OneBarrierPerDepartment(barriers: map<BarrierId, Barrier>) {
    forall a, b ::
      a in barriers && b in barriers && barriers[a].departamento.Some? &&
      barriers[a].departamento == barriers[b].departamento
      ==> a == b
  }

  function BarriersOf(barriers: map<BarrierId, Barrier>, d: DepartmentId): set<BarrierId> {
    set id | id in barriers && barriers[id].departamento == Some(d)
  }

  /** The one-to-one link leaves each department zero or one barrier. */
  lemma DepartmentHasAtMostOneBarrier(barriers: map<BarrierId, Barrier>, d: DepartmentId)
    requires OneBarrierPerDepartment(barriers)
    ensures |BarriersOf(barriers, d)| <= 1
  {
    var found := BarriersOf(barriers, d);
    if found != {} {
      var x :| x in found;
      assert found == {x};
    }
  }

  /** Departamento.nombre is unique and at least three characters long. */
  predicate DepartmentsValid(departments: map<DepartmentId, Department>) {
    && (forall d :: d in departments ==> MinNameLength <= |departments[d].nombre| <= MaxNameLength)
    && (forall a, b ::
          a in departments && b in departments && departments[a].nombre == departments[b].nombre
          ==> a == b)
  }

  /** Rol.nombre is unique. */
  predicate RoleNamesUnique(roles: map<nat, Role>) {
    forall a, b :: a in roles && b in roles && roles[a].nombre == roles[b].nombre ==> a == b
  }

  function RolesNamed(roles: map<nat, Role>, n: RoleName): set<nat> {
    set id | id in roles && roles[id].nombre == n
  }

  /** Unique names drawn from two choices: there are at most two roles. */
  lemma AtMostTwoRoles(roles: map<nat, Role>)
    requires RoleNamesUnique(roles)
    ensures |roles| <= 2
  {
    var admins, operators := RolesNamed(roles, Admin), RolesNamed(roles, Operador);
    if admins != {} {
      var x :| x in admins;
      assert admins == {x};
    }
    if operators != {} {
      var y :| y in operators;
      assert operators == {y};
    }
    assert roles.Keys == admins + operators;
  }

  // ---------------------------------------------------------------------
  // Event ordering
  // ---------------------------------------------------------------------

  /** The ledger in insertion order: every later event was inserted at a later time. */
  ghost predicate Chronological(events: seq<Event>) {
    forall i, j :: 0 <= i < j < |events| ==> events[i].fecha < events[j].fecha
  }

  /** The declared ordering of events, `-fecha_evento`: newest first. */
  ghost predicate NewestFirst(events: seq<Event>) {
    forall i, j :: 0 <= i < j < |events| ==> events[i].fecha >= events[j].fecha
  }

  /** Newest first with no two events at the same time, so no event is listed twice. */
  ghost predicate StrictlyNewestFirst(events: seq<Event>) {
    forall i, j :: 0 <= i < j < |events| ==> events[i].fecha > events[j].fecha
  }
}
