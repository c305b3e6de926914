/**
 * The input validators of the serializers: uid, names, the three choice
 * fields and the registration passwords, plus the per-field checks that a
 * create request for a sensor or a barrier goes through.
 */
module Serializers {
  import opened Models

  datatype FieldError =
    | Blank
    | UidTooShort
    | UidTooLong
    | UidTaken
    | NameTooShort
    | NameTooLong
    | NameTaken
    | InvalidChoice
    | DepartmentTaken
    | PasswordMismatch
    | PasswordTooShort

  /** A validator either returns its (possibly converted) input or raises one error. */
  datatype Validation<T> = Accepted(value: T) | Rejected(error: FieldError)

  const MinUidLength: nat := 5
  const MinPasswordLength: nat := 8

  /**
   * SensorSerializer.validate_uid. `instance` is the sensor being updated
   * (None on create); `sensors` is the registry the uniqueness query runs on.
   */
  function ValidateUid(value: string, instance: Option<Sensor>, sensors: map<SensorId, Sensor>): (r: Validation<string>)
    ensures r.Accepted? ==> r.value == value
    ensures r.Accepted? <==>
      && MinUidLength <= |value|
      && ((instance.Some? && instance.value.uid == value) || !UidInUse(sensors, value))
    ensures |value| < MinUidLength ==> r == Rejected(UidTooShort)
    ensures r.Rejected? && MinUidLength <= |value| ==> r.error == UidTaken
  {
    if |value| < MinUidLength then Rejected(UidTooShort)
    else if instance.Some? && instance.value.uid == value then Accepted(value)
    else if UidInUse(sensors, value) then Rejected(UidTaken)
    else Accepted(value)
  }

  /** A uid accepted on create can be inserted without breaking uid uniqueness. */
  lemma AcceptedUidKeepsUniqueOnCreate(sensors: map<SensorId, Sensor>, id: SensorId, s: Sensor)
    requires UidsUnique(sensors)
    requires id !in sensors
    requires ValidateUid(s.uid, None, sensors).Accepted?
    ensures UidsUnique(sensors[id := s])
  {
  }

  /**
   * A uid accepted on update of sensor `id` (whose stored record is the
   * instance) can be written back without breaking uid uniqueness; keeping
   * the sensor's own uid is always accepted.
   */
  lemma AcceptedUidKeepsUniqueOnUpdate(sensors: map<SensorId, Sensor>, id: SensorId, newUid: string)
    requires UidsUnique(sensors)
    requires id in sensors
    requires ValidateUid(newUid, Some(sensors[id]), sensors).Accepted?
    ensures UidsUnique(sensors[id := sensors[id].(uid := newUid)])
  {
  }

  /** The uid of another sensor is rejected, on create and on update alike. */
  lemma UidOfAnotherSensorRejected(sensors: map<SensorId, Sensor>, instance: Option<SensorId>, other: SensorId)
    requires UidsUnique(sensors)
    requires other in sensors && instance != Some(other)
    requires instance.Some? ==> instance.value in sensors
    requires MinUidLength <= |sensors[other].uid|
    ensures var inst := if instance.Some? then Some(sensors[instance.value]) else None;
            ValidateUid(sensors[other].uid, inst, sensors) == Rejected(UidTaken)
  {
    if instance.Some? {
      assert sensors[instance.value].uid != sensors[other].uid;
    }
  }

  /** SensorSerializer.validate_nombre and DepartamentoSerializer.validate_nombre. */
  function ValidateName(value: string): (r: Validation<string>)
    ensures r.Accepted? <==> MinNameLength <= |value|
    ensures r.Accepted? ==> r.value == value
    ensures r.Rejected? ==> r.error == NameTooShort
  {
    if |value| < MinNameLength then Rejected(NameTooShort) else Accepted(value)
  }

  /** DepartamentoSerializer.validate_nombre: the same three-character minimum. */
  function ValidateDepartmentName(value: string): (r: Validation<string>)
    ensures r.Accepted? <==> MinNameLength <= |value|
    ensures r.Accepted? ==> r.value == value
  {
    ValidateName(value)
  }

  predicate DepartmentNameInUse(departments: map<DepartmentId, Department>, nombre: string) {
    exists id :: id in departments && departments[id].nombre == nombre
  }

  /**
   * The nombre field of a department: not blank; then the model's unique,
   * 100-character and 3-character validators, all errors collected; then
   * validate_nombre.
   */
  function DepartmentNameErrors(value: string, departments: map<DepartmentId, Department>): (errs: seq<FieldError>)
    ensures errs == [] <==> MinNameLength <= |value| <= MaxNameLength && !DepartmentNameInUse(departments, value)
    ensures value != "" && DepartmentNameInUse(departments, value) ==> NameTaken in errs
    ensures value != "" && |value| < MinNameLength ==> NameTooShort in errs
  {
    if value == "" then [Blank]
    else
      var fieldErrors := (if DepartmentNameInUse(departments, value) then [NameTaken] else [])
                       + (if |value| > MaxNameLength then [NameTooLong] else [])
                       + (if |value| < MinNameLength then [NameTooShort] else []);
      if fieldErrors != [] then fieldErrors else ErrorOf(ValidateDepartmentName(value))
  }

  /** A department whose name passes the field checks can be inserted keeping names valid and unique. */
  lemma AcceptedDepartmentKeepsValid(departments: map<DepartmentId, Department>, id: DepartmentId, d: Department)
    requires DepartmentsValid(departments)
    requires id !in departments
    requires DepartmentNameErrors(d.nombre, departments) == []
    ensures DepartmentsValid(departments[id := d])
  {
  }

  /** SensorSerializer.validate_estado: exactly the four status codes. */
  function ValidateSensorStatus(value: string): (r: Validation<string>)
    ensures r.Accepted? <==> value in SensorStatusCodes
    ensures r.Accepted? <==> ParseSensorStatus(value).Some?
    ensures r.Accepted? ==> r.value == value
  {
    if value in SensorStatusCodes then Accepted(value) else Rejected(InvalidChoice)
  }

  /** BarreraSerializer.validate_estado: exactly the two position codes. */
  function ValidateBarrierPosition(value: string): (r: Validation<string>)
    ensures r.Accepted? <==> value in BarrierPositionCodes
    ensures r.Accepted? <==> ParseBarrierPosition(value).Some?
    ensures r.Accepted? ==> r.value == value
  {
    if value in BarrierPositionCodes then Accepted(value) else Rejected(InvalidChoice)
  }

  /** EventoSerializer.validate_tipo: exactly the five event kind codes. */
  function ValidateEventKind(value: string): (r: Validation<string>)
    ensures r.Accepted? <==> value in EventKindCodes
    ensures r.Accepted? <==> ParseEventKind(value).Some?
    ensures r.Accepted? ==> r.value == value
  {
    if value in EventKindCodes then Accepted(value) else Rejected(InvalidChoice)
  }

  datatype Registration = Registration(
    username: string,
    email: string,
    firstName: string,
    lastName: string,
    password: string,
    passwordConfirm: string,
    rolId: nat)

  /**
   * RegistroUsuarioSerializer.validate: a mismatch is reported first, even
   * for a short password; then the eight-character minimum.
   */
  function ValidateRegistration(data: Registration): (r: Validation<Registration>)
    ensures data.password != data.passwordConfirm ==> r == Rejected(PasswordMismatch)
    ensures data.password == data.passwordConfirm && |data.password| < MinPasswordLength ==>
      r == Rejected(PasswordTooShort)
    ensures r.Accepted? <==> data.password == data.passwordConfirm && MinPasswordLength <= |data.password|
    ensures r.Accepted? ==> r.value == data
  {
    if data.password != data.passwordConfirm then Rejected(PasswordMismatch)
    else if |data.password| < MinPasswordLength then Rejected(PasswordTooShort)
    else Accepted(data)
  }

  // ---------------------------------------------------------------------
  // The checks of a create request, field by field
  // ---------------------------------------------------------------------

  function ErrorOf<T>(v: Validation<T>): seq<FieldError> {
    if v.Rejected? then [v.error] else []
  }

  /**
   * The uid field on create: not blank; then the field's own validators, whose
   * errors are all collected (the unique constraint, then at most 100
   * characters); only when those pass, validate_uid.
   */
  function UidFieldErrors(value: string, sensors: map<SensorId, Sensor>): (errs: seq<FieldError>)
    ensures errs == [] <==> MinUidLength <= |value| <= MaxUidLength && !UidInUse(sensors, value)
    ensures value != "" && UidInUse(sensors, value) ==> UidTaken in errs && errs[0] == UidTaken
    ensures |errs| <= 2
  {
    if value == "" then [Blank]
    else
      var fieldErrors := (if UidInUse(sensors, value) then [UidTaken] else [])
                       + (if |value| > MaxUidLength then [UidTooLong] else []);
      if fieldErrors != [] then fieldErrors else ErrorOf(ValidateUid(value, None, sensors))
  }

  /** The nombre field of a sensor: not blank, at most 100 characters, then validate_nombre. */
  function SensorNameField(value: string): Validation<string> {
    if value == "" then Rejected(Blank)
    else if |value| > MaxNameLength then Rejected(NameTooLong)
    else ValidateName(value)
  }

  /** The errors of a sensor create request, in field order; an absent estado takes the default. */
  function SensorCreateErrors(uid: string, nombre: string, estado: Option<string>,
                              sensors: map<SensorId, Sensor>): (errs: seq<FieldError>)
    ensures errs == [] <==>
      && MinUidLength <= |uid| <= MaxUidLength
      && !UidInUse(sensors, uid)
      && MinNameLength <= |nombre| <= MaxNameLength
      && (estado.Some? ==> estado.value in SensorStatusCodes)
    ensures uid != "" && UidInUse(sensors, uid) ==> UidTaken in errs
    ensures |errs| <= 4
  {
    UidFieldErrors(uid, sensors)
    + ErrorOf(SensorNameField(nombre))
    + (if estado.Some? then ErrorOf(ValidateSensorStatus(estado.value)) else [])
  }

  predicate BarrierNameInUse(barriers: map<BarrierId, Barrier>, nombre: string) {
    exists id :: id in barriers && barriers[id].nombre == nombre
  }

  predicate DepartmentHasBarrier(barriers: map<BarrierId, Barrier>, d: DepartmentId) {
    exists id :: id in barriers && barriers[id].departamento == Some(d)
  }

  /** The nombre field of a barrier: not blank; then unique and at most 100 characters, both errors collected. */
  function BarrierNameErrors(value: string, barriers: map<BarrierId, Barrier>): seq<FieldError> {
    if value == "" then [Blank]
    else
      (if BarrierNameInUse(barriers, value) then [NameTaken] else [])
      + (if |value| > MaxNameLength then [NameTooLong] else [])
  }

  /** The departamento field of a barrier: one-to-one, so a linked department is refused. */
  function BarrierDepartmentField(d: Option<DepartmentId>, barriers: map<BarrierId, Barrier>): Validation<Option<DepartmentId>> {
    if d.Some? && DepartmentHasBarrier(barriers, d.value) then Rejected(DepartmentTaken)
    else Accepted(d)
  }

  /** The errors of a barrier create request, in field order; an absent estado takes the default. */
  function BarrierCreateErrors(nombre: string, estado: Option<string>, departamento: Option<DepartmentId>,
                               barriers: map<BarrierId, Barrier>): (errs: seq<FieldError>)
    ensures errs == [] <==>
      && 0 < |nombre| <= MaxNameLength
      && !BarrierNameInUse(barriers, nombre)
      && (estado.Some? ==> estado.value in BarrierPositionCodes)
      && (departamento.Some? ==> !DepartmentHasBarrier(barriers, departamento.value))
    ensures nombre != "" && BarrierNameInUse(barriers, nombre) ==> NameTaken in errs
    ensures |errs| <= 4
  {
    BarrierNameErrors(nombre, barriers)
    + (if estado.Some? then ErrorOf(ValidateBarrierPosition(estado.value)) else [])
    + ErrorOf(BarrierDepartmentField(departamento, barriers))
  }

  /** A barrier that passes the create checks can be inserted keeping names unique and the link one-to-one. */
  lemma AcceptedBarrierKeepsConstraints(barriers: map<BarrierId, Barrier>, id: BarrierId, b: Barrier, estado: Option<string>)
    requires BarrierNamesUnique(barriers) && OneBarrierPerDepartment(barriers)
    requires id !in barriers
    requires BarrierCreateErrors(b.nombre, estado, b.departamento, barriers) == []
    ensures BarrierNamesUnique(barriers[id := b])
    ensures OneBarrierPerDepartment(barriers[id := b])
  {
  }
}
