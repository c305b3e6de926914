# SmartConnect access control — a verified model

SmartConnect is a REST backend for RFID access control. Sensors (cards, key fobs, bracelets)
are registered with a unique uid. A department has at most one barrier. Sensor readings,
access attempts at a barrier, granted access requests, and barrier movements through the open,
close and automatic-close endpoints are recorded as events in a ledger. Some requests record
nothing:
- one the permission check refuses;
- one missing a parameter;
- an access request on a sensor that is not active;
- an access attempt with an unknown uid;
- a change of a sensor's status through either status endpoint;
- a generic update of a barrier or sensor record, which can move the barrier or change the status. It is not modelled (see "## Left out").

The model covers three parts of the backend:

- the access-decision endpoints: a sensor reading, a full access attempt at a barrier, and an access request on a sensor;
- the barrier endpoints: manual open and close, and the automatic close;
- the status changes of a sensor, the system dashboard and the two ledger queries.

It also covers the role checks guarding those endpoints, the input validators of the
serializers, and the shapes and constraints of the stored entities.

Layout, one module per file:

- `models.dfy` (`Models`): the entities, their choices and defaults, and the parsers of the stored codes. It also holds the constraints the database declares across records:
  - a uid is unique;
  - barrier names are unique, and a department has at most one barrier;
  - role names are unique.
- `serializers.dfy` (`Serializers`): `validate_uid`, `validate_nombre`, `validate_estado`, `validate_tipo` and the password check of registration. It also holds the per-field checks of a create request, as the serializer runs them.
- `permissions.dfy` (`Permissions`): `IsAdmin` and `IsAdminOrReadOnly` over an explicit caller value. `Check` is the permission gate an endpoint runs before its body.
- `reports.dfy` (`Reports`): the dashboard rollup and the ledger queries, as pure functions. It includes the lemmas that relate the counts to one another.
- `views.dfy` (`Views`): class `AccessSystem` holds the registry, the barriers, the ledger and a logical clock. It has one method per endpoint. Each method states the whole new state and the response for every branch, and keeps the store invariant `Valid()`.
- `findings.dfy` (`Findings`): how the endpoints fill the mandatory sensor reference of an event that no sensor triggered, as written. This differs from the model in `views.dfy`; see "## Findings".
- `scenarios.dfy` (`Scenarios`): concrete scenarios, proved on sensor and barrier records taken from `populate_db.py`. A scenario may start a barrier in another position or leave its department unset.

Modelling choices:

- **Time.** The clock `now` ticks once when each mutating endpoint is entered. Every timestamp a request writes is that value, so the ledger is strictly chronological.
- **Dashboard window.** The 24-hour window of the dashboard is given as its start `since`.
- **Callers.** A caller is `Anonymous` or `Authenticated(perfil)`; the profile has an optional role.
- **Permission responses.** An anonymous caller is refused with 401 and an authenticated caller without the right with 403. These are the codes token authentication gives.
- **Request parameters.** A parameter of type `Option` is `None` when it is missing. Python's truthiness tests are written out: `Present` (a string that is present and not empty) and `PresentId` (an id that is present and not zero).
- **Events with no sensor.** An event that no real sensor triggered carries the sensor reference `Unidentified`.

Two behaviours that an append-only audit design would not have are kept as the code has them:

- `simular_intento_acceso` writes no event for an unknown uid (api/views.py:446-453).
- `solicitar_acceso` writes one event, first as an attempt and then rewritten in place as a granted access. It does not write two events (api/views.py:187-197).

## Model

| member | source | states |
|---|---|---|
| Models.ParseSensorStatus | api/models.py:62-67 | a stored sensor code is read back as the status whose code it is, and exactly the four codes are accepted |
| Models.ParseBarrierPosition | api/models.py:112-115 | exactly "abierta" and "cerrada" are accepted, each as the position whose code it is |
| Models.ParseEventKind | api/models.py:138-144 | exactly the five event kind codes are accepted, each as the kind whose code it is |
| Models.ParseRoleName | api/models.py:7-12 | exactly "admin" and "operador" are accepted, each as the role whose code it is |
| Models.UidNamesAtMostOneSensor | api/models.py:69-74 | under the unique uid constraint at most one sensor carries a given uid |
| Models.FindSensorByUid | api/views.py:346-347 | the exact-match lookup returns a sensor carrying the uid, and returns none only when no sensor carries it |
| Models.DepartmentHasAtMostOneBarrier | api/models.py:119-125 | the one-to-one link leaves each department zero or one barrier |
| Models.AtMostTwoRoles | api/models.py:7-12 | unique role names drawn from two choices allow at most two roles |
| Serializers.ValidateUid | api/serializers.py:66-79 | a uid is accepted unchanged iff it has at least 5 characters and is the instance's own uid or unused; too short is reported before taken |
| Serializers.AcceptedUidKeepsUniqueOnCreate | api/serializers.py:75-77 | inserting a sensor whose uid validate_uid accepted on create keeps uids unique |
| Serializers.AcceptedUidKeepsUniqueOnUpdate | api/serializers.py:71-77 | writing back a uid accepted on update of that sensor keeps uids unique |
| Serializers.UidOfAnotherSensorRejected | api/serializers.py:71-77 | another sensor's uid (of valid length) is rejected as taken, on create and on update |
| Serializers.ValidateName | api/serializers.py:81-84 | a name is accepted unchanged iff it has at least 3 characters, otherwise rejected as too short |
| Serializers.ValidateDepartmentName | api/serializers.py:21-24 | a department name is accepted unchanged iff it has at least 3 characters |
| Serializers.ValidateSensorStatus | api/serializers.py:86-90 | accepted iff one of the four status codes, which is iff the code parses to a status |
| Serializers.ValidateBarrierPosition | api/serializers.py:104-108 | accepted iff one of the two position codes, which is iff the code parses to a position |
| Serializers.ValidateEventKind | api/serializers.py:129-136 | accepted iff one of the five kind codes, which is iff the code parses to a kind |
| Serializers.ValidateRegistration | api/serializers.py:157-168 | a password mismatch is reported first, then a password under 8 characters; accepted iff they match and are at least 8 long |
| Serializers.UidFieldErrors | api/serializers.py:53-79 | the uid field of a create request passes iff 5 to 100 characters and unused; a used uid is always reported as taken, ahead of any other error |
| Serializers.SensorCreateErrors | api/serializers.py:53-90 | a sensor create request has no errors iff uid 5-100 characters and unused, name 3-100 characters, and the status, if given, one of the four codes |
| Serializers.DepartmentNameErrors | api/models.py:25-29 | a department name passes its field checks iff it is 3 to 100 characters and unused; a used name is reported as taken and a short one as too short |
| Serializers.AcceptedDepartmentKeepsValid | api/models.py:25-29 | inserting a department whose name passed the field checks keeps every name 3 to 100 characters and unique |
| Serializers.BarrierCreateErrors | api/serializers.py:93-108 | a barrier create request has no errors iff the name is 1-100 characters and unused, the position, if given, valid, and the department, if given, has no barrier |
| Serializers.AcceptedBarrierKeepsConstraints | api/models.py:117-125 | inserting a barrier that passed the create checks keeps names unique and one barrier per department |
| Permissions.IsAdmin | api/views.py:31-39 | true exactly for an authenticated caller with a profile whose role is admin; a missing profile or role fails |
| Permissions.IsAdminOrReadOnly | api/views.py:16-28 | every safe request passes; any other passes iff the caller is an admin |
| Permissions.Check | api/views.py:139-151 | the gate lets a request through iff its permission classes all pass; an anonymous caller is refused as not authenticated |
| Permissions.ActingProfile | api/views.py:223 | the acting profile is the caller's profile if there is one, otherwise none; every caller the admin check lets through has one |
| Permissions.WritesUnderReadOnlyPolicyNeedAdmin | api/views.py:16-28 | for a write request the read-only policy decides exactly as the admin policy |
| Reports.StatusesPartitionSensors | api/views.py:607-611 | the four per-status sensor counts add up to the total |
| Reports.PositionsPartitionBarriers | api/views.py:613-615 | the open and closed barrier counts add up to the total |
| Reports.KindCountWithinTotal | api/views.py:619-627 | the events of one kind in the window are no more than all events in the window |
| Reports.GrantedPlusDeniedWithinTotal | api/views.py:619-627 | granted plus denied events in the window are no more than all events in the window |
| Reports.CountWithinLength | api/views.py:619 | the window never holds more events than the ledger |
| Reports.CountAfterAppend | api/views.py:617-627 | appending an event raises a window count by one exactly when the event is in the window and of the counted kind |
| Reports.SystemReport | api/views.py:595-648 | the rollup: sensor and barrier totals equal the store sizes, the per-status and per-position counts add up to them, granted plus denied is within the windowed total, and the timestamp is the current time |
| Reports.Query | api/views.py:286-310 | an event is in the result iff it is in the ledger and passes the filter, and the result is no longer than the ledger |
| Reports.QueryKeepsMultiplicity | api/views.py:286-310 | the result holds each event that passes the filter exactly as many times as the ledger does, and no other event |
| Reports.QueryNewestFirst | api/models.py:172-175 | on a chronological ledger every query comes back newest first, with strictly decreasing times |
| Reports.AppendedEventComesFirst | api/models.py:167-175 | a just-appended event heads every query it passes |
| Reports.UnknownKindCodeSelectsNothing | api/views.py:308 | a kind code outside the five choices selects no event |
| Reports.EventKindCodeListed | api/models.py:138-144 | each kind's code is one of the five choices |
| Views.RefusalNamesCaller | api/views.py:419-420 | a request the permission gate turns away is answered 401 exactly when the caller is not authenticated, and 403 exactly when they are |
| Views.AccessSystem.constructor | api/models.py:136-175 | an empty registry, barrier set and ledger satisfy the store invariant |
| Views.AccessSystem.Tick | api/models.py:167 | the clock advances past every recorded event |
| Views.AccessSystem.CreateEvent | api/models.py:136-167 | an event is appended with the next id and the current time, keeping the ledger chronological and its references resolvable |
| Views.AccessSystem.SaveBarrierPosition | api/models.py:118-126 | only that barrier changes: its position and its change time |
| Views.AccessSystem.SaveSensorStatus | api/models.py:79-95 | only that sensor changes: its status and its modification time |
| Views.AccessSystem.LecturaSensor | api/views.py:317-416 | a missing uid changes nothing; otherwise exactly one event: denied with no sensor for an unknown uid (404), denied for a sensor not active (403), granted for an active one (200); no sensor or barrier changes |
| Views.AccessSystem.IntentoAcceso | api/views.py:419-495 | admins only; an unknown uid writes nothing (404); a sensor not active gets one denied event and no barrier moves (403); an active one gets one granted event, and a resolvable barrier, and only it, is opened and referenced |
| Views.AccessSystem.SolicitarAcceso | api/views.py:175-206 | admins only (write under the read-only policy); a sensor not active is refused with nothing written; an active one ends with exactly one granted event |
| Views.AccessSystem.Abrir | api/views.py:215-238 | admins only; an unknown barrier changes nothing; otherwise that barrier is open and exactly one manual-open event names it and the acting profile, which is present |
| Views.AccessSystem.Cerrar | api/views.py:240-263 | admins only; an unknown barrier changes nothing; otherwise that barrier is closed and exactly one manual-close event names it and the acting profile, which is present |
| Views.AccessSystem.CierreBarrera | api/views.py:498-543 | admins only; a missing id (400) or an unknown one (404) changes nothing; otherwise the barrier is closed and exactly one automatic-close event names it |
| Views.AccessSystem.CambiarEstado | api/views.py:151-173 | admins only; an unknown sensor (404) or a value outside the four states (400) changes nothing; otherwise only that sensor's status changes, with no event |
| Views.AccessSystem.CambioEstadoSensor | api/views.py:546-592 | admins only; missing parameters and invalid states are refused before the lookup; otherwise only that sensor's status changes, the previous one is reported, and no event is written |
| Views.AccessSystem.RegisterSensor | api/views.py:139-149 | a create request with field errors changes nothing; otherwise a sensor is added under a fresh key, active unless a status is given, keeping uids unique |
| Views.AccessSystem.RegisterBarrier | api/views.py:209-213 | a create request with field errors changes nothing; otherwise a barrier is added under a fresh key, closed unless a position is given, keeping one barrier per department |
| Views.AccessSystem.EstadoSistema | api/views.py:595-648 | authenticated callers get the rollup of the current stores over the window; anonymous ones are refused |
| Views.AccessSystem.PorSensor | api/views.py:275-295 | a missing id is a bad request, an unknown sensor not found; otherwise exactly that sensor's events, each once, with strictly decreasing times |
| Views.AccessSystem.PorTipo | api/views.py:297-310 | a missing kind is a bad request; otherwise exactly the events stored with that code, each once, with strictly decreasing times, and none for an unknown code |
| Findings.NewestSensorExists | api/models.py:100-103 | a non-empty registry has a most recently created sensor |
| Findings.FirstSensor | api/models.py:100-103 | the first sensor under the declared ordering is a most recently created one, and there is none only for an empty registry |
| Findings.BarrierActionAsWritten | api/views.py:218-230 | as written: the barrier is saved and moved in every case; the request fails with no event iff the registry is empty, otherwise the event names the newest sensor |
| Findings.UnknownUidAsWritten | api/views.py:346-359 | as written: the request fails with no event iff the registry is empty, otherwise the denied event names the newest sensor |
| Findings.EmptyRegistryOpenIsUnaudited | api/views.py:218-230 | with no sensor registered, opening a closed barrier moves it without any event and the request fails |
| Findings.EmptyRegistryUnknownUidIsUnaudited | api/views.py:349-354 | with no sensor registered, an unknown uid gets no audit event and the request fails |
| Findings.UnknownUidFiledUnderFirstSensor | api/views.py:349-354 | with one card registered, an unknown uid's denial shows up in that card's event history |
| Findings.BarrierActionAsWrittenAuditsWhenRegistryNonEmpty | api/views.py:522-532 | with at least one sensor registered, the as-written barrier action moves the barrier as the corrected one does and appends one event that is the corrected event except for its registered sensor |
| Scenarios.ActiveCardOpensClosedBarrier | api/views.py:471-495 | an active card at a closed barrier is granted, the barrier opens, and one granted event names both |
| Scenarios.BlockedBraceletLeavesBarrierOpen | api/views.py:455-469 | a blocked bracelet is denied as blocked, the open barrier stays open, and one denied event names the bracelet |
| Scenarios.UnknownUidIsDeniedAndAudited | api/views.py:346-359 | an unregistered uid is denied with 404 and one denied event that names no sensor |
| Scenarios.OpeningIsIdempotentAndAdminOnly | api/views.py:215-238 | an operator is refused; opening twice leaves the barrier open both times and writes two events |
| Scenarios.DuplicateUidIsRefused | api/serializers.py:75-77 | registering a second sensor with a used uid is refused as taken and the first sensor is untouched |
| Scenarios.NewEventHeadsSensorHistory | api/views.py:286-290 | the event a reading just wrote is the one entry of that sensor's history |
| Scenarios.UidLengthBoundary | api/serializers.py:68-69 | a 4-character uid is rejected as too short, a 5-character one accepted |
| Scenarios.WindowedEventCounts | api/views.py:617-627 | three granted and two denied events in the window, one granted before it, give 5, 3 and 2 |

## Left out

- Login and registration: they issue tokens or create `User` records of the framework. Only the registration validator is modelled.
- The project info endpoint (api/views.py:42-52): it returns a fixed description of the project and touches no store.
- Token authentication itself is left out. The caller arrives as a value, and the 401/403 split assumes token authentication, whose settings are not part of this model.
- Create, with its field errors, is modelled for sensors and barriers only. For departments only the name checks and the insert they guard are modelled. Update, delete, list and retrieve of roles, departments, profiles, sensors and barriers are plain framework CRUD and are not modelled. Such an update can set a barrier's `estado` or a sensor's `estado` (api/serializers.py:98-102) without writing an event.
- Pagination, search, ordering and filter query parameters of the list endpoints are left out.
- The free-text event messages and response strings are modelled as the situation they describe (`Message`, `Reason`, `ErrorKind`), not as text.
- Views.AccessSystem.LecturaSensor: the response omits the sensor's name, uid, department name and status (`estado_sensor` of the 200 body), and the uid echoed in the 404 body. It keeps the decision, the reason, the sensor key, the event id and the timestamp.
- Views.AccessSystem.IntentoAcceso: the same omission; the barrier is reported by key, not by name.
- Views.AccessSystem.SolicitarAcceso: the response reports the decision and the event id, not the serialized event.
- `departamento_id` is read by `simular_lectura_sensor` and never used; the model has no such parameter.
- Wall-clock time and time zones are left out: a logical clock replaces them, and the dashboard window is given by its start.
- Whitespace trimming of string fields is left out.
- Non-numeric ids are left out; ids are natural numbers here. In the source:
  - a non-numeric `barrera_id` of `simular_intento_acceso` or `simular_cierre_barrera` (api/views.py:475, api/views.py:523), or `sensor_id` of `por_sensor` (api/views.py:287), makes the lookup raise a value error that ends in a server error;
  - a non-numeric key in the URL of `cambiar_estado`, `solicitar_acceso`, `abrir` or `cerrar` (api/views.py:154, api/views.py:178, api/views.py:218, api/views.py:243) goes through the framework's object lookup and is answered 404.
- Non-string uids are left out; a uid is a string here.
  - On the create path, a missing uid is not modelled separately from a blank one: the framework's required error is folded into `Blank`.
  - In the simulation endpoints (api/views.py:340-347), a truthy non-string uid such as a number passes the presence check and is looked up by its string form. The model receives such a value as that string.
- Views.AccessSystem.RegisterSensor: a department key or a profile key (`usuario`) that does not exist is accepted, while the serializer's related fields reject it (api/serializers.py:59-61). Departments and profiles are not stores of this model.
- Views.AccessSystem.RegisterBarrier: a department key that does not exist is accepted, for the same reason.
- Concurrency and transactions are not modelled: each endpoint is one atomic step. The partial failure in "## Findings" is modelled as a separate as-written member.
- Events that no real sensor triggered carry `Unidentified`. The backend fills the reference with the most recently created sensor; that behaviour is modelled in `Findings`.
- Cascading deletes (an event is deleted with its sensor; a barrier's department is cleared when the department is deleted) are left out, because deletion is not modelled.

## Findings

| source | as written | input that shows it | evidently intended | confidence | as-written member | corrected member |
|---|---|---|---|---|---|---|
| api/views.py:218-230 | the barrier is saved, then the event is inserted with `Sensor.objects.first()` as its mandatory sensor; the same code is at api/views.py:243-255 and api/views.py:523-532 | empty sensor registry, one closed barrier, an admin opens it | the move and its audit event happen together, and an event no sensor triggered is still recorded | medium, not executed; it assumes requests are not wrapped in a transaction | Findings.EmptyRegistryOpenIsUnaudited | Views.AccessSystem.Abrir |
| api/views.py:349-354 | the denial for an unknown uid is filed under `Sensor.objects.first()` | one card AA:BB:CC:DD:EE:01 registered, uid AA:BB:CC:DD:EE:99 presented: the denial is listed in the card's history; with an empty registry the insert fails and no event is written | exactly one denied event, attributed to no sensor | high, not executed | Findings.UnknownUidFiledUnderFirstSensor | Views.AccessSystem.LecturaSensor |
