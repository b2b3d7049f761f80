/** The interval calendar: the appointment record of `src/models/Appointment.js` and the
    handlers of `src/routes/appointments.js` (POST, GET, PATCH and DELETE /appointments)
    over a store of appointments. Instants are integers; the store never deletes a record,
    so an appointment's id is its position in the store. */
module Appointments {
  import opened Common
  import opened Overlap
  import opened Listing
  import opened Users
  import opened AuthMiddleware

  datatype Status = Scheduled | Completed | Cancelled

  function StatusName(st: Status): string {
    match st
    case Scheduled => "scheduled"
    case Completed => "completed"
    case Cancelled => "cancelled"
  }

  /** The `valid('scheduled', 'completed', 'cancelled')` rule of the PATCH body. */
  function ParseStatus(s: string): (r: Option<Status>)
    ensures r.Some? ==> StatusName(r.value) == s
    ensures r.None? ==> forall st :: StatusName(st) != s
  {
    if s == "scheduled" then Some(Scheduled)
    else if s == "completed" then Some(Completed)
    else if s == "cancelled" then Some(Cancelled)
    else None
  }

  /** Every status name is accepted and read back as that status. */
  lemma StatusNameRoundTrip(st: Status)
    ensures ParseStatus(StatusName(st)) == Some(st)
  {
  }

  datatype Appointment = Appointment(
    id: Id,
    patient: Id,
    doctor: Id,
    startTime: int,
    endTime: int,
    status: Status,
    notes: Option<string>)

  /** A freshly created appointment: `status` takes its schema default. */
  function NewAppointment(id: Id, patient: Id, doctor: Id, startTime: int, endTime: int, notes: Option<string>): Appointment {
    Appointment(id, patient, doctor, startTime, endTime, Scheduled, notes)
  }

  /** The validated body of POST /appointments; a key the client left out is `None`. */
  datatype CreateRequest = CreateRequest(doctorId: Option<Id>, startTime: Option<int>, endTime: Option<int>, notes: Option<string>)

  /** The body of PATCH /appointments/:id. `notes` is `Some(None)` when the client sends `null`;
      `status` is the raw string, checked against the three names. */
  datatype PatchRequest = PatchRequest(startTime: Option<int>, endTime: Option<int>, notes: Option<Option<string>>, status: Option<string>)

  const BadRange := Failure(400, "endTime must be after startTime")
  const SlotTaken := Failure(409, "Doctor not available in the selected time slot")
  const NoSuchAppointment := Failure(404, "Appointment not found")

  predicate Complete(req: CreateRequest) {
    req.doctorId.Some? && req.startTime.Some? && req.endTime.Some?
  }

  /** The first error the body schema of POST reports, if any. */
  function CreateSchemaError(req: CreateRequest): (r: Option<Failure>)
    ensures r.None? <==> Complete(req)
    ensures r.Some? ==> r.value.status == 400
  {
    if req.doctorId.None? then Some(Failure(400, "\"doctorId\" is required"))
    else if req.startTime.None? then Some(Failure(400, "\"startTime\" is required"))
    else if req.endTime.None? then Some(Failure(400, "\"endTime\" is required"))
    else None
  }

  predicate ValidPatch(req: PatchRequest) {
    req.status.Some? ==> ParseStatus(req.status.value).Some?
  }

  /** `Object.assign(appt, value)`: the supplied fields replace the stored ones. */
  function Merge(a: Appointment, req: PatchRequest): Appointment
    requires ValidPatch(req)
  {
    a.(startTime := if req.startTime.Some? then req.startTime.value else a.startTime,
       endTime := if req.endTime.Some? then req.endTime.value else a.endTime,
       notes := if req.notes.Some? then req.notes.value else a.notes,
       status := if req.status.Some? then ParseStatus(req.status.value).value else a.status)
  }

  /** Whether the overlap query looks at `a`: same doctor, scheduled, and not the excluded id. */
  predicate Blocks(a: Appointment, doctor: Id, exclude: Option<Id>) {
    a.doctor == doctor && a.status == Scheduled && exclude != Some(a.id)
  }

  /** `Appointment.exists(...)` with the three-clause `$or` against [ns, ne). */
  predicate ConflictExists(appts: seq<Appointment>, doctor: Id, ns: int, ne: int, exclude: Option<Id>) {
    exists i :: 0 <= i < |appts| && Blocks(appts[i], doctor, exclude)
                && QueryMatches(appts[i].startTime, appts[i].endTime, ns, ne)
  }

  /** Every stored appointment sits at its own id and has a non-empty range. */
  ghost predicate WellFormed(appts: seq<Appointment>) {
    forall i :: 0 <= i < |appts| ==> appts[i].id == i && appts[i].startTime < appts[i].endTime
  }

  /** No two scheduled appointments of one doctor overlap. */
  ghost predicate ConflictFree(appts: seq<Appointment>) {
    forall i, j ::
      0 <= i < |appts| && 0 <= j < |appts| && i != j &&
      appts[i].status == Scheduled && appts[j].status == Scheduled && appts[i].doctor == appts[j].doctor
      ==> !Overlaps(appts[i].startTime, appts[i].endTime, appts[j].startTime, appts[j].endTime)
  }

  /** On a well-formed store the query finds a clash exactly when some scheduled range of that
      doctor (other than the excluded one) overlaps the request as half-open intervals;
      cancelled and completed appointments never block. */
  lemma ConflictIffOverlap(appts: seq<Appointment>, doctor: Id, ns: int, ne: int, exclude: Option<Id>)
    requires WellFormed(appts) && ns < ne
    ensures ConflictExists(appts, doctor, ns, ne, exclude) <==>
            exists i :: 0 <= i < |appts| && appts[i].doctor == doctor && appts[i].status == Scheduled
                        && exclude != Some(i) && Overlaps(appts[i].startTime, appts[i].endTime, ns, ne)
  {
    forall i | 0 <= i < |appts| {
      QueryMatchesIffOverlaps(appts[i].startTime, appts[i].endTime, ns, ne);
    }
  }

  /** Appending an appointment that the query found no clash for keeps the calendar conflict-free. */
  lemma AddKeepsConflictFree(appts: seq<Appointment>, a: Appointment)
    requires WellFormed(appts) && ConflictFree(appts)
    requires a.id == |appts| && a.startTime < a.endTime
    requires a.status == Scheduled ==> !ConflictExists(appts, a.doctor, a.startTime, a.endTime, None)
    ensures WellFormed(appts + [a]) && ConflictFree(appts + [a])
  {
    var s := appts + [a];
    forall i, j | 0 <= i < |s| && 0 <= j < |s| && i != j && s[i].status == Scheduled
                  && s[j].status == Scheduled && s[i].doctor == s[j].doctor
      ensures !Overlaps(s[i].startTime, s[i].endTime, s[j].startTime, s[j].endTime)
    {
      if j == |appts| {
        QueryMatchesIffOverlaps(s[i].startTime, s[i].endTime, a.startTime, a.endTime);
        assert Blocks(appts[i], a.doctor, None);
      } else if i == |appts| {
        QueryMatchesIffOverlaps(s[j].startTime, s[j].endTime, a.startTime, a.endTime);
        assert Blocks(appts[j], a.doctor, None);
      }
    }
  }

  /** Replacing appointment `k` by a record that is not scheduled, or that the query
      (excluding `k` itself) found no clash for, keeps the calendar conflict-free. */
  lemma ReplaceKeepsConflictFree(appts: seq<Appointment>, k: nat, a: Appointment)
    requires WellFormed(appts) && ConflictFree(appts) && k < |appts|
    requires a.id == k && a.startTime < a.endTime
    requires a.status == Scheduled ==> !ConflictExists(appts, a.doctor, a.startTime, a.endTime, Some(k))
    ensures WellFormed(appts[k := a]) && ConflictFree(appts[k := a])
  {
    var s := appts[k := a];
    forall i, j | 0 <= i < |s| && 0 <= j < |s| && i != j && s[i].status == Scheduled
                  && s[j].status == Scheduled && s[i].doctor == s[j].doctor
      ensures !Overlaps(s[i].startTime, s[i].endTime, s[j].startTime, s[j].endTime)
    {
      if j == k {
        QueryMatchesIffOverlaps(s[i].startTime, s[i].endTime, a.startTime, a.endTime);
        assert Blocks(appts[i], a.doctor, Some(k));
      } else if i == k {
        QueryMatchesIffOverlaps(s[j].startTime, s[j].endTime, a.startTime, a.endTime);
        assert Blocks(appts[j], a.doctor, Some(k));
      }
    }
  }

  /** PATCH and DELETE are allowed to the owning patient, the owning doctor and any admin. */
  predicate MayModify(caller: Principal, a: Appointment) {
    || (caller.role == Patient && a.patient == caller.id)
    || (caller.role == Doctor && a.doctor == caller.id)
    || caller.role == Admin
  }

  /** The GET filter: a patient's own, a doctor's own, everything for an admin. */
  predicate VisibleTo(caller: Principal, a: Appointment) {
    && (caller.role == Patient ==> a.patient == caller.id)
    && (caller.role == Doctor ==> a.doctor == caller.id)
  }

  function Visible(caller: Principal): Appointment -> bool {
    a => VisibleTo(caller, a)
  }

  function StartKey(a: Appointment): int {
    a.startTime
  }

  /** GET /appointments: the caller's appointments, ascending by start time. */
  function ListAppointments(appts: seq<Appointment>, caller: Principal): (r: seq<Appointment>)
    ensures SortedBy(r, StartKey)
    ensures forall a :: a in r <==> a in appts && VisibleTo(caller, a)
    ensures multiset(r) == multiset(Filter(appts, Visible(caller)))
    ensures caller.role == Admin ==> multiset(r) == multiset(appts)
  {
    var mine := Filter(appts, Visible(caller));
    SortByMembers(mine, StartKey);
    if caller.role == Admin then FilterAll(appts, Visible(caller)); SortBy(mine, StartKey)
    else SortBy(mine, StartKey)
  }

  /** The appointment collection with the POST, PATCH and DELETE handlers. */
  class AppointmentBook {
    var appts: seq<Appointment>

    ghost predicate Valid()
      reads this
    {
      WellFormed(appts) && ConflictFree(appts)
    }

    constructor ()
      ensures Valid() && appts == []
    {
      appts := [];
    }

    /** POST /appointments behind `requireRoles('patient')`: `users` is the user collection
        the gate looks the caller up in. */
    method Create(caller: Principal, users: seq<User>, req: CreateRequest) returns (r: Outcome<Appointment>)
      requires Valid()
      modifies this
      ensures Valid()
      ensures RequireRoles(Some(caller), [Patient], users).Some? ==>
                r == Fail(RequireRoles(Some(caller), [Patient], users).value)
      ensures caller.role != Patient ==> r == Fail(Forbidden)
      ensures caller.role == Patient && !StillExists(users, caller) ==> r == Fail(UserGone)
      ensures RequireRoles(Some(caller), [Patient], users).None? && !Complete(req) ==> r == Fail(CreateSchemaError(req).value)
      ensures RequireRoles(Some(caller), [Patient], users).None? && Complete(req) && req.endTime.value <= req.startTime.value ==>
                r == Fail(BadRange)
      ensures RequireRoles(Some(caller), [Patient], users).None? && Complete(req) && req.startTime.value < req.endTime.value ==>
                (r.Ok? <==> !ConflictExists(old(appts), req.doctorId.value, req.startTime.value, req.endTime.value, None))
                && (r.Fail? ==> r == Fail(SlotTaken))
      ensures r.Fail? ==> appts == old(appts)
      ensures r.Ok? ==>
                && RequireRoles(Some(caller), [Patient], users).None? && Complete(req)
                && r.value == NewAppointment(|old(appts)|, caller.id, req.doctorId.value,
                                             req.startTime.value, req.endTime.value, req.notes)
                && appts == old(appts) + [r.value]
    {
      var gate := RequireRoles(Some(caller), [Patient], users);
      if gate.Some? {
        return Fail(gate.value);
      }
      var schemaError := CreateSchemaError(req);
      if schemaError.Some? {
        return Fail(schemaError.value);
      }
      var doctor, start, end := req.doctorId.value, req.startTime.value, req.endTime.value;
      if end <= start {
        return Fail(BadRange);
      }
      if ConflictExists(appts, doctor, start, end, None) {
        return Fail(SlotTaken);
      }
      var a := NewAppointment(|appts|, caller.id, doctor, start, end, req.notes);
      AddKeepsConflictFree(appts, a);
      appts := appts + [a];
      r := Ok(a);
    }

    /** PATCH /appointments/:id: reschedule, edit the notes or set any status. */
    method Patch(caller: Principal, id: Id, req: PatchRequest) returns (r: Outcome<Appointment>)
      requires Valid()
      modifies this
      ensures Valid()
      ensures !ValidPatch(req) ==> r.Fail? && r.failure.status == 400
      ensures ValidPatch(req) && id >= |old(appts)| ==> r == Fail(NoSuchAppointment)
      ensures ValidPatch(req) && id < |old(appts)| && !MayModify(caller, old(appts)[id]) ==> r == Fail(Forbidden)
      ensures ValidPatch(req) && id < |old(appts)| && MayModify(caller, old(appts)[id]) ==>
                var m := Merge(old(appts)[id], req);
                && (m.endTime <= m.startTime ==> r == Fail(BadRange))
                && (m.startTime < m.endTime ==>
                      (r.Ok? <==> !ConflictExists(old(appts), m.doctor, m.startTime, m.endTime, Some(id)))
                      && (r.Fail? ==> r == Fail(SlotTaken)))
      ensures r.Fail? ==> appts == old(appts)
      ensures r.Ok? ==>
                && ValidPatch(req) && id < |old(appts)|
                && r.value == Merge(old(appts)[id], req)
                && appts == old(appts)[id := r.value]
    {
      if !ValidPatch(req) {
        return Fail(Failure(400, "\"status\" must be one of [scheduled, completed, cancelled]"));
      }
      if id >= |appts| {
        return Fail(NoSuchAppointment);
      }
      var appt := appts[id];
      if !MayModify(caller, appt) {
        return Fail(Forbidden);
      }
      var merged := Merge(appt, req);
      if merged.endTime <= merged.startTime {
        return Fail(BadRange);
      }
      if ConflictExists(appts, appt.doctor, merged.startTime, merged.endTime, Some(id)) {
        return Fail(SlotTaken);
      }
      ReplaceKeepsConflictFree(appts, id, merged);
      appts := appts[id := merged];
      r := Ok(merged);
    }

    /** DELETE /appointments/:id: a soft cancel that keeps the record. */
    method Delete(caller: Principal, id: Id) returns (r: Outcome<()>)
      requires Valid()
      modifies this
      ensures Valid()
      ensures id >= |old(appts)| ==> r == Fail(NoSuchAppointment) && appts == old(appts)
      ensures id < |old(appts)| && !MayModify(caller, old(appts)[id]) ==> r == Fail(Forbidden) && appts == old(appts)
      ensures id < |old(appts)| && MayModify(caller, old(appts)[id]) ==>
                r == Ok(()) && appts == old(appts)[id := old(appts)[id].(status := Cancelled)]
      ensures r.Ok? ==> id < |old(appts)| && (old(appts)[id].status == Cancelled ==> appts == old(appts))
    {
      if id >= |appts| {
        return Fail(NoSuchAppointment);
      }
      var appt := appts[id];
      if !MayModify(caller, appt) {
        return Fail(Forbidden);
      }
      ReplaceKeepsConflictFree(appts, id, appt.(status := Cancelled));
      appts := appts[id := appt.(status := Cancelled)];
      r := Ok(());
    }
  }

  /** A patient books [600, 630) and [630, 660) with one doctor (adjacent, both accepted),
      is refused [615, 645), then cancels the first and books it again. */
  method OverlapScenario(patient: Id, doctor: Id) returns (clash: Outcome<Appointment>, again: Outcome<Appointment>)
    ensures clash == Fail(SlotTaken)
    ensures again.Ok? && again.value.startTime == 600 && again.value.endTime == 630
  {
    var book := new AppointmentBook();
    var me := Principal(patient, Patient);
    var users := [User(patient, "Patient", "patient@example.com", "hash", Patient, 0)];
    assert StillExists(users, me) by {
      assert users[0].id == patient && users[0].role == Patient;
    }
    var first := book.Create(me, users, CreateRequest(Some(doctor), Some(600), Some(630), None));
    assert first.Ok?;
    var second := book.Create(me, users, CreateRequest(Some(doctor), Some(630), Some(660), None));
    assert !QueryMatches(600, 630, 630, 660);
    assert second.Ok?;
    clash := book.Create(me, users, CreateRequest(Some(doctor), Some(615), Some(645), None));
    assert Blocks(book.appts[0], doctor, None) && QueryMatches(600, 630, 615, 645);
    var cancel := book.Delete(me, 0);
    assert cancel == Ok(());
    again := book.Create(me, users, CreateRequest(Some(doctor), Some(600), Some(630), None));
    assert !Blocks(book.appts[0], doctor, None) && !QueryMatches(630, 660, 600, 630);
  }

  /** PATCH sets any status: a completed appointment can be put back to scheduled. */
  method ReopenScenario(patient: Id, doctor: Id) returns (done: Outcome<Appointment>, reopened: Outcome<Appointment>)
    requires patient != doctor
    ensures done.Ok? && done.value.status == Completed
    ensures reopened.Ok? && reopened.value.status == Scheduled
  {
    var book := new AppointmentBook();
    var me := Principal(patient, Patient);
    var users := [User(patient, "Patient", "patient@example.com", "hash", Patient, 0)];
    assert StillExists(users, me) by {
      assert users[0].id == patient && users[0].role == Patient;
    }
    var first := book.Create(me, users, CreateRequest(Some(doctor), Some(600), Some(630), None));
    assert first.Ok?;
    var doc := Principal(doctor, Doctor);
    done := book.Patch(doc, 0, PatchRequest(None, None, None, Some("completed")));
    reopened := book.Patch(doc, 0, PatchRequest(None, None, None, Some("scheduled")));
  }
}
