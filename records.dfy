/** The medical records routes of `src/routes/records.js`: doctors and admins create a
    record, every caller lists the records of their role's scope, and the per-patient view
    applies its own access rule. Lists are newest first. */
module Records {
  import opened Common
  import opened Listing
  import opened Users
  import opened AuthMiddleware

  /** A stored record; `createdAt` is the timestamp the store assigns. */
  datatype MedicalRecord = MedicalRecord(
    id: Id,
    patient: Id,
    doctor: Id,
    diagnosis: string,
    prescriptions: seq<string>,
    notes: Option<string>,
    createdAt: int)

  /** The body of POST /records after unknown keys are stripped. */
  datatype RecordRequest = RecordRequest(
    patientId: Option<Id>,
    diagnosis: Option<string>,
    prescriptions: Option<seq<string>>,
    notes: Option<string>)

  const CannotViewOthers := Failure(403, "Cannot view other patients records")

  /** The first error the body schema reports: `patientId` is required, and `diagnosis` is a
      required non-empty string of at least 3 characters. */
  function RecordSchemaError(req: RecordRequest): (r: Option<Failure>)
    ensures r.None? <==> req.patientId.Some? && req.diagnosis.Some? && |req.diagnosis.value| >= 3
    ensures r.Some? ==> r.value.status == 400
    ensures req.patientId.None? ==> r == Some(Failure(400, "\"patientId\" is required"))
  {
    if req.patientId.None? then Some(Failure(400, "\"patientId\" is required"))
    else if req.diagnosis.None? then Some(Failure(400, "\"diagnosis\" is required"))
    else if req.diagnosis.value == "" then Some(Failure(400, "\"diagnosis\" is not allowed to be empty"))
    else if |req.diagnosis.value| < 3 then Some(Failure(400, "\"diagnosis\" length must be at least 3 characters long"))
    else None
  }

  /** The GET /records filter: a patient's own, a doctor's own, everything for an admin. */
  predicate InScope(caller: Principal, rec: MedicalRecord) {
    && (caller.role == Patient ==> rec.patient == caller.id)
    && (caller.role == Doctor ==> rec.doctor == caller.id)
  }

  function Scope(caller: Principal): MedicalRecord -> bool {
    rec => InScope(caller, rec)
  }

  /** `.sort({ createdAt: -1 })` sorts ascending on the negated timestamp. */
  function NewestFirst(rec: MedicalRecord): int {
    -rec.createdAt
  }

  /** GET /records. */
  function ListRecords(records: seq<MedicalRecord>, caller: Principal): (r: seq<MedicalRecord>)
    ensures SortedBy(r, NewestFirst)
    ensures forall i, j :: 0 <= i < j < |r| ==> r[i].createdAt >= r[j].createdAt
    ensures forall rec :: rec in r <==> rec in records && InScope(caller, rec)
    ensures multiset(r) == multiset(Filter(records, Scope(caller)))
    ensures caller.role == Admin ==> multiset(r) == multiset(records)
  {
    var mine := Filter(records, Scope(caller));
    SortByMembers(mine, NewestFirst);
    if caller.role == Admin then FilterAll(records, Scope(caller)); SortBy(mine, NewestFirst)
    else SortBy(mine, NewestFirst)
  }

  /** The GET /records/patient/:patientId filter: that patient's records, and for a doctor
      only those the doctor wrote. */
  predicate ForPatient(caller: Principal, patientId: Id, rec: MedicalRecord) {
    rec.patient == patientId && (caller.role == Doctor ==> rec.doctor == caller.id)
  }

  function PatientScope(caller: Principal, patientId: Id): MedicalRecord -> bool {
    rec => ForPatient(caller, patientId, rec)
  }

  /** GET /records/patient/:patientId: a patient may only ask for their own records. */
  function PatientRecords(records: seq<MedicalRecord>, caller: Principal, patientId: Id): (r: Outcome<seq<MedicalRecord>>)
    ensures r.Fail? <==> caller.role == Patient && caller.id != patientId
    ensures r.Fail? ==> r.failure == CannotViewOthers
    ensures r.Ok? ==> SortedBy(r.value, NewestFirst)
    ensures r.Ok? ==> forall rec :: rec in r.value <==> rec in records && ForPatient(caller, patientId, rec)
    ensures r.Ok? ==> multiset(r.value) == multiset(Filter(records, PatientScope(caller, patientId)))
  {
    if caller.role == Patient && caller.id != patientId then Fail(CannotViewOthers)
    else
      var mine := Filter(records, PatientScope(caller, patientId));
      SortByMembers(mine, NewestFirst);
      Ok(SortBy(mine, NewestFirst))
  }

  /** A patient's own per-patient view is their GET /records listing. */
  lemma OwnRecordsAgree(records: seq<MedicalRecord>, caller: Principal)
    requires caller.role == Patient
    ensures PatientRecords(records, caller, caller.id) == Ok(ListRecords(records, caller))
  {
    FilterAgrees(records, PatientScope(caller, caller.id), Scope(caller));
  }

  /** A doctor's per-patient view holds exactly the records of that patient in the doctor's
      own listing. */
  lemma DoctorViewWithinOwnRecords(records: seq<MedicalRecord>, caller: Principal, patientId: Id)
    requires caller.role == Doctor
    ensures PatientRecords(records, caller, patientId).Ok?
    ensures forall rec :: rec in PatientRecords(records, caller, patientId).value <==>
                          rec in ListRecords(records, caller) && rec.patient == patientId
  {
  }

  /** The records collection with POST /records. */
  class RecordStore {
    var records: seq<MedicalRecord>

    ghost predicate Valid()
      reads this
    {
      forall i :: 0 <= i < |records| ==> records[i].id == i && |records[i].diagnosis| >= 3
    }

    constructor ()
      ensures Valid() && records == []
    {
      records := [];
    }

    /** POST /records behind `requireRoles('doctor', 'admin')`: the record's doctor is the
        caller and its prescriptions default to the empty list; `users` is the user collection
        the gate looks the caller up in and `now` is the creation time. */
    method Create(caller: Principal, users: seq<User>, req: RecordRequest, now: int) returns (r: Outcome<MedicalRecord>)
      requires Valid()
      modifies this
      ensures Valid()
      ensures RequireRoles(Some(caller), [Doctor, Admin], users).Some? ==>
        r == Fail(RequireRoles(Some(caller), [Doctor, Admin], users).value)
      ensures caller.role == Patient ==> r == Fail(Forbidden)
      ensures caller.role != Patient && !StillExists(users, caller) ==> r == Fail(UserGone)
      ensures RequireRoles(Some(caller), [Doctor, Admin], users).None? && RecordSchemaError(req).Some? ==>
        r == Fail(RecordSchemaError(req).value)
      ensures r.Fail? ==> records == old(records)
      ensures r.Ok? <==> RequireRoles(Some(caller), [Doctor, Admin], users).None? && RecordSchemaError(req).None?
      ensures r.Ok? ==>
        && r.value == MedicalRecord(|old(records)|, req.patientId.value, caller.id, req.diagnosis.value,
                                    if req.prescriptions.Some? then req.prescriptions.value else [], req.notes, now)
        && records == old(records) + [r.value]
    {
      var gate := RequireRoles(Some(caller), [Doctor, Admin], users);
      if gate.Some? {
        return Fail(gate.value);
      }
      var schemaError := RecordSchemaError(req);
      if schemaError.Some? {
        return Fail(schemaError.value);
      }
      var prescriptions := if req.prescriptions.Some? then req.prescriptions.value else [];
      var rec := MedicalRecord(|records|, req.patientId.value, caller.id, req.diagnosis.value, prescriptions, req.notes, now);
      records := records + [rec];
      r := Ok(rec);
    }
  }
}
