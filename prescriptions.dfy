/** The prescription controller of `backend/controllers/prescriptionController.js`: creating
    a prescription with the doctor id taken from one of three places, and listing
    prescriptions with optional patient and doctor filters, newest first. */
module Prescriptions {
  import opened Common
  import opened Listing

  /** A prescribed medicine; the three prescription schemas disagree on its other fields. */
  datatype Medicine = Medicine(name: string, dosage: string)

  datatype Prescription = Prescription(
    id: Id,
    userId: Id,
    docId: Id,
    diagnosis: string,
    notes: Option<string>,
    medicines: seq<Medicine>,
    appointmentId: Option<Id>,
    createdAt: int)

  /** The body of `createPrescription`; `medicines` is `None` when it is not an array. */
  datatype PrescriptionRequest = PrescriptionRequest(
    docId: Option<Id>,
    doctorId: Option<Id>,
    userId: Option<Id>,
    diagnosis: Option<string>,
    notes: Option<string>,
    medicines: Option<seq<Medicine>>,
    appointmentId: Option<Id>)

  const MissingFields := Failure(400, "Missing required fields")

  /** `req.body.docId || req.body.doctorId || req.doctorId`, where the last is the id the
      authentication middleware attached. */
  function ResolveDoctorId(req: PrescriptionRequest, authDoctorId: Option<Id>): (r: Option<Id>)
    ensures req.docId.Some? ==> r == req.docId
    ensures req.docId.None? && req.doctorId.Some? ==> r == req.doctorId
    ensures req.docId.None? && req.doctorId.None? ==> r == authDoctorId
  {
    OrElse(OrElse(req.docId, req.doctorId), authDoctorId)
  }

  /** The validation of `createPrescription`: a doctor, a user, a diagnosis, and a non-empty
      medicine array. */
  predicate PrescriptionComplete(req: PrescriptionRequest, authDoctorId: Option<Id>) {
    ResolveDoctorId(req, authDoctorId).Some? && req.userId.Some? && Given(req.diagnosis)
    && req.medicines.Some? && req.medicines.value != []
  }

  /** `.sort({ createdAt: -1 })`. */
  function NewestFirst(p: Prescription): int {
    -p.createdAt
  }

  /** The list filter: `userId` only when `forUserId` is given, `docId` only when
      `forDoctorId` is given. */
  predicate Matches(forUserId: Option<Id>, forDoctorId: Option<Id>, p: Prescription) {
    (forUserId.Some? ==> p.userId == forUserId.value) && (forDoctorId.Some? ==> p.docId == forDoctorId.value)
  }

  function ListFilter(forUserId: Option<Id>, forDoctorId: Option<Id>): Prescription -> bool {
    p => Matches(forUserId, forDoctorId, p)
  }

  /** `listPrescriptions`. */
  function ListPrescriptions(all: seq<Prescription>, forUserId: Option<Id>, forDoctorId: Option<Id>)
    : (r: seq<Prescription>)
    ensures SortedBy(r, NewestFirst)
    ensures forall p :: p in r <==> p in all && (forUserId.Some? ==> p.userId == forUserId.value)
                                             && (forDoctorId.Some? ==> p.docId == forDoctorId.value)
    ensures multiset(r) == multiset(Filter(all, ListFilter(forUserId, forDoctorId)))
    ensures forUserId.None? && forDoctorId.None? ==> multiset(r) == multiset(all)
  {
    var mine := Filter(all, ListFilter(forUserId, forDoctorId));
    SortByMembers(mine, NewestFirst);
    if forUserId.None? && forDoctorId.None? then
      FilterAll(all, ListFilter(forUserId, forDoctorId));
      SortBy(mine, NewestFirst)
    else SortBy(mine, NewestFirst)
  }

  /** Giving both filters lists exactly the prescriptions in both single-filter lists. */
  lemma BothFiltersIntersect(all: seq<Prescription>, u: Id, d: Id)
    ensures forall p :: p in ListPrescriptions(all, Some(u), Some(d)) <==>
                        p in ListPrescriptions(all, Some(u), None) && p in ListPrescriptions(all, None, Some(d))
  {
  }

  /** The prescription collection. Prescription ids are positions in `prescriptions`. */
  class PrescriptionStore {
    var prescriptions: seq<Prescription>

    ghost predicate Valid()
      reads this
    {
      forall i :: 0 <= i < |prescriptions| ==>
        prescriptions[i].id == i && prescriptions[i].medicines != [] && prescriptions[i].diagnosis != ""
    }

    constructor ()
      ensures Valid() && prescriptions == []
    {
      prescriptions := [];
    }

    /** `createPrescription`; `authDoctorId` is `req.doctorId` and `now` the creation time. */
    method CreatePrescription(req: PrescriptionRequest, authDoctorId: Option<Id>, now: int) returns (r: Outcome<Prescription>)
      requires Valid()
      modifies this
      ensures Valid()
      ensures !PrescriptionComplete(req, authDoctorId) ==> r == Fail(MissingFields) && prescriptions == old(prescriptions)
      ensures PrescriptionComplete(req, authDoctorId) ==>
        && r == Ok(Prescription(|old(prescriptions)|, req.userId.value, ResolveDoctorId(req, authDoctorId).value,
                                req.diagnosis.value, req.notes, req.medicines.value, req.appointmentId, now))
        && prescriptions == old(prescriptions) + [r.value]
    {
      if !PrescriptionComplete(req, authDoctorId) {
        return Fail(MissingFields);
      }
      var rx := Prescription(|prescriptions|, req.userId.value, ResolveDoctorId(req, authDoctorId).value,
                             req.diagnosis.value, req.notes, req.medicines.value, req.appointmentId, now);
      prescriptions := prescriptions + [rx];
      r := Ok(rx);
    }
  }
}
