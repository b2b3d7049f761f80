/** The slot-label booking flow of `backend/controllers/userController.js`: each doctor keeps a
    ledger from the raw request date string to the time labels booked on it. Booking appends
    the normalised time under the raw date, cancelling filters it out again; payment is a
    Stripe line item and its confirmation sets the `payment` flag. */
module SlotLedger {
  import opened Common
  import opened Listing
  import opened LegacyModels
  import opened SlotFormat

  // ---------------------------------------------------------------- the ledger

  /** A booking is refused when the list under the raw date already holds the normalised
      time or the raw time as the client sent it. */
  predicate SlotTaken(ledger: Ledger, key: string, time: string, rawTime: string) {
    key in ledger && (time in ledger[key] || rawTime in ledger[key])
  }

  /** The list under `key`, or the empty list the booking creates for a new date. */
  function Booked(ledger: Ledger, key: string): seq<string> {
    if key in ledger then ledger[key] else []
  }

  /** `slots_booked[slotDate].push(normalizedTime)`, creating the list for a new date. */
  function Reserve(ledger: Ledger, key: string, time: string): (r: Ledger)
    ensures r.Keys == ledger.Keys + {key}
    ensures |r[key]| == |Booked(ledger, key)| + 1
    ensures r[key][..|r[key]| - 1] == Booked(ledger, key) && r[key][|r[key]| - 1] == time
    ensures forall k :: k in ledger && k != key ==> r[k] == ledger[k]
  {
    ledger[key := Booked(ledger, key) + [time]]
  }

  function Differs(time: string): string -> bool {
    e => e != time
  }

  /** `list.filter(e => e !== slotTime)`. */
  function RemoveAll(s: seq<string>, time: string): (r: seq<string>)
    ensures time !in r
    ensures forall x :: x in r <==> x in s && x != time
    ensures |r| <= |s|
  {
    Filter(s, Differs(time))
  }

  /** `slots_booked[slotDate] = slots_booked[slotDate].filter(e => e !== slotTime)`; the
      source reads the list before filtering it, so the date must be in the ledger. */
  function Release(ledger: Ledger, key: string, time: string): (r: Ledger)
    requires key in ledger
    ensures r.Keys == ledger.Keys
    ensures time !in r[key]
    ensures forall x :: x in r[key] <==> x in ledger[key] && x != time
    ensures forall k :: k in ledger && k != key ==> r[k] == ledger[k]
  {
    ledger[key := RemoveAll(ledger[key], time)]
  }

  ghost predicate NoDuplicates(s: seq<string>) {
    forall i, j :: 0 <= i < j < |s| ==> s[i] != s[j]
  }

  /** No time is listed twice under one date. */
  ghost predicate LedgerDistinct(ledger: Ledger) {
    forall k :: k in ledger ==> NoDuplicates(ledger[k])
  }

  /** Booking a time that is not yet listed keeps every list free of duplicates. */
  lemma ReserveKeepsDistinct(ledger: Ledger, key: string, time: string)
    requires LedgerDistinct(ledger) && time !in Booked(ledger, key)
    ensures LedgerDistinct(Reserve(ledger, key, time))
  {
    var r := Reserve(ledger, key, time);
    assert r[key] == Booked(ledger, key) + [time];
    forall k | k in r
      ensures NoDuplicates(r[k])
    {
      if k != key {
        assert r[k] == ledger[k];
      }
    }
  }

  function Label(e: string): string {
    e
  }

  lemma RemoveAllKeepsDistinct(s: seq<string>, time: string)
    requires NoDuplicates(s)
    ensures NoDuplicates(RemoveAll(s, time))
  {
    assert DistinctBy(s, Label);
    FilterKeepsDistinct(s, Differs(time), Label);
    var r := RemoveAll(s, time);
    assert forall i, j :: 0 <= i < j < |r| ==> Label(r[i]) != Label(r[j]);
  }

  /** Releasing a time keeps every list free of duplicates. */
  lemma ReleaseKeepsDistinct(ledger: Ledger, key: string, time: string)
    requires LedgerDistinct(ledger) && key in ledger
    ensures LedgerDistinct(Release(ledger, key, time))
  {
    var r := Release(ledger, key, time);
    RemoveAllKeepsDistinct(ledger[key], time);
    forall k | k in r
      ensures NoDuplicates(r[k])
    {
      if k != key {
        assert r[k] == ledger[k];
      }
    }
  }

  /** Cancelling a booking gives back the ledger it was made on; a date that was new keeps
      an empty list. */
  lemma ReleaseUndoesReserve(ledger: Ledger, key: string, time: string)
    requires time !in Booked(ledger, key)
    ensures Release(Reserve(ledger, key, time), key, time) == ledger[key := Booked(ledger, key)]
    ensures key in ledger ==> Release(Reserve(ledger, key, time), key, time) == ledger
  {
    var before := Booked(ledger, key);
    var reserved := Reserve(ledger, key, time);
    assert reserved[key] == before + [time];
    FilterConcat(before, [time], Differs(time));
    FilterAll(before, Differs(time));
    assert Filter([time], Differs(time)) == [] by {
      assert [time][1..] == [];
    }
    assert RemoveAll(before + [time], time) == before;
    assert Release(reserved, key, time) == reserved[key := before];
    assert reserved[key := before] == ledger[key := before];
  }

  /** The ledger is keyed by the raw request string: after `12_11_2025` is booked at a time,
      the same day written `2025-11-12` still shows that time as free, though both strings
      name the same day. */
  lemma RawKeysMissEachOther(ledger: Ledger, dmy: string, iso: string, time: string)
    requires dmy == "12_11_2025" && iso == "2025-11-12" && iso !in ledger
    ensures NormalizeDate(dmy) == NormalizeDate(iso)
    ensures time in Reserve(ledger, dmy, time)[dmy]
    ensures !SlotTaken(Reserve(ledger, dmy, time), iso, time, time)
  {
    BothDateFormsAgree(dmy, iso);
    var r := Reserve(ledger, dmy, time);
    assert r[dmy][|r[dmy]| - 1] == time;
    assert dmy[0] != iso[0];
  }

  // ---------------------------------------------------------------- requests

  /** The booking request body: `doctorId` and its alias `docId`, the user, the raw date and time. */
  datatype BookRequest = BookRequest(
    doctorId: Option<Id>,
    docId: Option<Id>,
    userId: Option<Id>,
    slotDate: Option<string>,
    slotTime: Option<string>)

  /** A request that passed the field, date and time checks. */
  datatype Booking = Booking(doctor: Id, user: Id, dateKey: string, date: CalendarDate, rawTime: string, time: string)

  const MissingFields := Failure(400, "Missing required fields")
  const BadDate := Failure(400, "Invalid date format. Use DD_MM_YYYY or YYYY-MM-DD")
  const BadTime := Failure(400, "Invalid time format. Use HH:mm or hh:mm am/pm")
  /** `docData.available` on the `null` an unknown doctor id finds. */
  const NoDoctor := Failure(200, "Cannot read properties of null (reading 'available')")
  const DoctorUnavailable := Failure(200, "Doctor Not Available")
  const SlotUnavailable := Failure(200, "Slot Not Available")
  /** Saving an appointment whose `userData` snapshot is `null`. */
  const UserDataRequired := Failure(200, "Appointment validation failed: userData: Path `userData` is required.")
  /** `appointmentData.userId` on the `null` an unknown appointment id finds. */
  const NoAppointment := Failure(200, "Cannot read properties of null (reading 'userId')")
  const Unauthorized := Failure(200, "Unauthorized action")
  /** `doctorData.slots_booked` on the `null` an unknown doctor id finds. */
  const NoDoctorData := Failure(200, "Cannot read properties of null (reading 'slots_booked')")
  /** `.filter` on the `undefined` a date without a list reads. */
  const NoDateList := Failure(200, "Cannot read properties of undefined (reading 'filter')")
  const NotPayable := Failure(200, "Appointment Cancelled or not found")
  /** `process.env.CURRENCY.toLocaleLowerCase()` with the variable unset. */
  const NoCurrency := Failure(200, "Cannot read properties of undefined (reading 'toLocaleLowerCase')")
  const PaymentFailed := Failure(200, "Payment Failed")
  /** The `ReferenceError` of the session request: the controller imports the Stripe client
      as `stripe` but calls `stripeInstance`. */
  const NoStripeInstance := Failure(200, "stripeInstance is not defined")

  /** All four fields are present; the doctor may come as `doctorId` or `docId`. */
  predicate Present(req: BookRequest) {
    OrElse(req.doctorId, req.docId).Some? && req.userId.Some? && Given(req.slotDate) && Given(req.slotTime)
  }

  /** The checks `bookAppointment` makes before it reads the store. */
  function ParseBooking(req: BookRequest): (r: Outcome<Booking>)
    ensures r == Fail(MissingFields) <==> !Present(req)
    ensures r == Fail(BadDate) <==> Present(req) && NormalizeDate(req.slotDate.value).None?
    ensures r == Fail(BadTime) <==>
      Present(req) && NormalizeDate(req.slotDate.value).Some? && NormalizeTime(req.slotTime.value).None?
    ensures r.Fail? ==> r.failure in {MissingFields, BadDate, BadTime}
    ensures r.Ok? ==>
      && Some(r.value.doctor) == OrElse(req.doctorId, req.docId) && Some(r.value.user) == req.userId
      && Some(r.value.dateKey) == req.slotDate && Some(r.value.rawTime) == req.slotTime
      && NormalizeDate(r.value.dateKey) == Some(r.value.date)
      && NormalizeTime(r.value.rawTime) == Some(r.value.time)
      && |r.value.time| == 5 && SlotTimeValid(r.value.time)
  {
    if !Present(req) then Fail(MissingFields)
    else
      var date := NormalizeDate(req.slotDate.value);
      var time := NormalizeTime(req.slotTime.value);
      if date.None? then Fail(BadDate)
      else if time.None? then Fail(BadTime)
      else
        NormalizedTimeIsValid(req.slotTime.value);
        Ok(Booking(OrElse(req.doctorId, req.docId).value, req.userId.value, req.slotDate.value, date.value,
                   req.slotTime.value, time.value))
  }

  /** The Stripe line item of an appointment's fee, in the smallest currency unit. */
  datatype LineItem = LineItem(currency: string, productName: string, unitAmount: int, quantity: nat)

  /** The checks `bookAppointment` makes against the store all pass: the doctor exists and
      is available, the slot is free under the raw date, and the patient has a profile. */
  predicate Admitted(doctors: map<Id, DoctorRecord>, users: map<Id, Profile>, b: Booking) {
    && b.doctor in doctors && doctors[b.doctor].available
    && !SlotTaken(doctors[b.doctor].slotsBooked, b.dateKey, b.time, b.rawTime) && b.user in users
  }

  /** The doctors after an admitted booking: the time is appended under the raw date. */
  function ReserveFor(doctors: map<Id, DoctorRecord>, b: Booking): (r: map<Id, DoctorRecord>)
    requires b.doctor in doctors
    ensures r.Keys == doctors.Keys
    ensures forall id :: id in doctors && id != b.doctor ==> r[id] == doctors[id]
    ensures r[b.doctor].(slotsBooked := doctors[b.doctor].slotsBooked) == doctors[b.doctor]
    ensures var before, after := doctors[b.doctor].slotsBooked, r[b.doctor].slotsBooked;
      && after.Keys == before.Keys + {b.dateKey}
      && after[b.dateKey] == Booked(before, b.dateKey) + [b.time]
      && forall k :: k in before && k != b.dateKey ==> after[k] == before[k]
  {
    var d := doctors[b.doctor];
    doctors[b.doctor := d.(slotsBooked := Reserve(d.slotsBooked, b.dateKey, b.time))]
  }

  /** The appointment an admitted booking saves: the patient's profile, the doctor's record
      without its ledger, and the doctor's fee as the amount. */
  function BookedAppointment(doctors: map<Id, DoctorRecord>, users: map<Id, Profile>, b: Booking): (a: LegacyAppointment)
    requires b.doctor in doctors && b.user in users
    ensures a.userId == b.user && a.docId == b.doctor && a.slotKey == b.dateKey && a.slotTime == b.time
    ensures a.slotDate == b.date
    ensures a.userData == users[b.user] && a.amount == doctors[b.doctor].fees
    ensures a.docData == doctors[b.doctor].(slotsBooked := map[])
    ensures !a.cancelled && !a.payment && !a.isCompleted
  {
    var d := doctors[b.doctor];
    NewLegacyAppointment(b.user, b.doctor, b.date, b.dateKey, b.time, users[b.user], d.(slotsBooked := map[]), d.fees)
  }

  /** An admitted booking of a valid time keeps every ledger free of duplicates and every
      stored time valid. */
  lemma BookingKeepsValid(doctors: map<Id, DoctorRecord>, users: map<Id, Profile>,
                          appointments: seq<LegacyAppointment>, b: Booking)
    requires LedgersDistinct(doctors) && TimesValid(appointments)
    requires Admitted(doctors, users, b) && |b.time| == 5 && SlotTimeValid(b.time)
    ensures LedgersDistinct(ReserveFor(doctors, b))
    ensures TimesValid(appointments + [BookedAppointment(doctors, users, b)])
  {
    var d := doctors[b.doctor];
    ReserveKeepsDistinct(d.slotsBooked, b.dateKey, b.time);
  }

  /** The first of those checks that fails, in the order the source makes them. */
  function StoreRefusal(doctors: map<Id, DoctorRecord>, users: map<Id, Profile>, b: Booking): (r: Option<Failure>)
    ensures r == Some(NoDoctor) <==> b.doctor !in doctors
    ensures r == Some(DoctorUnavailable) <==> b.doctor in doctors && !doctors[b.doctor].available
    ensures r == Some(SlotUnavailable) <==>
      b.doctor in doctors && doctors[b.doctor].available && SlotTaken(doctors[b.doctor].slotsBooked, b.dateKey, b.time, b.rawTime)
    ensures r == Some(UserDataRequired) <==>
      b.doctor in doctors && doctors[b.doctor].available
      && !SlotTaken(doctors[b.doctor].slotsBooked, b.dateKey, b.time, b.rawTime) && b.user !in users
    ensures r.Some? ==> r.value in {NoDoctor, DoctorUnavailable, SlotUnavailable, UserDataRequired}
    ensures r.None? <==> Admitted(doctors, users, b)
  {
    if b.doctor !in doctors then Some(NoDoctor)
    else if !doctors[b.doctor].available then Some(DoctorUnavailable)
    else if SlotTaken(doctors[b.doctor].slotsBooked, b.dateKey, b.time, b.rawTime) then Some(SlotUnavailable)
    else if b.user !in users then Some(UserDataRequired)
    else None
  }

  /** Every time a booking records satisfies the `slotTime` validator. */
  ghost predicate TimesValid(appointments: seq<LegacyAppointment>) {
    forall i :: 0 <= i < |appointments| ==> |appointments[i].slotTime| == 5 && SlotTimeValid(appointments[i].slotTime)
  }

  ghost predicate LedgersDistinct(doctors: map<Id, DoctorRecord>) {
    forall d :: d in doctors ==> LedgerDistinct(doctors[d].slotsBooked)
  }

  /** The three collections the legacy controllers read and write. Appointment ids are
      positions in `appointments`. */
  class LegacyClinic {
    var doctors: map<Id, DoctorRecord>
    var users: map<Id, Profile>
    var appointments: seq<LegacyAppointment>

    ghost predicate Valid()
      reads this
    {
      LedgersDistinct(doctors) && TimesValid(appointments)
    }

    constructor (doctors0: map<Id, DoctorRecord>, users0: map<Id, Profile>)
      requires LedgersDistinct(doctors0)
      ensures Valid()
      ensures doctors == doctors0 && users == users0 && appointments == []
    {
      doctors := doctors0;
      users := users0;
      appointments := [];
    }

    /** `bookAppointment`: the request checks, the doctor lookup, availability, the ledger
        check, the user snapshot, then the saved appointment and the reserved slot. */
    method BookAppointment(req: BookRequest) returns (r: Outcome<string>)
      requires Valid()
      modifies this
      ensures Valid()
      ensures users == old(users)
      ensures ParseBooking(req).Fail? ==>
        r == Fail(ParseBooking(req).failure) && doctors == old(doctors) && appointments == old(appointments)
      ensures ParseBooking(req).Ok? && StoreRefusal(old(doctors), old(users), ParseBooking(req).value).Some? ==>
        && r == Fail(StoreRefusal(old(doctors), old(users), ParseBooking(req).value).value)
        && doctors == old(doctors) && appointments == old(appointments)
      ensures ParseBooking(req).Ok? && Admitted(old(doctors), old(users), ParseBooking(req).value) ==>
        && r == Ok("Appointment Booked")
        && doctors == ReserveFor(old(doctors), ParseBooking(req).value)
        && appointments == old(appointments) + [BookedAppointment(old(doctors), old(users), ParseBooking(req).value)]
    {
      var parsed := ParseBooking(req);
      if parsed.Fail? {
        return Fail(parsed.failure);
      }
      var b := parsed.value;
      var refusal := StoreRefusal(doctors, users, b);
      if refusal.Some? {
        return Fail(refusal.value);
      }
      BookingKeepsValid(doctors, users, appointments, b);
      appointments := appointments + [BookedAppointment(doctors, users, b)];
      doctors := ReserveFor(doctors, b);
      r := Ok("Appointment Booked");
    }

    /** `cancelAppointment` with the doctor read from the record's `docId` and the slot looked
        up under the date key it was booked with. As in the source, the `cancelled` flag is
        saved before the ledger is read, so a failure after that point keeps it. */
    method CancelAppointment(userId: Id, appointmentId: Id) returns (r: Outcome<string>)
      requires Valid()
      modifies this
      ensures Valid()
      ensures users == old(users)
      ensures appointmentId >= |old(appointments)| ==>
        r == Fail(NoAppointment) && appointments == old(appointments) && doctors == old(doctors)
      ensures appointmentId < |old(appointments)| && old(appointments)[appointmentId].userId != userId ==>
        r == Fail(Unauthorized) && appointments == old(appointments) && doctors == old(doctors)
      ensures appointmentId < |old(appointments)| && old(appointments)[appointmentId].userId == userId ==>
        var a := old(appointments)[appointmentId];
        && appointments == old(appointments)[appointmentId := a.(cancelled := true)]
        && (a.docId !in old(doctors) ==> r == Fail(NoDoctorData) && doctors == old(doctors))
        && (a.docId in old(doctors) && a.slotKey !in old(doctors)[a.docId].slotsBooked ==>
              r == Fail(NoDateList) && doctors == old(doctors))
        && (a.docId in old(doctors) && a.slotKey in old(doctors)[a.docId].slotsBooked ==>
              var d := old(doctors)[a.docId];
              && r == Ok("Appointment Cancelled")
              && doctors == old(doctors)[a.docId := d.(slotsBooked := Release(d.slotsBooked, a.slotKey, a.slotTime))])
    {
      if appointmentId >= |appointments| {
        return Fail(NoAppointment);
      }
      var a := appointments[appointmentId];
      if a.userId != userId {
        return Fail(Unauthorized);
      }
      appointments := appointments[appointmentId := a.(cancelled := true)];
      if a.docId !in doctors {
        return Fail(NoDoctorData);
      }
      var doctorData := doctors[a.docId];
      var slots := doctorData.slotsBooked;
      if a.slotKey !in slots {
        return Fail(NoDateList);
      }
      ReleaseKeepsDistinct(slots, a.slotKey, a.slotTime);
      doctors := doctors[a.docId := doctorData.(slotsBooked := Release(slots, a.slotKey, a.slotTime))];
      r := Ok("Appointment Cancelled");
    }

    /** `paymentStripe` up to the session request: a missing or cancelled appointment is
        refused; otherwise the line item charges the appointment's amount times 100 in the
        configured currency, lower-cased. */
    method PaymentStripe(appointmentId: Id, currency: Option<string>) returns (r: Outcome<LineItem>)
      ensures appointmentId >= |appointments| || appointments[appointmentId].cancelled ==> r == Fail(NotPayable)
      ensures appointmentId < |appointments| && !appointments[appointmentId].cancelled && currency.None? ==>
        r == Fail(NoCurrency)
      ensures r.Ok? <==> appointmentId < |appointments| && !appointments[appointmentId].cancelled && currency.Some?
      ensures r.Ok? ==>
        && r.value.currency == Lower(currency.value)
        && r.value.unitAmount == appointments[appointmentId].amount * 100
        && r.value.productName == "Appointment Fees" && r.value.quantity == 1
    {
      if appointmentId >= |appointments| || appointments[appointmentId].cancelled {
        return Fail(NotPayable);
      }
      if currency.None? {
        return Fail(NoCurrency);
      }
      var amount := appointments[appointmentId].amount;
      r := Ok(LineItem(Lower(currency.value), "Appointment Fees", amount * 100, 1));
    }

    /** `verifyStripe`: only the literal string `"true"` marks the appointment paid; an
        unknown id updates nothing and still reports success. */
    method VerifyStripe(appointmentId: Id, success: Option<string>) returns (r: Outcome<string>)
      requires Valid()
      modifies this
      ensures Valid()
      ensures doctors == old(doctors) && users == old(users)
      ensures success == Some("true") ==>
        && r == Ok("Payment Successful")
        && appointments == if appointmentId < |old(appointments)|
                           then old(appointments)[appointmentId := old(appointments)[appointmentId].(payment := true)]
                           else old(appointments)
      ensures success != Some("true") ==> r == Fail(PaymentFailed) && appointments == old(appointments)
    {
      if success == Some("true") {
        if appointmentId < |appointments| {
          appointments := appointments[appointmentId := appointments[appointmentId].(payment := true)];
        }
        return Ok("Payment Successful");
      }
      r := Fail(PaymentFailed);
    }
  }

  // ---------------------------------------------------------------- cancellation as written

  /** `cancelAppointment` as written, on the store's values: it destructures `doctorId`, a
      field the record does not have, so the doctor lookup is `findById(undefined)`, which
      finds nothing; were a doctor found, its ledger would be indexed by the stored `Date`,
      which never equals a raw request string. Returns the reply, the doctors and the
      appointments after the call. */
  function CancelAsWritten(doctors: map<Id, DoctorRecord>, appointments: seq<LegacyAppointment>, userId: Id, appointmentId: Id)
    : (r: (Outcome<string>, map<Id, DoctorRecord>, seq<LegacyAppointment>))
    ensures r.1 == doctors
  {
    if appointmentId >= |appointments| then (Fail(NoAppointment), doctors, appointments)
    else
      var a := appointments[appointmentId];
      if a.userId != userId then (Fail(Unauthorized), doctors, appointments)
      else
        var cancelled := appointments[appointmentId := a.(cancelled := true)];
        match IdField(a, "doctorId")
        case None => (Fail(NoDoctorData), doctors, cancelled)
        // Never taken (`IdField` has no `doctorId`); a found doctor would still fail at the
        // ledger lookup by the stored `Date`.
        case Some(d) => (if d in doctors then Fail(NoDateList) else Fail(NoDoctorData), doctors, cancelled)
  }

  /** As written, an authorised cancellation saves `cancelled` but fails before the ledger is
      written: the booked time stays in the doctor's list and the client is told it failed. */
  lemma CancelAsWrittenNeverReleases(doctors: map<Id, DoctorRecord>, appointments: seq<LegacyAppointment>,
                                     userId: Id, appointmentId: Id)
    requires appointmentId < |appointments| && appointments[appointmentId].userId == userId
    ensures CancelAsWritten(doctors, appointments, userId, appointmentId).0 == Fail(NoDoctorData)
    ensures CancelAsWritten(doctors, appointments, userId, appointmentId).1 == doctors
    ensures CancelAsWritten(doctors, appointments, userId, appointmentId).2[appointmentId].cancelled
  {
    assert "doctorId" != "userId" && "doctorId" != "docId";
  }

  // ---------------------------------------------------------------- payment as written

  /** `paymentStripe` as written, on the store's values: past the appointment and currency
      checks the session request names `stripeInstance`, which is not declared, so no
      request is ever paid for and the reply is always a failure. */
  function PaymentStripeAsWritten(appointments: seq<LegacyAppointment>, appointmentId: Id, currency: Option<string>)
    : (r: Outcome<LineItem>)
    ensures r.Fail?
    ensures appointmentId >= |appointments| || appointments[appointmentId].cancelled ==> r == Fail(NotPayable)
    ensures appointmentId < |appointments| && !appointments[appointmentId].cancelled ==>
      r == Fail(if currency.None? then NoCurrency else NoStripeInstance)
  {
    if appointmentId >= |appointments| || appointments[appointmentId].cancelled then Fail(NotPayable)
    else if currency.None? then Fail(NoCurrency)
    else Fail(NoStripeInstance)
  }

  // ---------------------------------------------------------------- registration checks

  const MissingDetails := Failure(200, "Missing Details")
  const InvalidEmail := Failure(200, "Please enter a valid email")
  const WeakPassword := Failure(200, "Please enter a strong password")

  /** The input checks of `registerUser`, in order; the email format test is a parameter. */
  function CheckRegistration(name: Option<string>, email: Option<string>, password: Option<string>,
                             isEmail: string -> bool): (r: Option<Failure>)
    ensures r == Some(MissingDetails) <==> !Given(name) || !Given(email) || !Given(password)
    ensures r == Some(InvalidEmail) <==> Given(name) && Given(email) && Given(password) && !isEmail(email.value)
    ensures r == Some(WeakPassword) <==>
      Given(name) && Given(email) && Given(password) && isEmail(email.value) && |password.value| < 8
    ensures r.None? <==> Given(name) && Given(email) && Given(password) && isEmail(email.value) && |password.value| >= 8
  {
    if !Given(name) || !Given(email) || !Given(password) then Some(MissingDetails)
    else if !isEmail(email.value) then Some(InvalidEmail)
    else if |password.value| < 8 then Some(WeakPassword)
    else None
  }
}
