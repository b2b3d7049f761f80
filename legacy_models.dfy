/** The records of the slot-label booking flow: the appointment of
    `backend/models/appointmentModel.js` (with its `slotTime` validator and boolean
    defaults) and the doctor of `backend/models/doctorModel.js` (with its defaults and
    the `slots_booked` ledger). */
module LegacyModels {
  import opened Common

  predicate IsDigit(c: char) {
    '0' <= c <= '9'
  }

  /** `[0-1]?[0-9]|2[0-3]`: one digit, or 00-19, or 20-23. */
  predicate Hour24(h: string) {
    || (|h| == 1 && IsDigit(h[0]))
    || (|h| == 2 && '0' <= h[0] <= '1' && IsDigit(h[1]))
    || (|h| == 2 && h[0] == '2' && '0' <= h[1] <= '3')
  }

  /** `[0-5][0-9]`. */
  predicate Minutes(m: string) {
    |m| == 2 && '0' <= m[0] <= '5' && IsDigit(m[1])
  }

  /** The `slotTime` validator: the whole string is `/^([0-1]?[0-9]|2[0-3]):[0-5][0-9]$/`. */
  predicate SlotTimeValid(t: string) {
    || (|t| == 4 && Hour24(t[..1]) && t[1] == ':' && Minutes(t[2..]))
    || (|t| == 5 && Hour24(t[..2]) && t[2] == ':' && Minutes(t[3..]))
  }

  /** The validator accepts single-digit and padded hours up to 23 and rejects hour 24 and beyond. */
  lemma SlotTimeValidBounds()
    ensures SlotTimeValid("9:05") && SlotTimeValid("09:05") && SlotTimeValid("23:59")
    ensures !SlotTimeValid("24:00") && !SlotTimeValid("25:00") && !SlotTimeValid("12:60") && !SlotTimeValid("123:00")
  {
  }

  /** A calendar day (year, month, day) as the booking flow reads it from the request. */
  datatype CalendarDate = CalendarDate(year: nat, month: nat, day: nat)

  /** The patient profile snapshot copied into an appointment (`userData`). */
  datatype Profile = Profile(name: string, email: string)

  /** The ledger of a doctor: for each raw date string, the time labels already booked. */
  type Ledger = map<string, seq<string>>

  datatype DoctorRecord = DoctorRecord(name: string, email: string, available: bool, fees: int, slotsBooked: Ledger)

  /** A doctor saved with only the required fields: available, fees 0 unless given, an empty ledger. */
  function NewDoctor(name: string, email: string, fees: Option<int>): (d: DoctorRecord)
    ensures d.available && d.slotsBooked == map[]
    ensures d.fees == (if fees.Some? then fees.value else 0)
    ensures d.name == name && d.email == email
  {
    DoctorRecord(name, email, true, if fees.Some? then fees.value else 0, map[])
  }

  /** An appointment of the slot-label flow. `slotKey` is the raw request date string under
      which the booking sits in the doctor's ledger; the source's record does not keep it
      (only the parsed `slotDate`), which is why its cancellation cannot find the slot. */
  datatype LegacyAppointment = LegacyAppointment(
    userId: Id,
    docId: Id,
    slotDate: CalendarDate,
    slotKey: string,
    slotTime: string,
    userData: Profile,
    docData: DoctorRecord,
    amount: int,
    cancelled: bool,
    payment: bool,
    isCompleted: bool)

  /** A saved appointment: `cancelled`, `payment` and `isCompleted` start false. */
  function NewLegacyAppointment(userId: Id, docId: Id, slotDate: CalendarDate, slotKey: string, slotTime: string,
                                userData: Profile, docData: DoctorRecord, amount: int): (a: LegacyAppointment)
    ensures !a.cancelled && !a.payment && !a.isCompleted
    ensures a.userId == userId && a.docId == docId && a.slotTime == slotTime && a.amount == amount
  {
    LegacyAppointment(userId, docId, slotDate, slotKey, slotTime, userData, docData, amount, false, false, false)
  }

  /** Reading a field of a stored appointment by name, as JavaScript destructuring does:
      a name the record does not have reads as `undefined`. */
  function IdField(a: LegacyAppointment, name: string): (r: Option<Id>)
    ensures name == "userId" ==> r == Some(a.userId)
    ensures name == "docId" ==> r == Some(a.docId)
    ensures name != "userId" && name != "docId" ==> r == None
  {
    if name == "userId" then Some(a.userId)
    else if name == "docId" then Some(a.docId)
    else None
  }
}
