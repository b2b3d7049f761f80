# Prescripto hospital management: a verified model of the scheduling core

This project models, in Dafny, the scheduling core of the Prescripto hospital
management system and the smaller rules that surround it. The system books
doctors' time in two independent ways, and both are modelled:

- **The interval calendar** (`src/routes/appointments.js` over
  `src/models/Appointment.js`). An appointment is a range `[startTime, endTime)`
  for one patient and one doctor, with a status of `scheduled`, `completed` or
  `cancelled`.
  - POST refuses a range that a three-clause overlap query finds clashing with
    the doctor's scheduled appointments.
  - PATCH merges new times, notes or status and reruns the query, excluding the
    appointment itself.
  - DELETE soft-cancels.
  - The model states the invariant "no two scheduled appointments of one doctor
    overlap" and proves that every handler keeps it.
- **The slot-label ledger** (`bookAppointment`, `cancelAppointment`,
  `paymentStripe` and `verifyStripe` in `backend/controllers/userController.js`).
  - A doctor keeps `slots_booked`, a map from the raw request date string to the
    list of booked `HH:mm` labels.
  - Dates (`D_M_YYYY` or `YYYY-MM-DD`) and times (24-hour `H:mm` or 12-hour
    `hh:mm am/pm`) are normalised by pure string functions. Booking appends the
    label under the raw date; cancelling filters it out again.

Around these sit:

- the token middleware (Bearer extraction, role gating);
- registration and login;
- the idempotent admin bootstrap;
- medical records and messages, each with its role-scoped listing and ownership
  rules;
- the admin analytics;
- bills and their totals;
- prescriptions, with the doctor-id fallback;
- the error handler's status and message defaults.

How the model is built:

- **Operations that change a store** are methods of a class holding that store:
  - `Appointments.AppointmentBook`;
  - `Users.UserDirectory`;
  - `Records.RecordStore`;
  - `Messages.Mailbox`;
  - `Billing.BillStore`;
  - `Prescriptions.PrescriptionStore`;
  - `SlotLedger.LegacyClinic`.

  Each method's postcondition gives the whole new state and the reply.
- **Validation, filters and normalisers** are functions with named results.
  Lemmas relate them:
  - round trips for dates, times, roles and statuses;
  - the overlap equivalence;
  - invariants kept by each update;
  - counts that add up;
  - symmetric threads.
- **Ids** are abstract naturals compared only for equality. In a store that
  never deletes, a record's id is its position.
- **Instants** are integers.
- **Failures** are `Failure(status, message)`. The `backend` controllers answer
  most failures with status 200 and `{ success: false, message }`, so their
  failures carry status 200.
- **Parameters stand in for outside code:**
  - password hashing and comparison;
  - token verification;
  - the email-format test;
  - the clock.

## Model

| member | source | states |
|---|---|---|
| Common.OrElse | backend/controllers/userController.js:132 | JavaScript `a \|\| b` on optional values: `a` when present, else `b`; present iff either is |
| Listing.Filter | src/routes/appointments.js:50-54 | the result holds exactly the elements satisfying the filter and is no longer than the input |
| Listing.SortBy | src/routes/appointments.js:54 | `.sort({ key: 1 })`: the result is ascending by the key and is a permutation (same multiset) of the input |
| Listing.Count | src/routes/admin.js:18-19 | `countDocuments`: never more than the number of documents |
| Overlap.QueryMatchesIffOverlaps | src/routes/appointments.js:27-31 | for non-empty ranges the three-clause `$or` holds iff the half-open ranges overlap (`s < ne && ns < e`) |
| Overlap.AdjacentRangesDoNotClash | src/routes/appointments.js:28-30 | a range ending where another starts matches the query from neither side |
| Overlap.OverlapsSymmetric | src/routes/appointments.js:88-92 | overlap does not depend on which range is stored; a non-empty range overlaps itself |
| Appointments.ParseStatus | src/routes/appointments.js:65 | accepts exactly the three status names and returns the status with that name |
| Appointments.StatusNameRoundTrip | src/models/Appointment.js:11 | every status name is accepted and read back as that status |
| Appointments.CreateSchemaError | src/routes/appointments.js:9-19 | a 400 exactly when `doctorId`, `startTime` or `endTime` is missing |
| Appointments.ConflictIffOverlap | src/routes/appointments.js:24-32 | on a well-formed store the query finds a clash iff some other scheduled appointment of that doctor overlaps the request; cancelled and completed ones never block |
| Appointments.AddKeepsConflictFree | src/routes/appointments.js:24-41 | appending an appointment the query found no clash for keeps the store well formed and conflict-free |
| Appointments.ReplaceKeepsConflictFree | src/routes/appointments.js:84-97 | replacing appointment `k` by a record the query (excluding `k`) found no clash for keeps the store conflict-free |
| Appointments.ListAppointments | src/routes/appointments.js:48-59 | GET: ascending by start time; holds exactly the caller's own appointments (patient or doctor), all of them for an admin, each as often as it is stored |
| Appointments.AppointmentBook.Create | src/routes/appointments.js:16-46 | POST behind `requireRoles('patient')`: the gate's failure when it refuses (403 for a non-patient, 401 when no stored account has the caller's id and role); then schema 400; 400 when `endTime <= startTime`; 409 iff the query finds a clash; failures leave the store unchanged; success appends exactly one scheduled appointment of the caller; the invariant is kept |
| Appointments.AppointmentBook.Patch | src/routes/appointments.js:68-102 | status 400, 404 for an unknown id, 403 unless the owning patient, owning doctor or an admin; merged range checked for order and for clashes excluding itself; on success only that record changes, to the merge; the invariant is kept |
| Appointments.AppointmentBook.Delete | src/routes/appointments.js:104-118 | 404, the same 403 rule, otherwise only the status becomes `cancelled`, the record kept; repeating it changes nothing further |
| Appointments.OverlapScenario | src/routes/appointments.js:24-33 | adjacent bookings are both accepted, an overlapping one gets 409, and a cancelled range can be booked again |
| Appointments.ReopenScenario | src/routes/appointments.js:61-98 | PATCH has no transition guard: a doctor can complete an appointment and then set it back to scheduled |
| AuthMiddleware.ExtractToken | src/middleware/auth.js:6-7 | a token exists iff the header starts with `Bearer `, and it is the rest of the header |
| AuthMiddleware.BearerRoundTrip | src/middleware/auth.js:6-7 | `Bearer <t>` yields `t` unchanged |
| AuthMiddleware.OtherSchemesRejected | src/middleware/auth.js:6-7 | a header not starting with `Bearer ` yields no token |
| AuthMiddleware.AuthRequired | src/middleware/auth.js:5-18 | no or empty token: 401 `Authentication required` (both directions); a refused token: 401 `Invalid or expired token`; otherwise the verified payload, which always comes from a `Bearer` header |
| AuthMiddleware.RequireRoles | src/middleware/auth.js:20-29 | 401 without a caller, 403 for an unlisted role, 401 when no stored user has that id and role; passes iff all three hold |
| AuthMiddleware.GatePassedMeansAccount | src/middleware/auth.js:24-27 | passing the gate means a stored account holds the caller's id and an allowed role |
| Users.ParseRole | src/models/User.js:11 | accepts exactly the three role names |
| Users.RoleNameRoundTrip | src/routes/auth.js:14 | every role name is accepted and read back as that role |
| Users.Public | src/routes/auth.js:36 | the reply keeps id, name, email and role (and has no hash field) |
| Users.FindByEmail | src/routes/auth.js:24 | finds an account iff one holds the email, and the account found holds it |
| Users.FilterKeepsUnique | src/models/User.js:9 | removing accounts keeps emails and ids unique |
| Users.UserDirectory.Insert | src/routes/auth.js:28-35 | appends exactly one account with the next id, keeping emails and ids unique |
| Users.UserDirectory.Remove | src/routes/admin.js:29 | `findByIdAndDelete`: the remaining accounts are exactly those with another id, in order |
| AuthRoutes.PresenceError | src/routes/auth.js:11-13 | Joi's presence rule: no error iff the string is present and non-empty |
| AuthRoutes.RegisterSchemaError | src/routes/auth.js:10-17 | no error iff name has 2 to 100 characters, the email is valid, the password has at least 6, and the role (if any) is one of the three; every error is 400 |
| AuthRoutes.RequestedRole | src/routes/auth.js:14 | the given role, or `patient` by default |
| AuthRoutes.Register | src/routes/auth.js:19-40 | schema 400; 409 and no change when the email is registered; success iff neither, adding exactly one account with the hashed password and replying with its public fields |
| AuthRoutes.LoginSchemaError | src/routes/auth.js:42-45 | no error iff a valid email and a non-empty password are given |
| AuthRoutes.Login | src/routes/auth.js:47-64 | unknown email and wrong password both give the same 401; with unique emails success iff the account holding the email matches the password |
| AuthRoutes.UniqueEmailOwner | src/routes/auth.js:52-55 | with unique emails the account found by email is the only one holding it |
| Bootstrap.AdminAccount | src/utils/ensureAdmin.js:14-19 | the bootstrap account is named `Administrator`, has role admin and the configured email |
| Bootstrap.EmailCount | src/utils/ensureAdmin.js:9 | zero iff no account holds the email |
| Bootstrap.UniqueEmailCount | src/models/User.js:9 | under the unique index an email is held at most once |
| Bootstrap.EnsureAdminIfConfigured | src/utils/ensureAdmin.js:3-22 | nothing without both settings; nothing when the email exists; otherwise exactly one admin account appended; afterwards the email is held exactly once |
| Bootstrap.BootstrapTwice | src/utils/ensureAdmin.js:9-19 | two runs leave what one run leaves: at most one account added, and the email held exactly once |
| Errors.NotFound | src/middleware/error.js:1-5 | an error with status 404 and message `Not Found` |
| Errors.ErrorHandler | src/middleware/error.js:7-11 | status is `status`, else `statusCode`, else 500 (never 0); the body is `{ error: message }` with `Internal Server Error` as default |
| Errors.HttpError | src/routes/appointments.js:21 | `createError` sets both `status` and `statusCode` and the message |
| Errors.HandlerKeepsFailure | src/middleware/error.js:8-10 | a raised failure reaches the client with its own status and message |
| Errors.UnmatchedRouteReply | src/middleware/error.js:1-10 | an unmatched route is answered 404 `{ error: "Not Found" }` |
| Errors.BareErrorReply | src/middleware/error.js:8-9 | an error without status or message becomes 500 `Internal Server Error` |
| Records.RecordSchemaError | src/routes/records.js:9-19 | no error iff `patientId` is given and the diagnosis has at least 3 characters; every error is 400 |
| Records.ListRecords | src/routes/records.js:33-44 | newest first; exactly the records in the caller's scope (own as patient or doctor, all for admin), each as often as stored |
| Records.PatientRecords | src/routes/records.js:46-61 | 403 iff a patient asks for another patient; otherwise newest first, that patient's records, and for a doctor only their own |
| Records.OwnRecordsAgree | src/routes/records.js:48-51 | a patient's per-patient view equals their GET /records list |
| Records.DoctorViewWithinOwnRecords | src/routes/records.js:52-55 | a doctor's per-patient view is exactly that patient's records in the doctor's own list |
| Records.RecordStore.Create | src/routes/records.js:16-31 | behind `requireRoles('doctor', 'admin')`: the gate's failure when it refuses (403 for a patient, 401 when no stored account has the caller's id and role), then schema 400; success iff neither, with exactly one record appended with the caller as doctor and prescriptions defaulting to empty |
| Messages.SendSchemaError | src/routes/messages.js:9-17 | no error iff `to` is given and the content has 1 to 5000 characters |
| Messages.Thread | src/routes/messages.js:37-51 | oldest first; exactly the messages between the two users in either direction |
| Messages.ThreadSymmetric | src/routes/messages.js:40-45 | either participant gets the same thread |
| Messages.Mailbox.Send | src/routes/messages.js:14-35 | schema 400 or exactly one message appended, from the caller, unread |
| Messages.Mailbox.MarkRead | src/routes/messages.js:53-64 | 404 for an unknown id, 403 unless the caller is the recipient, otherwise only that message's `readAt` is set |
| AdminRoutes.AdminGate | src/routes/admin.js:8 | passes iff the caller is an admin whose account still exists |
| AdminRoutes.UsersByRole | src/routes/admin.js:17 | one entry per role some user holds, with that role's count |
| AdminRoutes.RoleCountsSum | src/routes/admin.js:17 | the three role counts add up to the number of users |
| AdminRoutes.UsersByRoleTotal | src/routes/admin.js:17 | the grouped counts add up to the number of users |
| AdminRoutes.UpcomingCount | src/routes/admin.js:18 | scheduled appointments starting at or after now, at most the store size |
| AdminRoutes.CompletedCount | src/routes/admin.js:19 | completed appointments, at most the store size |
| AdminRoutes.UpcomingAndCompletedDisjoint | src/routes/admin.js:18-19 | the two counts together never exceed the number of appointments |
| AdminRoutes.CancelLowersNoCount | src/routes/admin.js:18-19 | cancelling an appointment never raises either count |
| AdminRoutes.Analytics | src/routes/admin.js:15-26 | gate failure, or the three aggregates |
| AdminRoutes.NewestAccounts | src/routes/admin.js:11 | the listing is a permutation of the accounts' public entries (each as often as stored), newest first, without the hash |
| AdminRoutes.ListUsers | src/routes/admin.js:10-13 | gate failure, or the newest-first listing without hashes |
| AdminRoutes.DeleteUser | src/routes/admin.js:28-31 | gate failure and no change, or success with exactly that account removed (an unknown id also succeeds) |
| Billing.TotalAppend | backend/controllers/billingController.js:10 | the total of two lists put together is the sum of their totals |
| Billing.TotalSingle | backend/controllers/billingController.js:10 | one item totals its amount, a missing amount as 0 |
| Billing.MissingAmountAddsNothing | backend/controllers/billingController.js:10 | an item without an amount leaves the total unchanged wherever it stands |
| Billing.TotalBounds | backend/controllers/billingController.js:10 | with non-negative amounts the total is non-negative and at least every single amount |
| Billing.NewBill | backend/controllers/billingController.js:11 | the stored bill has the computed total, is unpaid, and has currency `INR` unless given |
| Billing.ListBills | backend/controllers/billingController.js:19-30 | newest first; filtered by user only when one is given, everything otherwise |
| Billing.BillStore.CreateBill | backend/controllers/billingController.js:4-17 | 400 without user, type or a non-empty item list; otherwise exactly one bill appended |
| Billing.BillStore.MarkPaid | backend/controllers/billingController.js:32-41 | only `paid` of that bill changes; an unknown id changes nothing and succeeds; repeating is idempotent |
| Prescriptions.ResolveDoctorId | backend/controllers/prescriptionController.js:7 | `body.docId`, else `body.doctorId`, else the authenticated doctor id |
| Prescriptions.ListPrescriptions | backend/controllers/prescriptionController.js:20-32 | newest first; filtered by patient only when `forUserId` is given and by doctor only when `forDoctorId` is given; everything with neither |
| Prescriptions.BothFiltersIntersect | backend/controllers/prescriptionController.js:22-25 | both filters give exactly the intersection of the single-filter lists |
| Prescriptions.PrescriptionStore.CreatePrescription | backend/controllers/prescriptionController.js:4-17 | 400 without doctor id, user, diagnosis or a non-empty medicine array; otherwise exactly one prescription with the resolved doctor appended |
| LegacyModels.SlotTimeValidBounds | backend/models/appointmentModel.js:23-26 | the validator accepts `9:05`, `09:05`, `23:59` and refuses `24:00`, `25:00`, `12:60`, `123:00` |
| LegacyModels.NewDoctor | backend/models/doctorModel.js:12-14 | a new doctor is available, has fees 0 unless given and an empty ledger |
| LegacyModels.NewLegacyAppointment | backend/models/appointmentModel.js:38-40 | `cancelled`, `payment` and `isCompleted` start false |
| LegacyModels.IdField | backend/controllers/userController.js:258 | destructuring a field the record lacks reads `undefined` |
| SlotFormat.Decimal | backend/controllers/userController.js:175 | `String(n)`: one or more digits, a single digit exactly below 10 |
| SlotFormat.DecimalRoundTrip | backend/controllers/userController.js:144 | `Number(String(n)) == n` |
| SlotFormat.PadStart | backend/controllers/userController.js:168 | `padStart` reaches the width unless the string is already longer |
| SlotFormat.PadStartValue | backend/controllers/userController.js:168 | zero padding keeps the value of the digits |
| SlotFormat.TrimStart | backend/controllers/userController.js:164 | the result is a suffix of the input, everything removed is whitespace, and its first character is not |
| SlotFormat.TrimEnd | backend/controllers/userController.js:164 | the result is a prefix of the input, everything removed is whitespace, and its last character is not |
| SlotFormat.Lower | backend/controllers/userController.js:164 | same length, each character lower-cased |
| SlotFormat.CanonicalOfPlain | backend/controllers/userController.js:164 | a string without surrounding space or capitals is already canonical |
| SlotFormat.Match24 | backend/controllers/userController.js:165 | the 24-hour pattern matches iff the `slotTime` validator does, with an hour group of 1 or 2 digits |
| SlotFormat.Match12 | backend/controllers/userController.js:166 | the 12-hour pattern: the hour group found is one that matches, and no match means neither length does |
| SlotFormat.TwelveHourShape | backend/controllers/userController.js:165-166 | `hh:mm am/pm` matches only the 12-hour pattern; the source converts it whatever the hour, the corrected converter only up to hour 12 |
| SlotFormat.From24IsValid | backend/controllers/userController.js:167-168 | a padded 24-hour match satisfies the validator and has 5 characters |
| SlotFormat.From12IsValid | backend/controllers/userController.js:169-175 | a 12-hour match with hour <= 12 converts to a valid padded `HH:mm` |
| SlotFormat.NormalizedTimeIsValid | backend/controllers/userController.js:163-181 | every normalised time is a 5-character `HH:mm` the `slotTime` validator accepts |
| SlotFormat.NormalizeTimeAgreesWithSource | backend/controllers/userController.js:163-181 | the corrected normaliser only rejects: what it accepts, the source turns into the same string |
| SlotFormat.ThirteenAm | backend/controllers/userController.js:169-175 | as written, `13:00 am` is booked as the valid `13:00`; the corrected normaliser rejects it |
| SlotFormat.AsWrittenHourOverflow | backend/controllers/userController.js:169-175 | as written, `13:00 pm` becomes `25:00`, which the validator refuses; the corrected normaliser rejects it |
| SlotFormat.AfternoonTime | backend/controllers/userController.js:169-175 | `02:30 pm` normalises to `14:30` |
| SlotFormat.TwelveAndTwentyFourHourAgree | backend/controllers/userController.js:165-175 | `02:30 pm` and `14:30` normalise to the same `14:30` |
| SlotFormat.NormalizeTimeIdempotent | backend/controllers/userController.js:163-181 | normalising a normalised time gives it back |
| SlotFormat.ValidTimeIsFixed | backend/controllers/userController.js:165-168 | a padded valid `HH:mm` normalises to itself |
| SlotFormat.MatchDmy | backend/controllers/userController.js:143 | a match gives the two `_` positions of a `D_M_YYYY` date |
| SlotFormat.DmyPositions | backend/controllers/userController.js:143 | the `_` of a `D_M_YYYY` date can sit only where the matcher looks for them |
| SlotFormat.MatchDmyComplete | backend/controllers/userController.js:143 | every `D_M_YYYY` date is matched, at its own positions |
| SlotFormat.IsoParse | backend/controllers/userController.js:146-147 | an ISO-shaped string is read by the ISO branch, accepted iff the month is 1-12 and the day 1-31 |
| SlotFormat.IsoDateRoundTrip | backend/controllers/userController.js:146-147 | every valid day written as `YYYY-MM-DD` normalises back to itself |
| SlotFormat.DmyDateRoundTrip | backend/controllers/userController.js:143-145 | every day written as `D_M_YYYY` normalises back to itself |
| SlotFormat.BothDateFormsAgree | backend/controllers/userController.js:143-147 | `12_11_2025` and `2025-11-12` name the same day |
| SlotLedger.Reserve | backend/controllers/userController.js:192-202 | the time is appended under the date, creating the list for a new date; other dates untouched |
| SlotLedger.RemoveAll | backend/controllers/userController.js:264 | every occurrence of the time is removed and everything else kept |
| SlotLedger.Release | backend/controllers/userController.js:262-264 | the date's list loses the time and nothing else; other dates untouched |
| SlotLedger.ReserveKeepsDistinct | backend/controllers/userController.js:192-201 | booking a time not yet listed keeps every list free of duplicates |
| SlotLedger.RemoveAllKeepsDistinct | backend/controllers/userController.js:264 | filtering keeps a list free of duplicates |
| SlotLedger.ReleaseKeepsDistinct | backend/controllers/userController.js:264 | releasing keeps every list free of duplicates |
| SlotLedger.ReleaseUndoesReserve | backend/controllers/userController.js:192-264 | cancelling a booking gives back the ledger it was made on (a new date keeps an empty list) |
| SlotLedger.RawKeysMissEachOther | backend/controllers/userController.js:192-201 | after `12_11_2025` is booked, `2025-11-12`, the same day, still shows the time as free |
| SlotLedger.ParseBooking | backend/controllers/userController.js:132-181 | 400 missing fields iff a field is absent; 400 date iff the date does not normalise; 400 time iff the time does not; otherwise the parsed booking, whose time passes the validator |
| SlotLedger.ReserveFor | backend/controllers/userController.js:197-222 | the booked doctor's ledger gains the normalised time at the end of the list under the raw date; its other dates, its other fields and every other doctor are unchanged |
| SlotLedger.BookedAppointment | backend/controllers/userController.js:204-219 | the saved appointment: patient snapshot, the doctor's record with an empty ledger, amount = fees, parsed date, raw date key, normalised time, flags false |
| SlotLedger.BookingKeepsValid | backend/controllers/userController.js:189-222 | an admitted booking keeps ledgers duplicate-free and stored times valid |
| SlotLedger.StoreRefusal | backend/controllers/userController.js:183-204 | in order: unknown doctor, unavailable doctor, slot taken (normalised or raw time), missing user; none iff the booking is admitted |
| SlotLedger.LegacyClinic.BookAppointment | backend/controllers/userController.js:128-241 | each failure with nothing changed; on success exactly one appointment appended and the time reserved under the raw date; invariants kept |
| SlotLedger.LegacyClinic.CancelAppointment | backend/controllers/userController.js:244-274 | corrected cancel: unknown id or another user's appointment changes nothing; otherwise `cancelled` is saved and the slot released from the list it was booked under |
| SlotLedger.LegacyClinic.PaymentStripe | backend/controllers/userController.js:295-318 | refuses a missing or cancelled appointment, fails without a currency, otherwise one line item of amount × 100 in the lower-cased currency |
| SlotLedger.LegacyClinic.VerifyStripe | backend/controllers/userController.js:335-352 | only `"true"` marks the appointment paid (unknown id: no change, still success); anything else fails with no change |
| SlotLedger.PaymentStripeAsWritten | backend/controllers/userController.js:295-331 | as written, every call fails: missing or cancelled appointment, unset currency, otherwise the `ReferenceError` of the undeclared `stripeInstance` |
| SlotLedger.CancelAsWritten | backend/controllers/userController.js:244-274 | the source's cancel never changes the doctors |
| SlotLedger.CancelAsWrittenNeverReleases | backend/controllers/userController.js:255-264 | as written, an authorised cancel saves `cancelled`, fails, and leaves the slot booked |
| SlotLedger.CheckRegistration | backend/controllers/userController.js:13-31 | `registerUser`'s checks in order: missing details, invalid email, password under 8 characters |

## Left out

- Concurrency. The read-check-write sequences of booking and of the overlap checks race in the deployed system. The model is sequential, and its invariants are proved per operation only.
- Persistence. Mongoose stores are sequences or maps. `populate()` joins, ObjectId cast errors, `timestamps`, and the 201 status of successful creates are not modelled.
- JavaScript `Date`. Instants are integers, so Joi's date conversion is not modelled.
  - SlotFormat.NormalizeDate: a `D_M_YYYY` date is read as written. The day and month rollover of `new Date(y, m - 1, d)` is not modelled.
  - An ISO date is accepted iff its month is 1-12 and its day 1-31.
  - The last-resort `new Date(...)` parse of other strings is not modelled. Such dates are refused.
- Library code is passed in as parameters:
  - email format tests (`validator.isEmail`, Joi `email()`);
  - bcrypt hashing and comparison;
  - JWT verification.

  JWT signing and the returned tokens are not modelled.
- Joi string lengths are counted in characters of `seq<char>`, not UTF-16 code units. Unknown keys in the login body, which Joi refuses, are not modelled, and neither are the optional `specialty` and `dateOfBirth` of registration.
- `src/models/User.js:9` lowercases and trims emails. This is not modelled: emails are compared as given.
- SlotFormat.Lower folds ASCII letters only, and stands for both `toLowerCase` (time input) and `toLocaleLowerCase` (currency).
- Side effects are not modelled:
  - mail after booking, which comes after the reply (it cannot change the result);
  - the socket emit of a sent message;
  - Stripe session creation (SlotLedger.LegacyClinic.PaymentStripe returns the line item it would send; its success URLs are not modelled);
  - Cloudinary;
  - console output.
- Floating point. Amounts are integers: `amount * 100` and bill totals are exact, and `Number(...)` of non-numeric amounts is not modelled.
- `downloadInvoicePdf` (`backend/controllers/billingController.js:43-70`) is PDF layout only.
- Mongoose schema validation of bills and prescriptions (the prescription schemas disagree on the medicine fields). Medicines are a name and a dosage.
- SlotFormat.NormalizeTime: the corrected normaliser refuses every 12-hour time whose hour exceeds 12, `am` as well as `pm`. The source books `13:00 am` to `23:59 am` as the valid `13:00` to `23:59` (SlotFormat.ThirteenAm); the model no longer accepts them.
- The unique index on doctor emails (backend/models/doctorModel.js:5) is not modelled: no modelled operation creates a doctor or changes an email.
- SlotLedger.BookedAppointment: `delete docData.slots_booked` on a Mongoose document is modelled as a doctor snapshot with an empty ledger.
- SlotLedger.CheckRegistration: only the input checks of `registerUser`. Hashing, the save (including a duplicate-email error) and the token (lines 33-47) are not modelled.
- These controller members are not part of this model: `loginUser`, `getProfile`, `updateProfile` and `listAppointment` of `backend/controllers/userController.js`, and GET `/auth/me` (`src/routes/auth.js:66-74`).
- LegacyModels.LegacyAppointment carries `slotKey`, the raw date string the booking was filed under. The source's record keeps only the parsed `slotDate`. The corrected cancel needs the key to find the slot; the as-written cancel ignores it.

## Findings

| source | as written | input that shows it | evidently intended | confidence | as-written member | corrected member |
|---|---|---|---|---|---|---|
| backend/controllers/userController.js:169-175 | the 12-hour branch accepts any one- or two-digit hour and adds 12 for `pm` | `13:00 pm` becomes `25:00`, which the `slotTime` validator (backend/models/appointmentModel.js:25) refuses when the appointment is saved, after the ledger was checked | a 12-hour time has an hour of at most 12, so every normalised time is a valid `HH:mm`; the bound also refuses `13:00 am`, which the source books as `13:00` | not executed | SlotFormat.AsWrittenHourOverflow | SlotFormat.NormalizedTimeIsValid |
| backend/controllers/userController.js:258 | cancel destructures `doctorId`, but the record stores `docId` (backend/models/appointmentModel.js:6) | any authorised cancel: `findById(undefined)` finds no doctor, the `slots_booked` read throws after `cancelled: true` was saved (line 255), and the slot is never released | read `docId` and release the slot under the date it was booked with | not executed | SlotLedger.CancelAsWrittenNeverReleases | SlotLedger.ReleaseUndoesReserve |
| backend/controllers/userController.js:320 | the session request calls `stripeInstance`, but the Stripe client is imported as `stripe` (line 8) | any payable appointment with `CURRENCY` set: the call throws `stripeInstance is not defined` and the reply is a failure | create the session with the imported client and reply with its URL | not executed | SlotLedger.PaymentStripeAsWritten | SlotLedger.LegacyClinic.PaymentStripe |

In every row the corrected definition is the one the rest of the model uses:

- **Time normaliser.** `SlotFormat.NormalizeTime` is the corrected normaliser. `SlotFormat.NormalizeTimeAgreesWithSource` shows that wherever it accepts a time, the source produces the same one. It refuses more than the source: `13:00 pm` to `99:59 pm`, which the source turns into invalid times, and `13:00 am` to `23:59 am`, which the source books.
- **Cancellation.** `SlotLedger.LegacyClinic.CancelAppointment` is the corrected cancellation.
- **Payment.** `SlotLedger.LegacyClinic.PaymentStripe` is the corrected payment, up to the line item it sends.

The model also states three behaviours of the source that it keeps as they are:

- Ledger keys are raw date strings, so two spellings of one day never collide (`SlotLedger.RawKeysMissEachOther`).
- PATCH accepts any status change (`Appointments.ReopenScenario`).
- A repeated DELETE succeeds.
