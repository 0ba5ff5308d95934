# Clinic records schema — a Dafny model

This project models the data layer of a clinic management backend: the
account manager that creates users and administrators, the patient and
doctor profiles attached to accounts, and the four kinds of clinical
record (monthly diagnosis histories, diagnoses, lab results and
appointments). It covers:

- the choice enumerations stored as short code strings;
- the field validators (integer bounds, the phone-number pattern);
- a patient's age, computed from the date of birth;
- the uniqueness rules: email, one profile of each kind per account,
  license number, one history per patient, month and year, one appointment per
  doctor and slot;
- the referential actions taken on delete: a deleted patient takes its
  records with it, a deleted doctor leaves its histories, diagnoses and
  lab results in place with the doctor cleared, and appointments go with
  either side.

Modules, one per file:

- `Common` (`common.dfy`): `Option`, `Result` and `Outcome`.
- `Choices` (`choices.dfy`): one datatype per choice list, with its code
  function and a parser proved to be its inverse.
- `Validation` (`validation.dfy`): the min/max validators, a function that
  runs a validator list, the bounds of each integer field, and the phone
  pattern. The pattern is given twice: as a direct definition
  (`PhonePattern`, one disjunct per choice of the optional `+` and `1`)
  and as an executable check (`PhoneMatches`). A lemma proves the two
  equal.
- `Dates` (`dates.dfy`): calendar dates and the age computation. `Age` is
  specified by "the number of anniversaries reached".
- `Accounts` (`accounts.dfy`): the account row, the keyword arguments of
  account creation, and the administrator defaults.
- `Records` (`records.dfy`): the profile and record rows, their
  uniqueness and reference invariants, and the tables left after a
  delete. It also holds the lemmas that each insert and each delete keeps
  the invariants.
- `Store` (`store.dfy`): `ClinicStore`, a class whose map fields are the
  tables. Its methods insert rows under the database constraints and
  delete accounts and profiles with the declared cascades. Every method
  preserves `Valid()`.
- `Scenarios` (`scenarios.dfy`): short client methods that use the
  store's contracts alone. They check an empty and a duplicate email, a
  double-booked slot, a duplicate monthly history, and a lab result that
  outlives its doctor but not its patient.

Storing a row does not run the field validators: the framework runs them
only on explicit full validation, never on save. The store therefore
enforces only the rules the database enforces (keys, references,
uniqueness). Every column that declares a choice list stores its code as a
plain `string`, so a row with a code outside the list can be stored, as
it can in the database. The column checks of full validation are a
separate predicate per row kind (`UserFieldsValid`, `PatientFieldsValid`,
`DoctorFieldsValid`, `HistoryFieldsValid`, `DiagnosticFieldsValid`,
`LabResultFieldsValid`, `AppointmentFieldsValid`). They cover the row's
own columns: the bound validators, the phone pattern and the choice
lists. Lemmas state exactly which rows pass these column checks. Full
validation also checks each reference and the uniqueness rules; those
are not part of these predicates (see "Left out"). The `New...` row
builders fill in the declared column defaults.

Framework behaviour that the model writes out, and which is not part of
the repository's own code:

- the column defaults of an account: not staff, not superuser, active,
  and empty names, phone and user type;
- `set_password(None)` makes the password unusable;
- keys of the account table are issued in increasing order;
- a primary key that is already in use, a missing referenced row or a
  violated unique constraint refuses the insert and changes nothing.

## Model

| member | source | states |
|---|---|---|
| Store.ClinicStore.CreateUser | backend/app/models.py:12-19 | Succeeds exactly when the email is non-empty and its normalized form is not already in use (email is unique, line 42). The empty email gives `MissingEmail` and a taken email gives `DuplicateEmail`. On success, the one new account is stored under a fresh id with the normalized email and the caller's fields. It has a usable password exactly when one was given. Nothing else changes, and the store invariant is kept. |
| Store.ClinicStore.CreateSuperuser | backend/app/models.py:21-27 | Same outcome as account creation, with the account built from the administrator defaults of the caller's fields. |
| Accounts.AdminDefaults | backend/app/models.py:21-25 | `is_staff`, `is_superuser` and `is_active` become true, and `user_type` becomes "admin", only where the caller passed no value. Values the caller passed are kept unchanged, as are names and phone. |
| Accounts.AdminDefaultsIdempotent | backend/app/models.py:21-25 | Applying the defaults twice is the same as applying them once. |
| Accounts.SuperuserFlags | backend/app/models.py:21-27 | An administrator created without keyword arguments is an active staff superuser whose user type parses to admin. A caller-supplied `is_staff=False` survives. |
| Store.ClinicStore.FindUserByEmail | backend/app/models.py:58 | Finds an account exactly when one has that email. The account found has it, and by email uniqueness it is the only one. |
| Store.ClinicStore.CreatePatient | backend/app/models.py:99-105 | Succeeds exactly when the key is new, the account exists and the account has no patient profile (one-to-one). Each refusal names a rule that is violated. On success only the patient table gains the row. |
| Store.ClinicStore.CreateDoctor | backend/app/models.py:170-182 | As for patients, and in addition the license number must not be held by another doctor (unique). Each refusal names a violated rule. |
| Store.ClinicStore.CreateDiagnosisHistory | backend/app/models.py:321-326 | Succeeds exactly when the key is new, the patient exists, any doctor named exists, and the patient has no history for that month and year. Each refusal names a violated rule. On success only the history table gains the row. |
| Store.ClinicStore.CreateDiagnostic | backend/app/models.py:344-358 | Succeeds exactly when the key is new and the patient and any doctor named exist. On success only the diagnosis table gains the row. |
| Store.ClinicStore.CreateLabResult | backend/app/models.py:396-410 | Succeeds exactly when the key is new and the patient and any doctor named exist. On success only the lab-result table gains the row. |
| Store.ClinicStore.CreateAppointment | backend/app/models.py:505-510 | Succeeds exactly when the key is new, patient and doctor exist, and that doctor has no appointment at that date and time. Each refusal names a violated rule. On success only the appointment table gains the row. |
| Store.ClinicStore.DeletePatient | backend/app/models.py:230-235 | Reports whether the patient existed. If so, it is removed, and so are its histories, diagnoses, lab results and appointments (cascade at lines 345-350, 397-402, 465-470). The other rows are untouched, and the invariant is kept. |
| Store.ClinicStore.DeleteDoctor | backend/app/models.py:236-243 | Reports whether the doctor existed. If so, it is removed and its appointments are removed (cascade at lines 471-476). Its histories, diagnoses and lab results remain with no doctor (set null at lines 351-358, 403-410). The invariant is kept. |
| Store.ClinicStore.DeleteUser | backend/app/models.py:100-105 | Removes the account and, by cascade, its patient and doctor profiles (also lines 171-176). Then every record follows the rules of both profile deletions at once. The invariant is kept. |
| Store.ClinicStore.Collect | backend/app/models.py:230-243 | Removing a set of patient and doctor profiles leaves each record table as its delete function describes, and keeps the invariant. |
| Records.HistoriesAfterDeleteRows | backend/app/models.py:230-243 | After deleting patients P and doctors D, a history survives exactly when its patient is not in P. No survivor names a doctor in D. A survivor differs from its old row at most in a doctor that was in D, which is cleared. |
| Records.DiagnosticsAfterDeleteRows | backend/app/models.py:345-358 | The same for diagnoses. |
| Records.LabResultsAfterDeleteRows | backend/app/models.py:397-410 | The same for lab results. |
| Records.AppointmentsAfterDeleteRows | backend/app/models.py:465-476 | An appointment survives exactly when neither its patient is in P nor its doctor in D, and survivors are unchanged. |
| Records.DeleteKeepsRecordsValid | backend/app/models.py:230-243 | After deletes, every remaining record names only remaining profiles. The period and slot constraints still hold. |
| Records.DeleteKeepsProfilesValid | backend/app/models.py:100-105 | Deleting profiles, and accounts left without profiles, keeps the one-to-one, reference and license rules. |
| Records.HistoryDeletesCommute | backend/app/models.py:230-243 | Deleting a patient and then a doctor leaves the same histories as the other order, and as deleting both together. |
| Records.AppointmentDeletesCommute | backend/app/models.py:465-476 | The same for appointments. |
| Records.LabResultFollowsDeletes | backend/app/models.py:397-410 | A lab result survives its doctor's deletion with the doctor cleared, and disappears with its patient. |
| Records.InsertHistoryKeepsRecordsValid | backend/app/models.py:321-326 | A history for existing profiles in an unrecorded period keeps the record invariant. |
| Records.InsertAppointmentKeepsRecordsValid | backend/app/models.py:505-510 | An appointment for existing profiles in a free slot keeps the record invariant. |
| Records.InsertDoctorKeepsProfilesValid | backend/app/models.py:171-182 | A doctor profile for an account without one, under an unused license, keeps the profile invariant. |
| Records.InsertPatientKeepsProfilesValid | backend/app/models.py:100-105 | A patient profile for an account without one keeps the profile invariant. |
| Records.NewAccountKeepsAccountsValid | backend/app/models.py:42 | A new account with an unused email under the next id keeps the ids below the counter and the emails unique. |
| Records.DoctorFieldsInRange | backend/app/models.py:177-188 | A doctor passes the column checks of full validation exactly when the years of experience are at most 70 and the specialization is one of the listed codes. |
| Records.UserFieldsExactly | backend/app/models.py:43-53 | An account passes the column checks of full validation exactly when its phone number is blank or matches the phone pattern, and its user type is one of the listed codes. |
| Records.PatientFieldsExactly | backend/app/models.py:106-119 | A patient passes the column checks of full validation exactly when its emergency contact is blank or matches the phone pattern, and its gender and insurance are listed codes. |
| Accounts.NewUser | backend/app/models.py:16-17 | The account stores the email as given. Each keyword the caller passed is kept; each one not passed takes the column default (empty strings, not staff, not superuser, active). The password is usable exactly when one was given. |
| Records.NewPatient | backend/app/models.py:106-119 | A patient built from its required columns gets no emergency contact and insurance "private". It passes the column checks of full validation exactly when its gender is a listed code. |
| Records.NewDoctor | backend/app/models.py:177-189 | A doctor built from its required columns gets no biography, 0 years of experience and accepts new patients. It passes the column checks of full validation exactly when its specialization is a listed code. |
| Records.NewHistory | backend/app/models.py:244-308 | A history built from its measurements gets level "normal" for every vital sign. It passes the column checks of full validation exactly when each integer measurement lies in its declared range. |
| Records.NewDiagnostic | backend/app/models.py:359-367 | A diagnosis gets status "active", no description and no date, and passes the column checks of full validation. |
| Records.NewLabResult | backend/app/models.py:411-423 | A lab result gets status "pending" and blank optional columns, and passes the column checks of full validation. |
| Records.NewAppointment | backend/app/models.py:477-492 | An appointment gets type "check_up" and status "scheduled" with no reason or notes, and passes the column checks of full validation. |
| Records.HistoryFieldsInRange | backend/app/models.py:245-308 | A history passes the column checks of full validation exactly when year is in 1900..2100, systolic in 50..250, diastolic in 30..150, heart rate in 30..220 and respiratory rate in 5..60, and each of its five levels is a listed code. |
| Validation.RunValidators | backend/app/models.py:245-248 | The validators reported as failing are exactly those of the list that reject the value, so the list is empty exactly when every validator accepts. |
| Validation.AcceptedRange | backend/app/models.py:184-289 | An integer field accepts a value exactly when it lies between the field's lower and upper bound. Those bounds are the declared ones. Years of experience declares no minimum, so its positive-integer column type supplies 0. The other columns declare a minimum of their own and get no extra validator. |
| Validation.RangeEnds | backend/app/models.py:184-289 | Both bounds of every integer field (years of experience, lines 184-188; year and the four vital signs, lines 245-289) are accepted, and the values just outside are rejected. |
| Validation.PhoneMatchesPattern | backend/app/models.py:44-47 | The executable check agrees with the pattern on every string: an optional `+`, an optional `1`, then 9 to 15 digits, anchored at both ends. |
| Validation.PhonePatternLength | backend/app/models.py:44-47 | A string matching the pattern has 9 to 17 characters. |
| Validation.PhoneFieldIsPattern | backend/app/models.py:48-53 | The phone field accepts the empty string (blank) or a string matching the pattern. The length limit of 17 never rejects a match. |
| Validation.PhoneDigitCounts | backend/app/models.py:44-47 | Eight digits are rejected. A `+` followed by nine digits is accepted. Sixteen digits are accepted when the first is `1`, although the validator's message speaks of at most 15; sixteen starting with another digit are rejected. Seventeen digits are rejected. |
| Records.Patient.AgeOn | backend/app/models.py:141-147 | A patient's age on a given date is the last birthday reached: that anniversary of the birth date has come and the next has not. It is never negative once the patient is born. |
| Dates.Age | backend/app/models.py:141-147 | The age is an anniversary already reached on `today`, and the next one is not yet reached. |
| Dates.AgeUnique | backend/app/models.py:141-147 | Any number of years with that property equals the age. |
| Dates.AgeNonNegative | backend/app/models.py:141-147 | The age is never negative when `today` is not before the birth date. |
| Dates.AgeMonotone | backend/app/models.py:141-147 | A later date never gives a smaller age. |
| Dates.AgeAroundBirthday | backend/app/models.py:141-147 | Someone born 2000-06-15 is 23 on 2024-06-14 and 24 on 2024-06-15. |
| Choices.ParseUserType | backend/app/models.py:35-39 | A string is a stored user-type code exactly when it parses, and it parses back to the value whose code it is. |
| Choices.ParseGender | backend/app/models.py:85-89 | The same for gender codes. |
| Choices.ParseInsurance | backend/app/models.py:91-97 | The same for insurance codes. |
| Choices.ParseSpecialization | backend/app/models.py:155-168 | The same for specialization codes. |
| Choices.ParseLevel | backend/app/models.py:221-227 | The same for vital-sign level codes. |
| Choices.ParseDiagnosticStatus | backend/app/models.py:336-342 | The same for diagnosis status codes. |
| Choices.ParseLabStatus | backend/app/models.py:389-394 | The same for lab-result status codes. |
| Choices.ParseAppointmentStatus | backend/app/models.py:446-452 | The same for appointment status codes. |
| Choices.ParseAppointmentType | backend/app/models.py:454-462 | The same for appointment type codes. |
| Choices.CodesFitColumns | backend/app/models.py:43-488 | Every code fits the `max_length` of its column: user type 10 (line 43), gender 1 (line 106), insurance 20 (line 116), specialization 50 (line 179), the five levels 25 (lines 257-305), diagnosis status 20 (line 363), lab status 20 (line 417), appointment type 20 (line 481) and appointment status 20 (line 488). |

## Left out

- The admin site registration, views, serializers and URL routing are not part of this model.
- `normalize_email` is a function-valued parameter of the store. Its code belongs to the framework.
- Password hashing is left out. An account records only whether its password is usable.
- Display and naming helpers are left out: full name, display labels, `__str__`, `name` and `get_absolute_url`. They format text and change no state.
- `Patient.age` reads the system clock. Here the current date is a parameter (`Patient.AgeOn`, `Dates.Age`).
- UUID primary keys are random. Here the caller chooses them, and a key already in use is refused.
- Creation and update timestamps (`auto_now_add`, `auto_now`) come from the clock and are not stored.
- The temperature bounds (95.0 to 108.0) are on a floating-point column. The value is kept as a `real`, but its validator is not modelled.
- `profile_picture` is not modelled. It is a URL column with no rule beyond the URL format.
- The email format check of `EmailField` is not modelled. Only non-emptiness and uniqueness are.
- `limit_choices_to` on the two profile links is not modelled. Forms and full validation apply it; saving does not, and neither does the database. So the store lets a patient profile belong to an account of any user type.
- The `...FieldsValid` predicates check only a row's own columns. Two parts of full validation are left out of them; the store enforces both on insert:
  - the reference check on each foreign key: the referenced row exists, and for the two profile links its user type is the one `limit_choices_to` names;
  - the uniqueness checks: one profile of each kind per account, unique license, unique period, unique slot.
- Full validation also checks required non-blank columns and `max_length` on free-text columns; neither is modelled.
- Storing a row checks no column width and no integer range. A code longer than its choice column (gender "XX" into a width of 1), a phone value longer than 17 characters, or an integer outside the positive-integer column range is stored. A database that enforces column types refuses these.
- Meta ordering and indexes affect query order and speed only, and are left out. Histories are listed newest first by year and then by month as text (descending), so within one year "January" is listed before "February".
- The phone pattern is modelled over ASCII digits. The regular-expression engine's Unicode digits, and its `$` that also matches before a final newline, are not modelled.
- Updates of existing rows are not modelled. Neither are deletes of single records (histories, diagnoses, lab results, appointments), which have nothing that depends on them.
- Transactions, concurrency and database connections are left out. The store applies each operation atomically.
- A refused account insert does not advance the account counter, whereas a database sequence may skip a value.
- Store.ClinicStore.CreatePatient: when several rules are violated at once, the contract promises only that the reported error names one of them. The database's own order of checks is not modelled.
- Store.ClinicStore.CreateDoctor: when several rules are violated at once, the contract promises only that the reported error names one of them. The database's own order of checks is not modelled.
- Store.ClinicStore.CreateDiagnosisHistory: when several rules are violated at once, the contract promises only that the reported error names one of them. The database's own order of checks is not modelled.
- Store.ClinicStore.CreateDiagnostic: when several rules are violated at once, the contract promises only that the reported error names one of them. The database's own order of checks is not modelled.
- Store.ClinicStore.CreateLabResult: when several rules are violated at once, the contract promises only that the reported error names one of them. The database's own order of checks is not modelled.
- Store.ClinicStore.CreateAppointment: when several rules are violated at once, the contract promises only that the reported error names one of them. The database's own order of checks is not modelled.
