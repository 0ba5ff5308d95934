/** An in-memory clinic record store: seven tables updated in place, with
    the uniqueness constraints enforced on insert and the declared
    referential actions (cascade, set null) applied on delete. */
module Store {
  import opened Common
  import opened Accounts
  import opened Records

  /** Why a write was refused. */
  datatype StoreError =
    | MissingEmail       // an account needs an email address
    | DuplicateEmail     // email is unique
    | DuplicateKey       // the primary key is already in use
    | MissingReference   // a foreign key names no row
    | DuplicateProfile   // a user has at most one patient and one doctor profile
    | DuplicateLicense   // license number is unique
    | DuplicatePeriod    // one diagnosis history per (patient, month, year)
    | DuplicateSlot      // one appointment per (doctor, date, time)

  class ClinicStore {
    /** The email normalization of the account manager (its code is not part
        of this model, so it is a parameter of the store). */
    const normalizeEmail: string -> string

    var users: map<UserId, User>
    var nextUserId: UserId
    var patients: map<Uuid, Patient>
    var doctors: map<Uuid, Doctor>
    var histories: map<Uuid, DiagnosisHistory>
    var diagnostics: map<Uuid, Diagnostic>
    var labResults: map<Uuid, LabResult>
    var appointments: map<Uuid, Appointment>

    /** Every constraint the schema declares on stored rows. */
    ghost predicate Valid()
      reads this
    {
      && AccountsValid(users, nextUserId)
      && ProfilesValid(users.Keys, patients, doctors)
      && RecordsValid(patients.Keys, doctors.Keys, histories, diagnostics, labResults, appointments)
    }

    /** The profile and clinical tables are as they were. */
    twostate predicate ProfilesUnchanged()
      reads this
    {
      && patients == old(patients) && doctors == old(doctors)
      && RecordsUnchanged()
    }

    /** The four clinical-record tables are as they were. */
    twostate predicate RecordsUnchanged()
      reads this
    {
      && histories == old(histories) && diagnostics == old(diagnostics)
      && labResults == old(labResults) && appointments == old(appointments)
    }

    constructor (normalize: string -> string)
      ensures Valid()
      ensures normalizeEmail == normalize
      ensures users == map[] && nextUserId == 0
      ensures patients == map[] && doctors == map[]
      ensures histories == map[] && diagnostics == map[]
      ensures labResults == map[] && appointments == map[]
    {
      normalizeEmail := normalize;
      users, nextUserId := map[], 0;
      patients, doctors := map[], map[];
      histories, diagnostics, labResults, appointments := map[], map[], map[], map[];
    }

    // ---------------------------------------------------------- accounts

    /** Creates an account: refuses an empty email, normalizes it, refuses
        one already in use, and stores the new account under a fresh id. */
    method CreateUser(email: string, password: Option<string>, extra: UserFields)
      returns (r: Result<UserId, StoreError>)
      requires Valid()
      modifies this
      ensures Valid()
      ensures r.Ok? <==> email != "" && !EmailInUse(old(users), normalizeEmail(email))
      ensures email == "" ==> r == Err(MissingEmail)
      ensures email != "" && EmailInUse(old(users), normalizeEmail(email)) ==> r == Err(DuplicateEmail)
      ensures r.Ok? ==> r.value !in old(users)
      ensures r.Ok? ==> users == old(users)[r.value := NewUser(normalizeEmail(email), password, extra)]
      ensures r.Ok? ==> r.value == old(nextUserId) && nextUserId == old(nextUserId) + 1
      ensures r.Err? ==> users == old(users) && nextUserId == old(nextUserId)
      ensures ProfilesUnchanged()
    {
      if email == "" {
        return Err(MissingEmail);
      }
      var normalized := normalizeEmail(email);
      if EmailInUse(users, normalized) {
        return Err(DuplicateEmail);
      }
      var id := nextUserId;
      NewAccountKeepsAccountsValid(users, id, NewUser(normalized, password, extra));
      NewAccountKeepsProfilesValid(users.Keys, patients, doctors, id);
      assert users[id := NewUser(normalized, password, extra)].Keys == users.Keys + {id};
      users := users[id := NewUser(normalized, password, extra)];
      nextUserId := nextUserId + 1;
      r := Ok(id);
    }

    /** Creates an administrator account: staff, superuser, active and the
        admin role unless the caller passed those keywords. */
    method CreateSuperuser(email: string, password: Option<string>, extra: UserFields)
      returns (r: Result<UserId, StoreError>)
      requires Valid()
      modifies this
      ensures Valid()
      ensures r.Ok? <==> email != "" && !EmailInUse(old(users), normalizeEmail(email))
      ensures email == "" ==> r == Err(MissingEmail)
      ensures email != "" && EmailInUse(old(users), normalizeEmail(email)) ==> r == Err(DuplicateEmail)
      ensures r.Ok? ==> r.value !in old(users)
      ensures r.Ok? ==> users == old(users)[r.value := NewUser(normalizeEmail(email), password, AdminDefaults(extra))]
      ensures r.Ok? ==> r.value == old(nextUserId) && nextUserId == old(nextUserId) + 1
      ensures r.Err? ==> users == old(users) && nextUserId == old(nextUserId)
      ensures ProfilesUnchanged()
    {
      r := CreateUser(email, password, AdminDefaults(extra));
    }

    /** Looks an account up by its login identifier, the email. */
    method FindUserByEmail(email: string) returns (r: Option<UserId>)
      requires Valid()
      ensures r.Some? <==> EmailInUse(users, email)
      ensures r.Some? ==> r.value in users && users[r.value].email == email
      ensures r.Some? ==> forall k :: k in users && users[k].email == email ==> k == r.value
    {
      if EmailInUse(users, email) {
        var k :| k in users && users[k].email == email;
        r := Some(k);
      } else {
        r := None;
      }
    }

    // ---------------------------------------------------------- profiles

    /** Stores a patient profile for an existing account that has none. */
    method CreatePatient(id: Uuid, p: Patient) returns (r: Outcome<StoreError>)
      requires Valid()
      modifies this
      ensures Valid()
      ensures r.Pass? <==> id !in old(patients) && p.user in users && !HasPatientProfile(old(patients), p.user)
      ensures r == Fail(DuplicateKey) ==> id in old(patients)
      ensures r == Fail(MissingReference) ==> p.user !in users
      ensures r == Fail(DuplicateProfile) ==> HasPatientProfile(old(patients), p.user)
      ensures r.Fail? ==> r.error in {DuplicateKey, MissingReference, DuplicateProfile}
      ensures patients == if r.Pass? then old(patients)[id := p] else old(patients)
      ensures users == old(users) && nextUserId == old(nextUserId)
      ensures doctors == old(doctors) && RecordsUnchanged()
    {
      if id in patients {
        return Fail(DuplicateKey);
      }
      if p.user !in users {
        return Fail(MissingReference);
      }
      if HasPatientProfile(patients, p.user) {
        return Fail(DuplicateProfile);
      }
      InsertPatientKeepsProfilesValid(users.Keys, patients, doctors, id, p);
      MoreProfilesKeepRecordsValid(patients.Keys, doctors.Keys, patients[id := p].Keys, doctors.Keys,
        histories, diagnostics, labResults, appointments);
      patients := patients[id := p];
      r := Pass;
    }

    /** Stores a doctor profile for an existing account that has none, under
        a license number no other doctor holds. */
    method CreateDoctor(id: Uuid, d: Doctor) returns (r: Outcome<StoreError>)
      requires Valid()
      modifies this
      ensures Valid()
      ensures r.Pass? <==>
        && id !in old(doctors) && d.user in users && !HasDoctorProfile(old(doctors), d.user)
        && !LicenseInUse(old(doctors), d.licenseNumber)
      ensures r == Fail(DuplicateKey) ==> id in old(doctors)
      ensures r == Fail(MissingReference) ==> d.user !in users
      ensures r == Fail(DuplicateProfile) ==> HasDoctorProfile(old(doctors), d.user)
      ensures r == Fail(DuplicateLicense) ==> LicenseInUse(old(doctors), d.licenseNumber)
      ensures r.Fail? ==> r.error in {DuplicateKey, MissingReference, DuplicateProfile, DuplicateLicense}
      ensures doctors == if r.Pass? then old(doctors)[id := d] else old(doctors)
      ensures users == old(users) && nextUserId == old(nextUserId)
      ensures patients == old(patients) && RecordsUnchanged()
    {
      if id in doctors {
        return Fail(DuplicateKey);
      }
      if d.user !in users {
        return Fail(MissingReference);
      }
      if HasDoctorProfile(doctors, d.user) {
        return Fail(DuplicateProfile);
      }
      if LicenseInUse(doctors, d.licenseNumber) {
        return Fail(DuplicateLicense);
      }
      InsertDoctorKeepsProfilesValid(users.Keys, patients, doctors, id, d);
      MoreProfilesKeepRecordsValid(patients.Keys, doctors.Keys, patients.Keys, doctors[id := d].Keys,
        histories, diagnostics, labResults, appointments);
      doctors := doctors[id := d];
      r := Pass;
    }

    // ---------------------------------------------------------- records

    /** Stores a month's vital signs, unless the patient already has a
        history for that month and year. */
    method CreateDiagnosisHistory(id: Uuid, h: DiagnosisHistory) returns (r: Outcome<StoreError>)
      requires Valid()
      modifies this
      ensures Valid()
      ensures r.Pass? <==>
        && id !in old(histories) && h.patient in patients && (h.doctor.Some? ==> h.doctor.value in doctors)
        && !PeriodRecorded(old(histories), h.patient, h.month, h.year)
      ensures r == Fail(DuplicateKey) ==> id in old(histories)
      ensures r == Fail(MissingReference) ==> h.patient !in patients || (h.doctor.Some? && h.doctor.value !in doctors)
      ensures r == Fail(DuplicatePeriod) ==> PeriodRecorded(old(histories), h.patient, h.month, h.year)
      ensures r.Fail? ==> r.error in {DuplicateKey, MissingReference, DuplicatePeriod}
      ensures histories == if r.Pass? then old(histories)[id := h] else old(histories)
      ensures users == old(users) && nextUserId == old(nextUserId)
      ensures patients == old(patients) && doctors == old(doctors)
      ensures diagnostics == old(diagnostics) && labResults == old(labResults) && appointments == old(appointments)
    {
      if id in histories {
        return Fail(DuplicateKey);
      }
      if h.patient !in patients || (h.doctor.Some? && h.doctor.value !in doctors) {
        return Fail(MissingReference);
      }
      if PeriodRecorded(histories, h.patient, h.month, h.year) {
        return Fail(DuplicatePeriod);
      }
      InsertHistoryKeepsRecordsValid(patients.Keys, doctors.Keys, histories, diagnostics, labResults, appointments, id, h);
      histories := histories[id := h];
      r := Pass;
    }
 
    /** Stores a diagnosis for an existing patient (and doctor, if any). */
    method CreateDiagnostic(id: Uuid, g: Diagnostic) returns (r: Outcome<StoreError>)
      requires Valid()
      modifies this
      ensures Valid()
      ensures r.Pass? <==> id !in old(diagnostics) && g.patient in patients && (g.doctor.Some? ==> g.doctor.value in doctors)
      ensures r == Fail(DuplicateKey) ==> id in old(diagnostics)
      ensures r == Fail(MissingReference) ==> g.patient !in patients || (g.doctor.Some? && g.doctor.value !in doctors)
      ensures r.Fail? ==> r.error in {DuplicateKey, MissingReference}
      ensures diagnostics == if r.Pass? then old(diagnostics)[id := g] else old(diagnostics)
      ensures users == old(users) && nextUserId == old(nextUserId)
      ensures patients == old(patients) && doctors == old(doctors)
      ensures histories == old(histories) && labResults == old(labResults) && appointments == old(appointments)
    {
      if id in diagnostics {
        return Fail(DuplicateKey);
      }
      if g.patient !in patients || (g.doctor.Some? && g.doctor.value !in doctors) {
        return Fail(MissingReference);
      }
      InsertDiagnosticKeepsRecordsValid(patients.Keys, doctors.Keys, histories, diagnostics, labResults, appointments, id, g);
      diagnostics := diagnostics[id := g];
      r := Pass;
    }

    /** Stores a lab result for an existing patient (and doctor, if any). */
    method CreateLabResult(id: Uuid, l: LabResult) returns (r: Outcome<StoreError>)
      requires Valid()
      modifies this
      ensures Valid()
      ensures r.Pass? <==> id !in old(labResults) && l.patient in patients && (l.doctor.Some? ==> l.doctor.value in doctors)
      ensures r == Fail(DuplicateKey) ==> id in old(labResults)
      ensures r == Fail(MissingReference) ==> l.patient !in patients || (l.doctor.Some? && l.doctor.value !in doctors)
      ensures r.Fail? ==> r.error in {DuplicateKey, MissingReference}
      ensures labResults == if r.Pass? then old(labResults)[id := l] else old(labResults)
      ensures users == old(users) && nextUserId == old(nextUserId)
      ensures patients == old(patients) && doctors == old(doctors)
      ensures histories == old(histories) && diagnostics == old(diagnostics) && appointments == old(appointments)
    {
      if id in labResults {
        return Fail(DuplicateKey);
      }
      if l.patient !in patients || (l.doctor.Some? && l.doctor.value !in doctors) {
        return Fail(MissingReference);
      }
      InsertLabResultKeepsRecordsValid(patients.Keys, doctors.Keys, histories, diagnostics, labResults, appointments, id, l);
      labResults := labResults[id := l];
      r := Pass;
    }

    /** Books an appointment, unless its doctor is already booked at that
        date and time. */
    method CreateAppointment(id: Uuid, a: Appointment) returns (r: Outcome<StoreError>)
      requires Valid()
      modifies this
      ensures Valid()
      ensures r.Pass? <==>
        && id !in old(appointments) && a.patient in patients && a.doctor in doctors
        && !SlotTaken(old(appointments), a.doctor, a.date, a.time)
      ensures r == Fail(DuplicateKey) ==> id in old(appointments)
      ensures r == Fail(MissingReference) ==> a.patient !in patients || a.doctor !in doctors
      ensures r == Fail(DuplicateSlot) ==> SlotTaken(old(appointments), a.doctor, a.date, a.time)
      ensures r.Fail? ==> r.error in {DuplicateKey, MissingReference, DuplicateSlot}
      ensures appointments == if r.Pass? then old(appointments)[id := a] else old(appointments)
      ensures users == old(users) && nextUserId == old(nextUserId)
      ensures patients == old(patients) && doctors == old(doctors)
      ensures histories == old(histories) && diagnostics == old(diagnostics) && labResults == old(labResults)
    {
      if id in appointments {
        return Fail(DuplicateKey);
      }
      if a.patient !in patients || a.doctor !in doctors {
        return Fail(MissingReference);
      }
      if SlotTaken(appointments, a.doctor, a.date, a.time) {
        return Fail(DuplicateSlot);
      }
      InsertAppointmentKeepsRecordsValid(patients.Keys, doctors.Keys, histories, diagnostics, labResults, appointments, id, a);
      appointments := appointments[id := a];
      r := Pass;
    }

    // ---------------------------------------------------------- deletes

    /** Deletes the patient profiles `P` and the doctor profiles `D` with
        everything that depends on them. */
    method Collect(P: set<Uuid>, D: set<Uuid>)
      requires Valid()
      modifies this
      ensures Valid()
      ensures users == old(users) && nextUserId == old(nextUserId)
      ensures patients == old(patients) - P && doctors == old(doctors) - D
      ensures histories == HistoriesAfterDelete(old(histories), P, D)
      ensures diagnostics == DiagnosticsAfterDelete(old(diagnostics), P, D)
      ensures labResults == LabResultsAfterDelete(old(labResults), P, D)
      ensures appointments == AppointmentsAfterDelete(old(appointments), P, D)
    {
      DeleteKeepsProfilesValid(users.Keys, patients, doctors, P, D, {});
      DeleteKeepsRecordsValid(patients.Keys, doctors.Keys, histories, diagnostics, labResults, appointments, P, D);
      assert users.Keys - {} == users.Keys;
      assert (patients - P).Keys == patients.Keys - P && (doctors - D).Keys == doctors.Keys - D;
      patients := patients - P;
      doctors := doctors - D;
      histories := HistoriesAfterDelete(histories, P, D);
      diagnostics := DiagnosticsAfterDelete(diagnostics, P, D);
      labResults := LabResultsAfterDelete(labResults, P, D);
      appointments := AppointmentsAfterDelete(appointments, P, D);
    }

    /** Deletes a patient together with its histories, diagnoses, lab results
        and appointments; reports whether the patient existed. */
    method DeletePatient(id: Uuid) returns (found: bool)
      requires Valid()
      modifies this
      ensures Valid()
      ensures found == (id in old(patients))
      ensures users == old(users) && nextUserId == old(nextUserId)
      ensures found ==>
        && patients == old(patients) - {id} && doctors == old(doctors)
        && histories == HistoriesAfterDelete(old(histories), {id}, {})
        && diagnostics == DiagnosticsAfterDelete(old(diagnostics), {id}, {})
        && labResults == LabResultsAfterDelete(old(labResults), {id}, {})
        && appointments == AppointmentsAfterDelete(old(appointments), {id}, {})
      ensures !found ==> ProfilesUnchanged()
    {
      found := id in patients;
      if found {
        Collect({id}, {});
      }
    }

    /** Deletes a doctor: its appointments go with it, while its histories,
        diagnoses and lab results stay with no doctor; reports whether the
        doctor existed. */
    method DeleteDoctor(id: Uuid) returns (found: bool)
      requires Valid()
      modifies this
      ensures Valid()
      ensures found == (id in old(doctors))
      ensures users == old(users) && nextUserId == old(nextUserId)
      ensures found ==>
        && doctors == old(doctors) - {id} && patients == old(patients)
        && histories == HistoriesAfterDelete(old(histories), {}, {id})
        && diagnostics == DiagnosticsAfterDelete(old(diagnostics), {}, {id})
        && labResults == LabResultsAfterDelete(old(labResults), {}, {id})
        && appointments == AppointmentsAfterDelete(old(appointments), {}, {id})
      ensures !found ==> ProfilesUnchanged()
    {
      found := id in doctors;
      if found {
        Collect({}, {id});
      }
    }

    /** Deletes an account together with its patient and doctor profiles,
        and everything that depends on them; reports whether it existed. */
    method DeleteUser(id: UserId) returns (found: bool)
      requires Valid()
      modifies this
      ensures Valid()
      ensures found == (id in old(users))
      ensures users == old(users) - {id} && nextUserId == old(nextUserId)
      ensures patients == old(patients) - PatientProfilesOf(old(patients), id)
      ensures doctors == old(doctors) - DoctorProfilesOf(old(doctors), id)
      ensures histories == HistoriesAfterDelete(old(histories),
        PatientProfilesOf(old(patients), id), DoctorProfilesOf(old(doctors), id))
      ensures diagnostics == DiagnosticsAfterDelete(old(diagnostics),
        PatientProfilesOf(old(patients), id), DoctorProfilesOf(old(doctors), id))
      ensures labResults == LabResultsAfterDelete(old(labResults),
        PatientProfilesOf(old(patients), id), DoctorProfilesOf(old(doctors), id))
      ensures appointments == AppointmentsAfterDelete(old(appointments),
        PatientProfilesOf(old(patients), id), DoctorProfilesOf(old(doctors), id))
    {
      found := id in users;
      var P := PatientProfilesOf(patients, id);
      var D := DoctorProfilesOf(doctors, id);
      DeleteKeepsProfilesValid(users.Keys, patients, doctors, P, D, {id});
      Collect(P, D);
      assert (users - {id}).Keys == users.Keys - {id};
      users := users - {id};
    }
  }
}
