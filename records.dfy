/** The rows of the clinic's tables, the uniqueness and reference rules that
    hold between them, and what deleting patients and doctors does to each
    table of clinical records. */
module Records {
  import opened Common
  import opened Choices
  import opened Dates
  import opened Validation
  import opened Accounts

  // Every column that declares a choice list stores its code as a plain
  // string: storing a row never checks the code against the list, only full
  // validation does (see the `...FieldsValid` predicates below).

  /** A surrogate primary key drawn at random when a row is created; the
      model treats it as an opaque value chosen by the caller. */
  type Uuid = nat

  /** The auto-incremented primary key of an account. */
  type UserId = nat

  datatype Patient = Patient(
    user: UserId,
    gender: string,
    dateOfBirth: Date,
    emergencyContact: string,
    insurance: string)
  {
    /** The patient's age on `today` (the current date is an input here):
        the last birthday reached, never negative once the patient is
        born. */
    function AgeOn(today: Date): (age: int)
      ensures Reached(dateOfBirth, today, age) && !Reached(dateOfBirth, today, age + 1)
      ensures !Before(today, dateOfBirth) ==> age >= 0
    {
      if Before(today, dateOfBirth) then Age(dateOfBirth, today)
      else AgeNonNegative(dateOfBirth, today); Age(dateOfBirth, today)
    }
  }

  datatype Doctor = Doctor(
    user: UserId,
    specialization: string,
    licenseNumber: string,
    biography: string,
    yearsOfExperience: nat,
    acceptingNewPatients: bool)

  /** One month's vital signs for a patient. The temperature is kept but its
      floating-point bounds are not modelled. */
  datatype DiagnosisHistory = DiagnosisHistory(
    patient: Uuid,
    doctor: Option<Uuid>,
    month: string,
    year: nat,
    systolic: nat,
    systolicLevel: string,
    diastolic: nat,
    diastolicLevel: string,
    heartRate: nat,
    heartRateLevel: string,
    respiratoryRate: nat,
    respiratoryRateLevel: string,
    temperature: real,
    temperatureLevel: string)

  datatype Diagnostic = Diagnostic(
    patient: Uuid,
    doctor: Option<Uuid>,
    name: string,
    description: string,
    status: string,
    diagnosedDate: Option<Date>)

  datatype LabResult = LabResult(
    patient: Uuid,
    doctor: Option<Uuid>,
    name: string,
    resultValue: string,
    resultUnit: string,
    referenceRange: string,
    status: string,
    performedDate: Date,
    reportedDate: Option<Date>,
    notes: string)

  datatype Appointment = Appointment(
    patient: Uuid,
    doctor: Uuid,
    date: Date,
    time: Time,
    kind: string,
    reason: string,
    status: string,
    notes: string)

  // ------------------------------------------------------ field validation
  // Each predicate is the part of full validation that looks at a row's own
  // columns; the reference and uniqueness checks are the store's.

  /** An account row's columns: the phone number and the user type code. */
  predicate UserFieldsValid(u: User) {
    PhoneFieldAccepts(u.phoneNumber) && ParseUserType(u.userType).Some?
  }

  /** A patient row's columns: the emergency contact and the gender and
      insurance codes. */
  predicate PatientFieldsValid(p: Patient) {
    && PhoneFieldAccepts(p.emergencyContact)
    && ParseGender(p.gender).Some?
    && ParseInsurance(p.insurance).Some?
  }

  /** A doctor row's columns: the years of experience and the
      specialization code. */
  predicate DoctorFieldsValid(d: Doctor) {
    Accepts(YearsOfExperience, d.yearsOfExperience) && ParseSpecialization(d.specialization).Some?
  }

  /** A diagnosis history's columns: the year, the four integer vital signs
      and the five level codes. */
  predicate HistoryFieldsValid(h: DiagnosisHistory) {
    && Accepts(Year, h.year)
    && Accepts(SystolicValue, h.systolic)
    && Accepts(DiastolicValue, h.diastolic)
    && Accepts(HeartRateValue, h.heartRate)
    && Accepts(RespiratoryRateValue, h.respiratoryRate)
    && ParseLevel(h.systolicLevel).Some?
    && ParseLevel(h.diastolicLevel).Some?
    && ParseLevel(h.heartRateLevel).Some?
    && ParseLevel(h.respiratoryRateLevel).Some?
    && ParseLevel(h.temperatureLevel).Some?
  }

  /** A diagnosis's columns: its status code. */
  predicate DiagnosticFieldsValid(g: Diagnostic) {
    ParseDiagnosticStatus(g.status).Some?
  }

  /** A lab result's columns: its status code. */
  predicate LabResultFieldsValid(l: LabResult) {
    ParseLabStatus(l.status).Some?
  }

  /** An appointment's columns: its type and status codes. */
  predicate AppointmentFieldsValid(a: Appointment) {
    ParseAppointmentType(a.kind).Some? && ParseAppointmentStatus(a.status).Some?
  }

  /** An account passes the column checks exactly when its phone number is
      blank or matches the phone pattern and its user type is a listed
      code. */
  lemma UserFieldsExactly(u: User)
    ensures UserFieldsValid(u) <==>
      (u.phoneNumber == "" || PhonePattern(u.phoneNumber)) && exists t :: UserTypeCode(t) == u.userType
  {
    PhoneFieldIsPattern(u.phoneNumber);
  }

  /** A patient passes the column checks exactly when its emergency contact is
      blank or matches the phone pattern and its gender and insurance are
      listed codes. */
  lemma PatientFieldsExactly(p: Patient)
    ensures PatientFieldsValid(p) <==>
      && (p.emergencyContact == "" || PhonePattern(p.emergencyContact))
      && (exists g :: GenderCode(g) == p.gender)
      && (exists i :: InsuranceCode(i) == p.insurance)
  {
    PhoneFieldIsPattern(p.emergencyContact);
  }

  /** A doctor row passes the column checks exactly when the years of
      experience are at most 70 and the specialization is a listed code. */
  lemma DoctorFieldsInRange(d: Doctor)
    ensures DoctorFieldsValid(d) <==>
      d.yearsOfExperience <= 70 && exists s :: SpecializationCode(s) == d.specialization
  {
    AcceptedRange(YearsOfExperience, d.yearsOfExperience);
  }

  /** A diagnosis history passes the column checks exactly when each
      integer field lies within its declared bounds and each level is a
      listed code. */
  lemma HistoryFieldsInRange(h: DiagnosisHistory)
    ensures HistoryFieldsValid(h) <==>
      && 1900 <= h.year <= 2100
      && 50 <= h.systolic <= 250
      && 30 <= h.diastolic <= 150
      && 30 <= h.heartRate <= 220
      && 5 <= h.respiratoryRate <= 60
      && (exists l :: LevelCode(l) == h.systolicLevel)
      && (exists l :: LevelCode(l) == h.diastolicLevel)
      && (exists l :: LevelCode(l) == h.heartRateLevel)
      && (exists l :: LevelCode(l) == h.respiratoryRateLevel)
      && (exists l :: LevelCode(l) == h.temperatureLevel)
  {
    AcceptedRange(Year, h.year);
    AcceptedRange(SystolicValue, h.systolic);
    AcceptedRange(DiastolicValue, h.diastolic);
    AcceptedRange(HeartRateValue, h.heartRate);
    AcceptedRange(RespiratoryRateValue, h.respiratoryRate);
  }

  // ------------------------------------------------------ column defaults

  /** A patient row built from the required columns only: no emergency
      contact and the default insurance. It passes the column checks exactly
      when the gender code is listed. */
  function NewPatient(user: UserId, gender: string, dateOfBirth: Date): (p: Patient)
    ensures p.user == user && p.gender == gender && p.dateOfBirth == dateOfBirth
    ensures p.emergencyContact == "" && p.insurance == "private"
    ensures PatientFieldsValid(p) <==> exists g :: GenderCode(g) == gender
  {
    Patient(user, gender, dateOfBirth, "", InsuranceCode(DefaultInsurance))
  }

  /** A doctor row built from the required columns only: no biography, no
      experience, accepting new patients. It passes the column checks exactly
      when the specialization code is listed. */
  function NewDoctor(user: UserId, specialization: string, licenseNumber: string): (d: Doctor)
    ensures d.user == user && d.specialization == specialization && d.licenseNumber == licenseNumber
    ensures d.biography == "" && d.yearsOfExperience == 0 && d.acceptingNewPatients
    ensures DoctorFieldsValid(d) <==> exists s :: SpecializationCode(s) == specialization
  {
    var d := Doctor(user, specialization, licenseNumber, "", 0, true);
    DoctorFieldsInRange(d);
    d
  }

  /** A diagnosis history built from its measurements, every level left at
      its default "normal". It passes the column checks exactly when each
      measurement lies within its declared bounds. */
  function NewHistory(patient: Uuid, doctor: Option<Uuid>, month: string, year: nat,
                      systolic: nat, diastolic: nat, heartRate: nat, respiratoryRate: nat,
                      temperature: real): (h: DiagnosisHistory)
    ensures h.patient == patient && h.doctor == doctor && h.month == month && h.year == year
    ensures h.systolic == systolic && h.diastolic == diastolic
    ensures h.heartRate == heartRate && h.respiratoryRate == respiratoryRate
    ensures h.temperature == temperature
    ensures h.systolicLevel == h.diastolicLevel == h.heartRateLevel == "normal"
    ensures h.respiratoryRateLevel == h.temperatureLevel == "normal"
    ensures HistoryFieldsValid(h) <==>
      && 1900 <= year <= 2100 && 50 <= systolic <= 250 && 30 <= diastolic <= 150
      && 30 <= heartRate <= 220 && 5 <= respiratoryRate <= 60
  {
    var normal := LevelCode(DefaultLevel);
    var h := DiagnosisHistory(patient, doctor, month, year, systolic, normal, diastolic, normal,
                              heartRate, normal, respiratoryRate, normal, temperature, normal);
    HistoryFieldsInRange(h);
    h
  }

  /** A diagnosis with the default status "active", no description and no
      date; it passes the column checks. */
  function NewDiagnostic(patient: Uuid, doctor: Option<Uuid>, name: string): (g: Diagnostic)
    ensures g.patient == patient && g.doctor == doctor && g.name == name
    ensures g.description == "" && g.diagnosedDate == None && g.status == "active"
    ensures DiagnosticFieldsValid(g)
  {
    Diagnostic(patient, doctor, name, "", DiagnosticStatusCode(DefaultDiagnosticStatus), None)
  }

  /** A lab result with the default status "pending" and every optional
      column blank; it passes the column checks. */
  function NewLabResult(patient: Uuid, doctor: Option<Uuid>, name: string, performedDate: Date): (l: LabResult)
    ensures l.patient == patient && l.doctor == doctor && l.name == name && l.performedDate == performedDate
    ensures l.resultValue == l.resultUnit == l.referenceRange == l.notes == ""
    ensures l.reportedDate == None && l.status == "pending"
    ensures LabResultFieldsValid(l)
  {
    LabResult(patient, doctor, name, "", "", "", LabStatusCode(DefaultLabStatus), performedDate, None, "")
  }

  /** An appointment of the default type "check_up" and status "scheduled",
      with no reason or notes; it passes the column checks. */
  function NewAppointment(patient: Uuid, doctor: Uuid, date: Date, time: Time): (a: Appointment)
    ensures a.patient == patient && a.doctor == doctor && a.date == date && a.time == time
    ensures a.reason == "" && a.notes == ""
    ensures a.kind == "check_up" && a.status == "scheduled"
    ensures AppointmentFieldsValid(a)
  {
    Appointment(patient, doctor, date, time, AppointmentTypeCode(DefaultAppointmentType), "",
                AppointmentStatusCode(DefaultAppointmentStatus), "")
  }

  // ------------------------------------------------------ lookups on tables

  predicate EmailInUse(users: map<UserId, User>, email: string) {
    exists k :: k in users && users[k].email == email
  }

  predicate HasPatientProfile(patients: map<Uuid, Patient>, user: UserId) {
    exists k :: k in patients && patients[k].user == user
  }

  predicate HasDoctorProfile(doctors: map<Uuid, Doctor>, user: UserId) {
    exists k :: k in doctors && doctors[k].user == user
  }

  predicate LicenseInUse(doctors: map<Uuid, Doctor>, license: string) {
    exists k :: k in doctors && doctors[k].licenseNumber == license
  }

  /** A history already exists for this patient, month and year. */
  predicate PeriodRecorded(histories: map<Uuid, DiagnosisHistory>, patient: Uuid, month: string, year: nat) {
    exists k :: k in histories && histories[k].patient == patient
      && histories[k].month == month && histories[k].year == year
  }

  /** The doctor already has an appointment at this date and time. */
  predicate SlotTaken(appointments: map<Uuid, Appointment>, doctor: Uuid, date: Date, time: Time) {
    exists k :: k in appointments && appointments[k].doctor == doctor
      && appointments[k].date == date && appointments[k].time == time
  }

  /** An optional doctor reference that points into `doctors`. */
  predicate RefersTo(doctor: Option<Uuid>, doctors: set<Uuid>) {
    doctor.Some? && doctor.value in doctors
  }

  // ------------------------------------------------------ uniqueness rules

  ghost predicate UniqueEmails(users: map<UserId, User>) {
    forall a, b :: a in users && b in users && users[a].email == users[b].email ==> a == b
  }

  ghost predicate OnePatientProfilePerUser(patients: map<Uuid, Patient>) {
    forall a, b :: a in patients && b in patients && patients[a].user == patients[b].user ==> a == b
  }

  ghost predicate OneDoctorProfilePerUser(doctors: map<Uuid, Doctor>) {
    forall a, b :: a in doctors && b in doctors && doctors[a].user == doctors[b].user ==> a == b
  }

  ghost predicate UniqueLicenses(doctors: map<Uuid, Doctor>) {
    forall a, b :: a in doctors && b in doctors && doctors[a].licenseNumber == doctors[b].licenseNumber ==> a == b
  }

  /** Two histories for the same patient, month and year. */
  predicate SamePeriod(x: DiagnosisHistory, y: DiagnosisHistory) {
    x.patient == y.patient && x.month == y.month && x.year == y.year
  }

  /** Two appointments with the same doctor, date and time. */
  predicate SameSlot(x: Appointment, y: Appointment) {
    x.doctor == y.doctor && x.date == y.date && x.time == y.time
  }

  /** At most one history per (patient, month, year). */
  ghost predicate UniquePeriods(histories: map<Uuid, DiagnosisHistory>) {
    forall a, b :: a in histories && b in histories && SamePeriod(histories[a], histories[b]) ==> a == b
  }

  /** At most one appointment per (doctor, date, time). */
  ghost predicate UniqueSlots(appointments: map<Uuid, Appointment>) {
    forall a, b :: a in appointments && b in appointments && SameSlot(appointments[a], appointments[b]) ==> a == b
  }

  // ------------------------------------------------------ reference rules

  ghost predicate HistoriesLinked(t: map<Uuid, DiagnosisHistory>, patients: set<Uuid>, doctors: set<Uuid>) {
    forall k :: k in t ==> t[k].patient in patients && (t[k].doctor.Some? ==> t[k].doctor.value in doctors)
  }

  ghost predicate DiagnosticsLinked(t: map<Uuid, Diagnostic>, patients: set<Uuid>, doctors: set<Uuid>) {
    forall k :: k in t ==> t[k].patient in patients && (t[k].doctor.Some? ==> t[k].doctor.value in doctors)
  }

  ghost predicate LabResultsLinked(t: map<Uuid, LabResult>, patients: set<Uuid>, doctors: set<Uuid>) {
    forall k :: k in t ==> t[k].patient in patients && (t[k].doctor.Some? ==> t[k].doctor.value in doctors)
  }

  ghost predicate AppointmentsLinked(t: map<Uuid, Appointment>, patients: set<Uuid>, doctors: set<Uuid>) {
    forall k :: k in t ==> t[k].patient in patients && t[k].doctor in doctors
  }

  /** The profile tables: each profile belongs to an existing account, an
      account has at most one profile of each kind, and license numbers are
      unique. */
  ghost predicate ProfilesValid(users: set<UserId>, patients: map<Uuid, Patient>, doctors: map<Uuid, Doctor>) {
    && (forall k :: k in patients ==> patients[k].user in users)
    && (forall k :: k in doctors ==> doctors[k].user in users)
    && OnePatientProfilePerUser(patients)
    && OneDoctorProfilePerUser(doctors)
    && UniqueLicenses(doctors)
  }

  /** The clinical-record tables: every record names existing profiles, and
      the period and slot constraints hold. */
  ghost predicate RecordsValid(
      patients: set<Uuid>, doctors: set<Uuid>,
      h: map<Uuid, DiagnosisHistory>, g: map<Uuid, Diagnostic>, l: map<Uuid, LabResult>, a: map<Uuid, Appointment>)
  {
    && HistoriesLinked(h, patients, doctors)
    && DiagnosticsLinked(g, patients, doctors)
    && LabResultsLinked(l, patients, doctors)
    && AppointmentsLinked(a, patients, doctors)
    && UniquePeriods(h)
    && UniqueSlots(a)
  }

  /** The patient profiles that belong to the account `user`. */
  function PatientProfilesOf(patients: map<Uuid, Patient>, user: UserId): set<Uuid> {
    set k | k in patients && patients[k].user == user
  }

  /** The doctor profiles that belong to the account `user`. */
  function DoctorProfilesOf(doctors: map<Uuid, Doctor>, user: UserId): set<Uuid> {
    set k | k in doctors && doctors[k].user == user
  }

  // ------------------------------------------------------ inserts keep validity

  /** Account ids are below the next id to be issued, and emails are
      unique. */
  ghost predicate AccountsValid(users: map<UserId, User>, nextId: UserId) {
    (forall k :: k in users ==> k < nextId) && UniqueEmails(users)
  }

  /** An account with an email no account uses, stored under the next id,
      keeps the account rules. */
  lemma NewAccountKeepsAccountsValid(users: map<UserId, User>, nextId: UserId, u: User)
    requires AccountsValid(users, nextId) && !EmailInUse(users, u.email)
    ensures AccountsValid(users[nextId := u], nextId + 1)
  {
  }

  /** A new account (under an unused id) breaks no profile rule. */
  lemma NewAccountKeepsProfilesValid(users: set<UserId>, patients: map<Uuid, Patient>, doctors: map<Uuid, Doctor>, id: UserId)
    requires ProfilesValid(users, patients, doctors)
    ensures ProfilesValid(users + {id}, patients, doctors)
  {
  }

  /** A patient profile for an account with none keeps the profile rules. */
  lemma InsertPatientKeepsProfilesValid(
      users: set<UserId>, patients: map<Uuid, Patient>, doctors: map<Uuid, Doctor>, id: Uuid, p: Patient)
    requires ProfilesValid(users, patients, doctors)
    requires id !in patients && p.user in users && !HasPatientProfile(patients, p.user)
    ensures ProfilesValid(users, patients[id := p], doctors)
  {
  }

  /** A doctor profile for an account with none, under an unused license
      number, keeps the profile rules. */
  lemma InsertDoctorKeepsProfilesValid(
      users: set<UserId>, patients: map<Uuid, Patient>, doctors: map<Uuid, Doctor>, id: Uuid, d: Doctor)
    requires ProfilesValid(users, patients, doctors)
    requires id !in doctors && d.user in users && !HasDoctorProfile(doctors, d.user)
    requires !LicenseInUse(doctors, d.licenseNumber)
    ensures ProfilesValid(users, patients, doctors[id := d])
  {
  }

  /** More profiles never break a record rule. */
  lemma MoreProfilesKeepRecordsValid(
      patients: set<Uuid>, doctors: set<Uuid>, patients': set<Uuid>, doctors': set<Uuid>,
      h: map<Uuid, DiagnosisHistory>, g: map<Uuid, Diagnostic>, l: map<Uuid, LabResult>, a: map<Uuid, Appointment>)
    requires RecordsValid(patients, doctors, h, g, l, a)
    requires patients <= patients' && doctors <= doctors'
    ensures RecordsValid(patients', doctors', h, g, l, a)
  {
  }

  /** A history for existing profiles, in a period the patient has no
      history for yet, keeps the record rules. */
  lemma InsertHistoryKeepsRecordsValid(
      patients: set<Uuid>, doctors: set<Uuid>,
      h: map<Uuid, DiagnosisHistory>, g: map<Uuid, Diagnostic>, l: map<Uuid, LabResult>, a: map<Uuid, Appointment>,
      id: Uuid, x: DiagnosisHistory)
    requires RecordsValid(patients, doctors, h, g, l, a)
    requires id !in h && x.patient in patients && (x.doctor.Some? ==> x.doctor.value in doctors)
    requires !PeriodRecorded(h, x.patient, x.month, x.year)
    ensures RecordsValid(patients, doctors, h[id := x], g, l, a)
  {
    var h' := h[id := x];
    forall u, v | u in h' && v in h' && SamePeriod(h'[u], h'[v]) ensures u == v {
    }
  }

  /** A diagnosis for existing profiles keeps the record rules. */
  lemma InsertDiagnosticKeepsRecordsValid(
      patients: set<Uuid>, doctors: set<Uuid>,
      h: map<Uuid, DiagnosisHistory>, g: map<Uuid, Diagnostic>, l: map<Uuid, LabResult>, a: map<Uuid, Appointment>,
      id: Uuid, x: Diagnostic)
    requires RecordsValid(patients, doctors, h, g, l, a)
    requires x.patient in patients && (x.doctor.Some? ==> x.doctor.value in doctors)
    ensures RecordsValid(patients, doctors, h, g[id := x], l, a)
  {
  }

  /** A lab result for existing profiles keeps the record rules. */
  lemma InsertLabResultKeepsRecordsValid(
      patients: set<Uuid>, doctors: set<Uuid>,
      h: map<Uuid, DiagnosisHistory>, g: map<Uuid, Diagnostic>, l: map<Uuid, LabResult>, a: map<Uuid, Appointment>,
      id: Uuid, x: LabResult)
    requires RecordsValid(patients, doctors, h, g, l, a)
    requires x.patient in patients && (x.doctor.Some? ==> x.doctor.value in doctors)
    ensures RecordsValid(patients, doctors, h, g, l[id := x], a)
  {
  }

  /** An appointment for existing profiles, in a slot its doctor has free,
      keeps the record rules. */
  lemma InsertAppointmentKeepsRecordsValid(
      patients: set<Uuid>, doctors: set<Uuid>,
      h: map<Uuid, DiagnosisHistory>, g: map<Uuid, Diagnostic>, l: map<Uuid, LabResult>, a: map<Uuid, Appointment>,
      id: Uuid, x: Appointment)
    requires RecordsValid(patients, doctors, h, g, l, a)
    requires id !in a && x.patient in patients && x.doctor in doctors
    requires !SlotTaken(a, x.doctor, x.date, x.time)
    ensures RecordsValid(patients, doctors, h, g, l, a[id := x])
  {
    var a' := a[id := x];
    forall u, v | u in a' && v in a' && SameSlot(a'[u], a'[v]) ensures u == v {
    }
  }

  // ------------------------------------------------------ delete actions

  /** The diagnosis histories left once the patients `P` and the doctors `D`
      are deleted: a deleted patient's histories go with it; a history
      attributed to a deleted doctor stays, with no doctor. */
  function HistoriesAfterDelete(t: map<Uuid, DiagnosisHistory>, P: set<Uuid>, D: set<Uuid>): map<Uuid, DiagnosisHistory>
  {
    map k | k in t && t[k].patient !in P ::
      if RefersTo(t[k].doctor, D) then t[k].(doctor := None) else t[k]
  }

  lemma HistoriesAfterDeleteRows(t: map<Uuid, DiagnosisHistory>, P: set<Uuid>, D: set<Uuid>)
    ensures var r := HistoriesAfterDelete(t, P, D);
      && (forall k :: k in r <==> k in t && t[k].patient !in P)
      && (forall k :: k in r ==> !RefersTo(r[k].doctor, D))
      && (forall k :: k in r ==> r[k] == t[k].(doctor := r[k].doctor))
      && (forall k :: k in r ==> r[k].doctor == t[k].doctor || RefersTo(t[k].doctor, D))
      && (forall k :: k in r && r[k].doctor.Some? ==> r[k].doctor == t[k].doctor)
  {
  }

  /** The diagnoses left once the patients `P` and the doctors `D` are
      deleted, by the same rules as for diagnosis histories. */
  function DiagnosticsAfterDelete(t: map<Uuid, Diagnostic>, P: set<Uuid>, D: set<Uuid>): map<Uuid, Diagnostic>
  {
    map k | k in t && t[k].patient !in P ::
      if RefersTo(t[k].doctor, D) then t[k].(doctor := None) else t[k]
  }

  lemma DiagnosticsAfterDeleteRows(t: map<Uuid, Diagnostic>, P: set<Uuid>, D: set<Uuid>)
    ensures var r := DiagnosticsAfterDelete(t, P, D);
      && (forall k :: k in r <==> k in t && t[k].patient !in P)
      && (forall k :: k in r ==> !RefersTo(r[k].doctor, D))
      && (forall k :: k in r ==> r[k] == t[k].(doctor := r[k].doctor))
      && (forall k :: k in r ==> r[k].doctor == t[k].doctor || RefersTo(t[k].doctor, D))
      && (forall k :: k in r && r[k].doctor.Some? ==> r[k].doctor == t[k].doctor)
  {
  }

  /** The lab results left once the patients `P` and the doctors `D` are
      deleted, by the same rules as for diagnosis histories. */
  function LabResultsAfterDelete(t: map<Uuid, LabResult>, P: set<Uuid>, D: set<Uuid>): map<Uuid, LabResult>
  {
    map k | k in t && t[k].patient !in P ::
      if RefersTo(t[k].doctor, D) then t[k].(doctor := None) else t[k]
  }

  lemma LabResultsAfterDeleteRows(t: map<Uuid, LabResult>, P: set<Uuid>, D: set<Uuid>)
    ensures var r := LabResultsAfterDelete(t, P, D);
      && (forall k :: k in r <==> k in t && t[k].patient !in P)
      && (forall k :: k in r ==> !RefersTo(r[k].doctor, D))
      && (forall k :: k in r ==> r[k] == t[k].(doctor := r[k].doctor))
      && (forall k :: k in r ==> r[k].doctor == t[k].doctor || RefersTo(t[k].doctor, D))
      && (forall k :: k in r && r[k].doctor.Some? ==> r[k].doctor == t[k].doctor)
  {
  }

  /** The appointments left once the patients `P` and the doctors `D` are
      deleted: an appointment goes with its patient and with its doctor;
      the others are untouched. */
  function AppointmentsAfterDelete(t: map<Uuid, Appointment>, P: set<Uuid>, D: set<Uuid>): map<Uuid, Appointment>
  {
    map k | k in t && t[k].patient !in P && t[k].doctor !in D :: t[k]
  }

  lemma AppointmentsAfterDeleteRows(t: map<Uuid, Appointment>, P: set<Uuid>, D: set<Uuid>)
    ensures var r := AppointmentsAfterDelete(t, P, D);
      && (forall k :: k in r <==> k in t && t[k].patient !in P && t[k].doctor !in D)
      && (forall k :: k in r ==> r[k] == t[k])
  {
  }

  // ------------------------------------------------------ properties

  /** Deleting profiles keeps the profile tables valid, and removing an
      account that no longer has a profile does too. */
  lemma DeleteKeepsProfilesValid(
      users: set<UserId>, patients: map<Uuid, Patient>, doctors: map<Uuid, Doctor>,
      P: set<Uuid>, D: set<Uuid>, gone: set<UserId>)
    requires ProfilesValid(users, patients, doctors)
    requires forall k :: k in patients && k !in P ==> patients[k].user !in gone
    requires forall k :: k in doctors && k !in D ==> doctors[k].user !in gone
    ensures ProfilesValid(users - gone, patients - P, doctors - D)
  {
  }

  /** Deleting patients and doctors keeps every record's references inside
      the tables that remain, and never creates a duplicate period or slot. */
  lemma DeleteKeepsRecordsValid(
      patients: set<Uuid>, doctors: set<Uuid>,
      h: map<Uuid, DiagnosisHistory>, g: map<Uuid, Diagnostic>, l: map<Uuid, LabResult>, a: map<Uuid, Appointment>,
      P: set<Uuid>, D: set<Uuid>)
    requires RecordsValid(patients, doctors, h, g, l, a)
    ensures RecordsValid(patients - P, doctors - D,
      HistoriesAfterDelete(h, P, D), DiagnosticsAfterDelete(g, P, D),
      LabResultsAfterDelete(l, P, D), AppointmentsAfterDelete(a, P, D))
  {
    HistoriesAfterDeleteRows(h, P, D);
    DiagnosticsAfterDeleteRows(g, P, D);
    LabResultsAfterDeleteRows(l, P, D);
    AppointmentsAfterDeleteRows(a, P, D);
    var h' := HistoriesAfterDelete(h, P, D);
    assert UniquePeriods(h') by {
      forall x, y | x in h' && y in h' && SamePeriod(h'[x], h'[y]) ensures x == y {
        assert SamePeriod(h[x], h[y]);
      }
    }
  }

  /** Deleting a patient and then a doctor leaves the same histories as
      deleting the doctor first, and as deleting both at once (an account
      that has both profiles). */
  lemma HistoryDeletesCommute(h: map<Uuid, DiagnosisHistory>, p: Uuid, d: Uuid)
    ensures HistoriesAfterDelete(HistoriesAfterDelete(h, {p}, {}), {}, {d})
         == HistoriesAfterDelete(h, {p}, {d})
    ensures HistoriesAfterDelete(HistoriesAfterDelete(h, {}, {d}), {p}, {})
         == HistoriesAfterDelete(h, {p}, {d})
  {
    var both := HistoriesAfterDelete(h, {p}, {d});
    var h1 := HistoriesAfterDelete(HistoriesAfterDelete(h, {p}, {}), {}, {d});
    var h2 := HistoriesAfterDelete(HistoriesAfterDelete(h, {}, {d}), {p}, {});
    assert h1.Keys == both.Keys;
    assert h2.Keys == both.Keys;
  }

  /** The same for appointments. */
  lemma AppointmentDeletesCommute(a: map<Uuid, Appointment>, p: Uuid, d: Uuid)
    ensures AppointmentsAfterDelete(AppointmentsAfterDelete(a, {p}, {}), {}, {d})
         == AppointmentsAfterDelete(a, {p}, {d})
    ensures AppointmentsAfterDelete(AppointmentsAfterDelete(a, {}, {d}), {p}, {})
         == AppointmentsAfterDelete(a, {p}, {d})
  {
    var both := AppointmentsAfterDelete(a, {p}, {d});
    assert AppointmentsAfterDelete(AppointmentsAfterDelete(a, {p}, {}), {}, {d}).Keys == both.Keys;
    assert AppointmentsAfterDelete(AppointmentsAfterDelete(a, {}, {d}), {p}, {}).Keys == both.Keys;
  }

  /** A lab result survives its doctor's deletion with the doctor cleared,
      and goes with its patient. */
  lemma LabResultFollowsDeletes(l: map<Uuid, LabResult>, k: Uuid, p: Uuid, d: Uuid)
    requires k in l && l[k].patient == p && l[k].doctor == Some(d)
    ensures var r := LabResultsAfterDelete(l, {}, {d});
      k in r && r[k] == l[k].(doctor := None)
    ensures k !in LabResultsAfterDelete(l, {p}, {})
  {
    LabResultsAfterDeleteRows(l, {}, {d});
    LabResultsAfterDeleteRows(l, {p}, {});
  }
}
