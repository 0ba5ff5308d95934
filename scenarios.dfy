/** Concrete uses of the store, checked against the contracts of its
    methods alone. */
module Scenarios {
  import opened Common
  import opened Dates
  import opened Accounts
  import opened Records
  import opened Store

  function Identity(s: string): string { s }

  /** An empty email is refused, and so is a second account with an email
      already in use. */
  method AccountScenario() {
    var store := new ClinicStore(Identity);
    var none := store.CreateUser("", None, NoFields);
    assert none == Err(MissingEmail);
    var first := store.CreateUser("doc@example.com", None, NoFields);
    assert first.Ok?;
    var again := store.CreateUser("doc@example.com", Some("secret"), NoFields);
    assert again == Err(DuplicateEmail);
    var admin := store.CreateSuperuser("root@example.com", None, NoFields);
    assert admin.Ok? && store.users[admin.value].isSuperuser;
  }

  /** A doctor's slot can be booked once; the same patient can see another
      doctor at the same date and time. */
  method BookingScenario(store: ClinicStore, day: Date, nine: Time)
    requires store.Valid()
    requires 1 in store.patients && 2 in store.doctors && 3 in store.doctors
    requires store.appointments == map[]
    modifies store
  {
    var first := NewAppointment(1, 2, day, nine);
    var ok := store.CreateAppointment(10, first);
    assert ok == Pass;
    ok := store.CreateAppointment(11, first.(kind := "follow_up"));
    assert store.appointments[10] == first;
    assert ok == Fail(DuplicateSlot);
    ok := store.CreateAppointment(11, first.(doctor := 3));
    assert ok == Pass;
  }

  /** A second history for the same patient, month and year is refused,
      whoever the doctor; another month is accepted. */
  method HistoryScenario(store: ClinicStore)
    requires store.Valid()
    requires 1 in store.patients && 2 in store.doctors
    requires store.histories == map[]
    modifies store
  {
    var june := NewHistory(1, Some(2), "June", 2024, 120, 80, 70, 16, 98.6);
    var ok := store.CreateDiagnosisHistory(20, june);
    assert ok == Pass;
    ok := store.CreateDiagnosisHistory(21, june.(doctor := None));
    assert store.histories[20] == june;
    assert ok == Fail(DuplicatePeriod);
    ok := store.CreateDiagnosisHistory(21, june.(month := "July"));
    assert ok == Pass;
  }

  /** Deleting a doctor keeps a lab result it ordered, with no doctor;
      deleting the patient then removes the lab result. */
  method DeleteScenario(store: ClinicStore, lab: LabResult)
    requires store.Valid()
    requires 30 in store.labResults && store.labResults[30] == lab
    requires lab.doctor == Some(2)
    modifies store
  {
    ghost var labs := store.labResults;
    var found := store.DeleteDoctor(2);
    assert found;
    LabResultsAfterDeleteRows(labs, {}, {2});
    assert 30 in store.labResults && store.labResults[30] == lab.(doctor := None);
    labs := store.labResults;
    found := store.DeletePatient(lab.patient);
    assert found;
    LabResultsAfterDeleteRows(labs, {lab.patient}, {});
    assert 30 !in store.labResults;
  }
}
