/** The choice enumerations of the schema. Each column that declares
    `choices` stores a short code string; a code is accepted by the choice
    validator exactly when it parses to one of the enumeration's values. */
module Choices {
  import opened Common

  // ---------------------------------------------------------------- user type

  datatype UserType = PatientUser | DoctorUser | AdminUser

  function UserTypeCode(t: UserType): string {
    match t
    case PatientUser => "patient"
    case DoctorUser => "doctor"
    case AdminUser => "admin"
  }

  function ParseUserType(s: string): (r: Option<UserType>)
    ensures r.Some? ==> UserTypeCode(r.value) == s
    ensures forall t :: UserTypeCode(t) == s ==> r == Some(t)
  {
    if s == "patient" then Some(PatientUser)
    else if s == "doctor" then Some(DoctorUser)
    else if s == "admin" then Some(AdminUser)
    else None
  }

  // ------------------------------------------------------------------- gender

  datatype Gender = Male | Female | OtherGender

  function GenderCode(g: Gender): string {
    match g
    case Male => "M"
    case Female => "F"
    case OtherGender => "O"
  }

  function ParseGender(s: string): (r: Option<Gender>)
    ensures r.Some? ==> GenderCode(r.value) == s
    ensures forall g :: GenderCode(g) == s ==> r == Some(g)
  {
    if s == "M" then Some(Male)
    else if s == "F" then Some(Female)
    else if s == "O" then Some(OtherGender)
    else None
  }

  // ---------------------------------------------------------------- insurance

  datatype Insurance = Private | Medicare | Medicaid | Uninsured | OtherInsurance

  function InsuranceCode(i: Insurance): string {
    match i
    case Private => "private"
    case Medicare => "medicare"
    case Medicaid => "medicaid"
    case Uninsured => "uninsured"
    case OtherInsurance => "other"
  }

  function ParseInsurance(s: string): (r: Option<Insurance>)
    ensures r.Some? ==> InsuranceCode(r.value) == s
    ensures forall i :: InsuranceCode(i) == s ==> r == Some(i)
  {
    if s == "private" then Some(Private)
    else if s == "medicare" then Some(Medicare)
    else if s == "medicaid" then Some(Medicaid)
    else if s == "uninsured" then Some(Uninsured)
    else if s == "other" then Some(OtherInsurance)
    else None
  }

  /** A patient's insurance type when none is given. */
  const DefaultInsurance: Insurance := Private

  // ----------------------------------------------------------- specialization

  datatype Specialization =
    | GeneralPractitioner | Cardiologist | Dermatologist | Endocrinologist
    | Gastroenterologist | Neurologist | Obstetrician | Ophthalmologist
    | Pediatrician | Psychiatrist | Surgeon | OtherSpecialization

  function SpecializationCode(s: Specialization): string {
    match s
    case GeneralPractitioner => "general_practitioner"
    case Cardiologist => "cardiologist"
    case Dermatologist => "dermatologist"
    case Endocrinologist => "endocrinologist"
    case Gastroenterologist => "gastroenterologist"
    case Neurologist => "neurologist"
    case Obstetrician => "obstetrician"
    case Ophthalmologist => "ophthalmologist"
    case Pediatrician => "pediatrician"
    case Psychiatrist => "psychiatrist"
    case Surgeon => "surgeon"
    case OtherSpecialization => "other"
  }

  function ParseSpecialization(s: string): (r: Option<Specialization>)
    ensures r.Some? ==> SpecializationCode(r.value) == s
    ensures forall x :: SpecializationCode(x) == s ==> r == Some(x)
  {
    if s == "general_practitioner" then Some(GeneralPractitioner)
    else if s == "cardiologist" then Some(Cardiologist)
    else if s == "dermatologist" then Some(Dermatologist)
    else if s == "endocrinologist" then Some(Endocrinologist)
    else if s == "gastroenterologist" then Some(Gastroenterologist)
    else if s == "neurologist" then Some(Neurologist)
    else if s == "obstetrician" then Some(Obstetrician)
    else if s == "ophthalmologist" then Some(Ophthalmologist)
    else if s == "pediatrician" then Some(Pediatrician)
    else if s == "psychiatrist" then Some(Psychiatrist)
    else if s == "surgeon" then Some(Surgeon)
    else if s == "other" then Some(OtherSpecialization)
    else None
  }

  // -------------------------------------------------------- vital-sign level

  datatype Level = Normal | LowerThanAverage | HigherThanAverage | CriticalLow | CriticalHigh

  function LevelCode(l: Level): string {
    match l
    case Normal => "normal"
    case LowerThanAverage => "lower_than_average"
    case HigherThanAverage => "higher_than_average"
    case CriticalLow => "critical_low"
    case CriticalHigh => "critical_high"
  }

  function ParseLevel(s: string): (r: Option<Level>)
    ensures r.Some? ==> LevelCode(r.value) == s
    ensures forall l :: LevelCode(l) == s ==> r == Some(l)
  {
    if s == "normal" then Some(Normal)
    else if s == "lower_than_average" then Some(LowerThanAverage)
    else if s == "higher_than_average" then Some(HigherThanAverage)
    else if s == "critical_low" then Some(CriticalLow)
    else if s == "critical_high" then Some(CriticalHigh)
    else None
  }

  /** Every level column of a diagnosis history defaults to this. */
  const DefaultLevel: Level := Normal

  // ------------------------------------------------------- diagnostic status

  datatype DiagnosticStatus = Active | Controlled | Resolved | Monitoring | Chronic

  function DiagnosticStatusCode(s: DiagnosticStatus): string {
    match s
    case Active => "active"
    case Controlled => "controlled"
    case Resolved => "resolved"
    case Monitoring => "monitoring"
    case Chronic => "chronic"
  }

  function ParseDiagnosticStatus(s: string): (r: Option<DiagnosticStatus>)
    ensures r.Some? ==> DiagnosticStatusCode(r.value) == s
    ensures forall x :: DiagnosticStatusCode(x) == s ==> r == Some(x)
  {
    if s == "active" then Some(Active)
    else if s == "controlled" then Some(Controlled)
    else if s == "resolved" then Some(Resolved)
    else if s == "monitoring" then Some(Monitoring)
    else if s == "chronic" then Some(Chronic)
    else None
  }

  const DefaultDiagnosticStatus: DiagnosticStatus := Active

  // ------------------------------------------------------- lab result status

  datatype LabStatus = LabNormal | Abnormal | Critical | Pending

  function LabStatusCode(s: LabStatus): string {
    match s
    case LabNormal => "normal"
    case Abnormal => "abnormal"
    case Critical => "critical"
    case Pending => "pending"
  }

  function ParseLabStatus(s: string): (r: Option<LabStatus>)
    ensures r.Some? ==> LabStatusCode(r.value) == s
    ensures forall x :: LabStatusCode(x) == s ==> r == Some(x)
  {
    if s == "normal" then Some(LabNormal)
    else if s == "abnormal" then Some(Abnormal)
    else if s == "critical" then Some(Critical)
    else if s == "pending" then Some(Pending)
    else None
  }

  const DefaultLabStatus: LabStatus := Pending

  // ------------------------------------------------------ appointment status

  datatype AppointmentStatus = Scheduled | Completed | Cancelled | NoShow | Rescheduled

  function AppointmentStatusCode(s: AppointmentStatus): string {
    match s
    case Scheduled => "scheduled"
    case Completed => "completed"
    case Cancelled => "cancelled"
    case NoShow => "no_show"
    case Rescheduled => "rescheduled"
  }

  function ParseAppointmentStatus(s: string): (r: Option<AppointmentStatus>)
    ensures r.Some? ==> AppointmentStatusCode(r.value) == s
    ensures forall x :: AppointmentStatusCode(x) == s ==> r == Some(x)
  {
    if s == "scheduled" then Some(Scheduled)
    else if s == "completed" then Some(Completed)
    else if s == "cancelled" then Some(Cancelled)
    else if s == "no_show" then Some(NoShow)
    else if s == "rescheduled" then Some(Rescheduled)
    else None
  }

  const DefaultAppointmentStatus: AppointmentStatus := Scheduled

  // -------------------------------------------------------- appointment type

  datatype AppointmentType =
    | CheckUp | FollowUp | Consultation | Emergency | Procedure | LabWork | OtherAppointment

  function AppointmentTypeCode(t: AppointmentType): string {
    match t
    case CheckUp => "check_up"
    case FollowUp => "follow_up"
    case Consultation => "consultation"
    case Emergency => "emergency"
    case Procedure => "procedure"
    case LabWork => "lab_work"
    case OtherAppointment => "other"
  }

  function ParseAppointmentType(s: string): (r: Option<AppointmentType>)
    ensures r.Some? ==> AppointmentTypeCode(r.value) == s
    ensures forall x :: AppointmentTypeCode(x) == s ==> r == Some(x)
  {
    if s == "check_up" then Some(CheckUp)
    else if s == "follow_up" then Some(FollowUp)
    else if s == "consultation" then Some(Consultation)
    else if s == "emergency" then Some(Emergency)
    else if s == "procedure" then Some(Procedure)
    else if s == "lab_work" then Some(LabWork)
    else if s == "other" then Some(OtherAppointment)
    else None
  }

  const DefaultAppointmentType: AppointmentType := CheckUp

  // ------------------------------------------------------ column widths

  /** Every code of every enumeration fits the `max_length` of the column
      that stores it. */
  lemma CodesFitColumns()
    ensures forall t :: |UserTypeCode(t)| <= 10
    ensures forall g :: |GenderCode(g)| <= 1
    ensures forall i :: |InsuranceCode(i)| <= 20
    ensures forall s :: |SpecializationCode(s)| <= 50
    ensures forall l :: |LevelCode(l)| <= 25
    ensures forall s :: |DiagnosticStatusCode(s)| <= 20
    ensures forall s :: |LabStatusCode(s)| <= 20
    ensures forall s :: |AppointmentStatusCode(s)| <= 20
    ensures forall t :: |AppointmentTypeCode(t)| <= 20
  {
  }
}
