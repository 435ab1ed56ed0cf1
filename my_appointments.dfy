/** The patient's appointment list: the patient's entries of the fixture table
    or of the backend, each card's doctor fallbacks, its status colour and the
    "View Prescription" button. */
module MyAppointments {
  import opened Common
  import opened Domain
  import opened Seqs
  import opened Gateway
  import opened AuthStore

  /** The predicate `a.patient_id === patientId`. */
  function PatientIs(patientId: string): Appointment -> bool {
    (a: Appointment) => a.patientId == patientId
  }

  /** One patient's appointments in table order: the demo filter, and what
      the live query's `eq('patient_id', ...)` keeps of the backend table. */
  function PatientView(t: seq<Appointment>, patientId: string): (r: seq<Appointment>)
    ensures forall a :: a in r <==> a in t && a.patientId == patientId
    ensures IsSubseq(r, t)
  {
    FilterIsSubseq(t, PatientIs(patientId));
    Filter(t, PatientIs(patientId))
  }

  /** `fetchAppointments`: nothing without a user; the fixture filter for a
      demo id; the backend's rows otherwise, the list kept on a read error. */
  function FetchMyAppointments(user: Option<User>, demoTable: seq<Appointment>, live: Fetched<Appointment>,
                               current: seq<Appointment>): (r: seq<Appointment>)
    ensures user.None? ==> r == current
    ensures user.Some? && IsDemoId(user.value.id) ==> r == PatientView(demoTable, user.value.id)
    ensures user.Some? && !IsDemoId(user.value.id) && live.Rows? ==> r == PatientView(live.rows, user.value.id)
    ensures user.Some? && !IsDemoId(user.value.id) && live.ReadError? ==> r == current
  {
    if user.None? then current
    else if IsDemoId(user.value.id) then PatientView(demoTable, user.value.id)
    else match live
      case Rows(rows) => PatientView(rows, user.value.id)
      case ReadError(_) => current
  }

  /** A patient sees only their own appointments, never another patient's. */
  lemma OnlyOwnAppointments(t: seq<Appointment>, p: string, q: string, a: Appointment)
    requires p != q && a in PatientView(t, q)
    ensures a !in PatientView(t, p)
  {
  }

  /** `item.doctors?.users` */
  function DoctorUsers(a: Appointment): Option<PersonInfo> {
    if a.doctors.Some? then a.doctors.value.users else None
  }

  /** The card's doctor name: the joined name, else "Unknown Doctor". */
  function CardDoctorName(a: Appointment): (name: string)
    ensures name != ""
    ensures DoctorUsers(a).Some? && Truthy(DoctorUsers(a).value.fullName) ==> name == DoctorUsers(a).value.fullName.value
    ensures !(DoctorUsers(a).Some? && Truthy(DoctorUsers(a).value.fullName)) ==> name == "Unknown Doctor"
  {
    OrDefault(if DoctorUsers(a).Some? then DoctorUsers(a).value.fullName else None, "Unknown Doctor")
  }

  /** The card's avatar: the joined avatar, else the placeholder image. */
  function CardDoctorAvatar(a: Appointment): (url: string)
    ensures url != ""
    ensures DoctorUsers(a).Some? && Truthy(DoctorUsers(a).value.avatarUrl) ==> url == DoctorUsers(a).value.avatarUrl.value
    ensures !(DoctorUsers(a).Some? && Truthy(DoctorUsers(a).value.avatarUrl)) ==> url == "https://via.placeholder.com/150"
  {
    OrDefault(if DoctorUsers(a).Some? then DoctorUsers(a).value.avatarUrl else None, "https://via.placeholder.com/150")
  }

  /** The button a card may carry. */
  datatype CardButton = ViewPrescription(appointmentId: string)

  /** The card's actions: "View Prescription", opening that appointment's
      prescription, on a completed appointment and on nothing else. */
  function CardButtons(a: Appointment): (bs: seq<CardButton>)
    ensures ViewPrescription(a.id) in bs <==> a.status == Completed
    ensures forall b :: b in bs ==> b.appointmentId == a.id
  {
    if a.status == Completed then [ViewPrescription(a.id)] else []
  }

  /** The chip colour of a card: the shared status palette. */
  function CardColor(a: Appointment): (c: Color)
    ensures a.status == Confirmed <==> c == ThemePrimary
    ensures a.status == Pending <==> c == Amber
    ensures a.status == Cancelled <==> c == ThemeError
    ensures a.status == Completed <==> c == ThemeSecondary
    ensures c == Grey <==> a.status !in {Confirmed, Pending, Cancelled, Completed}
  {
    StatusColor(a.status)
  }
}
