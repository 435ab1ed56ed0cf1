/** The demo-mode fixture tables. `mockDoctors` is read only; `mockAppointments`
    and `mockAvailability` are module-level arrays that the doctor screens
    mutate in place, so they live in the `DemoStore` object. */
module MockData {
  import opened Common
  import opened Domain

  function DoctorRow(id: string, specialization: string, rating: real, years: int, fee: int,
                     address: string, bio: string, name: string, avatar: string): Doctor
  {
    Doctor(id, Some(specialization), Some(rating), Some(years), Some(fee), Some(address), Some(bio),
           Some(PersonInfo(Some(name), Some(avatar))), None, None)
  }

  /** `mockDoctors`: five doctors with the `users` join nested, not flattened. */
  function MockDoctors(): seq<Doctor> {
    [ DoctorRow("doc-1", "Cardiologist", 4.8, 12, 150, "123 Heart Lane, Medical City",
                "Expert in heart rhythm disorders and preventive cardiology.",
                "Dr. Sarah Smith", "https://randomuser.me/api/portraits/women/68.jpg"),
      DoctorRow("doc-2", "Dermatologist", 4.5, 8, 100, "456 Skin Care Blvd, Wellness Town",
                "Specializing in cosmetic dermatology and skin cancer screening.",
                "Dr. John Doe", "https://randomuser.me/api/portraits/men/32.jpg"),
      DoctorRow("doc-3", "Pediatrician", 4.9, 15, 120, "789 Kids Corner, Happy Valley",
                "Dedicated to the health and well-being of children from birth to young adulthood.",
                "Dr. Emily Blunt", "https://randomuser.me/api/portraits/women/44.jpg"),
      DoctorRow("doc-4", "Neurologist", 4.7, 10, 180, "321 Brain Ave, Neuro Park",
                "Focusing on disorders of the nervous system.",
                "Dr. Michael Chang", "https://randomuser.me/api/portraits/men/64.jpg"),
      DoctorRow("doc-5", "Orthopedic", 4.6, 14, 160, "654 Bone St, Joint City",
                "Expert in musculoskeletal trauma, sports injuries, and degenerative diseases.",
                "Dr. Robert Brown", "https://randomuser.me/api/portraits/men/88.jpg") ]
  }

  const JaneDoe: PatientJoin := PatientJoin(Some(PersonInfo(Some("Jane Doe"), None)))
  const DrDemo: DoctorJoin := DoctorJoin(None, None, Some(PersonInfo(Some("Dr. Demo"), None)))

  /** `mockAppointments`: dates are day offsets from the moment the module loads. */
  function MockAppointments(): seq<Appointment> {
    [ Appointment("appt-1", "demo-patient-id", "doc-1", 1, "10:00:00", Confirmed,
        Some(DoctorJoin(Some("Cardiologist"), Some("123 Heart Lane, Medical City"),
          Some(PersonInfo(Some("Dr. Sarah Smith"), Some("https://randomuser.me/api/portraits/women/68.jpg"))))),
        Some(JaneDoe), None),
      Appointment("appt-2", "demo-patient-id", "doc-2", 2, "14:30:00", Pending,
        Some(DoctorJoin(Some("Dermatologist"), Some("456 Skin Care Blvd, Wellness Town"),
          Some(PersonInfo(Some("Dr. John Doe"), Some("https://randomuser.me/api/portraits/men/32.jpg"))))),
        Some(JaneDoe), None),
      Appointment("appt-3", "other-patient", "demo-doctor-id", 0, "09:00:00", Confirmed,
        Some(DrDemo),
        Some(PatientJoin(Some(PersonInfo(Some("Alice Wonderland"), Some("https://randomuser.me/api/portraits/women/12.jpg"))))),
        None),
      Appointment("appt-4", "other-patient-2", "demo-doctor-id", 1, "11:00:00", Pending,
        Some(DrDemo),
        Some(PatientJoin(Some(PersonInfo(Some("Bob Builder"), Some("https://randomuser.me/api/portraits/men/22.jpg"))))),
        None),
      Appointment("appt-5", "demo-patient-id", "doc-3", -1, "16:00:00", Completed,
        Some(DoctorJoin(Some("Pediatrician"), Some("789 Kids Corner, Happy Valley"),
          Some(PersonInfo(Some("Dr. Emily Blunt"), Some("https://randomuser.me/api/portraits/women/44.jpg"))))),
        Some(JaneDoe), None) ]
  }

  /** The mutable fixture state shared by every demo-mode screen. */
  class DemoStore {
    var appointments: seq<Appointment>
    var availability: seq<Availability>
    var prescriptions: seq<Prescription>

    /** What every demo mutation keeps: ids stay unique, and the schedule's
        row j is for weekday j (so weekdays are unique too). */
    ghost predicate Valid()
      reads this
    {
      DistinctIds(appointments) && DistinctDays(availability) && DayIndexed(availability)
    }

    /** The module's initial state. */
    constructor ()
      ensures appointments == MockAppointments()
      ensures availability == [] && prescriptions == []
      ensures Valid()
    {
      appointments := MockAppointments();
      availability := [];
      prescriptions := [];
      new;
      MockAppointmentIds();
    }
  }

  /** The fixture's appointment ids are appt-1 to appt-5, pairwise distinct. */
  lemma MockAppointmentIds()
    ensures Ids(MockAppointments()) == ["appt-1", "appt-2", "appt-3", "appt-4", "appt-5"]
    ensures DistinctIds(MockAppointments())
  {
  }

  /** The demo doctor owns exactly appt-3 (confirmed) and appt-4 (pending). */
  lemma DemoDoctorOwnsTwo()
    ensures forall k :: 0 <= k < |MockAppointments()| ==>
      (MockAppointments()[k].doctorId == "demo-doctor-id" <==> k == 2 || k == 3)
    ensures MockAppointments()[2].id == "appt-3" && MockAppointments()[2].status == Confirmed
    ensures MockAppointments()[3].id == "appt-4" && MockAppointments()[3].status == Pending
  {
  }

  /** The demo patient owns exactly appt-1 (confirmed), appt-2 (pending) and
      appt-5 (completed). */
  lemma DemoPatientOwnsThree()
    ensures forall k :: 0 <= k < |MockAppointments()| ==>
      (MockAppointments()[k].patientId == "demo-patient-id" <==> k == 0 || k == 1 || k == 4)
    ensures MockAppointments()[0].id == "appt-1" && MockAppointments()[0].status == Confirmed
    ensures MockAppointments()[1].id == "appt-2" && MockAppointments()[1].status == Pending
    ensures MockAppointments()[4].id == "appt-5" && MockAppointments()[4].status == Completed
  {
  }

  /** No fixture appointment starts cancelled, and none carries a prescription. */
  lemma MockStatusesKnown()
    ensures forall a :: a in MockAppointments() ==>
      a.status in {Pending, Confirmed, Completed} && a.prescriptions.None?
  {
  }

  /** Doctor ids doc-1 to doc-5 are distinct, and so are their specializations. */
  lemma MockDoctorsDistinct()
    ensures |MockDoctors()| == 5
    ensures forall k :: 0 <= k < 5 ==> MockDoctors()[k].id == ["doc-1", "doc-2", "doc-3", "doc-4", "doc-5"][k]
    ensures forall i, j :: 0 <= i < j < |MockDoctors()| ==>
      MockDoctors()[i].id != MockDoctors()[j].id &&
      MockDoctors()[i].specialization != MockDoctors()[j].specialization
  {
  }
}
