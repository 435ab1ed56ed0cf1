/** Properties that span several screens: what one screen's write does to the
    lists another screen derives from the same table. */
module Scenarios {
  import opened Common
  import opened Domain
  import opened Seqs
  import opened Gateway
  import opened AuthStore
  import MockData
  import DoctorDashboard
  import AddPrescription
  import MyAppointments
  import PatientHistory
  import BookAppointment

  /** After a status write, every entry carrying that id has the new status. */
  lemma EntriesWithIdHaveStatus(t: seq<Appointment>, id: string, status: string)
    requires DistinctIds(t)
    ensures forall x :: x in DoctorDashboard.WithStatus(t, id, status) && x.id == id ==> x.status == status
  {
    var t' := DoctorDashboard.WithStatus(t, id, status);
    DoctorDashboard.WithStatusAt(t, id, status);
    forall x | x in t' && x.id == id ensures x.status == status {
      var j :| 0 <= j < |t'| && t'[j] == x;
      assert t'[j].id == t[j].id;
    }
  }

  /** Confirming a request on the dashboard moves it from "Appointment
      Requests" to "Upcoming Appointments". */
  lemma ConfirmMovesRequestToUpcoming(t: seq<Appointment>, k: int)
    requires DistinctIds(t) && 0 <= k < |t| && t[k].status == Pending
    ensures var view := DoctorDashboard.DoctorView(DoctorDashboard.WithStatus(t, t[k].id, Confirmed), t[k].doctorId);
      && t[k].(status := Confirmed) in DoctorDashboard.Upcoming(view)
      && forall x :: x in DoctorDashboard.Requests(view) ==> x.id != t[k].id
  {
    var t' := DoctorDashboard.WithStatus(t, t[k].id, Confirmed);
    DoctorDashboard.WithStatusAt(t, t[k].id, Confirmed);
    assert t'[k] == t[k].(status := Confirmed);
    EntriesWithIdHaveStatus(t, t[k].id, Confirmed);
  }

  /** Cancelling takes the entry off both sections of the dashboard. */
  lemma CancelHidesEverywhere(t: seq<Appointment>, id: string, d: string)
    requires DistinctIds(t)
    ensures var view := DoctorDashboard.DoctorView(DoctorDashboard.WithStatus(t, id, Cancelled), d);
      forall x :: x in DoctorDashboard.Requests(view) || x in DoctorDashboard.Upcoming(view) ==> x.id != id
  {
    EntriesWithIdHaveStatus(t, id, Cancelled);
  }

  /** The entry a doctor prescribes for: the patient's list shows it completed
      with "View Prescription"; the live history read of the updated table
      holds it and its card lists the medicines in order, while every card of
      the demo history still reads "No prescription recorded."; and the
      doctor's dashboard shows it upcoming with the Completed badge. */
  lemma PrescriptionReachesPatient(t: seq<Appointment>, k: int, ms: seq<Medicine>, notes: string)
    requires DistinctIds(t) && 0 <= k < |t|
    ensures var a := t[k].(status := Completed, prescriptions := Some([Prescription(ms, notes)]));
      var t' := AddPrescription.Prescribed(t, t[k].id, ms, notes);
      && a in MyAppointments.PatientView(t', t[k].patientId)
      && MyAppointments.ViewPrescription(t[k].id) in MyAppointments.CardButtons(a)
      && a in PatientHistory.LiveHistory(t', t[k].patientId)
      && PatientHistory.Body(a) == PatientHistory.PrescriptionLines(Map(ms, PatientHistory.LineOf))
      && (forall h :: h in PatientHistory.DemoHistory(t', t[k].patientId) ==> PatientHistory.Body(h) == PatientHistory.NoPrescription)
      && a in DoctorDashboard.Upcoming(DoctorDashboard.DoctorView(t', t[k].doctorId))
      && DoctorDashboard.Offered(DoctorDashboard.DoctorView(t', t[k].doctorId), a, DoctorDashboard.CompletedBadge)
  {
    var a := t[k].(status := Completed, prescriptions := Some([Prescription(ms, notes)]));
    var t' := AddPrescription.Prescribed(t, t[k].id, ms, notes);
    AddPrescription.PrescribedAt(t, t[k].id, ms, notes);
    assert t'[k] == a;
    forall h | h in PatientHistory.DemoHistory(t', t[k].patientId)
      ensures PatientHistory.Body(h) == PatientHistory.NoPrescription
    {
      PatientHistory.DemoHistoryShowsNoPrescription(t', t[k].patientId, h);
    }
    var view := DoctorDashboard.DoctorView(t', t[k].doctorId);
    assert a in DoctorDashboard.Upcoming(view);
    assert DoctorDashboard.CompletedBadge in DoctorDashboard.UpcomingCardActions(a);
  }

  /** A successful booking's row, once in the table, is in the patient's
      list and among the doctor's requests. */
  lemma BookingReachesBothSides(t: seq<Appointment>, doctorId: string, user: User,
                                s: BookAppointment.Selection, newId: string)
    requires !BookAppointment.Incomplete(s)
    ensures var w := BookAppointment.HandleBook(doctorId, Some(user), s, Ok).write.value;
      var a := BookAppointment.BookedRow(w, newId);
      && a in MyAppointments.PatientView(t + [a], user.id)
      && a in DoctorDashboard.Requests(DoctorDashboard.DoctorView(t + [a], doctorId))
  {
    var w := BookAppointment.HandleBook(doctorId, Some(user), s, Ok).write.value;
    var a := BookAppointment.BookedRow(w, newId);
    assert a == (t + [a])[|t|];
  }

  /** A five-entry table whose first, second and fifth entries are the patient's. */
  lemma PatientViewOfFive(t: seq<Appointment>, p: string)
    requires |t| == 5
    requires forall k :: 0 <= k < 5 ==> (t[k].patientId == p <==> k == 0 || k == 1 || k == 4)
    ensures MyAppointments.PatientView(t, p) == [t[0], t[1], t[4]]
  {
    var q := MyAppointments.PatientIs(p);
    assert t[5..] == [];
    FilterFrom(t, q, 4); FilterFrom(t, q, 3); FilterFrom(t, q, 2);
    FilterFrom(t, q, 1); FilterFrom(t, q, 0);
    assert t[0..] == t;
  }

  /** Logging in as the demo patient shows appt-1, appt-2 and appt-5, and
      only appt-5, the completed one, offers its prescription. */
  lemma DemoPatientFirstScreen(live: Fetched<Appointment>, current: seq<Appointment>)
    ensures var list := MyAppointments.FetchMyAppointments(DemoLoginStep(PatientRole).user, MockData.MockAppointments(), live, current);
      && Ids(list) == ["appt-1", "appt-2", "appt-5"]
      && (forall a :: a in list ==> (|MyAppointments.CardButtons(a)| > 0 <==> a.status == Completed))
      && list[2].status == Completed
  {
    MockData.DemoPatientOwnsThree();
    PatientListOfFive(MockData.MockAppointments(), DemoLoginStep(PatientRole).user.value, live, current);
  }

  /** The demo patient's list over a table shaped like the fixture. */
  lemma PatientListOfFive(t: seq<Appointment>, user: User, live: Fetched<Appointment>, current: seq<Appointment>)
    requires |t| == 5 && user.id == "demo-patient-id"
    requires forall k :: 0 <= k < 5 ==> (t[k].patientId == "demo-patient-id" <==> k == 0 || k == 1 || k == 4)
    requires t[0].id == "appt-1" && t[0].status == Confirmed
    requires t[1].id == "appt-2" && t[1].status == Pending
    requires t[4].id == "appt-5" && t[4].status == Completed
    ensures var list := MyAppointments.FetchMyAppointments(Some(user), t, live, current);
      && Ids(list) == ["appt-1", "appt-2", "appt-5"]
      && (forall a :: a in list ==> (|MyAppointments.CardButtons(a)| > 0 <==> a.status == Completed))
      && list[2].status == Completed
  {
    PatientViewOfFive(t, "demo-patient-id");
    var list := MyAppointments.FetchMyAppointments(Some(user), t, live, current);
    assert IsDemoId(user.id) by {
      assert user.id[..|DemoPrefix|] == DemoPrefix;
    }
    assert list == [t[0], t[1], t[4]];
    var ids := Ids(list);
    assert ids[0] == "appt-1" && ids[1] == "appt-2" && ids[2] == "appt-5";
    CardsOfThree(t[0], t[1], t[4]);
  }

  /** A confirmed, a pending and a completed entry: only the completed one
      has a card button. */
  lemma CardsOfThree(x: Appointment, y: Appointment, z: Appointment)
    requires x.status == Confirmed && y.status == Pending && z.status == Completed
    ensures forall a :: a in [x, y, z] ==> (|MyAppointments.CardButtons(a)| > 0 <==> a.status == Completed)
  {
  }

  /** Logging in as the demo doctor shows appt-4 as a request and appt-3 as
      upcoming. */
  lemma DemoDoctorFirstScreen(live: Fetched<Appointment>, current: seq<Appointment>)
    ensures var list := DoctorDashboard.FetchAppointments(DemoLoginStep(DoctorRole).user, MockData.MockAppointments(), live, current);
      && Ids(DoctorDashboard.Requests(list)) == ["appt-4"]
      && Ids(DoctorDashboard.Upcoming(list)) == ["appt-3"]
  {
    DoctorDashboard.DemoDoctorDashboard();
  }
}
