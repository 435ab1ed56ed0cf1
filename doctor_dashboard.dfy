/** The doctor's dashboard: the doctor's appointment list, its split into
    "Appointment Requests" and "Upcoming Appointments", the buttons each card
    offers, and `updateStatus`, which in demo mode overwrites one fixture
    entry's status in place. */
module DoctorDashboard {
  import opened Common
  import opened Domain
  import opened Seqs
  import opened Gateway
  import opened AuthStore
  import MockData

  /** The predicate `a.doctor_id === doctorId`, named so every use is the same term. */
  function DoctorIs(doctorId: string): Appointment -> bool {
    (a: Appointment) => a.doctorId == doctorId
  }

  /** One doctor's appointments, in table order: the demo filter, and what the
      live query's `eq('doctor_id', ...)` keeps of the backend table. */
  function DoctorView(t: seq<Appointment>, doctorId: string): (r: seq<Appointment>)
    ensures forall a :: a in r <==> a in t && a.doctorId == doctorId
    ensures IsSubseq(r, t)
  {
    FilterIsSubseq(t, DoctorIs(doctorId));
    Filter(t, DoctorIs(doctorId))
  }

  /** `fetchAppointments`: the list the screen holds afterwards. `current` is
      the list before; `live` is the backend table (or the read's error). */
  function FetchAppointments(user: Option<User>, demoTable: seq<Appointment>, live: Fetched<Appointment>,
                             current: seq<Appointment>): (r: seq<Appointment>)
    ensures user.None? ==> r == current
    ensures user.Some? && IsDemoId(user.value.id) ==> r == DoctorView(demoTable, user.value.id)
    ensures user.Some? && !IsDemoId(user.value.id) && live.Rows? ==> r == DoctorView(live.rows, user.value.id)
    ensures user.Some? && !IsDemoId(user.value.id) && live.ReadError? ==> r == current
  {
    if user.None? then current
    else if IsDemoId(user.value.id) then DoctorView(demoTable, user.value.id)
    else match live
      case Rows(rows) => DoctorView(rows, user.value.id)
      case ReadError(_) => current
  }

  /** The section predicates, named like `DoctorIs`. */
  function IsRequest(): Appointment -> bool {
    (a: Appointment) => a.status == Pending
  }

  function IsUpcoming(): Appointment -> bool {
    (a: Appointment) => a.status == Confirmed || a.status == Completed
  }

  /** The "Appointment Requests" section: the pending entries. */
  function Requests(list: seq<Appointment>): (r: seq<Appointment>)
    ensures forall a :: a in r <==> a in list && a.status == Pending
  {
    Filter(list, IsRequest())
  }

  /** The "Upcoming Appointments" section: the confirmed and completed entries. */
  function Upcoming(list: seq<Appointment>): (r: seq<Appointment>)
    ensures forall a :: a in r <==> a in list && (a.status == Confirmed || a.status == Completed)
  {
    Filter(list, IsUpcoming())
  }

  /** The requests header is drawn only when there is a request; the upcoming
      section shows "No upcoming appointments." when it is empty. */
  predicate RequestsShown(list: seq<Appointment>) { |Requests(list)| > 0 }
  predicate UpcomingPlaceholder(list: seq<Appointment>) { |Upcoming(list)| == 0 }

  /** The two sections never share an entry, and an entry of any other status
      (a cancelled one, say) is in neither. */
  lemma SectionsPartition(list: seq<Appointment>, a: Appointment)
    ensures !(a in Requests(list) && a in Upcoming(list))
    ensures a in list && a.status !in {Pending, Confirmed, Completed} ==> a !in Requests(list) && a !in Upcoming(list)
    ensures a in list ==> (a in Requests(list) || a in Upcoming(list) <==> a.status in {Pending, Confirmed, Completed})
  {
  }

  /** The buttons of a card. */
  datatype Action = Confirm | Cancel | CompleteAndPrescribe | CompletedBadge | ViewHistory

  /** A request card: Confirm, Cancel and View History. */
  function RequestCardActions(): seq<Action> {
    [Confirm, Cancel, ViewHistory]
  }

  /** An upcoming card: Complete & Prescribe when confirmed, the disabled
      Completed badge when completed, and View History. */
  function UpcomingCardActions(a: Appointment): seq<Action> {
    (if a.status == Confirmed then [CompleteAndPrescribe] else [])
    + (if a.status == Completed then [CompletedBadge] else [])
    + [ViewHistory]
  }

  /** `act` is on some card drawn for `a`. */
  predicate Offered(list: seq<Appointment>, a: Appointment, act: Action) {
    (a in Requests(list) && act in RequestCardActions())
    || (a in Upcoming(list) && act in UpcomingCardActions(a))
  }

  /** Confirm and Cancel appear exactly on pending entries; Complete &
      Prescribe exactly on confirmed ones; every shown entry offers its history. */
  lemma {:induction false} OfferedActions(list: seq<Appointment>, a: Appointment)
    requires a in list
    ensures Offered(list, a, Confirm) <==> a.status == Pending
    ensures Offered(list, a, Cancel) <==> a.status == Pending
    ensures Offered(list, a, CompleteAndPrescribe) <==> a.status == Confirmed
    ensures Offered(list, a, ViewHistory) <==> a.status in {Pending, Confirmed, Completed}
  {
    assert a in Requests(list) <==> a.status == Pending;
    assert a in Upcoming(list) <==> a.status == Confirmed || a.status == Completed;
  }

  /** What pressing a button asks for. */
  datatype Intent =
    | SetStatus(appointmentId: string, status: string)
    | OpenAddPrescription(appointmentId: string)
    | OpenPatientHistory(patientId: string)
    | NoIntent

  /** What a button press asks for: a status write on that very entry (only
      confirmed or cancelled), the prescription form for it, or its patient's
      history. */
  function Press(a: Appointment, act: Action): (r: Intent)
    ensures r.SetStatus? ==> r.appointmentId == a.id && r.status in {Confirmed, Cancelled}
    ensures r.SetStatus? <==> act in {Confirm, Cancel}
    ensures r.OpenAddPrescription? ==> r.appointmentId == a.id
    ensures r.OpenPatientHistory? ==> r.patientId == a.patientId
    ensures r.NoIntent? <==> act == CompletedBadge
    ensures act == Confirm ==> r == SetStatus(a.id, Confirmed)
    ensures act == Cancel ==> r == SetStatus(a.id, Cancelled)
    ensures act == CompleteAndPrescribe ==> r == OpenAddPrescription(a.id)
    ensures act == ViewHistory ==> r == OpenPatientHistory(a.patientId)
  {
    match act
    case Confirm => SetStatus(a.id, Confirmed)
    case Cancel => SetStatus(a.id, Cancelled)
    case CompleteAndPrescribe => OpenAddPrescription(a.id)
    case CompletedBadge => NoIntent
    case ViewHistory => OpenPatientHistory(a.patientId)
  }

  /** `a.status = status` */
  function StatusSetter(status: string): Appointment -> Appointment {
    (a: Appointment) => a.(status := status)
  }

  /** The demo `updateStatus` on the fixture table: the first entry with that
      id gets the new status, whatever its old one was. */
  function WithStatus(t: seq<Appointment>, id: string, status: string): (r: seq<Appointment>)
    ensures |r| == |t| && Ids(r) == Ids(t)
    ensures (forall k :: 0 <= k < |t| ==> t[k].id != id) ==> r == t
  {
    UpdateById(t, id, StatusSetter(status))
  }

  /** With unique ids: exactly the entry with that id changes, and only in its status. */
  lemma WithStatusAt(t: seq<Appointment>, id: string, status: string)
    requires DistinctIds(t)
    ensures DistinctIds(WithStatus(t, id, status))
    ensures forall k :: 0 <= k < |t| ==>
      WithStatus(t, id, status)[k] == if t[k].id == id then t[k].(status := status) else t[k]
  {
    UpdateByIdAt(t, id, StatusSetter(status));
  }

  /** Demo `updateStatus`: overwrite the status in the fixture, then re-derive
      the doctor's list from the updated table. */
  method UpdateStatusDemo(store: MockData.DemoStore, userId: string, id: string, status: string)
    returns (list: seq<Appointment>)
    requires store.Valid()
    modifies store
    ensures store.Valid()
    ensures store.appointments == WithStatus(old(store.appointments), id, status)
    ensures store.availability == old(store.availability) && store.prescriptions == old(store.prescriptions)
    ensures list == DoctorView(store.appointments, userId)
  {
    var apptIndex := FindIndex(store.appointments, IdIs(id));
    WithStatusAt(store.appointments, id, status);
    if apptIndex != -1 {
      store.appointments := store.appointments[apptIndex := store.appointments[apptIndex].(status := status)];
    }
    list := DoctorView(store.appointments, userId);
  }

  /** What a live `updateStatus` produced: the write, an alert, and the list. */
  datatype StatusUpdate = StatusUpdate(write: Option<Request>, alert: Option<Alert>, list: seq<Appointment>)

  /** Live `updateStatus`: one update write; on an error its message is shown
      and the list kept, on success the list is fetched again. */
  function UpdateStatusLive(user: Option<User>, id: string, status: string, reply: Reply,
                            refetched: Fetched<Appointment>, current: seq<Appointment>): (r: StatusUpdate)
    requires user.Some? ==> !IsDemoId(user.value.id)
    ensures r.write == Some(UpdateAppointmentStatus(id, status))
    ensures reply.Failed? ==> r.alert == Some(Alert("Error", reply.message)) && r.list == current
    ensures reply.Ok? ==> r.alert.None? && r.list == FetchAppointments(user, [], refetched, current)
  {
    var write := Some(UpdateAppointmentStatus(id, status));
    match reply
    case Failed(message) => StatusUpdate(write, Some(Alert("Error", message)), current)
    case Ok => StatusUpdate(write, None, FetchAppointments(user, [], refetched, current))
  }

  /** `updateStatus`: the demo branch is taken for a demo user id; with no
      user, or a real one, the backend is written. */
  method UpdateStatus(store: MockData.DemoStore, user: Option<User>, id: string, status: string,
                      reply: Reply, refetched: Fetched<Appointment>, current: seq<Appointment>)
    returns (r: StatusUpdate)
    requires store.Valid()
    modifies store
    ensures store.Valid()
    ensures user.Some? && IsDemoId(user.value.id) ==>
      && store.appointments == WithStatus(old(store.appointments), id, status)
      && r == StatusUpdate(None, None, DoctorView(store.appointments, user.value.id))
    ensures !(user.Some? && IsDemoId(user.value.id)) ==>
      && store.appointments == old(store.appointments)
      && r == UpdateStatusLive(user, id, status, reply, refetched, current)
    ensures store.availability == old(store.availability) && store.prescriptions == old(store.prescriptions)
  {
    if user.Some? && IsDemoId(user.value.id) {
      var list := UpdateStatusDemo(store, user.value.id, id, status);
      r := StatusUpdate(None, None, list);
    } else {
      r := UpdateStatusLive(user, id, status, reply, refetched, current);
    }
  }

  /** The demo doctor's first dashboard: appt-4 is a request, appt-3 is upcoming. */
  lemma DemoDoctorDashboard()
    ensures Ids(DoctorView(MockData.MockAppointments(), "demo-doctor-id")) == ["appt-3", "appt-4"]
    ensures Ids(Requests(DoctorView(MockData.MockAppointments(), "demo-doctor-id"))) == ["appt-4"]
    ensures Ids(Upcoming(DoctorView(MockData.MockAppointments(), "demo-doctor-id"))) == ["appt-3"]
  {
    MockData.DemoDoctorOwnsTwo();
    DoctorDashboardOfFive(MockData.MockAppointments(), "demo-doctor-id");
  }

  /** The dashboard over a table shaped like the fixture. */
  lemma DoctorDashboardOfFive(t: seq<Appointment>, d: string)
    requires |t| == 5
    requires forall k :: 0 <= k < 5 ==> (t[k].doctorId == d <==> k == 2 || k == 3)
    requires t[2].id == "appt-3" && t[2].status == Confirmed
    requires t[3].id == "appt-4" && t[3].status == Pending
    ensures Ids(DoctorView(t, d)) == ["appt-3", "appt-4"]
    ensures Ids(Requests(DoctorView(t, d))) == ["appt-4"]
    ensures Ids(Upcoming(DoctorView(t, d))) == ["appt-3"]
  {
    DashboardOfFive(t, d);
    SectionsOfPair(t[2], t[3]);
  }

  /** A five-entry table whose third and fourth entries are the doctor's. */
  lemma DashboardOfFive(t: seq<Appointment>, d: string)
    requires |t| == 5
    requires forall k :: 0 <= k < 5 ==> (t[k].doctorId == d <==> k == 2 || k == 3)
    ensures DoctorView(t, d) == [t[2], t[3]]
  {
    var p := DoctorIs(d);
    assert t[5..] == [];
    FilterFrom(t, p, 4); FilterFrom(t, p, 3); FilterFrom(t, p, 2);
    FilterFrom(t, p, 1); FilterFrom(t, p, 0);
    assert t[0..] == t;
  }

  /** A confirmed entry followed by a pending one: one section each. */
  lemma SectionsOfPair(x: Appointment, y: Appointment)
    requires x.status == Confirmed && y.status == Pending
    ensures Requests([x, y]) == [y]
    ensures Upcoming([x, y]) == [x]
  {
    var pend, up := IsRequest(), IsUpcoming();
    assert [x, y] == [x] + [y];
    FilterAppend([x], [y], pend);
    FilterSingle(x, pend); FilterSingle(y, pend);
    FilterAppend([x], [y], up);
    FilterSingle(x, up); FilterSingle(y, up);
  }
}
